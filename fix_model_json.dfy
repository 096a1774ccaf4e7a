/**
 * The repair of a converted model description (`fix_model_json.py`): the
 * layer list is found under `modelTopology.config` (TensorFlow.js format)
 * or under `config` (Keras format); an empty list is reset to `[]`, a first
 * layer that is not an InputLayer gets an InputLayer `input_1` put in front
 * of it, and an InputLayer without a usable `batch_input_shape` gets the
 * 224 x 224 x 3 shape. The file is written back only when something changed.
 */
module FixModelJson {
  import opened PyJson
  import opened KerasLayers

  const TFJS_LAYERS_PATH: seq<string> := ["modelTopology", "config", "layers"]
  const KERAS_LAYERS_PATH: seq<string> := ["config", "layers"]

  /** Where the layer list sits, for a document with or without `modelTopology`. */
  function LayersPath(isTfjs: bool): (path: seq<string>)
    ensures |path| >= 2 && path[|path| - 1] == "layers"
    ensures path[0] == (if isTfjs then "modelTopology" else "config")
  {
    if isTfjs then TFJS_LAYERS_PATH else KERAS_LAYERS_PATH
  }

  /** The document after the repair, and whether the repair changed anything. */
  datatype Repair = Repair(doc: Json, needsFix: bool)

  /**
   * How a run ends: the function returns its success flag (with the document
   * it wrote, if it wrote one), or an exception escapes it.
   */
  datatype Outcome = Returned(success: bool, written: Option<Json>) | Raised(error: PyError)

  /** The layer that used to be first, once an InputLayer precedes it: empty inbound nodes now name `input_1`. */
  function ConnectedToInput(layer: map<string, Json>): Json
  {
    if "inbound_nodes" in layer && !Truthy(layer["inbound_nodes"])
    then JObject(layer["inbound_nodes" := INBOUND_FROM_INPUT_1])
    else JObject(layer)
  }

  /** `config` with the 224 x 224 x 3 input shape assigned. */
  function WithInputShape(config: Json): Result<Json>
  {
    var c :- SetItem(config, "batch_input_shape", BATCH_INPUT_SHAPE);
    SetItem(c, "input_shape", INPUT_SHAPE)
  }

  /**
   * The config of an InputLayer with the input shape filled in, or None when
   * it already carries a `batch_input_shape` that is not null.
   */
  function FilledConfig(config: Json): Result<Option<Json>>
  {
    var present :- In("batch_input_shape", config);
    if !present then
      var c :- WithInputShape(config);
      Ok(Some(c))
    else
      var shape :- Get(config, "batch_input_shape", JNull);
      if shape != JNull then Ok(None)
      else
        var c :- WithInputShape(config);
        Ok(Some(c))
  }

  /** The repaired contents of a non-empty layer list, or None when its first layer needs nothing. */
  function RepairedLayers(layers: Json): Result<Option<seq<Json>>>
    requires Truthy(layers)
  {
    match layers
    case JArray(xs) =>
      (match xs[0]
       case JObject(first) =>
         if Lookup(first, "class_name") != INPUT_LAYER_CLASS then
           Ok(Some([InputLayer("input_1"), ConnectedToInput(first)] + xs[1..]))
         else if "config" !in first then Ok(None)
         else
           var config :- FilledConfig(first["config"]);
           (match config
            case None => Ok(None)
            case Some(c) => Ok(Some([JObject(first["config" := c])] + xs[1..])))
       case _ => Err(AttributeError))
    case JObject(_) => Err(KeyError)          // layers[0] on a dict with string keys
    case JString(_) => Err(AttributeError)    // layers[0] is a str, which has no .get
    case _ => Err(TypeError)                  // len() of a number or of True
  }

  /** What one run does to a loaded document, or the exception it raises. */
  function Repaired(doc: Json): (r: Result<Repair>)
    ensures r.Ok? ==> doc.JObject? && r.value.doc.JObject?
    ensures r.Ok? && !r.value.needsFix ==> r.value.doc == doc
  {
    var isTfjs :- In("modelTopology", doc);
    var path := LayersPath(isTfjs);
    var layers :- GetPath(doc, path);
    if !Truthy(layers) then
      var doc' :- SetPath(doc, path, EMPTY_ARRAY);
      Ok(Repair(doc', true))
    else
      var fixed :- RepairedLayers(layers);
      match fixed
      case None => Ok(Repair(doc, false))
      case Some(ys) =>
        var doc' :- SetPath(doc, path, JArray(ys));
        Ok(Repair(doc', true))
  }

  /**
   * One run of the script on the document it loaded (None when the file
   * could not be opened or parsed). `saveSucceeds` says whether writing the
   * repaired file works; a failing backup copy is only reported.
   */
  method FixModelJson(loaded: Option<Json>, saveSucceeds: bool) returns (outcome: Outcome)
    ensures loaded.None? ==> outcome == Returned(false, None)
    ensures loaded.Some? && Repaired(loaded.value).Err? ==>
      outcome == Raised(Repaired(loaded.value).error)
    ensures loaded.Some? && Repaired(loaded.value).Ok? ==>
      var repair := Repaired(loaded.value).value;
      outcome == (if !repair.needsFix then Returned(true, None)
                  else if saveSucceeds then Returned(true, Some(repair.doc))
                  else Returned(false, None))
  {
    if loaded.None? {
      return Returned(false, None);
    }
    var modelJson := loaded.value;
    var isTfjsTest := In("modelTopology", modelJson);
    if isTfjsTest.Err? {
      return Raised(isTfjsTest.error);
    }
    var isTfjsFormat := isTfjsTest.value;
    var needsFix := false;

    var modelConfig: Json;
    if isTfjsFormat {
      var topology := Get(modelJson, "modelTopology", EMPTY_OBJECT);
      if topology.Err? {
        return Raised(topology.error);
      }
      var config := Get(topology.value, "config", EMPTY_OBJECT);
      if config.Err? {
        return Raised(config.error);
      }
      modelConfig := config.value;
    } else {
      var config := Get(modelJson, "config", EMPTY_OBJECT);
      if config.Err? {
        return Raised(config.error);
      }
      modelConfig := config.value;
    }
    var layersLookup := Get(modelConfig, "layers", EMPTY_ARRAY);
    if layersLookup.Err? {
      return Raised(layersLookup.error);
    }
    var layers := layersLookup.value;
    var path := LayersPath(isTfjsFormat);
    assert GetPath(modelJson, path) == Ok(layers);

    if !Truthy(layers) {
      needsFix := true;
      var reset := SetPath(modelJson, path, EMPTY_ARRAY);
      if reset.Err? {
        return Raised(reset.error);
      }
      modelJson := reset.value;
      assert Repaired(loaded.value) == Ok(Repair(modelJson, true));
    } else {
      SetPathSame(modelJson, path);
      match layers
      case JArray(items) => {
        match items[0] {
        case JObject(first) => {
          if Lookup(first, "class_name") != INPUT_LAYER_CLASS {
            var list := [InputLayer("input_1")] + items;
            needsFix := true;
            if "inbound_nodes" in first && !Truthy(first["inbound_nodes"]) {
              list := list[1 := JObject(first["inbound_nodes" := INBOUND_FROM_INPUT_1])];
            }
            assert list == [InputLayer("input_1"), ConnectedToInput(first)] + items[1..];
            assert RepairedLayers(layers) == Ok(Some(list));
            SetPathAnyValue(modelJson, path, layers, JArray(list));
            modelJson := SetPath(modelJson, path, JArray(list)).value;
            assert Repaired(loaded.value) == Ok(Repair(modelJson, true));
          } else if "config" in first {
            var config := first["config"];
            var presentTest := In("batch_input_shape", config);
            if presentTest.Err? {
              return Raised(presentTest.error);
            }
            var fill := false;
            if !presentTest.value {
              fill := true;
            } else {
              var shape := Get(config, "batch_input_shape", JNull);
              if shape.Err? {
                return Raised(shape.error);
              }
              fill := shape.value == JNull;
            }
            if fill {
              var withShape := SetItem(config, "batch_input_shape", BATCH_INPUT_SHAPE);
              if withShape.Err? {
                return Raised(withShape.error);
              }
              var filled := SetItem(withShape.value, "input_shape", INPUT_SHAPE).value;
              needsFix := true;
              var list := items[0 := JObject(first["config" := filled])];
              assert list == [JObject(first["config" := filled])] + items[1..];
              assert FilledConfig(config) == Ok(Some(filled));
              assert RepairedLayers(layers) == Ok(Some(list));
              SetPathAnyValue(modelJson, path, layers, JArray(list));
              modelJson := SetPath(modelJson, path, JArray(list)).value;
              assert Repaired(loaded.value) == Ok(Repair(modelJson, true));
            }
          }
        }
        case _ =>
          return Raised(AttributeError);
        }
      }
      case JObject(_) =>
        return Raised(KeyError);
      case JString(_) =>
        return Raised(AttributeError);
      case _ =>
        return Raised(TypeError);
    }

    if needsFix {
      if saveSucceeds {
        return Returned(true, Some(modelJson));
      }
      return Returned(false, None);
    }
    return Returned(true, None);
  }

  /**
   * The repair assigns the layer list at its path and nothing else: the
   * result is the loaded document with that one entry replaced.
   */
  lemma RepairAssignsOnlyLayerList(doc: Json)
    requires Repaired(doc).Ok?
    ensures doc.JObject?
    ensures var path := LayersPath("modelTopology" in doc.fields);
      var d := Repaired(doc).value.doc;
      GetPath(d, path).Ok? && SetPath(doc, path, GetPath(d, path).value) == Ok(d)
  {
    var path := LayersPath("modelTopology" in doc.fields);
    var layers := GetPath(doc, path).value;
    if !Truthy(layers) {
      SetPathThenGet(doc, path, EMPTY_ARRAY);
    } else {
      match RepairedLayers(layers).value
      case None =>
        SetPathSame(doc, path);
      case Some(ys) =>
        SetPathThenGet(doc, path, JArray(ys));
    }
  }

  /** A repair of a non-empty layer list that changes it stores the repaired list at its path. */
  lemma LayerListReplaced(doc: Json, layers: Json, ys: seq<Json>)
    requires doc.JObject?
    requires GetPath(doc, LayersPath("modelTopology" in doc.fields)) == Ok(layers)
    requires Truthy(layers) && RepairedLayers(layers) == Ok(Some(ys))
    ensures Repaired(doc).Ok? && Repaired(doc).value.needsFix
    ensures GetPath(Repaired(doc).value.doc, LayersPath("modelTopology" in doc.fields)) == Ok(JArray(ys))
  {
    var path := LayersPath("modelTopology" in doc.fields);
    SetPathSame(doc, path);
    SetPathAnyValue(doc, path, layers, JArray(ys));
    SetPathThenGet(doc, path, JArray(ys));
  }

  /**
   * When the first layer is not an InputLayer, the repaired list is one
   * longer: an InputLayer named `input_1` comes first, then the old layers
   * in their order, the old first one connected to `input_1` when its
   * inbound nodes were empty.
   */
  lemma InsertsInputLayer(doc: Json, xs: seq<Json>)
    requires doc.JObject?
    requires GetPath(doc, LayersPath("modelTopology" in doc.fields)) == Ok(JArray(xs))
    requires |xs| > 0 && xs[0].JObject? && Lookup(xs[0].fields, "class_name") != INPUT_LAYER_CLASS
    ensures Repaired(doc).Ok? && Repaired(doc).value.needsFix
    ensures var path := LayersPath("modelTopology" in doc.fields);
      var d := Repaired(doc).value.doc;
      GetPath(d, path).Ok? && GetPath(d, path).value.JArray? &&
      var ys := GetPath(d, path).value.items;
      && |ys| == |xs| + 1
      && ys[0] == InputLayer("input_1")
      && (forall i :: 1 <= i < |xs| ==> ys[i + 1] == xs[i])
      && ys[1] == (if "inbound_nodes" in xs[0].fields && !Truthy(xs[0].fields["inbound_nodes"])
                   then JObject(xs[0].fields["inbound_nodes" := INBOUND_FROM_INPUT_1])
                   else xs[0])
  {
    var ys := [InputLayer("input_1"), ConnectedToInput(xs[0].fields)] + xs[1..];
    assert RepairedLayers(JArray(xs)) == Ok(Some(ys));
    LayerListReplaced(doc, JArray(xs), ys);
    assert forall i :: 1 <= i < |xs| ==> ys[i + 1] == xs[i];
  }

  /**
   * An InputLayer whose config is a dict without `batch_input_shape`, or
   * with a null one, gets `[None, 224, 224, 3]` and `input_shape`
   * `[224, 224, 3]`; every other layer and every other config entry stays.
   */
  lemma FillsInputShape(doc: Json, xs: seq<Json>, config: map<string, Json>)
    requires doc.JObject?
    requires GetPath(doc, LayersPath("modelTopology" in doc.fields)) == Ok(JArray(xs))
    requires |xs| > 0 && xs[0].JObject? && Lookup(xs[0].fields, "class_name") == INPUT_LAYER_CLASS
    requires "config" in xs[0].fields && xs[0].fields["config"] == JObject(config)
    requires "batch_input_shape" !in config || config["batch_input_shape"] == JNull
    ensures Repaired(doc).Ok? && Repaired(doc).value.needsFix
    ensures var path := LayersPath("modelTopology" in doc.fields);
      var d := Repaired(doc).value.doc;
      var config' := config["batch_input_shape" := BATCH_INPUT_SHAPE]["input_shape" := INPUT_SHAPE];
      GetPath(d, path) == Ok(JArray([JObject(xs[0].fields["config" := JObject(config')])] + xs[1..]))
  {
    var config' := config["batch_input_shape" := BATCH_INPUT_SHAPE]["input_shape" := INPUT_SHAPE];
    var ys := [JObject(xs[0].fields["config" := JObject(config')])] + xs[1..];
    assert WithInputShape(JObject(config)) == Ok(JObject(config'));
    assert FilledConfig(JObject(config)) == Ok(Some(JObject(config')));
    assert RepairedLayers(JArray(xs)) == Ok(Some(ys));
    LayerListReplaced(doc, JArray(xs), ys);
  }

  /**
   * An InputLayer first needs nothing when it has no `config` at all, or
   * when its config is a dict with a `batch_input_shape` that is not null:
   * the run writes nothing.
   */
  lemma InputLayerKeptAsIs(doc: Json, xs: seq<Json>)
    requires doc.JObject?
    requires GetPath(doc, LayersPath("modelTopology" in doc.fields)) == Ok(JArray(xs))
    requires |xs| > 0 && xs[0].JObject? && Lookup(xs[0].fields, "class_name") == INPUT_LAYER_CLASS
    requires "config" in xs[0].fields ==>
      xs[0].fields["config"].JObject? && Lookup(xs[0].fields["config"].fields, "batch_input_shape") != JNull
    ensures Repaired(doc) == Ok(Repair(doc, false))
  {
    if "config" in xs[0].fields {
      assert FilledConfig(xs[0].fields["config"]) == Ok(None);
    }
    assert RepairedLayers(JArray(xs)) == Ok(None);
  }

  /**
   * An empty or missing layer list is reset to `[]` and nothing is inserted
   * into it, since the list is empty after the reset.
   */
  lemma EmptyLayersStayEmpty(doc: Json)
    requires doc.JObject?
    requires var layers := GetPath(doc, LayersPath("modelTopology" in doc.fields));
      layers.Ok? && !Truthy(layers.value)
    requires Repaired(doc).Ok?
    ensures Repaired(doc).value.needsFix
    ensures GetPath(Repaired(doc).value.doc, LayersPath("modelTopology" in doc.fields)) == Ok(EMPTY_ARRAY)
  {
    SetPathThenGet(doc, LayersPath("modelTopology" in doc.fields), EMPTY_ARRAY);
  }

  /**
   * The reset of an empty layer list assigns through `model_json[...]`, so
   * it raises KeyError when the dict that should hold the list is missing.
   */
  lemma EmptyLayersWithoutConfigRaise(doc: Json)
    requires doc.JObject?
    requires if "modelTopology" in doc.fields
             then doc.fields["modelTopology"].JObject? && "config" !in doc.fields["modelTopology"].fields
             else "config" !in doc.fields
    ensures Repaired(doc) == Err(KeyError)
  {
  }

  /** The InputLayer the script inserts is complete: a second repair finds nothing to fill in it. */
  lemma InsertedLayerComplete()
    ensures FilledConfig(InputLayer("input_1").fields["config"]) == Ok(None)
  {
  }

  /** A repaired layer list is settled: repairing it again finds nothing to do. */
  lemma RepairedLayersSettled(layers: Json, ys: seq<Json>)
    requires Truthy(layers) && RepairedLayers(layers) == Ok(Some(ys))
    ensures Truthy(JArray(ys)) && RepairedLayers(JArray(ys)) == Ok(None)
  {
    var first := layers.items[0].fields;
    if Lookup(first, "class_name") != INPUT_LAYER_CLASS {
      InsertedLayerComplete();
    } else {
      var c := FilledConfig(first["config"]).value.value;
      assert c.JObject? && Lookup(c.fields, "batch_input_shape") == BATCH_INPUT_SHAPE;
      assert FilledConfig(c) == Ok(None);
    }
  }

  /** The layer list of a repaired document is empty, or settled. */
  lemma RepairedListSettled(doc: Json)
    requires Repaired(doc).Ok?
    ensures var path := LayersPath("modelTopology" in doc.fields);
      var d := Repaired(doc).value.doc;
      && GetPath(d, path).Ok?
      && (GetPath(d, path) == Ok(EMPTY_ARRAY) ||
          (Truthy(GetPath(d, path).value) && RepairedLayers(GetPath(d, path).value) == Ok(None)))
  {
    var path := LayersPath("modelTopology" in doc.fields);
    var layers := GetPath(doc, path).value;
    if !Truthy(layers) {
      SetPathThenGet(doc, path, EMPTY_ARRAY);
    } else {
      match RepairedLayers(layers).value
      case None =>
        SetPathSame(doc, path);
      case Some(ys) =>
        SetPathThenGet(doc, path, JArray(ys));
        RepairedLayersSettled(layers, ys);
    }
  }

  /**
   * A second run on the document a run produced changes nothing, and it
   * still reports a fix only when the layer list is the empty list.
   */
  lemma RepairIdempotent(doc: Json)
    requires Repaired(doc).Ok?
    ensures var d := Repaired(doc).value.doc;
      && Repaired(d).Ok?
      && Repaired(d).value.doc == d
      && (Repaired(d).value.needsFix <==>
          GetPath(d, LayersPath("modelTopology" in d.fields)) == Ok(EMPTY_ARRAY))
  {
    var path := LayersPath("modelTopology" in doc.fields);
    var d := Repaired(doc).value.doc;
    RepairAssignsOnlyLayerList(doc);
    assert d.fields.Keys == doc.fields.Keys by {
      SetPathThenGet(doc, path, GetPath(d, path).value);
    }
    assert LayersPath("modelTopology" in d.fields) == path;
    RepairedListSettled(doc);
    if !Truthy(GetPath(doc, path).value) {
      SetPathThenGet(doc, path, EMPTY_ARRAY);
    } else if GetPath(d, path) != Ok(EMPTY_ARRAY) {
      SetPathSame(d, path);
    }
  }
}
