/**
 * The bookkeeping of `train_model.py` around training: the split of
 * `isic_dataset` into `train` and `val` with its per-class counts and
 * report, the guard that runs it only when a part is empty, the
 * `class_names` file, and the JSON fix-ups of `save_model` on the Keras
 * description, on the converter's TensorFlow.js output, and on the
 * fallback written when the converter is not installed.
 */
module TrainModel {
  import opened PyText
  import opened PyJson
  import opened KerasLayers
  import opened FixModelJson
  import opened FileTree
  import opened DatasetSplit
  import opened CountReport

  /**
   * The loop of `split_data_into_train_val()` over the class directories:
   * every class in listing order has its `.jpg` count recorded (also when
   * zero) and its images split and placed.
   */
  method SplitClasses(classes: seq<Entry>, tree: Tree)
    returns (counts: seq<Count>, splits: map<string, ClassSplit>, tree': Tree)
    requires UniqueNames(classes) && forall e :: e in classes ==> e.Dir?
    ensures |counts| == |classes|
    ensures forall i :: 0 <= i < |classes| ==> counts[i] == (classes[i].name, |JpgFiles(classes[i].listing)|)
    ensures SplitsOf(classes, splits) && SplitTree(tree, tree', classes, splits)
  {
    counts := [];
    splits := map[];
    tree' := tree;
    for i := 0 to |classes|
      invariant |counts| == i
      invariant forall j :: 0 <= j < i ==> counts[j] == (classes[j].name, |JpgFiles(classes[j].listing)|)
      invariant SplitsOf(classes[..i], splits) && SplitTree(tree, tree', classes[..i], splits)
    {
      var t := tree';
      var count, split;
      tree', count, split := SplitClass(tree', classes[i].name, classes[i].listing);
      counts := counts + [(classes[i].name, count)];
      SplitLoopStep(tree, t, tree', classes, i, splits, split);
      if split.Some? {
        splits := splits[classes[i].name := split.value];
      }
    }
    assert classes[..|classes|] == classes;
  }

  /**
   * `split_data_into_train_val()`: False (and nothing done) when there is
   * no class directory; otherwise every class is handled as `SplitClasses`
   * says. `report` is the order in which the counts are printed.
   */
  method SplitDataIntoTrainVal(entries: seq<Entry>, tree: Tree)
    returns (ok: bool, counts: seq<Count>, splits: map<string, ClassSplit>, report: seq<Count>, tree': Tree)
    requires IsListing(entries)
    ensures ok == (ClassDirs(entries) != [])
    ensures !ok ==> tree' == tree && counts == [] && splits == map[]
    ensures var classes := ClassDirs(entries);
      && |counts| == |classes|
      && (forall i :: 0 <= i < |classes| ==> counts[i] == (classes[i].name, |JpgFiles(classes[i].listing)|))
    ensures SplitsOf(ClassDirs(entries), splits) && SplitTree(tree, tree', ClassDirs(entries), splits)
    ensures report == ByCountDescending(counts)
  {
    var classes := ClassDirs(entries);
    if classes == [] {
      return false, [], map[], [], tree;
    }
    ok := true;
    counts, splits, tree' := SplitClasses(classes, tree);
    report := ByCountDescending(counts);
  }

  /** The tree after the module-level `os.makedirs` of `train`, `val` and `model`. */
  function WithOutputDirs(tree: Tree): Tree
  {
    MakeDirs(MakeDirs(MakeDirs(MakeDirs(tree, DATASET_DIR), PartDir(Train)), PartDir(Val)), "model")
  }

  /**
   * The `__main__` guard: the split runs only when `train` or `val` is
   * empty; `proceed` is false when the split found no class, where the
   * script exits with status 1.
   */
  method PrepareSplit(entries: seq<Entry>, tree: Tree) returns (ran: bool, proceed: bool, tree': Tree)
    requires IsListing(entries)
    ensures var t := WithOutputDirs(tree);
      ran == (IsEmptyDir(t, PartDir(Train)) || IsEmptyDir(t, PartDir(Val)))
    ensures !ran ==> proceed && tree' == WithOutputDirs(tree)
    ensures ran ==> proceed == (ClassDirs(entries) != [])
    ensures ran ==> exists splits :: SplitsOf(ClassDirs(entries), splits)
                                   && SplitTree(WithOutputDirs(tree), tree', ClassDirs(entries), splits)
    ensures ran && !proceed ==> tree' == WithOutputDirs(tree)
    ensures ran && proceed ==> !IsEmptyDir(tree', PartDir(Train)) && !IsEmptyDir(tree', PartDir(Val))
  {
    var t := WithOutputDirs(tree);
    ran := IsEmptyDir(t, PartDir(Train)) || IsEmptyDir(t, PartDir(Val));
    if ran {
      var counts, splits, report;
      proceed, counts, splits, report, tree' := SplitDataIntoTrainVal(entries, t);
      if proceed {
        var classes := ClassDirs(entries);
        SplitFillsParts(tree', classes);
      }
    } else {
      proceed := true;
      tree' := t;
    }
  }

  /** Every decimal rendering names one number. */
  lemma DecimalInjectiveAll()
    ensures forall a: nat, b: nat :: Decimal(a) == Decimal(b) ==> a == b
  {
    forall a: nat, b: nat | Decimal(a) == Decimal(b)
      ensures a == b
    {
      DecimalInjective(a, b);
    }
  }

  /** Keras numbers the classes with distinct indices. */
  predicate DistinctIndices(classIndices: map<string, nat>)
  {
    forall a, b :: a in classIndices && b in classIndices && a != b ==> classIndices[a] != classIndices[b]
  }

  /** `{str(v): k for k, v in class_indices.items()}`. */
  function ClassNames(classIndices: map<string, nat>): (r: map<string, string>)
    requires DistinctIndices(classIndices)
    ensures forall k :: k in classIndices ==> Decimal(classIndices[k]) in r && r[Decimal(classIndices[k])] == k
    ensures forall s :: s in r ==> r[s] in classIndices && Decimal(classIndices[r[s]]) == s
  {
    DecimalInjectiveAll();
    map k | k in classIndices :: Decimal(classIndices[k]) := k
  }

  /**
   * `class_names` inverts `class_indices`: looking a class up by the
   * decimal string of its index gives the class back, and every key of
   * `class_names` is such a string; there are as many names as classes.
   */
  lemma ClassNamesInverse(classIndices: map<string, nat>, s: string)
    requires DistinctIndices(classIndices)
    ensures s in ClassNames(classIndices) <==> exists k :: k in classIndices && Decimal(classIndices[k]) == s
    ensures s in ClassNames(classIndices) ==> ParseDecimal(s) == classIndices[ClassNames(classIndices)[s]]
  {
    var r := ClassNames(classIndices);
    if s in r {
      DecimalRoundTrip(classIndices[r[s]]);
    }
  }

  // ---- save_model: the Keras description ----

  /**
   * Lines 304-321 on the dict `model.to_json()` describes: an InputLayer
   * `input_layer` goes in front of a non-empty `config.layers` whose first
   * layer is not an InputLayer. For an InputLayer first, its config's
   * `batch_input_shape` is read (for a message), which raises when the
   * layer has no config dict.
   */
  function KerasInputFix(d: Json): Result<Json>
  {
    var hasConfig :- In("config", d);
    if !hasConfig then Ok(d)
    else
      var config :- Item(d, "config");
      var hasLayers :- In("layers", config);
      if !hasLayers then Ok(d)
      else
        var layers :- Item(config, "layers");
        var count :- Len(layers);
        if count == 0 then Ok(d)
        else
          var first :- At(layers, 0);
          var className :- Item(first, "class_name");
          if className == INPUT_LAYER_CLASS then
            var layerConfig :- Item(first, "config");
            var shape :- Get(layerConfig, "batch_input_shape", JNull);
            Ok(d)
          else
            match layers
            case JArray(xs) => SetPath(d, KERAS_LAYERS_PATH, JArray([InputLayer("input_layer")] + xs))
            case _ => Err(AttributeError)    // not reached: only a list's element has a `class_name`
  }

  /**
   * On a description whose `config.layers` is a list of dicts with a
   * `class_name`, the fix inserts exactly when the list is non-empty and
   * its first layer is not an InputLayer; the new list is the InputLayer
   * `input_layer` followed by the old layers, and nothing else changes.
   */
  lemma KerasFixInsertsOnlyBeforeNonInput(d: Json, xs: seq<Json>)
    requires d.JObject? && "config" in d.fields && d.fields["config"].JObject?
    requires Lookup(d.fields["config"].fields, "layers") == JArray(xs)
    requires xs != [] ==> xs[0].JObject? && "class_name" in xs[0].fields
    requires xs != [] && xs[0].fields["class_name"] == INPUT_LAYER_CLASS ==>
      "config" in xs[0].fields && xs[0].fields["config"].JObject?
    ensures KerasInputFix(d).Ok?
    ensures var fixed := KerasInputFix(d).value;
      if xs != [] && xs[0].fields["class_name"] != INPUT_LAYER_CLASS
      then GetPath(fixed, KERAS_LAYERS_PATH) == Ok(JArray([InputLayer("input_layer")] + xs))
           && SetPath(d, KERAS_LAYERS_PATH, JArray(xs)) == Ok(d)
           && SetPath(d, KERAS_LAYERS_PATH, JArray([InputLayer("input_layer")] + xs)) == Ok(fixed)
      else fixed == d
  {
    if xs != [] && xs[0].fields["class_name"] != INPUT_LAYER_CLASS {
      assert GetPath(d, KERAS_LAYERS_PATH) == Ok(JArray(xs));
      SetPathSame(d, KERAS_LAYERS_PATH);
      SetPathAnyValue(d, KERAS_LAYERS_PATH, JArray(xs), JArray([InputLayer("input_layer")] + xs));
      SetPathThenGet(d, KERAS_LAYERS_PATH, JArray([InputLayer("input_layer")] + xs));
    }
  }

  // ---- save_model: the converted TensorFlow.js description ----

  /** `[os.path.basename(p) for p in paths]` for a list of paths; a non-str path raises TypeError. */
  function BasenamesOf(ps: seq<Json>): Result<seq<Json>>
  {
    if forall i :: 0 <= i < |ps| ==> ps[i].JString? then
      Ok(seq(|ps|, i requires 0 <= i < |ps| && ps[i].JString? => JString(Basename(ps[i].s))))
    else Err(TypeError)
  }

  /** The comprehension over `manifest.get("paths", [])`, whatever that value is. */
  function Basenames(paths: Json): Result<seq<Json>>
  {
    match paths
    case JArray(ps) => BasenamesOf(ps)
    case JString(s) => Ok(seq(|s|, i requires 0 <= i < |s| => JString(Basename([s[i]]))))    // a str iterates over its characters
    case JObject(m) => if m == map[] then Ok([]) else Err(TypeError)
    case _ => Err(TypeError)    // None, a bool and a number are not iterable
  }

  /** One manifest entry with its `paths` replaced by their basenames. */
  function BasenamedEntry(entry: Json): Result<Json>
  {
    var paths :- Get(entry, "paths", EMPTY_ARRAY);
    var names :- Basenames(paths);
    SetItem(entry, "paths", JArray(names))
  }

  /** Every entry of a manifest list done in turn; the first failing entry's exception wins. */
  function BasenamedEntries(ms: seq<Json>): Result<seq<Json>>
  {
    if ms == [] then Ok([])
    else
      var init :- BasenamedEntries(ms[..|ms| - 1]);
      var last :- BasenamedEntry(ms[|ms| - 1]);
      Ok(init + [last])
  }

  /** Lines 346-348: the document with every manifest entry's paths reduced to file names. */
  function BasenamedManifest(doc: Json): Result<Json>
  {
    var present :- In("weightsManifest", doc);
    if !present then Ok(doc)
    else
      var manifests :- Item(doc, "weightsManifest");
      match manifests
      case JArray(ms) =>
        var ms' :- BasenamedEntries(ms);
        SetItem(doc, "weightsManifest", JArray(ms'))
      case JObject(m) => if m == map[] then Ok(doc) else Err(AttributeError)    // a dict iterates over its str keys, which have no .get
      case JString(s) => if s == "" then Ok(doc) else Err(AttributeError)
      case _ => Err(TypeError)
  }

  /**
   * The loop of lines 347-348: each entry of the manifest list in turn gets
   * its `paths` replaced by their basenames; the entries are shared with the
   * document, so the document sees every assignment.
   */
  method BasenameManifestPaths(doc: Json) returns (r: Result<Json>)
    ensures r == BasenamedManifest(doc)
  {
    var present := In("weightsManifest", doc);
    if present.Err? {
      return Err(present.error);
    }
    if !present.value {
      return Ok(doc);
    }
    var manifests := Item(doc, "weightsManifest");
    if manifests.Err? {
      return Err(manifests.error);
    }
    match manifests.value {
      case JArray(ms) =>
        var done: seq<Json> := [];
        for i := 0 to |ms|
          invariant BasenamedEntries(ms[..i]) == Ok(done)
        {
          var entry := ms[i];
          var paths := Get(entry, "paths", EMPTY_ARRAY);
          if paths.Err? {
            BasenamedEntriesFailsAt(ms, i);
            return Err(paths.error);
          }
          var names := Basenames(paths.value);
          if names.Err? {
            BasenamedEntriesFailsAt(ms, i);
            return Err(names.error);
          }
          var entry' := SetItem(entry, "paths", JArray(names.value)).value;
          done := done + [entry'];
          assert ms[..i + 1][..i] == ms[..i];
        }
        assert ms[..|ms|] == ms;
        r := SetItem(doc, "weightsManifest", JArray(done));
      case JObject(m) =>
        r := if m == map[] then Ok(doc) else Err(AttributeError);
      case JString(s) =>
        r := if s == "" then Ok(doc) else Err(AttributeError);
      case _ =>
        r := Err(TypeError);
    }
  }

  /**
   * The manifest list fix succeeds exactly when every entry's fix does, and
   * then entry `i` of the result is entry `i` fixed.
   */
  lemma {:induction false} BasenamedEntriesPointwise(ms: seq<Json>)
    ensures BasenamedEntries(ms).Ok? <==> forall i :: 0 <= i < |ms| ==> BasenamedEntry(ms[i]).Ok?
    ensures BasenamedEntries(ms).Ok? ==>
      |BasenamedEntries(ms).value| == |ms|
      && forall i :: 0 <= i < |ms| ==> BasenamedEntries(ms).value[i] == BasenamedEntry(ms[i]).value
    decreases |ms|
  {
    if ms != [] {
      var init := ms[..|ms| - 1];
      BasenamedEntriesPointwise(init);
      assert forall i :: 0 <= i < |init| ==> init[i] == ms[i];
    }
  }

  /** When entries before `i` are fixed and entry `i` fails, its exception is the one that escapes. */
  lemma {:induction false} BasenamedEntriesFailsAt(ms: seq<Json>, i: nat)
    requires i < |ms| && BasenamedEntries(ms[..i]).Ok? && BasenamedEntry(ms[i]).Err?
    ensures BasenamedEntries(ms) == Err(BasenamedEntry(ms[i]).error)
    decreases |ms|
  {
    var init := ms[..|ms| - 1];
    if i < |ms| - 1 {
      assert init[..i] == ms[..i] && init[i] == ms[i];
      BasenamedEntriesFailsAt(init, i);
    } else {
      assert init == ms[..i];
    }
  }

  /** A manifest entry whose `paths`, when present, is a list of str. */
  predicate HasPathList(e: Json)
  {
    && e.JObject?
    && ("paths" in e.fields ==>
          && e.fields["paths"].JArray?
          && forall j :: 0 <= j < |e.fields["paths"].items| ==> e.fields["paths"].items[j].JString?)
  }

  /** The paths of such an entry: none when the key is missing. */
  function PathList(e: Json): seq<Json>
    requires HasPathList(e)
  {
    if "paths" in e.fields then e.fields["paths"].items else []
  }

  /**
   * The fix of an entry with a list of str paths keeps every other key and
   * replaces `paths` by the basenames of the old ones, as many and in the
   * same order; a missing `paths` becomes `[]`.
   */
  lemma BasenamedEntryShape(e: Json)
    requires HasPathList(e)
    ensures BasenamedEntry(e).Ok?
    ensures var r := BasenamedEntry(e).value;
      && r.JObject?
      && r.fields.Keys == e.fields.Keys + {"paths"}
      && (forall k :: k in e.fields && k != "paths" ==> r.fields[k] == e.fields[k])
      && r.fields["paths"].JArray? && |r.fields["paths"].items| == |PathList(e)|
      && (forall j :: 0 <= j < |PathList(e)| ==>
            r.fields["paths"].items[j] == JString(Basename(PathList(e)[j].s)))
  {
  }

  /** Reducing an entry's paths to file names a second time changes nothing. */
  lemma BasenamedEntryIdempotent(e: Json)
    requires BasenamedEntry(e).Ok?
    ensures BasenamedEntry(BasenamedEntry(e).value) == BasenamedEntry(e)
  {
    var paths := Get(e, "paths", EMPTY_ARRAY).value;
    var names := Basenames(paths).value;
    var r := BasenamedEntry(e).value;
    assert r == JObject(e.fields["paths" := JArray(names)]);
    forall j | 0 <= j < |names|
      ensures names[j].JString? && JString(Basename(names[j].s)) == names[j]
    {
      match paths {
        case JArray(ps) => BasenameIdempotent(ps[j].s);
        case JString(s) => BasenameIdempotent([s[j]]);
        case JObject(_) =>
      }
    }
    assert seq(|names|, i requires 0 <= i < |names| && names[i].JString? => JString(Basename(names[i].s))) == names;
    assert BasenamesOf(names) == Ok(names);
    assert r.fields["paths" := JArray(names)] == r.fields;
  }

  /** Reducing the entries' paths to file names a second time changes nothing. */
  lemma BasenamedEntriesIdempotent(ms: seq<Json>)
    requires BasenamedEntries(ms).Ok?
    ensures BasenamedEntries(BasenamedEntries(ms).value) == BasenamedEntries(ms)
  {
    var done := BasenamedEntries(ms).value;
    BasenamedEntriesPointwise(ms);
    forall i | 0 <= i < |done|
      ensures BasenamedEntry(done[i]) == Ok(done[i])
    {
      BasenamedEntryIdempotent(ms[i]);
    }
    BasenamedEntriesPointwise(done);
  }

  /** The manifest fix is idempotent: applied to its own result it changes nothing. */
  lemma BasenamedManifestIdempotent(doc: Json)
    requires BasenamedManifest(doc).Ok?
    ensures BasenamedManifest(BasenamedManifest(doc).value) == BasenamedManifest(doc)
  {
    var d := BasenamedManifest(doc).value;
    if d != doc {
      var ms := doc.fields["weightsManifest"].items;
      BasenamedEntriesIdempotent(ms);
      var ms' := BasenamedEntries(ms).value;
      assert d.fields["weightsManifest" := JArray(ms')] == d.fields;
    }
  }

  /**
   * Lines 352-375 on the converted document: the updated document when its
   * first layer needed a fix, None when it did not. A non-InputLayer first
   * layer gets the InputLayer `input_layer` in front; an InputLayer whose
   * config lacks `batch_input_shape` gets that key, and nothing else.
   */
  function ConvertedInputFix(doc: Json): Result<Option<Json>>
  {
    var hasTopology :- In("modelTopology", doc);
    if !hasTopology then Ok(None)
    else
      var topology :- Item(doc, "modelTopology");
      var hasConfig :- In("config", topology);
      if !hasConfig then Ok(None)
      else
        var config :- Item(topology, "config");
        var hasLayers :- In("layers", config);
        if !hasLayers then Ok(None)
        else
          var layers :- Item(config, "layers");
          var count :- Len(layers);
          if count == 0 then Ok(None)
          else
            var first :- At(layers, 0);
            var className :- Item(first, "class_name");
            match layers
            case JArray(xs) =>
              if className != INPUT_LAYER_CLASS then
                var fixed :- SetPath(doc, TFJS_LAYERS_PATH, JArray([InputLayer("input_layer")] + xs));
                Ok(Some(fixed))
              else
                var hasLayerConfig :- In("config", first);
                if !hasLayerConfig then Ok(None)
                else
                  var layerConfig :- Item(first, "config");
                  var hasShape :- In("batch_input_shape", layerConfig);
                  if hasShape then Ok(None)
                  else
                    var layerConfig' :- SetItem(layerConfig, "batch_input_shape", BATCH_INPUT_SHAPE);
                    var first' :- SetItem(first, "config", layerConfig');
                    var fixed :- SetPath(doc, TFJS_LAYERS_PATH, JArray(xs[0 := first']));
                    Ok(Some(fixed))
            case _ => Err(TypeError)    // not reached: only a list's element has a `class_name`
  }

  /** The converted layer list, when the document is a layers-model with a non-empty one. */
  predicate ConvertedLayers(doc: Json, xs: seq<Json>)
  {
    && doc.JObject? && "modelTopology" in doc.fields && doc.fields["modelTopology"].JObject?
    && "config" in doc.fields["modelTopology"].fields
    && doc.fields["modelTopology"].fields["config"].JObject?
    && Lookup(doc.fields["modelTopology"].fields["config"].fields, "layers") == JArray(xs)
    && xs != [] && xs[0].JObject? && "class_name" in xs[0].fields
  }

  /**
   * Assigning a new layer list into a converted document replaces that list
   * and nothing else: the top-level keys other than `modelTopology` stay.
   */
  lemma ConvertedListReplaced(doc: Json, xs: seq<Json>, ys: seq<Json>)
    requires ConvertedLayers(doc, xs)
    ensures SetPath(doc, TFJS_LAYERS_PATH, JArray(ys)).Ok?
    ensures var fixed := SetPath(doc, TFJS_LAYERS_PATH, JArray(ys)).value;
      && GetPath(fixed, TFJS_LAYERS_PATH) == Ok(JArray(ys))
      && SetPath(doc, TFJS_LAYERS_PATH, JArray(xs)) == Ok(doc)
      && fixed.JObject? && fixed.fields.Keys == doc.fields.Keys
      && forall k :: k in doc.fields && k != "modelTopology" ==> fixed.fields[k] == doc.fields[k]
  {
    assert GetPath(doc, TFJS_LAYERS_PATH) == Ok(JArray(xs));
    SetPathSame(doc, TFJS_LAYERS_PATH);
    SetPathAnyValue(doc, TFJS_LAYERS_PATH, JArray(xs), JArray(ys));
    SetPathThenGet(doc, TFJS_LAYERS_PATH, JArray(ys));
    SetPathFrame(doc, TFJS_LAYERS_PATH, JArray(ys));
  }

  /**
   * A first layer that is not an InputLayer gets the InputLayer
   * `input_layer` in front of it. The written document is the converted one
   * (manifest already basenamed) with only that layer list replaced: writing
   * the old list back gives the document, writing the new one gives the
   * result, and every top-level key other than `modelTopology` is unchanged.
   */
  lemma ConvertedFixInsertsInputLayer(doc: Json, xs: seq<Json>)
    requires ConvertedLayers(doc, xs) && xs[0].fields["class_name"] != INPUT_LAYER_CLASS
    ensures ConvertedInputFix(doc).Ok? && ConvertedInputFix(doc).value.Some?
    ensures var fixed := ConvertedInputFix(doc).value.value;
      var ys := [InputLayer("input_layer")] + xs;
      && GetPath(fixed, TFJS_LAYERS_PATH) == Ok(JArray(ys))
      && SetPath(doc, TFJS_LAYERS_PATH, JArray(xs)) == Ok(doc)
      && SetPath(doc, TFJS_LAYERS_PATH, JArray(ys)) == Ok(fixed)
      && fixed.JObject? && fixed.fields.Keys == doc.fields.Keys
      && forall k :: k in doc.fields && k != "modelTopology" ==> fixed.fields[k] == doc.fields[k]
  {
    ConvertedListReplaced(doc, xs, [InputLayer("input_layer")] + xs);
  }

  /**
   * An InputLayer whose config dict has no `batch_input_shape` gets
   * `[None, 224, 224, 3]` under that key; unlike the standalone repair, no
   * `input_shape` is added, and the other layers stay.
   */
  lemma ConvertedFixAddsMissingShape(doc: Json, xs: seq<Json>, config: map<string, Json>)
    requires ConvertedLayers(doc, xs) && xs[0].fields["class_name"] == INPUT_LAYER_CLASS
    requires "config" in xs[0].fields && xs[0].fields["config"] == JObject(config)
    requires "batch_input_shape" !in config
    ensures ConvertedInputFix(doc).Ok? && ConvertedInputFix(doc).value.Some?
    ensures var fixed := ConvertedInputFix(doc).value.value;
      var layer := JObject(xs[0].fields["config" := JObject(config["batch_input_shape" := BATCH_INPUT_SHAPE])]);
      && GetPath(fixed, TFJS_LAYERS_PATH) == Ok(JArray([layer] + xs[1..]))
      && SetPath(doc, TFJS_LAYERS_PATH, JArray(xs)) == Ok(doc)
      && SetPath(doc, TFJS_LAYERS_PATH, JArray([layer] + xs[1..])) == Ok(fixed)
      && fixed.JObject? && fixed.fields.Keys == doc.fields.Keys
      && forall k :: k in doc.fields && k != "modelTopology" ==> fixed.fields[k] == doc.fields[k]
  {
    var layer := JObject(xs[0].fields["config" := JObject(config["batch_input_shape" := BATCH_INPUT_SHAPE])]);
    assert xs[0 := layer] == [layer] + xs[1..];
    ConvertedListReplaced(doc, xs, xs[0 := layer]);
  }

  /** An InputLayer with any `batch_input_shape` key, null included, or with no config, is left alone. */
  lemma ConvertedFixKeepsInputLayer(doc: Json, xs: seq<Json>)
    requires ConvertedLayers(doc, xs) && xs[0].fields["class_name"] == INPUT_LAYER_CLASS
    requires "config" in xs[0].fields ==>
      xs[0].fields["config"].JObject? && "batch_input_shape" in xs[0].fields["config"].fields
    ensures ConvertedInputFix(doc) == Ok(None)
  {
  }

  // ---- save_model: the fallback when the converter is missing ----

  /** The fallback document around the Keras description. */
  function FallbackTemplate(kerasJson: Json): Json
  {
    JObject(map[
      "format" := JString("layers-model"),
      "generatedBy" := JString("manual-fix"),
      "convertedBy" := JString("manual-fix"),
      "modelTopology" := kerasJson,
      "weightsManifest" := DEFAULT_MANIFEST])
  }

  /**
   * Lines 392-421: the fallback document, with the first layer's shape set
   * to `[None, 224, 224, 3]` when it is an InputLayer (whatever shape it
   * had) and the InputLayer `input_layer` put in front otherwise; or the
   * exception the `except` at line 426 catches.
   */
  function FallbackFix(kerasJson: Json): Result<Json>
  {
    var tfjs := FallbackTemplate(kerasJson);
    var hasConfig :- In("config", kerasJson);
    if !hasConfig then Ok(tfjs)
    else
      var config :- Item(kerasJson, "config");
      var hasLayers :- In("layers", config);
      if !hasLayers then Ok(tfjs)
      else
        var layers :- Item(config, "layers");
        var first :- At(layers, 0);
        var className :- Item(first, "class_name");
        match layers
        case JArray(xs) =>
          if className == INPUT_LAYER_CLASS then
            var layerConfig :- Item(first, "config");
            var layerConfig' :- SetItem(layerConfig, "batch_input_shape", BATCH_INPUT_SHAPE);
            var first' :- SetItem(first, "config", layerConfig');
            SetPath(tfjs, TFJS_LAYERS_PATH, JArray(xs[0 := first']))
          else
            SetPath(tfjs, TFJS_LAYERS_PATH, JArray([InputLayer("input_layer")] + xs))
        case _ => Err(TypeError)    // not reached: only a list's element has a `class_name`
  }

  /** The top level of the fallback document: the three literal strings and the one-shard manifest. */
  predicate FallbackTopLevel(d: Json)
  {
    && d.JObject?
    && d.fields.Keys == {"format", "generatedBy", "convertedBy", "modelTopology", "weightsManifest"}
    && d.fields["format"] == JString("layers-model")
    && d.fields["generatedBy"] == JString("manual-fix")
    && d.fields["convertedBy"] == JString("manual-fix")
    && d.fields["weightsManifest"] == DEFAULT_MANIFEST
  }

  /** Assigning a new layer list into the fallback template replaces that list and keeps the literal top level. */
  lemma FallbackListReplaced(kerasJson: Json, xs: seq<Json>, ys: seq<Json>)
    requires kerasJson.JObject? && "config" in kerasJson.fields && kerasJson.fields["config"].JObject?
    requires Lookup(kerasJson.fields["config"].fields, "layers") == JArray(xs) && xs != []
    ensures var tfjs := FallbackTemplate(kerasJson);
      && SetPath(tfjs, TFJS_LAYERS_PATH, JArray(ys)).Ok?
      && GetPath(SetPath(tfjs, TFJS_LAYERS_PATH, JArray(ys)).value, TFJS_LAYERS_PATH) == Ok(JArray(ys))
      && SetPath(tfjs, TFJS_LAYERS_PATH, JArray(xs)) == Ok(tfjs)
      && FallbackTopLevel(SetPath(tfjs, TFJS_LAYERS_PATH, JArray(ys)).value)
  {
    var tfjs := FallbackTemplate(kerasJson);
    assert GetPath(tfjs, TFJS_LAYERS_PATH) == Ok(JArray(xs));
    SetPathSame(tfjs, TFJS_LAYERS_PATH);
    SetPathAnyValue(tfjs, TFJS_LAYERS_PATH, JArray(xs), JArray(ys));
    SetPathThenGet(tfjs, TFJS_LAYERS_PATH, JArray(ys));
    SetPathFrame(tfjs, TFJS_LAYERS_PATH, JArray(ys));
  }

  /**
   * In the fallback, an InputLayer first has its shape overwritten even when
   * it had one. The document written is the fallback template around the
   * Keras description with only that layer list replaced: the literal top
   * level stays, and writing the old list back gives the template.
   */
  lemma FallbackOverwritesShape(kerasJson: Json, xs: seq<Json>, config: map<string, Json>)
    requires kerasJson.JObject? && "config" in kerasJson.fields && kerasJson.fields["config"].JObject?
    requires Lookup(kerasJson.fields["config"].fields, "layers") == JArray(xs)
    requires xs != [] && xs[0].JObject? && Lookup(xs[0].fields, "class_name") == INPUT_LAYER_CLASS
    requires "config" in xs[0].fields && xs[0].fields["config"] == JObject(config)
    ensures FallbackFix(kerasJson).Ok?
    ensures var fixed := FallbackFix(kerasJson).value;
      var tfjs := FallbackTemplate(kerasJson);
      var layer := JObject(xs[0].fields["config" := JObject(config["batch_input_shape" := BATCH_INPUT_SHAPE])]);
      && GetPath(fixed, TFJS_LAYERS_PATH) == Ok(JArray([layer] + xs[1..]))
      && SetPath(tfjs, TFJS_LAYERS_PATH, JArray(xs)) == Ok(tfjs)
      && SetPath(tfjs, TFJS_LAYERS_PATH, JArray([layer] + xs[1..])) == Ok(fixed)
      && FallbackTopLevel(fixed)
  {
    var layer := JObject(xs[0].fields["config" := JObject(config["batch_input_shape" := BATCH_INPUT_SHAPE])]);
    assert xs[0 := layer] == [layer] + xs[1..];
    assert FallbackFix(kerasJson) == SetPath(FallbackTemplate(kerasJson), TFJS_LAYERS_PATH, JArray(xs[0 := layer]));
    FallbackListReplaced(kerasJson, xs, xs[0 := layer]);
  }

  /**
   * In the fallback, a first layer that is not an InputLayer gets the
   * InputLayer `input_layer` in front, with the same frame as above.
   */
  lemma FallbackInsertsInputLayer(kerasJson: Json, xs: seq<Json>)
    requires kerasJson.JObject? && "config" in kerasJson.fields && kerasJson.fields["config"].JObject?
    requires Lookup(kerasJson.fields["config"].fields, "layers") == JArray(xs)
    requires xs != [] && xs[0].JObject? && "class_name" in xs[0].fields
    requires xs[0].fields["class_name"] != INPUT_LAYER_CLASS
    ensures FallbackFix(kerasJson).Ok?
    ensures var fixed := FallbackFix(kerasJson).value;
      var tfjs := FallbackTemplate(kerasJson);
      var ys := [InputLayer("input_layer")] + xs;
      && GetPath(fixed, TFJS_LAYERS_PATH) == Ok(JArray(ys))
      && SetPath(tfjs, TFJS_LAYERS_PATH, JArray(xs)) == Ok(tfjs)
      && SetPath(tfjs, TFJS_LAYERS_PATH, JArray(ys)) == Ok(fixed)
      && FallbackTopLevel(fixed)
  {
    var ys := [InputLayer("input_layer")] + xs;
    assert FallbackFix(kerasJson) == SetPath(FallbackTemplate(kerasJson), TFJS_LAYERS_PATH, JArray(ys));
    FallbackListReplaced(kerasJson, xs, ys);
  }

  /** An empty layer list makes `layers[0]` raise IndexError, so no fallback file is written. */
  lemma FallbackFailsOnEmptyLayers(kerasJson: Json)
    requires kerasJson.JObject? && "config" in kerasJson.fields && kerasJson.fields["config"].JObject?
    requires Lookup(kerasJson.fields["config"].fields, "layers") == EMPTY_ARRAY
    ensures FallbackFix(kerasJson) == Err(IndexError)
  {
  }

  // ---- save_model as a whole ----

  /** How the `tensorflowjs_converter` run ends: with the document it wrote, with an error status, or not found. */
  datatype Converter = Converted(output: Json) | ConversionFailed | ConverterMissing

  /**
   * What `model/model.json` holds when `save_model` ends: it returns, or an
   * exception escapes it (None when this run had not written the file yet).
   */
  datatype SaveOutcome = Saved(modelJson: Json) | Crashed(error: PyError, written: Option<Json>)

  /** The outcome of `save_model` for a Keras description and a converter run. */
  function SaveOutcomeOf(kerasJson: Json, converter: Converter): SaveOutcome
  {
    match KerasInputFix(kerasJson)
    case Err(e) => Crashed(e, None)
    case Ok(keras) =>
      match converter
      case ConversionFailed => Saved(keras)
      case ConverterMissing =>
        (match FallbackFix(kerasJson)
         case Ok(fallback) => Saved(fallback)
         case Err(_) => Saved(keras))
      case Converted(output) =>
        match BasenamedManifest(output)
        case Err(e) => Crashed(e, Some(output))
        case Ok(doc) =>
          match ConvertedInputFix(doc)
          case Err(e) => Crashed(e, Some(output))
          case Ok(None) => Saved(output)
          case Ok(Some(fixed)) => Saved(fixed)
  }

  /**
   * `save_model` after the Keras files are saved: fix and write the Keras
   * description, run the converter, then fix its output or write the
   * fallback. The file writes are the points where `model/model.json`
   * changes; `written` tracks its content.
   */
  method SaveModel(kerasJson: Json, converter: Converter) returns (outcome: SaveOutcome)
    ensures outcome == SaveOutcomeOf(kerasJson, converter)
  {
    var keras := KerasInputFix(kerasJson);
    if keras.Err? {
      return Crashed(keras.error, None);
    }
    var written := keras.value;
    match converter {
      case ConversionFailed =>
      case ConverterMissing =>
        var fallback := FallbackFix(kerasJson);
        if fallback.Ok? {
          written := fallback.value;
        }
      case Converted(output) =>
        written := output;
        var tfjsModel := BasenameManifestPaths(output);
        if tfjsModel.Err? {
          return Crashed(tfjsModel.error, Some(written));
        }
        var fix := ConvertedInputFix(tfjsModel.value);
        if fix.Err? {
          return Crashed(fix.error, Some(written));
        }
        if fix.value.Some? {
          written := fix.value.value;
        }
    }
    return Saved(written);
  }

  /**
   * The file-name fix of the manifest reaches the file only together with
   * a layer fix: when the converted document's first layer needs nothing,
   * `model/model.json` keeps the converter's output as it was.
   */
  lemma BasenameFixLostWithoutLayerFix(kerasJson: Json, output: Json)
    requires KerasInputFix(kerasJson).Ok?
    requires BasenamedManifest(output).Ok?
    requires ConvertedInputFix(BasenamedManifest(output).value) == Ok(None)
    ensures SaveOutcomeOf(kerasJson, Converted(output)) == Saved(output)
  {
  }

  /** When the converter fails, the file holds the fixed Keras description. */
  lemma ConversionFailureKeepsKerasFile(kerasJson: Json)
    requires KerasInputFix(kerasJson).Ok?
    ensures SaveOutcomeOf(kerasJson, ConversionFailed) == Saved(KerasInputFix(kerasJson).value)
  {
  }
}
