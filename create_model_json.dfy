/**
 * The rebuild of a model description from a template (`create_model_json.py`):
 * a fixed TensorFlow.js layers-model whose only layer is an InputLayer
 * `input_1`, into which the weights manifest and the layers (less a leading
 * InputLayer) of the existing file are merged when that file can be read.
 */
module CreateModelJson {
  import opened PyJson
  import opened KerasLayers
  import opened FixModelJson

  /** The template document with the given weights manifest and layer list. */
  function ModelJson(manifest: Json, layers: seq<Json>): (r: Json)
    ensures r.JObject? && "weightsManifest" in r.fields && r.fields["weightsManifest"] == manifest
    ensures GetPath(r, TFJS_LAYERS_PATH) == Ok(JArray(layers))
  {
    JObject(map[
      "format" := JString("layers-model"),
      "generatedBy" := JString("manual-fix"),
      "convertedBy" := JString("manual-fix"),
      "modelTopology" := JObject(map[
        "class_name" := JString("Model"),
        "config" := JObject(map[
          "name" := JString("model"),
          "layers" := JArray(layers)])]),
      "weightsManifest" := manifest])
  }

  /** Assigning the layer list of a template document gives the template with the new list. */
  lemma LayerListAssigned(manifest: Json, layers: seq<Json>, layers': seq<Json>)
    ensures SetPath(ModelJson(manifest, layers), TFJS_LAYERS_PATH, JArray(layers')) == Ok(ModelJson(manifest, layers'))
  {
    var d := ModelJson(manifest, layers);
    var topology := d.fields["modelTopology"];
    var config := topology.fields["config"];
    assert SetPath(config, ["layers"], JArray(layers')) == Ok(JObject(config.fields["layers" := JArray(layers')]));
    assert TFJS_LAYERS_PATH[1..] == ["config", "layers"] && TFJS_LAYERS_PATH[1..][1..] == ["layers"];
    assert config.fields["layers" := JArray(layers')] == ModelJson(manifest, layers').fields["modelTopology"].fields["config"].fields;
    assert topology.fields["config" := JObject(config.fields["layers" := JArray(layers')])]
      == ModelJson(manifest, layers').fields["modelTopology"].fields;
    assert d.fields["modelTopology" := ModelJson(manifest, layers').fields["modelTopology"]]
      == ModelJson(manifest, layers').fields;
  }

  /** The document written when the existing file cannot be used at all. */
  function Template(): Json
  {
    ModelJson(DEFAULT_MANIFEST, [InputLayer("input_1")])
  }

  /**
   * The manifest the outer block copies from the existing document: None
   * when it has no `weightsManifest`, an exception when the document is not
   * a container or not a dict.
   */
  function CopiedManifest(existing: Json): Result<Option<Json>>
  {
    var present :- In("weightsManifest", existing);
    if !present then Ok(None)
    else
      var manifest :- Item(existing, "weightsManifest");
      Ok(Some(manifest))
  }

  /**
   * The layers the inner block appends after the template InputLayer, or the
   * exception that makes it give up: `modelTopology.config.layers` less a
   * leading InputLayer, every layer when the first is not an InputLayer.
   */
  function ExistingLayers(existing: Json): Result<seq<Json>>
  {
    var hasTopology :- In("modelTopology", existing);
    if !hasTopology then Ok([])
    else
      var topology :- Item(existing, "modelTopology");
      var hasConfig :- In("config", topology);
      if !hasConfig then Ok([])
      else
        var config :- Item(topology, "config");
        var layers :- Item(config, "layers");
        if !Truthy(layers) then Ok([])
        else
          var count :- Len(layers);
          var first :- At(layers, 0);
          var className :- Item(first, "class_name");
          match layers
          case JArray(xs) => Ok(if className == INPUT_LAYER_CLASS then xs[1..] else xs)
          case _ => Err(TypeError)    // a dict or str fails at `[0]['class_name']` above
  }

  /** The manifest of the new document: the existing one when the outer block copied it. */
  function NewManifest(existing: Option<Json>): Json
  {
    if existing.Some? && CopiedManifest(existing.value).Ok? && CopiedManifest(existing.value).value.Some?
    then CopiedManifest(existing.value).value.value
    else DEFAULT_MANIFEST
  }

  /** The layers appended behind the template InputLayer: none when either block failed. */
  function KeptLayers(existing: Option<Json>): seq<Json>
  {
    if existing.Some? && CopiedManifest(existing.value).Ok? && ExistingLayers(existing.value).Ok?
    then ExistingLayers(existing.value).value
    else []
  }

  /**
   * The script on the existing file as it was parsed (None when it could not
   * be opened or parsed): the document it writes. The rename of the old file
   * to a backup and the final write are file operations left to the caller.
   */
  method CreateModelJson(existing: Option<Json>) returns (modelJson: Json)
    ensures modelJson == ModelJson(NewManifest(existing), [InputLayer("input_1")] + KeptLayers(existing))
  {
    modelJson := Template();
    assert [InputLayer("input_1")] + [] == [InputLayer("input_1")];
    if existing.None? {
      return;
    }
    var existingModel := existing.value;
    var present := In("weightsManifest", existingModel);
    if present.Err? {
      return;
    }
    if present.value {
      var manifest := Item(existingModel, "weightsManifest");
      if manifest.Err? {
        return;
      }
      modelJson := SetItem(modelJson, "weightsManifest", manifest.value).value;
      assert modelJson == ModelJson(manifest.value, [InputLayer("input_1")]);
    }
    var kept := ExistingLayers(existingModel);
    if kept.Ok? {
      // `.extend` on the template's one-element layer list
      LayerListAssigned(NewManifest(existing), [InputLayer("input_1")], [InputLayer("input_1")] + kept.value);
      modelJson := SetPath(modelJson, TFJS_LAYERS_PATH, JArray([InputLayer("input_1")] + kept.value)).value;
    }
  }

  /**
   * The manifest is copied exactly when the existing file parsed to a dict
   * with a `weightsManifest` key; otherwise the default single-shard
   * manifest stays.
   */
  lemma ManifestCopiedWhenPresent(existing: Option<Json>)
    ensures NewManifest(existing) ==
      if existing.Some? && existing.value.JObject? && "weightsManifest" in existing.value.fields
      then existing.value.fields["weightsManifest"]
      else DEFAULT_MANIFEST
  {
  }

  /**
   * With a readable layers-model whose first layer has a `class_name`, the
   * new list is the template InputLayer followed by the existing layers in
   * order, less the first one when it is an InputLayer; its length is
   * `1 + n`, or `n` when the first existing layer was an InputLayer.
   */
  lemma MergesExistingLayers(e: map<string, Json>, xs: seq<Json>)
    requires "modelTopology" in e && e["modelTopology"].JObject?
    requires "config" in e["modelTopology"].fields && e["modelTopology"].fields["config"].JObject?
    requires Lookup(e["modelTopology"].fields["config"].fields, "layers") == JArray(xs)
    requires |xs| > 0 && xs[0].JObject? && "class_name" in xs[0].fields
    ensures var layers := [InputLayer("input_1")] + KeptLayers(Some(JObject(e)));
      && layers[0] == InputLayer("input_1")
      && (xs[0].fields["class_name"] == INPUT_LAYER_CLASS ==> |layers| == |xs| && layers[1..] == xs[1..])
      && (xs[0].fields["class_name"] != INPUT_LAYER_CLASS ==> |layers| == |xs| + 1 && layers[1..] == xs)
  {
    var layers := [InputLayer("input_1")] + KeptLayers(Some(JObject(e)));
    assert layers[1..] == KeptLayers(Some(JObject(e)));
  }

  /**
   * A layers-model without layers, or with an empty list, contributes
   * nothing: the new list is the template InputLayer alone.
   */
  lemma NoExistingLayersKeepsTemplateLayer(e: map<string, Json>)
    requires "modelTopology" in e && e["modelTopology"].JObject?
    requires "config" in e["modelTopology"].fields && e["modelTopology"].fields["config"].JObject?
    requires var config := e["modelTopology"].fields["config"].fields;
      "layers" in config && !Truthy(config["layers"])
    ensures [InputLayer("input_1")] + KeptLayers(Some(JObject(e))) == [InputLayer("input_1")]
  {
    assert [InputLayer("input_1")] + [] == [InputLayer("input_1")];
  }

  /**
   * When reading the existing layers fails, the manifest copied before the
   * failure stays and the layer list is the template InputLayer alone.
   */
  lemma ManifestSurvivesLayerFailure(e: map<string, Json>)
    requires "weightsManifest" in e && ExistingLayers(JObject(e)).Err?
    ensures NewManifest(Some(JObject(e))) == e["weightsManifest"]
    ensures KeptLayers(Some(JObject(e))) == []
  {
  }

  /**
   * A file that cannot be read, or that parses to null, a boolean or a
   * number, leaves the template as it is.
   */
  lemma UnusableFileGivesTemplate(existing: Option<Json>)
    requires existing.None? || existing.value.JNull? || existing.value.JBool? || existing.value.JNumber?
    ensures ModelJson(NewManifest(existing), [InputLayer("input_1")] + KeptLayers(existing)) == Template()
  {
    assert [InputLayer("input_1")] + [] == [InputLayer("input_1")];
  }

  /**
   * Whatever the existing file holds, the written document carries the
   * template's own `format`, `generatedBy`, `convertedBy` and model name,
   * and its layer list starts with the template InputLayer.
   */
  lemma TemplateLiteralsKept(manifest: Json, kept: seq<Json>)
    ensures var d := ModelJson(manifest, [InputLayer("input_1")] + kept);
      && d.fields.Keys == {"format", "generatedBy", "convertedBy", "modelTopology", "weightsManifest"}
      && d.fields["format"] == JString("layers-model")
      && d.fields["generatedBy"] == JString("manual-fix")
      && d.fields["convertedBy"] == JString("manual-fix")
      && GetPath(d, TFJS_LAYERS_PATH).Ok? && GetPath(d, TFJS_LAYERS_PATH).value.items[0] == InputLayer("input_1")
  {
  }

  /** The repair of `fix_model_json.py` finds nothing to change in a document this script wrote. */
  lemma CreatedFileNeedsNoRepair(existing: Option<Json>)
    ensures var d := ModelJson(NewManifest(existing), [InputLayer("input_1")] + KeptLayers(existing));
      Repaired(d) == Ok(Repair(d, false))
  {
    var d := ModelJson(NewManifest(existing), [InputLayer("input_1")] + KeptLayers(existing));
    InsertedLayerComplete();
    assert In("modelTopology", d) == Ok(true);
    assert LayersPath(true) == TFJS_LAYERS_PATH;
    assert RepairedLayers(JArray([InputLayer("input_1")] + KeptLayers(existing))) == Ok(None);
  }
}
