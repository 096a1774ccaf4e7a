/**
 * The literal pieces of a TensorFlow.js / Keras "layers-model" description
 * that the scripts write: the input layer they insert (224 x 224 RGB images,
 * any batch size), its connection record, and the default weights manifest.
 */
module KerasLayers {
  import opened PyJson

  /** `[None, 224, 224, 3]`: any batch size of 224 x 224 x 3 images. */
  const BATCH_INPUT_SHAPE: Json := JArray([JNull, JNumber(224.0), JNumber(224.0), JNumber(3.0)])

  /** `[224, 224, 3]`. */
  const INPUT_SHAPE: Json := JArray([JNumber(224.0), JNumber(224.0), JNumber(3.0)])

  const INPUT_LAYER_CLASS: Json := JString("InputLayer")

  /** The InputLayer the scripts insert, under the given layer name. */
  function InputLayer(name: string): Json
  {
    JObject(map[
      "class_name" := INPUT_LAYER_CLASS,
      "config" := JObject(map[
        "batch_input_shape" := BATCH_INPUT_SHAPE,
        "dtype" := JString("float32"),
        "sparse" := JBool(false),
        "name" := JString(name)]),
      "name" := JString(name),
      "inbound_nodes" := EMPTY_ARRAY])
  }

  /** `[[["input_1", 0, 0, {}]]]`: one inbound node fed by the layer `input_1`. */
  const INBOUND_FROM_INPUT_1: Json :=
    JArray([JArray([JArray([JString("input_1"), JNumber(0.0), JNumber(0.0), EMPTY_OBJECT])])])

  /** `[{"paths": ["group1-shard1of1.bin"], "weights": []}]`. */
  const DEFAULT_MANIFEST: Json :=
    JArray([JObject(map["paths" := JArray([JString("group1-shard1of1.bin")]), "weights" := EMPTY_ARRAY])])
}
