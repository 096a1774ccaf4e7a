/**
 * The repair of the weights reference (`fix_weights_reference.py`): the
 * script looks at which shard files exist, picks the three-shard naming if
 * any file name contains `shard1of3` and the five-shard naming otherwise,
 * and replaces the `paths` of the first weights-manifest entry by the full
 * list of shard names of that naming.
 */
module FixWeightsReference {
  import opened PyText
  import opened PyJson

  datatype Pattern = Of3 | Of5

  /** `[f for f in files if pat in f]`. */
  function Containing(files: seq<string>, pat: string): (r: seq<string>)
    ensures forall f :: f in r <==> f in files && IsSubstring(pat, f)
  {
    if files == [] then []
    else
      var rest := Containing(files[1..], pat);
      assert files == [files[0]] + files[1..];
      if IsSubstring(pat, files[0]) then [files[0]] + rest else rest
  }

  /** The filter keeps the glob's order: a file list in two parts gives the matches of each, in turn. */
  lemma {:induction false} ContainingAppend(a: seq<string>, b: seq<string>, pat: string)
    ensures Containing(a + b, pat) == Containing(a, pat) + Containing(b, pat)
    decreases |a|
  {
    if a != [] {
      assert (a + b)[1..] == a[1..] + b;
      ContainingAppend(a[1..], b, pat);
    } else {
      assert a + b == b;
    }
  }

  /** The naming in use: three shards exactly when some file name contains `shard1of3`. */
  function ShardPattern(weightFiles: seq<string>): (p: Pattern)
    ensures p == Of3 <==> exists f :: f in weightFiles && IsSubstring("shard1of3", f)
  {
    var shard3 := Containing(weightFiles, "shard1of3");
    if shard3 != [] then
      assert shard3[0] in shard3;
      Of3
    else Of5
  }

  const OF3_SHARDS: seq<string> := ["group1-shard1of3.bin", "group1-shard2of3.bin", "group1-shard3of3.bin"]

  const OF5_SHARDS: seq<string> :=
    ["group1-shard1of5.bin", "group1-shard2of5.bin", "group1-shard3of5.bin",
     "group1-shard4of5.bin", "group1-shard5of5.bin"]

  function ShardCount(p: Pattern): nat
  {
    if p == Of3 then 3 else 5
  }

  /** The shard file names of a naming. */
  function Shards(p: Pattern): seq<string>
  {
    if p == Of3 then OF3_SHARDS else OF5_SHARDS
  }

  /** The names run from `group1-shard1ofN.bin` to `group1-shardNofN.bin` in ascending order. */
  lemma ShardNamesNumbered(p: Pattern)
    ensures |Shards(p)| == ShardCount(p)
    ensures forall i :: 0 <= i < |Shards(p)| ==>
      Shards(p)[i] == "group1-shard" + Decimal(i + 1) + "of" + Decimal(ShardCount(p)) + ".bin"
  {
    assert Decimal(1) == "1" && Decimal(2) == "2" && Decimal(3) == "3" && Decimal(4) == "4" && Decimal(5) == "5";
  }

  /**
   * The document after `model_json['weightsManifest'][0]['paths'] = shards`
   * (None when it has no `weightsManifest`, so nothing is written), or the
   * exception the assignment raises.
   */
  function Rewritten(doc: Json, p: Pattern): Result<Option<Json>>
  {
    var present :- In("weightsManifest", doc);
    if !present then Ok(None)
    else
      var manifest :- Item(doc, "weightsManifest");
      var entry :- At(manifest, 0);
      var entry' :- SetItem(entry, "paths", JStrings(Shards(p)));
      match manifest
      case JArray(items) =>
        var doc' :- SetItem(doc, "weightsManifest", JArray(items[0 := entry']));
        Ok(Some(doc'))
      case _ => Err(TypeError)    // not reached: only an element of a list accepts the assignment above
  }

  /**
   * The script, given the names the glob found and the parsed `model.json`:
   * the document it saves (None when it saves nothing), or the exception
   * that stops it.
   */
  method FixWeightsReference(weightFiles: seq<string>, modelJson: Json) returns (written: Result<Option<Json>>)
    ensures written == Rewritten(modelJson, ShardPattern(weightFiles))
  {
    var shard3Pattern := Containing(weightFiles, "shard1of3");
    var usePattern := if shard3Pattern != [] then Of3 else Of5;
    var present := In("weightsManifest", modelJson);
    if present.Err? {
      return Err(present.error);
    }
    if !present.value {
      return Ok(None);
    }
    var shards := if usePattern == Of3 then OF3_SHARDS else OF5_SHARDS;
    var manifest := Item(modelJson, "weightsManifest");
    if manifest.Err? {
      return Err(manifest.error);
    }
    var entry := At(manifest.value, 0);
    if entry.Err? {
      return Err(entry.error);
    }
    var updated := SetItem(entry.value, "paths", JStrings(shards));
    if updated.Err? {
      return Err(updated.error);
    }
    // the entry is shared with the manifest list, and the list with the document
    assert manifest.value.JArray?;
    var items := manifest.value.items[0 := updated.value];
    var doc := SetItem(modelJson, "weightsManifest", JArray(items)).value;
    return Ok(Some(doc));
  }

  /**
   * A rewrite touches nothing but the `paths` of the first manifest entry:
   * every other key of the document, every other entry, and every other
   * key of the first entry (its `weights` among them) stay as they were.
   */
  lemma OnlyFirstPathsChange(doc: Json, p: Pattern)
    requires Rewritten(doc, p).Ok? && Rewritten(doc, p).value.Some?
    ensures doc.JObject? && "weightsManifest" in doc.fields
    ensures var d := Rewritten(doc, p).value.value;
      var manifest := doc.fields["weightsManifest"];
      && d.JObject? && d.fields.Keys == doc.fields.Keys
      && (forall k :: k in doc.fields && k != "weightsManifest" ==> d.fields[k] == doc.fields[k])
      && manifest.JArray? && |manifest.items| > 0 && manifest.items[0].JObject?
      && d.fields["weightsManifest"].JArray?
      && |d.fields["weightsManifest"].items| == |manifest.items|
      && (forall i :: 1 <= i < |manifest.items| ==> d.fields["weightsManifest"].items[i] == manifest.items[i])
      && d.fields["weightsManifest"].items[0] == JObject(manifest.items[0].fields["paths" := JStrings(Shards(p))])
  {
  }

  /** A document without `weightsManifest` is not written back. */
  lemma NoManifestNothingWritten(doc: map<string, Json>, p: Pattern)
    requires "weightsManifest" !in doc
    ensures Rewritten(JObject(doc), p) == Ok(None)
  {
  }

  /** Running the script again over the same shard files saves the same document. */
  lemma RewriteIdempotent(doc: Json, weightFiles: seq<string>)
    requires Rewritten(doc, ShardPattern(weightFiles)).Ok? && Rewritten(doc, ShardPattern(weightFiles)).value.Some?
    ensures var d := Rewritten(doc, ShardPattern(weightFiles)).value.value;
      Rewritten(d, ShardPattern(weightFiles)) == Ok(Some(d))
  {
    var p := ShardPattern(weightFiles);
    var d := Rewritten(doc, p).value.value;
    OnlyFirstPathsChange(doc, p);
    var items := d.fields["weightsManifest"].items;
    var entry := items[0].fields;
    assert entry["paths" := JStrings(Shards(p))] == entry;
    assert items[0 := JObject(entry)] == items;
    assert d.fields["weightsManifest" := JArray(items)] == d.fields;
  }
}
