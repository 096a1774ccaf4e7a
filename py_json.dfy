/**
 * A JSON document as the scripts see it after `json.load`, and the Python
 * operations they apply to it. Each operation returns the exception Python
 * would raise instead of a value when the document does not have the shape
 * the script expects, so that the scripts' error paths are part of the model.
 *
 * A dict is a map from keys to values: the insertion order of its keys, which
 * `json.dump` reproduces, is not represented.
 */
module PyJson {
  import opened PyText

  datatype Json =
    | JNull
    | JBool(b: bool)
    | JNumber(n: real)
    | JString(s: string)
    | JArray(items: seq<Json>)
    | JObject(fields: map<string, Json>)

  /** The exceptions a script can raise while walking a document. */
  datatype PyError = KeyError | IndexError | TypeError | AttributeError

  datatype Option<+T> = None | Some(value: T)

  datatype Result<+T> = Ok(value: T) | Err(error: PyError) {
    predicate IsFailure() { Err? }

    function PropagateFailure<U>(): Result<U>
      requires Err?
    {
      Err(error)
    }

    function Extract(): T
      requires Ok?
    {
      value
    }
  }

  const EMPTY_OBJECT: Json := JObject(map[])
  const EMPTY_ARRAY: Json := JArray([])

  /** A Python list of str as a JSON array. */
  function JStrings(ss: seq<string>): (r: Json)
    ensures r.JArray? && |r.items| == |ss|
    ensures forall i :: 0 <= i < |ss| ==> r.items[i] == JString(ss[i])
  {
    JArray(seq(|ss|, i requires 0 <= i < |ss| => JString(ss[i])))
  }

  /** `bool(v)`: null, false, 0, "", [] and {} are false. */
  predicate Truthy(v: Json)
  {
    match v
    case JNull => false
    case JBool(b) => b
    case JNumber(n) => n != 0.0
    case JString(s) => s != ""
    case JArray(xs) => xs != []
    case JObject(m) => m != map[]
  }

  /** `key in c`: a key of a dict, an element of a list, a substring of a str. */
  function In(key: string, c: Json): Result<bool>
  {
    match c
    case JObject(m) => Ok(key in m)
    case JArray(xs) => Ok(JString(key) in xs)
    case JString(s) => Ok(IsSubstring(key, s))
    case _ => Err(TypeError)
  }

  /** `c.get(key, default)`; only a dict has `.get`. */
  function Get(c: Json, key: string, default: Json): Result<Json>
  {
    match c
    case JObject(m) => Ok(if key in m then m[key] else default)
    case _ => Err(AttributeError)
  }

  /** `c.get(key)` on a dict: a missing key reads as None, which is JSON null. */
  function Lookup(m: map<string, Json>, key: string): Json
  {
    if key in m then m[key] else JNull
  }

  /** `c[key]` with a str key: only a dict can be indexed by a str. */
  function Item(c: Json, key: string): Result<Json>
  {
    match c
    case JObject(m) => if key in m then Ok(m[key]) else Err(KeyError)
    case _ => Err(TypeError)
  }

  /** `c[i]` with an int index. */
  function At(c: Json, i: nat): Result<Json>
  {
    match c
    case JArray(xs) => if i < |xs| then Ok(xs[i]) else Err(IndexError)
    case JString(s) => if i < |s| then Ok(JString([s[i]])) else Err(IndexError)
    case JObject(_) => Err(KeyError)
    case _ => Err(TypeError)
  }

  /** `len(c)`. */
  function Len(c: Json): Result<nat>
  {
    match c
    case JArray(xs) => Ok(|xs|)
    case JString(s) => Ok(|s|)
    case JObject(m) => Ok(|m|)
    case _ => Err(TypeError)
  }

  /** `c[key] = v`, as the value `c` has afterwards; only a dict accepts a str key. */
  function SetItem(c: Json, key: string, v: Json): Result<Json>
  {
    match c
    case JObject(m) => Ok(JObject(m[key := v]))
    case _ => Err(TypeError)
  }

  /**
   * `c[p0][p1]...[pn] = v`, as the value `c` has afterwards. The containers
   * on the way are shared with `c`, so the assignment is visible through `c`.
   */
  function SetPath(c: Json, path: seq<string>, v: Json): Result<Json>
    requires |path| >= 1
    decreases |path|
  {
    if |path| == 1 then SetItem(c, path[0], v)
    else
      var child :- Item(c, path[0]);
      var child' :- SetPath(child, path[1..], v);
      SetItem(c, path[0], child')
  }

  /** `c.get(p0, {}).get(p1, {})...get(pn, [])`. */
  function GetPath(c: Json, path: seq<string>): Result<Json>
    requires |path| >= 1
    decreases |path|
  {
    if |path| == 1 then Get(c, path[0], EMPTY_ARRAY)
    else
      var child :- Get(c, path[0], EMPTY_OBJECT);
      GetPath(child, path[1..])
  }

  /**
   * After an assignment along a path succeeds, reading the path gives the
   * assigned value, assigning it again changes nothing, and the top-level
   * keys are those of before (plus the assigned key for a one-step path).
   */
  lemma {:induction false} SetPathThenGet(c: Json, path: seq<string>, v: Json)
    requires |path| >= 1 && SetPath(c, path, v).Ok?
    ensures var d := SetPath(c, path, v).value;
      && c.JObject? && d.JObject?
      && d.fields.Keys == c.fields.Keys + {path[0]}
      && (path[0] in c.fields ==> d.fields.Keys == c.fields.Keys)
    ensures var d := SetPath(c, path, v).value;
      GetPath(d, path) == Ok(v) && SetPath(d, path, v) == Ok(d)
    decreases |path|
  {
    if |path| == 1 {
      assert c.fields[path[0] := v][path[0] := v] == c.fields[path[0] := v];
    } else {
      var child := Item(c, path[0]).value;
      SetPathThenGet(child, path[1..], v);
      var child' := SetPath(child, path[1..], v).value;
      assert c.fields[path[0] := child'][path[0] := child'] == c.fields[path[0] := child'];
    }
  }

  /**
   * Reading a path that yields a truthy value means every key on the way was
   * there (the defaults `{}` and `[]` are falsy), so assigning that same value
   * back leaves the document as it was.
   */
  lemma {:induction false} SetPathSame(c: Json, path: seq<string>)
    requires |path| >= 1 && GetPath(c, path).Ok? && Truthy(GetPath(c, path).value)
    ensures SetPath(c, path, GetPath(c, path).value) == Ok(c)
    decreases |path|
  {
    if |path| == 1 {
      assert c.fields[path[0] := c.fields[path[0]]] == c.fields;
    } else {
      var child := Get(c, path[0], EMPTY_OBJECT).value;
      if path[0] !in c.fields {
        assert GetPath(child, path[1..]) == GetPath(EMPTY_OBJECT, path[1..]);
        EmptyObjectPathFalsy(path[1..]);
        assert false;
      }
      SetPathSame(child, path[1..]);
      assert c.fields[path[0] := child] == c.fields;
    }
  }

  /** Reading a path out of `{}` gives a falsy default. */
  lemma {:induction false} EmptyObjectPathFalsy(path: seq<string>)
    requires |path| >= 1
    ensures GetPath(EMPTY_OBJECT, path).Ok? && !Truthy(GetPath(EMPTY_OBJECT, path).value)
    decreases |path|
  {
    if |path| > 1 {
      EmptyObjectPathFalsy(path[1..]);
    }
  }

  /** An assignment along a path leaves every other top-level key of the document as it was. */
  lemma SetPathFrame(c: Json, path: seq<string>, v: Json)
    requires |path| >= 1 && SetPath(c, path, v).Ok?
    ensures var d := SetPath(c, path, v).value;
      && c.JObject? && d.JObject?
      && forall k :: k in c.fields && k != path[0] ==> k in d.fields && d.fields[k] == c.fields[k]
  {
  }

  /** An assignment along a path that succeeds for one value succeeds for any other. */
  lemma {:induction false} SetPathAnyValue(c: Json, path: seq<string>, v: Json, w: Json)
    requires |path| >= 1 && SetPath(c, path, v).Ok?
    ensures SetPath(c, path, w).Ok?
    decreases |path|
  {
    if |path| > 1 {
      SetPathAnyValue(Item(c, path[0]).value, path[1..], v, w);
    }
  }
}
