/**
 * An abstract JSON tree standing in for the byte-level documents that the
 * source reads with gjson and patches with sjson. Objects are maps, so key
 * order and duplicate keys are not represented.
 */
module JsonTree {
  import opened TextUtil

  datatype Option<+T> = None | Some(value: T) {
    function GetOr(default: T): T {
      match this
      case Some(v) => v
      case None => default
    }
  }

  datatype Json =
    | JNull
    | JBool(b: bool)
    | JNum(n: int)
    | JStr(s: string)
    | JArr(items: seq<Json>)
    | JObj(fields: map<string, Json>)

  /** A request body as bytes: empty, not valid JSON, or a parsed document. */
  datatype RawDoc = Empty | Malformed | Parsed(value: Json)

  /** gjson path lookup through object keys; a missing key or a non-object on the way gives None. */
  function Get(j: Json, path: seq<string>): (r: Option<Json>)
    ensures path == [] ==> r == Some(j)
    ensures path != [] && !j.JObj? ==> r == None
    decreases path
  {
    if path == [] then Some(j)
    else match j
      case JObj(m) => if path[0] in m then Get(m[path[0]], path[1..]) else None
      case _ => None
  }

  /** gjson lookup on a request body; an empty or malformed body has no fields. */
  function GetDoc(d: RawDoc, path: seq<string>): Option<Json> {
    if d.Parsed? then Get(d.value, path) else None
  }

  /**
   * gjson's Result.String(): the text of a string, "true"/"false", the
   * decimal form of a number, "" for null. Arrays and objects render as their
   * JSON text, which begins with '[' or '{'; only that first character is kept.
   */
  function Text(j: Json): (r: string)
    ensures j.JStr? ==> r == j.s
    ensures j.JArr? || j.JObj? ==> r != [] && (r[0] == '[' || r[0] == '{')
  {
    match j
    case JNull => ""
    case JBool(b) => if b then "true" else "false"
    case JNum(n) => IntText(n)
    case JStr(s) => s
    case JArr(_) => "[…]"
    case JObj(_) => "{…}"
  }

  /** Text of an optional value, "" when absent (gjson's String() on a missing result). */
  function TextOr(v: Option<Json>): (r: string)
    ensures v.None? ==> r == ""
  {
    if v.Some? then Text(v.value) else ""
  }

  /**
   * sjson.Set along an object path inside a field map: intermediate values
   * that are not objects are replaced by fresh objects.
   */
  function SetField(m: map<string, Json>, path: seq<string>, v: Json): (r: map<string, Json>)
    requires |path| > 0
    ensures r.Keys == m.Keys + {path[0]}
    ensures forall k :: k in m && k != path[0] ==> r[k] == m[k]
    ensures Get(JObj(r), path) == Some(v)
    decreases |path|
  {
    var k := path[0];
    if |path| == 1 then m[k := v]
    else
      var child := if k in m && m[k].JObj? then m[k].fields else map[];
      m[k := JObj(SetField(child, path[1..], v))]
  }

  /** sjson.Set: fails (None) when the document root is not an object. */
  function Set(j: Json, path: seq<string>, v: Json): (r: Option<Json>)
    requires |path| > 0
    ensures r.Some? <==> j.JObj?
    ensures r.Some? ==> r.value.JObj? && Get(r.value, path) == Some(v)
  {
    if j.JObj? then Some(JObj(SetField(j.fields, path, v))) else None
  }

  /** sjson.Delete of a top-level key; a non-object is left as it is. */
  function Delete(j: Json, key: string): (r: Json)
    ensures j.JObj? ==> r.JObj? && key !in r.fields
    ensures j.JObj? ==> forall k :: k != key ==> Get(r, [k]) == Get(j, [k])
    ensures !j.JObj? ==> r == j
  {
    if j.JObj? then JObj(j.fields - {key}) else j
  }

  /** Two field maps agree on every key outside `keys`. */
  predicate AgreeOutside(a: map<string, Json>, b: map<string, Json>, keys: set<string>) {
    && a.Keys - keys == b.Keys - keys
    && (forall k :: k in a && k !in keys && k in b ==> a[k] == b[k])
  }

  /** Setting a two-step path keeps the sibling keys of the inner object. */
  lemma SetFieldKeepsSiblings(m: map<string, Json>, outer: string, inner: string, other: string, v: Json)
    requires inner != other
    ensures Get(JObj(SetField(m, [outer, inner], v)), [outer, other]) == Get(JObj(m), [outer, other])
  {
    var r := SetField(m, [outer, inner], v);
    assert [outer, inner][1..] == [inner];
    assert [outer, other][1..] == [other];
    assert [other][1..] == [];
    if outer in m && m[outer].JObj? {
      assert r[outer] == JObj(m[outer].fields[inner := v]);
    } else {
      assert r[outer] == JObj(map[inner := v]);
    }
  }

  /** A two-step lookup reads the inner field of the outer object. */
  lemma GetTwoLevels(m: map<string, Json>, outer: string, inner: string)
    ensures Get(JObj(m), [outer, inner]) ==
              if outer in m && m[outer].JObj? && inner in m[outer].fields then Some(m[outer].fields[inner]) else None
  {
    assert [outer, inner][1..] == [inner];
    assert [inner][1..] == [];
  }
}
