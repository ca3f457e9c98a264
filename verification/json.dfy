/** Decoded JSON values as Python's json.loads produces them, and the few Python
    operations the scorer applies to them: `key in obj`, `obj[key]`, `for x in v`
    and `len(v)`. */
module JsonValue {
  import opened Wrappers

  /** A JSON value. An object keeps its members in document order, duplicates
      included; the Python dict built from it is described by `Lookup` and `Keys`. */
  datatype Json =
    | JNull
    | JBool(b: bool)
    | JNumber(n: real)
    | JString(s: string)
    | JArray(items: seq<Json>)
    | JObject(members: seq<(string, Json)>)

  /** `key in obj`. */
  predicate HasKey(members: seq<(string, Json)>, key: string) {
    exists i :: 0 <= i < |members| && members[i].0 == key
  }

  /** `obj[key]`: the value of the LAST member named `key` (json.loads keeps the
      last duplicate), `None` for a KeyError. */
  function Lookup(members: seq<(string, Json)>, key: string): (r: Option<Json>)
    ensures r.Some? <==> HasKey(members, key)
    ensures r.Some? ==> exists i :: 0 <= i < |members| && members[i] == (key, r.value)
                          && forall j :: i < j < |members| ==> members[j].0 != key
  {
    if |members| == 0 then None
    else
      var init := members[..|members| - 1];
      var last := members[|members| - 1];
      assert forall i :: 0 <= i < |init| ==> init[i] == members[i];
      if last.0 == key then Some(last.1) else Lookup(init, key)
  }

  /** Iteration order of the dict: each key once, at the place it first appears. */
  function Keys(members: seq<(string, Json)>): (ks: seq<string>)
    ensures |ks| <= |members|
    ensures forall i, j :: 0 <= i < j < |ks| ==> ks[i] != ks[j]
    ensures forall k :: k in ks <==> HasKey(members, k)
  {
    if |members| == 0 then []
    else
      var init := members[..|members| - 1];
      var last := members[|members| - 1];
      assert forall i :: 0 <= i < |init| ==> init[i] == members[i];
      var ks := Keys(init);
      if last.0 in ks then ks else ks + [last.0]
  }

  /** A new member adds its key at the end, and a repeated key keeps its first
      place: the keys come in order of first appearance. */
  lemma KeysSnoc(members: seq<(string, Json)>, key: string, v: Json)
    ensures Keys(members + [(key, v)]) ==
              if HasKey(members, key) then Keys(members) else Keys(members) + [key]
  {
    assert (members + [(key, v)])[..|members|] == members;
  }

  /** Each character of `s` as a one-character string, as iterating a Python str yields. */
  function Chars(s: string): (r: seq<Json>)
    ensures |r| == |s|
    ensures forall i :: 0 <= i < |s| ==> r[i] == JString([s[i]])
  {
    seq(|s|, i requires 0 <= i < |s| => JString([s[i]]))
  }

  /** What `for x in v` visits: list items, string characters, object keys.
      `None` is the TypeError raised for null, booleans and numbers. */
  function Iterate(v: Json): (r: Option<seq<Json>>)
    ensures r.None? <==> v.JNull? || v.JBool? || v.JNumber?
    ensures v.JArray? ==> r == Some(v.items)
    ensures v.JString? ==> r.Some? && |r.value| == |v.s|
    ensures v.JObject? ==> r.Some? && |r.value| == |Keys(v.members)|
  {
    match v
    case JArray(items) => Some(items)
    case JString(s) => Some(Chars(s))
    case JObject(members) =>
      var ks := Keys(members);
      Some(seq(|ks|, i requires 0 <= i < |ks| => JString(ks[i])))
    case _ => None
  }

  /** `len(v)`; `None` is the TypeError for values without a length. */
  function Len(v: Json): (r: Option<nat>)
    ensures r.Some? <==> Iterate(v).Some?
    ensures r.Some? ==> r.value == |Iterate(v).value|
  {
    match v
    case JArray(items) => Some(|items|)
    case JString(s) => Some(|s|)
    case JObject(members) => Some(|Keys(members)|)
    case _ => None
  }
}
