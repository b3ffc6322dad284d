/** JSON-shaped values as they reach the backend: request bodies, query
    objects, route parameters and parsed model output. An object is its list
    of (key, value) members in enumeration order. */
module JsonValues {
  import opened Wrappers

  datatype Json =
    | JNull
    | JBool(b: bool)
    | JNum(n: real)
    | JStr(s: string)
    | JArr(items: seq<Json>)
    | JObj(members: seq<(string, Json)>)
  {
    /** `typeof v === 'object' && v !== null`: arrays and plain objects. */
    predicate IsObject() {
      JArr? || JObj?
    }

    /** JavaScript truthiness: `null`, `false`, `0`, `""` are falsy; objects and arrays are not. */
    predicate Truthy() {
      match this
      case JNull => false
      case JBool(b) => b
      case JNum(n) => n != 0.0
      case JStr(s) => s != ""
      case _ => true
    }
  }

  /** The keys of an object's members, in order. */
  function Keys(members: seq<(string, Json)>): (r: seq<string>)
    ensures |r| == |members|
    ensures forall i :: 0 <= i < |r| ==> r[i] == members[i].0
  {
    if |members| == 0 then [] else [members[0].0] + Keys(members[1..])
  }

  /** `obj[key]` on a member list: the last member with that key, if any. */
  function Get(members: seq<(string, Json)>, key: string): (r: Option<Json>)
    ensures r.None? <==> key !in Keys(members)
    ensures r.Some? ==> exists i :: 0 <= i < |members| && members[i] == (key, r.value)
  {
    if |members| == 0 then None
    else
      var last := members[|members| - 1];
      var init := members[..|members| - 1];
      assert Keys(members) == Keys(init) + [last.0];
      if last.0 == key then Some(last.1)
      else
        var r := Get(init, key);
        assert r.Some? ==> exists i :: 0 <= i < |init| && init[i] == (key, r.value);
        r
  }

  /** Looking a key up after one more member: that member wins when its key matches. */
  lemma GetSnoc(m: seq<(string, Json)>, x: (string, Json), key: string)
    ensures Get(m + [x], key) == if x.0 == key then Some(x.1) else Get(m, key)
  {
    assert (m + [x])[..|m + [x]| - 1] == m;
  }

  lemma KeysAppend(a: seq<(string, Json)>, b: seq<(string, Json)>)
    ensures Keys(a + b) == Keys(a) + Keys(b)
  {
  }

  lemma KeysSnoc(m: seq<(string, Json)>, x: (string, Json))
    ensures Keys(m + [x]) == Keys(m) + [x.0]
  {
    KeysAppend(m, [x]);
  }
}
