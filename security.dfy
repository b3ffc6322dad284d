/** The request hygiene of middlewares/security.middleware.js: the recursive
    removal of keys that could smuggle query operators (`$...`) or paths
    (`a.b`), the request size limit, and the rate limiter's client key. */
module RequestSecurity {
  import opened Wrappers
  import opened Text
  import opened JsNumbers
  import opened JsonValues
  import opened Domain

  /** The largest accepted `content-length`, 10 KiB. */
  const MaxSize := 10 * 1024

  const TooLarge := ApiError(413, "Request entity too large")

  // ---------------------------------------------------------------------------
  // Key stripping

  /** A key `sanitize` keeps: it does not start with `$` and has no `.`. */
  predicate GoodKey(k: string) {
    !(|k| > 0 && k[0] == '$') && '.' !in k
  }

  /** No key that `sanitize` drops, at any depth. */
  predicate Clean(v: Json) {
    match v
    case JArr(items) => forall i :: 0 <= i < |items| ==> Clean(items[i])
    case JObj(ms) => forall i :: 0 <= i < |ms| ==> GoodKey(ms[i].0) && Clean(ms[i].1)
    case _ => true
  }

  /** The members with a good key, in order. */
  function GoodMembers(ms: seq<(string, Json)>): (r: seq<(string, Json)>)
    ensures forall m :: m in r <==> m in ms && GoodKey(m.0)
    ensures forall i :: 0 <= i < |r| ==> GoodKey(r[i].0)
    ensures |r| <= |ms|
  {
    if |ms| == 0 then []
    else (if GoodKey(ms[0].0) then [ms[0]] else []) + GoodMembers(ms[1..])
  }

  /** `sanitize(obj)`: a value that is not an object comes back as it is; an
      array stays an array of sanitised items; an object keeps its good keys,
      in order, with sanitised values. */
  function Sanitized(v: Json): (r: Json)
    ensures !v.IsObject() ==> r == v
    ensures v.JArr? ==>
      && r.JArr? && |r.items| == |v.items|
      && (forall i :: 0 <= i < |v.items| ==> r.items[i] == Sanitized(v.items[i]))
    ensures v.JObj? ==>
      && r.JObj? && |r.members| == |GoodMembers(v.members)|
      && (forall i :: 0 <= i < |r.members| ==>
            r.members[i] == (GoodMembers(v.members)[i].0, Sanitized(GoodMembers(v.members)[i].1)))
    decreases v
  {
    match v
    case JArr(items) => JArr(seq(|items|, i requires 0 <= i < |items| => Sanitized(items[i])))
    case JObj(ms) =>
      var kept := GoodMembers(ms);
      JObj(seq(|kept|, i requires 0 <= i < |kept| =>
        assert kept[i] in ms;
        (kept[i].0, Sanitized(kept[i].1))))
    case _ => v
  }

  /** The for-in loop that fills a fresh array or object. */
  method SanitizeValue(v: Json) returns (r: Json)
    ensures r == Sanitized(v)
    decreases v
  {
    match v {
      case JArr(items) =>
        var out: seq<Json> := [];
        for i := 0 to |items|
          invariant |out| == i && forall j :: 0 <= j < i ==> out[j] == Sanitized(items[j])
        {
          var item := SanitizeValue(items[i]);
          out := out + [item];
        }
        r := JArr(out);
      case JObj(ms) =>
        var out: seq<(string, Json)> := [];
        for i := 0 to |ms|
          invariant out == Sanitized(JObj(ms[..i])).members
        {
          assert ms[..i + 1] == ms[..i] + [ms[i]];
          SanitizedMembersAppend(ms[..i], ms[i]);
          if !(|ms[i].0| > 0 && ms[i].0[0] == '$') && '.' !in ms[i].0 {
            var value := SanitizeValue(ms[i].1);
            out := out + [(ms[i].0, value)];
          }
        }
        assert ms[..|ms|] == ms;
        r := JObj(out);
      case _ =>
        r := v;
    }
  }

  /** Sanitising an object with one more member at the end. */
  lemma SanitizedMembersAppend(ms: seq<(string, Json)>, m: (string, Json))
    ensures Sanitized(JObj(ms + [m])).members
      == Sanitized(JObj(ms)).members + (if GoodKey(m.0) then [(m.0, Sanitized(m.1))] else [])
  {
    GoodMembersAppend(ms, m);
    var before := Sanitized(JObj(ms)).members;
    var after := Sanitized(JObj(ms + [m])).members;
    var extra: seq<(string, Json)> := if GoodKey(m.0) then [(m.0, Sanitized(m.1))] else [];
    assert |after| == |before| + |extra|;
    forall i | 0 <= i < |after| ensures after[i] == (before + extra)[i] {
      if i < |before| {
        assert GoodMembers(ms + [m])[i] == GoodMembers(ms)[i];
      } else {
        assert GoodMembers(ms + [m])[i] == m;
      }
    }
  }

  lemma GoodMembersAppend(ms: seq<(string, Json)>, m: (string, Json))
    ensures GoodMembers(ms + [m]) == GoodMembers(ms) + (if GoodKey(m.0) then [m] else [])
  {
    var last: seq<(string, Json)> := if GoodKey(m.0) then [m] else [];
    if |ms| == 0 {
      assert ms + [m] == [m];
      assert [m][1..] == [];
    } else {
      var head: seq<(string, Json)> := if GoodKey(ms[0].0) then [ms[0]] else [];
      assert (ms + [m])[0] == ms[0];
      assert (ms + [m])[1..] == ms[1..] + [m];
      GoodMembersAppend(ms[1..], m);
      AppendAssoc(head, GoodMembers(ms[1..]), last);
    }
  }

  // ---------------------------------------------------------------------------
  // Properties

  /** After `sanitize` no dropped key is left, at any depth. */
  lemma {:induction false} SanitizedIsClean(v: Json)
    ensures Clean(Sanitized(v))
    decreases v
  {
    match v {
      case JArr(items) =>
        forall i | 0 <= i < |items| ensures Clean(Sanitized(items[i])) {
          SanitizedIsClean(items[i]);
        }
      case JObj(ms) =>
        var kept := GoodMembers(ms);
        forall i | 0 <= i < |kept| ensures Clean(Sanitized(kept[i].1)) {
          assert kept[i] in ms;
          SanitizedIsClean(kept[i].1);
        }
      case _ =>
    }
  }

  /** A clean value is left exactly as it is, so `sanitize` is idempotent. */
  lemma {:induction false} CleanIsFixed(v: Json)
    requires Clean(v)
    ensures Sanitized(v) == v
    decreases v
  {
    match v {
      case JArr(items) =>
        forall i | 0 <= i < |items| ensures Sanitized(items[i]) == items[i] {
          CleanIsFixed(items[i]);
        }
        assert Sanitized(v).items == items;
      case JObj(ms) =>
        GoodMembersAll(ms);
        forall i | 0 <= i < |ms| ensures Sanitized(ms[i].1) == ms[i].1 {
          CleanIsFixed(ms[i].1);
        }
        assert Sanitized(v).members == ms;
      case _ =>
    }
  }

  lemma {:induction false} GoodMembersAll(ms: seq<(string, Json)>)
    requires forall i :: 0 <= i < |ms| ==> GoodKey(ms[i].0)
    ensures GoodMembers(ms) == ms
  {
    if |ms| > 0 {
      GoodMembersAll(ms[1..]);
    }
  }

  lemma SanitizeIdempotent(v: Json)
    ensures Sanitized(Sanitized(v)) == Sanitized(v)
  {
    SanitizedIsClean(v);
    CleanIsFixed(Sanitized(v));
  }

  /** Every member with a good key survives, with its value sanitised. */
  lemma GoodKeyKept(ms: seq<(string, Json)>, i: nat)
    requires i < |ms| && GoodKey(ms[i].0)
    ensures (ms[i].0, Sanitized(ms[i].1)) in Sanitized(JObj(ms)).members
  {
    var kept := GoodMembers(ms);
    assert ms[i] in kept;
    var j :| 0 <= j < |kept| && kept[j] == ms[i];
    assert Sanitized(JObj(ms)).members[j] == (ms[i].0, Sanitized(ms[i].1));
  }

  /** Every surviving member comes from a member of the input with a good key. */
  lemma OnlyGoodKeys(ms: seq<(string, Json)>, i: nat)
    requires i < |Sanitized(JObj(ms)).members|
    ensures var m := Sanitized(JObj(ms)).members[i];
      GoodKey(m.0) && exists y :: (m.0, y) in ms && m.1 == Sanitized(y)
  {
    var kept := GoodMembers(ms);
    assert kept[i] in kept;
  }

  // ---------------------------------------------------------------------------
  // The request

  /** The three parts of a request `sanitizeRequest` rewrites. */
  class Request {
    var body: Json
    var query: Json
    var params: Json

    constructor (body: Json, query: Json, params: Json)
      ensures this.body == body && this.query == query && this.params == params
    {
      this.body, this.query, this.params := body, query, params;
    }
  }

  /** `sanitizeRequest`: each truthy part replaced by its sanitised form. */
  method SanitizeRequest(req: Request)
    modifies req
    ensures req.body == (if old(req.body).Truthy() then Sanitized(old(req.body)) else old(req.body))
    ensures req.query == (if old(req.query).Truthy() then Sanitized(old(req.query)) else old(req.query))
    ensures req.params == (if old(req.params).Truthy() then Sanitized(old(req.params)) else old(req.params))
    ensures Clean(req.body) || !old(req.body).Truthy()
  {
    if req.body.Truthy() {
      req.body := SanitizeValue(req.body);
      SanitizedIsClean(old(req.body));
    }
    if req.query.Truthy() {
      req.query := SanitizeValue(req.query);
    }
    if req.params.Truthy() {
      req.params := SanitizeValue(req.params);
    }
  }

  // ---------------------------------------------------------------------------
  // Size limit and client key

  /** `requestSizeLimiter`: `parseInt(content-length || '0')`; a header that
      does not parse gives `NaN`, which is never larger than the limit. */
  function SizeCheck(contentLength: Option<string>): (r: Result<(), Failure>)
    ensures r.Err? ==> r.error == TooLarge
    ensures r.Err? <==> exists n :: ParseInt(if contentLength.Some? && contentLength.value != "" then contentLength.value else "0") == Some(n) && n > MaxSize
  {
    var header := if contentLength.Some? && contentLength.value != "" then contentLength.value else "0";
    var n := ParseInt(header);
    if n.Some? && n.value > MaxSize then Err(TooLarge) else Ok(())
  }

  /** A missing header passes, and a decimal length fails exactly above 10240. */
  lemma SizeLimitOnDecimal(n: nat)
    ensures SizeCheck(None).Ok?
    ensures SizeCheck(Some(NatToString(n))).Err? <==> n > MaxSize
  {
    ParseNatToString(0);
    assert NatToString(0) == "0";
    ParseNatToString(n);
    assert NatToString(n) != "";
  }

  /** The rate limiter's `keyGenerator`: `req.user?.id || req.ip`. */
  function ClientKey(userId: Option<string>, ip: string): (k: string)
    ensures userId.Some? && userId.value != "" ==> k == userId.value
    ensures userId.None? || userId.value == "" ==> k == ip
  {
    if userId.Some? && userId.value != "" then userId.value else ip
  }
}
