/** String and object sanitising (utils/sanitize.js): strings are trimmed,
    stripped of angle brackets and cut to 10000 characters; objects are
    rebuilt key by key with every leaf sanitised. */
module Sanitizer {
  import opened Text
  import opened JsonValues

  const MaxLength := 10000

  /** `sanitizeString(str)`: any value that is not a string is returned as is. */
  function SanitizeString(v: Json): (r: Json)
    ensures !v.JStr? ==> r == v
    ensures v.JStr? ==> r.JStr? && |r.s| <= MaxLength && |r.s| <= |v.s|
    ensures v.JStr? ==> forall i :: 0 <= i < |r.s| ==> r.s[i] != '<' && r.s[i] != '>'
    ensures v.JStr? ==> r.s <= RemoveChars(Trim(v.s), {'<', '>'})
    ensures v.JStr? ==> var cleaned := RemoveChars(Trim(v.s), {'<', '>'});
      |r.s| == if |cleaned| <= MaxLength then |cleaned| else MaxLength
  {
    match v
    case JStr(s) => JStr(Take(RemoveChars(Trim(s), {'<', '>'}), MaxLength))
    case _ => v
  }

  /** `sanitizeObject(obj)`: non-objects (null included) go to `sanitizeString`;
      an object keeps its keys in order, each value sanitised; an array comes
      back as a plain object keyed by the indices "0", "1", .... */
  function SanitizeObject(v: Json): (r: Json)
    ensures !v.IsObject() ==> r == SanitizeString(v)
    ensures v.IsObject() ==> r.JObj?
    ensures v.JObj? ==> Keys(r.members) == Keys(v.members)
    ensures v.JObj? ==> forall i :: 0 <= i < |v.members| ==> r.members[i].1 == SanitizeObject(v.members[i].1)
    ensures v.JArr? ==>
      && |r.members| == |v.items|
      && (forall i :: 0 <= i < |v.items| ==> r.members[i] == (NatToString(i), SanitizeObject(v.items[i])))
    decreases v
  {
    match v
    case JArr(items) => JObj(seq(|items|, i requires 0 <= i < |items| => (NatToString(i), SanitizeObject(items[i]))))
    case JObj(ms) => JObj(seq(|ms|, i requires 0 <= i < |ms| => (ms[i].0, SanitizeObject(ms[i].1))))
    case _ => SanitizeString(v)
  }

  /** No string anywhere in `v` holds an angle bracket or exceeds the length
      limit, and no array is left. */
  predicate SafeLeaves(v: Json) {
    match v
    case JStr(s) => |s| <= MaxLength && forall i :: 0 <= i < |s| ==> s[i] != '<' && s[i] != '>'
    case JArr(_) => false
    case JObj(ms) => forall i :: 0 <= i < |ms| ==> SafeLeaves(ms[i].1)
    case _ => true
  }

  // ---------------------------------------------------------------------------
  // Properties

  /** Every leaf of the result is a sanitised string or a non-string. */
  lemma {:induction false} SanitizedLeavesAreSafe(v: Json)
    ensures SafeLeaves(SanitizeObject(v))
    decreases v
  {
    match v {
      case JArr(items) =>
        forall i | 0 <= i < |items| ensures SafeLeaves(SanitizeObject(items[i])) {
          SanitizedLeavesAreSafe(items[i]);
        }
      case JObj(ms) =>
        forall i | 0 <= i < |ms| ensures SafeLeaves(SanitizeObject(ms[i].1)) {
          SanitizedLeavesAreSafe(ms[i].1);
        }
      case _ =>
    }
  }

  /** A string already trimmed, bracket-free and short enough is kept as is. */
  lemma CleanStringKept(s: string)
    requires |s| <= MaxLength
    requires |s| > 0 ==> !IsJsSpace(s[0]) && !IsJsSpace(s[|s| - 1])
    requires forall i :: 0 <= i < |s| ==> s[i] != '<' && s[i] != '>'
    ensures SanitizeString(JStr(s)) == JStr(s)
  {
    TrimNoop(s);
    RemoveCharsNoop(s, {'<', '>'});
  }

  /** Trimming comes before bracket removal, so a space that only a bracket
      kept from the edge survives: "< a" becomes " a", and a second pass would
      give "a". */
  lemma TrimBeforeRemoval()
    ensures SanitizeString(JStr("< a")) == JStr(" a")
    ensures SanitizeString(SanitizeString(JStr("< a"))) == JStr("a")
  {
    FirstPass();
    SecondPass();
  }

  lemma FirstPass()
    ensures SanitizeString(JStr("< a")) == JStr(" a")
  {
    var s := "< a";
    assert !IsJsSpace('<') && !IsJsSpace('a');
    TrimNoop(s);
    assert s[1..] == " a";
    RemoveCharsNoop(" a", {'<', '>'});
    assert RemoveChars(s, {'<', '>'}) == " a";
  }

  lemma SecondPass()
    ensures SanitizeString(JStr(" a")) == JStr("a")
  {
    var t := " a";
    assert IsJsSpace(' ') && !IsJsSpace('a');
    assert t[1..] == "a";
    assert LeadingSpaces("a") == 0;
    assert LeadingSpaces(t) == 1;
    assert TrailingStart("a") == 1;
    assert Trim(t) == "a";
    RemoveCharsNoop("a", {'<', '>'});
  }
}
