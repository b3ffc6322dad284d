/** String helpers with the semantics of the JavaScript built-ins the backend uses:
    `String.prototype.includes`, `trim`, `replace(/[<>]/g, '')`, `slice(0, n)`,
    and the decimal rendering of integers in template literals. */
module Text {

  /** `s.includes(sub)`: `sub` occurs somewhere in `s` (the empty string occurs everywhere). */
  function Contains(s: string, sub: string): bool
    decreases |s|
  {
    sub <= s || (|s| > 0 && Contains(s[1..], sub))
  }

  /** `sub` occurs in `s` at position `i`. */
  ghost predicate OccursAt(s: string, sub: string, i: int) {
    0 <= i && i + |sub| <= |s| && s[i..i + |sub|] == sub
  }

  /** The recursive search finds exactly the positions at which `sub` occurs. */
  lemma {:induction false} ContainsIff(s: string, sub: string)
    ensures Contains(s, sub) <==> exists i :: OccursAt(s, sub, i)
    decreases |s|
  {
    if sub <= s {
      assert OccursAt(s, sub, 0);
    } else if |s| == 0 {
    } else {
      ContainsIff(s[1..], sub);
      if exists i :: OccursAt(s[1..], sub, i) {
        var i :| OccursAt(s[1..], sub, i);
        assert s[1..][i..i + |sub|] == s[i + 1..i + 1 + |sub|];
        assert OccursAt(s, sub, i + 1);
      }
      if exists i :: OccursAt(s, sub, i) {
        var i :| OccursAt(s, sub, i);
        if i > 0 {
          assert s[1..][i - 1..i - 1 + |sub|] == s[i..i + |sub|];
          assert OccursAt(s[1..], sub, i - 1);
        }
      }
    }
  }

  /** Any string contains itself as a suffix of any prefix: `(p + s).includes(s)`. */
  lemma {:induction false} ContainsSuffix(p: string, s: string, q: string)
    ensures Contains(p + s + q, s)
  {
    ContainsIff(p + s + q, s);
    assert (p + s + q)[|p|..|p| + |s|] == s;
    assert OccursAt(p + s + q, s, |p|);
  }

  // ---------------------------------------------------------------------------
  // Decimal rendering

  function DigitChar(d: nat): (c: char)
    requires d < 10
    ensures '0' <= c <= '9'
  {
    ('0' as int + d) as char
  }

  predicate IsDigit(c: char) {
    '0' <= c <= '9'
  }

  /** `String(n)` for a non-negative integer: its shortest decimal digits. */
  function NatToString(n: nat): (r: string)
    ensures |r| > 0 && forall i :: 0 <= i < |r| ==> IsDigit(r[i])
    ensures r[0] == '0' ==> n == 0 && |r| == 1
  {
    if n < 10 then [DigitChar(n)] else NatToString(n / 10) + [DigitChar(n % 10)]
  }

  /** `String(i)` for any integer, with a leading minus sign when negative. */
  function IntToString(i: int): (r: string)
    ensures |r| > 0
    ensures (i < 0) == (r[0] == '-')
  {
    if i < 0 then "-" + NatToString(-i) else NatToString(i)
  }

  // ---------------------------------------------------------------------------
  // Whitespace and line terminators (ECMAScript WhiteSpace and LineTerminator)

  /** LF, CR, LINE SEPARATOR and PARAGRAPH SEPARATOR. */
  predicate IsLineTerminator(c: char) {
    c == '\n' || c == '\r' || c == '\U{2028}' || c == '\U{2029}'
  }

  /** The characters `String.prototype.trim` removes: WhiteSpace and
      LineTerminator, i.e. U+0009 to U+000D, the space, NBSP, U+1680,
      U+2000 to U+200A, the two separators, U+202F, U+205F, U+3000 and the BOM. */
  predicate IsJsSpace(c: char) {
    || ('\t' <= c <= '\r')
    || c == ' ' || c == '\U{00A0}' || c == '\U{1680}'
    || ('\U{2000}' <= c <= '\U{200A}')
    || c == '\U{2028}' || c == '\U{2029}' || c == '\U{202F}' || c == '\U{205F}'
    || c == '\U{3000}' || c == '\U{FEFF}'
  }

  /** The number of whitespace characters `s` starts with. */
  function LeadingSpaces(s: string): (k: nat)
    ensures k <= |s|
    ensures forall i :: 0 <= i < k ==> IsJsSpace(s[i])
    ensures k < |s| ==> !IsJsSpace(s[k])
  {
    if |s| > 0 && IsJsSpace(s[0]) then 1 + LeadingSpaces(s[1..]) else 0
  }

  /** The length of `s` without its trailing whitespace. */
  function TrailingStart(s: string): (k: nat)
    ensures k <= |s|
    ensures forall i :: k <= i < |s| ==> IsJsSpace(s[i])
    ensures 0 < k ==> !IsJsSpace(s[k - 1])
  {
    if |s| > 0 && IsJsSpace(s[|s| - 1]) then TrailingStart(s[..|s| - 1]) else |s|
  }

  /** `trim`: the piece of `s` between its leading and its trailing whitespace. */
  function Trim(s: string): (r: string)
    ensures |r| <= |s|
    ensures |r| > 0 ==> !IsJsSpace(r[0]) && !IsJsSpace(r[|r| - 1])
  {
    var t := s[LeadingSpaces(s)..];
    t[..TrailingStart(t)]
  }

  /** What `trim` removes is whitespace only, and what it keeps is contiguous. */
  lemma TrimIsInnerSlice(s: string)
    ensures var a := LeadingSpaces(s); Trim(s) == s[a..a + TrailingStart(s[a..])]
    ensures forall i :: 0 <= i < LeadingSpaces(s) ==> IsJsSpace(s[i])
    ensures var a := LeadingSpaces(s);
      forall i :: a + TrailingStart(s[a..]) <= i < |s| ==> IsJsSpace(s[i])
  {
    TrimSlice(s);
    SpacesOfSuffix(s, LeadingSpaces(s), TrailingStart(s[LeadingSpaces(s)..]));
  }

  lemma TrimSlice(s: string)
    ensures var a := LeadingSpaces(s); Trim(s) == s[a..a + TrailingStart(s[a..])]
  {
    var a := LeadingSpaces(s);
    var t := s[a..];
    var k := TrailingStart(t);
    assert Trim(s) == t[..k];
    SliceOfSlice(s, a, k);
  }

  lemma SpacesOfSuffix(s: string, a: nat, k: nat)
    requires a <= |s| && k <= |s| - a
    requires TrailingStart(s[a..]) <= k
    ensures forall i :: a + k <= i < |s| ==> IsJsSpace(s[i])
  {
    var t := s[a..];
    forall i | a + k <= i < |s| ensures IsJsSpace(s[i]) {
      assert s[i] == t[i - a];
    }
  }

  /** A string with no surrounding whitespace is its own trim. */
  lemma TrimNoop(s: string)
    requires |s| > 0 ==> !IsJsSpace(s[0]) && !IsJsSpace(s[|s| - 1])
    ensures Trim(s) == s
  {
    assert s[0..] == s;
    assert s[..|s|] == s;
  }

  lemma SliceOfSlice<T>(s: seq<T>, a: nat, k: nat)
    requires a <= |s| && k <= |s| - a
    ensures s[a..][..k] == s[a..a + k]
  {
  }

  // ---------------------------------------------------------------------------
  // Character removal and truncation

  /** `s.replace(/[cs]/g, '')`: every character of `cs` removed. */
  function RemoveChars(s: string, cs: set<char>): (r: string)
    ensures |r| <= |s|
    ensures forall i :: 0 <= i < |r| ==> r[i] !in cs
    ensures forall c :: c !in cs ==> multiset(r)[c] == multiset(s)[c]
  {
    if |s| == 0 then
      ""
    else
      var rest := RemoveChars(s[1..], cs);
      assert s == [s[0]] + s[1..];
      if s[0] in cs then rest else [s[0]] + rest
  }

  /** Removing characters keeps a string that already has none of them. */
  lemma {:induction false} RemoveCharsNoop(s: string, cs: set<char>)
    requires forall i :: 0 <= i < |s| ==> s[i] !in cs
    ensures RemoveChars(s, cs) == s
  {
    if |s| > 0 {
      RemoveCharsNoop(s[1..], cs);
    }
  }

  /** `s.slice(0, n)` for a non-negative `n`. */
  function Take(s: string, n: nat): (r: string)
    ensures |r| == if |s| <= n then |s| else n
    ensures r <= s
  {
    if |s| <= n then s else s[..n]
  }

  // ---------------------------------------------------------------------------
  // Case mapping (ASCII letters; see README for Unicode)

  function ToLowerChar(c: char): char {
    if 'A' <= c <= 'Z' then (c as int + 32) as char else c
  }

  /** `s.toLowerCase()` on the ASCII range: upper-case letters mapped, all else kept. */
  function ToLower(s: string): (r: string)
    ensures |r| == |s|
    ensures forall i :: 0 <= i < |s| ==> r[i] == ToLowerChar(s[i])
  {
    seq(|s|, i requires 0 <= i < |s| => ToLowerChar(s[i]))
  }

  /** Lower-casing then trimming gives a string that is already lower case. */
  lemma TrimmedLowerIsLower(s: string)
    ensures ToLower(Trim(ToLower(s))) == Trim(ToLower(s))
  {
    var lowered := ToLower(s);
    TrimSlice(lowered);
    LoweredSliceIsLower(s, LeadingSpaces(lowered), LeadingSpaces(lowered) + |Trim(lowered)|);
  }

  /** Any piece of a lower-cased string is already lower case. */
  lemma LoweredSliceIsLower(s: string, a: nat, b: nat)
    requires a <= b <= |s|
    ensures ToLower(ToLower(s)[a..b]) == ToLower(s)[a..b]
  {
    var t := ToLower(s)[a..b];
    forall i | 0 <= i < |t| ensures ToLower(t)[i] == t[i] {
      assert t[i] == ToLowerChar(s[a + i]);
    }
  }

  /** `s.split(sep).join`-style concatenation: the pieces separated by `sep`. */
  function Join(pieces: seq<string>, sep: string): (r: string)
    ensures |pieces| == 1 ==> r == pieces[0]
    ensures |pieces| == 0 ==> r == ""
  {
    if |pieces| == 0 then ""
    else if |pieces| == 1 then pieces[0]
    else pieces[0] + sep + Join(pieces[1..], sep)
  }
}
