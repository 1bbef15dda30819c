/** Python's string operations as used by the device layer: lower-casing,
    stripping, substring search, splitting at a separator, joining and the
    decimal rendering of an integer. */
module Strings {

  /** Python's `str.isspace()` for one character. */
  predicate IsSpace(c: char) {
    || c == ' '
    || ('\t' <= c <= '\r')
    || ('\U{1c}' <= c <= '\U{1f}')
    || c == '\U{85}' || c == '\U{a0}' || c == '\U{1680}'
    || ('\U{2000}' <= c <= '\U{200a}')
    || c == '\U{2028}' || c == '\U{2029}' || c == '\U{202f}' || c == '\U{205f}' || c == '\U{3000}'
  }

  /** `str.lower()` on one character: the ASCII capitals and the KELVIN SIGN,
      the only characters whose lower-case form is a single ASCII letter. */
  function LowerChar(c: char): char {
    if 'A' <= c <= 'Z' then (c as int + 32) as char
    else if c == '\U{212A}' then 'k'
    else c
  }

  function Lower(s: string): (r: string)
    ensures |r| == |s|
    ensures forall i :: 0 <= i < |s| ==> r[i] == LowerChar(s[i])
  {
    seq(|s|, i requires 0 <= i < |s| => LowerChar(s[i]))
  }

  predicate NoUpper(s: string) {
    forall i :: 0 <= i < |s| ==> !('A' <= s[i] <= 'Z') && s[i] != '\U{212A}'
  }

  lemma LowerOfLowerCase(s: string)
    requires NoUpper(s)
    ensures Lower(s) == s
  {
  }

  lemma LowerIdempotent(s: string)
    ensures Lower(Lower(s)) == Lower(s)
  {
  }

  function StripLeft(s: string): (r: string)
    ensures |r| <= |s| && r == s[|s| - |r|..]
    ensures r == [] || !IsSpace(r[0])
  {
    if s != [] && IsSpace(s[0]) then StripLeft(s[1..]) else s
  }

  function StripRight(s: string): (r: string)
    ensures |r| <= |s| && r == s[..|r|]
    ensures r == [] || !IsSpace(r[|r| - 1])
  {
    if s != [] && IsSpace(s[|s| - 1]) then StripRight(s[..|s| - 1]) else s
  }

  /** Python's `str.strip()` with no argument. */
  function Strip(s: string): string {
    StripRight(StripLeft(s))
  }

  predicate AllSpace(s: string) {
    forall i :: 0 <= i < |s| ==> IsSpace(s[i])
  }

  lemma {:induction false} StripLeftPadding(w: string, s: string)
    requires AllSpace(w)
    ensures StripLeft(w + s) == StripLeft(s)
  {
    if w != [] {
      assert (w + s)[0] == w[0];
      assert (w + s)[1..] == w[1..] + s;
      StripLeftPadding(w[1..], s);
    } else {
      assert w + s == s;
    }
  }

  lemma {:induction false} StripRightPadding(s: string, w: string)
    requires AllSpace(w)
    ensures StripRight(s + w) == StripRight(s)
  {
    if w != [] {
      assert (s + w)[|s + w| - 1] == w[|w| - 1];
      assert (s + w)[..|s + w| - 1] == s + w[..|w| - 1];
      StripRightPadding(s, w[..|w| - 1]);
    } else {
      assert s + w == s;
    }
  }

  lemma {:induction false} AllSpaceStripsToEmpty(w: string)
    requires AllSpace(w)
    ensures StripLeft(w) == []
  {
    if w != [] {
      AllSpaceStripsToEmpty(w[1..]);
    }
  }

  /** Trailing whitespace survives a left strip unless everything is stripped. */
  lemma {:induction false} StripLeftAppend(s: string, w: string)
    requires AllSpace(w)
    ensures StripLeft(s) != [] ==> StripLeft(s + w) == StripLeft(s) + w
    ensures StripLeft(s) == [] ==> StripLeft(s + w) == []
  {
    if s == [] {
      assert [] + w == w;
      AllSpaceStripsToEmpty(w);
    } else if IsSpace(s[0]) {
      assert (s + w)[0] == s[0];
      assert (s + w)[1..] == s[1..] + w;
      StripLeftAppend(s[1..], w);
    } else {
      assert (s + w)[0] == s[0];
    }
  }

  /** Surrounding whitespace never changes what `strip()` returns. */
  lemma StripIgnoresPadding(w1: string, s: string, w2: string)
    requires AllSpace(w1) && AllSpace(w2)
    ensures Strip(w1 + s + w2) == Strip(s)
  {
    assert StripLeft(w1 + s + w2) == StripLeft(s + w2) by {
      assert w1 + s + w2 == w1 + (s + w2);
      StripLeftPadding(w1, s + w2);
    }
    var l := StripLeft(s);
    if l != [] {
      assert StripLeft(s + w2) == l + w2 by {
        StripLeftAppend(s, w2);
      }
      StripRightPadding(l, w2);
    } else {
      assert StripLeft(s + w2) == [] by {
        StripLeftAppend(s, w2);
      }
    }
  }

  /** Does `sub` occur in `s` at position `i`? */
  predicate OccursAt(s: string, sub: string, i: nat) {
    i + |sub| <= |s| && s[i..i + |sub|] == sub
  }

  /** Position of the first occurrence of `sub` in `s` at or after `from`. */
  function IndexFrom(s: string, sub: string, from: nat): (r: int)
    requires from <= |s|
    ensures -1 <= r <= |s|
    ensures r >= 0 ==> from <= r && OccursAt(s, sub, r)
    ensures r >= 0 ==> forall j :: from <= j < r ==> !OccursAt(s, sub, j)
    ensures r < 0 ==> forall j :: from <= j <= |s| ==> !OccursAt(s, sub, j)
    decreases |s| - from
  {
    if OccursAt(s, sub, from) then from
    else if from == |s| then -1
    else IndexFrom(s, sub, from + 1)
  }

  /** Python's `s.find(sub)`. */
  function Find(s: string, sub: string): (r: int)
    ensures -1 <= r <= |s|
    ensures r >= 0 ==> OccursAt(s, sub, r) && forall j :: 0 <= j < r ==> !OccursAt(s, sub, j)
    ensures r < 0 <==> forall j :: 0 <= j <= |s| ==> !OccursAt(s, sub, j)
  {
    IndexFrom(s, sub, 0)
  }

  /** Python's `sub in s`. */
  predicate Contains(s: string, sub: string) {
    Find(s, sub) >= 0
  }

  lemma ContainsAt(s: string, sub: string, i: nat)
    requires OccursAt(s, sub, i)
    ensures Contains(s, sub)
  {
  }

  /** Python's `s.split(sep, 1)` when `sep in s`: the text before the first
      occurrence and the text after it. */
  function SplitOnce(s: string, sep: string): (parts: (string, string))
    requires Contains(s, sep)
    ensures s == parts.0 + sep + parts.1
  {
    var i := Find(s, sep);
    assert s == s[..i] + s[i..i + |sep|] + s[i + |sep|..];
    (s[..i], s[i + |sep|..])
  }

  /** The split happens at the FIRST occurrence: the head holds none. */
  lemma SplitOnceAtFirst(s: string, sep: string)
    requires Contains(s, sep) && sep != []
    ensures !Contains(SplitOnce(s, sep).0, sep)
  {
    var head := SplitOnce(s, sep).0;
    var i := Find(s, sep);
    if Contains(head, sep) {
      var j := Find(head, sep);
      assert s[j..j + |sep|] == head[j..j + |sep|];
      assert OccursAt(s, sep, j);
    }
  }

  /** Joining a head and a tail with a separator and splitting again gives
      them back, provided no occurrence of the separator starts inside the
      head (the head followed by all but the last character of the
      separator does not contain it). */
  lemma SplitOnceOfJoined(p: string, sep: string, a: string)
    requires sep != [] && !Contains(p + sep[..|sep| - 1], sep)
    ensures Contains(p + sep + a, sep)
    ensures SplitOnce(p + sep + a, sep) == (p, a)
  {
    var s := p + sep + a;
    var q := p + sep[..|sep| - 1];
    assert s[|p|..|p| + |sep|] == sep;
    assert OccursAt(s, sep, |p|);
    forall j | 0 <= j < |p| ensures !OccursAt(s, sep, j) {
      if OccursAt(s, sep, j) {
        assert s[j..j + |sep|] == q[j..j + |sep|];
        assert OccursAt(q, sep, j);
      }
    }
    var i := Find(s, sep);
    assert i == |p|;
    assert s[..i] == p;
    assert s[i + |sep|..] == a;
  }

  /** `sep.join(parts)`. */
  function Join(sep: string, parts: seq<string>): string {
    if parts == [] then ""
    else if |parts| == 1 then parts[0]
    else parts[0] + sep + Join(sep, parts[1..])
  }

  /** A join starts with its first part, followed by the separator when
      more parts come. */
  lemma JoinStartsWithHead(sep: string, parts: seq<string>)
    requires parts != []
    ensures parts[0] <= Join(sep, parts)
    ensures |parts| > 1 ==> |parts[0]| + |sep| <= |Join(sep, parts)|
    ensures |parts| > 1 ==> Join(sep, parts)[|parts[0]|..|parts[0]| + |sep|] == sep
  {
    if |parts| > 1 {
      assert Join(sep, parts) == parts[0] + sep + Join(sep, parts[1..]);
    }
  }

  function DigitChar(d: nat): char
    requires d < 10
  {
    "0123456789"[d]
  }

  function NatToString(n: nat): (r: string)
    ensures |r| >= 1
    ensures forall i :: 0 <= i < |r| ==> '0' <= r[i] <= '9'
  {
    if n < 10 then [DigitChar(n)] else NatToString(n / 10) + [DigitChar(n % 10)]
  }

  /** Python's `str(n)` for an integer. */
  function IntToString(n: int): string {
    if n < 0 then "-" + NatToString(-n) else NatToString(n)
  }
}
