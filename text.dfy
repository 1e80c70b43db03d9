/** String helpers: the few JavaScript string operations the server relies on,
    stated over `seq<char>`. */
module Text {
  import opened Wrappers

  /** JavaScript truthiness of an optional string: present and not empty. */
  predicate Truthy(o: Option<string>) {
    o.Some? && o.value != ""
  }

  /** `o || d` for an optional string. */
  function OrElse(o: Option<string>, d: string): string {
    if Truthy(o) then o.value else d
  }

  /** A template literal `${o}`: a missing value renders as "undefined". */
  function Interpolate(o: Option<string>): string {
    if o.Some? then o.value else "undefined"
  }

  predicate IsPrefix(p: string, s: string) {
    |p| <= |s| && s[..|p|] == p
  }

  predicate IsSuffix(p: string, s: string) {
    |p| <= |s| && s[|s| - |p|..] == p
  }

  lemma PrefixOfConcat(a: string, b: string)
    ensures IsPrefix(a, a + b)
  {
    assert (a + b)[..|a|] == a;
  }

  lemma SuffixOfConcat(a: string, b: string)
    ensures IsSuffix(b, a + b)
  {
    assert (a + b)[|a|..] == b;
  }

  lemma ConcatThree(a: string, b: string, c: string)
    ensures IsPrefix(a, a + b + c) && IsSuffix(c, a + b + c)
  {
    assert a + b + c == a + (b + c);
    PrefixOfConcat(a, b + c);
    SuffixOfConcat(a + b, c);
  }

  lemma ConcatFour(a: string, b: string, c: string, d: string)
    ensures IsPrefix(a, a + b + c + d) && IsSuffix(c + d, a + b + c + d)
  {
    assert a + b + c + d == a + (b + c + d);
    assert a + b + c + d == (a + b) + (c + d);
    PrefixOfConcat(a, b + c + d);
    SuffixOfConcat(a + b, c + d);
  }

  /** `s.includes(p)`. */
  predicate Contains(s: string, p: string)
    decreases |s|
  {
    IsPrefix(p, s) || (|s| > 0 && Contains(s[1..], p))
  }

  /** A string that contains `p + q` contains `p`. */
  lemma {:induction false} ContainsShorter(s: string, p: string, q: string)
    requires Contains(s, p + q)
    ensures Contains(s, p)
    decreases |s|
  {
    if IsPrefix(p + q, s) {
      assert s[..|p|] == s[..|p + q|][..|p|] == (p + q)[..|p|] == p;
    } else {
      ContainsShorter(s[1..], p, q);
    }
  }

  /** A string that contains `p` contains every prefix of `p`. */
  lemma ContainsPrefixOf(s: string, p: string, q: string)
    requires IsPrefix(q, p) && Contains(s, p)
    ensures Contains(s, q)
  {
    assert p == q + p[|q|..];
    ContainsShorter(s, q, p[|q|..]);
  }

  /** A string never contains a longer one. */
  lemma {:induction false} ContainsNotLonger(s: string, p: string)
    requires Contains(s, p)
    ensures |p| <= |s|
    decreases |s|
  {
    if !IsPrefix(p, s) {
      ContainsNotLonger(s[1..], p);
    }
  }

  /** A string does not contain `p` when the first character of `p` does not
      occur early enough in it. */
  lemma {:induction false} NotContainsBefore(s: string, p: string, k: nat)
    requires 0 < |p| && k <= |s| && |s| - k < |p| && p[0] !in s[..k]
    ensures !Contains(s, p)
    decreases k
  {
    if k == 0 {
      if Contains(s, p) {
        ContainsNotLonger(s, p);
      }
    } else {
      assert s[0] == s[..k][0];
      assert s[1..][..k - 1] == s[1..k];
      assert forall c :: c in s[1..k] ==> c in s[..k];
      NotContainsBefore(s[1..], p, k - 1);
    }
  }

  function LowerChar(c: char): char {
    if 'A' <= c <= 'Z' then (c as int + 32) as char else c
  }

  function UpperChar(c: char): char {
    if 'a' <= c <= 'z' then (c as int - 32) as char else c
  }

  /** `s.toLowerCase()` on the ASCII letters. */
  function AsciiLower(s: string): (r: string)
    ensures |r| == |s|
    ensures forall i :: 0 <= i < |s| ==> r[i] == LowerChar(s[i])
  {
    if s == [] then [] else [LowerChar(s[0])] + AsciiLower(s[1..])
  }

  /** `s.toUpperCase()` on the ASCII letters. */
  function AsciiUpper(s: string): (r: string)
    ensures |r| == |s|
    ensures forall i :: 0 <= i < |s| ==> r[i] == UpperChar(s[i])
  {
    if s == [] then [] else [UpperChar(s[0])] + AsciiUpper(s[1..])
  }

  /** The lengths of `parts`, added up. */
  function TotalLength(parts: seq<string>): nat
    decreases |parts|
  {
    if |parts| == 0 then 0 else |parts[0]| + TotalLength(parts[1..])
  }

  /** A suffix of `s` stays a suffix when something is put in front of `s`. */
  lemma SuffixOfLonger(p: string, s: string, a: string)
    requires IsSuffix(p, s)
    ensures IsSuffix(p, a + s)
  {
    assert (a + s)[|a + s| - |p|..] == s[|s| - |p|..];
  }

  /** `parts.join(sep)`: no parts give ""; otherwise the parts in order with
      one separator between each two, so the result starts with the first
      part, ends with the last, and is as long as the parts and the
      separators together. */
  function Join(parts: seq<string>, sep: string): (r: string)
    ensures |parts| == 0 ==> r == ""
    ensures |parts| == 1 ==> r == parts[0]
    ensures |parts| > 0 ==> IsPrefix(parts[0], r) && IsSuffix(parts[|parts| - 1], r)
    decreases |parts|
  {
    if |parts| == 0 then ""
    else if |parts| == 1 then
      assert parts[0][..|parts[0]|] == parts[0] && parts[0][0..] == parts[0];
      parts[0]
    else
      var rest := Join(parts[1..], sep);
      assert parts[0] + sep + rest == parts[0] + (sep + rest);
      PrefixOfConcat(parts[0], sep + rest);
      SuffixOfLonger(parts[|parts| - 1], rest, parts[0] + sep);
      parts[0] + sep + rest
  }
  /** Joining two non-empty lists is joining each and putting one separator
      between the halves. */
  lemma {:induction false} JoinAppend(a: seq<string>, b: seq<string>, sep: string)
    requires |a| > 0 && |b| > 0
    ensures Join(a + b, sep) == Join(a, sep) + sep + Join(b, sep)
    decreases |a|
  {
    var ab := a + b;
    if |a| == 1 {
      assert ab[1..] == b;
      JoinFirst(ab, sep);
    } else {
      assert ab[1..] == a[1..] + b;
      JoinAppend(a[1..], b, sep);
      JoinFirst(ab, sep);
      JoinFirst(a, sep);
      var x, y, z := Join(a[1..], sep), Join(b, sep), a[0] + sep;
      assert z + (x + sep + y) == (z + x) + sep + y;
    }
  }

  /** The joined text is as long as all parts plus one separator between
      each two neighbours. */
  lemma {:induction false} JoinLength(parts: seq<string>, sep: string)
    requires |parts| > 0
    ensures |Join(parts, sep)| == TotalLength(parts) + (|parts| - 1) * |sep|
    decreases |parts|
  {
    if |parts| > 1 {
      JoinFirst(parts, sep);
      JoinLength(parts[1..], sep);
      assert (|parts| - 1) * |sep| == (|parts| - 2) * |sep| + |sep|;
    }
  }

  /** One unfolding of `Join` for two or more parts. */
  lemma JoinFirst(parts: seq<string>, sep: string)
    requires |parts| > 1
    ensures Join(parts, sep) == parts[0] + sep + Join(parts[1..], sep)
  {
  }

  /** The characters `String.prototype.trim` removes: ECMAScript white space
      and line terminators. */
  predicate IsJsSpace(c: char) {
    c == ' ' || c == '\t' || c == '\n' || c == '\r' || c == '\U{000B}' || c == '\U{000C}'
    || c == '\U{00A0}' || c == '\U{1680}' || ('\U{2000}' <= c <= '\U{200A}')
    || c == '\U{2028}' || c == '\U{2029}' || c == '\U{202F}' || c == '\U{205F}'
    || c == '\U{3000}' || c == '\U{FEFF}'
  }

  function TrimStart(s: string): (r: string)
    ensures IsSuffix(r, s)
    ensures r == [] || !IsJsSpace(r[0])
    ensures forall i :: 0 <= i < |s| - |r| ==> IsJsSpace(s[i])
  {
    if s != [] && IsJsSpace(s[0]) then TrimStart(s[1..]) else s
  }

  function TrimEnd(s: string): (r: string)
    ensures IsPrefix(r, s)
    ensures r == [] || !IsJsSpace(r[|r| - 1])
    ensures forall i :: |r| <= i < |s| ==> IsJsSpace(s[i])
  {
    if s != [] && IsJsSpace(s[|s| - 1]) then TrimEnd(s[..|s| - 1]) else s
  }

  /** `r` is the slice of `s` starting at `k`, and everything of `s` outside
      that slice is white space. */
  predicate TrimmedAt(s: string, r: string, k: nat) {
    && k + |r| <= |s|
    && s[k..k + |r|] == r
    && (forall i :: 0 <= i < k ==> IsJsSpace(s[i]))
    && (forall i :: k + |r| <= i < |s| ==> IsJsSpace(s[i]))
  }

  /** Cutting white space off the front and then off the back leaves a
      slice of the original that only white space surrounds. */
  lemma TrimmedSlice(s: string, t: string, r: string)
    requires IsSuffix(t, s) && IsPrefix(r, t)
    requires forall i :: 0 <= i < |s| - |t| ==> IsJsSpace(s[i])
    requires forall i :: |r| <= i < |t| ==> IsJsSpace(t[i])
    ensures TrimmedAt(s, r, |s| - |t|)
    ensures r != [] ==> r[0] == t[0]
  {
    var k := |s| - |t|;
    assert s[k..k + |r|] == t[..|r|];
    forall i | k + |r| <= i < |s|
      ensures IsJsSpace(s[i])
    {
      assert s[i] == t[i - k];
    }
  }

  /** `s.trim()`: a slice of `s` with no white space at either end, and
      everything cut off is white space. */
  function Trim(s: string): (r: string)
    ensures exists k: nat :: TrimmedAt(s, r, k)
    ensures r == [] || (!IsJsSpace(r[0]) && !IsJsSpace(r[|r| - 1]))
  {
    var t := TrimStart(s);
    var r := TrimEnd(t);
    TrimmedSlice(s, t, r);
    r
  }

  function DigitChar(d: nat): char
    requires d < 10
  {
    "0123456789"[d]
  }

  /** The decimal rendering of a natural number. */
  function NatToString(n: nat): (s: string)
    ensures |s| >= 1
    ensures forall i :: 0 <= i < |s| ==> '0' <= s[i] <= '9'
    ensures (|s| == 1) == (n < 10)
    decreases n
  {
    if n < 10 then [DigitChar(n)] else NatToString(n / 10) + [DigitChar(n % 10)]
  }

  /** `String(n)` for an integer. */
  function IntToString(i: int): string {
    if i < 0 then "-" + NatToString(-i) else NatToString(i)
  }

  /** Distinct numbers have distinct decimal renderings. */
  lemma {:induction false} NatToStringInjective(a: nat, b: nat)
    requires NatToString(a) == NatToString(b)
    ensures a == b
    decreases a
  {
    var s := NatToString(a);
    if a >= 10 {
      assert b >= 10;
      assert NatToString(a / 10) == s[..|s| - 1] == NatToString(b / 10);
      NatToStringInjective(a / 10, b / 10);
      assert DigitChar(a % 10) == s[|s| - 1] == DigitChar(b % 10);
    }
  }
}
