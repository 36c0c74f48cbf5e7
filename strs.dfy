/** The Python `str` operations the pipeline uses, on `seq<char>`. */
module Strs {
  import opened Wrappers

  predicate StartsWith(s: string, p: string)
  {
    |p| <= |s| && s[..|p|] == p
  }

  predicate EndsWith(s: string, p: string)
  {
    |p| <= |s| && s[|s| - |p|..] == p
  }

  /** `sub` occurs in `s` starting at position `i`. */
  predicate OccursAt(s: string, sub: string, i: nat)
  {
    i + |sub| <= |s| && s[i..i + |sub|] == sub
  }

  /** `s.find(sub, i)`: the first position at or after `i` where `sub` occurs. */
  function FindFrom(s: string, sub: string, i: nat): (r: Option<nat>)
    requires i <= |s|
    ensures r.Some? ==> i <= r.value && OccursAt(s, sub, r.value)
    ensures r.Some? ==> forall j :: i <= j < r.value ==> !OccursAt(s, sub, j)
    ensures r.None? ==> forall j :: i <= j ==> !OccursAt(s, sub, j)
    decreases |s| - i
  {
    if i + |sub| > |s| then None
    else if s[i..i + |sub|] == sub then Some(i)
    else FindFrom(s, sub, i + 1)
  }

  /** A prefix followed by the rest of the string is the string. */
  lemma PrefixRest(s: string, p: string)
    requires StartsWith(s, p)
    ensures p + s[|p|..] == s
  {
  }

  /** `sub in s`. */
  predicate Contains(s: string, sub: string)
  {
    FindFrom(s, sub, 0).Some?
  }

  lemma ContainsAt(s: string, sub: string, i: nat)
    requires OccursAt(s, sub, i)
    ensures Contains(s, sub)
  {
  }

  /** The characters `str.isspace()` accepts. */
  predicate IsSpace(c: char)
  {
    ('\t' <= c <= '\r') || c == ' ' || ('\U{1c}' <= c <= '\U{1f}') || c == '\U{85}' || c == '\U{a0}'
    || c == '\U{1680}' || ('\U{2000}' <= c <= '\U{200a}') || c == '\U{2028}' || c == '\U{2029}'
    || c == '\U{202f}' || c == '\U{205f}' || c == '\U{3000}'
  }

  function StripLeft(s: string): (r: string)
    ensures |r| <= |s| && r == s[|s| - |r|..]
    ensures r == [] || !IsSpace(r[0])
  {
    if s != [] && IsSpace(s[0]) then StripLeft(s[1..]) else s
  }

  function StripRight(s: string): (r: string)
    ensures |r| <= |s| && r == s[..|r|]
    ensures r == [] || !IsSpace(r[|r| - 1])
  {
    if s != [] && IsSpace(s[|s| - 1]) then StripRight(s[..|s| - 1]) else s
  }

  /** `s.strip()`. */
  function Strip(s: string): string
  {
    StripRight(StripLeft(s))
  }

  /** `s.split(sep)` for a non-empty separator: empty fields are kept. */
  function Split(s: string, sep: string): (r: seq<string>)
    requires |sep| > 0
    ensures |r| >= 1
    decreases |s|
  {
    match FindFrom(s, sep, 0)
    case None => [s]
    case Some(i) => [s[..i]] + Split(s[i + |sep|..], sep)
  }

  /** `sep.join(parts)`. */
  function Join(parts: seq<string>, sep: string): string
  {
    if parts == [] then [] else if |parts| == 1 then parts[0] else parts[0] + sep + Join(parts[1..], sep)
  }

  /** Splitting and joining with the same separator gives the text back. */
  lemma {:induction false} SplitJoin(s: string, sep: string)
    requires |sep| > 0
    ensures Join(Split(s, sep), sep) == s
    decreases |s|
  {
    match FindFrom(s, sep, 0)
    case None =>
    case Some(i) =>
      var rest := s[i + |sep|..];
      var fields := Split(rest, sep);
      SplitJoin(rest, sep);
      assert Split(s, sep) == [s[..i]] + fields;
      assert ([s[..i]] + fields)[1..] == fields;
      assert Join([s[..i]] + fields, sep) == s[..i] + sep + Join(fields, sep);
      assert s == s[..i] + s[i..i + |sep|] + rest;
  }

  /** What occurs in a prefix occurs, at the same place, in the string. */
  lemma OccursInPrefix(s: string, sub: string, n: nat, j: nat)
    requires n <= |s| && OccursAt(s[..n], sub, j)
    ensures OccursAt(s, sub, j) && j + |sub| <= n
  {
    assert s[..n][j..j + |sub|] == s[j..j + |sub|];
  }

  /** No field of a split contains the separator. */
  lemma {:induction false} SplitFieldsFree(s: string, sep: string)
    requires |sep| > 0
    ensures forall f :: f in Split(s, sep) ==> !Contains(f, sep)
    decreases |s|
  {
    match FindFrom(s, sep, 0)
    case None =>
    case Some(i) =>
      SplitFieldsFree(s[i + |sep|..], sep);
      var f := s[..i];
      forall j: nat ensures !OccursAt(f, sep, j) {
        if OccursAt(f, sep, j) {
          OccursInPrefix(s, sep, i, j);
        }
      }
  }

  /** A non-empty run of non-space characters. */
  predicate IsWord(w: string)
  {
    w != [] && forall c :: c in w ==> !IsSpace(c)
  }

  /** `s.split()`: the maximal runs of non-space characters. */
  function Words(s: string): (r: seq<string>)
    ensures forall w :: w in r ==> IsWord(w)
    decreases |s|
  {
    var t := StripLeft(s);
    if t == [] then []
    else
      var n := WordLength(t);
      var word, rest := t[..n], Words(t[n..]);
      assert IsWord(word);
      [word] + rest
  }

  function WordLength(t: string): (n: nat)
    requires t != [] && !IsSpace(t[0])
    ensures 0 < n <= |t| && (n < |t| ==> IsSpace(t[n]))
    ensures forall j :: 0 <= j < n ==> !IsSpace(t[j])
    ensures forall c :: c in t[..n] ==> !IsSpace(c)
  {
    if |t| == 1 || IsSpace(t[1]) then 1 else 1 + WordLength(t[1..])
  }

  predicate IsAsciiDigit(c: char) { '0' <= c <= '9' }

  /** Matches `^\d+$`. */
  predicate AllDigits(s: string)
  {
    |s| > 0 && forall c :: c in s ==> IsAsciiDigit(c)
  }

  /** The digit character for `d`. */
  function Digit(d: nat): (c: char)
    requires d < 10
    ensures IsAsciiDigit(c) && c as int - '0' as int == d
  {
    ('0' as int + d) as char
  }

  /** `str(n)` for a natural number: its decimal digits, no leading zero. */
  function NatToString(n: nat): (s: string)
    ensures AllDigits(s)
    ensures |s| > 1 ==> s[0] != '0'
  {
    if n < 10 then [Digit(n)] else NatToString(n / 10) + [Digit(n % 10)]
  }

  /** `int(s)` for a text of decimal digits. */
  function DigitsValue(s: string): nat
    requires forall c :: c in s ==> IsAsciiDigit(c)
  {
    if s == [] then 0
    else
      var c := s[|s| - 1];
      assert c in s;
      assert IsAsciiDigit(c);
      var d := c as int - '0' as int;
      assert d >= 0;
      DigitsValue(s[..|s| - 1]) * 10 + d
  }

  /** `int(str(n)) == n`. */
  lemma {:induction false} NatToStringRoundTrip(n: nat)
    ensures DigitsValue(NatToString(n)) == n
  {
    if n >= 10 {
      NatToStringRoundTrip(n / 10);
      var s := NatToString(n);
      assert s[..|s| - 1] == NatToString(n / 10);
    }
  }

  /** Distinct numbers have distinct decimal texts. */
  lemma NatToStringInjective(a: nat, b: nat)
    requires NatToString(a) == NatToString(b)
    ensures a == b
  {
    NatToStringRoundTrip(a);
    NatToStringRoundTrip(b);
  }

  /** `s.lower()` on the letters A-Z. */
  function Lower(s: string): (r: string)
    ensures |r| == |s|
    ensures forall j :: 0 <= j < |s| ==> r[j] == if 'A' <= s[j] <= 'Z' then (s[j] as int + 32) as char else s[j]
  {
    seq(|s|, j requires 0 <= j < |s| => if 'A' <= s[j] <= 'Z' then (s[j] as int + 32) as char else s[j])
  }

  /** `s.replace(sub, '')`: occurrences are removed left to right. */
  function RemoveAll(s: string, sub: string): (r: string)
    requires |sub| > 0
    ensures |r| <= |s|
    decreases |s|
  {
    if |s| < |sub| then s
    else if s[..|sub|] == sub then RemoveAll(s[|sub|..], sub)
    else [s[0]] + RemoveAll(s[1..], sub)
  }

  /** The result of `str.replace(sub, '')` no longer holds `sub` where an
      occurrence was found: removal of a text that does not contain `sub`
      changes nothing. */
  lemma {:induction false} RemoveAllAbsent(s: string, sub: string)
    requires |sub| > 0 && !Contains(s, sub)
    ensures RemoveAll(s, sub) == s
    decreases |s|
  {
    if |s| >= |sub| {
      assert !OccursAt(s, sub, 0);
      assert s[0..|sub|] == s[..|sub|];
      forall j: nat | OccursAt(s[1..], sub, j) ensures OccursAt(s, sub, j + 1) {
        assert s[1..][j..j + |sub|] == s[j + 1..j + 1 + |sub|];
      }
      RemoveAllAbsent(s[1..], sub);
    }
  }

  /** The position after the last '/', where the final path component starts. */
  function BaseStart(p: string): (k: nat)
    ensures k <= |p| && (k > 0 ==> p[k - 1] == '/')
    ensures forall j :: k <= j < |p| ==> p[j] != '/'
  {
    if p == [] then 0 else if p[|p| - 1] == '/' then |p| else BaseStart(p[..|p| - 1])
  }

  /** The position of the last '.', if any. */
  function LastDot(p: string): (r: Option<nat>)
    ensures r.Some? ==> r.value < |p| && p[r.value] == '.' && forall j :: r.value < j < |p| ==> p[j] != '.'
    ensures r.None? ==> forall j :: 0 <= j < |p| ==> p[j] != '.'
  {
    if p == [] then None else if p[|p| - 1] == '.' then Some(|p| - 1) else LastDot(p[..|p| - 1])
  }

  /** `os.path.splitext(p)[0]` for POSIX paths: the last dot of the final
      component starts the extension, unless only dots precede it there. */
  function Stem(p: string): (r: string)
    ensures |r| <= |p| && r == p[..|r|]
  {
    var b := BaseStart(p);
    match LastDot(p)
    case None => p
    case Some(d) =>
      if d >= b && exists j | b <= j < d :: p[j] != '.' then p[..d] else p
  }

  /** A name with an extension loses exactly that extension. */
  lemma StemStripsExtension(name: string, ext: string)
    requires exists j | 0 <= j < |name| :: name[j] != '.'
    requires '/' !in name && '.' !in ext && '/' !in ext
    ensures Stem(name + "." + ext) == name
  {
    var p := name + "." + ext;
    assert p[|name|] == '.';
    assert forall j :: |name| < j < |p| ==> p[j] == ext[j - |name| - 1];
    assert BaseStart(p) == 0 by {
      forall j | 0 <= j < |p| ensures p[j] != '/' {
        if j < |name| { assert p[j] == name[j]; } else if j > |name| { assert p[j] == ext[j - |name| - 1]; }
      }
    }
    var j :| 0 <= j < |name| && name[j] != '.';
    assert p[j] == name[j];
  }

  /** Length of the longest common prefix, counting on from `k` matched characters. */
  function PrefixLen(a: string, b: string, k: nat): (n: nat)
    requires k <= |a| && k <= |b| && a[..k] == b[..k]
    ensures k <= n <= |a| && n <= |b| && a[..n] == b[..n]
    ensures n < |a| && n < |b| ==> a[n] != b[n]
    decreases |a| - k
  {
    if k < |a| && k < |b| && a[k] == b[k] then
      assert a[..k + 1] == a[..k] + [a[k]] && b[..k + 1] == b[..k] + [b[k]];
      PrefixLen(a, b, k + 1)
    else k
  }

  /** Longest common prefix of two texts. */
  function CommonPrefix(a: string, b: string): (r: string)
    ensures StartsWith(a, r) && StartsWith(b, r)
    ensures |r| < |a| && |r| < |b| ==> a[|r|] != b[|r|]
  {
    a[..PrefixLen(a, b, 0)]
  }

  /** Length of the longest common suffix, counting on from `k` matched characters. */
  function SuffixLen(a: string, b: string, k: nat): (n: nat)
    requires k <= |a| && k <= |b| && a[|a| - k..] == b[|b| - k..]
    ensures k <= n <= |a| && n <= |b| && a[|a| - n..] == b[|b| - n..]
    ensures n < |a| && n < |b| ==> a[|a| - n - 1] != b[|b| - n - 1]
    decreases |a| - k
  {
    if k < |a| && k < |b| && a[|a| - k - 1] == b[|b| - k - 1] then
      assert a[|a| - (k + 1)..] == [a[|a| - k - 1]] + a[|a| - k..];
      assert b[|b| - (k + 1)..] == [b[|b| - k - 1]] + b[|b| - k..];
      SuffixLen(a, b, k + 1)
    else k
  }

  /** Longest common suffix of two texts. */
  function CommonSuffix(a: string, b: string): (r: string)
    ensures EndsWith(a, r) && EndsWith(b, r)
    ensures |r| < |a| && |r| < |b| ==> a[|a| - |r| - 1] != b[|b| - |r| - 1]
  {
    a[|a| - SuffixLen(a, b, 0)..]
  }
}
