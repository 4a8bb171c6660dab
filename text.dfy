/** The string operations the core relies on: substring and character search (`in`, `find`, `rfind`),
    `str.lower`, `str.strip`, slicing and `str.join`. */
module Text {
  import opened Wrappers

  /** `sub` occurs in `s` starting at index `i`. */
  predicate OccursAt(s: string, sub: string, i: int) {
    0 <= i && i + |sub| <= |s| && s[i..i + |sub|] == sub
  }

  /** The first index at or after `from` at which `sub` occurs (`str.find(sub, from)`). */
  function FindFrom(s: string, sub: string, from: nat): (r: Option<nat>)
    ensures r.Some? ==> from <= r.value && OccursAt(s, sub, r.value)
    ensures r.Some? ==> forall j :: from <= j < r.value ==> !OccursAt(s, sub, j)
    ensures r.None? ==> forall j :: from <= j ==> !OccursAt(s, sub, j)
    decreases |s| - from
  {
    if from + |sub| > |s| then None
    else if s[from..from + |sub|] == sub then Some(from)
    else FindFrom(s, sub, from + 1)
  }

  /** Python's `str.find(c)` for one character. */
  function FirstIndexOf(s: string, c: char): (r: Option<nat>)
    ensures r.Some? ==> r.value < |s| && s[r.value] == c && forall k :: 0 <= k < r.value ==> s[k] != c
    ensures r.None? ==> forall k :: 0 <= k < |s| ==> s[k] != c
  {
    if s == [] then None
    else if s[0] == c then Some(0)
    else match FirstIndexOf(s[1..], c)
      case Some(k) => Some(k + 1)
      case None => None
  }

  /** Python's `str.rfind(c)` for one character. */
  function LastIndexOf(s: string, c: char): (r: Option<nat>)
    ensures r.Some? ==> r.value < |s| && s[r.value] == c && forall k :: r.value < k < |s| ==> s[k] != c
    ensures r.None? ==> forall k :: 0 <= k < |s| ==> s[k] != c
  {
    if s == [] then None
    else if s[|s| - 1] == c then Some(|s| - 1)
    else LastIndexOf(s[..|s| - 1], c)
  }

  /** Python's `sub in s`. */
  predicate Contains(s: string, sub: string) {
    FindFrom(s, sub, 0).Some?
  }

  lemma ContainsIff(s: string, sub: string)
    ensures Contains(s, sub) <==> exists i :: OccursAt(s, sub, i)
  {
    if !Contains(s, sub) {
      forall i ensures !OccursAt(s, sub, i) {
        if i >= 0 { assert !OccursAt(s, sub, i); }
      }
    }
  }

  lemma ContainsAt(s: string, sub: string, i: int)
    requires OccursAt(s, sub, i)
    ensures Contains(s, sub)
  {
    ContainsIff(s, sub);
  }

  /** An occurrence inside a slice is an occurrence in the whole string. */
  lemma OccursInSlice(s: string, sub: string, a: nat, b: nat, i: int)
    requires a <= b <= |s| && OccursAt(s[a..b], sub, i)
    ensures OccursAt(s, sub, a + i)
  {
    var inner, outer := s[a..b][i..i + |sub|], s[a + i..a + i + |sub|];
    forall k | 0 <= k < |sub| ensures inner[k] == outer[k] { }
    assert inner == outer;
  }

  /** ASCII upper-case letters become lower-case; every other character is kept. */
  function LowerChar(c: char): char {
    if 'A' <= c <= 'Z' then (c as int - 'A' as int + 'a' as int) as char else c
  }

  /** Python's `str.lower`, restricted to ASCII letters. */
  function Lower(s: string): (r: string)
    ensures |r| == |s|
    ensures forall i :: 0 <= i < |s| ==> r[i] == LowerChar(s[i])
  {
    seq(|s|, i requires 0 <= i < |s| => LowerChar(s[i]))
  }

  /** The characters Python's `str.isspace` accepts, and so the ones `str.strip()` removes. */
  predicate IsSpace(c: char) {
    c == ' ' || ('\t' <= c <= '\r') || ('\U{1c}' <= c <= '\U{1f}') || c == '\U{85}' || c == '\U{a0}'
    || c == '\U{1680}' || ('\U{2000}' <= c <= '\U{200a}') || c == '\U{2028}' || c == '\U{2029}'
    || c == '\U{202f}' || c == '\U{205f}' || c == '\U{3000}'
  }

  /** Every character of `s` in `[lo, hi)` is whitespace. */
  predicate SpaceBetween(s: string, lo: int, hi: int)
    requires 0 <= lo && hi <= |s|
  {
    forall k :: lo <= k < hi ==> IsSpace(s[k])
  }

  /** Index of the first non-space character at or after `i` (or `|s|`). */
  function SkipSpace(s: string, i: nat): (r: nat)
    requires i <= |s|
    ensures i <= r <= |s| && SpaceBetween(s, i, r) && (r < |s| ==> !IsSpace(s[r]))
    decreases |s| - i
  {
    if i < |s| && IsSpace(s[i]) then SkipSpace(s, i + 1) else i
  }

  /** One past the last non-space character in `[lo, j)` (or `lo`). */
  function SkipSpaceBack(s: string, lo: nat, j: nat): (r: nat)
    requires lo <= j <= |s|
    ensures lo <= r <= j && SpaceBetween(s, r, j) && (r > lo ==> !IsSpace(s[r - 1]))
    decreases j
  {
    if j > lo && IsSpace(s[j - 1]) then SkipSpaceBack(s, lo, j - 1) else j
  }

  /** Where `Strip(s)` starts in `s`. */
  function StripStart(s: string): (a: nat)
    ensures a <= |s| && SpaceBetween(s, 0, a)
  {
    SkipSpace(s, 0)
  }

  /** Where `Strip(s)` ends in `s`. */
  function StripEnd(s: string): (b: nat)
    ensures StripStart(s) <= b <= |s| && SpaceBetween(s, b, |s|)
  {
    SkipSpaceBack(s, StripStart(s), |s|)
  }

  /** Python's `str.strip()`: the string without leading and trailing whitespace. */
  function Strip(s: string): (r: string)
    ensures r == s[StripStart(s)..StripEnd(s)]
    ensures r != [] ==> !IsSpace(r[0]) && !IsSpace(r[|r| - 1])
  {
    s[StripStart(s)..StripEnd(s)]
  }

  /** An occurrence of a word without whitespace lies inside the stripped part. */
  lemma WordInsideStrip(s: string, w: string, i: int)
    requires w != [] && forall k :: 0 <= k < |w| ==> !IsSpace(w[k])
    requires OccursAt(s, w, i)
    ensures OccursAt(Strip(s), w, i - StripStart(s))
  {
    var r, a, b := Strip(s), StripStart(s), StripEnd(s);
    assert s[i] == w[0] && !IsSpace(s[i]);
    assert s[i + |w| - 1] == w[|w| - 1] && !IsSpace(s[i + |w| - 1]);
    assert a <= i && i + |w| <= b;
    SliceOfSlice(s, a, b, i - a, i - a + |w|);
  }

  lemma SliceOfSlice(s: string, a: nat, b: nat, x: nat, y: nat)
    requires a <= b <= |s| && x <= y <= b - a
    ensures s[a..b][x..y] == s[a + x..a + y]
  {
    var l, r := s[a..b][x..y], s[a + x..a + y];
    assert |l| == |r|;
    forall k | 0 <= k < |l| ensures l[k] == r[k] {
      assert l[k] == s[a..b][x + k] == s[a + x + k];
    }
  }

  /** Stripping never hides a word that holds no whitespace: `w in s.strip()` iff `w in s`. */
  lemma StripKeepsWord(s: string, w: string)
    requires w != [] && forall k :: 0 <= k < |w| ==> !IsSpace(w[k])
    ensures Contains(Strip(s), w) <==> Contains(s, w)
  {
    ContainsIff(Strip(s), w);
    ContainsIff(s, w);
    if Contains(Strip(s), w) {
      var i :| OccursAt(Strip(s), w, i);
      OccursInSlice(s, w, StripStart(s), StripEnd(s), i);
    }
    if Contains(s, w) {
      var i :| OccursAt(s, w, i);
      WordInsideStrip(s, w, i);
    }
  }

  /** Lower-casing leaves whitespace alone and maps nothing else to whitespace. */
  lemma LowerKeepsSpace(c: char)
    ensures IsSpace(LowerChar(c)) <==> IsSpace(c)
  {
  }

  lemma {:induction false} SkipSpaceLower(s: string, i: nat)
    requires i <= |s|
    ensures SkipSpace(Lower(s), i) == SkipSpace(s, i)
    decreases |s| - i
  {
    if i < |s| {
      LowerKeepsSpace(s[i]);
      SkipSpaceLower(s, i + 1);
    }
  }

  lemma {:induction false} SkipSpaceBackLower(s: string, lo: nat, j: nat)
    requires lo <= j <= |s|
    ensures SkipSpaceBack(Lower(s), lo, j) == SkipSpaceBack(s, lo, j)
    decreases j
  {
    if j > lo {
      LowerKeepsSpace(s[j - 1]);
      SkipSpaceBackLower(s, lo, j - 1);
    }
  }

  /** Lower-casing and stripping commute. */
  lemma LowerStripCommute(s: string)
    ensures Lower(Strip(s)) == Strip(Lower(s))
  {
    var a, b := StripStart(s), StripEnd(s);
    SkipSpaceLower(s, 0);
    SkipSpaceBackLower(s, a, |s|);
    assert StripStart(Lower(s)) == a && StripEnd(Lower(s)) == b;
    LowerSlice(s, a, b);
  }

  lemma LowerSlice(s: string, a: nat, b: nat)
    requires a <= b <= |s|
    ensures Lower(s[a..b]) == Lower(s)[a..b]
  {
  }

  /** Python's `s[:n]`. */
  function Take(s: string, n: nat): (r: string)
    ensures |r| == if |s| < n then |s| else n
    ensures r <= s
  {
    if |s| <= n then s else s[..n]
  }

  /** Python's `s[-n:]` for n > 0: the last `n` characters (all of `s` when shorter). */
  function TakeLast(s: string, n: nat): (r: string)
    ensures |r| == if |s| < n then |s| else n
    ensures r == s[|s| - |r|..]
  {
    if |s| <= n then s else s[|s| - n..]
  }

  /** Python's `sep.join(parts)`. */
  function Join(parts: seq<string>, sep: string): string {
    if parts == [] then ""
    else if |parts| == 1 then parts[0]
    else parts[0] + sep + Join(parts[1..], sep)
  }
}
