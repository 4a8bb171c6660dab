/** The part of `pathlib.PurePath` the core uses: a path's parent, its final name,
    and the name's `stem` and `suffix` (CPython 3.12 rules). */
module Paths {
  import opened Wrappers
  import opened Text

  /** A file path as its parent directory and its final component. */
  datatype Path = Path(parent: string, name: string)

  /** The index of the dot that starts the suffix: the last dot, unless it is the
      first or the last character of the name. */
  function SuffixDot(name: string): (r: Option<nat>)
    ensures r.Some? ==> 0 < r.value < |name| - 1 && name[r.value] == '.'
    ensures r.Some? ==> forall k :: r.value < k < |name| ==> name[k] != '.'
  {
    match LastIndexOf(name, '.')
    case Some(i) => if 0 < i < |name| - 1 then Some(i) else None
    case None => None
  }

  /** `PurePath.suffix`. */
  function Suffix(name: string): string {
    match SuffixDot(name)
    case Some(i) => name[i..]
    case None => ""
  }

  /** `PurePath.stem`. */
  function Stem(name: string): string {
    match SuffixDot(name)
    case Some(i) => name[..i]
    case None => name
  }

  /** The stem and the suffix split the name without loss. */
  lemma StemSuffixSplit(name: string)
    ensures Stem(name) + Suffix(name) == name
    ensures Suffix(name) == "" || (|Suffix(name)| >= 2 && Suffix(name)[0] == '.')
  {
  }

  /** The name `save` picks when no output path is given: the stem, "_populated", then
      the suffix. */
  function PopulatedName(name: string): string {
    Stem(name) + "_populated" + Suffix(name)
  }

  /** When the name has a suffix, the populated name keeps that suffix and extends the
      stem, so the file type is unchanged. */
  lemma {:induction false} PopulatedKeepsSuffix(name: string)
    requires Suffix(name) != ""
    ensures Suffix(PopulatedName(name)) == Suffix(name)
    ensures Stem(PopulatedName(name)) == Stem(name) + "_populated"
  {
    var i := SuffixDot(name).value;
    var p := PopulatedName(name);
    var d := |Stem(name) + "_populated"|;
    assert |Stem(name)| == i;
    assert p[d..] == name[i..];
    assert p[d] == '.';
    forall k | d < k < |p| ensures p[k] != '.' {
      assert p[k] == name[k - d + i];
    }
    assert LastIndexOf(p, '.') == Some(d) by {
      LastDotAt(p, d);
    }
    assert p[..d] == Stem(name) + "_populated";
  }

  lemma {:induction false} LastDotAt(s: string, d: nat)
    requires d < |s| && s[d] == '.' && forall k :: d < k < |s| ==> s[k] != '.'
    ensures LastIndexOf(s, '.') == Some(d)
    decreases |s|
  {
    if d < |s| - 1 {
      assert s[..|s| - 1][d] == '.';
      LastDotAt(s[..|s| - 1], d);
    }
  }

  /** A name whose last dot is its final character has no suffix, and its populated name
      then gains one: "notes." becomes "notes._populated". */
  lemma TrailingDotGainsSuffix()
    ensures Suffix("notes.") == "" && PopulatedName("notes.") == "notes._populated"
    ensures Suffix("notes._populated") == "._populated"
  {
    assert LastIndexOf("notes.", '.') == Some(5);
    LastDotAt("notes._populated", 5);
  }
}
