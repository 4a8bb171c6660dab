/** `dsd_agent/pptx_handler.py`: the placeholders found on a DSD deck, their row groups,
    and the `DSDDocument` that finds, caches, updates and summarises them. */
module PptxHandler {
  import opened Wrappers
  import opened Text
  import opened Paths
  import opened Sorting
  import opened RowGroups
  import opened PptxSlides

  /** English Metric Units per inch. */
  const EmuPerInch: real := 914400.0

  function EmuToInches(emu: int): real {
    emu as real / EmuPerInch
  }

  // ---------------------------------------------------------------- placeholders

  /** Everything about a placeholder except its row group, which is the one field the
      core writes after construction. */
  datatype PlaceholderInfo = PlaceholderInfo(slideIndex: int, slideTitle: string, shapeName: string,
                                             text: string, left: real, top: real, width: real, height: real)

  /** A lorem-ipsum box on a slide; position and size in inches. */
  class Placeholder {
    const slideIndex: int
    const slideTitle: string
    const shapeName: string
    const text: string
    const left: real
    const top: real
    const width: real
    const height: real
    var rowGroup: int

    constructor (info: PlaceholderInfo, rowGroup: int)
      ensures InfoOf(this) == info && this.rowGroup == rowGroup
    {
      slideIndex := info.slideIndex;
      slideTitle := info.slideTitle;
      shapeName := info.shapeName;
      text := info.text;
      left := info.left;
      top := info.top;
      width := info.width;
      height := info.height;
      this.rowGroup := rowGroup;
    }
  }

  function InfoOf(p: Placeholder): PlaceholderInfo {
    PlaceholderInfo(p.slideIndex, p.slideTitle, p.shapeName, p.text, p.left, p.top, p.width, p.height)
  }

  function TopOf(p: Placeholder): real {
    p.top
  }

  function Infos(ps: seq<Placeholder>): seq<PlaceholderInfo> {
    MapSeq(ps, InfoOf)
  }

  function Tops(ps: seq<Placeholder>): seq<real> {
    MapSeq(ps, TopOf)
  }

  /** The placeholder `find_architecture_slides` builds for a lorem shape. */
  function InfoFor(s: Shape, slideIndex: int, title: string): PlaceholderInfo {
    var text := if s.textFrame.Some? then ShapeText(s) else "";
    PlaceholderInfo(slideIndex, title, s.name, text,
                    EmuToInches(s.left), EmuToInches(s.top), EmuToInches(s.width), EmuToInches(s.height))
  }

  /** The placeholders of a slide's lorem shapes, in shape order. */
  function Candidates(shapes: seq<Shape>, slideIndex: int, title: string): seq<PlaceholderInfo> {
    MapSeq(Filter(shapes, IsLoremShape), s => InfoFor(s, slideIndex, title))
  }

  /** Every placeholder found comes from a lorem shape of the slide and carries the slide's
      index and title, the shape's name, and its stripped text, which contains "lorem" in
      any case; a slide yields placeholders iff it has a lorem shape. */
  lemma CandidatesAreLorem(shapes: seq<Shape>, slideIndex: int, title: string)
    ensures |Candidates(shapes, slideIndex, title)| <= |shapes|
    ensures forall x :: x in Candidates(shapes, slideIndex, title) ==>
      x.slideIndex == slideIndex && x.slideTitle == title && Contains(Lower(x.text), Lorem)
      && exists k :: 0 <= k < |shapes| && IsLoremShape(shapes[k]) && x.shapeName == shapes[k].name && x.text == ShapeText(shapes[k])
    ensures Candidates(shapes, slideIndex, title) != [] <==> exists k :: 0 <= k < |shapes| && IsLoremShape(shapes[k])
  {
    var kept := Filter(shapes, IsLoremShape);
    FilterKeeps(shapes, IsLoremShape);
    FilterNonEmpty(shapes, IsLoremShape);
    forall x | x in Candidates(shapes, slideIndex, title)
      ensures x.slideIndex == slideIndex && x.slideTitle == title && Contains(Lower(x.text), Lorem)
      ensures exists k :: 0 <= k < |shapes| && IsLoremShape(shapes[k]) && x.shapeName == shapes[k].name && x.text == ShapeText(shapes[k])
    {
      var i :| 0 <= i < |kept| && x == InfoFor(kept[i], slideIndex, title);
      assert kept[i] in shapes;
      var k :| 0 <= k < |shapes| && shapes[k] == kept[i];
    }
  }

  // ---------------------------------------------------------------- sorting by top

  function TopBefore(a: Placeholder, b: Placeholder): bool {
    a.top < b.top
  }

  /** `sorted(placeholders, key=lambda p: p.top)`. */
  function SortByTop(ps: seq<Placeholder>): seq<Placeholder> {
    SortBy(ps, TopBefore)
  }

  /** The tops in ascending order. */
  function SortedTops(ps: seq<Placeholder>): seq<real> {
    Tops(SortByTop(ps))
  }

  /** Sorting by top yields the tops in non-decreasing order. */
  lemma SortedTopsAscend(ps: seq<Placeholder>)
    ensures NonDecreasing(SortedTops(ps))
    ensures multiset(SortedTops(ps)) == multiset(Tops(ps))
  {
    SortBySorted(ps, TopBefore);
    KeysNonDecreasing(SortByTop(ps), TopOf);
    PermutationMaps(SortByTop(ps), ps, TopOf);
  }

  /** The ascending tops depend only on which tops there are. */
  lemma SortedTopsOfPermutation(p: seq<Placeholder>, q: seq<Placeholder>)
    requires multiset(Tops(p)) == multiset(Tops(q))
    ensures SortedTops(p) == SortedTops(q)
  {
    SortedTopsAscend(p);
    SortedTopsAscend(q);
    SortedArrangementUnique(SortedTops(p), SortedTops(q));
  }

  /** The row group of a top: its row in the single pass over the ascending tops. */
  function RowGroupOfTop(ts: seq<real>, t: real): nat {
    if t in ts then RowOf(ts, FirstIndex(ts, t)) else 0
  }

  function FirstIndex(ts: seq<real>, t: real): (i: nat)
    requires t in ts
    ensures i < |ts| && ts[i] == t
  {
    if ts[0] == t then 0 else 1 + FirstIndex(ts[1..], t)
  }

  /** Every placeholder of the list carries the row group of its top. */
  ghost predicate RowsAssigned(ps: seq<Placeholder>)
    reads set p | p in ps
  {
    forall p :: p in ps ==> p.rowGroup == RowGroupOfTop(SortedTops(ps), p.top)
  }

  /** Row groups do not depend on the order of the list. */
  lemma RowsAssignedOfPermutation(p: seq<Placeholder>, q: seq<Placeholder>)
    requires multiset(p) == multiset(q)
    ensures RowsAssigned(p) <==> RowsAssigned(q)
  {
    PermutationMaps(p, q, TopOf);
    SortedTopsOfPermutation(p, q);
    assert forall x :: x in p <==> x in multiset(q);
  }

  /** `_assign_row_groups`: walks the placeholders in `top` order, starting a new row
      whenever a top is more than half an inch from the top that opened the current row,
      and writes each placeholder's row group. The list itself is returned unchanged. */
  method AssignRowGroups(placeholders: seq<Placeholder>) returns (r: seq<Placeholder>)
    modifies set p | p in placeholders
    ensures r == placeholders
    ensures RowsAssigned(placeholders)
  {
    if placeholders == [] {
      return placeholders;
    }
    var sortedPh := SortByTop(placeholders);
    SortedTopsAscend(placeholders);
    assert forall k :: 0 <= k < |sortedPh| ==> sortedPh[k] in multiset(placeholders);
    WalkSortedTops(sortedPh);
    RowsFromSortedPass(placeholders);
    return placeholders;
  }

  /** The loop of `_assign_row_groups` over the placeholders sorted by top: the row
      group written at each position is the row of that position in the pass. */
  method WalkSortedTops(sortedPh: seq<Placeholder>)
    requires sortedPh != [] && NonDecreasing(Tops(sortedPh))
    modifies set p | p in sortedPh
    ensures forall k :: 0 <= k < |sortedPh| ==> sortedPh[k].rowGroup == Groups(Tops(sortedPh))[k]
  {
    ghost var ts := Tops(sortedPh);
    ghost var gs := Groups(ts);
    var rowGroup := 0;
    var currentTop := sortedPh[0].top;
    for i := 0 to |sortedPh|
      invariant PassState(rowGroup, currentTop) == StateAfter(ts, i)
      invariant forall k :: 0 <= k < i ==> sortedPh[k].rowGroup == gs[k]
    {
      var ph := sortedPh[i];
      if Abs(ph.top - currentTop) > RowThreshold {
        rowGroup := rowGroup + 1;
        currentTop := ph.top;
      }
      assert rowGroup == gs[i];
      ph.rowGroup := rowGroup;
      forall k | 0 <= k < i && sortedPh[k] == ph ensures gs[k] == gs[i] {
        EqualTopsSameRow(ts, k, i);
      }
    }
  }

  /** Once the pass has written, for every position of the top-sorted list, the row of
      that position, every placeholder carries the row of its top. */
  lemma RowsFromSortedPass(ps: seq<Placeholder>)
    requires forall k :: 0 <= k < |SortByTop(ps)| ==> SortByTop(ps)[k].rowGroup == Groups(SortedTops(ps))[k]
    ensures RowsAssigned(ps)
  {
    var sortedPh := SortByTop(ps);
    var ts := SortedTops(ps);
    SortedTopsAscend(ps);
    forall p | p in ps
      ensures p.rowGroup == RowGroupOfTop(ts, p.top)
    {
      assert p in multiset(sortedPh);
      var k :| 0 <= k < |sortedPh| && sortedPh[k] == p;
      var m := FirstIndex(ts, p.top);
      if m <= k { EqualTopsSameRow(ts, m, k); } else { EqualTopsSameRow(ts, k, m); }
    }
  }

  // ---------------------------------------------------------------- sorting by row, then left

  /** A placeholder with the sort key `(row_group, left)` read off it. */
  datatype Keyed = Keyed(row: int, left: real, ph: Placeholder)

  /** Python's tuple order on `(row_group, left)`. */
  function RowLeftBefore(a: Keyed, b: Keyed): bool {
    a.row < b.row || (a.row == b.row && a.left < b.left)
  }

  function KeyOf(ph: Placeholder): Keyed
    reads ph
  {
    Keyed(ph.rowGroup, ph.left, ph)
  }

  function Keys(ps: seq<Placeholder>): (r: seq<Keyed>)
    reads set p | p in ps
    ensures |r| == |ps| && forall i :: 0 <= i < |ps| ==> r[i] == KeyOf(ps[i])
  {
    if ps == [] then [] else [KeyOf(ps[0])] + Keys(ps[1..])
  }

  function PlaceholderOf(k: Keyed): Placeholder {
    k.ph
  }

  /** Projecting a rearrangement of the keys gives a rearrangement of the list, whose keys
      are that rearrangement. */
  lemma ProjectKeys(ps: seq<Placeholder>, sorted: seq<Keyed>)
    requires multiset(sorted) == multiset(Keys(ps))
    ensures multiset(MapSeq(sorted, PlaceholderOf)) == multiset(ps)
    ensures Keys(MapSeq(sorted, PlaceholderOf)) == sorted
  {
    assert MapSeq(Keys(ps), PlaceholderOf) == ps;
    PermutationMaps(sorted, Keys(ps), PlaceholderOf);
    SameElements(sorted, Keys(ps));
    KeysOfProjection(ps, sorted);
  }

  /** Keys taken from the list are their own placeholders' keys. */
  lemma KeysOfProjection(ps: seq<Placeholder>, sorted: seq<Keyed>)
    requires forall x :: x in sorted ==> x in Keys(ps)
    ensures Keys(MapSeq(sorted, PlaceholderOf)) == sorted
  {
    var r := MapSeq(sorted, PlaceholderOf);
    forall i | 0 <= i < |r| ensures Keys(r)[i] == sorted[i] {
      assert sorted[i] in Keys(ps);
    }
  }

  lemma RowLeftAsymmetric(ks: seq<Keyed>)
    ensures AsymmetricOn(ks, RowLeftBefore)
  {
  }

  /** `placeholders.sort(key=lambda p: (p.row_group, p.left))`. */
  function SortByRowLeft(ps: seq<Placeholder>): (r: seq<Placeholder>)
    reads set p | p in ps
    ensures multiset(r) == multiset(ps)
    ensures SortedBy(Keys(r), RowLeftBefore)
  {
    var sorted := SortBy(Keys(ps), RowLeftBefore);
    ProjectKeys(ps, sorted);
    RowLeftAsymmetric(Keys(ps));
    SortBySorted(Keys(ps), RowLeftBefore);
    MapSeq(sorted, PlaceholderOf)
  }

  // ---------------------------------------------------------------- scanning slides

  /** A slide that holds placeholders; `index` is 0-based. */
  datatype ArchitectureSlide = ArchitectureSlide(index: int, title: string, placeholders: seq<Placeholder>)

  /** Some shape of the slide is a lorem shape (see `LoremIffCandidates`). */
  predicate HasLorem(slide: Slide) {
    Filter(slide.shapes, IsLoremShape) != []
  }

  /** The indices, below `n`, of the slides with at least one lorem shape, ascending. */
  function LoremSlides(slides: seq<Slide>, n: nat): (r: seq<int>)
    requires n <= |slides|
    ensures forall i :: 0 <= i < |r| ==> 0 <= r[i] < n
    ensures forall i, j :: 0 <= i < j < |r| ==> r[i] < r[j]
  {
    IndicesWhere(slides, HasLorem, n)
  }

  /** Exactly the slides with lorem shapes are listed. */
  lemma LoremSlidesExact(slides: seq<Slide>, n: nat, k: int)
    requires n <= |slides|
    ensures k in LoremSlides(slides, n) <==> 0 <= k < n && HasLorem(slides[k])
  {
    IndicesWhereExact(slides, HasLorem, n, k);
  }

  function IndexOf(a: ArchitectureSlide): int {
    a.index
  }

  /** What the scan promises about one slide's entry. */
  ghost predicate SlideScanned(slide: Slide, a: ArchitectureSlide)
    reads set p | p in a.placeholders
  {
    && a.title == SlideTitle(slide)
    && a.placeholders != []
    && multiset(Infos(a.placeholders)) == multiset(Candidates(slide.shapes, a.index, a.title))
    && RowsAssigned(a.placeholders)
    && SortedBy(Keys(a.placeholders), RowLeftBefore)
  }

  /** The part of `SlideScanned` that does not depend on row groups: the slide's title
      and exactly its lorem shapes. */
  ghost predicate SlideListed(slide: Slide, a: ArchitectureSlide) {
    && a.title == SlideTitle(slide)
    && a.placeholders != []
    && multiset(Infos(a.placeholders)) == multiset(Candidates(slide.shapes, a.index, a.title))
  }

  function PlaceholdersIn(r: seq<ArchitectureSlide>): set<Placeholder> {
    set j, p | 0 <= j < |r| && p in r[j].placeholders :: p
  }

  /** What `find_architecture_slides` promises about its result after the first `n`
      slides: one entry per slide with lorem shapes, in slide order, each holding that
      slide's lorem shapes. */
  ghost predicate ScannedUpTo(slides: seq<Slide>, r: seq<ArchitectureSlide>, n: nat)
    requires n <= |slides|
    reads PlaceholdersIn(r)
  {
    && MapSeq(r, IndexOf) == LoremSlides(slides, n)
    && forall j :: 0 <= j < |r| ==> 0 <= r[j].index < n && SlideScanned(slides[r[j].index], r[j])
  }

  ghost predicate Scanned(slides: seq<Slide>, r: seq<ArchitectureSlide>)
    reads PlaceholdersIn(r)
  {
    ScannedUpTo(slides, r, |slides|)
  }

  /** What a full scan lists, leaving out the row groups and the order they induce: one
      entry per slide with lorem shapes, in slide order, with the slide's title and
      placeholders for exactly its lorem shapes. */
  ghost predicate ListedByScan(slides: seq<Slide>, r: seq<ArchitectureSlide>) {
    && MapSeq(r, IndexOf) == LoremSlides(slides, |slides|)
    && forall j :: 0 <= j < |r| ==> 0 <= r[j].index < |slides| && SlideListed(slides[r[j].index], r[j])
  }

  lemma ScannedListed(slides: seq<Slide>, r: seq<ArchitectureSlide>)
    requires Scanned(slides, r)
    ensures ListedByScan(slides, r)
  {
  }

  /** One more shape adds its placeholder when it is a lorem shape. */
  lemma CandidatesStep(shapes: seq<Shape>, k: nat, slideIndex: int, title: string)
    requires k < |shapes|
    ensures Candidates(shapes[..k + 1], slideIndex, title) ==
      Candidates(shapes[..k], slideIndex, title) + (if IsLoremShape(shapes[k]) then [InfoFor(shapes[k], slideIndex, title)] else [])
  {
    assert shapes[..k + 1][..k] == shapes[..k];
    MapAppend(Filter(shapes[..k], IsLoremShape), [shapes[k]], s => InfoFor(s, slideIndex, title));
  }

  /** The inner loop of `find_architecture_slides`: a new placeholder, with row group 0, for
      every lorem shape on the slide, in shape order. */
  method CollectPlaceholders(slide: Slide, slideIndex: int, title: string) returns (phs: seq<Placeholder>)
    ensures Infos(phs) == Candidates(slide.shapes, slideIndex, title)
    ensures forall p :: p in phs ==> fresh(p)
  {
    phs := [];
    for k := 0 to |slide.shapes|
      invariant Infos(phs) == Candidates(slide.shapes[..k], slideIndex, title)
      invariant forall p :: p in phs ==> fresh(p)
    {
      var shape := slide.shapes[k];
      CandidatesStep(slide.shapes, k, slideIndex, title);
      if IsLoremShape(shape) {
        var ph := new Placeholder(InfoFor(shape, slideIndex, title), 0);
        MapAppend(phs, [ph], InfoOf);
        phs := phs + [ph];
      }
    }
    assert slide.shapes[..|slide.shapes|] == slide.shapes;
  }

  /** The placeholders of one slide, grouped into rows and sorted by row, then left. */
  method ScanSlide(slide: Slide, idx: int, title: string) returns (phs: seq<Placeholder>)
    requires title == SlideTitle(slide)
    ensures forall p :: p in phs ==> fresh(p)
    ensures phs != [] <==> Candidates(slide.shapes, idx, title) != []
    ensures phs != [] ==> SlideScanned(slide, ArchitectureSlide(idx, title, phs))
  {
    var found := CollectPlaceholders(slide, idx, title);
    phs := found;
    if found != [] {
      phs := GroupAndSort(found);
      ScannedOf(slide, idx, title, found, phs);
    }
  }

  /** Row groups are assigned to a slide's placeholders, which are then ordered by row,
      then left. */
  method GroupAndSort(found: seq<Placeholder>) returns (phs: seq<Placeholder>)
    modifies set p | p in found
    ensures |phs| == |found| && multiset(Infos(phs)) == multiset(Infos(found))
    ensures forall p :: p in phs <==> p in found
    ensures RowsAssigned(phs) && SortedBy(Keys(phs), RowLeftBefore)
  {
    var grouped := AssignRowGroups(found);
    phs := SortByRowLeft(grouped);
    Rearranged(found, phs);
  }

  lemma ScannedOf(slide: Slide, idx: int, title: string, found: seq<Placeholder>, phs: seq<Placeholder>)
    requires title == SlideTitle(slide) && found != []
    requires Infos(found) == Candidates(slide.shapes, idx, title)
    requires |phs| == |found| && multiset(Infos(phs)) == multiset(Infos(found))
    requires RowsAssigned(phs) && SortedBy(Keys(phs), RowLeftBefore)
    ensures SlideScanned(slide, ArchitectureSlide(idx, title, phs))
  {
  }

  /** One step of the scan: slide `idx` is examined and, when it has placeholders, its
      entry is appended. */
  method ScanNext(slides: seq<Slide>, result: seq<ArchitectureSlide>, idx: nat) returns (r: seq<ArchitectureSlide>)
    requires idx < |slides| && ScannedUpTo(slides, result, idx)
    ensures ScannedUpTo(slides, r, idx + 1)
  {
    var title := SlideTitle(slides[idx]);
    var phs := ScanSlide(slides[idx], idx, title);
    LoremIffCandidates(slides[idx], idx, title);
    ScanStep(slides, result, idx, title, phs);
    r := if phs != [] then result + [ArchitectureSlide(idx, title, phs)] else result;
  }

  /** A slide has candidates exactly when it has a lorem shape. */
  lemma LoremIffCandidates(slide: Slide, slideIndex: int, title: string)
    ensures HasLorem(slide) <==> exists k :: 0 <= k < |slide.shapes| && IsLoremShape(slide.shapes[k])
    ensures Candidates(slide.shapes, slideIndex, title) != [] <==> HasLorem(slide)
  {
    FilterNonEmpty(slide.shapes, IsLoremShape);
  }

  /** The scan invariant advances by one slide. */
  lemma ScanStep(slides: seq<Slide>, result: seq<ArchitectureSlide>, idx: nat, title: string, phs: seq<Placeholder>)
    requires idx < |slides| && ScannedUpTo(slides, result, idx)
    requires title == SlideTitle(slides[idx])
    requires phs != [] <==> HasLorem(slides[idx])
    requires phs != [] ==> SlideScanned(slides[idx], ArchitectureSlide(idx, title, phs))
    ensures ScannedUpTo(slides, if phs != [] then result + [ArchitectureSlide(idx, title, phs)] else result, idx + 1)
  {
    if phs != [] {
      ScanAppend(slides, result, idx, ArchitectureSlide(idx, title, phs));
    }
  }

  lemma ScanAppend(slides: seq<Slide>, result: seq<ArchitectureSlide>, idx: nat, a: ArchitectureSlide)
    requires idx < |slides| && ScannedUpTo(slides, result, idx)
    requires HasLorem(slides[idx]) && a.index == idx && SlideScanned(slides[idx], a)
    ensures ScannedUpTo(slides, result + [a], idx + 1)
  {
    var r := result + [a];
    IndicesAppend(slides, result, idx, a);
    PlaceholdersInAppend(result, a);
    forall j | 0 <= j < |r| ensures 0 <= r[j].index < idx + 1 && SlideScanned(slides[r[j].index], r[j]) {
      if j < |result| {
        assert r[j] == result[j];
      }
    }
  }

  lemma IndicesAppend(slides: seq<Slide>, result: seq<ArchitectureSlide>, idx: nat, a: ArchitectureSlide)
    requires idx < |slides| && MapSeq(result, IndexOf) == LoremSlides(slides, idx)
    requires HasLorem(slides[idx]) && a.index == idx
    ensures MapSeq(result + [a], IndexOf) == LoremSlides(slides, idx + 1)
  {
    MapAppend(result, [a], IndexOf);
  }

  lemma PlaceholdersInAppend(result: seq<ArchitectureSlide>, a: ArchitectureSlide)
    ensures PlaceholdersIn(result) <= PlaceholdersIn(result + [a])
  {
    var r := result + [a];
    forall p | p in PlaceholdersIn(result) ensures p in PlaceholdersIn(r) {
      var j :| 0 <= j < |result| && p in result[j].placeholders;
      assert r[j] == result[j];
    }
  }

  /** What a rearrangement of a list of placeholders keeps. */
  lemma Rearranged(found: seq<Placeholder>, phs: seq<Placeholder>)
    requires multiset(phs) == multiset(found)
    ensures |phs| == |found|
    ensures multiset(Infos(phs)) == multiset(Infos(found))
    ensures forall p :: p in phs <==> p in found
    ensures RowsAssigned(phs) <==> RowsAssigned(found)
  {
    assert |phs| == |multiset(phs)| == |multiset(found)| == |found|;
    PermutationMaps(phs, found, InfoOf);
    RowsAssignedOfPermutation(found, phs);
    SameElements(phs, found);
  }

  // ---------------------------------------------------------------- row counts

  /** The tally after one more placeholder in row `g`: rows stay in ascending order. */
  function AddToRows(rows: seq<(int, nat)>, g: int): seq<(int, nat)> {
    if rows == [] then [(g, 1)]
    else if rows[0].0 == g then [(g, rows[0].1 + 1)] + rows[1..]
    else if g < rows[0].0 then [(g, 1)] + rows
    else [rows[0]] + AddToRows(rows[1..], g)
  }

  /** `sorted(rows.items())` of the row dict, with each list replaced by its length. */
  function Tally(gs: seq<int>): seq<(int, nat)> {
    if gs == [] then [] else AddToRows(Tally(gs[..|gs| - 1]), gs[|gs| - 1])
  }

  predicate KeysAscend(rows: seq<(int, nat)>) {
    forall i :: 0 < i < |rows| ==> rows[i - 1].0 < rows[i].0
  }

  predicate CountsPositive(rows: seq<(int, nat)>) {
    forall i :: 0 <= i < |rows| ==> rows[i].1 > 0
  }

  /** The count for row `g` (0 when the row is absent). */
  function Lookup(rows: seq<(int, nat)>, g: int): nat {
    if rows == [] then 0 else if rows[0].0 == g then rows[0].1 else Lookup(rows[1..], g)
  }

  /** The sum of the counts. */
  function Total(rows: seq<(int, nat)>): nat {
    if rows == [] then 0 else rows[0].1 + Total(rows[1..])
  }

  lemma {:induction false} AddToRowsFacts(rows: seq<(int, nat)>, g: int)
    requires KeysAscend(rows) && CountsPositive(rows)
    ensures var r := AddToRows(rows, g);
      && KeysAscend(r) && CountsPositive(r)
      && r != [] && (r[0].0 == g || (rows != [] && r[0].0 == rows[0].0))
      && (forall h :: Lookup(r, h) == Lookup(rows, h) + (if h == g then 1 else 0))
      && Total(r) == Total(rows) + 1
  {
    if rows != [] && g < rows[0].0 {
      LookupBelow(rows, g);
    }
    if rows != [] && rows[0].0 < g {
      var tail := rows[1..];
      AddToRowsFacts(tail, g);
      var r := AddToRows(rows, g);
      assert r == [rows[0]] + AddToRows(tail, g);
      assert r[1..] == AddToRows(tail, g);
      forall h ensures Lookup(r, h) == Lookup(rows, h) + (if h == g then 1 else 0) {
        if h != rows[0].0 {
          assert Lookup(r, h) == Lookup(AddToRows(tail, g), h);
        }
      }
    }
  }

  /** A row below the first key is absent. */
  lemma {:induction false} LookupBelow(rows: seq<(int, nat)>, g: int)
    requires KeysAscend(rows) && rows != [] && g < rows[0].0
    ensures Lookup(rows, g) == 0
  {
    if |rows| > 1 {
      LookupBelow(rows[1..], g);
    }
  }

  lemma {:induction false} LookupAt(rows: seq<(int, nat)>, i: nat)
    requires KeysAscend(rows) && i < |rows|
    ensures Lookup(rows, rows[i].0) == rows[i].1
  {
    if i > 0 {
      assert rows[0].0 < rows[i].0 by { KeyChainRows(rows, 0, i); }
      LookupAt(rows[1..], i - 1);
    }
  }

  lemma {:induction false} KeyChainRows(rows: seq<(int, nat)>, i: nat, j: nat)
    requires KeysAscend(rows) && i < j < |rows|
    ensures rows[i].0 < rows[j].0
    decreases j - i
  {
    if i + 1 < j {
      KeyChainRows(rows, i, j - 1);
    }
  }

  /** The summary rows are the row groups that occur, in ascending order, each with the
      number of placeholders in it; the counts add up to the number of placeholders. */
  lemma {:induction false} TallyOrdered(gs: seq<int>)
    ensures KeysAscend(Tally(gs)) && CountsPositive(Tally(gs)) && Total(Tally(gs)) == |gs|
  {
    if gs != [] {
      var init := gs[..|gs| - 1];
      TallyOrdered(init);
      AddToRowsFacts(Tally(init), gs[|gs| - 1]);
    }
  }

  lemma {:induction false} TallyLookup(gs: seq<int>)
    ensures forall h :: Lookup(Tally(gs), h) == multiset(gs)[h]
  {
    if gs != [] {
      var init, g := gs[..|gs| - 1], gs[|gs| - 1];
      TallyLookup(init);
      TallyOrdered(init);
      AddToRowsFacts(Tally(init), g);
      MultisetSnoc(init, g);
      assert gs == init + [g];
    }
  }

  lemma MultisetSnoc(init: seq<int>, g: int)
    ensures forall h :: multiset(init + [g])[h] == multiset(init)[h] + (if h == g then 1 else 0)
  {
  }

  lemma TallyCounts(gs: seq<int>)
    ensures var t := Tally(gs);
      && KeysAscend(t) && CountsPositive(t)
      && (forall h :: Lookup(t, h) == multiset(gs)[h])
      && (forall i :: 0 <= i < |t| ==> t[i].1 == multiset(gs)[t[i].0])
      && Total(t) == |gs|
  {
    TallyOrdered(gs);
    TallyLookup(gs);
    var t := Tally(gs);
    forall i | 0 <= i < |t| ensures t[i].1 == multiset(gs)[t[i].0] {
      LookupAt(t, i);
    }
  }

  function RowGroupsOf(ps: seq<Placeholder>): (r: seq<int>)
    reads set p | p in ps
    ensures |r| == |ps| && forall i :: 0 <= i < |ps| ==> r[i] == ps[i].rowGroup
  {
    if ps == [] then [] else [ps[0].rowGroup] + RowGroupsOf(ps[1..])
  }

  /** One line of `get_slide_summary`, kept as structure rather than formatted text. */
  datatype SummaryLine =
    | FoundSlides(count: nat)
    | SlideHeading(number: int, title: string)
    | PlaceholderTotal(count: nat)
    | RowLine(number: int, boxes: nat)

  function RowLineOf(row: (int, nat)): SummaryLine {
    RowLine(row.0 + 1, row.1)
  }

  /** What `get_slide_summary` reads of a slide found: its index, its title and the row
      group of each of its placeholders, in order. */
  datatype SlideView = SlideView(index: int, title: string, rowGroups: seq<int>)

  function ViewOf(a: ArchitectureSlide): (v: SlideView)
    reads set p | p in a.placeholders
    ensures |v.rowGroups| == |a.placeholders|
  {
    SlideView(a.index, a.title, RowGroupsOf(a.placeholders))
  }

  function Views(r: seq<ArchitectureSlide>): (vs: seq<SlideView>)
    reads PlaceholdersIn(r)
    ensures |vs| == |r| && forall j :: 0 <= j < |r| ==> vs[j] == ViewOf(r[j])
  {
    if r == [] then []
    else
      assert PlaceholdersIn(r[1..]) <= PlaceholdersIn(r) by {
        forall p | p in PlaceholdersIn(r[1..]) ensures p in PlaceholdersIn(r) {
          var j :| 0 <= j < |r| - 1 && p in r[1..][j].placeholders;
          assert r[j + 1] == r[1..][j];
        }
      }
      assert r[0] in r;
      [ViewOf(r[0])] + Views(r[1..])
  }

  /** The lines for one slide: 1-based slide number and title, placeholder count, then
      one line per row, in row order, with its 1-based number and its number of boxes. */
  function SlideLines(v: SlideView): seq<SummaryLine> {
    [SlideHeading(v.index + 1, v.title), PlaceholderTotal(|v.rowGroups|)]
      + MapSeq(Tally(v.rowGroups), RowLineOf)
  }

  function SummaryLines(vs: seq<SlideView>): seq<SummaryLine> {
    if vs == [] then [] else SummaryLines(vs[..|vs| - 1]) + SlideLines(vs[|vs| - 1])
  }

  lemma TallyPrefix(gs: seq<int>, i: nat)
    requires i < |gs|
    ensures Tally(gs[..i + 1]) == AddToRows(Tally(gs[..i]), gs[i])
  {
    assert gs[..i + 1][..i] == gs[..i];
  }

  /** The lines of slide `j`, from its row tally, extend the summary of the slides before. */
  lemma SummaryAppend(vs: seq<SlideView>, j: nat, lines: seq<SummaryLine>, rows: seq<(int, nat)>)
    requires j < |vs| && rows == Tally(vs[j].rowGroups)
    requires lines == [FoundSlides(|vs|)] + SummaryLines(vs[..j])
    ensures lines + ([SlideHeading(vs[j].index + 1, vs[j].title), PlaceholderTotal(|vs[j].rowGroups|)] + MapSeq(rows, RowLineOf))
      == [FoundSlides(|vs|)] + SummaryLines(vs[..j + 1])
  {
    assert vs[..j + 1][..j] == vs[..j];
  }

  /** The grouping loop of `get_slide_summary` for one slide: its placeholders counted by
      row group, rows in ascending order. */
  method CountRows(gs: seq<int>) returns (rows: seq<(int, nat)>)
    ensures rows == Tally(gs)
  {
    rows := [];
    for i := 0 to |gs|
      invariant rows == Tally(gs[..i])
    {
      TallyPrefix(gs, i);
      rows := AddToRows(rows, gs[i]);
    }
    assert gs[..|gs|] == gs;
  }

  /** The loop of `get_slide_summary` over the slides found. */
  method Summarise(views: seq<SlideView>) returns (lines: seq<SummaryLine>)
    ensures lines == [FoundSlides(|views|)] + SummaryLines(views)
  {
    lines := [FoundSlides(|views|)];
    for j := 0 to |views|
      invariant lines == [FoundSlides(|views|)] + SummaryLines(views[..j])
    {
      var v := views[j];
      var rows := CountRows(v.rowGroups);
      SummaryAppend(views, j, lines, rows);
      lines := lines + ([SlideHeading(v.index + 1, v.title), PlaceholderTotal(|v.rowGroups|)] + MapSeq(rows, RowLineOf));
    }
    assert views[..|views|] == views;
  }

  /** Each slide's row lines list its rows in ascending order, and the boxes they count add
      up to the slide's placeholder count; a row line appears for each row that holds a
      placeholder, and for no other. */
  lemma RowLinesCoverSlide(a: ArchitectureSlide)
    ensures var rows := Tally(ViewOf(a).rowGroups);
      && KeysAscend(rows) && CountsPositive(rows)
      && Total(rows) == |a.placeholders|
      && forall h :: Lookup(rows, h) == multiset(RowGroupsOf(a.placeholders))[h]
  {
    TallyCounts(RowGroupsOf(a.placeholders));
  }

  // ---------------------------------------------------------------- the document

  /** An open DSD deck: the file it came from, its slides, and the cached scan. */
  class DSDDocument {
    const path: Path
    var slides: seq<Slide>
    var architectureSlides: Option<seq<ArchitectureSlide>>

    constructor (path: Path, slides: seq<Slide>)
      ensures this.path == path && this.slides == slides && architectureSlides == None
    {
      this.path := path;
      this.slides := slides;
      architectureSlides := None;
    }

    /** `find_architecture_slides`: the first call scans every slide and caches the
        result; later calls return the cached list without scanning again. */
    method FindArchitectureSlides() returns (r: seq<ArchitectureSlide>)
      modifies this`architectureSlides
      ensures architectureSlides == Some(r)
      ensures old(architectureSlides).Some? ==> r == old(architectureSlides).value
      ensures old(architectureSlides).None? ==> Scanned(slides, r) && ListedByScan(slides, r)
    {
      if architectureSlides.Some? {
        return architectureSlides.value;
      }
      var result: seq<ArchitectureSlide> := [];
      for idx := 0 to |slides|
        invariant ScannedUpTo(slides, result, idx)
      {
        result := ScanNext(slides, result, idx);
      }
      ScannedListed(slides, result);
      architectureSlides := Some(result);
      return result;
    }

    /** `update_placeholder`: writes `newText` into the first shape of that name on the
        slide that has a text frame with paragraphs. */
    method UpdatePlaceholder(slideIndex: int, shapeName: string, newText: string) returns (ok: bool)
      modifies this`slides
      ensures ok == UpdateSlides(old(slides), slideIndex, shapeName, newText).ok
      ensures slides == UpdateSlides(old(slides), slideIndex, shapeName, newText).slides
    {
      if slideIndex < 0 || slideIndex >= |slides| {
        return false;
      }
      var shapes := slides[slideIndex].shapes;
      for j := 0 to |shapes|
        invariant forall k :: 0 <= k < j ==> !Writable(shapes[k], shapeName)
        invariant slides == old(slides)
      {
        var shape := shapes[j];
        if shape.name == shapeName && shape.textFrame.Some? && shape.textFrame.value.paragraphs != [] {
          TargetAt(shapes, shapeName, j);
          slides := slides[slideIndex := Slide(shapes[j := WriteShape(shape, newText)])];
          return true;
        }
      }
      return false;
    }

    /** `update_placeholders_batch`: applies the updates in order and counts those that
        found a shape. */
    method UpdatePlaceholdersBatch(updates: Updates) returns (count: nat)
      modifies this`slides
      ensures slides == ApplyUpdates(old(slides), updates)
      ensures count == CountApplicable(old(slides), updates)
      ensures count <= |updates|
    {
      count := 0;
      for i := 0 to |updates|
        invariant slides == ApplyUpdates(old(slides), updates[..i])
        invariant count == CountApplicable(old(slides), updates[..i])
      {
        var (key, text) := updates[i];
        assert updates[..i + 1][..i] == updates[..i];
        ApplicableAfterUpdates(old(slides), updates[..i], key);
        var ok := UpdatePlaceholder(key.slideIndex, key.shapeName, text);
        if ok {
          count := count + 1;
        }
      }
      assert updates[..|updates|] == updates;
    }

    /** The path `save` writes to: the given one, or `<stem>_populated<suffix>` beside the
        original, which keeps the original's suffix. */
    function SavePath(outputPath: Option<Path>): (p: Path)
      ensures outputPath.Some? ==> p == outputPath.value
      ensures outputPath.None? ==> p.parent == path.parent && p.name == PopulatedName(path.name)
      ensures outputPath.None? && Suffix(path.name) != "" ==>
        Suffix(p.name) == Suffix(path.name) && Stem(p.name) == Stem(path.name) + "_populated"
    {
      match outputPath
      case Some(given) => given
      case None =>
        if Suffix(path.name) != "" then PopulatedKeepsSuffix(path.name); Path(path.parent, PopulatedName(path.name))
        else Path(path.parent, PopulatedName(path.name))
    }

    /** `get_slide_summary`, as structured lines. */
    method GetSlideSummary() returns (lines: seq<SummaryLine>)
      modifies this`architectureSlides
      ensures architectureSlides.Some?
      ensures old(architectureSlides).Some? ==> architectureSlides == old(architectureSlides)
      ensures old(architectureSlides).None? ==> ListedByScan(slides, architectureSlides.value)
      ensures lines == [FoundSlides(|architectureSlides.value|)] + SummaryLines(Views(architectureSlides.value))
    {
      var found := FindArchitectureSlides();
      var views := Views(found);
      lines := Summarise(views);
      assert Views(found) == views;
    }
  }
}
