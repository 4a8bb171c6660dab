/** `dsd_agent/google_slides.py`: the Google Slides back end. A presentation is the
    decoded `presentations().get` answer; the `batchUpdate` calls it sends are recorded as
    a log of request batches, and whether such a call succeeds is a parameter. */
module GoogleSlides {
  import opened Wrappers
  import opened Text
  import opened Sorting
  import opened Responses
  import opened ImageAnalyzer
  import opened RowGroups
  import opened PptxSlides
  import opened PptxHandler
  import opened Mapping
  import opened Agent

  // ---------------------------------------------------------------- presentation JSON

  /** One entry of a shape's `text.textElements`: a text run carries its `content`. */
  datatype TextElement = TextElement(textRun: Option<string>)

  /** A `shape`: its `placeholder.type`, if any, and its text elements (none when the
      shape has no `text`). */
  datatype GShape = GShape(placeholderType: Option<string>, textElements: seq<TextElement>)

  /** A `{magnitude, unit}` dimension; either key may be missing. */
  datatype Dimension = Dimension(magnitude: Option<real>, unit: Option<string>)

  /** A page element: its `objectId`, its `shape` (absent for images, lines, ...), the
      `translateX`/`translateY` of its transform and the `width`/`height` of its size. */
  datatype PageElement = PageElement(objectId: Option<string>, shape: Option<GShape>,
                                     translateX: Option<real>, translateY: Option<real>,
                                     width: Dimension, height: Dimension)

  datatype GSlide = GSlide(pageElements: seq<PageElement>)

  // ---------------------------------------------------------------- units

  /** `_emu_to_inches`: a missing magnitude is 0 and a missing unit is EMU; EMU and PT are
      converted, any other unit gives the magnitude unchanged. */
  function DimensionToInches(d: Dimension): (r: real)
    ensures d.magnitude.None? ==> r == 0.0
    ensures d.unit.None? || d.unit.value == "EMU" ==> r * 914400.0 == d.magnitude.GetOr(0.0)
    ensures d.unit == Some("PT") ==> r * 72.0 == d.magnitude.GetOr(0.0)
    ensures d.unit.Some? && d.unit.value != "EMU" && d.unit.value != "PT" ==> r == d.magnitude.GetOr(0.0)
  {
    var magnitude := d.magnitude.GetOr(0.0);
    var unit := d.unit.GetOr("EMU");
    if unit == "EMU" then magnitude / 914400.0
    else if unit == "PT" then magnitude / 72.0
    else magnitude
  }

  /** A transform offset in inches: `translate.get(..., 0) / 914400`. */
  function OffsetInches(x: Option<real>): real {
    x.GetOr(0.0) / EmuPerInch
  }

  /** A size in inches as `find_architecture_slides` computes it: the magnitude over
      914400 whatever the unit. */
  function SizeInches(d: Dimension): real {
    d.magnitude.GetOr(0.0) / EmuPerInch
  }

  /** The scan's positions and sizes are 914400ths of the EMU values (0 when missing);
      a size agrees with `_emu_to_inches` when its unit is EMU or missing, and differs
      from it for a PT size. */
  lemma ScanInches(x: Option<real>, d: Dimension)
    ensures OffsetInches(x) * EmuPerInch == x.GetOr(0.0)
    ensures SizeInches(d) * EmuPerInch == d.magnitude.GetOr(0.0)
    ensures d.unit.None? || d.unit.value == "EMU" ==> SizeInches(d) == DimensionToInches(d)
    ensures d.unit == Some("PT") && d.magnitude.GetOr(0.0) != 0.0 ==> SizeInches(d) != DimensionToInches(d)
  {
  }

  // ---------------------------------------------------------------- text and title

  function RunContent(te: TextElement): string {
    te.textRun.GetOr("")
  }

  /** The contents of the text runs, in order. */
  function Runs(tes: seq<TextElement>): (r: seq<string>)
    ensures |r| <= |tes|
  {
    if tes == [] then []
    else Runs(tes[..|tes| - 1]) + (if tes[|tes| - 1].textRun.Some? then [tes[|tes| - 1].textRun.value] else [])
  }

  /** The concatenated contents of the text runs (`full_text`). */
  function RunText(tes: seq<TextElement>): string {
    if tes == [] then "" else RunText(tes[..|tes| - 1]) + RunContent(tes[|tes| - 1])
  }

  predicate IsTitleShape(s: GShape) {
    s.placeholderType == Some("TITLE")
  }

  /** The text runs of the shapes among `els`, in element order; only those of TITLE
      placeholder shapes when `titleOnly`. */
  function ShapeRuns(els: seq<PageElement>, titleOnly: bool): seq<string> {
    if els == [] then []
    else
      var e := els[|els| - 1];
      ShapeRuns(els[..|els| - 1], titleOnly)
      + (if e.shape.Some? && (!titleOnly || IsTitleShape(e.shape.value)) then Runs(e.shape.value.textElements) else [])
  }

  /** A fallback title: non-empty and shorter than 80 characters. */
  predicate ShortTitle(t: string) {
    t != [] && |t| < 80
  }

  /** The first run at or after `from` whose stripped text is a fallback title. */
  function FirstShort(runs: seq<string>, from: nat): (r: Option<nat>)
    ensures r.Some? ==> from <= r.value < |runs| && ShortTitle(Strip(runs[r.value]))
    ensures r.Some? ==> forall j :: from <= j < r.value ==> !ShortTitle(Strip(runs[j]))
    ensures r.None? ==> forall j :: from <= j < |runs| ==> !ShortTitle(Strip(runs[j]))
    decreases |runs| - from
  {
    if from >= |runs| then None
    else if ShortTitle(Strip(runs[from])) then Some(from)
    else FirstShort(runs, from + 1)
  }

  /** `_get_slide_title`: the stripped first run of a TITLE placeholder, even when it is
      empty; else the first stripped run that is a fallback title; else "Untitled". */
  function GetSlideTitle(slide: GSlide): (t: string)
    ensures var titles := ShapeRuns(slide.pageElements, true);
      titles != [] ==> t == Strip(titles[0])
    ensures var titles, all := ShapeRuns(slide.pageElements, true), ShapeRuns(slide.pageElements, false);
      titles == [] && (exists k :: 0 <= k < |all| && ShortTitle(Strip(all[k]))) ==>
        exists k :: 0 <= k < |all| && t == Strip(all[k]) && ShortTitle(t) && forall j :: 0 <= j < k ==> !ShortTitle(Strip(all[j]))
    ensures var titles, all := ShapeRuns(slide.pageElements, true), ShapeRuns(slide.pageElements, false);
      titles == [] && (forall k :: 0 <= k < |all| ==> !ShortTitle(Strip(all[k]))) ==> t == "Untitled"
  {
    var titles, all := ShapeRuns(slide.pageElements, true), ShapeRuns(slide.pageElements, false);
    if titles != [] then Strip(titles[0])
    else match FirstShort(all, 0)
      case Some(k) => Strip(all[k])
      case None => "Untitled"
  }

  // ---------------------------------------------------------------- lorem shapes

  /** A page element is a placeholder iff it is a shape whose concatenated run text
      contains "lorem" in any case. */
  predicate IsLoremElement(e: PageElement) {
    e.shape.Some? && Contains(Lower(RunText(e.shape.value.textElements)), Lorem)
  }

  /** The placeholder built for a lorem element: its object id (or ""), its stripped text
      and its position and size in inches. */
  function ElementInfo(e: PageElement, slideIndex: int, title: string): PlaceholderInfo {
    var text := if e.shape.Some? then Strip(RunText(e.shape.value.textElements)) else "";
    PlaceholderInfo(slideIndex, title, e.objectId.GetOr(""), text,
                    OffsetInches(e.translateX), OffsetInches(e.translateY), SizeInches(e.width), SizeInches(e.height))
  }

  function ElementCandidates(els: seq<PageElement>, slideIndex: int, title: string): seq<PlaceholderInfo> {
    MapSeq(Filter(els, IsLoremElement), e => ElementInfo(e, slideIndex, title))
  }

  lemma {:induction false} RunTextAppend(a: seq<TextElement>, b: seq<TextElement>)
    ensures RunText(a + b) == RunText(a) + RunText(b)
    decreases |b|
  {
    if b == [] {
      assert a + b == a;
    } else {
      var init := b[..|b| - 1];
      assert (a + b)[..|a + b| - 1] == a + init;
      RunTextAppend(a, init);
    }
  }

  /** The run text around the `k`-th element. */
  lemma {:induction false} RunTextAround(tes: seq<TextElement>, k: nat)
    requires k < |tes|
    ensures RunText(tes) == RunText(tes[..k]) + RunContent(tes[k]) + RunText(tes[k + 1..])
  {
    assert tes[..k + 1][..k] == tes[..k];
    assert RunText(tes[..k + 1]) == RunText(tes[..k]) + RunContent(tes[k]);
    RunTextAppend(tes[..k + 1], tes[k + 1..]);
    assert tes[..k + 1] + tes[k + 1..] == tes;
  }

  /** A word in the lower-cased middle part is in the lower-cased whole. */
  lemma OccursInMiddle(pre: string, c: string, post: string, i: int)
    requires OccursAt(Lower(c), Lorem, i)
    ensures Contains(Lower(pre + c + post), Lorem)
  {
    var whole := Lower(pre + c + post);
    assert whole[|pre|..|pre| + |c|] == Lower(c);
    OccursInSlice(whole, Lorem, |pre|, |pre| + |c|, i);
    ContainsAt(whole, Lorem, |pre| + i);
  }

  /** A single run mentioning lorem makes its shape a placeholder; see `LoremAcrossRuns`
      for the converse. */
  lemma {:induction false} LoremRunSuffices(tes: seq<TextElement>, k: nat)
    requires k < |tes| && Contains(Lower(RunContent(tes[k])), Lorem)
    ensures Contains(Lower(RunText(tes)), Lorem)
  {
    var c := RunContent(tes[k]);
    var pre, post := RunText(tes[..k]), RunText(tes[k + 1..]);
    RunTextAround(tes, k);
    OccursInMiddle(pre, c, post, FindFrom(Lower(c), Lorem, 0).value);
  }

  /** "Lor" and "em ipsum" in two runs make a placeholder, though neither run mentions
      "lorem". */
  lemma LoremAcrossRuns()
    ensures var tes := [TextElement(Some("Lor")), TextElement(Some("em ipsum"))];
      Contains(Lower(RunText(tes)), Lorem)
      && !Contains(Lower(RunContent(tes[0])), Lorem) && !Contains(Lower(RunContent(tes[1])), Lorem)
  {
    var tes := [TextElement(Some("Lor")), TextElement(Some("em ipsum"))];
    assert tes[..1] == [TextElement(Some("Lor"))] && tes[..1][..0] == [];
    assert RunText(tes) == "Lorem ipsum";
    assert Lower("Lorem ipsum")[..5] == Lorem;
    ContainsAt(Lower("Lorem ipsum"), Lorem, 0);
    ContainsIff(Lower("Lor"), Lorem);
    NoLetterL(Lower("em ipsum"));
  }

  /** A string without an 'l' does not contain "lorem". */
  lemma NoLetterL(s: string)
    requires forall k :: 0 <= k < |s| ==> s[k] != 'l'
    ensures !Contains(s, Lorem)
  {
    ContainsIff(s, Lorem);
    forall i | 0 <= i ensures !OccursAt(s, Lorem, i) {
      if i + |Lorem| <= |s| {
        assert s[i..i + |Lorem|][0] == s[i];
      }
    }
  }

  // ---------------------------------------------------------------- the scan

  predicate PageHasLorem(slide: GSlide) {
    Filter(slide.pageElements, IsLoremElement) != []
  }

  /** The indices, below `n`, of the slides with a lorem element, ascending. */
  function LoremPages(slides: seq<GSlide>, n: nat): (r: seq<int>)
    requires n <= |slides|
    ensures forall i :: 0 <= i < |r| ==> 0 <= r[i] < n
    ensures forall i, j :: 0 <= i < j < |r| ==> r[i] < r[j]
  {
    IndicesWhere(slides, PageHasLorem, n)
  }

  /** Exactly the slides with lorem elements are listed. */
  lemma LoremPagesExact(slides: seq<GSlide>, n: nat, k: int)
    requires n <= |slides|
    ensures k in LoremPages(slides, n) <==> 0 <= k < n && PageHasLorem(slides[k])
  {
    IndicesWhereExact(slides, PageHasLorem, n, k);
  }

  /** A slide has lorem elements exactly when some element is one. */
  lemma PageHasLoremIff(slide: GSlide)
    ensures PageHasLorem(slide) <==> exists k :: 0 <= k < |slide.pageElements| && IsLoremElement(slide.pageElements[k])
  {
    FilterNonEmpty(slide.pageElements, IsLoremElement);
  }

  /** What the scan promises about one slide's entry. */
  ghost predicate PageScanned(slide: GSlide, a: ArchitectureSlide)
    reads set p | p in a.placeholders
  {
    && a.title == GetSlideTitle(slide)
    && a.placeholders != []
    && multiset(Infos(a.placeholders)) == multiset(ElementCandidates(slide.pageElements, a.index, a.title))
    && RowsAssigned(a.placeholders)
    && SortedBy(Keys(a.placeholders), RowLeftBefore)
  }

  /** The scan after the first `n` slides: one entry per slide with lorem elements, in
      slide order, each holding that slide's lorem elements. */
  ghost predicate PagesScannedUpTo(slides: seq<GSlide>, r: seq<ArchitectureSlide>, n: nat)
    requires n <= |slides|
    reads PlaceholdersIn(r)
  {
    && MapSeq(r, IndexOf) == LoremPages(slides, n)
    && forall j :: 0 <= j < |r| ==> 0 <= r[j].index < n && PageScanned(slides[r[j].index], r[j])
  }

  ghost predicate PagesScanned(slides: seq<GSlide>, r: seq<ArchitectureSlide>)
    reads PlaceholdersIn(r)
  {
    PagesScannedUpTo(slides, r, |slides|)
  }

  lemma CandidatesStepG(els: seq<PageElement>, k: nat, slideIndex: int, title: string)
    requires k < |els|
    ensures ElementCandidates(els[..k + 1], slideIndex, title) ==
      ElementCandidates(els[..k], slideIndex, title) + (if IsLoremElement(els[k]) then [ElementInfo(els[k], slideIndex, title)] else [])
  {
    assert els[..k + 1][..k] == els[..k];
    MapAppend(Filter(els[..k], IsLoremElement), [els[k]], e => ElementInfo(e, slideIndex, title));
  }

  /** The `full_text` loop: the contents of the text runs, concatenated. */
  method FullText(tes: seq<TextElement>) returns (fullText: string)
    ensures fullText == RunText(tes)
  {
    fullText := "";
    for i := 0 to |tes|
      invariant fullText == RunText(tes[..i])
    {
      assert tes[..i + 1][..i] == tes[..i];
      if tes[i].textRun.Some? {
        fullText := fullText + tes[i].textRun.value;
      }
    }
    assert tes[..|tes|] == tes;
  }

  /** The placeholder the inner loop builds from a shape's `full_text` is the element's. */
  lemma ElementInfoOf(e: PageElement, fullText: string, slideIndex: int, title: string)
    requires e.shape.Some? && fullText == RunText(e.shape.value.textElements)
    ensures ElementInfo(e, slideIndex, title)
      == PlaceholderInfo(slideIndex, title, e.objectId.GetOr(""), Strip(fullText),
                         OffsetInches(e.translateX), OffsetInches(e.translateY), SizeInches(e.width), SizeInches(e.height))
  {
  }

  /** One step of the inner loop: a new placeholder, with row group 0, for the element
      when it is a lorem shape. */
  method ElementPlaceholder(element: PageElement, slideIndex: int, title: string) returns (found: seq<Placeholder>)
    ensures Infos(found) == if IsLoremElement(element) then [ElementInfo(element, slideIndex, title)] else []
    ensures forall p :: p in found ==> fresh(p)
  {
    if element.shape.None? {
      return [];
    }
    var fullText := FullText(element.shape.value.textElements);
    if Contains(Lower(fullText), Lorem) {
      var info := PlaceholderInfo(slideIndex, title, element.objectId.GetOr(""), Strip(fullText),
                                  OffsetInches(element.translateX), OffsetInches(element.translateY),
                                  SizeInches(element.width), SizeInches(element.height));
      ElementInfoOf(element, fullText, slideIndex, title);
      var ph := new Placeholder(info, 0);
      found := [ph];
    } else {
      found := [];
    }
  }

  /** The inner loop of `find_architecture_slides`: a new placeholder, with row group 0,
      for every lorem element of the slide, in element order. */
  method ElementPlaceholders(slide: GSlide, slideIndex: int, title: string) returns (phs: seq<Placeholder>)
    ensures Infos(phs) == ElementCandidates(slide.pageElements, slideIndex, title)
    ensures forall p :: p in phs ==> fresh(p)
  {
    var els := slide.pageElements;
    phs := [];
    for k := 0 to |els|
      invariant Infos(phs) == ElementCandidates(els[..k], slideIndex, title)
      invariant forall p :: p in phs ==> fresh(p)
    {
      CandidatesStepG(els, k, slideIndex, title);
      var found := ElementPlaceholder(els[k], slideIndex, title);
      MapAppend(phs, found, InfoOf);
      phs := phs + found;
    }
    assert els[..|els|] == els;
  }

  /** The placeholders of one slide, grouped into rows and sorted by row, then left. */
  method ScanPage(slide: GSlide, idx: int, title: string) returns (phs: seq<Placeholder>)
    requires title == GetSlideTitle(slide)
    ensures forall p :: p in phs ==> fresh(p)
    ensures phs != [] <==> ElementCandidates(slide.pageElements, idx, title) != []
    ensures phs != [] ==> PageScanned(slide, ArchitectureSlide(idx, title, phs))
  {
    var found := ElementPlaceholders(slide, idx, title);
    phs := found;
    if found != [] {
      phs := GroupAndSort(found);
    }
  }

  /** One step of the scan: slide `idx` is examined and, when it has placeholders, its
      entry is appended. */
  method ScanNextPage(slides: seq<GSlide>, result: seq<ArchitectureSlide>, idx: nat) returns (r: seq<ArchitectureSlide>)
    requires idx < |slides| && PagesScannedUpTo(slides, result, idx)
    ensures PagesScannedUpTo(slides, r, idx + 1)
  {
    var title := GetSlideTitle(slides[idx]);
    var phs := ScanPage(slides[idx], idx, title);
    FilterNonEmpty(slides[idx].pageElements, IsLoremElement);
    PageStep(slides, result, idx, title, phs);
    r := if phs != [] then result + [ArchitectureSlide(idx, title, phs)] else result;
  }

  lemma PageStep(slides: seq<GSlide>, result: seq<ArchitectureSlide>, idx: nat, title: string, phs: seq<Placeholder>)
    requires idx < |slides| && PagesScannedUpTo(slides, result, idx)
    requires title == GetSlideTitle(slides[idx])
    requires phs != [] <==> PageHasLorem(slides[idx])
    requires phs != [] ==> PageScanned(slides[idx], ArchitectureSlide(idx, title, phs))
    ensures PagesScannedUpTo(slides, if phs != [] then result + [ArchitectureSlide(idx, title, phs)] else result, idx + 1)
  {
    if phs != [] {
      PageAppend(slides, result, idx, ArchitectureSlide(idx, title, phs));
    }
  }

  lemma PageAppend(slides: seq<GSlide>, result: seq<ArchitectureSlide>, idx: nat, a: ArchitectureSlide)
    requires idx < |slides| && PagesScannedUpTo(slides, result, idx)
    requires PageHasLorem(slides[idx]) && a.index == idx && PageScanned(slides[idx], a)
    ensures PagesScannedUpTo(slides, result + [a], idx + 1)
  {
    var r := result + [a];
    PageIndicesAppend(slides, result, idx, a);
    PlaceholdersInAppend(result, a);
    forall j | 0 <= j < |r| ensures 0 <= r[j].index < idx + 1 && PageScanned(slides[r[j].index], r[j]) {
      if j < |result| {
        assert r[j] == result[j];
      }
    }
  }

  lemma PageIndicesAppend(slides: seq<GSlide>, result: seq<ArchitectureSlide>, idx: nat, a: ArchitectureSlide)
    requires idx < |slides| && MapSeq(result, IndexOf) == LoremPages(slides, idx)
    requires PageHasLorem(slides[idx]) && a.index == idx
    ensures MapSeq(result + [a], IndexOf) == LoremPages(slides, idx + 1)
  {
    MapAppend(result, [a], IndexOf);
  }

  // ---------------------------------------------------------------- batch requests

  /** The two request kinds `update_placeholder` and `update_placeholders_batch` send:
      `deleteText` of the whole text, then `insertText` at index 0. */
  datatype Request = DeleteText(objectId: string) | InsertText(objectId: string, insertionIndex: int, text: string)

  /** The requests for one update. */
  function RequestPair(objectId: string, text: string): seq<Request> {
    [DeleteText(objectId), InsertText(objectId, 0, text)]
  }

  /** The requests for the updates in order; the slide index of a key is not sent. */
  function RequestsFor(updates: Updates): seq<Request> {
    if updates == [] then []
    else
      var (key, text) := updates[|updates| - 1];
      RequestsFor(updates[..|updates| - 1]) + RequestPair(key.shapeName, text)
  }

  /** Exactly two requests per update, in order: delete all, then insert at index 0. */
  lemma {:induction false} RequestsPaired(updates: Updates)
    ensures |RequestsFor(updates)| == 2 * |updates|
    ensures forall i :: 0 <= i < |updates| ==>
      RequestsFor(updates)[2 * i] == DeleteText(updates[i].0.shapeName)
      && RequestsFor(updates)[2 * i + 1] == InsertText(updates[i].0.shapeName, 0, updates[i].1)
  {
    if updates != [] {
      var init := updates[..|updates| - 1];
      RequestsPaired(init);
      forall i | 0 <= i < |updates|
        ensures RequestsFor(updates)[2 * i] == DeleteText(updates[i].0.shapeName)
        ensures RequestsFor(updates)[2 * i + 1] == InsertText(updates[i].0.shapeName, 0, updates[i].1)
      {
        if i < |init| {
          assert updates[i] == init[i];
        }
      }
    }
  }

  /** The request loop of `update_placeholders_batch`. */
  method BuildRequests(updates: Updates) returns (requests: seq<Request>)
    ensures requests == RequestsFor(updates)
  {
    requests := [];
    for i := 0 to |updates|
      invariant requests == RequestsFor(updates[..i])
    {
      assert updates[..i + 1][..i] == updates[..i];
      var (key, text) := updates[i];
      requests := requests + [DeleteText(key.shapeName)];
      requests := requests + [InsertText(key.shapeName, 0, text)];
    }
    assert updates[..|updates|] == updates;
  }

  // ---------------------------------------------------------------- the document

  /** An opened presentation: whether the API service is built, the presentation's id and
      slides, the cached scan, and the batches sent through `batchUpdate`. */
  class GoogleSlidesDocument {
    var service: bool
    var presentationId: Option<string>
    var presentation: Option<seq<GSlide>>
    var architectureSlides: Option<seq<ArchitectureSlide>>
    var sentBatches: seq<seq<Request>>

    constructor ()
      ensures !service && presentationId == None && presentation == None
      ensures architectureSlides == None && sentBatches == []
    {
      service := false;
      presentationId := None;
      presentation := None;
      architectureSlides := None;
      sentBatches := [];
    }

    /** The guard of both update methods: a service and a non-empty presentation id. */
    predicate Ready()
      reads this
    {
      service && presentationId.Some? && presentationId.value != ""
    }

    /** `load_presentation`, with the slides the API returns as a parameter; the cached
        scan is kept. */
    method LoadPresentation(id: string, slides: seq<GSlide>)
      modifies this`service, this`presentationId, this`presentation
      ensures service && presentationId == Some(id) && presentation == Some(slides)
    {
      if !service {
        service := true;
      }
      presentationId := Some(id);
      presentation := Some(slides);
    }

    /** `find_architecture_slides`: the cached list when there is one; no slides (and no
        cache) before a presentation is loaded; otherwise a scan of every slide, which is
        cached. */
    method FindArchitectureSlides() returns (r: seq<ArchitectureSlide>)
      modifies this`architectureSlides
      ensures old(architectureSlides).Some? ==> r == old(architectureSlides).value && architectureSlides == old(architectureSlides)
      ensures old(architectureSlides).None? && presentation.None? ==> r == [] && architectureSlides == None
      ensures old(architectureSlides).None? && presentation.Some? ==> architectureSlides == Some(r) && PagesScanned(presentation.value, r)
    {
      if architectureSlides.Some? {
        return architectureSlides.value;
      }
      if presentation.None? {
        return [];
      }
      var slides := presentation.value;
      var result: seq<ArchitectureSlide> := [];
      for idx := 0 to |slides|
        invariant PagesScannedUpTo(slides, result, idx)
      {
        result := ScanNextPage(slides, result, idx);
      }
      architectureSlides := Some(result);
      return result;
    }

    /** `update_placeholder`: nothing is sent without a service or presentation id;
        otherwise one batch with the request pair, and the call's outcome. */
    method UpdatePlaceholder(slideIndex: int, objectId: string, newText: string, succeeded: bool) returns (ok: bool)
      modifies this`sentBatches
      ensures !Ready() ==> !ok && sentBatches == old(sentBatches)
      ensures Ready() ==> ok == succeeded
      ensures Ready() ==> sentBatches == old(sentBatches) + [RequestsFor([(UpdateKey(slideIndex, objectId), newText)])]
    {
      if !Ready() {
        return false;
      }
      var requests := [DeleteText(objectId), InsertText(objectId, 0, newText)];
      ghost var one: Updates := [(UpdateKey(slideIndex, objectId), newText)];
      assert one[..0] == [] && RequestsFor(one) == requests;
      sentBatches := sentBatches + [requests];
      return succeeded;
    }

    /** `update_placeholders_batch`: 0 without a service or presentation id, or with no
        updates; otherwise one batch of all the request pairs, and `len(updates)` when the
        call succeeds, 0 when it raises. */
    method UpdatePlaceholdersBatch(updates: Updates, succeeded: bool) returns (count: nat)
      modifies this`sentBatches
      ensures !Ready() || updates == [] ==> count == 0 && sentBatches == old(sentBatches)
      ensures Ready() && updates != [] ==>
        sentBatches == old(sentBatches) + [RequestsFor(updates)] && count == (if succeeded then |updates| else 0)
      ensures count <= |updates|
    {
      if !Ready() {
        return 0;
      }
      var requests := BuildRequests(updates);
      RequestsPaired(updates);
      if requests == [] {
        return 0;
      }
      sentBatches := sentBatches + [requests];
      count := if succeeded then |updates| else 0;
    }
  }

  // ---------------------------------------------------------------- the agent

  /** `GoogleSlidesAgent._determine_slide_type`: the agent's rules without the vision
      rule, so a vision slide is an architecture diagram here. */
  function GoogleSlideType(title: string): (t: SlideType)
    ensures t == CurrentState <==> Mentions(title, "current")
    ensures t == TargetState <==>
      !Mentions(title, "current") && (Mentions(title, "target") || Mentions(title, "future"))
    ensures t == Timeline <==>
      !Mentions(title, "current") && !Mentions(title, "target") && !Mentions(title, "future")
      && Mentions(title, "timeline")
    ensures t != VisionGoals
    ensures t == if DetermineSlideType(title) == VisionGoals then ArchitectureDiagram else DetermineSlideType(title)
  {
    if Mentions(title, "current") then CurrentState
    else if Mentions(title, "target") || Mentions(title, "future") then TargetState
    else if Mentions(title, "timeline") then Timeline
    else ArchitectureDiagram
  }

  /** The message of the `ValueError` for a reply with no JSON object; it carries no part
      of the reply. */
  const GoogleMappingError := "Could not parse mapping response"

  /** What `create_mapping` returns; the result never has integration patterns. */
  function GoogleMappingOutcome(slide: ArchitectureSlide, components: seq<SystemComponent>,
                                reply: string, decode: string -> Option<MappingReply>): (r: Result<MappingResult, AnalyzerError>)
    ensures r.Ok? <==> ParseReply(reply, decode).Ok?
    ensures r.Ok? ==> r.value.slideIndex == slide.index && r.value.slideTitle == slide.title && r.value.integrationPatterns == []
    ensures ParseReply(reply, decode).Err? && ParseReply(reply, decode).error.NoJsonObject? ==> r == Err(ValueError(GoogleMappingError))
    ensures r.Ok? || ParseReply(reply, decode).error.MalformedJson? ==> r == MappingOutcome(slide, components, [], reply, decode)
  {
    match ParseReply(reply, decode)
    case Err(NoJsonObject(_)) => Err(ValueError(GoogleMappingError))
    case Err(MalformedJson(span)) => Err(JsonDecodeError(span))
    case Ok(Parsed(data, _)) => Ok(Reconciled(slide, components, data.mappings.GetOr([]), []))
  }

  class GoogleSlidesAgent {
    const document: GoogleSlidesDocument

    constructor ()
      ensures fresh(document) && document.architectureSlides == None
    {
      document := new GoogleSlidesDocument();
    }

    /** `create_mapping`; `reply` is the model's answer and `decode` stands for
        `json.loads`. The records are keyed on `object_id`. */
    method CreateMapping(slide: ArchitectureSlide, analysis: ArchitectureAnalysis,
                         reply: string, decode: string -> Option<MappingReply>)
      returns (r: Result<MappingResult, AnalyzerError>)
      ensures r == GoogleMappingOutcome(slide, analysis.components, reply, decode)
    {
      match ParseReply(reply, decode)
      case Err(NoJsonObject(_)) =>
        return Err(ValueError(GoogleMappingError));
      case Err(MalformedJson(span)) =>
        return Err(JsonDecodeError(span));
      case Ok(Parsed(data, _)) =>
        var mappings, unmappedPh, unmappedComp := Reconcile(slide.placeholders, analysis.components, data.mappings.GetOr([]));
        return Ok(MappingResult(slide.index, slide.title, mappings, unmappedPh, unmappedComp, []));
    }

    /** `apply_mapping`: one update per distinct placeholder, the last pair of a name
        winning, sent as one batch. */
    method ApplyMapping(m: MappingResult, succeeded: bool) returns (count: nat)
      modifies document`sentBatches
      ensures var updates := UpdatesFor(m.slideIndex, m.mappings);
        && (!document.Ready() || m.mappings == [] ==> count == 0 && document.sentBatches == old(document.sentBatches))
        && (document.Ready() && m.mappings != [] ==>
              document.sentBatches == old(document.sentBatches) + [RequestsFor(updates)]
              && count == (if succeeded then |updates| else 0))
    {
      var updates := CollectUpdates(m.slideIndex, m.mappings);
      UpdatesNonEmpty(m.slideIndex, m.mappings);
      count := document.UpdatePlaceholdersBatch(updates, succeeded);
    }
  }

  /** The dict of `apply_mapping` is empty exactly when there are no pairs. */
  lemma UpdatesNonEmpty(slideIndex: int, ms: seq<Pair>)
    ensures UpdatesFor(slideIndex, ms) == [] <==> ms == []
  {
  }
}
