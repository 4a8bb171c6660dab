/** The agent of dsd_agent/agent.py: slide classification, `create_mapping` around its
    model call, `apply_mapping`, the slide selection of `populate_slide` and
    `populate_all_slides`, and the row headers of `_format_placeholders` and the lines of
    `get_mapping_summary` as structured lines. */
module Agent {
  import opened Wrappers
  import opened Text
  import opened Sorting
  import opened Responses
  import opened ImageAnalyzer
  import opened IntegrationPatterns
  import opened PptxSlides
  import opened PptxHandler
  import opened Mapping

  // ---------------------------------------------------------------- slide types

  /** The lower-cased title mentions the word. */
  predicate Mentions(title: string, word: string) {
    Contains(Lower(title), word)
  }

  /** `_determine_slide_type`: the first rule that matches the lower-cased title. */
  function DetermineSlideType(title: string): (t: SlideType)
    ensures t == CurrentState <==> Mentions(title, "current")
    ensures t == TargetState <==>
      !Mentions(title, "current") && (Mentions(title, "target") || Mentions(title, "future"))
    ensures t == Timeline <==>
      !Mentions(title, "current") && !Mentions(title, "target") && !Mentions(title, "future")
      && Mentions(title, "timeline")
    ensures t == VisionGoals <==>
      !Mentions(title, "current") && !Mentions(title, "target") && !Mentions(title, "future")
      && !Mentions(title, "timeline") && (Mentions(title, "north star") || Mentions(title, "vision"))
  {
    if Mentions(title, "current") then CurrentState
    else if Mentions(title, "target") || Mentions(title, "future") then TargetState
    else if Mentions(title, "timeline") then Timeline
    else if Mentions(title, "north star") || Mentions(title, "vision") then VisionGoals
    else ArchitectureDiagram
  }

  /** The `slide_type_filter` test of `populate_all_slides`; a missing or empty filter
      keeps every slide. */
  predicate Keeps(filter: Option<string>, t: SlideType) {
    filter.None? || filter.value == [] || Contains(Lower(TypeName(t)), Lower(filter.value))
  }

  lemma LowerTwice(s: string)
    ensures Lower(Lower(s)) == Lower(s)
  {
  }

  /** The test ignores case: a filter and its lower-cased form keep the same slides. */
  lemma KeepsIgnoresCase(f: string, t: SlideType)
    ensures Keeps(Some(f), t) <==> Keeps(Some(Lower(f)), t)
  {
    LowerTwice(f);
  }

  /** A type's own name, as the filter, keeps the slides of that type. */
  lemma KeepsOwnName(t: SlideType)
    ensures Keeps(Some(TypeName(t)), t)
  {
    var s := Lower(TypeName(t));
    assert OccursAt(s, s, 0);
    ContainsAt(s, s, 0);
  }

  /** The test a slide of the document must pass to be mapped. */
  function KeepSlide(filter: Option<string>): ArchitectureSlide -> bool {
    (s: ArchitectureSlide) => Keeps(filter, DetermineSlideType(s.title))
  }

  /** The architecture slides `populate_all_slides` maps, in document order. */
  function SelectedSlides(slides: seq<ArchitectureSlide>, filter: Option<string>): seq<ArchitectureSlide> {
    Filter(slides, KeepSlide(filter))
  }

  /** The selection keeps exactly the slides whose type passes the filter, and all of them
      without a filter. */
  lemma SelectedExact(slides: seq<ArchitectureSlide>, filter: Option<string>)
    ensures forall s :: s in SelectedSlides(slides, filter) <==> s in slides && Keeps(filter, DetermineSlideType(s.title))
    ensures filter.None? ==> SelectedSlides(slides, filter) == slides
  {
    FilterKeeps(slides, KeepSlide(filter));
    if filter.None? {
      FilterAll(slides, KeepSlide(filter));
    }
  }

  lemma {:induction false} FilterAll<T>(s: seq<T>, keep: T -> bool)
    requires forall k :: 0 <= k < |s| ==> keep(s[k])
    ensures Filter(s, keep) == s
  {
    if s != [] {
      FilterAll(s[..|s| - 1], keep);
    }
  }

  lemma {:induction false} FilterAppend<T>(a: seq<T>, b: seq<T>, keep: T -> bool)
    ensures Filter(a + b, keep) == Filter(a, keep) + Filter(b, keep)
    decreases |b|
  {
    if b != [] {
      var init := b[..|b| - 1];
      assert (a + b)[..|a + b| - 1] == a + init;
      assert (a + b)[|a + b| - 1] == b[|b| - 1];
      FilterAppend(a, init, keep);
    } else {
      assert a + b == a;
    }
  }

  // ---------------------------------------------------------------- create_mapping

  /** What the agent's methods raise. */
  datatype AgentError = NoDocumentLoaded | SlideNotFound(slideNumber: int) | ParseError(cause: AnalyzerError)

  const MappingErrorPrefix: string := "Could not parse mapping response: "

  /** The patterns `create_mapping` attaches: those of the last integration analysis, when
      asked to include them. */
  function PatternsFor(includePatterns: bool, last: Option<IntegrationAnalysis>): (ps: seq<IntegrationPattern>)
    ensures !includePatterns || last.None? ==> ps == []
    ensures includePatterns && last.Some? ==> ps == last.value.patterns
  {
    if includePatterns && last.Some? then last.value.patterns else []
  }

  /** What `create_mapping` returns for a model reply that `decode` reads as JSON. */
  function MappingOutcome(slide: ArchitectureSlide, components: seq<SystemComponent>, patterns: seq<IntegrationPattern>,
                          reply: string, decode: string -> Option<MappingReply>): (r: Result<MappingResult, AnalyzerError>)
    ensures r.Ok? <==> ParseReply(reply, decode).Ok?
    ensures r.Ok? ==> r.value.slideIndex == slide.index && r.value.slideTitle == slide.title && r.value.integrationPatterns == patterns
    ensures ParseReply(reply, decode) == Err(NoJsonObject(StripFences(reply))) ==>
      r == Err(ValueError(ErrorWithText(MappingErrorPrefix, StripFences(reply))))
    ensures ParseReply(reply, decode) == Err(MalformedJson(BraceSpan(reply))) ==> r == Err(JsonDecodeError(BraceSpan(reply)))
  {
    match ParseReply(reply, decode)
    case Err(NoJsonObject(text)) => Err(ValueError(ErrorWithText(MappingErrorPrefix, text)))
    case Err(MalformedJson(span)) => Err(JsonDecodeError(span))
    case Ok(Parsed(data, _)) => Ok(Reconciled(slide, components, data.mappings.GetOr([]), patterns))
  }

  /** A model reply naming nothing on the slide leaves every placeholder and every
      component unmapped. */
  lemma NothingAccepted(slide: ArchitectureSlide, components: seq<SystemComponent>, records: seq<MappingRecord>,
                        patterns: seq<IntegrationPattern>)
    requires forall k :: 0 <= k < |records| ==> !Accepted(slide.placeholders, records[k])
    ensures Reconciled(slide, components, records, patterns).mappings == []
    ensures Reconciled(slide, components, records, patterns).unmappedPlaceholders == slide.placeholders
    ensures Reconciled(slide, components, records, patterns).unmappedComponents == components
  {
    var phs := slide.placeholders;
    OnePairPerRecord(phs, components, records);
    AcceptedRecordsExact(phs, records);
    if AcceptedRecords(phs, records) != [] {
      var m := AcceptedRecords(phs, records)[0];
      assert m in AcceptedRecords(phs, records);
    }
    NoneMapped(phs, components, records);
    FilterOutNothing(phs, ShapeNameOf);
    FilterOutNothing(components, ComponentNameOf);
  }

  lemma {:induction false} NoneMapped(phs: seq<Placeholder>, cs: seq<SystemComponent>, rs: seq<MappingRecord>)
    requires forall k :: 0 <= k < |rs| ==> !Accepted(phs, rs[k])
    ensures MappedShapes(phs, rs) == {} && MappedComponents(phs, cs, rs) == {}
  {
    if rs != [] {
      NoneMapped(phs, cs, rs[..|rs| - 1]);
    }
  }

  lemma {:induction false} FilterOutNothing<T>(s: seq<T>, key: T -> string)
    ensures FilterOut(s, key, {}) == s
  {
    if s != [] {
      FilterOutNothing(s[..|s| - 1], key);
    }
  }

  /** The position of the first architecture slide with the index. */
  function FirstWithIndex(slides: seq<ArchitectureSlide>, slideIndex: int): (r: Option<nat>)
    ensures r.Some? ==>
      r.value < |slides| && slides[r.value].index == slideIndex && forall k :: 0 <= k < r.value ==> slides[k].index != slideIndex
    ensures r.None? ==> forall k :: 0 <= k < |slides| ==> slides[k].index != slideIndex
  {
    if slides == [] then None
    else if slides[0].index == slideIndex then Some(0)
    else match FirstWithIndex(slides[1..], slideIndex)
      case Some(k) => Some(k + 1)
      case None => None
  }

  /** What `populate_slide` returns, given the document's architecture slides. */
  function SlideOutcome(slides: seq<ArchitectureSlide>, slideIndex: int, components: seq<SystemComponent>,
                        patterns: seq<IntegrationPattern>, reply: string, decode: string -> Option<MappingReply>)
    : (r: Result<MappingResult, AgentError>)
    ensures FirstWithIndex(slides, slideIndex).None? <==> r == Err(SlideNotFound(slideIndex + 1))
    ensures r.Ok? ==> r.value.slideIndex == slideIndex
  {
    match FirstWithIndex(slides, slideIndex)
    case None => Err(SlideNotFound(slideIndex + 1))
    case Some(k) =>
      match MappingOutcome(slides[k], components, patterns, reply, decode)
      case Ok(m) => Ok(m)
      case Err(e) => Err(ParseError(e))
  }

  /** The results of `populate_all_slides` up to the first slide whose mapping raised. */
  datatype Run = Run(done: seq<MappingResult>, failure: Option<AnalyzerError>)

  /** Going through the outcomes in order, stopping at the first failure. */
  function RunAll(outcomes: seq<Result<MappingResult, AnalyzerError>>): (run: Run)
    ensures |run.done| <= |outcomes|
    ensures forall k :: 0 <= k < |run.done| ==> outcomes[k] == Ok(run.done[k])
    ensures run.failure.None? ==> |run.done| == |outcomes|
    ensures run.failure.Some? ==> |run.done| < |outcomes| && outcomes[|run.done|] == Err(run.failure.value)
  {
    if outcomes == [] then Run([], None)
    else
      var prev := RunAll(outcomes[..|outcomes| - 1]);
      if prev.failure.Some? then prev
      else
        match outcomes[|outcomes| - 1]
        case Ok(m) => Run(prev.done + [m], None)
        case Err(e) => Run(prev.done, Some(e))
  }

  /** Outcomes after a failure never change the run. */
  lemma {:induction false} RunStops(a: seq<Result<MappingResult, AnalyzerError>>, b: seq<Result<MappingResult, AnalyzerError>>)
    requires RunAll(a).failure.Some?
    ensures RunAll(a + b) == RunAll(a)
    decreases |b|
  {
    if b != [] {
      var init := b[..|b| - 1];
      assert (a + b)[..|a + b| - 1] == a + init;
      RunStops(a, init);
    } else {
      assert a + b == a;
    }
  }

  /** The mapping of one selected slide, with the model's reply for that slide. */
  function MapSlide(components: seq<SystemComponent>, patterns: seq<IntegrationPattern>, replyFor: int -> string,
                    decode: string -> Option<MappingReply>): ArchitectureSlide -> Result<MappingResult, AnalyzerError>
  {
    (s: ArchitectureSlide) => MappingOutcome(s, components, patterns, replyFor(s.index), decode)
  }

  /** A slide the filter rejects adds no outcome. */
  lemma SkipStep(slides: seq<ArchitectureSlide>, i: nat, keep: ArchitectureSlide -> bool,
                 f: ArchitectureSlide -> Result<MappingResult, AnalyzerError>)
    requires i < |slides| && !keep(slides[i])
    ensures MapSeq(Filter(slides[..i + 1], keep), f) == MapSeq(Filter(slides[..i], keep), f)
  {
    assert slides[..i + 1][..i] == slides[..i];
  }

  /** A slide the filter keeps adds its outcome at the end. */
  lemma TakeStep(slides: seq<ArchitectureSlide>, i: nat, keep: ArchitectureSlide -> bool,
                 f: ArchitectureSlide -> Result<MappingResult, AnalyzerError>)
    requires i < |slides| && keep(slides[i])
    ensures MapSeq(Filter(slides[..i + 1], keep), f) == MapSeq(Filter(slides[..i], keep), f) + [f(slides[i])]
  {
    assert slides[..i + 1][..i] == slides[..i];
    MapAppend(Filter(slides[..i], keep), [slides[i]], f);
  }

  /** A kept slide whose mapping succeeds extends the run. */
  lemma RunStep(outs: seq<Result<MappingResult, AnalyzerError>>, done: seq<MappingResult>, m: MappingResult)
    requires RunAll(outs) == Run(done, None)
    ensures RunAll(outs + [Ok(m)]) == Run(done + [m], None)
  {
    assert (outs + [Ok(m)])[..|outs|] == outs;
  }

  /** A kept slide whose mapping fails ends the run there, whatever comes after it. */
  lemma FailStep(slides: seq<ArchitectureSlide>, i: nat, keep: ArchitectureSlide -> bool,
                 f: ArchitectureSlide -> Result<MappingResult, AnalyzerError>, done: seq<MappingResult>)
    requires i < |slides| && keep(slides[i]) && f(slides[i]).Err?
    requires RunAll(MapSeq(Filter(slides[..i], keep), f)) == Run(done, None)
    ensures RunAll(MapSeq(Filter(slides, keep), f)) == Run(done, Some(f(slides[i]).error))
  {
    var pre := MapSeq(Filter(slides[..i], keep), f);
    var outs := pre + [f(slides[i])];
    var rest := MapSeq(Filter(slides[i + 1..], keep), f);
    RunFails(pre, done, f(slides[i]).error);
    RunStops(outs, rest);
    SplitAt(slides, i, keep, f);
  }

  lemma RunFails(pre: seq<Result<MappingResult, AnalyzerError>>, done: seq<MappingResult>, e: AnalyzerError)
    requires RunAll(pre) == Run(done, None)
    ensures RunAll(pre + [Err(e)]) == Run(done, Some(e))
  {
    assert (pre + [Err(e)])[..|pre|] == pre;
  }

  /** The outcomes of the whole document split at a kept slide. */
  lemma SplitAt(slides: seq<ArchitectureSlide>, i: nat, keep: ArchitectureSlide -> bool,
                f: ArchitectureSlide -> Result<MappingResult, AnalyzerError>)
    requires i < |slides| && keep(slides[i])
    ensures MapSeq(Filter(slides, keep), f)
      == MapSeq(Filter(slides[..i], keep), f) + [f(slides[i])] + MapSeq(Filter(slides[i + 1..], keep), f)
  {
    FilterSplit(slides, i, keep);
    MapSplit(Filter(slides[..i], keep), slides[i], Filter(slides[i + 1..], keep), f);
  }

  lemma {:induction false} FilterSplit<T>(s: seq<T>, i: nat, keep: T -> bool)
    requires i < |s| && keep(s[i])
    ensures Filter(s, keep) == Filter(s[..i], keep) + [s[i]] + Filter(s[i + 1..], keep)
  {
    assert s[..i + 1][..i] == s[..i];
    assert Filter(s[..i + 1], keep) == Filter(s[..i], keep) + [s[i]];
    FilterAppend(s[..i + 1], s[i + 1..], keep);
    assert s[..i + 1] + s[i + 1..] == s;
  }

  lemma MapSplit<A, B>(a: seq<A>, x: A, b: seq<A>, f: A -> B)
    ensures MapSeq(a + [x] + b, f) == MapSeq(a, f) + [f(x)] + MapSeq(b, f)
  {
    MapAppend(a, [x], f);
    MapAppend(a + [x], b, f);
  }

  /** The document after applying the results in order. */
  function ApplyAll(slides: seq<Slide>, results: seq<MappingResult>): seq<Slide> {
    if results == [] then slides
    else
      var m := results[|results| - 1];
      ApplyUpdates(ApplyAll(slides, results[..|results| - 1]), UpdatesFor(m.slideIndex, m.mappings))
  }

  lemma ApplyStep(slides: seq<Slide>, results: seq<MappingResult>, m: MappingResult)
    ensures ApplyAll(slides, results + [m]) == ApplyUpdates(ApplyAll(slides, results), UpdatesFor(m.slideIndex, m.mappings))
  {
    assert (results + [m])[..|results|] == results;
  }

  class DSDAgent {
    var document: DSDDocument?
    var lastIntegrationAnalysis: Option<IntegrationAnalysis>

    constructor (document: DSDDocument?)
      ensures this.document == document && lastIntegrationAnalysis == None
    {
      this.document := document;
      lastIntegrationAnalysis := None;
    }

    /** `create_mapping`; `reply` is the model's answer and `decode` stands for `json.loads`. */
    method CreateMapping(slide: ArchitectureSlide, analysis: ArchitectureAnalysis, includePatterns: bool,
                         reply: string, decode: string -> Option<MappingReply>)
      returns (r: Result<MappingResult, AnalyzerError>)
      ensures r == MappingOutcome(slide, analysis.components, PatternsFor(includePatterns, lastIntegrationAnalysis), reply, decode)
    {
      var detected: seq<IntegrationPattern> := [];
      if includePatterns && lastIntegrationAnalysis.Some? {
        var patterns := lastIntegrationAnalysis.value.patterns;
        if patterns != [] {
          detected := patterns;
        }
      }
      match ParseReply(reply, decode)
      case Err(NoJsonObject(text)) =>
        return Err(ValueError(ErrorWithText(MappingErrorPrefix, text)));
      case Err(MalformedJson(span)) =>
        return Err(JsonDecodeError(span));
      case Ok(Parsed(data, _)) =>
        var mappings, unmappedPh, unmappedComp := Reconcile(slide.placeholders, analysis.components, data.mappings.GetOr([]));
        return Ok(MappingResult(slide.index, slide.title, mappings, unmappedPh, unmappedComp, detected));
    }

    /** `apply_mapping`: one update per distinct placeholder, the last pair of a name
        winning, and the number of updates that found a shape. */
    method ApplyMapping(m: MappingResult) returns (r: Result<nat, AgentError>)
      modifies document
      ensures document == null ==> r == Err(NoDocumentLoaded)
      ensures document != null ==>
        && document.slides == ApplyUpdates(old(document.slides), UpdatesFor(m.slideIndex, m.mappings))
        && r == Ok(CountApplicable(old(document.slides), UpdatesFor(m.slideIndex, m.mappings)))
        && document.architectureSlides == old(document.architectureSlides)
    {
      if document == null {
        return Err(NoDocumentLoaded);
      }
      var updates := CollectUpdates(m.slideIndex, m.mappings);
      var n := document.UpdatePlaceholdersBatch(updates);
      return Ok(n);
    }

    /** `populate_slide`: maps the first architecture slide with the index, applying the
        result unless `dryRun`. */
    method PopulateSlide(slideIndex: int, analysis: ArchitectureAnalysis, dryRun: bool,
                         reply: string, decode: string -> Option<MappingReply>)
      returns (r: Result<MappingResult, AgentError>)
      modifies document
      ensures document == null ==> r == Err(NoDocumentLoaded)
      ensures document != null ==>
        && document.architectureSlides.Some?
        && (old(document.architectureSlides).Some? ==> document.architectureSlides == old(document.architectureSlides))
        && (old(document.architectureSlides).None? ==> ListedByScan(old(document.slides), document.architectureSlides.value))
        && r == SlideOutcome(document.architectureSlides.value, slideIndex, analysis.components,
                             PatternsFor(true, lastIntegrationAnalysis), reply, decode)
        && document.slides == if r.Ok? && !dryRun
                              then ApplyUpdates(old(document.slides), UpdatesFor(slideIndex, r.value.mappings))
                              else old(document.slides)
    {
      if document == null {
        return Err(NoDocumentLoaded);
      }
      var slides := document.FindArchitectureSlides();
      var target: Option<nat> := None;
      for i := 0 to |slides|
        invariant target.None? ==> forall k :: 0 <= k < i ==> slides[k].index != slideIndex
        invariant target.Some? ==> target == FirstWithIndex(slides, slideIndex)
      {
        if target.None? && slides[i].index == slideIndex {
          target := Some(i);
        }
      }
      if target.None? {
        return Err(SlideNotFound(slideIndex + 1));
      }
      var mapping := CreateMapping(slides[target.value], analysis, true, reply, decode);
      if mapping.Err? {
        return Err(ParseError(mapping.error));
      }
      if !dryRun {
        var _ := ApplyMapping(mapping.value);
      }
      return Ok(mapping.value);
    }

    /** `populate_all_slides`: maps, in order, every architecture slide whose type passes
        the filter, applying each result unless `dryRun`; the first mapping that raises
        ends the run with the earlier results applied. */
    method PopulateAllSlides(analysis: ArchitectureAnalysis, filter: Option<string>, dryRun: bool,
                             replyFor: int -> string, decode: string -> Option<MappingReply>)
      returns (r: Result<seq<MappingResult>, AgentError>)
      modifies document
      ensures document == null ==> r == Err(NoDocumentLoaded)
      ensures document != null ==>
        && document.architectureSlides.Some?
        && (old(document.architectureSlides).Some? ==> document.architectureSlides == old(document.architectureSlides))
        && var run := RunAll(MapSeq(SelectedSlides(document.architectureSlides.value, filter),
                                    MapSlide(analysis.components, PatternsFor(true, lastIntegrationAnalysis), replyFor, decode)));
           && r == (if run.failure.Some? then Err(ParseError(run.failure.value)) else Ok(run.done))
           && document.slides == if dryRun then old(document.slides) else ApplyAll(old(document.slides), run.done)
      ensures document != null && old(document.architectureSlides).None? ==>
        document.architectureSlides.Some? && ListedByScan(old(document.slides), document.architectureSlides.value)
    {
      if document == null {
        return Err(NoDocumentLoaded);
      }
      var slides := document.FindArchitectureSlides();
      ghost var keep := KeepSlide(filter);
      ghost var mapSlide := MapSlide(analysis.components, PatternsFor(true, lastIntegrationAnalysis), replyFor, decode);
      ghost var before := document.slides;
      var results: seq<MappingResult> := [];
      for i := 0 to |slides|
        invariant document.architectureSlides == Some(slides)
        invariant RunAll(MapSeq(Filter(slides[..i], keep), mapSlide)) == Run(results, None)
        invariant document.slides == if dryRun then before else ApplyAll(before, results)
      {
        var slide := slides[i];
        if !Keeps(filter, DetermineSlideType(slide.title)) {
          SkipStep(slides, i, keep, mapSlide);
          continue;
        }
        TakeStep(slides, i, keep, mapSlide);
        var mapping := CreateMapping(slide, analysis, true, replyFor(slide.index), decode);
        if mapping.Err? {
          FailStep(slides, i, keep, mapSlide, results);
          return Err(ParseError(mapping.error));
        }
        RunStep(MapSeq(Filter(slides[..i], keep), mapSlide), results, mapping.value);
        if !dryRun {
          var _ := ApplyMapping(mapping.value);
          ApplyStep(before, results, mapping.value);
        }
        results := results + [mapping.value];
      }
      assert slides[..|slides|] == slides;
      return Ok(results);
    }
  }

  // ---------------------------------------------------------------- prompt and summary text

  /** A line of `_format_placeholders`: a row header (`Row n:`) or a placeholder with its
      position and size. */
  datatype PromptLine = RowHeader(rowNumber: int) | PlaceholderLine(info: PlaceholderInfo)

  /** The lines for placeholders with these row groups, when the current row is `current`:
      a header precedes every placeholder whose row differs from the one before it. */
  function PromptLines(rows: seq<int>, infos: seq<PlaceholderInfo>, current: int): seq<PromptLine>
    requires |rows| == |infos|
  {
    if rows == [] then []
    else LinesFor(rows[0], infos[0], current) + PromptLines(rows[1..], infos[1..], rows[0])
  }

  /** The lines of one placeholder: a header when its row is not the current one, then the
      placeholder itself. */
  function LinesFor(row: int, info: PlaceholderInfo, current: int): seq<PromptLine> {
    (if row != current then [RowHeader(row + 1)] else []) + [PlaceholderLine(info)]
  }

  /** The lines of the placeholders from the `i`-th on: those of the `i`-th, then the
      rest. */
  lemma PromptStep(rows: seq<int>, infos: seq<PlaceholderInfo>, i: nat, current: int)
    requires |rows| == |infos| && i < |rows|
    ensures PromptLines(rows[i..], infos[i..], current)
      == LinesFor(rows[i], infos[i], current) + PromptLines(rows[i + 1..], infos[i + 1..], rows[i])
  {
    assert rows[i..][1..] == rows[i + 1..] && infos[i..][1..] == infos[i + 1..];
  }

  /** Emitting the lines of the `i`-th placeholder keeps the loop's invariant. */
  lemma PromptAdvance(lines: seq<PromptLine>, rows: seq<int>, infos: seq<PlaceholderInfo>, i: nat, current: int)
    requires |rows| == |infos| && i < |rows|
    requires lines + PromptLines(rows[i..], infos[i..], current) == PromptLines(rows, infos, -1)
    ensures (lines + LinesFor(rows[i], infos[i], current)) + PromptLines(rows[i + 1..], infos[i + 1..], rows[i])
      == PromptLines(rows, infos, -1)
  {
    PromptStep(rows, infos, i, current);
  }

  /** `_format_placeholders`, before the lines are joined. */
  method FormatPlaceholders(placeholders: seq<Placeholder>) returns (lines: seq<PromptLine>)
    ensures lines == PromptLines(RowGroupsOf(placeholders), Infos(placeholders), -1)
  {
    var rows, infos := RowGroupsOf(placeholders), Infos(placeholders);
    lines := [];
    var current := -1;
    for i := 0 to |placeholders|
      invariant lines + PromptLines(rows[i..], infos[i..], current) == PromptLines(rows, infos, -1)
    {
      var ph := placeholders[i];
      assert rows[i] == ph.rowGroup && infos[i] == InfoOf(ph);
      ghost var start, before := lines, current;
      if ph.rowGroup != current {
        current := ph.rowGroup;
        lines := lines + [RowHeader(current + 1)];
      }
      lines := lines + [PlaceholderLine(InfoOf(ph))];
      assert lines == start + LinesFor(rows[i], infos[i], before);
      PromptAdvance(start, rows, infos, i, before);
    }
    assert rows[|placeholders|..] == [];
  }

  /** The placeholders the lines list, in order. */
  function Listed(lines: seq<PromptLine>): seq<PlaceholderInfo> {
    if lines == [] then []
    else (if lines[0].PlaceholderLine? then [lines[0].info] else []) + Listed(lines[1..])
  }

  /** The row numbers of the header lines, in order. */
  function Headers(lines: seq<PromptLine>): seq<int> {
    if lines == [] then []
    else (if lines[0].RowHeader? then [lines[0].rowNumber] else []) + Headers(lines[1..])
  }

  lemma {:induction false} ListedAppend(a: seq<PromptLine>, b: seq<PromptLine>)
    ensures Listed(a + b) == Listed(a) + Listed(b) && Headers(a + b) == Headers(a) + Headers(b)
  {
    if a != [] {
      assert (a + b)[0] == a[0];
      assert (a + b)[1..] == a[1..] + b;
      ListedAppend(a[1..], b);
    } else {
      assert a + b == b;
    }
  }

  /** The first lines for a placeholder: its header, when its row is new, then the
      placeholder itself. */
  lemma FirstLines(rows: seq<int>, infos: seq<PlaceholderInfo>, current: int)
    requires |rows| == |infos| && rows != []
    ensures var tail := PromptLines(rows[1..], infos[1..], rows[0]);
      && Listed(PromptLines(rows, infos, current)) == [infos[0]] + Listed(tail)
      && Headers(PromptLines(rows, infos, current)) == (if rows[0] != current then [rows[0] + 1] else []) + Headers(tail)
  {
    var line := [PlaceholderLine(infos[0])];
    var tail := PromptLines(rows[1..], infos[1..], rows[0]);
    var lines := PromptLines(rows, infos, current);
    assert Listed(line) == [infos[0]] && Headers(line) == [] by {
      assert line[1..] == [];
    }
    if rows[0] != current {
      var header := [RowHeader(rows[0] + 1)];
      assert Listed(header) == [] && Headers(header) == [rows[0] + 1] by {
        assert header[1..] == [];
      }
      assert lines == (header + line) + tail;
      ListedAppend(header, line);
      ListedAppend(header + line, tail);
    } else {
      assert lines == line + tail;
      ListedAppend(line, tail);
    }
  }

  /** Every placeholder is listed once, in order. */
  lemma {:induction false} PromptListsAll(rows: seq<int>, infos: seq<PlaceholderInfo>, current: int)
    requires |rows| == |infos|
    ensures Listed(PromptLines(rows, infos, current)) == infos
  {
    if rows != [] {
      FirstLines(rows, infos, current);
      PromptListsAll(rows[1..], infos[1..], rows[0]);
      assert infos == [infos[0]] + infos[1..];
    }
  }

  predicate Ascending(rows: seq<int>) {
    forall i, j :: 0 <= i <= j < |rows| ==> rows[i] <= rows[j]
  }

  /** The rows after the first still ascend, and none is below the first. */
  lemma AscendingTail(rows: seq<int>)
    requires Ascending(rows) && rows != []
    ensures Ascending(rows[1..])
    ensures forall i :: 0 <= i < |rows| ==> rows[0] <= rows[i]
  {
    var rest := rows[1..];
    forall i, j | 0 <= i <= j < |rest| ensures rest[i] <= rest[j] {
      assert rest[i] == rows[i + 1] && rest[j] == rows[j + 1];
    }
  }

  /** When the rows ascend from `current`, as they do after the row-then-left sort, the
      headers are exactly the rows other than `current`, numbered from 1. */
  lemma {:induction false} HeadersExact(rows: seq<int>, infos: seq<PlaceholderInfo>, current: int)
    requires |rows| == |infos| && Ascending(rows) && (rows != [] ==> current <= rows[0])
    ensures forall h :: h in Headers(PromptLines(rows, infos, current)) <==>
      exists i :: 0 <= i < |rows| && rows[i] != current && h == rows[i] + 1
  {
    if rows != [] {
      var rest := rows[1..];
      AscendingTail(rows);
      FirstLines(rows, infos, current);
      HeadersExact(rest, infos[1..], rows[0]);
      HeadersCons(rows, current, Headers(PromptLines(rest, infos[1..], rows[0])), Headers(PromptLines(rows, infos, current)));
    }
  }

  /** The header step on plain sequences: given the headers `ht` of the rows after the
      first (taken with the first row as current), prepending the first row's header when
      it differs from `current` gives a header for exactly the rows that differ from
      `current`. */
  lemma HeadersCons(rows: seq<int>, current: int, ht: seq<int>, hs: seq<int>)
    requires rows != [] && current <= rows[0] && forall i :: 0 <= i < |rows| ==> rows[0] <= rows[i]
    requires forall h :: h in ht <==> exists i :: 0 <= i < |rows[1..]| && rows[1..][i] != rows[0] && h == rows[1..][i] + 1
    requires hs == (if rows[0] != current then [rows[0] + 1] else []) + ht
    ensures forall h :: h in hs <==> exists i :: 0 <= i < |rows| && rows[i] != current && h == rows[i] + 1
  {
    var rest := rows[1..];
    // every header comes from a row that differs from the current one
    forall h | h in hs ensures exists i :: 0 <= i < |rows| && rows[i] != current && h == rows[i] + 1 {
      if h !in ht {
        assert rows[0] != current && h == rows[0] + 1;
      } else {
        var i :| 0 <= i < |rest| && rest[i] != rows[0] && h == rest[i] + 1;
        assert rows[i + 1] == rest[i] && rows[0] <= rows[i + 1];
      }
    }
    // every such row has its header
    forall h, i | 0 <= i < |rows| && rows[i] != current && h == rows[i] + 1 ensures h in hs {
      if 0 < i && rows[i] != rows[0] {
        assert rest[i - 1] == rows[i];
        assert h in ht;
      }
    }
  }

  /** Every header is above the current row. */
  lemma HeadersAbove(rows: seq<int>, infos: seq<PlaceholderInfo>, current: int)
    requires |rows| == |infos| && Ascending(rows) && (rows != [] ==> current <= rows[0])
    ensures forall h :: h in Headers(PromptLines(rows, infos, current)) ==> current + 1 < h
  {
    HeadersExact(rows, infos, current);
    forall h | h in Headers(PromptLines(rows, infos, current)) ensures current + 1 < h {
      var i :| 0 <= i < |rows| && rows[i] != current && h == rows[i] + 1;
      assert rows[0] <= rows[i];
    }
  }

  /** Under the same conditions the headers ascend strictly, so each row gets a single
      header. */
  lemma {:induction false} HeadersAscend(rows: seq<int>, infos: seq<PlaceholderInfo>, current: int)
    requires |rows| == |infos| && Ascending(rows) && (rows != [] ==> current <= rows[0])
    ensures var hs := Headers(PromptLines(rows, infos, current));
      forall i, j :: 0 <= i < j < |hs| ==> hs[i] < hs[j]
  {
    if rows != [] {
      var rest := rows[1..];
      AscendingTail(rows);
      FirstLines(rows, infos, current);
      HeadersAscend(rest, infos[1..], rows[0]);
      HeadersAbove(rest, infos[1..], rows[0]);
      var ht := Headers(PromptLines(rest, infos[1..], rows[0]));
      var hs := Headers(PromptLines(rows, infos, current));
      if rows[0] != current {
        assert hs == [rows[0] + 1] + ht;
        forall i, j | 0 <= i < j < |hs| ensures hs[i] < hs[j] {
          assert hs[j] == ht[j - 1] && ht[j - 1] in ht;
          if 0 < i {
            assert hs[i] == ht[i - 1];
          }
        }
      }
    }
  }

  /** `_format_placeholders` on a slide's sorted placeholders: one header per row, each
      followed by that row's placeholders. */
  lemma FormattedRows(rows: seq<int>, infos: seq<PlaceholderInfo>)
    requires |rows| == |infos| && Ascending(rows) && forall i :: 0 <= i < |rows| ==> 0 <= rows[i]
    ensures Listed(PromptLines(rows, infos, -1)) == infos
    ensures var hs := Headers(PromptLines(rows, infos, -1));
      && (forall i, j :: 0 <= i < j < |hs| ==> hs[i] < hs[j])
      && (forall h :: h in hs <==> exists i :: 0 <= i < |rows| && h == rows[i] + 1)
  {
    PromptListsAll(rows, infos, -1);
    HeadersExact(rows, infos, -1);
    HeadersAscend(rows, infos, -1);
  }

  /** A line of `get_mapping_summary`. */
  datatype MappingLine =
    | SlideLine(number: int, title: string)
    | MappedCount(count: nat)
    | PairLine(componentName: string, shapeTail: string)
    | UnmappedCount(count: nat)
    | UnusedCount(count: nat)
    | UnusedName(name: string)
    | MoreUnused(count: nat)

  /** A pair's line shows the component and the last 15 characters of the shape name. */
  function PairLineOf(pr: Pair): MappingLine {
    PairLine(pr.1.name, TakeLast(pr.0.shapeName, 15))
  }

  function UnusedLineOf(c: SystemComponent): MappingLine {
    UnusedName(c.name)
  }

  /** At most the first five unused components are named. */
  function Shown(cs: seq<SystemComponent>): seq<SystemComponent> {
    if |cs| <= 5 then cs else cs[..5]
  }

  /** The lines about the unused components. */
  function UnusedLines(cs: seq<SystemComponent>): seq<MappingLine> {
    if cs == [] then []
    else [UnusedCount(|cs|)] + MapSeq(Shown(cs), UnusedLineOf) + (if |cs| > 5 then [MoreUnused(|cs| - 5)] else [])
  }

  /** The lines of `get_mapping_summary`. */
  function MappingSummaryLines(r: MappingResult): seq<MappingLine> {
    [SlideLine(r.slideIndex + 1, r.slideTitle), MappedCount(|r.mappings|)]
    + MapSeq(r.mappings, PairLineOf)
    + (if r.unmappedPlaceholders != [] then [UnmappedCount(|r.unmappedPlaceholders|)] else [])
    + UnusedLines(r.unmappedComponents)
  }

  /** The loop over the pairs. */
  method PairLines(ms: seq<Pair>) returns (lines: seq<MappingLine>)
    ensures lines == MapSeq(ms, PairLineOf)
  {
    lines := [];
    for i := 0 to |ms|
      invariant lines == MapSeq(ms[..i], PairLineOf)
    {
      MapSnoc(ms, i, PairLineOf);
      lines := lines + [PairLineOf(ms[i])];
    }
    assert ms[..|ms|] == ms;
  }

  /** The lines about the unused components, with their loop. */
  method UnusedSummary(cs: seq<SystemComponent>) returns (lines: seq<MappingLine>)
    ensures lines == UnusedLines(cs)
  {
    if cs == [] {
      return [];
    }
    var shown := Shown(cs);
    var names: seq<MappingLine> := [];
    for i := 0 to |shown|
      invariant names == MapSeq(shown[..i], UnusedLineOf)
    {
      MapSnoc(shown, i, UnusedLineOf);
      names := names + [UnusedName(shown[i].name)];
    }
    assert shown[..|shown|] == shown;
    lines := [UnusedCount(|cs|)] + names;
    if |cs| > 5 {
      lines := lines + [MoreUnused(|cs| - 5)];
    }
  }

  /** `get_mapping_summary`, before the lines are joined. */
  method GetMappingSummary(r: MappingResult) returns (lines: seq<MappingLine>)
    ensures lines == MappingSummaryLines(r)
  {
    var pairs := PairLines(r.mappings);
    lines := [SlideLine(r.slideIndex + 1, r.slideTitle), MappedCount(|r.mappings|)] + pairs;
    if r.unmappedPlaceholders != [] {
      lines := lines + [UnmappedCount(|r.unmappedPlaceholders|)];
    }
    var unused := UnusedSummary(r.unmappedComponents);
    lines := lines + unused;
  }

  /** Each pair has a line with its component's name and the end of its shape name, at
      most 15 characters long. */
  lemma PairLinesShape(ms: seq<Pair>)
    ensures |MapSeq(ms, PairLineOf)| == |ms|
    ensures forall k :: 0 <= k < |ms| ==>
      var line := MapSeq(ms, PairLineOf)[k];
      var name := ms[k].0.shapeName;
      && line.PairLine? && line.componentName == ms[k].1.name
      && |line.shapeTail| == (if |name| < 15 then |name| else 15)
      && line.shapeTail == name[|name| - |line.shapeTail|..]
  {
  }

  /** Every unused component is accounted for: at most the first five are named, and a
      final line counts the others. */
  lemma UnusedLinesShape(cs: seq<SystemComponent>)
    ensures cs == [] <==> UnusedLines(cs) == []
    ensures cs != [] ==> UnusedLines(cs)[0] == UnusedCount(|cs|)
    ensures |cs| <= 5 ==> |UnusedLines(cs)| == (if cs == [] then 0 else 1 + |cs|)
    ensures |cs| > 5 ==> |UnusedLines(cs)| == 7 && UnusedLines(cs)[6] == MoreUnused(|cs| - 5)
    ensures forall k :: 0 <= k < |cs| && k < 5 ==> UnusedLines(cs)[k + 1] == UnusedName(cs[k].name)
  {
    if cs != [] {
      var shown := Shown(cs);
      var names := MapSeq(shown, UnusedLineOf);
      var more: seq<MappingLine> := if |cs| > 5 then [MoreUnused(|cs| - 5)] else [];
      assert |shown| == if |cs| <= 5 then |cs| else 5;
      assert UnusedLines(cs) == [UnusedCount(|cs|)] + names + more;
      forall k | 0 <= k < |cs| && k < 5 ensures UnusedLines(cs)[k + 1] == UnusedName(cs[k].name) {
        assert shown[k] == cs[k];
        assert names[k] == UnusedName(cs[k].name);
      }
    }
  }
}
