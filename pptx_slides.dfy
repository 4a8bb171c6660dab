/** The in-memory presentation that `dsd_agent/pptx_handler.py` reads and edits through
    python-pptx: slides of shapes, text frames of paragraphs, paragraphs of runs. This
    module holds the pure logic over it: frame text, the title heuristic, the lorem test,
    and the text replacement of `update_placeholder` with its properties. */
module PptxSlides {
  import opened Wrappers
  import opened Text

  /** A paragraph as the text of its runs. */
  datatype Paragraph = Paragraph(runs: seq<string>)

  datatype TextFrame = TextFrame(paragraphs: seq<Paragraph>)

  /** A shape; positions and sizes are in EMU, `textFrame` is `None` when
      `has_text_frame` is false. */
  datatype Shape = Shape(name: string, isPlaceholder: bool, textFrame: Option<TextFrame>,
                         left: int, top: int, width: int, height: int)

  datatype Slide = Slide(shapes: seq<Shape>)

  function Concat(parts: seq<string>): string {
    if parts == [] then "" else parts[0] + Concat(parts[1..])
  }

  /** `text_frame.text`: the paragraphs' texts joined by line feeds. */
  function FrameText(f: TextFrame): string {
    Join(seq(|f.paragraphs|, i requires 0 <= i < |f.paragraphs| => Concat(f.paragraphs[i].runs)), "\n")
  }

  /** The stripped text of a shape that has a text frame. */
  function ShapeText(s: Shape): string
    requires s.textFrame.Some?
  {
    Strip(FrameText(s.textFrame.value))
  }

  // ---------------------------------------------------------------- title

  /** A shape `_get_slide_title` accepts: it has non-empty stripped text shorter than
      `limit`, and is a layout placeholder when `placeholderOnly`. */
  predicate TitleCandidate(s: Shape, limit: nat, placeholderOnly: bool) {
    s.textFrame.Some? && ShapeText(s) != [] && |ShapeText(s)| < limit && (s.isPlaceholder || !placeholderOnly)
  }

  /** The first shape that is a title candidate. */
  function FindTitle(shapes: seq<Shape>, limit: nat, placeholderOnly: bool): (r: Option<nat>)
    ensures r.Some? ==> r.value < |shapes| && TitleCandidate(shapes[r.value], limit, placeholderOnly)
    ensures r.Some? ==> forall k :: 0 <= k < r.value ==> !TitleCandidate(shapes[k], limit, placeholderOnly)
    ensures r.None? ==> forall k :: 0 <= k < |shapes| ==> !TitleCandidate(shapes[k], limit, placeholderOnly)
  {
    if shapes == [] then None
    else if TitleCandidate(shapes[0], limit, placeholderOnly) then Some(0)
    else match FindTitle(shapes[1..], limit, placeholderOnly)
      case Some(k) => Some(k + 1)
      case None => None
  }

  /** `_get_slide_title`: the first placeholder shape with text shorter than 100
      characters; otherwise the first shape with text shorter than 80; otherwise
      "Untitled". */
  function SlideTitle(slide: Slide): string
  {
    match FindTitle(slide.shapes, 100, true)
    case Some(i) => ShapeText(slide.shapes[i])
    case None =>
      match FindTitle(slide.shapes, 80, false)
      case Some(i) => ShapeText(slide.shapes[i])
      case None => "Untitled"
  }

  /** The title is never empty and shorter than 100 characters; it is the text of the
      first placeholder shape with text shorter than 100, else of the first shape with
      text shorter than 80 (and then shorter than 80), else "Untitled". */
  lemma SlideTitleChoice(slide: Slide)
    ensures var t := SlideTitle(slide);
      && t != [] && |t| < 100
      && (FindTitle(slide.shapes, 100, true).Some? ==> t == ShapeText(slide.shapes[FindTitle(slide.shapes, 100, true).value]))
      && (FindTitle(slide.shapes, 100, true).None? && FindTitle(slide.shapes, 80, false).Some? ==>
            t == ShapeText(slide.shapes[FindTitle(slide.shapes, 80, false).value]) && |t| < 80)
      && (FindTitle(slide.shapes, 100, true).None? && FindTitle(slide.shapes, 80, false).None? ==> t == "Untitled")
  {
  }

  // ---------------------------------------------------------------- lorem test

  const Lorem: string := "lorem"

  /** `find_architecture_slides` keeps a shape iff it has a text frame whose stripped,
      lower-cased text contains "lorem". */
  predicate IsLoremShape(s: Shape) {
    s.textFrame.Some? && Contains(Lower(ShapeText(s)), Lorem)
  }

  /** Stripping first does not change the lorem test: the pptx back end (which strips)
      and the Google back end (which does not) accept the same texts. */
  lemma LoremIgnoresStrip(text: string)
    ensures Contains(Lower(Strip(text)), Lorem) <==> Contains(Lower(text), Lorem)
  {
    LowerStripCommute(text);
    StripKeepsWord(Lower(text), Lorem);
  }

  // ---------------------------------------------------------------- text replacement

  /** The first paragraph that has runs. */
  function FirstParagraphWithRuns(ps: seq<Paragraph>): (r: Option<nat>)
    ensures r.Some? ==> r.value < |ps| && ps[r.value].runs != []
    ensures r.Some? ==> forall k :: 0 <= k < r.value ==> ps[k].runs == []
    ensures r.None? ==> forall k :: 0 <= k < |ps| ==> ps[k].runs == []
  {
    if ps == [] then None
    else if ps[0].runs != [] then Some(0)
    else match FirstParagraphWithRuns(ps[1..])
      case Some(k) => Some(k + 1)
      case None => None
  }

  /** The new text goes into the first run of the first paragraph that has runs; when no
      paragraph has runs, it becomes the single run of the first paragraph. */
  function SetFrameText(f: TextFrame, text: string): (g: TextFrame)
    requires f.paragraphs != []
  {
    match FirstParagraphWithRuns(f.paragraphs)
    case Some(i) => TextFrame(f.paragraphs[i := Paragraph(f.paragraphs[i].runs[0 := text])])
    case None => TextFrame(f.paragraphs[0 := Paragraph([text])])
  }

  /** Replacing the text touches one run of one paragraph and nothing else. */
  lemma SetFrameTextTouchesOneRun(f: TextFrame, text: string)
    requires f.paragraphs != []
    ensures var g := SetFrameText(f, text);
      && |g.paragraphs| == |f.paragraphs|
      && (exists i :: 0 <= i < |f.paragraphs|
           && (forall k :: 0 <= k < |f.paragraphs| && k != i ==> g.paragraphs[k] == f.paragraphs[k])
           && (forall k :: 0 <= k < i ==> f.paragraphs[k].runs == [])
           && |g.paragraphs[i].runs| >= 1
           && g.paragraphs[i].runs[0] == text
           && (f.paragraphs[i].runs != [] ==>
                 |g.paragraphs[i].runs| == |f.paragraphs[i].runs| && g.paragraphs[i].runs[1..] == f.paragraphs[i].runs[1..]))
  {
    var g := SetFrameText(f, text);
    match FirstParagraphWithRuns(f.paragraphs)
    case Some(i) =>
      assert g.paragraphs[i].runs[1..] == f.paragraphs[i].runs[1..];
    case None =>
      assert f.paragraphs[0].runs == [];
  }

  /** The first paragraph with runs is the one that has runs after only empty ones. */
  lemma {:induction false} FirstWithRunsAt(ps: seq<Paragraph>, i: nat)
    requires i < |ps| && ps[i].runs != [] && forall k :: 0 <= k < i ==> ps[k].runs == []
    ensures FirstParagraphWithRuns(ps) == Some(i)
  {
    if i > 0 {
      FirstWithRunsAt(ps[1..], i - 1);
    }
  }

  /** Setting the same text again changes nothing. */
  lemma SetFrameTextIdempotent(f: TextFrame, text: string)
    requires f.paragraphs != []
    ensures SetFrameText(SetFrameText(f, text), text) == SetFrameText(f, text)
  {
    var g := SetFrameText(f, text);
    match FirstParagraphWithRuns(f.paragraphs)
    case Some(i) =>
      assert forall k :: 0 <= k < i ==> g.paragraphs[k].runs == [];
      FirstWithRunsAt(g.paragraphs, i);
      assert g.paragraphs[i].runs[0 := text] == g.paragraphs[i].runs;
      assert g.paragraphs[i := Paragraph(g.paragraphs[i].runs)] == g.paragraphs;
    case None =>
      FirstWithRunsAt(g.paragraphs, 0);
      assert g.paragraphs[0].runs == [text];
      assert g.paragraphs[0].runs[0 := text] == [text];
      assert g.paragraphs[0 := Paragraph(g.paragraphs[0].runs[0 := text])] == g.paragraphs;
  }

  /** A shape `update_placeholder` can write: the right name, a text frame, and at least one
      paragraph (a text frame without paragraphs is passed over). */
  predicate Writable(s: Shape, name: string) {
    s.name == name && s.textFrame.Some? && s.textFrame.value.paragraphs != []
  }

  /** The first writable shape with that name. */
  function TargetShape(shapes: seq<Shape>, name: string): (r: Option<nat>)
    ensures r.Some? ==> r.value < |shapes| && Writable(shapes[r.value], name)
    ensures r.Some? ==> forall k :: 0 <= k < r.value ==> !Writable(shapes[k], name)
    ensures r.None? ==> forall k :: 0 <= k < |shapes| ==> !Writable(shapes[k], name)
  {
    if shapes == [] then None
    else if Writable(shapes[0], name) then Some(0)
    else match TargetShape(shapes[1..], name)
      case Some(k) => Some(k + 1)
      case None => None
  }

  /** The target is the first writable shape. */
  lemma {:induction false} TargetAt(shapes: seq<Shape>, name: string, j: nat)
    requires j < |shapes| && Writable(shapes[j], name) && forall k :: 0 <= k < j ==> !Writable(shapes[k], name)
    ensures TargetShape(shapes, name) == Some(j)
  {
    if j > 0 {
      TargetAt(shapes[1..], name, j - 1);
    }
  }

  /** The outcome of one update: whether a shape was written, and the new slides. */
  datatype UpdateResult = UpdateResult(ok: bool, slides: seq<Slide>)

  /** The shape with its text replaced. */
  function WriteShape(s: Shape, text: string): Shape
    requires s.textFrame.Some? && s.textFrame.value.paragraphs != []
  {
    s.(textFrame := Some(SetFrameText(s.textFrame.value, text)))
  }

  /** `update_placeholder`, with the evidently intended fallback: nothing happens for a slide
      index out of range or when no shape of that name can be written; otherwise the first
      writable shape of that name gets the text. */
  function UpdateSlides(slides: seq<Slide>, slideIndex: int, name: string, text: string): (r: UpdateResult)
    ensures r.ok <==> (0 <= slideIndex < |slides| &&
                       exists j :: 0 <= j < |slides[slideIndex].shapes| && Writable(slides[slideIndex].shapes[j], name))
    ensures !r.ok ==> r.slides == slides
  {
    if !(0 <= slideIndex < |slides|) then UpdateResult(false, slides)
    else
      var shapes := slides[slideIndex].shapes;
      match TargetShape(shapes, name)
      case None => UpdateResult(false, slides)
      case Some(j) => UpdateResult(true, slides[slideIndex := Slide(shapes[j := WriteShape(shapes[j], text)])])
  }

  /** An update changes one shape of one slide, and in it only the text frame. */
  lemma UpdateIsLocal(slides: seq<Slide>, slideIndex: int, name: string, text: string)
    requires UpdateSlides(slides, slideIndex, name, text).ok
    ensures var r := UpdateSlides(slides, slideIndex, name, text).slides;
      && |r| == |slides|
      && (forall k :: 0 <= k < |slides| && k != slideIndex ==> r[k] == slides[k])
      && |r[slideIndex].shapes| == |slides[slideIndex].shapes|
      && (exists j :: 0 <= j < |slides[slideIndex].shapes|
           && Writable(slides[slideIndex].shapes[j], name)
           && (forall k :: 0 <= k < j ==> !Writable(slides[slideIndex].shapes[k], name))
           && (forall k :: 0 <= k < |slides[slideIndex].shapes| && k != j ==> r[slideIndex].shapes[k] == slides[slideIndex].shapes[k])
           && r[slideIndex].shapes[j] == WriteShape(slides[slideIndex].shapes[j], text))
  {
    var j := TargetShape(slides[slideIndex].shapes, name).value;
  }

  /** Updates never change which shapes can be written: names, the presence of text
      frames and the paragraph counts stay the same. */
  lemma UpdateKeepsWritable(slides: seq<Slide>, slideIndex: int, name: string, text: string, i: int, other: string)
    ensures var r := UpdateSlides(slides, slideIndex, name, text).slides;
      && |r| == |slides|
      && (0 <= i < |slides| ==>
            && |r[i].shapes| == |slides[i].shapes|
            && forall k :: 0 <= k < |slides[i].shapes| ==> (Writable(r[i].shapes[k], other) <==> Writable(slides[i].shapes[k], other)))
  {
  }

  /** Applying the same update twice is applying it once. */
  lemma UpdateIdempotent(slides: seq<Slide>, slideIndex: int, name: string, text: string)
    ensures var once := UpdateSlides(slides, slideIndex, name, text);
      UpdateSlides(once.slides, slideIndex, name, text) == once
  {
    var once := UpdateSlides(slides, slideIndex, name, text);
    if once.ok {
      var shapes := slides[slideIndex].shapes;
      var j := TargetShape(shapes, name).value;
      var shapes' := once.slides[slideIndex].shapes;
      assert forall k :: 0 <= k < |shapes| ==> (Writable(shapes'[k], name) <==> Writable(shapes[k], name));
      assert TargetShape(shapes', name) == Some(j);
      SetFrameTextIdempotent(shapes[j].textFrame.value, text);
      assert WriteShape(shapes'[j], text) == shapes'[j];
      assert shapes'[j := WriteShape(shapes'[j], text)] == shapes';
      assert once.slides[slideIndex := Slide(shapes')] == once.slides;
    }
  }

  // ---------------------------------------------------------------- as written

  /** The exception the written fallback raises. */
  datatype PyError = IndexError

  /** `update_placeholder` exactly as written: when the target shape's paragraphs have no
      runs, the fallback indexes `runs[0]` of the first paragraph, which is empty, and
      raises. */
  function UpdateSlidesAsWritten(slides: seq<Slide>, slideIndex: int, name: string, text: string)
    : (r: Result<UpdateResult, PyError>)
    ensures r.Ok? ==> r.value == UpdateSlides(slides, slideIndex, name, text)
    ensures r.Err? <==>
      && 0 <= slideIndex < |slides|
      && TargetShape(slides[slideIndex].shapes, name).Some?
      && var j := TargetShape(slides[slideIndex].shapes, name).value;
         FirstParagraphWithRuns(slides[slideIndex].shapes[j].textFrame.value.paragraphs).None?
  {
    if !(0 <= slideIndex < |slides|) then Ok(UpdateResult(false, slides))
    else
      var shapes := slides[slideIndex].shapes;
      match TargetShape(shapes, name)
      case None => Ok(UpdateResult(false, slides))
      case Some(j) =>
        if FirstParagraphWithRuns(shapes[j].textFrame.value.paragraphs).None? then Err(IndexError)
        else Ok(UpdateResult(true, slides[slideIndex := Slide(shapes[j := WriteShape(shapes[j], text)])]))
  }

  /** The written fallback can never succeed: a named text box whose only paragraph is
      empty makes the call raise instead of receiving the text. */
  lemma AsWrittenFallbackRaises()
    ensures var box := Shape("Box 1", false, Some(TextFrame([Paragraph([])])), 0, 0, 914400, 914400);
      && UpdateSlidesAsWritten([Slide([box])], 0, "Box 1", "API Gateway") == Err(IndexError)
      && UpdateSlides([Slide([box])], 0, "Box 1", "API Gateway").ok
  {
    var box := Shape("Box 1", false, Some(TextFrame([Paragraph([])])), 0, 0, 914400, 914400);
    assert Writable([box][0], "Box 1");
    assert TargetShape([box], "Box 1") == Some(0);
  }

  // ---------------------------------------------------------------- batches

  /** A key of the `updates` dict: `(slide_index, shape_name)`. */
  datatype UpdateKey = UpdateKey(slideIndex: int, shapeName: string)

  /** The dict's items in iteration order. */
  type Updates = seq<(UpdateKey, string)>

  /** Whether an update for `key` would write a shape. */
  predicate Applicable(slides: seq<Slide>, key: UpdateKey) {
    UpdateSlides(slides, key.slideIndex, key.shapeName, "").ok
  }

  /** The slides after the updates have been applied in order. */
  function ApplyUpdates(slides: seq<Slide>, updates: Updates): seq<Slide> {
    if updates == [] then slides
    else
      var (key, text) := updates[|updates| - 1];
      UpdateSlides(ApplyUpdates(slides, updates[..|updates| - 1]), key.slideIndex, key.shapeName, text).slides
  }

  /** How many of the updates find a shape to write in `slides`. */
  function CountApplicable(slides: seq<Slide>, updates: Updates): (n: nat)
    ensures n <= |updates|
  {
    if updates == [] then 0
    else CountApplicable(slides, updates[..|updates| - 1]) + (if Applicable(slides, updates[|updates| - 1].0) then 1 else 0)
  }

  /** Earlier updates do not change whether a later one applies. */
  lemma {:induction false} ApplicableAfterUpdates(slides: seq<Slide>, updates: Updates, key: UpdateKey)
    ensures |ApplyUpdates(slides, updates)| == |slides|
    ensures Applicable(ApplyUpdates(slides, updates), key) == Applicable(slides, key)
  {
    if updates != [] {
      var init := updates[..|updates| - 1];
      var (k, text) := updates[|updates| - 1];
      ApplicableAfterUpdates(slides, init, key);
      var mid := ApplyUpdates(slides, init);
      var i := key.slideIndex;
      UpdateKeepsWritable(mid, k.slideIndex, k.shapeName, text, i, key.shapeName);
      var after := UpdateSlides(mid, k.slideIndex, k.shapeName, text).slides;
      if 0 <= i < |mid| {
        if Applicable(mid, key) {
          var j :| 0 <= j < |mid[i].shapes| && Writable(mid[i].shapes[j], key.shapeName);
          assert Writable(after[i].shapes[j], key.shapeName);
        }
        if Applicable(after, key) {
          var j :| 0 <= j < |after[i].shapes| && Writable(after[i].shapes[j], key.shapeName);
          assert Writable(mid[i].shapes[j], key.shapeName);
        }
      }
    }
  }
}
