/** The deterministic part of `dsd_agent/image_analyzer.py`: components and analyses,
    the media-type table, the size threshold, the JPEG quality / shrink schedule of
    `compress_image` (the encoder's output size is an oracle), and the way the three
    `analyze_*` methods turn a decoded reply into an analysis. */
module ImageAnalyzer {
  import opened Wrappers
  import opened Text
  import opened Paths
  import opened Responses

  /** `MAX_IMAGE_BYTES`: images up to this size are sent unchanged. */
  const MaxImageBytes: nat := 4500000

  /** A system component extracted from an architecture source. */
  datatype SystemComponent = SystemComponent(name: string, category: string, description: string, layer: string)

  /** The result of analysing one architecture source. */
  datatype ArchitectureAnalysis = ArchitectureAnalysis(
    components: seq<SystemComponent>,
    layers: seq<string>,
    rawAnalysis: string,
    sourceType: string)

  /** A decoded component entry of a reply: each field may be missing. */
  datatype ComponentRecord = ComponentRecord(name: Option<string>, category: Option<string>,
                                             description: Option<string>, layer: Option<string>)

  /** The decoded top-level object of an analysis reply. */
  datatype AnalysisRecord = AnalysisRecord(sourceType: Option<string>, layersIdentified: Option<seq<string>>,
                                           components: Option<seq<ComponentRecord>>)

  /** A component built with the defaults of `comp.get(...)`. */
  function ComponentFromRecord(rec: ComponentRecord): (c: SystemComponent)
    ensures rec.name.Some? ==> c.name == rec.name.value
    ensures rec.name.None? ==> c.name == "Unknown"
    ensures rec.category.Some? ==> c.category == rec.category.value
    ensures rec.category.None? ==> c.category == "unknown"
    ensures c.description == (if rec.description.Some? then rec.description.value else "")
    ensures c.layer == (if rec.layer.Some? then rec.layer.value else "")
  {
    SystemComponent(rec.name.GetOr("Unknown"), rec.category.GetOr("unknown"),
                    rec.description.GetOr(""), rec.layer.GetOr(""))
  }

  /** A component written out with every field present reads back as itself. */
  function RecordOf(c: SystemComponent): ComponentRecord {
    ComponentRecord(Some(c.name), Some(c.category), Some(c.description), Some(c.layer))
  }

  lemma ComponentRecordRoundTrip(c: SystemComponent)
    ensures ComponentFromRecord(RecordOf(c)) == c
  {
  }

  // ---------------------------------------------------------------- media types

  /** The media type `encode_image` sends for a file that is small enough: looked up by
      the lower-cased suffix, falling back to PNG. */
  function MediaTypeFor(name: string): (m: string)
    ensures m == "image/jpeg" <==> Lower(Suffix(name)) == ".jpg" || Lower(Suffix(name)) == ".jpeg"
    ensures m == "image/gif" <==> Lower(Suffix(name)) == ".gif"
    ensures m == "image/webp" <==> Lower(Suffix(name)) == ".webp"
    ensures m == "image/png" <==> Lower(Suffix(name)) !in {".jpg", ".jpeg", ".gif", ".webp"} || Lower(Suffix(name)) == ".png"
  {
    var table := map[".jpg" := "image/jpeg", ".jpeg" := "image/jpeg", ".png" := "image/png",
                     ".gif" := "image/gif", ".webp" := "image/webp"];
    var suffix := Lower(Suffix(name));
    if suffix in table then table[suffix] else "image/png"
  }

  // ---------------------------------------------------------------- compression

  /** `int(x * 0.8)`, the dimension after one shrink step. */
  function Shrink(x: nat): nat {
    (x * 4) / 5
  }

  /** The dimension after `k` shrink steps. */
  function ShrinkN(x: nat, k: nat): nat {
    if k == 0 then x else Shrink(ShrinkN(x, k - 1))
  }

  /** The first JPEG quality tried at a size: 95 for the original image, 85 after a resize. */
  function StartQuality(shrinks: nat): nat {
    if shrinks == 0 then 95 else 85
  }

  /** A quality on the schedule of one size: 95 or 85, then down by 10, never below 25. */
  predicate OnSchedule(q: int, shrinks: nat) {
    25 <= q <= StartQuality(shrinks) && q % 10 == 5
  }

  /** `(w, h, quality)` with encoded size `size` is what the compression loop of an image of
      `width` x `height` pixels ends with after `shrinks` resizes: each resize was allowed
      (both new sides at least 100), every quality on the schedule of every earlier size
      was too large, and at the final size every quality tried before `quality` was too
      large; the result fits in `maxBytes` or is the lowest quality of a size that can no
      longer shrink. */
  ghost predicate Compressed(width: nat, height: nat, maxBytes: nat, encodedSize: (nat, nat, nat) -> nat,
                             w: nat, h: nat, quality: nat, size: nat, shrinks: nat)
  {
    && size == encodedSize(w, h, quality)
    && w == ShrinkN(width, shrinks) && h == ShrinkN(height, shrinks)
    && OnSchedule(quality, shrinks)
    && (size <= maxBytes || (quality == 25 && (Shrink(w) < 100 || Shrink(h) < 100)))
    && (forall q :: OnSchedule(q, shrinks) && quality < q ==> encodedSize(w, h, q) > maxBytes)
    && (forall j, q :: 0 <= j < shrinks && OnSchedule(q, j) ==>
          encodedSize(ShrinkN(width, j), ShrinkN(height, j), q) > maxBytes)
    && (forall j :: 0 <= j < shrinks ==> Shrink(ShrinkN(width, j)) >= 100 && Shrink(ShrinkN(height, j)) >= 100)
  }

  /** `compress_image` on an image of `width` x `height` pixels. `encodedSize(w, h, q)` is
      the byte size of the JPEG encoding at quality `q`. The result is the first encoding
      on the schedule that fits in `maxBytes`, or the last one tried when the image can
      no longer shrink; `shrinks` is the number of resizes done. */
  method CompressImage(width: nat, height: nat, maxBytes: nat, encodedSize: (nat, nat, nat) -> nat)
    returns (w: nat, h: nat, quality: nat, size: nat, mediaType: string, ghost shrinks: nat)
    ensures mediaType == "image/jpeg"
    ensures Compressed(width, height, maxBytes, encodedSize, w, h, quality, size, shrinks)
  {
    w, h, quality, shrinks := width, height, 95, 0;
    while true
      invariant w == ShrinkN(width, shrinks) && h == ShrinkN(height, shrinks)
      invariant OnSchedule(quality, shrinks)
      invariant forall q :: OnSchedule(q, shrinks) && quality < q ==> encodedSize(w, h, q) > maxBytes
      invariant forall j, q :: 0 <= j < shrinks && OnSchedule(q, j) ==>
        encodedSize(ShrinkN(width, j), ShrinkN(height, j), q) > maxBytes
      invariant forall j :: 0 <= j < shrinks ==> Shrink(ShrinkN(width, j)) >= 100 && Shrink(ShrinkN(height, j)) >= 100
      decreases w, quality
    {
      size := encodedSize(w, h, quality);
      if size <= maxBytes {
        mediaType := "image/jpeg";
        return;
      }
      if quality > 30 {
        QualityDown(quality, shrinks);
        quality := quality - 10;
        continue;
      }
      AtFloor(quality, shrinks);
      var newWidth, newHeight := Shrink(w), Shrink(h);
      if newWidth < 100 || newHeight < 100 {
        mediaType := "image/jpeg";
        return;
      }
      ShrinkDecreases(w);
      assert forall q :: OnSchedule(q, shrinks) ==> encodedSize(w, h, q) > maxBytes;
      w, h, quality, shrinks := newWidth, newHeight, 85, shrinks + 1;
    }
  }

  /** The loop's outcome is determined by its inputs: two outcomes that both meet
      `Compressed` are the same encoding after the same number of resizes. */
  lemma CompressedUnique(width: nat, height: nat, maxBytes: nat, encodedSize: (nat, nat, nat) -> nat,
                         w1: nat, h1: nat, q1: nat, size1: nat, k1: nat,
                         w2: nat, h2: nat, q2: nat, size2: nat, k2: nat)
    requires Compressed(width, height, maxBytes, encodedSize, w1, h1, q1, size1, k1)
    requires Compressed(width, height, maxBytes, encodedSize, w2, h2, q2, size2, k2)
    ensures k1 == k2 && w1 == w2 && h1 == h2 && q1 == q2 && size1 == size2
  {
    // the run with more resizes tried every quality at the other's final size and was
    // allowed to shrink it, so neither run can stop earlier than the other
    assert k1 < k2 ==>
      encodedSize(ShrinkN(width, k1), ShrinkN(height, k1), q1) > maxBytes
      && Shrink(ShrinkN(width, k1)) >= 100 && Shrink(ShrinkN(height, k1)) >= 100;
    assert k2 < k1 ==>
      encodedSize(ShrinkN(width, k2), ShrinkN(height, k2), q2) > maxBytes
      && Shrink(ShrinkN(width, k2)) >= 100 && Shrink(ShrinkN(height, k2)) >= 100;
    // at the same size, the higher quality was tried first and was too large
    assert q1 < q2 ==> encodedSize(w1, h1, q2) > maxBytes;
    assert q2 < q1 ==> encodedSize(w2, h2, q1) > maxBytes;
  }

  /** One quality step down stays on the schedule and skips no quality of it. */
  lemma QualityDown(q: int, shrinks: nat)
    requires OnSchedule(q, shrinks) && q > 30
    ensures OnSchedule(q - 10, shrinks)
    ensures forall p :: OnSchedule(p, shrinks) && q - 10 < p ==> p == q || q < p
  {
  }

  /** A quality on the schedule that may not drop further is the lowest, 25. */
  lemma AtFloor(q: int, shrinks: nat)
    requires OnSchedule(q, shrinks) && q <= 30
    ensures q == 25
    ensures forall p :: OnSchedule(p, shrinks) ==> p == q || q < p
  {
  }

  /** A resize that leaves at least 100 pixels makes the side smaller. */
  lemma ShrinkDecreases(x: nat)
    requires Shrink(x) >= 100
    ensures Shrink(x) < x
  {
  }

  /** An image file as `encode_image` sees it: its path, its size on disk and its pixel size. */
  datatype ImageFile = ImageFile(path: Path, fileSize: nat, width: nat, height: nat)

  /** What `encode_image` sends: the file's own bytes, or a recompressed JPEG. */
  datatype Payload = Original | Recompressed(width: nat, height: nat, quality: nat, size: nat)

  /** `encode_image`: small files go out unchanged with the media type of their suffix;
      larger ones are recompressed and always labelled JPEG. */
  method EncodeImage(file: ImageFile, encodedSize: (nat, nat, nat) -> nat)
    returns (payload: Payload, mediaType: string)
    ensures file.fileSize <= MaxImageBytes ==> payload == Original && mediaType == MediaTypeFor(file.path.name)
    ensures file.fileSize > MaxImageBytes ==> payload.Recompressed? && mediaType == "image/jpeg"
    ensures payload.Recompressed? ==>
      && (exists k :: Compressed(file.width, file.height, MaxImageBytes, encodedSize,
                                 payload.width, payload.height, payload.quality, payload.size, k))
      && payload.width <= file.width && payload.height <= file.height
  {
    if file.fileSize <= MaxImageBytes {
      payload, mediaType := Original, MediaTypeFor(file.path.name);
    } else {
      var w, h, q, size, media, shrinks := CompressImage(file.width, file.height, MaxImageBytes, encodedSize);
      ShrinkNBound(file.width, shrinks);
      ShrinkNBound(file.height, shrinks);
      payload, mediaType := Recompressed(w, h, q, size), media;
    }
  }

  /** Shrinking never enlarges an image. */
  lemma {:induction false} ShrinkNBound(x: nat, k: nat)
    ensures ShrinkN(x, k) <= x
  {
    if k > 0 {
      ShrinkNBound(x, k - 1);
    }
  }

  // ---------------------------------------------------------------- analyses

  /** Which `analyze_*` method produced the reply. */
  datatype SourceKind = Image | Notes | Mermaid

  /** The error an analysis raises when its reply holds no usable JSON. */
  datatype AnalyzerError = ValueError(message: string) | JsonDecodeError(text: string)

  /** The text each analyzer puts before the first 500 characters of the reply. */
  function ErrorPrefix(kind: SourceKind): string {
    match kind
    case Image => "Could not parse response as JSON: "
    case Notes => "Could not parse response: "
    case Mermaid => "Could not parse response: "
  }

  /** The components of a decoded reply, each with its defaults filled in. */
  function ComponentsOf(data: AnalysisRecord): (cs: seq<SystemComponent>)
    ensures var recs := data.components.GetOr([]);
      |cs| == |recs| && forall i :: 0 <= i < |recs| ==> cs[i] == ComponentFromRecord(recs[i])
  {
    var recs := data.components.GetOr([]);
    seq(|recs|, i requires 0 <= i < |recs| => ComponentFromRecord(recs[i]))
  }

  /** `analyze_image`, `analyze_text_notes` and `analyze_mermaid` after the model call:
      parse the reply and build the analysis. */
  function AnalyzeReply(kind: SourceKind, reply: string, decode: string -> Option<AnalysisRecord>)
    : (r: Result<ArchitectureAnalysis, AnalyzerError>)
    ensures r.Ok? ==> r.value.rawAnalysis == StripFences(reply)
    ensures r.Ok? && kind == Notes ==> r.value.sourceType == "notes"
    ensures r.Ok? && kind == Mermaid ==> r.value.sourceType == "mermaid"
    ensures ParseReply(reply, decode).Ok? ==>
      var data := ParseReply(reply, decode).value.data;
      && r.Ok?
      && r.value.components == ComponentsOf(data)
      && r.value.layers == data.layersIdentified.GetOr([])
      && (kind == Image ==> r.value.sourceType == data.sourceType.GetOr("diagram"))
    ensures ParseReply(reply, decode) == Err(NoJsonObject(StripFences(reply))) ==>
      r == Err(ValueError(ErrorWithText(ErrorPrefix(kind), StripFences(reply))))
    ensures ParseReply(reply, decode) == Err(MalformedJson(BraceSpan(reply))) ==> r == Err(JsonDecodeError(BraceSpan(reply)))
    ensures ParseReply(reply, decode).Err? ==> r.Err?
  {
    match ParseReply(reply, decode)
    case Err(NoJsonObject(text)) => Err(ValueError(ErrorWithText(ErrorPrefix(kind), text)))
    case Err(MalformedJson(span)) => Err(JsonDecodeError(span))
    case Ok(Parsed(data, text)) =>
      var sourceType := match kind
        case Image => data.sourceType.GetOr("diagram")
        case Notes => "notes"
        case Mermaid => "mermaid";
      Ok(ArchitectureAnalysis(ComponentsOf(data), data.layersIdentified.GetOr([]), text, sourceType))
  }
}
