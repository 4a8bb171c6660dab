/** Recovering a JSON object from a model reply: every analyzer strips Markdown code
    fences, tries to decode the result and otherwise falls back to the text that runs
    from the first `{` to the last `}`. Decoding itself (`json.loads`) is an oracle. */
module Responses {
  import opened Wrappers
  import opened Text

  const JsonFence: string := "```json"
  const Fence: string := "```"

  /** `s.split(sep)[0]` for a non-empty separator: everything before the first `sep`. */
  function BeforeFirst(s: string, sep: string): (r: string)
    requires sep != []
    ensures r <= s
    ensures forall j :: 0 <= j < |r| ==> !OccursAt(s, sep, j)
    ensures r == s || OccursAt(s, sep, |r|)
  {
    match FindFrom(s, sep, 0)
    case Some(i) => s[..i]
    case None => s
  }

  /** A string that has no occurrence of `sep` starting before `|r|`, taken as a prefix of
      `s`, does not contain `sep`. */
  lemma PrefixWithoutSep(s: string, r: string, sep: string)
    requires sep != [] && r <= s
    requires forall j :: 0 <= j < |r| ==> !OccursAt(s, sep, j)
    ensures !Contains(r, sep)
  {
    ContainsIff(r, sep);
    if Contains(r, sep) {
      var i :| OccursAt(r, sep, i);
      assert r[i..i + |sep|] == s[i..i + |sep|];
      assert OccursAt(s, sep, i);
    }
  }

  /** The fence handling of every analyzer: after the first "```json", the text up to the
      next "```json" (the second piece of the split), cut again at its first "```";
      otherwise the text between the first and second "```" (or the rest of the text);
      otherwise the text itself. */
  function StripFences(text: string): (r: string)
    ensures |r| <= |text|
  {
    match FindFrom(text, JsonFence, 0)
    case Some(i) => BeforeFirst(BeforeFirst(text[i + |JsonFence|..], JsonFence), Fence)
    case None =>
      match FindFrom(text, Fence, 0)
      case Some(i) => BeforeFirst(text[i + |Fence|..], Fence)
      case None => text
  }

  /** Where the fenced body starts: just after the opening fence that `StripFences` picks. */
  lemma StripFencesShape(text: string)
    ensures !Contains(text, Fence) ==> StripFences(text) == text
    ensures Contains(text, Fence) ==> !Contains(StripFences(text), Fence)
    ensures Contains(text, JsonFence) ==>
      var i := FindFrom(text, JsonFence, 0).value;
      StripFences(text) <= text[i + |JsonFence|..]
    ensures !Contains(text, JsonFence) && Contains(text, Fence) ==>
      var i := FindFrom(text, Fence, 0).value;
      StripFences(text) <= text[i + |Fence|..]
  {
    match FindFrom(text, JsonFence, 0)
    case Some(i) =>
      var piece := BeforeFirst(text[i + |JsonFence|..], JsonFence);
      assert text[i..i + |Fence|] == text[i..i + |JsonFence|][..|Fence|];
      ContainsAt(text, Fence, i);
      PrefixWithoutSep(piece, BeforeFirst(piece, Fence), Fence);
    case None =>
      match FindFrom(text, Fence, 0)
      case Some(i) =>
        var rest := text[i + |Fence|..];
        PrefixWithoutSep(rest, BeforeFirst(rest, Fence), Fence);
      case None =>
  }

  /** Stripping fences twice is stripping them once. */
  lemma {:induction false} StripFencesIdempotent(text: string)
    ensures StripFences(StripFences(text)) == StripFences(text)
  {
    StripFencesShape(text);
    var r := StripFences(text);
    if Contains(text, Fence) {
      StripFencesShape(r);
    }
  }

  /** The second piece of the split ends at the next "```json", before any "```" inside
      that later fence: a body followed by a backtick and another opening fence keeps the
      backtick. */
  lemma StrayBacktickKept(body: string)
    requires |body| == 2 && body[0] != '`' && body[1] != '`'
    ensures StripFences(JsonFence + body + "`" + JsonFence) == body + "`"
  {
    var t := JsonFence + body + "`" + JsonFence;
    var rest := body + "`" + JsonFence;
    assert OccursAt(t, JsonFence, 0);
    assert t[|JsonFence|..] == rest;
    assert rest[3..10] == JsonFence;
    assert rest[0..7] != JsonFence by { assert rest[0..7][0] == body[0]; }
    assert rest[1..8] != JsonFence by { assert rest[1..8][0] == body[1]; }
    assert rest[2..9] != JsonFence by { assert rest[2..9][4] == 'j'; }
    assert FindFrom(rest, JsonFence, 0) == FindFrom(rest, JsonFence, 1) == FindFrom(rest, JsonFence, 2)
      == FindFrom(rest, JsonFence, 3) == Some(3);
    assert BeforeFirst(rest, JsonFence) == body + "`";
    assert FindFrom(body + "`", Fence, 0) == None;
  }

  /** The reply on which a single cut at the first "```" would keep a decodable `{}`; the
      same instance of `StrayBacktickKept` with body " x" gives the error text " x`". */
  lemma StrayBacktickData()
    ensures StripFences("```json{}````json") == "{}`"
  {
    StrayBacktickKept("{}");
    assert JsonFence + "{}" + "`" + JsonFence == "```json{}````json";
  }

  /** The match of the greedy pattern `\{[\s\S]*\}`: from the first `{` to the last `}`
      after it. */
  function ExtractBraces(text: string): (r: Option<string>)
    ensures r.Some? <==> exists i, j :: 0 <= i < j < |text| && text[i] == '{' && text[j] == '}'
    ensures r.Some? ==>
      var i, j := FirstIndexOf(text, '{').value, LastIndexOf(text, '}').value;
      && i < j
      && r.value == text[i..j + 1]
      && (forall k :: 0 <= k < i ==> text[k] != '{')
      && (forall k :: j < k < |text| ==> text[k] != '}')
    ensures r.Some? ==> |r.value| >= 2 && r.value[0] == '{' && r.value[|r.value| - 1] == '}'
  {
    match (FirstIndexOf(text, '{'), LastIndexOf(text, '}'))
    case (Some(i), Some(j)) => if i < j then Some(text[i..j + 1]) else None
    case _ => None
  }

  /** A reply the analyzers could not turn into data: no `{ ... }` at all (this is the
      `ValueError` the code raises, carrying the fence-stripped text), or a `{ ... }` that
      `json.loads` still rejects (its `JSONDecodeError` propagates). */
  datatype ParseFailure = NoJsonObject(text: string) | MalformedJson(text: string)

  /** The decoded reply together with the fence-stripped text (kept as `raw_analysis`). */
  datatype Parsed<D> = Parsed(data: D, text: string)

  /** The brace span of the fence-stripped reply, or "" when it has none. */
  function BraceSpan(reply: string): (span: string)
    ensures ExtractBraces(StripFences(reply)).Some? ==> span == ExtractBraces(StripFences(reply)).value
  {
    match ExtractBraces(StripFences(reply))
    case Some(s) => s
    case None => ""
  }

  /** The whole parse step: decode the stripped, fence-free text, else the brace span. */
  function ParseReply<D>(reply: string, decode: string -> Option<D>): (r: Result<Parsed<D>, ParseFailure>)
    ensures r.Ok? ==> r.value.text == StripFences(reply)
    ensures r.Ok? ==>
      decode(Strip(StripFences(reply))) == Some(r.value.data)
      || (ExtractBraces(StripFences(reply)).Some?
          && decode(ExtractBraces(StripFences(reply)).value) == Some(r.value.data))
    ensures decode(Strip(StripFences(reply))).Some? ==>
      r == Ok(Parsed(decode(Strip(StripFences(reply))).value, StripFences(reply)))
    ensures decode(Strip(StripFences(reply))).None? && ExtractBraces(StripFences(reply)).Some?
            && decode(BraceSpan(reply)).Some? ==>
      r == Ok(Parsed(decode(BraceSpan(reply)).value, StripFences(reply)))
    ensures r.Err? ==> decode(Strip(StripFences(reply))).None?
    ensures r == Err(NoJsonObject(StripFences(reply))) <==>
      decode(Strip(StripFences(reply))).None? && ExtractBraces(StripFences(reply)).None?
    ensures r == Err(MalformedJson(BraceSpan(reply))) <==>
      decode(Strip(StripFences(reply))).None? && ExtractBraces(StripFences(reply)).Some?
      && decode(BraceSpan(reply)).None?
    ensures r.Err? ==> r == Err(NoJsonObject(StripFences(reply))) || r == Err(MalformedJson(BraceSpan(reply)))
  {
    var text := StripFences(reply);
    match decode(Strip(text))
    case Some(d) => Ok(Parsed(d, text))
    case None =>
      match ExtractBraces(text)
      case None => Err(NoJsonObject(text))
      case Some(span) =>
        match decode(span)
        case Some(d) => Ok(Parsed(d, text))
        case None => Err(MalformedJson(span))
  }

  /** The message of a `ValueError` raised with `f"...{response_text[:500]}"`. */
  function ErrorWithText(prefix: string, text: string): (m: string)
    ensures |m| == |prefix| + (if |text| < 500 then |text| else 500)
    ensures m[..|prefix|] == prefix && m[|prefix|..] <= text
  {
    prefix + Take(text, 500)
  }
}
