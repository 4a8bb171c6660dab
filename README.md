# dsd_agent — a Dafny model of its deterministic core

dsd_agent fills the "Lorem ipsum" placeholder boxes of an architecture slide deck
(PowerPoint through python-pptx, or Google Slides through its REST API) with the
components of a system. The components are read from a diagram image, notes or a
Mermaid graph by a language model. This project models the logic around those model
calls:

- finding the placeholders on each slide, grouping them into rows by their top edge,
  and sorting each slide's placeholders by row and then left edge;
- reading slide titles and classifying slides by keyword;
- reconciling the model's untrusted mapping records against the slide's placeholders
  and the component catalogue;
- applying the resulting updates to an in-memory deck (pptx), or building the paired
  `deleteText`/`insertText` requests of a Google `batchUpdate`;
- the default save path and the row-count summary;
- the integration-pattern rules (enum parsing with fallback, keyword detectors,
  routing by slide title, recommendations);
- the response helpers shared by every analyzer (code-fence stripping,
  first-`{`-to-last-`}` extraction), media types by suffix, and the quality and resize
  schedule of `compress_image`.

The model's language-model replies, `json.loads`, the python-pptx object tree, the
Google API and PIL are not available. They enter the model as parameters:

- the reply text;
- a decoder `string -> Option<D>`;
- a slide/shape datatype;
- a success flag for `batchUpdate`;
- an encoded-size function `(width, height, quality) -> bytes`.

Modules follow the source files:

- `Text`: `in`, `find`, `rfind`, `lower`, `strip`, slicing and `join`.
- `Sorting`: the stable sort behind `sorted`/`list.sort`, plus sequence helpers.
- `Paths`: `PurePath.stem` and `PurePath.suffix`.
- `Responses`: fence and brace extraction.
- `ImageAnalyzer`.
- `RowGroups`: the one-pass row rule as a pure specification.
- `PptxSlides`: the slide and shape tree, titles, and text-frame writes.
- `PptxHandler`: the `Placeholder` class, row assignment, the scan, and the
  `DSDDocument` class.
- `Mapping`: reconciliation and the update dictionary.
- `Agent`: the `DSDAgent` class.
- `GoogleSlides`: the `GoogleSlidesDocument` and `GoogleSlidesAgent` classes.
- `IntegrationPatterns`.

`Placeholder` is a class, because `_assign_row_groups` writes `row_group` in place.
Every other field is a `const`. The two documents and the two agents are classes whose
methods change their fields under `modifies` clauses. Each method is proved against a
pure function; the properties are proved about that function.

## Model

| member | source | states |
|---|---|---|
| RowGroups.Groups | dsd_agent/pptx_handler.py:66-83 | one row number per placeholder in top-sorted order, the row the single pass gives it |
| RowGroups.RowStep | dsd_agent/pptx_handler.py:72-81 | the first placeholder is on row 0; the row goes up by exactly 1 iff the top is more than 0.5 from the row's first top, and otherwise stays; the anchor moves only when a row starts |
| RowGroups.RowsMonotone | dsd_agent/pptx_handler.py:72-81 | rows never decrease along the pass and grow by at most 1 per step |
| RowGroups.RowsBounded | dsd_agent/pptx_handler.py:72-81 | the k-th placeholder's row is at most k |
| RowGroups.AnchorIsRowStart | dsd_agent/pptx_handler.py:75-80 | `current_top` within a row is the top of that row's first placeholder |
| RowGroups.NearAnchor | dsd_agent/pptx_handler.py:75-80 | every top is within 0.5 of the current anchor |
| RowGroups.RowWithinThreshold | dsd_agent/pptx_handler.py:75-80 | every member of a row lies within 0.5 of the row's first top |
| RowGroups.EqualTopsSameRow | dsd_agent/pptx_handler.py:72-81 | in sorted order, equal tops get the same row |
| RowGroups.ThreeBands | dsd_agent/pptx_handler.py:66-83 | the tops 0.1, 0.15, 3.0, 3.05, 6.2 fall into rows 0, 0, 1, 1, 2 |
| PptxHandler.Placeholder.constructor | dsd_agent/pptx_handler.py:10-20 | a placeholder holds the given fields and row group |
| PptxHandler.CandidatesAreLorem | dsd_agent/pptx_handler.py:96-111 | every placeholder found comes from a shape whose stripped text contains "lorem" in any case, carries the slide's index and title and the shape's name and text; a slide yields placeholders iff it has such a shape |
| PptxHandler.SortedTopsAscend | dsd_agent/pptx_handler.py:72 | sorting by top gives the tops non-decreasing, and the same tops |
| PptxHandler.AssignRowGroups | dsd_agent/pptx_handler.py:66-83 | returns the input list in its order (an empty list unchanged); each placeholder's row group is the single-pass row of its top in top-sorted order |
| PptxHandler.WalkSortedTops | dsd_agent/pptx_handler.py:72-81 | along the sorted list, each row group written is the one `Groups` gives |
| PptxHandler.SortByRowLeft | dsd_agent/pptx_handler.py:116 | a rearrangement of the placeholders sorted by (row group, left) |
| PptxHandler.LoremSlidesExact | dsd_agent/pptx_handler.py:91-122 | a slide index is listed iff the slide has a lorem shape |
| PptxHandler.LoremSlides | dsd_agent/pptx_handler.py:91-122 | the listed slide indices are in range and strictly ascending |
| PptxHandler.CollectPlaceholders | dsd_agent/pptx_handler.py:96-111 | builds new placeholders for exactly the slide's lorem shapes, in shape order |
| PptxHandler.ScanSlide | dsd_agent/pptx_handler.py:92-122 | a slide yields placeholders iff it has lorem shapes; those placeholders are its lorem shapes, row-assigned and sorted by (row, left) |
| PptxHandler.GroupAndSort | dsd_agent/pptx_handler.py:113-116 | the same placeholders, with row groups assigned, sorted by (row, left) |
| PptxHandler.ScanNext | dsd_agent/pptx_handler.py:91-122 | one more slide scanned keeps the scan invariant |
| PptxHandler.DSDDocument.FindArchitectureSlides | dsd_agent/pptx_handler.py:85-125 | the first call scans every slide (one entry per slide with lorem shapes, in slide order, holding its own lorem shapes); later calls return the cached list |
| PptxHandler.DSDDocument.UpdatePlaceholder | dsd_agent/pptx_handler.py:127-145 | the result and new slides are the corrected update: false and nothing changed for an out-of-range index or no named shape with text |
| PptxHandler.DSDDocument.UpdatePlaceholdersBatch | dsd_agent/pptx_handler.py:147-161 | applies the updates in order with the corrected update; count is the number that succeed, at most the number of updates |
| PptxHandler.DSDDocument.SavePath | dsd_agent/pptx_handler.py:163-168 | an explicit path is kept; otherwise the file goes beside the deck as `<stem>_populated<suffix>`, keeping the suffix |
| PptxHandler.TallyCounts | dsd_agent/pptx_handler.py:184-191 | the row table has ascending rows, positive counts, each row's count is the number of placeholders on it, and the counts sum to the list's length |
| PptxHandler.CountRows | dsd_agent/pptx_handler.py:184-191 | computes the row table |
| PptxHandler.RowLinesCoverSlide | dsd_agent/pptx_handler.py:184-191 | a slide's per-row counts sum to its number of placeholders |
| PptxHandler.Summarise | dsd_agent/pptx_handler.py:174-193 | the summary: a header, then for each slide its heading, its total and its row lines |
| PptxHandler.ScannedListed | dsd_agent/pptx_handler.py:85-125 | a full scan lists one entry per lorem slide, in slide order, with its title and placeholders for exactly its lorem shapes |
| PptxHandler.DSDDocument.GetSlideSummary | dsd_agent/pptx_handler.py:174-193 | the summary of the cached scan; on a first call the cache is a fresh scan, of which it states the slides listed, their titles and their placeholders |
| PptxSlides.FindTitle | dsd_agent/pptx_handler.py:45-60 | the first shape with non-empty stripped text under the length limit (placeholders only, when asked) |
| PptxSlides.SlideTitleChoice | dsd_agent/pptx_handler.py:45-60 | the title is the first placeholder text under 100 characters, else the first text under 80, else "Untitled"; it is never empty |
| PptxSlides.LoremIgnoresStrip | dsd_agent/pptx_handler.py:98-99 | stripping does not change whether the text contains "lorem" |
| PptxSlides.FirstParagraphWithRuns | dsd_agent/pptx_handler.py:137-140 | the first paragraph that has runs |
| PptxSlides.SetFrameTextTouchesOneRun | dsd_agent/pptx_handler.py:137-144 | a write changes one paragraph, the first with runs: its first run becomes the text and the other runs stay |
| PptxSlides.SetFrameTextIdempotent | dsd_agent/pptx_handler.py:137-144 | writing the same text twice equals writing it once |
| PptxSlides.TargetShape | dsd_agent/pptx_handler.py:134-135 | the first shape of that name with a text frame |
| PptxSlides.UpdateSlides | dsd_agent/pptx_handler.py:127-145 | succeeds iff the index is in range and a named shape with text exists; on failure the slides are unchanged |
| PptxSlides.UpdateIsLocal | dsd_agent/pptx_handler.py:127-145 | a successful update changes only the first matching shape of that slide |
| PptxSlides.UpdateKeepsWritable | dsd_agent/pptx_handler.py:127-145 | an update keeps every slide's shape count and which shapes are writable |
| PptxSlides.UpdateIdempotent | dsd_agent/pptx_handler.py:127-145 | repeating an update changes nothing more |
| PptxSlides.UpdateSlidesAsWritten | dsd_agent/pptx_handler.py:127-145 | the update as written: it raises IndexError exactly when the index is in range, the named writable shape exists and none of its paragraphs has runs; whenever it does not raise, it agrees with the corrected one |
| PptxSlides.AsWrittenFallbackRaises | dsd_agent/pptx_handler.py:141-144 | a shape with one empty paragraph makes the written update raise IndexError, where the corrected one writes the text |
| PptxSlides.CountApplicable | dsd_agent/pptx_handler.py:157-161 | the success count is at most the number of updates |
| PptxSlides.ApplicableAfterUpdates | dsd_agent/pptx_handler.py:147-161 | earlier updates never change whether a later one applies |
| Paths.StemSuffixSplit | dsd_agent/pptx_handler.py:165-167 | stem and suffix split the file name without loss; a suffix is empty or a dot and at least one character |
| Paths.PopulatedKeepsSuffix | dsd_agent/pptx_handler.py:165-167 | the populated name keeps the suffix and extends the stem with `_populated` |
| Paths.TrailingDotGainsSuffix | dsd_agent/pptx_handler.py:165-167 | a name ending in a dot has no suffix, and its populated name gains one |
| Mapping.PlaceholderNamed | dsd_agent/agent.py:246 | the slide's placeholder of that shape name, present iff some placeholder has the name |
| Mapping.CatalogEntry | dsd_agent/agent.py:247 | the catalogue component of that name, present iff some component has the name |
| Mapping.ResolveComponent | dsd_agent/agent.py:256-262 | a known name reuses the catalogue entry; an unknown one gives that name, category "unknown", the reasoning as description |
| Mapping.Reconcile | dsd_agent/agent.py:240-270 | the loop's mappings and the two comprehensions after it |
| Mapping.AcceptedRecordsExact | dsd_agent/agent.py:253 | exactly the records naming a placeholder of the slide are kept |
| Mapping.OnePairPerRecord | dsd_agent/agent.py:248-263 | one pair per accepted record, in input order, with no deduplication |
| Mapping.PairMeaning | dsd_agent/agent.py:253-263 | a pair holds the last placeholder of the record's name and the last catalogue component of its name, or the made-up one |
| Mapping.MappedShapesArePaired | dsd_agent/agent.py:263-264 | a shape name is marked mapped iff some pair holds it |
| Mapping.MappedComponentsExact | dsd_agent/agent.py:265-266 | a component name is marked mapped iff the catalogue has it and an accepted record gives it |
| Mapping.PlaceholdersPartitioned | dsd_agent/agent.py:269 | a placeholder is unmapped iff no pair holds its name, so each is in exactly one of the two lists |
| Mapping.UnusedComponentsExact | dsd_agent/agent.py:265-270 | unused components are exactly the catalogue entries whose name no accepted record gives; made-up names remove nothing |
| Mapping.DictSetFacts | dsd_agent/agent.py:288 | `d[k] = v` sets k, leaves other keys, and adds a key only if it is new |
| Mapping.LastPairWins | dsd_agent/agent.py:286-288 | the update dictionary has one entry per distinct (slide, shape), holding the last pair's component name |
| Mapping.CollectUpdates | dsd_agent/agent.py:286-288 | builds that dictionary |
| Agent.DetermineSlideType | dsd_agent/agent.py:174-186 | first match on the lower-cased title: "current", then "target"/"future", then "timeline", then "north star"/"vision", else Architecture Diagram |
| Agent.KeepsIgnoresCase | dsd_agent/agent.py:335 | the filter ignores the filter's case |
| Agent.KeepsOwnName | dsd_agent/agent.py:335 | a type's own name as filter keeps that type |
| Agent.SelectedExact | dsd_agent/agent.py:332-336 | the slides kept are those whose type contains the filter; all slides without a filter |
| Agent.PatternsFor | dsd_agent/agent.py:199-208 | the last pattern analysis's patterns when asked for and present, otherwise none |
| Agent.MappingOutcome | dsd_agent/agent.py:225-279 | a result iff the reply parses; it carries the slide's index, title and the patterns; a reply with no brace span raises ValueError with its first 500 characters; a brace span that fails to decode raises JSONDecodeError with that span |
| Agent.NothingAccepted | dsd_agent/agent.py:240-279 | when no record names a placeholder, nothing is mapped and everything is unmapped |
| Agent.FirstWithIndex | dsd_agent/agent.py:303-307 | the first architecture slide with the index |
| Agent.SlideOutcome | dsd_agent/agent.py:302-317 | "not found" (index + 1) iff no slide has the index; a result is for that slide |
| Agent.RunAll | dsd_agent/agent.py:332-345 | results in order up to the first raise, which ends the run |
| Agent.RunStops | dsd_agent/agent.py:332-345 | nothing after a raise counts |
| Agent.DSDAgent.CreateMapping | dsd_agent/agent.py:188-279 | the mapping outcome for the slide, catalogue and reply |
| Agent.DSDAgent.ApplyMapping | dsd_agent/agent.py:281-290 | raises without a document; otherwise applies the last-wins update dictionary with the corrected update and returns its success count |
| Agent.DSDAgent.PopulateSlide | dsd_agent/agent.py:292-317 | raises without a document; otherwise the outcome for the scanned slide with that index ("not found" when none), applied to the deck with the corrected update unless a dry run; a first scan lists exactly the lorem slides with their titles and placeholders |
| Agent.DSDAgent.PopulateAllSlides | dsd_agent/agent.py:319-345 | maps the scanned slides the filter keeps, in order; applies each result with the corrected update unless a dry run; the first parse error ends the run and keeps earlier writes; a first scan lists exactly the lorem slides with their titles and placeholders |
| Agent.FormatPlaceholders | dsd_agent/agent.py:145-160 | the prompt lines: a row header when the row changes, then one line per placeholder |
| Agent.PromptListsAll | dsd_agent/agent.py:145-160 | every placeholder is listed once, in order |
| Agent.HeadersAscend | dsd_agent/agent.py:148-153 | with rows sorted, row headers strictly ascend |
| Agent.FormattedRows | dsd_agent/agent.py:145-160 | for a deck's rows: all placeholders listed, and one header per distinct row, ascending |
| Agent.GetMappingSummary | dsd_agent/agent.py:353-373 | the summary lines of a mapping result |
| Agent.PairLinesShape | dsd_agent/agent.py:360-361 | one line per pair, naming the component and the last 15 characters of the shape name |
| Agent.UnusedLinesShape | dsd_agent/agent.py:366-371 | unused components: a count, up to 5 names, then "and n more" when there are over 5 |
| GoogleSlides.DimensionToInches | dsd_agent/google_slides.py:129-137 | EMU (or no unit) divides by 914400, PT by 72, another unit keeps the magnitude; a missing magnitude is 0 |
| GoogleSlides.ScanInches | dsd_agent/google_slides.py:167-173 | the scan divides by 914400 whatever the unit: it agrees with the converter for EMU and differs for PT |
| GoogleSlides.FirstShort | dsd_agent/google_slides.py:117-125 | the first run whose stripped text is non-empty and under 80 characters |
| GoogleSlides.GetSlideTitle | dsd_agent/google_slides.py:106-127 | the first run of the first TITLE shape, stripped (even if empty); else the first short run; else "Untitled" |
| GoogleSlides.LoremRunSuffices | dsd_agent/google_slides.py:158-165 | a run containing "lorem" makes its shape a placeholder |
| GoogleSlides.LoremAcrossRuns | dsd_agent/google_slides.py:158-165 | "lorem" split over two runs is found, though neither run has it |
| GoogleSlides.LoremPages | dsd_agent/google_slides.py:149-197 | the listed slide indices are in range and ascending |
| GoogleSlides.LoremPagesExact | dsd_agent/google_slides.py:149-197 | a slide index is listed iff the slide has a lorem shape |
| GoogleSlides.FullText | dsd_agent/google_slides.py:160-163 | the concatenation of the shape's text runs |
| GoogleSlides.ElementPlaceholder | dsd_agent/google_slides.py:153-186 | a new placeholder for a lorem shape element and none otherwise |
| GoogleSlides.ElementPlaceholders | dsd_agent/google_slides.py:153-186 | new placeholders for exactly the slide's lorem shapes, in element order |
| GoogleSlides.ScanPage | dsd_agent/google_slides.py:150-197 | a slide's placeholders, row-assigned and sorted by (row, left), present iff it has lorem shapes |
| GoogleSlides.ScanNextPage | dsd_agent/google_slides.py:149-197 | one more slide scanned keeps the scan invariant |
| GoogleSlides.RequestsPaired | dsd_agent/google_slides.py:257-271 | two requests per update, in order: delete all text, then insert the text at index 0 |
| GoogleSlides.BuildRequests | dsd_agent/google_slides.py:257-271 | builds that request list |
| GoogleSlides.GoogleSlidesDocument.LoadPresentation | dsd_agent/google_slides.py:88-98 | connects when needed, then stores the presentation and its id |
| GoogleSlides.GoogleSlidesDocument.FindArchitectureSlides | dsd_agent/google_slides.py:139-200 | returns the cache when present; [] without caching when nothing is loaded; otherwise scans every slide and caches |
| GoogleSlides.GoogleSlidesDocument.UpdatePlaceholder | dsd_agent/google_slides.py:219-250 | false and nothing sent when not connected; otherwise sends the paired requests and reports the call's success |
| GoogleSlides.GoogleSlidesDocument.UpdatePlaceholdersBatch | dsd_agent/google_slides.py:252-284 | 0 and nothing sent when not connected or with no updates; otherwise one batch of paired requests, counting all updates on success and 0 on failure |
| GoogleSlides.GoogleSlideType | dsd_agent/google_slides.py:395-405 | first match on "current", "target"/"future", "timeline", else Architecture Diagram; never Vision/Goals; the agent's classifier with its vision rule removed |
| GoogleSlides.GoogleMappingOutcome | dsd_agent/google_slides.py:428-478 | a result iff the reply parses, without patterns; a reply with no brace span raises ValueError without its text; otherwise (a result, or a brace span that fails to decode) the same as the pptx agent's |
| GoogleSlides.GoogleSlidesAgent.CreateMapping | dsd_agent/google_slides.py:407-478 | that outcome |
| GoogleSlides.GoogleSlidesAgent.ApplyMapping | dsd_agent/google_slides.py:480-486 | the last-wins update dictionary sent as one batch; 0 and nothing sent with no mappings or no connection |
| GoogleSlides.UpdatesNonEmpty | dsd_agent/google_slides.py:273-274 | the update dictionary is empty iff there are no mappings |
| IntegrationPatterns.FromValueSound | dsd_agent/integration_patterns.py:10-51 | a parsed member has exactly that value |
| IntegrationPatterns.ValueRoundTrip | dsd_agent/integration_patterns.py:10-51 | every member's value parses back to it |
| IntegrationPatterns.FromValueRejects | dsd_agent/integration_patterns.py:10-51 | a string is rejected iff it is no member's value |
| IntegrationPatterns.ParsePatternType | dsd_agent/integration_patterns.py:208-211 | a known value gives its member; a missing or unknown one gives UNKNOWN |
| IntegrationPatterns.ParsePatternTypeRoundTrip | dsd_agent/integration_patterns.py:208-211 | every member's value parses to that member |
| IntegrationPatterns.PatternFromRecord | dsd_agent/integration_patterns.py:206-221 | each field as given, or its default (name "Unknown", confidence 0.5, empty text and lists) |
| IntegrationPatterns.PatternRecordRoundTrip | dsd_agent/integration_patterns.py:206-221 | a pattern written as a record reads back unchanged |
| IntegrationPatterns.AnalysisFromRecord | dsd_agent/integration_patterns.py:206-235 | every pattern read; primary defaults to UNKNOWN, style to "hybrid", lists to empty |
| IntegrationPatterns.AnalyzeComponentsReply | dsd_agent/integration_patterns.py:188-235 | a parsed reply gives its analysis; one with no brace span raises the fixed ValueError; a brace span that fails to decode raises JSONDecodeError with that span |
| IntegrationPatterns.ThreeRanked | dsd_agent/integration_patterns.py:264-293 | three conditional appends keep exactly the patterns whose test holds, in order |
| IntegrationPatterns.DetectLegacyPatterns | dsd_agent/integration_patterns.py:261-293 | ESB iff a name has "esb"/"bus"; point-to-point iff "direct"/"connector"; batch iff "batch"/"etl"/"scheduler"; in that order, each at most once |
| IntegrationPatterns.SuggestModernPatterns | dsd_agent/integration_patterns.py:295-330 | API Gateway iff a name has "api"/"gateway"; Event-Driven iff "event"/"kafka"/"queue"/"message"; Service Mesh iff over 10 components; in that order |
| IntegrationPatterns.RouteFor | dsd_agent/integration_patterns.py:243-259 | integration keywords first, then "current state", then "target state"/"future", else nothing |
| IntegrationPatterns.SuggestPatternsForSlide | dsd_agent/integration_patterns.py:237-259 | by the route: the full analysis's patterns or its error; on the legacy and modern routes each of the detector's three patterns is present iff its keywords (or, for the mesh, more than ten components) say so, in rank order; otherwise none |
| IntegrationPatterns.LeadingNames | dsd_agent/integration_patterns.py:357 | the names of the first three patterns, or of all of them when there are fewer |
| IntegrationPatterns.GetPatternRecommendations | dsd_agent/integration_patterns.py:332-377 | "async" gives Event-Driven, "sync" API-First, else Hybrid, each with its technologies; the summary names primary, style and leading names; risks are the concerns |
| IntegrationPatterns.ImplementationOrder | dsd_agent/integration_patterns.py:364-372 | the implementation order for the patterns |
| IntegrationPatterns.OrderSteps | dsd_agent/integration_patterns.py:364-372 | gateway step iff asked for, and first; broker step iff asked for; always ends with service integration, then monitoring |
| ImageAnalyzer.ComponentFromRecord | dsd_agent/image_analyzer.py:206-213 | each field as given, or its default (name "Unknown", category "unknown", empty text) |
| ImageAnalyzer.ComponentRecordRoundTrip | dsd_agent/image_analyzer.py:206-213 | a component written as a record reads back unchanged |
| ImageAnalyzer.MediaTypeFor | dsd_agent/image_analyzer.py:96-106 | by lower-cased suffix: .jpg/.jpeg to jpeg, .gif, .webp, anything else to png |
| ImageAnalyzer.CompressImage | dsd_agent/image_analyzer.py:36-83 | returns the first on-schedule encoding (95, 85 … 25, then 80% size and 85 …) that fits, or the last one when the image can no longer shrink; every resize done left both sides at least 100; always jpeg |
| ImageAnalyzer.CompressedUnique | dsd_agent/image_analyzer.py:36-83 | the compression loop's outcome is determined by the image: two outcomes meeting its contract are the same size, quality and number of resizes |
| ImageAnalyzer.ShrinkNBound | dsd_agent/image_analyzer.py:73-75 | shrinking never grows a dimension |
| ImageAnalyzer.EncodeImage | dsd_agent/image_analyzer.py:86-117 | files up to 4,500,000 bytes are sent as they are with their suffix's type; larger ones are sent as jpeg, as the outcome of the compression loop on the file's pixel size, no larger than the file |
| ImageAnalyzer.ComponentsOf | dsd_agent/image_analyzer.py:206-213 | one component per record, with its defaults |
| ImageAnalyzer.AnalyzeReply | dsd_agent/image_analyzer.py:188-220 | a parsed reply gives its components, layers and source type; one with no brace span raises ValueError with the first 500 characters; a brace span that fails to decode raises JSONDecodeError with that span |
| Responses.BeforeFirst | dsd_agent/image_analyzer.py:191-194 | `s.split(sep)[0]`: the longest prefix without the separator |
| Responses.StripFences | dsd_agent/image_analyzer.py:191-194 | the fenced text is never longer than the reply; which part of it is kept is stated by StripFencesShape and StrayBacktickKept |
| Responses.StrayBacktickKept | dsd_agent/image_analyzer.py:191-192 | a two-character body followed by a backtick and a second ```` ```json ```` keeps that backtick: the split ends at the second opening fence before cutting at ```` ``` ```` |
| Responses.StrayBacktickData | dsd_agent/image_analyzer.py:191-192 | on ````` ```json{}````json ````` the fenced text is `{}` plus a backtick, not a bare `{}` |
| Responses.StripFencesShape | dsd_agent/image_analyzer.py:191-194 | no fence leaves the text; otherwise the result holds no fence and follows the first ```` ```json ```` or ```` ``` ```` |
| Responses.StripFencesIdempotent | dsd_agent/image_analyzer.py:191-194 | stripping fences twice equals once |
| Responses.ExtractBraces | dsd_agent/image_analyzer.py:199-202 | present iff a `{` precedes a `}`; then the text from the first `{` to the last `}` |
| Responses.ParseReply | dsd_agent/image_analyzer.py:189-204 | the data of the stripped text when it decodes; otherwise the data of the brace span when it decodes; otherwise no brace span, or the undecodable span |
| Responses.ErrorWithText | dsd_agent/image_analyzer.py:204 | the message is the prefix followed by exactly the first 500 characters of the text (all of it when shorter) |

## Left out

- Language-model calls and prompt text: the reply is a parameter. The MAPPING and
  analysis prompts, and `_format_components`, only shape what is sent.
- `json.loads` is a decoder parameter. JSON `null` and values of the wrong type are not
  modelled: a field is absent or well typed.
- python-pptx and the Google API are datatypes. A Google `batchUpdate` is a success flag
  plus a log of the batches sent. Credentials, `connect` and `_get_credentials` are left
  out, and the service is a boolean.
- PIL: the encoded size is a function parameter; `int(w * 0.8)` is `(w * 4) / 5` on
  naturals; the LANCZOS pixels are not modelled.
- CompressImage: the resize loop is modelled on sizes alone. Which bytes come back, and
  the base64 encoding in `encode_image`, are left out.
- Floats are reals, so rounding in the division by 914400 is not modelled.
- Lower-casing is ASCII only. `strip` uses Python's `isspace` set.
- Summaries are structured line datatypes. The `:.1f` and `:.0%` formatting and the
  final `"\n".join` are left out.
- A missing component name in a mapping record becomes the empty string.
- An empty Google presentation dictionary is treated as loaded with no slides.
- The Google `update_placeholder` ignores its slide index, as the source does.
- GoogleSlidesAgent `populate_slide`, `populate_all_slides`, `_format_placeholders`,
  `get_slide_summary` and `get_mapping_summary` are left out. They repeat the pptx
  versions, which are modelled.
- `DSDAgent.analyze_source`, `analyze_integration_patterns`, `get_integration_summary`,
  `get_pattern_recommendations` and `load_document` are left out. They only forward to
  the analyzers and the document, and store the last analysis, which is a field here.
- `format_pattern_summary` and `BANKING_INTEGRATION_TEMPLATES` are left out: text only.
- The command line, GUI and interactive front ends are left out, as is file I/O.
- PptxHandler.DSDDocument.FindArchitectureSlides: the cache is never invalidated, as in
  the source, even after updates.
- GoogleSlides.GoogleSlidesDocument.LoadPresentation keeps an existing cache, as the
  source does.
- Agent.DSDAgent.PopulateAllSlides: after a raise, the deck keeps the earlier writes.
  The result is the error, not the partial list.
- PptxHandler.DSDDocument.UpdatePlaceholdersBatch, Agent.DSDAgent.ApplyMapping,
  Agent.DSDAgent.PopulateSlide and Agent.DSDAgent.PopulateAllSlides: built on the
  corrected update (see Findings). The IndexError that the written fallback raises for
  a named shape with no runs is not propagated: the model writes the text, counts the
  update as a success and goes on, where the source's batch, apply and populate calls
  would end with the error.
- GetSlideSummary: on a first call it states the slides, titles and placeholders of the
  fresh scan, not the row groups it assigned, whose rows the summary counts;
  PptxHandler.DSDDocument.FindArchitectureSlides states those.
- Agent.DSDAgent.PopulateSlide and Agent.DSDAgent.PopulateAllSlides: on a first scan they
  state which slides, titles and placeholders are found (as a multiset per slide), not
  the placeholders' row groups or their order within the slide, which fix the order of
  the unmapped placeholders in a result.
- A paragraph's text is the text of its runs. Line breaks (`a:br`, which
  `text_frame.text` gives as a vertical tab) and fields (`a:fld`) are not modelled, so
  a title or placeholder text holding them is shorter in the model, and a paragraph
  holding only a field has no runs here.
- GoogleSlides.ScanInches: the size is divided by 914400 whatever its unit, as
  written, while `_emu_to_inches` honours the unit.

## Findings

| source | as written | input that shows it | evidently intended | confidence | as-written member | corrected member |
|---|---|---|---|---|---|---|
| dsd_agent/pptx_handler.py:141-144 | the fallback writes `paragraphs[0].runs[0]`, but it is reached only when no paragraph has runs, so it always raises IndexError | one shape "Box 1" whose text frame has a single empty paragraph, updated on slide 0 | write the text into the first paragraph (or return False) | not executed | PptxSlides.UpdateSlidesAsWritten, PptxSlides.AsWrittenFallbackRaises | PptxSlides.UpdateSlides |
