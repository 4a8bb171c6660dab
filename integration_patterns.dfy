/** The rule-based part of `dsd_agent/integration_patterns.py`: the pattern enum and
    its fallback parsing, how a decoded analysis reply becomes an `IntegrationAnalysis`,
    the keyword detectors for legacy and modern architectures, the dispatch on a
    slide's title, and the recommendation rules. */
module IntegrationPatterns {
  import opened Wrappers
  import opened Text
  import opened Sorting
  import opened Responses
  import opened ImageAnalyzer

  /** `IntegrationPatternType`. */
  datatype PatternType =
    | PointToPoint | PublishSubscribe | RequestReply | MessageBroker
    | ApiGateway | Esb | ServiceMesh | Bff
    | EventDriven | EventSourcing | Cqrs
    | Saga | CircuitBreaker | Sidecar | StranglerFig
    | DataLake | DataWarehouse | Cdc | Etl
    | OauthOidc | ApiKey | Mtls | ZeroTrust
    | Batch | RealTime | Hybrid | Unknown

  /** The enum member's `value`. */
  function Value(t: PatternType): string {
    match t
    case PointToPoint => "point_to_point"
    case PublishSubscribe => "publish_subscribe"
    case RequestReply => "request_reply"
    case MessageBroker => "message_broker"
    case ApiGateway => "api_gateway"
    case Esb => "enterprise_service_bus"
    case ServiceMesh => "service_mesh"
    case Bff => "backend_for_frontend"
    case EventDriven => "event_driven"
    case EventSourcing => "event_sourcing"
    case Cqrs => "cqrs"
    case Saga => "saga"
    case CircuitBreaker => "circuit_breaker"
    case Sidecar => "sidecar"
    case StranglerFig => "strangler_fig"
    case DataLake => "data_lake"
    case DataWarehouse => "data_warehouse"
    case Cdc => "change_data_capture"
    case Etl => "etl"
    case OauthOidc => "oauth_oidc"
    case ApiKey => "api_key"
    case Mtls => "mtls"
    case ZeroTrust => "zero_trust"
    case Batch => "batch"
    case RealTime => "real_time"
    case Hybrid => "hybrid"
    case Unknown => "unknown"
  }

  /** The member whose value has length `n` and first character `c`, if any: no two
      values agree on both, so this indexes the enum's table of values. */
  function Candidate(n: nat, c: char): Option<PatternType> {
    if n == 3 then if c == 'e' then Some(Etl) else None
    else if n == 4 then if c == 'c' then Some(Cqrs) else if c == 's' then Some(Saga) else if c == 'm' then Some(Mtls) else None
    else if n == 5 then if c == 'b' then Some(Batch) else None
    else if n == 6 then if c == 'h' then Some(Hybrid) else None
    else if n == 7 then if c == 's' then Some(Sidecar) else if c == 'a' then Some(ApiKey) else if c == 'u' then Some(Unknown) else None
    else if n == 9 then if c == 'd' then Some(DataLake) else if c == 'r' then Some(RealTime) else None
    else if n == 10 then if c == 'o' then Some(OauthOidc) else if c == 'z' then Some(ZeroTrust) else None
    else if n == 11 then if c == 'a' then Some(ApiGateway) else None
    else if n == 12 then if c == 's' then Some(ServiceMesh) else if c == 'e' then Some(EventDriven) else None
    else if n == 13 then if c == 'r' then Some(RequestReply) else if c == 's' then Some(StranglerFig) else None
    else if n == 14 then if c == 'p' then Some(PointToPoint) else if c == 'm' then Some(MessageBroker) else if c == 'e' then Some(EventSourcing) else if c == 'd' then Some(DataWarehouse) else None
    else if n == 15 then if c == 'c' then Some(CircuitBreaker) else None
    else if n == 17 then if c == 'p' then Some(PublishSubscribe) else None
    else if n == 19 then if c == 'c' then Some(Cdc) else None
    else if n == 20 then if c == 'b' then Some(Bff) else None
    else if n == 22 then if c == 'e' then Some(Esb) else None
    else None
  }

  /** `IntegrationPatternType(s)`: the member whose value is `s`; `None` stands for the
      `ValueError` the enum raises for any other string. */
  function FromValue(s: string): Option<PatternType> {
    if s == [] then None
    else match Candidate(|s|, s[0])
      case Some(t) => if Value(t) == s then Some(t) else None
      case None => None
  }

  /** A parsed member has the parsed string as its value. */
  lemma FromValueSound(s: string)
    ensures FromValue(s).Some? ==> Value(FromValue(s).value) == s
  {
  }

  /** Values are distinct, so a member's value parses back to that member. */
  lemma ValueRoundTrip(t: PatternType)
    ensures FromValue(Value(t)) == Some(t)
  {
    ValueIndexed(t);
  }

  /** Each value's length and first character lead back to its member. */
  lemma ValueIndexed(t: PatternType)
    ensures Value(t) != [] && Candidate(|Value(t)|, Value(t)[0]) == Some(t)
  {
    match t
    case PointToPoint => case PublishSubscribe => case RequestReply => case MessageBroker =>
    case ApiGateway => case Esb => case ServiceMesh => case Bff =>
    case EventDriven => case EventSourcing => case Cqrs =>
    case Saga => case CircuitBreaker => case Sidecar => case StranglerFig =>
    case DataLake => case DataWarehouse => case Cdc => case Etl =>
    case OauthOidc => case ApiKey => case Mtls => case ZeroTrust =>
    case Batch => case RealTime => case Hybrid => case Unknown =>
  }

  /** Exactly the strings that are no member's value are rejected. */
  lemma FromValueRejects(s: string)
    ensures FromValue(s).None? <==> forall t: PatternType :: Value(t) != s
  {
    forall t: PatternType ensures FromValue(s).None? ==> Value(t) != s {
      ValueRoundTrip(t);
    }
  }

  /** The `try: IntegrationPatternType(p.get(key, "unknown")) except ValueError: UNKNOWN`
      of `analyze_components`: a missing field reads as "unknown", and a string that is
      no member's value falls back to UNKNOWN instead of raising. */
  function ParsePatternType(field: Option<string>): (t: PatternType)
    ensures field.None? ==> t == Unknown
    ensures field.Some? && FromValue(field.value).Some? ==> t == FromValue(field.value).value
    ensures field.Some? && FromValue(field.value).None? ==> t == Unknown
  {
    match FromValue(field.GetOr("unknown"))
    case Some(t) => t
    case None => Unknown
  }

  /** Parsing a written-out member gives it back, and it never fails. */
  lemma ParsePatternTypeRoundTrip(t: PatternType)
    ensures ParsePatternType(Some(Value(t))) == t
  {
    ValueRoundTrip(t);
  }

  // ---------------------------------------------------------------- patterns and analyses

  /** `IntegrationPattern`; `confidence` is a real in the model. */
  datatype IntegrationPattern = IntegrationPattern(
    patternType: PatternType,
    name: string,
    description: string,
    componentsInvolved: seq<string>,
    dataFlow: string,
    protocols: seq<string>,
    confidence: real)

  /** `IntegrationAnalysis`. */
  datatype IntegrationAnalysis = IntegrationAnalysis(
    patterns: seq<IntegrationPattern>,
    primaryPattern: PatternType,
    integrationStyle: string,
    recommendedTechnologies: seq<string>,
    concerns: seq<string>,
    rawAnalysis: string)

  /** A decoded entry of the reply's "patterns" list: each field may be missing. */
  datatype PatternRecord = PatternRecord(
    patternType: Option<string>,
    name: Option<string>,
    description: Option<string>,
    componentsInvolved: Option<seq<string>>,
    dataFlow: Option<string>,
    protocols: Option<seq<string>>,
    confidence: Option<real>)

  /** The decoded top-level object of an integration analysis reply. */
  datatype IntegrationRecord = IntegrationRecord(
    patterns: Option<seq<PatternRecord>>,
    primaryPattern: Option<string>,
    integrationStyle: Option<string>,
    recommendedTechnologies: Option<seq<string>>,
    concerns: Option<seq<string>>)

  /** One pattern built with the defaults of `p.get(...)`. */
  function PatternFromRecord(p: PatternRecord): (r: IntegrationPattern)
    ensures r.patternType == ParsePatternType(p.patternType)
    ensures r.name == (if p.name.Some? then p.name.value else "Unknown")
    ensures r.description == (if p.description.Some? then p.description.value else "")
    ensures r.componentsInvolved == (if p.componentsInvolved.Some? then p.componentsInvolved.value else [])
    ensures r.dataFlow == (if p.dataFlow.Some? then p.dataFlow.value else "")
    ensures r.protocols == (if p.protocols.Some? then p.protocols.value else [])
    ensures r.confidence == (if p.confidence.Some? then p.confidence.value else 0.5)
  {
    IntegrationPattern(ParsePatternType(p.patternType), p.name.GetOr("Unknown"), p.description.GetOr(""),
                       p.componentsInvolved.GetOr([]), p.dataFlow.GetOr(""), p.protocols.GetOr([]),
                       p.confidence.GetOr(0.5))
  }

  /** A pattern written out with every field present reads back as itself. */
  function RecordOfPattern(p: IntegrationPattern): PatternRecord {
    PatternRecord(Some(Value(p.patternType)), Some(p.name), Some(p.description), Some(p.componentsInvolved),
                  Some(p.dataFlow), Some(p.protocols), Some(p.confidence))
  }

  lemma PatternRecordRoundTrip(p: IntegrationPattern)
    ensures PatternFromRecord(RecordOfPattern(p)) == p
  {
    ValueRoundTrip(p.patternType);
  }

  /** The analysis a decoded reply describes; `text` is the fence-stripped reply. */
  function AnalysisFromRecord(data: IntegrationRecord, text: string): (a: IntegrationAnalysis)
    ensures var recs := data.patterns.GetOr([]);
      |a.patterns| == |recs| && forall i :: 0 <= i < |recs| ==> a.patterns[i] == PatternFromRecord(recs[i])
    ensures a.primaryPattern == ParsePatternType(data.primaryPattern)
    ensures a.integrationStyle == (if data.integrationStyle.Some? then data.integrationStyle.value else "hybrid")
    ensures a.recommendedTechnologies == (if data.recommendedTechnologies.Some? then data.recommendedTechnologies.value else [])
    ensures a.concerns == (if data.concerns.Some? then data.concerns.value else [])
    ensures a.rawAnalysis == text
  {
    IntegrationAnalysis(MapSeq(data.patterns.GetOr([]), PatternFromRecord), ParsePatternType(data.primaryPattern),
                        data.integrationStyle.GetOr("hybrid"), data.recommendedTechnologies.GetOr([]),
                        data.concerns.GetOr([]), text)
  }

  /** `analyze_components` after the model call. A reply without a JSON object raises a
      `ValueError` whose message carries none of the reply. */
  function AnalyzeComponentsReply(reply: string, decode: string -> Option<IntegrationRecord>)
    : (r: Result<IntegrationAnalysis, AnalyzerError>)
    ensures ParseReply(reply, decode).Ok? ==>
      r == Ok(AnalysisFromRecord(ParseReply(reply, decode).value.data, StripFences(reply)))
    ensures ParseReply(reply, decode) == Err(NoJsonObject(StripFences(reply))) ==>
      r == Err(ValueError("Could not parse integration analysis"))
    ensures ParseReply(reply, decode) == Err(MalformedJson(BraceSpan(reply))) ==> r == Err(JsonDecodeError(BraceSpan(reply)))
    ensures ParseReply(reply, decode).Err? ==> r.Err?
  {
    match ParseReply(reply, decode)
    case Err(NoJsonObject(_)) => Err(ValueError("Could not parse integration analysis"))
    case Err(MalformedJson(span)) => Err(JsonDecodeError(span))
    case Ok(Parsed(data, text)) => Ok(AnalysisFromRecord(data, text))
  }

  // ---------------------------------------------------------------- keyword detection

  /** `c.name.lower()`. */
  function LowerName(c: SystemComponent): string {
    Lower(c.name)
  }

  /** `any(kw1 in n or kw2 in n ... for n in names)`. */
  predicate AnyHas(names: seq<string>, keywords: seq<string>) {
    exists i, k :: 0 <= i < |names| && 0 <= k < |keywords| && Contains(names[i], keywords[k])
  }

  const EsbWords: seq<string> := ["esb", "bus"]
  const DirectWords: seq<string> := ["direct", "connector"]
  const BatchWords: seq<string> := ["batch", "etl", "scheduler"]
  const GatewayWords: seq<string> := ["api", "gateway"]
  const EventWords: seq<string> := ["event", "kafka", "queue", "message"]

  const EsbPattern: IntegrationPattern :=
    IntegrationPattern(Esb, "Enterprise Service Bus", "Centralized integration hub for legacy systems", [], "", [], 0.9)
  const PointToPointPattern: IntegrationPattern :=
    IntegrationPattern(PointToPoint, "Point-to-Point Integration", "Direct connections between systems", [], "", [], 0.7)
  const BatchPattern: IntegrationPattern :=
    IntegrationPattern(Batch, "Batch Processing", "Scheduled batch data transfers", [], "", [], 0.8)
  const GatewayPattern: IntegrationPattern :=
    IntegrationPattern(ApiGateway, "API Gateway", "Centralized API management and routing", [], "",
                       ["REST", "GraphQL", "gRPC"], 0.9)
  const EventPattern: IntegrationPattern :=
    IntegrationPattern(EventDriven, "Event-Driven Architecture", "Asynchronous event-based communication", [], "",
                       ["Kafka", "AMQP", "CloudEvents"], 0.85)
  const MeshPattern: IntegrationPattern :=
    IntegrationPattern(ServiceMesh, "Service Mesh", "Infrastructure layer for service-to-service communication", [], "",
                       ["Istio", "Linkerd", "Envoy"], 0.6)

  /** Where a detector's pattern stands in its output order. */
  function Rank(p: IntegrationPattern): nat {
    match p.patternType
    case Esb => 0
    case PointToPoint => 1
    case Batch => 2
    case ApiGateway => 0
    case EventDriven => 1
    case ServiceMesh => 2
    case _ => 3
  }

  /** Each pattern comes after every pattern of lower rank, so none appears twice. */
  predicate InRankOrder(ps: seq<IntegrationPattern>) {
    forall i, j :: 0 <= i < j < |ps| ==> Rank(ps[i]) < Rank(ps[j])
  }

  /** `[p]` when `b` holds, else nothing. */
  function Include(b: bool, p: IntegrationPattern): seq<IntegrationPattern> {
    if b then [p] else []
  }

  /** Three conditional appends of patterns of increasing rank keep exactly the patterns
      whose condition holds, in rank order. */
  lemma ThreeRanked(a: bool, b: bool, c: bool, p: IntegrationPattern, q: IntegrationPattern, r: IntegrationPattern)
    requires Rank(p) < Rank(q) < Rank(r)
    ensures var ps := Include(a, p) + Include(b, q) + Include(c, r);
      && (p in ps <==> a) && (q in ps <==> b) && (r in ps <==> c)
      && (forall x :: x in ps ==> x == p || x == q || x == r)
      && InRankOrder(ps)
  {
  }

  /** `_detect_legacy_patterns`: ESB, then point-to-point, then batch, each when some
      lower-cased component name contains one of its keywords. */
  method DetectLegacyPatterns(components: seq<SystemComponent>) returns (patterns: seq<IntegrationPattern>)
    ensures EsbPattern in patterns <==> AnyHas(MapSeq(components, LowerName), EsbWords)
    ensures PointToPointPattern in patterns <==> AnyHas(MapSeq(components, LowerName), DirectWords)
    ensures BatchPattern in patterns <==> AnyHas(MapSeq(components, LowerName), BatchWords)
    ensures forall p :: p in patterns ==> p == EsbPattern || p == PointToPointPattern || p == BatchPattern
    ensures InRankOrder(patterns)
  {
    var names := MapSeq(components, LowerName);
    var esb, direct, batch := AnyHas(names, EsbWords), AnyHas(names, DirectWords), AnyHas(names, BatchWords);
    patterns := [];
    if esb {
      patterns := patterns + [EsbPattern];
    }
    if direct {
      patterns := patterns + [PointToPointPattern];
    }
    if batch {
      patterns := patterns + [BatchPattern];
    }
    assert patterns == Include(esb, EsbPattern) + Include(direct, PointToPointPattern) + Include(batch, BatchPattern);
    ThreeRanked(esb, direct, batch, EsbPattern, PointToPointPattern, BatchPattern);
  }

  /** `_suggest_modern_patterns`: API gateway and event-driven by keyword, then a service
      mesh when there are more than ten components. */
  method SuggestModernPatterns(components: seq<SystemComponent>) returns (patterns: seq<IntegrationPattern>)
    ensures GatewayPattern in patterns <==> AnyHas(MapSeq(components, LowerName), GatewayWords)
    ensures EventPattern in patterns <==> AnyHas(MapSeq(components, LowerName), EventWords)
    ensures MeshPattern in patterns <==> |components| > 10
    ensures forall p :: p in patterns ==> p == GatewayPattern || p == EventPattern || p == MeshPattern
    ensures InRankOrder(patterns)
  {
    var names := MapSeq(components, LowerName);
    var gateway, event, mesh := AnyHas(names, GatewayWords), AnyHas(names, EventWords), |components| > 10;
    patterns := [];
    if gateway {
      patterns := patterns + [GatewayPattern];
    }
    if event {
      patterns := patterns + [EventPattern];
    }
    if mesh {
      patterns := patterns + [MeshPattern];
    }
    assert patterns == Include(gateway, GatewayPattern) + Include(event, EventPattern) + Include(mesh, MeshPattern);
    ThreeRanked(gateway, event, mesh, GatewayPattern, EventPattern, MeshPattern);
  }

  // ---------------------------------------------------------------- slide dispatch

  /** Which detector `suggest_patterns_for_slide` uses for a title. */
  datatype Route = FullAnalysis | LegacyDetection | ModernSuggestion | NoSuggestion

  const IntegrationWords: seq<string> := ["integration", "connect", "interface", "api"]

  /** The first matching rule on the lower-cased title. */
  function RouteFor(title: string): (r: Route)
    ensures r == FullAnalysis <==> AnyHas([Lower(title)], IntegrationWords)
    ensures r == LegacyDetection <==> !AnyHas([Lower(title)], IntegrationWords) && Contains(Lower(title), "current state")
    ensures r == ModernSuggestion <==>
      !AnyHas([Lower(title)], IntegrationWords) && !Contains(Lower(title), "current state")
      && (Contains(Lower(title), "target state") || Contains(Lower(title), "future"))
  {
    var t := Lower(title);
    if AnyHas([t], IntegrationWords) then FullAnalysis
    else if Contains(t, "current state") then LegacyDetection
    else if Contains(t, "target state") || Contains(t, "future") then ModernSuggestion
    else NoSuggestion
  }

  /** `suggest_patterns_for_slide`; `analysis` is what `analyze_components` makes of the
      components (a model call), used only on the full-analysis route. */
  method SuggestPatternsForSlide(title: string, components: seq<SystemComponent>,
                                 analysis: Result<IntegrationAnalysis, AnalyzerError>)
    returns (r: Result<seq<IntegrationPattern>, AnalyzerError>)
    ensures RouteFor(title) == FullAnalysis ==>
      r == (if analysis.Ok? then Ok(analysis.value.patterns) else Err(analysis.error))
    ensures RouteFor(title) == LegacyDetection ==>
      var names := MapSeq(components, LowerName);
      && r.Ok?
      && (EsbPattern in r.value <==> AnyHas(names, EsbWords))
      && (PointToPointPattern in r.value <==> AnyHas(names, DirectWords))
      && (BatchPattern in r.value <==> AnyHas(names, BatchWords))
      && forall p :: p in r.value ==> p == EsbPattern || p == PointToPointPattern || p == BatchPattern
    ensures RouteFor(title) == ModernSuggestion ==>
      var names := MapSeq(components, LowerName);
      && r.Ok?
      && (GatewayPattern in r.value <==> AnyHas(names, GatewayWords))
      && (EventPattern in r.value <==> AnyHas(names, EventWords))
      && (MeshPattern in r.value <==> |components| > 10)
      && forall p :: p in r.value ==> p == GatewayPattern || p == EventPattern || p == MeshPattern
    ensures RouteFor(title) == NoSuggestion ==> r == Ok([])
    ensures r.Ok? && RouteFor(title) != FullAnalysis ==> InRankOrder(r.value)
  {
    match RouteFor(title)
    case FullAnalysis =>
      r := if analysis.Ok? then Ok(analysis.value.patterns) else Err(analysis.error);
    case LegacyDetection =>
      var ps := DetectLegacyPatterns(components);
      r := Ok(ps);
    case ModernSuggestion =>
      var ps := SuggestModernPatterns(components);
      r := Ok(ps);
    case NoSuggestion =>
      r := Ok([]);
  }

  // ---------------------------------------------------------------- recommendations

  /** The dictionary `get_pattern_recommendations` returns. */
  datatype Recommendations = Recommendations(
    summary: Summary,
    architectureStyle: string,
    keyTechnologies: seq<string>,
    implementationOrder: seq<string>,
    risks: seq<string>)


  const GatewayStep: string := "1. API Gateway setup"
  const BrokerStep: string := "2. Message broker deployment"
  const ServiceStep: string := "3. Service integration"
  const MonitoringStep: string := "4. Monitoring and observability"

  function NameOfPattern(p: IntegrationPattern): string {
    p.name
  }

  /** The names of at most the first three patterns. */
  function LeadingNames(patterns: seq<IntegrationPattern>): (names: seq<string>)
    ensures |names| == if |patterns| < 3 then |patterns| else 3
    ensures forall i :: 0 <= i < |names| ==> names[i] == patterns[i].name
  {
    MapSeq(if |patterns| <= 3 then patterns else patterns[..3], NameOfPattern)
  }

  /** The summary sentence's three parts: the primary pattern, the style, and the names
      of the leading patterns. */
  datatype Summary = Summary(primaryPattern: PatternType, style: string, keyPatterns: seq<string>)

  /** The sentence itself. */
  function SummaryText(s: Summary): string {
    "Architecture primarily uses " + Value(s.primaryPattern) + " pattern with " + s.style
    + " communication style. Key patterns identified: " + Join(s.keyPatterns, ", ") + "."
  }

  predicate HasPatternType(patterns: seq<IntegrationPattern>, t: PatternType) {
    exists i :: 0 <= i < |patterns| && patterns[i].patternType == t
  }

  /** `get_pattern_recommendations`: the style decides the architecture and its
      technologies, the summary names the primary pattern, the style and the first three
      patterns, and the risks are the analysis's concerns. */
  method GetPatternRecommendations(a: IntegrationAnalysis) returns (rec: Recommendations)
    ensures a.integrationStyle == "async" ==>
      rec.architectureStyle == "Event-Driven Architecture" && rec.keyTechnologies == ["Apache Kafka", "RabbitMQ", "Redis Streams"]
    ensures a.integrationStyle == "sync" ==>
      rec.architectureStyle == "API-First Architecture" && rec.keyTechnologies == ["Kong", "Apigee", "AWS API Gateway"]
    ensures a.integrationStyle != "async" && a.integrationStyle != "sync" ==>
      rec.architectureStyle == "Hybrid Integration Platform" && rec.keyTechnologies == ["MuleSoft", "Boomi", "Azure Integration Services"]
    ensures rec.summary == Summary(a.primaryPattern, a.integrationStyle, LeadingNames(a.patterns))
    ensures OrderFor(a.patterns, rec.implementationOrder)
    ensures rec.risks == a.concerns
  {
    rec := Recommendations(Summary(Unknown, "", []), "", [], [], []);
    if a.integrationStyle == "async" {
      rec := rec.(architectureStyle := "Event-Driven Architecture",
                  keyTechnologies := ["Apache Kafka", "RabbitMQ", "Redis Streams"]);
    } else if a.integrationStyle == "sync" {
      rec := rec.(architectureStyle := "API-First Architecture",
                  keyTechnologies := ["Kong", "Apigee", "AWS API Gateway"]);
    } else {
      rec := rec.(architectureStyle := "Hybrid Integration Platform",
                  keyTechnologies := ["MuleSoft", "Boomi", "Azure Integration Services"]);
    }
    rec := rec.(summary := Summary(a.primaryPattern, a.integrationStyle, LeadingNames(a.patterns)));
    var order := ImplementationOrder(a.patterns);
    rec := rec.(implementationOrder := order);
    rec := rec.(risks := a.concerns);
  }

  /** What the implementation order promises: the gateway step iff there is an API
      gateway pattern, the broker step iff there is a message broker pattern, the
      gateway step first, and always integration then monitoring at the end. */
  predicate OrderFor(patterns: seq<IntegrationPattern>, order: seq<string>) {
    && |order| == 2 + (if HasPatternType(patterns, ApiGateway) then 1 else 0) + (if HasPatternType(patterns, MessageBroker) then 1 else 0)
    && order[|order| - 2..] == [ServiceStep, MonitoringStep]
    && (GatewayStep in order <==> HasPatternType(patterns, ApiGateway))
    && (BrokerStep in order <==> HasPatternType(patterns, MessageBroker))
    && (GatewayStep in order ==> order[0] == GatewayStep)
  }

  /** The `implementation_order` list of `get_pattern_recommendations`. */
  method ImplementationOrder(patterns: seq<IntegrationPattern>) returns (order: seq<string>)
    ensures OrderFor(patterns, order)
  {
    var types := MapSeq(patterns, TypeOfPattern);
    var gateway, broker := ApiGateway in types, MessageBroker in types;
    order := [];
    if gateway {
      order := order + [GatewayStep];
    }
    if broker {
      order := order + [BrokerStep];
    }
    order := order + [ServiceStep];
    order := order + [MonitoringStep];
    TypeListed(patterns, ApiGateway);
    TypeListed(patterns, MessageBroker);
    assert order == IncludeStep(gateway, GatewayStep) + IncludeStep(broker, BrokerStep) + [ServiceStep, MonitoringStep];
    OrderSteps(gateway, broker);
  }

  /** `[step]` when `b` holds, else nothing. */
  function IncludeStep(b: bool, step: string): seq<string> {
    if b then [step] else []
  }

  /** The implementation order holds the optional steps exactly when asked for, first,
      and ends with the two fixed steps. */
  lemma OrderSteps(gateway: bool, broker: bool)
    ensures var order := IncludeStep(gateway, GatewayStep) + IncludeStep(broker, BrokerStep) + [ServiceStep, MonitoringStep];
      && |order| == 2 + (if gateway then 1 else 0) + (if broker then 1 else 0)
      && order[|order| - 2..] == [ServiceStep, MonitoringStep]
      && (GatewayStep in order <==> gateway) && (BrokerStep in order <==> broker)
      && (gateway ==> order[0] == GatewayStep)
  {
  }

  /** `t in [p.pattern_type for p in patterns]`. */
  lemma TypeListed(patterns: seq<IntegrationPattern>, t: PatternType)
    ensures t in MapSeq(patterns, TypeOfPattern) <==> HasPatternType(patterns, t)
  {
    if HasPatternType(patterns, t) {
      var i :| 0 <= i < |patterns| && patterns[i].patternType == t;
      assert MapSeq(patterns, TypeOfPattern)[i] == t;
    }
  }

  function TypeOfPattern(p: IntegrationPattern): PatternType {
    p.patternType
  }
}
