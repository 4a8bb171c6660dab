/** The reconciliation step of `create_mapping` (dsd_agent/agent.py and, keyed on
    `object_id`, dsd_agent/google_slides.py) and the update dictionary of
    `apply_mapping`: untrusted records from the model's reply are checked against the
    slide's placeholders and the component catalogue, without deduplication; the
    updates then collapse repeated placeholders, the last record winning. */
module Mapping {
  import opened Wrappers
  import opened Sorting
  import opened ImageAnalyzer
  import opened IntegrationPatterns
  import opened PptxSlides
  import opened PptxHandler

  /** One entry of the reply's "mappings" list: the name of the target placeholder (the
      `shape_name` key, or `object_id` for Google Slides), the component name and the
      reasoning; each may be missing. */
  datatype MappingRecord = MappingRecord(target: Option<string>, componentName: Option<string>, reasoning: Option<string>)

  /** The decoded reply: its "mappings" list, which may be missing. */
  datatype MappingReply = MappingReply(mappings: Option<seq<MappingRecord>>)

  type Pair = (Placeholder, SystemComponent)

  /** `MappingResult`; the Google Slides variant always has no integration patterns. */
  datatype MappingResult = MappingResult(
    slideIndex: int,
    slideTitle: string,
    mappings: seq<Pair>,
    unmappedPlaceholders: seq<Placeholder>,
    unmappedComponents: seq<SystemComponent>,
    integrationPatterns: seq<IntegrationPattern>)

  // ---------------------------------------------------------------- dictionary lookups

  /** The index `{key(x): x for x in s}[k]` refers to: the last element with that key,
      since a later entry of a dict comprehension overwrites an earlier one. */
  function LastWithKey<T>(s: seq<T>, key: T -> string, k: string): (r: Option<nat>)
    ensures r.Some? ==> r.value < |s| && key(s[r.value]) == k && forall j :: r.value < j < |s| ==> key(s[j]) != k
    ensures r.None? ==> forall j :: 0 <= j < |s| ==> key(s[j]) != k
  {
    if s == [] then None
    else if key(s[|s| - 1]) == k then Some(|s| - 1)
    else LastWithKey(s[..|s| - 1], key, k)
  }

  function ShapeNameOf(p: Placeholder): string {
    p.shapeName
  }

  function ComponentNameOf(c: SystemComponent): string {
    c.name
  }

  /** `ph_by_name.get(name)`; a missing name is never a key. */
  function PlaceholderNamed(phs: seq<Placeholder>, name: Option<string>): (r: Option<Placeholder>)
    ensures r.Some? <==> name.Some? && exists j :: 0 <= j < |phs| && phs[j].shapeName == name.value
    ensures r.Some? ==> r.value in phs && r.value.shapeName == name.value
  {
    if name.None? then None
    else match LastWithKey(phs, ShapeNameOf, name.value)
      case Some(i) => Some(phs[i])
      case None => None
  }

  /** `comp_by_name.get(name)`. */
  function CatalogEntry(cs: seq<SystemComponent>, name: Option<string>): (r: Option<SystemComponent>)
    ensures r.Some? <==> name.Some? && exists j :: 0 <= j < |cs| && cs[j].name == name.value
    ensures r.Some? ==> r.value in cs && r.value.name == name.value
  {
    if name.None? then None
    else match LastWithKey(cs, ComponentNameOf, name.value)
      case Some(i) => Some(cs[i])
      case None => None
  }

  /** The component made up for a name the catalogue does not have. */
  function Synthesised(m: MappingRecord): SystemComponent {
    SystemComponent(m.componentName.GetOr(""), "unknown", m.reasoning.GetOr(""), "")
  }

  /** The record names a placeholder of the slide. */
  predicate Accepted(phs: seq<Placeholder>, m: MappingRecord) {
    PlaceholderNamed(phs, m.target).Some?
  }

  /** The catalogue's component of that name, or a made-up one. */
  function ResolveComponent(cs: seq<SystemComponent>, m: MappingRecord): (c: SystemComponent)
    ensures CatalogEntry(cs, m.componentName).Some? ==> c == CatalogEntry(cs, m.componentName).value
    ensures CatalogEntry(cs, m.componentName).None? ==>
      c.name == m.componentName.GetOr("") && c.category == "unknown" && c.description == m.reasoning.GetOr("") && c.layer == ""
  {
    match CatalogEntry(cs, m.componentName)
    case Some(c) => c
    case None => Synthesised(m)
  }

  /** The pair an accepted record appends. */
  function PairFor(phs: seq<Placeholder>, cs: seq<SystemComponent>, m: MappingRecord): Pair
    requires Accepted(phs, m)
  {
    (PlaceholderNamed(phs, m.target).value, ResolveComponent(cs, m))
  }

  // ---------------------------------------------------------------- what the loop builds

  /** The records that name a placeholder of the slide, in reply order. */
  function AcceptedRecords(phs: seq<Placeholder>, rs: seq<MappingRecord>): seq<MappingRecord> {
    if rs == [] then []
    else AcceptedRecords(phs, rs[..|rs| - 1]) + (if Accepted(phs, rs[|rs| - 1]) then [rs[|rs| - 1]] else [])
  }

  /** `mappings` after the loop has seen `rs`. */
  function MappingsOf(phs: seq<Placeholder>, cs: seq<SystemComponent>, rs: seq<MappingRecord>): seq<Pair> {
    if rs == [] then []
    else
      var m := rs[|rs| - 1];
      MappingsOf(phs, cs, rs[..|rs| - 1]) + (if Accepted(phs, m) then [PairFor(phs, cs, m)] else [])
  }

  /** `mapped_shapes` after the loop has seen `rs`. */
  function MappedShapes(phs: seq<Placeholder>, rs: seq<MappingRecord>): set<string> {
    if rs == [] then {}
    else
      var m := rs[|rs| - 1];
      MappedShapes(phs, rs[..|rs| - 1]) + (if Accepted(phs, m) then {m.target.value} else {})
  }

  /** `mapped_components` after the loop has seen `rs`: only names the catalogue has. */
  function MappedComponents(phs: seq<Placeholder>, cs: seq<SystemComponent>, rs: seq<MappingRecord>): set<string> {
    if rs == [] then {}
    else
      var m := rs[|rs| - 1];
      MappedComponents(phs, cs, rs[..|rs| - 1])
      + (if Accepted(phs, m) && CatalogEntry(cs, m.componentName).Some? then {m.componentName.value} else {})
  }

  /** `[x for x in s if key(x) not in names]`. */
  function FilterOut<T>(s: seq<T>, key: T -> string, names: set<string>): seq<T> {
    if s == [] then []
    else FilterOut(s[..|s| - 1], key, names) + (if key(s[|s| - 1]) !in names then [s[|s| - 1]] else [])
  }

  /** The reconciliation loop of `create_mapping` and the two comprehensions after it. */
  method Reconcile(placeholders: seq<Placeholder>, components: seq<SystemComponent>, records: seq<MappingRecord>)
    returns (mappings: seq<Pair>, unmappedPlaceholders: seq<Placeholder>, unmappedComponents: seq<SystemComponent>)
    ensures mappings == MappingsOf(placeholders, components, records)
    ensures unmappedPlaceholders == FilterOut(placeholders, ShapeNameOf, MappedShapes(placeholders, records))
    ensures unmappedComponents == FilterOut(components, ComponentNameOf, MappedComponents(placeholders, components, records))
  {
    mappings := [];
    var mappedShapes: set<string> := {};
    var mappedComponents: set<string> := {};
    for i := 0 to |records|
      invariant mappings == MappingsOf(placeholders, components, records[..i])
      invariant mappedShapes == MappedShapes(placeholders, records[..i])
      invariant mappedComponents == MappedComponents(placeholders, components, records[..i])
    {
      var m := records[i];
      assert records[..i + 1][..i] == records[..i];
      var ph := PlaceholderNamed(placeholders, m.target);
      if ph.Some? {
        var found := CatalogEntry(components, m.componentName);
        var comp := if found.Some? then found.value else Synthesised(m);
        mappings := mappings + [(ph.value, comp)];
        mappedShapes := mappedShapes + {m.target.value};
        if found.Some? {
          mappedComponents := mappedComponents + {m.componentName.value};
        }
      }
    }
    assert records[..|records|] == records;
    unmappedPlaceholders := FilterOut(placeholders, ShapeNameOf, mappedShapes);
    unmappedComponents := FilterOut(components, ComponentNameOf, mappedComponents);
  }

  /** The result `create_mapping` returns for the slide once the reply's records are known. */
  function Reconciled(slide: ArchitectureSlide, components: seq<SystemComponent>, records: seq<MappingRecord>,
                      patterns: seq<IntegrationPattern>): MappingResult
  {
    var phs := slide.placeholders;
    MappingResult(
      slide.index, slide.title, MappingsOf(phs, components, records),
      FilterOut(phs, ShapeNameOf, MappedShapes(phs, records)),
      FilterOut(components, ComponentNameOf, MappedComponents(phs, components, records)),
      patterns)
  }

  /** The slide types `_determine_slide_type` tells apart. */
  datatype SlideType = CurrentState | TargetState | Timeline | VisionGoals | ArchitectureDiagram

  function TypeName(t: SlideType): string {
    match t
    case CurrentState => "Current State Architecture"
    case TargetState => "Target State Architecture"
    case Timeline => "Implementation Timeline"
    case VisionGoals => "Vision/Goals"
    case ArchitectureDiagram => "Architecture Diagram"
  }

  // ---------------------------------------------------------------- what it means

  /** Exactly the records naming a placeholder of the slide are kept; the others add
      nothing. */
  lemma {:induction false} AcceptedRecordsExact(phs: seq<Placeholder>, rs: seq<MappingRecord>)
    ensures |AcceptedRecords(phs, rs)| <= |rs|
    ensures forall m :: m in AcceptedRecords(phs, rs) <==> m in rs && Accepted(phs, m)
  {
    if rs != [] {
      AcceptedRecordsExact(phs, rs[..|rs| - 1]);
      assert rs == rs[..|rs| - 1] + [rs[|rs| - 1]];
    }
  }

  /** One pair per accepted record, in reply order, with no deduplication: so there are
      as many pairs as accepted records. */
  lemma {:induction false} OnePairPerRecord(phs: seq<Placeholder>, cs: seq<SystemComponent>, rs: seq<MappingRecord>)
    ensures |MappingsOf(phs, cs, rs)| == |AcceptedRecords(phs, rs)|
    ensures forall k :: 0 <= k < |AcceptedRecords(phs, rs)| ==>
      Accepted(phs, AcceptedRecords(phs, rs)[k]) && MappingsOf(phs, cs, rs)[k] == PairFor(phs, cs, AcceptedRecords(phs, rs)[k])
  {
    if rs != [] {
      OnePairPerRecord(phs, cs, rs[..|rs| - 1]);
    }
  }

  /** Each pair holds the last placeholder of the slide with the record's name, and the
      last catalogue component with the record's component name or, when there is none,
      a component named after the record with category "unknown" and the reasoning as
      its description. */
  lemma PairMeaning(phs: seq<Placeholder>, cs: seq<SystemComponent>, m: MappingRecord)
    requires Accepted(phs, m)
    ensures var (ph, c) := PairFor(phs, cs, m);
      && m.target.Some? && ph.shapeName == m.target.value
      && (exists k :: 0 <= k < |phs| && phs[k] == ph && forall j :: k < j < |phs| ==> phs[j].shapeName != ph.shapeName)
      && (CatalogEntry(cs, m.componentName).Some? ==>
            exists k :: 0 <= k < |cs| && cs[k] == c && c.name == m.componentName.value
              && forall j :: k < j < |cs| ==> cs[j].name != c.name)
      && (CatalogEntry(cs, m.componentName).None? ==> c == Synthesised(m))
  {
    var i := LastWithKey(phs, ShapeNameOf, m.target.value).value;
    assert phs[i] == PairFor(phs, cs, m).0;
    if CatalogEntry(cs, m.componentName).Some? {
      var k := LastWithKey(cs, ComponentNameOf, m.componentName.value).value;
      assert cs[k] == PairFor(phs, cs, m).1;
    }
  }

  /** A name is in `mapped_shapes` iff some pair holds a placeholder of that name. */
  lemma {:induction false} MappedShapesArePaired(phs: seq<Placeholder>, cs: seq<SystemComponent>, rs: seq<MappingRecord>)
    ensures forall x :: x in MappedShapes(phs, rs) <==>
      exists k :: 0 <= k < |MappingsOf(phs, cs, rs)| && MappingsOf(phs, cs, rs)[k].0.shapeName == x
  {
    if rs != [] {
      var init, m := rs[..|rs| - 1], rs[|rs| - 1];
      MappedShapesArePaired(phs, cs, init);
      var ms, prev := MappingsOf(phs, cs, rs), MappingsOf(phs, cs, init);
      if Accepted(phs, m) {
        assert ms[|prev|] == PairFor(phs, cs, m);
      }
      forall x ensures x in MappedShapes(phs, rs) <==> exists k :: 0 <= k < |ms| && ms[k].0.shapeName == x {
        if x in MappedShapes(phs, init) {
          var k :| 0 <= k < |prev| && prev[k].0.shapeName == x;
          assert ms[k] == prev[k];
        }
        if exists k :: 0 <= k < |ms| && ms[k].0.shapeName == x {
          var k :| 0 <= k < |ms| && ms[k].0.shapeName == x;
          if k < |prev| {
            assert ms[k] == prev[k];
          }
        }
      }
    }
  }

  /** Some component of the catalogue has the name. */
  predicate InCatalogue(cs: seq<SystemComponent>, x: string) {
    exists j :: 0 <= j < |cs| && cs[j].name == x
  }

  /** Some accepted record gives the component name. */
  predicate Gives(phs: seq<Placeholder>, rs: seq<MappingRecord>, x: string) {
    exists k :: 0 <= k < |rs| && Accepted(phs, rs[k]) && rs[k].componentName == Some(x)
  }

  lemma GivesSnoc(phs: seq<Placeholder>, rs: seq<MappingRecord>, x: string)
    requires rs != []
    ensures Gives(phs, rs, x) <==>
      Gives(phs, rs[..|rs| - 1], x) || (Accepted(phs, rs[|rs| - 1]) && rs[|rs| - 1].componentName == Some(x))
  {
    var init := rs[..|rs| - 1];
    if Gives(phs, init, x) {
      var k :| 0 <= k < |init| && Accepted(phs, init[k]) && init[k].componentName == Some(x);
      assert rs[k] == init[k];
    }
    if Gives(phs, rs, x) {
      var k :| 0 <= k < |rs| && Accepted(phs, rs[k]) && rs[k].componentName == Some(x);
      if k < |init| {
        assert init[k] == rs[k];
      }
    }
  }

  /** `mapped_components` holds exactly the catalogue names some accepted record gives. */
  lemma {:induction false} MappedComponentsExact(phs: seq<Placeholder>, cs: seq<SystemComponent>, rs: seq<MappingRecord>)
    ensures forall x :: x in MappedComponents(phs, cs, rs) <==> InCatalogue(cs, x) && Gives(phs, rs, x)
  {
    if rs != [] {
      var init, m := rs[..|rs| - 1], rs[|rs| - 1];
      MappedComponentsExact(phs, cs, init);
      forall x ensures x in MappedComponents(phs, cs, rs) <==> InCatalogue(cs, x) && Gives(phs, rs, x) {
        GivesSnoc(phs, rs, x);
        assert m.componentName == Some(x) ==> (CatalogEntry(cs, m.componentName).Some? <==> InCatalogue(cs, x));
      }
    }
  }

  /** The comprehension keeps exactly the elements whose key is not excluded. */
  lemma {:induction false} FilterOutExact<T>(s: seq<T>, key: T -> string, names: set<string>)
    ensures |FilterOut(s, key, names)| <= |s|
    ensures forall x :: x in FilterOut(s, key, names) <==> x in s && key(x) !in names
  {
    if s != [] {
      FilterOutExact(s[..|s| - 1], key, names);
      assert s == s[..|s| - 1] + [s[|s| - 1]];
    }
  }

  /** Every placeholder of the slide is either in a pair or unmapped, never both: it is
      unmapped iff no pair holds a placeholder of its name. */
  lemma PlaceholdersPartitioned(phs: seq<Placeholder>, cs: seq<SystemComponent>, rs: seq<MappingRecord>)
    ensures var ms := MappingsOf(phs, cs, rs);
      forall p :: p in phs ==>
        (p in FilterOut(phs, ShapeNameOf, MappedShapes(phs, rs)) <==>
         forall k :: 0 <= k < |ms| ==> ms[k].0.shapeName != p.shapeName)
  {
    MappedShapesArePaired(phs, cs, rs);
    FilterOutExact(phs, ShapeNameOf, MappedShapes(phs, rs));
  }

  /** A catalogue component is unused iff no accepted record gives its name; records whose
      component name the catalogue lacks remove nothing from the list. */
  lemma UnusedComponentsExact(phs: seq<Placeholder>, cs: seq<SystemComponent>, rs: seq<MappingRecord>)
    ensures forall c :: c in FilterOut(cs, ComponentNameOf, MappedComponents(phs, cs, rs)) <==>
      c in cs && !Gives(phs, rs, c.name)
    ensures forall x :: x in MappedComponents(phs, cs, rs) ==> InCatalogue(cs, x)
  {
    MappedComponentsExact(phs, cs, rs);
    FilterOutExact(cs, ComponentNameOf, MappedComponents(phs, cs, rs));
    forall c | c in cs ensures InCatalogue(cs, c.name) {
      var j :| 0 <= j < |cs| && cs[j] == c;
    }
  }

  // ---------------------------------------------------------------- the update dictionary

  /** Where the key sits among the dictionary's items. */
  function IndexOfKey(d: Updates, k: UpdateKey): (r: Option<nat>)
    ensures r.Some? ==> r.value < |d| && d[r.value].0 == k && forall j :: 0 <= j < r.value ==> d[j].0 != k
    ensures r.None? ==> forall j :: 0 <= j < |d| ==> d[j].0 != k
  {
    if d == [] then None
    else if d[0].0 == k then Some(0)
    else match IndexOfKey(d[1..], k)
      case Some(i) => Some(i + 1)
      case None => None
  }

  /** No key appears twice, as in a real dictionary. */
  predicate KeysUnique(d: Updates) {
    forall i, j :: 0 <= i < j < |d| ==> d[i].0 != d[j].0
  }

  /** `d.get(k)`. */
  function DictGet(d: Updates, k: UpdateKey): Option<string> {
    match IndexOfKey(d, k)
    case Some(i) => Some(d[i].1)
    case None => None
  }

  /** `d[k] = v`: an existing key keeps its place and takes the new value; a new key goes
      at the end. */
  function DictSet(d: Updates, k: UpdateKey, v: string): Updates {
    match IndexOfKey(d, k)
    case Some(i) => d[i := (k, v)]
    case None => d + [(k, v)]
  }

  /** The key's index is decided by the keys alone. */
  lemma SameKeysSameIndex(d: Updates, e: Updates, k: UpdateKey)
    requires |d| == |e| && forall i :: 0 <= i < |d| ==> d[i].0 == e[i].0
    ensures IndexOfKey(d, k) == IndexOfKey(e, k)
  {
  }

  /** After `d[k] = v`, `k` maps to `v`, every other key keeps its value, the existing keys
      keep their places, and one item is added exactly when `k` is new. */
  lemma DictSetFacts(d: Updates, k: UpdateKey, v: string)
    ensures DictGet(DictSet(d, k, v), k) == Some(v)
    ensures forall k' :: k' != k ==> DictGet(DictSet(d, k, v), k') == DictGet(d, k')
    ensures |DictSet(d, k, v)| == |d| + (if DictGet(d, k).None? then 1 else 0)
    ensures forall i :: 0 <= i < |d| ==> DictSet(d, k, v)[i].0 == d[i].0
    ensures KeysUnique(d) ==> KeysUnique(DictSet(d, k, v))
  {
    var r := DictSet(d, k, v);
    match IndexOfKey(d, k)
    case Some(i) =>
      forall k' ensures DictGet(r, k') == if k' == k then Some(v) else DictGet(d, k') {
        SameKeysSameIndex(d, r, k');
      }
    case None =>
      assert r[|d|] == (k, v);
      assert forall j :: 0 <= j < |d| ==> r[j] == d[j];
      forall k' ensures DictGet(r, k') == if k' == k then Some(v) else DictGet(d, k') {
        var a, b := IndexOfKey(d, k'), IndexOfKey(r, k');
        if a.Some? {
          assert r[a.value] == d[a.value];
        } else if k' == k {
          assert b == Some(|d|);
        } else {
          assert b.None?;
        }
      }
  }

  function PairName(pr: Pair): string {
    pr.0.shapeName
  }

  /** The dictionary `apply_mapping` fills from the pairs seen so far. */
  function UpdatesFor(slideIndex: int, ms: seq<Pair>): Updates {
    if ms == [] then []
    else
      var pr := ms[|ms| - 1];
      DictSet(UpdatesFor(slideIndex, ms[..|ms| - 1]), UpdateKey(slideIndex, pr.0.shapeName), pr.1.name)
  }

  /** The component name of the last pair whose placeholder has the key's name, when the
      key is on the result's slide. */
  function LastNameFor(slideIndex: int, ms: seq<Pair>, key: UpdateKey): Option<string> {
    if key.slideIndex != slideIndex then None
    else match LastWithKey(ms, PairName, key.shapeName)
      case Some(i) => Some(ms[i].1.name)
      case None => None
  }

  /** The dictionary holds one entry per distinct placeholder name of the pairs, and the
      last pair of that name decides its value. */
  lemma {:induction false} LastPairWins(slideIndex: int, ms: seq<Pair>)
    ensures KeysUnique(UpdatesFor(slideIndex, ms))
    ensures |UpdatesFor(slideIndex, ms)| <= |ms|
    ensures forall key :: DictGet(UpdatesFor(slideIndex, ms), key) == LastNameFor(slideIndex, ms, key)
  {
    if ms != [] {
      var init, pr := ms[..|ms| - 1], ms[|ms| - 1];
      LastPairWins(slideIndex, init);
      var k := UpdateKey(slideIndex, pr.0.shapeName);
      DictSetFacts(UpdatesFor(slideIndex, init), k, pr.1.name);
      forall key ensures DictGet(UpdatesFor(slideIndex, ms), key) == LastNameFor(slideIndex, ms, key) {
        if key != k && key.slideIndex == slideIndex {
          assert LastWithKey(ms, PairName, key.shapeName) == LastWithKey(init, PairName, key.shapeName);
        }
      }
    }
  }

  /** The loop of `apply_mapping` that fills the dictionary. */
  method CollectUpdates(slideIndex: int, ms: seq<Pair>) returns (updates: Updates)
    ensures updates == UpdatesFor(slideIndex, ms)
  {
    updates := [];
    for i := 0 to |ms|
      invariant updates == UpdatesFor(slideIndex, ms[..i])
    {
      assert ms[..i + 1][..i] == ms[..i];
      var (ph, comp) := ms[i];
      updates := DictSet(updates, UpdateKey(slideIndex, ph.shapeName), comp.name);
    }
    assert ms[..|ms|] == ms;
  }
}
