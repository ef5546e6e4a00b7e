/**
 * The improved cutting-list engine of
 * frontend/js/cutlist/claude/cutlist-improved/engine.js: the same guillotine
 * packer and grain rules as frontend/js/cutlist/engine.js, with a material
 * match on the type keyword alone, one fixed placement score with a flat
 * grain penalty, addPart/addSheet without the older call forms, and
 * statistics that charge every reported sheet's full cost.
 */
module ImprovedEngine {

  import opened Wrappers
  import opened Geometry
  import opened Sorting
  import opened Text
  import opened Packing
  import opened PackingInvariants
  import opened PackingAccounting
  import opened Sums
  import opened Grain
  import opened PartOrdering
  import opened Catalog
  import opened Stats
  import opened Reporting
  import Engine

  datatype Settings = Settings(
    allowRotation: bool, respectGrainDirection: bool, cuttingBladeWidth: int,
    minWasteArea: int, sortingMethod: string, grainPenalty: int)

  const DefaultSettings := Settings(true, true, 4, 10000, "area", 1000)

  // ---------------------------------------------------------------- materials

  /** The type keywords, tried in this order anywhere in the material. */
  const MaterialTypes: seq<string> := ["ПДЧ", "МДФ", "ХДЛ", "Масив", "Фурнир"]

  function FirstIncluded(types: seq<string>, mat: string): (t: Option<string>)
    ensures t.Some? ==> t.value in types && Includes(mat, t.value)
    ensures t.None? ==> forall k :: 0 <= k < |types| ==> !Includes(mat, types[k])
  {
    if types == [] then None
    else if Includes(mat, types[0]) then Some(types[0])
    else FirstIncluded(types[1..], mat)
  }

  /** The first type keyword the material contains, or the whole material. */
  function ExtractType(mat: string): string {
    match FirstIncluded(MaterialTypes, mat)
    case Some(t) => t
    case None => mat
  }

  /** Materials match when their types are equal; thickness is ignored. */
  predicate MaterialsMatch(partMaterial: string, sheetMaterial: string) {
    ExtractType(partMaterial) == ExtractType(sheetMaterial)
  }

  lemma IncludesItself(t: string)
    ensures Includes(t, t)
  {
    IncludesSelf([], t, []);
    assert [] + t + [] == t;
  }

  /** A material with none of the type keywords matches only itself. */
  lemma UntypedMatchesOnlyItself(a: string, b: string)
    requires FirstIncluded(MaterialTypes, a).None?
    ensures MaterialsMatch(a, b) <==> a == b
  {
    if FirstIncluded(MaterialTypes, b).Some? {
      var t := FirstIncluded(MaterialTypes, b).value;
      IncludesItself(t);
      var k :| 0 <= k < |MaterialTypes| && MaterialTypes[k] == t;
      assert !Includes(a, MaterialTypes[k]);
      assert a != t && a != b;
    }
  }

  /** Any two materials containing "ПДЧ", the first keyword tried, match,
      whatever their thickness. */
  lemma ChipboardMatchesAnyThickness(a: string, b: string)
    requires Includes(a, "ПДЧ") && Includes(b, "ПДЧ")
    ensures MaterialsMatch(a, b)
  {
  }

  /** Matching is an equivalence: it compares one extracted key. */
  lemma MaterialsMatchIsEquivalence(a: string, b: string, c: string)
    ensures MaterialsMatch(a, a)
    ensures MaterialsMatch(a, b) ==> MaterialsMatch(b, a)
    ensures MaterialsMatch(a, b) && MaterialsMatch(b, c) ==> MaterialsMatch(a, c)
  {
  }

  // ---------------------------------------------------------------- score

  /** The placement score (lower is better): leftover area plus 100 per mm
      of leftover width and height, the flat penalty against the grain, 50
      off per unit of priority, and the narrow-strip charge. */
  function Score(s: Settings, p: Part, r: Rect, rotated: bool, grainAligned: bool): int {
    var remW := r.width - OrientedWidth(p, rotated);
    var remH := r.height - OrientedHeight(p, rotated);
    var grainPenalty := if !grainAligned && s.respectGrainDirection then s.grainPenalty else 0;
    var priorityBonus := if p.priority != 0 then p.priority * 50 else 0;
    remW * remH + (remW + remH) * 100 + grainPenalty - priorityBonus + Engine.EdgeWastePenalty(remW, remH)
  }

  /** Going against the grain costs the flat grainPenalty when grain is respected. */
  lemma GrainPenaltyIsFlat(s: Settings, p: Part, r: Rect, rotated: bool)
    ensures Score(s, p, r, rotated, false) - Score(s, p, r, rotated, true)
      == if s.respectGrainDirection then s.grainPenalty else 0
  {
  }

  /** The score is the one frontend/js/cutlist/engine.js gives under a
      heuristic name it does not know, with the flat penalty in place of the
      proportional one. */
  lemma ScoreIsGuillotineDefault(s: Settings, es: Engine.Settings, p: Part, r: Rect, rotated: bool, sheet: SheetSpec)
    requires es.heuristic != "BAF" && es.heuristic != "BSSF" && es.heuristic != "BLSF"
    requires es.respectGrainDirection == s.respectGrainDirection
    ensures Engine.Score(es, p, r, rotated, true, sheet) == Score(s, p, r, rotated, true) as real
  {
  }

  // ---------------------------------------------------------------- the packer's rules

  function GrainRules(s: Settings): GrainSettings {
    GrainSettings(s.allowRotation, s.respectGrainDirection)
  }

  function ImprovedRules(s: Settings): Rules {
    Rules(
      (pm: string, sm: string) => MaterialsMatch(pm, sm),
      (p: Part, sheet: SheetSpec) => CanRotatePart(GrainRules(s), p, sheet),
      (p: Part, rotated: bool, sheet: SheetSpec) => IsGrainAligned(GrainRules(s), p, rotated, sheet),
      (p: Part, r: Rect, rotated: bool, aligned: bool, sheet: SheetSpec) => Score(s, p, r, rotated, aligned) as real,
      s.minWasteArea)
  }

  // ---------------------------------------------------------------- optimisation

  /** Everything the improved CutListEngine holds. */
  datatype EngineState = EngineState(
    parts: seq<Part>, sheets: seq<SheetSpec>, results: seq<SheetResult>,
    settings: Settings, grainPreferences: GrainPreferences)

  const InitialState := EngineState([], [], [], DefaultSettings, DefaultGrainPreferences)

  function PlacementOrder(st: EngineState): seq<Part> {
    SortBy(Unplaced(st.parts), PartOrder(st.settings.sortingMethod))
  }

  /** calculateOptimization: the new state and the reported sheets. */
  function Optimize(st: EngineState): (EngineState, seq<SheetResult>) {
    if st.parts == [] || st.sheets == [] then (st, [])
    else
      var rs := RunReport(ImprovedRules(st.settings), st.sheets, PlacementOrder(st));
      (st.(results := rs), rs)
  }

  /**
   * An optimisation reports the used sheets, most efficient first, each a
   * clone of a catalog sheet with its bookkeeping right; one placement per part that some
   * catalog sheet of matching type can take; and, when every part has a
   * positive size, no overlapping placements.
   */
  lemma OptimizeReport(st: EngineState)
    requires st.parts != [] && st.sheets != []
    ensures var rules := ImprovedRules(st.settings);
      var rs := Optimize(st).1;
      && (forall i, j :: 0 <= i < j < |rs| ==> rs[i].efficiency >= rs[j].efficiency)
      && (forall r :: r in rs ==> r.layout.placedParts != [] && Accounted(rules, st.sheets, r.layout))
      && SumOf(rs, PlacedOf) == Placeable(rules, st.sheets, st.parts)
      && ((forall p :: p in st.parts ==> PositiveSize(p)) ==> forall r :: r in rs ==> Disjointness(r.layout))
  {
    var rules := ImprovedRules(st.settings);
    var order := PlacementOrder(st);
    ReportOrdered(rules, st.sheets, order);
    ReportUsedSheets(rules, st.sheets, order);
    ReportAccounted(rules, st.sheets, order);
    ReportPlacesPlaceable(rules, st.sheets, st.parts, order);
    if forall p :: p in st.parts ==> PositiveSize(p) {
      ReportDisjoint(rules, st.sheets, st.parts, order);
    }
  }

  // ---------------------------------------------------------------- statistics

  /** Every reported sheet is charged its full cost. */
  function FullCost(r: SheetResult): real {
    r.layout.sheet.cost
  }

  /** After an optimisation, the statistics count one placed part per part
      that some catalog sheet can take. */
  lemma StatisticsCountPlaceable(st: EngineState)
    requires st.parts != [] && st.sheets != []
    ensures StatisticsOf(|st.parts|, Optimize(st).1, FullCost).placedParts
      == Placeable(ImprovedRules(st.settings), st.sheets, st.parts)
  {
    OptimizeReport(st);
    StatisticsBounds(|st.parts|, Optimize(st).1, FullCost);
  }

  // ---------------------------------------------------------------- export / import

  /** A settings object to spread over the current settings: only the keys it has. */
  datatype SettingsPatch = SettingsPatch(
    allowRotation: Option<bool>, respectGrainDirection: Option<bool>, cuttingBladeWidth: Option<int>,
    minWasteArea: Option<int>, sortingMethod: Option<string>, grainPenalty: Option<int>)

  /** A project document; a key that is absent (or falsy) is None. The export
      date is not modelled. */
  datatype ProjectData = ProjectData(
    version: string, settings: Option<SettingsPatch>, grainPreferences: Option<GrainPreferences>,
    parts: Option<seq<Part>>, sheets: Option<seq<SheetSpec>>, results: Option<seq<SheetResult>>)

  const ExportVersion := "3.0"

  function Merge(s: Settings, patch: SettingsPatch): Settings {
    Settings(
      Or(patch.allowRotation, s.allowRotation), Or(patch.respectGrainDirection, s.respectGrainDirection),
      Or(patch.cuttingBladeWidth, s.cuttingBladeWidth), Or(patch.minWasteArea, s.minWasteArea),
      Or(patch.sortingMethod, s.sortingMethod), Or(patch.grainPenalty, s.grainPenalty))
  }

  function AsPatch(s: Settings): SettingsPatch {
    SettingsPatch(
      Some(s.allowRotation), Some(s.respectGrainDirection), Some(s.cuttingBladeWidth),
      Some(s.minWasteArea), Some(s.sortingMethod), Some(s.grainPenalty))
  }

  const EmptyPatch := SettingsPatch(None, None, None, None, None, None)

  /** exportProject. */
  function Export(st: EngineState): ProjectData {
    ProjectData(ExportVersion, Some(AsPatch(st.settings)), Some(st.grainPreferences),
      Some(st.parts), Some(st.sheets), Some(st.results))
  }

  predicate KnownVersion(v: string) {
    v == "3.0" || v == "2.0" || v == "1.0"
  }

  /** importProject: the new state and whether the document was accepted. */
  function Import(st: EngineState, d: ProjectData): (EngineState, bool) {
    if KnownVersion(d.version) then
      (EngineState(
        Or(d.parts, []), Or(d.sheets, []), Or(d.results, []),
        Merge(st.settings, Or(d.settings, EmptyPatch)),
        Or(d.grainPreferences, st.grainPreferences)), true)
    else (st, false)
  }

  /** Importing an exported project restores the exporting engine's state. */
  lemma ImportExportRoundTrip(st: EngineState, current: EngineState)
    ensures Import(current, Export(st)) == (st, true)
  {
  }

  /** Only versions 3.0, 2.0 and 1.0 are accepted; any other leaves the state as it was. */
  lemma ImportAcceptsKnownVersionsOnly(st: EngineState, d: ProjectData)
    ensures Import(st, d).1 <==> KnownVersion(d.version)
    ensures !KnownVersion(d.version) ==> Import(st, d).0 == st
  {
  }

  // ---------------------------------------------------------------- the engine object

  /** The improved CutListEngine object; ids are not modelled. */
  class CutListEngine {
    var parts: seq<Part>
    var sheets: seq<SheetSpec>
    var results: seq<SheetResult>
    var settings: Settings
    var grainPreferences: GrainPreferences

    function State(): EngineState
      reads this
    {
      EngineState(parts, sheets, results, settings, grainPreferences)
    }

    constructor ()
      ensures State() == InitialState
    {
      parts := [];
      sheets := [];
      results := [];
      settings := DefaultSettings;
      grainPreferences := DefaultGrainPreferences;
    }

    /** addPart: appends quantity (default 1) copies of the part, of material
        'ПДЧ 18мм' by default, and returns the whole part list. */
    method AddPart(name: string, width: int, height: int, quantity: Option<int>, material: Option<string>,
                   options: PartOptions) returns (all: seq<Part>)
      modifies this
      ensures parts == old(parts)
        + Copies(NewPart(grainPreferences, name, width, height, Or(material, DefaultMaterial), options), Or(quantity, 1))
      ensures all == parts
      ensures State() == old(State()).(parts := parts)
    {
      var q := Or(quantity, 1);
      var part := NewPart(grainPreferences, name, width, height, Or(material, DefaultMaterial), options);
      var i := 0;
      while i < q
        invariant 0 <= i && (i == 0 || i <= q)
        invariant parts == old(parts) + Copies(part, i)
        invariant State() == old(State()).(parts := parts)
      {
        parts := parts + [part];
        i := i + 1;
      }
      all := parts;
    }

    /** addSheet: appends one catalog sheet and returns the whole sheet list. */
    method AddSheet(name: string, width: int, height: int, cost: Option<real>, materialType: Option<string>,
                    options: SheetOptions) returns (all: seq<SheetSpec>)
      modifies this
      ensures sheets == old(sheets)
        + [NewSheet(grainPreferences, name, width, height, Or(cost, 0.0), Or(materialType, DefaultMaterial), options)]
      ensures all == sheets
      ensures State() == old(State()).(sheets := sheets)
    {
      sheets := sheets + [NewSheet(grainPreferences, name, width, height, Or(cost, 0.0), Or(materialType, DefaultMaterial), options)];
      all := sheets;
    }

    /** calculateOptimization. */
    method CalculateOptimization() returns (rs: seq<SheetResult>)
      modifies this
      ensures (State(), rs) == Optimize(old(State()))
    {
      if |parts| == 0 || |sheets| == 0 {
        return [];
      }
      var order := SortBy(Unplaced(parts), PartOrder(settings.sortingMethod));
      rs := Pack(ImprovedRules(settings), order, sheets);
      results := rs;
    }

    /** getStatistics: optimises first when there are parts but no results,
        and charges each reported sheet its full cost. */
    method GetStatistics() returns (stats: Statistics)
      modifies this
      ensures var st := old(State());
        State() == (if st.results == [] && st.parts != [] then Optimize(st).0 else st)
      ensures stats == StatisticsOf(|parts|, results, FullCost)
    {
      if |results| == 0 && |parts| > 0 {
        var _ := CalculateOptimization();
      }
      stats := Tally(|parts|, results, FullCost);
    }

    /** exportProject. */
    method ExportProject() returns (d: ProjectData)
      ensures d == Export(State())
    {
      d := ProjectData(ExportVersion, Some(AsPatch(settings)), Some(grainPreferences),
        Some(parts), Some(sheets), Some(results));
    }

    /** importProject. */
    method ImportProject(d: ProjectData) returns (ok: bool)
      modifies this
      ensures (State(), ok) == Import(old(State()), d)
    {
      if KnownVersion(d.version) {
        settings := Merge(settings, Or(d.settings, EmptyPatch));
        grainPreferences := Or(d.grainPreferences, grainPreferences);
        parts := Or(d.parts, []);
        sheets := Or(d.sheets, []);
        results := Or(d.results, []);
        ok := true;
      } else {
        ok := false;
      }
    }
  }
}
