/**
 * The cutting-list engine of frontend/js/cutlist/engine.js: its settings,
 * grain, rotation, material and scoring rules, the part comparators, and
 * the CutListEngine object (catalog, optimisation run, statistics,
 * export/import). The optimisation itself is the guillotine packer of
 * module Packing run with this engine's rules.
 */
module Engine {

  import opened Wrappers
  import opened Geometry
  import opened Sorting
  import opened Text
  import opened Packing
  import opened PackingInvariants
  import opened PackingAccounting
  import opened Sums
  import opened Grain
  import opened PartOrdering
  import opened Catalog
  import opened Stats
  import opened Reporting

  datatype Settings = Settings(
    allowRotation: bool, respectGrainDirection: bool, cuttingBladeWidth: int,
    minWasteArea: int, sortingMethod: string, heuristic: string, grainPenaltyFactor: real)

  const DefaultSettings := Settings(true, true, 4, 10000, "area", "BAF", 0.5)

  // ---------------------------------------------------------------- materials

  /** The material type keywords, tried at the start of the string. */
  const MaterialTypes: seq<string> := ["ПДЧ", "МДФ", "ХДЛ", "Масив", "Фурнир", "Шперплат"]

  function LeadingType(types: seq<string>, mat: string): Option<string> {
    if types == [] then None
    else if StartsWith(mat, types[0]) then Some(types[0])
    else LeadingType(types[1..], mat)
  }

  /** The type keyword the material starts with, or the whole material. */
  function MaterialType(mat: string): (t: string)
    ensures StartsWith(mat, t)
  {
    match LeadingType(MaterialTypes, mat)
    case Some(t) => LeadingTypeIsPrefix(MaterialTypes, mat); t
    case None => assert mat[..|mat|] == mat; mat
  }

  lemma {:induction false} LeadingTypeIsPrefix(types: seq<string>, mat: string)
    ensures LeadingType(types, mat).Some? ==> StartsWith(mat, LeadingType(types, mat).value)
  {
    if types != [] && !StartsWith(mat, types[0]) {
      LeadingTypeIsPrefix(types[1..], mat);
    }
  }

  /** Number of whitespace characters at the start of s. */
  function SpaceRun(s: string): (n: nat)
    ensures n <= |s|
  {
    if s != [] && IsSpace(s[0]) then 1 + SpaceRun(s[1..]) else 0
  }

  /** A run of digits starts at i, and after it come optional whitespace and "мм". */
  predicate ThicknessAt(mat: string, i: nat) {
    i < |mat| && IsDigit(mat[i]) &&
    var n := DigitRun(mat[i..]);
    var rest := mat[i + n..];
    StartsWith(rest[SpaceRun(rest)..], "мм")
  }

  function ThicknessValue(mat: string, i: nat): nat
    requires i < |mat|
  {
    var n := DigitRun(mat[i..]);
    DecimalValue(mat[i..][..n])
  }

  /**
   * The first match of /(\d+)\s*мм/ from position i on, read as a number.
   * The digit run is taken whole: a shorter run would leave a digit where
   * whitespace or "мм" must follow.
   */
  function ThicknessFrom(mat: string, i: nat): Option<nat>
    decreases |mat| - i
  {
    if i >= |mat| then None
    else if ThicknessAt(mat, i) then Some(ThicknessValue(mat, i))
    else ThicknessFrom(mat, i + 1)
  }

  function Thickness(mat: string): Option<nat> {
    ThicknessFrom(mat, 0)
  }

  /** Same type, and the same thickness whenever both give one. */
  predicate MaterialsMatch(partMaterial: string, sheetMaterial: string) {
    var a := Thickness(partMaterial);
    var b := Thickness(sheetMaterial);
    MaterialType(partMaterial) == MaterialType(sheetMaterial) && (a.None? || b.None? || a == b)
  }

  lemma MaterialsMatchSymmetric(a: string, b: string)
    ensures MaterialsMatch(a, b) <==> MaterialsMatch(b, a)
  {
  }

  lemma MaterialsMatchReflexive(a: string)
    ensures MaterialsMatch(a, a)
  {
  }


  // ---------------------------------------------------------------- score

  function Min(a: int, b: int): int { if a <= b then a else b }
  function Max(a: int, b: int): int { if a >= b then a else b }

  /** The heuristic's term on the leftover width and height; an unknown
      heuristic name gives the guillotine standard. */
  function BaseScore(heuristic: string, remW: int, remH: int): int {
    if heuristic == "BAF" then remW * remH
    else if heuristic == "BSSF" then Min(remW, remH)
    else if heuristic == "BLSF" then Max(remW, remH)
    else remW * remH + (remW + remH) * 100
  }

  /** The extra charge for a leftover strip narrower than 50 mm. */
  function EdgeWastePenalty(remW: int, remH: int): int {
    var edgeWaste := Min(remW, remH);
    if 0 < edgeWaste < 50 then edgeWaste * 10 else 0
  }

  /** The placement score (lower is better) of the part, in the given
      orientation, in free rectangle r of the sheet. */
  function Score(s: Settings, p: Part, r: Rect, rotated: bool, grainAligned: bool, sheet: SheetSpec): real {
    var remW := r.width - OrientedWidth(p, rotated);
    var remH := r.height - OrientedHeight(p, rotated);
    var grainPenalty := if !grainAligned && s.respectGrainDirection then (p.area as real) * s.grainPenaltyFactor else 0.0;
    var priorityBonus := if p.priority != 0 then p.priority * 50 else 0;
    (BaseScore(s.heuristic, remW, remH) as real) + grainPenalty - (priorityBonus as real)
      + (EdgeWastePenalty(remW, remH) as real)
  }

  /** Going against the grain costs area · grainPenaltyFactor, and nothing
      when grain is not respected. */
  lemma GrainPenaltyIsProportional(s: Settings, p: Part, r: Rect, rotated: bool, sheet: SheetSpec)
    ensures Score(s, p, r, rotated, false, sheet) - Score(s, p, r, rotated, true, sheet)
      == if s.respectGrainDirection then (p.area as real) * s.grainPenaltyFactor else 0.0
  {
  }

  /** Each unit of priority lowers the score by 50. */
  lemma PriorityLowersScore(s: Settings, p: Part, r: Rect, rotated: bool, aligned: bool, sheet: SheetSpec)
    ensures Score(s, p, r, rotated, aligned, sheet)
      == Score(s, p.(priority := 0), r, rotated, aligned, sheet) - (50 * p.priority) as real
  {
  }

  /** An exact, aligned fit of a part without priority scores 0 under every heuristic. */
  lemma ExactFitScoresZero(s: Settings, p: Part, r: Rect, rotated: bool, sheet: SheetSpec)
    requires r.width == OrientedWidth(p, rotated) && r.height == OrientedHeight(p, rotated)
    requires p.priority == 0
    ensures Score(s, p, r, rotated, true, sheet) == 0.0
  {
  }

  /** The edge-waste charge is at most 490 and only for strips of 1 to 49 mm. */
  lemma EdgeWastePenaltyBounds(remW: int, remH: int)
    ensures 0 <= EdgeWastePenalty(remW, remH) <= 490
    ensures EdgeWastePenalty(remW, remH) > 0 <==> 0 < Min(remW, remH) < 50
  {
  }

  // ---------------------------------------------------------------- the packer's rules

  function GrainRules(s: Settings): GrainSettings {
    GrainSettings(s.allowRotation, s.respectGrainDirection)
  }

  function EngineRules(s: Settings): Rules {
    Rules(
      (pm: string, sm: string) => MaterialsMatch(pm, sm),
      (p: Part, sheet: SheetSpec) => CanRotatePart(GrainRules(s), p, sheet),
      (p: Part, rotated: bool, sheet: SheetSpec) => IsGrainAligned(GrainRules(s), p, rotated, sheet),
      (p: Part, r: Rect, rotated: bool, aligned: bool, sheet: SheetSpec) => Score(s, p, r, rotated, aligned, sheet),
      s.minWasteArea)
  }

  // ---------------------------------------------------------------- catalog arguments

  /** An optional positional argument as the engine tells them apart: left
      out, a plain value, or an options object passed in its place. */
  datatype Arg<T, O> = Missing | Given(value: T) | Object(options: O)

  /** The quantity, material and options addPart works with: an options
      object in the quantity or material position takes the place of the
      options, and the arguments it displaces take their defaults. */
  function PartArgs(quantity: Arg<int, PartOptions>, material: Arg<string, PartOptions>, options: PartOptions)
    : (int, string, PartOptions)
  {
    if quantity.Object? then (1, DefaultMaterial, quantity.options)
    else
      var q := if quantity.Given? then quantity.value else 1;
      if material.Object? then (q, DefaultMaterial, material.options)
      else (q, if material.Given? then material.value else DefaultMaterial, options)
  }

  /** The cost, material type and options addSheet works with. */
  function SheetArgs(cost: Arg<real, SheetOptions>, materialType: Arg<string, SheetOptions>, options: SheetOptions)
    : (real, string, SheetOptions)
  {
    if cost.Object? then (0.0, DefaultMaterial, cost.options)
    else
      var c := if cost.Given? then cost.value else 0.0;
      if materialType.Object? then (c, DefaultMaterial, materialType.options)
      else (c, if materialType.Given? then materialType.value else DefaultMaterial, options)
  }

  /** The older call forms agree with the full one: options in the quantity
      position mean one part of the default material, and options in the
      material position keep the quantity. */
  lemma AddPartCallFormsAgree(quantity: int, o: PartOptions, ignored: Arg<string, PartOptions>, other: PartOptions)
    ensures PartArgs(Object(o), ignored, other) == PartArgs(Given(1), Given(DefaultMaterial), o)
    ensures PartArgs(Given(quantity), Object(o), other) == PartArgs(Given(quantity), Given(DefaultMaterial), o)
    ensures PartArgs(Missing, Missing, NoPartOptions) == (1, DefaultMaterial, NoPartOptions)
  {
  }

  lemma AddSheetCallFormsAgree(cost: real, o: SheetOptions, ignored: Arg<string, SheetOptions>, other: SheetOptions)
    ensures SheetArgs(Object(o), ignored, other) == SheetArgs(Given(0.0), Given(DefaultMaterial), o)
    ensures SheetArgs(Given(cost), Object(o), other) == SheetArgs(Given(cost), Given(DefaultMaterial), o)
    ensures SheetArgs(Missing, Missing, NoSheetOptions) == (0.0, DefaultMaterial, NoSheetOptions)
  {
  }

  // ---------------------------------------------------------------- optimisation

  /** Everything a CutListEngine holds. */
  datatype EngineState = EngineState(
    parts: seq<Part>, sheets: seq<SheetSpec>, results: seq<SheetResult>,
    settings: Settings, grainPreferences: GrainPreferences)

  const InitialState := EngineState([], [], [], DefaultSettings, DefaultGrainPreferences)

  /** The order in which the run takes the parts. */
  function PlacementOrder(st: EngineState): seq<Part> {
    SortBy(Unplaced(st.parts), PartOrder(st.settings.sortingMethod))
  }

  /** calculateOptimization: the new state and the reported sheets. With no
      parts or no sheets nothing is reported and the results stay as they are;
      the part and sheet catalogs never change. */
  function Optimize(st: EngineState): (EngineState, seq<SheetResult>) {
    if st.parts == [] || st.sheets == [] then (st, [])
    else
      var rs := RunReport(EngineRules(st.settings), st.sheets, PlacementOrder(st));
      (st.(results := rs), rs)
  }

  /**
   * An optimisation reports the used sheets, most efficient first, each a
   * clone of a catalog sheet with its bookkeeping right; one placement per
   * part that some catalog sheet of matching material can take; and, when
   * every part has a positive size, no overlapping placements.
   */
  lemma OptimizeReport(st: EngineState)
    requires st.parts != [] && st.sheets != []
    ensures var rules := EngineRules(st.settings);
      var rs := Optimize(st).1;
      && (forall i, j :: 0 <= i < j < |rs| ==> rs[i].efficiency >= rs[j].efficiency)
      && (forall r :: r in rs ==> r.layout.placedParts != [] && Accounted(rules, st.sheets, r.layout))
      && SumOf(rs, PlacedOf) == Placeable(rules, st.sheets, st.parts)
      && ((forall p :: p in st.parts ==> PositiveSize(p)) ==> forall r :: r in rs ==> Disjointness(r.layout))
  {
    var rules := EngineRules(st.settings);
    var order := PlacementOrder(st);
    ReportOrdered(rules, st.sheets, order);
    ReportUsedSheets(rules, st.sheets, order);
    ReportAccounted(rules, st.sheets, order);
    ReportPlacesPlaceable(rules, st.sheets, st.parts, order);
    if forall p :: p in st.parts ==> PositiveSize(p) {
      ReportDisjoint(rules, st.sheets, st.parts, order);
    }
  }

  // ---------------------------------------------------------------- statistics

  /** The sheet's cost in proportion to its used area. */
  function CostShare(r: SheetResult): real {
    if r.layout.sheet.area == 0 then 0.0
    else r.layout.sheet.cost * (r.layout.usedArea as real) / (r.layout.sheet.area as real)
  }

  /** After an optimisation, the statistics count one placed part per part
      that some catalog sheet can take. */
  lemma StatisticsCountPlaceable(st: EngineState)
    requires st.parts != [] && st.sheets != []
    ensures StatisticsOf(|st.parts|, Optimize(st).1, CostShare).placedParts
      == Placeable(EngineRules(st.settings), st.sheets, st.parts)
  {
    OptimizeReport(st);
    StatisticsBounds(|st.parts|, Optimize(st).1, CostShare);
  }

  // ---------------------------------------------------------------- export / import

  /** A settings object to spread over the current settings: only the keys it has. */
  datatype SettingsPatch = SettingsPatch(
    allowRotation: Option<bool>, respectGrainDirection: Option<bool>, cuttingBladeWidth: Option<int>,
    minWasteArea: Option<int>, sortingMethod: Option<string>, heuristic: Option<string>,
    grainPenaltyFactor: Option<real>)

  /** A project document; a key that is absent (or falsy) is None. The export
      date is not modelled. */
  datatype ProjectData = ProjectData(
    version: string, settings: Option<SettingsPatch>, grainPreferences: Option<GrainPreferences>,
    parts: Option<seq<Part>>, sheets: Option<seq<SheetSpec>>, results: Option<seq<SheetResult>>)

  const ExportVersion := "3.0"

  function Merge(s: Settings, patch: SettingsPatch): Settings {
    Settings(
      Or(patch.allowRotation, s.allowRotation), Or(patch.respectGrainDirection, s.respectGrainDirection),
      Or(patch.cuttingBladeWidth, s.cuttingBladeWidth), Or(patch.minWasteArea, s.minWasteArea),
      Or(patch.sortingMethod, s.sortingMethod), Or(patch.heuristic, s.heuristic),
      Or(patch.grainPenaltyFactor, s.grainPenaltyFactor))
  }

  function AsPatch(s: Settings): SettingsPatch {
    SettingsPatch(
      Some(s.allowRotation), Some(s.respectGrainDirection), Some(s.cuttingBladeWidth),
      Some(s.minWasteArea), Some(s.sortingMethod), Some(s.heuristic), Some(s.grainPenaltyFactor))
  }

  const EmptyPatch := SettingsPatch(None, None, None, None, None, None, None)

  /** exportProject. */
  function Export(st: EngineState): ProjectData {
    ProjectData(ExportVersion, Some(AsPatch(st.settings)), Some(st.grainPreferences),
      Some(st.parts), Some(st.sheets), Some(st.results))
  }

  predicate KnownVersion(v: string) {
    v == "3.0" || v == "2.0" || v == "1.0"
  }

  /** importProject: the new state and whether the document was accepted. */
  function Import(st: EngineState, d: ProjectData): (EngineState, bool) {
    if KnownVersion(d.version) then
      (EngineState(
        Or(d.parts, []), Or(d.sheets, []), Or(d.results, []),
        Merge(st.settings, Or(d.settings, EmptyPatch)),
        Or(d.grainPreferences, st.grainPreferences)), true)
    else (st, false)
  }

  /** Importing an exported project restores the exporting engine's state,
      whatever state the importing engine was in. */
  lemma ImportExportRoundTrip(st: EngineState, current: EngineState)
    ensures Import(current, Export(st)) == (st, true)
  {
  }

  /** A document of an unknown version is refused and changes nothing. */
  lemma ImportRejectsUnknownVersion(st: EngineState, d: ProjectData)
    requires !KnownVersion(d.version)
    ensures Import(st, d) == (st, false)
  {
  }

  /** A known version is accepted: missing lists become empty, the settings
      keep every value the document does not give, and missing grain
      preferences keep the current ones. */
  lemma ImportKnownVersion(st: EngineState, d: ProjectData)
    requires KnownVersion(d.version)
    ensures var (st', ok) := Import(st, d);
      && ok
      && (d.parts.None? ==> st'.parts == []) && (d.sheets.None? ==> st'.sheets == [])
      && (d.results.None? ==> st'.results == [])
      && (d.settings.None? ==> st'.settings == st.settings)
      && (d.grainPreferences.None? ==> st'.grainPreferences == st.grainPreferences)
  {
  }

  /** Spreading a patch is idempotent, and a full patch replaces the settings. */
  lemma MergeProperties(s: Settings, t: Settings, patch: SettingsPatch)
    ensures Merge(Merge(s, patch), patch) == Merge(s, patch)
    ensures Merge(s, AsPatch(t)) == t
    ensures Merge(s, EmptyPatch) == s
  {
  }

  // ---------------------------------------------------------------- the engine object

  /** The CutListEngine object: its catalog, settings and last results are
      fields that its methods update in place. Part and sheet ids, built
      from the clock and a random number, are not modelled. */
  class CutListEngine {
    var parts: seq<Part>
    var sheets: seq<SheetSpec>
    var results: seq<SheetResult>
    var settings: Settings
    var grainPreferences: GrainPreferences

    function State(): EngineState
      reads this
    {
      EngineState(parts, sheets, results, settings, grainPreferences)
    }

    constructor ()
      ensures State() == InitialState
    {
      parts := [];
      sheets := [];
      results := [];
      settings := DefaultSettings;
      grainPreferences := DefaultGrainPreferences;
    }

    /** addPart: appends quantity copies of the part (none for a quantity
        below one) and returns the whole part list. */
    method AddPart(name: string, width: int, height: int, quantity: Arg<int, PartOptions>,
                   material: Arg<string, PartOptions>, options: PartOptions) returns (all: seq<Part>)
      modifies this
      ensures var (q, mat, o) := PartArgs(quantity, material, options);
        parts == old(parts) + Copies(NewPart(grainPreferences, name, width, height, mat, o), q)
      ensures all == parts
      ensures State() == old(State()).(parts := parts)
    {
      var (q, mat, o) := PartArgs(quantity, material, options);
      var part := NewPart(grainPreferences, name, width, height, mat, o);
      var i := 0;
      while i < q
        invariant 0 <= i && (i == 0 || i <= q)
        invariant parts == old(parts) + Copies(part, i)
        invariant State() == old(State()).(parts := parts)
      {
        parts := parts + [part];
        i := i + 1;
      }
      all := parts;
    }

    /** addSheet: appends one catalog sheet and returns the whole sheet list. */
    method AddSheet(name: string, width: int, height: int, cost: Arg<real, SheetOptions>,
                    materialType: Arg<string, SheetOptions>, options: SheetOptions) returns (all: seq<SheetSpec>)
      modifies this
      ensures var (c, mat, o) := SheetArgs(cost, materialType, options);
        sheets == old(sheets) + [NewSheet(grainPreferences, name, width, height, c, mat, o)]
      ensures all == sheets
      ensures State() == old(State()).(sheets := sheets)
    {
      var (c, mat, o) := SheetArgs(cost, materialType, options);
      sheets := sheets + [NewSheet(grainPreferences, name, width, height, c, mat, o)];
      all := sheets;
    }

    /** calculateOptimization. */
    method CalculateOptimization() returns (rs: seq<SheetResult>)
      modifies this
      ensures (State(), rs) == Optimize(old(State()))
    {
      if |parts| == 0 || |sheets| == 0 {
        return [];
      }
      var order := SortBy(Unplaced(parts), PartOrder(settings.sortingMethod));
      rs := Pack(EngineRules(settings), order, sheets);
      results := rs;
    }

    /** getStatistics: optimises first when there are parts but no results. */
    method GetStatistics() returns (stats: Statistics)
      modifies this
      ensures var st := old(State());
        State() == (if st.results == [] && st.parts != [] then Optimize(st).0 else st)
      ensures stats == StatisticsOf(|parts|, results, CostShare)
    {
      if |results| == 0 && |parts| > 0 {
        var _ := CalculateOptimization();
      }
      stats := Tally(|parts|, results, CostShare);
    }

    /** exportProject. */
    method ExportProject() returns (d: ProjectData)
      ensures d == Export(State())
    {
      d := ProjectData(ExportVersion, Some(AsPatch(settings)), Some(grainPreferences),
        Some(parts), Some(sheets), Some(results));
    }

    /** importProject. */
    method ImportProject(d: ProjectData) returns (ok: bool)
      modifies this
      ensures (State(), ok) == Import(old(State()), d)
    {
      if KnownVersion(d.version) {
        settings := Merge(settings, Or(d.settings, EmptyPatch));
        grainPreferences := Or(d.grainPreferences, grainPreferences);
        parts := Or(d.parts, []);
        sheets := Or(d.sheets, []);
        results := Or(d.results, []);
        ok := true;
      } else {
        ok := false;
      }
    }
  }
}
