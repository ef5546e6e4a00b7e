/**
 * The furniture engine: choosing a calculator by cabinet type, and a
 * project calculation that runs every cabinet and sums hardware counts,
 * material areas and the plinth length of the floor-standing cabinets.
 */
module CabinetEngine {
  import opened Wrappers
  import opened Sums
  import opened Cabinets
  import BaseCabinet
  import UpperCabinet
  import DrawerCabinet
  import OvenCabinet
  import SinkCabinet
  import ApplianceCabinet

  // ------------------------------------------------------------ dispatch

  /** The calculators the engine registers. */
  datatype Calculator = BaseCalculator | UpperCalculator | DrawerCalculator | OvenCalculator
                      | SinkCalculator | BlindCalculator | ApplianceCalculator

  /** The engine's table from cabinet type to calculator; APPLIANCE has no entry. */
  function Registered(kind: CabinetType): (r: Option<Calculator>)
    ensures r.None? <==> kind == APPLIANCE
    ensures r == Some(ApplianceCalculator) <==> kind == FRIDGE || kind == COLUMN
  {
    match kind
    case BASE => Some(BaseCalculator)
    case UPPER => Some(UpperCalculator)
    case DRAWER => Some(DrawerCalculator)
    case OVEN => Some(OvenCalculator)
    case SINK => Some(SinkCalculator)
    case BLIND => Some(BlindCalculator)
    case FRIDGE => Some(ApplianceCalculator)
    case COLUMN => Some(ApplianceCalculator)
    case APPLIANCE => None
  }

  /** calculate_cabinet: the registered calculator, or the base one for an unregistered type. */
  function CalculatorFor(kind: CabinetType): Calculator {
    match Registered(kind)
    case Some(chosen) => chosen
    case None => BaseCalculator
  }

  /** What a calculator produces for a cabinet; the blind calculator delegates to the base one. */
  function Run(calculator: Calculator, c: Cabinet): Calc {
    match calculator
    case BaseCalculator => BaseCabinet.BaseCalc(c)
    case UpperCalculator => UpperCabinet.UpperCalc(c)
    case DrawerCalculator => DrawerCabinet.DrawerCalc(c)
    case OvenCalculator => OvenCabinet.OvenCalc(c)
    case SinkCalculator => SinkCabinet.SinkCalc(c)
    case BlindCalculator => BaseCabinet.BaseCalc(c)
    case ApplianceCalculator => ApplianceCabinet.ApplianceCalc(c)
  }

  function CabinetCalc(c: Cabinet): Calc {
    Run(CalculatorFor(c.kind), c)
  }

  /** Blind cabinets and unregistered appliance cabinets are calculated exactly like base cabinets. */
  lemma BaseFallback(c: Cabinet)
    ensures c.kind in {BASE, BLIND, APPLIANCE} ==> CabinetCalc(c) == BaseCabinet.BaseCalc(c)
    ensures CalculatorFor(c.kind) == BaseCalculator <==> c.kind == BASE || c.kind == APPLIANCE
  {
  }

  method CalculateCabinet(c: Cabinet) returns (r: CalculationResult)
    ensures fresh(r) && r.cabinet == c && r.State() == CabinetCalc(c)
  {
    match CalculatorFor(c.kind)
    case BaseCalculator => r := BaseCabinet.Calculate(c);
    case UpperCalculator => r := UpperCabinet.Calculate(c);
    case DrawerCalculator => r := DrawerCabinet.Calculate(c);
    case OvenCalculator => r := OvenCabinet.Calculate(c);
    case SinkCalculator => r := SinkCabinet.Calculate(c);
    case BlindCalculator => r := BaseCabinet.Calculate(c);
    case ApplianceCalculator => r := ApplianceCabinet.Calculate(c);
  }

  // ------------------------------------------------------- hardware totals

  /** A defaultdict(int) read: a missing name counts 0. */
  function Count(m: map<string, int>, name: string): int {
    if name in m then m[name] else 0
  }

  /** `totals[item.name] += item.quantity` for each item in turn. */
  function Tally(m: map<string, int>, items: seq<HardwareItem>): map<string, int> {
    if items == [] then m
    else
      var t := Tally(m, items[..|items| - 1]);
      var item := items[|items| - 1];
      t[item.name := Count(t, item.name) + item.quantity]
  }

  /** The summed quantity of the items with exactly this name. */
  function QuantityNamed(items: seq<HardwareItem>, name: string): int {
    SumOf(items, (item: HardwareItem) => if item.name == name then item.quantity else 0)
  }

  /** The tally adds, per name, the quantities of the items of that name. */
  lemma {:induction false} TallyCounts(m: map<string, int>, items: seq<HardwareItem>, name: string)
    ensures Count(Tally(m, items), name) == Count(m, name) + QuantityNamed(items, name)
  {
    if items != [] {
      var front := items[..|items| - 1];
      TallyCounts(m, front, name);
      assert front + [items[|items| - 1]] == items;
      SumOfSnoc(front, items[|items| - 1], (item: HardwareItem) => if item.name == name then item.quantity else 0);
    }
  }

  /** A name is a key of the tally iff it was a key before or some item carries it. */
  lemma {:induction false} TallyKeys(m: map<string, int>, items: seq<HardwareItem>, name: string)
    ensures name in Tally(m, items) <==> name in m || exists k :: 0 <= k < |items| && items[k].name == name
  {
    if items != [] {
      var front := items[..|items| - 1];
      TallyKeys(m, front, name);
      if exists k :: 0 <= k < |front| && front[k].name == name {
        var k :| 0 <= k < |front| && front[k].name == name;
        assert items[k].name == name;
      }
      if exists k :: 0 <= k < |items| && items[k].name == name {
        var k :| 0 <= k < |items| && items[k].name == name;
        if k < |front| {
          assert front[k].name == name;
        }
      }
    }
  }

  /** Tallying two lists one after the other is tallying their concatenation. */
  lemma {:induction false} TallyAppend(m: map<string, int>, s: seq<HardwareItem>, t: seq<HardwareItem>)
    ensures Tally(Tally(m, s), t) == Tally(m, s + t)
  {
    if t != [] {
      TallyAppend(m, s, t[..|t| - 1]);
      assert (s + t)[..|s + t| - 1] == s + t[..|t| - 1];
      assert (s + t)[|s + t| - 1] == t[|t| - 1];
    } else {
      assert s + t == s;
    }
  }

  /** Every hardware item of the calculated cabinets, result by result. */
  function AllHardware(calcs: seq<Calc>): seq<HardwareItem> {
    if calcs == [] then [] else AllHardware(calcs[..|calcs| - 1]) + calcs[|calcs| - 1].hardware
  }

  function HardwareTotals(calcs: seq<Calc>): map<string, int> {
    Tally(map[], AllHardware(calcs))
  }

  /**
   * The project's hardware total for a name is the sum of the quantities
   * of every item of that name over all results, and only names that occur
   * are keys.
   */
  lemma HardwareTotalsSum(calcs: seq<Calc>, name: string)
    ensures Count(HardwareTotals(calcs), name) == QuantityNamed(AllHardware(calcs), name)
    ensures name in HardwareTotals(calcs) <==> exists k :: 0 <= k < |AllHardware(calcs)| && AllHardware(calcs)[k].name == name
  {
    TallyCounts(map[], AllHardware(calcs), name);
    TallyKeys(map[], AllHardware(calcs), name);
  }

  // --------------------------------------------------------- material areas

  /** A defaultdict(float) read: a missing material counts 0. */
  function Area(m: map<MaterialType, real>, material: MaterialType): real {
    if material in m then m[material] else 0.0
  }

  /** A panel's contribution: its area times its quantity. */
  function PanelArea(p: Panel): real {
    p.areaSqm * p.quantity as real
  }

  /** `totals[panel.material] += panel.area_sqm * panel.quantity` for each panel in turn. */
  function AddAreas(m: map<MaterialType, real>, ps: seq<Panel>): map<MaterialType, real> {
    if ps == [] then m
    else
      var t := AddAreas(m, ps[..|ps| - 1]);
      var p := ps[|ps| - 1];
      t[p.material := Area(t, p.material) + PanelArea(p)]
  }

  /** The summed area of the panels of one material. */
  function AreaOf(ps: seq<Panel>, material: MaterialType): real {
    RealSumOf(ps, (p: Panel) => if p.material == material then PanelArea(p) else 0.0)
  }

  lemma {:induction false} AddAreasSum(m: map<MaterialType, real>, ps: seq<Panel>, material: MaterialType)
    ensures Area(AddAreas(m, ps), material) == Area(m, material) + AreaOf(ps, material)
  {
    if ps != [] {
      AddAreasSum(m, ps[..|ps| - 1], material);
    }
  }

  lemma {:induction false} AddAreasAppend(m: map<MaterialType, real>, s: seq<Panel>, t: seq<Panel>)
    ensures AddAreas(AddAreas(m, s), t) == AddAreas(m, s + t)
  {
    if t != [] {
      AddAreasAppend(m, s, t[..|t| - 1]);
      assert (s + t)[..|s + t| - 1] == s + t[..|t| - 1];
      assert (s + t)[|s + t| - 1] == t[|t| - 1];
    } else {
      assert s + t == s;
    }
  }

  function AllPanels(calcs: seq<Calc>): seq<Panel> {
    if calcs == [] then [] else AllPanels(calcs[..|calcs| - 1]) + calcs[|calcs| - 1].panels
  }

  function MaterialTotals(calcs: seq<Calc>): map<MaterialType, real> {
    AddAreas(map[], AllPanels(calcs))
  }

  /** The project's area for a material is the summed area of its panels over all results. */
  lemma MaterialTotalsSum(calcs: seq<Calc>, material: MaterialType)
    ensures Area(MaterialTotals(calcs), material) == AreaOf(AllPanels(calcs), material)
  {
    AddAreasSum(map[], AllPanels(calcs), material);
  }

  // ---------------------------------------------------------------- plinth

  /** The types whose width counts towards the plinth. */
  predicate StandsOnPlinth(kind: CabinetType) {
    kind in [BASE, SINK, OVEN, DRAWER, BLIND, APPLIANCE, FRIDGE]
  }

  /** Every type but the wall-hung upper cabinet and the column has a plinth. */
  lemma PlinthTypes(kind: CabinetType)
    ensures StandsOnPlinth(kind) <==> kind != UPPER && kind != COLUMN
  {
  }

  function PlinthWidth(c: Cabinet): int {
    if StandsOnPlinth(c.kind) then c.width else 0
  }

  function PlinthLength(cs: seq<Cabinet>): int {
    SumOf(cs, PlinthWidth)
  }

  /** The plinth length does not depend on the order of the cabinets. */
  lemma PlinthLengthOrderFree(cs: seq<Cabinet>, ds: seq<Cabinet>)
    requires multiset(cs) == multiset(ds)
    ensures PlinthLength(cs) == PlinthLength(ds)
  {
    SumOfPermutation(cs, ds, PlinthWidth);
  }

  /** The "Общ цокъл" panel: the whole plinth length by 150 mm. */
  function PlinthPanel(length: int): Panel {
    Panel("Общ цокъл", length as real, 150.0, Plinth, FrontEdge(1.0), 1, (length * 150) as real / 1000000.0)
  }

  /** Storing the plinth panel keeps it as built when there is a plinth. */
  lemma PlinthPanelStored(length: int)
    requires length > 0
    ensures Added(PlinthPanel(length)) == PlinthPanel(length)
    ensures PanelArea(PlinthPanel(length)) == (length * 150) as real / 1000000.0
  {
    RoundWhole(length);
    RoundWhole(150);
  }

  // --------------------------------------------------------------- project

  /** The totals calculate_project reports besides the results. */
  datatype Totals = Totals(hardware: map<string, int>, materialArea: map<MaterialType, real>, plinthLength: int)

  /** The results' states: the first gets the plinth panel when there is a plinth. */
  function ProjectCalcs(cs: seq<Cabinet>): seq<Calc> {
    seq(|cs|, i requires 0 <= i < |cs| => CabinetCalc(cs[i]))
  }

  function ProjectTotals(cs: seq<Cabinet>): Totals {
    Totals(HardwareTotals(ProjectCalcs(cs)), MaterialTotals(ProjectCalcs(cs)), PlinthLength(cs))
  }

  /**
   * calculate_project: one result per cabinet in order, the totals over
   * those results, and afterwards the plinth panel appended to the first
   * result, so the material areas do not include it.
   */
  method CalculateProject(cs: seq<Cabinet>) returns (results: seq<CalculationResult>, totals: Totals)
    ensures |results| == |cs|
    ensures forall i :: 0 <= i < |cs| ==> fresh(results[i]) && results[i].cabinet == cs[i]
    ensures forall i, j :: 0 <= i < j < |cs| ==> results[i] != results[j]
    ensures totals == ProjectTotals(cs)
    ensures forall i :: 0 < i < |cs| ==> results[i].State() == CabinetCalc(cs[i])
    ensures |cs| > 0 ==> results[0].State() == WithPlinth(CabinetCalc(cs[0]), PlinthLength(cs))
  {
    results := CalculateEach(cs);
    ghost var states := seq(|results|, k requires 0 <= k < |results| reads results => results[k].State());
    ProjectCalcsOf(cs, states);
    totals := SumResults(cs, results, states);
    var plinth := totals.plinthLength;
    if plinth > 0 && |results| > 0 {
      PlinthPanelStored(plinth);
      results[0].AddPanel(PlinthPanel(plinth));
    }
  }

  /** The results of calculate_project's loop: one fresh result per cabinet, in order. */
  method CalculateEach(cs: seq<Cabinet>) returns (results: seq<CalculationResult>)
    ensures |results| == |cs|
    ensures forall i :: 0 <= i < |cs| ==> fresh(results[i]) && results[i].cabinet == cs[i]
    ensures forall i, j :: 0 <= i < j < |cs| ==> results[i] != results[j]
    ensures forall i :: 0 <= i < |cs| ==> results[i].State() == CabinetCalc(cs[i])
  {
    results := [];
    for i := 0 to |cs|
      invariant |results| == i
      invariant forall k :: 0 <= k < i ==> fresh(results[k]) && results[k].cabinet == cs[k]
      invariant forall k, l :: 0 <= k < l < i ==> results[k] != results[l]
      invariant forall k :: 0 <= k < i ==> results[k].State() == CabinetCalc(cs[k])
    {
      var r := CalculateCabinet(cs[i]);
      assert r !in results;
      results := results + [r];
    }
  }

  /** The totals of calculate_project's loop, summed over the results' states. */
  method SumResults(cs: seq<Cabinet>, results: seq<CalculationResult>, ghost states: seq<Calc>) returns (totals: Totals)
    requires |results| == |states| == |cs|
    requires forall k :: 0 <= k < |results| ==> results[k].State() == states[k]
    ensures totals == Totals(HardwareTotals(states), MaterialTotals(states), PlinthLength(cs))
  {
    totals := Totals(map[], map[], 0);
    for i := 0 to |cs|
      invariant totals == Totals(HardwareTotals(states[..i]), MaterialTotals(states[..i]), PlinthLength(cs[..i]))
    {
      assert states[..i + 1] == states[..i] + [states[i]];
      assert cs[..i + 1] == cs[..i] + [cs[i]];
      TotalsSnoc(states[..i], states[i]);
      SumOfSnoc(cs[..i], cs[i], PlinthWidth);
      var hardware := TallyResult(totals.hardware, results[i].hardware);
      var areas := AddResultAreas(totals.materialArea, results[i].panels);
      var plinth := totals.plinthLength;
      if StandsOnPlinth(cs[i].kind) {
        plinth := plinth + cs[i].width;
      }
      totals := Totals(hardware, areas, plinth);
    }
    assert states[..|cs|] == states;
    assert cs[..|cs|] == cs;
  }

  lemma ProjectCalcsOf(cs: seq<Cabinet>, states: seq<Calc>)
    requires |states| == |cs| && forall k :: 0 <= k < |cs| ==> states[k] == CabinetCalc(cs[k])
    ensures states == ProjectCalcs(cs)
  {
  }

  /** How the totals grow with one more result. */
  lemma TotalsSnoc(calcs: seq<Calc>, last: Calc)
    ensures HardwareTotals(calcs + [last]) == Tally(HardwareTotals(calcs), last.hardware)
    ensures MaterialTotals(calcs + [last]) == AddAreas(MaterialTotals(calcs), last.panels)
  {
    var next := calcs + [last];
    assert next[..|next| - 1] == calcs;
    TallyAppend(map[], AllHardware(calcs), last.hardware);
    AddAreasAppend(map[], AllPanels(calcs), last.panels);
  }

  /** The first result's state after the optional plinth panel. */
  function WithPlinth(state: Calc, length: int): Calc {
    if length > 0 then state.(panels := state.panels + [PlinthPanel(length)]) else state
  }

  /** The inner loop over one result's hardware. */
  method TallyResult(m: map<string, int>, items: seq<HardwareItem>) returns (t: map<string, int>)
    ensures t == Tally(m, items)
  {
    t := m;
    for j := 0 to |items|
      invariant t == Tally(m, items[..j])
    {
      assert items[..j + 1][..j] == items[..j];
      t := t[items[j].name := Count(t, items[j].name) + items[j].quantity];
    }
    assert items[..|items|] == items;
  }

  /** The inner loop over one result's panels. */
  method AddResultAreas(m: map<MaterialType, real>, ps: seq<Panel>) returns (t: map<MaterialType, real>)
    ensures t == AddAreas(m, ps)
  {
    t := m;
    for j := 0 to |ps|
      invariant t == AddAreas(m, ps[..j])
    {
      assert ps[..j + 1][..j] == ps[..j];
      t := t[ps[j].material := Area(t, ps[j].material) + PanelArea(ps[j])];
    }
    assert ps[..|ps|] == ps;
  }
}
