/**
 * The drawer cabinet calculator: the base carcass, dividers between the
 * drawers, one front per drawer sharing the height left above the bottom,
 * an extra bottom for wide cabinets, legs, slides and handles. The door
 * count doubles as the drawer count.
 */
module DrawerCabinet {
  import opened Wrappers
  import opened Cabinets
  import opened BaseCabinet

  /** door_count or 3. */
  function DrawerCount(c: Cabinet): int {
    OrElse(c.doorCount, 3)
  }

  /** The dividers: one fewer than the drawers, 40 mm short of the depth. */
  function Divider(c: Cabinet, drawers: int): Panel {
    NewPanel("Вътрешен панел", (c.depth - 40) as real, (c.height - 100) as real, Body, NoEdges(), drawers - 1)
  }

  function Dividers(c: Cabinet): seq<Panel> {
    if DrawerCount(c) > 1 then [Added(Divider(c, DrawerCount(c)))] else []
  }

  /** The height above the bottom and stabilisers, shared by the fronts. */
  function FrontsHeight(c: Cabinet): int {
    c.height - 100
  }

  /** A drawer front: its share of the height less a 2 mm gap, the width
      less 3 mm. */
  function Front(c: Cabinet, drawers: int): Panel
    requires drawers != 0
  {
    NewPanel("Фасада за чекмедже", (c.width - 3) as real, FrontsHeight(c) as real / drawers as real - 2.0,
             MaterialType.Door, AllEdges(2.0), drawers)
  }

  function Fronts(c: Cabinet): seq<Panel> {
    OrElseNonZero(c.doorCount, 3);
    if c.doorBoard then [Added(Front(c, DrawerCount(c)))] else []
  }

  function ExtraBottom(c: Cabinet): Panel {
    NewPanel("Допълнително дъно", InnerWidth(c) as real, c.depth as real, Body, FrontEdge(1.0), 1)
  }

  function ExtraBottoms(c: Cabinet): seq<Panel> {
    if c.width > 600 then [Added(ExtraBottom(c))] else []
  }

  function DrawerLegCount(c: Cabinet): int {
    if c.width <= 600 then 4 else 6
  }

  /** The base cabinet's carcass and back. */
  function Carcass(c: Cabinet): seq<Panel> {
    [Added(SidePanel(c)), Added(BottomPanel(c)), Added(Stabilizer(c))] + Backs(c)
  }

  function Panels(c: Cabinet): seq<Panel> {
    Carcass(c) + Dividers(c) + Fronts(c) + ExtraBottoms(c)
  }

  function Hardware(c: Cabinet): seq<HardwareItem> {
    Legs("Краче за чекмедже", DrawerLegCount(c))
      + [Item("Водач за чекмедже", DrawerCount(c) * 2), Item("Ръкохватка за чекмедже", DrawerCount(c))]
  }

  function DrawerCalc(c: Cabinet): Calc {
    Calc(Panels(c), Hardware(c), c.width)
  }

  /** DrawerCabinetCalculator.calculate. */
  method Calculate(c: Cabinet) returns (r: CalculationResult)
    ensures fresh(r) && r.cabinet == c && r.State() == DrawerCalc(c)
  {
    r := new CalculationResult(c, c.width);
    var drawers := AddBody(r, c);
    AddFittings(r, c, drawers);
  }

  method AddBody(r: CalculationResult, c: Cabinet) returns (drawers: int)
    modifies r
    ensures r.panels == old(r.panels) + Panels(c) && r.hardware == old(r.hardware) && r.plinthLength == old(r.plinthLength)
    ensures drawers == DrawerCount(c)
  {
    ghost var before := r.panels;
    r.AddPanel(SidePanel(c));
    r.AddPanel(BottomPanel(c));
    r.AddPanel(Stabilizer(c));
    if c.hasBack && c.backBoard {
      r.AddPanel(BackPanel(c));
    }
    assert r.panels == before + Carcass(c);
    drawers := if c.doorCount.Some? && c.doorCount.value != 0 then c.doorCount.value else 3;
    AddDrawerParts(r, c, drawers);
  }

  /** Dividers, fronts and the extra bottom. */
  method AddDrawerParts(r: CalculationResult, c: Cabinet, drawers: int)
    requires drawers == DrawerCount(c)
    modifies r
    ensures r.panels == old(r.panels) + Dividers(c) + Fronts(c) + ExtraBottoms(c)
    ensures r.hardware == old(r.hardware) && r.plinthLength == old(r.plinthLength)
  {
    ghost var before := r.panels;
    OrElseNonZero(c.doorCount, 3);
    if drawers > 1 {
      r.AddPanel(Divider(c, drawers));
    }
    assert r.panels == before + Dividers(c);
    if c.doorBoard {
      r.AddPanel(Front(c, drawers));
    }
    assert r.panels == before + Dividers(c) + Fronts(c);
    if c.width > 600 {
      r.AddPanel(ExtraBottom(c));
    }
  }

  method AddFittings(r: CalculationResult, c: Cabinet, drawers: int)
    requires drawers == DrawerCount(c)
    modifies r
    ensures r.hardware == old(r.hardware) + Hardware(c) && r.panels == old(r.panels) && r.plinthLength == old(r.plinthLength)
  {
    var legs := if c.width <= 600 then 4 else 6;
    r.AddHardware(HardwareItem("Краче за чекмедже", legs, Some("100мм")));
    r.AddHardware(Item("Щипка за краче", legs / 2));
    r.AddHardware(Item("Водач за чекмедже", drawers * 2));
    r.AddHardware(Item("Ръкохватка за чекмедже", drawers));
  }

  // ---------------------------------------------------------------- properties

  /** Naming panels splits over the four groups. */
  lemma NamedGroups(c: Cabinet, name: string)
    ensures Named(Panels(c), name) ==
      Named(Carcass(c), name) + Named(Dividers(c), name) + Named(Fronts(c), name) + Named(ExtraBottoms(c), name)
  {
    var keep := (p: Panel) => p.name == name;
    FilterAppend(Carcass(c) + Dividers(c) + Fronts(c), ExtraBottoms(c), keep);
    FilterAppend(Carcass(c) + Dividers(c), Fronts(c), keep);
    FilterAppend(Carcass(c), Dividers(c), keep);
  }

  /** The carcass and the extra bottom hold no dividers and no fronts. */
  lemma NoDrawerPartsAround(c: Cabinet, name: string)
    requires |name| == 14 || |name| == 18
    ensures Named(Carcass(c), name) == [] && Named(ExtraBottoms(c), name) == []
  {
    var keep := (p: Panel) => p.name == name;
    FilterNone(Carcass(c), keep);
    FilterNone(ExtraBottoms(c), keep);
  }

  /**
   * There is always at least one drawer; the cabinet gets one divider entry,
   * for all drawers but one, exactly when there are two or more drawers.
   */
  lemma DividersBetweenDrawers(c: Cabinet)
    ensures DrawerCount(c) != 0
    ensures |Named(Panels(c), "Вътрешен панел")| == (if DrawerCount(c) > 1 then 1 else 0)
    ensures DrawerCount(c) > 1 ==> Named(Panels(c), "Вътрешен панел")[0].quantity + 1 == DrawerCount(c)
  {
    OrElseNonZero(c.doorCount, 3);
    NamedGroups(c, "Вътрешен панел");
    NoDrawerPartsAround(c, "Вътрешен панел");
    var keep := (p: Panel) => p.name == "Вътрешен панел";
    FilterNone(Fronts(c), keep);
    if DrawerCount(c) > 1 {
      FilterAll(Dividers(c), keep);
    }
  }

  /** With a front board there is one front entry, with one front per drawer. */
  lemma FrontPerDrawer(c: Cabinet)
    ensures |Named(Panels(c), "Фасада за чекмедже")| == (if c.doorBoard then 1 else 0)
    ensures c.doorBoard ==> Named(Panels(c), "Фасада за чекмедже")[0] == Added(Front(c, DrawerCount(c)))
    ensures c.doorBoard ==> Named(Panels(c), "Фасада за чекмедже")[0].quantity == DrawerCount(c)
  {
    OrElseNonZero(c.doorCount, 3);
    NamedGroups(c, "Фасада за чекмедже");
    NoDrawerPartsAround(c, "Фасада за чекмедже");
    var keep := (p: Panel) => p.name == "Фасада за чекмедже";
    FilterNone(Dividers(c), keep);
    if c.doorBoard {
      FilterAll(Fronts(c), keep);
    }
  }

  /**
   * When the drawer count is positive the fronts, with their 2 mm gaps,
   * share the height above the bottom to within half a millimetre per drawer.
   */
  lemma FrontsShareHeight(c: Cabinet, drawers: int)
    requires drawers > 0
    ensures var f := Added(Front(c, drawers));
      -drawers as real / 2.0 <= drawers as real * (f.height + 2.0) - FrontsHeight(c) as real <= drawers as real / 2.0
  {
    var f := Added(Front(c, drawers));
    FrontRounded(c, drawers);
    ShareWithinHalf(FrontsHeight(c) as real, drawers as real, f.height);
  }

  lemma FrontRounded(c: Cabinet, drawers: int)
    requires drawers != 0
    ensures -0.5 <= Added(Front(c, drawers)).height - (FrontsHeight(c) as real / drawers as real - 2.0) <= 0.5
  {
  }

  /** A rounded share, times the number of sharers, is within half a unit
      per sharer of the total. */
  lemma ShareWithinHalf(total: real, n: real, h: real)
    requires n > 0.0 && -0.5 <= h - (total / n - 2.0) <= 0.5
    ensures -n / 2.0 <= n * (h + 2.0) - total <= n / 2.0
  {
    var e := h - (total / n - 2.0);
    assert n * (total / n) == total;
    assert n * (h + 2.0) - total == n * e;
    assert -0.5 * n <= n * e <= 0.5 * n;
  }

  /** An extra bottom exactly for cabinets wider than 600 mm, as the last panel. */
  lemma ExtraBottomWhenWide(c: Cabinet)
    ensures Panels(c)[|Panels(c)| - 1].name == "Допълнително дъно" <==> c.width > 600
  {
    if c.width <= 600 {
      OrElseNonZero(c.doorCount, 3);
      assert Panels(c) == Carcass(c) + Dividers(c) + Fronts(c);
    }
  }

  /** Two slides and one handle per drawer; four legs up to 600 mm wide and
      six above, with a clip for every two legs. */
  lemma SlidesAndHandles(c: Cabinet)
    ensures Hardware(c)[2].quantity == 2 * Hardware(c)[3].quantity == 2 * DrawerCount(c)
    ensures Hardware(c)[0].quantity == (if c.width <= 600 then 4 else 6) == 2 * Hardware(c)[1].quantity
  {
  }
}
