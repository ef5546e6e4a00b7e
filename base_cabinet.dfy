/**
 * The base (floor-standing) cabinet calculator: two sides, a bottom,
 * stabilisers, optional shelves and back, one or two doors, legs with clips,
 * hinges and shelf supports. The carcass panels and the door rule are
 * shared with the other calculators, which import them from here.
 */
module BaseCabinet {
  import opened Wrappers
  import opened Text
  import opened Cabinets

  /** Board thickness and door gap, in mm. */
  const Thickness: int := 18
  const DoorGap: int := 3

  function BodyEdges(): Edges { Edges(Some(1.0), None, Some(1.0), None) }

  function SidePanel(c: Cabinet): Panel {
    NewPanel("Страничен панел", c.height as real, c.depth as real, Body, BodyEdges(), 2)
  }

  /** The width between the two sides. */
  function InnerWidth(c: Cabinet): int {
    c.width - 2 * Thickness
  }

  function BottomPanel(c: Cabinet): Panel {
    NewPanel("Дъно", InnerWidth(c) as real, c.depth as real, Body, FrontEdge(1.0), 1)
  }

  function StabilizerCount(c: Cabinet): int {
    if c.width > 600 then 3 else 2
  }

  function Stabilizer(c: Cabinet): Panel {
    NewPanel("Стабилизатор", InnerWidth(c) as real, 100.0, Body, FrontEdge(1.0), StabilizerCount(c))
  }

  function Shelf(c: Cabinet): Panel {
    NewPanel("Рафт", (InnerWidth(c) - 1) as real, (c.depth - 30) as real, Body, FrontEdge(1.0), c.shelfCount)
  }

  function Shelves(c: Cabinet): seq<Panel> {
    if c.shelfCount > 0 then [Added(Shelf(c))] else []
  }

  /** The back: 10 mm in from every edge. */
  function BackPanel(c: Cabinet): Panel {
    NewPanel("Гръб", (c.width - 20) as real, (c.height - 20) as real, Back, NoEdges(), 1)
  }

  function Backs(c: Cabinet): seq<Panel> {
    if c.hasBack && c.backBoard then [Added(BackPanel(c))] else []
  }

  /** door_count or (2 if wider than 600 else 1). */
  function BaseDoorCount(c: Cabinet): int {
    OrElse(c.doorCount, if c.width > 600 then 2 else 1)
  }

  /** One full-width door when the count is 1; otherwise two half-width doors. */
  function DoorPanel(c: Cabinet, doorCount: int): Panel {
    if doorCount == 1 then
      NewPanel("Врата", (c.width - DoorGap) as real, (c.height - DoorGap) as real, MaterialType.Door, AllEdges(2.0), 1)
    else
      NewPanel("Врата", c.width as real / 2.0 - DoorGap as real / 2.0, (c.height - DoorGap) as real, MaterialType.Door, AllEdges(2.0), 2)
  }

  function LegCount(c: Cabinet): int {
    if c.width <= 600 then 4 else if c.width <= 1000 then 6 else 8
  }

  function Legs(name: string, legs: int): seq<HardwareItem> {
    [HardwareItem(name, legs, Some("100мм")), Item("Щипка за краче", legs / 2)]
  }

  function HingesPerDoor(c: Cabinet): int {
    if c.height > 600 then 3 else 2
  }

  function ShelfSupports(c: Cabinet): seq<HardwareItem> {
    if c.shelfCount > 0 then [Item("Рафтодържател", c.shelfCount * 4)] else []
  }

  function Panels(c: Cabinet): seq<Panel> {
    [Added(SidePanel(c)), Added(BottomPanel(c)), Added(Stabilizer(c))]
      + Shelves(c) + Backs(c) + [Added(DoorPanel(c, BaseDoorCount(c)))]
  }

  function Hardware(c: Cabinet): seq<HardwareItem> {
    Legs("Краче за долен шкаф", LegCount(c))
      + [Item("Панта", BaseDoorCount(c) * HingesPerDoor(c))]
      + ShelfSupports(c)
  }

  /** The calculation of a base cabinet; its plinth runs along the whole width. */
  function BaseCalc(c: Cabinet): Calc {
    Calc(Panels(c), Hardware(c), c.width)
  }

  /** BaseCabinetCalculator.calculate. */
  method Calculate(c: Cabinet) returns (r: CalculationResult)
    ensures fresh(r) && r.cabinet == c && r.State() == BaseCalc(c)
  {
    r := new CalculationResult(c, c.width);
    var doorCount := AddBody(r, c);
    AddFittings(r, c, doorCount);
  }

  /** The panels, in the order the calculator adds them. */
  method AddBody(r: CalculationResult, c: Cabinet) returns (doorCount: int)
    modifies r
    ensures r.panels == old(r.panels) + Panels(c) && r.hardware == old(r.hardware) && r.plinthLength == old(r.plinthLength)
    ensures doorCount == BaseDoorCount(c)
  {
    ghost var before := r.panels;
    r.AddPanel(SidePanel(c));
    r.AddPanel(BottomPanel(c));
    r.AddPanel(Stabilizer(c));
    AddShelvesAndBack(r, c);
    doorCount := if c.doorCount.Some? && c.doorCount.value != 0 then c.doorCount.value
                 else if c.width > 600 then 2 else 1;
    r.AddPanel(DoorPanel(c, doorCount));
    assert r.panels == before + Panels(c);
  }

  /** The shelves, when there are any, then the back, when there is one. */
  method AddShelvesAndBack(r: CalculationResult, c: Cabinet)
    modifies r
    ensures r.panels == old(r.panels) + Shelves(c) + Backs(c) && r.hardware == old(r.hardware) && r.plinthLength == old(r.plinthLength)
  {
    ghost var before := r.panels;
    if c.shelfCount > 0 {
      r.AddPanel(Shelf(c));
    }
    assert r.panels == before + Shelves(c);
    if c.hasBack && c.backBoard {
      r.AddPanel(BackPanel(c));
    }
  }

  /** Legs and clips, hinges, shelf supports. */
  method AddFittings(r: CalculationResult, c: Cabinet, doorCount: int)
    requires doorCount == BaseDoorCount(c)
    modifies r
    ensures r.hardware == old(r.hardware) + Hardware(c) && r.panels == old(r.panels) && r.plinthLength == old(r.plinthLength)
  {
    ghost var before := r.hardware;
    var legs := 4;
    if c.width <= 600 {
      legs := 4;
    } else if c.width <= 1000 {
      legs := 6;
    } else {
      legs := 8;
    }
    r.AddHardware(HardwareItem("Краче за долен шкаф", legs, Some("100мм")));
    r.AddHardware(Item("Щипка за краче", legs / 2));
    var hingesPerDoor := if c.height > 600 then 3 else 2;
    r.AddHardware(Item("Панта", doorCount * hingesPerDoor));
    assert r.hardware == before + Legs("Краче за долен шкаф", LegCount(c)) + [Item("Панта", BaseDoorCount(c) * HingesPerDoor(c))];
    if c.shelfCount > 0 {
      r.AddHardware(Item("Рафтодържател", c.shelfCount * 4));
    }
  }

  // ---------------------------------------------------------------- properties

  /** Sizes that are whole millimetres are stored unchanged. */
  lemma AddedWhole(p: Panel)
    requires p.width == p.width.Floor as real && p.height == p.height.Floor as real
    ensures Added(p).width == p.width && Added(p).height == p.height
  {
    RoundWhole(p.width.Floor);
    RoundWhole(p.height.Floor);
  }

  /**
   * The carcass: two sides of height × depth, a bottom and the stabilisers
   * between the sides (width − 2·18), three stabilisers exactly when the
   * cabinet is wider than 600 mm.
   */
  lemma Carcass(c: Cabinet)
    ensures |Panels(c)| >= 4
    ensures Panels(c)[0].quantity == 2 && Panels(c)[0].width == c.height as real && Panels(c)[0].height == c.depth as real
    ensures Panels(c)[1].width + 2.0 * Thickness as real == c.width as real && Panels(c)[1].height == c.depth as real
    ensures Panels(c)[2].width == Panels(c)[1].width && Panels(c)[2].height == 100.0
    ensures Panels(c)[2].quantity == 3 <==> c.width > 600
  {
    AddedWhole(SidePanel(c));
    AddedWhole(BottomPanel(c));
    AddedWhole(Stabilizer(c));
  }

  /** The panels of the given name. */
  function Named(ps: seq<Panel>, name: string): seq<Panel> {
    Filter(ps, (p: Panel) => p.name == name)
  }

  function ItemNamed(hs: seq<HardwareItem>, name: string): seq<HardwareItem> {
    Filter(hs, (h: HardwareItem) => h.name == name)
  }

  lemma NamedBody(c: Cabinet, name: string)
    requires name != "Страничен панел" && name != "Дъно" && name != "Стабилизатор"
    ensures Named(Panels(c), name) == Named(Shelves(c), name) + Named(Backs(c), name) + Named([Added(DoorPanel(c, BaseDoorCount(c)))], name)
  {
    var carcass := [Added(SidePanel(c)), Added(BottomPanel(c)), Added(Stabilizer(c))];
    var keep := (p: Panel) => p.name == name;
    FilterAppend(carcass + Shelves(c) + Backs(c), [Added(DoorPanel(c, BaseDoorCount(c)))], keep);
    FilterAppend(carcass + Shelves(c), Backs(c), keep);
    FilterAppend(carcass, Shelves(c), keep);
    FilterNone(carcass, keep);
  }

  /**
   * There is one shelf entry exactly when shelves were asked for; it holds
   * all of them, and four supports come with each shelf.
   */
  lemma ShelvesAndSupports(c: Cabinet)
    ensures |Named(Panels(c), "Рафт")| == (if c.shelfCount > 0 then 1 else 0)
    ensures c.shelfCount > 0 ==> Named(Panels(c), "Рафт")[0].quantity == c.shelfCount
    ensures QuantityOf(Hardware(c), "Рафтодържател") == if c.shelfCount > 0 then 4 * Named(Panels(c), "Рафт")[0].quantity else 0
  {
    NamedBody(c, "Рафт");
    FilterNone(Backs(c), (p: Panel) => p.name == "Рафт");
    FilterNone([Added(DoorPanel(c, BaseDoorCount(c)))], (p: Panel) => p.name == "Рафт");
    if c.shelfCount > 0 {
      FilterAll(Shelves(c), (p: Panel) => p.name == "Рафт");
    } else {
      FilterNone(Shelves(c), (p: Panel) => p.name == "Рафт");
    }
    var front := Legs("Краче за долен шкаф", LegCount(c)) + [Item("Панта", BaseDoorCount(c) * HingesPerDoor(c))];
    QuantityOfPast(front, ShelfSupports(c), "Рафтодържател");
  }

  /** There is a back exactly when the cabinet has one and a back board is
      chosen; it is 20 mm smaller than the cabinet both ways. */
  lemma BackPresence(c: Cabinet)
    ensures |Named(Panels(c), "Гръб")| == (if c.hasBack && c.backBoard then 1 else 0)
    ensures c.hasBack && c.backBoard ==>
      Named(Panels(c), "Гръб")[0].width + 20.0 == c.width as real && Named(Panels(c), "Гръб")[0].height + 20.0 == c.height as real
  {
    NamedBody(c, "Гръб");
    assert Named(Shelves(c), "Гръб") == [];
    assert Named([Added(DoorPanel(c, BaseDoorCount(c)))], "Гръб") == [];
    AddedWhole(BackPanel(c));
  }

  /** The doors' total width plus the gap between them. */
  function Span(door: Panel): real {
    door.quantity as real * door.width + (door.quantity - 1) as real * DoorGap as real
  }

  /**
   * The door panel: one door 3 mm narrower than the cabinet, or two doors
   * that with the 3 mm gap between them cover the width to within a
   * millimetre — exactly for odd widths, one short when the width is a
   * multiple of 4, one over otherwise (half-to-even rounding of w/2 − 1.5).
   * Either way the doors are 3 mm lower than the cabinet.
   */
  lemma DoorsCoverFront(c: Cabinet, doorCount: int)
    ensures Added(DoorPanel(c, doorCount)).height + DoorGap as real == c.height as real
    ensures doorCount == 1 ==> Added(DoorPanel(c, doorCount)).width + DoorGap as real == c.width as real
    ensures doorCount != 1 ==> Added(DoorPanel(c, doorCount)).quantity == 2
    ensures doorCount != 1 ==>
              Span(Added(DoorPanel(c, doorCount))) == c.width as real + (if c.width % 2 == 1 then 0.0 else if c.width % 4 == 0 then -1.0 else 1.0)
  {
    var d := DoorPanel(c, doorCount);
    RoundWhole(c.height - DoorGap);
    if doorCount == 1 {
      RoundWhole(c.width - DoorGap);
    } else {
      var k := c.width / 2;
      if c.width % 2 == 1 {
        assert d.width == (k - 1) as real;
        RoundWhole(k - 1);
      } else {
        assert d.width == (k - 2) as real + 0.5;
        RoundHalf(k - 2);
      }
    }
  }

  /** A wide cabinet (four doubles) whose two doors overrun the width by 1 mm. */
  lemma DoorsOverrun()
    ensures var c := NewCabinet("", 602, 720, 560, BASE);
      Span(Panels(c)[|Panels(c)| - 1]) == 603.0
  {
    var c := NewCabinet("", 602, 720, 560, BASE);
    DoorsCoverFront(c, BaseDoorCount(c));
  }

  /**
   * The hinge count follows door_count, not the door panels: it is the
   * hinges per door times the doors actually produced exactly when the
   * count is 1 or 2.
   */
  lemma HingesFollowDoorCount(c: Cabinet)
    ensures QuantityOf(Hardware(c), "Панта") == BaseDoorCount(c) * HingesPerDoor(c)
    ensures var door := Panels(c)[|Panels(c)| - 1];
      door.name == "Врата" &&
      (QuantityOf(Hardware(c), "Панта") == door.quantity * HingesPerDoor(c) <==> BaseDoorCount(c) in {1, 2})
  {
    var n := BaseDoorCount(c);
    QuantityOfPast(Legs("Краче за долен шкаф", LegCount(c)), [Item("Панта", n * HingesPerDoor(c))] + ShelfSupports(c), "Панта");
    assert Hardware(c) == Legs("Краче за долен шкаф", LegCount(c)) + ([Item("Панта", n * HingesPerDoor(c))] + ShelfSupports(c));
    OrElseNonZero(c.doorCount, if c.width > 600 then 2 else 1);
    if n != 1 && n != 2 {
      assert n * HingesPerDoor(c) != 2 * HingesPerDoor(c);
    }
  }

  /** Four, six or eight legs by width, never fewer for a wider cabinet, and
      a clip for every two legs. */
  lemma LegsByWidth(c: Cabinet, d: Cabinet)
    ensures LegCount(c) in {4, 6, 8} && Hardware(c)[1].quantity * 2 == Hardware(c)[0].quantity == LegCount(c)
    ensures c.width <= d.width ==> LegCount(c) <= LegCount(d)
  {
  }
}
