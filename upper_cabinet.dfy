/**
 * The upper (wall) cabinet calculator, and the extra bottom a long row of
 * upper cabinets gets. Upper cabinets have a top instead of a bottom and
 * stabilisers, hang on hangers instead of standing on legs, and have no
 * plinth.
 */
module UpperCabinet {
  import opened Wrappers
  import opened Sums
  import opened Cabinets
  import opened BaseCabinet

  /** The top between the sides, in place of the base cabinet's bottom. */
  function TopPanel(c: Cabinet): Panel {
    NewPanel("Пола", InnerWidth(c) as real, c.depth as real, Body, FrontEdge(1.0), 1)
  }

  /** door_count or (1 if at most 500 wide else 2). */
  function UpperDoorCount(c: Cabinet): int {
    OrElse(c.doorCount, if c.width <= 500 then 1 else 2)
  }

  /** The closing panel: board thick, 10 mm short of the cabinet's height. */
  function ClosingPanel(c: Cabinet): Panel {
    NewPanel("Затварящ панел", 18.0, (c.height - 10) as real, Body, Edges(Some(1.0), None, None, Some(1.0)), 1)
  }

  function Closings(c: Cabinet): seq<Panel> {
    if c.hasClosingPanel then [Added(ClosingPanel(c))] else []
  }

  function UpperHingesPerDoor(c: Cabinet): int {
    if c.height > 700 then 3 else 2
  }

  function HangerCount(c: Cabinet): int {
    if c.width <= 600 then 2 else 3
  }

  function Panels(c: Cabinet): seq<Panel> {
    [Added(SidePanel(c)), Added(TopPanel(c))] + Shelves(c) + Backs(c)
      + [Added(DoorPanel(c, UpperDoorCount(c)))] + Closings(c)
  }

  function Hardware(c: Cabinet): seq<HardwareItem> {
    [Item("Панта", UpperDoorCount(c) * UpperHingesPerDoor(c))] + ShelfSupports(c)
      + [Item("Закачалка за горен шкаф", HangerCount(c))]
  }

  /** The calculation of an upper cabinet: no plinth. */
  function UpperCalc(c: Cabinet): Calc {
    Calc(Panels(c), Hardware(c), 0)
  }

  /** UpperCabinetCalculator.calculate. */
  method Calculate(c: Cabinet) returns (r: CalculationResult)
    ensures fresh(r) && r.cabinet == c && r.State() == UpperCalc(c)
  {
    r := new CalculationResult(c, 0);
    var doorCount := AddBody(r, c);
    AddFittings(r, c, doorCount);
  }

  method AddBody(r: CalculationResult, c: Cabinet) returns (doorCount: int)
    modifies r
    ensures r.panels == old(r.panels) + Panels(c) && r.hardware == old(r.hardware) && r.plinthLength == old(r.plinthLength)
    ensures doorCount == UpperDoorCount(c)
  {
    ghost var before := r.panels;
    r.AddPanel(SidePanel(c));
    r.AddPanel(TopPanel(c));
    AddShelvesAndBack(r, c);
    ghost var body := [Added(SidePanel(c)), Added(TopPanel(c))] + Shelves(c) + Backs(c);
    assert r.panels == before + body;
    doorCount := if c.doorCount.Some? && c.doorCount.value != 0 then c.doorCount.value
                 else if c.width <= 500 then 1 else 2;
    assert doorCount == UpperDoorCount(c);
    r.AddPanel(DoorPanel(c, doorCount));
    ghost var doors := r.panels;
    assert doors == before + (body + [Added(DoorPanel(c, UpperDoorCount(c)))]);
    if c.hasClosingPanel {
      r.AddPanel(ClosingPanel(c));
    }
    assert r.panels == doors + Closings(c);
    assert r.panels == before + Panels(c);
  }

  method AddFittings(r: CalculationResult, c: Cabinet, doorCount: int)
    requires doorCount == UpperDoorCount(c)
    modifies r
    ensures r.hardware == old(r.hardware) + Hardware(c) && r.panels == old(r.panels) && r.plinthLength == old(r.plinthLength)
  {
    ghost var before := r.hardware;
    var hingesPerDoor := if c.height > 700 then 3 else 2;
    r.AddHardware(Item("Панта", doorCount * hingesPerDoor));
    if c.shelfCount > 0 {
      r.AddHardware(Item("Рафтодържател", c.shelfCount * 4));
    }
    assert r.hardware == before + [Item("Панта", doorCount * hingesPerDoor)] + ShelfSupports(c);
    var hangers := if c.width <= 600 then 2 else 3;
    r.AddHardware(Item("Закачалка за горен шкаф", hangers));
  }

  // ---------------------------------------------------------------- properties

  /**
   * Without an explicit count, a cabinet up to 500 mm wide gets one
   * full-width door and a wider one two doors; an upper cabinet never has
   * zero doors, and its hinges are the door count times two, or three when
   * it is taller than 700 mm.
   */
  lemma UpperDoors(c: Cabinet)
    ensures UpperDoorCount(c) != 0
    ensures (c.doorCount == None || c.doorCount == Some(0)) ==> (UpperDoorCount(c) == 1 <==> c.width <= 500)
    ensures var door := Panels(c)[|Panels(c)| - 1 - |Closings(c)|];
      door.name == "Врата" && (door.quantity == 1 <==> UpperDoorCount(c) == 1)
    ensures QuantityOf(Hardware(c), "Панта") == UpperDoorCount(c) * (if c.height > 700 then 3 else 2)
  {
    OrElseNonZero(c.doorCount, if c.width <= 500 then 1 else 2);
    var ps := Panels(c);
    var front := [Added(SidePanel(c)), Added(TopPanel(c))] + Shelves(c) + Backs(c);
    assert ps == front + [Added(DoorPanel(c, UpperDoorCount(c)))] + Closings(c);
    assert ps[|front|] == Added(DoorPanel(c, UpperDoorCount(c)));
  }

  /** A closing panel exactly when the cabinet asks for one, as the last panel. */
  lemma ClosingPanelLast(c: Cabinet)
    ensures c.hasClosingPanel <==> Panels(c)[|Panels(c)| - 1].name == "Затварящ панел"
    ensures c.hasClosingPanel ==> Panels(c)[|Panels(c)| - 1].width == 18.0 && Panels(c)[|Panels(c)| - 1].height + 10.0 == c.height as real
  {
    if c.hasClosingPanel {
      AddedWhole(ClosingPanel(c));
    } else {
      assert Panels(c)[|Panels(c)| - 1].name == "Врата";
    }
  }

  /** Two hangers up to 600 mm wide, three above; four supports per shelf. */
  lemma HangersAndSupports(c: Cabinet)
    ensures Hardware(c)[|Hardware(c)| - 1] == Item("Закачалка за горен шкаф", if c.width <= 600 then 2 else 3)
    ensures QuantityOf(Hardware(c), "Рафтодържател") == if c.shelfCount > 0 then 4 * c.shelfCount else 0
  {
    QuantityOfPast([Item("Панта", UpperDoorCount(c) * UpperHingesPerDoor(c))], ShelfSupports(c) + [Item("Закачалка за горен шкаф", HangerCount(c))], "Рафтодържател");
    assert Hardware(c) == [Item("Панта", UpperDoorCount(c) * UpperHingesPerDoor(c))] + (ShelfSupports(c) + [Item("Закачалка за горен шкаф", HangerCount(c))]);
  }

  // ---------------------------------------------------------------- extra bottom

  predicate IsUpper(c: Cabinet) {
    c.kind == UPPER
  }

  function UpperCabinets(cs: seq<Cabinet>): seq<Cabinet> {
    Filter(cs, IsUpper)
  }

  function TotalUpperWidth(cs: seq<Cabinet>): int {
    SumOf(UpperCabinets(cs), (c: Cabinet) => c.width)
  }

  /** calculate_additional_bottom: a 320 mm deep bottom running under the
      whole upper row less 20 mm, when the row is wider than a 2500 mm sheet. */
  function AdditionalBottom(cs: seq<Cabinet>): Option<Panel> {
    if UpperCabinets(cs) == [] then None
    else
      var total := TotalUpperWidth(cs);
      if total > 2500 then
        Some(NewPanel("Допълнително дъно за горни шкафове", (total - 20) as real, 320.0, Body,
                      Edges(Some(1.0), None, Some(1.0), Some(1.0)), 1))
      else None
  }

  /** The extra bottom is there exactly when the upper cabinets together are
      wider than 2500 mm, and is 20 mm shorter than the row. */
  lemma AdditionalBottomWhenLongRow(cs: seq<Cabinet>)
    ensures AdditionalBottom(cs).Some? <==> TotalUpperWidth(cs) > 2500
    ensures AdditionalBottom(cs).Some? ==> AdditionalBottom(cs).value.width + 20.0 == TotalUpperWidth(cs) as real
  {
    if UpperCabinets(cs) == [] {
      assert TotalUpperWidth(cs) == 0;
    }
  }

  /** The row's width counts each upper cabinet once, whatever the order. */
  lemma AdditionalBottomOrderFree(cs: seq<Cabinet>, ds: seq<Cabinet>)
    requires multiset(cs) == multiset(ds)
    ensures AdditionalBottom(cs) == AdditionalBottom(ds)
  {
    var share := (c: Cabinet) => if IsUpper(c) then c.width else 0;
    SumOfFilter(cs, IsUpper, (c: Cabinet) => c.width, share);
    SumOfFilter(ds, IsUpper, (c: Cabinet) => c.width, share);
    SumOfPermutation(cs, ds, share);
    assert TotalUpperWidth(cs) == TotalUpperWidth(ds);
    AdditionalBottomWhenLongRow(cs);
    AdditionalBottomWhenLongRow(ds);
  }
}
