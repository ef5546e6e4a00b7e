/**
 * The oven housing calculator: sides, a doubled bottom, side panels beside
 * the oven, an optional back with a larger ventilation gap, a 560 mm oven
 * door, and a drawer under the oven when more than 100 mm is left below it.
 */
module OvenCabinet {
  import opened Wrappers
  import opened Cabinets
  import opened BaseCabinet

  /** The standard oven height, in mm. */
  const OvenHeight: int := 560

  function OvenBottom(c: Cabinet): Panel {
    NewPanel("Дъно за фурна", InnerWidth(c) as real, c.depth as real, Body, FrontEdge(1.0), 2)
  }

  function OvenSide(c: Cabinet): Panel {
    NewPanel("Страничен панел за фурна", OvenHeight as real, c.depth as real, Body, FrontEdge(1.0), 2)
  }

  /** The back leaves 20 mm each side for ventilation. */
  function OvenBack(c: Cabinet): Panel {
    NewPanel("Гръб", (c.width - 40) as real, (c.height - 40) as real, Back, NoEdges(), 1)
  }

  function OvenBacks(c: Cabinet): seq<Panel> {
    if c.hasBack && c.backBoard then [Added(OvenBack(c))] else []
  }

  function OvenDoor(c: Cabinet): Panel {
    NewPanel("Врата за фурна", (c.width - DoorGap) as real, OvenHeight as real, MaterialType.Door, AllEdges(2.0), 1)
  }

  /** The room left under the oven and its 50 mm clearance. */
  function RoomBelow(c: Cabinet): int {
    c.height - OvenHeight - 50
  }

  predicate HasDrawer(c: Cabinet) {
    RoomBelow(c) > 100
  }

  function DrawerFront(c: Cabinet): Panel {
    NewPanel("Фасада за чекмедже под фурна", (c.width - 6) as real, 145.0, MaterialType.Door, AllEdges(2.0), 1)
  }

  function DrawerBottom(c: Cabinet): Panel {
    NewPanel("Дъно за чекмедже", InnerWidth(c) as real, (c.depth - 40) as real, Body, FrontEdge(1.0), 1)
  }

  function Drawer(c: Cabinet): seq<Panel> {
    if HasDrawer(c) then [Added(DrawerFront(c)), Added(DrawerBottom(c))] else []
  }

  function OvenLegCount(c: Cabinet): int {
    if c.width <= 600 then 6 else 8
  }

  function DrawerFittings(c: Cabinet): seq<HardwareItem> {
    if HasDrawer(c) then [Item("Водач за чекмедже", 2), Item("Ръкохватка за чекмедже", 1)] else []
  }

  function Panels(c: Cabinet): seq<Panel> {
    [Added(SidePanel(c)), Added(OvenBottom(c)), Added(OvenSide(c))] + OvenBacks(c)
      + [Added(OvenDoor(c))] + Drawer(c)
  }

  function Hardware(c: Cabinet): seq<HardwareItem> {
    Legs("Краче за фурна", OvenLegCount(c)) + [Item("Панта за фурна", 3)]
      + DrawerFittings(c) + [Item("Конзола за фурна", 4)]
  }

  function OvenCalc(c: Cabinet): Calc {
    Calc(Panels(c), Hardware(c), c.width)
  }

  /** OvenCabinetCalculator.calculate. */
  method Calculate(c: Cabinet) returns (r: CalculationResult)
    ensures fresh(r) && r.cabinet == c && r.State() == OvenCalc(c)
  {
    r := new CalculationResult(c, c.width);
    var roomBelow := AddBody(r, c);
    AddFittings(r, c, roomBelow);
  }

  method AddBody(r: CalculationResult, c: Cabinet) returns (roomBelow: int)
    modifies r
    ensures r.panels == old(r.panels) + Panels(c) && r.hardware == old(r.hardware) && r.plinthLength == old(r.plinthLength)
    ensures roomBelow == RoomBelow(c)
  {
    ghost var before := r.panels;
    r.AddPanel(SidePanel(c));
    r.AddPanel(OvenBottom(c));
    r.AddPanel(OvenSide(c));
    if c.hasBack && c.backBoard {
      r.AddPanel(OvenBack(c));
    }
    r.AddPanel(OvenDoor(c));
    ghost var door := r.panels;
    roomBelow := c.height - OvenHeight - 50;
    if roomBelow > 100 {
      r.AddPanel(DrawerFront(c));
      r.AddPanel(DrawerBottom(c));
    }
    assert r.panels == door + Drawer(c);
  }

  method AddFittings(r: CalculationResult, c: Cabinet, roomBelow: int)
    requires roomBelow == RoomBelow(c)
    modifies r
    ensures r.hardware == old(r.hardware) + Hardware(c) && r.panels == old(r.panels) && r.plinthLength == old(r.plinthLength)
  {
    ghost var before := r.hardware;
    var legs := if c.width <= 600 then 6 else 8;
    r.AddHardware(HardwareItem("Краче за фурна", legs, Some("100мм")));
    r.AddHardware(Item("Щипка за краче", legs / 2));
    r.AddHardware(Item("Панта за фурна", 3));
    ghost var hinges := r.hardware;
    if roomBelow > 100 {
      r.AddHardware(Item("Водач за чекмедже", 2));
      r.AddHardware(Item("Ръкохватка за чекмедже", 1));
    }
    assert r.hardware == hinges + DrawerFittings(c);
    r.AddHardware(Item("Конзола за фурна", 4));
  }

  // ---------------------------------------------------------------- properties

  /**
   * The drawer under the oven comes whole or not at all: its front, its
   * bottom, its two slides and its handle are all there exactly when the
   * cabinet is taller than 710 mm (560 mm oven, 50 mm clearance, 100 mm).
   */
  lemma DrawerUnderOven(c: Cabinet)
    ensures HasDrawer(c) <==> c.height > 710
    ensures HasDrawer(c) <==> Panels(c)[|Panels(c)| - 1].name == "Дъно за чекмедже"
    ensures HasDrawer(c) <==> QuantityOf(Hardware(c), "Водач за чекмедже") == 2
    ensures HasDrawer(c) <==> QuantityOf(Hardware(c), "Ръкохватка за чекмедже") == 1
  {
    var front := Legs("Краче за фурна", OvenLegCount(c)) + [Item("Панта за фурна", 3)];
    var tail := DrawerFittings(c) + [Item("Конзола за фурна", 4)];
    assert Hardware(c) == front + tail;
    QuantityOfPast(front, tail, "Водач за чекмедже");
    QuantityOfPast(front, tail, "Ръкохватка за чекмедже");
    if !HasDrawer(c) {
      assert Panels(c)[|Panels(c)| - 1].name == "Врата за фурна";
    }
  }

  /** The oven door is 3 mm narrower than the cabinet and as tall as the
      oven; the bottom is doubled; the back, when there is one, is 40 mm
      smaller than the cabinet both ways. */
  lemma OvenHousing(c: Cabinet)
    ensures var door := Panels(c)[|Panels(c)| - 1 - |Drawer(c)|];
      door.name == "Врата за фурна" && door.width + 3.0 == c.width as real && door.height == 560.0
    ensures Panels(c)[1].quantity == 2 && Panels(c)[1].width + 36.0 == c.width as real
    ensures c.hasBack && c.backBoard ==>
      Panels(c)[3].name == "Гръб" && Panels(c)[3].width + 40.0 == c.width as real && Panels(c)[3].height + 40.0 == c.height as real
  {
    AddedWhole(OvenDoor(c));
    AddedWhole(OvenBottom(c));
    AddedWhole(OvenBack(c));
    var ps := Panels(c);
    var front := [Added(SidePanel(c)), Added(OvenBottom(c)), Added(OvenSide(c))] + OvenBacks(c);
    assert ps == front + [Added(OvenDoor(c))] + Drawer(c);
    assert ps[|front|] == Added(OvenDoor(c));
  }

  /** Six legs up to 600 mm wide and eight above, a clip for every two, three
      oven hinges and four oven brackets. */
  lemma OvenFittings(c: Cabinet)
    ensures Hardware(c)[0].quantity == (if c.width <= 600 then 6 else 8) == 2 * Hardware(c)[1].quantity
    ensures Hardware(c)[2] == Item("Панта за фурна", 3) && Hardware(c)[|Hardware(c)| - 1] == Item("Конзола за фурна", 4)
  {
  }
}
