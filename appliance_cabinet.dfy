/**
 * The appliance calculator. Fridge and column housings are a base cabinet
 * rewritten: no stabilisers, a cap matching the bottom, the doors replaced
 * by a small and a large door, and the hinges replaced by hinges for each
 * door and for the tall cabinet. Other cabinets get the base calculation.
 */
module ApplianceCabinet {
  import opened Wrappers
  import opened Cabinets
  import opened BaseCabinet
  import SinkCabinet

  const BottomWord: string := "Дъно"
  const DoorWord: string := "Врата"
  const HingeWord: string := "Панта"
  const SmallDoorName: string := DoorWord + " 1 (мала)"
  const LargeDoorName: string := DoorWord + " 2 (голяма)"
  const SmallHingeName: string := HingeWord + " за мала врата"
  const LargeHingeName: string := HingeWord + " за голяма врата"
  const TallHingeName: string := HingeWord + " за висок шкаф"

  predicate IsTall(c: Cabinet) {
    c.kind == FRIDGE || c.kind == COLUMN
  }

  /** A cap of the bottom's size. */
  function Cap(bottom: Panel): Panel {
    NewPanel("Капак (хладилник/колона)", bottom.width, bottom.height, Body, FrontEdge(1.0), 1)
  }

  /** A cap for the first panel that mentions a bottom, if any does. */
  function Caps(ps: seq<Panel>): seq<Panel> {
    var bottoms := PanelsNamed(ps, BottomWord);
    if bottoms != [] then [Added(Cap(bottoms[0]))] else []
  }

  /** The small door: 53 mm short of half the width (floor division). */
  function SmallDoor(c: Cabinet): Panel {
    NewPanel(SmallDoorName, (c.width / 2 - DoorGap - 50) as real, (c.height - DoorGap) as real, MaterialType.Door, FrontEdge(2.0), 1)
  }

  /** The large door: 47 mm over half the width. */
  function LargeDoor(c: Cabinet): Panel {
    NewPanel(LargeDoorName, (c.width / 2 - DoorGap + 50) as real, (c.height - DoorGap) as real, MaterialType.Door, FrontEdge(2.0), 1)
  }

  function TallHinges(): seq<HardwareItem> {
    [Item(SmallHingeName, 2), Item(LargeHingeName, 4), Item(TallHingeName, 2 + 4)]
  }

  function WithoutStabilizers(c: Cabinet): seq<Panel> {
    PanelsNotNamed(BaseCabinet.Panels(c), SinkCabinet.StabilizerWord)
  }

  function TallPanels(c: Cabinet): seq<Panel> {
    var ps := WithoutStabilizers(c);
    PanelsNotNamed(ps + Caps(ps), DoorWord) + [Added(SmallDoor(c)), Added(LargeDoor(c))]
  }

  function TallHardware(c: Cabinet): seq<HardwareItem> {
    ItemsNotNamed(BaseCabinet.Hardware(c), HingeWord) + TallHinges()
  }

  /** What ApplianceCabinetCalculator.calculate produces. */
  function ApplianceCalc(c: Cabinet): Calc {
    if IsTall(c) then Calc(TallPanels(c), TallHardware(c), c.width) else BaseCalc(c)
  }

  /** ApplianceCabinetCalculator.calculate. */
  method Calculate(c: Cabinet) returns (r: CalculationResult)
    ensures fresh(r) && r.cabinet == c && r.State() == ApplianceCalc(c)
  {
    if c.kind == FRIDGE || c.kind == COLUMN {
      r := CalculateFridgeColumn(c);
    } else {
      r := BaseCabinet.Calculate(c);
    }
  }

  /** _calculate_fridge_column. */
  method CalculateFridgeColumn(c: Cabinet) returns (r: CalculationResult)
    ensures fresh(r) && r.cabinet == c && r.State() == Calc(TallPanels(c), TallHardware(c), c.width)
  {
    r := BaseCabinet.Calculate(c);
    r.RemovePanelsNamed(SinkCabinet.StabilizerWord);
    assert r.panels == WithoutStabilizers(c);
    AddCap(r);
    ReplaceDoors(r, c);
    ReplaceHinges(r);
  }

  /** The cap step: a cap after the first bottom panel, when there is one. */
  method AddCap(r: CalculationResult)
    modifies r
    ensures r.panels == old(r.panels) + Caps(old(r.panels))
    ensures r.hardware == old(r.hardware) && r.plinthLength == old(r.plinthLength)
  {
    var bottoms := PanelsNamed(r.panels, BottomWord);
    if bottoms != [] {
      r.AddPanel(Cap(bottoms[0]));
    }
  }

  /** The door step: every door goes, the small and the large door come in. */
  method ReplaceDoors(r: CalculationResult, c: Cabinet)
    modifies r
    ensures r.panels == PanelsNotNamed(old(r.panels), DoorWord) + [Added(SmallDoor(c)), Added(LargeDoor(c))]
    ensures r.hardware == old(r.hardware) && r.plinthLength == old(r.plinthLength)
  {
    r.RemovePanelsNamed(DoorWord);
    r.AddPanel(SmallDoor(c));
    r.AddPanel(LargeDoor(c));
  }

  /** The hinge step: every hinge item goes, the three tall hinge items come in. */
  method ReplaceHinges(r: CalculationResult)
    modifies r
    ensures r.hardware == ItemsNotNamed(old(r.hardware), HingeWord) + TallHinges()
    ensures r.panels == old(r.panels) && r.plinthLength == old(r.plinthLength)
  {
    r.RemoveItemsNamed(HingeWord);
    r.AddHardware(Item(SmallHingeName, 2));
    r.AddHardware(Item(LargeHingeName, 4));
    r.AddHardware(Item(TallHingeName, 2 + 4));
  }

  // ---------------------------------------------------------------- properties

  function TallCap(c: Cabinet): Panel {
    Added(Cap(Added(BottomPanel(c))))
  }

  /** The base panels a fridge or column housing keeps. */
  function Kept(c: Cabinet): seq<Panel> {
    [Added(SidePanel(c)), Added(BottomPanel(c))] + (Shelves(c) + Backs(c))
  }

  /** The shelves and back, named "Рафт" and "Гръб", do not mention a word those names lack. */
  lemma ShelvesAndBackNot(c: Cabinet, word: string)
    requires !Mentions("Рафт", word) && !Mentions("Гръб", word)
    ensures forall k :: 0 <= k < |Shelves(c) + Backs(c)| ==> !Mentions((Shelves(c) + Backs(c))[k].name, word)
  {
  }

  /** A word none of the kept panels' names contains. */
  lemma KeptLack(c: Cabinet, word: string)
    requires !Mentions("Страничен панел", word) && !Mentions("Дъно", word)
    requires !Mentions("Рафт", word) && !Mentions("Гръб", word)
    ensures forall k :: 0 <= k < |Kept(c)| ==> !Mentions(Kept(c)[k].name, word)
  {
    forall k | 0 <= k < |Kept(c)|
      ensures !Mentions(Kept(c)[k].name, word)
    {
      if k >= 2 {
        assert Kept(c)[k] == (Shelves(c) + Backs(c))[k - 2];
      }
    }
  }

  /** The door word is in no kept panel's name nor in the cap's. */
  lemma DoorWordPlaces(c: Cabinet)
    ensures forall k :: 0 <= k < |Kept(c)| ==> !Mentions(Kept(c)[k].name, DoorWord)
    ensures !Mentions(TallCap(c).name, DoorWord) && Mentions(Added(DoorPanel(c, BaseDoorCount(c))).name, DoorWord)
    ensures Mentions(Added(SmallDoor(c)).name, DoorWord) && Mentions(Added(LargeDoor(c)).name, DoorWord)
  {
    DoorWordAbsent(c);
    MentionsStart(DoorWord, "");
    assert DoorWord + "" == DoorWord;
    MentionsStart(DoorWord, " 1 (мала)");
    MentionsStart(DoorWord, " 2 (голяма)");
  }

  lemma DoorWordAbsent(c: Cabinet)
    ensures forall k :: 0 <= k < |Kept(c)| ==> !Mentions(Kept(c)[k].name, DoorWord)
    ensures !Mentions(TallCap(c).name, DoorWord)
  {
    Lacks("Страничен панел", DoorWord, 0);
    Shorter("Дъно", DoorWord);
    Shorter("Рафт", DoorWord);
    Shorter("Гръб", DoorWord);
    KeptLack(c, DoorWord);
    Lacks("Капак (хладилник/колона)", DoorWord, 0);
  }

  /** Without stabilisers the base panels are sides, bottom, shelves, back and door. */
  lemma StabilizersGone(c: Cabinet)
    ensures WithoutStabilizers(c) == [Added(SidePanel(c)), Added(BottomPanel(c))] + (Shelves(c) + Backs(c)) + [Added(DoorPanel(c, BaseDoorCount(c)))]
  {
    SinkCabinet.BaseWithoutStabilizers(c);
    var ps := BaseCabinet.Panels(c);
    assert ps[..2] == [Added(SidePanel(c)), Added(BottomPanel(c))];
    assert ps[3..] == Shelves(c) + Backs(c) + [Added(DoorPanel(c, BaseDoorCount(c)))];
  }

  /** The cap is made for the base bottom. */
  lemma CapOfBottom(c: Cabinet)
    ensures Caps(WithoutStabilizers(c)) == [TallCap(c)]
  {
    StabilizersGone(c);
    var keep := (p: Panel) => Mentions(p.name, BottomWord);
    var rest := (Shelves(c) + Backs(c)) + [Added(DoorPanel(c, BaseDoorCount(c)))];
    Lacks("Страничен панел", BottomWord, 0);
    MentionsStart(BottomWord, "");
    assert BottomWord + "" == BottomWord;
    Lacks("Рафт", BottomWord, 0);
    Lacks("Гръб", BottomWord, 0);
    Lacks("Врата", BottomWord, 0);
    ShelvesAndBackNot(c, BottomWord);
    forall k | 0 <= k < |rest|
      ensures !keep(rest[k])
    {
      if k < |Shelves(c) + Backs(c)| {
        assert rest[k] == (Shelves(c) + Backs(c))[k];
      }
    }
    PickSecond(Added(SidePanel(c)), Added(BottomPanel(c)), rest, keep);
    assert [Added(SidePanel(c)), Added(BottomPanel(c))] + rest == WithoutStabilizers(c);
  }

  /**
   * A fridge or column housing has the base sides, bottom, shelves and back,
   * in order, then a cap the size of the bottom and the two new doors: the
   * stabilisers and the base door are gone.
   */
  lemma TallPanelsExactly(c: Cabinet)
    ensures TallPanels(c) == Kept(c) + [TallCap(c), Added(SmallDoor(c)), Added(LargeDoor(c))]
  {
    StabilizersGone(c);
    CapOfBottom(c);
    DoorWordPlaces(c);
    var keep := (p: Panel) => !Mentions(p.name, DoorWord);
    DropOne(Kept(c), Added(DoorPanel(c, BaseDoorCount(c))), [TallCap(c)], keep);
    assert WithoutStabilizers(c) + Caps(WithoutStabilizers(c)) == Kept(c) + [Added(DoorPanel(c, BaseDoorCount(c)))] + [TallCap(c)];
  }

  /** The cap has the bottom's size: width − 36 by depth. */
  lemma CapMatchesBottom(c: Cabinet)
    ensures TallCap(c).width + 36.0 == c.width as real && TallCap(c).height == c.depth as real
    ensures TallCap(c).width == Added(BottomPanel(c)).width && TallCap(c).height == Added(BottomPanel(c)).height
  {
    AddedWhole(BottomPanel(c));
    AddedWhole(Cap(Added(BottomPanel(c))));
  }

  /**
   * The only doors are the two new ones, both 3 mm lower than the cabinet:
   * the small door is half the width (rounded down) less 53 mm and the large
   * one exactly 100 mm wider, so the pair takes the width less 6 or 7 mm.
   */
  lemma TwoNewDoors(c: Cabinet)
    ensures PanelsNamed(TallPanels(c), DoorWord) == [Added(SmallDoor(c)), Added(LargeDoor(c))]
    ensures Added(SmallDoor(c)).width == (c.width / 2 - 53) as real
    ensures Added(LargeDoor(c)).width == Added(SmallDoor(c)).width + 100.0
    ensures Added(SmallDoor(c)).height + 3.0 == c.height as real == Added(LargeDoor(c)).height + 3.0
    ensures Added(SmallDoor(c)).width + Added(LargeDoor(c)).width + (if c.width % 2 == 0 then 6.0 else 7.0) == c.width as real
  {
    TallPanelsExactly(c);
    DoorWordPlaces(c);
    var keep := (p: Panel) => Mentions(p.name, DoorWord);
    var doors := [Added(SmallDoor(c)), Added(LargeDoor(c))];
    PickLast(Kept(c) + [TallCap(c)], doors, keep);
    assert TallPanels(c) == Kept(c) + [TallCap(c)] + doors;
    AddedWhole(SmallDoor(c));
    AddedWhole(LargeDoor(c));
  }

  /** No fridge or column panel mentions stabilisers. */
  lemma NoStabilizers(c: Cabinet)
    ensures forall k :: 0 <= k < |TallPanels(c)| ==> !Mentions(TallPanels(c)[k].name, SinkCabinet.StabilizerWord)
  {
    TallPanelsExactly(c);
    StabilizerWordPlaces(c);
    var ps := TallPanels(c);
    forall k | 0 <= k < |ps|
      ensures !Mentions(ps[k].name, SinkCabinet.StabilizerWord)
    {
      if k < |Kept(c)| {
        assert ps[k] == Kept(c)[k];
      }
    }
  }

  lemma StabilizerWordPlaces(c: Cabinet)
    ensures forall k :: 0 <= k < |Kept(c)| ==> !Mentions(Kept(c)[k].name, SinkCabinet.StabilizerWord)
    ensures !Mentions(TallCap(c).name, SinkCabinet.StabilizerWord)
    ensures !Mentions(Added(SmallDoor(c)).name, SinkCabinet.StabilizerWord)
    ensures !Mentions(Added(LargeDoor(c)).name, SinkCabinet.StabilizerWord)
  {
    var w := SinkCabinet.StabilizerWord;
    Lacks("Страничен панел", w, 3);
    Shorter("Дъно", w);
    Shorter("Рафт", w);
    Shorter("Гръб", w);
    KeptLack(c, w);
    Lacks("Капак (хладилник/колона)", w, 3);
    Lacks(SmallDoorName, w, 0);
    Lacks(LargeDoorName, w, 0);
  }

  /**
   * The base hinges are replaced: the only hinge items are two for the
   * small door, four for the large door and a third item of six, so the
   * hinge items add up to twelve for two doors; legs, clips and shelf
   * supports are kept in order.
   */
  lemma HingesReplaced(c: Cabinet)
    ensures TallHardware(c) == Legs("Краче за долен шкаф", LegCount(c)) + ShelfSupports(c) + TallHinges()
    ensures ItemsNamed(TallHardware(c), HingeWord) == TallHinges()
    ensures TallHinges()[0].quantity + TallHinges()[1].quantity + TallHinges()[2].quantity == 12
  {
    var legs := LegItems(c);
    HingeWordAbsent(c);
    HingeWordPresent();
    var keep := (h: HardwareItem) => !Mentions(h.name, HingeWord);
    DropOne(legs, Item("Панта", BaseDoorCount(c) * HingesPerDoor(c)), ShelfSupports(c), keep);
    assert BaseCabinet.Hardware(c) == legs + [Item("Панта", BaseDoorCount(c) * HingesPerDoor(c))] + ShelfSupports(c);
    var named := (h: HardwareItem) => Mentions(h.name, HingeWord);
    PickLast(legs + ShelfSupports(c), TallHinges(), named);
  }

  /** Neither the legs, their clips nor the shelf supports mention hinges. */
  lemma HingeWordAbsent(c: Cabinet)
    ensures forall k :: 0 <= k < |LegItems(c)| ==> !Mentions(LegItems(c)[k].name, HingeWord)
    ensures forall k :: 0 <= k < |ShelfSupports(c)| ==> !Mentions(ShelfSupports(c)[k].name, HingeWord)
  {
    Lacks("Краче за долен шкаф", HingeWord, 0);
    Lacks("Щипка за краче", HingeWord, 0);
    Lacks("Рафтодържател", HingeWord, 0);
  }

  /** The base hinge item and each new hinge item mention hinges. */
  lemma HingeWordPresent()
    ensures Mentions("Панта", HingeWord)
    ensures forall k :: 0 <= k < |TallHinges()| ==> Mentions(TallHinges()[k].name, HingeWord)
  {
    MentionsStart(HingeWord, "");
    assert HingeWord + "" == HingeWord;
    MentionsStart(HingeWord, " за мала врата");
    MentionsStart(HingeWord, " за голяма врата");
    MentionsStart(HingeWord, " за висок шкаф");
  }

  function LegItems(c: Cabinet): seq<HardwareItem> {
    Legs("Краче за долен шкаф", LegCount(c))
  }
}
