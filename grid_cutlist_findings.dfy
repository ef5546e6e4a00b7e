/**
 * Worked runs of the first-fit cutting list of frontend/js/cutlist.js: a
 * run whose overlap test, reading the placed parts' own sizes, lets a part
 * onto a rotated one; and a run that reports a sheet with nothing on it.
 */
module GridCutListFindings {
  import opened Wrappers
  import opened Geometry
  import opened Sorting
  import opened GridCutList

  function Piece(name: string, w: int, h: int): GridPart {
    GridPart(name, w, h, 1, "ПДЧ")
  }

  /** Five parts for a 600 × 700 sheet, already tallest first. */
  function OverlapParts(): seq<GridPart> {
    [Piece("A", 300, 400), Piece("B", 300, 300), Piece("C", 400, 200), Piece("D", 100, 200), Piece("E", 100, 100)]
  }

  function QA(): GridPlacement { GridPlacement(Piece("A", 300, 400), 0, 0, false, 300, 400) }
  function QB(): GridPlacement { GridPlacement(Piece("B", 300, 300), 300, 0, false, 300, 300) }
  function QC(): GridPlacement { GridPlacement(Piece("C", 400, 200), 0, 400, false, 400, 200) }
  /** D goes in rotated: it occupies 200 × 100 from (300, 300). */
  function QD(): GridPlacement { GridPlacement(Piece("D", 100, 200), 300, 300, true, 200, 100) }
  function QE(): GridPlacement { GridPlacement(Piece("E", 100, 100), 400, 300, false, 100, 100) }

  function Sheet(qs: seq<GridPlacement>): Board {
    Board(600, 700, qs)
  }

  lemma PlacesA()
    ensures FirstFit(PartSize, Sheet([]), Piece("A", 300, 400)) == Some(Spot(0, 0, false))
  {
    var b, p, s := Sheet([]), Piece("A", 300, 400), Spot(0, 0, false);
    assert IsFirstFit(PartSize, b, p, s);
    FirstFitSpec(PartSize, b, p);
  }

  lemma PlacesB()
    ensures FirstFit(PartSize, Sheet([QA()]), Piece("B", 300, 300)) == Some(Spot(300, 0, false))
  {
    var b, p, s := Sheet([QA()]), Piece("B", 300, 300), Spot(300, 0, false);
    forall x', y' | InScan(b, p, x', y') && Before(x', y', s.x, s.y)
      ensures !Legal(PartSize, b, p, x', y', false) && !Legal(PartSize, b, p, x', y', true)
    {
      assert b.parts[0] == QA();
    }
    assert b.parts[0] == QA();
    assert IsFirstFit(PartSize, b, p, s);
    FirstFitSpec(PartSize, b, p);
  }

  lemma PlacesC()
    ensures FirstFit(PartSize, Sheet([QA(), QB()]), Piece("C", 400, 200)) == Some(Spot(0, 400, false))
  {
    var b, p, s := Sheet([QA(), QB()]), Piece("C", 400, 200), Spot(0, 400, false);
    forall x', y' | InScan(b, p, x', y') && Before(x', y', s.x, s.y)
      ensures !Legal(PartSize, b, p, x', y', false) && !Legal(PartSize, b, p, x', y', true)
    {
      assert b.parts[0] == QA();
    }
    assert b.parts[0] == QA() && b.parts[1] == QB();
    assert IsFirstFit(PartSize, b, p, s);
    FirstFitSpec(PartSize, b, p);
  }

  /** At (300, 300) the upright D would run into C, so it goes in rotated. */
  lemma PlacesD()
    ensures FirstFit(PartSize, Sheet([QA(), QB(), QC()]), Piece("D", 100, 200)) == Some(Spot(300, 300, true))
  {
    var b, p, s := Sheet([QA(), QB(), QC()]), Piece("D", 100, 200), Spot(300, 300, true);
    forall x', y' | InScan(b, p, x', y') && Before(x', y', s.x, s.y)
      ensures !Legal(PartSize, b, p, x', y', false) && !Legal(PartSize, b, p, x', y', true)
    {
      assert b.parts[0] == QA() && b.parts[1] == QB();
    }
    assert b.parts[0] == QA() && b.parts[1] == QB() && b.parts[2] == QC();
    assert !Apart(PartSize, QC(), 300, 300, 100, 200);
    assert IsFirstFit(PartSize, b, p, s);
    FirstFitSpec(PartSize, b, p);
  }

  /** The test reads D as 100 × 200, so (400, 300) looks free. */
  lemma PlacesE()
    ensures FirstFit(PartSize, Sheet([QA(), QB(), QC(), QD()]), Piece("E", 100, 100)) == Some(Spot(400, 300, false))
  {
    var b, p, s := Sheet([QA(), QB(), QC(), QD()]), Piece("E", 100, 100), Spot(400, 300, false);
    forall x', y' | InScan(b, p, x', y') && Before(x', y', s.x, s.y)
      ensures !Legal(PartSize, b, p, x', y', false) && !Legal(PartSize, b, p, x', y', true)
    {
      assert b.parts[0] == QA() && b.parts[1] == QB() && b.parts[3] == QD();
    }
    assert b.parts[0] == QA() && b.parts[1] == QB() && b.parts[2] == QC() && b.parts[3] == QD();
    assert IsFirstFit(PartSize, b, p, s);
    FirstFitSpec(PartSize, b, p);
  }

  lemma PlacePartsSnoc(t: OverlapTest, w: int, h: int, st: Progress, ps: seq<GridPart>, p: GridPart)
    requires p.quantity == 1
    ensures PlaceParts(t, w, h, st, ps + [p]) == PlaceCopy(t, w, h, PlaceParts(t, w, h, st, ps), p)
  {
    assert (ps + [p])[..|ps|] == ps;
    assert Copies(p) == 1;
    assert PlaceCopies(t, w, h, PlaceParts(t, w, h, st, ps), p, 1)
      == PlaceCopy(t, w, h, PlaceCopies(t, w, h, PlaceParts(t, w, h, st, ps), p, 0), p);
  }

  /** One more part of the overlap run, put on the single sheet. */
  lemma OverlapRunStep(k: nat, before: seq<GridPlacement>, s: Spot, after: seq<GridPlacement>)
    requires k < |OverlapParts()|
    requires PlaceParts(PartSize, 600, 700, Progress([], Blank(600, 700)), OverlapParts()[..k]) == Progress([], Sheet(before))
    requires FirstFit(PartSize, Sheet(before), OverlapParts()[k]) == Some(s)
    requires after == before + [GridPlacement(OverlapParts()[k], s.x, s.y, s.rotated,
                                              OrientedWidth(OverlapParts()[k], s.rotated),
                                              OrientedHeight(OverlapParts()[k], s.rotated))]
    ensures PlaceParts(PartSize, 600, 700, Progress([], Blank(600, 700)), OverlapParts()[..k + 1]) == Progress([], Sheet(after))
  {
    var ps := OverlapParts();
    assert ps[..k] + [ps[k]] == ps[..k + 1];
    PlacePartsSnoc(PartSize, 600, 700, Progress([], Blank(600, 700)), ps[..k], ps[k]);
    KeepsSheet(PartSize, Progress([], Sheet(before)), ps[k], s);
  }

  /** A run step that keeps the current sheet. */
  lemma KeepsSheet(t: OverlapTest, st: Progress, p: GridPart, s: Spot)
    requires FirstFit(t, st.current, p) == Some(s)
    ensures PlaceCopy(t, 600, 700, st, p) == st.(current := PlaceAt(st.current, p, s))
  {
  }

  lemma OverlapRunAB()
    ensures PlaceParts(PartSize, 600, 700, Progress([], Blank(600, 700)), OverlapParts()[..2])
      == Progress([], Sheet([QA(), QB()]))
  {
    assert OverlapParts()[..0] == [];
    PlacesA();
    assert [] + [QA()] == [QA()];
    OverlapRunStep(0, [], Spot(0, 0, false), [QA()]);
    PlacesB();
    OverlapRunStep(1, [QA()], Spot(300, 0, false), [QA(), QB()]);
  }

  lemma OverlapRunCD()
    ensures PlaceParts(PartSize, 600, 700, Progress([], Blank(600, 700)), OverlapParts()[..4])
      == Progress([], Sheet([QA(), QB(), QC(), QD()]))
  {
    OverlapRunAB();
    PlacesC();
    OverlapRunStep(2, [QA(), QB()], Spot(0, 400, false), [QA(), QB(), QC()]);
    PlacesD();
    OverlapRunStep(3, [QA(), QB(), QC()], Spot(300, 300, true), [QA(), QB(), QC(), QD()]);
  }

  lemma OverlapRun()
    ensures PlaceParts(PartSize, 600, 700, Progress([], Blank(600, 700)), OverlapParts())
      == Progress([], Sheet([QA(), QB(), QC(), QD(), QE()]))
  {
    OverlapRunCD();
    PlacesE();
    OverlapRunStep(4, [QA(), QB(), QC(), QD()], Spot(400, 300, false), [QA(), QB(), QC(), QD(), QE()]);
    assert OverlapParts()[..5] == OverlapParts();
  }

  /**
   * As written, the overlap test measures an already placed part by its own
   * width and height. D is placed rotated and occupies 200 × 100 from
   * (300, 300); the test still sees it 100 wide, so E is put at (400, 300),
   * on top of D.
   */
  lemma RotatedPartOverlapped()
    ensures CutList(PartSize, OverlapParts(), 600, 700) == [Sheet([QA(), QB(), QC(), QD(), QE()])]
    ensures !Disjoint(Footprint(QD()), Footprint(QE()))
    ensures !Sound(Sheet([QA(), QB(), QC(), QD(), QE()]))
  {
    OverlapCutList();
    OverlapUnsound();
  }

  lemma OverlapUnsound()
    ensures !Disjoint(Footprint(QD()), Footprint(QE()))
    ensures !Sound(Sheet([QA(), QB(), QC(), QD(), QE()]))
  {
    var full := Sheet([QA(), QB(), QC(), QD(), QE()]);
    assert full.parts[3] == QD() && full.parts[4] == QE();
  }

  lemma OverlapCutList()
    ensures CutList(PartSize, OverlapParts(), 600, 700) == [Sheet([QA(), QB(), QC(), QD(), QE()])]
  {
    var ps := OverlapParts();
    assert Taller(ps[0], ps[1]) && Taller(ps[1], ps[2]) && Taller(ps[2], ps[3]) && Taller(ps[3], ps[4]);
    SortByOrderedInput(ps, Taller);
    OverlapRun();
  }

  /** A part larger than the sheet, then one that fits. */
  function DroppedFirst(): seq<GridPart> {
    [Piece("Голям", 800, 800), Piece("Малък", 100, 100)]
  }

  /**
   * The first part fits no sheet: the empty current sheet is closed and kept,
   * a new one is opened and the part is dropped. The report then lists a
   * sheet with nothing on it and its whole area as waste.
   */
  lemma EmptySheetReported(t: OverlapTest)
    ensures CutList(t, DroppedFirst(), 600, 700)
      == [Sheet([]), Sheet([GridPlacement(Piece("Малък", 100, 100), 0, 0, false, 100, 100)])]
    ensures CalculateStats(CutList(t, DroppedFirst(), 600, 700))[0].waste == 420000
  {
    DroppedFirstOrdered();
    DroppedRun(t);
    var bs := CutList(t, DroppedFirst(), 600, 700);
    assert bs[0] == Sheet([]);
    assert CalculateStats(bs)[0] == StatsOf(Sheet([]));
  }

  lemma DroppedFirstOrdered()
    ensures HeightOrder(DroppedFirst()) == DroppedFirst()
  {
    SortByOrderedInput(DroppedFirst(), Taller);
  }

  /** The oversize part closes the empty sheet and is dropped. */
  lemma DroppedBig(t: OverlapTest)
    ensures PlaceParts(t, 600, 700, Progress([], Blank(600, 700)), DroppedFirst()[..1])
      == Progress([Sheet([])], Sheet([]))
  {
    var ps := DroppedFirst();
    assert FirstFit(t, Sheet([]), ps[0]) == None;
    assert ps[..0] + [ps[0]] == ps[..1];
    PlacePartsSnoc(t, 600, 700, Progress([], Blank(600, 700)), ps[..0], ps[0]);
  }

  /** The small part then goes at the origin of the new sheet. */
  lemma DroppedRun(t: OverlapTest)
    ensures PlaceParts(t, 600, 700, Progress([], Blank(600, 700)), DroppedFirst())
      == Progress([Sheet([])], Sheet([GridPlacement(Piece("Малък", 100, 100), 0, 0, false, 100, 100)]))
  {
    var ps := DroppedFirst();
    var st0 := Progress([], Blank(600, 700));
    DroppedBig(t);
    var s := Spot(0, 0, false);
    assert IsFirstFit(t, Sheet([]), ps[1], s);
    FirstFitSpec(t, Sheet([]), ps[1]);
    assert ps[..1] + [ps[1]] == ps;
    PlacePartsSnoc(t, 600, 700, st0, ps[..1], ps[1]);
    KeepsSheet(t, Progress([Sheet([])], Sheet([])), ps[1], s);
    assert [] + [GridPlacement(ps[1], 0, 0, false, 100, 100)] == [GridPlacement(ps[1], 0, 0, false, 100, 100)];
  }
}
