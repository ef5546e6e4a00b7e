/**
 * Worked inputs on which calculateOptimization of
 * frontend/js/cutlist/engine_old.js, as written, departs from what its
 * corrected counterpart in OldEngine guarantees.
 */
module OldEngineFindings {

  import opened Wrappers
  import opened Sorting
  import opened Geometry
  import opened Sums
  import opened Packing
  import opened PackingInvariants
  import opened PackingAccounting
  import opened Catalog
  import opened Stats
  import opened Reporting
  import opened OldEngine

  /** A 1000 × 1000 board. */
  function Board(): SheetSpec {
    OldSheet("Плоскост", 1000, 1000, 0.0, DefaultMaterial)
  }

  /** A part too large for the board in either orientation. */
  function Oversize(): Part {
    OldPart("Голям", 2000, 2000, DefaultMaterial)
  }

  /** Half a board. */
  function Half(name: string): Part {
    OldPart(name, 500, 1000, DefaultMaterial)
  }

  function SharingParts(): seq<Part> {
    [Oversize(), Half("A"), Half("B"), Half("C")]
  }

  /** The working sheets after each step of the run over SharingParts. */
  function Start(): Work {
    Work([WorkSheet(Board(), 0, 0, 0)], Store([[Rect(0, 0, 1000, 1000)]], [[]]))
  }

  function AfterOversize(): Work {
    Work([WorkSheet(Board(), 0, 0, 0), WorkSheet(Board(), 0, 0, 0)],
         Store([[Rect(0, 0, 1000, 1000)]], [[]]))
  }

  function PlacedHalf(name: string, x: int): Placement {
    Placement(Half(name), x, 0, false, 500, 1000, true)
  }

  function AfterA(): Work {
    Work([WorkSheet(Board(), 1, 0, 500000), WorkSheet(Board(), 0, 0, 0)],
         Store([[Rect(500, 0, 500, 1000)], [Rect(500, 0, 500, 1000)]], [[PlacedHalf("A", 0)]]))
  }

  function AfterB(): Work {
    Work([WorkSheet(Board(), 2, 0, 1000000), WorkSheet(Board(), 0, 0, 0)],
         Store([[Rect(500, 0, 500, 1000)], [], []], [[PlacedHalf("A", 0), PlacedHalf("B", 500)]]))
  }

  function AfterC(): Work {
    Work([WorkSheet(Board(), 2, 0, 1000000), WorkSheet(Board(), 3, 0, 500000)],
         Store([[], [], [], []], [[PlacedHalf("A", 0), PlacedHalf("B", 500), PlacedHalf("C", 500)]]))
  }

  lemma SharingStart()
    ensures CloneCatalog([Board()]) == Start()
    ensures OldPlacementOrder(DefaultSettings, SharingParts()) == SharingParts()
  {
    assert CloneCatalog([Board()]).sheets == [WorkSheet(Board(), 0, 0, 0)];
    assert CloneCatalog([Board()]).store.rectArrays == [[Rect(0, 0, 1000, 1000)]];
    assert CloneCatalog([Board()]).store.placementArrays == [[]];
    var le := OldPartOrder("area");
    var ps := SharingParts();
    assert Unplaced(ps) == ps;
    assert le(ps[0], ps[1]) && le(ps[1], ps[2]) && le(ps[2], ps[3]);
    SortByOrderedInput(ps, le);
  }

  lemma CandidatesOnOne(rules: Rules, p: Part, l0: Layout)
    ensures AllCandidates(rules, p, [l0]) == SheetCandidates(rules, p, l0, 0, |l0.freeRects|)
  {
    assert Candidates(rules, p, [l0], 0) == [];
    assert [l0][0] == l0;
  }

  lemma CandidatesOnTwo(rules: Rules, p: Part, l0: Layout, l1: Layout)
    ensures AllCandidates(rules, p, [l0, l1]) ==
      SheetCandidates(rules, p, l0, 0, |l0.freeRects|) + SheetCandidates(rules, p, l1, 1, |l1.freeRects|)
  {
    assert [l0, l1][..1] == [l0];
    assert Candidates(rules, p, [l0, l1], 1) == SheetCandidates(rules, p, l0, 0, |l0.freeRects|);
  }

  lemma OneRectCandidates(rules: Rules, p: Part, l: Layout, si: nat)
    requires |l.freeRects| == 1 && rules.matches(p.material, l.sheet.materialType)
    ensures SheetCandidates(rules, p, l, si, 1) == RectCandidates(rules, p, l, si, 0)
  {
  }

  /** A first candidate that no later one undercuts is the best. */
  lemma {:induction false} LeadingMinimumIsBest(cs: seq<Candidate>)
    requires cs != [] && forall i :: 0 < i < |cs| ==> cs[i].score >= cs[0].score
    ensures BestOf(cs) == Some(cs[0])
  {
    if |cs| > 1 {
      LeadingMinimumIsBest(cs[..|cs| - 1]);
    } else {
      assert cs[..0] == [];
      assert BestFrom(None, cs[..0]) == None;
    }
  }

  /** The oversize part finds no position; the copy of the first sheet is pushed. */
  lemma SharingStepOversize()
    ensures OldStep(DefaultSettings, Start(), Oversize()) == Some(AfterOversize())
  {
    var rules := OldRules(DefaultSettings);
    var l := Layout(Board(), [Rect(0, 0, 1000, 1000)], [], 0);
    assert Views(Start()) == [l];
    CandidatesOnOne(rules, Oversize(), l);
    OneRectCandidates(rules, Oversize(), l, 0);
    assert AllCandidates(rules, Oversize(), Views(Start())) == [];
    FallbackNeverPlaces(DefaultSettings, Start(), Oversize());
    assert FirstFree(Start()) == [Rect(0, 0, 1000, 1000)];
    assert PushCopyOfFirst(Start()) == AfterOversize();
  }

  /** A's best position: the first free rectangle of the first sheet, unrotated. */
  lemma SharingBestA()
    ensures BestOf(AllCandidates(OldRules(DefaultSettings), Half("A"), Views(AfterOversize())))
      == Some(Candidate(0, 0, false, 50000.0))
  {
    var rules := OldRules(DefaultSettings);
    var p := Half("A");
    var l := Layout(Board(), [Rect(0, 0, 1000, 1000)], [], 0);
    assert Views(AfterOversize()) == [l, l];
    CandidatesOnTwo(rules, p, l, l);
    OneRectCandidates(rules, p, l, 0);
    OneRectCandidates(rules, p, l, 1);
    assert OldScore(p, Rect(0, 0, 1000, 1000), false) == 50000;
    assert OldScore(p, Rect(0, 0, 1000, 1000), true) == 50000;
    var cs := [Candidate(0, 0, false, 50000.0), Candidate(0, 0, true, 50000.0),
               Candidate(1, 0, false, 50000.0), Candidate(1, 0, true, 50000.0)];
    assert AllCandidates(rules, p, [l, l]) == cs;
    LeadingMinimumIsBest(cs);
  }

  lemma SharingPlaceA()
    ensures PlaceIn(OldRules(DefaultSettings), AfterOversize(), 0, Half("A"), 0, false) == AfterA()
  {
    var rules := OldRules(DefaultSettings);
    var w := PlaceIn(rules, AfterOversize(), 0, Half("A"), 0, false);
    var left := [Rect(500, 0, 500, 1000)];
    assert RemoveAt([Rect(0, 0, 1000, 1000)], 0) + Split(Rect(0, 0, 1000, 1000), 500, 1000) == left;
    assert Prune(left, 10000) == left;
    assert [[Rect(0, 0, 1000, 1000)]][0 := left] + [left] == [left, left];
    var none: seq<Placement> := [];
    assert none + [PlacedHalf("A", 0)] == [PlacedHalf("A", 0)];
    assert [none][0 := [PlacedHalf("A", 0)]] == [[PlacedHalf("A", 0)]];
    assert w.sheets == AfterA().sheets;
    assert w.store.rectArrays == AfterA().store.rectArrays;
    assert w.store.placementArrays == AfterA().store.placementArrays;
  }

  /** A goes to the first sheet; its leftover also shows on the copy. */
  lemma SharingStepA()
    ensures OldStep(DefaultSettings, AfterOversize(), Half("A")) == Some(AfterA())
  {
    SharingBestA();
    SharingPlaceA();
  }

  lemma SharingViewsA()
    ensures Views(AfterA()) == [Layout(Board(), [Rect(500, 0, 500, 1000)], [PlacedHalf("A", 0)], 500000),
                                Layout(Board(), [Rect(500, 0, 500, 1000)], [PlacedHalf("A", 0)], 0)]
  {
  }

  /** On two sheets whose only free rectangle is exactly B's size, B's best
      position is the first sheet's. */
  lemma ExactFitBest(p: Part, l0: Layout, l1: Layout)
    requires p.width == 500 && p.height == 1000
    requires l0.freeRects == [Rect(500, 0, 500, 1000)] && l1.freeRects == [Rect(500, 0, 500, 1000)]
    ensures BestOf(AllCandidates(OldRules(DefaultSettings), p, [l0, l1])) == Some(Candidate(0, 0, false, 0.0))
  {
    var rules := OldRules(DefaultSettings);
    CandidatesOnTwo(rules, p, l0, l1);
    OneRectCandidates(rules, p, l0, 0);
    OneRectCandidates(rules, p, l1, 1);
    assert OldScore(p, Rect(500, 0, 500, 1000), false) == 0;
    var cs := [Candidate(0, 0, false, 0.0), Candidate(1, 0, false, 0.0)];
    assert AllCandidates(rules, p, [l0, l1]) == cs;
    LeadingMinimumIsBest(cs);
  }

  lemma SharingBestB()
    ensures BestOf(AllCandidates(OldRules(DefaultSettings), Half("B"), Views(AfterA())))
      == Some(Candidate(0, 0, false, 0.0))
  {
    SharingViewsA();
    var ls := Views(AfterA());
    ExactFitBest(Half("B"), ls[0], ls[1]);
  }

  lemma SharingPlaceB()
    ensures PlaceIn(OldRules(DefaultSettings), AfterA(), 0, Half("B"), 0, false) == AfterB()
  {
    var rules := OldRules(DefaultSettings);
    var w := PlaceIn(rules, AfterA(), 0, Half("B"), 0, false);
    var left := [Rect(500, 0, 500, 1000)];
    var none: seq<Rect> := [];
    assert RemoveAt(left, 0) + Split(Rect(500, 0, 500, 1000), 500, 1000) == none;
    assert Prune(none, 10000) == none;
    assert [left, left][1 := none] + [none] == [left, none, none];
    var two := [PlacedHalf("A", 0), PlacedHalf("B", 500)];
    assert [PlacedHalf("A", 0)] + [PlacedHalf("B", 500)] == two;
    assert [[PlacedHalf("A", 0)]][0 := two] == [two];
    assert w.sheets == AfterB().sheets;
    assert w.store.rectArrays == AfterB().store.rectArrays;
    assert w.store.placementArrays == AfterB().store.placementArrays;
  }

  /** B fills the first sheet; the copy keeps the old array, with B's place free. */
  lemma SharingStepB()
    ensures OldStep(DefaultSettings, AfterA(), Half("B")) == Some(AfterB())
  {
    SharingBestB();
    SharingPlaceB();
  }

  lemma SharingViewsB()
    ensures var shared := [PlacedHalf("A", 0), PlacedHalf("B", 500)];
      Views(AfterB()) == [Layout(Board(), [], shared, 1000000), Layout(Board(), [Rect(500, 0, 500, 1000)], shared, 0)]
  {
  }

  /** With no free rectangle on the first sheet and one of exactly C's size
      on the second, C's best position is on the second. */
  lemma SecondSheetBest(p: Part, l0: Layout, l1: Layout)
    requires p.width == 500 && p.height == 1000
    requires l0.freeRects == [] && l1.freeRects == [Rect(500, 0, 500, 1000)]
    ensures BestOf(AllCandidates(OldRules(DefaultSettings), p, [l0, l1])) == Some(Candidate(1, 0, false, 0.0))
  {
    var rules := OldRules(DefaultSettings);
    CandidatesOnTwo(rules, p, l0, l1);
    OneRectCandidates(rules, p, l1, 1);
    assert OldScore(p, Rect(500, 0, 500, 1000), false) == 0;
    var cs := [Candidate(1, 0, false, 0.0)];
    assert AllCandidates(rules, p, [l0, l1]) == cs;
    LeadingMinimumIsBest(cs);
  }

  lemma SharingBestC()
    ensures BestOf(AllCandidates(OldRules(DefaultSettings), Half("C"), Views(AfterB())))
      == Some(Candidate(1, 0, false, 0.0))
  {
    SharingViewsB();
    var ls := Views(AfterB());
    SecondSheetBest(Half("C"), ls[0], ls[1]);
  }

  lemma SharingPlaceC()
    ensures PlaceIn(OldRules(DefaultSettings), AfterB(), 1, Half("C"), 0, false) == AfterC()
  {
    var rules := OldRules(DefaultSettings);
    var w := PlaceIn(rules, AfterB(), 1, Half("C"), 0, false);
    var left := [Rect(500, 0, 500, 1000)];
    var none: seq<Rect> := [];
    assert RemoveAt(left, 0) + Split(Rect(500, 0, 500, 1000), 500, 1000) == none;
    assert Prune(none, 10000) == none;
    assert [left, none, none][0 := none] + [none] == [none, none, none, none];
    var two := [PlacedHalf("A", 0), PlacedHalf("B", 500)];
    var three := [PlacedHalf("A", 0), PlacedHalf("B", 500), PlacedHalf("C", 500)];
    assert two + [PlacedHalf("C", 500)] == three;
    assert [two][0 := three] == [three];
    assert w.sheets == AfterC().sheets;
    assert w.store.rectArrays == AfterC().store.rectArrays;
    assert w.store.placementArrays == AfterC().store.placementArrays;
  }

  /** C goes where B already is, through the copy, into the shared placements. */
  lemma SharingStepC()
    ensures OldStep(DefaultSettings, AfterB(), Half("C")) == Some(AfterC())
  {
    SharingBestC();
    SharingPlaceC();
  }

  /** A run one part longer takes one more step from where the shorter run ended. */
  lemma OldRunSnoc(s: Settings, w: Work, parts: seq<Part>, p: Part, w': Work)
    requires WellFormed(w) && |w.sheets| > 0 && OldRun(s, w, parts) == Some(w')
    ensures OldRun(s, w, parts + [p]) == OldStep(s, w', p)
  {
    assert (parts + [p])[..|parts|] == parts;
  }

  lemma SharingRun()
    ensures OldRun(DefaultSettings, Start(), SharingParts()) == Some(AfterC())
  {
    var s := DefaultSettings;
    var ps := SharingParts();
    assert ps[..0] + [ps[0]] == ps[..1];
    assert ps[..1] + [ps[1]] == ps[..2];
    assert ps[..2] + [ps[2]] == ps[..3];
    assert ps[..3] + [ps[3]] == ps;
    SharingStepOversize();
    OldRunSnoc(s, Start(), ps[..0], ps[0], Start());
    SharingStepA();
    OldRunSnoc(s, Start(), ps[..1], ps[1], AfterOversize());
    SharingStepB();
    OldRunSnoc(s, Start(), ps[..2], ps[2], AfterA());
    SharingStepC();
    OldRunSnoc(s, Start(), ps[..3], ps[3], AfterB());
  }

  lemma SharingOptimize()
    ensures OldOptimize(DefaultSettings, SharingParts(), [Board()])
      == Some(Finish(OldRules(DefaultSettings), Views(AfterC())))
  {
    SharingStart();
    SharingRun();
  }

  function SharedPlacements(): seq<Placement> {
    [PlacedHalf("A", 0), PlacedHalf("B", 500), PlacedHalf("C", 500)]
  }

  lemma SharingViewsC()
    ensures WellFormed(AfterC()) && |Views(AfterC())| == 2
    ensures Views(AfterC())[0].placedParts == SharedPlacements() && Views(AfterC())[1].placedParts == SharedPlacements()
  {
  }

  /** Two used sheets showing the same three placements: six placements are reported. */
  lemma SharedCount(rules: Rules, ls: seq<Layout>)
    requires |ls| == 2 && ls[0].placedParts == SharedPlacements() && ls[1].placedParts == SharedPlacements()
    ensures |Finish(rules, ls)| == 2 && SumOf(Finish(rules, ls), PlacedOf) == 6
  {
    var rs := Finish(rules, ls);
    UsedSheetsPlaced(rules, ls);
    SumOfPermutation(rs, UsedSheets(rules, ls), PlacedOf);
    assert ls[..1] == [ls[0]] && ls[..1][..0] == [] && ls[..0] == [];
    assert UsedSheets(rules, ls[..1]) == [Summarize(rules, ls[0])];
    assert UsedSheets(rules, ls) == [Summarize(rules, ls[0]), Summarize(rules, ls[1])];
    PlacedCountAppend([], ls[0]);
    PlacedCountAppend([ls[0]], ls[1]);
    assert [ls[0]] + [ls[1]] == ls && [] + [ls[0]] == [ls[0]];
  }

  /** B and C occupy the same rectangle on every sheet showing the shared placements. */
  lemma SharedOverlap(rules: Rules, ls: seq<Layout>)
    requires |ls| == 2 && ls[0].placedParts == SharedPlacements() && ls[1].placedParts == SharedPlacements()
    ensures forall x :: x in Finish(rules, ls) ==> !FootprintsDisjoint(x.layout.placedParts)
  {
    var shared := SharedPlacements();
    assert !Disjoint(Footprint(shared[1]), Footprint(shared[2]));
    FinishSortedPermutation(rules, ls);
  }

  /**
   * Four parts, as written: both reported sheets show the same three
   * placements, six in all, and B and C occupy the same rectangle. The
   * corrected run (OldEngine.FixedReportProperties) reports at most one
   * placement per part and never overlaps.
   */
  lemma SharedArraysDoublePlacements()
    ensures var r := OldOptimize(DefaultSettings, SharingParts(), [Board()]);
      && r.Some?
      && |r.value| == 2
      && SumOf(r.value, PlacedOf) == 6 > |SharingParts()|
      && forall x :: x in r.value ==> !FootprintsDisjoint(x.layout.placedParts)
  {
    var rules := OldRules(DefaultSettings);
    SharingOptimize();
    SharingViewsC();
    SharedCount(rules, Views(AfterC()));
    SharedOverlap(rules, Views(AfterC()));
  }

  /** A part that fills the board. */
  function Whole(): Part {
    OldPart("Цял", 1000, 1000, DefaultMaterial)
  }

  /** A strip longer than the board in either orientation. */
  function Strip(): Part {
    OldPart("Лента", 10, 1100, DefaultMaterial)
  }

  /** A full board, then a part no free rectangle takes. */
  function CrashParts(): seq<Part> {
    [Whole(), Strip()]
  }

  /** The board after the whole part: no free rectangle left. */
  function Full(): Work {
    Work([WorkSheet(Board(), 1, 0, 1000000)],
         Store([[], []], [[Placement(Whole(), 0, 0, false, 1000, 1000, true)]]))
  }

  lemma CrashStart()
    ensures CloneCatalog([Board()]) == Start()
    ensures OldPlacementOrder(DefaultSettings, CrashParts()) == CrashParts()
  {
    assert CloneCatalog([Board()]).sheets == [WorkSheet(Board(), 0, 0, 0)];
    assert CloneCatalog([Board()]).store.rectArrays == [[Rect(0, 0, 1000, 1000)]];
    assert CloneCatalog([Board()]).store.placementArrays == [[]];
    var le := OldPartOrder("area");
    var ps := CrashParts();
    assert Unplaced(ps) == ps;
    assert le(ps[0], ps[1]);
    SortByOrderedInput(ps, le);
  }

  lemma FullFitBest(p: Part, l: Layout)
    requires p.width == 1000 && p.height == 1000 && l.freeRects == [Rect(0, 0, 1000, 1000)]
    ensures BestOf(AllCandidates(OldRules(DefaultSettings), p, [l])) == Some(Candidate(0, 0, false, 0.0))
  {
    var rules := OldRules(DefaultSettings);
    CandidatesOnOne(rules, p, l);
    OneRectCandidates(rules, p, l, 0);
    assert OldScore(p, Rect(0, 0, 1000, 1000), false) == 0;
    assert OldScore(p, Rect(0, 0, 1000, 1000), true) == 0;
    var cs := [Candidate(0, 0, false, 0.0), Candidate(0, 0, true, 0.0)];
    assert AllCandidates(rules, p, [l]) == cs;
    LeadingMinimumIsBest(cs);
  }

  lemma CrashBestWhole()
    ensures BestOf(AllCandidates(OldRules(DefaultSettings), Whole(), Views(Start())))
      == Some(Candidate(0, 0, false, 0.0))
  {
    var l := Layout(Board(), [Rect(0, 0, 1000, 1000)], [], 0);
    assert Views(Start()) == [l];
    FullFitBest(Whole(), l);
  }

  lemma CrashPlaceWhole()
    ensures PlaceIn(OldRules(DefaultSettings), Start(), 0, Whole(), 0, false) == Full()
  {
    var rules := OldRules(DefaultSettings);
    var w := PlaceIn(rules, Start(), 0, Whole(), 0, false);
    var none: seq<Rect> := [];
    assert RemoveAt([Rect(0, 0, 1000, 1000)], 0) + Split(Rect(0, 0, 1000, 1000), 1000, 1000) == none;
    assert Prune(none, 10000) == none;
    assert [[Rect(0, 0, 1000, 1000)]][0 := none] + [none] == [none, none];
    var noPlacement: seq<Placement> := [];
    var one := [Placement(Whole(), 0, 0, false, 1000, 1000, true)];
    assert noPlacement + one == one;
    assert [noPlacement][0 := one] == [one];
    assert w.sheets == Full().sheets;
    assert w.store.rectArrays == Full().store.rectArrays;
    assert w.store.placementArrays == Full().store.placementArrays;
  }

  /** The whole part fills the only sheet; its copy in the store is emptied too. */
  lemma CrashStepWhole()
    ensures OldStep(DefaultSettings, Start(), Whole()) == Some(Full())
  {
    CrashBestWhole();
    CrashPlaceWhole();
  }

  lemma CrashStepStrip()
    ensures OldStep(DefaultSettings, Full(), Strip()) == None
  {
    var rules := OldRules(DefaultSettings);
    var l := Layout(Board(), [], [Placement(Whole(), 0, 0, false, 1000, 1000, true)], 1000000);
    assert Views(Full()) == [l];
    CandidatesOnOne(rules, Strip(), l);
    assert AllCandidates(rules, Strip(), Views(Full())) == [];
    FallbackNeverPlaces(DefaultSettings, Full(), Strip());
    assert FirstFree(Full()) == [];
  }

  /**
   * As written, the strip finds no position, the first working sheet has no
   * free rectangle left, and reading the first free rectangle of its copy
   * throws. The corrected run never fails.
   */
  lemma EmptyFirstSheetThrows()
    ensures OldOptimize(DefaultSettings, CrashParts(), [Board()]) == None
  {
    var s := DefaultSettings;
    var ps := CrashParts();
    CrashStart();
    assert ps[..0] + [ps[0]] == ps[..1];
    assert ps[..1] + [ps[1]] == ps;
    CrashStepWhole();
    OldRunSnoc(s, Start(), ps[..0], ps[0], Start());
    CrashStepStrip();
    OldRunSnoc(s, Start(), ps[..1], ps[1], Full());
  }
}
