/**
 * The first-fit cutting list of frontend/js/cutlist.js. Parts are taken in
 * order of decreasing height; every copy of a part goes to the first
 * millimetre position, row by row and left to right, where it stays inside
 * the current sheet and clears the parts already on it, unrotated before
 * rotated. A copy that finds no position closes the current sheet and opens
 * a new one.
 *
 * The overlap test of the program reads an already placed part's own width
 * and height, not the size it occupies once rotated. Both readings are
 * modelled (OverlapTest). The program's classes below use its own reading;
 * the occupied-size reading is the corrected one, proved sound below.
 */
module GridCutList {
  import opened Wrappers
  import opened Geometry
  import opened Sums
  import opened Sorting

  /** A part as the cutting list receives it. */
  datatype GridPart = GridPart(name: string, width: int, height: int, quantity: int, material: string)

  /** A part record spread into a placement, with its position, orientation
      and the size it occupies on the sheet. */
  datatype GridPlacement =
    GridPlacement(part: GridPart, x: int, y: int, rotated: bool, placedWidth: int, placedHeight: int)

  /** A sheet: its size and the parts placed on it. */
  datatype Board = Board(width: int, height: int, parts: seq<GridPlacement>)

  /** A position and orientation for the next part. */
  datatype Spot = Spot(x: int, y: int, rotated: bool)

  /** The extent of an already placed part that the overlap test reads: the
      part's own width and height (as written) or the size it occupies. */
  datatype OverlapTest = PartSize | PlacedSize

  function OrientedWidth(p: GridPart, rotated: bool): int {
    if rotated then p.height else p.width
  }

  function OrientedHeight(p: GridPart, rotated: bool): int {
    if rotated then p.width else p.height
  }

  function TestedWidth(t: OverlapTest, q: GridPlacement): int {
    if t == PartSize then q.part.width else q.placedWidth
  }

  function TestedHeight(t: OverlapTest, q: GridPlacement): int {
    if t == PartSize then q.part.height else q.placedHeight
  }

  /** The w × h rectangle at (x, y) lies beside, above or below the placed part. */
  predicate Apart(t: OverlapTest, q: GridPlacement, x: int, y: int, w: int, h: int) {
    x >= q.x + TestedWidth(t, q) || x + w <= q.x || y >= q.y + TestedHeight(t, q) || y + h <= q.y
  }

  /** canPlace: the oriented part ends inside the sheet and is apart from every placed part. */
  predicate Legal(t: OverlapTest, b: Board, p: GridPart, x: int, y: int, rotated: bool) {
    var w := OrientedWidth(p, rotated);
    var h := OrientedHeight(p, rotated);
    x + w <= b.width && y + h <= b.height &&
    forall i :: 0 <= i < |b.parts| ==> Apart(t, b.parts[i], x, y, w, h)
  }

  // ---------------------------------------------------------------- the first-fit scan

  /** The positions the scan visits: both loops are bounded by the unrotated size. */
  predicate InScan(b: Board, p: GridPart, x: int, y: int) {
    0 <= y <= b.height - p.height && 0 <= x <= b.width - p.width
  }

  /** (x', y') comes before (x, y) in row-by-row order. */
  predicate Before(x': int, y': int, x: int, y: int) {
    y' < y || (y' == y && x' < x)
  }

  /** The spot is legal, and rotated only when the unrotated part is not. */
  predicate TakesSpot(t: OverlapTest, b: Board, p: GridPart, s: Spot) {
    Legal(t, b, p, s.x, s.y, s.rotated) && (s.rotated ==> !Legal(t, b, p, s.x, s.y, false))
  }

  /** Row y of the scan, from column x on. */
  function ScanRow(t: OverlapTest, b: Board, p: GridPart, y: int, x: int): Option<Spot>
    decreases b.width - p.width - x + 1
  {
    if x > b.width - p.width then None
    else if Legal(t, b, p, x, y, false) then Some(Spot(x, y, false))
    else if Legal(t, b, p, x, y, true) then Some(Spot(x, y, true))
    else ScanRow(t, b, p, y, x + 1)
  }

  /** The scan from row y on. */
  function ScanFrom(t: OverlapTest, b: Board, p: GridPart, y: int): Option<Spot>
    decreases b.height - p.height - y + 1
  {
    if y > b.height - p.height then None
    else
      match ScanRow(t, b, p, y, 0)
      case Some(s) => Some(s)
      case None => ScanFrom(t, b, p, y + 1)
  }

  /** tryPlacePart's choice of position. */
  function FirstFit(t: OverlapTest, b: Board, p: GridPart): Option<Spot> {
    ScanFrom(t, b, p, 0)
  }

  /** placePart: the part is appended with its position and occupied size. */
  function PlaceAt(b: Board, p: GridPart, s: Spot): Board {
    b.(parts := b.parts + [GridPlacement(p, s.x, s.y, s.rotated,
                                         OrientedWidth(p, s.rotated), OrientedHeight(p, s.rotated))])
  }

  /** tryPlacePart: the board after the attempt. */
  function TryPlace(t: OverlapTest, b: Board, p: GridPart): Board {
    match FirstFit(t, b, p)
    case Some(s) => PlaceAt(b, p, s)
    case None => b
  }

  /** The spot is the first one in scan order that takes the part. */
  ghost predicate IsFirstFit(t: OverlapTest, b: Board, p: GridPart, s: Spot) {
    && InScan(b, p, s.x, s.y)
    && TakesSpot(t, b, p, s)
    && forall x', y' :: InScan(b, p, x', y') && Before(x', y', s.x, s.y) ==>
         !Legal(t, b, p, x', y', false) && !Legal(t, b, p, x', y', true)
  }

  /** No scanned position takes the part in either orientation. */
  ghost predicate NoFit(t: OverlapTest, b: Board, p: GridPart) {
    forall x, y :: InScan(b, p, x, y) ==> !Legal(t, b, p, x, y, false) && !Legal(t, b, p, x, y, true)
  }

  lemma {:induction false} ScanRowFinds(t: OverlapTest, b: Board, p: GridPart, y: int, x: int)
    requires 0 <= x
    ensures ScanRow(t, b, p, y, x) == None ==>
      forall x' :: x <= x' <= b.width - p.width ==> !Legal(t, b, p, x', y, false) && !Legal(t, b, p, x', y, true)
    ensures ScanRow(t, b, p, y, x) != None ==>
      var s := ScanRow(t, b, p, y, x).value;
      && s.y == y && x <= s.x <= b.width - p.width && TakesSpot(t, b, p, s)
      && forall x' :: x <= x' < s.x ==> !Legal(t, b, p, x', y, false) && !Legal(t, b, p, x', y, true)
    decreases b.width - p.width - x + 1
  {
    if x <= b.width - p.width && !Legal(t, b, p, x, y, false) && !Legal(t, b, p, x, y, true) {
      ScanRowFinds(t, b, p, y, x + 1);
    }
  }

  lemma {:induction false} ScanFromFinds(t: OverlapTest, b: Board, p: GridPart, y: int)
    requires 0 <= y
    ensures ScanFrom(t, b, p, y) == None ==>
      forall x', y' :: y <= y' && InScan(b, p, x', y') ==> !Legal(t, b, p, x', y', false) && !Legal(t, b, p, x', y', true)
    ensures ScanFrom(t, b, p, y) != None ==>
      var s := ScanFrom(t, b, p, y).value;
      && y <= s.y && InScan(b, p, s.x, s.y) && TakesSpot(t, b, p, s)
      && forall x', y' :: y <= y' && InScan(b, p, x', y') && Before(x', y', s.x, s.y) ==>
           !Legal(t, b, p, x', y', false) && !Legal(t, b, p, x', y', true)
    decreases b.height - p.height - y + 1
  {
    if y <= b.height - p.height {
      ScanRowFinds(t, b, p, y, 0);
      if ScanRow(t, b, p, y, 0) == None {
        ScanFromFinds(t, b, p, y + 1);
      }
    }
  }

  /** The scan returns exactly the first spot that takes the part, and
      nothing exactly when no scanned position takes it. */
  lemma FirstFitSpec(t: OverlapTest, b: Board, p: GridPart)
    ensures FirstFit(t, b, p) == None <==> NoFit(t, b, p)
    ensures forall s :: FirstFit(t, b, p) == Some(s) <==> IsFirstFit(t, b, p, s)
  {
    ScanFromFinds(t, b, p, 0);
    forall s | IsFirstFit(t, b, p, s)
      ensures FirstFit(t, b, p) == Some(s)
    {
      assert Legal(t, b, p, s.x, s.y, s.rotated);
      var s' := FirstFit(t, b, p).value;
      assert Legal(t, b, p, s'.x, s'.y, s'.rotated);
      assert !Before(s.x, s.y, s'.x, s'.y);
      assert !Before(s'.x, s'.y, s.x, s.y);
    }
  }

  /** A part that fits some board of a size fits the empty board of that size. */
  lemma FitsBlankWhenFits(t: OverlapTest, b: Board, p: GridPart)
    requires FirstFit(t, b, p).Some?
    ensures FirstFit(t, Blank(b.width, b.height), p).Some?
  {
    FirstFitSpec(t, b, p);
    FirstFitSpec(t, Blank(b.width, b.height), p);
    var s := FirstFit(t, b, p).value;
    assert Legal(t, Blank(b.width, b.height), p, s.x, s.y, s.rotated);
  }

  // ---------------------------------------------------------------- the run

  /** createNewSheet: an empty sheet (its Date.now id is not modelled). */
  function Blank(w: int, h: int): Board {
    Board(w, h, [])
  }

  /** The closed sheets and the current one. */
  datatype Progress = Progress(done: seq<Board>, current: Board)

  /** One copy of a part: on the current sheet, or else the current sheet is
      closed and the copy tried on a new one, where it may not fit either. */
  function PlaceCopy(t: OverlapTest, w: int, h: int, st: Progress, p: GridPart): Progress {
    if FirstFit(t, st.current, p).Some? then st.(current := TryPlace(t, st.current, p))
    else Progress(st.done + [st.current], TryPlace(t, Blank(w, h), p))
  }

  function PlaceCopies(t: OverlapTest, w: int, h: int, st: Progress, p: GridPart, n: nat): Progress {
    if n == 0 then st else PlaceCopy(t, w, h, PlaceCopies(t, w, h, st, p, n - 1), p)
  }

  /** The number of passes of the quantity loop. */
  function Copies(p: GridPart): nat {
    if p.quantity > 0 then p.quantity else 0
  }

  function PlaceParts(t: OverlapTest, w: int, h: int, st: Progress, ps: seq<GridPart>): Progress {
    if ps == [] then st
    else
      var last := ps[|ps| - 1];
      PlaceCopies(t, w, h, PlaceParts(t, w, h, st, ps[..|ps| - 1]), last, Copies(last))
  }

  /** The comparator b.height - a.height puts a no later than b. */
  predicate Taller(a: GridPart, b: GridPart) {
    a.height >= b.height
  }

  function HeightOrder(parts: seq<GridPart>): seq<GridPart> {
    SortBy(parts, Taller)
  }

  /** The sheets calculateCutList reports: every closed sheet, and the
      current one when it holds a part. */
  function CutList(t: OverlapTest, parts: seq<GridPart>, w: int, h: int): seq<Board> {
    var st := PlaceParts(t, w, h, Progress([], Blank(w, h)), HeightOrder(parts));
    if |st.current.parts| > 0 then st.done + [st.current] else st.done
  }

  /** The parts are taken tallest first, each of them exactly once. */
  lemma HeightOrderSorted(parts: seq<GridPart>)
    ensures SortedBy(HeightOrder(parts), Taller)
    ensures multiset(HeightOrder(parts)) == multiset(parts)
  {
    SortBySorted(parts, Taller);
  }

  // ---------------------------------------------------------------- placements stay on the sheet

  function Footprint(q: GridPlacement): Rect {
    Rect(q.x, q.y, q.placedWidth, q.placedHeight)
  }

  /** The occupied size is the part's size in its orientation. */
  predicate Recorded(q: GridPlacement) {
    q.placedWidth == OrientedWidth(q.part, q.rotated) && q.placedHeight == OrientedHeight(q.part, q.rotated)
  }

  predicate OnSheet(q: GridPlacement, w: int, h: int) {
    Recorded(q) && 0 <= q.x && 0 <= q.y && q.x + q.placedWidth <= w && q.y + q.placedHeight <= h
  }

  /** A w × h board every part of which lies on it. */
  predicate Fitted(b: Board, w: int, h: int) {
    b.width == w && b.height == h && forall i :: 0 <= i < |b.parts| ==> OnSheet(b.parts[i], w, h)
  }

  /** No two parts on the board share a point. */
  predicate Sound(b: Board) {
    forall i, j :: 0 <= i < j < |b.parts| ==> Disjoint(Footprint(b.parts[i]), Footprint(b.parts[j]))
  }

  lemma TryPlaceFitted(t: OverlapTest, b: Board, p: GridPart, w: int, h: int)
    requires Fitted(b, w, h)
    ensures Fitted(TryPlace(t, b, p), w, h)
  {
    FirstFitSpec(t, b, p);
  }

  /** Under the occupied-size test a placement keeps the parts apart. */
  lemma TryPlaceSound(b: Board, p: GridPart)
    requires Sound(b)
    ensures Sound(TryPlace(PlacedSize, b, p))
  {
    FirstFitSpec(PlacedSize, b, p);
    if FirstFit(PlacedSize, b, p).Some? {
      var s := FirstFit(PlacedSize, b, p).value;
      var b' := TryPlace(PlacedSize, b, p);
      var n := |b.parts|;
      forall i | 0 <= i < n
        ensures Disjoint(Footprint(b'.parts[i]), Footprint(b'.parts[n]))
      {
        assert b'.parts[i] == b.parts[i];
        assert Apart(PlacedSize, b.parts[i], s.x, s.y, OrientedWidth(p, s.rotated), OrientedHeight(p, s.rotated));
      }
    }
  }

  /** Every sheet of the progress is a w × h board of parts lying on it, and
      the parts are apart when the test reads the occupied size. */
  predicate Good(t: OverlapTest, st: Progress, w: int, h: int) {
    && (forall i :: 0 <= i < |st.done| ==> Fitted(st.done[i], w, h) && (t == PlacedSize ==> Sound(st.done[i])))
    && Fitted(st.current, w, h) && (t == PlacedSize ==> Sound(st.current))
  }

  lemma PlaceCopyGood(t: OverlapTest, w: int, h: int, st: Progress, p: GridPart)
    requires Good(t, st, w, h)
    ensures Good(t, PlaceCopy(t, w, h, st, p), w, h)
  {
    TryPlaceFitted(t, st.current, p, w, h);
    TryPlaceFitted(t, Blank(w, h), p, w, h);
    if t == PlacedSize {
      TryPlaceSound(st.current, p);
      TryPlaceSound(Blank(w, h), p);
    }
  }

  lemma {:induction false} PlaceCopiesGood(t: OverlapTest, w: int, h: int, st: Progress, p: GridPart, n: nat)
    requires Good(t, st, w, h)
    ensures Good(t, PlaceCopies(t, w, h, st, p, n), w, h)
  {
    if n > 0 {
      PlaceCopiesGood(t, w, h, st, p, n - 1);
      PlaceCopyGood(t, w, h, PlaceCopies(t, w, h, st, p, n - 1), p);
    }
  }

  lemma {:induction false} PlacePartsGood(t: OverlapTest, w: int, h: int, st: Progress, ps: seq<GridPart>)
    requires Good(t, st, w, h)
    ensures Good(t, PlaceParts(t, w, h, st, ps), w, h)
  {
    if ps != [] {
      PlacePartsGood(t, w, h, st, ps[..|ps| - 1]);
      PlaceCopiesGood(t, w, h, PlaceParts(t, w, h, st, ps[..|ps| - 1]), ps[|ps| - 1], Copies(ps[|ps| - 1]));
    }
  }

  /** Every reported sheet has the requested size and every part lies on it,
      under either test; with the occupied-size test no two parts overlap. */
  lemma CutListOnSheets(t: OverlapTest, parts: seq<GridPart>, w: int, h: int)
    ensures forall b :: b in CutList(t, parts, w, h) ==> Fitted(b, w, h)
    ensures t == PlacedSize ==> forall b :: b in CutList(t, parts, w, h) ==> Sound(b)
  {
    PlacePartsGood(t, w, h, Progress([], Blank(w, h)), HeightOrder(parts));
  }

  // ---------------------------------------------------------------- how many copies are placed

  function PartsOn(b: Board): int {
    |b.parts|
  }

  function PlacedSoFar(st: Progress): int {
    SumOf(st.done, PartsOn) + |st.current.parts|
  }

  /** 1 when the part fits an empty w × h sheet, else 0. */
  function FitsBlank(t: OverlapTest, w: int, h: int, p: GridPart): int {
    if FirstFit(t, Blank(w, h), p).Some? then 1 else 0
  }

  /** The copies of each part that the run places. */
  function PlacedCopies(t: OverlapTest, w: int, h: int): GridPart -> int {
    p => Copies(p) * FitsBlank(t, w, h, p)
  }

  lemma PlaceCopyCount(t: OverlapTest, w: int, h: int, st: Progress, p: GridPart)
    requires st.current.width == w && st.current.height == h
    ensures PlaceCopy(t, w, h, st, p).current.width == w && PlaceCopy(t, w, h, st, p).current.height == h
    ensures PlacedSoFar(PlaceCopy(t, w, h, st, p)) == PlacedSoFar(st) + FitsBlank(t, w, h, p)
  {
    if FirstFit(t, st.current, p).Some? {
      FitsBlankWhenFits(t, st.current, p);
    } else {
      SumOfSnoc(st.done, st.current, PartsOn);
    }
  }

  lemma {:induction false} PlaceCopiesCount(t: OverlapTest, w: int, h: int, st: Progress, p: GridPart, n: nat)
    requires st.current.width == w && st.current.height == h
    ensures PlaceCopies(t, w, h, st, p, n).current.width == w && PlaceCopies(t, w, h, st, p, n).current.height == h
    ensures PlacedSoFar(PlaceCopies(t, w, h, st, p, n)) == PlacedSoFar(st) + n * FitsBlank(t, w, h, p)
  {
    if n > 0 {
      PlaceCopiesCount(t, w, h, st, p, n - 1);
      PlaceCopyCount(t, w, h, PlaceCopies(t, w, h, st, p, n - 1), p);
    }
  }

  lemma {:induction false} PlacePartsCount(t: OverlapTest, w: int, h: int, st: Progress, ps: seq<GridPart>)
    requires st.current.width == w && st.current.height == h
    ensures PlaceParts(t, w, h, st, ps).current.width == w && PlaceParts(t, w, h, st, ps).current.height == h
    ensures PlacedSoFar(PlaceParts(t, w, h, st, ps)) == PlacedSoFar(st) + SumOf(ps, PlacedCopies(t, w, h))
  {
    if ps != [] {
      var last := ps[|ps| - 1];
      PlacePartsCount(t, w, h, st, ps[..|ps| - 1]);
      PlaceCopiesCount(t, w, h, PlaceParts(t, w, h, st, ps[..|ps| - 1]), last, Copies(last));
    }
  }

  /** Every copy of a part that fits an empty sheet is placed once, and every
      copy of a part that does not is dropped: the sheets hold exactly
      Σ copies × [fits an empty sheet] parts. */
  lemma CutListCount(t: OverlapTest, parts: seq<GridPart>, w: int, h: int)
    ensures SumOf(CutList(t, parts, w, h), PartsOn) == SumOf(parts, PlacedCopies(t, w, h))
  {
    var st := PlaceParts(t, w, h, Progress([], Blank(w, h)), HeightOrder(parts));
    PlacePartsCount(t, w, h, Progress([], Blank(w, h)), HeightOrder(parts));
    SumOfSnoc(st.done, st.current, PartsOn);
    HeightOrderSorted(parts);
    SumOfPermutation(HeightOrder(parts), parts, PlacedCopies(t, w, h));
  }

  // ---------------------------------------------------------------- statistics

  /** A reported sheet with its areas and the sample cost of 120 per m². */
  datatype SheetStats = SheetStats(board: Board, usedArea: int, totalArea: int, waste: int, materialCost: real)

  function PlacedArea(q: GridPlacement): int {
    q.placedWidth * q.placedHeight
  }

  function PartArea(q: GridPlacement): int {
    q.part.width * q.part.height
  }

  function StatsOf(b: Board): SheetStats {
    var used := SumOf(b.parts, PlacedArea);
    var total := b.width * b.height;
    SheetStats(b, used, total, total - used, (total as real / 1000000.0) * 120.0)
  }

  /** calculateStats: one record per sheet, in order. */
  function CalculateStats(bs: seq<Board>): (rs: seq<SheetStats>)
    ensures |rs| == |bs|
    ensures forall i :: 0 <= i < |bs| ==> rs[i].board == bs[i] && rs[i].totalArea == bs[i].width * bs[i].height
    ensures forall i :: 0 <= i < |bs| ==> rs[i].usedArea + rs[i].waste == rs[i].totalArea
  {
    seq(|bs|, i requires 0 <= i < |bs| => StatsOf(bs[i]))
  }

  lemma {:induction false} RecordedAreas(ps: seq<GridPlacement>)
    requires forall i :: 0 <= i < |ps| ==> Recorded(ps[i])
    ensures SumOf(ps, PlacedArea) == SumOf(ps, PartArea)
  {
    if ps != [] {
      RecordedAreas(ps[..|ps| - 1]);
      var q := ps[|ps| - 1];
      assert PlacedArea(q) == PartArea(q) by {
        if q.rotated {
          assert q.placedWidth * q.placedHeight == q.part.height * q.part.width;
        }
      }
    }
  }

  /** A sheet's used area is the sum of its parts' own areas: rotating a part
      does not change the area it takes. */
  lemma UsedAreaIsPartArea(t: OverlapTest, parts: seq<GridPart>, w: int, h: int)
    ensures forall r :: r in CalculateStats(CutList(t, parts, w, h)) ==> r.usedArea == SumOf(r.board.parts, PartArea)
  {
    CutListOnSheets(t, parts, w, h);
    var bs := CutList(t, parts, w, h);
    forall r | r in CalculateStats(bs)
      ensures r.usedArea == SumOf(r.board.parts, PartArea)
    {
      var i :| 0 <= i < |bs| && CalculateStats(bs)[i] == r;
      assert bs[i] in bs;
      RecordedAreas(bs[i].parts);
    }
  }

  // ---------------------------------------------------------------- the engine

  /** A working sheet object; the program pushes placements into its parts. */
  class GridSheet {
    const width: int
    const height: int
    var parts: seq<GridPlacement>

    function State(): Board
      reads this
    {
      Board(width, height, parts)
    }

    /** createNewSheet. */
    constructor (w: int, h: int)
      ensures State() == Blank(w, h)
    {
      width := w;
      height := h;
      parts := [];
    }
  }

  function Boards(ss: seq<GridSheet>): (bs: seq<Board>)
    reads set s | s in ss
    ensures |bs| == |ss| && forall i :: 0 <= i < |ss| ==> bs[i] == ss[i].State()
  {
    seq(|ss|, i reads ss requires 0 <= i < |ss| => ss[i].State())
  }

  class CutListEngine {
    var sheets: seq<GridSheet>
    var parts: seq<GridPart>

    constructor ()
      ensures sheets == [] && parts == []
    {
      sheets := [];
      parts := [];
    }

    /** canPlace, reading the placed parts' own width and height, as the program does. */
    method CanPlace(sheet: GridSheet, p: GridPart, x: int, y: int, rotated: bool) returns (ok: bool)
      ensures ok == Legal(PartSize, sheet.State(), p, x, y, rotated)
    {
      var w := if rotated then p.height else p.width;
      var h := if rotated then p.width else p.height;
      if x + w > sheet.width || y + h > sheet.height {
        return false;
      }
      var i := 0;
      while i < |sheet.parts|
        invariant 0 <= i <= |sheet.parts|
        invariant forall j :: 0 <= j < i ==> Apart(PartSize, sheet.parts[j], x, y, w, h)
      {
        var q := sheet.parts[i];
        if !(x >= q.x + q.part.width || x + w <= q.x || y >= q.y + q.part.height || y + h <= q.y) {
          return false;
        }
        i := i + 1;
      }
      return true;
    }

    method PlacePart(sheet: GridSheet, p: GridPart, x: int, y: int, rotated: bool)
      modifies sheet
      ensures sheet.State() == PlaceAt(old(sheet.State()), p, Spot(x, y, rotated))
    {
      sheet.parts := sheet.parts + [GridPlacement(p, x, y, rotated,
                                                  if rotated then p.height else p.width,
                                                  if rotated then p.width else p.height)];
    }

    /** tryPlacePart: rows top to bottom, columns left to right, unrotated
        before rotated, both loops bounded by the unrotated size. */
    method TryPlacePart(sheet: GridSheet, p: GridPart) returns (placed: bool)
      modifies sheet
      ensures placed == FirstFit(PartSize, old(sheet.State()), p).Some?
      ensures sheet.State() == TryPlace(PartSize, old(sheet.State()), p)
    {
      ghost var b := sheet.State();
      var y := 0;
      while y <= sheet.height - p.height
        invariant 0 <= y
        invariant sheet.State() == b
        invariant FirstFit(PartSize, b, p) == ScanFrom(PartSize, b, p, y)
        decreases sheet.height - p.height - y
      {
        var x := 0;
        while x <= sheet.width - p.width
          invariant 0 <= x
          invariant sheet.State() == b
          invariant ScanRow(PartSize, b, p, y, 0) == ScanRow(PartSize, b, p, y, x)
          decreases sheet.width - p.width - x
        {
          var ok := CanPlace(sheet, p, x, y, false);
          if ok {
            PlacePart(sheet, p, x, y, false);
            return true;
          }
          ok := CanPlace(sheet, p, x, y, true);
          if ok {
            PlacePart(sheet, p, x, y, true);
            return true;
          }
          x := x + 1;
        }
        y := y + 1;
      }
      return false;
    }

    /**
     * The forEach callback of calculateCutList: `quantity` copies of p, each on the
     * current sheet or, when it does not fit, on a new one after the current is kept.
     */
    method PlaceEachCopy(done: seq<GridSheet>, current: GridSheet, p: GridPart, w: int, h: int)
        returns (done': seq<GridSheet>, current': GridSheet)
      requires current !in done
      modifies current
      ensures fresh(current') || current' == current
      ensures current' !in done'
      ensures Progress(Boards(done'), current'.State())
        == PlaceCopies(PartSize, w, h, Progress(old(Boards(done)), old(current.State())), p, Copies(p))
    {
      ghost var before := Progress(Boards(done), current.State());
      done', current' := done, current;
      var i := 0;
      while i < p.quantity
        invariant 0 <= i <= Copies(p)
        invariant fresh(current') || current' == current
        invariant current' !in done'
        invariant Progress(Boards(done'), current'.State()) == PlaceCopies(PartSize, w, h, before, p, i)
      {
        var placed := TryPlacePart(current', p);
        if !placed {
          done' := done' + [current'];
          current' := new GridSheet(w, h);
          placed := TryPlacePart(current', p);
        }
        i := i + 1;
      }
    }

    /** calculateCutList: the sheets' statistics, sheets in the order they were opened. */
    method CalculateCutList(input: seq<GridPart>, w: int, h: int) returns (stats: seq<SheetStats>)
      ensures stats == CalculateStats(CutList(PartSize, input, w, h))
    {
      var sorted := HeightOrder(input);
      var done: seq<GridSheet> := [];
      var current := new GridSheet(w, h);
      ghost var start := Progress([], Blank(w, h));
      var k := 0;
      while k < |sorted|
        invariant 0 <= k <= |sorted|
        invariant fresh(current) && current !in done
        invariant Progress(Boards(done), current.State()) == PlaceParts(PartSize, w, h, start, sorted[..k])
      {
        var p := sorted[k];
        done, current := PlaceEachCopy(done, current, p, w, h);
        assert sorted[..k + 1][..k] == sorted[..k] && sorted[..k + 1][k] == p;
        k := k + 1;
      }
      assert sorted[..k] == sorted;
      if |current.parts| > 0 {
        done := done + [current];
      }
      stats := CalculateStats(Boards(done));
    }
  }
}
