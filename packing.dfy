/**
 * The guillotine packer shared by frontend/js/cutlist/engine.js and its
 * improved variant: the cutting-sheet catalog is cloned into working sheets,
 * each part (in the caller's sorted order) goes to the best-scoring free
 * rectangle over all material-compatible working sheets, the consumed
 * rectangle is split guillotine-style and small remainders are pruned; a
 * part that fits nowhere opens a new sheet from the first compatible catalog
 * entry. The engines differ only in the rules they plug in (material
 * matching, rotation permission, grain alignment and the placement score).
 */
module Packing {

  import opened Wrappers
  import opened Geometry
  import opened Sorting

  datatype EdgeBanding = EdgeBanding(top: bool, bottom: bool, left: bool, right: bool)

  /** A part record; width and height are its unrotated size. */
  datatype Part = Part(
    name: string, width: int, height: int, area: int, material: string,
    grainDirection: string, allowRotation: bool, priority: int,
    edgeBanding: EdgeBanding, placed: bool, rotated: bool)

  /** A catalog sheet. */
  datatype SheetSpec = SheetSpec(
    name: string, width: int, height: int, area: int, cost: real,
    materialType: string, grainDirection: string, maxUsagePercent: int)

  /** A part put on a sheet at (x, y), with the size it occupies there. */
  datatype Placement = Placement(
    part: Part, x: int, y: int, rotated: bool,
    placedWidth: int, placedHeight: int, grainAligned: bool)

  /** A working sheet: its catalog entry, free rectangles, placements and used area. */
  datatype Layout = Layout(
    sheet: SheetSpec, freeRects: seq<Rect>, placedParts: seq<Placement>, usedArea: int)

  /** A working sheet as it is reported after packing. */
  datatype SheetResult = SheetResult(layout: Layout, efficiency: real, grainCompliance: real)

  /** The engine-specific decisions. */
  datatype Rules = Rules(
    matches: (string, string) -> bool,              // part material, sheet material
    canRotate: (Part, SheetSpec) -> bool,
    aligned: (Part, bool, SheetSpec) -> bool,       // part, rotated, sheet
    score: (Part, Rect, bool, bool, SheetSpec) -> real,  // part, rect, rotated, aligned, sheet
    minWasteArea: int)

  /** One admissible position considered for a part; lower scores are better. */
  datatype Candidate = Candidate(sheet: nat, rect: nat, rotated: bool, score: real)

  function OrientedWidth(p: Part, rotated: bool): int {
    if rotated then p.height else p.width
  }

  function OrientedHeight(p: Part, rotated: bool): int {
    if rotated then p.width else p.height
  }

  /** The part, in the given orientation, fits inside the rectangle. */
  predicate Fits(p: Part, r: Rect, rotated: bool) {
    OrientedWidth(p, rotated) <= r.width && OrientedHeight(p, rotated) <= r.height
  }

  function SheetRect(s: SheetSpec): Rect {
    Rect(0, 0, s.width, s.height)
  }

  /** A working sheet freshly cloned from a catalog entry. */
  function FreshLayout(s: SheetSpec): Layout {
    Layout(s, [SheetRect(s)], [], 0)
  }

  function FreshLayouts(specs: seq<SheetSpec>): (ls: seq<Layout>)
    ensures |ls| == |specs| && forall i :: 0 <= i < |specs| ==> ls[i] == FreshLayout(specs[i])
  {
    if specs == [] then [] else FreshLayouts(specs[..|specs| - 1]) + [FreshLayout(specs[|specs| - 1])]
  }

  // ---------------------------------------------------------------- candidates

  function CandidateScore(rules: Rules, p: Part, l: Layout, ri: nat, rotated: bool): real
    requires ri < |l.freeRects|
  {
    rules.score(p, l.freeRects[ri], rotated, rules.aligned(p, rotated, l.sheet), l.sheet)
  }

  /** The candidate of one free rectangle in one orientation, if the part fits
      that way and, rotated, may be rotated on this sheet. */
  function OrientedCandidates(rules: Rules, p: Part, l: Layout, si: nat, ri: nat, rotated: bool): seq<Candidate>
    requires ri < |l.freeRects|
  {
    if (rotated ==> rules.canRotate(p, l.sheet)) && Fits(p, l.freeRects[ri], rotated)
    then [Candidate(si, ri, rotated, CandidateScore(rules, p, l, ri, rotated))]
    else []
  }

  /** The candidates of one free rectangle: unrotated first, then rotated. */
  function RectCandidates(rules: Rules, p: Part, l: Layout, si: nat, ri: nat): seq<Candidate>
    requires ri < |l.freeRects|
  {
    OrientedCandidates(rules, p, l, si, ri, false) + OrientedCandidates(rules, p, l, si, ri, true)
  }

  /** The candidates of the first n free rectangles of a sheet whose material matches. */
  function SheetCandidates(rules: Rules, p: Part, l: Layout, si: nat, n: nat): seq<Candidate>
    requires n <= |l.freeRects|
  {
    if !rules.matches(p.material, l.sheet.materialType) || n == 0 then []
    else SheetCandidates(rules, p, l, si, n - 1) + RectCandidates(rules, p, l, si, n - 1)
  }

  /** The candidates of the first m working sheets, in sheet, rectangle, orientation order. */
  function Candidates(rules: Rules, p: Part, ls: seq<Layout>, m: nat): seq<Candidate>
    requires m <= |ls|
  {
    if m == 0 then []
    else Candidates(rules, p, ls, m - 1) + SheetCandidates(rules, p, ls[m - 1], m - 1, |ls[m - 1].freeRects|)
  }

  function AllCandidates(rules: Rules, p: Part, ls: seq<Layout>): seq<Candidate> {
    Candidates(rules, p, ls, |ls|)
  }

  /** What makes a position on one working sheet admissible: a matching
      material, a fit, rotation only where permitted, and the rules' score. */
  predicate AdmissibleOn(rules: Rules, p: Part, l: Layout, c: Candidate) {
    && c.rect < |l.freeRects|
    && rules.matches(p.material, l.sheet.materialType)
    && Fits(p, l.freeRects[c.rect], c.rotated)
    && (c.rotated ==> rules.canRotate(p, l.sheet))
    && c.score == CandidateScore(rules, p, l, c.rect, c.rotated)
  }

  predicate Admissible(rules: Rules, p: Part, ls: seq<Layout>, c: Candidate) {
    c.sheet < |ls| && AdmissibleOn(rules, p, ls[c.sheet], c)
  }

  /** Search order: by sheet, then rectangle, unrotated before rotated. */
  predicate Before(a: Candidate, b: Candidate) {
    a.sheet < b.sheet || (a.sheet == b.sheet && (a.rect < b.rect || (a.rect == b.rect && !a.rotated && b.rotated)))
  }

  predicate InSearchOrder(cs: seq<Candidate>) {
    forall i, j :: 0 <= i < j < |cs| ==> Before(cs[i], cs[j])
  }

  lemma AppendInSearchOrder(a: seq<Candidate>, b: seq<Candidate>)
    requires InSearchOrder(a) && InSearchOrder(b)
    requires forall i, j :: 0 <= i < |a| && 0 <= j < |b| ==> Before(a[i], b[j])
    ensures InSearchOrder(a + b)
  {
    forall i, j | 0 <= i < j < |a + b| ensures Before((a + b)[i], (a + b)[j]) {
      if i < |a| && j >= |a| {
        assert (a + b)[i] == a[i] && (a + b)[j] == b[j - |a|];
      }
    }
  }

  /** Where the candidates of one sheet lie: on that sheet, below rectangle n. */
  predicate OnSheetBelow(cs: seq<Candidate>, si: nat, n: nat) {
    forall i :: 0 <= i < |cs| ==> cs[i].sheet == si && cs[i].rect < n
  }

  /** Where the candidates of the first m sheets lie: below sheet m. */
  predicate BelowSheet(cs: seq<Candidate>, m: nat) {
    forall i :: 0 <= i < |cs| ==> cs[i].sheet < m
  }

  lemma RectCandidateMember(rules: Rules, p: Part, l: Layout, si: nat, ri: nat, c: Candidate)
    requires ri < |l.freeRects| && rules.matches(p.material, l.sheet.materialType)
    ensures c in RectCandidates(rules, p, l, si, ri) <==>
      AdmissibleOn(rules, p, l, c) && c.sheet == si && c.rect == ri
  {
  }

  lemma {:induction false} SheetCandidateSound(rules: Rules, p: Part, l: Layout, si: nat, n: nat, c: Candidate)
    requires n <= |l.freeRects| && c in SheetCandidates(rules, p, l, si, n)
    ensures AdmissibleOn(rules, p, l, c) && c.sheet == si && c.rect < n
  {
    assert rules.matches(p.material, l.sheet.materialType) && n > 0;
    var a := SheetCandidates(rules, p, l, si, n - 1);
    var b := RectCandidates(rules, p, l, si, n - 1);
    assert SheetCandidates(rules, p, l, si, n) == a + b;
    if c in a {
      SheetCandidateSound(rules, p, l, si, n - 1, c);
    } else {
      RectCandidateMember(rules, p, l, si, n - 1, c);
    }
  }

  lemma {:induction false} SheetCandidateComplete(rules: Rules, p: Part, l: Layout, si: nat, n: nat, c: Candidate)
    requires n <= |l.freeRects| && AdmissibleOn(rules, p, l, c) && c.sheet == si && c.rect < n
    ensures c in SheetCandidates(rules, p, l, si, n)
  {
    var a := SheetCandidates(rules, p, l, si, n - 1);
    var b := RectCandidates(rules, p, l, si, n - 1);
    assert SheetCandidates(rules, p, l, si, n) == a + b;
    if c.rect == n - 1 {
      RectCandidateMember(rules, p, l, si, n - 1, c);
      assert c in b;
    } else {
      SheetCandidateComplete(rules, p, l, si, n - 1, c);
      assert c in a;
    }
  }

  lemma RectCandidatesOrdered(rules: Rules, p: Part, l: Layout, si: nat, ri: nat)
    requires ri < |l.freeRects|
    ensures InSearchOrder(RectCandidates(rules, p, l, si, ri))
    ensures OnRect(RectCandidates(rules, p, l, si, ri), si, ri)
  {
  }

  /** Where the candidates of one rectangle lie. */
  predicate OnRect(cs: seq<Candidate>, si: nat, ri: nat) {
    forall i :: 0 <= i < |cs| ==> cs[i].sheet == si && cs[i].rect == ri
  }

  /** Appending the candidates of rectangle n keeps one sheet's list in order. */
  lemma AppendRect(a: seq<Candidate>, b: seq<Candidate>, si: nat, n: nat)
    requires InSearchOrder(a) && OnSheetBelow(a, si, n)
    requires InSearchOrder(b) && OnRect(b, si, n)
    ensures InSearchOrder(a + b) && OnSheetBelow(a + b, si, n + 1)
  {
    forall i, j | 0 <= i < |a| && 0 <= j < |b| ensures Before(a[i], b[j]) {
      assert a[i].rect < n && b[j].rect == n;
    }
    AppendInSearchOrder(a, b);
    forall i | 0 <= i < |a + b| ensures (a + b)[i].sheet == si && (a + b)[i].rect < n + 1 {
      if i < |a| {
        assert (a + b)[i] == a[i];
      } else {
        assert (a + b)[i] == b[i - |a|];
      }
    }
  }

  /** Appending the candidates of sheet m keeps the list in order. */
  lemma AppendSheet(a: seq<Candidate>, b: seq<Candidate>, m: nat, n: nat)
    requires InSearchOrder(a) && BelowSheet(a, m)
    requires InSearchOrder(b) && OnSheetBelow(b, m, n)
    ensures InSearchOrder(a + b) && BelowSheet(a + b, m + 1)
  {
    forall i, j | 0 <= i < |a| && 0 <= j < |b| ensures Before(a[i], b[j]) {
      assert a[i].sheet < m && b[j].sheet == m;
    }
    AppendInSearchOrder(a, b);
    forall i | 0 <= i < |a + b| ensures (a + b)[i].sheet < m + 1 {
      if i < |a| {
        assert (a + b)[i] == a[i];
      } else {
        assert (a + b)[i] == b[i - |a|];
      }
    }
  }

  lemma {:induction false} SheetCandidatesOrdered(rules: Rules, p: Part, l: Layout, si: nat, n: nat)
    requires n <= |l.freeRects|
    ensures InSearchOrder(SheetCandidates(rules, p, l, si, n))
    ensures OnSheetBelow(SheetCandidates(rules, p, l, si, n), si, n)
  {
    if rules.matches(p.material, l.sheet.materialType) && n > 0 {
      var a := SheetCandidates(rules, p, l, si, n - 1);
      var b := RectCandidates(rules, p, l, si, n - 1);
      SheetCandidatesOrdered(rules, p, l, si, n - 1);
      RectCandidatesOrdered(rules, p, l, si, n - 1);
      AppendRect(a, b, si, n - 1);
      assert SheetCandidates(rules, p, l, si, n) == a + b;
    } else {
      assert SheetCandidates(rules, p, l, si, n) == [];
    }
  }

  lemma {:induction false} CandidateSound(rules: Rules, p: Part, ls: seq<Layout>, m: nat, c: Candidate)
    requires m <= |ls| && c in Candidates(rules, p, ls, m)
    ensures Admissible(rules, p, ls, c) && c.sheet < m
  {
    var l := ls[m - 1];
    var a := Candidates(rules, p, ls, m - 1);
    var b := SheetCandidates(rules, p, l, m - 1, |l.freeRects|);
    assert Candidates(rules, p, ls, m) == a + b;
    if c in a {
      CandidateSound(rules, p, ls, m - 1, c);
    } else {
      SheetCandidateSound(rules, p, l, m - 1, |l.freeRects|, c);
    }
  }

  lemma {:induction false} CandidateComplete(rules: Rules, p: Part, ls: seq<Layout>, m: nat, c: Candidate)
    requires m <= |ls| && Admissible(rules, p, ls, c) && c.sheet < m
    ensures c in Candidates(rules, p, ls, m)
  {
    var l := ls[m - 1];
    var a := Candidates(rules, p, ls, m - 1);
    var b := SheetCandidates(rules, p, l, m - 1, |l.freeRects|);
    assert Candidates(rules, p, ls, m) == a + b;
    if c.sheet == m - 1 {
      SheetCandidateComplete(rules, p, l, m - 1, |l.freeRects|, c);
      assert c in b;
    } else {
      CandidateComplete(rules, p, ls, m - 1, c);
      assert c in a;
    }
  }

  lemma {:induction false} CandidatesOrdered(rules: Rules, p: Part, ls: seq<Layout>, m: nat)
    requires m <= |ls|
    ensures InSearchOrder(Candidates(rules, p, ls, m))
    ensures BelowSheet(Candidates(rules, p, ls, m), m)
  {
    if m > 0 {
      var l := ls[m - 1];
      CandidatesOrdered(rules, p, ls, m - 1);
      SheetCandidatesOrdered(rules, p, l, m - 1, |l.freeRects|);
      AppendSheet(Candidates(rules, p, ls, m - 1), SheetCandidates(rules, p, l, m - 1, |l.freeRects|), m - 1, |l.freeRects|);
    }
  }

  /** The candidate list holds exactly the admissible positions, in search order. */
  lemma CandidatesAreAdmissible(rules: Rules, p: Part, ls: seq<Layout>)
    ensures InSearchOrder(AllCandidates(rules, p, ls))
    ensures forall c :: c in AllCandidates(rules, p, ls) <==> Admissible(rules, p, ls, c)
  {
    CandidatesOrdered(rules, p, ls, |ls|);
    forall c ensures c in AllCandidates(rules, p, ls) <==> Admissible(rules, p, ls, c) {
      if c in AllCandidates(rules, p, ls) {
        CandidateSound(rules, p, ls, |ls|, c);
      }
      if Admissible(rules, p, ls, c) {
        CandidateComplete(rules, p, ls, |ls|, c);
      }
    }
  }

  // ---------------------------------------------------------------- best choice

  /** A candidate replaces the current best only with a strictly lower score. */
  function Better(best: Option<Candidate>, c: Candidate): Option<Candidate> {
    if best.None? || c.score < best.value.score then Some(c) else best
  }

  /** The running best after scanning the candidates, in list order, from acc. */
  function BestFrom(acc: Option<Candidate>, cs: seq<Candidate>): Option<Candidate> {
    if cs == [] then acc else Better(BestFrom(acc, cs[..|cs| - 1]), cs[|cs| - 1])
  }

  /** The running best over the candidates, starting from none. */
  function BestOf(cs: seq<Candidate>): Option<Candidate> {
    BestFrom(None, cs)
  }

  /** Scanning a + b is scanning a, then b from where a left off. */
  lemma {:induction false} BestFromAppend(acc: Option<Candidate>, a: seq<Candidate>, b: seq<Candidate>)
    ensures BestFrom(acc, a + b) == BestFrom(BestFrom(acc, a), b)
  {
    if b == [] {
      assert a + b == a;
    } else {
      BestFromAppend(acc, a, b[..|b| - 1]);
      assert (a + b)[..|a + b| - 1] == a + b[..|b| - 1];
    }
  }

  /** The running best after trying free rectangle ri of a sheet in one orientation. */
  function TryOrientation(rules: Rules, p: Part, l: Layout, si: nat, ri: nat, rotated: bool,
                          acc: Option<Candidate>): Option<Candidate>
    requires ri < |l.freeRects|
  {
    if (rotated ==> rules.canRotate(p, l.sheet)) && Fits(p, l.freeRects[ri], rotated)
    then Better(acc, Candidate(si, ri, rotated, CandidateScore(rules, p, l, ri, rotated)))
    else acc
  }

  /** The running best after the scan over the first n free rectangles of a sheet. */
  function SheetScan(rules: Rules, p: Part, l: Layout, si: nat, n: nat, acc: Option<Candidate>): Option<Candidate>
    requires n <= |l.freeRects|
  {
    if !rules.matches(p.material, l.sheet.materialType) || n == 0 then acc
    else
      var b := SheetScan(rules, p, l, si, n - 1, acc);
      TryOrientation(rules, p, l, si, n - 1, true, TryOrientation(rules, p, l, si, n - 1, false, b))
  }

  /** The running best after the scan over the first m working sheets. */
  function Scan(rules: Rules, p: Part, ls: seq<Layout>, m: nat): Option<Candidate>
    requires m <= |ls|
  {
    if m == 0 then None
    else SheetScan(rules, p, ls[m - 1], m - 1, |ls[m - 1].freeRects|, Scan(rules, p, ls, m - 1))
  }

  lemma TryOrientationIsBestFrom(rules: Rules, p: Part, l: Layout, si: nat, ri: nat, rotated: bool,
                                 acc: Option<Candidate>)
    requires ri < |l.freeRects|
    ensures TryOrientation(rules, p, l, si, ri, rotated, acc)
      == BestFrom(acc, OrientedCandidates(rules, p, l, si, ri, rotated))
  {
    var cs := OrientedCandidates(rules, p, l, si, ri, rotated);
    if cs != [] {
      assert cs[..0] == [];
    }
  }

  /** The nested scan over one sheet visits its candidates in list order. */
  lemma {:induction false} SheetScanIsBestFrom(rules: Rules, p: Part, l: Layout, si: nat, n: nat,
                                               acc: Option<Candidate>)
    requires n <= |l.freeRects|
    ensures SheetScan(rules, p, l, si, n, acc) == BestFrom(acc, SheetCandidates(rules, p, l, si, n))
  {
    if rules.matches(p.material, l.sheet.materialType) && n > 0 {
      var before := SheetCandidates(rules, p, l, si, n - 1);
      var unrotated := OrientedCandidates(rules, p, l, si, n - 1, false);
      var rotated := OrientedCandidates(rules, p, l, si, n - 1, true);
      SheetScanIsBestFrom(rules, p, l, si, n - 1, acc);
      var b := BestFrom(acc, before);
      TryOrientationIsBestFrom(rules, p, l, si, n - 1, false, b);
      TryOrientationIsBestFrom(rules, p, l, si, n - 1, true, BestFrom(b, unrotated));
      BestFromAppend(b, unrotated, rotated);
      BestFromAppend(acc, before, unrotated + rotated);
    } else {
      assert SheetCandidates(rules, p, l, si, n) == [];
    }
  }

  /** The nested scan over the working sheets is the running best over the candidate list. */
  lemma {:induction false} ScanIsBestOf(rules: Rules, p: Part, ls: seq<Layout>, m: nat)
    requires m <= |ls|
    ensures Scan(rules, p, ls, m) == BestOf(Candidates(rules, p, ls, m))
  {
    if m > 0 {
      var l := ls[m - 1];
      var before := Candidates(rules, p, ls, m - 1);
      var last := SheetCandidates(rules, p, l, m - 1, |l.freeRects|);
      var acc := Scan(rules, p, ls, m - 1);
      var r := SheetScan(rules, p, l, m - 1, |l.freeRects|, acc);
      ScanIsBestOf(rules, p, ls, m - 1);
      SheetScanIsBestFrom(rules, p, l, m - 1, |l.freeRects|, acc);
      BestFromChain(before, last, acc, r);
      ScanUnfold(rules, p, ls, m);
    }
  }

  lemma ScanUnfold(rules: Rules, p: Part, ls: seq<Layout>, m: nat)
    requires 0 < m <= |ls|
    ensures Scan(rules, p, ls, m)
      == SheetScan(rules, p, ls[m - 1], m - 1, |ls[m - 1].freeRects|, Scan(rules, p, ls, m - 1))
    ensures Candidates(rules, p, ls, m)
      == Candidates(rules, p, ls, m - 1) + SheetCandidates(rules, p, ls[m - 1], m - 1, |ls[m - 1].freeRects|)
  {
  }

  lemma BestFromChain(a: seq<Candidate>, b: seq<Candidate>, acc: Option<Candidate>, r: Option<Candidate>)
    requires acc == BestOf(a) && r == BestFrom(acc, b)
    ensures r == BestOf(a + b)
  {
    BestFromAppend(None, a, b);
  }

  /** Index of the running best in a non-empty candidate list. */
  function BestIndex(cs: seq<Candidate>): (k: nat)
    requires cs != []
    ensures k < |cs|
  {
    if |cs| == 1 then 0
    else
      var k := BestIndex(cs[..|cs| - 1]);
      if cs[|cs| - 1].score < cs[k].score then |cs| - 1 else k
  }

  /** The running best is the first candidate of minimum score. */
  lemma {:induction false} BestOfIsFirstMinimum(cs: seq<Candidate>)
    requires cs != []
    ensures BestOf(cs) == Some(cs[BestIndex(cs)])
    ensures forall j :: 0 <= j < |cs| ==> cs[BestIndex(cs)].score <= cs[j].score
    ensures forall j :: 0 <= j < BestIndex(cs) ==> cs[j].score > cs[BestIndex(cs)].score
  {
    var last := |cs| - 1;
    var init := cs[..last];
    assert BestOf(cs) == Better(BestOf(init), cs[last]);
    if |cs| == 1 {
      assert init == [];
    } else {
      BestOfIsFirstMinimum(init);
      var k := BestIndex(init);
      assert BestOf(cs) == Better(Some(init[k]), cs[last]);
      assert forall j :: 0 <= j < last ==> cs[j] == init[j];
    }
  }

  /**
   * The chosen position is admissible, no admissible position scores lower,
   * and every admissible position searched before it scores strictly higher
   * (ties go to the first one found); there is none only when no position is
   * admissible.
   */
  lemma BestIsFirstAdmissibleMinimum(rules: Rules, p: Part, ls: seq<Layout>)
    ensures var best := BestOf(AllCandidates(rules, p, ls));
      && (best.None? <==> forall c :: !Admissible(rules, p, ls, c))
      && (best.Some? ==>
            && Admissible(rules, p, ls, best.value)
            && (forall c :: Admissible(rules, p, ls, c) ==> best.value.score <= c.score)
            && (forall c :: Admissible(rules, p, ls, c) && Before(c, best.value) ==> c.score > best.value.score))
  {
    var cs := AllCandidates(rules, p, ls);
    CandidatesAreAdmissible(rules, p, ls);
    if cs == [] {
      forall c ensures !Admissible(rules, p, ls, c) {
        assert c !in cs;
      }
    } else {
      BestOfIsFirstMinimum(cs);
      var k := BestIndex(cs);
      var best := cs[k];
      assert best in cs;
      forall c | Admissible(rules, p, ls, c)
        ensures best.score <= c.score
        ensures Before(c, best) ==> c.score > best.score
      {
        assert c in cs;
        var j :| 0 <= j < |cs| && cs[j] == c;
        if Before(c, best) {
          assert j < k;
        }
      }
    }
  }

  // ---------------------------------------------------------------- placement

  /** The rectangle a placement occupies. */
  function Footprint(pl: Placement): Rect {
    Rect(pl.x, pl.y, pl.placedWidth, pl.placedHeight)
  }

  /** Puts the part at the origin of free rectangle ri: records the placement,
      adds its area, replaces the rectangle by its guillotine split and drops
      free rectangles below the minimum waste area. */
  function Place(rules: Rules, l: Layout, p: Part, ri: nat, rotated: bool): Layout
    requires ri < |l.freeRects|
  {
    var w := OrientedWidth(p, rotated);
    var h := OrientedHeight(p, rotated);
    var r := l.freeRects[ri];
    var pl := Placement(p, r.x, r.y, rotated, w, h, rules.aligned(p, rotated, l.sheet));
    Layout(l.sheet, Prune(RemoveAt(l.freeRects, ri) + Split(r, w, h), rules.minWasteArea),
           l.placedParts + [pl], l.usedArea + w * h)
  }

  /** The leftover pieces of a free rectangle once a w by h part sits at its origin. */
  method SplitPieces(r: Rect, w: int, h: int) returns (pieces: seq<Rect>)
    ensures pieces == Split(r, w, h)
  {
    var remW := r.width - w;
    var remH := r.height - h;
    pieces := [];
    if remW > 0 && remH > 0 {
      if remW >= remH {
        pieces := [Rect(r.x + w, r.y, remW, r.height), Rect(r.x, r.y + h, w, remH)];
      } else {
        pieces := [Rect(r.x + w, r.y, remW, h), Rect(r.x, r.y + h, r.width, remH)];
      }
    } else if remW > 0 {
      pieces := [Rect(r.x + w, r.y, remW, r.height)];
    } else if remH > 0 {
      pieces := [Rect(r.x, r.y + h, r.width, remH)];
    }
  }

  /** The first catalog sheet whose material matches the part's. */
  function FindTemplate(rules: Rules, p: Part, specs: seq<SheetSpec>): (t: Option<SheetSpec>)
    ensures t.Some? ==> t.value in specs && rules.matches(p.material, t.value.materialType)
    ensures t.None? <==> forall s :: s in specs ==> !rules.matches(p.material, s.materialType)
  {
    if specs == [] then None
    else if rules.matches(p.material, specs[0].materialType) then Some(specs[0])
    else FindTemplate(rules, p, specs[1..])
  }

  /** One part: the best admissible position if there is one, otherwise a new
      sheet from the first matching catalog entry with the part at its origin
      unrotated (without a fit test), otherwise the part stays unplaced. */
  function Step(rules: Rules, specs: seq<SheetSpec>, ls: seq<Layout>, p: Part): seq<Layout> {
    var best := BestOf(AllCandidates(rules, p, ls));
    if best.Some? then
      var c := best.value;
      if c.sheet < |ls| && c.rect < |ls[c.sheet].freeRects| then
        ls[c.sheet := Place(rules, ls[c.sheet], p, c.rect, c.rotated)]
      else ls  // cannot happen: every candidate is admissible
    else
      match FindTemplate(rules, p, specs)
      case Some(t) => ls + [Place(rules, FreshLayout(t), p, 0, false)]
      case None => ls
  }

  /** The working sheets after all parts, in the given order. */
  function Run(rules: Rules, specs: seq<SheetSpec>, ls: seq<Layout>, parts: seq<Part>): seq<Layout> {
    if parts == [] then ls
    else Step(rules, specs, Run(rules, specs, ls, parts[..|parts| - 1]), parts[|parts| - 1])
  }

  lemma RunExtend(rules: Rules, specs: seq<SheetSpec>, ls: seq<Layout>, parts: seq<Part>, i: nat)
    requires i < |parts|
    ensures Run(rules, specs, ls, parts[..i + 1]) == Step(rules, specs, Run(rules, specs, ls, parts[..i]), parts[i])
  {
    assert parts[..i + 1][..i] == parts[..i];
  }

  // ---------------------------------------------------------------- results

  /** 100 · used / area (0 for a sheet of zero area). */
  function Efficiency(l: Layout): real {
    if l.sheet.area == 0 then 0.0 else 100.0 * (l.usedArea as real) / (l.sheet.area as real)
  }

  function AlignedCount(rules: Rules, sheet: SheetSpec, pls: seq<Placement>): nat {
    if pls == [] then 0
    else
      var last := pls[|pls| - 1];
      AlignedCount(rules, sheet, pls[..|pls| - 1]) + (if rules.aligned(last.part, last.rotated, sheet) then 1 else 0)
  }

  /** Percentage of placements aligned with the sheet's grain. */
  function GrainCompliance(rules: Rules, l: Layout): real {
    if l.placedParts == [] then 0.0
    else 100.0 * (AlignedCount(rules, l.sheet, l.placedParts) as real) / (|l.placedParts| as real)
  }

  function Summarize(rules: Rules, l: Layout): SheetResult {
    SheetResult(l, Efficiency(l), GrainCompliance(rules, l))
  }

  /** The used working sheets, summarized, in sheet order. */
  function UsedSheets(rules: Rules, ls: seq<Layout>): seq<SheetResult> {
    if ls == [] then []
    else
      var last := ls[|ls| - 1];
      UsedSheets(rules, ls[..|ls| - 1]) + (if last.placedParts != [] then [Summarize(rules, last)] else [])
  }

  lemma {:induction false} UsedSheetsMembers(rules: Rules, ls: seq<Layout>)
    ensures forall r :: r in UsedSheets(rules, ls) ==>
      r.layout.placedParts != [] && r == Summarize(rules, r.layout) && r.layout in ls
    ensures forall l :: l in ls && l.placedParts != [] ==> Summarize(rules, l) in UsedSheets(rules, ls)
  {
    if ls != [] {
      UsedSheetsMembers(rules, ls[..|ls| - 1]);
      assert ls == ls[..|ls| - 1] + [ls[|ls| - 1]];
    }
  }

  /** Most efficient first (comparator b.efficiency - a.efficiency). */
  function ByEfficiency(): (SheetResult, SheetResult) -> bool {
    (a: SheetResult, b: SheetResult) => b.efficiency - a.efficiency <= 0.0
  }

  function Finish(rules: Rules, ls: seq<Layout>): seq<SheetResult> {
    SortBy(UsedSheets(rules, ls), ByEfficiency())
  }

  /** The reported sheets are exactly the used working sheets, most efficient first. */
  lemma FinishSortedPermutation(rules: Rules, ls: seq<Layout>)
    ensures var rs := Finish(rules, ls);
      && multiset(rs) == multiset(UsedSheets(rules, ls))
      && (forall i, j :: 0 <= i < j < |rs| ==> rs[i].efficiency >= rs[j].efficiency)
      && (forall r :: r in rs ==> r.layout.placedParts != [] && r.layout in ls)
  {
    var le := ByEfficiency();
    SortBySorted(UsedSheets(rules, ls), le);
    var rs := Finish(rules, ls);
    UsedSheetsMembers(rules, ls);
    forall r | r in rs ensures r.layout.placedParts != [] && r.layout in ls {
      assert r in multiset(rs);
    }
  }

  // ---------------------------------------------------------------- imperative run

  /** A working sheet object whose free rectangles, placements and used area
      are updated in place. */
  class Sheet {
    const spec: SheetSpec
    /** Stands for the sheet's unique id: its position in the working list. */
    ghost const id: nat
    var freeRects: seq<Rect>
    var placedParts: seq<Placement>
    var usedArea: int

    function State(): Layout
      reads this
    {
      Layout(spec, freeRects, placedParts, usedArea)
    }

    /** Clones a catalog sheet with one free rectangle covering it. */
    constructor (s: SheetSpec, ghost position: nat)
      ensures State() == FreshLayout(s) && id == position
    {
      spec := s;
      id := position;
      freeRects := [Rect(0, 0, s.width, s.height)];
      placedParts := [];
      usedArea := 0;
    }

    method PlacePart(rules: Rules, p: Part, ri: nat, rotated: bool)
      requires ri < |freeRects|
      modifies this
      ensures State() == Place(rules, old(State()), p, ri, rotated)
    {
      var w := OrientedWidth(p, rotated);
      var h := OrientedHeight(p, rotated);
      var r := freeRects[ri];
      placedParts := placedParts + [Placement(p, r.x, r.y, rotated, w, h, rules.aligned(p, rotated, spec))];
      usedArea := usedArea + w * h;
      var pieces := SplitPieces(r, w, h);
      freeRects := Prune(RemoveAt(freeRects, ri) + pieces, rules.minWasteArea);
    }
  }

  /** Each working sheet carries its own position as id, so no sheet occurs twice. */
  ghost predicate Numbered(ss: seq<Sheet>) {
    forall k :: 0 <= k < |ss| ==> ss[k].id == k
  }

  /** The values of the working sheets, in order. */
  function Snapshot(ss: seq<Sheet>): (ls: seq<Layout>)
    reads ss
    ensures |ls| == |ss| && forall i :: 0 <= i < |ss| ==> ls[i] == ss[i].State()
  {
    seq(|ss|, i reads ss requires 0 <= i < |ss| => ss[i].State())
  }

  lemma SnapshotAt(ss: seq<Sheet>, i: nat)
    requires i < |ss|
    ensures Snapshot(ss)[i] == ss[i].State()
  {
  }

  /** Scores free rectangle ri of one sheet in one orientation. */
  method ScanOrientation(rules: Rules, p: Part, s: Sheet, si: nat, ri: nat, rotated: bool,
                         best: Option<Candidate>) returns (b: Option<Candidate>)
    requires ri < |s.freeRects|
    ensures b == TryOrientation(rules, p, s.State(), si, ri, rotated, best)
  {
    var r := s.freeRects[ri];
    b := best;
    if (rotated ==> rules.canRotate(p, s.spec)) && Fits(p, r, rotated) {
      var score := rules.score(p, r, rotated, rules.aligned(p, rotated, s.spec), s.spec);
      if b.None? || score < b.value.score {
        b := Some(Candidate(si, ri, rotated, score));
      }
    }
  }

  /** Scores every free rectangle of one sheet whose material matches. */
  method ScanSheet(rules: Rules, p: Part, s: Sheet, si: nat, best: Option<Candidate>) returns (b: Option<Candidate>)
    ensures b == SheetScan(rules, p, s.State(), si, |s.freeRects|, best)
  {
    b := best;
    if rules.matches(p.material, s.spec.materialType) {
      for ri := 0 to |s.freeRects|
        invariant b == SheetScan(rules, p, s.State(), si, ri, best)
      {
        b := ScanOrientation(rules, p, s, si, ri, false, b);
        b := ScanOrientation(rules, p, s, si, ri, true, b);
      }
    }
  }

  /** The scan over every free rectangle of every matching sheet. */
  method FindBest(rules: Rules, p: Part, sheets: seq<Sheet>) returns (best: Option<Candidate>)
    ensures best == BestOf(AllCandidates(rules, p, Snapshot(sheets)))
  {
    ghost var ls := Snapshot(sheets);
    best := None;
    for si := 0 to |sheets|
      invariant best == Scan(rules, p, ls, si)
      invariant ls == Snapshot(sheets)
    {
      SnapshotAt(sheets, si);
      best := ScanSheet(rules, p, sheets[si], si, best);
    }
    ScanIsBestOf(rules, p, ls, |ls|);
  }

  lemma StepOpensSheet(rules: Rules, specs: seq<SheetSpec>, ls: seq<Layout>, p: Part)
    requires BestOf(AllCandidates(rules, p, ls)).None?
    ensures Step(rules, specs, ls, p) ==
      match FindTemplate(rules, p, specs)
      case Some(t) => ls + [Place(rules, FreshLayout(t), p, 0, false)]
      case None => ls
  {
  }

  lemma StepPlacesAtBest(rules: Rules, specs: seq<SheetSpec>, ls: seq<Layout>, p: Part)
    requires BestOf(AllCandidates(rules, p, ls)).Some?
    ensures var c := BestOf(AllCandidates(rules, p, ls)).value;
      && c.sheet < |ls| && c.rect < |ls[c.sheet].freeRects|
      && Step(rules, specs, ls, p) == ls[c.sheet := Place(rules, ls[c.sheet], p, c.rect, c.rotated)]
  {
    BestIsFirstAdmissibleMinimum(rules, p, ls);
  }

  /** Appends a fresh clone of a catalog sheet to the working sheets. */
  method AppendClone(sheets: seq<Sheet>, spec: SheetSpec) returns (after: seq<Sheet>, clone: Sheet)
    requires Numbered(sheets)
    ensures |after| == |sheets| + 1 && after[|sheets|] == clone && fresh(clone)
    ensures forall s :: s in after ==> s in sheets || fresh(s)
    ensures Numbered(after)
    ensures Snapshot(after) == old(Snapshot(sheets)) + [FreshLayout(spec)]
  {
    clone := new Sheet(spec, |sheets|);
    after := sheets + [clone];
    assert after[..|sheets|] == sheets;
  }

  /** Clones every catalog sheet into a fresh working sheet. */
  method CloneSheets(specs: seq<SheetSpec>) returns (sheets: seq<Sheet>)
    ensures forall s :: s in sheets ==> fresh(s)
    ensures Numbered(sheets)
    ensures Snapshot(sheets) == FreshLayouts(specs)
  {
    ghost var target := FreshLayouts(specs);
    sheets := [];
    for i := 0 to |specs|
      invariant forall s :: s in sheets ==> fresh(s)
      invariant Numbered(sheets)
      invariant Snapshot(sheets) == target[..i]
    {
      var clone;
      sheets, clone := AppendClone(sheets, specs[i]);
      assert target[..i + 1] == target[..i] + [FreshLayout(specs[i])];
    }
    assert target[..|specs|] == target;
  }

  /** Places one part: at the best position found, or on a new sheet. */
  method PackPart(rules: Rules, specs: seq<SheetSpec>, sheets: seq<Sheet>, p: Part) returns (after: seq<Sheet>)
    requires Numbered(sheets)
    modifies set s | s in sheets
    ensures forall s :: s in after ==> s in sheets || fresh(s)
    ensures Numbered(after)
    ensures Snapshot(after) == Step(rules, specs, old(Snapshot(sheets)), p)
  {
    ghost var ls := Snapshot(sheets);
    var best := FindBest(rules, p, sheets);
    if best.Some? {
      StepPlacesAtBest(rules, specs, ls, p);
      PlaceOnSheet(rules, sheets, p, best.value.sheet, best.value.rect, best.value.rotated);
      after := sheets;
    } else {
      StepOpensSheet(rules, specs, ls, p);
      after := OpenSheet(rules, specs, sheets, p);
    }
  }

  /** Places the part on working sheet si, in free rectangle ri. */
  method PlaceOnSheet(rules: Rules, sheets: seq<Sheet>, p: Part, si: nat, ri: nat, rotated: bool)
    requires Numbered(sheets)
    requires si < |sheets| && ri < |sheets[si].freeRects|
    modifies sheets[si]
    ensures Snapshot(sheets) == old(Snapshot(sheets))[si := Place(rules, old(sheets[si].State()), p, ri, rotated)]
  {
    ghost var ls := Snapshot(sheets);
    var target := sheets[si];
    target.PlacePart(rules, p, ri, rotated);
    forall k | 0 <= k < |sheets|
      ensures Snapshot(sheets)[k] == ls[si := Place(rules, ls[si], p, ri, rotated)][k]
    {
      if k != si {
        assert sheets[k] != target;
      }
    }
  }

  /** No position is admissible: clones the first catalog sheet of matching
      material, if any, and puts the part at its origin. */
  method OpenSheet(rules: Rules, specs: seq<SheetSpec>, sheets: seq<Sheet>, p: Part) returns (after: seq<Sheet>)
    requires Numbered(sheets)
    ensures forall s :: s in after ==> s in sheets || fresh(s)
    ensures Numbered(after)
    ensures Snapshot(after) ==
      match FindTemplate(rules, p, specs)
      case Some(t) => old(Snapshot(sheets)) + [Place(rules, FreshLayout(t), p, 0, false)]
      case None => old(Snapshot(sheets))
  {
    ghost var ls := Snapshot(sheets);
    after := sheets;
    var t := FindTemplate(rules, p, specs);
    if t.Some? {
      var clone;
      after, clone := AppendClone(sheets, t.value);
      PlaceOnSheet(rules, after, p, |sheets|, 0, false);
      assert (ls + [FreshLayout(t.value)])[|sheets| := Place(rules, FreshLayout(t.value), p, 0, false)]
        == ls + [Place(rules, FreshLayout(t.value), p, 0, false)];
    }
  }

  /** The aligned placements of one sheet, counted one by one. */
  method CountAligned(rules: Rules, s: Sheet) returns (aligned: nat)
    ensures aligned == AlignedCount(rules, s.spec, s.placedParts)
  {
    aligned := 0;
    for j := 0 to |s.placedParts|
      invariant aligned == AlignedCount(rules, s.spec, s.placedParts[..j])
    {
      assert s.placedParts[..j + 1][..j] == s.placedParts[..j];
      if rules.aligned(s.placedParts[j].part, s.placedParts[j].rotated, s.spec) {
        aligned := aligned + 1;
      }
    }
    assert s.placedParts[..|s.placedParts|] == s.placedParts;
  }

  /** The efficiency and grain compliance of one used sheet. */
  method Summary(rules: Rules, s: Sheet) returns (r: SheetResult)
    requires s.placedParts != []
    ensures r == Summarize(rules, s.State())
  {
    var eff := if s.spec.area == 0 then 0.0 else 100.0 * (s.usedArea as real) / (s.spec.area as real);
    var aligned := CountAligned(rules, s);
    var compliance := 100.0 * (aligned as real) / (|s.placedParts| as real);
    r := SheetResult(s.State(), eff, compliance);
  }

  /** Summarizes the used sheets and orders them most efficient first. */
  method Report(rules: Rules, sheets: seq<Sheet>) returns (results: seq<SheetResult>)
    ensures results == Finish(rules, Snapshot(sheets))
  {
    ghost var final := Snapshot(sheets);
    var used: seq<SheetResult> := [];
    for i := 0 to |sheets|
      invariant used == UsedSheets(rules, final[..i])
    {
      assert final[..i + 1][..i] == final[..i];
      if |sheets[i].placedParts| > 0 {
        var r := Summary(rules, sheets[i]);
        used := used + [r];
      }
    }
    assert final[..|sheets|] == final;
    results := SortBy(used, ByEfficiency());
  }

  /** Places the parts, in the given order, on fresh clones of the catalog sheets. */
  method PlaceAll(rules: Rules, parts: seq<Part>, specs: seq<SheetSpec>) returns (sheets: seq<Sheet>)
    ensures Snapshot(sheets) == Run(rules, specs, FreshLayouts(specs), parts)
  {
    sheets := CloneSheets(specs);
    ghost var init := FreshLayouts(specs);
    for pi := 0 to |parts|
      invariant forall s :: s in sheets ==> fresh(s)
      invariant Numbered(sheets)
      invariant Snapshot(sheets) == Run(rules, specs, init, parts[..pi])
    {
      RunExtend(rules, specs, init, parts, pi);
      sheets := PackPart(rules, specs, sheets, parts[pi]);
    }
    assert parts[..|parts|] == parts;
  }

  /**
   * Packs the parts, in the given order, onto clones of the catalog sheets,
   * and reports the used sheets most efficient first.
   */
  method Pack(rules: Rules, parts: seq<Part>, specs: seq<SheetSpec>) returns (results: seq<SheetResult>)
    ensures results == Finish(rules, Run(rules, specs, FreshLayouts(specs), parts))
  {
    var sheets := PlaceAll(rules, parts, specs);
    results := Report(rules, sheets);
  }
}
