/**
 * frontend/js/cutlist/engine_old.js: the guillotine packer before grain,
 * material and priority handling. Every working sheet may take every part,
 * rotation depends only on the global setting, and a position is scored by
 * the leftover width and height alone.
 *
 * Its working sheets are objects that hold references to two arrays (free
 * rectangles and placements). When no free rectangle takes a part, the
 * engine pushes a shallow copy of the first working sheet. That copy shares
 * both arrays with the first sheet. The model makes the sharing explicit: a
 * store of arrays, and working sheets that point into it.
 */
module OldEngine {

  import opened Wrappers
  import opened Geometry
  import opened Sorting
  import opened Sums
  import opened Packing
  import opened PackingInvariants
  import opened PackingAccounting
  import opened PartOrdering
  import opened Catalog
  import opened Stats
  import opened Reporting
  import Engine

  datatype Settings = Settings(allowRotation: bool, cuttingBladeWidth: int, minWasteArea: int, sortingMethod: string)

  const DefaultSettings := Settings(true, 4, 10000, "area")

  // ---------------------------------------------------------------- catalog

  /** The part record addPart pushes; the fields this engine does not have
      take neutral values that its rules never read. */
  function OldPart(name: string, width: int, height: int, material: string): Part {
    Part(name, width, height, width * height, material, "", true, 0,
      EdgeBanding(false, false, false, false), false, false)
  }

  /** The sheet record addSheet pushes. */
  function OldSheet(name: string, width: int, height: int, cost: real, materialType: string): SheetSpec {
    SheetSpec(name, width, height, width * height, cost, materialType, "", 100)
  }

  // ---------------------------------------------------------------- rules

  /** getSortingFunction knows only four names; any other sorts by area. */
  function OldSortingMethod(sortingMethod: string): (m: string)
    ensures m in {"area", "maxside", "width", "height"}
    ensures m == sortingMethod || m == "area"
  {
    if sortingMethod in {"area", "maxside", "width", "height"} then sortingMethod else "area"
  }

  function OldPartOrder(sortingMethod: string): (Part, Part) -> bool {
    PartOrder(OldSortingMethod(sortingMethod))
  }

  /** calculatePlacementScore: leftover area plus 100 per unit of leftover width and height. */
  function OldScore(p: Part, r: Rect, rotated: bool): int {
    var remW := r.width - OrientedWidth(p, rotated);
    var remH := r.height - OrientedHeight(p, rotated);
    remW * remH + (remW + remH) * 100
  }

  /** A fitting position never scores below zero, and scores zero exactly when
      the part fills the rectangle. */
  lemma OldScoreZeroIffExactFit(p: Part, r: Rect, rotated: bool)
    requires Fits(p, r, rotated)
    ensures OldScore(p, r, rotated) >= 0
    ensures OldScore(p, r, rotated) == 0 <==>
      OrientedWidth(p, rotated) == r.width && OrientedHeight(p, rotated) == r.height
  {
    var remW := r.width - OrientedWidth(p, rotated);
    var remH := r.height - OrientedHeight(p, rotated);
    assert remW * remH >= 0;
  }

  /** Of two positions in rectangles of the same size, the score is the same
      whatever their place on the sheet. */
  lemma OldScoreIgnoresPosition(p: Part, r: Rect, q: Rect, rotated: bool)
    requires r.width == q.width && r.height == q.height
    ensures OldScore(p, r, rotated) == OldScore(p, q, rotated)
  {
  }

  /** Any material matches, rotation is the global setting, and there is no grain. */
  function OldRules(s: Settings): Rules {
    Rules((partMaterial: string, sheetMaterial: string) => true,
          (p: Part, sheet: SheetSpec) => s.allowRotation,
          (p: Part, rotated: bool, sheet: SheetSpec) => true,
          (p: Part, r: Rect, rotated: bool, aligned: bool, sheet: SheetSpec) => OldScore(p, r, rotated) as real,
          s.minWasteArea)
  }

  // ---------------------------------------------------------------- working sheets and their arrays

  /** A working sheet object: its catalog record and used area, and the
      indices of the arrays that hold its free rectangles and its placements. */
  datatype WorkSheet = WorkSheet(spec: SheetSpec, rects: nat, placed: nat, usedArea: int)

  /** The arrays the working sheets point to. */
  datatype Store = Store(rectArrays: seq<seq<Rect>>, placementArrays: seq<seq<Placement>>)

  datatype Work = Work(sheets: seq<WorkSheet>, store: Store)

  predicate WellFormed(w: Work) {
    forall i :: 0 <= i < |w.sheets| ==>
      w.sheets[i].rects < |w.store.rectArrays| && w.sheets[i].placed < |w.store.placementArrays|
  }

  /** No two working sheets share an array. */
  predicate Unshared(w: Work) {
    forall i, j :: 0 <= i < j < |w.sheets| ==>
      w.sheets[i].rects != w.sheets[j].rects && w.sheets[i].placed != w.sheets[j].placed
  }

  /** What working sheet i shows: its own record and used area, and the
      current contents of the arrays it points to. */
  function View(w: Work, i: nat): Layout
    requires WellFormed(w) && i < |w.sheets|
  {
    var sh := w.sheets[i];
    Layout(sh.spec, w.store.rectArrays[sh.rects], w.store.placementArrays[sh.placed], sh.usedArea)
  }

  function Views(w: Work): (ls: seq<Layout>)
    requires WellFormed(w)
    ensures |ls| == |w.sheets| && forall i :: 0 <= i < |ls| ==> ls[i] == View(w, i)
  {
    seq(|w.sheets|, i requires 0 <= i < |w.sheets| && WellFormed(w) => View(w, i))
  }

  /** The working sheets at the start: one per catalog sheet, each with its
      own two arrays. */
  function CloneCatalog(specs: seq<SheetSpec>): (w: Work)
    ensures WellFormed(w) && Unshared(w) && |w.sheets| == |specs|
  {
    Work(seq(|specs|, i requires 0 <= i < |specs| => WorkSheet(specs[i], i, i, 0)),
         Store(seq(|specs|, i requires 0 <= i < |specs| => [SheetRect(specs[i])]),
               seq(|specs|, i => [])))
  }

  /** The cloned working sheets show fresh layouts of the catalog sheets. */
  lemma CloneCatalogViews(specs: seq<SheetSpec>)
    ensures Views(CloneCatalog(specs)) == FreshLayouts(specs)
  {
    var ls := Views(CloneCatalog(specs));
    forall i | 0 <= i < |specs| ensures ls[i] == FreshLayout(specs[i]) {
    }
  }

  /** placePartInSheet on sheet si: the placement is appended to the sheet's
      placement array; the used rectangle is spliced out of the sheet's free
      array and the leftover pieces pushed onto it; the sheet then points to
      a new array holding the pieces that survive the minimum-waste filter. */
  function PlaceIn(rules: Rules, w: Work, si: nat, p: Part, ri: nat, rotated: bool): (w': Work)
    requires WellFormed(w) && si < |w.sheets| && ri < |w.store.rectArrays[w.sheets[si].rects]|
    ensures WellFormed(w') && |w'.sheets| == |w.sheets|
  {
    var sh := w.sheets[si];
    var free := w.store.rectArrays[sh.rects];
    var r := free[ri];
    var width := OrientedWidth(p, rotated);
    var height := OrientedHeight(p, rotated);
    var spliced := RemoveAt(free, ri) + Split(r, width, height);
    var pl := Placement(p, r.x, r.y, rotated, width, height, rules.aligned(p, rotated, sh.spec));
    var store := Store(
      w.store.rectArrays[sh.rects := spliced] + [Prune(spliced, rules.minWasteArea)],
      w.store.placementArrays[sh.placed := w.store.placementArrays[sh.placed] + [pl]]);
    Work(w.sheets[si := sh.(rects := |w.store.rectArrays|, usedArea := sh.usedArea + width * height)], store)
  }

  /** Two working sheets that share no array. */
  predicate Apart(w: Work, i: nat, j: nat)
    requires i < |w.sheets| && j < |w.sheets|
  {
    w.sheets[i].rects != w.sheets[j].rects && w.sheets[i].placed != w.sheets[j].placed
  }

  /** The sheet placed on shows the shared guillotine placement, and a sheet
      sharing no array with it shows what it showed before. */
  lemma PlaceInView(rules: Rules, w: Work, si: nat, p: Part, ri: nat, rotated: bool)
    requires WellFormed(w) && si < |w.sheets| && ri < |w.store.rectArrays[w.sheets[si].rects]|
    ensures var w' := PlaceIn(rules, w, si, p, ri, rotated);
      && View(w', si) == Place(rules, View(w, si), p, ri, rotated)
      && forall j :: 0 <= j < |w.sheets| && j != si && Apart(w, si, j) ==> View(w', j) == View(w, j)
  {
  }

  /** On working sheets that share nothing, placing on one of them is the
      shared packer's placement, and they still share nothing. */
  lemma PlaceInUnshared(rules: Rules, w: Work, si: nat, p: Part, ri: nat, rotated: bool)
    requires WellFormed(w) && Unshared(w) && si < |w.sheets| && ri < |w.store.rectArrays[w.sheets[si].rects]|
    ensures var w' := PlaceIn(rules, w, si, p, ri, rotated);
      && Unshared(w')
      && Views(w') == Views(w)[si := Place(rules, View(w, si), p, ri, rotated)]
  {
    var w' := PlaceIn(rules, w, si, p, ri, rotated);
    PlaceInView(rules, w, si, p, ri, rotated);
    forall j | 0 <= j < |w.sheets| && j != si ensures View(w', j) == View(w, j) {
      if j < si {
        assert Apart(w, si, j);
      } else {
        assert Apart(w, si, j);
      }
    }
  }

  // ---------------------------------------------------------------- optimisation as written

  /** The free array of the first working sheet. */
  function FirstFree(w: Work): seq<Rect>
    requires WellFormed(w) && |w.sheets| > 0
  {
    w.store.rectArrays[w.sheets[0].rects]
  }

  /** The shallow copy pushed when no free rectangle takes a part: the same
      record, used area and arrays as the first working sheet. */
  function PushCopyOfFirst(w: Work): (w': Work)
    requires WellFormed(w) && |w.sheets| > 0
    ensures WellFormed(w') && |w'.sheets| == |w.sheets| + 1
  {
    w.(sheets := w.sheets + [w.sheets[0]])
  }

  /** One part: the best position over all working sheets (the first of the
      lowest score), otherwise the pushed copy of the first working sheet,
      with the part put unrotated at its first free rectangle when that
      rectangle takes it in either orientation. None is the TypeError of
      reading the first free rectangle of a copy that has none. */
  function OldStep(s: Settings, w: Work, p: Part): (r: Option<Work>)
    requires WellFormed(w) && |w.sheets| > 0
    ensures r.Some? ==> WellFormed(r.value) && |r.value.sheets| >= |w.sheets|
  {
    var rules := OldRules(s);
    var best := BestOf(AllCandidates(rules, p, Views(w)));
    if best.Some? then
      var c := best.value;
      if c.sheet < |w.sheets| && c.rect < |w.store.rectArrays[w.sheets[c.sheet].rects]| then
        Some(PlaceIn(rules, w, c.sheet, p, c.rect, c.rotated))
      else Some(w)  // cannot happen: every candidate is admissible
    else
      var copy := PushCopyOfFirst(w);
      var first := FirstFree(w);
      if first == [] then None
      else if Fits(p, first[0], false) || (s.allowRotation && Fits(p, first[0], true)) then
        Some(PlaceIn(rules, copy, |w.sheets|, p, 0, false))
      else Some(copy)
  }

  function OldRun(s: Settings, w: Work, parts: seq<Part>): (r: Option<Work>)
    requires WellFormed(w) && |w.sheets| > 0
    ensures r.Some? ==> WellFormed(r.value) && |r.value.sheets| >= |w.sheets|
  {
    if parts == [] then Some(w)
    else match OldRun(s, w, parts[..|parts| - 1])
      case None => None
      case Some(w') => OldStep(s, w', parts[|parts| - 1])
  }

  /** The order calculateOptimization places parts in. */
  function OldPlacementOrder(s: Settings, parts: seq<Part>): seq<Part> {
    SortBy(Unplaced(parts), OldPartOrder(s.sortingMethod))
  }

  /** calculateOptimization as written: no parts or no sheets give no
      results; otherwise the used working sheets, most efficient first, or
      None when the run throws. */
  function OldOptimize(s: Settings, parts: seq<Part>, specs: seq<SheetSpec>): Option<seq<SheetResult>> {
    if parts == [] || specs == [] then Some([])
    else
      match OldRun(s, CloneCatalog(specs), OldPlacementOrder(s, parts))
      case None => None
      case Some(w) => Some(Finish(OldRules(s), Views(w)))
  }

  /** When some free rectangle takes the part and no sheet shares an array,
      a step is the shared packer's step, and still no sheet shares an array. */
  lemma OldStepWithCandidate(s: Settings, specs: seq<SheetSpec>, w: Work, p: Part)
    requires WellFormed(w) && Unshared(w) && |w.sheets| > 0
    requires BestOf(AllCandidates(OldRules(s), p, Views(w))).Some?
    ensures OldStep(s, w, p).Some?
    ensures Unshared(OldStep(s, w, p).value)
    ensures Views(OldStep(s, w, p).value) == Step(OldRules(s), specs, Views(w), p)
  {
    var rules := OldRules(s);
    var c := BestOf(AllCandidates(rules, p, Views(w))).value;
    BestIsFirstAdmissibleMinimum(rules, p, Views(w));
    PlaceInUnshared(rules, w, c.sheet, p, c.rect, c.rotated);
  }

  /** The new-sheet path never places the part: the first free rectangle of
      the copy is the first free rectangle of the first working sheet, which
      the search already found unable to take the part. The step only pushes
      the copy, or throws when there is no first free rectangle. */
  lemma FallbackNeverPlaces(s: Settings, w: Work, p: Part)
    requires WellFormed(w) && |w.sheets| > 0
    requires BestOf(AllCandidates(OldRules(s), p, Views(w))).None?
    ensures OldStep(s, w, p) == if FirstFree(w) == [] then None else Some(PushCopyOfFirst(w))
  {
    var rules := OldRules(s);
    var ls := Views(w);
    BestIsFirstAdmissibleMinimum(rules, p, ls);
    var first := FirstFree(w);
    if first != [] {
      assert ls[0].freeRects == first;
      var straight := Candidate(0, 0, false, CandidateScore(rules, p, ls[0], 0, false));
      var turned := Candidate(0, 0, true, CandidateScore(rules, p, ls[0], 0, true));
      assert Fits(p, first[0], false) ==> Admissible(rules, p, ls, straight);
      assert s.allowRotation && Fits(p, first[0], true) ==> Admissible(rules, p, ls, turned);
    }
  }

  // ---------------------------------------------------------------- the corrected new-sheet path

  /** The orientation in which a fresh copy of the sheet takes the part:
      unrotated if it fits so, else rotated when rotation is on and it fits so. */
  function FreshFit(s: Settings, sheet: SheetSpec, p: Part): (o: Option<bool>)
    ensures o.Some? ==> Fits(p, SheetRect(sheet), o.value) && (o.value ==> s.allowRotation)
    ensures o.None? <==> !Fits(p, SheetRect(sheet), false) && !(s.allowRotation && Fits(p, SheetRect(sheet), true))
  {
    if Fits(p, SheetRect(sheet), false) then Some(false)
    else if s.allowRotation && Fits(p, SheetRect(sheet), true) then Some(true)
    else None
  }

  /** One part with the new-sheet path the code evidently intends: a fresh
      copy of the first catalog sheet is pushed, and the part is put at its
      origin in an orientation that fits, if there is one. */
  function FixedStep(s: Settings, specs: seq<SheetSpec>, ls: seq<Layout>, p: Part): seq<Layout>
    requires specs != []
  {
    var rules := OldRules(s);
    var best := BestOf(AllCandidates(rules, p, ls));
    if best.Some? then Step(rules, specs, ls, p)
    else
      match FreshFit(s, specs[0], p)
      case Some(rotated) => ls + [Place(rules, FreshLayout(specs[0]), p, 0, rotated)]
      case None => ls + [FreshLayout(specs[0])]
  }

  function FixedRun(s: Settings, specs: seq<SheetSpec>, ls: seq<Layout>, parts: seq<Part>): seq<Layout>
    requires specs != []
  {
    if parts == [] then ls
    else FixedStep(s, specs, FixedRun(s, specs, ls, parts[..|parts| - 1]), parts[|parts| - 1])
  }

  lemma FixedRunExtend(s: Settings, specs: seq<SheetSpec>, ls: seq<Layout>, parts: seq<Part>, i: nat)
    requires specs != [] && i < |parts|
    ensures FixedRun(s, specs, ls, parts[..i + 1]) == FixedStep(s, specs, FixedRun(s, specs, ls, parts[..i]), parts[i])
  {
    assert parts[..i + 1][..i] == parts[..i];
  }

  /** The corrected report: the used working sheets, most efficient first. */
  function FixedReport(s: Settings, specs: seq<SheetSpec>, order: seq<Part>): seq<SheetResult>
    requires specs != []
  {
    Finish(OldRules(s), FixedRun(s, specs, FreshLayouts(specs), order))
  }

  /** 1 for a part a fresh copy of the sheet takes, else 0. */
  function FreshFitIndicator(s: Settings, sheet: SheetSpec): Part -> int {
    (p: Part) => if FreshFit(s, sheet, p).Some? then 1 else 0
  }

  /** A corrected step keeps every working sheet free of overlaps. */
  lemma FixedStepKeepsDisjointness(s: Settings, specs: seq<SheetSpec>, ls: seq<Layout>, p: Part)
    requires specs != [] && PositiveSize(p) && forall l :: l in ls ==> Disjointness(l)
    ensures forall l :: l in FixedStep(s, specs, ls, p) ==> Disjointness(l)
  {
    var rules := OldRules(s);
    if BestOf(AllCandidates(rules, p, ls)).Some? {
      StepKeepsDisjointness(rules, specs, ls, p);
    } else {
      FreshLayoutDisjointness(specs[0]);
      var o := FreshFit(s, specs[0], p);
      if o.Some? {
        PlaceKeepsDisjointness(rules, FreshLayout(specs[0]), p, 0, o.value);
      }
    }
  }

  /** A corrected step keeps every working sheet accounted. */
  lemma FixedStepAccounted(s: Settings, specs: seq<SheetSpec>, ls: seq<Layout>, p: Part)
    requires specs != [] && forall l :: l in ls ==> Accounted(OldRules(s), specs, l)
    ensures forall l :: l in FixedStep(s, specs, ls, p) ==> Accounted(OldRules(s), specs, l)
  {
    var rules := OldRules(s);
    if BestOf(AllCandidates(rules, p, ls)).Some? {
      StepAccounted(rules, specs, ls, p);
    } else {
      var blank := FreshLayout(specs[0]);
      FreshLayoutsAccounted(rules, specs);
      assert blank == FreshLayouts(specs)[0];
      var o := FreshFit(s, specs[0], p);
      if o.Some? {
        PlaceAccounted(rules, specs, blank, p, 0, o.value);
      }
    }
  }

  /** A corrected step adds exactly one placement when it places the part
      and none otherwise, and it always places a part that a fresh copy of
      the first catalog sheet takes. */
  lemma FixedStepCount(s: Settings, specs: seq<SheetSpec>, ls: seq<Layout>, p: Part)
    requires specs != [] && forall l :: l in ls ==> Accounted(OldRules(s), specs, l)
    ensures var n := PlacedCount(FixedStep(s, specs, ls, p)) - PlacedCount(ls);
      && 0 <= n <= 1
      && (FreshFit(s, specs[0], p).Some? ==> n == 1)
  {
    var rules := OldRules(s);
    if BestOf(AllCandidates(rules, p, ls)).Some? {
      StepAccounted(rules, specs, ls, p);
    } else {
      var blank := FreshLayout(specs[0]);
      var o := FreshFit(s, specs[0], p);
      if o.Some? {
        PlacedCountAppend(ls, Place(rules, blank, p, 0, o.value));
      } else {
        PlacedCountAppend(ls, blank);
      }
    }
  }

  /** Over a corrected run from fresh copies of the catalog, every working
      sheet is accounted. */
  lemma {:induction false} FixedRunAccounted(s: Settings, specs: seq<SheetSpec>, parts: seq<Part>)
    requires specs != []
    ensures forall l :: l in FixedRun(s, specs, FreshLayouts(specs), parts) ==> Accounted(OldRules(s), specs, l)
  {
    if parts == [] {
      FreshLayoutsAccounted(OldRules(s), specs);
    } else {
      var init := parts[..|parts| - 1];
      FixedRunAccounted(s, specs, init);
      FixedStepAccounted(s, specs, FixedRun(s, specs, FreshLayouts(specs), init), parts[|parts| - 1]);
    }
  }

  /** The placements of a corrected run number at most one per part and at
      least one per part that a fresh copy of the first catalog sheet takes. */
  lemma {:induction false} FixedRunCount(s: Settings, specs: seq<SheetSpec>, parts: seq<Part>)
    requires specs != []
    ensures var n := PlacedCount(FixedRun(s, specs, FreshLayouts(specs), parts));
      SumOf(parts, FreshFitIndicator(s, specs[0])) <= n <= |parts|
  {
    if parts == [] {
      FreshLayoutsAccounted(OldRules(s), specs);
    } else {
      var init := parts[..|parts| - 1];
      var last := parts[|parts| - 1];
      assert init + [last] == parts;
      FixedRunCount(s, specs, init);
      FixedRunAccounted(s, specs, init);
      FixedRunSnocCount(s, specs, init, last);
      SumOfSnoc(init, last, FreshFitIndicator(s, specs[0]));
    }
  }

  /** One more part adds at most one placement, and one when a fresh copy of
      the first catalog sheet takes it. */
  lemma FixedRunSnocCount(s: Settings, specs: seq<SheetSpec>, init: seq<Part>, last: Part)
    requires specs != []
    requires forall l :: l in FixedRun(s, specs, FreshLayouts(specs), init) ==> Accounted(OldRules(s), specs, l)
    ensures var n := PlacedCount(FixedRun(s, specs, FreshLayouts(specs), init + [last]))
                     - PlacedCount(FixedRun(s, specs, FreshLayouts(specs), init));
      && 0 <= n <= 1
      && (FreshFit(s, specs[0], last).Some? ==> n == 1)
  {
    var parts := init + [last];
    assert parts[..|parts| - 1] == init;
    FixedStepCount(s, specs, FixedRun(s, specs, FreshLayouts(specs), init), last);
  }

  /** A corrected run of parts of positive size never overlaps placements. */
  lemma {:induction false} FixedRunKeepsDisjointness(s: Settings, specs: seq<SheetSpec>, parts: seq<Part>)
    requires specs != [] && forall p :: p in parts ==> PositiveSize(p)
    ensures forall l :: l in FixedRun(s, specs, FreshLayouts(specs), parts) ==> Disjointness(l)
  {
    if parts == [] {
      FreshLayoutsDisjointness(specs);
    } else {
      var init := parts[..|parts| - 1];
      FixedRunKeepsDisjointness(s, specs, init);
      FixedStepKeepsDisjointness(s, specs, FixedRun(s, specs, FreshLayouts(specs), init), parts[|parts| - 1]);
    }
  }

  /** The corrected report lists used sheets most efficient first; its
      placements number at most one per part and at least one per part a
      fresh copy of the first catalog sheet takes; and with parts of
      positive size no two placements on a reported sheet overlap. */
  lemma FixedReportProperties(s: Settings, specs: seq<SheetSpec>, order: seq<Part>)
    requires specs != []
    ensures var rs := FixedReport(s, specs, order);
      && (forall i, j :: 0 <= i < j < |rs| ==> rs[i].efficiency >= rs[j].efficiency)
      && (forall r :: r in rs ==> r.layout.placedParts != [] && Accounted(OldRules(s), specs, r.layout))
      && SumOf(order, FreshFitIndicator(s, specs[0])) <= SumOf(rs, PlacedOf) <= |order|
      && ((forall p :: p in order ==> PositiveSize(p)) ==> forall r :: r in rs ==> Disjointness(r.layout))
  {
    var rules := OldRules(s);
    var ls := FixedRun(s, specs, FreshLayouts(specs), order);
    FinishSortedPermutation(rules, ls);
    FixedRunAccounted(s, specs, order);
    FixedRunCount(s, specs, order);
    UsedSheetsPlaced(rules, ls);
    SumOfPermutation(Finish(rules, ls), UsedSheets(rules, ls), PlacedOf);
    if forall p :: p in order ==> PositiveSize(p) {
      FixedRunKeepsDisjointness(s, specs, order);
    }
  }

  // ---------------------------------------------------------------- corrected packing on working-sheet objects

  /** One part on the working-sheet objects, with the corrected new-sheet path. */
  method FixedPackPart(s: Settings, specs: seq<SheetSpec>, sheets: seq<Sheet>, p: Part) returns (after: seq<Sheet>)
    requires specs != [] && Numbered(sheets)
    modifies set sh | sh in sheets
    ensures forall sh :: sh in after ==> sh in sheets || fresh(sh)
    ensures Numbered(after)
    ensures Snapshot(after) == FixedStep(s, specs, old(Snapshot(sheets)), p)
  {
    var rules := OldRules(s);
    ghost var ls := Snapshot(sheets);
    var best := FindBest(rules, p, sheets);
    if best.Some? {
      StepPlacesAtBest(rules, specs, ls, p);
      PlaceOnSheet(rules, sheets, p, best.value.sheet, best.value.rect, best.value.rotated);
      after := sheets;
    } else {
      var copy;
      after, copy := AppendClone(sheets, specs[0]);
      var o := FreshFit(s, specs[0], p);
      if o.Some? {
        PlaceOnSheet(rules, after, p, |sheets|, 0, o.value);
        assert (ls + [FreshLayout(specs[0])])[|sheets| := Place(rules, FreshLayout(specs[0]), p, 0, o.value)]
          == ls + [Place(rules, FreshLayout(specs[0]), p, 0, o.value)];
      }
    }
  }

  /** The parts, in the given order, on fresh copies of the catalog sheets. */
  method FixedPlaceAll(s: Settings, parts: seq<Part>, specs: seq<SheetSpec>) returns (sheets: seq<Sheet>)
    requires specs != []
    ensures Snapshot(sheets) == FixedRun(s, specs, FreshLayouts(specs), parts)
  {
    sheets := CloneSheets(specs);
    ghost var init := FreshLayouts(specs);
    for pi := 0 to |parts|
      invariant forall sh :: sh in sheets ==> fresh(sh)
      invariant Numbered(sheets)
      invariant Snapshot(sheets) == FixedRun(s, specs, init, parts[..pi])
    {
      FixedRunExtend(s, specs, init, parts, pi);
      sheets := FixedPackPart(s, specs, sheets, parts[pi]);
    }
    assert parts[..|parts|] == parts;
  }

  // ---------------------------------------------------------------- the engine object

  datatype EngineState = EngineState(
    parts: seq<Part>, sheets: seq<SheetSpec>, results: seq<SheetResult>, settings: Settings)

  const InitialState := EngineState([], [], [], DefaultSettings)

  /** calculateOptimization, with the corrected new-sheet path: the new
      state and the results. */
  function Optimize(st: EngineState): (EngineState, seq<SheetResult>) {
    if st.parts == [] || st.sheets == [] then (st, [])
    else
      var rs := FixedReport(st.settings, st.sheets, OldPlacementOrder(st.settings, st.parts));
      (st.(results := rs), rs)
  }

  /** 1 for a part a fresh copy of the engine's first catalog sheet takes. */
  function TakenByFirstSheet(st: EngineState): Part -> int
    requires st.sheets != []
  {
    FreshFitIndicator(st.settings, st.sheets[0])
  }

  lemma {:induction false} UnplacedFreshFit(s: Settings, sheet: SheetSpec, parts: seq<Part>)
    ensures SumOf(Unplaced(parts), FreshFitIndicator(s, sheet)) == SumOf(parts, FreshFitIndicator(s, sheet))
  {
    if parts != [] {
      var init := parts[..|parts| - 1];
      var last := parts[|parts| - 1];
      UnplacedFreshFit(s, sheet, init);
      SumOfSnoc(Unplaced(init), last.(placed := false), FreshFitIndicator(s, sheet));
      assert Unplaced(parts) == Unplaced(init) + [last.(placed := false)];
    }
  }

  /** What an optimisation of the engine's own parts reports: most efficient
      first, at most one placement per part, at least one per part the first
      catalog sheet takes, and no overlaps when every part has a positive size. */
  lemma OptimizeReport(st: EngineState)
    requires st.parts != [] && st.sheets != []
    ensures var rs := Optimize(st).1;
      && (forall i, j :: 0 <= i < j < |rs| ==> rs[i].efficiency >= rs[j].efficiency)
      && (forall r :: r in rs ==> r.layout.placedParts != [] && Accounted(OldRules(st.settings), st.sheets, r.layout))
      && SumOf(st.parts, TakenByFirstSheet(st)) <= SumOf(rs, PlacedOf) <= |st.parts|
      && ((forall p :: p in st.parts ==> PositiveSize(p)) ==> forall r :: r in rs ==> Disjointness(r.layout))
  {
    var order := OldPlacementOrder(st.settings, st.parts);
    FixedReportProperties(st.settings, st.sheets, order);
    SumOfPermutation(order, Unplaced(st.parts), TakenByFirstSheet(st));
    UnplacedFreshFit(st.settings, st.sheets[0], st.parts);
    OrderOfUnplaced(st);
  }

  /** The placement order holds the parts, unplaced: no part in it is marked placed. */
  lemma OrderOfUnplaced(st: EngineState)
    ensures var order := OldPlacementOrder(st.settings, st.parts);
      && (forall p :: p in order ==> p.width == p.(placed := true).width && p.(placed := false) == p)
      && ((forall p :: p in st.parts ==> PositiveSize(p)) ==> forall p :: p in order ==> PositiveSize(p))
  {
    var order := OldPlacementOrder(st.settings, st.parts);
    forall p | p in order ensures p.width == p.(placed := true).width && p.(placed := false) == p {
      assert p in multiset(Unplaced(st.parts));
    }
    if forall p :: p in st.parts ==> PositiveSize(p) {
      forall p | p in order ensures PositiveSize(p) {
        assert p in multiset(Unplaced(st.parts));
        var i :| 0 <= i < |st.parts| && Unplaced(st.parts)[i] == p;
        assert st.parts[i] in st.parts;
      }
    }
  }

  datatype ProjectData = ProjectData(
    version: string, settings: Option<Settings>,
    parts: Option<seq<Part>>, sheets: Option<seq<SheetSpec>>, results: Option<seq<SheetResult>>)

  const ExportVersion := "2.0"

  function Export(st: EngineState): ProjectData {
    ProjectData(ExportVersion, Some(st.settings), Some(st.parts), Some(st.sheets), Some(st.results))
  }

  predicate KnownVersion(v: string) {
    v == "2.0" || v == "1.0"
  }

  /** importProject: the settings are replaced as a whole when present. */
  function Import(st: EngineState, d: ProjectData): (EngineState, bool) {
    if KnownVersion(d.version) then
      (EngineState(Or(d.parts, []), Or(d.sheets, []), Or(d.results, []), Or(d.settings, st.settings)), true)
    else (st, false)
  }

  /** Importing an exported project restores the exporting engine's state. */
  lemma ImportExportRoundTrip(st: EngineState, current: EngineState)
    ensures Import(current, Export(st)) == (st, true)
  {
  }

  /** Only versions 2.0 and 1.0 are accepted; any other leaves the state as
      it was; an accepted document without settings keeps the current ones. */
  lemma ImportAcceptsKnownVersionsOnly(st: EngineState, d: ProjectData)
    ensures Import(st, d).1 <==> d.version in {"2.0", "1.0"}
    ensures !KnownVersion(d.version) ==> Import(st, d).0 == st
    ensures KnownVersion(d.version) && d.settings.None? ==> Import(st, d).0.settings == st.settings
  {
  }

  /** The old CutListEngine object; ids are not modelled. */
  class CutListEngine {
    var parts: seq<Part>
    var sheets: seq<SheetSpec>
    var results: seq<SheetResult>
    var settings: Settings

    function State(): EngineState
      reads this
    {
      EngineState(parts, sheets, results, settings)
    }

    constructor ()
      ensures State() == InitialState
    {
      parts := [];
      sheets := [];
      results := [];
      settings := DefaultSettings;
    }

    /** addPart: quantity copies (default one, none below one) of the part,
        in material ПДЧ 18мм unless another is given. */
    method AddPart(name: string, width: int, height: int, quantity: Option<int>, material: Option<string>)
      returns (all: seq<Part>)
      modifies this
      ensures parts == old(parts) + Copies(OldPart(name, width, height, Or(material, DefaultMaterial)), Or(quantity, 1))
      ensures all == parts
      ensures State() == old(State()).(parts := parts)
    {
      var q := Or(quantity, 1);
      var part := OldPart(name, width, height, Or(material, DefaultMaterial));
      var i := 0;
      while i < q
        invariant 0 <= i && (i == 0 || i <= q)
        invariant parts == old(parts) + Copies(part, i)
        invariant State() == old(State()).(parts := parts)
      {
        parts := parts + [part];
        i := i + 1;
      }
      all := parts;
    }

    /** addSheet: cost 0 and material ПДЧ 18мм unless given. */
    method AddSheet(name: string, width: int, height: int, cost: Option<real>, materialType: Option<string>)
      returns (all: seq<SheetSpec>)
      modifies this
      ensures sheets == old(sheets) + [OldSheet(name, width, height, Or(cost, 0.0), Or(materialType, DefaultMaterial))]
      ensures all == sheets
      ensures State() == old(State()).(sheets := sheets)
    {
      sheets := sheets + [OldSheet(name, width, height, Or(cost, 0.0), Or(materialType, DefaultMaterial))];
      all := sheets;
    }

    /** calculateOptimization, with the corrected new-sheet path. */
    method CalculateOptimization() returns (rs: seq<SheetResult>)
      modifies this
      ensures (State(), rs) == Optimize(old(State()))
    {
      if |parts| == 0 || |sheets| == 0 {
        return [];
      }
      var order := SortBy(Unplaced(parts), OldPartOrder(settings.sortingMethod));
      var working := FixedPlaceAll(settings, order, sheets);
      rs := Report(OldRules(settings), working);
      results := rs;
    }

    /** getStatistics: optimises first when there are parts but no results;
        the cost of a sheet is prorated by its used area. */
    method GetStatistics() returns (stats: Statistics)
      modifies this
      ensures var st := old(State());
        State() == (if st.results == [] && st.parts != [] then Optimize(st).0 else st)
      ensures stats == StatisticsOf(|parts|, results, Engine.CostShare)
    {
      if |results| == 0 && |parts| > 0 {
        var _ := CalculateOptimization();
      }
      stats := Tally(|parts|, results, Engine.CostShare);
    }

    /** exportProject. */
    method ExportProject() returns (d: ProjectData)
      ensures d == Export(State())
    {
      d := ProjectData(ExportVersion, Some(settings), Some(parts), Some(sheets), Some(results));
    }

    /** importProject. */
    method ImportProject(d: ProjectData) returns (ok: bool)
      modifies this
      ensures (State(), ok) == Import(old(State()), d)
    {
      if KnownVersion(d.version) {
        settings := Or(d.settings, settings);
        parts := Or(d.parts, []);
        sheets := Or(d.sheets, []);
        results := Or(d.results, []);
        ok := true;
      } else {
        ok := false;
      }
    }
  }
}
