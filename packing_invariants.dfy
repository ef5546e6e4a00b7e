/**
 * What the guillotine packer keeps true of its working sheets, whatever the
 * engine's rules: placed parts never overlap each other or a free rectangle,
 * and free rectangles stay on the sheet and apart from each other.
 */
module PackingInvariants {

  import opened Wrappers
  import opened Geometry
  import opened Packing

  // ---------------------------------------------------------------- geometry

  predicate FootprintsDisjoint(pls: seq<Placement>) {
    forall i, j :: 0 <= i < j < |pls| ==> Disjoint(Footprint(pls[i]), Footprint(pls[j]))
  }

  predicate FreeAvoidsPlaced(free: seq<Rect>, pls: seq<Placement>) {
    forall i, j :: 0 <= i < |free| && 0 <= j < |pls| ==> Disjoint(free[i], Footprint(pls[j]))
  }

  predicate FreeOnSheet(free: seq<Rect>, s: SheetSpec) {
    forall i :: 0 <= i < |free| ==> Within(free[i], SheetRect(s))
  }

  /** No two placed parts overlap, no free rectangle overlaps a placed part or
      another free rectangle, and every free rectangle lies on the sheet. */
  predicate Disjointness(l: Layout) {
    && PairwiseDisjoint(l.freeRects)
    && FootprintsDisjoint(l.placedParts)
    && FreeAvoidsPlaced(l.freeRects, l.placedParts)
    && FreeOnSheet(l.freeRects, l.sheet)
  }

  predicate PositiveSize(p: Part) {
    p.width > 0 && p.height > 0
  }

  lemma FreshLayoutDisjointness(s: SheetSpec)
    ensures Disjointness(FreshLayout(s))
  {
  }

  /** The rectangles that remain after consuming free rectangle ri are pairwise
      disjoint, lie on the sheet and avoid the earlier placements. */
  lemma RemainderDisjointness(l: Layout, ri: nat, w: int, h: int)
    requires Disjointness(l) && ri < |l.freeRects| && w > 0 && h > 0
    ensures var r := l.freeRects[ri];
      var f := RemoveAt(l.freeRects, ri) + Split(r, w, h);
      && PairwiseDisjoint(f)
      && FreeAvoidsPlaced(f, l.placedParts)
      && FreeOnSheet(f, l.sheet)
  {
    var r := l.freeRects[ri];
    var kept := RemoveAt(l.freeRects, ri);
    var pieces := Split(r, w, h);
    var f := kept + pieces;
    SplitPiecesInside(r, w, h);
    forall i, j | 0 <= i < j < |f| ensures Disjoint(f[i], f[j]) {
      if j < |kept| {
        var a := if i < ri then i else i + 1;
        var b := if j < ri then j else j + 1;
        assert a < b;
      } else if i < |kept| {
        var a := if i < ri then i else i + 1;
        assert Disjoint(l.freeRects[a], r);
        assert f[j] in pieces;
        WithinDisjoint(f[j], r, l.freeRects[a]);
      } else {
        assert f[i] == pieces[i - |kept|] && f[j] == pieces[j - |kept|];
      }
    }
    forall i, j | 0 <= i < |f| && 0 <= j < |l.placedParts| ensures Disjoint(f[i], Footprint(l.placedParts[j])) {
      if i >= |kept| {
        assert f[i] in pieces;
        WithinDisjoint(f[i], r, Footprint(l.placedParts[j]));
      } else {
        var a := if i < ri then i else i + 1;
        assert f[i] == l.freeRects[a];
      }
    }
    forall i | 0 <= i < |f| ensures Within(f[i], SheetRect(l.sheet)) {
      if i >= |kept| {
        assert f[i] in pieces;
        WithinTransitive(f[i], r, SheetRect(l.sheet));
      } else {
        var a := if i < ri then i else i + 1;
        assert f[i] == l.freeRects[a];
      }
    }
  }

  /** Where the part is placed: the origin of the consumed free rectangle,
      in its oriented size. */
  lemma PlacedFootprint(rules: Rules, l: Layout, p: Part, ri: nat, rotated: bool)
    requires ri < |l.freeRects|
    ensures var l' := Place(rules, l, p, ri, rotated);
      && |l'.placedParts| == |l.placedParts| + 1
      && l'.placedParts[..|l.placedParts|] == l.placedParts
      && Footprint(l'.placedParts[|l.placedParts|])
         == PlacedAt(l.freeRects[ri], OrientedWidth(p, rotated), OrientedHeight(p, rotated))
  {
  }

  /** The new part overlaps no earlier part: it lies inside a free rectangle,
      or the sheet had no parts. */
  lemma PlaceKeepsFootprintsDisjoint(rules: Rules, l: Layout, p: Part, ri: nat, rotated: bool)
    requires FootprintsDisjoint(l.placedParts) && FreeAvoidsPlaced(l.freeRects, l.placedParts)
    requires ri < |l.freeRects|
    requires Fits(p, l.freeRects[ri], rotated) || l.placedParts == []
    ensures FootprintsDisjoint(Place(rules, l, p, ri, rotated).placedParts)
  {
    var pls := Place(rules, l, p, ri, rotated).placedParts;
    var n := |l.placedParts|;
    var r := l.freeRects[ri];
    var pr := PlacedAt(r, OrientedWidth(p, rotated), OrientedHeight(p, rotated));
    PlacedFootprint(rules, l, p, ri, rotated);
    forall i, j | 0 <= i < j < |pls| ensures Disjoint(Footprint(pls[i]), Footprint(pls[j])) {
      assert pls[i] == l.placedParts[i];
      if j == n {
        assert Within(pr, r);
        assert Disjoint(r, Footprint(l.placedParts[i]));
        WithinDisjoint(pr, r, Footprint(l.placedParts[i]));
      } else {
        assert pls[j] == l.placedParts[j];
      }
    }
  }

  /** The new part overlaps none of the rectangles left free before pruning:
      the split pieces lie beside it, and any other free rectangle is apart
      from the consumed one, which holds the part when it fits. */
  lemma RemainderAvoidsNewPart(l: Layout, ri: nat, w: int, h: int)
    requires Disjointness(l) && ri < |l.freeRects| && w > 0 && h > 0
    requires (w <= l.freeRects[ri].width && h <= l.freeRects[ri].height) || |l.freeRects| == 1
    ensures var r := l.freeRects[ri];
      var f := RemoveAt(l.freeRects, ri) + Split(r, w, h);
      forall k :: 0 <= k < |f| ==> Disjoint(f[k], PlacedAt(r, w, h))
  {
    var r := l.freeRects[ri];
    var kept := RemoveAt(l.freeRects, ri);
    var pieces := Split(r, w, h);
    var f := kept + pieces;
    var pr := PlacedAt(r, w, h);
    SplitPiecesInside(r, w, h);
    forall k | 0 <= k < |f| ensures Disjoint(f[k], pr) {
      if k < |kept| {
        var b := if k < ri then k else k + 1;
        assert f[k] == l.freeRects[b] && b != ri;
        assert Within(pr, r);
        WithinDisjoint(pr, r, f[k]);
      } else {
        assert f[k] == pieces[k - |kept|];
      }
    }
  }

  /** After the placement no free rectangle overlaps a placed part. */
  lemma PlaceKeepsFreeAvoidsPlaced(rules: Rules, l: Layout, p: Part, ri: nat, rotated: bool)
    requires Disjointness(l) && ri < |l.freeRects| && PositiveSize(p)
    requires Fits(p, l.freeRects[ri], rotated) || (|l.freeRects| == 1 && l.placedParts == [])
    ensures var l' := Place(rules, l, p, ri, rotated);
      FreeAvoidsPlaced(l'.freeRects, l'.placedParts)
  {
    var w, h := OrientedWidth(p, rotated), OrientedHeight(p, rotated);
    var r := l.freeRects[ri];
    var f := RemoveAt(l.freeRects, ri) + Split(r, w, h);
    var l' := Place(rules, l, p, ri, rotated);
    var n := |l.placedParts|;
    RemainderDisjointness(l, ri, w, h);
    RemainderAvoidsNewPart(l, ri, w, h);
    PlacedFootprint(rules, l, p, ri, rotated);
    forall i, j | 0 <= i < |l'.freeRects| && 0 <= j < |l'.placedParts|
      ensures Disjoint(l'.freeRects[i], Footprint(l'.placedParts[j]))
    {
      assert l'.freeRects[i] in f;
      var k :| 0 <= k < |f| && f[k] == l'.freeRects[i];
      if j < n {
        assert l'.placedParts[j] == l.placedParts[j];
      }
    }
  }

  /** After the placement the free rectangles stay apart and on the sheet. */
  lemma PlaceKeepsFreeApart(rules: Rules, l: Layout, p: Part, ri: nat, rotated: bool)
    requires Disjointness(l) && ri < |l.freeRects| && PositiveSize(p)
    ensures var l' := Place(rules, l, p, ri, rotated);
      PairwiseDisjoint(l'.freeRects) && FreeOnSheet(l'.freeRects, l'.sheet)
  {
    var w, h := OrientedWidth(p, rotated), OrientedHeight(p, rotated);
    var f := RemoveAt(l.freeRects, ri) + Split(l.freeRects[ri], w, h);
    var l' := Place(rules, l, p, ri, rotated);
    RemainderDisjointness(l, ri, w, h);
    PrunePreservesDisjoint(f, rules.minWasteArea);
    forall i | 0 <= i < |l'.freeRects| ensures Within(l'.freeRects[i], SheetRect(l.sheet)) {
      assert l'.freeRects[i] in f;
    }
  }

  /**
   * Placing a part of positive size either where it fits, or on a sheet that
   * has no placement and a single free rectangle, keeps the sheet free of
   * overlaps.
   */
  lemma PlaceKeepsDisjointness(rules: Rules, l: Layout, p: Part, ri: nat, rotated: bool)
    requires Disjointness(l) && ri < |l.freeRects| && PositiveSize(p)
    requires Fits(p, l.freeRects[ri], rotated) || (|l.freeRects| == 1 && l.placedParts == [])
    ensures Disjointness(Place(rules, l, p, ri, rotated))
  {
    PlaceKeepsFootprintsDisjoint(rules, l, p, ri, rotated);
    PlaceKeepsFreeAvoidsPlaced(rules, l, p, ri, rotated);
    PlaceKeepsFreeApart(rules, l, p, ri, rotated);
  }

  /** A step keeps every working sheet free of overlaps. */
  lemma StepKeepsDisjointness(rules: Rules, specs: seq<SheetSpec>, ls: seq<Layout>, p: Part)
    requires PositiveSize(p) && forall l :: l in ls ==> Disjointness(l)
    ensures forall l :: l in Step(rules, specs, ls, p) ==> Disjointness(l)
  {
    var best := BestOf(AllCandidates(rules, p, ls));
    if best.Some? {
      StepPlacesAtBest(rules, specs, ls, p);
      BestIsFirstAdmissibleMinimum(rules, p, ls);
      var c := best.value;
      assert ls[c.sheet] in ls;
      PlaceKeepsDisjointness(rules, ls[c.sheet], p, c.rect, c.rotated);
      var ls' := Step(rules, specs, ls, p);
      forall l | l in ls' ensures Disjointness(l) {
        var k :| 0 <= k < |ls'| && ls'[k] == l;
        if k != c.sheet {
          assert ls[k] in ls;
        }
      }
    } else {
      StepOpensSheet(rules, specs, ls, p);
      match FindTemplate(rules, p, specs)
      case Some(t) =>
        FreshLayoutDisjointness(t);
        PlaceKeepsDisjointness(rules, FreshLayout(t), p, 0, false);
      case None =>
    }
  }

  /**
   * Packing parts of positive size onto fresh clones never makes two placed
   * parts overlap, nor a free rectangle overlap a part or another free
   * rectangle, and keeps every free rectangle on its sheet.
   */
  lemma {:induction false} RunKeepsDisjointness(rules: Rules, specs: seq<SheetSpec>, ls: seq<Layout>, parts: seq<Part>)
    requires forall p :: p in parts ==> PositiveSize(p)
    requires forall l :: l in ls ==> Disjointness(l)
    ensures forall l :: l in Run(rules, specs, ls, parts) ==> Disjointness(l)
  {
    if parts != [] {
      RunKeepsDisjointness(rules, specs, ls, parts[..|parts| - 1]);
      StepKeepsDisjointness(rules, specs, Run(rules, specs, ls, parts[..|parts| - 1]), parts[|parts| - 1]);
    }
  }

  lemma FreshLayoutsDisjointness(specs: seq<SheetSpec>)
    ensures forall l :: l in FreshLayouts(specs) ==> Disjointness(l)
  {
  }
}
