/**
 * The bookkeeping the guillotine packer keeps, whatever the engine's rules:
 * a sheet's used area is the sum of its placed footprints, every placement
 * sits on a sheet of matching material with the size and grain flag the
 * rules give it, every working sheet is a clone of a catalog entry, and
 * exactly the parts that have a catalog sheet of matching material get
 * placed, each once.
 */
module PackingAccounting {

  import opened Wrappers
  import opened Geometry
  import opened Packing
  import opened Sums

  /** Sum of the placed footprints' areas. */
  function FootprintArea(pls: seq<Placement>): int {
    if pls == [] then 0
    else FootprintArea(pls[..|pls| - 1]) + pls[|pls| - 1].placedWidth * pls[|pls| - 1].placedHeight
  }

  /** Every placement was made on this sheet under these rules: matching
      material, oriented size, and the grain flag the rules report. */
  predicate Consistent(rules: Rules, l: Layout) {
    forall i :: 0 <= i < |l.placedParts| ==>
      var pl := l.placedParts[i];
      && rules.matches(pl.part.material, l.sheet.materialType)
      && pl.placedWidth == OrientedWidth(pl.part, pl.rotated)
      && pl.placedHeight == OrientedHeight(pl.part, pl.rotated)
      && pl.grainAligned == rules.aligned(pl.part, pl.rotated, l.sheet)
  }

  /** A working sheet whose bookkeeping is right: cloned from the catalog,
      used area equal to the footprints' sum, placements consistent. */
  predicate Accounted(rules: Rules, specs: seq<SheetSpec>, l: Layout) {
    && l.sheet in specs
    && l.usedArea == FootprintArea(l.placedParts)
    && Consistent(rules, l)
  }

  function PlacementsOf(l: Layout): int {
    |l.placedParts|
  }

  /** Number of placements over all working sheets. */
  function PlacedCount(ls: seq<Layout>): int {
    SumOf(ls, PlacementsOf)
  }

  /** 1 for a part some catalog sheet of matching material can take, else 0. */
  function Placeability(rules: Rules, specs: seq<SheetSpec>): Part -> int {
    (p: Part) => if FindTemplate(rules, p, specs).Some? then 1 else 0
  }

  /** Number of parts for which some catalog sheet has a matching material. */
  function Placeable(rules: Rules, specs: seq<SheetSpec>, parts: seq<Part>): int {
    SumOf(parts, Placeability(rules, specs))
  }

  lemma PlaceAccounted(rules: Rules, specs: seq<SheetSpec>, l: Layout, p: Part, ri: nat, rotated: bool)
    requires Accounted(rules, specs, l) && ri < |l.freeRects|
    requires rules.matches(p.material, l.sheet.materialType)
    ensures Accounted(rules, specs, Place(rules, l, p, ri, rotated))
    ensures |Place(rules, l, p, ri, rotated).placedParts| == |l.placedParts| + 1
  {
    var l' := Place(rules, l, p, ri, rotated);
    assert l'.placedParts[..|l.placedParts|] == l.placedParts;
  }

  lemma PlacedCountUpdate(ls: seq<Layout>, k: nat, l: Layout)
    requires k < |ls|
    ensures PlacedCount(ls[k := l]) == PlacedCount(ls) - |ls[k].placedParts| + |l.placedParts|
  {
    var ls' := ls[k := l];
    assert ls'[..k] == ls[..k] && ls'[k + 1..] == ls[k + 1..];
    SumOfAround(ls, k, PlacementsOf);
    SumOfAround(ls', k, PlacementsOf);
  }

  lemma PlacedCountAppend(ls: seq<Layout>, l: Layout)
    ensures PlacedCount(ls + [l]) == PlacedCount(ls) + |l.placedParts|
  {
    SumOfSnoc(ls, l, PlacementsOf);
  }

  lemma {:induction false} FreshLayoutsAccounted(rules: Rules, specs: seq<SheetSpec>)
    ensures PlacedCount(FreshLayouts(specs)) == 0
    ensures forall l :: l in FreshLayouts(specs) ==> Accounted(rules, specs, l)
  {
    var ls := FreshLayouts(specs);
    if specs != [] {
      FreshLayoutsAccounted(rules, specs[..|specs| - 1]);
      assert ls[..|ls| - 1] == FreshLayouts(specs[..|specs| - 1]);
    }
    forall l | l in ls ensures Accounted(rules, specs, l) {
      var i :| 0 <= i < |ls| && ls[i] == l;
      assert specs[i] in specs;
    }
  }

  /** A step keeps the bookkeeping and places the part exactly when a catalog
      sheet of its material exists. */
  lemma StepAccounted(rules: Rules, specs: seq<SheetSpec>, ls: seq<Layout>, p: Part)
    requires forall l :: l in ls ==> Accounted(rules, specs, l)
    ensures forall l :: l in Step(rules, specs, ls, p) ==> Accounted(rules, specs, l)
    ensures PlacedCount(Step(rules, specs, ls, p))
      == PlacedCount(ls) + (if FindTemplate(rules, p, specs).Some? then 1 else 0)
  {
    var best := BestOf(AllCandidates(rules, p, ls));
    if best.Some? {
      StepPlacesAtBest(rules, specs, ls, p);
      BestIsFirstAdmissibleMinimum(rules, p, ls);
      var c := best.value;
      var l := ls[c.sheet];
      assert l in ls;
      PlaceAccounted(rules, specs, l, p, c.rect, c.rotated);
      PlacedCountUpdate(ls, c.sheet, Place(rules, l, p, c.rect, c.rotated));
      var ls' := Step(rules, specs, ls, p);
      forall l' | l' in ls' ensures Accounted(rules, specs, l') {
        var k :| 0 <= k < |ls'| && ls'[k] == l';
        if k != c.sheet {
          assert ls[k] in ls;
        }
      }
    } else {
      StepOpensSheet(rules, specs, ls, p);
      match FindTemplate(rules, p, specs)
      case Some(t) =>
        PlaceAccounted(rules, specs, FreshLayout(t), p, 0, false);
        PlacedCountAppend(ls, Place(rules, FreshLayout(t), p, 0, false));
      case None =>
    }
  }

  /**
   * Packing onto fresh clones of the catalog places exactly the parts that
   * have a catalog sheet of matching material, one placement each, and keeps
   * every sheet's bookkeeping right.
   */
  lemma {:induction false} RunAccounted(rules: Rules, specs: seq<SheetSpec>, parts: seq<Part>)
    ensures var ls := Run(rules, specs, FreshLayouts(specs), parts);
      && PlacedCount(ls) == Placeable(rules, specs, parts)
      && forall l :: l in ls ==> Accounted(rules, specs, l)
  {
    if parts == [] {
      FreshLayoutsAccounted(rules, specs);
    } else {
      var init := parts[..|parts| - 1];
      assert Placeable(rules, specs, parts)
        == Placeable(rules, specs, init) + Placeability(rules, specs)(parts[|parts| - 1]);
      RunAccounted(rules, specs, init);
      StepAccounted(rules, specs, Run(rules, specs, FreshLayouts(specs), init), parts[|parts| - 1]);
    }
  }
}
