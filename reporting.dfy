/**
 * What an optimisation run of the guillotine packer reports when it starts
 * from fresh clones of the catalog and takes the parts in some order of the
 * catalog's parts: the used sheets, most efficient first, with their
 * bookkeeping right, one placement per part that has a catalog sheet of
 * matching material, and no overlaps when every part has a positive size.
 */
module Reporting {

  import opened Wrappers
  import opened Packing
  import opened PackingInvariants
  import opened PackingAccounting
  import opened Sums
  import opened Stats

  /** The parts with their placed flag cleared, as the run clones them. */
  function Unplaced(parts: seq<Part>): (r: seq<Part>)
    ensures |r| == |parts| && forall i :: 0 <= i < |parts| ==> r[i] == parts[i].(placed := false)
  {
    if parts == [] then [] else Unplaced(parts[..|parts| - 1]) + [parts[|parts| - 1].(placed := false)]
  }

  /** The reported sheets of a run over fresh clones of the catalog. */
  function RunReport(rules: Rules, specs: seq<SheetSpec>, order: seq<Part>): seq<SheetResult> {
    Finish(rules, Run(rules, specs, FreshLayouts(specs), order))
  }

  lemma {:induction false} FindTemplateByMaterial(rules: Rules, p: Part, q: Part, specs: seq<SheetSpec>)
    requires p.material == q.material
    ensures FindTemplate(rules, p, specs) == FindTemplate(rules, q, specs)
  {
    if specs != [] {
      FindTemplateByMaterial(rules, p, q, specs[1..]);
    }
  }

  lemma {:induction false} UnplacedPlaceable(rules: Rules, specs: seq<SheetSpec>, parts: seq<Part>)
    ensures Placeable(rules, specs, Unplaced(parts)) == Placeable(rules, specs, parts)
  {
    if parts != [] {
      var init := parts[..|parts| - 1];
      var last := parts[|parts| - 1];
      UnplacedPlaceable(rules, specs, init);
      FindTemplateByMaterial(rules, last, last.(placed := false), specs);
      SumOfSnoc(Unplaced(init), last.(placed := false), Placeability(rules, specs));
    }
  }

  lemma {:induction false} UsedSheetsPlaced(rules: Rules, ls: seq<Layout>)
    ensures SumOf(UsedSheets(rules, ls), PlacedOf) == PlacedCount(ls)
  {
    if ls != [] {
      var init := ls[..|ls| - 1];
      var last := ls[|ls| - 1];
      UsedSheetsPlaced(rules, init);
      PlacedCountAppend(init, last);
      assert init + [last] == ls;
      if last.placedParts != [] {
        SumOfSnoc(UsedSheets(rules, init), Summarize(rules, last), PlacedOf);
      } else {
        assert UsedSheets(rules, ls) == UsedSheets(rules, init);
      }
    }
  }

  /** The reported sheets are in order of non-increasing efficiency. */
  lemma ReportOrdered(rules: Rules, specs: seq<SheetSpec>, order: seq<Part>)
    ensures var rs := RunReport(rules, specs, order);
      forall i, j :: 0 <= i < j < |rs| ==> rs[i].efficiency >= rs[j].efficiency
  {
    FinishSortedPermutation(rules, Run(rules, specs, FreshLayouts(specs), order));
  }

  /** The reported sheets are used working sheets, each with its efficiency
      and grain compliance. */
  lemma ReportUsedSheets(rules: Rules, specs: seq<SheetSpec>, order: seq<Part>)
    ensures var rs := RunReport(rules, specs, order);
      && (forall r :: r in rs ==> r.layout.placedParts != [] && r.layout in Run(rules, specs, FreshLayouts(specs), order))
      && (forall r :: r in rs ==> r == Summarize(rules, r.layout))
  {
    var ls := Run(rules, specs, FreshLayouts(specs), order);
    var rs := Finish(rules, ls);
    FinishSortedPermutation(rules, ls);
    UsedSheetsMembers(rules, ls);
    forall r | r in rs ensures r == Summarize(rules, r.layout) {
      assert r in multiset(rs);
    }
  }

  /** Every reported sheet is a clone of a catalog sheet whose used area is
      the sum of its placed footprints and whose placements match its
      material, with the rules' orientation and grain flag. */
  lemma ReportAccounted(rules: Rules, specs: seq<SheetSpec>, order: seq<Part>)
    ensures forall r :: r in RunReport(rules, specs, order) ==> Accounted(rules, specs, r.layout)
  {
    RunAccounted(rules, specs, order);
    ReportUsedSheets(rules, specs, order);
  }

  /** When the order is a reordering of the catalog's parts, the placements
      over all reported sheets are exactly one per part for which some
      catalog sheet has a matching material. */
  lemma ReportPlacesPlaceable(rules: Rules, specs: seq<SheetSpec>, parts: seq<Part>, order: seq<Part>)
    requires multiset(order) == multiset(Unplaced(parts))
    ensures SumOf(RunReport(rules, specs, order), PlacedOf) == Placeable(rules, specs, parts)
  {
    var ls := Run(rules, specs, FreshLayouts(specs), order);
    RunAccounted(rules, specs, order);
    UsedSheetsPlaced(rules, ls);
    SumOfPermutation(Finish(rules, ls), UsedSheets(rules, ls), PlacedOf);
    SumOfPermutation(order, Unplaced(parts), Placeability(rules, specs));
    UnplacedPlaceable(rules, specs, parts);
  }

  /** When every part has a positive size, no two placements on a reported
      sheet overlap and no free rectangle overlaps a placement. */
  lemma ReportDisjoint(rules: Rules, specs: seq<SheetSpec>, parts: seq<Part>, order: seq<Part>)
    requires multiset(order) == multiset(Unplaced(parts))
    requires forall p :: p in parts ==> PositiveSize(p)
    ensures forall r :: r in RunReport(rules, specs, order) ==> Disjointness(r.layout)
  {
    forall p | p in order ensures PositiveSize(p) {
      assert p in multiset(Unplaced(parts));
      var i :| 0 <= i < |parts| && Unplaced(parts)[i] == p;
      assert parts[i] in parts;
    }
    FreshLayoutsDisjointness(specs);
    RunKeepsDisjointness(rules, specs, FreshLayouts(specs), order);
    ReportUsedSheets(rules, specs, order);
  }

  /** Each reported sheet's grain compliance is 100 · aligned placements / placements. */
  lemma ReportGrainCompliance(rules: Rules, specs: seq<SheetSpec>, order: seq<Part>, r: SheetResult)
    requires r in RunReport(rules, specs, order)
    ensures r.layout.placedParts != []
    ensures r.grainCompliance == CompliancePercent(rules, r.layout)
  {
    ReportUsedSheets(rules, specs, order);
    SummaryCompliance(rules, r.layout);
  }

  function CompliancePercent(rules: Rules, l: Layout): real
    requires l.placedParts != []
  {
    100.0 * (AlignedCount(rules, l.sheet, l.placedParts) as real) / (|l.placedParts| as real)
  }

  lemma SummaryCompliance(rules: Rules, l: Layout)
    requires l.placedParts != []
    ensures Summarize(rules, l).grainCompliance == CompliancePercent(rules, l)
  {
  }
}
