/**
 * getStatistics of both cutting-list engines: sums over the reported sheets
 * of their area, used area, placements and grain violations. The engines
 * differ only in what a sheet's cost contributes, which is a parameter here.
 */
module Stats {

  import opened Packing
  import opened Sums

  /** getStatistics' figures; the percentages are exact, not rounded to text. */
  datatype Statistics = Statistics(
    totalSheets: int, totalParts: int, placedParts: int, placementRate: real,
    totalSheetArea: int, totalUsedArea: int, totalWasteArea: int, materialEfficiency: real,
    estimatedCost: real, avgSheetEfficiency: real, grainCompliance: real, grainViolations: int)

  function EmptyStatistics(partCount: int): Statistics {
    Statistics(0, partCount, 0, 0.0, 0, 0, 0, 0.0, 0.0, 0.0, 100.0, 0)
  }

  function ViolationOf(pl: Placement): int {
    if pl.grainAligned then 0 else 1
  }

  /** Placements not aligned with their sheet's grain. */
  function Violations(pls: seq<Placement>): int {
    SumOf(pls, ViolationOf)
  }

  function PlacedOf(r: SheetResult): int { |r.layout.placedParts| }
  function SheetAreaOf(r: SheetResult): int { r.layout.sheet.area }
  function UsedAreaOf(r: SheetResult): int { r.layout.usedArea }
  function ViolationsOf(r: SheetResult): int { Violations(r.layout.placedParts) }
  function EfficiencyOf(r: SheetResult): real { r.efficiency }

  function Percent(part: int, whole: int): real
    requires whole != 0
  {
    100.0 * (part as real) / (whole as real)
  }

  /** The statistics of the reported sheets, for an engine holding partCount
      parts, where costOf is what one sheet adds to the estimated cost. */
  function StatisticsOf(partCount: int, rs: seq<SheetResult>, costOf: SheetResult -> real): Statistics {
    if rs == [] then EmptyStatistics(partCount)
    else
      var area := SumOf(rs, SheetAreaOf);
      var used := SumOf(rs, UsedAreaOf);
      var placed := SumOf(rs, PlacedOf);
      var violations := SumOf(rs, ViolationsOf);
      Statistics(
        |rs|, partCount, placed, if partCount > 0 then Percent(placed, partCount) else 0.0,
        area, used, area - used, if area > 0 then Percent(used, area) else 0.0,
        RealSumOf(rs, costOf), RealSumOf(rs, EfficiencyOf) / (|rs| as real),
        if placed > 0 then Percent(placed - violations, placed) else 100.0, violations)
  }

  lemma ViolationsBound(pls: seq<Placement>)
    ensures 0 <= Violations(pls) <= |pls|
  {
    SumOfIndicators(pls, ViolationOf);
  }

  lemma {:induction false} ViolationsBoundAll(rs: seq<SheetResult>)
    ensures 0 <= SumOf(rs, ViolationsOf) <= SumOf(rs, PlacedOf)
  {
    if rs != [] {
      ViolationsBoundAll(rs[..|rs| - 1]);
      ViolationsBound(rs[|rs| - 1].layout.placedParts);
    }
  }

  lemma PercentBounds(part: int, whole: int)
    requires 0 <= part <= whole && whole > 0
    ensures 0.0 <= Percent(part, whole) <= 100.0
  {
    var q := (part as real) / (whole as real);
    assert q * (whole as real) == part as real;
    assert 0.0 <= q <= 1.0;
    assert Percent(part, whole) == 100.0 * q;
  }

  /** The grain violations never exceed the placed parts, so the grain
      compliance is a percentage, 100 when nothing was placed; the waste is
      what the used area leaves of the sheets' area; the placed count is the
      reported sheets' placements. */
  lemma StatisticsBounds(partCount: int, rs: seq<SheetResult>, costOf: SheetResult -> real)
    ensures var stats := StatisticsOf(partCount, rs, costOf);
      && 0 <= stats.grainViolations <= stats.placedParts
      && 0.0 <= stats.grainCompliance <= 100.0
      && (stats.placedParts == 0 ==> stats.grainCompliance == 100.0)
      && stats.totalWasteArea == stats.totalSheetArea - stats.totalUsedArea
      && stats.placedParts == SumOf(rs, PlacedOf)
      && stats.totalSheets == |rs| && stats.totalParts == partCount
  {
    ViolationsBoundAll(rs);
    var placed := SumOf(rs, PlacedOf);
    if rs != [] && placed > 0 {
      PercentBounds(placed - SumOf(rs, ViolationsOf), placed);
    }
  }

  /** The counting loop of getStatistics' inner forEach. */
  method CountViolations(pls: seq<Placement>) returns (v: int)
    ensures v == Violations(pls)
  {
    v := 0;
    for i := 0 to |pls|
      invariant v == Violations(pls[..i])
    {
      assert pls[..i + 1][..i] == pls[..i];
      if !pls[i].grainAligned {
        v := v + 1;
      }
    }
    assert pls[..|pls|] == pls;
  }

  /** The accumulating loop of getStatistics over the reported sheets. */
  method Tally(partCount: int, rs: seq<SheetResult>, costOf: SheetResult -> real) returns (stats: Statistics)
    ensures stats == StatisticsOf(partCount, rs, costOf)
  {
    if |rs| == 0 {
      return EmptyStatistics(partCount);
    }
    var area, used, placed, violations := 0, 0, 0, 0;
    var cost, effSum := 0.0, 0.0;
    for i := 0 to |rs|
      invariant area == SumOf(rs[..i], SheetAreaOf) && used == SumOf(rs[..i], UsedAreaOf)
      invariant placed == SumOf(rs[..i], PlacedOf) && violations == SumOf(rs[..i], ViolationsOf)
      invariant cost == RealSumOf(rs[..i], costOf) && effSum == RealSumOf(rs[..i], EfficiencyOf)
    {
      var r := rs[i];
      assert rs[..i + 1][..i] == rs[..i];
      area := area + r.layout.sheet.area;
      used := used + r.layout.usedArea;
      cost := cost + costOf(r);
      placed := placed + |r.layout.placedParts|;
      var v := CountViolations(r.layout.placedParts);
      violations := violations + v;
      effSum := effSum + r.efficiency;
    }
    assert rs[..|rs|] == rs;
    var rate := if partCount > 0 then Percent(placed, partCount) else 0.0;
    var efficiency := if area > 0 then Percent(used, area) else 0.0;
    var compliance := if placed > 0 then Percent(placed - violations, placed) else 100.0;
    stats := Statistics(|rs|, partCount, placed, rate, area, used, area - used, efficiency,
      cost, effSum / (|rs| as real), compliance, violations);
  }
}
