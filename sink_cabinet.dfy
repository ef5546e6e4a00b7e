/**
 * The sink cabinet calculator: a base cabinet whose stabilisers are
 * replaced by three sink stabilisers, whatever the width.
 */
module SinkCabinet {
  import opened Wrappers
  import opened Cabinets
  import opened BaseCabinet

  const StabilizerWord: string := "Стабилизатор"

  function SinkStabilizer(c: Cabinet): Panel {
    NewPanel("Стабилизатор (мивка)", InnerWidth(c) as real, 100.0, Body, FrontEdge(1.0), 3)
  }

  function Panels(c: Cabinet): seq<Panel> {
    PanelsNotNamed(BaseCabinet.Panels(c), StabilizerWord) + [Added(SinkStabilizer(c))]
  }

  /** The sink cabinet: the base hardware and plinth, the panels rewritten. */
  function SinkCalc(c: Cabinet): Calc {
    Calc(Panels(c), BaseCabinet.Hardware(c), c.width)
  }

  /** SinkCabinetCalculator.calculate. */
  method Calculate(c: Cabinet) returns (r: CalculationResult)
    ensures fresh(r) && r.cabinet == c && r.State() == SinkCalc(c)
  {
    r := BaseCabinet.Calculate(c);
    r.RemovePanelsNamed(StabilizerWord);
    r.AddPanel(SinkStabilizer(c));
  }

  // ---------------------------------------------------------------- properties

  predicate NotStabilizer(p: Panel) {
    !Mentions(p.name, StabilizerWord)
  }

  /** Which base panels mention stabilisers. */
  lemma BaseNames(c: Cabinet)
    ensures NotStabilizer(Added(SidePanel(c))) && NotStabilizer(Added(BottomPanel(c))) && !NotStabilizer(Added(Stabilizer(c)))
    ensures forall k :: 0 <= k < |Shelves(c)| ==> NotStabilizer(Shelves(c)[k])
    ensures forall k :: 0 <= k < |Backs(c)| ==> NotStabilizer(Backs(c)[k])
    ensures NotStabilizer(Added(DoorPanel(c, BaseDoorCount(c))))
  {
    Lacks("Страничен панел", StabilizerWord, 3);
    Shorter("Дъно", StabilizerWord);
    MentionsStart(StabilizerWord, "");
    assert StabilizerWord + "" == StabilizerWord;
    Shorter("Рафт", StabilizerWord);
    Shorter("Гръб", StabilizerWord);
    Shorter("Врата", StabilizerWord);
  }

  /** Filtering out the third of the carcass panels and nothing else. */
  lemma FilterThird(carcass: seq<Panel>, rest: seq<Panel>, keep: Panel -> bool)
    requires |carcass| == 3 && keep(carcass[0]) && keep(carcass[1]) && !keep(carcass[2])
    requires forall k :: 0 <= k < |rest| ==> keep(rest[k])
    ensures Filter(carcass + rest, keep) == carcass[..2] + rest
  {
    assert carcass[1..][1..] == [carcass[2]];
    assert Filter([carcass[2]], keep) == [];
    assert Filter(carcass, keep) == carcass[..2];
    FilterAll(rest, keep);
    FilterAppend(carcass, rest, keep);
  }

  /** Of the base panels only the stabiliser entry mentions stabilisers. */
  lemma BaseWithoutStabilizers(c: Cabinet)
    ensures PanelsNotNamed(BaseCabinet.Panels(c), StabilizerWord) == BaseCabinet.Panels(c)[..2] + BaseCabinet.Panels(c)[3..]
  {
    var keep := (p: Panel) => !Mentions(p.name, StabilizerWord);
    var carcass := [Added(SidePanel(c)), Added(BottomPanel(c)), Added(Stabilizer(c))];
    var rest := Shelves(c) + Backs(c) + [Added(DoorPanel(c, BaseDoorCount(c)))];
    BaseNames(c);
    forall k | 0 <= k < |rest|
      ensures keep(rest[k])
    {
      if k >= |Shelves(c)| + |Backs(c)| {
      } else if k >= |Shelves(c)| {
        assert rest[k] == Backs(c)[k - |Shelves(c)|];
      } else {
        assert rest[k] == Shelves(c)[k];
      }
    }
    FilterThird(carcass, rest, keep);
    assert BaseCabinet.Panels(c) == carcass + rest;
  }

  /**
   * The sink cabinet keeps every base panel except the stabilisers, in
   * order, and ends with exactly one stabiliser entry: three sink
   * stabilisers of (width − 36) × 100, whatever the width.
   */
  lemma StabilizersReplaced(c: Cabinet)
    ensures Panels(c) == BaseCabinet.Panels(c)[..2] + BaseCabinet.Panels(c)[3..] + [Panels(c)[|Panels(c)| - 1]]
    ensures forall k :: 0 <= k < |Panels(c)| - 1 ==> !Mentions(Panels(c)[k].name, StabilizerWord)
    ensures var last := Panels(c)[|Panels(c)| - 1];
      Mentions(last.name, StabilizerWord) && last.quantity == 3 &&
      last.width + 36.0 == c.width as real && last.height == 100.0
  {
    BaseWithoutStabilizers(c);
    var kept := PanelsNotNamed(BaseCabinet.Panels(c), StabilizerWord);
    assert Panels(c)[..|Panels(c)| - 1] == kept;
    FilterKeeps(BaseCabinet.Panels(c), (p: Panel) => !Mentions(p.name, StabilizerWord));
    forall k | 0 <= k < |Panels(c)| - 1
      ensures !Mentions(Panels(c)[k].name, StabilizerWord)
    {
      assert Panels(c)[k] == kept[k];
    }
    MentionsStart(StabilizerWord, " (мивка)");
    assert StabilizerWord + " (мивка)" == "Стабилизатор (мивка)";
    AddedWhole(SinkStabilizer(c));
  }
}
