/**
 * The cabinet records of models.py: cabinets, panels and hardware items,
 * and the calculation result that the per-type calculators fill with
 * add_panel and add_hardware. Panel sizes are exact reals, because some
 * calculators divide; add_panel rounds them to whole millimetres the way
 * Python's round does (half to even).
 */
module Cabinets {
  import opened Wrappers
  import opened Text
  import opened Sums

  datatype CabinetType = BASE | UPPER | DRAWER | OVEN | APPLIANCE | BLIND | SINK | FRIDGE | COLUMN

  datatype MaterialType = Body | Door | Back | Plinth

  /** A cabinet. The board products are modelled by whether they are set;
      hasClosingPanel stands for a truthy has_closing_panel attribute, which
      the record itself does not declare. */
  datatype Cabinet = Cabinet(
    cabinetId: string, width: int, height: int, depth: int, kind: CabinetType,
    bodyBoard: bool, backBoard: bool, doorBoard: bool,
    construction: Option<Construction>,
    shelfCount: int, doorCount: Option<int>, drawerCount: int,
    hasBack: bool, plinthHeight: int, applianceType: Option<string>, hasClosingPanel: bool)

  /** The construction profile fields the calculators and the request
      conversion touch. */
  datatype Construction = Construction(applianceType: string, noStabilizers: bool, hasApplianceSidePanel: bool)

  /** The defaults of ConstructionProfile for these fields. */
  function DefaultConstruction(): Construction {
    Construction("fridge", true, false)
  }

  /** A cabinet built from its size and type, every other field at its default. */
  function NewCabinet(id: string, width: int, height: int, depth: int, kind: CabinetType): (c: Cabinet)
    ensures c.hasBack && c.plinthHeight == 100 && c.doorCount == None
    ensures c.shelfCount == 0 && c.drawerCount == 0 && !c.backBoard && !c.doorBoard && c.construction == None
  {
    Cabinet(id, width, height, depth, kind, false, false, false, None, 0, None, 0, true, 100, None, false)
  }

  /** Python's `v or d` on an optional count: None and 0 are both falsy. */
  function OrElse(v: Option<int>, d: int): int {
    if v.Some? && v.value != 0 then v.value else d
  }

  /** A count taken with a non-zero default is never zero. */
  lemma OrElseNonZero(v: Option<int>, d: int)
    requires d != 0
    ensures OrElse(v, d) != 0
    ensures OrElse(v, d) == d <==> (v == None || v == Some(0) || v == Some(d))
  {
  }

  /** Edge banding thickness per side; None when the side is not banded. */
  datatype Edges = Edges(front: Option<real>, back: Option<real>, left: Option<real>, right: Option<real>)

  function NoEdges(): Edges { Edges(None, None, None, None) }
  function FrontEdge(t: real): Edges { Edges(Some(t), None, None, None) }
  function AllEdges(t: real): Edges { Edges(Some(t), Some(t), Some(t), Some(t)) }

  datatype Panel = Panel(name: string, width: real, height: real, material: MaterialType,
                         edges: Edges, quantity: int, areaSqm: real)

  /** A panel as the calculators create it: no area yet. */
  function NewPanel(name: string, width: real, height: real, material: MaterialType, edges: Edges, quantity: int): Panel {
    Panel(name, width, height, material, edges, quantity, 0.0)
  }

  datatype HardwareItem = HardwareItem(name: string, quantity: int, notes: Option<string>)

  function Item(name: string, quantity: int): HardwareItem {
    HardwareItem(name, quantity, None)
  }

  /** Python's round on a number: the nearest integer, ties to the even one. */
  function RoundHalfEven(r: real): (n: int)
    ensures -0.5 <= n as real - r <= 0.5
    ensures (n as real - r == 0.5 || r - n as real == 0.5) ==> n % 2 == 0
    ensures r == r.Floor as real ==> n == r.Floor
  {
    var f := r.Floor;
    var frac := r - f as real;
    if frac < 0.5 then f
    else if frac > 0.5 then f + 1
    else if f % 2 == 0 then f
    else f + 1
  }

  /** Whole numbers are kept. */
  lemma RoundWhole(m: int)
    ensures RoundHalfEven(m as real) == m
  {
  }

  /** A half is rounded to the even neighbour. */
  lemma RoundHalf(m: int)
    ensures RoundHalfEven(m as real + 0.5) == if m % 2 == 0 then m else m + 1
  {
    assert (m as real + 0.5).Floor == m;
  }

  /** The area in m² of a panel's face, from its sizes in mm. */
  function FaceArea(width: real, height: real): real {
    width * height / 1000000.0
  }

  /** add_panel's treatment of the panel: the area is filled in from the
      unrounded sizes when it is 0.0, then the sizes are rounded. */
  function Added(p: Panel): Panel {
    var area := if p.areaSqm == 0.0 then FaceArea(p.width, p.height) else p.areaSqm;
    p.(width := RoundHalfEven(p.width) as real, height := RoundHalfEven(p.height) as real, areaSqm := area)
  }

  /** A stored panel has whole-millimetre sizes within half a millimetre of
      the given ones, keeps every other field, and has an area: the given one,
      or width × height / 10⁶ of the unrounded sizes when none was given. */
  lemma AddedPanel(p: Panel)
    ensures Added(p).width == Added(p).width.Floor as real && Added(p).height == Added(p).height.Floor as real
    ensures -0.5 <= Added(p).width - p.width <= 0.5 && -0.5 <= Added(p).height - p.height <= 0.5
    ensures Added(p).areaSqm == if p.areaSqm == 0.0 then p.width * p.height / 1000000.0 else p.areaSqm
    ensures Added(p).(width := p.width, height := p.height, areaSqm := p.areaSqm) == p
  {
  }

  /** Adding a stored panel again changes nothing. */
  lemma AddedIdempotent(p: Panel)
    ensures Added(Added(p)) == Added(p)
  {
    var q := Added(p);
    assert q.width == (RoundHalfEven(p.width) as real);
    assert (RoundHalfEven(p.width) as real).Floor == RoundHalfEven(p.width);
    assert (RoundHalfEven(p.height) as real).Floor == RoundHalfEven(p.height);
    if q.areaSqm == 0.0 {
      assert p.areaSqm == 0.0 || p.areaSqm == q.areaSqm;
      assert RoundHalfEven(q.width) as real == q.width;
      assert RoundHalfEven(q.height) as real == q.height;
      if p.areaSqm == 0.0 {
        assert FaceArea(p.width, p.height) == 0.0;
        ProductZero(p.width, p.height);
        assert q.width == 0.0 || q.height == 0.0;
      }
    }
  }

  lemma ProductZero(a: real, b: real)
    requires a * b / 1000000.0 == 0.0
    ensures a == 0.0 || b == 0.0
  {
    if a != 0.0 {
      assert b == (a * b) / a;
    }
  }

  /** A calculation's panels, hardware and plinth length. The cost fields
      filled in by the cost routine are not modelled. */
  datatype Calc = Calc(panels: seq<Panel>, hardware: seq<HardwareItem>, plinthLength: int)

  class CalculationResult {
    const cabinet: Cabinet
    var panels: seq<Panel>
    var hardware: seq<HardwareItem>
    var plinthLength: int

    function State(): Calc
      reads this
    {
      Calc(panels, hardware, plinthLength)
    }

    constructor (c: Cabinet, plinth: int)
      ensures cabinet == c && State() == Calc([], [], plinth)
    {
      cabinet := c;
      panels := [];
      hardware := [];
      plinthLength := plinth;
    }

    /** add_panel: exactly one panel, the stored form of p, is appended. */
    method AddPanel(p: Panel)
      modifies this
      ensures panels == old(panels) + [Added(p)] && hardware == old(hardware) && plinthLength == old(plinthLength)
    {
      var area := p.areaSqm;
      if area == 0.0 {
        area := p.width * p.height / 1000000.0;
      }
      var q := p.(width := RoundHalfEven(p.width) as real, height := RoundHalfEven(p.height) as real, areaSqm := area);
      assert q == Added(p);
      panels := panels + [q];
    }

    /** add_hardware: exactly one item is appended. */
    method AddHardware(item: HardwareItem)
      modifies this
      ensures hardware == old(hardware) + [item] && panels == old(panels) && plinthLength == old(plinthLength)
    {
      hardware := hardware + [item];
    }

    /** Python's list.remove on the panels: the first equal panel goes. */
    method RemovePanel(p: Panel)
      modifies this
      ensures panels == RemoveFirst(old(panels), p) && hardware == old(hardware) && plinthLength == old(plinthLength)
    {
      var i := 0;
      while i < |panels| && panels[i] != p
        invariant 0 <= i <= |panels|
        invariant forall j :: 0 <= j < i ==> panels[j] != p
      {
        i := i + 1;
      }
      if i < |panels| {
        RemoveFirstAt(panels, p, i);
        panels := panels[..i] + panels[i + 1..];
      }
      else {
        RemoveFirstAbsent(panels, p);
      }
    }

    /** `for p in xs: panels.remove(p)`. */
    method RemovePanels(xs: seq<Panel>)
      modifies this
      ensures panels == RemoveEach(old(panels), xs) && hardware == old(hardware) && plinthLength == old(plinthLength)
    {
      for k := 0 to |xs|
        invariant RemoveEach(panels, xs[k..]) == RemoveEach(old(panels), xs)
        invariant hardware == old(hardware) && plinthLength == old(plinthLength)
      {
        assert xs[k..][1..] == xs[k + 1..];
        RemovePanel(xs[k]);
      }
    }

    /** `for h in xs: hardware.remove(h)`. */
    method RemoveItems(xs: seq<HardwareItem>)
      modifies this
      ensures hardware == RemoveEach(old(hardware), xs) && panels == old(panels) && plinthLength == old(plinthLength)
    {
      for k := 0 to |xs|
        invariant RemoveEach(hardware, xs[k..]) == RemoveEach(old(hardware), xs)
        invariant panels == old(panels) && plinthLength == old(plinthLength)
      {
        assert xs[k..][1..] == xs[k + 1..];
        RemoveHardware(xs[k]);
      }
    }

    /** `old = [p for p in panels if word in p.name]; for p in old: panels.remove(p)`. */
    method RemovePanelsNamed(word: string)
      modifies this
      ensures panels == PanelsNotNamed(old(panels), word) && hardware == old(hardware) && plinthLength == old(plinthLength)
    {
      var matched := PanelsNamed(panels, word);
      RemoveEachMatched(panels, (p: Panel) => Mentions(p.name, word), (p: Panel) => !Mentions(p.name, word));
      RemovePanels(matched);
    }

    /** The same for hardware items. */
    method RemoveItemsNamed(word: string)
      modifies this
      ensures hardware == ItemsNotNamed(old(hardware), word) && panels == old(panels) && plinthLength == old(plinthLength)
    {
      var matched := ItemsNamed(hardware, word);
      RemoveEachMatched(hardware, (h: HardwareItem) => Mentions(h.name, word), (h: HardwareItem) => !Mentions(h.name, word));
      RemoveItems(matched);
    }

    /** Python's list.remove on the hardware. */
    method RemoveHardware(item: HardwareItem)
      modifies this
      ensures hardware == RemoveFirst(old(hardware), item) && panels == old(panels) && plinthLength == old(plinthLength)
    {
      var i := 0;
      while i < |hardware| && hardware[i] != item
        invariant 0 <= i <= |hardware|
        invariant forall j :: 0 <= j < i ==> hardware[j] != item
      {
        i := i + 1;
      }
      if i < |hardware| {
        RemoveFirstAt(hardware, item, i);
        hardware := hardware[..i] + hardware[i + 1..];
      }
      else {
        RemoveFirstAbsent(hardware, item);
      }
    }
  }

  // ---------------------------------------------------------------- list rewriting

  /** The elements that satisfy keep, in order. */
  function Filter<T>(s: seq<T>, keep: T -> bool): (r: seq<T>)
    ensures |r| <= |s|
  {
    if s == [] then [] else (if keep(s[0]) then [s[0]] else []) + Filter(s[1..], keep)
  }

  /** Every element kept satisfies keep. */
  lemma {:induction false} FilterKeeps<T>(s: seq<T>, keep: T -> bool)
    ensures forall k :: 0 <= k < |Filter(s, keep)| ==> keep(Filter(s, keep)[k])
  {
    if s != [] {
      FilterKeeps(s[1..], keep);
      var head := if keep(s[0]) then [s[0]] else [];
      forall k | 0 <= k < |Filter(s, keep)|
        ensures keep(Filter(s, keep)[k])
      {
        if k >= |head| {
          assert Filter(s, keep)[k] == Filter(s[1..], keep)[k - |head|];
        }
      }
    }
  }

  /** Python's list.remove: drops the first element equal to x, if any. */
  function RemoveFirst<T(==)>(s: seq<T>, x: T): seq<T> {
    if s == [] then []
    else if s[0] == x then s[1..]
    else [s[0]] + RemoveFirst(s[1..], x)
  }

  /** Removing each of xs in turn, as `for p in old: list.remove(p)` does. */
  function RemoveEach<T(==)>(s: seq<T>, xs: seq<T>): seq<T>
    decreases |xs|
  {
    if xs == [] then s else RemoveEach(RemoveFirst(s, xs[0]), xs[1..])
  }

  lemma {:induction false} RemoveFirstAt<T>(s: seq<T>, x: T, i: nat)
    requires i < |s| && s[i] == x && forall j :: 0 <= j < i ==> s[j] != x
    ensures RemoveFirst(s, x) == s[..i] + s[i + 1..]
  {
    if i > 0 {
      RemoveFirstAt(s[1..], x, i - 1);
      assert s[1..][..i - 1] + s[1..][i..] == s[1..i] + s[i + 1..];
      assert [s[0]] + s[1..i] == s[..i];
    }
  }

  lemma {:induction false} RemoveFirstAbsent<T>(s: seq<T>, x: T)
    requires forall j :: 0 <= j < |s| ==> s[j] != x
    ensures RemoveFirst(s, x) == s
  {
    if s != [] {
      RemoveFirstAbsent(s[1..], x);
    }
  }

  /** Removing elements that are not the head leaves the head in place. */
  lemma {:induction false} RemoveEachPastHead<T>(a: T, t: seq<T>, xs: seq<T>)
    requires forall k :: 0 <= k < |xs| ==> xs[k] != a
    ensures RemoveEach([a] + t, xs) == [a] + RemoveEach(t, xs)
    decreases |xs|
  {
    if xs != [] {
      assert ([a] + t)[1..] == t;
      RemoveEachPastHead(a, RemoveFirst(t, xs[0]), xs[1..]);
    }
  }

  /**
   * Collecting the elements that satisfy drop and then removing each of them
   * from the list with list.remove leaves exactly the elements that do not.
   */
  lemma {:induction false} RemoveEachMatched<T>(s: seq<T>, drop: T -> bool, keep: T -> bool)
    requires forall x :: keep(x) == !drop(x)
    ensures RemoveEach(s, Filter(s, drop)) == Filter(s, keep)
  {
    if s != [] {
      var a, t := s[0], s[1..];
      RemoveEachMatched(t, drop, keep);
      if drop(a) {
        assert Filter(s, drop) == [a] + Filter(t, drop);
      } else {
        assert Filter(s, drop) == Filter(t, drop);
        FilterKeeps(t, drop);
        assert s == [a] + t;
        RemoveEachPastHead(a, t, Filter(t, drop));
      }
    }
  }

  lemma {:induction false} FilterAppend<T>(s: seq<T>, t: seq<T>, keep: T -> bool)
    ensures Filter(s + t, keep) == Filter(s, keep) + Filter(t, keep)
  {
    if s != [] {
      assert (s + t)[1..] == s[1..] + t;
      FilterAppend(s[1..], t, keep);
    } else {
      assert s + t == t;
    }
  }

  lemma {:induction false} FilterNone<T>(s: seq<T>, keep: T -> bool)
    requires forall k :: 0 <= k < |s| ==> !keep(s[k])
    ensures Filter(s, keep) == []
  {
    if s != [] {
      FilterNone(s[1..], keep);
    }
  }

  lemma {:induction false} FilterAll<T>(s: seq<T>, keep: T -> bool)
    requires forall k :: 0 <= k < |s| ==> keep(s[k])
    ensures Filter(s, keep) == s
  {
    if s != [] {
      FilterAll(s[1..], keep);
    }
  }

  /** Filtering out one element and nothing else. */
  lemma DropOne<T>(front: seq<T>, d: T, back: seq<T>, keep: T -> bool)
    requires forall k :: 0 <= k < |front| ==> keep(front[k])
    requires forall k :: 0 <= k < |back| ==> keep(back[k])
    requires !keep(d)
    ensures Filter(front + [d] + back, keep) == front + back
  {
    assert Filter(front + [d], keep) == front by {
      FilterAppend(front, [d], keep);
      FilterAll(front, keep);
      assert Filter([d], keep) == [];
      assert front + [] == front;
    }
    assert Filter(back, keep) == back by {
      FilterAll(back, keep);
    }
    FilterAppend(front + [d], back, keep);
  }

  /** Filtering keeps exactly the tail when it keeps none of the front and all of the tail. */
  lemma PickLast<T>(front: seq<T>, back: seq<T>, keep: T -> bool)
    requires forall k :: 0 <= k < |front| ==> !keep(front[k])
    requires forall k :: 0 <= k < |back| ==> keep(back[k])
    ensures Filter(front + back, keep) == back
  {
    FilterNone(front, keep);
    FilterAll(back, keep);
    FilterAppend(front, back, keep);
  }

  /** Filtering out all but one element. */
  lemma PickSecond<T>(a: T, b: T, rest: seq<T>, keep: T -> bool)
    requires !keep(a) && keep(b)
    requires forall k :: 0 <= k < |rest| ==> !keep(rest[k])
    ensures Filter([a, b] + rest, keep) == [b]
  {
    FilterAppend([a, b], rest, keep);
    FilterNone(rest, keep);
    assert [a, b][1..] == [b];
    assert Filter([b], keep) == [b];
  }

  /** Only the middle part contributes when nothing around it is kept. */
  lemma FilterMiddle<T>(a: seq<T>, b: seq<T>, c: seq<T>, keep: T -> bool)
    requires forall k :: 0 <= k < |a| ==> !keep(a[k])
    requires forall k :: 0 <= k < |c| ==> !keep(c[k])
    ensures Filter(a + b + c, keep) == Filter(b, keep)
  {
    FilterAppend(a + b, c, keep);
    FilterAppend(a, b, keep);
    FilterNone(a, keep);
    FilterNone(c, keep);
    assert Filter(b, keep) + [] == Filter(b, keep);
  }

  /** Summing over the kept elements is summing the measure where keep holds and 0 elsewhere. */
  lemma {:induction false} SumOfFilter<T>(s: seq<T>, keep: T -> bool, f: T -> int, g: T -> int)
    requires forall x :: g(x) == if keep(x) then f(x) else 0
    ensures SumOf(Filter(s, keep), f) == SumOf(s, g)
  {
    if s != [] {
      SumOfFilter(s[1..], keep, f, g);
      var head := if keep(s[0]) then [s[0]] else [];
      SumOfAppend(head, Filter(s[1..], keep), f);
      assert s == [s[0]] + s[1..];
      SumOfAppend([s[0]], s[1..], g);
      assert SumOf([s[0]], g) == g(s[0]);
      if keep(s[0]) {
        assert SumOf(head, f) == f(s[0]);
      }
    }
  }

  // ---------------------------------------------------------------- names

  /** Python's `word in name`. */
  predicate Mentions(name: string, word: string) {
    Includes(name, word)
  }

  lemma MentionsStart(word: string, rest: string)
    ensures Mentions(word + rest, word)
  {
    IncludesSelf("", word, rest);
    assert "" + word + rest == word + rest;
  }

  /** A name shorter than the word does not contain it. */
  lemma Shorter(name: string, word: string)
    requires |name| < |word|
    ensures !Mentions(name, word)
  {
  }

  /** A name lacking one of the word's characters does not contain it. */
  lemma Lacks(name: string, word: string, k: nat)
    requires k < |word| && word[k] !in name
    ensures !Mentions(name, word)
  {
  }

  /** The panels whose name contains the word. */
  function PanelsNamed(ps: seq<Panel>, word: string): seq<Panel> {
    Filter(ps, (p: Panel) => Mentions(p.name, word))
  }

  function PanelsNotNamed(ps: seq<Panel>, word: string): seq<Panel> {
    Filter(ps, (p: Panel) => !Mentions(p.name, word))
  }

  function ItemsNamed(hs: seq<HardwareItem>, word: string): seq<HardwareItem> {
    Filter(hs, (h: HardwareItem) => Mentions(h.name, word))
  }

  function ItemsNotNamed(hs: seq<HardwareItem>, word: string): seq<HardwareItem> {
    Filter(hs, (h: HardwareItem) => !Mentions(h.name, word))
  }

  /** The quantity of the first item with exactly this name; 0 when none. */
  function QuantityOf(hs: seq<HardwareItem>, name: string): int {
    if hs == [] then 0 else if hs[0].name == name then hs[0].quantity else QuantityOf(hs[1..], name)
  }

  /** Items of other names in front do not matter. */
  lemma {:induction false} QuantityOfPast(a: seq<HardwareItem>, b: seq<HardwareItem>, name: string)
    requires forall k :: 0 <= k < |a| ==> a[k].name != name
    ensures QuantityOf(a + b, name) == QuantityOf(b, name)
  {
    if a != [] {
      assert (a + b)[1..] == a[1..] + b;
      QuantityOfPast(a[1..], b, name);
    } else {
      assert a + b == b;
    }
  }
}
