/**
 * Integer rectangle geometry shared by the three guillotine packers
 * (frontend/js/cutlist/engine.js, its improved variant and engine_old.js):
 * point containment, disjointness, the guillotine split of a consumed free
 * rectangle and the pruning of small free rectangles.
 */
module Geometry {

  /** An axis-aligned rectangle in millimetres; it covers the integer points
      x <= px < x + width, y <= py < y + height. */
  datatype Rect = Rect(x: int, y: int, width: int, height: int)

  function Area(r: Rect): int {
    r.width * r.height
  }

  predicate Contains(r: Rect, px: int, py: int) {
    r.x <= px < r.x + r.width && r.y <= py < r.y + r.height
  }

  predicate IsEmpty(r: Rect) {
    r.width <= 0 || r.height <= 0
  }

  /** The two rectangles share no point. */
  predicate Disjoint(a: Rect, b: Rect) {
    || IsEmpty(a) || IsEmpty(b)
    || a.x + a.width <= b.x || b.x + b.width <= a.x
    || a.y + a.height <= b.y || b.y + b.height <= a.y
  }

  /** Every point of `inner` is a point of `outer`. */
  predicate Within(inner: Rect, outer: Rect) {
    IsEmpty(inner) ||
    (outer.x <= inner.x && inner.x + inner.width <= outer.x + outer.width &&
     outer.y <= inner.y && inner.y + inner.height <= outer.y + outer.height)
  }

  predicate PairwiseDisjoint(rs: seq<Rect>) {
    forall i, j :: 0 <= i < j < |rs| ==> Disjoint(rs[i], rs[j])
  }

  /** The syntactic disjointness test agrees with the point-set reading. */
  lemma DisjointIffNoCommonPoint(a: Rect, b: Rect)
    ensures Disjoint(a, b) <==> forall px, py :: !(Contains(a, px, py) && Contains(b, px, py))
  {
    if !Disjoint(a, b) {
      var px := if a.x < b.x then b.x else a.x;
      var py := if a.y < b.y then b.y else a.y;
      assert Contains(a, px, py) && Contains(b, px, py);
    }
  }

  /** The containment test agrees with the point-set reading. */
  lemma WithinIffPointsIncluded(inner: Rect, outer: Rect)
    ensures Within(inner, outer) <==> forall px, py :: Contains(inner, px, py) ==> Contains(outer, px, py)
  {
    if !Within(inner, outer) {
      if outer.x > inner.x {
        assert Contains(inner, inner.x, inner.y) && !Contains(outer, inner.x, inner.y);
      } else if inner.x + inner.width > outer.x + outer.width {
        assert Contains(inner, inner.x + inner.width - 1, inner.y);
      } else if outer.y > inner.y {
        assert Contains(inner, inner.x, inner.y) && !Contains(outer, inner.x, inner.y);
      } else {
        assert Contains(inner, inner.x, inner.y + inner.height - 1);
      }
    }
  }

  lemma WithinDisjoint(a: Rect, outer: Rect, b: Rect)
    requires Within(a, outer) && Disjoint(outer, b)
    ensures Disjoint(a, b)
  {
  }

  lemma WithinTransitive(a: Rect, b: Rect, c: Rect)
    requires Within(a, b) && Within(b, c)
    ensures Within(a, c)
  {
  }

  /** The rectangle a part of size w × h occupies when it is put at the origin of `r`. */
  function PlacedAt(r: Rect, w: int, h: int): Rect {
    Rect(r.x, r.y, w, h)
  }

  /**
   * Guillotine split of the consumed rectangle `r` after a w × h part was put
   * at its origin: with both a width and a height remainder, the right strip
   * is full height when the width remainder is at least the height remainder
   * and the bottom strip is full width otherwise; with one remainder there is
   * one strip, with none there is nothing.
   */
  function Split(r: Rect, w: int, h: int): seq<Rect> {
    var remW := r.width - w;
    var remH := r.height - h;
    if remW > 0 && remH > 0 then
      if remW >= remH then
        [Rect(r.x + w, r.y, remW, r.height), Rect(r.x, r.y + h, w, remH)]
      else
        [Rect(r.x + w, r.y, remW, h), Rect(r.x, r.y + h, r.width, remH)]
    else if remW > 0 then
      [Rect(r.x + w, r.y, remW, r.height)]
    else if remH > 0 then
      [Rect(r.x, r.y + h, r.width, remH)]
    else
      []
  }

  /**
   * For a part of positive size the split yields at most two strips
   * inside the consumed rectangle, disjoint from each other and from the part,
   * whether or not the part fits.
   */
  lemma SplitPiecesInside(r: Rect, w: int, h: int)
    requires w > 0 && h > 0
    ensures var rs := Split(r, w, h);
      && |rs| <= 2
      && (forall q :: q in rs ==> Within(q, r) && Disjoint(q, PlacedAt(r, w, h)))
      && PairwiseDisjoint(rs)
  {
    var rs := Split(r, w, h);
    var p := PlacedAt(r, w, h);
    var remW, remH := r.width - w, r.height - h;
    if remW > 0 && remH > 0 {
      assert Within(rs[0], r) && Disjoint(rs[0], p);
      assert Within(rs[1], r) && Disjoint(rs[1], p);
      assert Disjoint(rs[0], rs[1]);
    } else if remW > 0 {
      assert Within(rs[0], r) && Disjoint(rs[0], p);
    } else if remH > 0 {
      assert Within(rs[0], r) && Disjoint(rs[0], p);
    }
  }

  /**
   * When the part fits, the part and the strips partition the consumed
   * rectangle: every point of it lies in the part or in a strip, the pieces
   * are pairwise disjoint, and their areas add up to the rectangle's.
   */
  lemma SplitPartitions(r: Rect, w: int, h: int)
    requires 0 < w <= r.width && 0 < h <= r.height
    ensures var rs := Split(r, w, h);
      && Within(PlacedAt(r, w, h), r)
      && (forall px, py :: Contains(r, px, py) ==>
            Contains(PlacedAt(r, w, h), px, py) || exists i :: 0 <= i < |rs| && Contains(rs[i], px, py))
      && Area(PlacedAt(r, w, h)) + SumAreas(rs) == Area(r)
  {
    var rs := Split(r, w, h);
    SplitPiecesInside(r, w, h);
    var remW, remH := r.width - w, r.height - h;
    forall px, py | Contains(r, px, py) && !Contains(PlacedAt(r, w, h), px, py)
      ensures exists i :: 0 <= i < |rs| && Contains(rs[i], px, py)
    {
      if remW > 0 && remH > 0 {
        if remW >= remH {
          if px >= r.x + w { assert Contains(rs[0], px, py); } else { assert Contains(rs[1], px, py); }
        } else {
          if py >= r.y + h { assert Contains(rs[1], px, py); } else { assert Contains(rs[0], px, py); }
        }
      } else if remW > 0 {
        assert Contains(rs[0], px, py);
      } else {
        assert Contains(rs[0], px, py);
      }
    }
    SplitAreas(r, w, h);
  }

  function SumAreas(rs: seq<Rect>): int {
    if rs == [] then 0 else Area(rs[0]) + SumAreas(rs[1..])
  }

  lemma SplitAreas(r: Rect, w: int, h: int)
    requires 0 < w <= r.width && 0 < h <= r.height
    ensures w * h + SumAreas(Split(r, w, h)) == r.width * r.height
  {
    var remW, remH := r.width - w, r.height - h;
    var rs := Split(r, w, h);
    assert r.width * r.height == (w + remW) * (h + remH);
    assert (w + remW) * (h + remH) == w * h + remW * h + w * remH + remW * remH;
    if remW > 0 && remH > 0 {
      assert rs[1..] == [rs[1]] && rs[1..][1..] == [];
      assert SumAreas(rs[1..]) == Area(rs[1]) + SumAreas(rs[1..][1..]);
      assert SumAreas(rs) == Area(rs[0]) + Area(rs[1]);
      if remW >= remH {
        assert Area(rs[0]) == remW * (h + remH);
      } else {
        assert Area(rs[1]) == (w + remW) * remH;
      }
    } else if remW > 0 {
      assert remH == 0;
      assert rs[1..] == [];
      assert SumAreas(rs) == remW * r.height;
    } else if remH > 0 {
      assert remW == 0;
      assert rs[1..] == [];
      assert SumAreas(rs) == r.width * remH;
    } else {
      assert remW == 0 && remH == 0;
    }
  }

  /** The free rectangles that survive the minimum-waste filter, in order. */
  function Prune(rs: seq<Rect>, minArea: int): (out: seq<Rect>)
    ensures |out| <= |rs|
    ensures forall q :: q in out <==> q in rs && Area(q) >= minArea
  {
    if rs == [] then []
    else if Area(rs[0]) >= minArea then [rs[0]] + Prune(rs[1..], minArea)
    else Prune(rs[1..], minArea)
  }

  lemma {:induction false} PrunePreservesDisjoint(rs: seq<Rect>, minArea: int)
    requires PairwiseDisjoint(rs)
    ensures PairwiseDisjoint(Prune(rs, minArea))
  {
    if rs != [] {
      PrunePreservesDisjoint(rs[1..], minArea);
      var tail := Prune(rs[1..], minArea);
      forall j | 0 <= j < |tail| ensures Disjoint(rs[0], tail[j]) {
        assert tail[j] in rs[1..];
      }
    }
  }

  /** The sequence without its element at index i. */
  function RemoveAt<T>(s: seq<T>, i: nat): (r: seq<T>)
    requires i < |s|
    ensures |r| == |s| - 1
    ensures forall k :: 0 <= k < |r| ==> r[k] == if k < i then s[k] else s[k + 1]
  {
    s[..i] + s[i + 1..]
  }

  function Min(a: int, b: int): int { if a <= b then a else b }
  function Max(a: int, b: int): int { if a >= b then a else b }
}
