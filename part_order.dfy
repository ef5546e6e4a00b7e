/**
 * The part orders of getSortingFunction, shared by frontend/js/cutlist/engine.js
 * and its improved variant: largest first by area, longest side, width or
 * height, horizontal grain first, or highest priority first.
 */
module PartOrdering {

  import opened Geometry
  import opened Sorting
  import opened Packing

  /** The comparator of the sorting method: negative puts a first. */
  function Compare(sortingMethod: string, a: Part, b: Part): int {
    if sortingMethod == "maxside" then Max(b.width, b.height) - Max(a.width, a.height)
    else if sortingMethod == "width" then b.width - a.width
    else if sortingMethod == "height" then b.height - a.height
    else if sortingMethod == "grain" then
      if a.grainDirection != b.grainDirection && a.grainDirection == "horizontal" then -1
      else if a.grainDirection != b.grainDirection && b.grainDirection == "horizontal" then 1
      else b.area - a.area
    else if sortingMethod == "priority" then
      if a.priority != b.priority then b.priority - a.priority else b.area - a.area
    else b.area - a.area  // "area" and any other name
  }

  function PartOrder(sortingMethod: string): (Part, Part) -> bool {
    (a: Part, b: Part) => Compare(sortingMethod, a, b) <= 0
  }

  /** The sort key each comparator orders by, lexicographically ascending. */
  function SortKey(sortingMethod: string, p: Part): (int, int) {
    if sortingMethod == "maxside" then (-Max(p.width, p.height), 0)
    else if sortingMethod == "width" then (-p.width, 0)
    else if sortingMethod == "height" then (-p.height, 0)
    else if sortingMethod == "grain" then (if p.grainDirection == "horizontal" then 0 else 1, -p.area)
    else if sortingMethod == "priority" then (-p.priority, -p.area)
    else (-p.area, 0)
  }

  predicate KeyLe(a: (int, int), b: (int, int)) {
    a.0 < b.0 || (a.0 == b.0 && a.1 <= b.1)
  }

  lemma CompareIsKeyOrder(sortingMethod: string, a: Part, b: Part)
    ensures Compare(sortingMethod, a, b) <= 0 <==> KeyLe(SortKey(sortingMethod, a), SortKey(sortingMethod, b))
  {
  }

  /** Every sorting method orders parts by a total preorder, so the sorted
      list is well defined (stable for ties). */
  lemma PartOrderIsTotalPreorder(sortingMethod: string)
    ensures TotalPreorder(PartOrder(sortingMethod))
  {
    var le := PartOrder(sortingMethod);
    forall a, b ensures le(a, b) || le(b, a) {
      CompareIsKeyOrder(sortingMethod, a, b);
      CompareIsKeyOrder(sortingMethod, b, a);
    }
    forall a, b, c | le(a, b) && le(b, c) ensures le(a, c) {
      CompareIsKeyOrder(sortingMethod, a, b);
      CompareIsKeyOrder(sortingMethod, b, c);
      CompareIsKeyOrder(sortingMethod, a, c);
    }
  }
}
