/**
 * The part and sheet records that addPart and addSheet build in both
 * cutting-list engines, from the arguments and the options object.
 */
module Catalog {

  import opened Wrappers
  import opened Geometry
  import opened Packing
  import opened Grain

  const DefaultMaterial := "ПДЧ 18мм"

  /** The options object of addPart; a missing key takes its default. */
  datatype PartOptions = PartOptions(
    grainDirection: Option<string>, allowRotation: Option<bool>,
    priority: Option<int>, edgeBanding: Option<EdgeBanding>)

  /** The options object of addSheet. */
  datatype SheetOptions = SheetOptions(grainDirection: Option<string>, maxUsagePercent: Option<int>)

  const NoPartOptions := PartOptions(None, None, None, None)
  const NoSheetOptions := SheetOptions(None, None)

  function Or<T>(o: Option<T>, default: T): T {
    if o.Some? then o.value else default
  }

  /** The part record addPart pushes; a missing grain is detected from the
      material and the size. */
  function NewPart(prefs: GrainPreferences, name: string, width: int, height: int, material: string, o: PartOptions): Part {
    Part(name, width, height, width * height, material,
      Or(o.grainDirection, DetectGrainDirection(prefs, material, width, height)),
      Or(o.allowRotation, true), Or(o.priority, 5),
      Or(o.edgeBanding, EdgeBanding(false, false, false, false)), false, false)
  }

  /** The sheet record addSheet pushes. */
  function NewSheet(prefs: GrainPreferences, name: string, width: int, height: int, cost: real, materialType: string,
                    o: SheetOptions): SheetSpec {
    SheetSpec(name, width, height, width * height, cost, materialType,
      Or(o.grainDirection, DetectGrainDirection(prefs, materialType, width, height)),
      Or(o.maxUsagePercent, 95))
  }

  /** n copies of x; none when n is not positive. */
  function Copies<T>(x: T, n: int): (r: seq<T>)
    ensures |r| == Max(n, 0)
    ensures forall i :: 0 <= i < |r| ==> r[i] == x
  {
    if n <= 0 then [] else Copies(x, n - 1) + [x]
  }

  /** A part added without options may rotate, has priority 5, no edge
      banding, the grain its material's preference gives, and its area is
      width times height. */
  lemma NewPartDefaults(prefs: GrainPreferences, name: string, width: int, height: int, material: string)
    ensures var p := NewPart(prefs, name, width, height, material, NoPartOptions);
      && p.allowRotation && p.priority == 5 && p.edgeBanding == EdgeBanding(false, false, false, false)
      && p.grainDirection == DetectGrainDirection(prefs, material, width, height)
      && p.area == p.width * p.height && !p.placed && !p.rotated
  {
  }
}
