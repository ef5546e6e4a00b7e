/**
 * Grain direction as both cutting-list engines (frontend/js/cutlist/engine.js
 * and its improved variant) handle it: the grain a material keyword gives a
 * part or sheet, whether a part may be turned on a sheet, and whether a
 * placement runs with the sheet's grain.
 */
module Grain {

  import opened Text
  import opened Packing

  /** The two settings the grain rules read. */
  datatype GrainSettings = GrainSettings(allowRotation: bool, respectGrainDirection: bool)

  /** Grain preference per material keyword, in the object's key order. */
  type GrainPreferences = seq<(string, string)>

  const DefaultGrainPreferences: GrainPreferences := [
    ("ПДЧ", "any"), ("МДФ", "any"), ("ХДЛ", "horizontal"),
    ("Масив", "horizontal"), ("Фурнир", "horizontal"), ("Шперплат", "any")]

  // ---------------------------------------------------------------- grain

  /** The grain a preference gives a w by h piece: fixed horizontal grain
      follows the long side. */
  function GrainFor(pref: string, width: int, height: int): string {
    if pref == "any" then "any"
    else if pref == "horizontal" then (if width >= height then "horizontal" else "vertical")
    else pref
  }

  /** The first preference whose keyword occurs in the material decides;
      no such keyword gives "any". */
  function DetectGrainDirection(prefs: GrainPreferences, material: string, width: int, height: int): string {
    if prefs == [] then "any"
    else if Includes(material, prefs[0].0) then GrainFor(prefs[0].1, width, height)
    else DetectGrainDirection(prefs[1..], material, width, height)
  }

  /** No keyword before position k occurs in the material. */
  predicate NoKeywordBefore(prefs: GrainPreferences, material: string, k: nat)
    requires k <= |prefs|
  {
    forall j :: 0 <= j < k ==> !Includes(material, prefs[j].0)
  }

  /** The detected grain is the one of the first keyword occurring in the
      material, or "any" when none occurs. */
  lemma {:induction false} DetectGrainFirstMatch(prefs: GrainPreferences, material: string, width: int, height: int, k: nat)
    requires k <= |prefs| && NoKeywordBefore(prefs, material, k)
    ensures k == |prefs| ==> DetectGrainDirection(prefs, material, width, height) == "any"
    ensures k < |prefs| && Includes(material, prefs[k].0) ==>
      DetectGrainDirection(prefs, material, width, height) == GrainFor(prefs[k].1, width, height)
  {
    if k > 0 {
      assert !Includes(material, prefs[0].0);
      forall j | 0 <= j < k - 1 ensures !Includes(material, prefs[1..][j].0) {
        assert prefs[1..][j] == prefs[j + 1];
      }
      DetectGrainFirstMatch(prefs[1..], material, width, height, k - 1);
    }
  }

  /** Preferences whose values are grain values detect a grain value. */
  lemma {:induction false} DetectedGrainIsValue(prefs: GrainPreferences, material: string, width: int, height: int)
    requires forall k :: 0 <= k < |prefs| ==> IsGrainValue(prefs[k].1)
    ensures IsGrainValue(DetectGrainDirection(prefs, material, width, height))
  {
    if prefs != [] && !Includes(material, prefs[0].0) {
      DetectedGrainIsValue(prefs[1..], material, width, height);
    }
  }

  predicate IsGrainValue(g: string) {
    g == "any" || g == "horizontal" || g == "vertical"
  }

  /** With the default preferences the grain is one of the three values, and
      chipboard and MDF are always "any". */
  lemma DefaultGrainValues(material: string, width: int, height: int)
    ensures var g := DetectGrainDirection(DefaultGrainPreferences, material, width, height);
      && IsGrainValue(g)
      && (Includes(material, "ПДЧ") || Includes(material, "МДФ") ==> g == "any")
  {
    var prefs := DefaultGrainPreferences;
    DetectedGrainIsValue(prefs, material, width, height);
    if Includes(material, "ПДЧ") {
      DetectGrainFirstMatch(prefs, material, width, height, 0);
    } else if Includes(material, "МДФ") {
      DetectGrainFirstMatch(prefs, material, width, height, 1);
    }
  }

  /** Rotation needs both the part's and the global permission; when grain is
      respected and both grains are fixed, they must also be equal. */
  function CanRotatePart(s: GrainSettings, p: Part, sheet: SheetSpec): (ok: bool)
    ensures ok ==> p.allowRotation && s.allowRotation
    ensures !s.respectGrainDirection || p.grainDirection == "any" || sheet.grainDirection == "any"
      ==> (ok <==> p.allowRotation && s.allowRotation)
    ensures s.respectGrainDirection && p.grainDirection != "any" && sheet.grainDirection != "any"
      ==> (ok <==> p.allowRotation && s.allowRotation && p.grainDirection == sheet.grainDirection)
  {
    if !s.respectGrainDirection then p.allowRotation && s.allowRotation
    else if !p.allowRotation || !s.allowRotation then false
    else if p.grainDirection == "any" || sheet.grainDirection == "any" then true
    else p.grainDirection == sheet.grainDirection
  }

  /** The part's grain after a quarter turn, as the engine computes it. */
  function TurnedGrain(g: string): string {
    if g == "horizontal" then "vertical" else "horizontal"
  }

  function IsGrainAligned(s: GrainSettings, p: Part, rotated: bool, sheet: SheetSpec): bool {
    if !s.respectGrainDirection then true
    else if p.grainDirection == "any" || sheet.grainDirection == "any" then true
    else (if rotated then TurnedGrain(p.grainDirection) else p.grainDirection) == sheet.grainDirection
  }

  /** Whenever grain is respected, both grains are fixed and rotation is
      allowed, the rotated placement is reported as not aligned. */
  lemma RotationAllowedOnlyAgainstGrain(s: GrainSettings, p: Part, sheet: SheetSpec)
    requires s.respectGrainDirection && p.grainDirection != "any" && sheet.grainDirection != "any"
    requires CanRotatePart(s, p, sheet)
    ensures !IsGrainAligned(s, p, true, sheet)
  {
    assert p.grainDirection == sheet.grainDirection;
  }

  /** With fixed horizontal/vertical grains on both sides, exactly one of the
      two orientations is aligned. */
  lemma ExactlyOneOrientationAligned(s: GrainSettings, p: Part, sheet: SheetSpec)
    requires s.respectGrainDirection
    requires p.grainDirection == "horizontal" || p.grainDirection == "vertical"
    requires sheet.grainDirection == "horizontal" || sheet.grainDirection == "vertical"
    ensures IsGrainAligned(s, p, false, sheet) != IsGrainAligned(s, p, true, sheet)
  {
  }
}
