/**
 * The calculation service's handling of a cabinet request: the validation
 * that collects errors and warnings, the standard size suggestions, and
 * the conversion of a request into a cabinet record.
 */
module RequestService {
  import opened Wrappers
  import opened Text
  import opened Cabinets

  /** The fields of a cabinet request that the service and the endpoint read. The
      number_of_* fields are the current ones; door_count, shelf_count and
      drawer_count are the legacy aliases, which pydantic keeps as separate fields. */
  datatype Request = Request(
    cabinetId: Option<string>, kind: CabinetType, width: int, height: int, depth: int,
    numberOfDoors: Option<int>, numberOfShelves: int, numberOfDrawers: int,
    doorCount: Option<int>, shelfCount: int, drawerCount: int, hasBack: bool)

  /** The enum's string value. */
  function TypeValue(kind: CabinetType): string {
    match kind
    case BASE => "base"
    case UPPER => "upper"
    case DRAWER => "drawer"
    case OVEN => "oven"
    case APPLIANCE => "appliance"
    case BLIND => "blind"
    case SINK => "sink"
    case FRIDGE => "fridge"
    case COLUMN => "column"
  }

  // ------------------------------------------------------------ validation

  datatype ServiceError = WidthOutOfRange | HeightOutOfRange | DepthOutOfRange | NeedsDoor(kind: CabinetType)

  datatype ServiceWarning = DrawerWithDoors | NonStandardWidth(width: int, kind: CabinetType)

  datatype Sizes = Sizes(widths: seq<int>, heights: seq<int>, depths: seq<int>)

  /** The validation's answer, or the TypeError Python raises when a door rule
      compares a null number_of_doors with an integer. */
  datatype Outcome = Report(valid: bool, errors: seq<ServiceError>, warnings: seq<ServiceWarning>, suggestions: Sizes)
                   | TypeError

  /** The standard widths behind the non-standard width warning; only BASE and UPPER have them. */
  function StandardWidths(kind: CabinetType): Option<seq<int>> {
    if kind == BASE then Some([300, 400, 500, 600, 800, 900, 1000, 1200])
    else if kind == UPPER then Some([300, 400, 500, 600, 800, 900])
    else None
  }

  /** _get_size_suggestions: the type's own table, or the default one. */
  function SizeSuggestions(kind: CabinetType): Sizes {
    if kind == BASE then Sizes([300, 400, 500, 600, 800, 900, 1000, 1200], [760, 820], [560])
    else if kind == UPPER then Sizes([300, 400, 500, 600, 800, 900], [700, 900], [320])
    else if kind == DRAWER then Sizes([300, 400, 500, 600, 800, 900], [760], [560])
    else DefaultSizes()
  }

  function DefaultSizes(): Sizes {
    Sizes([300, 400, 500, 600, 800, 900], [760], [560])
  }

  /** Every type without a table of its own, and DRAWER whose table equals it, gets the default sizes. */
  lemma SuggestionsFallBack(kind: CabinetType)
    ensures SizeSuggestions(kind) == DefaultSizes() <==> kind != BASE && kind != UPPER
  {
  }

  /** A width draws the warning exactly when the suggestions for its type do not list it. */
  lemma StandardWidthsAreSuggested(kind: CabinetType)
    ensures StandardWidths(kind).Some? ==> StandardWidths(kind).value == SizeSuggestions(kind).widths
    ensures StandardWidths(kind).Some? <==> kind == BASE || kind == UPPER
  {
  }

  /** The range errors, in the order they are checked. */
  function RangeErrors(req: Request): seq<ServiceError> {
    (if req.width < 200 || req.width > 1200 then [WidthOutOfRange] else [])
    + (if req.height < 300 || req.height > 2500 then [HeightOutOfRange] else [])
    + (if req.depth < 200 || req.depth > 700 then [DepthOutOfRange] else [])
  }

  /** The types whose cabinets must have a door: `type in [BASE, UPPER]`. */
  predicate NeedsDoors(kind: CabinetType) {
    kind == BASE || kind == UPPER
  }

  /** Whether a door rule compares a null door count. */
  predicate DoorRuleFails(req: Request) {
    (NeedsDoors(req.kind) || req.kind == DRAWER) && req.numberOfDoors.None?
  }

  /** The door rule's error, for a request whose door rule does not fail. */
  function DoorErrors(req: Request): seq<ServiceError>
    requires !DoorRuleFails(req)
  {
    if NeedsDoors(req.kind) && req.numberOfDoors.value < 1 then [NeedsDoor(req.kind)] else []
  }

  function Warnings(req: Request): seq<ServiceWarning>
    requires !DoorRuleFails(req)
  {
    (if req.kind == DRAWER && req.numberOfDoors.value > 0 then [DrawerWithDoors] else [])
    + (match StandardWidths(req.kind)
       case Some(widths) => if req.width !in widths then [NonStandardWidth(req.width, req.kind)] else []
       case None => [])
  }

  /** What validate_cabinet_request returns for a request. */
  function Validation(req: Request): Outcome {
    if DoorRuleFails(req) then TypeError
    else
      var errors := RangeErrors(req) + DoorErrors(req);
      Report(errors == [], errors, Warnings(req), SizeSuggestions(req.kind))
  }

  /** validate_cabinet_request: errors and warnings appended check by check. */
  method ValidateRequest(req: Request) returns (r: Outcome)
    ensures r == Validation(req)
  {
    var errors: seq<ServiceError> := [];
    var warnings: seq<ServiceWarning> := [];
    if req.width < 200 || req.width > 1200 {
      errors := errors + [WidthOutOfRange];
    }
    if req.height < 300 || req.height > 2500 {
      errors := errors + [HeightOutOfRange];
    }
    if req.depth < 200 || req.depth > 700 {
      errors := errors + [DepthOutOfRange];
    }
    assert errors == RangeErrors(req);
    if NeedsDoors(req.kind) {
      if req.numberOfDoors.None? {
        return TypeError;
      }
      if req.numberOfDoors.value < 1 {
        errors := errors + [NeedsDoor(req.kind)];
      }
    }
    if req.kind == DRAWER {
      if req.numberOfDoors.None? {
        return TypeError;
      }
      if req.numberOfDoors.value > 0 {
        warnings := warnings + [DrawerWithDoors];
      }
    }
    assert errors == RangeErrors(req) + DoorErrors(req);
    var standards := StandardWidths(req.kind);
    if standards.Some? {
      if req.width !in standards.value {
        warnings := warnings + [NonStandardWidth(req.width, req.kind)];
      }
    }
    r := Report(|errors| == 0, errors, warnings, SizeSuggestions(req.kind));
  }

  /** A null door count fails only for the types with a door rule. */
  lemma TypeErrorWhen(req: Request)
    ensures Validation(req).TypeError? <==> req.kind in {BASE, UPPER, DRAWER} && req.numberOfDoors == None
  {
  }

  /** A request is valid iff its sizes are in range and a BASE or UPPER cabinet has a door. */
  lemma ValidIff(req: Request)
    requires Validation(req).Report?
    ensures Validation(req).valid <==>
              200 <= req.width <= 1200 && 300 <= req.height <= 2500 && 200 <= req.depth <= 700
              && (NeedsDoors(req.kind) ==> req.numberOfDoors.value >= 1)
  {
  }

  /** Each range error is reported iff its size is out of range, each at most once. */
  lemma ErrorsExact(req: Request)
    requires Validation(req).Report?
    ensures var errors := Validation(req).errors;
      (WidthOutOfRange in errors <==> req.width < 200 || req.width > 1200)
      && (HeightOutOfRange in errors <==> req.height < 300 || req.height > 2500)
      && (DepthOutOfRange in errors <==> req.depth < 200 || req.depth > 700)
      && (NeedsDoor(req.kind) in errors <==> NeedsDoors(req.kind) && req.numberOfDoors.value < 1)
      && |errors| <= 4
  {
    var w: seq<ServiceError> := if req.width < 200 || req.width > 1200 then [WidthOutOfRange] else [];
    var h: seq<ServiceError> := if req.height < 300 || req.height > 2500 then [HeightOutOfRange] else [];
    var d: seq<ServiceError> := if req.depth < 200 || req.depth > 700 then [DepthOutOfRange] else [];
    var doors := DoorErrors(req);
    assert Validation(req).errors == w + h + d + doors;
    assert WidthOutOfRange !in h + d + doors && HeightOutOfRange !in w + d + doors;
    assert DepthOutOfRange !in w + h + doors && NeedsDoor(req.kind) !in w + h + d;
  }

  /** A drawer cabinet with doors and a non-standard width are warned about, never refused. */
  lemma WarningsNeverInvalidate(req: Request, width: int)
    requires Validation(req).Report?
    requires 200 <= req.width <= 1200 && 200 <= width <= 1200
    ensures Validation(req.(width := width)).Report?
    ensures Validation(req.(width := width)).valid == Validation(req).valid
    ensures req.kind == DRAWER ==> DoorErrors(req) == []
  {
  }

  /** The width warning fires exactly for a BASE or UPPER width outside the standard list. */
  lemma NonStandardWidthWhen(req: Request)
    requires Validation(req).Report?
    ensures NonStandardWidth(req.width, req.kind) in Validation(req).warnings <==>
              (req.kind == BASE || req.kind == UPPER) && req.width !in SizeSuggestions(req.kind).widths
  {
  }

  // ------------------------------------------------------------ conversion

  /** Python's `request.cabinet_id or f"{type}_{width}"`: None and "" are falsy. */
  function CabinetId(req: Request): string {
    if req.cabinetId.Some? && req.cabinetId.value != "" then req.cabinetId.value
    else TypeValue(req.kind) + "_" + IntToString(req.width)
  }

  /** _convert_request_to_cabinet. */
  function ToCabinet(req: Request): Cabinet {
    var tall := req.kind in {FRIDGE, COLUMN};
    Cabinet(CabinetId(req), req.width, req.height, req.depth, req.kind,
            false, false, false,
            if tall then Some(DefaultConstruction().(applianceType := TypeValue(req.kind))) else None,
            req.numberOfShelves, req.numberOfDoors, req.numberOfDrawers,
            true, 100,
            if tall then Some(TypeValue(req.kind)) else None,
            false)
  }

  /** The sizes, type and counts are carried over; has_back and the plinth are fixed. */
  lemma ConversionKeeps(req: Request)
    ensures var c := ToCabinet(req);
      c.width == req.width && c.height == req.height && c.depth == req.depth && c.kind == req.kind
      && c.doorCount == req.numberOfDoors && c.shelfCount == req.numberOfShelves
      && c.drawerCount == req.numberOfDrawers
      && c.hasBack && c.plinthHeight == 100
    ensures ToCabinet(req.(hasBack := !req.hasBack)) == ToCabinet(req)
  {
  }

  /** Only fridges and columns get a construction profile, naming their own type. */
  lemma ConversionAppliance(req: Request)
    ensures var c := ToCabinet(req);
      (c.construction.Some? <==> req.kind == FRIDGE || req.kind == COLUMN)
      && (c.applianceType.Some? <==> c.construction.Some?)
      && (c.construction.Some? ==> c.construction.value.applianceType == c.applianceType.value == TypeValue(req.kind))
      && (c.construction.Some? ==> c.construction.value.noStabilizers)
  {
  }

  /** The values of the type enum are pairwise distinct. */
  lemma TypeValueInjective(a: CabinetType, b: CabinetType)
    ensures TypeValue(a) == TypeValue(b) ==> a == b
  {
  }

  /** A default id is the type's value, an underscore and the width, which reads back. */
  lemma {:induction false} DefaultIdEncodesWidth(req: Request)
    requires req.cabinetId.None? || req.cabinetId == Some("")
    requires req.width >= 0
    ensures var id := CabinetId(req);
      var n := |TypeValue(req.kind)|;
      |id| > n + 1 && id[..n] == TypeValue(req.kind) && id[n] == '_'
      && ParseInt(id[n + 1..]) == Some(req.width)
  {
    var n := |TypeValue(req.kind)|;
    var digits := NatToString(req.width);
    var id := CabinetId(req);
    assert id == TypeValue(req.kind) + "_" + digits;
    assert id[n + 1..] == digits;
    ParseIntOfNatToString(req.width);
  }
}
