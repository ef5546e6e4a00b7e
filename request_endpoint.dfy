/**
 * The /validate endpoint: a chain of guarded checks of which only the
 * first failure is reported, mapped to a validity flag, a message and an
 * estimated complexity.
 */
module RequestEndpoint {
  import opened Wrappers
  import opened Cabinets
  import RequestService

  datatype Failure = WidthOutOfRange | HeightOutOfRange | DepthOutOfRange | UpperTooDeep | DrawerWithoutDrawers

  datatype Complexity = Low | Medium | Unknown

  datatype Answer = Answer(valid: bool, failure: Option<Failure>, complexity: Complexity)

  /** The first check that fails, in the order the endpoint runs them. */
  function FirstFailure(req: RequestService.Request): (f: Option<Failure>)
    ensures f == Some(WidthOutOfRange) <==> req.width <= 0 || req.width > 3000
    ensures f.None? <==>
              0 < req.width <= 3000 && 0 < req.height <= 3000 && 0 < req.depth <= 1000
              && !(req.kind == UPPER && req.depth > 500)
              && !(req.kind == DRAWER && req.drawerCount == 0 && req.doorCount == Some(0))
  {
    if req.width <= 0 || req.width > 3000 then Some(WidthOutOfRange)
    else if req.height <= 0 || req.height > 3000 then Some(HeightOutOfRange)
    else if req.depth <= 0 || req.depth > 1000 then Some(DepthOutOfRange)
    else if req.kind == UPPER && req.depth > 500 then Some(UpperTooDeep)
    else if req.kind == DRAWER && req.drawerCount == 0 && req.doorCount == Some(0) then Some(DrawerWithoutDrawers)
    else None
  }

  /** validate_cabinet_request of the endpoint. */
  function Validate(req: RequestService.Request): Answer {
    match FirstFailure(req)
    case None => Answer(true, None, if req.width > 800 then Medium else Low)
    case Some(f) => Answer(false, Some(f), Unknown)
  }

  /** The answer is valid iff no check fails; a valid answer rates complexity by width alone. */
  lemma ValidIff(req: RequestService.Request)
    ensures Validate(req).valid <==> FirstFailure(req).None?
    ensures Validate(req).valid ==> (Validate(req).complexity == Medium <==> req.width > 800)
    ensures !Validate(req).valid <==> Validate(req).complexity == Unknown
    ensures Validate(req).failure == FirstFailure(req)
  {
  }

  /** A failed check hides every later one: a bad width is reported whatever else is wrong. */
  lemma FirstFailureWins(req: RequestService.Request)
    ensures (req.width <= 0 || req.width > 3000) ==> Validate(req).failure == Some(WidthOutOfRange)
    ensures 0 < req.width <= 3000 && (req.height <= 0 || req.height > 3000) ==> Validate(req).failure == Some(HeightOutOfRange)
  {
  }

  /** Only an explicit zero door count fails a drawer cabinet without drawers; a missing one passes. */
  lemma DrawerNeedsExplicitZero(req: RequestService.Request)
    requires 0 < req.width <= 3000 && 0 < req.height <= 3000 && 0 < req.depth <= 1000
    requires req.kind == DRAWER
    ensures Validate(req).failure == Some(DrawerWithoutDrawers) <==> req.drawerCount == 0 && req.doorCount == Some(0)
    ensures req.doorCount.None? ==> Validate(req).valid
  {
  }

  /** What the service accepts and the endpoint refuses: an upper cabinet deeper than 500. */
  lemma ServiceAcceptsWhatEndpointRefuses()
    ensures var req := RequestService.Request(None, UPPER, 600, 720, 600, Some(1), 1, 0, None, 1, 0, true);
      RequestService.Validation(req).Report? && RequestService.Validation(req).valid
      && !Validate(req).valid && Validate(req).failure == Some(UpperTooDeep)
  {
  }

  /** Apart from the upper depth and the drawer rule, the service's ranges lie inside the endpoint's. */
  lemma ServiceValidImpliesEndpointRanges(req: RequestService.Request)
    requires RequestService.Validation(req).Report? && RequestService.Validation(req).valid
    requires !(req.kind == UPPER && req.depth > 500)
    requires !(req.kind == DRAWER && req.drawerCount == 0 && req.doorCount == Some(0))
    ensures Validate(req).valid
  {
    RequestService.ValidIff(req);
  }
}
