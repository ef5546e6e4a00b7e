/**
 * The browser form's validateCabinetData: every check pushes its own
 * message, and the data is accepted only when none was pushed.
 */
module FormValidation {
  import opened Wrappers
  import RequestService

  /** The form fields the check reads; the numbers are already parsed (`parseInt(...) || 0`),
      and the type is the select's value, None when the element is missing. */
  datatype FormData = FormData(kind: Option<string>, width: int, height: int, depth: int, shelfCount: int)

  datatype FormError = MissingType | WidthOutOfRange | HeightOutOfRange | DepthOutOfRange | ShelvesOutOfRange

  /** JavaScript's `!data.type`: undefined and the empty string are falsy. */
  predicate TypeMissing(data: FormData) {
    data.kind.None? || data.kind == Some("")
  }

  /** The messages pushed, in the order of the checks. */
  function FormErrors(data: FormData): seq<FormError> {
    Check(TypeMissing(data), MissingType)
    + Check(data.width < 150 || data.width > 2000, WidthOutOfRange)
    + Check(data.height < 200 || data.height > 3000, HeightOutOfRange)
    + Check(data.depth < 100 || data.depth > 1000, DepthOutOfRange)
    + Check(data.shelfCount < 0 || data.shelfCount > 20, ShelvesOutOfRange)
  }

  /** One check's contribution: its message when it fails. */
  function Check(fails: bool, e: FormError): (r: seq<FormError>)
    ensures |r| == Flag(fails)
    ensures forall x :: x in r <==> fails && x == e
  {
    if fails then [e] else []
  }

  /**
   * validateCabinetData: returns whether the data passed; `shown` is what
   * is handed to UI.showError (all messages at once), None when nothing is.
   */
  method ValidateCabinetData(data: FormData) returns (ok: bool, shown: Option<seq<FormError>>)
    ensures ok <==> FormErrors(data) == []
    ensures shown == if ok then None else Some(FormErrors(data))
  {
    var errors: seq<FormError> := [];
    if TypeMissing(data) {
      errors := errors + [MissingType];
    }
    assert errors == Check(TypeMissing(data), MissingType);
    if data.width < 150 || data.width > 2000 {
      errors := errors + [WidthOutOfRange];
    }
    if data.height < 200 || data.height > 3000 {
      errors := errors + [HeightOutOfRange];
    }
    if data.depth < 100 || data.depth > 1000 {
      errors := errors + [DepthOutOfRange];
    }
    if data.shelfCount < 0 || data.shelfCount > 20 {
      errors := errors + [ShelvesOutOfRange];
    }
    assert errors == FormErrors(data);
    if |errors| > 0 {
      return false, Some(errors);
    }
    return true, None;
  }

  /** The data passes iff a type is chosen and every number is within its range. */
  lemma FormValidIff(data: FormData)
    ensures FormErrors(data) == [] <==>
              !TypeMissing(data) && 150 <= data.width <= 2000 && 200 <= data.height <= 3000
              && 100 <= data.depth <= 1000 && 0 <= data.shelfCount <= 20
  {
  }

  /** All violations are collected: each message is present iff its own check fails, once. */
  lemma FormErrorsIndependent(data: FormData)
    ensures var errors := FormErrors(data);
      (MissingType in errors <==> TypeMissing(data))
      && (WidthOutOfRange in errors <==> data.width < 150 || data.width > 2000)
      && (HeightOutOfRange in errors <==> data.height < 200 || data.height > 3000)
      && (DepthOutOfRange in errors <==> data.depth < 100 || data.depth > 1000)
      && (ShelvesOutOfRange in errors <==> data.shelfCount < 0 || data.shelfCount > 20)
    ensures |FormErrors(data)| == Flag(TypeMissing(data)) + Flag(data.width < 150 || data.width > 2000)
              + Flag(data.height < 200 || data.height > 3000) + Flag(data.depth < 100 || data.depth > 1000)
              + Flag(data.shelfCount < 0 || data.shelfCount > 20)
  {
    var a := Check(TypeMissing(data), MissingType);
    var b := Check(data.width < 150 || data.width > 2000, WidthOutOfRange);
    var c := Check(data.height < 200 || data.height > 3000, HeightOutOfRange);
    var d := Check(data.depth < 100 || data.depth > 1000, DepthOutOfRange);
    var e := Check(data.shelfCount < 0 || data.shelfCount > 20, ShelvesOutOfRange);
    assert FormErrors(data) == a + b + c + d + e;
    forall x
      ensures x in FormErrors(data) <==> x in a || x in b || x in c || x in d || x in e
    {
    }
  }

  function Flag(b: bool): nat {
    if b then 1 else 0
  }

  /** Sizes the service accepts are accepted by the form too. */
  lemma FormLooserThanService(req: RequestService.Request, data: FormData)
    requires RequestService.RangeErrors(req) == []
    requires data.width == req.width && data.height == req.height && data.depth == req.depth
    ensures WidthOutOfRange !in FormErrors(data) && HeightOutOfRange !in FormErrors(data)
    ensures DepthOutOfRange !in FormErrors(data)
  {
    FormErrorsIndependent(data);
  }
}
