/** `DbError`: errors that come from database interactions. */
module DbErrors {
  import Foreign

  datatype DbError =
    | NotFound              // the query found no match
    | Generic(s: string)    // anything without a dedicated variant
    | Empty                 // no further information

  const NOT_FOUND_TEXT: string := "not found"
  const DISPLAY_HEAD: string := "DB error"

  /** `DbError::new(msg)`: a generic error whose description is the message. */
  function New(msg: string): (e: DbError)
    ensures e.Generic? && Description(e) == msg
  {
    Generic(msg)
  }

  /**
   * `DbError::empty(msg)`: despite its name, the same generic error as
   * `new(msg)`; it never produces the `Empty` variant.
   */
  function NewEmpty(msg: string): (e: DbError)
    ensures e == New(msg)
    ensures !e.Empty?
  {
    Generic(msg)
  }

  /** `Error::description`: "not found", the carried string, or "". */
  function Description(e: DbError): (d: string)
    ensures e.Empty? ==> d == ""
    ensures e.NotFound? ==> d == NOT_FOUND_TEXT
    ensures e.Generic? ==> d == e.s
  {
    match e
    case NotFound => NOT_FOUND_TEXT
    case Generic(s) => s
    case Empty => ""
  }

  /**
   * `Display`: "DB error", followed for every variant but `Empty` by ": " and
   * the description.
   */
  function Display(e: DbError): (t: string)
    ensures t == DISPLAY_HEAD + (if e.Empty? then "" else ": " + Description(e))
  {
    match e
    case NotFound => "DB error: not found"
    case Generic(s) => "DB error: " + s
    case Empty => "DB error"
  }

  /**
   * `From<diesel::result::Error>`: diesel's `NotFound` becomes `NotFound`,
   * every other error `new(e)`.
   */
  function FromDiesel(err: Foreign.DieselError): (e: DbError)
    ensures err.NotFound? <==> e.NotFound?
    ensures !err.NotFound? ==> e == New(Foreign.DieselText(err))
  {
    match err
    case NotFound => NotFound
    case QueryFailed(_) => New(Foreign.DieselText(err))
  }

  /** The display text cannot tell `NotFound` from a generic "not found". */
  lemma DisplayConflatesNotFound()
    ensures NotFound != Generic(NOT_FOUND_TEXT)
    ensures Display(NotFound) == Display(Generic(NOT_FOUND_TEXT))
  {
  }

  /** Apart from that one collision, the display text determines the error. */
  lemma DisplayInjectiveOtherwise(a: DbError, b: DbError)
    requires Display(a) == Display(b)
    requires a != Generic(NOT_FOUND_TEXT) && b != Generic(NOT_FOUND_TEXT)
    ensures a == b
  {
    var t := Display(a);
    assert a.Empty? <==> |t| == |DISPLAY_HEAD|;
    assert b.Empty? <==> |t| == |DISPLAY_HEAD|;
    if !a.Empty? {
      var head := |DISPLAY_HEAD + ": "|;
      assert Description(a) == t[head..] == Description(b);
      assert a.NotFound? <==> Description(a) == NOT_FOUND_TEXT;
      assert b.NotFound? <==> Description(b) == NOT_FOUND_TEXT;
    }
  }
}
