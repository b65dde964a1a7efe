/**
 * The crate-wide error `MyError`: a record holding an optional details string.
 * Every foreign error is turned into one by the same generated conversion.
 */
module AppError {
  import opened Wrappers
  import opened Foreign

  datatype MyError = MyError(details: Option<string>)

  /** What `Display` writes and `description` returns when there are no details. */
  const FALLBACK: string := "Error"

  /** `MyError::new(msg)`: the message is kept verbatim and shown back unchanged. */
  function New(msg: string): (e: MyError)
    ensures e.details != None
    ensures Display(e) == msg && Description(e) == msg
  {
    MyError(Some(msg))
  }

  /** `MyError::empty()`: no details; shows as the fallback text. */
  function Empty(): (e: MyError)
    ensures e.details == None
    ensures Display(e) == FALLBACK && Description(e) == FALLBACK
  {
    MyError(None)
  }

  /** `Error::description` */
  function Description(e: MyError): (d: string)
    ensures e.details.None? ==> d == FALLBACK
    ensures e.details.Some? ==> d == e.details.value
  {
    match e.details
    case Some(s) => s
    case None => FALLBACK
  }

  /** `Display`: writes exactly what `description` returns. */
  function Display(e: MyError): (s: string)
    ensures s == Description(e)
    ensures e.details.Some? ==> s == e.details.value
  {
    match e.details
    case Some(s) => s
    case None => FALLBACK
  }

  /**
   * Every `From` impl generated by `myError_impl!` (reqwest, quick_xml,
   * quick_xml::DeError, diesel, r2d2, tokio JoinError) is `Self::new(err)`.
   */
  function From(err: ForeignError): (e: MyError)
    ensures e == New(Text(err))
    ensures e.details == Some(Text(err))
  {
    New(Text(err))
  }

  /**
   * The display text does not tell an empty error from one whose message is
   * the fallback word, although the two values differ.
   */
  lemma EmptyShowsLikeNewFallback()
    ensures Empty() != New(FALLBACK)
    ensures Display(Empty()) == Display(New(FALLBACK))
  {
  }

  /** A converted foreign error is never empty and shows the foreign text. */
  lemma ConversionsCarryText(err: ForeignError)
    ensures From(err) != Empty()
    ensures Display(From(err)) == Text(err)
  {
  }
}
