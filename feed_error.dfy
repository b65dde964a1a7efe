/** `FeedError`: errors that come from receiving or parsing a feed. */
module FeedErrors {
  import opened Foreign

  datatype FeedError =
    | De(s: string)         // deserialization error
    | Web(s: string)        // 404, 403 and other reqwest errors
    | Generic(s: string)    // anything without a dedicated variant
    | Empty                 // no further information

  const DE_PREFIX: string := "Feed deserialization error: "
  const WEB_PREFIX: string := "Feed weberror: "
  const GENERIC_PREFIX: string := "Feed error: "
  const EMPTY_TEXT: string := "FeedError"

  /** `FeedError::new(msg)`: a generic error whose description is the message. */
  function New(msg: string): (e: FeedError)
    ensures e.Generic?
    ensures Description(e) == msg
    ensures Display(e) == GENERIC_PREFIX + msg
  {
    Generic(msg)
  }

  /** `Error::description`: the carried string, or "" for `Empty`. */
  function Description(e: FeedError): (d: string)
    ensures e.Empty? ==> d == ""
    ensures !e.Empty? ==> d == e.s
  {
    match e
    case De(s) => s
    case Web(s) => s
    case Generic(s) => s
    case Empty => ""
  }

  /** The fixed text `Display` writes before the payload of each variant. */
  function Prefix(e: FeedError): string
  {
    match e
    case De(_) => DE_PREFIX
    case Web(_) => WEB_PREFIX
    case Generic(_) => GENERIC_PREFIX
    case Empty => EMPTY_TEXT
  }

  /**
   * `Display`: the variant's prefix followed by the description; `Empty`
   * writes only "FeedError".
   */
  function Display(e: FeedError): (t: string)
    ensures t == Prefix(e) + Description(e)
    ensures !e.Empty? ==> |Prefix(e)| <= |t| && t[|Prefix(e)|..] == Description(e)
  {
    match e
    case De(s) => DE_PREFIX + s
    case Web(s) => WEB_PREFIX + s
    case Generic(s) => GENERIC_PREFIX + s
    case Empty => EMPTY_TEXT
  }

  /** `From<quick_xml::Error>`: every such error becomes `new(e)`. */
  function FromXmlError(err: ForeignError): (e: FeedError)
    requires err.Xml?
    ensures e == New(Text(err))
  {
    match err
    case Xml(m) => New(m)
  }

  /** `From<quick_xml::DeError>`: every such error becomes `De(e.to_string())`. */
  function FromDeError(err: ForeignError): (e: FeedError)
    requires err.XmlDe?
    ensures e.De? && Description(e) == Text(err)
  {
    match err
    case XmlDe(m) => De(m)
  }

  /** The characters of the display text that tell the variants apart. */
  lemma DisplayHead(e: FeedError)
    ensures |Display(e)| > 5
    ensures Display(e)[4] == 'E' <==> e.Empty?
    ensures !e.Empty? ==> (Display(e)[5] == 'd' <==> e.De?) && (Display(e)[5] == 'w' <==> e.Web?)
  {
    var t := Display(e);
    assert t[..|Prefix(e)|] == Prefix(e);
    assert t[4] == Prefix(e)[4] && t[5] == Prefix(e)[5];
  }

  /** No two distinct feed errors display the same text. */
  lemma DisplayInjective(a: FeedError, b: FeedError)
    requires Display(a) == Display(b)
    ensures a == b
  {
    DisplayHead(a);
    DisplayHead(b);
    if !a.Empty? {
      assert Prefix(a) == Prefix(b);
      assert a.s == Display(a)[|Prefix(a)|..] == b.s;
    }
  }
}
