/**
 * Errors raised by the libraries the crate calls into (reqwest, quick_xml,
 * diesel, r2d2, tokio). Only what the crate observes of them is kept: the
 * text `to_string()` gives, and for diesel whether the error is `NotFound`.
 */
module Foreign {

  /** `diesel::result::Error`: `NotFound`, or any other failure with its text. */
  datatype DieselError = NotFound | QueryFailed(message: string)

  /** Display text of a diesel error (`NotFound` prints as "Record not found"). */
  function DieselText(e: DieselError): string
  {
    match e
    case NotFound => "Record not found"
    case QueryFailed(m) => m
  }

  /** The foreign error types the crate converts into its own errors. */
  datatype ForeignError =
    | Reqwest(message: string)       // reqwest::Error
    | Xml(message: string)           // quick_xml::Error
    | XmlDe(message: string)         // quick_xml::DeError
    | Diesel(diesel: DieselError)    // diesel::result::Error
    | Pool(message: string)          // r2d2::Error
    | Join(message: string)          // tokio::task::JoinError

  /** `err.to_string()` */
  function Text(err: ForeignError): string
  {
    match err
    case Reqwest(m) => m
    case Xml(m) => m
    case XmlDe(m) => m
    case Diesel(d) => DieselText(d)
    case Pool(m) => m
    case Join(m) => m
  }
}
