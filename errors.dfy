/** The error taxonomy of `azure_core` (sdk/core/src/error.rs): a closed set
    of kinds, and an error value that carries one kind plus an optional
    message and an optional wrapped cause. */
module Errors {
  import opened Wrappers
  import opened Primitives

  /** `ErrorKind`. */
  datatype ErrorKind =
    | HttpResponse(status: uint16, errorCode: Option<string>)
    | Io
    | DataConversion
    | Credential
    | Other

  /** A boxed `dyn std::error::Error`: a foreign error known only by its
      `Display` text, or an `azure_core` error wrapped as a cause. */
  datatype Cause =
    | IoError(text: string)         // std::io::Error
    | JsonError(text: string)       // serde_json::Error
    | UrlParseError(text: string)   // url::ParseError
    | ForeignError(text: string)    // any other error or message converted into a box
    | Nested(error: Error)

  /** `Custom`: a kind together with the wrapped cause. */
  datatype Custom = Custom(kind: ErrorKind, error: Cause)

  /** The private `Context` enum of error.rs: how much was attached to the kind. */
  datatype ErrorContext =
    | Simple(kind: ErrorKind)
    | Message(kind: ErrorKind, message: string)
    | CustomContext(custom: Custom)
    | Full(custom: Custom, message: string)

  datatype Error = Error(context: ErrorContext)

  /** `azure_core::Result<T>` is `Result<T, Error>`. */

  /** `Display for ErrorKind`. */
  function KindText(kind: ErrorKind): (s: string)
    ensures kind.HttpResponse? ==>
      s == "HttpResponse(" + Decimal(kind.status) + ", "
        + (if kind.errorCode.Some? then kind.errorCode.value else "unknown") + ")"
    ensures kind.Credential? ==> s == "Credential"
    ensures kind.DataConversion? ==> s == "DataConversion"
    ensures kind.Io? ==> s == "Io"
    ensures kind.Other? ==> s == "Other"
  {
    match kind
    case HttpResponse(status, code) =>
      "HttpResponse(" + Decimal(status) + ", " + (if code.Some? then code.value else "unknown") + ")"
    case Credential => "Credential"
    case DataConversion => "DataConversion"
    case Io => "Io"
    case Other => "Other"
  }

  /** `ErrorKind::into_error`: the bare kind, nothing attached. */
  function IntoError(kind: ErrorKind): (e: Error)
    ensures Kind(e) == kind && Source(e) == None
    ensures Display(e) == KindText(kind)
  {
    Error(Simple(kind))
  }

  /** `From<ErrorKind> for Error`. */
  function FromKind(kind: ErrorKind): (e: Error)
    ensures Kind(e) == kind && Source(e) == None
    ensures Display(e) == KindText(kind)
  {
    Error(Simple(kind))
  }

  /** `Error::new`: wraps an underlying failure. */
  function New(kind: ErrorKind, error: Cause): (e: Error)
    ensures Kind(e) == kind && Source(e) == Some(error)
    ensures Display(e) == CauseText(error)
  {
    Error(CustomContext(Custom(kind, error)))
  }

  /** `Error::message`. */
  function FromMessage(kind: ErrorKind, message: string): (e: Error)
    ensures Kind(e) == kind && Source(e) == None
    ensures Display(e) == message
  {
    Error(Message(kind, message))
  }

  /** `Error::with_message`: the message is produced by a closure. */
  function WithMessage(kind: ErrorKind, message: () -> string): (e: Error)
    ensures Kind(e) == kind && Source(e) == None
    ensures Display(e) == message()
  {
    Error(Message(kind, message()))
  }

  /** `Error::kind`: the one kind every error has, whatever is attached. */
  function Kind(e: Error): ErrorKind {
    match e.context
    case Simple(kind) => kind
    case Message(kind, _) => kind
    case CustomContext(Custom(kind, _)) => kind
    case Full(Custom(kind, _), _) => kind
  }

  /** `Display for Error`. */
  function Display(e: Error): string
    decreases e, 1
  {
    match e.context
    case Simple(kind) => KindText(kind)
    case Message(_, message) => message
    case CustomContext(Custom(_, error)) => CauseText(error)
    case Full(_, message) => message
  }

  /** The `Display` text of a wrapped cause. */
  function CauseText(c: Cause): string
    decreases c, 0
  {
    match c
    case IoError(text) => text
    case JsonError(text) => text
    case UrlParseError(text) => text
    case ForeignError(text) => text
    case Nested(error) => Display(error)
  }

  /** `std::error::Error::source`. */
  function Source(e: Error): (r: Option<Cause>)
    ensures r.Some? <==> e.context.CustomContext? || e.context.Full?
  {
    match e.context
    case CustomContext(Custom(_, error)) => Some(error)
    case Full(Custom(_, error), _) => Some(error)
    case _ => None
  }

  /** `From<std::io::Error> for Error`. */
  function FromIoError(text: string): (e: Error)
    ensures Kind(e) == Io && Source(e) == Some(IoError(text))
  {
    New(Io, IoError(text))
  }

  /** `From<serde_json::Error> for Error`. */
  function FromJsonError(text: string): (e: Error)
    ensures Kind(e) == DataConversion && Source(e) == Some(JsonError(text))
  {
    New(DataConversion, JsonError(text))
  }

  /** `From<url::ParseError> for Error`. */
  function FromUrlParseError(text: string): (e: Error)
    ensures Kind(e) == DataConversion && Source(e) == Some(UrlParseError(text))
  {
    New(DataConversion, UrlParseError(text))
  }

  /** `ResultExt::map_kind`: an error becomes a `Custom` error of `kind`
      wrapping it. */
  function MapKind<T>(r: Result<T, Cause>, kind: ErrorKind): (r': Result<T, Error>)
    ensures r.Ok? <==> r'.Ok?
    ensures r.Ok? ==> r'.value == r.value
    ensures r.Err? ==> Kind(r'.error) == kind && Source(r'.error) == Some(r.error)
    ensures r.Err? ==> Display(r'.error) == CauseText(r.error)
  {
    match r
    case Ok(v) => Ok(v)
    case Err(e) => Err(New(kind, e))
  }

  /** `ResultExt::context`: an error becomes a `Full` error of `kind`
      that displays `message` and keeps the original error as its source. */
  function Context<T>(r: Result<T, Cause>, kind: ErrorKind, message: string): (r': Result<T, Error>)
    ensures r.Ok? <==> r'.Ok?
    ensures r.Ok? ==> r'.value == r.value
    ensures r.Err? ==> Kind(r'.error) == kind && Source(r'.error) == Some(r.error)
    ensures r.Err? ==> Display(r'.error) == message
  {
    match r
    case Ok(v) => Ok(v)
    case Err(e) => Err(Error(Full(Custom(kind, e), message)))
  }

  /** `ResultExt::with_context`: `context` with a message produced by a closure. */
  function WithContext<T>(r: Result<T, Cause>, kind: ErrorKind, message: () -> string): (r': Result<T, Error>)
    ensures r' == Context(r, kind, message())
  {
    Context(r, kind, message())
  }

  /** A run of digits followed by a comma splits uniquely. */
  lemma DigitsThenComma(d1: string, r1: string, d2: string, r2: string)
    requires forall i | 0 <= i < |d1| :: IsDigit(d1[i])
    requires forall i | 0 <= i < |d2| :: IsDigit(d2[i])
    requires r1 != [] && r1[0] == ',' && r2 != [] && r2[0] == ','
    requires d1 + r1 == d2 + r2
    ensures d1 == d2 && r1 == r2
  {
    DigitPrefixOf(d1, r1);
    DigitPrefixOf(d2, r2);
    assert d1 == (d1 + r1)[..|d1|] && r1 == (d1 + r1)[|d1|..];
    assert d2 == (d2 + r2)[..|d2|] && r2 == (d2 + r2)[|d2|..];
  }

  /** The text of an HTTP-response kind determines its status and the
      rendered error code. */
  lemma HttpTextInjective(status1: uint16, c1: string, status2: uint16, c2: string)
    requires "HttpResponse(" + Decimal(status1) + ", " + c1 + ")"
          == "HttpResponse(" + Decimal(status2) + ", " + c2 + ")"
    ensures status1 == status2 && c1 == c2
  {
    var p := "HttpResponse(";
    var d1, d2 := Decimal(status1), Decimal(status2);
    var r1, r2 := ", " + c1 + ")", ", " + c2 + ")";
    var t := p + d1 + ", " + c1 + ")";
    assert t == p + (d1 + r1);
    assert t == p + (d2 + r2);
    // The first ',' after the prefix ends the status digits.
    assert t[|p|..] == d1 + r1 && t[|p|..] == d2 + r2;
    DigitsThenComma(d1, r1, d2, r2);
    DecimalInjective(status1, status2);
    assert c1 == r1[2..|r1| - 1] && c2 == r2[2..|r2| - 1];
  }

  /** Only HTTP-response kinds render with the `HttpResponse(` prefix, and two
      kinds render alike only when they are equal or are the same status with
      no error code and with the code "unknown". */
  lemma KindTextInjective(k1: ErrorKind, k2: ErrorKind)
    requires KindText(k1) == KindText(k2)
    ensures k1 == k2 || (
      k1.HttpResponse? && k2.HttpResponse? && k1.status == k2.status &&
      (if k1.errorCode.Some? then k1.errorCode.value else "unknown") ==
      (if k2.errorCode.Some? then k2.errorCode.value else "unknown"))
  {
    if k1.HttpResponse? && k2.HttpResponse? {
      HttpTextInjective(k1.status, if k1.errorCode.Some? then k1.errorCode.value else "unknown",
                        k2.status, if k2.errorCode.Some? then k2.errorCode.value else "unknown");
    }
  }
}
