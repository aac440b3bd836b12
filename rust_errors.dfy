/** The Rust error taxonomy: context errors and repository errors become use
  * case errors, use case errors and request rejections become application
  * errors, and an application error becomes an HTTP status with a JSON body
  * whose `code` is the status number as text. */
module RustErrors {
  import opened Wrappers

  /** The boxed source of a data-access error: a database error (by its
    * message) or the context's own `NoActiveConnection`. */
  datatype Source = SqlError(message: string) | NoActiveConnectionSource

  /** `ContextError` of the connection provider. */
  datatype ContextError = NoActiveConnection | Acquire(sqlMessage: string)

  datatype RepositoryError = NotFound | DataAccess(source: Source)

  datatype UsecaseError = Validation(message: string) | NotFound | Conflict(message: string) | Unexpected(source: Source)

  datatype AppError = BadRequest(message: string) | NotFound(message: string) | Conflict(message: string) | Internal(message: string)

  /** An extractor rejection, by the text of its response body. */
  datatype Rejection = JsonRejection(bodyText: string) | PathRejection(bodyText: string)

  /** `ValidRejection<E>`: failed validation (by the text of the errors), or
    * the inner extractor's own rejection. */
  datatype ValidRejection = Valid(errorsText: string) | Inner(inner: Rejection)

  datatype ErrorBody = ErrorBody(code: string, message: string)

  /** The `Display` text of a data-access source. */
  function SourceText(s: Source): string
  {
    match s
    case SqlError(m) => m
    case NoActiveConnectionSource => "no active connection in context"
  }

  /** `From<ContextError> for RepositoryError`: both variants are data-access
    * failures; `NoActiveConnection` keeps itself as the source, `Acquire`
    * keeps the database error. */
  function FromContextError(e: ContextError): (r: RepositoryError)
    ensures r.DataAccess?
    ensures e.NoActiveConnection? <==> r.source == NoActiveConnectionSource
    ensures e.Acquire? ==> SourceText(r.source) == e.sqlMessage
  {
    match e
    case NoActiveConnection => DataAccess(NoActiveConnectionSource)
    case Acquire(m) => DataAccess(SqlError(m))
  }

  /** `From<RepositoryError> for UsecaseError`: not-found stays not-found, a
    * data-access failure becomes `Unexpected` with the same source. */
  function FromRepositoryError(e: RepositoryError): (r: UsecaseError)
    ensures r.NotFound? <==> e.NotFound?
    ensures r.Unexpected? <==> e.DataAccess?
    ensures e.DataAccess? ==> r.source == e.source
  {
    match e
    case NotFound => UsecaseError.NotFound
    case DataAccess(s) => Unexpected(s)
  }

  /** `conflict_from_already_completed` / `conflict_from_not_completed`: a
    * guard error becomes a conflict carrying the guard error's text. */
  function ConflictFrom(guardText: string): (r: UsecaseError)
    ensures r.Conflict? && r.message == guardText
  {
    UsecaseError.Conflict(guardText)
  }

  /** `From<UsecaseError> for AppError`. */
  function FromUsecaseError(e: UsecaseError): (r: AppError)
    ensures e.Validation? <==> r.BadRequest?
    ensures e.NotFound? <==> r.NotFound?
    ensures e.Conflict? <==> r.Conflict?
    ensures e.Unexpected? <==> r.Internal?
    ensures e.Validation? || e.Conflict? ==> r.message == e.message
    ensures e.NotFound? ==> r.message == "Todo not found"
    ensures e.Unexpected? ==> r.message == SourceText(e.source)
  {
    match e
    case Validation(m) => BadRequest(m)
    case NotFound => AppError.NotFound("Todo not found")
    case Conflict(m) => AppError.Conflict(m)
    case Unexpected(s) => Internal(SourceText(s))
  }

  /** `From<JsonRejection>` and `From<PathRejection>`: a bad request with the
    * rejection's body text. */
  function FromRejection(r: Rejection): (a: AppError)
    ensures a.BadRequest? && a.message == r.bodyText
  {
    BadRequest(r.bodyText)
  }

  /** `From<ValidRejection<E>>`: failed validation is a bad request with the
    * errors' text; an inner rejection is converted as the inner type is. */
  function FromValidRejection(r: ValidRejection): (a: AppError)
    ensures a.BadRequest?
    ensures r.Valid? ==> a.message == r.errorsText
    ensures r.Inner? ==> a == FromRejection(r.inner)
  {
    match r
    case Valid(t) => BadRequest(t)
    case Inner(inner) => FromRejection(inner)
  }

  /** The status `into_response` selects. */
  function Status(e: AppError): (code: nat)
    ensures 400 <= code < 600
  {
    match e
    case BadRequest(_) => 400
    case NotFound(_) => 404
    case Conflict(_) => 409
    case Internal(_) => 500
  }

  predicate IsDigit(c: char)
  {
    '0' <= c <= '9'
  }

  /** Decimal text of `n`, most significant digit first, no leading zeros. */
  function DecimalString(n: nat): (s: string)
    ensures |s| >= 1
    ensures forall i | 0 <= i < |s| :: IsDigit(s[i])
    ensures |s| > 1 ==> s[0] != '0'
  {
    if n < 10 then [('0' as int + n) as char]
    else DecimalString(n / 10) + [('0' as int + n % 10) as char]
  }

  function DigitValue(c: char): nat
    requires IsDigit(c)
  {
    c as int - '0' as int
  }

  /** Value of a string of decimal digits. */
  function ParseDecimal(s: string): nat
    requires forall i | 0 <= i < |s| :: IsDigit(s[i])
  {
    if s == [] then 0 else ParseDecimal(s[..|s| - 1]) * 10 + DigitValue(s[|s| - 1])
  }

  /** The decimal text of a number reads back as that number. */
  lemma {:induction false} ParseDecimalString(n: nat)
    ensures ParseDecimal(DecimalString(n)) == n
  {
    var s := DecimalString(n);
    if n >= 10 {
      assert s[..|s| - 1] == DecimalString(n / 10);
      ParseDecimalString(n / 10);
    }
  }

  /** `into_response`: the status and a body whose code is the status as
    * decimal text and whose message is the error's own. */
  function IntoResponse(e: AppError): (r: (nat, ErrorBody))
    ensures r.0 == Status(e) && r.1.message == e.message
    ensures (forall i | 0 <= i < |r.1.code| :: IsDigit(r.1.code[i])) && ParseDecimal(r.1.code) == r.0
  {
    ParseDecimalString(Status(e));
    (Status(e), ErrorBody(DecimalString(Status(e)), e.message))
  }

  /** The four bodies carry the codes "400", "404", "409" and "500". */
  lemma StatusCodeTexts(m: string)
    ensures IntoResponse(BadRequest(m)).1.code == "400"
    ensures IntoResponse(AppError.NotFound(m)).1.code == "404"
    ensures IntoResponse(AppError.Conflict(m)).1.code == "409"
    ensures IntoResponse(Internal(m)).1.code == "500"
  {
    assert DecimalString(40) == "40" && DecimalString(50) == "50";
  }

  /** End to end, a repository error answers 404 exactly when it is
    * not-found, otherwise 500, and context errors always answer 500. */
  lemma RepositoryErrorStatus(e: RepositoryError, c: ContextError)
    ensures Status(FromUsecaseError(FromRepositoryError(e))) == if e.NotFound? then 404 else 500
    ensures Status(FromUsecaseError(FromRepositoryError(FromContextError(c)))) == 500
  {
  }

  /** A guard conflict answers 409 with the guard's text as the message. */
  lemma ConflictAnswers409(guardText: string)
    ensures IntoResponse(FromUsecaseError(ConflictFrom(guardText))) == (409, ErrorBody("409", guardText))
  {
    StatusCodeTexts(guardText);
  }

  /** Every rejection of a request answers 400. */
  lemma RejectionsAnswer400(r: ValidRejection)
    ensures Status(FromValidRejection(r)) == 400
  {
  }
}
