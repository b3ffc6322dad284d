/** The error middleware (middlewares/errorHandler.middleware.js): it turns a
    thrown error into an HTTP status and a JSON body. The checks run one after
    another and a later match overrides an earlier one; `Classify` states the
    same outcome as a first match from the most specific case down. */
module ErrorHandling {
  import opened Wrappers
  import opened Text

  /** One entry of a ZodError's `errors`: where the value sits and what is wrong. */
  datatype ZodIssue = ZodIssue(path: seq<string>, message: string)

  datatype FieldError = FieldError(field: string, message: string)

  /** The fields of a thrown error the handler reads. An absent `statusCode`
      is 0, an absent `message` or `name` is "". `prismaCode` is present
      exactly for the ORM's known request errors. */
  datatype Thrown = Thrown(
    statusCode: int,
    message: string,
    errors: seq<FieldError>,
    name: string,
    prismaCode: Option<string>,
    issues: seq<ZodIssue>,
    kind: string,
    stack: string)

  /** The JSON body: `errors` only when there are some, the stack and the
      original message only in development. */
  datatype ErrorBody = ErrorBody(
    message: string,
    errors: Option<seq<FieldError>>,
    debug: Option<(string, string)>)

  /** Status and message for a known ORM error code. */
  function PrismaOutcome(code: string): (r: (int, string))
    ensures r.0 == (if code == "P2025" then 404 else 400)
    ensures code == "P2002" ==> r.1 == "A record with this value already exists"
    ensures code == "P2025" ==> r.1 == "Record not found"
    ensures code == "P2003" ==> r.1 == "Invalid reference"
    ensures code !in {"P2002", "P2025", "P2003"} ==> r.1 == "Database error"
  {
    match code
    case "P2002" => (400, "A record with this value already exists")
    case "P2025" => (404, "Record not found")
    case "P2003" => (400, "Invalid reference")
    case _ => (400, "Database error")
  }

  /** `{ field: e.path.join('.'), message: e.message }`. */
  function FieldErrors(issues: seq<ZodIssue>): (r: seq<FieldError>)
    ensures |r| == |issues|
    ensures forall i :: 0 <= i < |issues| ==> r[i] == FieldError(Join(issues[i].path, "."), issues[i].message)
  {
    seq(|issues|, i requires 0 <= i < |issues| => FieldError(Join(issues[i].path, "."), issues[i].message))
  }

  // ---------------------------------------------------------------------------
  // The outcome, stated case by case

  /** The status the handler answers with: the last check that matches wins. */
  function Status(e: Thrown): int {
    if e.kind == "StripeCardError" || e.name == "ZodError" then 400
    else if e.name == "TokenExpiredError" || e.name == "JsonWebTokenError" then 401
    else if e.prismaCode.Some? then PrismaOutcome(e.prismaCode.value).0
    else if e.statusCode != 0 then e.statusCode
    else 500
  }

  function Message(e: Thrown): string {
    if e.kind == "StripeCardError" then e.message
    else if e.name == "ZodError" then "Validation failed"
    else if e.name == "TokenExpiredError" then "Token expired"
    else if e.name == "JsonWebTokenError" then "Invalid token"
    else if e.prismaCode.Some? then PrismaOutcome(e.prismaCode.value).1
    else if e.message != "" then e.message
    else "Internal Server Error"
  }

  function Errors(e: Thrown): seq<FieldError> {
    if e.name == "ZodError" then FieldErrors(e.issues) else e.errors
  }

  /** The whole response for error `e`. */
  function Classify(e: Thrown, development: bool): (r: (int, ErrorBody))
    ensures r.1.errors.Some? <==> |Errors(e)| > 0
    ensures r.1.errors.Some? ==> r.1.errors.value == Errors(e)
    ensures r.1.debug.Some? <==> development
  {
    var errors := Errors(e);
    (Status(e), ErrorBody(Message(e),
                          if |errors| > 0 then Some(errors) else None,
                          if development then Some((e.stack, e.message)) else None))
  }

  // ---------------------------------------------------------------------------
  // The handler

  /** `errorHandler(err, req, res, next)`: defaults first, then each check in
      turn reassigns the status, the message and the error list. */
  method ErrorHandler(err: Thrown, development: bool) returns (statusCode: int, body: ErrorBody)
    ensures (statusCode, body) == Classify(err, development)
  {
    statusCode := if err.statusCode != 0 then err.statusCode else 500;
    var message := if err.message != "" then err.message else "Internal Server Error";
    var errors := err.errors;
    if err.prismaCode.Some? {
      var outcome := PrismaOutcome(err.prismaCode.value);
      statusCode, message := outcome.0, outcome.1;
    }
    if err.name == "JsonWebTokenError" {
      statusCode, message := 401, "Invalid token";
    }
    if err.name == "TokenExpiredError" {
      statusCode, message := 401, "Token expired";
    }
    if err.name == "ZodError" {
      statusCode, message := 400, "Validation failed";
      errors := FieldErrors(err.issues);
    }
    if err.kind == "StripeCardError" {
      statusCode, message := 400, err.message;
    }
    body := ErrorBody(message,
                      if |errors| > 0 then Some(errors) else None,
                      if development then Some((err.stack, err.message)) else None);
  }

  // ---------------------------------------------------------------------------
  // Properties

  /** The ORM codes: P2002 and P2003 are client errors, P2025 is "not found",
      and any other known code is a client error too. */
  lemma PrismaStatuses(e: Thrown)
    requires e.prismaCode.Some? && e.kind != "StripeCardError"
    requires e.name !in {"ZodError", "TokenExpiredError", "JsonWebTokenError"}
    ensures Status(e) == (if e.prismaCode.value == "P2025" then 404 else 400)
  {
  }

  /** A bad or expired token is always 401, whatever else the error carries
      (short of a card error or a validation error). */
  lemma TokenErrorsAre401(e: Thrown)
    requires e.name in {"TokenExpiredError", "JsonWebTokenError"} && e.kind != "StripeCardError"
    ensures Classify(e, false).0 == 401
    ensures Classify(e, false).1.message == (if e.name == "TokenExpiredError" then "Token expired" else "Invalid token")
  {
  }

  /** A validation error answers 400 and lists one field error per issue, with
      the path joined by dots; an error without issues has no `errors` field. */
  lemma ZodErrorsListed(e: Thrown, development: bool)
    requires e.name == "ZodError" && e.kind != "StripeCardError"
    ensures Classify(e, development).0 == 400
    ensures Classify(e, development).1.message == "Validation failed"
    ensures |e.issues| > 0 ==> Classify(e, development).1.errors == Some(FieldErrors(e.issues))
    ensures |e.issues| == 0 ==> Classify(e, development).1.errors.None?
  {
  }

  /** An error with nothing recognisable keeps its own status and message, or
      falls back to 500 and "Internal Server Error"; in production the body
      shows no stack. */
  lemma PlainErrorDefaults(e: Thrown)
    requires e.prismaCode.None? && e.kind != "StripeCardError"
    requires e.name !in {"ZodError", "TokenExpiredError", "JsonWebTokenError"}
    ensures Classify(e, false).0 == (if e.statusCode != 0 then e.statusCode else 500)
    ensures Classify(e, false).1.message == (if e.message != "" then e.message else "Internal Server Error")
    ensures Classify(e, false).1.debug.None?
  {
  }
}
