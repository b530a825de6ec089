/** The HTTP errors the API answers with: a status code and a message. */
module Errors {

  /** An error message: a text, or the field-by-field failures of a validation. */
  datatype Message = Text(text: string) | Fields(errors: map<string, string>)
  datatype HttpError = HttpError(code: int, message: Message)

  const StatusOK := 200
  const StatusCreated := 201
  const StatusBadRequest := 400
  const StatusForbidden := 403
  const StatusNotFound := 404
  const StatusMethodNotAllowed := 405
  const StatusConflict := 409
  const StatusUnprocessableEntity := 422
  const StatusTooManyRequests := 429
  const StatusInternalServerError := 500

  const InternalServerMessage := "the server encountered a problem and could not process your request"
  const NotFoundMessage := "the requested resource could not be found"
  const EditConflictMessage := "unable to update the record due to an edit conflict, please try again"
  const RateLimitMessage := "rate limit exceeded"
  const ForbiddenMessage := "forbidden"

  /** The first optional argument when it is given and not empty, else the default. */
  function FirstOr(args: seq<string>, default: string): (msg: string)
    ensures |args| > 0 && args[0] != "" ==> msg == args[0]
    ensures |args| == 0 || args[0] == "" ==> msg == default
  {
    if |args| > 0 && args[0] != "" then args[0] else default
  }

  /**
   * A server error. The cause and the log message only go to the log, which
   * is not modelled; the client sees a fixed text.
   */
  function ErrInternalServer<E>(err: E, message: string): (e: HttpError)
    ensures e.code == StatusInternalServerError && e.message == Text(InternalServerMessage)
  {
    HttpError(StatusInternalServerError, Text(InternalServerMessage))
  }

  function ErrNotFound(customMsg: seq<string>): (e: HttpError)
    ensures e.code == StatusNotFound
    ensures e.message == Text(FirstOr(customMsg, NotFoundMessage))
  {
    HttpError(StatusNotFound, Text(FirstOr(customMsg, NotFoundMessage)))
  }

  /** The method name sits after "the ", followed by a fixed 42-character tail. */
  function MethodNotAllowedText(verb: string): (r: string)
    ensures |r| == |verb| + 46
    ensures r[..4] == "the " && r[4..4 + |verb|] == verb
    ensures r[4 + |verb|..] == " method is not supported for this resource"
  {
    "the " + verb + " method is not supported for this resource"
  }

  function ErrMethodNotAllowed(verb: string): (e: HttpError)
    ensures e.code == StatusMethodNotAllowed
    ensures e.message.Text? && |e.message.text| == |verb| + 46
    ensures e.message.Text? ==> e.message.text[4..4 + |verb|] == verb
  {
    HttpError(StatusMethodNotAllowed, Text(MethodNotAllowedText(verb)))
  }

  function ErrBadRequest(message: string): (e: HttpError)
    ensures e.code == StatusBadRequest && e.message == Text(message)
  {
    HttpError(StatusBadRequest, Text(message))
  }

  /** A validation failure carries the failure map itself as its message. */
  function ErrFailedValidation(errmap: map<string, string>): (e: HttpError)
    ensures e.code == StatusUnprocessableEntity && e.message == Fields(errmap)
  {
    HttpError(StatusUnprocessableEntity, Fields(errmap))
  }

  function ErrEditConflict(): (e: HttpError)
    ensures e.code == StatusConflict && e.message == Text(EditConflictMessage)
  {
    HttpError(StatusConflict, Text(EditConflictMessage))
  }

  function ErrRateLimitExceeded(): (e: HttpError)
    ensures e.code == StatusTooManyRequests && e.message == Text(RateLimitMessage)
  {
    HttpError(StatusTooManyRequests, Text(RateLimitMessage))
  }

  function ErrForbidden(message: seq<string>): (e: HttpError)
    ensures e.code == StatusForbidden
    ensures e.message == Text(FirstOr(message, ForbiddenMessage))
  {
    HttpError(StatusForbidden, Text(FirstOr(message, ForbiddenMessage)))
  }

  /** Whatever went wrong, a client cannot tell one server error from another. */
  lemma InternalServerHidesCause<E>(err1: E, err2: E, message1: string, message2: string)
    ensures ErrInternalServer(err1, message1) == ErrInternalServer(err2, message2)
  {
  }

  /** The method name can be read back from the message: distinct methods give distinct errors. */
  lemma MethodNotAllowedInjective(a: string, b: string)
    requires ErrMethodNotAllowed(a) == ErrMethodNotAllowed(b)
    ensures a == b
  {
    var ta, tb := MethodNotAllowedText(a), MethodNotAllowedText(b);
    assert |ta| == |a| + 46 && |tb| == |b| + 46;
    assert ta[4..4 + |a|] == a;
    assert tb[4..4 + |b|] == b;
  }

  /** The not-found and forbidden defaults only apply to an absent or empty first argument. */
  lemma DefaultsOnlyWhenEmpty(args: seq<string>)
    requires |args| > 0 && args[0] != ""
    ensures ErrNotFound(args).message == Text(args[0]) && ErrForbidden(args).message == Text(args[0])
  {
  }
}
