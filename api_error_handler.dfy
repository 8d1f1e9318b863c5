/**
 * `withErrorHandler`: runs an API handler and, when it throws, answers with the
 * registry envelope of the thrown code or with the fixed fallback envelope.
 */
module ApiErrorHandler {
  import opened Wrappers
  import opened VercelErrors
  import opened Envelopes

  /**
   * A thrown value as the wrapper reads it: its `code` and `message` properties.
   * `None` is an absent or undefined property.
   */
  datatype Thrown = Thrown(code: Option<string>, message: Option<string>)

  /** How the wrapped handler ended. */
  datatype Outcome = Completed | Threw(error: Thrown)

  /** The status and JSON body the wrapper writes with `res.status(..).json(..)`. */
  datatype Reply = Reply(status: int, body: Envelope)

  /** JavaScript truthiness of an optional string: present and not empty. */
  predicate Truthy(s: Option<string>) {
    s.Some? && s.value != ""
  }

  /** `error.code || error.message`. */
  function ExaminedCode(e: Thrown): (r: Option<string>)
    ensures Truthy(e.code) ==> r == e.code
    ensures !Truthy(e.code) ==> r == e.message
  {
    if Truthy(e.code) then e.code else e.message
  }

  /** `isVercelError(code)`, where an undefined code is never a key. */
  predicate IsKnown(code: Option<string>) {
    code.Some? && IsVercelError(code.value)
  }

  /** The catch branch: the reply for a thrown value. */
  function CatchReply(e: Thrown): (r: Reply)
    ensures r.status == r.body.statusCode
    ensures IsKnown(ExaminedCode(e)) ==>
              var v := GetVercelError(ExaminedCode(e).value);
              (ExaminedCode(e).value, v) in Registry && r == Reply(v.statusCode, EnvelopeOf(v))
    ensures !IsKnown(ExaminedCode(e)) ==> r == Reply(500, UnexpectedEnvelope)
  {
    var code := ExaminedCode(e);
    if IsKnown(code) then
      var v := GetVercelError(code.value);
      Reply(v.statusCode, EnvelopeOf(v))
    else
      Reply(500, UnexpectedEnvelope)
  }

  /** The wrapper: `None` when the handler completed, so the wrapper writes nothing of its own. */
  function WithErrorHandler(o: Outcome): (r: Option<Reply>)
    ensures o.Completed? <==> r.None?
    ensures o.Threw? ==> r == Some(CatchReply(o.error))
  {
    match o
    case Completed => None
    case Threw(e) => Some(CatchReply(e))
  }

  /** The envelope of a known code carries that code, so the reply names the code examined. */
  lemma KnownCodeIsEchoed(e: Thrown)
    requires IsKnown(ExaminedCode(e))
    ensures CatchReply(e).body.code == ExaminedCode(e).value
  {
    LookupKeepsCode(ExaminedCode(e).value);
  }

  /** A truthy `code` is examined even when it is unknown and `message` is a known code. */
  lemma TruthyUnknownCodeWins(e: Thrown)
    requires Truthy(e.code) && !IsVercelError(e.code.value)
    ensures CatchReply(e) == Reply(500, UnexpectedEnvelope)
  {
  }

  /** A falsy `code` hands the decision to `message`. */
  lemma FalsyCodeDefersToMessage(e: Thrown)
    requires !Truthy(e.code)
    ensures CatchReply(e) == CatchReply(Thrown(None, e.message))
  {
  }

  /** The usage example: `throw new Error('FUNCTION_INVOCATION_FAILED')` sets no `code`. */
  lemma ExampleFunctionInvocationFailed()
    ensures WithErrorHandler(Threw(Thrown(None, Some("FUNCTION_INVOCATION_FAILED")))) ==
            Some(Reply(500, Envelope("FUNCTION_INVOCATION_FAILED", "Function invocation failed", 500, Function)))
  {
    assert Registry[5] == FunctionErrors[5];
    LookupRegistered(5);
  }
}
