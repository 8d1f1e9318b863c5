/**
 * The JSON error envelope `{error: {code, message, statusCode, category}}` that the
 * API wrapper and the middleware both send, and its fixed fallback.
 */
module Envelopes {
  import opened VercelErrors

  datatype Envelope = Envelope(code: string, message: string, statusCode: int, category: Category)

  /** The envelope built field by field from a registry descriptor. */
  function EnvelopeOf(e: VercelError): (r: Envelope)
    ensures r.code == e.code && r.message == e.message
    ensures r.statusCode == e.statusCode && r.category == e.category
  {
    Envelope(e.code, e.message, e.statusCode, e.category)
  }

  /** The envelope sent for anything that is not a registered code. */
  const UnexpectedEnvelope: Envelope :=
    Envelope("INTERNAL_UNEXPECTED_ERROR", "An unexpected error occurred", 500, Internal)

  /** The registry entry stored under `INTERNAL_UNEXPECTED_ERROR`. */
  const RegisteredUnexpected: VercelError :=
    VercelError("INTERNAL_UNEXPECTED_ERROR", 500, Internal, "Internal unexpected error occurred")

  lemma RegisteredUnexpectedIsInRegistry()
    ensures Registry[50] == ("INTERNAL_UNEXPECTED_ERROR", RegisteredUnexpected)
  {
    assert Registry[50] == InternalErrors[8];
  }

  /**
   * The fallback envelope is a literal: it has the code, status and category of the
   * registry's `INTERNAL_UNEXPECTED_ERROR` entry but not its message.
   */
  lemma FallbackIsNotTheRegistryEntry()
    ensures GetVercelError("INTERNAL_UNEXPECTED_ERROR") == RegisteredUnexpected
    ensures UnexpectedEnvelope != EnvelopeOf(RegisteredUnexpected)
    ensures UnexpectedEnvelope == EnvelopeOf(RegisteredUnexpected).(message := "An unexpected error occurred")
  {
    RegisteredUnexpectedIsInRegistry();
    LookupRegistered(50);
  }
}
