/**
 * The custom error page: `getInitialProps` picks a status and an error code from
 * the optional server response and error object, and the page picks the
 * descriptor it displays.
 */
module ErrorPage {
  import opened Wrappers
  import opened VercelErrors

  /** The server response as the page reads it: its status and its `x-vercel-error` header. */
  datatype ServerResponse = ServerResponse(statusCode: int, vercelErrorHeader: Option<string>)

  /** The error object as the page reads it: its `statusCode` and `code` properties. */
  datatype ErrorObject = ErrorObject(statusCode: Option<int>, code: Option<string>)

  /** The page's props; `None` is an undefined prop. */
  datatype Props = Props(statusCode: Option<int>, errorCode: Option<string>)

  predicate Truthy(s: Option<string>) {
    s.Some? && s.value != ""
  }

  /** `res ? res.statusCode : err ? err.statusCode : 404`. */
  function StatusOf(res: Option<ServerResponse>, err: Option<ErrorObject>): Option<int> {
    if res.Some? then Some(res.value.statusCode)
    else if err.Some? then err.value.statusCode
    else Some(404)
  }

  /** `err?.code || res?.headers?.['x-vercel-error']`. */
  function CodeOf(res: Option<ServerResponse>, err: Option<ErrorObject>): Option<string> {
    if err.Some? && Truthy(err.value.code) then err.value.code
    else if res.Some? then res.value.vercelErrorHeader
    else None
  }

  function GetInitialProps(res: Option<ServerResponse>, err: Option<ErrorObject>): (p: Props)
    ensures res.Some? ==> p.statusCode == Some(res.value.statusCode)
    ensures res.None? && err.Some? ==> p.statusCode == err.value.statusCode
    ensures res.None? && err.None? ==> p.statusCode == Some(404)
    ensures err.Some? && Truthy(err.value.code) ==> p.errorCode == err.value.code
    ensures !(err.Some? && Truthy(err.value.code)) ==>
              p.errorCode == if res.Some? then res.value.vercelErrorHeader else None
  {
    Props(StatusOf(res, err), CodeOf(res, err))
  }

  /** The descriptor shown when there is no error code. */
  function NoCodeDescriptor(statusCode: Option<int>): (e: VercelError)
    ensures e.code == "UNKNOWN_ERROR" && e.category == Internal
    ensures e.message == "An unexpected error occurred"
    ensures e.statusCode == if statusCode.Some? && statusCode.value != 0 then statusCode.value else 500
  {
    VercelError("UNKNOWN_ERROR", if statusCode.Some? && statusCode.value != 0 then statusCode.value else 500,
                Internal, "An unexpected error occurred")
  }

  /** `errorCode ? getVercelError(errorCode) : {UNKNOWN_ERROR, statusCode || 500, ...}`. */
  function Descriptor(p: Props): (e: VercelError)
    ensures Truthy(p.errorCode) && IsVercelError(p.errorCode.value) ==>
              (p.errorCode.value, e) in Registry && e.code == p.errorCode.value
    ensures Truthy(p.errorCode) && !IsVercelError(p.errorCode.value) ==> e == UnknownError
    ensures !Truthy(p.errorCode) ==> e == NoCodeDescriptor(p.statusCode)
  {
    if Truthy(p.errorCode) then
      var e := GetVercelError(p.errorCode.value);
      assert IsVercelError(p.errorCode.value) ==> e.code == p.errorCode.value by {
        if IsVercelError(p.errorCode.value) {
          LookupKeepsCode(p.errorCode.value);
        }
      }
      e
    else NoCodeDescriptor(p.statusCode)
  }

  /** An unknown code shows `UNKNOWN_ERROR` with status 500, whatever status the props carry. */
  lemma UnknownCodeIgnoresStatus(statusCode: Option<int>, code: string)
    requires code != "" && !IsVercelError(code)
    ensures Descriptor(Props(statusCode, Some(code))) == UnknownError
    ensures Descriptor(Props(statusCode, Some(code))).statusCode == 500
  {
  }

  /** With neither a response nor an error object the page shows a 404 `UNKNOWN_ERROR`. */
  lemma NothingGivenShows404()
    ensures Descriptor(GetInitialProps(None, None)) ==
            VercelError("UNKNOWN_ERROR", 404, Internal, "An unexpected error occurred")
  {
  }

  /** A status of 0, like an absent one, is shown as 500. */
  lemma ZeroStatusShows500(code: Option<string>)
    requires !Truthy(code)
    ensures Descriptor(Props(Some(0), code)).statusCode == 500
    ensures Descriptor(Props(None, code)).statusCode == 500
  {
  }

  /** The two fallbacks differ in status and message: a registry miss is not the no-code descriptor. */
  lemma FallbacksDiffer(statusCode: Option<int>)
    ensures NoCodeDescriptor(statusCode) != UnknownError
  {
  }
}
