/**
 * The edge middleware: it forwards the upstream response unless that response
 * carries an `x-vercel-error` header naming a registered code, in which case it
 * answers with that code's JSON envelope; a failure answers with the fallback
 * envelope. Also the path rule that decides which requests it runs on.
 */
module Middleware {
  import opened Wrappers
  import opened VercelErrors
  import opened Envelopes
  import Text

  /** The upstream response: its status, its value of `x-vercel-error` (if any) and whatever else it holds. */
  datatype Upstream = Upstream(status: int, vercelErrorHeader: Option<string>, rest: seq<(string, string)>)

  /** What fetching the upstream response gave: a response, or an exception. */
  datatype Next = Responded(response: Upstream) | Failed

  /** The middleware's answer: the upstream response as it was, or a new JSON response. */
  datatype Answer =
    | Forward(upstream: Upstream)
    | Json(status: int, headers: map<string, string>, body: Envelope)

  /** The headers of every envelope response. */
  const JsonHeaders: map<string, string> :=
    map["Content-Type" := "application/json", "Cache-Control" := "no-store, max-age=0"]

  /** `vercelErrorCode && isVercelError(vercelErrorCode)`. */
  predicate HeaderNamesKnownCode(h: Option<string>) {
    h.Some? && h.value != "" && IsVercelError(h.value)
  }

  function Run(next: Next): (r: Answer)
    ensures r.Json? ==> r.headers == JsonHeaders && r.status == r.body.statusCode
    ensures next.Failed? ==> r == Json(500, JsonHeaders, UnexpectedEnvelope)
    ensures next.Responded? && !HeaderNamesKnownCode(next.response.vercelErrorHeader) ==>
              r == Forward(next.response)
    ensures next.Responded? && HeaderNamesKnownCode(next.response.vercelErrorHeader) ==>
              var code := next.response.vercelErrorHeader.value;
              (code, GetVercelError(code)) in Registry &&
              r == Json(GetVercelError(code).statusCode, JsonHeaders, EnvelopeOf(GetVercelError(code)))
  {
    match next
    case Failed => Json(500, JsonHeaders, UnexpectedEnvelope)
    case Responded(response) =>
      var h := response.vercelErrorHeader;
      if HeaderNamesKnownCode(h) then
        var e := GetVercelError(h.value);
        Json(e.statusCode, JsonHeaders, EnvelopeOf(e))
      else
        Forward(response)
  }

  /** Without the header the upstream response goes through untouched. */
  lemma NoHeaderForwards(u: Upstream)
    requires u.vercelErrorHeader.None?
    ensures Run(Responded(u)) == Forward(u)
  {
  }

  /** A header that names no registered code is ignored as well. */
  lemma UnknownHeaderForwards(u: Upstream)
    requires u.vercelErrorHeader.Some? && !IsVercelError(u.vercelErrorHeader.value)
    ensures Run(Responded(u)) == Forward(u)
  {
  }

  /** The middleware never answers with the `UNKNOWN_ERROR` descriptor, and always names the header's code. */
  lemma NeverUnknownError(next: Next)
    ensures Run(next).Json? ==> Run(next).body != EnvelopeOf(UnknownError)
    ensures Run(next).Json? && next.Responded? ==> Run(next).body.code == next.response.vercelErrorHeader.value
  {
    if next.Responded? && HeaderNamesKnownCode(next.response.vercelErrorHeader) {
      var code := next.response.vercelErrorHeader.value;
      LookupKeepsCode(code);
      UnknownCodeNotRegistered();
    }
  }

  // ----- which paths the middleware runs on -----

  /** The excluded alternatives of the lookahead; `favicon.ico` is a pattern whose `.` matches any character. */
  predicate ExcludedStart(rest: string) {
    Text.StartsWith(rest, "api") || Text.StartsWith(rest, "_next/static") ||
    Text.StartsWith(rest, "_next/image") ||
    (|rest| >= 11 && rest[..7] == "favicon" && rest[8..11] == "ico")
  }

  /** `/((?!api|_next/static|_next/image|favicon.ico).*)` against the whole path. */
  predicate Matches(path: string) {
    |path| >= 1 && path[0] == '/' && !ExcludedStart(path[1..])
  }

  /** A prefix of `s` is a prefix of every extension of `s`. */
  lemma StartsWithExtends(s: string, t: string, prefix: string)
    requires Text.StartsWith(s, prefix)
    ensures Text.StartsWith(s + t, prefix)
  {
    assert (s + t)[..|prefix|] == s[..|prefix|];
  }

  /** The rule is a prefix test: once a path is excluded, so is every longer path that starts with it. */
  lemma ExclusionIsByPrefix(path: string, more: string)
    requires |path| >= 1 && path[0] == '/' && !Matches(path)
    ensures !Matches(path + more)
  {
    var rest := path[1..];
    assert (path + more)[1..] == rest + more;
    if Text.StartsWith(rest, "api") {
      StartsWithExtends(rest, more, "api");
    } else if Text.StartsWith(rest, "_next/static") {
      StartsWithExtends(rest, more, "_next/static");
    } else if Text.StartsWith(rest, "_next/image") {
      StartsWithExtends(rest, more, "_next/image");
    } else {
      assert (rest + more)[..7] == rest[..7] && (rest + more)[8..11] == rest[8..11];
    }
  }

  /** A rest of the path whose first character is none of `a`, `_`, `f` is never excluded. */
  lemma OtherFirstCharacterMatches(rest: string)
    requires rest != [] && rest[0] != 'a' && rest[0] != '_' && rest[0] != 'f'
    ensures !ExcludedStart(rest)
  {
    if |rest| >= 3 {
      assert rest[..3][0] == rest[0];
    }
    if |rest| >= 12 {
      assert rest[..12][0] == rest[0];
    }
    if |rest| >= 11 {
      assert rest[..11][0] == rest[0] && rest[..7][0] == rest[0];
    }
  }

  /** Some paths the middleware runs on. */
  lemma MatchedExamples()
    ensures Matches("/") && Matches("/dashboard") && Matches("/next/image")
  {
    OtherFirstCharacterMatches("dashboard");
    OtherFirstCharacterMatches("next/image");
    assert "/dashboard"[1..] == "dashboard" && "/next/image"[1..] == "next/image";
  }

  /** Some paths it skips; the last two show the prefix test and the unescaped `.`. */
  lemma SkippedExamples()
    ensures !Matches("/api/auth/login") && !Matches("/_next/static/chunk.js") && !Matches("dashboard")
    ensures !Matches("/apiary") && !Matches("/favicon-ico")
  {
    assert "/apiary"[1..][..3] == "api";
    assert "/api/auth/login"[1..][..3] == "api";
    assert "/_next/static/chunk.js"[1..][..12] == "_next/static";
    assert "/favicon-ico"[1..][..7] == "favicon" && "/favicon-ico"[1..][8..11] == "ico";
  }
}
