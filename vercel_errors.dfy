/**
 * The platform error registry: a constant table from symbolic error code to
 * descriptor (HTTP status, category, message), its total lookup with a fixed
 * fallback, the membership test, and the two filtered views over its values.
 *
 * The table is written section by section, as in the source, and the registry
 * is their concatenation in declaration order.
 */
module VercelErrors {
  import opened Wrappers
  import ListOps

  /** The nine categories a descriptor can belong to. */
  datatype Category = Function | Deployment | Runtime | DNS | Routing | Request | Image | Cache | Internal

  datatype VercelError = VercelError(code: string, statusCode: int, category: Category, message: string)

  /** A registry entry: the property name and the descriptor stored under it. */
  type Entry = (string, VercelError)

  /** The Function section of the registry. */
  const FunctionErrors: seq<Entry> := [
    ("BODY_NOT_A_STRING_FROM_FUNCTION", VercelError("BODY_NOT_A_STRING_FROM_FUNCTION", 502, Function, "The function response body is not a valid string")),
    ("MIDDLEWARE_INVOCATION_FAILED", VercelError("MIDDLEWARE_INVOCATION_FAILED", 500, Function, "Middleware function invocation failed")),
    ("MIDDLEWARE_INVOCATION_TIMEOUT", VercelError("MIDDLEWARE_INVOCATION_TIMEOUT", 504, Function, "Middleware function invocation timed out")),
    ("EDGE_FUNCTION_INVOCATION_FAILED", VercelError("EDGE_FUNCTION_INVOCATION_FAILED", 500, Function, "Edge function invocation failed")),
    ("EDGE_FUNCTION_INVOCATION_TIMEOUT", VercelError("EDGE_FUNCTION_INVOCATION_TIMEOUT", 504, Function, "Edge function invocation timed out")),
    ("FUNCTION_INVOCATION_FAILED", VercelError("FUNCTION_INVOCATION_FAILED", 500, Function, "Function invocation failed")),
    ("FUNCTION_INVOCATION_TIMEOUT", VercelError("FUNCTION_INVOCATION_TIMEOUT", 504, Function, "Function invocation timed out")),
    ("FUNCTION_PAYLOAD_TOO_LARGE", VercelError("FUNCTION_PAYLOAD_TOO_LARGE", 413, Function, "Function payload is too large")),
    ("FUNCTION_RESPONSE_PAYLOAD_TOO_LARGE", VercelError("FUNCTION_RESPONSE_PAYLOAD_TOO_LARGE", 500, Function, "Function response payload is too large")),
    ("FUNCTION_THROTTLED", VercelError("FUNCTION_THROTTLED", 503, Function, "Function is being throttled")),
    ("NO_RESPONSE_FROM_FUNCTION", VercelError("NO_RESPONSE_FROM_FUNCTION", 502, Function, "No response received from function"))
  ]

  /** The Deployment section of the registry. */
  const DeploymentErrors: seq<Entry> := [
    ("DEPLOYMENT_BLOCKED", VercelError("DEPLOYMENT_BLOCKED", 403, Deployment, "Deployment is blocked")),
    ("DEPLOYMENT_PAUSED", VercelError("DEPLOYMENT_PAUSED", 503, Deployment, "Deployment is paused")),
    ("DEPLOYMENT_DISABLED", VercelError("DEPLOYMENT_DISABLED", 402, Deployment, "Deployment is disabled")),
    ("DEPLOYMENT_NOT_FOUND", VercelError("DEPLOYMENT_NOT_FOUND", 404, Deployment, "Deployment not found")),
    ("NOT_FOUND", VercelError("NOT_FOUND", 404, Deployment, "Resource not found")),
    ("DEPLOYMENT_DELETED", VercelError("DEPLOYMENT_DELETED", 410, Deployment, "Deployment has been deleted")),
    ("DEPLOYMENT_NOT_READY_REDIRECTING", VercelError("DEPLOYMENT_NOT_READY_REDIRECTING", 303, Deployment, "Deployment is not ready, redirecting"))
  ]

  /** The Runtime section of the registry. */
  const RuntimeErrors: seq<Entry> := [
    ("INFINITE_LOOP_DETECTED", VercelError("INFINITE_LOOP_DETECTED", 508, Runtime, "Infinite loop detected in runtime"))
  ]

  /** The DNS section of the registry. */
  const DnsErrors: seq<Entry> := [
    ("DNS_HOSTNAME_EMPTY", VercelError("DNS_HOSTNAME_EMPTY", 502, DNS, "DNS hostname is empty")),
    ("DNS_HOSTNAME_NOT_FOUND", VercelError("DNS_HOSTNAME_NOT_FOUND", 502, DNS, "DNS hostname not found")),
    ("DNS_HOSTNAME_RESOLVE_FAILED", VercelError("DNS_HOSTNAME_RESOLVE_FAILED", 502, DNS, "DNS hostname resolution failed")),
    ("DNS_HOSTNAME_RESOLVED_PRIVATE", VercelError("DNS_HOSTNAME_RESOLVED_PRIVATE", 404, DNS, "DNS hostname resolved to private IP")),
    ("DNS_HOSTNAME_SERVER_ERROR", VercelError("DNS_HOSTNAME_SERVER_ERROR", 502, DNS, "DNS server error"))
  ]

  /** The Routing section of the registry. */
  const RoutingErrors: seq<Entry> := [
    ("TOO_MANY_FORKS", VercelError("TOO_MANY_FORKS", 502, Routing, "Too many routing forks")),
    ("TOO_MANY_FILESYSTEM_CHECKS", VercelError("TOO_MANY_FILESYSTEM_CHECKS", 502, Routing, "Too many filesystem checks")),
    ("ROUTER_CANNOT_MATCH", VercelError("ROUTER_CANNOT_MATCH", 502, Routing, "Router cannot match the request")),
    ("ROUTER_EXTERNAL_TARGET_CONNECTION_ERROR", VercelError("ROUTER_EXTERNAL_TARGET_CONNECTION_ERROR", 502, Routing, "External target connection error")),
    ("ROUTER_EXTERNAL_TARGET_ERROR", VercelError("ROUTER_EXTERNAL_TARGET_ERROR", 502, Routing, "External target error")),
    ("ROUTER_TOO_MANY_HAS_SELECTIONS", VercelError("ROUTER_TOO_MANY_HAS_SELECTIONS", 502, Routing, "Too many has selections in router")),
    ("ROUTER_EXTERNAL_TARGET_HANDSHAKE_ERROR", VercelError("ROUTER_EXTERNAL_TARGET_HANDSHAKE_ERROR", 502, Routing, "External target handshake error"))
  ]

  /** The Request section of the registry. */
  const RequestErrors: seq<Entry> := [
    ("INVALID_REQUEST_METHOD", VercelError("INVALID_REQUEST_METHOD", 405, Request, "Invalid request method")),
    ("MALFORMED_REQUEST_HEADER", VercelError("MALFORMED_REQUEST_HEADER", 400, Request, "Malformed request header")),
    ("REQUEST_HEADER_TOO_LARGE", VercelError("REQUEST_HEADER_TOO_LARGE", 431, Request, "Request header too large")),
    ("RESOURCE_NOT_FOUND", VercelError("RESOURCE_NOT_FOUND", 404, Request, "Resource not found")),
    ("URL_TOO_LONG", VercelError("URL_TOO_LONG", 414, Request, "URL too long"))
  ]

  /** The Image section of the registry. */
  const ImageErrors: seq<Entry> := [
    ("INVALID_IMAGE_OPTIMIZE_REQUEST", VercelError("INVALID_IMAGE_OPTIMIZE_REQUEST", 400, Image, "Invalid image optimization request")),
    ("OPTIMIZED_EXTERNAL_IMAGE_REQUEST_FAILED", VercelError("OPTIMIZED_EXTERNAL_IMAGE_REQUEST_FAILED", 502, Image, "External image optimization request failed")),
    ("OPTIMIZED_EXTERNAL_IMAGE_REQUEST_INVALID", VercelError("OPTIMIZED_EXTERNAL_IMAGE_REQUEST_INVALID", 502, Image, "Invalid external image optimization request")),
    ("OPTIMIZED_EXTERNAL_IMAGE_REQUEST_UNAUTHORIZED", VercelError("OPTIMIZED_EXTERNAL_IMAGE_REQUEST_UNAUTHORIZED", 502, Image, "Unauthorized external image optimization request")),
    ("OPTIMIZED_EXTERNAL_IMAGE_TOO_MANY_REDIRECTS", VercelError("OPTIMIZED_EXTERNAL_IMAGE_TOO_MANY_REDIRECTS", 502, Image, "Too many redirects for external image optimization"))
  ]

  /** The Cache section of the registry. */
  const CacheErrors: seq<Entry> := [
    ("FALLBACK_BODY_TOO_LARGE", VercelError("FALLBACK_BODY_TOO_LARGE", 502, Cache, "Fallback body is too large"))
  ]

  /** The first twelve entries of the Internal section: function, deployment, router, static and image failures. */
  const InternalPlatformErrors: seq<Entry> := [
    ("INTERNAL_EDGE_FUNCTION_INVOCATION_FAILED", VercelError("INTERNAL_EDGE_FUNCTION_INVOCATION_FAILED", 500, Internal, "Internal edge function invocation failed")),
    ("INTERNAL_EDGE_FUNCTION_INVOCATION_TIMEOUT", VercelError("INTERNAL_EDGE_FUNCTION_INVOCATION_TIMEOUT", 500, Internal, "Internal edge function invocation timed out")),
    ("INTERNAL_FUNCTION_INVOCATION_FAILED", VercelError("INTERNAL_FUNCTION_INVOCATION_FAILED", 500, Internal, "Internal function invocation failed")),
    ("INTERNAL_FUNCTION_INVOCATION_TIMEOUT", VercelError("INTERNAL_FUNCTION_INVOCATION_TIMEOUT", 500, Internal, "Internal function invocation timed out")),
    ("INTERNAL_FUNCTION_NOT_FOUND", VercelError("INTERNAL_FUNCTION_NOT_FOUND", 500, Internal, "Internal function not found")),
    ("INTERNAL_FUNCTION_NOT_READY", VercelError("INTERNAL_FUNCTION_NOT_READY", 500, Internal, "Internal function not ready")),
    ("INTERNAL_DEPLOYMENT_FETCH_FAILED", VercelError("INTERNAL_DEPLOYMENT_FETCH_FAILED", 500, Internal, "Internal deployment fetch failed")),
    ("INTERNAL_UNARCHIVE_FAILED", VercelError("INTERNAL_UNARCHIVE_FAILED", 500, Internal, "Internal unarchive operation failed")),
    ("INTERNAL_UNEXPECTED_ERROR", VercelError("INTERNAL_UNEXPECTED_ERROR", 500, Internal, "Internal unexpected error occurred")),
    ("INTERNAL_ROUTER_CANNOT_PARSE_PATH", VercelError("INTERNAL_ROUTER_CANNOT_PARSE_PATH", 500, Internal, "Internal router cannot parse path")),
    ("INTERNAL_STATIC_REQUEST_FAILED", VercelError("INTERNAL_STATIC_REQUEST_FAILED", 500, Internal, "Internal static request failed")),
    ("INTERNAL_OPTIMIZED_IMAGE_REQUEST_FAILED", VercelError("INTERNAL_OPTIMIZED_IMAGE_REQUEST_FAILED", 500, Internal, "Internal optimized image request failed"))
  ]

  /** The last ten entries of the Internal section: cache, function service and microfrontends failures. */
  const InternalCacheErrors: seq<Entry> := [
    ("INTERNAL_CACHE_ERROR", VercelError("INTERNAL_CACHE_ERROR", 500, Internal, "Internal cache error")),
    ("INTERNAL_CACHE_KEY_TOO_LONG", VercelError("INTERNAL_CACHE_KEY_TOO_LONG", 500, Internal, "Internal cache key too long")),
    ("INTERNAL_CACHE_LOCK_FULL", VercelError("INTERNAL_CACHE_LOCK_FULL", 500, Internal, "Internal cache lock is full")),
    ("INTERNAL_CACHE_LOCK_TIMEOUT", VercelError("INTERNAL_CACHE_LOCK_TIMEOUT", 500, Internal, "Internal cache lock timeout")),
    ("INTERNAL_MISSING_RESPONSE_FROM_CACHE", VercelError("INTERNAL_MISSING_RESPONSE_FROM_CACHE", 500, Internal, "Internal missing response from cache")),
    ("INTERNAL_FUNCTION_SERVICE_UNAVAILABLE", VercelError("INTERNAL_FUNCTION_SERVICE_UNAVAILABLE", 500, Internal, "Internal function service unavailable")),
    ("INTERNAL_MICROFRONTENDS_INVALID_CONFIGURATION_ERROR", VercelError("INTERNAL_MICROFRONTENDS_INVALID_CONFIGURATION_ERROR", 500, Internal, "Internal microfrontends invalid configuration error")),
    ("INTERNAL_MICROFRONTENDS_BUILD_ERROR", VercelError("INTERNAL_MICROFRONTENDS_BUILD_ERROR", 500, Internal, "Internal microfrontends build error")),
    ("INTERNAL_MICROFRONTENDS_MIDDLEWARE_ERROR", VercelError("INTERNAL_MICROFRONTENDS_MIDDLEWARE_ERROR", 500, Internal, "Internal microfrontends middleware error")),
    ("INTERNAL_MICROFRONTENDS_UNEXPECTED_ERROR", VercelError("INTERNAL_MICROFRONTENDS_UNEXPECTED_ERROR", 500, Internal, "Internal microfrontends unexpected error"))
  ]

  /** The Internal section of the registry, written in two parts to keep each proof about it small. */
  const InternalErrors: seq<Entry> := InternalPlatformErrors + InternalCacheErrors

  /** `vercelErrors`, in declaration order. */
  const Registry: seq<Entry> :=
    FunctionErrors + DeploymentErrors + RuntimeErrors + DnsErrors + RoutingErrors +
    RequestErrors + ImageErrors + CacheErrors + InternalErrors

  /** The descriptor `getVercelError` returns for every code that is not a key. */
  const UnknownError: VercelError :=
    VercelError("UNKNOWN_ERROR", 500, Internal, "Unknown error occurred")

  function KeysOf(t: seq<Entry>): seq<string> {
    seq(|t|, i requires 0 <= i < |t| => t[i].0)
  }

  function DescriptorsOf(t: seq<Entry>): seq<VercelError> {
    seq(|t|, i requires 0 <= i < |t| => t[i].1)
  }

  /** `Object.keys(vercelErrors)`. */
  function Keys(): seq<string> {
    KeysOf(Registry)
  }

  /** `Object.values(vercelErrors)`. */
  function Values(): seq<VercelError> {
    DescriptorsOf(Registry)
  }

  /** The descriptor of the first entry of `t` whose key is `code`, if any. */
  function Find(t: seq<Entry>, code: string): (r: Option<VercelError>)
    ensures r.None? <==> forall i :: 0 <= i < |t| ==> t[i].0 != code
    ensures r.Some? ==> (code, r.value) in t
    ensures r.Some? ==> exists i :: 0 <= i < |t| && t[i] == (code, r.value) && forall j :: 0 <= j < i ==> t[j].0 != code
  {
    if t == [] then None
    else if t[0].0 == code then
      assert t[0] == (code, t[0].1);
      Some(t[0].1)
    else
      assert forall i :: 0 < i < |t| ==> t[i] == t[1..][i - 1];
      var r := Find(t[1..], code);
      assert r.Some? ==> exists i :: 0 < i < |t| && t[i] == (code, r.value) && forall j :: 0 <= j < i ==> t[j].0 != code by {
        if r.Some? {
          var i :| 0 <= i < |t[1..]| && t[1..][i] == (code, r.value) && forall j :: 0 <= j < i ==> t[1..][j].0 != code;
          assert t[i + 1] == (code, r.value);
          assert forall j :: 0 <= j < i + 1 ==> t[j].0 != code by {
            forall j | 0 <= j < i + 1
              ensures t[j].0 != code
            {
              if j > 0 {
                assert t[j] == t[1..][j - 1];
              }
            }
          }
        }
      }
      r
  }

  /** The value stored under `code` in `t`, or `fallback` when `code` is not a key of `t`. */
  function Lookup(t: seq<Entry>, code: string, fallback: VercelError): (r: VercelError)
    ensures code in KeysOf(t) ==> (code, r) in t
    ensures code !in KeysOf(t) ==> r == fallback
  {
    assert forall i {:trigger t[i]} :: 0 <= i < |t| ==> KeysOf(t)[i] == t[i].0;
    match Find(t, code)
    case Some(e) => e
    case None => fallback
  }

  /** `code in vercelErrors`. */
  predicate IsVercelError(code: string) {
    code in Keys()
  }

  /** `vercelErrors[code] || {UNKNOWN_ERROR, 500, Internal, ...}`. */
  function GetVercelError(code: string): (r: VercelError)
    ensures IsVercelError(code) ==> (code, r) in Registry
    ensures !IsVercelError(code) ==> r == UnknownError
  {
    Lookup(Registry, code, UnknownError)
  }

  function StatusIs(statusCode: int): VercelError -> bool {
    (e: VercelError) => e.statusCode == statusCode
  }

  function CategoryIs(category: Category): VercelError -> bool {
    (e: VercelError) => e.category == category
  }

  /** `Object.values(vercelErrors).filter(e => e.statusCode === statusCode)`. */
  function GetErrorByStatusCode(statusCode: int): seq<VercelError> {
    ListOps.Filter(Values(), StatusIs(statusCode))
  }

  /** `Object.values(vercelErrors).filter(e => e.category === category)`. */
  function GetErrorsByCategory(category: Category): seq<VercelError> {
    ListOps.Filter(Values(), CategoryIs(category))
  }

  // ----- facts about the sections -----

  /** Each entry of `t` is stored under its own code. */
  predicate KeyedByCode(t: seq<Entry>) {
    forall i :: 0 <= i < |t| ==> t[i].0 == t[i].1.code
  }

  /** Each descriptor of `t` belongs to category `c`. */
  predicate InCategory(t: seq<Entry>, c: Category) {
    forall i :: 0 <= i < |t| ==> t[i].1.category == c
  }

  predicate DistinctKeys(t: seq<Entry>) {
    forall i, j :: 0 <= i < j < |t| ==> t[i].0 != t[j].0
  }

  predicate KeysDisjoint(a: seq<Entry>, b: seq<Entry>) {
    forall i, j :: 0 <= i < |a| && 0 <= j < |b| ==> a[i].0 != b[j].0
  }

  predicate KeyAbsent(t: seq<Entry>, code: string) {
    forall i :: 0 <= i < |t| ==> t[i].0 != code
  }

  predicate NoneHasStatus(t: seq<Entry>, statusCode: int) {
    forall i :: 0 <= i < |t| ==> t[i].1.statusCode != statusCode
  }

  predicate AllHaveStatus(t: seq<Entry>, statusCode: int) {
    forall i :: 0 <= i < |t| ==> t[i].1.statusCode == statusCode
  }

  /** The descriptors of each section belong to that section's category. */
  lemma SectionCategories1()
    ensures InCategory(FunctionErrors, Function)
    ensures InCategory(DeploymentErrors, Deployment)
    ensures InCategory(RuntimeErrors, Runtime)
  {
  }

  lemma SectionCategories2()
    ensures InCategory(DnsErrors, DNS)
    ensures InCategory(RoutingErrors, Routing)
    ensures InCategory(RequestErrors, Request)
    ensures InCategory(ImageErrors, Image)
  {
  }

  lemma SectionCategories3()
    ensures InCategory(CacheErrors, Cache)
    ensures InCategory(InternalPlatformErrors, Internal)
    ensures InCategory(InternalCacheErrors, Internal)
  {
  }

  /** Each entry of each section is stored under its own code. */
  lemma SectionsKeyedByCode1()
    ensures KeyedByCode(FunctionErrors)
    ensures KeyedByCode(DeploymentErrors)
    ensures KeyedByCode(RuntimeErrors)
  {
  }

  lemma SectionsKeyedByCode2()
    ensures KeyedByCode(DnsErrors)
    ensures KeyedByCode(RoutingErrors)
    ensures KeyedByCode(RequestErrors)
    ensures KeyedByCode(ImageErrors)
  {
  }

  lemma SectionsKeyedByCode3()
    ensures KeyedByCode(CacheErrors)
    ensures KeyedByCode(InternalPlatformErrors)
    ensures KeyedByCode(InternalCacheErrors)
  {
  }

  lemma FunctionDistinct()
    ensures DistinctKeys(FunctionErrors)
  {
  }

  lemma DeploymentDistinct()
    ensures DistinctKeys(DeploymentErrors)
  {
  }

  lemma RuntimeDistinct()
    ensures DistinctKeys(RuntimeErrors)
  {
  }

  lemma DnsDistinct()
    ensures DistinctKeys(DnsErrors)
  {
  }

  lemma RoutingDistinct()
    ensures DistinctKeys(RoutingErrors)
  {
  }

  lemma RequestDistinct()
    ensures DistinctKeys(RequestErrors)
  {
  }

  lemma ImageDistinct()
    ensures DistinctKeys(ImageErrors)
  {
  }

  lemma CacheDistinct()
    ensures DistinctKeys(CacheErrors)
  {
  }

  lemma InternalPlatformDistinct()
    ensures DistinctKeys(InternalPlatformErrors)
  {
  }

  lemma InternalCacheDistinct()
    ensures DistinctKeys(InternalCacheErrors)
  {
  }

  /** No key of `DeploymentErrors` occurs in an earlier section. */
  lemma DeploymentKeysFresh()
    ensures KeysDisjoint(FunctionErrors, DeploymentErrors)
  {
  }

  /** No key of `RuntimeErrors` occurs in an earlier section. */
  lemma RuntimeKeysFresh()
    ensures KeysDisjoint(FunctionErrors, RuntimeErrors)
    ensures KeysDisjoint(DeploymentErrors, RuntimeErrors)
  {
  }

  /** No key of `DnsErrors` occurs in an earlier section. */
  lemma DnsKeysFresh1()
    ensures KeysDisjoint(FunctionErrors, DnsErrors)
    ensures KeysDisjoint(DeploymentErrors, DnsErrors)
  {
  }

  lemma DnsKeysFresh2()
    ensures KeysDisjoint(RuntimeErrors, DnsErrors)
  {
  }

  /** No key of `RoutingErrors` occurs in an earlier section. */
  lemma RoutingKeysFresh1()
    ensures KeysDisjoint(FunctionErrors, RoutingErrors)
  {
  }

  lemma RoutingKeysFresh2()
    ensures KeysDisjoint(DeploymentErrors, RoutingErrors)
    ensures KeysDisjoint(RuntimeErrors, RoutingErrors)
  {
  }

  lemma RoutingKeysFresh3()
    ensures KeysDisjoint(DnsErrors, RoutingErrors)
  {
  }

  /** No key of `RequestErrors` occurs in an earlier section. */
  lemma RequestKeysFresh1()
    ensures KeysDisjoint(FunctionErrors, RequestErrors)
    ensures KeysDisjoint(DeploymentErrors, RequestErrors)
  {
  }

  lemma RequestKeysFresh2()
    ensures KeysDisjoint(RuntimeErrors, RequestErrors)
    ensures KeysDisjoint(DnsErrors, RequestErrors)
    ensures KeysDisjoint(RoutingErrors, RequestErrors)
  {
  }

  /** No key of `ImageErrors` occurs in an earlier section. */
  lemma ImageKeysFresh1()
    ensures KeysDisjoint(FunctionErrors, ImageErrors)
    ensures KeysDisjoint(DeploymentErrors, ImageErrors)
  {
  }

  lemma ImageKeysFresh2()
    ensures KeysDisjoint(RuntimeErrors, ImageErrors)
    ensures KeysDisjoint(DnsErrors, ImageErrors)
    ensures KeysDisjoint(RoutingErrors, ImageErrors)
  {
  }

  lemma ImageKeysFresh3()
    ensures KeysDisjoint(RequestErrors, ImageErrors)
  {
  }

  /** No key of `CacheErrors` occurs in an earlier section. */
  lemma CacheKeysFresh1()
    ensures KeysDisjoint(FunctionErrors, CacheErrors)
    ensures KeysDisjoint(DeploymentErrors, CacheErrors)
    ensures KeysDisjoint(RuntimeErrors, CacheErrors)
    ensures KeysDisjoint(DnsErrors, CacheErrors)
  {
  }

  lemma CacheKeysFresh2()
    ensures KeysDisjoint(RoutingErrors, CacheErrors)
    ensures KeysDisjoint(RequestErrors, CacheErrors)
    ensures KeysDisjoint(ImageErrors, CacheErrors)
  {
  }

  /** No key of `InternalPlatformErrors` occurs in an earlier section. */
  lemma InternalPlatformKeysFresh1()
    ensures KeysDisjoint(FunctionErrors, InternalPlatformErrors)
  {
  }

  lemma InternalPlatformKeysFresh2()
    ensures KeysDisjoint(DeploymentErrors, InternalPlatformErrors)
  {
  }

  lemma InternalPlatformKeysFresh3()
    ensures KeysDisjoint(RuntimeErrors, InternalPlatformErrors)
    ensures KeysDisjoint(DnsErrors, InternalPlatformErrors)
  {
  }

  lemma InternalPlatformKeysFresh4()
    ensures KeysDisjoint(RoutingErrors, InternalPlatformErrors)
  {
  }

  lemma InternalPlatformKeysFresh5()
    ensures KeysDisjoint(RequestErrors, InternalPlatformErrors)
  {
  }

  lemma InternalPlatformKeysFresh6()
    ensures KeysDisjoint(ImageErrors, InternalPlatformErrors)
    ensures KeysDisjoint(CacheErrors, InternalPlatformErrors)
  {
  }

  /** No key of `InternalCacheErrors` occurs in an earlier section. */
  lemma InternalCacheKeysFresh1()
    ensures KeysDisjoint(FunctionErrors, InternalCacheErrors)
  {
  }

  lemma InternalCacheKeysFresh2()
    ensures KeysDisjoint(DeploymentErrors, InternalCacheErrors)
    ensures KeysDisjoint(RuntimeErrors, InternalCacheErrors)
  {
  }

  lemma InternalCacheKeysFresh3()
    ensures KeysDisjoint(DnsErrors, InternalCacheErrors)
  {
  }

  lemma InternalCacheKeysFresh4()
    ensures KeysDisjoint(RoutingErrors, InternalCacheErrors)
  {
  }

  lemma InternalCacheKeysFresh5()
    ensures KeysDisjoint(RequestErrors, InternalCacheErrors)
  {
  }

  lemma InternalCacheKeysFresh6()
    ensures KeysDisjoint(ImageErrors, InternalCacheErrors)
    ensures KeysDisjoint(CacheErrors, InternalCacheErrors)
  {
  }

  lemma InternalCacheKeysFresh7()
    ensures KeysDisjoint(InternalPlatformErrors, InternalCacheErrors)
  {
  }

  lemma UnknownCodeAbsentEarly()
    ensures KeyAbsent(FunctionErrors, "UNKNOWN_ERROR") && KeyAbsent(DeploymentErrors, "UNKNOWN_ERROR")
    ensures KeyAbsent(RuntimeErrors, "UNKNOWN_ERROR") && KeyAbsent(DnsErrors, "UNKNOWN_ERROR")
    ensures KeyAbsent(RoutingErrors, "UNKNOWN_ERROR")
  {
  }

  lemma UnknownCodeAbsentLate()
    ensures KeyAbsent(RequestErrors, "UNKNOWN_ERROR") && KeyAbsent(ImageErrors, "UNKNOWN_ERROR")
    ensures KeyAbsent(CacheErrors, "UNKNOWN_ERROR")
    ensures KeyAbsent(InternalPlatformErrors, "UNKNOWN_ERROR") && KeyAbsent(InternalCacheErrors, "UNKNOWN_ERROR")
  {
  }

  /** No descriptor of any section carries the success status 200. */
  lemma Status200AbsentEarly()
    ensures NoneHasStatus(FunctionErrors, 200)
    ensures NoneHasStatus(DeploymentErrors, 200)
    ensures NoneHasStatus(RuntimeErrors, 200)
    ensures NoneHasStatus(DnsErrors, 200)
    ensures NoneHasStatus(RoutingErrors, 200)
  {
  }

  lemma Status200AbsentLate()
    ensures NoneHasStatus(RequestErrors, 200)
    ensures NoneHasStatus(ImageErrors, 200)
    ensures NoneHasStatus(CacheErrors, 200)
    ensures NoneHasStatus(InternalPlatformErrors, 200)
    ensures NoneHasStatus(InternalCacheErrors, 200)
  {
  }

  /** Status 508 occurs in the Runtime section and nowhere else. */
  lemma Status508OnlyInRuntimeEarly()
    ensures NoneHasStatus(FunctionErrors, 508)
    ensures NoneHasStatus(DeploymentErrors, 508)
    ensures AllHaveStatus(RuntimeErrors, 508)
    ensures NoneHasStatus(DnsErrors, 508)
    ensures NoneHasStatus(RoutingErrors, 508)
  {
  }

  lemma Status508OnlyInRuntimeLate()
    ensures NoneHasStatus(RequestErrors, 508)
    ensures NoneHasStatus(ImageErrors, 508)
    ensures NoneHasStatus(CacheErrors, 508)
    ensures NoneHasStatus(InternalPlatformErrors, 508)
    ensures NoneHasStatus(InternalCacheErrors, 508)
  {
  }

  lemma InternalSectionsHaveStatus500()
    ensures AllHaveStatus(InternalPlatformErrors, 500) && AllHaveStatus(InternalCacheErrors, 500)
  {
  }

  // ----- joining sections -----

  lemma DistinctJoin(a: seq<Entry>, b: seq<Entry>)
    requires DistinctKeys(a) && DistinctKeys(b) && KeysDisjoint(a, b)
    ensures DistinctKeys(a + b)
  {
  }

  lemma DisjointJoinLeft(a: seq<Entry>, b: seq<Entry>, c: seq<Entry>)
    requires KeysDisjoint(a, c) && KeysDisjoint(b, c)
    ensures KeysDisjoint(a + b, c)
  {
  }

  lemma DisjointJoinRight(a: seq<Entry>, b: seq<Entry>, c: seq<Entry>)
    requires KeysDisjoint(a, b) && KeysDisjoint(a, c)
    ensures KeysDisjoint(a, b + c)
  {
  }

  lemma ShapeJoin(a: seq<Entry>, b: seq<Entry>, c: Category)
    requires KeyedByCode(a) && InCategory(a, c) && KeyedByCode(b) && InCategory(b, c)
    ensures KeyedByCode(a + b) && InCategory(a + b, c)
  {
  }

  lemma KeyedJoin(a: seq<Entry>, b: seq<Entry>)
    requires KeyedByCode(a) && KeyedByCode(b)
    ensures KeyedByCode(a + b)
  {
  }

  lemma KeyAbsentJoin(a: seq<Entry>, b: seq<Entry>, code: string)
    requires KeyAbsent(a, code) && KeyAbsent(b, code)
    ensures KeyAbsent(a + b, code)
  {
  }

  lemma StatusJoin(a: seq<Entry>, b: seq<Entry>, statusCode: int)
    requires AllHaveStatus(a, statusCode) && AllHaveStatus(b, statusCode)
    ensures AllHaveStatus(a + b, statusCode)
  {
  }

  lemma NoStatusJoin(a: seq<Entry>, b: seq<Entry>, statusCode: int)
    requires NoneHasStatus(a, statusCode) && NoneHasStatus(b, statusCode)
    ensures NoneHasStatus(a + b, statusCode)
  {
  }

  /** The Internal section, as one piece: its shape. */
  lemma InternalShape()
    ensures KeyedByCode(InternalErrors) && InCategory(InternalErrors, Internal)
  {
    SectionCategories1();
    SectionCategories2();
    SectionCategories3();
    SectionsKeyedByCode1();
    SectionsKeyedByCode2();
    SectionsKeyedByCode3();
    ShapeJoin(InternalPlatformErrors, InternalCacheErrors, Internal);
  }

  /** The Internal section, as one piece: its statuses, and the fallback code is none of its keys. */
  lemma InternalStatuses()
    ensures AllHaveStatus(InternalErrors, 500)
    ensures NoneHasStatus(InternalErrors, 200) && NoneHasStatus(InternalErrors, 508)
    ensures KeyAbsent(InternalErrors, "UNKNOWN_ERROR")
  {
    InternalSectionsHaveStatus500();
    StatusJoin(InternalPlatformErrors, InternalCacheErrors, 500);
    Status200AbsentEarly();
    Status200AbsentLate();
    NoStatusJoin(InternalPlatformErrors, InternalCacheErrors, 200);
    Status508OnlyInRuntimeEarly();
    Status508OnlyInRuntimeLate();
    NoStatusJoin(InternalPlatformErrors, InternalCacheErrors, 508);
    UnknownCodeAbsentLate();
    KeyAbsentJoin(InternalPlatformErrors, InternalCacheErrors, "UNKNOWN_ERROR");
  }

  /** The Internal section, as one piece: its keys are distinct and new. */
  lemma InternalKeys()
    ensures DistinctKeys(InternalErrors)
    ensures KeysDisjoint(FunctionErrors, InternalErrors)
    ensures KeysDisjoint(DeploymentErrors, InternalErrors)
    ensures KeysDisjoint(RuntimeErrors, InternalErrors)
    ensures KeysDisjoint(DnsErrors, InternalErrors)
    ensures KeysDisjoint(RoutingErrors, InternalErrors)
    ensures KeysDisjoint(RequestErrors, InternalErrors)
    ensures KeysDisjoint(ImageErrors, InternalErrors)
    ensures KeysDisjoint(CacheErrors, InternalErrors)
  {
    InternalPlatformDistinct();
    InternalCacheDistinct();
    InternalCacheKeysFresh7();
    DistinctJoin(InternalPlatformErrors, InternalCacheErrors);
    InternalPlatformKeysFresh1();
    InternalPlatformKeysFresh2();
    InternalPlatformKeysFresh3();
    InternalPlatformKeysFresh4();
    InternalPlatformKeysFresh5();
    InternalPlatformKeysFresh6();
    InternalCacheKeysFresh1();
    InternalCacheKeysFresh2();
    InternalCacheKeysFresh3();
    InternalCacheKeysFresh4();
    InternalCacheKeysFresh5();
    InternalCacheKeysFresh6();
    DisjointJoinRight(FunctionErrors, InternalPlatformErrors, InternalCacheErrors);
    DisjointJoinRight(DeploymentErrors, InternalPlatformErrors, InternalCacheErrors);
    DisjointJoinRight(RuntimeErrors, InternalPlatformErrors, InternalCacheErrors);
    DisjointJoinRight(DnsErrors, InternalPlatformErrors, InternalCacheErrors);
    DisjointJoinRight(RoutingErrors, InternalPlatformErrors, InternalCacheErrors);
    DisjointJoinRight(RequestErrors, InternalPlatformErrors, InternalCacheErrors);
    DisjointJoinRight(ImageErrors, InternalPlatformErrors, InternalCacheErrors);
    DisjointJoinRight(CacheErrors, InternalPlatformErrors, InternalCacheErrors);
  }

  /** No two entries of the registry share a key, so `vercelErrors` is a faithful dictionary. */
  lemma RegistryKeysDistinct()
    ensures DistinctKeys(Registry)
  {
    FunctionDistinct();
    DeploymentDistinct();
    RuntimeDistinct();
    DnsDistinct();
    RoutingDistinct();
    RequestDistinct();
    ImageDistinct();
    CacheDistinct();
    InternalKeys();
    DeploymentKeysFresh();
    RuntimeKeysFresh();
    DnsKeysFresh1();
    DnsKeysFresh2();
    RoutingKeysFresh1();
    RoutingKeysFresh2();
    RoutingKeysFresh3();
    RequestKeysFresh1();
    RequestKeysFresh2();
    ImageKeysFresh1();
    ImageKeysFresh2();
    ImageKeysFresh3();
    CacheKeysFresh1();
    CacheKeysFresh2();
    DistinctJoin(FunctionErrors, DeploymentErrors);
    DisjointJoinLeft(FunctionErrors, DeploymentErrors, RuntimeErrors);
    DistinctJoin(FunctionErrors + DeploymentErrors, RuntimeErrors);
    DisjointJoinLeft(FunctionErrors, DeploymentErrors, DnsErrors);
    DisjointJoinLeft(FunctionErrors + DeploymentErrors, RuntimeErrors, DnsErrors);
    DistinctJoin(FunctionErrors + DeploymentErrors + RuntimeErrors, DnsErrors);
    DisjointJoinLeft(FunctionErrors, DeploymentErrors, RoutingErrors);
    DisjointJoinLeft(FunctionErrors + DeploymentErrors, RuntimeErrors, RoutingErrors);
    DisjointJoinLeft(FunctionErrors + DeploymentErrors + RuntimeErrors, DnsErrors, RoutingErrors);
    DistinctJoin(FunctionErrors + DeploymentErrors + RuntimeErrors + DnsErrors, RoutingErrors);
    DisjointJoinLeft(FunctionErrors, DeploymentErrors, RequestErrors);
    DisjointJoinLeft(FunctionErrors + DeploymentErrors, RuntimeErrors, RequestErrors);
    DisjointJoinLeft(FunctionErrors + DeploymentErrors + RuntimeErrors, DnsErrors, RequestErrors);
    DisjointJoinLeft(FunctionErrors + DeploymentErrors + RuntimeErrors + DnsErrors, RoutingErrors, RequestErrors);
    DistinctJoin(FunctionErrors + DeploymentErrors + RuntimeErrors + DnsErrors + RoutingErrors, RequestErrors);
    DisjointJoinLeft(FunctionErrors, DeploymentErrors, ImageErrors);
    DisjointJoinLeft(FunctionErrors + DeploymentErrors, RuntimeErrors, ImageErrors);
    DisjointJoinLeft(FunctionErrors + DeploymentErrors + RuntimeErrors, DnsErrors, ImageErrors);
    DisjointJoinLeft(FunctionErrors + DeploymentErrors + RuntimeErrors + DnsErrors, RoutingErrors, ImageErrors);
    DisjointJoinLeft(FunctionErrors + DeploymentErrors + RuntimeErrors + DnsErrors + RoutingErrors, RequestErrors, ImageErrors);
    DistinctJoin(FunctionErrors + DeploymentErrors + RuntimeErrors + DnsErrors + RoutingErrors + RequestErrors, ImageErrors);
    DisjointJoinLeft(FunctionErrors, DeploymentErrors, CacheErrors);
    DisjointJoinLeft(FunctionErrors + DeploymentErrors, RuntimeErrors, CacheErrors);
    DisjointJoinLeft(FunctionErrors + DeploymentErrors + RuntimeErrors, DnsErrors, CacheErrors);
    DisjointJoinLeft(FunctionErrors + DeploymentErrors + RuntimeErrors + DnsErrors, RoutingErrors, CacheErrors);
    DisjointJoinLeft(FunctionErrors + DeploymentErrors + RuntimeErrors + DnsErrors + RoutingErrors, RequestErrors, CacheErrors);
    DisjointJoinLeft(FunctionErrors + DeploymentErrors + RuntimeErrors + DnsErrors + RoutingErrors + RequestErrors, ImageErrors, CacheErrors);
    DistinctJoin(FunctionErrors + DeploymentErrors + RuntimeErrors + DnsErrors + RoutingErrors + RequestErrors + ImageErrors, CacheErrors);
    DisjointJoinLeft(FunctionErrors, DeploymentErrors, InternalErrors);
    DisjointJoinLeft(FunctionErrors + DeploymentErrors, RuntimeErrors, InternalErrors);
    DisjointJoinLeft(FunctionErrors + DeploymentErrors + RuntimeErrors, DnsErrors, InternalErrors);
    DisjointJoinLeft(FunctionErrors + DeploymentErrors + RuntimeErrors + DnsErrors, RoutingErrors, InternalErrors);
    DisjointJoinLeft(FunctionErrors + DeploymentErrors + RuntimeErrors + DnsErrors + RoutingErrors, RequestErrors, InternalErrors);
    DisjointJoinLeft(FunctionErrors + DeploymentErrors + RuntimeErrors + DnsErrors + RoutingErrors + RequestErrors, ImageErrors, InternalErrors);
    DisjointJoinLeft(FunctionErrors + DeploymentErrors + RuntimeErrors + DnsErrors + RoutingErrors + RequestErrors + ImageErrors, CacheErrors, InternalErrors);
    DistinctJoin(FunctionErrors + DeploymentErrors + RuntimeErrors + DnsErrors + RoutingErrors + RequestErrors + ImageErrors + CacheErrors, InternalErrors);
  }

  /** Every entry of the registry is stored under its own code. */
  lemma RegistryKeyedByCode()
    ensures KeyedByCode(Registry)
  {
    SectionsKeyedByCode1();
    SectionsKeyedByCode2();
    SectionsKeyedByCode3();
    InternalShape();
    KeyedJoin(FunctionErrors, DeploymentErrors);
    KeyedJoin(FunctionErrors + DeploymentErrors, RuntimeErrors);
    KeyedJoin(FunctionErrors + DeploymentErrors + RuntimeErrors, DnsErrors);
    KeyedJoin(FunctionErrors + DeploymentErrors + RuntimeErrors + DnsErrors, RoutingErrors);
    KeyedJoin(FunctionErrors + DeploymentErrors + RuntimeErrors + DnsErrors + RoutingErrors, RequestErrors);
    KeyedJoin(FunctionErrors + DeploymentErrors + RuntimeErrors + DnsErrors + RoutingErrors + RequestErrors, ImageErrors);
    KeyedJoin(FunctionErrors + DeploymentErrors + RuntimeErrors + DnsErrors + RoutingErrors + RequestErrors + ImageErrors, CacheErrors);
    KeyedJoin(FunctionErrors + DeploymentErrors + RuntimeErrors + DnsErrors + RoutingErrors + RequestErrors + ImageErrors + CacheErrors, InternalErrors);
  }

  /** The fallback code is not itself a key of the registry. */
  lemma UnknownCodeNotRegistered()
    ensures !IsVercelError("UNKNOWN_ERROR")
  {
    UnknownCodeAbsentEarly();
    UnknownCodeAbsentLate();
    InternalStatuses();
    KeyAbsentJoin(FunctionErrors, DeploymentErrors, "UNKNOWN_ERROR");
    KeyAbsentJoin(FunctionErrors + DeploymentErrors, RuntimeErrors, "UNKNOWN_ERROR");
    KeyAbsentJoin(FunctionErrors + DeploymentErrors + RuntimeErrors, DnsErrors, "UNKNOWN_ERROR");
    KeyAbsentJoin(FunctionErrors + DeploymentErrors + RuntimeErrors + DnsErrors, RoutingErrors, "UNKNOWN_ERROR");
    KeyAbsentJoin(FunctionErrors + DeploymentErrors + RuntimeErrors + DnsErrors + RoutingErrors, RequestErrors, "UNKNOWN_ERROR");
    KeyAbsentJoin(FunctionErrors + DeploymentErrors + RuntimeErrors + DnsErrors + RoutingErrors + RequestErrors, ImageErrors, "UNKNOWN_ERROR");
    KeyAbsentJoin(FunctionErrors + DeploymentErrors + RuntimeErrors + DnsErrors + RoutingErrors + RequestErrors + ImageErrors, CacheErrors, "UNKNOWN_ERROR");
    KeyAbsentJoin(FunctionErrors + DeploymentErrors + RuntimeErrors + DnsErrors + RoutingErrors + RequestErrors + ImageErrors + CacheErrors, InternalErrors, "UNKNOWN_ERROR");
    assert forall i :: 0 <= i < |Registry| ==> Keys()[i] != "UNKNOWN_ERROR";
  }

  // ----- lookup -----

  /** Looking up the key of any registry entry yields that entry's descriptor. */
  lemma LookupRegistered(i: int)
    requires 0 <= i < |Registry|
    ensures IsVercelError(Registry[i].0)
    ensures GetVercelError(Registry[i].0) == Registry[i].1
  {
    RegistryKeysDistinct();
    assert Keys()[i] == Registry[i].0;
  }

  /** A registered code maps to a descriptor carrying that same code. */
  lemma LookupKeepsCode(code: string)
    requires IsVercelError(code)
    ensures GetVercelError(code).code == code
  {
    RegistryKeyedByCode();
  }

  /** `isVercelError` holds exactly when `getVercelError` does not fall back. */
  lemma IsVercelErrorIffNotFallback(code: string)
    ensures IsVercelError(code) <==> GetVercelError(code) != UnknownError
  {
    if IsVercelError(code) {
      LookupKeepsCode(code);
      UnknownCodeNotRegistered();
    }
  }

  // ----- the filtered views -----

  lemma DescriptorsJoin(a: seq<Entry>, b: seq<Entry>)
    ensures DescriptorsOf(a + b) == DescriptorsOf(a) + DescriptorsOf(b)
  {
  }

  /** Descriptors of nine sections joined are the sections' descriptors joined. */
  lemma DescriptorsOfNine(a1: seq<Entry>, a2: seq<Entry>, a3: seq<Entry>, a4: seq<Entry>, a5: seq<Entry>, a6: seq<Entry>, a7: seq<Entry>, a8: seq<Entry>, a9: seq<Entry>)
    ensures DescriptorsOf(a1 + a2 + a3 + a4 + a5 + a6 + a7 + a8 + a9) ==
            DescriptorsOf(a1) + DescriptorsOf(a2) + DescriptorsOf(a3) + DescriptorsOf(a4) + DescriptorsOf(a5) + DescriptorsOf(a6) + DescriptorsOf(a7) + DescriptorsOf(a8) + DescriptorsOf(a9)
  {
    DescriptorsJoin(a1 + a2 + a3 + a4 + a5 + a6 + a7 + a8, a9);
    DescriptorsJoin(a1 + a2 + a3 + a4 + a5 + a6 + a7, a8);
    DescriptorsJoin(a1 + a2 + a3 + a4 + a5 + a6, a7);
    DescriptorsJoin(a1 + a2 + a3 + a4 + a5, a6);
    DescriptorsJoin(a1 + a2 + a3 + a4, a5);
    DescriptorsJoin(a1 + a2 + a3, a4);
    DescriptorsJoin(a1 + a2, a3);
    DescriptorsJoin(a1, a2);
  }

  /** Filtering nine sections' descriptors is filtering each section and concatenating. */
  lemma FilterOfNine(a1: seq<Entry>, a2: seq<Entry>, a3: seq<Entry>, a4: seq<Entry>, a5: seq<Entry>, a6: seq<Entry>, a7: seq<Entry>, a8: seq<Entry>, a9: seq<Entry>, p: VercelError -> bool)
    ensures ListOps.Filter(DescriptorsOf(a1 + a2 + a3 + a4 + a5 + a6 + a7 + a8 + a9), p) ==
            ListOps.Filter(DescriptorsOf(a1), p) + ListOps.Filter(DescriptorsOf(a2), p) + ListOps.Filter(DescriptorsOf(a3), p) +
            ListOps.Filter(DescriptorsOf(a4), p) + ListOps.Filter(DescriptorsOf(a5), p) + ListOps.Filter(DescriptorsOf(a6), p) +
            ListOps.Filter(DescriptorsOf(a7), p) + ListOps.Filter(DescriptorsOf(a8), p) + ListOps.Filter(DescriptorsOf(a9), p)
  {
    DescriptorsOfNine(a1, a2, a3, a4, a5, a6, a7, a8, a9);
    ListOps.FilterAppend(DescriptorsOf(a1) + DescriptorsOf(a2) + DescriptorsOf(a3) + DescriptorsOf(a4) + DescriptorsOf(a5) + DescriptorsOf(a6) + DescriptorsOf(a7) + DescriptorsOf(a8), DescriptorsOf(a9), p);
    ListOps.FilterAppend(DescriptorsOf(a1) + DescriptorsOf(a2) + DescriptorsOf(a3) + DescriptorsOf(a4) + DescriptorsOf(a5) + DescriptorsOf(a6) + DescriptorsOf(a7), DescriptorsOf(a8), p);
    ListOps.FilterAppend(DescriptorsOf(a1) + DescriptorsOf(a2) + DescriptorsOf(a3) + DescriptorsOf(a4) + DescriptorsOf(a5) + DescriptorsOf(a6), DescriptorsOf(a7), p);
    ListOps.FilterAppend(DescriptorsOf(a1) + DescriptorsOf(a2) + DescriptorsOf(a3) + DescriptorsOf(a4) + DescriptorsOf(a5), DescriptorsOf(a6), p);
    ListOps.FilterAppend(DescriptorsOf(a1) + DescriptorsOf(a2) + DescriptorsOf(a3) + DescriptorsOf(a4), DescriptorsOf(a5), p);
    ListOps.FilterAppend(DescriptorsOf(a1) + DescriptorsOf(a2) + DescriptorsOf(a3), DescriptorsOf(a4), p);
    ListOps.FilterAppend(DescriptorsOf(a1) + DescriptorsOf(a2), DescriptorsOf(a3), p);
    ListOps.FilterAppend(DescriptorsOf(a1), DescriptorsOf(a2), p);
  }

  /** Filtering one section by category keeps all of it or none of it. */
  lemma CategoryFilterOfSection(t: seq<Entry>, c0: Category, c: Category)
    requires InCategory(t, c0)
    ensures ListOps.Filter(DescriptorsOf(t), CategoryIs(c)) == if c == c0 then DescriptorsOf(t) else []
  {
    if c == c0 {
      ListOps.FilterKeepsAll(DescriptorsOf(t), CategoryIs(c));
    } else {
      ListOps.FilterDropsAll(DescriptorsOf(t), CategoryIs(c));
    }
  }

  /** Filtering one section by a status none of it carries leaves nothing. */
  lemma StatusFilterOfSection(t: seq<Entry>, statusCode: int)
    requires NoneHasStatus(t, statusCode)
    ensures ListOps.Filter(DescriptorsOf(t), StatusIs(statusCode)) == []
  {
    ListOps.FilterDropsAll(DescriptorsOf(t), StatusIs(statusCode));
  }

  /** Of nine sections given in category order, the one that holds category `c`. */
  function Pick(c: Category, a1: seq<Entry>, a2: seq<Entry>, a3: seq<Entry>, a4: seq<Entry>, a5: seq<Entry>, a6: seq<Entry>, a7: seq<Entry>, a8: seq<Entry>, a9: seq<Entry>): seq<Entry> {
    match c
    case Function => a1
    case Deployment => a2
    case Runtime => a3
    case DNS => a4
    case Routing => a5
    case Request => a6
    case Image => a7
    case Cache => a8
    case Internal => a9
  }

  /** The section of the registry that holds category `c`. */
  function SectionOf(c: Category): seq<Entry> {
    Pick(c, FunctionErrors, DeploymentErrors, RuntimeErrors, DnsErrors, RoutingErrors, RequestErrors, ImageErrors, CacheErrors, InternalErrors)
  }

  /** Nine sections, one per category in order: filtering by `c` keeps the sections of category `c`. */
  lemma CategoryViewOfNine(a1: seq<Entry>, a2: seq<Entry>, a3: seq<Entry>, a4: seq<Entry>, a5: seq<Entry>, a6: seq<Entry>, a7: seq<Entry>, a8: seq<Entry>, a9: seq<Entry>, c: Category)
    requires InCategory(a1, Function)
    requires InCategory(a2, Deployment)
    requires InCategory(a3, Runtime)
    requires InCategory(a4, DNS)
    requires InCategory(a5, Routing)
    requires InCategory(a6, Request)
    requires InCategory(a7, Image)
    requires InCategory(a8, Cache)
    requires InCategory(a9, Internal)
    ensures ListOps.Filter(DescriptorsOf(a1 + a2 + a3 + a4 + a5 + a6 + a7 + a8 + a9), CategoryIs(c)) ==
            (if c == Function then DescriptorsOf(a1) else []) +
            (if c == Deployment then DescriptorsOf(a2) else []) +
            (if c == Runtime then DescriptorsOf(a3) else []) +
            (if c == DNS then DescriptorsOf(a4) else []) +
            (if c == Routing then DescriptorsOf(a5) else []) +
            (if c == Request then DescriptorsOf(a6) else []) +
            (if c == Image then DescriptorsOf(a7) else []) +
            (if c == Cache then DescriptorsOf(a8) else []) +
            (if c == Internal then DescriptorsOf(a9) else [])
  {
    FilterOfNine(a1, a2, a3, a4, a5, a6, a7, a8, a9, CategoryIs(c));
    CategoryFilterOfSection(a1, Function, c);
    CategoryFilterOfSection(a2, Deployment, c);
    CategoryFilterOfSection(a3, Runtime, c);
    CategoryFilterOfSection(a4, DNS, c);
    CategoryFilterOfSection(a5, Routing, c);
    CategoryFilterOfSection(a6, Request, c);
    CategoryFilterOfSection(a7, Image, c);
    CategoryFilterOfSection(a8, Cache, c);
    CategoryFilterOfSection(a9, Internal, c);
  }

  /** Of nine sections in category order, exactly the section of `c` survives. */
  lemma PickBySum(a1: seq<VercelError>, a2: seq<VercelError>, a3: seq<VercelError>, a4: seq<VercelError>, a5: seq<VercelError>, a6: seq<VercelError>, a7: seq<VercelError>, a8: seq<VercelError>, a9: seq<VercelError>, c: Category)
    ensures (if c == Function then a1 else []) +
            (if c == Deployment then a2 else []) +
            (if c == Runtime then a3 else []) +
            (if c == DNS then a4 else []) +
            (if c == Routing then a5 else []) +
            (if c == Request then a6 else []) +
            (if c == Image then a7 else []) +
            (if c == Cache then a8 else []) +
            (if c == Internal then a9 else []) ==
            match c
              case Function => a1
              case Deployment => a2
              case Runtime => a3
              case DNS => a4
              case Routing => a5
              case Request => a6
              case Image => a7
              case Cache => a8
              case Internal => a9
  {
  }

  /** `getErrorsByCategory(c)` is exactly the section of `c`, in declaration order. */
  lemma CategoryView(c: Category)
    ensures GetErrorsByCategory(c) == DescriptorsOf(SectionOf(c))
  {
    SectionCategories1();
    SectionCategories2();
    SectionCategories3();
    InternalShape();
    CategoryViewOfNine(FunctionErrors, DeploymentErrors, RuntimeErrors, DnsErrors, RoutingErrors, RequestErrors, ImageErrors, CacheErrors, InternalErrors, c);
    PickBySum(DescriptorsOf(FunctionErrors), DescriptorsOf(DeploymentErrors), DescriptorsOf(RuntimeErrors), DescriptorsOf(DnsErrors), DescriptorsOf(RoutingErrors), DescriptorsOf(RequestErrors), DescriptorsOf(ImageErrors), DescriptorsOf(CacheErrors), DescriptorsOf(InternalErrors), c);
  }

  /** Nine sections, one per category in order: the nine category filters of their descriptors, concatenated, give the descriptors back. */
  lemma PartitionOfNine(a1: seq<Entry>, a2: seq<Entry>, a3: seq<Entry>, a4: seq<Entry>, a5: seq<Entry>, a6: seq<Entry>, a7: seq<Entry>, a8: seq<Entry>, a9: seq<Entry>)
    requires InCategory(a1, Function)
    requires InCategory(a2, Deployment)
    requires InCategory(a3, Runtime)
    requires InCategory(a4, DNS)
    requires InCategory(a5, Routing)
    requires InCategory(a6, Request)
    requires InCategory(a7, Image)
    requires InCategory(a8, Cache)
    requires InCategory(a9, Internal)
    ensures var all := DescriptorsOf(a1 + a2 + a3 + a4 + a5 + a6 + a7 + a8 + a9);
            all == ListOps.Filter(all, CategoryIs(Function)) + ListOps.Filter(all, CategoryIs(Deployment)) +
                   ListOps.Filter(all, CategoryIs(Runtime)) + ListOps.Filter(all, CategoryIs(DNS)) +
                   ListOps.Filter(all, CategoryIs(Routing)) + ListOps.Filter(all, CategoryIs(Request)) +
                   ListOps.Filter(all, CategoryIs(Image)) + ListOps.Filter(all, CategoryIs(Cache)) +
                   ListOps.Filter(all, CategoryIs(Internal))
  {
    DescriptorsOfNine(a1, a2, a3, a4, a5, a6, a7, a8, a9);
    var d1, d2, d3, d4, d5, d6, d7, d8, d9 := DescriptorsOf(a1), DescriptorsOf(a2), DescriptorsOf(a3), DescriptorsOf(a4), DescriptorsOf(a5), DescriptorsOf(a6), DescriptorsOf(a7), DescriptorsOf(a8), DescriptorsOf(a9);
    CategoryViewOfNine(a1, a2, a3, a4, a5, a6, a7, a8, a9, Function);
    PickBySum(d1, d2, d3, d4, d5, d6, d7, d8, d9, Function);
    CategoryViewOfNine(a1, a2, a3, a4, a5, a6, a7, a8, a9, Deployment);
    PickBySum(d1, d2, d3, d4, d5, d6, d7, d8, d9, Deployment);
    CategoryViewOfNine(a1, a2, a3, a4, a5, a6, a7, a8, a9, Runtime);
    PickBySum(d1, d2, d3, d4, d5, d6, d7, d8, d9, Runtime);
    CategoryViewOfNine(a1, a2, a3, a4, a5, a6, a7, a8, a9, DNS);
    PickBySum(d1, d2, d3, d4, d5, d6, d7, d8, d9, DNS);
    CategoryViewOfNine(a1, a2, a3, a4, a5, a6, a7, a8, a9, Routing);
    PickBySum(d1, d2, d3, d4, d5, d6, d7, d8, d9, Routing);
    CategoryViewOfNine(a1, a2, a3, a4, a5, a6, a7, a8, a9, Request);
    PickBySum(d1, d2, d3, d4, d5, d6, d7, d8, d9, Request);
    CategoryViewOfNine(a1, a2, a3, a4, a5, a6, a7, a8, a9, Image);
    PickBySum(d1, d2, d3, d4, d5, d6, d7, d8, d9, Image);
    CategoryViewOfNine(a1, a2, a3, a4, a5, a6, a7, a8, a9, Cache);
    PickBySum(d1, d2, d3, d4, d5, d6, d7, d8, d9, Cache);
    CategoryViewOfNine(a1, a2, a3, a4, a5, a6, a7, a8, a9, Internal);
    PickBySum(d1, d2, d3, d4, d5, d6, d7, d8, d9, Internal);
  }

  /** The nine category views partition the values: concatenated in category order they are `Object.values`. */
  lemma CategoriesPartitionValues()
    ensures Values() == GetErrorsByCategory(Function) + GetErrorsByCategory(Deployment) + GetErrorsByCategory(Runtime) +
                       GetErrorsByCategory(DNS) + GetErrorsByCategory(Routing) + GetErrorsByCategory(Request) +
                       GetErrorsByCategory(Image) + GetErrorsByCategory(Cache) + GetErrorsByCategory(Internal)
  {
    SectionCategories1();
    SectionCategories2();
    SectionCategories3();
    InternalShape();
    PartitionOfNine(FunctionErrors, DeploymentErrors, RuntimeErrors, DnsErrors, RoutingErrors, RequestErrors, ImageErrors, CacheErrors, InternalErrors);
  }

  /** Every descriptor of the Internal category carries status 500. */
  lemma InternalErrorsAre500()
    ensures forall e :: e in GetErrorsByCategory(Internal) ==> e.statusCode == 500
  {
    assert SectionOf(Internal) == InternalErrors;
    CategoryView(Internal);
    InternalSectionsHaveStatus500();
    StatusJoin(InternalPlatformErrors, InternalCacheErrors, 500);
    ViewHasStatus(GetErrorsByCategory(Internal), InternalErrors, 500);
  }

  /** A view made of the descriptors of a section whose entries all carry a status carries that status throughout. */
  lemma ViewHasStatus(v: seq<VercelError>, t: seq<Entry>, statusCode: int)
    requires v == DescriptorsOf(t) && AllHaveStatus(t, statusCode)
    ensures forall e :: e in v ==> e.statusCode == statusCode
  {
  }

  /** `getErrorByStatusCode(s)` keeps, in order and with their multiplicities, exactly the descriptors with status `s`. */
  lemma ByStatusCodeSpec(statusCode: int)
    ensures ListOps.IsSublist(GetErrorByStatusCode(statusCode), Values())
    ensures forall i :: 0 <= i < |GetErrorByStatusCode(statusCode)| ==> GetErrorByStatusCode(statusCode)[i].statusCode == statusCode
    ensures forall e :: multiset(GetErrorByStatusCode(statusCode))[e] ==
                        if e.statusCode == statusCode then multiset(Values())[e] else 0
  {
    ListOps.FilterIsOrderedSelection(Values(), StatusIs(statusCode));
  }

  /** Nine sections of which only the third may carry status `statusCode`: filtering by it looks at the third alone. */
  lemma StatusViewOfNine(a1: seq<Entry>, a2: seq<Entry>, a3: seq<Entry>, a4: seq<Entry>, a5: seq<Entry>, a6: seq<Entry>, a7: seq<Entry>, a8: seq<Entry>, a9: seq<Entry>, statusCode: int)
    requires NoneHasStatus(a1, statusCode)
    requires NoneHasStatus(a2, statusCode)
    requires NoneHasStatus(a4, statusCode)
    requires NoneHasStatus(a5, statusCode)
    requires NoneHasStatus(a6, statusCode)
    requires NoneHasStatus(a7, statusCode)
    requires NoneHasStatus(a8, statusCode)
    requires NoneHasStatus(a9, statusCode)
    ensures ListOps.Filter(DescriptorsOf(a1 + a2 + a3 + a4 + a5 + a6 + a7 + a8 + a9), StatusIs(statusCode)) ==
            ListOps.Filter(DescriptorsOf(a3), StatusIs(statusCode))
  {
    FilterOfNine(a1, a2, a3, a4, a5, a6, a7, a8, a9, StatusIs(statusCode));
    StatusFilterOfSection(a1, statusCode);
    StatusFilterOfSection(a2, statusCode);
    StatusFilterOfSection(a4, statusCode);
    StatusFilterOfSection(a5, statusCode);
    StatusFilterOfSection(a6, statusCode);
    StatusFilterOfSection(a7, statusCode);
    StatusFilterOfSection(a8, statusCode);
    StatusFilterOfSection(a9, statusCode);
  }

  /** No registered error carries the success status 200. */
  lemma NoErrorHasStatus200()
    ensures GetErrorByStatusCode(200) == []
  {
    Status200AbsentEarly();
    Status200AbsentLate();
    InternalStatuses();
    StatusViewOfNine(FunctionErrors, DeploymentErrors, RuntimeErrors, DnsErrors, RoutingErrors, RequestErrors, ImageErrors, CacheErrors, InternalErrors, 200);
    StatusFilterOfSection(RuntimeErrors, 200);
  }

  const InfiniteLoopDetected: VercelError :=
    VercelError("INFINITE_LOOP_DETECTED", 508, Runtime, "Infinite loop detected in runtime")

  lemma RuntimeDescriptors()
    ensures DescriptorsOf(RuntimeErrors) == [InfiniteLoopDetected]
  {
  }

  /** Status 508 selects the single infinite-loop descriptor. */
  lemma LoopDetectedIsOnly508()
    ensures GetErrorByStatusCode(508) == [InfiniteLoopDetected]
  {
    Status508OnlyInRuntimeEarly();
    Status508OnlyInRuntimeLate();
    InternalStatuses();
    StatusViewOfNine(FunctionErrors, DeploymentErrors, RuntimeErrors, DnsErrors, RoutingErrors, RequestErrors, ImageErrors, CacheErrors, InternalErrors, 508);
    RuntimeDescriptors();
    ListOps.FilterKeepsAll(DescriptorsOf(RuntimeErrors), StatusIs(508));
  }

  /** The Runtime category holds the single infinite-loop descriptor. */
  lemma LoopDetectedIsOnlyRuntime()
    ensures GetErrorsByCategory(Runtime) == [InfiniteLoopDetected]
  {
    assert SectionOf(Runtime) == RuntimeErrors;
    CategoryView(Runtime);
    RuntimeDescriptors();
  }
}
