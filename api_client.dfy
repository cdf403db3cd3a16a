/**
 * The request interceptor of the API client (src/infrastructure/api/client.ts):
 * every outgoing request's headers are rewritten in place with the device
 * headers, the language pair and, in a browser with a stored token, the
 * bearer credential of section 2.1 of RFC 6750. The environment variables
 * and the browser's stored token are inputs.
 */
module ApiClient {
  import opened Js

  /** The `NEXT_PUBLIC_*` variables the interceptor reads. */
  datatype Env = Env(
    deviceId: Option<string>,
    deviceType: Option<string>,
    versionNumber: Option<string>,
    applicationSource: Option<string>)

  /** Where the request is made: on the server, or in a browser with `localStorage.getItem('auth_token')`. */
  datatype Runtime = Server | Browser(authToken: Option<string>)

  const DefaultDeviceId := "00000001-e89b-12d3-a456-426614174000"
  const DefaultDeviceType := "web"
  const DefaultVersionNumber := "30.5.4"
  const DefaultApplicationSource := "q84sale"
  const DefaultLanguage := "ar"

  /** `process.env.X || fallback`: an unset or empty variable takes the fallback. */
  function EnvOr(value: Option<string>, fallback: string): (r: string)
    ensures StringTruthy(value) ==> r == value.value
    ensures !StringTruthy(value) ==> r == fallback
  {
    if StringTruthy(value) then value.value else fallback
  }

  /** `config.headers['X-Language'] || 'ar'`. */
  function Language(headers: map<string, string>): (locale: string)
    ensures locale != ""
    ensures "X-Language" in headers && headers["X-Language"] != "" ==> locale == headers["X-Language"]
    ensures !("X-Language" in headers && headers["X-Language"] != "") ==> locale == DefaultLanguage
  {
    if "X-Language" in headers && headers["X-Language"] != "" then headers["X-Language"] else DefaultLanguage
  }

  /** The stored token, when the request runs in a browser and the token is non-empty. */
  function BearerToken(runtime: Runtime): (token: Option<string>)
    ensures token.Some? <==> runtime.Browser? && StringTruthy(runtime.authToken)
    ensures token.Some? ==> token == runtime.authToken
  {
    if runtime.Browser? && StringTruthy(runtime.authToken) then runtime.authToken else None
  }

  /** The seven header names the interceptor writes. */
  const Written: set<string> :=
    {"Device-Id", "Device-Type", "Version-Number", "Application-Source", "X-Language", "Accept-Language", "Authorization"}

  /** The headers after the interceptor has run. */
  function InterceptedHeaders(headers: map<string, string>, env: Env, runtime: Runtime): map<string, string> {
    var locale := Language(headers);
    var withDevice := headers
      ["Device-Id" := EnvOr(env.deviceId, DefaultDeviceId)]
      ["Device-Type" := EnvOr(env.deviceType, DefaultDeviceType)]
      ["Version-Number" := EnvOr(env.versionNumber, DefaultVersionNumber)]
      ["Application-Source" := EnvOr(env.applicationSource, DefaultApplicationSource)];
    var withLanguage := withDevice["X-Language" := locale]["Accept-Language" := locale];
    var token := BearerToken(runtime);
    if token.Some? then withLanguage["Authorization" := "Bearer " + token.value] else withLanguage
  }

  /** The request config the interceptor receives; its headers are updated in place. */
  class RequestConfig {
    var headers: map<string, string>

    constructor (headers: map<string, string>)
      ensures this.headers == headers
    {
      this.headers := headers;
    }

    /** The request interceptor. */
    method Intercept(env: Env, runtime: Runtime)
      modifies this
      ensures headers == InterceptedHeaders(old(headers), env, runtime)
    {
      headers := headers["Device-Id" := EnvOr(env.deviceId, DefaultDeviceId)];
      headers := headers["Device-Type" := EnvOr(env.deviceType, DefaultDeviceType)];
      headers := headers["Version-Number" := EnvOr(env.versionNumber, DefaultVersionNumber)];
      headers := headers["Application-Source" := EnvOr(env.applicationSource, DefaultApplicationSource)];
      var locale := Language(headers);
      headers := headers["X-Language" := locale];
      headers := headers["Accept-Language" := locale];
      if runtime.Browser? {
        var token := runtime.authToken;
        if token.Some? && token.value != "" {
          headers := headers["Authorization" := "Bearer " + token.value];
        }
      }
    }
  }

  /** The four device headers always carry the variable, or its fixed default. */
  lemma InterceptedDeviceHeaders(headers: map<string, string>, env: Env, runtime: Runtime)
    ensures var r := InterceptedHeaders(headers, env, runtime);
      && r["Device-Id"] == (if StringTruthy(env.deviceId) then env.deviceId.value else DefaultDeviceId)
      && r["Device-Type"] == (if StringTruthy(env.deviceType) then env.deviceType.value else DefaultDeviceType)
      && r["Version-Number"] == (if StringTruthy(env.versionNumber) then env.versionNumber.value else DefaultVersionNumber)
      && r["Application-Source"]
         == (if StringTruthy(env.applicationSource) then env.applicationSource.value else DefaultApplicationSource)
  {
  }

  /**
   * `X-Language` is kept when set and becomes `ar` otherwise, and
   * `Accept-Language` always ends equal to it: a caller's own
   * `Accept-Language` is overwritten.
   */
  lemma InterceptedLanguage(headers: map<string, string>, env: Env, runtime: Runtime)
    ensures var r := InterceptedHeaders(headers, env, runtime);
      && "X-Language" in r && "Accept-Language" in r
      && r["Accept-Language"] == r["X-Language"]
      && r["X-Language"] == (if "X-Language" in headers && headers["X-Language"] != "" then headers["X-Language"] else "ar")
  {
  }

  /** A request that names only `Accept-Language` is sent in Arabic. */
  lemma AcceptLanguageAloneIsOverwritten(acceptLanguage: string, env: Env, runtime: Runtime)
    ensures var r := InterceptedHeaders(map["Accept-Language" := acceptLanguage], env, runtime);
      r["Accept-Language"] == "ar" && r["X-Language"] == "ar"
  {
    InterceptedLanguage(map["Accept-Language" := acceptLanguage], env, runtime);
  }

  /**
   * `Authorization` is `Bearer` and the token exactly when a browser holds a
   * non-empty token; otherwise whatever the caller set is left as it was.
   */
  lemma InterceptedAuthorization(headers: map<string, string>, env: Env, runtime: Runtime)
    ensures var r := InterceptedHeaders(headers, env, runtime);
      && (runtime.Browser? && StringTruthy(runtime.authToken) ==>
            "Authorization" in r && r["Authorization"] == "Bearer " + runtime.authToken.value)
      && (!(runtime.Browser? && StringTruthy(runtime.authToken)) ==>
            ("Authorization" in r <==> "Authorization" in headers)
            && ("Authorization" in headers ==> r["Authorization"] == headers["Authorization"]))
  {
  }

  /** Every header outside the seven written ones is left as it was. */
  lemma InterceptedFrame(headers: map<string, string>, env: Env, runtime: Runtime, name: string)
    requires name !in Written
    ensures var r := InterceptedHeaders(headers, env, runtime);
      (name in r <==> name in headers) && (name in headers ==> r[name] == headers[name])
  {
  }

  /** The rewrite is idempotent: a second pass changes nothing. */
  lemma InterceptedIdempotent(headers: map<string, string>, env: Env, runtime: Runtime)
    ensures var once := InterceptedHeaders(headers, env, runtime);
      InterceptedHeaders(once, env, runtime) == once
  {
    var once := InterceptedHeaders(headers, env, runtime);
    var twice := InterceptedHeaders(once, env, runtime);
    InterceptedLanguage(headers, env, runtime);
    assert Language(once) == Language(headers);
    assert twice.Keys == once.Keys;
    forall k | k in once ensures twice[k] == once[k] {
    }
  }
}
