/** Request preparation in `fetch`: default headers, the endpoint prefix for
    relative URLs and the request body. The transport itself is not modelled. */
module Fetch {

  import opened Wrappers

  const CONTENT_TYPE := "Content-Type"
  const AUTHORIZATION := "Authorization"
  const JSON := "application/json"

  /** The `Authorization` value for an API token; `encode` stands for base64. */
  function AuthHeader(token: string, encode: string -> string): (r: string)
    ensures "Basic " <= r
    ensures r[|"Basic "|..] == encode("apikey:" + token)
  {
    "Basic " + encode("apikey:" + token)
  }

  /** The headers after `fetch` has filled in what the caller left out: a
      caller's `Content-Type` and `Authorization` win over the defaults. */
  function WithDefaults(headers: map<string, string>, auth: string): (r: map<string, string>)
    ensures r.Keys == headers.Keys + {CONTENT_TYPE, AUTHORIZATION}
    ensures forall k :: k in headers ==> r[k] == headers[k]
    ensures CONTENT_TYPE !in headers ==> r[CONTENT_TYPE] == JSON
    ensures AUTHORIZATION !in headers ==> r[AUTHORIZATION] == auth
  {
    var typed := if CONTENT_TYPE in headers then headers else headers[CONTENT_TYPE := JSON];
    if AUTHORIZATION in typed then typed else typed[AUTHORIZATION := auth]
  }

  /** Filling in defaults twice is filling them in once, whatever the second
      token: once a dict holds both headers, later calls leave it alone. */
  lemma WithDefaultsIdempotent(headers: map<string, string>, auth: string, auth': string)
    ensures WithDefaults(WithDefaults(headers, auth), auth') == WithDefaults(headers, auth)
  {
  }

  /** An absolute URL is used as given; anything else is relative to the endpoint. */
  function ResolveUrl(endpoint: string, url: string): (r: string)
    ensures "http" <= url ==> r == url
    ensures !("http" <= url) ==> r == endpoint + url
  {
    if "http" <= url then url else endpoint + url
  }

  /** With an `http` endpoint every resolved URL is absolute, so resolving again
      changes nothing. */
  lemma ResolveUrlIdempotent(endpoint: string, url: string)
    requires "http" <= endpoint
    ensures "http" <= ResolveUrl(endpoint, url)
    ensures ResolveUrl(endpoint, ResolveUrl(endpoint, url)) == ResolveUrl(endpoint, url)
  {
    if !("http" <= url) {
      assert (endpoint + url)[..4] == endpoint[..4];
    }
  }

  /** The request data: only a non-empty body is sent. */
  function BodyData(body: Option<string>): (r: Option<string>)
    ensures r.Some? <==> body.Some? && body.value != []
    ensures r.Some? ==> r.value == body.value
  {
    if body.Some? && body.value != [] then body else None
  }

  /** What `fetch` hands to the transport. */
  datatype Prepared = Prepared(url: string, verb: string, data: Option<string>, headers: map<string, string>)

  /** A header dict that `fetch` updates in place. */
  class Headers {
    var entries: map<string, string>

    constructor (entries: map<string, string>)
      ensures this.entries == entries
    {
      this.entries := entries;
    }
  }

  /** The script's connection settings, with the default `headers` argument of
      `fetch`: one dict shared by every call that passes none. */
  class Client {
    const token: string
    const endpoint: string
    const encode: string -> string
    const defaults: Headers

    constructor (token: string, endpoint: string, encode: string -> string)
      ensures this.token == token && this.endpoint == endpoint && this.encode == encode
      ensures fresh(defaults) && defaults.entries == map[]
    {
      this.token := token;
      this.endpoint := endpoint;
      this.encode := encode;
      defaults := new Headers(map[]);
    }

    /** Fill in missing headers in `headers` itself, resolve the URL and encode
        the body. */
    method Prepare(url: string, verb: string, body: Option<string>, headers: Headers) returns (req: Prepared)
      modifies headers
      ensures headers.entries == WithDefaults(old(headers.entries), AuthHeader(token, encode))
      ensures req == Prepared(ResolveUrl(endpoint, url), verb, BodyData(body), headers.entries)
    {
      if CONTENT_TYPE !in headers.entries {
        headers.entries := headers.entries[CONTENT_TYPE := JSON];
      }
      if AUTHORIZATION !in headers.entries {
        var credentials := encode("apikey:" + token);
        headers.entries := headers.entries[AUTHORIZATION := "Basic " + credentials];
      }
      var target := url;
      if !("http" <= url) {
        target := endpoint + url;
      }
      var data := None;
      if body.Some? && body.value != [] {
        data := Some(body.value);
      }
      req := Prepared(target, verb, data, headers.entries);
    }

    /** A call without a `headers` argument: the shared default dict is the one
        updated, so what one call fills in is still there for the next. */
    method PrepareWithDefaults(url: string, verb: string, body: Option<string>) returns (req: Prepared)
      modifies defaults
      ensures defaults.entries == WithDefaults(old(defaults.entries), AuthHeader(token, encode))
      ensures req == Prepared(ResolveUrl(endpoint, url), verb, BodyData(body), defaults.entries)
    {
      req := Prepare(url, verb, body, defaults);
    }
  }
}
