/**
 * The request mediator of the push-service client: configuration state
 * (`apiRoot`, `appName`), construction of the transport options from an
 * operation descriptor, and the classification of the transport's answer
 * into the `(isError, body)` pair handed to the optional callback.
 *
 * The HTTP transport is not modelled: it is a function parameter from the
 * options sent to the reply received.
 */
module Mediator {
  import opened Wrappers
  import opened Json

  /** Name of the one header every request carries. */
  const AppNameHeader: string := "X-App-Name"
  /** Path used when a descriptor has no (or an empty) `url`. */
  const DefaultPath: string := "/"
  /** Method used when a descriptor has no (or an empty) `method`. */
  const DefaultMethod: string := "GET"
  /** The status that triggers the authentication diagnostic. */
  const Unauthorized: int := 401

  /** A logical operation: path below the API root, HTTP verb, optional JSON body. */
  datatype Descriptor = Descriptor(url: Option<string>, verb: Option<string>, json: Option<Json>)

  /** What is handed to the transport. A header value is `null` before `configure`. */
  datatype Options = Options(
    url: string,
    verb: string,
    headers: seq<(string, Option<string>)>,
    json: Option<Json>)

  /** The part of a transport response the client inspects. */
  datatype Response = Response(statusCode: int)

  /** What the transport reports: an error (ignored by the client), an optional response, a body. */
  datatype Reply<E, B> = Reply(err: Option<E>, response: Option<Response>, body: B)

  /** The normalised result passed to the callback. */
  datatype Outcome<B> = Outcome(isError: bool, body: B)

  /**
   * The observable effects of one completed request: whether the 401 diagnostic
   * was emitted, and the callback invocation (`None` when no callback was supplied).
   */
  datatype Completion<B> = Completion(diagnostic: bool, callback: Option<Outcome<B>>)

  /** The path actually appended to the API root. */
  function EffectivePath(url: Option<string>): (p: string)
    ensures p != ""
    ensures Given(url) ==> p == url.value
    ensures !Given(url) ==> p == DefaultPath
  {
    OrElse(url, DefaultPath)
  }

  /** Transport options for descriptor `d` under the given configuration. */
  function RequestOptions(apiRoot: Option<string>, appName: Option<string>, d: Descriptor): (o: Options)
    // the URL is the root followed by the effective path
    ensures |ToJsString(apiRoot)| < |o.url|
    ensures o.url[..|ToJsString(apiRoot)|] == ToJsString(apiRoot)
    ensures o.url[|ToJsString(apiRoot)|..] == EffectivePath(d.url)
    ensures apiRoot.Some? && Given(d.url) ==> o.url == apiRoot.value + d.url.value
    ensures apiRoot.Some? && !Given(d.url) ==> o.url == apiRoot.value + "/"
    // the method defaults to GET
    ensures Given(d.verb) ==> o.verb == d.verb.value
    ensures !Given(d.verb) ==> o.verb == "GET"
    // exactly one header, carrying the application name
    ensures |o.headers| == 1 && o.headers[0] == (AppNameHeader, appName)
    // the body is attached exactly when the descriptor supplies a truthy one, unchanged
    ensures o.json.Some? <==> d.json.Some? && Truthy(d.json.value)
    ensures o.json.Some? ==> o.json == d.json
  {
    var base := Options(ToJsString(apiRoot) + EffectivePath(d.url), OrElse(d.verb, DefaultMethod),
                        [(AppNameHeader, appName)], None);
    if d.json.Some? && Truthy(d.json.value) then base.(json := d.json) else base
  }

  /** `isError`: no response, or a status outside [200, 300). */
  function IsError(response: Option<Response>): (r: bool)
    ensures !r <==> response.Some? && 200 <= response.value.statusCode < 300
    ensures !r <==> response.Some? && response.value.statusCode / 100 == 2
    ensures response.Some? && response.value.statusCode == Unauthorized ==> r
  {
    response.None? || response.value.statusCode < 200 || response.value.statusCode >= 300
  }

  /** Whether the reply triggers the authentication diagnostic. */
  predicate IsUnauthorized(response: Option<Response>) {
    response.Some? && response.value.statusCode == Unauthorized
  }

  /** The effects of the transport's completion handler for `reply`. */
  function Complete<E, B>(hasCallback: bool, reply: Reply<E, B>): (c: Completion<B>)
    ensures c.diagnostic <==> reply.response.Some? && reply.response.value.statusCode == 401
    ensures c.diagnostic ==> IsError(reply.response)
    ensures c.callback.Some? <==> hasCallback
    // the callback sees the classification and the body unchanged, diagnostic or not
    ensures c.callback.Some? ==> c.callback.value.body == reply.body
    ensures c.callback.Some? ==> (c.callback.value.isError <==>
              !(reply.response.Some? && 200 <= reply.response.value.statusCode < 300))
  {
    Completion(IsUnauthorized(reply.response),
               if hasCallback then Some(Outcome(IsError(reply.response), reply.body)) else None)
  }

  /** The transport error never influences the completion. */
  lemma CompletionIgnoresTransportError<E, B>(hasCallback: bool, e1: Option<E>, e2: Option<E>,
                                             response: Option<Response>, body: B)
    ensures Complete(hasCallback, Reply(e1, response, body)) == Complete(hasCallback, Reply(e2, response, body))
  {
  }

  /** The push-service helper: its configuration and the request method all operations use. */
  class PushServiceHelper {
    var apiRoot: Option<string>
    var appName: Option<string>

    /** Both fields start out as `null`. */
    constructor ()
      ensures apiRoot == None && appName == None
    {
      apiRoot := None;
      appName := None;
    }

    /** Overwrites both fields, whatever they held; nothing is validated. */
    method Configure(root: string, name: string)
      modifies this
      ensures apiRoot == Some(root) && appName == Some(name)
    {
      apiRoot := Some(root);
      appName := Some(name);
    }

    /**
     * Builds the options for `data`, hands them to `transport` and completes
     * with its reply. Returns what was sent and the effects of completion.
     */
    method Request<E, B>(data: Descriptor, hasCallback: bool, transport: Options -> Reply<E, B>)
      returns (options: Options, completion: Completion<B>)
      ensures options == RequestOptions(apiRoot, appName, data)
      ensures completion == Complete(hasCallback, transport(options))
    {
      options := Options(ToJsString(apiRoot) + OrElse(data.url, DefaultPath),
                         OrElse(data.verb, DefaultMethod),
                         [(AppNameHeader, appName)],
                         None);
      if data.json.Some? && Truthy(data.json.value) {
        options := options.(json := data.json);
      }
      var reply := transport(options);
      var isError, diagnostic := true, false;
      if reply.response.Some? {
        var status := reply.response.value.statusCode;
        isError := status < 200 || status >= 300;
        diagnostic := status == Unauthorized;
      }
      var callback := if hasCallback then Some(Outcome(isError, reply.body)) else None;
      completion := Completion(diagnostic, callback);
    }
  }

  /** Configuring twice with the same arguments leaves the same state as configuring once. */
  method ConfigureTwice(root: string, name: string)
  {
    var h := new PushServiceHelper();
    h.Configure("http://old.example.com", "old");
    h.Configure(root, name);
    var once := (h.apiRoot, h.appName);
    h.Configure(root, name);
    assert (h.apiRoot, h.appName) == once == (Some(root), Some(name));
  }
}
