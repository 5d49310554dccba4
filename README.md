# Push-service client, modelled in Dafny

This project models the client helper of a push-notification HTTP service
(`index.js`). The helper holds two configuration fields, `apiRoot` and
`appName`. Every public operation builds an operation descriptor: a path, an
HTTP verb and an optional JSON body. The descriptor goes to one private
request method. That method:

- builds the transport options: the URL is the root plus the path, the verb
  defaults to `GET`, the only header is `X-App-Name`, and the body is attached
  only when there is one;
- hands the options to the HTTP transport;
- classifies the reply as an error when there is no response or the status is
  outside [200, 300);
- emits a diagnostic on status 401;
- calls the optional callback with `(isError, body)`.

Files:

- `wrappers.dfy`: `Option`, which stands for JavaScript's `null`/`undefined`
  versus a present value.
- `json.dfy`: the JSON values used as request bodies. It also models two
  JavaScript rules the code depends on: truthiness, used by `x || default`
  and `if (x)`, and the way `null` becomes the text `"null"` when concatenated.
- `mediator.dfy`: the `PushServiceHelper` class, which has the two fields, the
  constructor, `Configure` and `Request`. Beside the class are the
  specification functions `RequestOptions` (what is sent) and `Complete` (what
  happens when the reply arrives), plus the `IsError` classification.
  `ConfigureTwice` is a small client method. It shows that configuring twice
  with the same arguments leaves the same state as configuring once.
- `facade.dfy`: the five operations as functions from arguments to
  descriptors. It also holds lemmas giving the full request each operation
  sends under a configured helper, and lemmas showing that the URL decides
  which user an operation addresses.

How the inputs are modelled:

- The HTTP transport is a function parameter of `Request`, from the options
  sent to the reply received. The reply holds the transport error, the
  optional response (its status code) and a body of any type `B`. `B` is a
  type parameter, so the model passes the body through without looking at it.
- The callback is a flag, `hasCallback`. Its single invocation is the
  `callback` field of the `Completion` result, which is `None` when no
  callback was supplied. The 401 diagnostic is the boolean `diagnostic`.
- The two configuration fields are `Option<string>` and start as `None`
  (`null`). In the source, a request made before `configure` is not
  rejected: it concatenates `null`, so the URL begins with the text `"null"`
  and the header value is `null`. The model does the same and adds no
  precondition.

Where the documented design and the code differ, the model follows the code:

- The code attaches a body when `data.json` is truthy, not when it is merely
  present. A falsy user-data value (`null`, `false`, `0` or `""`) passed to
  `upsertUser` is therefore not sent.
- A path or verb that is the empty string falls back to `/` or `GET`, the
  same as an absent one.
- The transport error is ignored. Only the presence of a response and its
  status code decide `isError`. A transport error that comes with a 2xx
  response is classified as success.
- Issuing a request before configuring is not a failure. It sends a URL that
  starts with `"null"`.

## Model

| member | source | states |
|---|---|---|
| `Mediator.PushServiceHelper.constructor` | index.js:9-12 | a new helper has both `apiRoot` and `appName` unset (`null`) |
| `Mediator.PushServiceHelper.Configure` | index.js:21-24 | afterwards `apiRoot` and `appName` are exactly the given values, whatever they were before; nothing else is written (`modifies this` covers only the two fields) |
| `Mediator.PushServiceHelper.Request` | index.js:34-56 | the options handed to the transport are `RequestOptions` of the current configuration and the descriptor; the completion effects are `Complete` of the callback flag and the transport's reply to exactly those options |
| `Mediator.EffectivePath` | index.js:36 | the path appended to the root is never empty: it is the descriptor's path when that is a non-empty string, and `/` otherwise |
| `Mediator.RequestOptions` | index.js:35-44 | the URL is the root's text followed by the effective path (configured case: `apiRoot + url`, or `apiRoot + "/"` when `url` is absent or empty); the verb is the given one or `GET`; there is exactly one header, `X-App-Name`, carrying the current `appName`; a body is present iff the descriptor supplies a truthy one, and then it is that payload unchanged |
| `Mediator.IsError` | index.js:48 | not an error iff a response exists and 200 <= status < 300, which is the same as the status being in the 2xx class; a 401 response is always an error |
| `Mediator.Complete` | index.js:46-55 | the diagnostic fires iff a response with status 401 exists, and then the outcome is an error; the callback is invoked iff one was supplied; it receives the transport's body unchanged and `isError` true exactly when there is no 2xx response, so the diagnostic does not change what is passed on |
| `Mediator.CompletionIgnoresTransportError` | index.js:46-48 | the transport error never changes the completion: with no response the outcome is an error whatever the error says |
| `Facade.UpsertUser` | index.js:67-73 | a non-empty user id gives `PUT /user/{id}`; an absent or empty id gives `POST /user/`; the user data is the body in both cases |
| `Facade.DeleteUser` | index.js:81-86 | `DELETE /user/{id}` with no body |
| `Facade.DeleteDeviceFromUser` | index.js:95-103 | `DELETE /user/{id}/device` with body `{token: deviceToken}` |
| `Facade.Send` | index.js:116-125 | `POST /message` with body `{message, userIds}` in that order |
| `Facade.SendAll` | index.js:136-144 | `POST /message` with body `{message}` |
| `Facade.UpsertUserRequest` | index.js:34-44 | a configured helper's upsert sends `root + "/user/" + id` (the id only when given) with `PUT` or `POST`, the `X-App-Name` header, and the user data when it is truthy |
| `Facade.FixedBodyRequests` | index.js:81-144 | a configured helper's delete-user, delete-device, send and send-all requests are exactly the options listed for each, the URL being the root followed by the operation's path |
| `Facade.UrlDeterminesPath` | index.js:36 | under one configuration, two descriptors that produce the same URL have the same effective path |
| `Facade.DeleteUserTargetsOneUser` | index.js:81-86 | two delete-user requests with the same URL name the same user |
| `Facade.DeleteDeviceTargetsOneUser` | index.js:95-103 | two delete-device requests with the same URL name the same user, whatever the tokens |
| `Facade.UpsertTargetsOneUser` | index.js:67-73 | two upserts send the same URL and verb iff both name no user or both name the same user |

## Left out

- The `request(...)` call is left out because it is asynchronous network I/O in a foreign library. The transport is a function parameter from options to reply, so its timing, retries and headers added by the library are not modelled.
- The diagnostic's message and the console it is written to are left out. The model records only whether the diagnostic is emitted.
- Asynchronous scheduling of the callback and concurrency between requests are left out. One call of `Request` models one request from start to completion.
- JSON serialisation of bodies is left out. Numbers are integers, so fractional numbers and `NaN` (a falsy number) are not modelled. Object properties whose value is `undefined`, which serialisation would drop, are not modelled either.
- `Facade.DeleteUser`, `Facade.DeleteDeviceFromUser`: the user id is a string. A non-string argument, such as `undefined` becoming `"/user/undefined"`, is not modelled.
- The exported singleton (`module.exports = new PushServiceHelper()`) is packaging, not logic. A caller using it corresponds to one `PushServiceHelper` object.
