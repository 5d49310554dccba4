/**
 * The public operations of the push-service client. Each one maps its
 * arguments to an operation descriptor handed to the request mediator.
 */
module Facade {
  import opened Wrappers
  import opened Json
  import opened Mediator

  const UserPath: string := "/user/"
  const DeviceSuffix: string := "/device"
  const MessagePath: string := "/message"

  /**
   * Create-or-update a user: `PUT /user/{id}` when an id is given (a non-empty
   * string), `POST /user/` otherwise; the user data is the body either way.
   */
  function UpsertUser(userId: Option<string>, userData: Json): (d: Descriptor)
    ensures Given(userId) ==> d == Descriptor(Some("/user/" + userId.value), Some("PUT"), Some(userData))
    ensures !Given(userId) ==> d == Descriptor(Some("/user/"), Some("POST"), Some(userData))
  {
    assert UserPath + "" == UserPath;
    Descriptor(Some(UserPath + OrElse(userId, "")),
               Some(if Given(userId) then "PUT" else "POST"),
               Some(userData))
  }

  /** Delete a user and all its devices: `DELETE /user/{id}`, no body. */
  function DeleteUser(userId: string): (d: Descriptor)
    ensures d.url == Some("/user/" + userId) && d.verb == Some("DELETE") && d.json == None
  {
    Descriptor(Some(UserPath + userId), Some("DELETE"), None)
  }

  /** Delete one device of a user: `DELETE /user/{id}/device` with body `{token}`. */
  function DeleteDeviceFromUser(userId: string, deviceToken: string): (d: Descriptor)
    ensures d.url == Some("/user/" + userId + "/device") && d.verb == Some("DELETE")
    ensures d.json == Some(JObject([("token", JString(deviceToken))]))
  {
    Descriptor(Some(UserPath + userId + DeviceSuffix), Some("DELETE"),
               Some(JObject([("token", JString(deviceToken))])))
  }

  /** Send a message to some users: `POST /message` with body `{message, userIds}`. */
  function Send(userIds: Json, message: Json): (d: Descriptor)
    ensures d.url == Some("/message") && d.verb == Some("POST")
    ensures d.json == Some(JObject([("message", message), ("userIds", userIds)]))
  {
    Descriptor(Some(MessagePath), Some("POST"),
               Some(JObject([("message", message), ("userIds", userIds)])))
  }

  /** Send a message to every user of the application: `POST /message` with body `{message}`. */
  function SendAll(message: Json): (d: Descriptor)
    ensures d.url == Some("/message") && d.verb == Some("POST")
    ensures d.json == Some(JObject([("message", message)]))
  {
    Descriptor(Some(MessagePath), Some("POST"), Some(JObject([("message", message)])))
  }

  /** What a configured helper sends for an upsert. */
  lemma UpsertUserRequest(root: string, name: string, userId: Option<string>, userData: Json)
    ensures var o := RequestOptions(Some(root), Some(name), UpsertUser(userId, userData));
      && o.url == root + "/user/" + OrElse(userId, "")
      && o.verb == (if Given(userId) then "PUT" else "POST")
      && o.headers == [("X-App-Name", Some(name))]
      && o.json == (if Truthy(userData) then Some(userData) else None)
  {
  }

  /** What a configured helper sends for the four operations with a fixed body. */
  lemma FixedBodyRequests(root: string, name: string, userId: string, deviceToken: string,
                          userIds: Json, message: Json)
    ensures RequestOptions(Some(root), Some(name), DeleteUser(userId))
         == Options(root + "/user/" + userId, "DELETE", [("X-App-Name", Some(name))], None)
    ensures RequestOptions(Some(root), Some(name), DeleteDeviceFromUser(userId, deviceToken))
         == Options(root + "/user/" + userId + "/device", "DELETE", [("X-App-Name", Some(name))],
                    Some(JObject([("token", JString(deviceToken))])))
    ensures RequestOptions(Some(root), Some(name), Send(userIds, message))
         == Options(root + "/message", "POST", [("X-App-Name", Some(name))],
                    Some(JObject([("message", message), ("userIds", userIds)])))
    ensures RequestOptions(Some(root), Some(name), SendAll(message))
         == Options(root + "/message", "POST", [("X-App-Name", Some(name))],
                    Some(JObject([("message", message)])))
  {
  }

  /** Under one configuration, the URL sent determines the descriptor's effective path. */
  lemma UrlDeterminesPath(apiRoot: Option<string>, appName: Option<string>,
                             d1: Descriptor, d2: Descriptor)
    requires RequestOptions(apiRoot, appName, d1).url == RequestOptions(apiRoot, appName, d2).url
    ensures EffectivePath(d1.url) == EffectivePath(d2.url)
  {
  }

  /** Removing a common prefix from two equal strings leaves equal strings. */
  lemma CancelPrefix(p: string, a: string, b: string)
    requires p + a == p + b
    ensures a == b
  {
    assert a == (p + a)[|p|..];
    assert b == (p + b)[|p|..];
  }

  /** Removing a common suffix from two equal strings leaves equal strings. */
  lemma CancelSuffix(a: string, b: string, s: string)
    requires a + s == b + s
    ensures a == b
  {
    assert a == (a + s)[..|a|];
    assert b == (b + s)[..|b|];
  }

  /** Distinct users are deleted through distinct URLs. */
  lemma DeleteUserTargetsOneUser(apiRoot: Option<string>, appName: Option<string>, id1: string, id2: string)
    requires RequestOptions(apiRoot, appName, DeleteUser(id1)).url
          == RequestOptions(apiRoot, appName, DeleteUser(id2)).url
    ensures id1 == id2
  {
    UrlDeterminesPath(apiRoot, appName, DeleteUser(id1), DeleteUser(id2));
    CancelPrefix(UserPath, id1, id2);
  }

  /** Distinct users' devices are deleted through distinct URLs. */
  lemma DeleteDeviceTargetsOneUser(apiRoot: Option<string>, appName: Option<string>,
                                   id1: string, t1: string, id2: string, t2: string)
    requires RequestOptions(apiRoot, appName, DeleteDeviceFromUser(id1, t1)).url
          == RequestOptions(apiRoot, appName, DeleteDeviceFromUser(id2, t2)).url
    ensures id1 == id2
  {
    UrlDeterminesPath(apiRoot, appName, DeleteDeviceFromUser(id1, t1), DeleteDeviceFromUser(id2, t2));
    CancelSuffix(UserPath + id1, UserPath + id2, DeviceSuffix);
    CancelPrefix(UserPath, id1, id2);
  }

  /**
   * Two upserts send the same URL and method exactly when both name no user,
   * or both name the same user.
   */
  lemma UpsertTargetsOneUser(apiRoot: Option<string>, appName: Option<string>,
                             id1: Option<string>, data1: Json, id2: Option<string>, data2: Json)
    ensures var o1 := RequestOptions(apiRoot, appName, UpsertUser(id1, data1));
            var o2 := RequestOptions(apiRoot, appName, UpsertUser(id2, data2));
            (o1.url == o2.url && o1.verb == o2.verb)
              <==> (Given(id1) == Given(id2) && (Given(id1) ==> id1.value == id2.value))
  {
    var o1 := RequestOptions(apiRoot, appName, UpsertUser(id1, data1));
    var o2 := RequestOptions(apiRoot, appName, UpsertUser(id2, data2));
    if o1.url == o2.url && o1.verb == o2.verb {
      UrlDeterminesPath(apiRoot, appName, UpsertUser(id1, data1), UpsertUser(id2, data2));
      if Given(id1) {
        CancelPrefix(UserPath, id1.value, id2.value);
      }
    }
  }
}
