/**
 * The request hook (`src/hooks/useApi.ts`): how the options given to the hook
 * and to `fetchData` are merged, when the bearer token is attached, and how a
 * reply becomes the hook's `data` / `error` state.
 */
module UseApi {
  import opened Wrappers
  import opened Js
  import opened Params

  /** `Partial<ApiOptions>`; an absent options object reads like one with no fields. */
  datatype ApiOptions = ApiOptions(
    url: Option<string>,
    httpMethod: Option<string>,
    body: Option<Json>,
    headers: Option<seq<Entry>>,
    requireAuth: Option<bool>)

  const NoOptions := ApiOptions(None, None, None, None, None)

  /** `mergedOptions`. */
  datatype Request = Request(url: string, httpMethod: string, body: Option<Json>, headers: seq<Entry>, requireAuth: bool)

  const DefaultError := "Something went wrong. Please try again."

  /** `a || b` on optional strings. */
  function FirstText(a: Option<string>, b: Option<string>, fallback: string): (r: string)
    ensures a.Some? && a.value != "" ==> r == a.value
    ensures (a.None? || a.value == "") && b.Some? && b.value != "" ==> r == b.value
    ensures (a.None? || a.value == "") && (b.None? || b.value == "") ==> r == fallback
  {
    if a.Some? && a.value != "" then a.value
    else if b.Some? && b.value != "" then b.value
    else fallback
  }

  function HeadersOf(o: ApiOptions): seq<Entry> {
    if o.headers.Some? then o.headers.value else []
  }

  /** The merged options: call-time values win over the hook's, which win over the defaults. */
  function Merged(initial: ApiOptions, call: ApiOptions): Request {
    Request(
      FirstText(call.url, initial.url, ""),
      FirstText(call.httpMethod, initial.httpMethod, "GET"),
      if TruthyOpt(call.body) then call.body else initial.body,
      Spread(Spread([Entry("Content-Type", "application/json")], HeadersOf(initial)), HeadersOf(call)),
      if call.requireAuth.Some? then call.requireAuth.value
      else if initial.requireAuth.Some? then initial.requireAuth.value
      else false)
  }

  /**
   * The url and method are the call's when given and non-empty, else the
   * hook's, else "" and "GET"; the body is the call's when truthy, else the hook's.
   */
  lemma ScalarPrecedence(initial: ApiOptions, call: ApiOptions)
    ensures !Blank(call.url) ==> Merged(initial, call).url == call.url.value
    ensures Blank(call.url) && !Blank(initial.url) ==> Merged(initial, call).url == initial.url.value
    ensures Blank(call.url) && Blank(initial.url) ==> Merged(initial, call).url == ""
    ensures !Blank(call.httpMethod) ==> Merged(initial, call).httpMethod == call.httpMethod.value
    ensures Blank(call.httpMethod) && !Blank(initial.httpMethod) ==>
      Merged(initial, call).httpMethod == initial.httpMethod.value
    ensures Blank(call.httpMethod) && Blank(initial.httpMethod) ==> Merged(initial, call).httpMethod == "GET"
    ensures TruthyOpt(call.body) ==> Merged(initial, call).body == call.body
    ensures !TruthyOpt(call.body) ==> Merged(initial, call).body == initial.body
  {
  }

  /** An absent or empty option, which `||` passes over. */
  predicate Blank(o: Option<string>) {
    o.None? || o.value == ""
  }

  /** The headers actually sent: `Authorization` is set when auth is required and a token is held. */
  function WithAuthorization(r: Request, token: Option<string>): Request {
    if r.requireAuth && token.Some? && token.value != "" then
      r.(headers := Assigned(r.headers, "Authorization", "Bearer " + token.value))
    else r
  }

  /** What goes on the wire: the body only when it is truthy. */
  function SentBody(r: Request): Option<Json> {
    if TruthyOpt(r.body) then r.body else None
  }

  /** A header reads as the call's value, else the hook's, else the JSON content type default. */
  lemma HeaderPrecedence(initial: ApiOptions, call: ApiOptions, key: string)
    ensures Lookup(Merged(initial, call).headers, key) ==
      if HasKey(HeadersOf(call), key) then LastLookup(HeadersOf(call), key)
      else if HasKey(HeadersOf(initial), key) then LastLookup(HeadersOf(initial), key)
      else if key == "Content-Type" then Some("application/json")
      else None
  {
    var base := [Entry("Content-Type", "application/json")];
    LookupSpread(Spread(base, HeadersOf(initial)), HeadersOf(call), key);
    LookupSpread(base, HeadersOf(initial), key);
  }

  /** `requireAuth` is the first one defined, call before hook, and false when neither is. */
  lemma RequireAuthPrecedence(initial: ApiOptions, call: ApiOptions)
    ensures call.requireAuth.Some? ==> Merged(initial, call).requireAuth == call.requireAuth.value
    ensures call.requireAuth.None? && initial.requireAuth.Some? ==>
      Merged(initial, call).requireAuth == initial.requireAuth.value
    ensures call.requireAuth.None? && initial.requireAuth.None? ==> !Merged(initial, call).requireAuth
  {
  }

  /**
   * The bearer header is present with the token exactly when auth is required and
   * a token is held, replacing a supplied one; otherwise the headers are as merged.
   */
  lemma AuthorizationRule(r: Request, token: Option<string>)
    ensures r.requireAuth && token.Some? && token.value != "" ==>
      Lookup(WithAuthorization(r, token).headers, "Authorization") == Some("Bearer " + token.value)
    ensures !(r.requireAuth && token.Some? && token.value != "") ==> WithAuthorization(r, token) == r
    ensures forall k :: k != "Authorization" ==>
      Lookup(WithAuthorization(r, token).headers, k) == Lookup(r.headers, k)
  {
    if r.requireAuth && token.Some? && token.value != "" {
      forall k | true
        ensures Lookup(WithAuthorization(r, token).headers, k) ==
          if k == "Authorization" then Some("Bearer " + token.value) else Lookup(r.headers, k)
      {
        LookupAssigned(r.headers, "Authorization", "Bearer " + token.value, k);
      }
    }
  }

  /** A call with no options of its own sends what the hook was set up with. */
  lemma CallWithoutOptions(initial: ApiOptions)
    ensures Merged(initial, NoOptions).url == FirstText(initial.url, None, "")
    ensures Merged(initial, NoOptions).body == initial.body
    ensures Merged(initial, NoOptions).requireAuth == (initial.requireAuth == Some(true))
  {
  }

  /** The message a non-ok reply fails with: `error.message`, else `message`, else the default. */
  function ErrorMessage(body: Json): (m: string)
    ensures m != ""
    ensures var nested := Text(Get(Get(Some(body), "error"), "message"));
      var top := Text(Get(Some(body), "message"));
      (nested.Some? && nested.value != "" ==> m == nested.value) &&
      ((nested.None? || nested.value == "") && top.Some? && top.value != "" ==> m == top.value) &&
      ((nested.None? || nested.value == "") && (top.None? || top.value == "") ==> m == DefaultError)
  {
    FirstText(Text(Get(Get(Some(body), "error"), "message")), Text(Get(Some(body), "message")), DefaultError)
  }

  /** The state change of one `fetchData` call and what it resolves to. */
  datatype Settled = Settled(data: Option<Json>, error: Option<string>, result: Json)

  /**
   * An ok reply becomes the data and the result. Anything else keeps the data,
   * resolves to null and records the thrown message: the transport's or
   * parser's own, the engine's error for reading `null.error`, or `ErrorMessage`.
   */
  function Settle(data: Option<Json>, reply: Reply): (s: Settled)
    ensures reply.Response? && reply.ok ==> s == Settled(Some(reply.body), None, reply.body)
    ensures !(reply.Response? && reply.ok) ==> s.data == data && s.result == JNull && s.error.Some?
    ensures reply.Thrown? ==> s.error == Some(reply.message)
    ensures reply.Response? && !reply.ok && reply.body == JNull ==> s.error == Some(NullAccess)
    ensures reply.Response? && !reply.ok && reply.body != JNull ==> s.error == Some(ErrorMessage(reply.body))
  {
    match reply
    case Thrown(m) => Settled(data, Some(m), JNull)
    case Response(ok, body) =>
      if ok then Settled(Some(body), None, body)
      else Settled(data, Some(if body == JNull then NullAccess else ErrorMessage(body)), JNull)
  }

  /** The preferred message is the nested `error.message`. */
  lemma NestedMessageWins(body: Json, m: string, data: Option<Json>)
    requires m != ""
    requires Get(Get(Some(body), "error"), "message") == Some(JStr(m))
    ensures Settle(data, Response(false, body)).error == Some(m)
  {
  }

  /** The hook with its state; `initial` is the options it was created with. */
  class ApiHook {
    const initial: ApiOptions
    var data: Option<Json>
    var error: Option<string>
    var loading: bool

    constructor (initialOptions: ApiOptions)
      ensures initial == initialOptions && data.None? && error.None? && !loading
    {
      initial := initialOptions;
      data := None;
      error := None;
      loading := false;
    }

    /** `fetchData(options)`, given the token in the store and what the request resolved to. */
    method FetchData(call: ApiOptions, token: Option<string>, reply: Reply) returns (request: Request, result: Json)
      modifies this
      ensures request == WithAuthorization(Merged(initial, call), token)
      ensures Settled(data, error, result) == Settle(old(data), reply)
      ensures !loading
    {
      request := Merged(initial, call);
      if request.requireAuth && token.Some? && token.value != "" {
        request := request.(headers := Assigned(request.headers, "Authorization", "Bearer " + token.value));
      }
      loading := true;
      error := None;
      match reply {
        case Thrown(m) =>
          error := Some(m);
          result := JNull;
        case Response(ok, body) =>
          if !ok {
            error := Some(if body == JNull then NullAccess else ErrorMessage(body));
            result := JNull;
          } else {
            data := Some(body);
            result := body;
          }
      }
      loading := false;
    }
  }
}
