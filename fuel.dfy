/** The decisions `fuel` takes around the token: its TTL policy for the memo
    table, what it does with the token callback's arguments (lines 15-29),
    how it stamps the bearer header, how `_removeAuthOptions` strips the
    credentials, and how `createConfigurationWrapper` merges options. */
module Fuel {
  import opened Js
  import opened Memoize
  import opened TokenRequest

  /** The six credential fields that never reach the API transport. */
  const CredentialKeys: set<string> := {"clientId", "clientSecret", "refreshToken", "accessType", "authUrl", "scope"}

  const ErrorTtl := 10
  const ExpiryMargin := 30
  const TokenErrorPrefix := "Error requesting token: "
  const TokenMissing := "Error requesting token: Token Missing"
  const BearerPrefix := "Bearer "

  /** The invalidator given to `memoize` (lines 127-130): `error ? 10 : (body.expiresIn - 30)`.
      Reading `expiresIn` of a null or undefined body raises. */
  function TokenTtl(reply: Reply): Ttl {
    if Truthy(reply.error) then Seconds(ErrorTtl)
    else if Nullish(reply.body) then Raises
    else
      match ToNumber(Get(reply.body, "expiresIn"))
      case Finite(n) => Seconds(n - ExpiryMargin)
      case NaN => NotANumber
  }

  /** A reply with a transport error is stored for ten seconds; a token until thirty seconds before
      it expires; a token whose expiry is exactly thirty seconds, or missing,
      is stored with no deadline at all. */
  lemma TokenTtlPolicy(reply: Reply)
    ensures Truthy(reply.error) ==> TokenTtl(reply) == Seconds(10) && SetsDeadline(TokenTtl(reply))
    ensures !Truthy(reply.error) && !Nullish(reply.body) && Get(reply.body, "expiresIn").Num? ==>
              TokenTtl(reply) == Seconds(Get(reply.body, "expiresIn").n - 30)
    ensures !Truthy(reply.error) && !Nullish(reply.body) && Get(reply.body, "expiresIn") == Num(30) ==>
              !SetsDeadline(TokenTtl(reply)) && !TokenTtl(reply).Raises?
    ensures !Truthy(reply.error) && !Nullish(reply.body) && Get(reply.body, "expiresIn") == Undefined ==>
              TokenTtl(reply) == NotANumber
    ensures !Truthy(reply.error) && Nullish(reply.body) ==> TokenTtl(reply) == Raises
  {
  }

  /** An `expiresIn` sent as a decimal digit string is read as its number
      by the subtraction, so it sets the same lifetime as the number. */
  lemma DigitStringExpiry(reply: Reply, e: nat)
    requires !Truthy(reply.error) && !Nullish(reply.body)
    requires Get(reply.body, "expiresIn") == Str(ToString(Num(e)))
    ensures TokenTtl(reply) == Seconds(e - 30)
  {
    NumberRoundTrip(e);
  }

  /** Negative caching: after an error reply completes at `done`, calls for
      the key replay that error until `done + 10` and start a new fetch from then on. */
  lemma ErrorCachedTenSeconds<C>(s: State<C, Reply>, key: string, reply: Reply, done: int, cb: C, now: int)
    requires Consistent(s) && key in s.queues
    requires Truthy(reply.error)
    ensures var fin := Completed(s, key, reply, TokenTtl(reply), done);
            Called(fin.0, key, cb, now).1 == if now < done + 10 then Replay(reply) else StartFetch
  {
    DeadlineBoundsReplay(s, key, reply, ErrorTtl, done, cb, now);
  }

  /** A token with `expiresIn` seconds other than 30 is replayed until thirty
      seconds before it expires, and refetched from then on. */
  lemma TokenCachedUntilMargin<C>(s: State<C, Reply>, key: string, reply: Reply, done: int, cb: C, now: int)
    requires Consistent(s) && key in s.queues
    requires !Truthy(reply.error) && !Nullish(reply.body)
    requires Get(reply.body, "expiresIn").Num? && Get(reply.body, "expiresIn").n != 30
    ensures var fin := Completed(s, key, reply, TokenTtl(reply), done);
            var e := Get(reply.body, "expiresIn").n;
            Called(fin.0, key, cb, now).1 == if now < done + e - 30 then Replay(reply) else StartFetch
  {
    DeadlineBoundsReplay(s, key, reply, Get(reply.body, "expiresIn").n - ExpiryMargin, done, cb, now);
  }

  /** A 200 reply whose body is the empty string has no `expiresIn`: it is
      stored with no deadline, so its 'Token Missing' outcome is replayed forever. */
  lemma EmptyBodyStoredForever<C>(s: State<C, Reply>, key: string, response: Value, done: int, cb: C, now: int)
    requires Consistent(s) && key in s.queues
    ensures var reply := Reply(Null, response, Str(""));
            var fin := Completed(s, key, reply, TokenTtl(reply), done);
            Called(fin.0, key, cb, now).1 == Replay(reply)
  {
    var reply := Reply(Null, response, Str(""));
    assert TokenTtl(reply) == NotANumber;
    NoDeadlineReplaysForever(s, key, reply, NotANumber, done, cb, now);
  }

  /** A reply with no transport error whose body has no `expiresIn`, such
      as a non-200 reply carrying only a message, gives a NaN lifetime: it is
      stored with no deadline, so the failure `fuel` reports for it is
      replayed to every later caller. */
  lemma NonOkReplyStoredForever<C>(s: State<C, Reply>, key: string, reply: Reply, done: int, cb: C, now: int, statusCodes: map<string, string>)
    requires Consistent(s) && key in s.queues
    requires !Truthy(reply.error) && reply.body.Object? && "expiresIn" !in reply.body.props
    requires !Nullish(reply.response) && Get(reply.response, "statusCode") != Num(200)
    ensures var fin := Completed(s, key, reply, TokenTtl(reply), done);
            && DecideOnToken(ReplyArgs(reply), statusCodes).TokenFailed?
            && Called(fin.0, key, cb, now).1 == Replay(reply)
  {
    assert TokenTtl(reply) == NotANumber;
    NoDeadlineReplaysForever(s, key, reply, NotANumber, done, cb, now);
  }

  /** An error passed to a callback: one that `fuel` creates with
      `new Error(message)`, or one it forwards from elsewhere. */
  datatype Failure = NewError(message: string) | Forwarded(error: Value)

  predicate FailureTruthy(f: Failure) {
    f.NewError? || Truthy(f.error)
  }

  /** The arguments a callback is called with: `(error)` or `(error, response, body)`. */
  datatype Args = ErrorArgs(failure: Failure) | ReplyArgs(reply: Reply)

  /** What the token callback in `fuel` does. */
  datatype Decision =
    | ForwardError(failure: Failure)
    | TokenFailed(message: string)
    | Authorized(accessToken: Value)
    | HandlerRaises

  /** `statusCode + ' ' + http.STATUS_CODES[statusCode]`; an unknown code reads as undefined. */
  function StatusLine(statusCodes: map<string, string>, status: Value): string {
    var name := ToString(status);
    name + " " + (if name in statusCodes then statusCodes[name] else "undefined")
  }

  /** Lines 16-28. Reading `statusCode` of a missing response raises. */
  function DecideOnToken(args: Args, statusCodes: map<string, string>): Decision {
    match args
    case ErrorArgs(f) =>
      if FailureTruthy(f) then ForwardError(f) else HandlerRaises
    case ReplyArgs(reply) =>
      if Truthy(reply.error) then ForwardError(Forwarded(reply.error))
      else if Nullish(reply.response) then HandlerRaises
      else if Get(reply.response, "statusCode") != Num(200) then
        TokenFailed(TokenErrorPrefix +
          if Truthy(reply.body) && Truthy(Get(reply.body, "message")) then ToString(Get(reply.body, "message"))
          else StatusLine(statusCodes, Get(reply.response, "statusCode")))
      else if !Truthy(reply.body) || !Truthy(Get(reply.body, "accessToken")) then TokenFailed(TokenMissing)
      else Authorized(Get(reply.body, "accessToken"))
  }

  /** The handler's outcomes: errors are forwarded; a status other than 200
      reports the body's message or the status line; a 200 without a token
      reports 'Token Missing'; only a 200 with a truthy token authorizes. */
  lemma DecisionOutcomes(reply: Reply, statusCodes: map<string, string>)
    ensures var d := DecideOnToken(ReplyArgs(reply), statusCodes);
            var status := Get(reply.response, "statusCode");
            && (Truthy(reply.error) ==> d == ForwardError(Forwarded(reply.error)))
            && (d.Authorized? <==>
                  !Truthy(reply.error) && !Nullish(reply.response) && status == Num(200)
                  && Truthy(reply.body) && Truthy(Get(reply.body, "accessToken")))
            && (d.Authorized? ==> d.accessToken == Get(reply.body, "accessToken"))
            && (d.TokenFailed? ==> d.message[..|TokenErrorPrefix|] == TokenErrorPrefix)
            && (!Truthy(reply.error) && !Nullish(reply.response) && status != Num(200) ==>
                  d == TokenFailed(TokenErrorPrefix +
                         if Truthy(reply.body) && Get(reply.body, "message").Str? && Get(reply.body, "message").s != ""
                         then Get(reply.body, "message").s
                         else if !Truthy(reply.body) || !Truthy(Get(reply.body, "message"))
                         then StatusLine(statusCodes, status)
                         else ToString(Get(reply.body, "message"))))
            && (!Truthy(reply.error) && !Nullish(reply.response) && status == Num(200)
                && !(Truthy(reply.body) && Truthy(Get(reply.body, "accessToken"))) ==>
                  d == TokenFailed(TokenMissing))
  {
  }

  /** A token-only failure reaching `fuel` as `(error)` is forwarded unchanged. */
  lemma ErrorArgsForwarded(f: Failure, statusCodes: map<string, string>)
    requires FailureTruthy(f)
    ensures DecideOnToken(ErrorArgs(f), statusCodes) == ForwardError(f)
  {
  }

  /** Lines 23-25: `json` set, headers kept or created, the bearer header set.
      Assigning a property of a truthy primitive `headers` has no effect. */
  function WithBearer(options: map<string, Value>, token: Value): map<string, Value> {
    var headers := if Truthy(Field(options, "headers")) then Field(options, "headers") else Object(map[]);
    var headers := if headers.Object? then Object(headers.props["authorization" := Str(BearerPrefix + ToString(token))]) else headers;
    options["json" := Bool(true)]["headers" := headers]
  }

  /** `_removeAuthOptions`: a deep copy of the options (`extend(true, {}, options)`),
      which drops `undefined` properties, without the six credential fields. */
  function RemoveAuthOptions(options: map<string, Value>): (r: map<string, Value>)
    ensures r.Keys == DefinedKeys(options) - CredentialKeys
    ensures forall k :: k in r ==> r[k] == Clone(options[k])
  {
    CopyIntoEmpty(options);
    ExtendDeep(map[], options) - CredentialKeys
  }

  /** The token request passes `_removeAuthOptions` untouched when nothing in
      it is `undefined`: its credential fields sit inside `body`, not at the
      top level. */
  lemma TokenRequestSurvivesStripping(a: AuthOptions)
    requires Defined(a.url) && forall k :: k in a.body ==> Defined(a.body[k])
    ensures RemoveAuthOptions(AsObject(a)) == AsObject(a)
  {
    var o := AsObject(a);
    assert o.Keys !! CredentialKeys;
    assert DefinedKeys(o) == o.Keys;
    CloneOfDefined(a.url);
    CloneOfDefined(Object(a.body));
    assert forall k :: k in o ==> Clone(o[k]) == o[k];
  }

  /** Lines 23-25 before the copy: every caller field other than `json` and
      `headers` kept, `json` true, and headers that are never `undefined`. */
  lemma WithBearerShape(options: map<string, Value>, token: Value)
    ensures var w := WithBearer(options, token);
            && w.Keys == options.Keys + {"json", "headers"}
            && DefinedKeys(w) == DefinedKeys(options) + {"json", "headers"}
            && w["json"] == Bool(true)
            && (forall k :: k in options && k != "json" && k != "headers" ==> w[k] == options[k])
  {
    var w := WithBearer(options, token);
    assert !w["headers"].Undefined?;
  }

  /** The token request after `_removeAuthOptions`: the endpoint, method,
      json flag and body, the endpoint and body deep-copied. */
  lemma StrippedTokenRequest(a: AuthOptions)
    requires !a.url.Undefined?
    ensures var req := RemoveAuthOptions(AsObject(a));
            && req.Keys == {"url", "method", "json", "body"}
            && req["url"] == Clone(a.url)
            && req["method"] == Str("POST")
            && req["json"] == Bool(true)
            && req["body"].Object?
            && req["body"].props.Keys == DefinedKeys(a.body)
            && forall k :: k in DefinedKeys(a.body) ==> req["body"].props[k] == Clone(a.body[k])
  {
    var o := AsObject(a);
    assert DefinedKeys(o) == o.Keys;
    assert o.Keys !! CredentialKeys;
    CopyIntoEmpty(a.body);
  }

  /** The fields of the request `fuel` dispatches: no credential field,
      `json` true, every other defined caller field copied. */
  lemma DispatchedRequestFields(options: map<string, Value>, token: Value)
    ensures var r := RemoveAuthOptions(WithBearer(options, token));
            && r.Keys !! CredentialKeys
            && r.Keys == (DefinedKeys(options) - CredentialKeys) + {"json", "headers"}
            && r["json"] == Bool(true)
            && (forall k :: k in DefinedKeys(options) && k !in CredentialKeys && k != "json" && k != "headers" ==>
                  r[k] == Clone(options[k]))
  {
    WithBearerShape(options, token);
  }

  /** The headers that reach the transport are the copy of the stamped headers. */
  lemma HeadersCopied(options: map<string, Value>, token: Value)
    ensures "headers" in RemoveAuthOptions(WithBearer(options, token))
    ensures RemoveAuthOptions(WithBearer(options, token))["headers"] == Clone(WithBearer(options, token)["headers"])
  {
    var w := WithBearer(options, token);
    assert !w["headers"].Undefined? && "headers" !in CredentialKeys;
    assert "headers" in DefinedKeys(w);
  }

  /** The headers of the request `fuel` dispatches: the caller's headers
      copied with the bearer header added, or a fresh headers object holding
      only it; a truthy primitive is passed on as it is. */
  lemma DispatchedRequestHeaders(options: map<string, Value>, token: Value)
    ensures var r := RemoveAuthOptions(WithBearer(options, token));
            var h := Field(options, "headers");
            var bearer := Str(BearerPrefix + ToString(token));
            && "headers" in r
            && (!Truthy(h) ==> r["headers"] == Object(map["authorization" := bearer]))
            && (h.Object? ==> r["headers"].Object?
                              && r["headers"].props.Keys == DefinedKeys(h.props) + {"authorization"}
                              && r["headers"].props["authorization"] == bearer
                              && forall k :: k in DefinedKeys(h.props) && k != "authorization" ==>
                                   r["headers"].props[k] == Clone(h.props[k]))
            && (Truthy(h) && !h.Object? ==> r["headers"] == h)
  {
    HeadersCopied(options, token);
    var h := Field(options, "headers");
    var bearer := Str(BearerPrefix + ToString(token));
    if !Truthy(h) {
      FreshHeadersKept(bearer);
    } else if h.Object? {
      CopyIntoEmpty(h.props["authorization" := bearer]);
    }
  }

  lemma FreshHeadersKept(bearer: Value)
    requires bearer.Str?
    ensures Clone(Object(map["authorization" := bearer])) == Object(map["authorization" := bearer])
  {
    var hv := Object(map["authorization" := bearer]);
    assert Defined(hv) by {
      assert forall k :: k in hv.props ==> hv.props[k] == bearer;
    }
    CloneOfDefined(hv);
  }

  /** How a configured function was called: with options and a callback, or
      with the callback alone (the `!callback` branch, line 146). */
  datatype CallForm = WithOptions(options: map<string, Value>) | CallbackOnly

  /** The options a configured function was called with; `{}` in the callback-only form. */
  function CallOptions(form: CallForm): map<string, Value> {
    if form.WithOptions? then form.options else map[]
  }

  /** `extend(true, {}, storedOptions, options)`: a new object holding a deep
      copy of the stored options with the call's options merged over it. */
  function ConfiguredOptions(stored: map<string, Value>, form: CallForm): (r: Value)
    ensures r.Object?
    ensures r.props.Keys == DefinedKeys(stored) + DefinedKeys(CallOptions(form))
    ensures forall k :: k in DefinedKeys(CallOptions(form)) && !CallOptions(form)[k].Object? ==>
              r.props[k] == CallOptions(form)[k]
    ensures forall k :: k in DefinedKeys(stored) && k !in DefinedKeys(CallOptions(form)) ==>
              r.props[k] == Clone(stored[k])
    ensures form.CallbackOnly? ==> r.props == ExtendDeep(map[], stored)
  {
    CopyIntoEmpty(stored);
    Object(ExtendDeep(ExtendDeep(map[], stored), CallOptions(form)))
  }

  /** A field that holds an object both in the stored options and in the
      call's options is the merge of the two objects: their defined keys,
      the call's non-object values winning, and the stored values copied where
      the call leaves a key undefined. */
  lemma NestedFieldsMerge(stored: map<string, Value>, form: CallForm, k: string)
    requires k in stored && stored[k].Object?
    requires k in CallOptions(form) && CallOptions(form)[k].Object?
    ensures var r := ConfiguredOptions(stored, form).props[k];
            var sp, cp := stored[k].props, CallOptions(form)[k].props;
            && r.Object?
            && r.props.Keys == DefinedKeys(sp) + DefinedKeys(cp)
            && (forall j :: j in DefinedKeys(cp) && !cp[j].Object? ==> r.props[j] == cp[j])
            && (forall j :: j in DefinedKeys(sp) && j !in DefinedKeys(cp) ==> r.props[j] == Clone(sp[j]))
  {
    var t := ExtendDeep(map[], stored);
    CopyIntoEmpty(stored);
    assert t[k] == Object(ExtendDeep(map[], stored[k].props));
    CopyIntoEmpty(stored[k].props);
    NestedObjectsMerge(t, CallOptions(form), k);
  }

  const ExampleStored: map<string, Value> := map["scope" := Str("a"), "nested" := Object(map["x" := Num(1)])]
  const ExampleCall: map<string, Value> := map["nested" := Object(map["y" := Num(2)])]

  /** Stored `{scope: "a", nested: {x: 1}}` called with `{nested: {y: 2}}`
      gives `{scope: "a", nested: {x: 1, y: 2}}`. */
  lemma NestedMergeExample()
    ensures ConfiguredOptions(ExampleStored, WithOptions(ExampleCall))
            == Object(map["scope" := Str("a"), "nested" := Object(map["x" := Num(1), "y" := Num(2)])])
  {
    var r := ConfiguredOptions(ExampleStored, WithOptions(ExampleCall)).props;
    ExampleTopLevel();
    ExampleNested();
    assert r == map["scope" := Str("a"), "nested" := Object(map["x" := Num(1), "y" := Num(2)])];
  }

  lemma ExampleTopLevel()
    ensures var r := ConfiguredOptions(ExampleStored, WithOptions(ExampleCall)).props;
            r.Keys == {"scope", "nested"} && r["scope"] == Str("a")
  {
    assert DefinedKeys(ExampleStored) == {"scope", "nested"};
    assert DefinedKeys(ExampleCall) == {"nested"};
  }

  lemma ExampleNested()
    ensures ConfiguredOptions(ExampleStored, WithOptions(ExampleCall)).props["nested"]
            == Object(map["x" := Num(1), "y" := Num(2)])
  {
    ExampleNestedFields();
    var n := ConfiguredOptions(ExampleStored, WithOptions(ExampleCall)).props["nested"].props;
    assert n == map["x" := Num(1), "y" := Num(2)];
  }

  lemma ExampleNestedFields()
    ensures var v := ConfiguredOptions(ExampleStored, WithOptions(ExampleCall)).props["nested"];
            && v.Object? && v.props.Keys == {"x", "y"}
            && v.props["x"] == Num(1) && v.props["y"] == Num(2)
  {
    NestedFieldsMerge(ExampleStored, WithOptions(ExampleCall), "nested");
    assert DefinedKeys(ExampleStored["nested"].props) == {"x"};
    assert DefinedKeys(ExampleCall["nested"].props) == {"y"};
  }

  /** A field the call does not set reads as the clone of the stored field. */
  lemma ConfiguredField(stored: map<string, Value>, form: CallForm, k: string)
    requires k !in DefinedKeys(CallOptions(form))
    ensures Get(ConfiguredOptions(stored, form), k) == Clone(Field(stored, k))
  {
  }

  /** A stored configuration with no `undefined` inside, called in the
      callback-only form, is used exactly as stored. */
  lemma StoredOptionsUsedAsStored(stored: map<string, Value>)
    requires forall k :: k in stored ==> Defined(stored[k])
    ensures ConfiguredOptions(stored, CallbackOnly).props == stored
  {
    var r := ConfiguredOptions(stored, CallbackOnly).props;
    assert DefinedKeys(stored) == stored.Keys;
    forall k | k in stored
      ensures r[k] == stored[k]
    {
      CloneOfDefined(stored[k]);
    }
  }

  /** Two configured clients whose stored endpoints differ, called without
      overriding the credential fields, request tokens from their own
      endpoints, under different keys when they share client id and scope. */
  lemma SeparateConfigurations(a: map<string, Value>, x: map<string, Value>, fa: CallForm, fx: CallForm)
    requires "authUrl" in a && "authUrl" in x && a["authUrl"].Str? && x["authUrl"].Str?
    requires a["authUrl"] != x["authUrl"]
    requires Field(a, "clientId") == Field(x, "clientId") && Field(a, "scope") == Field(x, "scope")
    requires forall k :: k in {"authUrl", "clientId", "scope"} ==>
               k !in DefinedKeys(CallOptions(fa)) && k !in DefinedKeys(CallOptions(fx))
    ensures BuildAuthOptions(ConfiguredOptions(a, fa)).url == a["authUrl"]
    ensures BuildAuthOptions(ConfiguredOptions(x, fx)).url == x["authUrl"]
    ensures AuthOptionsHash(BuildAuthOptions(ConfiguredOptions(a, fa))) !=
            AuthOptionsHash(BuildAuthOptions(ConfiguredOptions(x, fx)))
  {
    var oa, ox := ConfiguredOptions(a, fa), ConfiguredOptions(x, fx);
    ConfiguredField(a, fa, "authUrl");
    ConfiguredField(x, fx, "authUrl");
    ConfiguredField(a, fa, "clientId");
    ConfiguredField(x, fx, "clientId");
    ConfiguredField(a, fa, "scope");
    ConfiguredField(x, fx, "scope");
    assert Get(oa, "authUrl") == a["authUrl"];
    assert Get(ox, "authUrl") == x["authUrl"];
    assert Get(oa, "clientId") == Get(ox, "clientId");
    assert Get(oa, "scope") == Get(ox, "scope");
    var ra, rx := BuildAuthOptions(oa), BuildAuthOptions(ox);
    assert Field(ra.body, "clientId") == Field(rx.body, "clientId");
    assert Field(ra.body, "scope") == Field(rx.body, "scope") by {
      assert "scope" in ra.body <==> "scope" in rx.body;
    }
    DistinctEndpointsDistinctKeys(ra, rx);
  }
}
