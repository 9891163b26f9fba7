/** The module-level state of `fuel` and the operations that use it:
    `fuel.token` (lines 32-66), `fuel` itself (lines 13-30), their configured
    forms (lines 68-69, 143-153), and the arrival of a token reply at the
    memoized `_performTokenRequest` (lines 124-130, 176-187).

    Callbacks are identifiers; a callback invocation, a request handed to
    the transport, or a TypeError raised inside a handler is an Effect, and
    each operation returns the effects it causes, in order. */
module Service {
  import opened Js
  import opened Validation
  import opened TokenRequest
  import opened Memoize
  import opened Fuel

  type CallbackId = nat

  /** Who receives the arguments of the token callback: the caller of
      `fuel.token`, or the closure `fuel` hands to `fuel.token` (line 15),
      which holds the caller's options and callback. */
  datatype Continuation = ToCaller(cb: CallbackId) | Authorize(options: map<string, Value>, cb: CallbackId)

  /** The callback `fuel.token` hands to the memoized fetch (line 56); it holds
      the identity key that was used to read the refresh-token store. */
  datatype Waiter = Waiter(key: string, cont: Continuation)

  datatype Effect =
    | Invoke(cb: CallbackId, args: Args)
    | SendTokenRequest(key: string, request: map<string, Value>)
    | SendApiRequest(request: map<string, Value>, cb: CallbackId)
    | Raised

  /** What a continuation does with the token callback's arguments. */
  function Continue(cont: Continuation, args: Args, statusCodes: map<string, string>): Effect {
    match cont
    case ToCaller(cb) => Invoke(cb, args)
    case Authorize(options, cb) =>
      match DecideOnToken(args, statusCodes)
      case ForwardError(f) => Invoke(cb, ErrorArgs(f))
      case TokenFailed(m) => Invoke(cb, ErrorArgs(NewError(m)))
      case Authorized(token) => SendApiRequest(RemoveAuthOptions(WithBearer(options, token)), cb)
      case HandlerRaises => Raised
  }

  /** What a waiter passes on (lines 57-63): only the error after an error
      reply, all three arguments otherwise. */
  function Deliver(w: Waiter, reply: Reply, statusCodes: map<string, string>): Effect {
    if Truthy(reply.error) then Continue(w.cont, ErrorArgs(Forwarded(reply.error)), statusCodes)
    else Continue(w.cont, ReplyArgs(reply), statusCodes)
  }

  /** Draining a queue (lines 184-186): each waiter in order updates the
      store, then delivers; a raise ends the drain. */
  function Drain(store: map<string, Value>, ws: seq<Waiter>, reply: Reply, statusCodes: map<string, string>): (map<string, Value>, seq<Effect>)
    decreases |ws|
  {
    if ws == [] then (store, [])
    else
      var store' := StoreAfterReply(store, ws[0].key, reply);
      var e := Deliver(ws[0], reply, statusCodes);
      if e.Raised? then (store', [e])
      else
        var rest := Drain(store', ws[1..], reply, statusCodes);
        (rest.0, [e] + rest.1)
  }

  /** The whole state: the refresh-token store and the memo table. */
  datatype World = World(store: map<string, Value>, table: State<Waiter, Reply>)

  /** The memoized call for a built request: a stored reply is delivered to
      the waiter at once, an in-flight key queues it, and otherwise the
      request is handed to the transport. */
  function Entered(w: World, waiter: Waiter, request: map<string, Value>, now: int, statusCodes: map<string, string>): (World, seq<Effect>) {
    var step := Called(w.table, waiter.key, waiter, now);
    match step.1
    case Replay(reply) =>
      (World(StoreAfterReply(w.store, waiter.key, reply), step.0), [Deliver(waiter, reply, statusCodes)])
    case Queued => (World(w.store, step.0), [])
    case StartFetch => (World(w.store, step.0), [SendTokenRequest(waiter.key, request)])
  }

  /** `fuel.token(options, callback)`, with `cont` standing for the callback. */
  function Started(w: World, options: Value, cont: Continuation, now: int, statusCodes: map<string, string>): (World, seq<Effect>) {
    var v := ValidateOptions(options);
    if !v.valid then (w, [Continue(cont, ErrorArgs(NewError(v.reported[0])), statusCodes)])
    else
      var a := BuildAuthOptions(options);
      Entered(w, Waiter(AuthOptionsHash(a), cont), RemoveAuthOptions(AsObject(WithStoredRefreshToken(a, w.store))), now, statusCodes)
  }

  /** The token reply for `key` arrives: the memo table completes, then the
      fired waiters drain; a completion that raises fires nobody. */
  function Finished(w: World, key: string, reply: Reply, now: int, statusCodes: map<string, string>): (World, seq<Effect>) {
    var fin := Completed(w.table, key, reply, TokenTtl(reply), now);
    if fin.2 then (World(w.store, fin.0), [Raised])
    else
      var drained := Drain(w.store, fin.1, reply, statusCodes);
      (World(drained.0, fin.0), drained.1)
  }

  /** Every waiter in a queue carries the key of that queue. */
  ghost predicate WaitersKeyed(t: State<Waiter, Reply>) {
    forall k, i :: k in t.queues && 0 <= i < |t.queues[k]| ==> t.queues[k][i].key == k
  }

  lemma EnteredKeepsInvariant(w: World, waiter: Waiter, request: map<string, Value>, now: int, statusCodes: map<string, string>)
    requires Consistent(w.table) && WaitersKeyed(w.table)
    ensures Consistent(Entered(w, waiter, request, now, statusCodes).0.table)
    ensures WaitersKeyed(Entered(w, waiter, request, now, statusCodes).0.table)
  {
    CalledConsistent(w.table, waiter.key, waiter, now);
  }

  lemma StartedKeepsInvariant(w: World, options: Value, cont: Continuation, now: int, statusCodes: map<string, string>)
    requires Consistent(w.table) && WaitersKeyed(w.table)
    ensures Consistent(Started(w, options, cont, now, statusCodes).0.table)
    ensures WaitersKeyed(Started(w, options, cont, now, statusCodes).0.table)
  {
    if ValidateOptions(options).valid {
      var a := BuildAuthOptions(options);
      EnteredKeepsInvariant(w, Waiter(AuthOptionsHash(a), cont), RemoveAuthOptions(AsObject(WithStoredRefreshToken(a, w.store))), now, statusCodes);
    }
  }

  lemma FinishedKeepsInvariant(w: World, key: string, reply: Reply, now: int, statusCodes: map<string, string>)
    requires Consistent(w.table) && WaitersKeyed(w.table)
    ensures Consistent(Finished(w, key, reply, now, statusCodes).0.table)
    ensures WaitersKeyed(Finished(w, key, reply, now, statusCodes).0.table)
  {
    CompletedConsistent(w.table, key, reply, TokenTtl(reply), now);
  }

  /** A rejected configuration: the callback runs once with the first failing
      check's message, nothing is requested and no state changes. */
  lemma RejectedConfiguration(w: World, options: Value, cont: Continuation, now: int, statusCodes: map<string, string>)
    requires !ValidateOptions(options).valid
    ensures var r := Started(w, options, cont, now, statusCodes);
            var m := ValidateOptions(options).reported[0];
            && r.0 == w
            && r.1 == [Invoke(cont.cb, ErrorArgs(NewError(m)))]
  {
  }

  /** An accepted configuration whose key is neither stored nor in flight
      sends exactly one token request, through `_removeAuthOptions`, and
      queues its waiter; the store is untouched. */
  lemma FirstCallSendsTokenRequest(w: World, options: Value, cont: Continuation, now: int, statusCodes: map<string, string>)
    requires ValidateOptions(options).valid
    requires var key := AuthOptionsHash(BuildAuthOptions(options));
             key !in Reaped(w.table, now).memo && key !in w.table.queues
    ensures var a := BuildAuthOptions(options);
            var key := AuthOptionsHash(a);
            var r := Started(w, options, cont, now, statusCodes);
            && r.1 == [SendTokenRequest(key, RemoveAuthOptions(AsObject(WithStoredRefreshToken(a, w.store))))]
            && r.0.store == w.store
            && r.0.table.queues == w.table.queues[key := [Waiter(key, cont)]]
  {
  }

  /** The token request an accepted configuration sends: a POST with json set
      to a copy of the endpoint, whose body carries the client id and secret,
      with a stored refresh token for the key taking the configuration's place. */
  lemma TokenRequestContents(options: Value, store: map<string, Value>)
    requires ValidateOptions(options).valid
    ensures var a := BuildAuthOptions(options);
            var key := AuthOptionsHash(a);
            var req := RemoveAuthOptions(AsObject(WithStoredRefreshToken(a, store)));
            && req.Keys == {"url", "method", "json", "body"}
            && req["url"] == Clone(Get(options, "authUrl"))
            && req["method"] == Str("POST")
            && req["json"] == Bool(true)
            && req["body"].Object?
            && Field(req["body"].props, "clientId") == Get(options, "clientId")
            && Field(req["body"].props, "clientSecret") == Get(options, "clientSecret")
            && (key in store && Truthy(store[key]) ==>
                  Field(req["body"].props, "refreshToken") == Clone(store[key]))
  {
    var a := BuildAuthOptions(options);
    var key := AuthOptionsHash(a);
    var sent := WithStoredRefreshToken(a, store);
    StrippedTokenRequest(sent);
    StoredRefreshTokenWins(options, store);
    assert "clientId" in DefinedKeys(sent.body) && "clientSecret" in DefinedKeys(sent.body);
    assert Clone(sent.body["clientId"]) == Get(options, "clientId");
    assert Clone(sent.body["clientSecret"]) == Get(options, "clientSecret");
    if key in store && Truthy(store[key]) {
      assert "refreshToken" in DefinedKeys(sent.body);
    }
  }

  /** While the key's fetch is in flight, an accepted call causes nothing
      and only joins the queue. */
  lemma InFlightCallWaits(w: World, options: Value, cont: Continuation, now: int, statusCodes: map<string, string>)
    requires Consistent(w.table)
    requires ValidateOptions(options).valid
    requires AuthOptionsHash(BuildAuthOptions(options)) in w.table.queues
    ensures var key := AuthOptionsHash(BuildAuthOptions(options));
            var r := Started(w, options, cont, now, statusCodes);
            && r.1 == []
            && r.0.store == w.store
            && r.0.table.queues == w.table.queues[key := w.table.queues[key] + [Waiter(key, cont)]]
  {
    var key := AuthOptionsHash(BuildAuthOptions(options));
    InFlightCallQueues(w.table, key, Waiter(key, cont), now);
  }

  /** Draining waiters that all carry `key` writes the store as one reply would. */
  lemma {:induction false} DrainStore(store: map<string, Value>, key: string, ws: seq<Waiter>, reply: Reply, statusCodes: map<string, string>)
    requires forall i :: 0 <= i < |ws| ==> ws[i].key == key
    decreases |ws|
    ensures Drain(store, ws, reply, statusCodes).0 == if ws == [] then store else StoreAfterReply(store, key, reply)
  {
    if ws != [] {
      var store' := StoreAfterReply(store, key, reply);
      if !Deliver(ws[0], reply, statusCodes).Raised? {
        DrainStore(store', key, ws[1..], reply, statusCodes);
        StoreAfterReplyIdempotent(store, key, reply);
      }
    }
  }

  /** Without a raise, a drain delivers the one reply to every waiter, in order. */
  lemma {:induction false} DrainDeliversAll(store: map<string, Value>, ws: seq<Waiter>, reply: Reply, statusCodes: map<string, string>)
    requires forall i :: 0 <= i < |ws| ==> !Deliver(ws[i], reply, statusCodes).Raised?
    decreases |ws|
    ensures var d := Drain(store, ws, reply, statusCodes).1;
            |d| == |ws| && forall i :: 0 <= i < |ws| ==> d[i] == Deliver(ws[i], reply, statusCodes)
  {
    if ws != [] {
      var store' := StoreAfterReply(store, ws[0].key, reply);
      DrainDeliversAll(store', ws[1..], reply, statusCodes);
    }
  }

  /** The reply for an in-flight key: every waiter, in the order it queued,
      receives the same reply (unless a handler raises first), the queue is
      gone, the reply is stored, and the refresh-token store is written as the
      reply dictates at that key. */
  lemma ReplyReachesEveryWaiter(w: World, key: string, reply: Reply, now: int, statusCodes: map<string, string>)
    requires Consistent(w.table) && WaitersKeyed(w.table)
    requires key in w.table.queues
    requires !TokenTtl(reply).Raises?
    requires forall i :: 0 <= i < |w.table.queues[key]| ==> !Deliver(w.table.queues[key][i], reply, statusCodes).Raised?
    ensures var r := Finished(w, key, reply, now, statusCodes);
            var q := w.table.queues[key];
            && |r.1| == |q|
            && (forall i :: 0 <= i < |q| ==> r.1[i] == Deliver(q[i], reply, statusCodes))
            && key !in r.0.table.queues
            && key in r.0.table.memo && r.0.table.memo[key] == reply
            && r.0.store == StoreAfterReply(w.store, key, reply)
  {
    var q := w.table.queues[key];
    assert forall i :: 0 <= i < |q| ==> q[i].key == key;
    DrainStore(w.store, key, q, reply, statusCodes);
    DrainDeliversAll(w.store, q, reply, statusCodes);
  }

  /** An error reply leaves the refresh-token store as it was, and each
      caller, of `fuel.token` or of `fuel`, receives the error alone. */
  lemma ErrorReplyForwardsOnlyError(w: World, key: string, reply: Reply, now: int, statusCodes: map<string, string>)
    requires Consistent(w.table) && WaitersKeyed(w.table)
    requires key in w.table.queues
    requires Truthy(reply.error)
    ensures var r := Finished(w, key, reply, now, statusCodes);
            var q := w.table.queues[key];
            && r.0.store == w.store
            && |r.1| == |q|
            && forall i :: 0 <= i < |q| ==> r.1[i] == Invoke(q[i].cont.cb, ErrorArgs(Forwarded(reply.error)))
  {
    var q := w.table.queues[key];
    assert forall i :: 0 <= i < |q| ==> q[i].key == key;
    DrainStore(w.store, key, q, reply, statusCodes);
    DrainDeliversAll(w.store, q, reply, statusCodes);
  }

  /** The request `fuel` makes once the token arrives: a 200 reply with a
      truthy token sends the caller's options, stripped of credentials, with
      json set and the bearer header (see `Fuel.DispatchedRequestFields` and
      `Fuel.DispatchedRequestHeaders`), to the API; the API answers the
      caller directly. */
  lemma AuthorizedRequestDispatched(options: map<string, Value>, cb: CallbackId, key: string, reply: Reply, statusCodes: map<string, string>)
    requires !Truthy(reply.error) && !Nullish(reply.response) && Get(reply.response, "statusCode") == Num(200)
    requires Truthy(reply.body) && Truthy(Get(reply.body, "accessToken"))
    ensures Deliver(Waiter(key, Authorize(options, cb)), reply, statusCodes) ==
            SendApiRequest(RemoveAuthOptions(WithBearer(options, Get(reply.body, "accessToken"))), cb)
  {
    assert DecideOnToken(ReplyArgs(reply), statusCodes) == Authorized(Get(reply.body, "accessToken"));
  }

  /** A reply with no error and a null or undefined body never reaches the
      handler's 'Token Missing' branch: reading `body.expiresIn` raises, the
      table stays as it was and every waiter stays queued. */
  lemma NullishBodyRaises(w: World, key: string, reply: Reply, now: int, statusCodes: map<string, string>)
    requires !Truthy(reply.error) && Nullish(reply.body)
    ensures Finished(w, key, reply, now, statusCodes) == (w, [Raised])
  {
  }

  /** A second reply for a key whose queue is already drained stores the
      reply, delivers it to nobody and raises. */
  lemma RepeatedReplyRaises(w: World, key: string, reply: Reply, now: int, statusCodes: map<string, string>)
    requires key !in w.table.queues
    ensures var r := Finished(w, key, reply, now, statusCodes);
            && r.1 == [Raised]
            && r.0.store == w.store
            && (!TokenTtl(reply).Raises? ==> key in r.0.table.memo && r.0.table.memo[key] == reply)
  {
  }

  /** The refresh-token store and the memo table behind `_performTokenRequest`. */
  class FuelService {
    var refreshTokenCache: map<string, Value>
    const tokens: Memo<Waiter, Reply>
    const statusCodes: map<string, string>

    ghost function Current(): World
      reads this, tokens
    {
      World(refreshTokenCache, tokens.Snapshot())
    }

    ghost predicate Valid()
      reads this, tokens
    {
      && tokens.Valid()
      && tokens.invalidator == TokenTtl
      && WaitersKeyed(tokens.Snapshot())
    }

    /** `statusCodes` stands for `http.STATUS_CODES`. */
    constructor (statusCodes: map<string, string>)
      ensures Valid()
      ensures fresh(tokens)
      ensures Current() == World(map[], State(map[], map[], map[]))
      ensures this.statusCodes == statusCodes
    {
      refreshTokenCache := map[];
      tokens := new Memo<Waiter, Reply>(TokenTtl);
      this.statusCodes := statusCodes;
    }

    /** The callback of line 56 run with the reply. */
    method RunWaiter(w: Waiter, reply: Reply) returns (e: Effect)
      modifies this`refreshTokenCache
      ensures refreshTokenCache == StoreAfterReply(old(refreshTokenCache), w.key, reply)
      ensures e == Deliver(w, reply, statusCodes)
    {
      if Truthy(reply.error) {
        e := Continue(w.cont, ErrorArgs(Forwarded(reply.error)), statusCodes);
      } else {
        if Truthy(reply.body) && Truthy(Get(reply.body, "refreshToken")) {
          refreshTokenCache := refreshTokenCache[w.key := Get(reply.body, "refreshToken")];
        }
        e := Continue(w.cont, ReplyArgs(reply), statusCodes);
      }
    }

    /** The memoized `_performTokenRequest` call of line 56. */
    method Enter(waiter: Waiter, request: map<string, Value>, now: int) returns (effects: seq<Effect>)
      requires Valid()
      modifies this`refreshTokenCache, tokens
      ensures Valid()
      ensures (Current(), effects) == Entered(old(Current()), waiter, request, now, statusCodes)
    {
      EnteredKeepsInvariant(Current(), waiter, request, now, statusCodes);
      var out := tokens.Call(waiter.key, waiter, now);
      match out
      case Replay(reply) =>
        var e := RunWaiter(waiter, reply);
        effects := [e];
      case Queued =>
        effects := [];
      case StartFetch =>
        effects := [SendTokenRequest(waiter.key, request)];
    }

    /** `fuel.token(options, callback)` with `cont` standing for the callback. */
    method Start(options: Value, cont: Continuation, now: int) returns (effects: seq<Effect>)
      requires Valid()
      modifies this`refreshTokenCache, tokens
      ensures Valid()
      ensures (Current(), effects) == Started(old(Current()), options, cont, now, statusCodes)
    {
      var v := ValidateOptions(options);
      if !v.valid {
        effects := [Continue(cont, ErrorArgs(NewError(v.reported[0])), statusCodes)];
        return;
      }
      var body := map["clientId" := Get(options, "clientId"), "clientSecret" := Get(options, "clientSecret")];
      if Truthy(Get(options, "accessType")) {
        body := body["accessType" := Get(options, "accessType")];
      }
      if Truthy(Get(options, "refreshToken")) {
        body := body["refreshToken" := Get(options, "refreshToken")];
      }
      if Truthy(Get(options, "scope")) {
        body := body["scope" := Get(options, "scope")];
      }
      var authOptions := AuthOptions(Get(options, "authUrl"), body);
      assert authOptions == BuildAuthOptions(options);
      var authOptionsHash := AuthOptionsHash(authOptions);
      if authOptionsHash in refreshTokenCache && Truthy(refreshTokenCache[authOptionsHash]) {
        authOptions := authOptions.(body := authOptions.body["refreshToken" := refreshTokenCache[authOptionsHash]]);
      }
      assert authOptions == WithStoredRefreshToken(BuildAuthOptions(options), refreshTokenCache);
      StoredRefreshTokenKeepsKey(BuildAuthOptions(options), refreshTokenCache);
      effects := Enter(Waiter(AuthOptionsHash(authOptions), cont), RemoveAuthOptions(AsObject(authOptions)), now);
    }

    /** `fuel.token(options, callback)`. */
    method Token(options: Value, cb: CallbackId, now: int) returns (effects: seq<Effect>)
      requires Valid()
      modifies this`refreshTokenCache, tokens
      ensures Valid()
      ensures (Current(), effects) == Started(old(Current()), options, ToCaller(cb), now, statusCodes)
    {
      effects := Start(options, ToCaller(cb), now);
    }

    /** `fuel(options, callback)`: the token callback closes over the options. */
    method Request(options: Value, cb: CallbackId, now: int) returns (effects: seq<Effect>)
      requires Valid()
      modifies this`refreshTokenCache, tokens
      ensures Valid()
      ensures (Current(), effects) == Started(old(Current()), options, Authorize(Props(options), cb), now, statusCodes)
    {
      effects := Start(options, Authorize(Props(options), cb), now);
    }

    /** `fuel.configure(stored)(options, callback)` and its callback-only form. */
    method ConfiguredRequest(stored: map<string, Value>, form: CallForm, cb: CallbackId, now: int) returns (effects: seq<Effect>)
      requires Valid()
      modifies this`refreshTokenCache, tokens
      ensures Valid()
      ensures var options := ConfiguredOptions(stored, form);
              (Current(), effects) == Started(old(Current()), options, Authorize(options.props, cb), now, statusCodes)
    {
      effects := Request(ConfiguredOptions(stored, form), cb, now);
    }

    /** `fuel.token.configure(stored)(options, callback)` and its callback-only form. */
    method ConfiguredToken(stored: map<string, Value>, form: CallForm, cb: CallbackId, now: int) returns (effects: seq<Effect>)
      requires Valid()
      modifies this`refreshTokenCache, tokens
      ensures Valid()
      ensures (Current(), effects) == Started(old(Current()), ConfiguredOptions(stored, form), ToCaller(cb), now, statusCodes)
    {
      effects := Token(ConfiguredOptions(stored, form), cb, now);
    }

    /** The transport answers the token request sent for `key`. */
    method TokenReplied(key: string, reply: Reply, now: int) returns (effects: seq<Effect>)
      requires Valid()
      modifies this`refreshTokenCache, tokens
      ensures Valid()
      ensures (Current(), effects) == Finished(old(Current()), key, reply, now, statusCodes)
    {
      ghost var w0 := Current();
      var fired, raised := tokens.Complete(key, reply, now);
      if raised {
        effects := [Raised];
        FinishedKeepsInvariant(w0, key, reply, now, statusCodes);
        return;
      }
      effects := [];
      assert fired[0..] == fired;
      assert refreshTokenCache == w0.store;
      ghost var all := Drain(w0.store, fired, reply, statusCodes);
      assert [] + all.1 == all.1;
      var i := 0;
      while i < |fired|
        invariant 0 <= i <= |fired|
        invariant tokens.Snapshot() == Completed(w0.table, key, reply, TokenTtl(reply), now).0
        invariant fired == Completed(w0.table, key, reply, TokenTtl(reply), now).1
        invariant all.0 == Drain(refreshTokenCache, fired[i..], reply, statusCodes).0
        invariant all.1 == effects + Drain(refreshTokenCache, fired[i..], reply, statusCodes).1
      {
        assert fired[i..][1..] == fired[i + 1..];
        ghost var effects0 := effects;
        var e := RunWaiter(fired[i], reply);
        effects := effects + [e];
        assert effects0 + [e] + Drain(refreshTokenCache, fired[i + 1..], reply, statusCodes).1
            == effects0 + ([e] + Drain(refreshTokenCache, fired[i + 1..], reply, statusCodes).1);
        if e.Raised? {
          FinishedKeepsInvariant(w0, key, reply, now, statusCodes);
          return;
        }
        i := i + 1;
      }
      assert fired[i..] == [];
      assert effects + [] == effects;
      FinishedKeepsInvariant(w0, key, reply, now, statusCodes);
    }
  }
}
