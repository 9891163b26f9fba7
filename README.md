# fuel: a verified model of the ExactTarget Fuel request helper

`fuel` is a Node.js helper for calling ExactTarget Fuel APIs. It checks a
configuration's credentials, obtains an OAuth access token from the
configured authentication endpoint, and sends the caller's request with a
`Bearer` authorization header. Token replies are memoized per identity key
(endpoint, client id and scope): concurrent requests for one key share a
single token fetch. A reply carrying a transport error is cached for ten
seconds, a token until thirty seconds before it expires, and a reply whose body
has no `expiresIn` (a non-200 reply, for one) with no deadline at all. Refresh tokens handed out by the endpoint are
kept in a process-wide store and sent with later token requests for the same
key. `fuel.configure(stored)` and `fuel.token.configure(stored)` return
functions that merge stored options under per-call options.

The Dafny project models `lib/fuel.js`:

- `js.dfy` (module `Js`): the JavaScript values involved, with truthiness,
  property reads and the string and number conversions that `+` and `-` apply.
- `validation.dfy` (module `Validation`): `_validateOptions` and `_verifyAPIKey`.
- `token_request.dfy` (module `TokenRequest`): the token request that
  `fuel.token` builds, `_authOptionsHash`, and updates to the refresh-token store.
- `memoize.dfy` (module `Memoize`): `memoize`. The pure functions `Reaped`,
  `Called` and `Completed` specify one step each. The class `Memo` holds the three
  dictionaries and performs the steps in place. Each of its methods is proved
  equal to its function.
- `fuel.dfy` (module `Fuel`): the invalidator, the token handler that `fuel`
  passes to `fuel.token`, the bearer header, `_removeAuthOptions`, and the
  configuration wrapper.
- `service.dfy` (module `Service`): the module state and the public entry
  points. The class `FuelService` holds the refresh-token store and the memo
  table. Its methods return the effects they cause, in order: callback
  invocations, requests handed to the transport, and raised TypeErrors. The
  functions `Started` and `Finished` specify them.

Where the code and its tests or documentation disagree, the model follows the code:

- The test fixtures use three-character client ids, which `_verifyAPIKey` rejects.
- A truthy refresh token in the store replaces the configuration's own refresh token (lines 52-54).
- A cache lifetime of 0 or NaN sets no deadline at all, so the reply is cached
  forever (line 178). A negative lifetime sets a deadline that has already passed.
- Failed token requests are meant to be cached for ten seconds, but only a
  reply whose transport `error` is truthy gets that lifetime (line 129). A
  non-200 reply arrives with no `error`, and its body usually has no
  `expiresIn`, so its lifetime is NaN and no deadline is set (line 178). Its
  "Error requesting token" failure is then replayed to every later caller for
  the life of the process.
- The identity key joins endpoint, client id and scope with no separator
  (line 133). Two configurations that both pass validation can share a key:
  endpoint "a" with client id twenty-four `b`s and scope "cundefined", and
  endpoint "ab" with client id twenty-three `b`s and a `c`, and no scope.
  They then share one cached token and one stored refresh token.
- A reply with no error and a null or undefined body never reaches the
  "Token Missing" branch (line 20). Reading `body.expiresIn` in the
  invalidator (line 129) raises first, so no waiter is called and the key stays in flight.

## Model

| member | source | states |
|---|---|---|
| Js.NatToStringDigits | lib/fuel.js:129 | the decimal text of a natural number is a nonempty digit string that reads back as that number |
| Js.NumberRoundTrip | lib/fuel.js:129 | a non-negative number converted to a string and back by `-` is unchanged, so `expiresIn` may arrive as a number or as digits |
| Js.TruthyToStringNonEmpty | lib/fuel.js:132-134 | a truthy value never converts to the empty string |
| Js.ExtendDeep | lib/fuel.js:110 | `extend(true, target, source)`: the result has the target's keys plus the source's defined keys; non-object source values win, undefined source values leave the target as it was, and object values are objects; `NestedObjectsMerge` states how they merge |
| Js.NestedObjectsMerge | lib/fuel.js:110 | an object in the source is merged into the target's object at that key: both key sets, the target's values where the source is undefined, the source's non-object values; with no target object there it is the source object's deep copy |
| Js.CloneOfDefined | lib/fuel.js:110 | a deep copy of a value with no `undefined` inside is that value |
| Js.CopyIntoEmpty | lib/fuel.js:110 | a deep copy into `{}` has exactly the defined keys, each holding a clone of its value |
| Validation.AllInClass | lib/fuel.js:97-98 | true exactly when every character of the string is in the pattern's class |
| Validation.Matches | lib/fuel.js:101-103 | `pattern.test(key)` holds exactly when the key is a string of exactly 24 characters of the class |
| Validation.VerifyApiKey | lib/fuel.js:95-107 | a client id must be 24 lower-case letters or digits; a secret must be 24 letters of either case or digits; any other key type fails |
| Validation.ValidateOptions | lib/fuel.js:71-93 | valid exactly when the configuration is acceptable; otherwise exactly one message is reported, and it belongs to the first failing check in the order options, authUrl, clientId, clientSecret |
| Validation.ValidatedOptionsShape | lib/fuel.js:71-93 | an accepted configuration is an object whose client id and secret are 24-character strings, the id in the id class |
| TokenRequest.BuildAuthOptions | lib/fuel.js:36-48 | the request goes to `authUrl`; its body always has the client id and secret and has each optional field exactly when that field is truthy, with the configuration's value |
| TokenRequest.WithStoredRefreshToken | lib/fuel.js:50-54 | the substitution keeps the endpoint and every body field except the refresh token |
| TokenRequest.AuthOptionsHash | lib/fuel.js:132-134 | the key function; `HashOfBuiltRequest`, `HashIgnoresSecretAndRefreshToken`, `DistinctEndpointsDistinctKeys` and `KeyDoesNotSeparateParts` state what it gives |
| TokenRequest.StoreAfterReply | lib/fuel.js:60-61 | the store write after a reply; `StoreUpdate` and `StoreAfterReplyIdempotent` state its effect |
| TokenRequest.HashOfBuiltRequest | lib/fuel.js:132-134 | the key is the endpoint, client id and scope written one after another, with "undefined" for a missing scope |
| TokenRequest.HashIgnoresSecretAndRefreshToken | lib/fuel.js:132-134 | configurations that agree on endpoint, client id and scope share a key, whatever their secrets and refresh tokens |
| TokenRequest.KeyOutgrowsInheritedNames | lib/fuel.js:132-134 | a key from a 24-character client id is longer than any inherited property name, so `in` sees only the table's own entries |
| TokenRequest.StoredRefreshTokenKeepsKey | lib/fuel.js:50-56 | substituting the stored refresh token keeps the key the token was looked up under |
| TokenRequest.StoredRefreshTokenWins | lib/fuel.js:47-54 | a truthy stored token is sent; otherwise the configuration's refresh token is sent if it is truthy |
| TokenRequest.StoreUpdate | lib/fuel.js:57-63 | the store changes only after a non-error reply with a truthy refresh token, and then only at the request's key |
| TokenRequest.StoreAfterReplyIdempotent | lib/fuel.js:57-63 | writing the store twice with one reply equals writing it once |
| TokenRequest.DistinctEndpointsDistinctKeys | lib/fuel.js:132-134 | requests that differ only in their endpoint strings have different keys |
| TokenRequest.SuffixCancels | lib/fuel.js:132-134 | equal keys with equal tails have equal endpoint parts |
| TokenRequest.KeyDoesNotSeparateParts | lib/fuel.js:132-134 | two configurations that both pass validation, with different endpoints and client ids, share a key, because the parts are not separated |
| Memoize.Reaped | lib/fuel.js:190-204 | one reap; `ReapedExactly` and `ReapedConsistent` state its effect, and `Memo.Reap` is proved to compute it |
| Memoize.Called | lib/fuel.js:163-175 | one memoized call; `ReplayOnlyBeforeDeadline`, `InFlightCallQueues`, `CalledConsistent` and `RunQueues` state its outcome, and `Memo.Call` is proved to compute it |
| Memoize.Completed | lib/fuel.js:176-187 | one completion; `CompletionFiresQueue`, `UnqueuedCompletionRaises`, `RaisingCompletionStrandsQueue`, `DeadlineBoundsReplay` and `NoDeadlineReplaysForever` state its outcome, and `Memo.Complete` is proved to compute it |
| Memoize.ReapedExactly | lib/fuel.js:190-204 | reaping deletes exactly the stored results whose deadline is not after now, together with their deadlines, and keeps everything else |
| Memoize.ReapedConsistent | lib/fuel.js:190-204 | reaping keeps the table consistent |
| Memoize.ReplayOnlyBeforeDeadline | lib/fuel.js:167-170 | a call replays exactly when a result is stored and not yet expired, and it replays that result |
| Memoize.InFlightCallQueues | lib/fuel.js:171-173 | while a fetch is in flight, a call only appends its callback to the key's queue |
| Memoize.CalledConsistent | lib/fuel.js:163-189 | a call keeps the table consistent |
| Memoize.CompletedConsistent | lib/fuel.js:176-187 | a completion keeps the table consistent |
| Memoize.RunQueues | lib/fuel.js:171-173 | any run of calls for an in-flight key queues every callback, in order |
| Memoize.Coalescing | lib/fuel.js:163-189 | calls for a key that is not in flight and has no live result (never stored, or reaped at the first call) start one fetch; its completion fires every callback once, in call order, and stores the result |
| Memoize.CompletionFiresQueue | lib/fuel.js:176-187 | a completion fires the queue in order, removes it, stores the result, and sets the deadline `done + ttl` only for a truthy ttl |
| Memoize.DeadlineBoundsReplay | lib/fuel.js:176-187 | with a nonzero ttl the result is replayed before `done + ttl` and refetched from then on |
| Memoize.NoDeadlineReplaysForever | lib/fuel.js:176-187 | with a ttl of 0 or NaN the result is replayed by every later call |
| Memoize.NoDeadlineSurvivesReaps | lib/fuel.js:197-203 | a stored result without a deadline survives any sequence of reaps |
| Memoize.RaisingCompletionStrandsQueue | lib/fuel.js:177 | a raising invalidator changes nothing and reports a raise, so the key stays in flight and later calls only queue |
| Memoize.UnqueuedCompletionRaises | lib/fuel.js:181-184 | a completion for a key with no queue stores the result, fires nothing, and raises at `q.length` |
| Memoize.Memo.constructor | lib/fuel.js:156-158 | the table starts empty and keeps the given invalidator |
| Memoize.Memo.Reap | lib/fuel.js:190-204 | the loop over the stored keys leaves the table equal to `Reaped` of the old table |
| Memoize.Memo.Call | lib/fuel.js:163-175 | the call leaves the table and returns the branch that `Called` gives, and keeps the table consistent |
| Memoize.Memo.Complete | lib/fuel.js:176-187 | the completion leaves the table, fires the callbacks and reports the raise that `Completed` gives for the invalidator's ttl |
| Fuel.TokenTtl | lib/fuel.js:127-130 | the invalidator; `TokenTtlPolicy` and `DigitStringExpiry` state what it gives |
| Fuel.TokenTtlPolicy | lib/fuel.js:124-130 | replies with a truthy transport error live 10 seconds and tokens `expiresIn - 30`; an `expiresIn` of 30 sets no deadline, a missing one gives NaN, and a null body raises |
| Fuel.DigitStringExpiry | lib/fuel.js:129 | an `expiresIn` sent as a digit string sets the same lifetime, `expiresIn - 30`, as the number |
| Fuel.ErrorCachedTenSeconds | lib/fuel.js:124-130 | a reply with a truthy transport error is replayed for ten seconds after it arrives and refetched from then on |
| Fuel.TokenCachedUntilMargin | lib/fuel.js:124-130 | a token is replayed until thirty seconds before it expires and refetched from then on |
| Fuel.EmptyBodyStoredForever | lib/fuel.js:124-130 | a reply with an empty-string body sets no deadline and is replayed forever |
| Fuel.NonOkReplyStoredForever | lib/fuel.js:124-130 | a non-200 reply without a transport error whose body has no `expiresIn` is reported as a failure and replayed to every later call, with no deadline |
| Fuel.StatusLine | lib/fuel.js:19 | the status text `statusCode + ' ' + STATUS_CODES[statusCode]`, used by `DecisionOutcomes` for a reply without a message |
| Fuel.DecideOnToken | lib/fuel.js:16-28 | the token handler's decision; `DecisionOutcomes` and `ErrorArgsForwarded` state it |
| Fuel.DecisionOutcomes | lib/fuel.js:15-28 | errors are forwarded; a status other than 200 reports the body's message or the status line; a 200 whose body is falsy or has no truthy `accessToken` reports "Token Missing"; only a 200 with a truthy token authorizes |
| Fuel.ErrorArgsForwarded | lib/fuel.js:16-17 | a truthy error passed alone is forwarded unchanged |
| Fuel.WithBearer | lib/fuel.js:23-25 | the bearer stamping; `WithBearerShape`, `DispatchedRequestFields` and `DispatchedRequestHeaders` state its effect |
| Fuel.WithBearerShape | lib/fuel.js:23-25 | every caller field other than `json` and `headers` is kept, `json` is true, and the headers are never undefined |
| Fuel.RemoveAuthOptions | lib/fuel.js:109-118 | the copy has exactly the caller's defined keys minus the six credential fields, each holding a deep copy of its value |
| Fuel.TokenRequestSurvivesStripping | lib/fuel.js:109-122 | stripping leaves a token request with no `undefined` inside unchanged, because its credentials sit inside `body` |
| Fuel.StrippedTokenRequest | lib/fuel.js:109-122 | a stripped token request has exactly the endpoint, method, json flag and body, with the endpoint and the defined body fields deep-copied |
| Fuel.DispatchedRequestFields | lib/fuel.js:23-27 | the API request has no credential field, has `json` true, and holds a deep copy of every other defined caller field |
| Fuel.DispatchedRequestHeaders | lib/fuel.js:23-27 | the API request's headers are a copy of the caller's with the bearer header set and every other defined header deep-copied, a fresh object holding only it, or the caller's truthy primitive |
| Fuel.ConfiguredOptions | lib/fuel.js:143-153 | the merged options have the stored and the call's defined keys; the call's non-object values win; a stored field the call does not set is deep-copied; the callback-only form copies the stored options |
| Fuel.NestedFieldsMerge | lib/fuel.js:150 | a field holding objects in both the stored and the call's options holds their merge: both defined key sets, the call's non-object values, and copies of the stored values the call leaves undefined |
| Fuel.NestedMergeExample | lib/fuel.js:150 | stored `{scope: "a", nested: {x: 1}}` merged with `{nested: {y: 2}}` gives `{scope: "a", nested: {x: 1, y: 2}}` |
| Fuel.ConfiguredField | lib/fuel.js:143-153 | a field the call does not set reads as a copy of the stored field |
| Fuel.StoredOptionsUsedAsStored | lib/fuel.js:146-151 | stored options with no `undefined` inside, called with a callback alone, are used exactly as stored |
| Fuel.SeparateConfigurations | lib/fuel.js:143-153 | clients configured with different endpoints fetch tokens from their own endpoints and under different keys |
| Service.Continue | lib/fuel.js:15-29 | what a continuation does with the token callback's arguments; `AuthorizedRequestDispatched` and `ErrorReplyForwardsOnlyError` state it |
| Service.Deliver | lib/fuel.js:57-63 | what a waiter passes on; `ErrorReplyForwardsOnlyError` and `ReplyReachesEveryWaiter` state it |
| Service.Drain | lib/fuel.js:184-186 | running the fired waiters in order; `DrainStore` and `DrainDeliversAll` state it |
| Service.Entered | lib/fuel.js:163-175 | the memoized call of line 56; `InFlightCallWaits` and `FirstCallSendsTokenRequest` state it, and `FuelService.Enter` is proved to compute it |
| Service.Started | lib/fuel.js:32-66 | `fuel.token`; `RejectedConfiguration`, `FirstCallSendsTokenRequest`, `InFlightCallWaits` and `StartedKeepsInvariant` state it, and `FuelService.Start` is proved to compute it |
| Service.Finished | lib/fuel.js:176-187 | a token reply; `ReplyReachesEveryWaiter`, `ErrorReplyForwardsOnlyError`, `NullishBodyRaises`, `RepeatedReplyRaises` and `FinishedKeepsInvariant` state it, and `FuelService.TokenReplied` is proved to compute it |
| Service.EnteredKeepsInvariant | lib/fuel.js:163-175 | entering the memoized call keeps the table consistent and every waiter under its own key |
| Service.StartedKeepsInvariant | lib/fuel.js:32-66 | `fuel.token` keeps the table consistent and every waiter under its own key |
| Service.FinishedKeepsInvariant | lib/fuel.js:176-187 | a token reply keeps the table consistent and every waiter under its own key |
| Service.RejectedConfiguration | lib/fuel.js:71-93 | a rejected configuration calls the callback once with the first failure's message, sends nothing, and changes no state |
| Service.FirstCallSendsTokenRequest | lib/fuel.js:34-56 | a first call for a key sends one stripped token request, queues the caller and leaves the store as it was |
| Service.TokenRequestContents | lib/fuel.js:36-56 | that request is a POST with json to a copy of the endpoint, carrying the client id, the secret and a copy of the stored refresh token |
| Service.InFlightCallWaits | lib/fuel.js:163-175 | a call for an in-flight key causes nothing and joins the queue |
| Service.DrainStore | lib/fuel.js:182-186 | draining waiters for one key writes the store as a single reply would |
| Service.DrainDeliversAll | lib/fuel.js:184-186 | without a raise, every waiter receives the reply, in order |
| Service.ReplyReachesEveryWaiter | lib/fuel.js:176-187 | every queued caller gets the same reply in queue order; the reply is stored and the refresh token recorded under the key |
| Service.ErrorReplyForwardsOnlyError | lib/fuel.js:56-65 | an error reply leaves the refresh-token store unchanged, and each caller, of `fuel.token` or of `fuel`, receives the error alone |
| Service.AuthorizedRequestDispatched | lib/fuel.js:15-27 | a 200 reply with a truthy token sends the caller's options, with json and the bearer header and stripped of credentials, to the API |
| Service.NullishBodyRaises | lib/fuel.js:127-130 | a reply with no error and a null or undefined body raises, changes nothing and calls nobody |
| Service.RepeatedReplyRaises | lib/fuel.js:181-184 | a reply for a key with no queue stores the reply, calls nobody and raises |
| Service.FuelService.constructor | lib/fuel.js:124-136 | the store and the memo table start empty, with the token invalidator |
| Service.FuelService.RunWaiter | lib/fuel.js:57-63 | the waiter updates the store as `StoreAfterReply` does and delivers as `Deliver` does |
| Service.FuelService.Enter | lib/fuel.js:163-175 | the memoized call replays, queues or sends the request as `Entered` gives |
| Service.FuelService.Start | lib/fuel.js:32-56 | `fuel.token` leaves the state and causes the effects that `Started` gives |
| Service.FuelService.Token | lib/fuel.js:32-66 | `fuel.token` with the caller's callback |
| Service.FuelService.Request | lib/fuel.js:13-30 | `fuel` with the token handler, which closes over the caller's options |
| Service.FuelService.ConfiguredRequest | lib/fuel.js:143-153 | `fuel.configure(stored)` called on the merged options |
| Service.FuelService.ConfiguredToken | lib/fuel.js:143-153 | `fuel.token.configure(stored)` called on the merged options |
| Service.FuelService.TokenReplied | lib/fuel.js:176-187 | the completion and the loop over the fired waiters leave the state and cause the effects that `Finished` gives: a raise from the completion itself, or the deliveries up to the first raise |

## Left out

- The HTTP transport (`request`) is outside the model: a request handed to it is the effect `SendTokenRequest` or `SendApiRequest`, and its reply arrives through `TokenReplied`. API replies go straight to the caller's callback, so they are not modelled.
- `http.STATUS_CODES` is the `statusCodes` parameter of the service.
- The clock `process.hrtime()[0]` is the `now` parameter of each step.
- Callbacks are identifiers, and calling one is an `Invoke` effect. Asynchrony, re-entrant calls made from inside a callback, and argument lists of other lengths are not modelled.
- The caller's options object is modelled as a value. `fuel` writes `json` and `headers` into that object in place (lines 23-25), so later reads of it by the caller are not modelled.
- The `extend` package is not part of this model. `Js.ExtendDeep` models its deep mode for plain objects: defined properties are copied, and object values are merged recursively (`Js.NestedObjectsMerge` states one level of that merge). Arrays, which it also copies deeply, are not modelled.
- Arrays, fractional numbers and number-valued keys are not modelled. Numbers are integers.
- Js.StringToNumber reads only the empty string and plain digit strings. Other numeric strings, such as "-5" or "1e3", read as NaN here.
- TokenRequest.AuthOptionsHash joins its parts as strings. JavaScript would add numerically if both the endpoint and the client id were numbers. Validation excludes that case, because the client id must be a string.
- `memoize`'s default hasher and default invalidator are not modelled, since `fuel` always supplies both. `memoized.unmemoized` is not modelled either.
- Service.FuelService.TokenReplied: an exception raised by a callback ends the drain. What the host then does with the exception is not modelled.
- The test suite test/fuel_test.js is not part of this model.
