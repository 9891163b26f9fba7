/** The token request that `fuel.token` builds from a configuration, the
    identity key it is cached under (`_authOptionsHash`), and the
    process-wide refresh-token store (`_refreshTokenCache`). */
module TokenRequest {
  import opened Js
  import opened Validation

  const RequiredBodyFields: set<string> := {"clientId", "clientSecret"}
  const OptionalBodyFields: set<string> := {"accessType", "refreshToken", "scope"}

  /** `authOptions`: its method is always 'POST' and its json flag always true,
      so only the url and the body vary. */
  datatype AuthOptions = AuthOptions(url: Value, body: map<string, Value>)

  /** The object handed to the transport. */
  function AsObject(a: AuthOptions): map<string, Value> {
    map["url" := a.url, "method" := Str("POST"), "json" := Bool(true), "body" := Object(a.body)]
  }

  /** The request built from the credential fields: the client id and secret
      always, the three optional fields only when truthy. */
  function BuildAuthOptions(options: Value): (a: AuthOptions)
    ensures a.url == Get(options, "authUrl")
    ensures a.body.Keys == RequiredBodyFields + (set k | k in OptionalBodyFields && Truthy(Get(options, k)))
    ensures forall k :: k in a.body ==> a.body[k] == Get(options, k)
  {
    var body := map["clientId" := Get(options, "clientId"), "clientSecret" := Get(options, "clientSecret")];
    var body := if Truthy(Get(options, "accessType")) then body["accessType" := Get(options, "accessType")] else body;
    var body := if Truthy(Get(options, "refreshToken")) then body["refreshToken" := Get(options, "refreshToken")] else body;
    var body := if Truthy(Get(options, "scope")) then body["scope" := Get(options, "scope")] else body;
    AuthOptions(Get(options, "authUrl"), body)
  }

  /** `_authOptionsHash`: `url + body.clientId + body.scope`. An absent scope
      contributes the text "undefined". */
  function AuthOptionsHash(a: AuthOptions): string {
    ToString(a.url) + ToString(Field(a.body, "clientId")) + ToString(Field(a.body, "scope"))
  }

  /** Lines 50-54: a truthy stored refresh token for the request's key replaces
      whatever refresh token the configuration supplied. */
  function WithStoredRefreshToken(a: AuthOptions, store: map<string, Value>): (r: AuthOptions)
    ensures r.url == a.url
    ensures forall k :: k != "refreshToken" ==> Field(r.body, k) == Field(a.body, k)
  {
    var key := AuthOptionsHash(a);
    if key in store && Truthy(store[key]) then a.(body := a.body["refreshToken" := store[key]]) else a
  }

  /** Line 60-61: the store after the token callback has seen `reply`. */
  function StoreAfterReply(store: map<string, Value>, key: string, reply: Reply): map<string, Value> {
    if !Truthy(reply.error) && Truthy(reply.body) && Truthy(Get(reply.body, "refreshToken"))
    then store[key := Get(reply.body, "refreshToken")]
    else store
  }

  /** The key is the endpoint, the client id and the scope written one after
      the other; the secret, the access type and the refresh token do not enter it. */
  lemma HashOfBuiltRequest(options: Value)
    ensures AuthOptionsHash(BuildAuthOptions(options)) ==
            ToString(Get(options, "authUrl")) + ToString(Get(options, "clientId"))
            + (if Truthy(Get(options, "scope")) then ToString(Get(options, "scope")) else "undefined")
  {
    var a := BuildAuthOptions(options);
    assert Field(a.body, "clientId") == Get(options, "clientId");
    if Truthy(Get(options, "scope")) {
      assert "scope" in a.body;
    } else {
      assert "scope" !in a.body;
    }
  }

  /** Two configurations that agree on endpoint, client id and scope share a
      key, whatever their secrets, access types and refresh tokens. */
  lemma HashIgnoresSecretAndRefreshToken(o1: Value, o2: Value)
    requires Get(o1, "authUrl") == Get(o2, "authUrl")
    requires Get(o1, "clientId") == Get(o2, "clientId")
    requires Get(o1, "scope") == Get(o2, "scope")
    ensures AuthOptionsHash(BuildAuthOptions(o1)) == AuthOptionsHash(BuildAuthOptions(o2))
  {
    HashOfBuiltRequest(o1);
    HashOfBuiltRequest(o2);
  }

  /** A key built from a 24-character client id and a truthy endpoint is
      longer than any property name an empty object inherits (the longest,
      `propertyIsEnumerable`, has 20), so `key in memo` and `key in queues`
      see only the keys the table itself stored. */
  lemma KeyOutgrowsInheritedNames(options: Value)
    requires Truthy(Get(options, "authUrl"))
    requires Get(options, "clientId").Str? && |Get(options, "clientId").s| == 24
    ensures |AuthOptionsHash(BuildAuthOptions(options))| > 24
  {
    HashOfBuiltRequest(options);
    TruthyToStringNonEmpty(Get(options, "authUrl"));
  }

  /** Substituting the stored refresh token leaves the key unchanged, so the
      request is cached under the key that was used to look the token up. */
  lemma StoredRefreshTokenKeepsKey(a: AuthOptions, store: map<string, Value>)
    ensures AuthOptionsHash(WithStoredRefreshToken(a, store)) == AuthOptionsHash(a)
  {
    var r := WithStoredRefreshToken(a, store);
    assert Field(r.body, "clientId") == Field(a.body, "clientId");
    assert Field(r.body, "scope") == Field(a.body, "scope");
  }

  /** The stored token wins over the configuration's own refresh token; with
      no stored token the configuration's value, if truthy, is sent. */
  lemma StoredRefreshTokenWins(options: Value, store: map<string, Value>)
    ensures var a := BuildAuthOptions(options);
            var key := AuthOptionsHash(a);
            var r := WithStoredRefreshToken(a, store);
            && (key in store && Truthy(store[key]) ==> Field(r.body, "refreshToken") == store[key])
            && (!(key in store && Truthy(store[key])) ==>
                  Field(r.body, "refreshToken") ==
                  (if Truthy(Get(options, "refreshToken")) then Get(options, "refreshToken") else Undefined))
  {
    var a := BuildAuthOptions(options);
    if !Truthy(Get(options, "refreshToken")) {
      assert "refreshToken" !in a.body;
    }
  }

  /** The store changes only after a non-error reply whose body has a truthy
      refresh token, and then only at the request's key, which gets that token. */
  lemma StoreUpdate(store: map<string, Value>, key: string, reply: Reply)
    ensures var s := StoreAfterReply(store, key, reply);
            && (Truthy(reply.error) ==> s == store)
            && (forall k :: k in store && k != key ==> k in s && s[k] == store[k])
            && s.Keys <= store.Keys + {key}
            && (s != store ==> key in s && Truthy(s[key]) && s[key] == Get(reply.body, "refreshToken"))
            && (!Truthy(reply.error) && Truthy(reply.body) && Truthy(Get(reply.body, "refreshToken")) ==>
                  key in s && s[key] == Get(reply.body, "refreshToken"))
  {
  }

  /** Writing the store twice with the same reply is the same as writing it once:
      every waiter drained for one key updates the store identically. */
  lemma StoreAfterReplyIdempotent(store: map<string, Value>, key: string, reply: Reply)
    ensures StoreAfterReply(StoreAfterReply(store, key, reply), key, reply) == StoreAfterReply(store, key, reply)
  {
  }

  /** Two requests that differ only in their endpoint strings get different
      keys: the endpoint part of the key is recoverable. */
  lemma DistinctEndpointsDistinctKeys(a1: AuthOptions, a2: AuthOptions)
    requires a1.url.Str? && a2.url.Str? && a1.url != a2.url
    requires Field(a1.body, "clientId") == Field(a2.body, "clientId")
    requires Field(a1.body, "scope") == Field(a2.body, "scope")
    ensures AuthOptionsHash(a1) != AuthOptionsHash(a2)
  {
    var tail := ToString(Field(a1.body, "clientId")) + ToString(Field(a1.body, "scope"));
    assert AuthOptionsHash(a1) == a1.url.s + tail;
    assert AuthOptionsHash(a2) == a2.url.s + tail;
    if a1.url.s + tail == a2.url.s + tail {
      SuffixCancels(a1.url.s, a2.url.s, tail);
      assert false;
    }
  }

  lemma SuffixCancels(u1: string, u2: string, tail: string)
    requires u1 + tail == u2 + tail
    ensures u1 == u2
  {
    assert |u1| == |u2|;
    assert u1 == (u1 + tail)[..|u1|];
    assert u2 == (u2 + tail)[..|u2|];
  }

  /** Twenty-four `b`s; twenty-three `b`s and a `c`; twenty-four `S`s. */
  const CollidingId: string := seq(24, _ => 'b')
  const OtherId: string := seq(23, _ => 'b') + "c"
  const SomeSecret: string := seq(24, _ => 'S')

  const CollidingConfig: Value := Object(map["authUrl" := Str("a"), "clientId" := Str(CollidingId),
                                             "clientSecret" := Str(SomeSecret), "scope" := Str("cundefined")])
  const OtherConfig: Value := Object(map["authUrl" := Str("ab"), "clientId" := Str(OtherId),
                                         "clientSecret" := Str(SomeSecret)])

  /** The parts are written without a separator, so two configurations that
      both pass validation, with different endpoints and client ids, share a
      key, and with it one cached token and one stored refresh token. */
  lemma KeyDoesNotSeparateParts()
    ensures ValidateOptions(CollidingConfig).valid && ValidateOptions(OtherConfig).valid
    ensures Get(CollidingConfig, "authUrl") != Get(OtherConfig, "authUrl")
    ensures Get(CollidingConfig, "clientId") != Get(OtherConfig, "clientId")
    ensures AuthOptionsHash(BuildAuthOptions(CollidingConfig)) == AuthOptionsHash(BuildAuthOptions(OtherConfig))
  {
    CollidingConfigsValid();
    CollidingHash();
    OtherHash();
    CollidingTexts();
    assert CollidingId[23] != OtherId[23];
  }

  /** The two keys as texts: the endpoint's last letter moves into the id,
      and the id's last letter into the scope. */
  lemma CollidingTexts()
    ensures "a" + CollidingId + "cundefined" == "ab" + OtherId + "undefined"
  {
    var x := "a" + CollidingId;
    assert "ab" + OtherId == x + "c" by {
      assert "b" + seq(23, _ => 'b') == CollidingId;
    }
    calc {
      "ab" + OtherId + "undefined";
      (x + "c") + "undefined";
      x + ("c" + "undefined");
      { assert "c" + "undefined" == "cundefined"; }
      x + "cundefined";
    }
  }

  lemma CollidingHash()
    ensures AuthOptionsHash(BuildAuthOptions(CollidingConfig)) == "a" + CollidingId + "cundefined"
  {
    HashOfBuiltRequest(CollidingConfig);
  }

  lemma OtherHash()
    ensures AuthOptionsHash(BuildAuthOptions(OtherConfig)) == "ab" + OtherId + "undefined"
  {
    HashOfBuiltRequest(OtherConfig);
    assert Get(OtherConfig, "scope") == Undefined;
  }

  lemma CollidingConfigsValid()
    ensures ValidateOptions(CollidingConfig).valid && ValidateOptions(OtherConfig).valid
  {
    CollidingKeysMatch();
    assert Get(CollidingConfig, "clientId") == Str(CollidingId);
    assert Get(OtherConfig, "clientId") == Str(OtherId);
    assert Get(CollidingConfig, "clientSecret") == Str(SomeSecret);
    assert Get(OtherConfig, "clientSecret") == Str(SomeSecret);
  }

  lemma CollidingKeysMatch()
    ensures IsKey(CollidingId, IdPattern) && IsKey(OtherId, IdPattern) && IsKey(SomeSecret, SecretPattern)
  {
    assert forall i :: 0 <= i < |OtherId| ==> OtherId[i] == 'b' || OtherId[i] == 'c';
  }
}
