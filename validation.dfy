/** The credential checks run before any token is requested
    (`_validateOptions` and `_verifyAPIKey`). */
module Validation {
  import opened Js

  const KeyLength: nat := 24

  const OptionsRequired := "options object is required"
  const AuthUrlRequired := "authUrl is required"
  const ClientIdInvalid := "clientId is missing or invalid"
  const ClientSecretInvalid := "clientSecret is missing or invalid"

  /** The two key patterns: `/^[a-z0-9]{24}$/` for a client id and
      `/^[a-zA-Z0-9]{24}$/` for a client secret. */
  datatype KeyPattern = IdPattern | SecretPattern

  predicate InClass(c: char, p: KeyPattern) {
    || 'a' <= c <= 'z'
    || '0' <= c <= '9'
    || (p == SecretPattern && 'A' <= c <= 'Z')
  }

  /** The reference meaning of a pattern: exactly 24 characters, each in the class. */
  ghost predicate IsKey(s: string, p: KeyPattern) {
    |s| == KeyLength && forall i :: 0 <= i < |s| ==> InClass(s[i], p)
  }

  /** Scans the string left to right, as an anchored character-class regex does. */
  function AllInClass(s: string, p: KeyPattern): (r: bool)
    ensures r <==> forall i :: 0 <= i < |s| ==> InClass(s[i], p)
  {
    if s == [] then true else InClass(s[0], p) && AllInClass(s[1..], p)
  }

  /** `pattern.test(key)`. A key that is not a string never matches: the string
      forms of undefined, null, booleans, numbers and objects are never 24
      characters of either class. */
  function Matches(key: Value, p: KeyPattern): (r: bool)
    ensures r <==> key.Str? && IsKey(key.s, p)
  {
    key.Str? && |key.s| == KeyLength && AllInClass(key.s, p)
  }

  /** `_verifyAPIKey(type, key)`: only the two known key types can succeed. */
  function VerifyApiKey(keyType: string, key: Value): (ok: bool)
    ensures keyType == "clientId" ==> (ok <==> key.Str? && IsKey(key.s, IdPattern))
    ensures keyType == "clientSecret" ==> (ok <==> key.Str? && IsKey(key.s, SecretPattern))
    ensures keyType != "clientId" && keyType != "clientSecret" ==> !ok
  {
    if keyType == "clientId" then Matches(key, IdPattern)
    else if keyType == "clientSecret" then Matches(key, SecretPattern)
    else false
  }

  /** What one validation does: whether it returns true, and the messages of
      the errors it passes to the callback, in call order. */
  datatype Validation = Validation(valid: bool, reported: seq<string>)

  /** The reference condition that a configuration may request a token. */
  ghost predicate Acceptable(options: Value) {
    && Truthy(options)
    && Truthy(Get(options, "authUrl"))
    && Get(options, "clientId").Str? && IsKey(Get(options, "clientId").s, IdPattern)
    && Get(options, "clientSecret").Str? && IsKey(Get(options, "clientSecret").s, SecretPattern)
  }

  ghost predicate ClientIdOk(options: Value) {
    Get(options, "clientId").Str? && IsKey(Get(options, "clientId").s, IdPattern)
  }

  /** `_validateOptions(options, callback)`: the checks run in a fixed order and
      the first failing one is reported, once, to the callback. */
  function ValidateOptions(options: Value): (r: Validation)
    ensures r.valid <==> r.reported == []
    ensures r.valid <==> Acceptable(options)
    ensures |r.reported| <= 1
    ensures r.reported == [OptionsRequired] <==> !Truthy(options)
    ensures r.reported == [AuthUrlRequired] <==>
              Truthy(options) && !Truthy(Get(options, "authUrl"))
    ensures r.reported == [ClientIdInvalid] <==>
              Truthy(options) && Truthy(Get(options, "authUrl")) && !ClientIdOk(options)
    ensures r.reported == [ClientSecretInvalid] <==>
              Truthy(options) && Truthy(Get(options, "authUrl")) && ClientIdOk(options)
              && !(Get(options, "clientSecret").Str? && IsKey(Get(options, "clientSecret").s, SecretPattern))
  {
    var message :=
      if !Truthy(options) then Some(OptionsRequired)
      else if !Truthy(Get(options, "authUrl")) then Some(AuthUrlRequired)
      else if !Truthy(Get(options, "clientId")) || !VerifyApiKey("clientId", Get(options, "clientId")) then
        Some(ClientIdInvalid)
      else if !Truthy(Get(options, "clientSecret")) || !VerifyApiKey("clientSecret", Get(options, "clientSecret")) then
        Some(ClientSecretInvalid)
      else None;
    if message.Some? then Validation(false, [message.value]) else Validation(true, [])
  }

  /** A configuration that passes validation is an object whose client id and
      secret are strings that the token body and the identity key carry as they are. */
  lemma ValidatedOptionsShape(options: Value)
    requires ValidateOptions(options).valid
    ensures options.Object?
    ensures Get(options, "clientId").Str? && |Get(options, "clientId").s| == KeyLength
    ensures Get(options, "clientSecret").Str? && |Get(options, "clientSecret").s| == KeyLength
    ensures forall i :: 0 <= i < KeyLength ==> InClass(Get(options, "clientId").s[i], IdPattern)
  {
  }
}
