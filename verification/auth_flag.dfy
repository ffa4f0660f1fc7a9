/**
 * The cached authentication flag of the user widget: a module-level boolean seeded
 * from the browser's key/value storage when the module loads, and overwritten (and
 * written back) whenever a session response is observed.
 */
module AuthFlag {
  import opened Wrappers

  /** The storage key the flag is persisted under. */
  const StorageKey: string := "b2b-organizations_isAuthenticated"

  /** What `JSON.parse` yields on the texts this model determines. */
  datatype JsonLiteral = JsonNull | JsonBool(b: bool) | Undetermined

  /** `JSON.stringify` of a boolean. */
  function Stringify(b: bool): (text: string)
    ensures text == "true" <==> b
    ensures text == "false" <==> !b
  {
    if b then "true" else "false"
  }

  /**
   * `JSON.parse` restricted to the literals `null`, `true` and `false`. Every other
   * text is `Undetermined`: the parser may throw or produce a value of another type.
   */
  function ParseLiteral(text: string): (r: JsonLiteral)
    ensures r == JsonNull <==> text == "null"
    ensures r.JsonBool? <==> text == Stringify(true) || text == Stringify(false)
    ensures r.JsonBool? ==> text == Stringify(r.b)
  {
    if text == "null" then JsonNull
    else if text == "true" then JsonBool(true)
    else if text == "false" then JsonBool(false)
    else Undetermined
  }

  /** `String(localStore.getItem(key))`: a missing key becomes the text "null". */
  function StoredText(storage: map<string, string>): (text: string)
    ensures StorageKey !in storage ==> text == "null"
    ensures StorageKey in storage ==> text == storage[StorageKey]
  {
    if StorageKey in storage then storage[StorageKey] else "null"
  }

  /**
   * The flag the module starts with: `JSON.parse(String(getItem(key))) ?? false`.
   * `None` when the stored text is one whose parse the model does not determine.
   */
  function Seed(storage: map<string, string>): (r: Option<bool>)
    ensures StorageKey !in storage ==> r == Some(false)
    ensures r == Some(true) <==> StorageKey in storage && storage[StorageKey] == "true"
    ensures r.None? <==>
              StorageKey in storage && storage[StorageKey] !in {"true", "false", "null"}
  {
    match ParseLiteral(StoredText(storage))
    case JsonNull => Some(false)
    case JsonBool(b) => Some(b)
    case Undetermined => None
  }

  /** A JavaScript value found at the end of the claim path. */
  datatype JsValue = JsString(s: string) | JsBoolean(b: bool) | JsNumber(n: int) | JsObject

  /**
   * The part of a session response the widget reads:
   * `namespaces.profile.isAuthenticated.value`. Each `None` is a missing or null link
   * of the optional chain.
   */
  datatype Claim = Claim(value: Option<JsValue>)
  datatype Profile = Profile(isAuthenticated: Option<Claim>)
  datatype Namespaces = Namespaces(profile: Option<Profile>)
  datatype SessionResponse = SessionResponse(namespaces: Option<Namespaces>)

  /** The one response shape that authenticates the shopper. */
  const AuthenticatedResponse: SessionResponse :=
    SessionResponse(Some(Namespaces(Some(Profile(Some(Claim(Some(JsString("true")))))))))

  /** `response?.namespaces?.profile?.isAuthenticated?.value === 'true'`. */
  function ClaimsAuthenticated(response: SessionResponse): (b: bool)
    ensures b <==> response == AuthenticatedResponse
  {
    match response.namespaces
    case None => false
    case Some(ns) =>
      match ns.profile
      case None => false
      case Some(p) =>
        match p.isAuthenticated
        case None => false
        case Some(c) => c.value == Some(JsString("true"))
  }

  /** The module-level flag together with the storage it is persisted in. */
  datatype AuthState = AuthState(isAuthenticated: bool, storage: map<string, string>)

  /** Module initialisation: the flag is seeded from whatever the storage holds. */
  function Load(storage: map<string, string>): (r: Option<AuthState>)
    ensures r.Some? <==> Seed(storage).Some?
    ensures r.Some? ==> r.value.storage == storage
    ensures r.Some? ==> r.value.isAuthenticated == (StorageKey in storage && storage[StorageKey] == "true")
  {
    match Seed(storage)
    case None => None
    case Some(b) => Some(AuthState(b, storage))
  }

  /**
   * One render's handling of the session response: a missing response leaves
   * everything as it was; a present one overwrites the flag and persists it.
   */
  function Observe(s: AuthState, response: Option<SessionResponse>): (r: AuthState)
    ensures response.None? ==> r == s
    ensures response.Some? ==> r.isAuthenticated == (response.value == AuthenticatedResponse)
    ensures response.Some? ==> StorageKey in r.storage && Seed(r.storage) == Some(r.isAuthenticated)
    ensures response.Some? ==> r.storage == s.storage[StorageKey := Stringify(r.isAuthenticated)]
    ensures r.storage - {StorageKey} == s.storage - {StorageKey}
  {
    match response
    case None => s
    case Some(resp) =>
      var flag := ClaimsAuthenticated(resp);
      AuthState(flag, s.storage[StorageKey := Stringify(flag)])
  }

  /** Re-seeding from what was written gives back the written flag. */
  lemma StringifyThenSeed(b: bool, storage: map<string, string>)
    ensures Seed(storage[StorageKey := Stringify(b)]) == Some(b)
  {
  }

  /** With no stored key the module starts unauthenticated. */
  lemma NothingStoredSeedsFalse(storage: map<string, string>)
    requires StorageKey !in storage
    ensures Load(storage) == Some(AuthState(false, storage))
  {
  }

  /** After observing a response, the next page load restores the same flag. */
  lemma ObservedFlagSurvivesReload(s: AuthState, response: SessionResponse)
    ensures Load(Observe(s, Some(response)).storage) == Some(Observe(s, Some(response)))
  {
  }

  /** A render with no session response never downgrades a cached `true`, and writes nothing. */
  lemma AbsentResponseKeepsFlag(s: AuthState)
    ensures Observe(s, None).isAuthenticated == s.isAuthenticated
    ensures Observe(s, None).storage == s.storage
  {
  }

  /** Observing the same response twice is the same as observing it once. */
  lemma ObserveIdempotent(s: AuthState, response: Option<SessionResponse>)
    ensures Observe(Observe(s, response), response) == Observe(s, response)
  {
  }

  /** Strict equality: a boolean `true` in the claim does not authenticate, only the string does. */
  lemma BooleanClaimIsNotAuthenticated()
    ensures !ClaimsAuthenticated(
              SessionResponse(Some(Namespaces(Some(Profile(Some(Claim(Some(JsBoolean(true))))))))))
    ensures !ClaimsAuthenticated(SessionResponse(None))
  {
  }
}
