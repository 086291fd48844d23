/** The frontend's auth store: the token and user held in memory, their
    copies in the browser's storage, and the `Authorization` default header
    of the store's own HTTP client. JSON parsing and serialisation are
    parameters. */
module AuthStore {
  import opened Common
  import opened ApiClient

  const UnknownLoginError := "Erro desconhecido no login."

  /** `!!value` for a parsed JSON value. */
  predicate JsonTruthy(j: Json) {
    match j
    case JNull => false
    case JBool(b) => b
    case JNum(n) => n != 0
    case JStr(s) => s != ""
    case JArr(_) => true
    case JObj(_) => true
  }

  /** Everything the store owns, as one value. */
  datatype StoreState = StoreState(token: Option<string>, user: Option<Json>,
                                   storage: map<string, string>, defaultHeaders: map<string, string>)

  /** The header is present exactly when a token is held, and carries it. */
  predicate Consistent(s: StoreState) {
    && ("Authorization" in s.defaultHeaders <==> s.token.Some?)
    && (s.token.Some? ==> s.defaultHeaders["Authorization"] == BearerValue(s.token.value))
  }

  /** The state the store starts in, read from storage: a missing or empty
      token is null, a missing or falsy user is null (`getItem` of a missing
      key gives null, and `JSON.parse(null)` is null), and the header is set
      when a token was found. The client's defaults start without it.
      `parse` is `JSON.parse`, None where it throws: a stored user that is
      not JSON text (such as "undefined") makes the setup throw, and there
      is then no store at all. */
  function Initial(storage: map<string, string>, parse: string -> Option<Json>): (r: Option<StoreState>)
    ensures r.None? <==> "user" in storage && parse(storage["user"]).None?
    ensures r.Some? ==>
              var s := r.value;
              && s.storage == storage
              && (s.token.Some? <==> "token" in storage && storage["token"] != "")
              && (s.token.Some? ==> s.token.value == storage["token"])
              && (s.user.Some? <==> "user" in storage && JsonTruthy(parse(storage["user"]).value))
              && (s.user.Some? ==> s.user.value == parse(storage["user"]).value)
              && Consistent(s)
  {
    if "user" in storage && parse(storage["user"]).None? then None
    else
      var token := if "token" in storage && storage["token"] != "" then Some(storage["token"]) else None;
      var user := if "user" in storage && JsonTruthy(parse(storage["user"]).value)
                  then Some(parse(storage["user"]).value) else None;
      Some(StoreState(token, user, storage,
                      if token.Some? then map["Authorization" := BearerValue(token.value)] else map[]))
  }

  /** After a successful login: token and user held, both stored, header set. */
  function LoggedIn(s: StoreState, token: string, user: Json, stringify: Json -> string): StoreState {
    StoreState(Some(token), Some(user), s.storage["token" := token]["user" := stringify(user)],
               s.defaultHeaders["Authorization" := BearerValue(token)])
  }

  /** After logout: nothing held, both keys removed, header deleted. */
  function LoggedOut(s: StoreState): (t: StoreState)
    ensures t.token.None? && t.user.None?
    ensures t.storage.Keys == s.storage.Keys - {"token", "user"}
    ensures forall k :: k in t.storage ==> t.storage[k] == s.storage[k]
    ensures "Authorization" !in t.defaultHeaders
  {
    StoreState(None, None, s.storage - {"token", "user"}, s.defaultHeaders - {"Authorization"})
  }

  /** Login and logout keep the header and the token in step. */
  lemma TransitionsKeepConsistent(s: StoreState, token: string, user: Json, stringify: Json -> string)
    ensures Consistent(LoggedIn(s, token, user, stringify))
    ensures Consistent(LoggedOut(s))
  {
  }

  /** After login the held token, the stored token and the header agree, and
      the stored user is the serialised held user. */
  lemma LoginAgrees(s: StoreState, token: string, user: Json, stringify: Json -> string)
    ensures var t := LoggedIn(s, token, user, stringify);
            && t.token == Some(token) && t.storage["token"] == token
            && t.defaultHeaders["Authorization"] == BearerValue(token)
            && t.user.Some? && t.storage["user"] == stringify(t.user.value)
  {
  }

  /** Logging out twice is logging out once. */
  lemma LogoutIdempotent(s: StoreState)
    ensures LoggedOut(LoggedOut(s)) == LoggedOut(s)
  {
  }

  /** What the awaited login request gave: a 2xx answer with its `token` and
      `user`, an error answer with its body, or no answer at all. */
  datatype LoginOutcome = Accepted(token: string, user: Json) | Refused(data: Json) | NoAnswer

  /** What `login` throws: a JSON value, or the TypeError of reading
      `error.response.data` when there is no response (or `.error` of a null
      body). */
  datatype Thrown = ThrownValue(value: Json) | ThrownTypeError

  /** The `catch` of `login`: `error.response.data.error || 'Erro desconhecido no login.'`. */
  function LoginFailure(outcome: LoginOutcome): (t: Thrown)
    requires !outcome.Accepted?
    ensures outcome.NoAnswer? || outcome.data.JNull? <==> t.ThrownTypeError?
    ensures (outcome.Refused? && outcome.data.JObj? && "error" in outcome.data.fields
             && JsonTruthy(outcome.data.fields["error"])) ==> t == ThrownValue(outcome.data.fields["error"])
    ensures outcome.Refused? && !outcome.data.JNull?
            && !(outcome.data.JObj? && "error" in outcome.data.fields && JsonTruthy(outcome.data.fields["error"]))
            ==> t == ThrownValue(JStr(UnknownLoginError))
  {
    match outcome
    case NoAnswer => ThrownTypeError
    case Refused(data) =>
      if data.JNull? then ThrownTypeError
      else if data.JObj? && "error" in data.fields && JsonTruthy(data.fields["error"]) then ThrownValue(data.fields["error"])
      else ThrownValue(JStr(UnknownLoginError))
  }

  /** The store: its state, plus the targets of `router.push`, in order. */
  class Store {
    var token: Option<string>
    var user: Option<Json>
    var storage: map<string, string>
    var defaultHeaders: map<string, string>
    var navigations: seq<string>

    function State(): StoreState
      reads this
    {
      StoreState(token, user, storage, defaultHeaders)
    }

    ghost predicate Valid()
      reads this
    {
      Consistent(State())
    }

    /** A store exists only when its setup did not throw. */
    constructor (storage: map<string, string>, parse: string -> Option<Json>)
      requires Initial(storage, parse).Some?
      ensures State() == Initial(storage, parse).value && navigations == []
      ensures Valid()
    {
      var s := Initial(storage, parse).value;
      token := s.token;
      user := s.user;
      this.storage := storage;
      defaultHeaders := s.defaultHeaders;
      navigations := [];
    }

    /** `isAuthenticated`. */
    function IsAuthenticated(): (b: bool)
      reads this
      ensures b <==> token.Some? && token.value != ""
      ensures b && Valid() ==> defaultHeaders["Authorization"] == BearerValue(token.value)
    {
      Truthy(token)
    }

    /** `login(email, password)` once the request has settled. The store is
        written only after the request succeeded, so a failure changes
        nothing and reports what is thrown. */
    method Login(outcome: LoginOutcome, stringify: Json -> string) returns (thrown: Option<Thrown>)
      requires Valid()
      modifies this
      ensures Valid()
      ensures outcome.Accepted? ==>
                && thrown.None?
                && State() == LoggedIn(old(State()), outcome.token, outcome.user, stringify)
                && navigations == old(navigations) + ["/dashboard"]
                && (IsAuthenticated() <==> outcome.token != "")
      ensures !outcome.Accepted? ==>
                && thrown == Some(LoginFailure(outcome))
                && State() == old(State()) && navigations == old(navigations)
    {
      if !outcome.Accepted? {
        return Some(LoginFailure(outcome));
      }
      token := Some(outcome.token);
      user := Some(outcome.user);
      storage := storage["token" := outcome.token];
      storage := storage["user" := stringify(outcome.user)];
      defaultHeaders := defaultHeaders["Authorization" := BearerValue(outcome.token)];
      navigations := navigations + ["/dashboard"];
      thrown := None;
    }

    /** `logout()`. */
    method Logout()
      requires Valid()
      modifies this
      ensures Valid()
      ensures State() == LoggedOut(old(State()))
      ensures navigations == old(navigations) + ["/login"]
      ensures !IsAuthenticated()
    {
      token := None;
      user := None;
      storage := storage - {"token"};
      storage := storage - {"user"};
      defaultHeaders := defaultHeaders - {"Authorization"};
      navigations := navigations + ["/login"];
    }
  }

  /** The shared client's interceptor reads the store's token: after a login
      with a non-empty token, every request of the app carries that token. */
  method RequestAfterLogin(store: Store, token: string, user: Json, stringify: Json -> string,
                           config: RequestConfig)
    returns (thrown: Option<Thrown>, sent: RequestConfig)
    requires store.Valid() && token != ""
    modifies store, config
    ensures thrown.None? && store.IsAuthenticated()
    ensures sent == config && sent.headers == old(config.headers)["Authorization" := BearerValue(token)]
  {
    thrown := store.Login(Accepted(token, user), stringify);
    sent := Intercept(config, store.token);
  }
}
