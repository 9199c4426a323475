/** IdxCheckEnrollmentStatus: looks the user up in IdentityX and hands the
    configuration and the user's identifiers to the later nodes through a copy
    of the shared state. */
module CheckEnrollment {
  import opened Host
  import opened Text
  import opened IdxCommon
  import opened TenantRepoCache

  /** The outcome ids "True", "False" and "Error". */
  datatype CheckOutcome = SUCCESS | FALSE | ERROR

  const ClientIdKey := "IdxClientID"
  const ClientSecretKey := "IdxClientSecret"
  const BaseUrlKey := "IdxBaseURL"
  const ExceptionKey := "[IdentityX Check Enrollment Status Node][Partner] Exception"

  /** `userIdAttribute` is optional (`None`: not set). */
  datatype Config = Config(clientId: string, clientSecret: string, baseUrl: string, userIdAttribute: Option<string>)

  /** The shared-state attribute holding the user id: the configured one, or the
      host's user name when it is not set or blank. */
  function UserIdAttribute(config: Config): (a: string)
    ensures config.userIdAttribute.Some? && !IsTrimBlank(config.userIdAttribute.value) ==>
              a == config.userIdAttribute.value
    ensures !IsTrimBlank(a)
    ensures (config.userIdAttribute == None || IsTrimBlank(config.userIdAttribute.value)) ==> a == Username
  {
    assert Username[0] > ' ';
    if config.userIdAttribute == None || IsTrimBlank(config.userIdAttribute.value) then Username
    else config.userIdAttribute.value
  }

  /** The user id, when the attribute holds a string that is not blank. */
  function UserName(config: Config, st: State): (u: Option<string>)
    ensures u.Some? <==> ReadString(st, UserIdAttribute(config)).Str? && !IsTrimBlank(ReadString(st, UserIdAttribute(config)).s)
    ensures u.Some? ==> st[UserIdAttribute(config)] == Text(u.value)
  {
    match ReadString(st, UserIdAttribute(config))
    case Str(s) => if IsTrimBlank(s) then None else Some(s)
    case _ => None
  }

  /** The copy of the shared state with the configuration and the user name added. */
  function ConfiguredState(config: Config, st: State, username: string): State
  {
    st[ClientIdKey := Text(config.clientId)][ClientSecretKey := Text(config.clientSecret)]
      [BaseUrlKey := Text(config.baseUrl)][UserNameKey := Text(username)]
  }

  /** The keys the node may add to the copy. */
  const AddedKeys: set<string> :=
    {ClientIdKey, ClientSecretKey, BaseUrlKey, UserNameKey, UserHrefKey, UserInternalIdKey, UserIdKey}

  /** `process`. `factory` is what the factory cache answers (`None`: it threw);
      `findUser` is the vendor's user lookup for a user id (`None`: it threw,
      `Some(None)`: no such user). */
  function Round(config: Config, factory: Option<TenantRepoFactory>,
                 findUser: (string, TenantRepoFactory) -> Option<Option<User>>, note: string, st: State): (r: Step<CheckOutcome>)
    ensures r.action.GoTo? <==> r.action == GoTo(ERROR)
    ensures r.action.GoTo? ==> r.state == st[ExceptionKey := Text(note)]
    ensures r.action.GoToReplacing? <==>
              UserName(config, st).Some? && factory.Some? && findUser(UserName(config, st).value, factory.value).Some?
    ensures r.action.GoToReplacing? ==> r.state == st && r.action.outcome != ERROR
    ensures r.action.GoToReplacing? ==>
      var ns := r.action.newState;
      ClientIdKey in ns && ClientSecretKey in ns && BaseUrlKey in ns && UserNameKey in ns
      && ns[ClientIdKey] == Text(config.clientId) && ns[ClientSecretKey] == Text(config.clientSecret)
      && ns[BaseUrlKey] == Text(config.baseUrl) && ns[UserNameKey] == Text(UserName(config, st).value)
      && (forall k :: k in st && k !in AddedKeys ==> k in ns && ns[k] == st[k])
      && (forall k :: k in ns && k !in AddedKeys ==> k in st)
    ensures !r.action.Send?
  {
    var fail := Step(GoTo(ERROR), st[ExceptionKey := Text(note)]);
    match UserName(config, st)
    case None => fail
    case Some(username) =>
      if factory == None then fail
      else
        var newState := ConfiguredState(config, st, username);
        match findUser(username, factory.value)
        case None => fail
        case Some(None) => Step(GoToReplacing(FALSE, newState), st)
        case Some(Some(user)) =>
          Step(GoToReplacing(SUCCESS, newState[UserHrefKey := Text(user.href)][UserInternalIdKey := Text(user.id)]
                                              [UserIdKey := Text(user.userId)]), st)
  }

  // ---------------------------------------------------------------- properties

  /** A user id that is missing, null, not a string or blank routes Error without
      asking the cache or the vendor. */
  lemma BlankUserNameErrors(config: Config, factory: Option<TenantRepoFactory>,
                            findUser: (string, TenantRepoFactory) -> Option<Option<User>>, note: string, st: State)
    requires !ReadString(st, UserIdAttribute(config)).Str? || IsTrimBlank(ReadString(st, UserIdAttribute(config)).s)
    ensures Round(config, factory, findUser, note, st) == Step(GoTo(ERROR), st[ExceptionKey := Text(note)])
  {
  }

  /** A factory that cannot be built, or a user lookup that throws, routes Error with
      the exception recorded. */
  lemma LookupFailureErrors(config: Config, factory: Option<TenantRepoFactory>,
                            findUser: (string, TenantRepoFactory) -> Option<Option<User>>, note: string, st: State, username: string)
    requires UserName(config, st) == Some(username)
    requires factory == None || findUser(username, factory.value) == None
    ensures Round(config, factory, findUser, note, st) == Step(GoTo(ERROR), st[ExceptionKey := Text(note)])
  {
  }

  /** An unknown user routes False with the configured copy and none of the user keys
      added (the copy keeps whatever the old state held under them). */
  lemma UnknownUserRoutesFalse(config: Config, factory: TenantRepoFactory,
                               findUser: (string, TenantRepoFactory) -> Option<Option<User>>, note: string, st: State, username: string)
    requires UserName(config, st) == Some(username) && findUser(username, factory) == Some(None)
    ensures var r := Round(config, Some(factory), findUser, note, st);
            r.action.GoToReplacing? && r.action.outcome == FALSE && r.action.newState == ConfiguredState(config, st, username)
    ensures UserHrefKey !in st ==> UserHrefKey !in ConfiguredState(config, st, username)
  {
  }

  /** A known user routes True and the copy carries the user's href, internal id and user id. */
  lemma KnownUserRoutesTrue(config: Config, factory: TenantRepoFactory,
                            findUser: (string, TenantRepoFactory) -> Option<Option<User>>, note: string, st: State, username: string, user: User)
    requires UserName(config, st) == Some(username) && findUser(username, factory) == Some(Some(user))
    ensures var r := Round(config, Some(factory), findUser, note, st);
            r.action.GoToReplacing? && r.action.outcome == SUCCESS &&
            r.action.newState[UserHrefKey] == Text(user.href) &&
            r.action.newState[UserInternalIdKey] == Text(user.id) &&
            r.action.newState[UserIdKey] == Text(user.userId)
  {
  }

  /** The later nodes read the user name back with `NodeState.get`: after a
      decision the copy yields exactly the user id that was looked up, never blank. */
  lemma UserNameHandedOn(config: Config, factory: Option<TenantRepoFactory>,
                         findUser: (string, TenantRepoFactory) -> Option<Option<User>>, note: string, st: State)
    requires Round(config, factory, findUser, note, st).action.GoToReplacing?
    ensures var ns := Round(config, factory, findUser, note, st).action.newState;
            NodeReadString(ns, UserNameKey) == Str(UserName(config, st).value)
            && !IsTrimBlank(NodeReadString(ns, UserNameKey).s)
  {
  }

  // ---------------------------------------------------------------- the node, in place

  /** `process`: the factory comes from the process-wide cache, asked only once the
      user id has been read; the copy is built one `put` at a time. */
  method Process(config: Config, cache: TenantRepoFactorySingleton, url: StringObject, now: int,
                 built: Option<TenantRepoFactory>, findUser: (string, TenantRepoFactory) -> Option<Option<User>>,
                 note: string, state: SharedState)
    returns (a: Action<CheckOutcome>)
    requires url.text == config.baseUrl
    modifies state, cache
    ensures Step(a, state.entries) ==
      Round(config, CachedAnswer(old(cache.instance), old(cache.baseUrl), old(cache.lastBuilt), url, now, built),
            findUser, note, old(state.entries))
    ensures UserName(config, old(state.entries)) == None ==> unchanged(cache)
    ensures UserName(config, old(state.entries)).Some? && built.Some?
            && MustRebuild(old(cache.instance), old(cache.baseUrl), old(cache.lastBuilt), url, now) ==>
              cache.instance == built && cache.baseUrl == url && cache.lastBuilt == Some(now)
    ensures UserName(config, old(state.entries)).Some? && built == None
            && MustRebuild(old(cache.instance), old(cache.baseUrl), old(cache.lastBuilt), url, now) ==>
              unchanged(cache)
    ensures UserName(config, old(state.entries)).Some?
            && !MustRebuild(old(cache.instance), old(cache.baseUrl), old(cache.lastBuilt), url, now) ==>
              unchanged(cache)
  {
    var attribute := if config.userIdAttribute == None || IsTrimBlank(config.userIdAttribute.value) then Username
                     else config.userIdAttribute.value;
    var read := ReadString(state.entries, attribute);
    if !read.Str? || IsTrimBlank(read.s) {
      state.Put(ExceptionKey, Text(note));
      return GoTo(ERROR);
    }
    var username := read.s;
    var factory := cache.GetInstance(url, now, built);
    if factory == None {
      state.Put(ExceptionKey, Text(note));
      return GoTo(ERROR);
    }
    var newState := state.entries;
    newState := newState[ClientIdKey := Text(config.clientId)];
    newState := newState[ClientSecretKey := Text(config.clientSecret)];
    newState := newState[BaseUrlKey := Text(config.baseUrl)];
    newState := newState[UserNameKey := Text(username)];
    var user := findUser(username, factory.value);
    if user == None {
      state.Put(ExceptionKey, Text(note));
      return GoTo(ERROR);
    }
    if user.value == None {
      return GoToReplacing(FALSE, newState);
    }
    newState := newState[UserHrefKey := Text(user.value.value.href)];
    newState := newState[UserInternalIdKey := Text(user.value.value.id)];
    newState := newState[UserIdKey := Text(user.value.value.userId)];
    a := GoToReplacing(SUCCESS, newState);
  }
}
