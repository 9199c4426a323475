/** DaonIDVNode: identity verification with Daon TrustX in two round trips. The
    first creates a TrustX process instance, keeps its id and the bearer token in
    the shared state and redirects the user to it; the second, when the user
    comes back, consumes both, fetches the instance's status and goes to TRUE only
    for a successfully completed process. */
module IdvNode {
  import opened Host
  import opened Text

  /** The request parameter that carries an error. The constants class that
      defines it is not part of this model; this is the name of section 4.1.2.1 of RFC 6749. */
  const ErrorParam := "error"

  const InstanceIdKey := "InstanceId"
  const BearerTokenKey := "BearerToken"
  const StatusKey := "Status"
  const UserDataKey := "UserData"
  const ExceptionKey := "[Daon IDV Node][Marketplace] Exception"
  const StackTraceKey := "[Daon IDV Node][Marketplace] StackTrace"

  const CompletedStatus := "COMPLETED_ENDED_SUCCESS"

  datatype Config = Config(
    tenantName: string,
    regionName: string,
    apiKey: string,
    processDefinitionName: string,
    processDefinitionVersion: string,
    redirectUrl: string,
    getUserData: bool)

  /** The TrustX REST root the constructor derives from the tenant and the region. */
  function BaseRestUri(config: Config): string
  {
    "https://" + config.tenantName + "." + config.regionName + ".trustx.com/"
  }

  /** The tenant is the host name's first label: a dot-free tenant can be read back
      from the base URI. */
  lemma {:induction false} BaseRestUriNamesTenant(config: Config)
    requires '.' !in config.tenantName
    ensures var u := BaseRestUri(config);
            var rest := u[|"https://"|..];
            IndexOf(rest, '.') == Some(|config.tenantName|) && rest[..|config.tenantName|] == config.tenantName
  {
    var u := BaseRestUri(config);
    var t := config.tenantName;
    var rest := u[|"https://"|..];
    assert rest == t + "." + config.regionName + ".trustx.com/";
    assert rest[..|t|] == t;
    assert rest[|t|] == '.';
    assert '.' !in rest[..|t|];
    IndexOfFirst(rest, '.', |t|);
  }

  /** A character that first occurs at `i` is found at `i`. */
  lemma IndexOfFirst(s: string, c: char, i: nat)
    requires i < |s| && s[i] == c && c !in s[..i]
    ensures IndexOf(s, c) == Some(i)
  {
  }

  /** The body of the process-token request. */
  datatype ProcessTokenRequest = ProcessTokenRequest(
    name: string,
    processDefnName: string,
    processDefnVersion: string,
    status: string,
    tokenType: string,
    uiUrl: string,
    redirectUrl: string)

  /** `getProcessToken`'s request: named by a fresh UUID, for the configured process
      definition, ACTIVE, UNLIMITED, with the TrustX web UI under the base URI. */
  function NewProcessTokenRequest(config: Config, uuid: string): (r: ProcessTokenRequest)
    ensures r.status == "ACTIVE" && r.tokenType == "UNLIMITED"
    ensures r.uiUrl == BaseRestUri(config) + "web/trustweb"
    ensures r.name == uuid && r.redirectUrl == config.redirectUrl
    ensures r.processDefnName == config.processDefinitionName && r.processDefnVersion == config.processDefinitionVersion
  {
    ProcessTokenRequest(uuid, config.processDefinitionName, config.processDefinitionVersion,
                        "ACTIVE", "UNLIMITED", BaseRestUri(config) + "web/trustweb", config.redirectUrl)
  }

  /** The parts of a process instance's status document the node reads. */
  datatype InstanceStatus = InstanceStatus(status: Option<string>, processDefnId: Option<string>)

  /** The TrustX calls and the environment of one round trip (`None`: the call or
      the parsing of its answer threw):
      - `bearerToken`: the "token" of the answer to an API key;
      - `processToken`: the "id" of the process token created for a request;
      - `processInstance`: the redirect URL and the id of the instance created for a process token;
      - `instanceStatus`: the status document of an instance (bearer token, instance id; either may be null);
      - `parseStatus`: the fields of a status document;
      - `userData`: the user data of an instance (bearer token, process definition id, instance id);
      - `uuid`: the random UUID of a new process token;
      - `note`/`trace`: the texts recorded for an exception and its stack trace. */
  datatype TrustX = TrustX(
    bearerToken: string -> Option<string>,
    processToken: (string, ProcessTokenRequest) -> Option<string>,
    processInstance: (string, string) -> Option<(string, string)>,
    instanceStatus: (Option<string>, Option<string>) -> Option<string>,
    parseStatus: string -> Option<InstanceStatus>,
    userData: (Option<string>, Option<string>, Option<string>) -> Option<string>,
    uuid: string,
    note: string,
    trace: string)

  type Parameters = map<string, seq<string>>

  function Fail(st: State, env: TrustX): Step<Decision>
  {
    Step(GoTo(FalseOutcome), st[ExceptionKey := Text(env.note)][StackTraceKey := Text(env.trace)])
  }

  /** A string read that does not throw, as a Java reference (`None`: null). */
  function AsReference(r: StringRead): Option<string>
    requires r != Throws
  {
    if r.Str? then Some(r.s) else None
  }

  /** The second round trip: both stored values are consumed, the status document is
      stored, and the outcome is TRUE only for a completed process. */
  function ReturnPhase(config: Config, env: TrustX, st: State): (r: Step<Decision>)
    requires InstanceIdKey in st
    ensures r.action.GoTo?
    ensures NodeReadString(st, BearerTokenKey) != Throws && NodeReadString(st, InstanceIdKey) != Throws ==>
              InstanceIdKey !in r.state && BearerTokenKey !in r.state
    ensures r.action == GoTo(TrueOutcome) ==>
              NodeReadString(st, BearerTokenKey) != Throws && NodeReadString(st, InstanceIdKey) != Throws &&
              var doc := env.instanceStatus(AsReference(NodeReadString(st, BearerTokenKey)), AsReference(NodeReadString(st, InstanceIdKey)));
              doc.Some? && env.parseStatus(doc.value).Some? && env.parseStatus(doc.value).value.status == Some(CompletedStatus) &&
              StatusKey in r.state && r.state[StatusKey] == Text(doc.value)
  {
    var bearer := NodeReadString(st, BearerTokenKey);
    var instance := NodeReadString(st, InstanceIdKey);
    if bearer == Throws || instance == Throws then Fail(st, env)
    else
      var st1 := st - {InstanceIdKey} - {BearerTokenKey};
      match env.instanceStatus(AsReference(bearer), AsReference(instance))
      case None => Fail(st1, env)
      case Some(doc) =>
        var st2 := st1[StatusKey := Text(doc)];
        match env.parseStatus(doc)
        case None => Fail(st2, env)
        case Some(parsed) =>
          if parsed.status == None then Fail(st2, env)
          else if parsed.status.value != CompletedStatus then Step(GoTo(FalseOutcome), st2)
          else if !config.getUserData then Step(GoTo(TrueOutcome), st2)
          else match env.userData(AsReference(bearer), parsed.processDefnId, AsReference(instance))
            case None => Fail(st2, env)
            case Some(data) => Step(GoTo(TrueOutcome), st2[UserDataKey := Text(data)])
  }

  /** The first round trip: a bearer token, a process token and a process instance
      are obtained, the instance id and the bearer token are stored, and the user is
      redirected to the instance. */
  function StartPhase(config: Config, env: TrustX, st: State): (r: Step<Decision>)
    ensures var bearer := env.bearerToken(config.apiKey);
            var token := if bearer.Some? then env.processToken(bearer.value, NewProcessTokenRequest(config, env.uuid)) else None;
            var info := if token.Some? then env.processInstance(bearer.value, token.value) else None;
            (r.action.Send? <==> info.Some?) &&
            (info.Some? ==>
               r.action == Send([Redirect(info.value.0, "GET", true)]) &&
               r.state == st[InstanceIdKey := Text(info.value.1)][BearerTokenKey := Text(bearer.value)]) &&
            (info.None? ==> r == Fail(st, env))
  {
    match env.bearerToken(config.apiKey)
    case None => Fail(st, env)
    case Some(bearer) =>
      match env.processToken(bearer, NewProcessTokenRequest(config, env.uuid))
      case None => Fail(st, env)
      case Some(token) =>
        match env.processInstance(bearer, token)
        case None => Fail(st, env)
        case Some((url, instanceId)) =>
          Step(Send([Redirect(url, "GET", true)]), st[InstanceIdKey := Text(instanceId)][BearerTokenKey := Text(bearer)])
  }

  /** `process`. */
  function Round(config: Config, env: TrustX, params: Parameters, st: State): (r: Step<Decision>)
    ensures r.action.GoTo? || r.action.Send?
    ensures r.action == GoTo(TrueOutcome) ==> InstanceIdKey in st && ErrorParam !in params
  {
    if ErrorParam in params then Fail(st, env)
    else if InstanceIdKey in st then ReturnPhase(config, env, st)
    else StartPhase(config, env, st)
  }

  // ---------------------------------------------------------------- properties

  /** An `error` parameter always ends at FALSE with the exception recorded. */
  lemma ErrorParamRoutesFalse(config: Config, env: TrustX, params: Parameters, st: State)
    requires ErrorParam in params
    ensures Round(config, env, params, st) == Fail(st, env)
    ensures Round(config, env, params, st).action == GoTo(FalseOutcome)
  {
  }

  /** The return phase consumes the instance id and the bearer token before the
      status is looked at, whatever the status turns out to be. */
  lemma ReturnConsumesStoredValues(config: Config, env: TrustX, params: Parameters, st: State)
    requires ErrorParam !in params && InstanceIdKey in st
    requires NodeReadString(st, BearerTokenKey) != Throws && NodeReadString(st, InstanceIdKey) != Throws
    ensures var r := Round(config, env, params, st);
            InstanceIdKey !in r.state && BearerTokenKey !in r.state && r.action.GoTo?
  {
  }

  /** TRUE exactly when the status is COMPLETED_ENDED_SUCCESS and, if user data is
      asked for, it could be fetched. */
  lemma TrueIffCompleted(config: Config, env: TrustX, params: Parameters, st: State)
    requires ErrorParam !in params && InstanceIdKey in st
    ensures var bearer := NodeReadString(st, BearerTokenKey);
            var instance := NodeReadString(st, InstanceIdKey);
            Round(config, env, params, st).action == GoTo(TrueOutcome) <==>
              bearer != Throws && instance != Throws &&
              var doc := env.instanceStatus(AsReference(bearer), AsReference(instance));
              doc.Some? && env.parseStatus(doc.value).Some? &&
              env.parseStatus(doc.value).value.status == Some(CompletedStatus) &&
              (config.getUserData ==>
                 env.userData(AsReference(bearer), env.parseStatus(doc.value).value.processDefnId, AsReference(instance)).Some?)
  {
  }

  /** User data is written only on the way to TRUE and only when it is asked for. */
  lemma UserDataOnlyOnSuccess(config: Config, env: TrustX, params: Parameters, st: State)
    requires UserDataKey !in st
    ensures var r := Round(config, env, params, st);
            UserDataKey in r.state ==> r.action == GoTo(TrueOutcome) && config.getUserData
  {
  }

  /** The first round trip sends exactly when the three TrustX calls succeed: the
      redirect goes to the new instance, and its id and the bearer token are stored;
      a failing call ends at FALSE with the exception recorded. */
  lemma StartSends(config: Config, env: TrustX, params: Parameters, st: State)
    requires ErrorParam !in params && InstanceIdKey !in st
    ensures var bearer := env.bearerToken(config.apiKey);
            var token := if bearer.Some? then env.processToken(bearer.value, NewProcessTokenRequest(config, env.uuid)) else None;
            var info := if token.Some? then env.processInstance(bearer.value, token.value) else None;
            var r := Round(config, env, params, st);
            (r.action.Send? <==> info.Some?) &&
            (info.Some? ==>
               r == Step(Send([Redirect(info.value.0, "GET", true)]),
                         st[InstanceIdKey := Text(info.value.1)][BearerTokenKey := Text(bearer.value)])) &&
            (info.None? ==> r == Fail(st, env))
  {
  }

  /** After a first round trip that created instance `id` with bearer token `b`, the
      next round trip consumes both and asks for the status of that instance with
      that token, storing the status document it gets. */
  lemma StoreThenConsume(config: Config, env: TrustX, params: Parameters, params2: Parameters, st: State,
                         b: string, t: string, url: string, id: string)
    requires ErrorParam !in params && ErrorParam !in params2 && InstanceIdKey !in st
    requires env.bearerToken(config.apiKey) == Some(b)
    requires env.processToken(b, NewProcessTokenRequest(config, env.uuid)) == Some(t)
    requires env.processInstance(b, t) == Some((url, id))
    ensures var r := Round(config, env, params, st);
            r.action == Send([Redirect(url, "GET", true)]) &&
            r.state[InstanceIdKey] == Text(id) && r.state[BearerTokenKey] == Text(b)
    ensures var r2 := Round(config, env, params2, Round(config, env, params, st).state);
            InstanceIdKey !in r2.state && BearerTokenKey !in r2.state && r2.action.GoTo? &&
            (env.instanceStatus(Some(b), Some(id)).Some? ==>
               StatusKey in r2.state && r2.state[StatusKey] == Text(env.instanceStatus(Some(b), Some(id)).value))
  {
    StartSends(config, env, params, st);
    var r := Round(config, env, params, st);
    assert NodeReadString(r.state, BearerTokenKey) == Str(b);
    assert NodeReadString(r.state, InstanceIdKey) == Str(id);
    ReturnConsumesStoredValues(config, env, params2, r.state);
  }

  // ---------------------------------------------------------------- the node, in place

  /** `process` on the node's state, changed in place. */
  method Process(config: Config, env: TrustX, params: Parameters, state: SharedState) returns (a: Action<Decision>)
    modifies state
    ensures Step(a, state.entries) == Round(config, env, params, old(state.entries))
  {
    if ErrorParam in params {
      a := FailIn(env, state);
      return;
    }
    if InstanceIdKey in state.entries {
      var bearer := NodeReadString(state.entries, BearerTokenKey);
      var instance := NodeReadString(state.entries, InstanceIdKey);
      if bearer == Throws || instance == Throws {
        a := FailIn(env, state);
        return;
      }
      state.Remove(InstanceIdKey);
      state.Remove(BearerTokenKey);
      var doc := env.instanceStatus(AsReference(bearer), AsReference(instance));
      if doc == None {
        a := FailIn(env, state);
        return;
      }
      state.Put(StatusKey, Text(doc.value));
      var parsed := env.parseStatus(doc.value);
      if parsed == None || parsed.value.status == None {
        a := FailIn(env, state);
        return;
      }
      if parsed.value.status.value != CompletedStatus {
        return GoTo(FalseOutcome);
      }
      if config.getUserData {
        var data := env.userData(AsReference(bearer), parsed.value.processDefnId, AsReference(instance));
        if data == None {
          a := FailIn(env, state);
          return;
        }
        state.Put(UserDataKey, Text(data.value));
      }
      return GoTo(TrueOutcome);
    }
    var bearer := env.bearerToken(config.apiKey);
    if bearer == None {
      a := FailIn(env, state);
      return;
    }
    var token := env.processToken(bearer.value, NewProcessTokenRequest(config, env.uuid));
    if token == None {
      a := FailIn(env, state);
      return;
    }
    var info := env.processInstance(bearer.value, token.value);
    if info == None {
      a := FailIn(env, state);
      return;
    }
    var (url, instanceId) := info.value;
    state.Put(InstanceIdKey, Text(instanceId));
    state.Put(BearerTokenKey, Text(bearer.value));
    a := Send([Redirect(url, "GET", true)]);
  }

  method FailIn(env: TrustX, state: SharedState) returns (a: Action<Decision>)
    modifies state
    ensures Step(a, state.entries) == Fail(old(state.entries), env)
  {
    state.Put(ExceptionKey, Text(env.note));
    state.Put(StackTraceKey, Text(env.trace));
    a := GoTo(FalseOutcome);
  }
}
