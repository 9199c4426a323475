/** IdxAuthRequestNode: starts an IdentityX authentication for the user stored in
    the shared state and hands the new request's href on in a copy of the state. */
module AuthRequest {
  import opened Host
  import opened IdxCommon

  /** The outcome ids "Next" and "Error". */
  datatype InitiatorOutcome = NEXT | ERROR

  const ExceptionKey := "[IdentityX Auth Request Initiator Node][Partner] Exception"
  const Description := "OpenAM has Requested an Authentication."

  /** `isFidoRequest` and `sendPushNotification` both default to true. */
  datatype Config = Config(policyName: string, applicationId: string, isFidoRequest: bool, sendPushNotification: bool)

  datatype PushNotificationType = VerifyWithConfirmation

  /** The authentication request as `generateAuthenticationRequest` fills it in. */
  datatype Draft = Draft(
    user: Option<User>,
    policy: Option<Policy>,
    application: Option<Application>,
    description: string,
    requestType: string,
    oneTimePasswordEnabled: bool,
    authenticationRequestId: string,
    pushNotificationType: Option<PushNotificationType>)

  const EmptyDraft := Draft(None, None, None, "", "", false, "", None)

  /** The vendor and the environment during one round trip.
      - `singleton`: what the repository-factory singleton does when asked;
      - `decodeUser`: the stored user JSON read into a user (`None`: the reader
        threw; `Some(None)`: it read a null);
      - `listPolicies`: the active policies with a policy id (`None`: the call threw);
      - `listApplications`: the applications with an application id (`None`: the call threw);
      - `create`: the href of the request the vendor creates (`None`: the call threw);
      - `uuid`: the random id of the new request;
      - `note`: the text recorded for an exception. */
  datatype Vendor = Vendor(
    singleton: SingletonAnswer,
    decodeUser: string -> Option<Option<User>>,
    listPolicies: string -> Option<seq<Policy>>,
    listApplications: string -> Option<seq<Application>>,
    create: Draft -> Option<string>,
    uuid: string,
    note: string)

  datatype GenerateError = NullUser | PolicyListFailed | NoActivePolicy | ApplicationListFailed | NoApplication | CreateFailed

  /** The request sent for a user, a policy and an application: the fixed
      description, FI or IX, no one-time password, and a push notification only
      when it is configured. */
  function DraftFor(config: Config, user: User, policy: Policy, application: Application, uuid: string): (d: Draft)
    ensures d.user == Some(user) && d.policy == Some(policy) && d.application == Some(application)
    ensures d.requestType == AuthRequestType <==> config.isFidoRequest
    ensures d.requestType in {"FI", "IX"}
    ensures !d.oneTimePasswordEnabled
    ensures d.pushNotificationType.Some? <==> config.sendPushNotification
    ensures d.description == Description && d.authenticationRequestId == uuid
  {
    Draft(Some(user), Some(policy), Some(application), Description, if config.isFidoRequest then "FI" else "IX",
          false, uuid, if config.sendPushNotification then Some(VerifyWithConfirmation) else None)
  }

  /** `generateAuthenticationRequest`: the href of the created request, built from
      the first active policy and the first application. */
  function Generate(config: Config, v: Vendor, user: Option<User>): (r: Result<string, GenerateError>)
    ensures r.Ok? <==>
      user.Some? && v.listPolicies(config.policyName).Some? && |v.listPolicies(config.policyName).value| > 0
      && v.listApplications(config.applicationId).Some? && |v.listApplications(config.applicationId).value| > 0
      && v.create(DraftFor(config, user.value, v.listPolicies(config.policyName).value[0],
                           v.listApplications(config.applicationId).value[0], v.uuid)).Some?
    ensures r.Ok? ==> Some(r.value) == v.create(DraftFor(config, user.value, v.listPolicies(config.policyName).value[0],
                                                         v.listApplications(config.applicationId).value[0], v.uuid))
  {
    if user == None then Err(NullUser)
    else match v.listPolicies(config.policyName)
      case None => Err(PolicyListFailed)
      case Some(policies) =>
        if |policies| == 0 then Err(NoActivePolicy)
        else match v.listApplications(config.applicationId)
          case None => Err(ApplicationListFailed)
          case Some(applications) =>
            if |applications| == 0 then Err(NoApplication)
            else match v.create(DraftFor(config, user.value, policies[0], applications[0], v.uuid))
              case None => Err(CreateFailed)
              case Some(href) => Ok(href)
  }

  /** `process`: the stored user must be readable and the repository factory
      available; the new state is a copy with the href added. */
  function Round(config: Config, v: Vendor, st: State): (r: Step<InitiatorOutcome>)
    ensures r.action.GoTo? <==> r.action == GoTo(ERROR)
    ensures r.action.GoTo? ==> r.state == st[ExceptionKey := Text(v.note)]
    ensures r.action.GoToReplacing? <==>
      ReadString(st, UserKey).Str? && v.decodeUser(ReadString(st, UserKey).s).Some?
      && GetTenantRepoFactory(st, v.singleton).Ok?
      && Generate(config, v, v.decodeUser(ReadString(st, UserKey).s).value).Ok?
    ensures r.action.GoToReplacing? ==>
      r.action.outcome == NEXT && r.state == st
      && r.action.newState == st[HrefKey := Text(Generate(config, v, v.decodeUser(ReadString(st, UserKey).s).value).value)]
    ensures !r.action.Send?
  {
    var fail := Step(GoTo(ERROR), st[ExceptionKey := Text(v.note)]);
    var stored := ReadString(st, UserKey);
    if !stored.Str? then fail
    else match v.decodeUser(stored.s)
      case None => fail
      case Some(user) =>
        if GetTenantRepoFactory(st, v.singleton).Err? then fail
        else match Generate(config, v, user)
          case Err(_) => fail
          case Ok(href) => Step(GoToReplacing(NEXT, st[HrefKey := Text(href)]), st)
  }

  // ---------------------------------------------------------------- properties

  /** A stored user that is missing, null, not a string, unreadable or read as
      null routes Error. */
  lemma UnreadableUserErrors(config: Config, v: Vendor, st: State)
    requires !ReadString(st, UserKey).Str? || v.decodeUser(ReadString(st, UserKey).s) == None
             || v.decodeUser(ReadString(st, UserKey).s) == Some(None)
    ensures Round(config, v, st) == Step(GoTo(ERROR), st[ExceptionKey := Text(v.note)])
  {
  }

  /** A credential key the factory needs that is missing from the state routes Error. */
  lemma MissingCredentialErrors(config: Config, v: Vendor, st: State, k: nat)
    requires k < |CredentialKeys| && CredentialKeys[k] !in st
    ensures Round(config, v, st).action == GoTo(ERROR)
  {
    assert FirstUnreadable(st, CredentialKeys) <= k;
  }

  /** An empty policy list or an empty application list routes Error. */
  lemma EmptyListsError(config: Config, v: Vendor, st: State)
    requires v.listPolicies(config.policyName) == Some([]) || v.listApplications(config.applicationId) == Some([])
    ensures Round(config, v, st).action == GoTo(ERROR)
  {
  }

  /** On Next the vendor has been asked for a request built from the first policy and
      the first application, and the state handed on is the old one plus its href. */
  lemma NextUsesFirstItems(config: Config, v: Vendor, st: State)
    requires Round(config, v, st).action.GoToReplacing?
    ensures var user := v.decodeUser(ReadString(st, UserKey).s).value.value;
            var policy := v.listPolicies(config.policyName).value[0];
            var application := v.listApplications(config.applicationId).value[0];
            var d := DraftFor(config, user, policy, application, v.uuid);
            v.create(d).Some? && d.requestType == (if config.isFidoRequest then "FI" else "IX")
            && Round(config, v, st).action.newState == st[HrefKey := Text(v.create(d).value)]
  {
  }

  /** Next is reached exactly when the stored user reads, the repository factory is
      available and the request is created; the state handed on is then the old
      one plus the new request's href. */
  lemma NextIffRequestCreated(config: Config, v: Vendor, st: State, s: string, u: Option<User>)
    requires ReadString(st, UserKey) == Str(s) && v.decodeUser(s) == Some(u)
    ensures Round(config, v, st).action.GoToReplacing? <==>
              GetTenantRepoFactory(st, v.singleton).Ok? && Generate(config, v, u).Ok?
    ensures GetTenantRepoFactory(st, v.singleton).Ok? && Generate(config, v, u).Ok? ==>
              Round(config, v, st) == Step(GoToReplacing(NEXT, st[HrefKey := Text(Generate(config, v, u).value)]), st)
  {
  }

  // ---------------------------------------------------------------- the request, filled in place

  /** `generateAuthenticationRequest`, filling the request one setter at a time. */
  method GenerateAuthenticationRequest(config: Config, v: Vendor, user: Option<User>) returns (r: Result<string, GenerateError>)
    ensures r == Generate(config, v, user)
  {
    var request := EmptyDraft;
    if user == None {
      return Err(NullUser);
    }
    request := request.(user := user);
    var policies := v.listPolicies(config.policyName);
    if policies == None {
      return Err(PolicyListFailed);
    }
    if |policies.value| == 0 {
      return Err(NoActivePolicy);
    }
    request := request.(policy := Some(policies.value[0]));
    var applications := v.listApplications(config.applicationId);
    if applications == None {
      return Err(ApplicationListFailed);
    }
    if |applications.value| == 0 {
      return Err(NoApplication);
    }
    request := request.(application := Some(applications.value[0]));
    request := request.(description := Description);
    var txnRequestType := "FI";
    if !config.isFidoRequest {
      txnRequestType := "IX";
    }
    request := request.(requestType := txnRequestType);
    request := request.(oneTimePasswordEnabled := false);
    request := request.(authenticationRequestId := v.uuid);
    if config.sendPushNotification {
      request := request.(pushNotificationType := Some(VerifyWithConfirmation));
    }
    var href := v.create(request);
    if href == None {
      return Err(CreateFailed);
    }
    r := Ok(href.value);
  }

  /** `process` on the shared state: an error is recorded in place, a success
      replaces the state with a copy. */
  method Process(config: Config, v: Vendor, state: SharedState) returns (a: Action<InitiatorOutcome>)
    modifies state
    ensures Step(a, state.entries) == Round(config, v, old(state.entries))
  {
    var stored := ReadString(state.entries, UserKey);
    var user: Option<User> := None;
    var ok := false;
    if stored.Str? {
      var decoded := v.decodeUser(stored.s);
      if decoded.Some? && GetTenantRepoFactory(state.entries, v.singleton).Ok? {
        user := decoded.value;
        ok := true;
      }
    }
    if ok {
      var href := GenerateAuthenticationRequest(config, v, user);
      if href.Ok? {
        var newState := state.entries[HrefKey := Text(href.value)];
        return GoToReplacing(NEXT, newState);
      }
    }
    state.Put(ExceptionKey, Text(v.note));
    a := GoTo(ERROR);
  }
}
