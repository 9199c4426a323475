/** IdxMobileAuthRequestNode: creates (or fetches) an IdentityX authentication
    request for a mobile client, shows it to the client as JSON and collects the
    client's FIDO response on the next round trip. */
module MobileAuthRequest {
  import opened Host
  import opened Text
  import opened IdxCommon

  datatype MobileOutcome = NEXT | ERROR

  const ResponsePrompt := "Please provide the Daon Fido Response"

  /** `transactionDescription` defaults to "OpenAM has Requested an Authentication".
      `logAppender` is the plugin's log suffix, a constant of a class that is not
      part of this model; the exception keys are built from it. */
  datatype Config = Config(policyName: string, applicationId: string, transactionDescription: string, logAppender: string)

  function ExceptionKey(config: Config): string
  {
    "[IdentityX Mobile Auth Request]" + config.logAppender + "Exception"
  }

  function StackTraceKey(config: Config): string
  {
    "[IdentityX Mobile Auth Request]" + config.logAppender + "StackTrace"
  }

  /** The authentication request `createAuthRequest` sends: the user by user id,
      the configured application, a policy of that application by the configured
      name, the description, the type and the host user name as server data. */
  datatype NewAuthRequest = NewAuthRequest(
    userId: string,
    application: Application,
    policyId: string,
    policyApplication: Application,
    description: string,
    requestType: string,
    serverData: Option<string>)

  function NewRequest(config: Config, userId: string, serverData: Option<string>): (r: NewAuthRequest)
    ensures r.requestType == AuthRequestType && r.description == config.transactionDescription
    ensures r.userId == userId && r.application == Application(config.applicationId) && r.policyId == config.policyName
    ensures r.policyApplication == r.application && r.serverData == serverData
  {
    var application := Application(config.applicationId);
    NewAuthRequest(userId, application, config.policyName, application, config.transactionDescription,
                   AuthRequestType, serverData)
  }

  /** The vendor and the environment during one round trip (`None`: the call
      threw or returned null).
      - `factory`: the tenant repository factory;
      - `create`: the request the vendor creates;
      - `get`: the request an href names;
      - `note`/`trace`: the texts recorded for an exception and its stack trace. */
  datatype Vendor = Vendor(
    factory: Option<TenantRepoFactory>,
    create: NewAuthRequest -> Option<AuthenticationRequest>,
    get: string -> Option<AuthenticationRequest>,
    note: string,
    trace: string)

  // ---------------------------------------------------------------- the client's replies

  predicate HasTextOutput(replies: seq<Reply>)
  {
    exists i :: 0 <= i < |replies| && replies[i].TextOutputReply?
  }

  /** The client returned both a text output and a text input. */
  predicate Answered(replies: seq<Reply>)
  {
    HasTextOutput(replies) && exists i :: 0 <= i < |replies| && replies[i].TextInputReply?
  }

  /** The value the first text-input reply carries (its text, or null), if there is one. */
  function InputValue(replies: seq<Reply>): (r: Option<Value>)
    ensures r.Some? <==> exists i :: 0 <= i < |replies| && replies[i].TextInputReply?
  {
    if replies == [] then None
    else if replies[0].TextInputReply? then
      Some(if replies[0].text.Some? then Text(replies[0].text.value) else Null)
    else
      InputAfterOther(replies);
      InputValue(replies[1..])
  }

  lemma InputAfterOther(replies: seq<Reply>)
    requires replies != [] && !replies[0].TextInputReply?
    ensures (exists i :: 0 <= i < |replies| && replies[i].TextInputReply?)
            <==> (exists i :: 0 <= i < |replies[1..]| && replies[1..][i].TextInputReply?)
  {
    if exists i :: 0 <= i < |replies| && replies[i].TextInputReply? {
      var i :| 0 <= i < |replies| && replies[i].TextInputReply?;
      assert replies[1..][i - 1] == replies[i];
    }
    if exists i :: 0 <= i < |replies[1..]| && replies[1..][i].TextInputReply? {
      var i :| 0 <= i < |replies[1..]| && replies[1..][i].TextInputReply?;
      assert replies[i + 1] == replies[1..][i];
    }
  }

  // ---------------------------------------------------------------- the callback JSON

  /** The fields of the JSON shown to the client: the request's href, id, challenge
      and FIDO request, and the stored response with the request's response code
      and message only when a response is stored and not empty. */
  function CallbackFields(request: AuthenticationRequest, stored: StringRead): (fields: seq<(string, string)>)
    requires stored != Throws
    ensures |fields| == (if stored.Str? && stored.s != "" then 7 else 4)
    ensures fields[..4] == [("href", request.href), ("id", request.id), ("fidoChallenge", request.fidoChallenge),
                            ("fidoAuthenticationRequest", request.fidoAuthenticationRequest)]
    ensures |fields| == 7 ==> fields[4..] == [("fidoAuthenticationResponse", stored.s),
                                              ("fidoResponseCode", request.fidoResponseCode),
                                              ("fidoResponseMsg", request.fidoResponseMsg)]
    ensures forall i, j :: 0 <= i < j < |fields| ==> fields[i].0 != fields[j].0
  {
    var base := [("href", request.href), ("id", request.id), ("fidoChallenge", request.fidoChallenge),
                 ("fidoAuthenticationRequest", request.fidoAuthenticationRequest)];
    if stored.Str? && stored.s != "" then
      base + [("fidoAuthenticationResponse", stored.s), ("fidoResponseCode", request.fidoResponseCode),
              ("fidoResponseMsg", request.fidoResponseMsg)]
    else base
  }

  /** The response travels in the JSON exactly when one is stored and not empty. */
  lemma ResponseShownIffStored(request: AuthenticationRequest, stored: StringRead)
    requires stored != Throws
    ensures (exists i :: 0 <= i < |CallbackFields(request, stored)| && CallbackFields(request, stored)[i].0 == "fidoAuthenticationResponse")
            <==> stored.Str? && stored.s != ""
  {
    var fields := CallbackFields(request, stored);
    if stored.Str? && stored.s != "" {
      assert fields[4].0 == "fidoAuthenticationResponse";
    } else {
      assert fields == fields[..4];
    }
  }

  // ---------------------------------------------------------------- process

  function Fail(config: Config, v: Vendor, st: State): Step<MobileOutcome>
  {
    Step(GoTo(ERROR), st[ExceptionKey(config) := Text(v.note)][StackTraceKey(config) := Text(v.trace)])
  }

  /** The request to show: a new one when no href is stored (or it is blank), the
      stored one otherwise (`None`: something threw on the way). */
  function FinalRequest(config: Config, v: Vendor, userId: string, href: StringRead, st: State): (r: Option<AuthenticationRequest>)
    requires href != Throws
    ensures r.Some? ==> v.factory.Some?
    ensures (href == Missing || IsBlank(href.s)) && r.Some? ==>
              NodeReadString(st, Username) != Throws &&
              r == v.create(NewRequest(config, userId, if NodeReadString(st, Username).Str? then Some(NodeReadString(st, Username).s) else None))
    ensures href.Str? && !IsBlank(href.s) ==> r == (if v.factory.Some? then v.get(href.s) else None)
  {
    if href == Missing || IsBlank(href.s) then
      var serverData := NodeReadString(st, Username);
      if serverData == Throws || v.factory == None then None
      else v.create(NewRequest(config, userId, if serverData.Str? then Some(serverData.s) else None))
    else if v.factory == None then None
    else v.get(href.s)
  }

  /** `process`. `replies` are the callbacks the client returned (empty on the first visit). */
  function Round(config: Config, v: Vendor, replies: seq<Reply>, st: State): (r: Step<MobileOutcome>)
    ensures r.action.GoTo? || r.action.Send?
    ensures r.action == GoTo(ERROR) ==> r.state == Fail(config, v, st).state
    ensures r.action.Send? ==>
      |r.action.callbacks| == 2 && r.action.callbacks[0] == TextInput(ResponsePrompt, "{}")
      && r.action.callbacks[1].TextOutput? && r.action.callbacks[1].messageType == Information
      && r.action.callbacks[1].message.JsonObject?
      && |r.action.callbacks[1].message.fields| >= 4
      && HrefKey in r.state && r.state[HrefKey] == Text(r.action.callbacks[1].message.fields[0].1)
      && r.state == st[HrefKey := r.state[HrefKey]]
    ensures r.action.Send? <==>
              NodeReadString(st, HrefKey) != Throws && !Answered(replies) &&
              NodeReadString(st, UserIdKey).Str? && !IsBlank(NodeReadString(st, UserIdKey).s) &&
              FinalRequest(config, v, NodeReadString(st, UserIdKey).s, NodeReadString(st, HrefKey), st).Some? &&
              NodeReadString(st, AuthResponseKey) != Throws
    ensures r.action == GoTo(NEXT) <==> NodeReadString(st, HrefKey) != Throws && Answered(replies)
  {
    var href := NodeReadString(st, HrefKey);
    if href == Throws then Fail(config, v, st)
    else if replies != [] && HasTextOutput(replies) && InputValue(replies).Some? then
      Step(GoTo(NEXT), st[AuthResponseKey := InputValue(replies).value])
    else
      var userId := NodeReadString(st, UserIdKey);
      if !userId.Str? || IsBlank(userId.s) then Fail(config, v, st)
      else match FinalRequest(config, v, userId.s, href, st)
        case None => Fail(config, v, st)
        case Some(request) =>
          var stored := NodeReadString(st, AuthResponseKey);
          if stored == Throws then Fail(config, v, st)
          else
            Step(Send([TextInput(ResponsePrompt, "{}"),
                       TextOutput(Information, JsonObject(CallbackFields(request, stored)))]),
                 st[HrefKey := Text(request.href)])
  }

  // ---------------------------------------------------------------- properties

  /** With both a text output and a text input returned, the input is stored as the
      response and the node moves on. */
  lemma RepliesRouteNext(config: Config, v: Vendor, replies: seq<Reply>, st: State)
    requires NodeReadString(st, HrefKey) != Throws
    requires HasTextOutput(replies) && exists i :: 0 <= i < |replies| && replies[i].TextInputReply?
    ensures Round(config, v, replies, st) == Step(GoTo(NEXT), st[AuthResponseKey := InputValue(replies).value])
  {
  }

  /** Unless the client answered, a missing or blank user id is an error. */
  lemma BlankUserIdErrors(config: Config, v: Vendor, replies: seq<Reply>, st: State)
    requires NodeReadString(st, HrefKey) != Throws && !Answered(replies)
    requires !NodeReadString(st, UserIdKey).Str? || IsBlank(NodeReadString(st, UserIdKey).s)
    ensures Round(config, v, replies, st) == Fail(config, v, st)
  {
  }

  /** Unless the client answered, a request that cannot be created or fetched, or a
      stored response that cannot be read, is an error. */
  lemma RequestFailureErrors(config: Config, v: Vendor, replies: seq<Reply>, st: State, userId: string)
    requires NodeReadString(st, HrefKey) != Throws && !Answered(replies)
    requires NodeReadString(st, UserIdKey) == Str(userId) && !IsBlank(userId)
    requires FinalRequest(config, v, userId, NodeReadString(st, HrefKey), st) == None
             || NodeReadString(st, AuthResponseKey) == Throws
    ensures Round(config, v, replies, st) == Fail(config, v, st)
  {
  }

  /** `NodeState.get` answers null for a key no state defines, and the node reads
      the href before anything else: with no href stored at all it is an error. */
  lemma NoStoredHrefErrors(config: Config, v: Vendor, replies: seq<Reply>, st: State)
    requires HrefKey !in st
    ensures Round(config, v, replies, st) == Fail(config, v, st)
  {
  }

  /** A blank stored href makes a new request of type FI with the configured
      description; the client is shown that request and its href is stored. */
  lemma BlankHrefCreates(config: Config, v: Vendor, st: State, userId: string, created: AuthenticationRequest)
    requires HrefKey in st && (st[HrefKey] == Null || (st[HrefKey].Text? && IsBlank(st[HrefKey].s)))
    requires NodeReadString(st, UserIdKey) == Str(userId) && !IsBlank(userId)
    requires NodeReadString(st, Username) != Throws && v.factory.Some? && NodeReadString(st, AuthResponseKey) != Throws
    requires v.create(NewRequest(config, userId, if NodeReadString(st, Username).Str? then Some(NodeReadString(st, Username).s) else None))
             == Some(created)
    ensures var r := Round(config, v, [], st);
            r.action.Send? && r.state[HrefKey] == Text(created.href)
            && r.action.callbacks[1].message.fields == CallbackFields(created, NodeReadString(st, AuthResponseKey))
  {
  }

  /** A stored href that is not blank makes the node fetch that request instead of
      creating one. */
  lemma StoredHrefFetches(config: Config, v: Vendor, st: State, href: string, fetched: AuthenticationRequest)
    requires NodeReadString(st, HrefKey) == Str(href) && !IsBlank(href)
    requires NodeReadString(st, UserIdKey).Str? && !IsBlank(NodeReadString(st, UserIdKey).s)
    requires v.factory.Some? && v.get(href) == Some(fetched) && NodeReadString(st, AuthResponseKey) != Throws
    ensures var r := Round(config, v, [], st);
            r.action.Send? && r.state[HrefKey] == Text(fetched.href)
            && r.action.callbacks[1].message.fields == CallbackFields(fetched, NodeReadString(st, AuthResponseKey))
  {
  }

  // ---------------------------------------------------------------- the node, in place

  /** `process` on the node's state, changed in place; the JSON and the callback
      list are built one `put`/`add` at a time. */
  method Process(config: Config, v: Vendor, replies: seq<Reply>, state: SharedState) returns (a: Action<MobileOutcome>)
    modifies state
    ensures Step(a, state.entries) == Round(config, v, replies, old(state.entries))
  {
    var href := NodeReadString(state.entries, HrefKey);
    if href == Throws {
      a := FailIn(config, v, state);
      return;
    }
    if replies != [] && HasTextOutput(replies) && InputValue(replies).Some? {
      state.Put(AuthResponseKey, InputValue(replies).value);
      return GoTo(NEXT);
    }
    var userId := NodeReadString(state.entries, UserIdKey);
    if !userId.Str? || IsBlank(userId.s) {
      a := FailIn(config, v, state);
      return;
    }
    var request := FinalRequest(config, v, userId.s, href, state.entries);
    if request == None {
      a := FailIn(config, v, state);
      return;
    }
    var stored := NodeReadString(state.entries, AuthResponseKey);
    if stored == Throws {
      a := FailIn(config, v, state);
      return;
    }
    var r := request.value;
    var fields := [("href", r.href), ("id", r.id), ("fidoChallenge", r.fidoChallenge),
                   ("fidoAuthenticationRequest", r.fidoAuthenticationRequest)];
    if stored.Str? && stored.s != "" {
      fields := fields + [("fidoAuthenticationResponse", stored.s)];
      fields := fields + [("fidoResponseCode", r.fidoResponseCode)];
      fields := fields + [("fidoResponseMsg", r.fidoResponseMsg)];
    }
    assert fields == CallbackFields(r, stored);
    var callbacks: seq<Callback> := [];
    callbacks := callbacks + [TextInput(ResponsePrompt, "{}")];
    callbacks := callbacks + [TextOutput(Information, JsonObject(fields))];
    state.Put(HrefKey, Text(r.href));
    a := Send(callbacks);
  }

  method FailIn(config: Config, v: Vendor, state: SharedState) returns (a: Action<MobileOutcome>)
    modifies state
    ensures Step(a, state.entries) == Fail(config, v, old(state.entries))
  {
    state.Put(ExceptionKey(config), Text(v.note));
    state.Put(StackTraceKey(config), Text(v.trace));
    a := GoTo(ERROR);
  }
}
