/** IdxMobileValidateAuthRequestNode: sends the FIDO authentication response the
    mobile client returned to IdentityX and routes on the status of the updated
    authentication request. */
module MobileValidate {
  import opened Host
  import opened IdxCommon

  datatype ValidateOutcome = TRUE | FALSE | ERROR

  const ExceptionKey := "[IdentityX Mobile Auth Request Validate][Marketplace] Exception"
  /** The stack-trace key, spelled as the node spells it. */
  const StackTraceKey := "[IdentityX Mobile Auth Request Validate][Marketplace] StackTracke"

  /** `expectedStatus`, one of the vendor's request statuses. */
  datatype Config = Config(expectedStatus: string)

  const DefaultConfig := Config("COMPLETED_SUCCESSFUL")

  /** What parsing the stored response as a JSON object gives: not an object, or an
      object whose `fidoAuthenticationResponse` property is or is not a string. */
  datatype JsonParse = NotJson | Object(property: Option<string>)

  /** The answer of a vendor repository call: an IdentityX REST exception, any
      other exception, or a value. */
  datatype Call<T> = RestError | OtherError | Answered(value: T)

  /** The vendor and the environment during one round trip.
      - `factory`: the tenant repository factory (`None`: it threw);
      - `get`: the authentication request an href names (the href may be null; `None`: no request);
      - `update`: the request as stored after sending it back with the response;
      - `parse`: the JSON reading of a string;
      - `note`/`trace`: the texts recorded for an exception and its stack trace. */
  datatype Vendor = Vendor(
    factory: Option<TenantRepoFactory>,
    get: Option<string> -> Call<Option<AuthenticationRequest>>,
    update: AuthenticationRequest -> Call<AuthenticationRequest>,
    parse: string -> JsonParse,
    note: string,
    trace: string)

  /** The response to send: the JSON property when the stored text is an object whose
      property is a non-empty string, the stored text itself otherwise. */
  function ResponseToSend(stored: string, parse: string -> JsonParse): (sent: string)
    ensures sent != stored ==> parse(stored).Object? && parse(stored).property == Some(sent) && sent != ""
    ensures (parse(stored).Object? && parse(stored).property.Some? && parse(stored).property.value != "") ==>
              sent == parse(stored).property.value
  {
    match parse(stored)
    case Object(Some(p)) => if p == "" then stored else p
    case _ => stored
  }

  function Fail(v: Vendor, st: State): Step<ValidateOutcome>
  {
    Step(GoTo(ERROR), st[ExceptionKey := Text(v.note)][StackTraceKey := Text(v.trace)])
  }

  /** `validateAuthResponse`, with the exceptions it lets escape routed as `process`
      routes them: a REST exception is a plain FALSE, anything else an ERROR. */
  function Validation(config: Config, v: Vendor, response: string, st: State): (r: Step<ValidateOutcome>)
    ensures r.action.GoTo?
    ensures r.action.outcome == FALSE ==> r.state == st
    ensures r.action.outcome == TRUE ==>
      var href := NodeReadString(st, HrefKey);
      var fetched := v.get(if href.Str? then Some(href.s) else None);
      href != Throws && fetched.Answered? && fetched.value.Some?
      && var updated := v.update(fetched.value.value.(fidoAuthenticationResponse := response));
         updated.Answered? && updated.value.status == config.expectedStatus
         && r.state == st[HrefKey := Text(updated.value.href)][AuthResponseKey := Text(updated.value.fidoAuthenticationResponse)]
  {
    var href := NodeReadString(st, HrefKey);
    if href == Throws || v.factory == None then Fail(v, st)
    else match v.get(if href.Str? then Some(href.s) else None)
      case RestError => Step(GoTo(FALSE), st)
      case OtherError => Fail(v, st)
      case Answered(None) => Step(GoTo(FALSE), st)
      case Answered(Some(request)) =>
        match v.update(request.(fidoAuthenticationResponse := response))
        case RestError => Step(GoTo(FALSE), st)
        case OtherError => Fail(v, st)
        case Answered(updated) =>
          if updated.status == config.expectedStatus then
            Step(GoTo(TRUE), st[HrefKey := Text(updated.href)][AuthResponseKey := Text(updated.fidoAuthenticationResponse)])
          else Step(GoTo(FALSE), st)
  }

  /** `process`: the stored response must be a string (a missing or null one makes
      the JSON parser throw), then it is validated. */
  function Round(config: Config, v: Vendor, st: State): (r: Step<ValidateOutcome>)
    ensures r.action.GoTo?
    ensures r.action.outcome == ERROR ==> r.state == st[ExceptionKey := Text(v.note)][StackTraceKey := Text(v.trace)]
    ensures r.action.outcome != ERROR ==> NodeReadString(st, AuthResponseKey).Str?
  {
    match NodeReadString(st, AuthResponseKey)
    case Str(stored) => Validation(config, v, ResponseToSend(stored, v.parse), st)
    case _ => Fail(v, st)
  }

  // ---------------------------------------------------------------- properties

  /** The client's answer is unwrapped from its JSON envelope when there is one,
      and sent as it is when there is none. */
  lemma ExtractionFallback(stored: string, parse: string -> JsonParse)
    ensures parse(stored) == NotJson ==> ResponseToSend(stored, parse) == stored
    ensures parse(stored) == Object(None) ==> ResponseToSend(stored, parse) == stored
    ensures parse(stored) == Object(Some("")) ==> ResponseToSend(stored, parse) == stored
    ensures forall p :: p != "" && parse(stored) == Object(Some(p)) ==> ResponseToSend(stored, parse) == p
  {
  }

  /** An href naming no request gives FALSE and leaves the state alone. */
  lemma NullRequestIsFalse(config: Config, v: Vendor, st: State, stored: string)
    requires NodeReadString(st, AuthResponseKey) == Str(stored) && NodeReadString(st, HrefKey) != Throws
    requires v.factory.Some?
    requires v.get(if NodeReadString(st, HrefKey).Str? then Some(NodeReadString(st, HrefKey).s) else None) == Answered(None)
    ensures Round(config, v, st) == Step(GoTo(FALSE), st)
  {
  }

  /** TRUE exactly when the updated request has the expected status. */
  lemma TrueIffExpectedStatus(config: Config, v: Vendor, st: State, stored: string, request: AuthenticationRequest)
    requires NodeReadString(st, AuthResponseKey) == Str(stored) && NodeReadString(st, HrefKey) != Throws
    requires v.factory.Some?
    requires v.get(if NodeReadString(st, HrefKey).Str? then Some(NodeReadString(st, HrefKey).s) else None) == Answered(Some(request))
    requires v.update(request.(fidoAuthenticationResponse := ResponseToSend(stored, v.parse))).Answered?
    ensures var updated := v.update(request.(fidoAuthenticationResponse := ResponseToSend(stored, v.parse))).value;
            Round(config, v, st).action == GoTo(TRUE) <==> updated.status == config.expectedStatus
  {
  }

  /** A REST exception from the vendor, in the lookup or in the update, routes FALSE
      with the state unchanged; any other exception, and a factory that cannot be
      built, routes ERROR with the exception and its stack trace recorded. */
  lemma RestErrorIsFalse(config: Config, v: Vendor, st: State, stored: string)
    requires NodeReadString(st, AuthResponseKey) == Str(stored) && NodeReadString(st, HrefKey) != Throws
    ensures v.factory == None ==> Round(config, v, st) == Fail(v, st)
    ensures var fetched := v.get(if NodeReadString(st, HrefKey).Str? then Some(NodeReadString(st, HrefKey).s) else None);
            v.factory.Some? ==>
              (fetched == RestError ==> Round(config, v, st) == Step(GoTo(FALSE), st))
              && (fetched == OtherError ==> Round(config, v, st) == Fail(v, st))
    ensures var fetched := v.get(if NodeReadString(st, HrefKey).Str? then Some(NodeReadString(st, HrefKey).s) else None);
            v.factory.Some? && fetched.Answered? && fetched.value.Some? ==>
              var updated := v.update(fetched.value.value.(fidoAuthenticationResponse := ResponseToSend(stored, v.parse)));
              (updated == RestError ==> Round(config, v, st) == Step(GoTo(FALSE), st))
              && (updated == OtherError ==> Round(config, v, st) == Fail(v, st))
  {
  }

  /** The state changes only on TRUE, which writes the href and the response, and on ERROR. */
  lemma WritesOnlyOnSuccess(config: Config, v: Vendor, st: State)
    ensures var r := Round(config, v, st);
            r.action.outcome == FALSE ==> r.state == st
    ensures var r := Round(config, v, st);
            r.action.outcome == TRUE ==> r.state.Keys == st.Keys + {HrefKey, AuthResponseKey}
                                          && forall k :: k in st && k != HrefKey && k != AuthResponseKey ==> r.state[k] == st[k]
  {
  }

  // ---------------------------------------------------------------- the node, in place

  /** `process`: the response is extracted into locals step by step, then validated. */
  method Process(config: Config, v: Vendor, state: SharedState) returns (a: Action<ValidateOutcome>)
    modifies state
    ensures Step(a, state.entries) == Round(config, v, old(state.entries))
  {
    var raw := NodeReadString(state.entries, AuthResponseKey);
    if !raw.Str? {
      a := FailIn(v, state);
      return;
    }
    var test: Option<string> := None;
    var isJsonOk := false;
    var obj := v.parse(raw.s);
    if obj.Object? && obj.property.Some? {
      test := obj.property;
      isJsonOk := true;
    }
    if test == None || test.value == "" || !isJsonOk {
      test := Some(raw.s);
    }
    a := ValidateIn(config, v, test.value, state);
  }

  /** `validateAuthResponse` on the node's state, changed in place. */
  method ValidateIn(config: Config, v: Vendor, response: string, state: SharedState) returns (a: Action<ValidateOutcome>)
    modifies state
    ensures Step(a, state.entries) == Validation(config, v, response, old(state.entries))
  {
    var href := NodeReadString(state.entries, HrefKey);
    if href == Throws || v.factory == None {
      a := FailIn(v, state);
      return;
    }
    var fetched := v.get(if href.Str? then Some(href.s) else None);
    if fetched == OtherError {
      a := FailIn(v, state);
      return;
    }
    if fetched == RestError || fetched.value == None {
      return GoTo(FALSE);
    }
    var updated := v.update(fetched.value.value.(fidoAuthenticationResponse := response));
    if updated == OtherError {
      a := FailIn(v, state);
      return;
    }
    if updated == RestError || updated.value.status != config.expectedStatus {
      return GoTo(FALSE);
    }
    state.Put(HrefKey, Text(updated.value.href));
    state.Put(AuthResponseKey, Text(updated.value.fidoAuthenticationResponse));
    a := GoTo(TRUE);
  }

  method FailIn(v: Vendor, state: SharedState) returns (a: Action<ValidateOutcome>)
    modifies state
    ensures Step(a, state.entries) == Fail(v, old(state.entries))
  {
    state.Put(ExceptionKey, Text(v.note));
    state.Put(StackTraceKey, Text(v.trace));
    a := GoTo(ERROR);
  }
}
