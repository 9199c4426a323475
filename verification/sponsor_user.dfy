/** IdxSponsorUser: enrols a user on the IdentityX mobile app. The first round
    creates a sponsorship and shows its QR code; every later round asks the
    vendor for the sponsorship's status and, until it is COMPLETED, polls again
    while the poll budget kept in the shared state lasts. A cancel button ends
    the polling at any round. */
module SponsorUser {
  import opened Host
  import opened Text
  import opened IdxCommon

  const QrKey := "idx-qr-key"
  const PollTimesKey := "idx-poll-times-remaining"
  const SponsorshipHrefKey := "idx-sponsorship-href"

  /** Where the error route records the exception (the node's logger prefix + "Exception"). */
  const ExceptionKey := "[IdentityX Sponsor User Node][Marketplace] Exception"

  const WaitMessage := "Waiting for Enrollment to Complete..."

  datatype SponsorOutcome = TRUE | FALSE | CANCEL | ERROR

  datatype Config = Config(
    enrollmentPolicyName: string,
    applicationId: string,
    pollingWaitInterval: int32,   // seconds
    numberOfTimesToPoll: int32,
    messageText: string)

  /** A new sponsorship of type USER, for the user, with a fresh registration id. */
  datatype SponsorshipRequest = SponsorshipRequest(
    userId: string, registrationId: string, policy: Policy, application: Application)

  /** A sponsorship as the vendor creates it. */
  datatype Sponsorship = Sponsorship(href: string, sponsorshipToken: string, authenticationGatewayUrl: string)

  /** The answers of the vendor and of the environment during one round trip
      (`None`: the call threw).
      - `factory`: the tenant repository factory;
      - `listPolicies`/`listApplications`: the active policies with a policy id, the applications with an application id;
      - `create`: the sponsorship the vendor creates for a request;
      - `registrationId`: the random UUID of a new request;
      - `status`: the status of the sponsorship an href names (`Some(None)`: no status);
      - `qrScript`: the host's QR-code script for a text;
      - `note`: the text recorded for an exception. */
  datatype Vendor = Vendor(
    factory: Option<TenantRepoFactory>,
    listPolicies: string -> Option<seq<Policy>>,
    listApplications: string -> Option<seq<Application>>,
    create: SponsorshipRequest -> Option<Sponsorship>,
    registrationId: string,
    status: string -> Option<Option<string>>,
    qrScript: string -> string,
    note: string)

  // ---------------------------------------------------------------- QR text

  const SponsorPrefix := "identityx://sponsor?SC="

  /** The text the QR code carries: the sponsorship code, and for a legacy IdentityX
      enrollment (IE) policy also the gateway, with "//api." rewritten to "//idx-api.". */
  function QrText(sp: Sponsorship, policyType: Option<PolicyType>): (text: string)
    ensures SponsorPrefix <= text
  {
    if policyType == Some(IE) then
      var tail := sp.sponsorshipToken + "&KM=" + sp.authenticationGatewayUrl + "&TC=";
      RewriteKeepsPrefix(tail);
      Replace(SponsorPrefix + tail, "//api.", "//idx-api.")
    else SponsorPrefix + sp.sponsorshipToken
  }

  /** The gateway rewrite leaves the fixed prefix in place, whatever follows it. */
  lemma RewriteKeepsPrefix(tail: string)
    ensures Replace(SponsorPrefix + tail, "//api.", "//idx-api.") ==
            SponsorPrefix + Replace(tail, "//api.", "//idx-api.")
  {
    var scheme, mid := "identityx:", "sponsor?SC=";
    assert SponsorPrefix == scheme + "//" + mid;
    ReplaceSkipsSchemeSlashes(scheme, mid, tail, "//api.", "//idx-api.");
    assert scheme + "//" + mid + tail == SponsorPrefix + tail;
  }

  /** For any policy but IE the QR text is the sponsorship code alone. */
  lemma QrTextCodeOnly(sp: Sponsorship, policyType: Option<PolicyType>)
    requires policyType != Some(IE)
    ensures QrText(sp, policyType) == SponsorPrefix + sp.sponsorshipToken
    ensures |QrText(sp, policyType)| == |SponsorPrefix| + |sp.sponsorshipToken|
  {
  }

  /** For an IE policy the rewrite touches neither the fixed prefix nor a slash-free
      code: only the gateway part (and the "&TC=" after it) is rewritten. */
  lemma {:induction false} QrTextWithGateway(sp: Sponsorship)
    requires '/' !in sp.sponsorshipToken
    ensures QrText(sp, Some(IE)) ==
            SponsorPrefix + sp.sponsorshipToken + "&KM=" + Replace(sp.authenticationGatewayUrl + "&TC=", "//api.", "//idx-api.")
  {
    var pat, rep := "//api.", "//idx-api.";
    var head := sp.sponsorshipToken + "&KM=";
    var gateway := sp.authenticationGatewayUrl + "&TC=";
    assert '/' !in head by {
      assert forall c :: c in head ==> c in sp.sponsorshipToken || c in "&KM=";
    }
    ReplaceSkipsPrefix(head, gateway, pat, rep);
    assert sp.sponsorshipToken + "&KM=" + sp.authenticationGatewayUrl + "&TC=" == head + gateway;
    RewriteKeepsPrefix(head + gateway);
    assert SponsorPrefix + (head + Replace(gateway, pat, rep)) ==
           SponsorPrefix + sp.sponsorshipToken + "&KM=" + Replace(gateway, pat, rep);
  }

  /** A gateway "<scheme>//api.<rest>" is shown as "<scheme>//idx-api.<rest>". */
  lemma {:induction false} GatewayRewrite(scheme: string, rest: string)
    requires '/' !in scheme && '/' !in rest
    ensures Replace(scheme + "//api." + rest + "&TC=", "//api.", "//idx-api.") == scheme + "//idx-api." + rest + "&TC="
  {
    var pat, rep := "//api.", "//idx-api.";
    ReplaceOnce(scheme, rest + "&TC=", pat, rep);
    assert scheme + pat + rest + "&TC=" == scheme + pat + (rest + "&TC=");
    assert scheme + rep + (rest + "&TC=") == scheme + rep + rest + "&TC=";
  }

  // ---------------------------------------------------------------- getQRText

  datatype QrFailure = PolicyListFailed | NoActivePolicy | ApplicationListFailed | NoApplication | CreateFailed

  /** `getQRText`: the first active policy with the configured id and the first
      application with the configured id go into a new sponsorship; the result is
      the created sponsorship's href and its QR text. */
  function GetQrText(config: Config, v: Vendor, userId: string): (r: Result<(string, string), QrFailure>)
    ensures r == Err(PolicyListFailed) <==> v.listPolicies(config.enrollmentPolicyName) == None
    ensures r == Err(NoActivePolicy) <==> v.listPolicies(config.enrollmentPolicyName) == Some([])
    ensures r == Err(ApplicationListFailed) <==>
              v.listPolicies(config.enrollmentPolicyName).Some? && |v.listPolicies(config.enrollmentPolicyName).value| > 0 &&
              v.listApplications(config.applicationId) == None
    ensures r == Err(NoApplication) <==>
              v.listPolicies(config.enrollmentPolicyName).Some? && |v.listPolicies(config.enrollmentPolicyName).value| > 0 &&
              v.listApplications(config.applicationId) == Some([])
    ensures r == Err(CreateFailed) <==>
              v.listPolicies(config.enrollmentPolicyName).Some? && |v.listPolicies(config.enrollmentPolicyName).value| > 0 &&
              v.listApplications(config.applicationId).Some? && |v.listApplications(config.applicationId).value| > 0 &&
              v.create(SponsorshipRequest(userId, v.registrationId, v.listPolicies(config.enrollmentPolicyName).value[0],
                                          v.listApplications(config.applicationId).value[0])) == None
    ensures r.Ok? <==>
              v.listPolicies(config.enrollmentPolicyName).Some? && |v.listPolicies(config.enrollmentPolicyName).value| > 0 &&
              v.listApplications(config.applicationId).Some? && |v.listApplications(config.applicationId).value| > 0 &&
              v.create(SponsorshipRequest(userId, v.registrationId, v.listPolicies(config.enrollmentPolicyName).value[0],
                                          v.listApplications(config.applicationId).value[0])).Some?
    ensures r.Ok? ==>
              var policies := v.listPolicies(config.enrollmentPolicyName).value;
              var apps := v.listApplications(config.applicationId).value;
              var sp := v.create(SponsorshipRequest(userId, v.registrationId, policies[0], apps[0]));
              r.value == (sp.value.href, QrText(sp.value, policies[0].policyType))
  {
    match v.listPolicies(config.enrollmentPolicyName)
    case None => Err(PolicyListFailed)
    case Some(policies) =>
      if |policies| == 0 then Err(NoActivePolicy)
      else match v.listApplications(config.applicationId)
        case None => Err(ApplicationListFailed)
        case Some(apps) =>
          if |apps| == 0 then Err(NoApplication)
          else match v.create(SponsorshipRequest(userId, v.registrationId, policies[0], apps[0]))
            case None => Err(CreateFailed)
            case Some(sp) => Ok((sp.href, QrText(sp, policies[0].policyType)))
  }

  // ---------------------------------------------------------------- isEnrolled

  /** The href the status query uses: the stored value's JSON text without its
      double quotes; a key no state defines makes the read throw. */
  function HrefQuery(st: State): (r: Option<string>)
    ensures r.Some? <==> SponsorshipHrefKey in st
  {
    if SponsorshipHrefKey !in st then None else Some(RemoveAll(JsonText(st[SponsorshipHrefKey]), '"'))
  }

  /** An href stored as text (without quote characters) is queried as it was stored. */
  lemma HrefQueryStored(st: State, href: string)
    requires SponsorshipHrefKey in st && st[SponsorshipHrefKey] == Text(href)
    requires '"' !in href
    ensures HrefQuery(st) == Some(href)
  {
    var j := JsonText(Text(href));
    assert j == ['"'] + (href + ['"']);
    assert j[1..] == href + ['"'];
    assert RemoveAll(j, '"') == RemoveAll(href + ['"'], '"');
    RemoveAllAppend(href, ['"'], '"');
    RemoveAllRemoves(href, '"');
    assert ['"'][1..] == [];
    assert RemoveAll(['"'], '"') == [];
    assert href + [] == href;
  }

  /** The status switch: only COMPLETED counts as enrolled. */
  predicate EnrolledStatus(status: string): (enrolled: bool)
    ensures enrolled <==> status == "COMPLETED"
  {
    match status
    case "PENDING" => false
    case "COMPLETED" => true
    case "EXPIRED" => false
    case _ => false
  }

  /** `isEnrolled`: `None` when the status cannot be had (unreadable href, REST
      failure, no status). */
  function IsEnrolled(st: State, v: Vendor): (r: Option<bool>)
    ensures r == Some(true) <==> HrefQuery(st).Some? && v.status(HrefQuery(st).value) == Some(Some("COMPLETED"))
    ensures r == Some(false) <==>
              HrefQuery(st).Some? && v.status(HrefQuery(st).value).Some? &&
              v.status(HrefQuery(st).value).value.Some? && v.status(HrefQuery(st).value).value.value != "COMPLETED"
  {
    match HrefQuery(st)
    case None => None
    case Some(href) =>
      match v.status(href)
      case None => None
      case Some(None) => None
      case Some(Some(s)) => Some(EnrolledStatus(s))
  }

  // ---------------------------------------------------------------- one round

  /** The error route: the exception is recorded and the node goes to ERROR. */
  function Fail(st: State, note: string): Step<SponsorOutcome>
  {
    Step(GoTo(ERROR), st[ExceptionKey := Text(note)])
  }

  /** The state without the three polling keys. */
  function Cleared(st: State): State
  {
    st - {PollTimesKey, SponsorshipHrefKey, QrKey}
  }

  /** The wait between polls, in milliseconds, as the decimal text of a Java `int`. */
  function WaitTime(config: Config): (r: string)
    ensures ParseDecimal(r) == Some(Wrap32(config.pollingWaitInterval as int * 1000) as int)
  {
    IntDecimalRoundTrip(Wrap32(config.pollingWaitInterval as int * 1000) as int);
    IntToDecimal(Wrap32(config.pollingWaitInterval as int * 1000) as int)
  }

  /** What each polling round shows: the message, the QR code, a polling wait and a
      cancel button. Both text callbacks need a non-empty text: the JDK's
      `TextOutputCallback` constructor, which `ScriptTextOutputCallback` calls too,
      rejects a null or empty message. */
  predicate CanShow(config: Config, script: string)
  {
    script != "" && config.messageText != ""
  }

  function PollCallbacks(config: Config, script: string): seq<Callback>
  {
    [TextOutput(Information, Plain(config.messageText)),
     ScriptTextOutput(script),
     PollingWait(WaitTime(config), WaitMessage),
     Confirmation(Information, ["Cancel"], 0, 1)]
  }

  /** `buildResponse`: out of polls, the polling keys are removed and the node goes
      to FALSE; otherwise one poll is used up and the callbacks are sent. */
  function PollResponse(config: Config, st: State, note: string): (r: Step<SponsorOutcome>)
    ensures r.action == GoTo(FALSE) <==> NodeReadInt(st, PollTimesKey) == IntVal(0)
    ensures r.action == GoTo(FALSE) ==> r.state == Cleared(st)
    ensures r.action.Send? <==>
              NodeReadInt(st, PollTimesKey).IntVal? && NodeReadInt(st, PollTimesKey).n != 0 &&
              NodeReadString(st, QrKey).Str? && CanShow(config, NodeReadString(st, QrKey).s)
    ensures r.action.Send? ==>
              r.state == st[PollTimesKey := Int(Wrap32(NodeReadInt(st, PollTimesKey).n as int - 1) as int)] &&
              |r.action.callbacks| == 4 &&
              r.action.callbacks[0] == TextOutput(Information, Plain(config.messageText)) &&
              r.action.callbacks[1] == ScriptTextOutput(NodeReadString(st, QrKey).s)
    ensures NodeReadInt(st, PollTimesKey).IntVal? && NodeReadInt(st, PollTimesKey).n != 0 && !r.action.Send? ==>
              r == Fail(st[PollTimesKey := Int(Wrap32(NodeReadInt(st, PollTimesKey).n as int - 1) as int)], note)
    ensures r.action != GoTo(FALSE) && !r.action.Send? ==>
              r.action == GoTo(ERROR) && ExceptionKey in r.state && r.state[ExceptionKey] == Text(note)
  {
    match NodeReadInt(st, PollTimesKey)
    case NoInt => Fail(st, note)
    case IntThrows => Fail(st, note)
    case IntVal(k) =>
      if k == 0 then Step(GoTo(FALSE), Cleared(st))
      else
        var st1 := st[PollTimesKey := Int(Wrap32(k as int - 1) as int)];
        match NodeReadString(st1, QrKey)
        case Str(q) => if CanShow(config, q) then Step(Send(PollCallbacks(config, q)), st1) else Fail(st1, note)
        case _ => Fail(st1, note)
  }

  /** `process`, for a round whose replies hold a confirmation with the given
      selected index (`None`: no confirmation). */
  function Round(config: Config, v: Vendor, confirmation: Option<int>, st: State): (r: Step<SponsorOutcome>)
    ensures r.action.GoTo? || r.action.Send?
    ensures r.action == GoTo(ERROR) ==> ExceptionKey in r.state && r.state[ExceptionKey] == Text(v.note)
    ensures r.action != GoTo(ERROR) ==>
              (ExceptionKey in r.state <==> ExceptionKey in st) &&
              (ExceptionKey in st ==> r.state[ExceptionKey] == st[ExceptionKey])
    ensures r.action.Send? ==>
              |r.action.callbacks| == 4 && r.action.callbacks[2] == PollingWait(WaitTime(config), WaitMessage)
    ensures r.action == GoTo(TRUE) <==>
              confirmation != Some(0) && v.factory.Some? && NodeReadString(st, UserNameKey).Str? &&
              QrKey in st && IsEnrolled(st, v) == Some(true)
  {
    if confirmation == Some(0) then Step(GoTo(CANCEL), Cleared(st))
    else if v.factory == None then Fail(st, v.note)
    else match NodeReadString(st, UserNameKey)
      case Str(username) =>
        if QrKey !in st then
          var st1 := st[PollTimesKey := Int(config.numberOfTimesToPoll as int)];
          (match GetQrText(config, v, username)
           case Err(_) => Fail(st1, v.note)
           case Ok((href, text)) =>
             PollResponse(config, st1[SponsorshipHrefKey := Text(href)][QrKey := Text(v.qrScript(text))], v.note))
        else
          (match IsEnrolled(st, v)
           case None => Fail(st, v.note)
           case Some(true) => Step(GoTo(TRUE), st)
           case Some(false) => PollResponse(config, st, v.note))
      case _ => Fail(st, v.note)
  }

  // ---------------------------------------------------------------- properties of a round

  /** A cancel removes exactly the three polling keys and routes CANCEL, before any
      check that could fail, so it never routes ERROR. */
  lemma CancelClearsPolling(config: Config, v: Vendor, st: State)
    ensures var r := Round(config, v, Some(0), st);
            r.action == GoTo(CANCEL) &&
            PollTimesKey !in r.state && SponsorshipHrefKey !in r.state && QrKey !in r.state &&
            forall k :: k in st && k !in {PollTimesKey, SponsorshipHrefKey, QrKey} ==> k in r.state && r.state[k] == st[k]
  {
  }

  /** Without a readable user name the round routes ERROR and records the exception;
      the polling keys are left as they were. */
  lemma MissingUserNameErrors(config: Config, v: Vendor, confirmation: Option<int>, st: State)
    requires confirmation != Some(0)
    requires !NodeReadString(st, UserNameKey).Str?
    ensures var r := Round(config, v, confirmation, st);
            r.action == GoTo(ERROR) && r.state == st[ExceptionKey := Text(v.note)]
  {
  }

  /** First entry: the poll budget, the sponsorship href and the QR script are stored,
      and the first poll is answered at once from the new budget. */
  lemma FirstEntry(config: Config, v: Vendor, confirmation: Option<int>, st: State, username: string)
    requires confirmation != Some(0) && v.factory.Some?
    requires NodeReadString(st, UserNameKey) == Str(username)
    requires QrKey !in st
    requires GetQrText(config, v, username).Ok?
    ensures var (href, text) := GetQrText(config, v, username).value;
            var r := Round(config, v, confirmation, st);
            var n := config.numberOfTimesToPoll;
            (n == 0 ==> r.action == GoTo(FALSE) && r.state == Cleared(st)) &&
            (n != 0 && CanShow(config, v.qrScript(text)) ==>
               r.action == Send(PollCallbacks(config, v.qrScript(text))) &&
               r.state == st[PollTimesKey := Int(Wrap32(n as int - 1) as int)]
                            [SponsorshipHrefKey := Text(href)][QrKey := Text(v.qrScript(text))]) &&
            (n != 0 && !CanShow(config, v.qrScript(text)) ==>
               r.action == GoTo(ERROR) &&
               r.state == st[PollTimesKey := Int(Wrap32(n as int - 1) as int)]
                            [SponsorshipHrefKey := Text(href)][QrKey := Text(v.qrScript(text))][ExceptionKey := Text(v.note)])
  {
    var (href, text) := GetQrText(config, v, username).value;
    var n := config.numberOfTimesToPoll;
    var st1 := st[PollTimesKey := Int(n as int)][SponsorshipHrefKey := Text(href)][QrKey := Text(v.qrScript(text))];
    assert NodeReadInt(st1, PollTimesKey) == IntVal(n);
    if n == 0 {
      assert Cleared(st1) == Cleared(st);
    } else {
      var st2 := st1[PollTimesKey := Int(Wrap32(n as int - 1) as int)];
      assert NodeReadString(st2, QrKey) == Str(v.qrScript(text));
      assert st2 == st[PollTimesKey := Int(Wrap32(n as int - 1) as int)]
                      [SponsorshipHrefKey := Text(href)][QrKey := Text(v.qrScript(text))];
    }
  }

  /** First entry whose sponsorship cannot be created (no application with the
      configured id, say) routes ERROR, with the poll budget already written. */
  lemma FirstEntryWithoutSponsorshipErrors(config: Config, v: Vendor, confirmation: Option<int>, st: State, username: string)
    requires confirmation != Some(0) && v.factory.Some?
    requires NodeReadString(st, UserNameKey) == Str(username)
    requires QrKey !in st
    requires GetQrText(config, v, username).Err?
    ensures Round(config, v, confirmation, st) ==
              Step(GoTo(ERROR), st[PollTimesKey := Int(config.numberOfTimesToPoll as int)][ExceptionKey := Text(v.note)])
  {
  }

  /** A status query that throws routes ERROR: the node never fails open to TRUE. */
  lemma StatusFailureErrors(config: Config, v: Vendor, confirmation: Option<int>, st: State)
    requires confirmation != Some(0) && v.factory.Some?
    requires NodeReadString(st, UserNameKey).Str? && QrKey in st
    requires IsEnrolled(st, v) == None
    ensures Round(config, v, confirmation, st) == Step(GoTo(ERROR), st[ExceptionKey := Text(v.note)])
  {
  }

  /** `isEnrolled` true ends the polling at TRUE and leaves the state alone. */
  lemma EnrolledRoutesTrue(config: Config, v: Vendor, confirmation: Option<int>, st: State)
    requires confirmation != Some(0) && v.factory.Some?
    requires NodeReadString(st, UserNameKey).Str? && QrKey in st
    requires IsEnrolled(st, v) == Some(true)
    ensures Round(config, v, confirmation, st) == Step(GoTo(TRUE), st)
  {
  }

  /** The polling wait is the configured interval in milliseconds, for every interval
      whose milliseconds fit in a Java `int`. */
  lemma WaitTimeIsMillis(config: Config)
    requires 0 <= config.pollingWaitInterval as int <= 2147483
    ensures forall i :: 0 <= i < |WaitTime(config)| ==> IsDigit(WaitTime(config)[i])
    ensures DecimalValue(WaitTime(config)) == config.pollingWaitInterval as int * 1000
  {
    DecimalRoundTrip(config.pollingWaitInterval as int * 1000);
  }

  // ---------------------------------------------------------------- polling terminates

  /** The state between two polls: a user name, the QR script and the href are stored
      and `k` polls remain. */
  predicate Polling(st: State, k: int32)
  {
    0 <= k &&
    UserNameKey in st && st[UserNameKey].Text? &&
    QrKey in st && st[QrKey].Text? && st[QrKey].s != "" &&
    SponsorshipHrefKey in st &&
    PollTimesKey in st && st[PollTimesKey] == Int(k as int)
  }

  /** A vendor whose sponsorship never completes: every status query answers with a
      status other than COMPLETED. */
  ghost predicate NeverCompletes(v: Vendor)
  {
    v.factory.Some? &&
    forall href :: v.status(href).Some? && v.status(href).value.Some? && v.status(href).value.value != "COMPLETED"
  }

  /** The node's round when the user does not cancel. */
  function Uncancelled(config: Config, v: Vendor): State -> Step<SponsorOutcome>
  {
    st => Round(config, v, None, st)
  }

  /** At most `fuel` successive rounds of `round`: the number of callback sends before
      an outcome is chosen, and that outcome. */
  function Run(round: State -> Step<SponsorOutcome>, st: State, fuel: nat): Option<(nat, SponsorOutcome)>
    decreases fuel
  {
    if fuel == 0 then None
    else
      var r := round(st);
      if r.action.Send? then AfterSend(Run(round, r.state, fuel - 1))
      else Some((0, r.action.outcome))
  }

  /** A run that follows one send: one more send before the same outcome. */
  function AfterSend(d: Option<(nat, SponsorOutcome)>): Option<(nat, SponsorOutcome)>
  {
    match d
    case None => None
    case Some((sends, outcome)) => Some((sends + 1, outcome))
  }

  /** `round` polls: from a polling state with no polls left it goes to FALSE, and
      from one with polls left it sends and uses one up. */
  ghost predicate Polls(round: State -> Step<SponsorOutcome>)
  {
    forall st: State, k: int32 {:trigger round(st), Polling(st, k)} :: Polling(st, k) ==>
      (k == 0 ==> round(st).action == GoTo(FALSE)) &&
      (k > 0 ==> round(st).action.Send? && Polling(round(st).state, k - 1))
  }

  /** One polling round: with polls left, one is used up and the callbacks are sent;
      with none left, the node goes to FALSE. */
  lemma PollOnce(config: Config, v: Vendor, st: State, k: int32)
    requires Polling(st, k) && NeverCompletes(v) && config.messageText != ""
    ensures var r := Round(config, v, None, st);
            (k == 0 ==> r.action == GoTo(FALSE)) &&
            (k > 0 ==> r.action.Send? && Polling(r.state, k - 1))
  {
    assert NodeReadString(st, UserNameKey).Str?;
    var href := HrefQuery(st).value;
    assert v.status(href).Some? && v.status(href).value.Some?;
    assert IsEnrolled(st, v) == Some(false);
    assert NodeReadInt(st, PollTimesKey) == IntVal(k);
    assert NodeReadString(st, QrKey) == Str(st[QrKey].s) && CanShow(config, st[QrKey].s);
  }

  /** Against a vendor whose sponsorship never completes, the node's rounds poll. */
  lemma NeverCompletingPolls(config: Config, v: Vendor)
    requires NeverCompletes(v) && config.messageText != ""
    ensures Polls(Uncancelled(config, v))
  {
    forall st: State, k: int32 | Polling(st, k)
      ensures var r := Uncancelled(config, v)(st);
              (k == 0 ==> r.action == GoTo(FALSE)) && (k > 0 ==> r.action.Send? && Polling(r.state, k - 1))
    {
      PollOnce(config, v, st, k);
    }
  }

  /** With `k` polls left, a polling round makes exactly `k` more sends before FALSE. */
  lemma {:induction false} Countdown(round: State -> Step<SponsorOutcome>, st: State, k: int32)
    requires Polls(round) && Polling(st, k)
    ensures Run(round, st, k as nat + 1) == Some((k as nat, FALSE))
    decreases k
  {
    if k > 0 {
      Countdown(round, round(st).state, k - 1);
    }
  }

  /** From first entry, a budget of N polls gives exactly N callback sends and then
      FALSE, when the sponsorship never completes and the user never cancels. */
  lemma {:induction false} PollBudget(config: Config, v: Vendor, st: State, username: string)
    requires NeverCompletes(v)
    requires UserNameKey in st && st[UserNameKey] == Text(username)
    requires QrKey !in st
    requires GetQrText(config, v, username).Ok?
    requires CanShow(config, v.qrScript(GetQrText(config, v, username).value.1))
    requires config.numberOfTimesToPoll >= 0
    ensures Run(Uncancelled(config, v), st, config.numberOfTimesToPoll as nat + 1) ==
              Some((config.numberOfTimesToPoll as nat, FALSE))
  {
    var n := config.numberOfTimesToPoll;
    var round := Uncancelled(config, v);
    FirstEntry(config, v, None, st, username);
    if n > 0 {
      var next := round(st).state;
      assert Polling(next, n - 1);
      NeverCompletingPolls(config, v);
      Countdown(round, next, n - 1);
    }
  }

  // ---------------------------------------------------------------- the node, in place

  /** `buildResponse` on the node's shared state. */
  method BuildResponse(config: Config, state: SharedState, note: string) returns (a: Action<SponsorOutcome>)
    modifies state
    ensures Step(a, state.entries) == PollResponse(config, old(state.entries), note)
  {
    var remaining := NodeReadInt(state.entries, PollTimesKey);
    if !remaining.IntVal? {
      state.Put(ExceptionKey, Text(note));
      return GoTo(ERROR);
    }
    if remaining.n == 0 {
      state.Remove(PollTimesKey);
      state.Remove(SponsorshipHrefKey);
      state.Remove(QrKey);
      assert state.entries == Cleared(old(state.entries));
      return GoTo(FALSE);
    }
    state.Put(PollTimesKey, Int(Wrap32(remaining.n as int - 1) as int));
    var script := NodeReadString(state.entries, QrKey);
    if script.Throws? {
      state.Put(ExceptionKey, Text(note));
      return GoTo(ERROR);
    }
    if !script.Str? || !CanShow(config, script.s) {
      state.Put(ExceptionKey, Text(note));
      return GoTo(ERROR);
    }
    a := Send(PollCallbacks(config, script.s));
  }

  /** `process` on the node's shared state. */
  method Process(config: Config, v: Vendor, confirmation: Option<int>, state: SharedState)
    returns (a: Action<SponsorOutcome>)
    modifies state
    ensures Step(a, state.entries) == Round(config, v, confirmation, old(state.entries))
  {
    if confirmation == Some(0) {
      state.Remove(PollTimesKey);
      state.Remove(SponsorshipHrefKey);
      state.Remove(QrKey);
      assert state.entries == Cleared(old(state.entries));
      return GoTo(CANCEL);
    }
    var username := NodeReadString(state.entries, UserNameKey);
    if v.factory == None || !username.Str? {
      state.Put(ExceptionKey, Text(v.note));
      return GoTo(ERROR);
    }
    if QrKey !in state.entries {
      state.Put(PollTimesKey, Int(config.numberOfTimesToPoll as int));
      var qr := GetQrText(config, v, username.s);
      if qr.Err? {
        state.Put(ExceptionKey, Text(v.note));
        return GoTo(ERROR);
      }
      var (href, text) := qr.value;
      state.Put(SponsorshipHrefKey, Text(href));
      state.Put(QrKey, Text(v.qrScript(text)));
      a := BuildResponse(config, state, v.note);
      return;
    }
    var enrolled := IsEnrolled(state.entries, v);
    if enrolled == None {
      state.Put(ExceptionKey, Text(v.note));
      return GoTo(ERROR);
    }
    if enrolled.value {
      return GoTo(TRUE);
    }
    a := BuildResponse(config, state, v.note);
  }
}
