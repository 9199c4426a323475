/** The IdentityX entities the nodes exchange with the vendor SDK, the shared-state
    keys they agree on, and the helpers in IdxCommon.java: user lookup by
    cardinality, the ordered credential checks in front of the tenant repository
    factory, and the "host[:port]" server name. */
module IdxCommon {
  import opened Host
  import opened Text

  const HrefKey := "idx-auth-ref-shared-state-key"
  const UserKey := "idx-user-object-shared-state-key"
  const UserHrefKey := "idx-user-href-shared-state-key"
  const UserInternalIdKey := "idx-user-internal-id-shared-state-key"
  const UserIdKey := "idx-user-id-shared-state-key"
  const AuthResponseKey := "idx-fido-auth-response-shared-state-key"
  const AuthResponsePropertyName := "fidoAuthenticationResponse"
  const AuthRequestType := "FI"

  /** Written by the enrollment-status check and read by the later nodes. */
  const UserNameKey := "IdxKeyUserName"

  /** The host's `SharedStateConstants.USERNAME`. */
  const Username := "username"

  datatype User = User(href: string, id: string, userId: string)

  datatype PolicyType = IE | FR | IA | FA

  /** A policy as listed by the vendor; `policyType` is `None` when the vendor leaves it unset. */
  datatype Policy = Policy(policyId: string, policyType: Option<PolicyType>)

  datatype Application = Application(applicationId: string)

  /** An authentication request as the vendor returns it. */
  datatype AuthenticationRequest = AuthenticationRequest(
    href: string,
    id: string,
    status: string,
    fidoChallenge: string,
    fidoAuthenticationRequest: string,
    fidoAuthenticationResponse: string,
    fidoResponseCode: string,
    fidoResponseMsg: string)

  /** An opaque handle on the vendor SDK's repository factory. */
  datatype TenantRepoFactory = TenantRepoFactory(handle: nat)

  // ---------------------------------------------------------------- findUser

  /** What the user repository's `list` call produced. */
  datatype UserListing = ListFailed | NullCollection | NullItems | Items(users: seq<User>)

  datatype LookupError = RestFailure | DuplicateUser

  /** `findUser`: no user for a null collection, null items or no items, the user
      for exactly one item, and an error for more than one. */
  function FindUser(listing: UserListing): (r: Result<Option<User>, LookupError>)
    ensures r == Err(RestFailure) <==> listing == ListFailed
    ensures r == Err(DuplicateUser) <==> listing.Items? && |listing.users| > 1
    ensures r == Ok(None) <==> listing == NullCollection || listing == NullItems || listing == Items([])
    ensures r.Ok? && r.value.Some? <==> listing.Items? && |listing.users| == 1
    ensures r.Ok? && r.value.Some? ==> listing.users == [r.value.value]
  {
    match listing
    case ListFailed => Err(RestFailure)
    case NullCollection => Ok(None)
    case NullItems => Ok(None)
    case Items(users) =>
      if |users| == 0 then Ok(None)
      else if |users| == 1 then Ok(Some(users[0]))
      else Err(DuplicateUser)
  }

  // ---------------------------------------------------------------- getTenantRepoFactory

  /** The keys `getTenantRepoFactory` reads from the shared state, in the order it reads them. */
  const CredentialKeys: seq<string> :=
    ["IdxPathToKeyStore", "IdxPathToCredentialProperties", "IdxJksPassword", "IdxKeyAlias", "IdxKeyPassword"]

  datatype FactoryError = KeyNotFound(key: string) | KeyNotText(key: string) | SingletonFailed | NullFactory

  /** What the five-argument singleton `getInstance` did: threw, or returned an
      instance whose factory may be null. */
  datatype SingletonAnswer = Threw | Returned(factory: Option<TenantRepoFactory>)

  /** The error reading one credential key raises, if any. */
  function KeyError(st: State, key: string): (r: Option<FactoryError>)
    ensures r.None? <==> ReadString(st, key).Str?
  {
    match ReadString(st, key)
    case Missing => Some(KeyNotFound(key))
    case Throws => Some(KeyNotText(key))
    case Str(_) => None
  }

  /** Reference definition: the position of the first key in `keys` that cannot
      be read as text (`|keys|` when every key can). */
  function FirstUnreadable(st: State, keys: seq<string>): (i: nat)
    ensures i <= |keys|
    ensures forall j :: 0 <= j < i ==> ReadString(st, keys[j]).Str?
    ensures i < |keys| ==> !ReadString(st, keys[i]).Str?
  {
    if keys == [] || !ReadString(st, keys[0]).Str? then 0
    else 1 + FirstUnreadable(st, keys[1..])
  }

  lemma FirstUnreadableCredential(st: State)
    ensures FirstUnreadable(st, CredentialKeys) ==
      if !ReadString(st, "IdxPathToKeyStore").Str? then 0
      else if !ReadString(st, "IdxPathToCredentialProperties").Str? then 1
      else if !ReadString(st, "IdxJksPassword").Str? then 2
      else if !ReadString(st, "IdxKeyAlias").Str? then 3
      else if !ReadString(st, "IdxKeyPassword").Str? then 4
      else 5
  {
    var ks := CredentialKeys;
    assert ks[1..][1..][1..][1..][1..] == [];
    calc {
      FirstUnreadable(st, ks);
      if !ReadString(st, ks[0]).Str? then 0 else 1 + FirstUnreadable(st, ks[1..]);
    }
    assert FirstUnreadable(st, ks[1..]) == if !ReadString(st, ks[1]).Str? then 0 else 1 + FirstUnreadable(st, ks[1..][1..]);
    assert FirstUnreadable(st, ks[1..][1..]) == if !ReadString(st, ks[2]).Str? then 0 else 1 + FirstUnreadable(st, ks[1..][1..][1..]);
    assert FirstUnreadable(st, ks[1..][1..][1..]) == if !ReadString(st, ks[3]).Str? then 0 else 1 + FirstUnreadable(st, ks[1..][1..][1..][1..]);
    assert FirstUnreadable(st, ks[1..][1..][1..][1..]) == if !ReadString(st, ks[4]).Str? then 0 else 1 + FirstUnreadable(st, ks[1..][1..][1..][1..][1..]);
  }

  /** `getTenantRepoFactory(context)`: the five credential keys are checked one
      after the other and the first one missing (or not text) is the error; only
      then is the singleton asked, and a null factory is an error too. */
  function GetTenantRepoFactory(st: State, answer: SingletonAnswer): (r: Result<TenantRepoFactory, FactoryError>)
    ensures var i := FirstUnreadable(st, CredentialKeys);
              i < |CredentialKeys| ==> r == Err(KeyError(st, CredentialKeys[i]).value)
    ensures FirstUnreadable(st, CredentialKeys) == |CredentialKeys| ==>
              r == match answer
                   case Threw => Err(SingletonFailed)
                   case Returned(None) => Err(NullFactory)
                   case Returned(Some(f)) => Ok(f)
  {
    FirstUnreadableCredential(st);
    var e0 := KeyError(st, "IdxPathToKeyStore");
    if e0.Some? then Err(e0.value) else
    var e1 := KeyError(st, "IdxPathToCredentialProperties");
    if e1.Some? then Err(e1.value) else
    var e2 := KeyError(st, "IdxJksPassword");
    if e2.Some? then Err(e2.value) else
    var e3 := KeyError(st, "IdxKeyAlias");
    if e3.Some? then Err(e3.value) else
    var e4 := KeyError(st, "IdxKeyPassword");
    if e4.Some? then Err(e4.value) else
    match answer
    case Threw => Err(SingletonFailed)
    case Returned(None) => Err(NullFactory)
    case Returned(Some(f)) => Ok(f)
  }

  // ---------------------------------------------------------------- getServerName

  /** What `new URL(href)` gives: a malformed-URL exception, or the host and the
      port (-1 when the URL names none). */
  datatype ParsedUrl = Malformed | Url(host: string, port: int)

  /** `getServerName`: null for a null or empty href or a malformed URL, the host
      alone when there is no port, and "host:port" otherwise. */
  function GetServerName(href: Option<string>, parsed: ParsedUrl): (r: Option<string>)
    ensures href == None || href == Some("") || parsed == Malformed <==> r == None
  {
    if href == None || href.value == "" then None
    else match parsed
      case Malformed => None
      case Url(host, port) =>
        if port == -1 then Some(host) else Some(host + ":" + IntToDecimal(port))
  }

  /** Reads a server name back into its host and port (-1 when there is none). */
  function HostAndPort(s: string): (string, int)
  {
    match IndexOf(s, ':')
    case None => (s, NoPort)
    case Some(i) =>
      var digits := s[i + 1..];
      if forall k :: 0 <= k < |digits| ==> IsDigit(digits[k]) then (s[..i], DecimalValue(digits))
      else (s[..i], NoPort)
  }

  /** What `URL.getPort` reports when the URL names no port. */
  const NoPort: int := -1

  /** The server name determines the host and the port: for a host without a
      colon and any port `URL` can report, reading the name back gives both. */
  lemma ServerNameRoundTrip(href: string, host: string, port: int)
    requires href != ""
    requires ':' !in host
    requires port >= -1
    ensures GetServerName(Some(href), Url(host, port)).Some?
    ensures HostAndPort(GetServerName(Some(href), Url(host, port)).value) == (host, port)
  {
    var s := GetServerName(Some(href), Url(host, port)).value;
    if port == -1 {
      assert s == host;
    } else {
      var d := NatToDecimal(port);
      assert s == host + ":" + d;
      var i := IndexOf(s, ':');
      assert s[..|host|] == host;
      assert s[|host|] == ':';
      assert i.value == |host|;
      assert s[|host| + 1..] == d;
      DecimalRoundTrip(port);
    }
  }
}
