/** DaonSaasOnboardingNode: sends the user to the Daon SaaS onboarding site with an
    OAuth 2.0 authorization-code redirect (section 4.1 of RFC 6749), and on the way
    back exchanges the code for an ID token whose RS256 signature it checks against
    the RSA signing keys of the site's JWK set (RFC 7517) before it stores the
    token's payload and goes to TRUE. */
module SaasOnboarding {
  import opened Host
  import opened Text

  /** Request parameter names and the shared-state key of the code. The constants
      class that defines them is not part of this model; these are the names of an
      authorization response in section 4.1.2 of RFC 6749. */
  const ErrorParam := "error"
  const CodeParam := "code"

  const PayloadKey := "payload"
  const ExceptionKey := "[Daon SaaS Onboarding Node][Marketplace] Exception"
  const StackTraceKey := "[Daon SaaS Onboarding Node][Marketplace] StackTrace"

  datatype Config = Config(
    hostName: string,
    tenantName: string,
    redirectUri: string,
    clientSecret: string,
    loginHintField: Option<string>)

  // ---------------------------------------------------------------- JWK set

  /** A member of a JSON web key: a string, or any other JSON value. */
  datatype Member = MStr(s: string) | MOther

  type Jwk = map<string, Member>

  /** An element of the "keys" array: an object, or something else. */
  datatype JwkEntry = Object(members: Jwk) | NotObject

  /** What fetching the JWK set gave: nothing usable (the request failed, or the
      body is not an object with a "keys" array), or the array's elements. */
  datatype JwksAnswer = FetchFailed | Keys(entries: seq<JwkEntry>)

  /** An RSA signature key that carries its modulus and exponent. */
  predicate IsSigningKey(k: Jwk)
  {
    "use" in k && k["use"] == MStr("sig") && "kty" in k && k["kty"] == MStr("RSA") && "n" in k && "e" in k
  }

  datatype Verdict = Keep | Skip | Fails

  /** The test applied to one element: `get` throws on a missing member, and the
      conditions are evaluated left to right, stopping at the first false one. */
  function Screen(e: JwkEntry): (v: Verdict)
    ensures v == Keep <==> e.Object? && IsSigningKey(e.members)
    ensures v == Fails <==> e == NotObject || "use" !in e.members ||
                             (e.members["use"] == MStr("sig") && "kty" !in e.members)
  {
    match e
    case NotObject => Fails
    case Object(k) =>
      if "use" !in k then Fails
      else if k["use"] != MStr("sig") then Skip
      else if "kty" !in k then Fails
      else if k["kty"] != MStr("RSA") then Skip
      else if "n" in k && "e" in k then Keep
      else Skip
  }

  /** `xs` is `ys` with some elements left out, the rest in order. */
  predicate IsSubsequence<T(==)>(xs: seq<T>, ys: seq<T>)
    decreases |ys|
  {
    xs == [] || (ys != [] && ((xs[0] == ys[0] && IsSubsequence(xs[1..], ys[1..])) || IsSubsequence(xs, ys[1..])))
  }

  function Members(es: seq<JwkEntry>): seq<Jwk>
  {
    if es == [] then [] else (if es[0].Object? then [es[0].members] else []) + Members(es[1..])
  }

  /** The keys `getSigningKeys` collects from the elements: the signing keys in
      order, up to the first element whose test throws. */
  function SigningKeysOf(es: seq<JwkEntry>): (r: seq<Jwk>)
    ensures forall i :: 0 <= i < |r| ==> IsSigningKey(r[i])
    ensures IsSubsequence(r, Members(es))
  {
    if es == [] then []
    else match Screen(es[0])
      case Fails => []
      case Skip =>
        var rest := SigningKeysOf(es[1..]);
        if es[0].Object? then
          assert Members(es)[1..] == Members(es[1..]);
          rest
        else
          rest
      case Keep =>
        var rest := SigningKeysOf(es[1..]);
        assert Members(es) == [es[0].members] + Members(es[1..]);
        assert ([es[0].members] + rest)[1..] == rest;
        [es[0].members] + rest
  }

  /** With no element that throws, exactly the signing keys are kept: every signing key among the elements is in the result. */
  lemma {:induction false} SigningKeysComplete(es: seq<JwkEntry>)
    requires forall i :: 0 <= i < |es| ==> Screen(es[i]) != Fails
    ensures forall i :: 0 <= i < |es| && es[i].Object? && IsSigningKey(es[i].members) ==> es[i].members in SigningKeysOf(es)
  {
    if es != [] {
      SigningKeysComplete(es[1..]);
      forall i | 0 <= i < |es| && es[i].Object? && IsSigningKey(es[i].members)
        ensures es[i].members in SigningKeysOf(es)
      {
        if i > 0 {
          assert es[1..][i - 1] == es[i];
        }
      }
    }
  }

  /** An element whose test throws ends the collection: the keys found before it are kept. */
  lemma {:induction false} SigningKeysStopAtThrow(es: seq<JwkEntry>, j: nat)
    requires j < |es| && Screen(es[j]) == Fails
    ensures SigningKeysOf(es) == SigningKeysOf(es[..j])
  {
    if j > 0 {
      assert es[1..][j - 1] == es[j];
      SigningKeysStopAtThrow(es[1..], j - 1);
      assert es[..j][1..] == es[1..][..j - 1];
    }
  }

  /** Every signing key among the elements, in order, as a plain filter. */
  function SigningKeysIn(es: seq<JwkEntry>): seq<Jwk>
  {
    if es == [] then []
    else (if es[0].Object? && IsSigningKey(es[0].members) then [es[0].members] else []) + SigningKeysIn(es[1..])
  }

  /** The position of the first element whose test throws (`|es|` when none does). */
  function FirstFailing(es: seq<JwkEntry>): (n: nat)
    ensures n <= |es|
    ensures forall i :: 0 <= i < n ==> Screen(es[i]) != Fails
    ensures n < |es| ==> Screen(es[n]) == Fails
  {
    if es == [] || Screen(es[0]) == Fails then 0 else 1 + FirstFailing(es[1..])
  }

  /** The collected keys are exactly the signing keys before the first element that
      throws, each occurrence kept, in order. */
  lemma {:induction false} SigningKeysExact(es: seq<JwkEntry>)
    ensures SigningKeysOf(es) == SigningKeysIn(es[..FirstFailing(es)])
  {
    if es != [] && Screen(es[0]) != Fails {
      var n := FirstFailing(es);
      SigningKeysExact(es[1..]);
      assert es[..n][0] == es[0];
      assert es[..n][1..] == es[1..][..n - 1];
    } else {
      assert es[..0] == [];
    }
  }

  function SigningKeys(answer: JwksAnswer): seq<Jwk>
  {
    match answer
    case FetchFailed => []
    case Keys(es) => SigningKeysOf(es)
  }

  /** `getSigningKeys`: the loop over the "keys" array; an exception leaves the keys
      collected so far. */
  method GetSigningKeys(answer: JwksAnswer) returns (keys: seq<Jwk>)
    ensures keys == SigningKeys(answer)
  {
    keys := [];
    if answer.FetchFailed? {
      return;
    }
    var es := answer.entries;
    var i := 0;
    while i < |es|
      invariant 0 <= i <= |es|
      invariant keys + SigningKeysOf(es[i..]) == SigningKeysOf(es)
    {
      var verdict := Screen(es[i]);
      if verdict == Fails {
        assert keys + SigningKeysOf(es[i..]) == keys;
        return;
      }
      if verdict == Keep {
        keys := keys + [es[i].members];
      }
      assert es[i..][1..] == es[i + 1..];
      i := i + 1;
    }
    assert es[i..] == [];
  }

  // ---------------------------------------------------------------- construction

  datatype ConstructError = EmptyConfig | NoSigningKeys

  /** The constructor's checks: the four required settings must be non-empty and
      the JWK set must hold at least one signing key; the node keeps those keys. */
  function Construct(config: Config, answer: JwksAnswer): (r: Result<seq<Jwk>, ConstructError>)
    ensures r == Err(EmptyConfig) <==>
              config.hostName == "" || config.tenantName == "" || config.redirectUri == "" || config.clientSecret == ""
    ensures r == Err(NoSigningKeys) <==>
              config.hostName != "" && config.tenantName != "" && config.redirectUri != "" && config.clientSecret != ""
              && SigningKeys(answer) == []
    ensures r.Ok? ==> r.value == SigningKeys(answer) && |r.value| > 0
  {
    if config.hostName == "" || config.tenantName == "" || config.redirectUri == "" || config.clientSecret == "" then
      Err(EmptyConfig)
    else
      var keys := SigningKeys(answer);
      if keys == [] then Err(NoSigningKeys) else Ok(keys)
  }

  // ---------------------------------------------------------------- getSigningKey

  /** What looking a `kid` up gives: the position of the first key with that `kid`,
      no such key, or an exception from a key (before any match) that has no `kid`. */
  datatype KidLookup = Found(index: nat) | NoMatch | KidMissing

  function KeyForKid(keys: seq<Jwk>, kid: string): (r: KidLookup)
    ensures r.Found? ==> r.index < |keys| && "kid" in keys[r.index] && keys[r.index]["kid"] == MStr(kid)
    ensures r.Found? || r == NoMatch ==>
              forall j :: 0 <= j < (if r.Found? then r.index else |keys|) ==>
                "kid" in keys[j] && keys[j]["kid"] != MStr(kid)
    ensures r == KidMissing ==>
              exists j :: 0 <= j < |keys| && "kid" !in keys[j] &&
                forall i :: 0 <= i < j ==> "kid" in keys[i] && keys[i]["kid"] != MStr(kid)
  {
    if keys == [] then NoMatch
    else if "kid" !in keys[0] then KidMissing
    else if keys[0]["kid"] == MStr(kid) then Found(0)
    else match KeyForKid(keys[1..], kid)
      case Found(i) => Found(i + 1)
      case NoMatch => NoMatch
      case KidMissing => KidMissing
  }

  /** `getSigningKey`: a linear search that returns the first key whose `kid` matches. */
  method GetSigningKey(keys: seq<Jwk>, kid: string) returns (r: KidLookup)
    ensures r == KeyForKid(keys, kid)
  {
    var i := 0;
    while i < |keys|
      invariant 0 <= i <= |keys|
      invariant KeyForKid(keys, kid) == match KeyForKid(keys[i..], kid)
                                         case Found(j) => Found(i + j)
                                         case other => other
    {
      assert keys[i..][1..] == keys[i + 1..];
      if "kid" !in keys[i] {
        return KidMissing;
      }
      if keys[i]["kid"] == MStr(kid) {
        return Found(i);
      }
      i := i + 1;
    }
    r := NoMatch;
  }

  // ---------------------------------------------------------------- verifyToken

  /** The decoding and cryptography the node delegates:
      - `headerKid`: the `kid` of a base64url JSON header, if it decodes and has one;
      - `verify`: whether an RS256 signature checks, given the key's `n` and `e`,
        the signing input and the signature segment (false when anything fails to decode). */
  datatype Crypto = Crypto(
    headerKid: string -> Option<string>,
    verify: (string, string, string, string) -> bool)

  /** The JWS signing input of section 7.2 of RFC 7515: header, a dot, payload. */
  function SigningInput(parts: seq<string>): string
    requires |parts| >= 2
  {
    parts[0] + "." + parts[1]
  }

  /** `verifyToken`: every failure on the way is caught and gives false. A token
      verifies exactly when it has three parts, its header names a `kid`, a key with
      that `kid` comes before any key without one, and the RS256 signature checks
      against that key's textual `n` and `e`. */
  function VerifyToken(keys: seq<Jwk>, parts: seq<string>, crypto: Crypto): (ok: bool)
    ensures ok <==>
              |parts| >= 3 && crypto.headerKid(parts[0]).Some? &&
              KeyForKid(keys, crypto.headerKid(parts[0]).value).Found? &&
              var key := keys[KeyForKid(keys, crypto.headerKid(parts[0]).value).index];
              "n" in key && key["n"].MStr? && "e" in key && key["e"].MStr? &&
              crypto.verify(key["n"].s, key["e"].s, SigningInput(parts), parts[2])
    ensures ok ==> |parts| >= 3
    ensures ok ==> exists i :: 0 <= i < |keys| && "n" in keys[i] && "e" in keys[i] && keys[i]["n"].MStr? && keys[i]["e"].MStr? &&
                              crypto.verify(keys[i]["n"].s, keys[i]["e"].s, SigningInput(parts), parts[2])
  {
    if |parts| == 0 then false
    else match crypto.headerKid(parts[0])
      case None => false
      case Some(kid) =>
        match KeyForKid(keys, kid)
        case Found(i) =>
          var key := keys[i];
          if "n" in key && key["n"].MStr? && "e" in key && key["e"].MStr? && |parts| >= 3 then
            crypto.verify(key["n"].s, key["e"].s, SigningInput(parts), parts[2])
          else false
        case _ => false
  }

  /** Only a key whose `kid` is the header's can vouch for a token. */
  lemma VerifyUsesHeaderKid(keys: seq<Jwk>, parts: seq<string>, crypto: Crypto)
    requires VerifyToken(keys, parts, crypto)
    ensures crypto.headerKid(parts[0]).Some?
    ensures KeyForKid(keys, crypto.headerKid(parts[0]).value).Found?
  {
  }

  /** With no key for the header's `kid`, verification fails closed. */
  lemma VerifyFailsClosed(keys: seq<Jwk>, parts: seq<string>, crypto: Crypto)
    requires |parts| > 0 && crypto.headerKid(parts[0]).Some?
    requires !KeyForKid(keys, crypto.headerKid(parts[0]).value).Found?
    ensures !VerifyToken(keys, parts, crypto)
  {
  }

  method VerifyTokenIn(keys: seq<Jwk>, parts: seq<string>, crypto: Crypto) returns (ok: bool)
    ensures ok == VerifyToken(keys, parts, crypto)
  {
    if |parts| == 0 {
      return false;
    }
    var kid := crypto.headerKid(parts[0]);
    if kid == None {
      return false;
    }
    var found := GetSigningKey(keys, kid.value);
    if !found.Found? {
      return false;
    }
    var key := keys[found.index];
    if !("n" in key && key["n"].MStr? && "e" in key && key["e"].MStr?) || |parts| < 3 {
      return false;
    }
    ok := crypto.verify(key["n"].s, key["e"].s, SigningInput(parts), parts[2]);
  }

  // ---------------------------------------------------------------- hex state

  predicate IsLowerHex(c: char)
  {
    '0' <= c <= '9' || 'a' <= c <= 'f'
  }

  function HexDigit(d: nat): (c: char)
    requires d < 16
    ensures IsLowerHex(c)
  {
    if d < 10 then ('0' as int + d) as char else ('a' as int + d - 10) as char
  }

  /** `String.format("%02x", b)`: a byte's two's-complement bits as two lowercase hex digits. */
  function ByteHex(b: int8): (s: string)
    ensures |s| == 2 && IsLowerHex(s[0]) && IsLowerHex(s[1])
  {
    var u := (b as int + 256) % 256;
    [HexDigit(u / 16), HexDigit(u % 16)]
  }

  /** Two hex digits per byte, in order. */
  function HexOf(bytes: seq<int8>): (s: string)
    ensures |s| == 2 * |bytes|
    ensures forall i :: 0 <= i < |s| ==> IsLowerHex(s[i])
  {
    if bytes == [] then [] else HexOf(bytes[..|bytes| - 1]) + ByteHex(bytes[|bytes| - 1])
  }

  /** Characters 2i and 2i+1 of the hex text are the digits of byte i. */
  lemma {:induction false} HexOfAt(bytes: seq<int8>, i: nat)
    requires i < |bytes|
    ensures HexOf(bytes)[2 * i..2 * i + 2] == ByteHex(bytes[i])
  {
    var n := |bytes| - 1;
    var h := HexOf(bytes[..n]);
    var last := ByteHex(bytes[n]);
    assert HexOf(bytes) == h + last;
    if i < n {
      HexOfAt(bytes[..n], i);
      assert bytes[..n][i] == bytes[i];
      assert (h + last)[2 * i..2 * i + 2] == h[2 * i..2 * i + 2];
    } else {
      assert (h + last)[2 * n..2 * n + 2] == last;
    }
  }

  function HexValue(c: char): (d: nat)
    requires IsLowerHex(c)
    ensures d < 16
  {
    if c <= '9' then c as int - '0' as int else c as int - 'a' as int + 10
  }

  /** Reads two hex digits back as a signed byte. */
  function ByteOfHex(hi: char, lo: char): int8
    requires IsLowerHex(hi) && IsLowerHex(lo)
  {
    var u := HexValue(hi) * 16 + HexValue(lo);
    (if u >= 128 then u - 256 else u) as int8
  }

  /** The inverse of `HexOf`. */
  function Unhex(s: string): seq<int8>
    requires |s| % 2 == 0
    requires forall i :: 0 <= i < |s| ==> IsLowerHex(s[i])
  {
    if s == [] then [] else Unhex(s[..|s| - 2]) + [ByteOfHex(s[|s| - 2], s[|s| - 1])]
  }

  lemma ByteHexRoundTrip(b: int8)
    ensures ByteOfHex(ByteHex(b)[0], ByteHex(b)[1]) == b
  {
    var u := (b as int + 256) % 256;
    assert u == if b < 0 then b as int + 256 else b as int;
    var hi, lo := u / 16, u % 16;
    assert u == hi * 16 + lo;
    assert ByteHex(b) == [HexDigit(hi), HexDigit(lo)];
    assert HexValue(HexDigit(hi)) == hi;
    assert HexValue(HexDigit(lo)) == lo;
  }

  /** The hex text determines the bytes: two different random values never give the same state. */
  lemma {:induction false} HexRoundTrip(bytes: seq<int8>)
    ensures Unhex(HexOf(bytes)) == bytes
  {
    if bytes != [] {
      var n := |bytes| - 1;
      var s := HexOf(bytes);
      assert s[..|s| - 2] == HexOf(bytes[..n]);
      HexRoundTrip(bytes[..n]);
      ByteHexRoundTrip(bytes[n]);
      assert bytes == bytes[..n] + [bytes[n]];
    }
  }

  /** `convertBytesToHex`: appends two digits per byte to a builder. */
  method ConvertBytesToHex(bytes: seq<int8>) returns (result: string)
    ensures result == HexOf(bytes)
  {
    result := "";
    for i := 0 to |bytes|
      invariant result == HexOf(bytes[..i])
    {
      assert bytes[..i + 1][..i] == bytes[..i];
      result := result + ByteHex(bytes[i]);
    }
    assert bytes[..|bytes|] == bytes;
  }

  // ---------------------------------------------------------------- process

  /** The HTTP calls and the environment of one round trip:
      - `exchange`: the ID token the token endpoint returns for a code (`None`: the
        call failed, the status was not a success, or the body has no "id_token");
      - `decodePayload`: the JSON object a base64url payload segment decodes to;
      - `urlEncode`: `URLEncoder.encode` in UTF-8;
      - `randomBytes`: the 32 bytes a `SecureRandom` produces (`None`: no "DRBG"
        generator could be had, which throws);
      - `note`/`trace`: the texts recorded for an exception and its stack trace. */
  datatype Env = Env(
    exchange: string -> Option<string>,
    crypto: Crypto,
    decodePayload: string -> Option<string>,
    urlEncode: string -> string,
    randomBytes: Option<seq<int8>>,
    note: string,
    trace: string)

  /** The request's query parameters, each with its list of values. */
  type Parameters = map<string, seq<string>>

  /** The error route: the exception and its stack trace are recorded, and the node goes to FALSE. */
  function Fail(st: State, env: Env): Step<Decision>
  {
    Step(GoTo(FalseOutcome), st[ExceptionKey := Text(env.note)][StackTraceKey := Text(env.trace)])
  }

  /** The authorization endpoint with the fixed query parameters. */
  function BaseUrl(config: Config, encodedRedirectUri: string): string
  {
    "https://" + config.hostName + "/auth/realms/" + config.tenantName +
    "/protocol/openid-connect/auth?response_type=code&client_id=" + config.tenantName +
    "&scope=openid%20document%20phone&redirect_uri=" + encodedRedirectUri
  }

  /** The login-hint part of the URL: nothing without a configured field or when
      the field is not in the state; "&" and the stored text otherwise ("null" for
      a JSON null); `None` when the stored value is not text, which throws. */
  function HintPart(field: Option<string>, st: State): (r: Option<string>)
    ensures r == Some("") <==> field == None || field.value !in st
    ensures r == None <==> field.Some? && field.value in st && ReadString(st, field.value) == Throws
    ensures field.Some? && field.value in st && ReadString(st, field.value).Str? ==>
              r == Some("&" + ReadString(st, field.value).s)
    ensures field.Some? && field.value in st && ReadString(st, field.value) == Missing ==> r == Some("&null")
  {
    match field
    case None => Some("")
    case Some(f) =>
      if f !in st then Some("")
      else match ReadString(st, f)
        case Str(s) => Some("&" + s)
        case Missing => Some("&null")
        case Throws => None
  }

  /** The redirect to the onboarding site, carrying a fresh hex `state`. */
  function RedirectStep(config: Config, env: Env, st: State): (r: Step<Decision>)
    ensures r.action.Send? <==> HintPart(config.loginHintField, st).Some? && env.randomBytes.Some?
    ensures !r.action.Send? ==> r == Fail(st, env)
    ensures r.action.Send? ==> r.state == st
  {
    match HintPart(config.loginHintField, st)
    case None => Fail(st, env)
    case Some(hint) =>
      match env.randomBytes
      case None => Fail(st, env)
      case Some(bytes) =>
        var url := BaseUrl(config, env.urlEncode(config.redirectUri)) + hint + "&state=" + HexOf(bytes);
        Step(Send([Redirect(url, "GET", true)]), st)
  }

  /** `process` for a node built with `keys`. */
  function Round(config: Config, keys: seq<Jwk>, env: Env, params: Parameters, st: State): (r: Step<Decision>)
    ensures r.action.GoTo? ==> r.action.outcome == FalseOutcome
    ensures r.action.GoToReplacing? ==> r.action.outcome == TrueOutcome && r.action.newState == r.state
  {
    if ErrorParam in params then Fail(st, env)
    else if CodeParam in params && CodeParam in st then RedirectStep(config, env, st - {CodeParam})
    else if CodeParam in params then
      var codes := params[CodeParam];
      if |codes| == 0 then Fail(st, env)
      else
        var st1 := st[CodeParam := Text(codes[0])];
        match env.exchange(codes[0])
        case None => Fail(st1, env)
        case Some(token) =>
          var parts := JavaSplit(token, '.');
          if !VerifyToken(keys, parts, env.crypto) then Fail(st1, env)
          else match env.decodePayload(parts[1])
            case None => Fail(st1, env)
            case Some(doc) =>
              var st2 := st1[PayloadKey := Json(doc)];
              Step(GoToReplacing(TrueOutcome, st2), st2)
    else RedirectStep(config, env, st)
  }

  // ---------------------------------------------------------------- properties of a round

  /** A first visit, with neither an `error` nor a `code` parameter, is the redirect
      to the onboarding site. */
  lemma FirstVisitRedirects(config: Config, keys: seq<Jwk>, env: Env, params: Parameters, st: State)
    requires ErrorParam !in params && CodeParam !in params
    ensures Round(config, keys, env, params, st) == RedirectStep(config, env, st)
    ensures Round(config, keys, env, params, st).action.Send? <==>
              HintPart(config.loginHintField, st).Some? && env.randomBytes.Some?
  {
  }

  /** An `error` parameter always ends at FALSE, with the exception recorded. */
  lemma ErrorParamRoutesFalse(config: Config, keys: seq<Jwk>, env: Env, params: Parameters, st: State)
    requires ErrorParam in params
    ensures Round(config, keys, env, params, st).action == GoTo(FalseOutcome)
    ensures Round(config, keys, env, params, st).state[ExceptionKey] == Text(env.note)
  {
  }

  /** A code that is already in the state is dropped and the user is sent back to
      the onboarding site: a replayed code is never exchanged, and the code stays
      out of the state whether or not the redirect can be built. */
  lemma SeenCodeRedirectsAgain(config: Config, keys: seq<Jwk>, env: Env, params: Parameters, st: State)
    requires ErrorParam !in params && CodeParam in params && CodeParam in st
    ensures var r := Round(config, keys, env, params, st);
            r == RedirectStep(config, env, st - {CodeParam}) && CodeParam !in r.state &&
            (r.action.Send? <==> HintPart(config.loginHintField, st - {CodeParam}).Some? && env.randomBytes.Some?) &&
            (r.action.Send? ==> r.state == st - {CodeParam})
  {
  }

  /** TRUE exactly for a fresh code whose exchange gives a token that one of the
      node's keys verifies and whose payload decodes; the state handed on then holds
      the code and the payload. */
  lemma TrueIffVerifiedToken(config: Config, keys: seq<Jwk>, env: Env, params: Parameters, st: State)
    ensures var r := Round(config, keys, env, params, st);
            r.action.GoToReplacing? <==>
              ErrorParam !in params && CodeParam in params && CodeParam !in st && |params[CodeParam]| > 0 &&
              var token := env.exchange(params[CodeParam][0]);
              token.Some? && VerifyToken(keys, JavaSplit(token.value, '.'), env.crypto) &&
              env.decodePayload(JavaSplit(token.value, '.')[1]).Some?
    ensures var r := Round(config, keys, env, params, st);
            r.action.GoToReplacing? ==>
              var doc := env.decodePayload(JavaSplit(env.exchange(params[CodeParam][0]).value, '.')[1]).value;
              r.state == st[CodeParam := Text(params[CodeParam][0])][PayloadKey := Json(doc)]
  {
  }

  /** A fresh code is stored before it is exchanged: when the exchange, the
      verification or the decoding fails, the node goes to FALSE with the code kept
      and the exception recorded. */
  lemma FreshCodeFailureKeepsCode(config: Config, keys: seq<Jwk>, env: Env, params: Parameters, st: State)
    requires ErrorParam !in params && CodeParam in params && CodeParam !in st && |params[CodeParam]| > 0
    requires !Round(config, keys, env, params, st).action.GoToReplacing?
    ensures Round(config, keys, env, params, st) == Fail(st[CodeParam := Text(params[CodeParam][0])], env)
  {
  }

  /** The redirect URL: the endpoint, the login hint when there is one, and a `state`
      of 64 lowercase hex digits made from the 32 random bytes. */
  lemma RedirectUrlShape(config: Config, env: Env, st: State)
    requires env.randomBytes.Some? && |env.randomBytes.value| == 32
    requires HintPart(config.loginHintField, st).Some?
    ensures var r := RedirectStep(config, env, st);
            var url := r.action.callbacks[0].url;
            r.action == Send([Redirect(url, "GET", true)]) &&
            url == BaseUrl(config, env.urlEncode(config.redirectUri)) + HintPart(config.loginHintField, st).value
                   + "&state=" + HexOf(env.randomBytes.value) &&
            |HexOf(env.randomBytes.value)| == 64
  {
  }

  // ---------------------------------------------------------------- the node, in place

  class OnboardingNode {
    const config: Config
    const signingKeys: seq<Jwk>

    constructor (config: Config, signingKeys: seq<Jwk>)
      ensures this.config == config && this.signingKeys == signingKeys
    {
      this.config := config;
      this.signingKeys := signingKeys;
    }

    /** `process` on the shared state, changed in place. */
    method Process(env: Env, params: Parameters, state: SharedState) returns (a: Action<Decision>)
      modifies state
      ensures Step(a, state.entries) == Round(config, signingKeys, env, params, old(state.entries))
    {
      if ErrorParam in params {
        a := FailIn(env, state);
        return;
      }
      if CodeParam in params {
        if CodeParam in state.entries {
          state.Remove(CodeParam);
        } else {
          var codes := params[CodeParam];
          if |codes| == 0 {
            a := FailIn(env, state);
            return;
          }
          state.Put(CodeParam, Text(codes[0]));
          var token := env.exchange(codes[0]);
          if token == None {
            a := FailIn(env, state);
            return;
          }
          var parts := JavaSplit(token.value, '.');
          var verified := VerifyTokenIn(signingKeys, parts, env.crypto);
          if !verified {
            a := FailIn(env, state);
            return;
          }
          var payload := env.decodePayload(parts[1]);
          if payload == None {
            a := FailIn(env, state);
            return;
          }
          state.Put(PayloadKey, Json(payload.value));
          return GoToReplacing(TrueOutcome, state.entries);
        }
      }
      var hint := HintPart(config.loginHintField, state.entries);
      if hint == None {
        a := FailIn(env, state);
        return;
      }
      if env.randomBytes == None {
        a := FailIn(env, state);
        return;
      }
      var hex := ConvertBytesToHex(env.randomBytes.value);
      var url := BaseUrl(config, env.urlEncode(config.redirectUri)) + hint.value + "&state=" + hex;
      a := Send([Redirect(url, "GET", true)]);
    }

    method FailIn(env: Env, state: SharedState) returns (a: Action<Decision>)
      modifies state
      ensures Step(a, state.entries) == Fail(old(state.entries), env)
    {
      state.Put(ExceptionKey, Text(env.note));
      state.Put(StackTraceKey, Text(env.trace));
      a := GoTo(FalseOutcome);
    }
  }

  /** The constructor: checks the settings, fetches the signing keys, and fails
      when either check does. */
  method NewOnboardingNode(config: Config, answer: JwksAnswer) returns (r: Result<OnboardingNode, ConstructError>)
    ensures Construct(config, answer).Err? ==> r == Err(Construct(config, answer).error)
    ensures Construct(config, answer).Ok? ==>
              r.Ok? && fresh(r.value) && r.value.config == config && r.value.signingKeys == Construct(config, answer).value
  {
    if config.hostName == "" || config.tenantName == "" || config.redirectUri == "" || config.clientSecret == "" {
      return Err(EmptyConfig);
    }
    var keys := GetSigningKeys(answer);
    if keys == [] {
      return Err(NoSigningKeys);
    }
    var node := new OnboardingNode(config, keys);
    r := Ok(node);
  }
}
