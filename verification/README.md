# IdentityX and Daon authentication-tree nodes, modelled in Dafny

This project models the decision logic of the Daon authentication nodes for the
ForgeRock Access Management tree engine:

- the IdentityX nodes:
  - the enrollment-status check (`IdxCheckEnrollmentStatus`);
  - the authentication-request initiator (`IdxAuthRequestNode`);
  - the status decision node (`IdxAuthStatusNode`);
  - the mobile request/response pair (`IdxMobileAuthRequestNode`, `IdxMobileValidateAuthRequestNode`);
  - the QR-code sponsorship node (`IdxSponsorUser`);
- the TrustX identity-verification node (`DaonIDVNode`);
- the SaaS onboarding node (`DaonSaasOnboardingNode`);
- the helpers they share (`IdxCommon`);
- the process-wide tenant repository factory cache (`IdxTenantRepoFactorySingleton`).

Each node is modelled in two parts:

- A pure function `Round` maps the node's inputs and the shared state before a
  round trip to a `Step`. A `Step` is the action the node returns and the shared
  state after it. The action is one of:
  - go to an outcome;
  - go to an outcome and replace the shared state with a new one;
  - send callbacks.
- A method `Process` does the same work on a `Host.SharedState` object. Like the
  Java code, it writes the state key by key. Its postcondition ties the action
  and the new state to `Round` over the old state.

The vendor SDK, the HTTP calls, JSON parsing, cryptography, random values and
the clock are inputs. Each is a field of a per-node `Vendor`, `Env` or `TrustX`
value. A call that throws is `None` (or a distinct constructor), and the
exception path it takes is a case of the model; the exceptions that are not
modelled are listed under "## Left out".

Modules and files:

| module | file | models |
|---|---|---|
| `Host` | host.dfy | shared state, `get(..).asString()` / `asInteger()` with `JsonValue` and `NodeState` semantics, actions, callbacks, Java `int` |
| `Text` | text.dfy | `String` helpers: blank tests, `equalsIgnoreCase`, decimal text, `indexOf`, `replace`, `split` |
| `IdxCommon` | idx_common.dfy | entities and shared-state keys, `findUser`, `getTenantRepoFactory`, `getServerName` |
| `TenantRepoCache` | tenant_repo_cache.dfy | `IdxTenantRepoFactorySingleton` as a class with the static fields as fields |
| `CheckEnrollment` | check_enrollment.dfy | `IdxCheckEnrollmentStatus` |
| `AuthRequest` | auth_request.dfy | `IdxAuthRequestNode` |
| `AuthStatus` | auth_status.dfy | `IdxAuthStatusNode` |
| `MobileAuthRequest` | mobile_auth_request.dfy | `IdxMobileAuthRequestNode` |
| `MobileValidate` | mobile_validate.dfy | `IdxMobileValidateAuthRequestNode` |
| `SponsorUser` | sponsor_user.dfy | `IdxSponsorUser` |
| `IdvNode` | idv_node.dfy | `DaonIDVNode` |
| `SaasOnboarding` | saas_onboarding.dfy | `DaonSaasOnboardingNode` |

Two readings of the shared state matter throughout:

- `JsonValue.get` answers JSON null for an absent key, so `asString()` gives
  null (`Host.ReadString`).
- `NodeState.get` answers a null reference for a key that no state defines, so
  `asString()` on it throws (`Host.NodeReadString`).

The model keeps these apart. As a consequence, a node that reads a key through
`NodeState` routes to its error outcome when that key is absent, even where the
Java code tests the result for null.

## Model

| member | source | states |
|---|---|---|
| Host.ReadString | src/main/java/com/daon/idxAuthRequestNode/IdxCommon.java:71-75 | `get(key).asString()` is null exactly for an absent key or a JSON null, is the stored string for a string value, and throws for any other value |
| Host.NodeReadString | src/main/java/com/daon/idxAuthRequestNode/IdxAuthStatusNode.java:72-78 | through `NodeState`, a key no state defines throws; otherwise it reads like `JsonValue` |
| Host.ReadInt | src/main/java/com/daon/idxAuthRequestNode/IdxSponsorUser.java:194 | `asInteger()` is null exactly for an absent key or a JSON null, and an in-range number reads as itself |
| Host.Wrap32 | src/main/java/com/daon/idxAuthRequestNode/IdxSponsorUser.java:202 | Java `int` arithmetic: values in range are unchanged, and any value is congruent to its wrapped form modulo 2^32 |
| IdxCommon.FindUser | src/main/java/com/daon/idxAuthRequestNode/IdxCommon.java:37-65 | a REST failure is an error; a null collection, null items or no items mean no user; exactly one item is that user; more than one is the duplicate-user error (each case iff) |
| IdxCommon.KeyError | src/main/java/com/daon/idxAuthRequestNode/IdxCommon.java:71-101 | reading a credential key raises no error exactly when it holds a string |
| IdxCommon.FirstUnreadable | src/main/java/com/daon/idxAuthRequestNode/IdxCommon.java:71-101 | the position of the first key that cannot be read as a string: every key before it reads, and the key at it does not |
| IdxCommon.FirstUnreadableCredential | src/main/java/com/daon/idxAuthRequestNode/IdxCommon.java:71-101 | for the five credential keys, the first unreadable one follows the order in which the code reads them |
| IdxCommon.GetTenantRepoFactory | src/main/java/com/daon/idxAuthRequestNode/IdxCommon.java:67-113 | the first unreadable credential key in read order is the error; only when all five are readable is the singleton asked; a throwing singleton and a null factory are errors |
| IdxCommon.GetServerName | src/main/java/com/daon/idxAuthRequestNode/IdxCommon.java:115-145 | the result is null exactly for a null or empty href or a malformed URL |
| IdxCommon.ServerNameRoundTrip | src/main/java/com/daon/idxAuthRequestNode/IdxCommon.java:127-136 | the server name determines the host and the port: reading "host" or "host:port" back gives both (-1 for no port) |
| TenantRepoCache.MustRebuild | src/main/java/com/daon/idxAuthRequestNode/IdxTenantRepoFactorySingleton.java:43-45 | a rebuild is needed with no instance, a base URL that is another string object, no build time, or a build more than 59 seconds old |
| TenantRepoCache.CachedAnswer | src/main/java/com/daon/idxAuthRequestNode/IdxTenantRepoFactorySingleton.java:43-52 | the answer is null exactly when a rebuild is needed and the build threw; a needed rebuild answers the new build, otherwise the cached factory, which is never null |
| TenantRepoCache.TenantRepoFactorySingleton.constructor | src/main/java/com/daon/idxAuthRequestNode/IdxTenantRepoFactorySingleton.java:16-20 | the static initial values: no instance, the empty-string base URL, no build time |
| TenantRepoCache.TenantRepoFactorySingleton.GetInstance | src/main/java/com/daon/idxAuthRequestNode/IdxTenantRepoFactorySingleton.java:39-53 | rebuilds when there is no instance, the base URL is a different string object, there is no build time, or the build is more than 59000 ms old; a rebuild stores the URL, the factory and the time; otherwise nothing changes and the cached factory is returned |
| TenantRepoCache.SameFactoryWithinMaxAge | src/main/java/com/daon/idxAuthRequestNode/IdxTenantRepoFactorySingleton.java:43-49 | after a build, a request with the same string object at most 59 s later gets the same factory |
| TenantRepoCache.EqualTextOtherObjectRebuilds | src/main/java/com/daon/idxAuthRequestNode/IdxTenantRepoFactorySingleton.java:45 | an equal base URL held in another string object always forces a rebuild, because `!=` compares references |
| Text.IsTrimBlank | src/main/java/com/daon/idxAuthRequestNode/IdxCheckEnrollmentStatus.java:124-133 | `StringUtils.isBlank` on a non-null string (every character at or below the space): the empty string is blank, and a blank string holds no digit |
| CheckEnrollment.UserIdAttribute | src/main/java/com/daon/idxAuthRequestNode/IdxCheckEnrollmentStatus.java:121-128 | the configured attribute when it is set and not blank, the host's user-name attribute otherwise; never blank |
| CheckEnrollment.UserName | src/main/java/com/daon/idxAuthRequestNode/IdxCheckEnrollmentStatus.java:131-138 | there is a user name exactly when the attribute holds a string that is not blank, and it is that string |
| CheckEnrollment.Round | src/main/java/com/daon/idxAuthRequestNode/IdxCheckEnrollmentStatus.java:117-180 | Error records the exception in place and is the only plain go-to; a decision is reached exactly when the user id reads, the factory is available and the lookup does not throw; True and False hand on a copy with the client id, secret, base URL and user name added, every other key kept and no other key added |
| CheckEnrollment.BlankUserNameErrors | src/main/java/com/daon/idxAuthRequestNode/IdxCheckEnrollmentStatus.java:133-136 | a missing, null, non-string or blank user id routes Error with the exception recorded |
| CheckEnrollment.LookupFailureErrors | src/main/java/com/daon/idxAuthRequestNode/IdxCheckEnrollmentStatus.java:138-180 | a factory that cannot be built or a user lookup that throws routes Error with the exception recorded |
| CheckEnrollment.UnknownUserRoutesFalse | src/main/java/com/daon/idxAuthRequestNode/IdxCheckEnrollmentStatus.java:149-160 | an unknown user routes False with the configured copy and no user keys added |
| CheckEnrollment.KnownUserRoutesTrue | src/main/java/com/daon/idxAuthRequestNode/IdxCheckEnrollmentStatus.java:166-172 | a known user routes True, and the copy carries the user's href, internal id and user id |
| CheckEnrollment.UserNameHandedOn | src/main/java/com/daon/idxAuthRequestNode/IdxCheckEnrollmentStatus.java:154 | the later nodes read back through `NodeState` exactly the user id that was looked up, and it is not blank |
| CheckEnrollment.Process | src/main/java/com/daon/idxAuthRequestNode/IdxCheckEnrollmentStatus.java:117-180 | the in-place node equals `Round`, with the factory taken from the process-wide cache; the cache is left alone when the user id is invalid; once the user id reads, a rebuild stores the new factory, the base URL object and the time, and a failed build or a fresh cached factory leaves the cache unchanged |
| AuthRequest.DraftFor | src/main/java/com/daon/idxAuthRequestNode/IdxAuthRequestNode.java:204-216 | the request carries the user, policy and application; its type is FI iff the FIDO option is set and IX otherwise; no one-time password; a push notification iff configured; the fixed description and a fresh id |
| AuthRequest.Generate | src/main/java/com/daon/idxAuthRequestNode/IdxAuthRequestNode.java:152-227 | an href results exactly when the user is not null, both lists are fetched and non-empty, and the vendor creates the request built from their first items; the href is the created request's |
| AuthRequest.GenerateAuthenticationRequest | src/main/java/com/daon/idxAuthRequestNode/IdxAuthRequestNode.java:152-227 | filling in the request one setter at a time gives `Generate` |
| AuthRequest.Round | src/main/java/com/daon/idxAuthRequestNode/IdxAuthRequestNode.java:120-150 | Error records the exception in place and is the only plain go-to; Next is reached exactly when the user reads, the factory is available and the request is created, and hands on the old state plus the href; nothing is sent |
| AuthRequest.UnreadableUserErrors | src/main/java/com/daon/idxAuthRequestNode/IdxAuthRequestNode.java:125-130 | a stored user that is missing, not a string, unreadable or null routes Error |
| AuthRequest.MissingCredentialErrors | src/main/java/com/daon/idxAuthRequestNode/IdxAuthRequestNode.java:132 | a missing credential key routes Error |
| AuthRequest.EmptyListsError | src/main/java/com/daon/idxAuthRequestNode/IdxAuthRequestNode.java:176-202 | an empty policy list or an empty application list routes Error |
| AuthRequest.NextUsesFirstItems | src/main/java/com/daon/idxAuthRequestNode/IdxAuthRequestNode.java:135-142 | on Next, the request was built from the first policy and the first application with the configured type, and the new state is the old one plus the created href |
| AuthRequest.NextIffRequestCreated | src/main/java/com/daon/idxAuthRequestNode/IdxAuthRequestNode.java:124-142 | for a readable stored user, Next is reached exactly when the factory is available and the request is created, and the state handed on is then the old one plus the new href |
| AuthRequest.Process | src/main/java/com/daon/idxAuthRequestNode/IdxAuthRequestNode.java:120-150 | the in-place node equals `Round` |
| AuthStatus.Classify | src/main/java/com/daon/idxAuthRequestNode/IdxAuthStatusNode.java:95-103 | SUCCESS, PENDING and EXPIRED iff the status equals COMPLETED_SUCCESSFUL, PENDING and EXPIRED ignoring case; FAILED iff it equals none of them; never ERROR |
| AuthStatus.PendingIsNotExpired | src/main/java/com/daon/idxAuthRequestNode/IdxAuthStatusNode.java:97-100 | no status matches both PENDING and EXPIRED, so the order of the two tests does not matter |
| Text.EqualsIgnoreCase | src/main/java/com/daon/idxAuthRequestNode/IdxAuthStatusNode.java:95-99 | defines `equalsIgnoreCase` on ASCII: the same length and the same characters once letters are upper-cased (a definition; the two lemmas below state its symmetry and transitivity) |
| AuthStatus.EqualsIgnoreCaseSymmetric | src/main/java/com/daon/idxAuthRequestNode/IdxAuthStatusNode.java:95-100 | case-insensitive equality is symmetric |
| AuthStatus.EqualsIgnoreCaseTransitive | src/main/java/com/daon/idxAuthRequestNode/IdxAuthStatusNode.java:95-100 | case-insensitive equality is transitive |
| AuthStatus.ClassifyIgnoresCase | src/main/java/com/daon/idxAuthRequestNode/IdxAuthStatusNode.java:95-103 | statuses that differ only in letter case route alike |
| AuthStatus.Round | src/main/java/com/daon/idxAuthRequestNode/IdxAuthStatusNode.java:68-111 | ERROR iff the user name or the href cannot be read, or the factory or the status fetch throws; ERROR records the exception; otherwise the state is unchanged and the outcome classifies the status |
| AuthStatus.MissingUserNameErrors | src/main/java/com/daon/idxAuthRequestNode/IdxAuthStatusNode.java:72-78 | a missing or null user name routes ERROR |
| AuthStatus.MissingHrefErrors | src/main/java/com/daon/idxAuthRequestNode/IdxAuthStatusNode.java:84-89 | a missing or null href routes ERROR, whatever the vendor says |
| AuthStatus.SuccessIffCompleted | src/main/java/com/daon/idxAuthRequestNode/IdxAuthStatusNode.java:91-103 | a readable request routes SUCCESS iff its status is COMPLETED_SUCCESSFUL in any case, and FAILED iff it is none of the three known statuses |
| AuthStatus.DeclaredOutcomesReachable | src/main/java/com/daon/idxAuthRequestNode/IdxAuthStatusNode.java:95-108 | each of the five declared outcomes (PENDING, SUCCESS, FAILED, EXPIRED, ERROR) is reached by some shared state and some vendor answers |
| Text.IsBlank | src/main/java/com/daon/idxAuthRequestNode/IdxMobileAuthRequestNode.java:114-120 | `TextUtils.isBlank` on a non-null string (every character Java whitespace): the empty string is blank, and a blank string is also blank for `StringUtils.isBlank` |
| MobileAuthRequest.NewRequest | src/main/java/com/daon/idxAuthRequestNode/IdxMobileAuthRequestNode.java:162-184 | a new request for the user id, with the configured application, a policy of that application by the configured name, the configured description, type FI and the user name as server data |
| MobileAuthRequest.InputValue | src/main/java/com/daon/idxAuthRequestNode/IdxMobileAuthRequestNode.java:99 | there is an input value exactly when the replies hold a text-input callback |
| MobileAuthRequest.InputAfterOther | src/main/java/com/daon/idxAuthRequestNode/IdxMobileAuthRequestNode.java:99 | a reply that is not a text input does not change whether one is present |
| MobileAuthRequest.CallbackFields | src/main/java/com/daon/idxAuthRequestNode/IdxMobileAuthRequestNode.java:130-141 | the JSON holds the href, id, challenge and FIDO request in that order, plus the stored response, response code and message exactly when a non-empty response is stored; field names are distinct |
| MobileAuthRequest.ResponseShownIffStored | src/main/java/com/daon/idxAuthRequestNode/IdxMobileAuthRequestNode.java:136-141 | the response travels in the JSON iff a non-empty one is stored |
| MobileAuthRequest.FinalRequest | src/main/java/com/daon/idxAuthRequestNode/IdxMobileAuthRequestNode.java:118-124 | a null or blank href creates a new request from the user id and the user name; any other href fetches that request; both need the factory |
| MobileAuthRequest.Round | src/main/java/com/daon/idxAuthRequestNode/IdxMobileAuthRequestNode.java:96-160 | NEXT exactly when the client returned an output and an input; a send exactly when, otherwise, the user id is not blank, the request is created or fetched and the stored response reads: two callbacks, the response prompt with "{}" and an information message holding the JSON, with the JSON's href stored and nothing else changed; an error records the exception and the stack trace |
| MobileAuthRequest.RepliesRouteNext | src/main/java/com/daon/idxAuthRequestNode/IdxMobileAuthRequestNode.java:106-110 | with a text output and a text input returned, the input is stored as the response and the node goes to Next |
| MobileAuthRequest.BlankUserIdErrors | src/main/java/com/daon/idxAuthRequestNode/IdxMobileAuthRequestNode.java:112-116 | unless the client answered, a missing or blank user id is an error, whatever other replies came back |
| MobileAuthRequest.RequestFailureErrors | src/main/java/com/daon/idxAuthRequestNode/IdxMobileAuthRequestNode.java:118-160 | unless the client answered, a request that cannot be created or fetched, or a stored response that cannot be read, is an error |
| MobileAuthRequest.NoStoredHrefErrors | src/main/java/com/daon/idxAuthRequestNode/IdxMobileAuthRequestNode.java:101-104 | with no href key in any state, reading it throws and the round is an error |
| MobileAuthRequest.BlankHrefCreates | src/main/java/com/daon/idxAuthRequestNode/IdxMobileAuthRequestNode.java:120-121 | a null or blank href makes a new request; the client is shown it and its href is stored |
| MobileAuthRequest.StoredHrefFetches | src/main/java/com/daon/idxAuthRequestNode/IdxMobileAuthRequestNode.java:122-124 | a stored href that is not blank fetches that request; the client is shown it and its href is stored |
| MobileAuthRequest.Process | src/main/java/com/daon/idxAuthRequestNode/IdxMobileAuthRequestNode.java:96-160 | the in-place node, which builds the JSON and the callback list one element at a time, equals `Round` |
| MobileValidate.ResponseToSend | src/main/java/com/daon/idxAuthRequestNode/IdxMobileValidateAuthRequestNode.java:63-89 | the JSON property is sent when the stored text is an object whose property is a non-empty string; the stored text otherwise |
| MobileValidate.Validation | src/main/java/com/daon/idxAuthRequestNode/IdxMobileValidateAuthRequestNode.java:108-145 | FALSE leaves the state unchanged; TRUE needs a fetched request whose update has the expected status, and stores the updated href and response |
| MobileValidate.Round | src/main/java/com/daon/idxAuthRequestNode/IdxMobileValidateAuthRequestNode.java:60-106 | ERROR records the exception and the stack trace; any other outcome needs a stored response string |
| MobileValidate.ExtractionFallback | src/main/java/com/daon/idxAuthRequestNode/IdxMobileValidateAuthRequestNode.java:67-89 | the answer is unwrapped from a JSON envelope when there is one, and sent as it is for text that is not JSON, a missing property or an empty one |
| MobileValidate.NullRequestIsFalse | src/main/java/com/daon/idxAuthRequestNode/IdxMobileValidateAuthRequestNode.java:119-122 | an href naming no request gives FALSE and leaves the state alone |
| MobileValidate.TrueIffExpectedStatus | src/main/java/com/daon/idxAuthRequestNode/IdxMobileValidateAuthRequestNode.java:124-139 | TRUE iff the updated request has the configured status |
| MobileValidate.RestErrorIsFalse | src/main/java/com/daon/idxAuthRequestNode/IdxMobileValidateAuthRequestNode.java:141-144 | an IdentityX REST exception from the lookup or the update routes FALSE with the state unchanged; any other exception from either, and a factory that cannot be built, routes ERROR with the exception and the stack trace recorded |
| MobileValidate.WritesOnlyOnSuccess | src/main/java/com/daon/idxAuthRequestNode/IdxMobileValidateAuthRequestNode.java:130-139 | FALSE leaves the state alone; TRUE adds exactly the href and response keys and keeps every other key |
| MobileValidate.Process | src/main/java/com/daon/idxAuthRequestNode/IdxMobileValidateAuthRequestNode.java:60-106 | the in-place node equals `Round` |
| MobileValidate.ValidateIn | src/main/java/com/daon/idxAuthRequestNode/IdxMobileValidateAuthRequestNode.java:108-145 | the in-place validation equals `Validation` |
| SponsorUser.QrText | src/main/java/com/daon/idxAuthRequestNode/IdxSponsorUser.java:292-299 | the QR text always starts with the sponsor prefix: the gateway rewrite never reaches into it |
| Text.Replace | src/main/java/com/daon/idxAuthRequestNode/IdxSponsorUser.java:298 | defines `String.replace`: every occurrence of the pattern rewritten, left to right and without overlap (a definition; the lemmas below state what it copies and what it rewrites) |
| Text.ReplaceAbsent | src/main/java/com/daon/idxAuthRequestNode/IdxSponsorUser.java:298 | a string in which the pattern occurs nowhere is left unchanged |
| SponsorUser.RewriteKeepsPrefix | src/main/java/com/daon/idxAuthRequestNode/IdxSponsorUser.java:298 | the gateway rewrite of a QR text copies the fixed `identityx://sponsor?SC=` prefix and rewrites only what follows it |
| SponsorUser.QrTextCodeOnly | src/main/java/com/daon/idxAuthRequestNode/IdxSponsorUser.java:292 | for any policy type but IE, the QR text is the sponsor prefix and the code alone |
| SponsorUser.QrTextWithGateway | src/main/java/com/daon/idxAuthRequestNode/IdxSponsorUser.java:294-299 | for IE, the rewrite leaves the prefix and a slash-free code intact and touches only the gateway part |
| SponsorUser.GatewayRewrite | src/main/java/com/daon/idxAuthRequestNode/IdxSponsorUser.java:298 | a gateway "scheme//api.rest" appears as "scheme//idx-api.rest" |
| Text.ReplaceSkipsSchemeSlashes | src/main/java/com/daon/idxAuthRequestNode/IdxSponsorUser.java:298 | a slash-free scheme, "//" and a slash-free part are copied unchanged by the rewrite of a "//x..." target whose third character differs from the part's first, so it never starts inside "identityx://sponsor" |
| Text.ReplaceSkipsSlashes | src/main/java/com/daon/idxAuthRequestNode/IdxSponsorUser.java:298 | "//" followed by such a part holds no occurrence of the target at its front |
| Text.ReplaceOnce | src/main/java/com/daon/idxAuthRequestNode/IdxSponsorUser.java:298 | a single occurrence between two parts that cannot start one is rewritten |
| SponsorUser.GetQrText | src/main/java/com/daon/idxAuthRequestNode/IdxSponsorUser.java:220-302 | each failure iff its cause, in order: the policy list throws, it is empty, the application list throws, it is empty, the creation fails; success iff none of these, giving the created sponsorship's href and the QR text for the first policy's type |
| SponsorUser.HrefQuery | src/main/java/com/daon/idxAuthRequestNode/IdxSponsorUser.java:309 | the href can be read exactly when its key is in the state |
| SponsorUser.HrefQueryStored | src/main/java/com/daon/idxAuthRequestNode/IdxSponsorUser.java:309 | an href stored as text without quotes is queried as it was stored |
| Text.RemoveAllRemoves | src/main/java/com/daon/idxAuthRequestNode/IdxSponsorUser.java:309 | removing all double quotes leaves none, and leaves a quote-free text as it is |
| Text.RemoveAllAppend | src/main/java/com/daon/idxAuthRequestNode/IdxSponsorUser.java:309 | removing a character distributes over concatenation |
| SponsorUser.EnrolledStatus | src/main/java/com/daon/idxAuthRequestNode/IdxSponsorUser.java:325-338 | the status switch counts a sponsorship as enrolled exactly when its status is COMPLETED |
| SponsorUser.IsEnrolled | src/main/java/com/daon/idxAuthRequestNode/IdxSponsorUser.java:304-340 | enrolled iff the status is exactly COMPLETED; not enrolled iff some other status is returned |
| SponsorUser.WaitTime | src/main/java/com/daon/idxAuthRequestNode/IdxSponsorUser.java:215 | the polling wait is decimal text that parses back to the interval times 1000, wrapped to a Java `int` |
| SponsorUser.CanShow | src/main/java/com/daon/idxAuthRequestNode/IdxSponsorUser.java:204-207 | both text callbacks can be built: the JDK `TextOutputCallback` constructor, also used by `ScriptTextOutputCallback`, rejects a null or empty text (a definition; `PollResponse` states its use) |
| SponsorUser.PollCallbacks | src/main/java/com/daon/idxAuthRequestNode/IdxSponsorUser.java:204-217 | the message, the QR script (a string, never null), the polling wait and a one-option cancel confirmation (a definition; `PollResponse` states its use) |
| SponsorUser.PollResponse | src/main/java/com/daon/idxAuthRequestNode/IdxSponsorUser.java:193-218 | FALSE iff the budget reads 0, and then the polling keys are removed; a send iff the budget reads non-zero, the script reads as a string and both the script and the message are non-empty, and then the budget is one less (Java `int` wrap-around) and the message and the stored script are shown; with a non-zero budget and no send, ERROR with the decremented budget already written; anything else records the exception and routes ERROR |
| SponsorUser.Round | src/main/java/com/daon/idxAuthRequestNode/IdxSponsorUser.java:125-191 | ERROR records the exception; every other outcome leaves the exception key as it was; a send is four callbacks with the polling wait third; TRUE exactly when the user does not cancel, the factory and the user name are available, the QR script is stored and the sponsorship has completed |
| SponsorUser.CancelClearsPolling | src/main/java/com/daon/idxAuthRequestNode/IdxSponsorUser.java:133-144 | cancel removes exactly the three polling keys, keeps everything else and routes CANCEL, before anything that could fail |
| SponsorUser.MissingUserNameErrors | src/main/java/com/daon/idxAuthRequestNode/IdxSponsorUser.java:149-155 | without a readable user name the round routes ERROR and only the exception is recorded |
| SponsorUser.FirstEntry | src/main/java/com/daon/idxAuthRequestNode/IdxSponsorUser.java:157-174 | on first entry the budget, the href and the QR script are stored, and the first poll comes from the new budget: FALSE at once for a budget of 0, a send when the script and the message can be shown, otherwise ERROR with all three stored |
| SponsorUser.FirstEntryWithoutSponsorshipErrors | src/main/java/com/daon/idxAuthRequestNode/IdxSponsorUser.java:157-163 | on first entry, a sponsorship that cannot be created (for example no application with the configured id) routes ERROR with the poll budget already written |
| SponsorUser.EnrolledRoutesTrue | src/main/java/com/daon/idxAuthRequestNode/IdxSponsorUser.java:175-179 | a completed sponsorship routes TRUE with the state unchanged |
| SponsorUser.StatusFailureErrors | src/main/java/com/daon/idxAuthRequestNode/IdxSponsorUser.java:175-187 | a status query that throws routes ERROR with the exception recorded: the node does not fail open |
| SponsorUser.WaitTimeIsMillis | src/main/java/com/daon/idxAuthRequestNode/IdxSponsorUser.java:215 | the polling wait is the decimal text of the interval in milliseconds whenever that fits in an `int` |
| SponsorUser.PollOnce | src/main/java/com/daon/idxAuthRequestNode/IdxSponsorUser.java:193-218 | with polls left, one is used up and the callbacks are sent; with none left, the node goes to FALSE |
| SponsorUser.NeverCompletingPolls | src/main/java/com/daon/idxAuthRequestNode/IdxSponsorUser.java:177-218 | against a sponsorship that never completes, every uncancelled round uses up one poll and sends, or ends at FALSE when none are left |
| SponsorUser.Countdown | src/main/java/com/daon/idxAuthRequestNode/IdxSponsorUser.java:193-218 | with k polls left, such rounds make exactly k more sends before FALSE |
| SponsorUser.PollBudget | src/main/java/com/daon/idxAuthRequestNode/IdxSponsorUser.java:157-218 | from first entry, a budget of N gives exactly N sends and then FALSE when the sponsorship never completes, the user never cancels, and the script and the message can be shown |
| SponsorUser.BuildResponse | src/main/java/com/daon/idxAuthRequestNode/IdxSponsorUser.java:193-218 | the in-place `buildResponse` equals the specification of one polling response |
| SponsorUser.Process | src/main/java/com/daon/idxAuthRequestNode/IdxSponsorUser.java:125-191 | the in-place node equals `Round` |
| IdvNode.BaseRestUri | src/main/java/com/daon/idxAuthRequestNode/DaonIDVNode.java:140 | the TrustX REST root of the tenant and the region |
| IdvNode.BaseRestUriNamesTenant | src/main/java/com/daon/idxAuthRequestNode/DaonIDVNode.java:140 | the tenant is the first label of the REST host and can be read back from the base URI |
| IdvNode.IndexOfFirst | src/main/java/com/daon/idxAuthRequestNode/DaonIDVNode.java:140 | a character first occurring at position i is found at i |
| IdvNode.NewProcessTokenRequest | src/main/java/com/daon/idxAuthRequestNode/DaonIDVNode.java:233-247 | the process token is named by a fresh UUID, ACTIVE, UNLIMITED, for the configured process definition and redirect, with the web UI under the base URI |
| IdvNode.ReturnPhase | src/main/java/com/daon/idxAuthRequestNode/DaonIDVNode.java:160-188 | always an outcome; readable stored values are both consumed; TRUE needs a fetched status document whose status is COMPLETED_ENDED_SUCCESS, and it is stored |
| IdvNode.StartPhase | src/main/java/com/daon/idxAuthRequestNode/DaonIDVNode.java:190-199 | a send exactly when the three TrustX calls succeed: one tracked GET redirect to the new instance, whose id and the bearer token are stored; otherwise FALSE with the exception recorded |
| IdvNode.Round | src/main/java/com/daon/idxAuthRequestNode/DaonIDVNode.java:144-214 | the node goes to an outcome or redirects; TRUE only in the return phase and without an error parameter |
| IdvNode.ErrorParamRoutesFalse | src/main/java/com/daon/idxAuthRequestNode/DaonIDVNode.java:153-156 | an error parameter always routes FALSE with the exception recorded |
| IdvNode.ReturnConsumesStoredValues | src/main/java/com/daon/idxAuthRequestNode/DaonIDVNode.java:160-166 | the return phase removes the instance id and the bearer token whatever the status turns out to be |
| IdvNode.TrueIffCompleted | src/main/java/com/daon/idxAuthRequestNode/DaonIDVNode.java:160-187 | TRUE iff the status is COMPLETED_ENDED_SUCCESS and, when user data is wanted, it could be fetched |
| IdvNode.UserDataOnlyOnSuccess | src/main/java/com/daon/idxAuthRequestNode/DaonIDVNode.java:173-181 | user data is written only on the way to TRUE and only when configured |
| IdvNode.StartSends | src/main/java/com/daon/idxAuthRequestNode/DaonIDVNode.java:190-199 | in a round without an error or a stored instance, the node sends exactly when the three TrustX calls succeed, redirecting to the instance and storing its id and the bearer token; otherwise FALSE |
| IdvNode.StoreThenConsume | src/main/java/com/daon/idxAuthRequestNode/DaonIDVNode.java:160-199 | after a start that created instance `id` with bearer token `b`, the redirect goes to the instance and `id` and `b` are stored; the next round trip consumes both and stores the status document of that instance fetched with that token |
| IdvNode.Process | src/main/java/com/daon/idxAuthRequestNode/DaonIDVNode.java:144-214 | the in-place node equals `Round` |
| SaasOnboarding.IsSigningKey | DaonSaasOnboardingNode/src/main/java/com/daon/saas/onboarding/DaonSaasOnboardingNode/DaonSaasOnboardingNode.java:307-309 | an RSA signature key (`use` is "sig", `kty` is "RSA") that has `n` and `e` |
| SaasOnboarding.Screen | DaonSaasOnboardingNode/src/main/java/com/daon/saas/onboarding/DaonSaasOnboardingNode/DaonSaasOnboardingNode.java:305-309 | a key is kept iff it is an RSA signature key with n and e; the test throws iff the element is not an object, has no "use", or has "use":"sig" and no "kty" |
| SaasOnboarding.SigningKeysOf | DaonSaasOnboardingNode/src/main/java/com/daon/saas/onboarding/DaonSaasOnboardingNode/DaonSaasOnboardingNode.java:302-313 | every collected key is a signing key, and the keys keep the order of the array |
| SaasOnboarding.SigningKeysComplete | DaonSaasOnboardingNode/src/main/java/com/daon/saas/onboarding/DaonSaasOnboardingNode/DaonSaasOnboardingNode.java:302-313 | with no element that throws, every signing key in the array is collected |
| SaasOnboarding.SigningKeysStopAtThrow | DaonSaasOnboardingNode/src/main/java/com/daon/saas/onboarding/DaonSaasOnboardingNode/DaonSaasOnboardingNode.java:297-320 | an element whose test throws ends the loop, and the keys collected before it are returned |
| SaasOnboarding.FirstFailing | DaonSaasOnboardingNode/src/main/java/com/daon/saas/onboarding/DaonSaasOnboardingNode/DaonSaasOnboardingNode.java:303-309 | the position of the first element whose test throws: every earlier element passes the test, and the element there throws |
| SaasOnboarding.SigningKeysExact | DaonSaasOnboardingNode/src/main/java/com/daon/saas/onboarding/DaonSaasOnboardingNode/DaonSaasOnboardingNode.java:297-320 | the collected keys are exactly the signing keys before the first element that throws, each occurrence kept, in order |
| SaasOnboarding.GetSigningKeys | DaonSaasOnboardingNode/src/main/java/com/daon/saas/onboarding/DaonSaasOnboardingNode/DaonSaasOnboardingNode.java:287-321 | the loop over the key array gives exactly the signing keys before the first throwing element, and none when the fetch fails |
| SaasOnboarding.Construct | DaonSaasOnboardingNode/src/main/java/com/daon/saas/onboarding/DaonSaasOnboardingNode/DaonSaasOnboardingNode.java:135-149 | fails iff a required setting is empty, or else iff no signing key was found; otherwise the node keeps those keys |
| SaasOnboarding.NewOnboardingNode | DaonSaasOnboardingNode/src/main/java/com/daon/saas/onboarding/DaonSaasOnboardingNode/DaonSaasOnboardingNode.java:135-149 | the constructor fails as `Construct` does, and otherwise builds a new node with the configuration and the keys |
| SaasOnboarding.OnboardingNode.constructor | DaonSaasOnboardingNode/src/main/java/com/daon/saas/onboarding/DaonSaasOnboardingNode/DaonSaasOnboardingNode.java:137-144 | the node holds its configuration and its signing keys |
| SaasOnboarding.KeyForKid | DaonSaasOnboardingNode/src/main/java/com/daon/saas/onboarding/DaonSaasOnboardingNode/DaonSaasOnboardingNode.java:351-362 | a found key has the kid and every earlier key has another kid; no match means every key has another kid; a throw means some key has no kid and every key before it has another kid |
| SaasOnboarding.GetSigningKey | DaonSaasOnboardingNode/src/main/java/com/daon/saas/onboarding/DaonSaasOnboardingNode/DaonSaasOnboardingNode.java:351-362 | the linear search finds the first key with the kid, as `KeyForKid` specifies |
| SaasOnboarding.VerifyToken | DaonSaasOnboardingNode/src/main/java/com/daon/saas/onboarding/DaonSaasOnboardingNode/DaonSaasOnboardingNode.java:324-348 | true exactly for a token of at least three parts whose header names a kid, a key with that kid comes before any key without one, that key has textual n and e, and the RS256 signature over "header.payload" checks against them |
| SaasOnboarding.VerifyUsesHeaderKid | DaonSaasOnboardingNode/src/main/java/com/daon/saas/onboarding/DaonSaasOnboardingNode/DaonSaasOnboardingNode.java:330-332 | a verified token has a header kid that names one of the node's keys |
| SaasOnboarding.VerifyFailsClosed | DaonSaasOnboardingNode/src/main/java/com/daon/saas/onboarding/DaonSaasOnboardingNode/DaonSaasOnboardingNode.java:343-347 | with no key for the header kid, verification is false |
| SaasOnboarding.VerifyTokenIn | DaonSaasOnboardingNode/src/main/java/com/daon/saas/onboarding/DaonSaasOnboardingNode/DaonSaasOnboardingNode.java:324-348 | the step-by-step verification equals `VerifyToken` |
| SaasOnboarding.ByteHex | DaonSaasOnboardingNode/src/main/java/com/daon/saas/onboarding/DaonSaasOnboardingNode/DaonSaasOnboardingNode.java:281 | `%02x` of a signed byte: two lowercase hex digits |
| SaasOnboarding.HexOf | DaonSaasOnboardingNode/src/main/java/com/daon/saas/onboarding/DaonSaasOnboardingNode/DaonSaasOnboardingNode.java:276-284 | two lowercase hex digits per byte |
| SaasOnboarding.HexOfAt | DaonSaasOnboardingNode/src/main/java/com/daon/saas/onboarding/DaonSaasOnboardingNode/DaonSaasOnboardingNode.java:279-282 | characters 2i and 2i+1 are the digits of byte i |
| SaasOnboarding.ByteHexRoundTrip | DaonSaasOnboardingNode/src/main/java/com/daon/saas/onboarding/DaonSaasOnboardingNode/DaonSaasOnboardingNode.java:281 | "%02x" of a signed byte reads back as that byte |
| SaasOnboarding.HexRoundTrip | DaonSaasOnboardingNode/src/main/java/com/daon/saas/onboarding/DaonSaasOnboardingNode/DaonSaasOnboardingNode.java:249-253 | the hex `state` determines the random bytes, so different bytes give different states |
| SaasOnboarding.ConvertBytesToHex | DaonSaasOnboardingNode/src/main/java/com/daon/saas/onboarding/DaonSaasOnboardingNode/DaonSaasOnboardingNode.java:276-284 | the builder loop gives `HexOf` |
| SaasOnboarding.BaseUrl | DaonSaasOnboardingNode/src/main/java/com/daon/saas/onboarding/DaonSaasOnboardingNode/DaonSaasOnboardingNode.java:227-231 | the authorization endpoint of the tenant with the fixed code-flow query parameters |
| SaasOnboarding.RedirectStep | DaonSaasOnboardingNode/src/main/java/com/daon/saas/onboarding/DaonSaasOnboardingNode/DaonSaasOnboardingNode.java:226-258 | a send exactly when the login hint can be read and a DRBG generator is available, leaving the state alone; otherwise FALSE with the exception recorded |
| Text.JavaSplit | DaonSaasOnboardingNode/src/main/java/com/daon/saas/onboarding/DaonSaasOnboardingNode/DaonSaasOnboardingNode.java:213 | `String.split` on a character: no piece holds the delimiter, and a string without it is its own single piece |
| SaasOnboarding.HintPart | DaonSaasOnboardingNode/src/main/java/com/daon/saas/onboarding/DaonSaasOnboardingNode/DaonSaasOnboardingNode.java:233-247 | no hint iff no field is configured or the field is not in the state; a throw iff the stored value is neither a string nor null; otherwise "&" and the stored string, or "&null" for a JSON null |
| SaasOnboarding.Round | DaonSaasOnboardingNode/src/main/java/com/daon/saas/onboarding/DaonSaasOnboardingNode/DaonSaasOnboardingNode.java:152-274 | a plain outcome is always FALSE; TRUE always replaces the state with the state as changed |
| SaasOnboarding.ErrorParamRoutesFalse | DaonSaasOnboardingNode/src/main/java/com/daon/saas/onboarding/DaonSaasOnboardingNode/DaonSaasOnboardingNode.java:160-163 | an error parameter always routes FALSE with the exception recorded |
| SaasOnboarding.FirstVisitRedirects | DaonSaasOnboardingNode/src/main/java/com/daon/saas/onboarding/DaonSaasOnboardingNode/DaonSaasOnboardingNode.java:158-258 | a round with neither an error nor a code parameter is the redirect step: it sends exactly when the hint reads and random bytes can be had |
| SaasOnboarding.SeenCodeRedirectsAgain | DaonSaasOnboardingNode/src/main/java/com/daon/saas/onboarding/DaonSaasOnboardingNode/DaonSaasOnboardingNode.java:164-170 | a code already in the state is removed and the round is the redirect step on the rest of the state: a replayed code is never exchanged, and the redirect is sent exactly when the hint reads and random bytes can be had |
| SaasOnboarding.TrueIffVerifiedToken | DaonSaasOnboardingNode/src/main/java/com/daon/saas/onboarding/DaonSaasOnboardingNode/DaonSaasOnboardingNode.java:171-221 | TRUE exactly for a fresh code whose exchanged token one of the node's keys verifies and whose payload decodes; the state handed on is then the old one plus the code and the payload |
| SaasOnboarding.FreshCodeFailureKeepsCode | DaonSaasOnboardingNode/src/main/java/com/daon/saas/onboarding/DaonSaasOnboardingNode/DaonSaasOnboardingNode.java:171-221 | a fresh code whose exchange, verification or decoding fails routes FALSE with the code stored and the exception recorded |
| SaasOnboarding.RedirectUrlShape | DaonSaasOnboardingNode/src/main/java/com/daon/saas/onboarding/DaonSaasOnboardingNode/DaonSaasOnboardingNode.java:226-258 | with a readable hint and 32 random bytes, one tracked GET redirect to the endpoint with the hint and a `state` of 64 hex digits |
| SaasOnboarding.OnboardingNode.Process | DaonSaasOnboardingNode/src/main/java/com/daon/saas/onboarding/DaonSaasOnboardingNode/DaonSaasOnboardingNode.java:152-274 | the in-place node equals `Round` for the node's configuration and keys |

## Left out

- The IdentityX SDK (repositories, query holders, `IdxRestException`), the TrustX REST client, OkHttp, JSON parsing and `URLEncoder` are inputs to the model, not code in it. `RestClient.java` is not part of this model.
- The two-argument `getTenantRepoFactory(context, node)`, `getAccessToken` and the six-argument `findUser` are called by the nodes but are not part of this model. Their answers are inputs: a factory that may be missing, and a user lookup that may throw or find no one.
- The five-argument singleton `getInstance` called by `IdxCommon.getTenantRepoFactory` is not part of this model. What it answers is an input (`SingletonAnswer`). The one-argument `getInstance` is modelled by `TenantRepoCache`.
- `TenantRepoCache.TenantRepoFactorySingleton.GetInstance`: reads the clock once, where the code builds `new Date()` twice. Concurrent callers of the static cache are not modelled.
- RSA signature checking and base64url decoding are inputs (`Crypto`, `decodePayload`). The bytes of `SecureRandom` are an input too (`randomBytes`); a missing "DRBG" generator, on which `getInstance` throws, is `None`. QR-code script generation, UUIDs and `new Date()` are inputs.
- `URLEncoder.encode` with UTF-8 does not throw, so the model treats URL encoding as a total input function (`urlEncode`).
- Logging is not modelled. The text of exception messages and stack traces is an input (`note`, `trace`); the model records only under which keys they are stored.
- `context.sharedState` and the `NodeState` of a node are modelled as one map. Transient and secure state are not modelled.
- `EqualsIgnoreCase` and the blank tests fold case and recognise whitespace on ASCII only, not on the full Unicode range.
- JSON text: string escapes are not modelled, and the JSON object shown by the mobile request node is modelled by its fields, not its serialisation.
- Strings the vendor returns (hrefs, ids, statuses) are never null in the model. A null status is modelled only where the code dereferences it.
- Outcome providers, resource bundles, configuration annotations and validators are not modelled.
- The request parameter names of the onboarding and IDV nodes, and the logger suffix of the mobile request node, are constants of classes that are not part of this model. They are placeholders (`"error"`, `"code"`) or a configuration field (`logAppender`).
- `ProcessInstanceStatus` and `ProcessTokenRequest` are modelled only by the fields the IDV node reads and writes.
- `SponsorUser.Run`: bounded by fuel. `PollBudget` covers budgets of zero or more; a negative budget, which counts down through the whole `int` range, is not covered.
- `IdxCommon.ServerNameRoundTrip`: covers hosts without a colon only. An IPv6 host is not covered.
- `SaasOnboarding.GetSigningKeys`: an exception part-way through the key array leaves the keys collected so far, because the array is declared outside the `try`; it does not leave an empty list.
