/** IdxAuthStatusNode: the decision node that reads the status of the pending
    authentication request and routes on it, case-insensitively. */
module AuthStatus {
  import opened Host
  import opened Text
  import opened IdxCommon

  /** The outcomes, in the order the node declares them. */
  datatype AuthStatusOutcome = PENDING | SUCCESS | FAILED | EXPIRED | ERROR

  const DeclaredOutcomes: seq<AuthStatusOutcome> := [PENDING, SUCCESS, FAILED, EXPIRED, ERROR]

  const ExceptionKey := "[IdentityX Auth Request Decision Node][Marketplace] Exception"

  /** The answers of the vendor during one round trip (`None`: the call threw).
      - `factory`: the tenant repository factory;
      - `status`: the status of the authentication request an href names (`None`
        also when the request or its status is null);
      - `note`: the text recorded for an exception. */
  datatype Vendor = Vendor(
    factory: Option<TenantRepoFactory>,
    status: string -> Option<string>,
    note: string)

  /** The status-to-outcome chain: every status lands on exactly one of the four
      non-error outcomes. */
  function Classify(status: string): (o: AuthStatusOutcome)
    ensures o != ERROR
    ensures o == SUCCESS <==> EqualsIgnoreCase(status, "COMPLETED_SUCCESSFUL")
    ensures o == PENDING <==> EqualsIgnoreCase(status, "PENDING")
    ensures o == EXPIRED <==> EqualsIgnoreCase(status, "EXPIRED")
    ensures o == FAILED <==>
      !EqualsIgnoreCase(status, "COMPLETED_SUCCESSFUL") && !EqualsIgnoreCase(status, "PENDING")
      && !EqualsIgnoreCase(status, "EXPIRED")
  {
    PendingIsNotExpired(status);
    if EqualsIgnoreCase(status, "COMPLETED_SUCCESSFUL") then SUCCESS
    else if EqualsIgnoreCase(status, "PENDING") then PENDING
    else if EqualsIgnoreCase(status, "EXPIRED") then EXPIRED
    else FAILED
  }

  /** No status matches both PENDING and EXPIRED, which differ in their first letter. */
  lemma PendingIsNotExpired(s: string)
    ensures !(EqualsIgnoreCase(s, "PENDING") && EqualsIgnoreCase(s, "EXPIRED"))
  {
    if s != [] {
      // the first letter, folded, cannot be both 'P' and 'E'
      var first := UpperAscii(s[0]);
    }
  }

  lemma EqualsIgnoreCaseSymmetric(a: string, b: string)
    requires EqualsIgnoreCase(a, b)
    ensures EqualsIgnoreCase(b, a)
  {
  }

  lemma EqualsIgnoreCaseTransitive(a: string, b: string, c: string)
    requires EqualsIgnoreCase(a, b) && EqualsIgnoreCase(b, c)
    ensures EqualsIgnoreCase(a, c)
  {
  }

  /** Statuses that differ only in the case of their letters route alike. */
  lemma {:induction false} ClassifyIgnoresCase(s: string, t: string)
    requires EqualsIgnoreCase(s, t)
    ensures Classify(s) == Classify(t)
  {
    EqualsIgnoreCaseSymmetric(s, t);
    var names := ["COMPLETED_SUCCESSFUL", "PENDING", "EXPIRED"];
    forall n | n in names
      ensures EqualsIgnoreCase(s, n) <==> EqualsIgnoreCase(t, n)
    {
      if EqualsIgnoreCase(s, n) {
        EqualsIgnoreCaseTransitive(t, s, n);
      }
      if EqualsIgnoreCase(t, n) {
        EqualsIgnoreCaseTransitive(s, t, n);
      }
    }
  }

  /** `process`: the user name and the href must be readable and the status must
      be fetched, or the exception is recorded and the outcome is ERROR. */
  function Round(v: Vendor, st: State): (r: Step<AuthStatusOutcome>)
    ensures r.action.GoTo?
    ensures r.action.outcome == ERROR <==>
      !NodeReadString(st, UserNameKey).Str? || v.factory == None
      || !NodeReadString(st, HrefKey).Str? || v.status(NodeReadString(st, HrefKey).s) == None
    ensures r.action.outcome == ERROR ==> r.state == st[ExceptionKey := Text(v.note)]
    ensures r.action.outcome != ERROR ==>
      r.state == st && r.action.outcome == Classify(v.status(NodeReadString(st, HrefKey).s).value)
  {
    var fail := Step(GoTo(ERROR), st[ExceptionKey := Text(v.note)]);
    if !NodeReadString(st, UserNameKey).Str? || v.factory == None then fail
    else
      var href := NodeReadString(st, HrefKey);
      if !href.Str? then fail
      else match v.status(href.s)
        case None => fail
        case Some(status) => Step(GoTo(Classify(status)), st)
  }

  /** A user name that is missing (or null) always routes ERROR. */
  lemma MissingUserNameErrors(v: Vendor, st: State)
    requires UserNameKey !in st || st[UserNameKey] == Null
    ensures Round(v, st).action == GoTo(ERROR)
  {
  }

  /** An href that is missing (or null) always routes ERROR, whatever the vendor says. */
  lemma MissingHrefErrors(v: Vendor, st: State)
    requires HrefKey !in st || st[HrefKey] == Null
    ensures Round(v, st).action == GoTo(ERROR)
  {
  }

  /** A readable request routes SUCCESS exactly when its status is
      COMPLETED_SUCCESSFUL in any letter case. */
  lemma SuccessIffCompleted(v: Vendor, st: State, href: string, status: string)
    requires NodeReadString(st, UserNameKey).Str? && v.factory.Some?
    requires NodeReadString(st, HrefKey) == Str(href) && v.status(href) == Some(status)
    ensures Round(v, st).action == GoTo(SUCCESS) <==> EqualsIgnoreCase(status, "COMPLETED_SUCCESSFUL")
    ensures Round(v, st).action == GoTo(FAILED) <==>
      !EqualsIgnoreCase(status, "COMPLETED_SUCCESSFUL") && !EqualsIgnoreCase(status, "PENDING")
      && !EqualsIgnoreCase(status, "EXPIRED")
  {
  }

  /** Every declared outcome is reached by some shared state and some vendor answers:
      ERROR when the factory cannot be built, the other four by the status the
      vendor reports for a readable user name and href. */
  lemma {:induction false} DeclaredOutcomesReachable(o: AuthStatusOutcome)
    requires o in DeclaredOutcomes
    ensures exists v: Vendor, st: State :: Round(v, st).action.outcome == o
  {
    var st: State := map[UserNameKey := Text("user"), HrefKey := Text("href")];
    assert NodeReadString(st, UserNameKey) == Str("user");
    assert NodeReadString(st, HrefKey) == Str("href");
    var status := match o
      case SUCCESS => "COMPLETED_SUCCESSFUL"
      case PENDING => "PENDING"
      case EXPIRED => "EXPIRED"
      case _ => "DECLINED";
    var factory := if o == ERROR then None else Some(TenantRepoFactory(0));
    var v := Vendor(factory, (href: string) => Some(status), "note");
    if o == FAILED {
      // "DECLINED" differs from each of the other three statuses in its first letter
      assert UpperAscii(status[0]) == 'D';
    }
    assert Round(v, st).action.outcome == o;
  }
}
