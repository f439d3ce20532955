/**
 * The route guard: admits a navigation when the user is signed in at the
 * moment it is evaluated, and otherwise denies it and redirects to sign-in.
 */
module Guard {
  import opened Wrappers
  import opened IamModel
  import opened SessionModel
  import opened Authentication

  /** Whether the navigation is admitted, and where the guard redirects when it is not. */
  datatype GuardDecision = GuardDecision(admit: bool, redirect: Option<Route>)

  /**
   * The decision for one snapshot of the signed-in flag. The guard reads the
   * flag once and writes nothing, so it is a function of that value alone.
   */
  function AuthenticationGuard(isSignedIn: bool): (d: GuardDecision)
    ensures d.admit <==> isSignedIn
    ensures d.admit ==> d.redirect == None
    ensures !d.admit ==> d.redirect == Some(SignInPage) && Path(d.redirect.value) == "/sign-in"
  {
    if isSignedIn then GuardDecision(true, None) else GuardDecision(false, Some(SignInPage))
  }

  /** After a sign-out the guard denies, and after a successful sign-in it admits, whatever came before. */
  lemma GuardAfterTransitions(s: Session, r: SignInResponse)
    ensures AuthenticationGuard(Next(s, SignOutCalled).signedIn) == GuardDecision(false, Some(SignInPage))
    ensures AuthenticationGuard(Next(s, SignInCompleted(Success(r))).signedIn) == GuardDecision(true, None)
  {
  }

  /**
   * After any sequence of operations the guard admits exactly when the last
   * operation that overwrote the session was a successful sign-in, or, when
   * there was none, when the starting session was signed in.
   */
  lemma GuardAfterRun(s: Session, evs: seq<Event>)
    ensures AuthenticationGuard(Run(s, evs).signedIn).admit <==>
              match LastCommit(evs) case None => s.signedIn case Some(e) => e.SignInCompleted?
  {
    LastCommitWins(s, evs);
  }

  /** A freshly started service is not signed in, so the guard denies it and redirects to sign-in. */
  lemma GuardDeniesFreshSession(persisted: Option<string>, evs: seq<Event>)
    requires forall i :: 0 <= i < |evs| ==> !(evs[i].SignInCompleted? && evs[i].signIn.Success?)
    ensures AuthenticationGuard(Run(Fresh(persisted), evs).signedIn) == GuardDecision(false, Some(SignInPage))
  {
    if Run(Fresh(persisted), evs).signedIn {
      SignedInOnlyBySignIn(Fresh(persisted), evs);
    }
  }

  /**
   * The guard evaluated on a service object's flag admits exactly when the
   * last sign-in or sign-out to complete was a successful sign-in.
   */
  lemma GuardOnService(svc: AuthenticationService)
    requires svc.Valid()
    ensures AuthenticationGuard(svc.IsSignedIn()).admit <==>
              match LastCommit(svc.history) case None => false case Some(e) => e.SignInCompleted?
    ensures !svc.IsSignedIn() ==> AuthenticationGuard(svc.IsSignedIn()).redirect == Some(SignInPage)
  {
    LastCommitWins(Fresh(svc.persisted), svc.history);
  }
}
