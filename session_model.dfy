/**
 * The session state of the authentication service as a value, the effect of
 * each completed operation on it, and what follows for any sequence of them.
 */
module SessionModel {
  import opened Wrappers
  import opened IamModel

  /**
   * The signed-in flag, the current user id and user name, and the `token`
   * entry of local storage (`None` when the entry is absent).
   */
  datatype Session = Session(signedIn: bool, userId: int, username: string, token: Option<string>)

  /** A freshly constructed service: the triple at its defaults, the token slot as it was persisted. */
  function Fresh(persisted: Option<string>): Session
  {
    Session(false, 0, "", persisted)
  }

  /** The signed-out session, which sign-out always produces: a fresh one over empty storage. */
  const SignedOut := Fresh(None)

  /**
   * One completed operation: a sign-up or sign-in whose remote call has
   * reported its outcome, or a sign-out.
   */
  datatype Event =
    | SignUpCompleted(signUp: Outcome<SignUpResponse>)
    | SignInCompleted(signIn: Outcome<SignInResponse>)
    | SignOutCalled

  /** The state after an operation completes in state `s`. */
  function Next(s: Session, e: Event): Session
  {
    match e
    case SignUpCompleted(_) => s
    case SignInCompleted(Success(r)) => Session(true, r.id, r.username, Some(r.token))
    case SignInCompleted(Failure) => s
    case SignOutCalled => SignedOut
  }

  /** The navigation intent an operation emits when it completes. */
  function Intent(e: Event): Route
  {
    match e
    case SignUpCompleted(Success(_)) => SignInPage
    case SignUpCompleted(Failure) => SignUpPage
    case SignInCompleted(Success(_)) => Root
    case SignInCompleted(Failure) => SignInPage
    case SignOutCalled => SignInPage
  }

  /** The operations that overwrite the whole session: a successful sign-in and a sign-out. */
  predicate Commits(e: Event)
  {
    e.SignOutCalled? || (e.SignInCompleted? && e.signIn.Success?)
  }

  /**
   * The session stays coherent: when signed out the id and name are at
   * their defaults, and when signed in a token has been stored.
   */
  predicate Consistent(s: Session)
  {
    (!s.signedIn ==> s.userId == 0 && s.username == "") && (s.signedIn ==> s.token.Some?)
  }

  /** The state after the operations `evs` complete in order, starting from `s`. */
  function Run(s: Session, evs: seq<Event>): Session
    decreases |evs|
  {
    if evs == [] then s else Next(Run(s, evs[..|evs| - 1]), evs[|evs| - 1])
  }

  /** The last operation of `evs` that overwrites the session, if any. */
  function LastCommit(evs: seq<Event>): (r: Option<Event>)
    ensures r.Some? ==> Commits(r.value) && r.value in evs
    ensures r.Some? ==> exists i :: 0 <= i < |evs| && evs[i] == r.value && forall j :: i < j < |evs| ==> !Commits(evs[j])
    ensures r.None? ==> forall i :: 0 <= i < |evs| ==> !Commits(evs[i])
    decreases |evs|
  {
    if evs == [] then None
    else if Commits(evs[|evs| - 1]) then Some(evs[|evs| - 1])
    else LastCommit(evs[..|evs| - 1])
  }

  /** Running one more operation is applying it to the state reached so far. */
  lemma RunSnoc(s: Session, evs: seq<Event>, e: Event)
    ensures Run(s, evs + [e]) == Next(Run(s, evs), e)
  {
    assert (evs + [e])[..|evs|] == evs;
  }

  /** A successful sign-in sets the whole triple from the response, stores its token and goes to the root. */
  lemma SignInSuccessState(s: Session, r: SignInResponse)
    ensures Next(s, SignInCompleted(Success(r))) == Session(true, r.id, r.username, Some(r.token))
    ensures Intent(SignInCompleted(Success(r))) == Root && Path(Root) == "/"
  {
  }

  /**
   * Everything except a successful sign-in or a sign-out leaves the session
   * as it was: sign-up never signs in, and a failed sign-in applies nothing.
   */
  lemma NonCommittingIsNoOp(s: Session, e: Event)
    ensures !Commits(e) ==> Next(s, e) == s
  {
  }

  /** Sign-out reaches the defaults with no token from any state, and a second sign-out changes nothing. */
  lemma SignOutIdempotent(s: Session)
    ensures Next(s, SignOutCalled) == SignedOut
    ensures Next(Next(s, SignOutCalled), SignOutCalled) == Next(s, SignOutCalled)
    ensures Intent(SignOutCalled) == SignInPage
  {
  }

  /**
   * Signing in and then out ends at the initial triple with no token,
   * whatever the response and whatever the state before.
   */
  lemma SignInThenSignOut(s: Session, r: SignInResponse)
    ensures Run(s, [SignInCompleted(Success(r)), SignOutCalled]) == SignedOut
  {
    var evs := [SignInCompleted(Success(r)), SignOutCalled];
    assert evs[..1] == [SignInCompleted(Success(r))];
    assert evs[..1][..0] == [];
  }

  /** Every operation keeps the session coherent. */
  lemma NextConsistent(s: Session, e: Event)
    requires Consistent(s)
    ensures Consistent(Next(s, e))
  {
  }

  /** Every sequence of operations keeps the session coherent. */
  lemma {:induction false} RunConsistent(s: Session, evs: seq<Event>)
    requires Consistent(s)
    ensures Consistent(Run(s, evs))
    decreases |evs|
  {
    if evs != [] {
      RunConsistent(s, evs[..|evs| - 1]);
      NextConsistent(Run(s, evs[..|evs| - 1]), evs[|evs| - 1]);
    }
  }

  /**
   * Whichever overwriting operation completes last wins: the session after
   * `evs` is what that operation alone produces, and it is `s` itself when
   * there is none.
   */
  lemma {:induction false} LastCommitWins(s: Session, evs: seq<Event>)
    ensures Run(s, evs) == match LastCommit(evs) case None => s case Some(e) => Next(s, e)
    decreases |evs|
  {
    if evs != [] {
      var prefix, last := evs[..|evs| - 1], evs[|evs| - 1];
      if !Commits(last) {
        LastCommitWins(s, prefix);
      }
    }
  }

  /**
   * The flag can be set while the user name is empty: sign-in copies
   * whatever name the response carries, and the session stays coherent.
   */
  lemma EmptyUsernameSignedIn(t: string)
    ensures var s := Next(Fresh(None), SignInCompleted(Success(SignInResponse(1, "", t))));
            s.signedIn && s.username == "" && Consistent(s)
  {
  }

  /** A signed-out session becomes signed in only through a successful sign-in. */
  lemma SignedInOnlyBySignIn(s: Session, evs: seq<Event>)
    requires !s.signedIn && Run(s, evs).signedIn
    ensures exists i :: 0 <= i < |evs| && evs[i].SignInCompleted? && evs[i].signIn.Success?
  {
    LastCommitWins(s, evs);
  }
}
