/**
 * The authentication service: the signed-in triple, the persisted token and
 * the sign-up, sign-in and sign-out operations with the navigation each one
 * triggers.
 */
module Authentication {
  import opened Wrappers
  import opened IamModel
  import opened SessionModel

  class AuthenticationService {
    var signedIn: bool
    var signedInUserId: int
    var signedInUsername: string
    /** The `token` entry of local storage; `None` when it is absent. */
    var token: Option<string>

    /** What local storage held for `token` when the service was constructed. */
    ghost const persisted: Option<string>
    /** The operations completed so far, in order. */
    ghost var history: seq<Event>

    /** The current value of the state as one session. */
    function Snapshot(): Session
      reads this
    {
      Session(signedIn, signedInUserId, signedInUsername, token)
    }

    /** The state is what the completed operations produce from the start, and it is coherent. */
    ghost predicate Valid()
      reads this
    {
      Snapshot() == Run(Fresh(persisted), history) && Consistent(Snapshot())
    }

    /**
     * The signed-in flag, the one getter the guard and the UI read: set
     * exactly when the last sign-in or sign-out to complete was a
     * successful sign-in.
     */
    function IsSignedIn(): (b: bool)
      reads this
      ensures Valid() ==> (b <==> match LastCommit(history) case None => false case Some(e) => e.SignInCompleted?)
    {
      LastCommitWins(Fresh(persisted), history);
      signedIn
    }

    /** The current user id: the id of the last successful sign-in, unless a sign-out came after it. */
    function CurrentUserId(): (id: int)
      reads this
      ensures Valid() ==> id == match LastCommit(history) case Some(SignInCompleted(Success(r))) => r.id case _ => 0
    {
      LastCommitWins(Fresh(persisted), history);
      signedInUserId
    }

    /** The current user name: the name of the last successful sign-in, unless a sign-out came after it. */
    function CurrentUsername(): (name: string)
      reads this
      ensures Valid() ==> name == match LastCommit(history) case Some(SignInCompleted(Success(r))) => r.username case _ => ""
    {
      LastCommitWins(Fresh(persisted), history);
      signedInUsername
    }

    /** A new service, over a local storage that may still hold a token from an earlier run. */
    constructor (stored: Option<string>)
      ensures Valid() && history == [] && persisted == stored
      ensures !signedIn && signedInUserId == 0 && signedInUsername == ""
      ensures token == stored
    {
      signedIn, signedInUserId, signedInUsername := false, 0, "";
      token := stored;
      persisted := stored;
      history := [];
    }

    /**
     * Completes a sign-up whose remote call ended with `outcome`. Neither
     * branch touches the session: there is no automatic sign-in.
     */
    method SignUp(request: SignUpRequest, outcome: Outcome<SignUpResponse>) returns (intent: Route)
      requires Valid()
      modifies this
      ensures Valid() && history == old(history) + [SignUpCompleted(outcome)]
      ensures Snapshot() == old(Snapshot())
      ensures intent == if outcome.Success? then SignInPage else SignUpPage
      ensures intent == Intent(SignUpCompleted(outcome))
    {
      RunSnoc(Fresh(persisted), history, SignUpCompleted(outcome));
      history := history + [SignUpCompleted(outcome)];
      match outcome
      case Success(_) =>
        intent := SignInPage;
      case Failure =>
        intent := SignUpPage;
    }

    /**
     * Completes a sign-in whose remote call ended with `outcome`. On success
     * the triple is taken from the response and its token stored; on failure
     * nothing changes.
     */
    method SignIn(request: SignInRequest, outcome: Outcome<SignInResponse>) returns (intent: Route)
      requires Valid()
      modifies this
      ensures Valid() && history == old(history) + [SignInCompleted(outcome)]
      ensures outcome.Success? ==>
                && signedIn
                && signedInUserId == outcome.response.id
                && signedInUsername == outcome.response.username
                && token == Some(outcome.response.token)
                && intent == Root
      ensures outcome.Failure? ==> Snapshot() == old(Snapshot()) && intent == SignInPage
      ensures intent == Intent(SignInCompleted(outcome))
    {
      RunSnoc(Fresh(persisted), history, SignInCompleted(outcome));
      history := history + [SignInCompleted(outcome)];
      match outcome
      case Success(response) =>
        signedIn := true;
        signedInUserId := response.id;
        signedInUsername := response.username;
        token := Some(response.token);
        intent := Root;
      case Failure =>
        intent := SignInPage;
    }

    /** Signs out from any state: the triple back to its defaults and the token removed. */
    method SignOut() returns (intent: Route)
      requires Valid()
      modifies this
      ensures Valid() && history == old(history) + [SignOutCalled]
      ensures !signedIn && signedInUserId == 0 && signedInUsername == "" && token == None
      ensures intent == SignInPage && intent == Intent(SignOutCalled)
    {
      RunSnoc(Fresh(persisted), history, SignOutCalled);
      history := history + [SignOutCalled];
      signedIn := false;
      signedInUserId := 0;
      signedInUsername := "";
      token := None;
      intent := SignInPage;
    }
  }

  /**
   * A fresh service over empty storage; alice signs in and the remote
   * authority answers with id 7 and token "abc123".
   */
  method AliceSignsIn() returns (after: Session, intent: Route)
    ensures after == Session(true, 7, "alice", Some("abc123"))
    ensures Path(intent) == "/"
  {
    var service := new AuthenticationService(None);
    intent := service.SignIn(SignInRequest("alice", "pw"), Success(SignInResponse(7, "alice", "abc123")));
    after := service.Snapshot();
  }

  /**
   * A fresh service over empty storage; bob signs up successfully, which
   * leaves the session anonymous and sends him to the sign-in surface; a
   * failed sign-in after that still leaves it anonymous.
   */
  method BobSignsUp() returns (afterSignUp: Session, signUpIntent: Route, afterFailedSignIn: Session, signInIntent: Route)
    ensures afterSignUp == SignedOut && Path(signUpIntent) == "/sign-in"
    ensures afterFailedSignIn == SignedOut && Path(signInIntent) == "/sign-in"
  {
    var service := new AuthenticationService(None);
    signUpIntent := service.SignUp(SignUpRequest("bob", "pw"), Success(SignUpResponse(3, "bob")));
    afterSignUp := service.Snapshot();
    signInIntent := service.SignIn(SignInRequest("bob", "wrong"), Failure);
    afterFailedSignIn := service.Snapshot();
  }
}
