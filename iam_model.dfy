/**
 * The transfer objects exchanged with the remote authority, the completion
 * of a remote call, and the navigation targets the IAM module emits.
 */
module IamModel {

  /** Body of the sign-up request: the credentials typed into the form. */
  datatype SignUpRequest = SignUpRequest(username: string, password: string)

  /** Answer of a successful sign-up: the new account's id and name. */
  datatype SignUpResponse = SignUpResponse(id: int, username: string)

  /** Body of the sign-in request. */
  datatype SignInRequest = SignInRequest(username: string, password: string)

  /** Answer of a successful sign-in: who signed in and the bearer token issued. */
  datatype SignInResponse = SignInResponse(id: int, username: string, token: string)

  /**
   * How a remote call completed: its `next` callback ran with a response,
   * or its `error` callback ran. The error detail is only logged, so it is
   * not carried.
   */
  datatype Outcome<+T> = Success(response: T) | Failure

  /** The three surfaces the service and the guard navigate to. */
  datatype Route = Root | SignInPage | SignUpPage

  /** The router path of each surface. */
  function Path(route: Route): string
  {
    match route
    case Root => "/"
    case SignInPage => "/sign-in"
    case SignUpPage => "/sign-up"
  }
}
