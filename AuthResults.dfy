/** The values the auth operations hand to their callbacks (the Amplify
    result classes the operations build), and the one way every operation
    wraps a failure into an AuthException. */
module AuthResults {
  import opened Wrappers
  import opened AuthErrors
  import opened CredentialStore

  /** AuthCodeDeliveryDetails.DeliveryMedium; its `fromString` is not part of
      this model and is passed to the sign-up operation as a function. */
  datatype DeliveryMedium = Email | Sms | Phone | Unknown

  datatype AuthCodeDeliveryDetails = AuthCodeDeliveryDetails(
    destination: string,
    deliveryMedium: DeliveryMedium,
    attributeName: Option<string>)

  datatype AuthSignInStep = SignInDone
  datatype AuthNextSignInStep = AuthNextSignInStep(
    signInStep: AuthSignInStep,
    additionalInfo: map<string, string>,
    codeDeliveryDetails: AuthCodeDeliveryDetails)
  datatype AuthSignInResult = AuthSignInResult(isSignInComplete: bool, nextStep: AuthNextSignInStep)

  datatype AuthSignUpStep = ConfirmSignUpStep | SignUpDone
  datatype AuthNextSignUpStep = AuthNextSignUpStep(
    signUpStep: AuthSignUpStep,
    additionalInfo: map<string, string>,
    codeDeliveryDetails: Option<AuthCodeDeliveryDetails>)
  datatype AuthUser = AuthUser(userId: string, username: string)
  datatype AuthSignUpResult = AuthSignUpResult(isSignUpComplete: bool, nextStep: AuthNextSignUpStep, user: AuthUser)

  /** Session.kt */
  datatype Session = InvalidSession | ValidSession(accessToken: string, idToken: string)

  /** What an operation's coroutine ends with: its success callback ran, its
      error callback ran, or an exception escaped both. */
  datatype Completion<+T> = Succeeded(value: T) | Failed(error: AuthException) | Uncaught(cause: Cause)

  const TryAgain := "Try again."

  /** `catch (error: Throwable) { onError.accept(AuthException(message, error, "Try again.")) }` */
  function Complete<T>(r: Result<T, Cause>, message: string): (c: Completion<T>)
    ensures r.Success? <==> c.Succeeded?
    ensures r.Success? ==> c.value == r.value
    ensures r.Failure? ==> c == Failed(AuthException(message, r.error, TryAgain))
  {
    match r
    case Success(v) => Succeeded(v)
    case Failure(e) => Failed(AuthException(message, e, TryAgain))
  }

  /** SecretHash.of(username, clientId, clientSecret), a foreign function
      passed in as `secretHash`, which may fail. */
  function SecretHash(secretHash: (string, string, string) -> Option<string>,
                      username: string, clientId: string, clientSecret: string): (r: Result<string, Cause>)
    ensures r.Success? <==> secretHash(username, clientId, clientSecret).Some?
    ensures r.Success? ==> r.value == secretHash(username, clientId, clientSecret).value
  {
    match secretHash(username, clientId, clientSecret)
    case Some(h) => Success(h)
    case None => Failure(CryptoFailure("SecretHash"))
  }

  /** A request the operation sent, with the store as it stood at that moment. */
  datatype Sent<+T> = Sent(request: T, storeAtCall: Credentials)
}
