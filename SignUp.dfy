/** SignUpOperation.kt: send SignUp and map the reply into an Amplify
    sign-up result. The call site passes user attributes that the
    SignUpRequest constructor does not take; as written, none is sent.
    DeliveryMedium.fromString is passed in as `fromString`. */
module SignUp {
  import opened Wrappers
  import opened AuthErrors
  import opened Json
  import opened CognitoRequests
  import opened CognitoClient
  import opened AuthResults

  datatype SignUpConfig = SignUpConfig(clientId: string, clientSecret: string, username: string, password: string)

  const SignUpFailed := "Sign up failed."

  function SignUpRequestFor(secretHash: (string, string, string) -> Option<string>, cfg: SignUpConfig)
    : (r: Result<SignUpRequest, Cause>)
    ensures r.Success? <==> secretHash(cfg.username, cfg.clientId, cfg.clientSecret).Some?
    ensures r.Success? ==> r.value == SignUpRequest(cfg.username, cfg.password, cfg.clientId,
                                                    secretHash(cfg.username, cfg.clientId, cfg.clientSecret).value)
  {
    var hash :- SecretHash(secretHash, cfg.username, cfg.clientId, cfg.clientSecret);
    Success(SignUpRequest(cfg.username, cfg.password, cfg.clientId, hash))
  }

  /** Lines 48-64. */
  function SignUpResultOf(response: SignUpResponse, username: string, fromString: string -> DeliveryMedium)
    : (r: AuthSignUpResult)
    ensures r.isSignUpComplete == response.userConfirmed
    ensures r.nextStep.signUpStep == SignUpDone <==> response.userConfirmed
    ensures r.nextStep.signUpStep == ConfirmSignUpStep <==> !response.userConfirmed
    ensures r.nextStep.additionalInfo == map[]
    ensures r.user == AuthUser(response.userSub, username)
    ensures var d := response.codeDeliveryDetails;
      r.nextStep.codeDeliveryDetails == Some(AuthCodeDeliveryDetails(d.destination, fromString(d.deliveryMedium), Some(d.attributeName)))
  {
    var d := response.codeDeliveryDetails;
    var details := AuthCodeDeliveryDetails(d.destination, fromString(d.deliveryMedium), Some(d.attributeName));
    var step := if response.userConfirmed then SignUpDone else ConfirmSignUpStep;
    AuthSignUpResult(response.userConfirmed, AuthNextSignUpStep(step, map[], Some(details)), AuthUser(response.userSub, username))
  }

  function CallCognito(t: Transport, secretHash: (string, string, string) -> Option<string>, cfg: SignUpConfig,
                       fromString: string -> DeliveryMedium): (r: Result<AuthSignUpResult, Cause>)
    ensures r.Success? ==>
      && SignUpRequestFor(secretHash, cfg).Success?
      && SignUp(t, SignUpRequestFor(secretHash, cfg).value).Success?
      && r.value == SignUpResultOf(SignUp(t, SignUpRequestFor(secretHash, cfg).value).value, cfg.username, fromString)
  {
    var request :- SignUpRequestFor(secretHash, cfg);
    var response :- SignUp(t, request);
    Success(SignUpResultOf(response, cfg.username, fromString))
  }

  function Start(t: Transport, secretHash: (string, string, string) -> Option<string>, cfg: SignUpConfig,
                 fromString: string -> DeliveryMedium): (outcome: Completion<AuthSignUpResult>)
    ensures !outcome.Uncaught?
    ensures outcome.Succeeded? <==> CallCognito(t, secretHash, cfg, fromString).Success?
    ensures outcome.Failed? ==>
      && outcome.error.message == SignUpFailed && outcome.error.recoverySuggestion == TryAgain
      && outcome.error.cause == CallCognito(t, secretHash, cfg, fromString).error
  {
    Complete(CallCognito(t, secretHash, cfg, fromString), SignUpFailed)
  }

  /** End to end: when the service answers the request with the wire form
      of a response, the operation reports exactly the mapped result. */
  lemma SignUpEndToEnd(t: Transport, secretHash: (string, string, string) -> Option<string>, cfg: SignUpConfig,
                       fromString: string -> DeliveryMedium, hash: string, response: SignUpResponse)
    requires secretHash(cfg.username, cfg.clientId, cfg.clientSecret) == Some(hash)
    requires var reply := t.exchange(SignUpRequestJson(SignUpRequest(cfg.username, cfg.password, cfg.clientId, hash)));
      200 <= reply.status <= 399 && t.parse(JoinTrimmed(reply.body)) == Some(SignUpResponseJson(response))
    ensures Start(t, secretHash, cfg, fromString) == Succeeded(SignUpResultOf(response, cfg.username, fromString))
  {
    SignUpResponseRoundTrip(response);
  }
}
