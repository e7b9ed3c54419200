/** ConfirmSignUpOperation.kt: send ConfirmSignUp; on success the result is
    always complete, with a placeholder user id. */
module ConfirmSignUp {
  import opened Wrappers
  import opened AuthErrors
  import opened CognitoRequests
  import opened CognitoClient
  import opened AuthResults

  datatype ConfirmConfig = ConfirmConfig(clientId: string, clientSecret: string, username: string, confirmationCode: string)

  const ConfirmSignUpFailed := "Confirm sign up failed."
  const PlaceholderUserId := "TODO. How do I include this without keeping some global state?"

  function ConfirmRequestFor(secretHash: (string, string, string) -> Option<string>, cfg: ConfirmConfig)
    : (r: Result<ConfirmSignUpRequest, Cause>)
    ensures r.Success? <==> secretHash(cfg.username, cfg.clientId, cfg.clientSecret).Some?
    ensures r.Success? ==>
      && r.value.clientId == cfg.clientId && r.value.username == cfg.username
      && r.value.confirmationCode == cfg.confirmationCode
      && r.value.secretHash == secretHash(cfg.username, cfg.clientId, cfg.clientSecret).value
  {
    var hash :- SecretHash(secretHash, cfg.username, cfg.clientId, cfg.clientSecret);
    Success(ConfirmSignUpRequest(hash, cfg.clientId, cfg.username, cfg.confirmationCode))
  }

  /** The result does not depend on the reply: it is built only once
      `confirmSignUp` has returned, and is always the same shape. */
  function CallCognito(t: Transport, secretHash: (string, string, string) -> Option<string>, cfg: ConfirmConfig)
    : (r: Result<AuthSignUpResult, Cause>)
    ensures r.Success? <==> ConfirmRequestFor(secretHash, cfg).Success?
                            && ConfirmSignUp(t, ConfirmRequestFor(secretHash, cfg).value).Success?
    ensures r.Success? ==>
      && r.value.isSignUpComplete
      && r.value.nextStep == AuthNextSignUpStep(SignUpDone, map[], None)
      && r.value.user == AuthUser(PlaceholderUserId, cfg.username)
  {
    var request :- ConfirmRequestFor(secretHash, cfg);
    var _ :- ConfirmSignUp(t, request);
    Success(AuthSignUpResult(true, AuthNextSignUpStep(SignUpDone, map[], None), AuthUser(PlaceholderUserId, cfg.username)))
  }

  function Start(t: Transport, secretHash: (string, string, string) -> Option<string>, cfg: ConfirmConfig)
    : (outcome: Completion<AuthSignUpResult>)
    ensures !outcome.Uncaught?
    ensures outcome.Succeeded? <==> CallCognito(t, secretHash, cfg).Success?
    ensures outcome.Succeeded? ==>
      outcome.value == AuthSignUpResult(true, AuthNextSignUpStep(SignUpDone, map[], None), AuthUser(PlaceholderUserId, cfg.username))
    ensures outcome.Failed? ==>
      && outcome.error.message == ConfirmSignUpFailed && outcome.error.recoverySuggestion == TryAgain
      && outcome.error.cause == CallCognito(t, secretHash, cfg).error
  {
    Complete(CallCognito(t, secretHash, cfg), ConfirmSignUpFailed)
  }
}
