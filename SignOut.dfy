/** SignOutOperation.kt: read the access token, clear the store, then tell
    the service. The store is already empty when `globalSignOut` runs, so a
    failing call still leaves the user signed out locally. The call site
    passes a request object where Cognito.globalSignOut takes the token
    string; here the token itself is passed. */
module SignOut {
  import opened Wrappers
  import opened AuthErrors
  import opened CognitoClient
  import opened CredentialStore
  import opened AuthResults

  const SignOutFailed := "Sign out failed."

  method Start(store: InsecureInMemCredStore, t: Transport)
    returns (outcome: Completion<()>, sent: seq<Sent<string>>)
    modifies store
    ensures !outcome.Uncaught?
    ensures old(store.accessToken).None? ==>
      && outcome == Failed(AuthException(SignOutFailed, MissingCredential("accessToken"), TryAgain))
      && sent == [] && store.Contents() == old(store.Contents())
    ensures old(store.accessToken).Some? ==>
      && store.Contents() == NoCredentials
      && sent == [Sent(old(store.accessToken).value, NoCredentials)]
      && var reply := GlobalSignOut(t, old(store.accessToken).value);
      && (reply.Success? ==> outcome == Succeeded(()))
      && (reply.Failure? ==> outcome == Failed(AuthException(SignOutFailed, reply.error, TryAgain)))
  {
    var accessToken := store.AccessToken();
    if accessToken.Failure? {
      return Failed(AuthException(SignOutFailed, accessToken.error, TryAgain)), [];
    }
    store.Clear();
    sent := [Sent(accessToken.value, store.Contents())];
    var reply := GlobalSignOut(t, accessToken.value);
    outcome := Complete(reply, SignOutFailed);
  }
}
