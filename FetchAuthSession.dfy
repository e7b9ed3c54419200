/** FetchAuthSessionOperation.kt: an empty store gives an invalid session;
    an expired one is refreshed first; then the stored access and ID tokens
    make a valid session. Whether the store is expired is the store's own
    answer, passed in as `isExpired`. */
module FetchAuthSession {
  import opened Wrappers
  import opened AuthErrors
  import opened CognitoRequests
  import opened CognitoClient
  import opened CredentialStore
  import opened AuthResults

  datatype FetchConfig = FetchConfig(clientId: string, clientSecret: string)

  const RefreshTokenAuth := "REFRESH_TOKEN_AUTH"
  const FetchFailed := "Failed to fetch session."

  /** Lines 42-50: the client secret itself goes in as SECRET_HASH. */
  function RefreshRequest(cfg: FetchConfig, refreshToken: string): (r: InitiateAuthRequest)
    ensures r.authFlow == RefreshTokenAuth && r.clientId == cfg.clientId
    ensures r.authParameters.Keys == {"REFRESH_TOKEN", "SECRET_HASH"}
    ensures r.authParameters["REFRESH_TOKEN"] == refreshToken && r.authParameters["SECRET_HASH"] == cfg.clientSecret
  {
    InitiateAuthRequest(RefreshTokenAuth, cfg.clientId, map["REFRESH_TOKEN" := refreshToken, "SECRET_HASH" := cfg.clientSecret])
  }

  /** The store after lines 53-62. */
  function Refreshed(previousRefreshToken: string, a: AuthenticationResult): Credentials {
    Credentials(Some(a.accessToken), Some(a.idToken), Some(a.refreshToken.GetOr(previousRefreshToken)),
                Some(a.expiresIn), Some(a.tokenType))
  }

  /** Lines 53-62: clear, then rewrite every field from the server's result,
      keeping the previous refresh token when the server sends none. */
  method RewriteStore(store: InsecureInMemCredStore, previousRefreshToken: string, a: AuthenticationResult)
    modifies store
    ensures store.Contents() == Refreshed(previousRefreshToken, a)
    ensures store.refreshToken == (if a.refreshToken.Some? then a.refreshToken else Some(previousRefreshToken))
  {
    store.Clear();
    if a.refreshToken.Some? {
      store.SetRefreshToken(a.refreshToken.value);
    } else {
      store.SetRefreshToken(previousRefreshToken);
    }
    store.SetAccessToken(a.accessToken);
    store.SetIdToken(a.idToken);
    store.SetExpiresIn(a.expiresIn);
    store.SetTokenType(a.tokenType);
  }

  /** `refresh`: the store is touched only after `initiateAuth` has
      returned, so a failing call leaves it as it was. */
  method Refresh(store: InsecureInMemCredStore, t: Transport, cfg: FetchConfig)
    returns (r: Result<(), Cause>, sent: seq<Sent<InitiateAuthRequest>>)
    modifies store
    ensures old(store.refreshToken).None? ==>
      r == Failure(MissingCredential("refreshToken")) && sent == [] && store.Contents() == old(store.Contents())
    ensures old(store.refreshToken).Some? ==>
      sent == [Sent(RefreshRequest(cfg, old(store.refreshToken).value), old(store.Contents()))]
    ensures |sent| == 1 ==> var reply := InitiateAuth(t, sent[0].request);
      && (reply.Failure? ==> r == Failure(reply.error) && store.Contents() == old(store.Contents()))
      && (reply.Success? ==>
            && r == Success(())
            && store.Contents() == Refreshed(old(store.refreshToken).value, reply.value.authenticationResult.value))
  {
    var refreshToken := store.RefreshToken();
    if refreshToken.Failure? {
      return Failure(refreshToken.error), [];
    }
    var request := RefreshRequest(cfg, refreshToken.value);
    sent := [Sent(request, store.Contents())];
    var reply := InitiateAuth(t, request);
    if reply.Failure? {
      return Failure(reply.error), sent;
    }
    // the client's parser always yields an authentication result, so the `!!` of line 52 holds
    var authenticationResult := reply.value.authenticationResult.value;
    RewriteStore(store, refreshToken.value, authenticationResult);
    r := Success(());
  }

  /** What the `try` block of lines 29-35 makes of the store. */
  function SessionOf(c: Credentials): (outcome: Completion<Session>)
    ensures outcome.Succeeded? <==> c.accessToken.Some? && c.idToken.Some?
    ensures outcome.Succeeded? ==> outcome.value == ValidSession(c.accessToken.value, c.idToken.value)
    ensures !outcome.Uncaught?
    ensures outcome.Failed? ==> outcome.error.message == FetchFailed && outcome.error.recoverySuggestion == TryAgain
    ensures c.accessToken.None? ==> outcome.Failed? && outcome.error.cause == MissingCredential("accessToken")
  {
    if c.accessToken.None? then Failed(AuthException(FetchFailed, MissingCredential("accessToken"), TryAgain))
    else if c.idToken.None? then Failed(AuthException(FetchFailed, MissingCredential("idToken"), TryAgain))
    else Succeeded(ValidSession(c.accessToken.value, c.idToken.value))
  }

  method ReadSession(store: InsecureInMemCredStore) returns (outcome: Completion<Session>)
    ensures outcome == SessionOf(store.Contents())
  {
    var accessToken := store.AccessToken();
    if accessToken.Failure? {
      return Failed(AuthException(FetchFailed, accessToken.error, TryAgain));
    }
    var idToken := store.IdToken();
    if idToken.Failure? {
      return Failed(AuthException(FetchFailed, idToken.error, TryAgain));
    }
    outcome := Succeeded(ValidSession(accessToken.value, idToken.value));
  }

  /** `start`. A refresh failure is thrown outside the `try`, so it reaches
      neither callback (`Uncaught`). */
  method Start(store: InsecureInMemCredStore, t: Transport, cfg: FetchConfig, isExpired: Credentials -> bool)
    returns (outcome: Completion<Session>, sent: seq<Sent<InitiateAuthRequest>>)
    modifies store
    ensures old(store.IsEmpty()) ==>
      outcome == Succeeded(InvalidSession) && sent == [] && store.Contents() == old(store.Contents())
    ensures !old(store.IsEmpty()) && !isExpired(old(store.Contents())) ==>
      outcome == SessionOf(old(store.Contents())) && sent == [] && store.Contents() == old(store.Contents())
    ensures !old(store.IsEmpty()) && isExpired(old(store.Contents())) && old(store.refreshToken).None? ==>
      outcome == Uncaught(MissingCredential("refreshToken")) && sent == [] && store.Contents() == old(store.Contents())
    ensures !old(store.IsEmpty()) && isExpired(old(store.Contents())) && old(store.refreshToken).Some? ==>
      && sent == [Sent(RefreshRequest(cfg, old(store.refreshToken).value), old(store.Contents()))]
      && var reply := InitiateAuth(t, sent[0].request);
      && (reply.Failure? ==> outcome == Uncaught(reply.error) && store.Contents() == old(store.Contents()))
      && (reply.Success? ==>
            var a := reply.value.authenticationResult.value;
            && store.Contents() == Refreshed(old(store.refreshToken).value, a)
            && outcome == Succeeded(ValidSession(a.accessToken, a.idToken)))
  {
    var empty := store.IsEmptyStore();
    if empty {
      return Succeeded(InvalidSession), [];
    }
    sent := [];
    if isExpired(store.Contents()) {
      var refreshed;
      refreshed, sent := Refresh(store, t, cfg);
      if refreshed.Failure? {
        return Uncaught(refreshed.error), sent;
      }
    }
    outcome := ReadSession(store);
  }
}
