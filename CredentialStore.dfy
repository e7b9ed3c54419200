/** InsecureInMemCredStore.kt: five nullable fields, each with a setter and
    (except `expiresIn`) a getter that fails when the field was never set.
    CredentialStorage.kt does not declare `isEmpty` or `clear`, yet the
    operations call them; here they are the store's own operations:
    empty means all five fields absent, and clear makes it so. */
module CredentialStore {
  import opened Wrappers
  import opened AuthErrors

  /** The value of the five fields at one moment. */
  datatype Credentials = Credentials(
    accessToken: Option<string>,
    idToken: Option<string>,
    refreshToken: Option<string>,
    expiresIn: Option<int>,
    tokenType: Option<string>)

  const NoCredentials := Credentials(None, None, None, None, None)

  predicate IsEmptyCredentials(c: Credentials) {
    c.accessToken.None? && c.idToken.None? && c.refreshToken.None? && c.expiresIn.None? && c.tokenType.None?
  }

  class InsecureInMemCredStore {
    var accessToken: Option<string>
    var idToken: Option<string>
    var refreshToken: Option<string>
    var expiresIn: Option<int>
    var tokenType: Option<string>

    function Contents(): Credentials
      reads this
    {
      Credentials(accessToken, idToken, refreshToken, expiresIn, tokenType)
    }

    predicate IsEmpty()
      reads this
    {
      IsEmptyCredentials(Contents())
    }

    constructor ()
      ensures Contents() == NoCredentials && IsEmpty()
    {
      accessToken := None;
      idToken := None;
      refreshToken := None;
      expiresIn := None;
      tokenType := None;
    }

    method SetAccessToken(token: string)
      modifies this
      ensures Contents() == old(Contents()).(accessToken := Some(token))
    {
      accessToken := Some(token);
    }

    method SetIdToken(token: string)
      modifies this
      ensures Contents() == old(Contents()).(idToken := Some(token))
    {
      idToken := Some(token);
    }

    method SetRefreshToken(token: string)
      modifies this
      ensures Contents() == old(Contents()).(refreshToken := Some(token))
    {
      refreshToken := Some(token);
    }

    method SetExpiresIn(period: int)
      modifies this
      ensures Contents() == old(Contents()).(expiresIn := Some(period))
    {
      expiresIn := Some(period);
    }

    method SetTokenType(tokenType: string)
      modifies this
      ensures Contents() == old(Contents()).(tokenType := Some(tokenType))
    {
      this.tokenType := Some(tokenType);
    }

    /** The getters: the `!!` fails on a field that was never set. */
    method AccessToken() returns (r: Result<string, Cause>)
      ensures r.Success? <==> accessToken.Some?
      ensures r.Success? ==> r.value == accessToken.value
      ensures r.Failure? ==> r.error == MissingCredential("accessToken")
    {
      r := if accessToken.Some? then Success(accessToken.value) else Failure(MissingCredential("accessToken"));
    }

    method IdToken() returns (r: Result<string, Cause>)
      ensures r.Success? <==> idToken.Some?
      ensures r.Success? ==> r.value == idToken.value
      ensures r.Failure? ==> r.error == MissingCredential("idToken")
    {
      r := if idToken.Some? then Success(idToken.value) else Failure(MissingCredential("idToken"));
    }

    method RefreshToken() returns (r: Result<string, Cause>)
      ensures r.Success? <==> refreshToken.Some?
      ensures r.Success? ==> r.value == refreshToken.value
      ensures r.Failure? ==> r.error == MissingCredential("refreshToken")
    {
      r := if refreshToken.Some? then Success(refreshToken.value) else Failure(MissingCredential("refreshToken"));
    }

    method TokenType() returns (r: Result<string, Cause>)
      ensures r.Success? <==> tokenType.Some?
      ensures r.Success? ==> r.value == tokenType.value
      ensures r.Failure? ==> r.error == MissingCredential("tokenType")
    {
      r := if tokenType.Some? then Success(tokenType.value) else Failure(MissingCredential("tokenType"));
    }

    method IsEmptyStore() returns (empty: bool)
      ensures empty <==> accessToken.None? && idToken.None? && refreshToken.None? && expiresIn.None? && tokenType.None?
    {
      empty := IsEmpty();
    }

    method Clear()
      modifies this
      ensures Contents() == NoCredentials && IsEmpty()
    {
      accessToken := None;
      idToken := None;
      refreshToken := None;
      expiresIn := None;
      tokenType := None;
    }
  }
}
