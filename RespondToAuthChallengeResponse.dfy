/** client/RespondToAuthChallengeResponse.kt: `from(json)`, where, unlike in
    Cognito.respondToAuthChallenge, "ChallengeName" is optional. */
module RespondToAuthChallengeResponseParser {
  import opened Wrappers
  import opened Json
  import opened AuthErrors
  import opened CognitoClient

  function From(json: JsonObject): (r: Result<RespondToAuthChallengeResponse, Cause>)
    ensures "AuthenticationResult" !in json ==> r.Failure?
    ensures r.Success? && "ChallengeName" !in json ==> r.value.challengeName == None
    ensures r.Success? && "ChallengeName" in json ==>
      r.value.challengeName.Some? && json["ChallengeName"] == JString(r.value.challengeName.value)
    ensures r.Success? ==> (json["AuthenticationResult"].JObject?
      && ParseAuthenticationResult(json["AuthenticationResult"].fields) == Success(r.value.authenticationResult))
  {
    var authResultJson :- Obj(json, "AuthenticationResult");
    var challengeName :- if "ChallengeName" in json then
                           match Str(json, "ChallengeName")
                           case Success(s) => Success(Some(s))
                           case Failure(e) => Failure(e)
                         else Success(None);
    var authenticationResult :- ParseAuthenticationResult(authResultJson);
    Success(RespondToAuthChallengeResponse(authenticationResult, challengeName))
  }

  /** The wire form `from` accepts, with "ChallengeName" present only when there is one. */
  function ResponseJson(r: RespondToAuthChallengeResponse): JsonObject {
    map["AuthenticationResult" := JObject(AuthenticationResultJson(r.authenticationResult))]
    + (if r.challengeName.Some? then map["ChallengeName" := JString(r.challengeName.value)] else map[])
  }

  /** Every response the client can hold (its refresh token present) comes
      back unchanged from its wire form, with or without a challenge name. */
  lemma FromRoundTrip(r: RespondToAuthChallengeResponse)
    requires r.authenticationResult.refreshToken.Some?
    ensures From(ResponseJson(r)) == Success(r)
  {
    AuthenticationResultRoundTrip(r.authenticationResult);
    var j := ResponseJson(r);
    assert j["AuthenticationResult"] == JObject(AuthenticationResultJson(r.authenticationResult));
    if r.challengeName.Some? {
      assert j["ChallengeName"] == JString(r.challengeName.value);
    } else {
      assert "ChallengeName" !in j;
    }
  }
}
