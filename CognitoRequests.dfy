/** The request bodies the Cognito client posts (client/SignUpRequest.kt,
    client/ConfirmSignUpRequest.kt, client/RespondToAuthChallengeRequest.kt,
    client/InitiateAuthRequest.kt). Each `asJson` is modelled together with a
    reader that takes the wire object apart again, and the serialiser is proved
    to produce exactly the documented keys and to be undone by the reader. */
module CognitoRequests {
  import opened Wrappers
  import opened Json

  /** The string value under `key`, if there is one. */
  function Field(j: JsonObject, key: string): Option<string> {
    if key in j && j[key].JString? then Some(j[key].s) else None
  }

  // ---------------------------------------------------------------- SignUp

  datatype SignUpRequest = SignUpRequest(username: string, password: string, clientId: string, secretHash: string)

  function SignUpRequestJson(req: SignUpRequest): (j: JsonObject)
    ensures j.Keys == {"Username", "Password", "ClientId", "SecretHash"}
    ensures ReadSignUpRequest(j) == Some(req)
  {
    map["Username" := JString(req.username),
        "Password" := JString(req.password),
        "ClientId" := JString(req.clientId),
        "SecretHash" := JString(req.secretHash)]
  }

  function ReadSignUpRequest(j: JsonObject): Option<SignUpRequest> {
    var username :- Field(j, "Username");
    var password :- Field(j, "Password");
    var clientId :- Field(j, "ClientId");
    var secretHash :- Field(j, "SecretHash");
    Some(SignUpRequest(username, password, clientId, secretHash))
  }

  /** Two sign-up requests that serialise alike are the same request. */
  lemma SignUpRequestJsonInjective(a: SignUpRequest, b: SignUpRequest)
    requires SignUpRequestJson(a) == SignUpRequestJson(b)
    ensures a == b
  {
    assert Some(a) == ReadSignUpRequest(SignUpRequestJson(a)) == ReadSignUpRequest(SignUpRequestJson(b)) == Some(b);
  }

  // --------------------------------------------------------- ConfirmSignUp

  datatype ConfirmSignUpRequest = ConfirmSignUpRequest(secretHash: string, clientId: string, username: string, confirmationCode: string)

  function ConfirmSignUpRequestJson(req: ConfirmSignUpRequest): (j: JsonObject)
    ensures j.Keys == {"SecretHash", "ClientId", "Username", "ConfirmationCode"}
    ensures "Password" !in j
    ensures ReadConfirmSignUpRequest(j) == Some(req)
  {
    map["SecretHash" := JString(req.secretHash),
        "ClientId" := JString(req.clientId),
        "Username" := JString(req.username),
        "ConfirmationCode" := JString(req.confirmationCode)]
  }

  function ReadConfirmSignUpRequest(j: JsonObject): Option<ConfirmSignUpRequest> {
    var secretHash :- Field(j, "SecretHash");
    var clientId :- Field(j, "ClientId");
    var username :- Field(j, "Username");
    var confirmationCode :- Field(j, "ConfirmationCode");
    Some(ConfirmSignUpRequest(secretHash, clientId, username, confirmationCode))
  }

  // ------------------------------------------------ RespondToAuthChallenge

  datatype RespondToAuthChallengeRequest = RespondToAuthChallengeRequest(
    challengeName: string,
    clientId: string,
    challengeResponses: map<string, string>,
    session: string)

  function RespondToAuthChallengeRequestJson(req: RespondToAuthChallengeRequest): (j: JsonObject)
    ensures j.Keys == {"Session", "ChallengeName", "ClientId", "ChallengeResponses"}
    ensures j["Session"] == JString(req.session)
    ensures j["ChallengeName"] == JString(req.challengeName)
    ensures j["ClientId"] == JString(req.clientId)
    ensures j["ChallengeResponses"].JObject? && j["ChallengeResponses"].fields.Keys == req.challengeResponses.Keys
    ensures ReadRespondToAuthChallengeRequest(j) == Some(req)
  {
    StringMapRoundTrip(req.challengeResponses);
    map["Session" := JString(req.session),
        "ChallengeName" := JString(req.challengeName),
        "ClientId" := JString(req.clientId),
        "ChallengeResponses" := JObject(FromStringMap(req.challengeResponses))]
  }

  function ReadRespondToAuthChallengeRequest(j: JsonObject): Option<RespondToAuthChallengeRequest> {
    var session :- Field(j, "Session");
    var challengeName :- Field(j, "ChallengeName");
    var clientId :- Field(j, "ClientId");
    if "ChallengeResponses" in j && j["ChallengeResponses"].JObject? then
      var responses :- ToStringMap(j["ChallengeResponses"].fields);
      Some(RespondToAuthChallengeRequest(challengeName, clientId, responses, session))
    else None
  }

  // ---------------------------------------------------------- InitiateAuth

  datatype InitiateAuthRequest = InitiateAuthRequest(authFlow: string, clientId: string, authParameters: map<string, string>)

  /** `asJson` is a stub: whatever the request holds, the body is `{}`. */
  function InitiateAuthRequestJson(req: InitiateAuthRequest): (j: JsonObject)
    ensures j == map[]
    ensures "AuthFlow" !in j && "ClientId" !in j && "AuthParameters" !in j
  {
    map[]
  }

  /** So the serialiser loses everything: two different requests, one body. */
  lemma InitiateAuthRequestJsonNotInjective()
    ensures exists a: InitiateAuthRequest, b: InitiateAuthRequest ::
      a != b && InitiateAuthRequestJson(a) == InitiateAuthRequestJson(b)
  {
    var a := InitiateAuthRequest("USER_SRP_AUTH", "", map[]);
    var b := InitiateAuthRequest("REFRESH_TOKEN_AUTH", "", map[]);
    assert a.authFlow != b.authFlow;
    assert InitiateAuthRequestJson(a) == InitiateAuthRequestJson(b);
  }
}
