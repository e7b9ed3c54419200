/** client/Cognito.kt: the HTTP JSON client for the identity provider.
    The network exchange and the JSON text parser are the fields of a
    `Transport`; everything the client does around them (the status gate,
    joining the response lines, reading the fields of the response) is
    modelled here. */
module CognitoClient {
  import opened Wrappers
  import opened Json
  import opened CognitoRequests
  import opened AuthErrors

  /** What the connection yields for one POST: the status code, and the lines
      of the input stream and of the error stream. */
  datatype HttpReply = HttpReply(status: int, body: seq<string>, errorBody: seq<string>)

  /** The parts of `post` that are I/O or a foreign library: sending a JSON
      object and receiving the reply, and `JSONObject(String)`. */
  datatype Transport = Transport(exchange: JsonObject -> HttpReply, parse: string -> Option<JsonObject>)

  datatype AuthenticationResult = AuthenticationResult(
    accessToken: string,
    idToken: string,
    refreshToken: Option<string>,
    expiresIn: int,
    tokenType: string)

  datatype CodeDeliveryDetails = CodeDeliveryDetails(attributeName: string, deliveryMedium: string, destination: string)

  datatype SignUpResponse = SignUpResponse(userConfirmed: bool, codeDeliveryDetails: CodeDeliveryDetails, userSub: string)

  datatype InitiateAuthResponse = InitiateAuthResponse(
    challengeParameters: map<string, string>,
    authenticationResult: Option<AuthenticationResult>,
    hasChallengeParameters: bool,
    challengeName: string,
    session: string)

  datatype RespondToAuthChallengeResponse = RespondToAuthChallengeResponse(
    authenticationResult: AuthenticationResult,
    challengeName: Option<string>)

  // ------------------------------------------------------------ readStream

  /** Kotlin's `String.trim()` drops the characters `Char.isWhitespace` holds
      for, from both ends: Java's whitespace (tab to carriage return, U+001C to
      U+001F, and the space separators other than the no-break ones) together
      with every space, line and paragraph separator. */
  predicate IsTrimmed(c: char) {
    || '\t' <= c <= '\r'
    || '\U{1C}' <= c <= ' '
    || c == '\U{A0}' || c == '\U{1680}'
    || '\U{2000}' <= c <= '\U{200A}'
    || c == '\U{2028}' || c == '\U{2029}' || c == '\U{202F}' || c == '\U{205F}' || c == '\U{3000}'
  }

  function TrimStart(s: string): string {
    if |s| > 0 && IsTrimmed(s[0]) then TrimStart(s[1..]) else s
  }

  function TrimEnd(s: string): string {
    if |s| > 0 && IsTrimmed(s[|s| - 1]) then TrimEnd(s[..|s| - 1]) else s
  }

  function Trim(s: string): string {
    TrimEnd(TrimStart(s))
  }

  lemma {:induction false} TrimStartDropsLeading(s: string)
    ensures var r := TrimStart(s);
      && |r| <= |s| && r == s[|s| - |r|..]
      && (r == [] || !IsTrimmed(r[0]))
      && (forall k :: 0 <= k < |s| - |r| ==> IsTrimmed(s[k]))
  {
    if |s| > 0 && IsTrimmed(s[0]) {
      TrimStartDropsLeading(s[1..]);
      var r := TrimStart(s);
      assert r == TrimStart(s[1..]);
      forall k | 0 <= k < |s| - |r| ensures IsTrimmed(s[k]) {
        if k > 0 { assert s[k] == s[1..][k - 1]; }
      }
    }
  }

  lemma {:induction false} TrimEndDropsTrailing(s: string)
    ensures var r := TrimEnd(s);
      && |r| <= |s| && r == s[..|r|]
      && (r == [] || !IsTrimmed(r[|r| - 1]))
      && (forall k :: |r| <= k < |s| ==> IsTrimmed(s[k]))
  {
    if |s| > 0 && IsTrimmed(s[|s| - 1]) {
      var s' := s[..|s| - 1];
      TrimEndDropsTrailing(s');
      var r := TrimEnd(s);
      assert r == TrimEnd(s');
      forall k | |r| <= k < |s| ensures IsTrimmed(s[k]) {
        if k < |s| - 1 { assert s[k] == s'[k]; }
      }
    }
  }

  /** Kotlin's trim: the result keeps a contiguous middle part of the line,
      drops only whitespace around it, and neither starts nor ends with
      whitespace. */
  lemma TrimIsMiddle(s: string)
    ensures var r := Trim(s); var i := |s| - |TrimStart(s)|;
      && 0 <= i && i + |r| <= |s| && r == s[i..i + |r|]
      && (r == [] || (!IsTrimmed(r[0]) && !IsTrimmed(r[|r| - 1])))
      && (forall k :: 0 <= k < i ==> IsTrimmed(s[k]))
      && (forall k :: i + |r| <= k < |s| ==> IsTrimmed(s[k]))
  {
    var t := TrimStart(s);
    TrimStartDropsLeading(s);
    TrimEndDropsTrailing(t);
    var i := |s| - |t|;
    var r := TrimEnd(t);
    assert t == s[i..];
    assert r == t[..|r|];
    if r != [] {
      assert r[0] == t[0];
    }
    forall k | i + |r| <= k < |s| ensures IsTrimmed(s[k]) {
      assert s[k] == t[k - i];
    }
  }

  /** Control characters other than tab to carriage return and U+001C to
      U+001F stay, while the no-break and ideographic spaces go. */
  lemma TrimKeepsControlDropsSpaces()
    ensures Trim(['\U{1}', '{', '}']) == ['\U{1}', '{', '}']
    ensures Trim(['\U{A0}', '{', '}', '\U{3000}']) == "{}"
  {
    var s := ['\U{A0}', '{', '}', '\U{3000}'];
    assert TrimStart(s) == TrimStart(s[1..]) && s[1..] == ['{', '}', '\U{3000}'];
    assert TrimEnd(s[1..]) == TrimEnd(['{', '}']);
  }

  /** The text `readStream` builds: the trimmed lines, concatenated with no separator. */
  function JoinTrimmed(lines: seq<string>): string {
    if lines == [] then "" else JoinTrimmed(lines[..|lines| - 1]) + Trim(lines[|lines| - 1])
  }

  lemma {:induction false} JoinTrimmedAppend(a: seq<string>, b: seq<string>)
    ensures JoinTrimmed(a + b) == JoinTrimmed(a) + JoinTrimmed(b)
    decreases |b|
  {
    if b == [] {
      assert a + b == a;
    } else {
      var b' := b[..|b| - 1];
      var ab := a + b;
      var last := Trim(b[|b| - 1]);
      assert ab[..|ab| - 1] == a + b' && ab[|ab| - 1] == b[|b| - 1];
      assert JoinTrimmed(ab) == JoinTrimmed(a + b') + last;
      assert JoinTrimmed(b) == JoinTrimmed(b') + last;
      JoinTrimmedAppend(a, b');
      AppendAssociates(JoinTrimmed(a), JoinTrimmed(b'), last);
    }
  }

  lemma AppendAssociates(x: string, y: string, z: string)
    ensures (x + y) + z == x + (y + z)
  {
  }

  method ReadStream(lines: seq<string>) returns (response: string)
    ensures response == JoinTrimmed(lines)
  {
    response := "";
    var i := 0;
    while i < |lines|
      invariant 0 <= i <= |lines|
      invariant response == JoinTrimmed(lines[..i])
    {
      assert lines[..i + 1][..i] == lines[..i];
      response := response + Trim(lines[i]);
      i := i + 1;
    }
    assert lines[..|lines|] == lines;
  }

  // ------------------------------------------------------------------ post

  /** `post`: a status outside 200..399 raises ResponseError with the error
      stream's text (the status code itself is not kept by ResponseError);
      otherwise the input stream's text is parsed as a JSON object. */
  function Post(t: Transport, request: JsonObject): (r: Result<JsonObject, Cause>)
    ensures var reply := t.exchange(request);
      && (r.Success? ==> 200 <= reply.status <= 399 && t.parse(JoinTrimmed(reply.body)) == Some(r.value))
      && (!(200 <= reply.status <= 399) ==> r == Failure(ResponseError(JoinTrimmed(reply.errorBody))))
    ensures var reply := t.exchange(request); 200 <= reply.status <= 399 ==>
      && (t.parse(JoinTrimmed(reply.body)).Some? ==> r == Success(t.parse(JoinTrimmed(reply.body)).value))
      && (t.parse(JoinTrimmed(reply.body)).None? ==> r == Failure(MalformedBody))
  {
    var reply := t.exchange(request);
    if reply.status < 200 || reply.status > 399 then
      Failure(ResponseError(JoinTrimmed(reply.errorBody)))
    else
      match t.parse(JoinTrimmed(reply.body))
      case Some(o) => Success(o)
      case None => Failure(MalformedBody)
  }

  // ---------------------------------------------------- response getters

  function Str(o: JsonObject, key: string): (r: Result<string, Cause>)
    ensures r.Success? <==> key in o && o[key].JString?
    ensures r.Success? ==> o[key] == JString(r.value)
  {
    match GetString(o, key)
    case Success(s) => Success(s)
    case Failure(e) => Failure(JsonFailure(e))
  }

  function Int(o: JsonObject, key: string): (r: Result<int, Cause>)
    ensures r.Success? <==> key in o && o[key].JInt?
    ensures r.Success? ==> o[key] == JInt(r.value)
  {
    match GetInt(o, key)
    case Success(i) => Success(i)
    case Failure(e) => Failure(JsonFailure(e))
  }

  function Bool(o: JsonObject, key: string): (r: Result<bool, Cause>)
    ensures r.Success? <==> key in o && o[key].JBool?
    ensures r.Success? ==> o[key] == JBool(r.value)
  {
    match GetBoolean(o, key)
    case Success(b) => Success(b)
    case Failure(e) => Failure(JsonFailure(e))
  }

  function Obj(o: JsonObject, key: string): (r: Result<JsonObject, Cause>)
    ensures r.Success? <==> key in o && o[key].JObject?
    ensures r.Success? ==> o[key] == JObject(r.value)
  {
    match GetObject(o, key)
    case Success(x) => Success(x)
    case Failure(e) => Failure(JsonFailure(e))
  }

  // ------------------------------------------------- AuthenticationResult

  /** The five token fields as `initiateAuth` and `respondToAuthChallenge`
      read them from the "AuthenticationResult" object (field order as in the source). */
  function ParseAuthenticationResult(o: JsonObject): (r: Result<AuthenticationResult, Cause>)
    ensures r.Success? <==>
      && "AccessToken" in o && o["AccessToken"].JString?
      && "ExpiresIn" in o && o["ExpiresIn"].JInt?
      && "IdToken" in o && o["IdToken"].JString?
      && "RefreshToken" in o && o["RefreshToken"].JString?
      && "TokenType" in o && o["TokenType"].JString?
    ensures r.Success? ==> r.value.refreshToken.Some?
  {
    var accessToken :- Str(o, "AccessToken");
    var expiresIn :- Int(o, "ExpiresIn");
    var idToken :- Str(o, "IdToken");
    var refreshToken :- Str(o, "RefreshToken");
    var tokenType :- Str(o, "TokenType");
    Success(AuthenticationResult(accessToken, idToken, Some(refreshToken), expiresIn, tokenType))
  }

  /** The wire form of an authentication result, the partner of the parser. */
  function AuthenticationResultJson(a: AuthenticationResult): JsonObject {
    map["AccessToken" := JString(a.accessToken),
        "ExpiresIn" := JInt(a.expiresIn),
        "IdToken" := JString(a.idToken),
        "TokenType" := JString(a.tokenType)]
    + (if a.refreshToken.Some? then map["RefreshToken" := JString(a.refreshToken.value)] else map[])
  }

  /** Every token field is copied exactly: parsing the wire form of a result
      gives that result back; a result without a refresh token does not parse. */
  lemma AuthenticationResultRoundTrip(a: AuthenticationResult)
    ensures a.refreshToken.Some? ==> ParseAuthenticationResult(AuthenticationResultJson(a)) == Success(a)
    ensures a.refreshToken.None? ==> ParseAuthenticationResult(AuthenticationResultJson(a)).Failure?
  {
    var o := AuthenticationResultJson(a);
    if a.refreshToken.Some? {
      assert o["RefreshToken"] == JString(a.refreshToken.value);
    } else {
      assert "RefreshToken" !in o;
    }
  }

  // ---------------------------------------------------------------- signUp

  /** The fields `signUp` reads, in source order. */
  function ParseSignUpResponse(o: JsonObject): (r: Result<SignUpResponse, Cause>)
    ensures r.Success? ==>
      && "UserConfirmed" in o && o["UserConfirmed"] == JBool(r.value.userConfirmed)
      && "UserSub" in o && o["UserSub"] == JString(r.value.userSub)
      && "CodeDeliveryDetails" in o && o["CodeDeliveryDetails"].JObject?
      && var d := o["CodeDeliveryDetails"].fields;
         && "AttributeName" in d && d["AttributeName"] == JString(r.value.codeDeliveryDetails.attributeName)
         && "DeliveryMedium" in d && d["DeliveryMedium"] == JString(r.value.codeDeliveryDetails.deliveryMedium)
         && "Destination" in d && d["Destination"] == JString(r.value.codeDeliveryDetails.destination)
  {
    var details :- Obj(o, "CodeDeliveryDetails");
    var userConfirmed :- Bool(o, "UserConfirmed");
    var userSub :- Str(o, "UserSub");
    var attributeName :- Str(details, "AttributeName");
    var deliveryMedium :- Str(details, "DeliveryMedium");
    var destination :- Str(details, "Destination");
    Success(SignUpResponse(userConfirmed, CodeDeliveryDetails(attributeName, deliveryMedium, destination), userSub))
  }

  function SignUpResponseJson(s: SignUpResponse): JsonObject {
    map["UserConfirmed" := JBool(s.userConfirmed),
        "UserSub" := JString(s.userSub),
        "CodeDeliveryDetails" := JObject(map[
          "AttributeName" := JString(s.codeDeliveryDetails.attributeName),
          "DeliveryMedium" := JString(s.codeDeliveryDetails.deliveryMedium),
          "Destination" := JString(s.codeDeliveryDetails.destination)])]
  }

  lemma SignUpResponseRoundTrip(s: SignUpResponse)
    ensures ParseSignUpResponse(SignUpResponseJson(s)) == Success(s)
  {
    var o := SignUpResponseJson(s);
    assert o["CodeDeliveryDetails"] == JObject(o["CodeDeliveryDetails"].fields);
  }

  function SignUp(t: Transport, request: SignUpRequest): (r: Result<SignUpResponse, Cause>)
    ensures var posted := Post(t, SignUpRequestJson(request));
      && (posted.Failure? ==> r == Failure(posted.error))
      && (posted.Success? ==> r == ParseSignUpResponse(posted.value))
  {
    var response :- Post(t, SignUpRequestJson(request));
    ParseSignUpResponse(response)
  }

  // --------------------------------------------------------- confirmSignUp

  /** `confirmSignUp` posts the request and ignores the body of a successful reply. */
  function ConfirmSignUp(t: Transport, request: ConfirmSignUpRequest): (r: Result<(), Cause>)
    ensures r.Success? <==> Post(t, ConfirmSignUpRequestJson(request)).Success?
  {
    var _ :- Post(t, ConfirmSignUpRequestJson(request));
    Success(())
  }

  // ---------------------------------------------------------- initiateAuth

  /** What the loop at lines 35-38 computes: for every key of `target`, the
      string `source` holds under that key. It fails when one of those keys is
      missing from `source` or does not hold a string. */
  function CopyOwnKeys(target: map<string, string>, source: JsonObject): (r: Result<map<string, string>, Cause>)
    ensures r.Success? <==> forall k :: k in target ==> k in source && source[k].JString?
    ensures r.Success? ==> r.value.Keys == target.Keys && forall k :: k in target ==> source[k] == JString(r.value[k])
  {
    if forall k :: k in target ==> k in source && source[k].JString? then
      Success(map k | k in target :: source[k].s)
    else
      Failure(UnreadableChallengeParameter)
  }

  /** The loop itself: it walks the keys of the map it fills, which in
      `initiateAuth` is the freshly created, empty map. */
  method CopyChallengeParameters(target: map<string, string>, source: JsonObject) returns (r: Result<map<string, string>, Cause>)
    ensures r == CopyOwnKeys(target, source)
  {
    var parameters := target;
    var keys := target.Keys;
    while keys != {}
      invariant keys <= target.Keys
      invariant parameters.Keys == target.Keys
      invariant forall k :: k in target && k !in keys ==> k in source && source[k].JString? && parameters[k] == source[k].s
      decreases keys
    {
      var key :| key in keys;
      if key !in source || !source[key].JString? {
        return Failure(UnreadableChallengeParameter);
      }
      parameters := parameters[key := source[key].s];
      keys := keys - {key};
    }
    assert forall k :: k in target ==> k in source && source[k].JString?;
    assert parameters == map k | k in target :: source[k].s;
    return Success(parameters);
  }

  /** The fields `initiateAuth` reads, in source order. */
  function ParseInitiateAuthResponse(o: JsonObject): (r: Result<InitiateAuthResponse, Cause>)
    ensures r.Success? ==> r.value.challengeParameters == map[] && !r.value.hasChallengeParameters
    ensures r.Success? ==> r.value.authenticationResult.Some?
    ensures r.Success? <==>
      && "ChallengeParameters" in o && o["ChallengeParameters"].JObject?
      && "AuthenticationResult" in o && o["AuthenticationResult"].JObject?
      && "ChallengeName" in o && o["ChallengeName"].JString?
      && "Session" in o && o["Session"].JString?
      && ParseAuthenticationResult(o["AuthenticationResult"].fields).Success?
    ensures r.Success? ==>
      && o["ChallengeName"] == JString(r.value.challengeName)
      && o["Session"] == JString(r.value.session)
      && o["AuthenticationResult"].JObject?
      && ParseAuthenticationResult(o["AuthenticationResult"].fields) == Success(r.value.authenticationResult.value)
  {
    var challengeParamJson :- Obj(o, "ChallengeParameters");
    // the copy walks the keys of an empty map, so it cannot fail
    var challengeParameters := CopyOwnKeys(map[], challengeParamJson).value;
    var authResultJson :- Obj(o, "AuthenticationResult");
    var challengeName :- Str(o, "ChallengeName");
    var session :- Str(o, "Session");
    var authenticationResult :- ParseAuthenticationResult(authResultJson);
    Success(InitiateAuthResponse(challengeParameters, Some(authenticationResult), |challengeParameters| != 0,
                                 challengeName, session))
  }

  function InitiateAuth(t: Transport, request: InitiateAuthRequest): (r: Result<InitiateAuthResponse, Cause>)
    ensures var posted := Post(t, InitiateAuthRequestJson(request));
      && (posted.Failure? ==> r == Failure(posted.error))
      && (posted.Success? ==> r == ParseInitiateAuthResponse(posted.value))
    ensures r.Success? ==> r.value.challengeParameters == map[] && !r.value.hasChallengeParameters
    ensures r.Success? ==> r.value.authenticationResult.Some? && r.value.authenticationResult.value.refreshToken.Some?
  {
    var response :- Post(t, InitiateAuthRequestJson(request));
    ParseInitiateAuthResponse(response)
  }

  /** Because the request body is always `{}`, what `initiateAuth` returns
      does not depend on the request at all. */
  lemma InitiateAuthIgnoresRequest(t: Transport, a: InitiateAuthRequest, b: InitiateAuthRequest)
    ensures InitiateAuth(t, a) == InitiateAuth(t, b)
  {
    assert InitiateAuthRequestJson(a) == InitiateAuthRequestJson(b);
  }

  // ------------------------------------------------ respondToAuthChallenge

  /** The fields `respondToAuthChallenge` reads: unlike `from`, it demands a
      "ChallengeName". */
  function ParseRespondToAuthChallenge(o: JsonObject): (r: Result<RespondToAuthChallengeResponse, Cause>)
    ensures r.Success? <==>
      && "AuthenticationResult" in o && o["AuthenticationResult"].JObject?
      && "ChallengeName" in o && o["ChallengeName"].JString?
      && ParseAuthenticationResult(o["AuthenticationResult"].fields).Success?
    ensures r.Success? ==>
      && r.value.challengeName.Some? && o["ChallengeName"] == JString(r.value.challengeName.value)
      && o["AuthenticationResult"].JObject?
      && ParseAuthenticationResult(o["AuthenticationResult"].fields) == Success(r.value.authenticationResult)
  {
    var authResultJson :- Obj(o, "AuthenticationResult");
    var challengeName :- Str(o, "ChallengeName");
    var authenticationResult :- ParseAuthenticationResult(authResultJson);
    Success(RespondToAuthChallengeResponse(authenticationResult, Some(challengeName)))
  }

  function RespondToAuthChallenge(t: Transport, request: RespondToAuthChallengeRequest): (r: Result<RespondToAuthChallengeResponse, Cause>)
    ensures var posted := Post(t, RespondToAuthChallengeRequestJson(request));
      && (posted.Failure? ==> r == Failure(posted.error))
      && (posted.Success? ==> r == ParseRespondToAuthChallenge(posted.value))
    ensures r.Success? ==> r.value.authenticationResult.refreshToken.Some?
  {
    var response :- Post(t, RespondToAuthChallengeRequestJson(request));
    ParseRespondToAuthChallenge(response)
  }

  // --------------------------------------------------------- globalSignOut

  function GlobalSignOutBody(accessToken: string): (j: JsonObject)
    ensures j.Keys == {"AccessToken"} && j["AccessToken"] == JString(accessToken)
  {
    map["AccessToken" := JString(accessToken)]
  }

  function GlobalSignOut(t: Transport, accessToken: string): (r: Result<(), Cause>)
    ensures r.Success? <==> Post(t, GlobalSignOutBody(accessToken)).Success?
  {
    var _ :- Post(t, GlobalSignOutBody(accessToken));
    Success(())
  }
}
