/** SignInOperation.kt: the SRP sign-in. `callCognito` sends InitiateAuth
    and branches on the reply; `verifyPassword` answers a PASSWORD_VERIFIER
    challenge with one RespondToAuthChallenge; `storeCredentials` writes the
    tokens to the store. The SRP helper, SecretHash, HMAC-SHA256 (RFC 2104),
    Base64 (section 4 of RFC 4648) and UTF-8 encoding are the fields of a
    `Crypto` value; each may fail. The clock reading that `computeTimestamp`
    formats is the `timestamp` parameter. */
module SignIn {
  import opened Wrappers
  import opened AuthErrors
  import opened CognitoRequests
  import opened CognitoClient
  import opened CredentialStore
  import opened AuthResults

  type Bytes = seq<bv8>

  datatype Crypto = Crypto(
    secretHash: (string, string, string) -> Option<string>,   // SecretHash.of(username, clientId, clientSecret)
    srpA: string,                                              // helper.getA().toString(16)
    parseHex: string -> Option<int>,                           // BigInteger(text, 16)
    passwordKey: (string, string, int, int) -> Option<Bytes>,  // helper.getPasswordAuthenticationKey(userIdForSrp, password, B, salt)
    hmacSha256: (Bytes, Bytes) -> Option<Bytes>,               // HMAC-SHA256(key, message)
    base64Decode: string -> Option<Bytes>,
    base64Encode: Bytes -> string,
    utf8: string -> Bytes)                                     // String.toByteArray()

  /** The constructor parameters of the operation that matter to it. */
  datatype SignInConfig = SignInConfig(clientId: string, clientSecret: string, poolId: string, username: string, password: string)

  datatype CognitoCall = InitiateAuthCall(initiate: InitiateAuthRequest) | RespondToAuthChallengeCall(respond: RespondToAuthChallengeRequest)

  const SignInFailed := "Sign in failed."
  const UserSrpAuth := "USER_SRP_AUTH"
  const PasswordVerifier := "PASSWORD_VERIFIER"
  const NoChallengeDetails := AuthCodeDeliveryDetails("TODO: what is this field, actually?", Email, None)
  const VerifierDetails := AuthCodeDeliveryDetails("what is this", Email, None)

  function SignedIn(details: AuthCodeDeliveryDetails): AuthSignInResult {
    AuthSignInResult(true, AuthNextSignInStep(SignInDone, map[], details))
  }

  // ---------------------------------------------------------- callCognito

  /** The InitiateAuth request of lines 53-63. */
  function SrpInitiateRequest(crypto: Crypto, cfg: SignInConfig): (r: Result<InitiateAuthRequest, Cause>)
    ensures r.Success? <==> crypto.secretHash(cfg.username, cfg.clientId, cfg.clientSecret).Some?
    ensures r.Success? ==>
      && r.value.authFlow == UserSrpAuth
      && r.value.clientId == cfg.clientId
      && r.value.authParameters.Keys == {"USERNAME", "SRP_A", "SECRET_HASH"}
      && r.value.authParameters["USERNAME"] == cfg.username
      && r.value.authParameters["SRP_A"] == crypto.srpA
      && r.value.authParameters["SECRET_HASH"] == crypto.secretHash(cfg.username, cfg.clientId, cfg.clientSecret).value
  {
    var secretHash :- SecretHash(crypto.secretHash, cfg.username, cfg.clientId, cfg.clientSecret);
    Success(InitiateAuthRequest(UserSrpAuth, cfg.clientId,
      map["USERNAME" := cfg.username, "SRP_A" := crypto.srpA, "SECRET_HASH" := secretHash]))
  }

  /** What `storeCredentials` leaves in the store. */
  function StoredFrom(a: AuthenticationResult): Credentials {
    Credentials(Some(a.accessToken), Some(a.idToken), a.refreshToken, Some(a.expiresIn), Some(a.tokenType))
  }

  /** All five fields are written, from the same result; nothing of the old
      contents survives. */
  method StoreCredentials(store: InsecureInMemCredStore, authResult: AuthenticationResult)
    requires authResult.refreshToken.Some?
    modifies store
    ensures store.Contents() == StoredFrom(authResult)
  {
    store.SetAccessToken(authResult.accessToken);
    store.SetIdToken(authResult.idToken);
    store.SetRefreshToken(authResult.refreshToken.value);
    store.SetExpiresIn(authResult.expiresIn);
    store.SetTokenType(authResult.tokenType);
  }

  // ----------------------------------------------------------- poolId split

  /** Kotlin's `split("_")`: every piece between separators, empty ones
      included (unlike Java, trailing empty pieces are kept). */
  function Split(s: string, sep: char): (pieces: seq<string>)
    ensures |pieces| >= 1
    decreases |s|
  {
    if |s| == 0 then [""]
    else
      var rest := Split(s[1..], sep);
      if s[0] == sep then [""] + rest else [[s[0]] + rest[0]] + rest[1..]
  }

  function Join(pieces: seq<string>, sep: char): string
    requires |pieces| >= 1
    decreases |pieces|
  {
    if |pieces| == 1 then pieces[0] else pieces[0] + [sep] + Join(pieces[1..], sep)
  }

  /** The pieces hold no separator, and joining them back gives the string. */
  lemma {:induction false} SplitJoin(s: string, sep: char)
    ensures Join(Split(s, sep), sep) == s
    ensures forall i :: 0 <= i < |Split(s, sep)| ==> sep !in Split(s, sep)[i]
    decreases |s|
  {
    if |s| > 0 {
      SplitJoin(s[1..], sep);
      var rest := Split(s[1..], sep);
      if s[0] == sep {
        assert ([""] + rest)[1..] == rest;
        assert s == [s[0]] + s[1..];
      } else {
        var pieces := [[s[0]] + rest[0]] + rest[1..];
        if |rest| > 1 {
          assert Join(rest, sep) == rest[0] + [sep] + Join(rest[1..], sep);
          assert pieces[1..] == rest[1..];
        }
        assert s == [s[0]] + s[1..];
      }
    }
  }

  /** `poolId.split("_")[1]`: the text after the first underscore, up to the
      next one; an id without an underscore has no such piece. */
  function PoolSegment(poolId: string): (r: Result<string, Cause>)
    ensures r.Success? <==> '_' in poolId
  {
    SplitHasSecondPiece(poolId, '_');
    var pieces := Split(poolId, '_');
    if |pieces| > 1 then Success(pieces[1]) else Failure(IndexOutOfBounds("poolId.split(\"_\")[1]"))
  }

  lemma {:induction false} SplitHasSecondPiece(s: string, sep: char)
    ensures |Split(s, sep)| > 1 <==> sep in s
    decreases |s|
  {
    if |s| > 0 {
      SplitHasSecondPiece(s[1..], sep);
      assert sep in s <==> s[0] == sep || sep in s[1..];
    }
  }

  // -------------------------------------------------------- claimSignature

  /** javax.crypto.Mac for HmacSHA256: `update` accumulates input,
      `doFinal` computes the tag of everything accumulated and resets. */
  class Mac {
    const hmac: (Bytes, Bytes) -> Option<Bytes>
    const key: Bytes
    var input: Bytes

    constructor (hmac: (Bytes, Bytes) -> Option<Bytes>, key: Bytes)
      ensures this.hmac == hmac && this.key == key && input == []
    {
      this.hmac := hmac;
      this.key := key;
      input := [];
    }

    method Update(data: Bytes)
      modifies this
      ensures input == old(input) + data
    {
      input := input + data;
    }

    method DoFinal(data: Bytes) returns (tag: Option<Bytes>)
      modifies this
      ensures tag == hmac(key, old(input) + data) && input == []
    {
      tag := hmac(key, input + data);
      input := [];
    }
  }

  /** The claim signature as one HMAC over the concatenated message:
      pool segment, user id, decoded secret block, timestamp. */
  function ClaimSignatureOf(crypto: Crypto, poolId: string, userIdForSrp: string, key: Bytes,
                            timestamp: string, secretBlock: string): Result<string, Cause>
  {
    var pool :- PoolSegment(poolId);
    var block :- if crypto.base64Decode(secretBlock).Some? then Success(crypto.base64Decode(secretBlock).value)
                 else Failure(CryptoFailure("Base64"));
    var message := crypto.utf8(pool) + crypto.utf8(userIdForSrp) + block + crypto.utf8(timestamp);
    var tag :- if crypto.hmacSha256(key, message).Some? then Success(crypto.hmacSha256(key, message).value)
               else Failure(CryptoFailure("HmacSHA256"));
    Success(crypto.base64Encode(tag))
  }

  /** The incremental MAC of lines 128-137 computes the one-shot HMAC of the
      concatenated message. */
  method ClaimSignature(crypto: Crypto, poolId: string, userIdForSrp: string, key: Bytes,
                        timestamp: string, secretBlock: string) returns (r: Result<string, Cause>)
    ensures r == ClaimSignatureOf(crypto, poolId, userIdForSrp, key, timestamp, secretBlock)
  {
    var mac := new Mac(crypto.hmacSha256, key);
    var pool := PoolSegment(poolId);
    if pool.Failure? {
      return Failure(pool.error);
    }
    mac.Update(crypto.utf8(pool.value));
    mac.Update(crypto.utf8(userIdForSrp));
    var block := crypto.base64Decode(secretBlock);
    if block.None? {
      return Failure(CryptoFailure("Base64"));
    }
    mac.Update(block.value);
    assert mac.input == crypto.utf8(pool.value) + crypto.utf8(userIdForSrp) + block.value;
    var tag := mac.DoFinal(crypto.utf8(timestamp));
    assert mac.key == key;
    if tag.None? {
      return Failure(CryptoFailure("HmacSHA256"));
    }
    r := Success(crypto.base64Encode(tag.value));
  }

  // -------------------------------------------------------- verifyPassword

  datatype SrpChallenge = SrpChallenge(salt: int, secretBlock: string, userIdForSrp: string, username: string, srpB: int)

  function Param(parameters: map<string, string>, key: string): (r: Result<string, Cause>)
    ensures r.Success? <==> key in parameters
    ensures r.Success? ==> r.value == parameters[key]
  {
    if key in parameters then Success(parameters[key]) else Failure(NullValue(key))
  }

  function Hex(crypto: Crypto, text: string): (r: Result<int, Cause>)
    ensures r.Success? <==> crypto.parseHex(text).Some?
    ensures r.Success? ==> crypto.parseHex(text) == Some(r.value)
  {
    if crypto.parseHex(text).Some? then Success(crypto.parseHex(text).value) else Failure(NumberFormat(text))
  }

  /** Lines 93-98: the five challenge parameters, read in source order. */
  function ReadSrpChallenge(crypto: Crypto, parameters: map<string, string>): (r: Result<SrpChallenge, Cause>)
    ensures r.Success? <==>
      && "SALT" in parameters && "SECRET_BLOCK" in parameters && "USER_ID_FOR_SRP" in parameters
      && "USERNAME" in parameters && "SRP_B" in parameters
      && crypto.parseHex(parameters["SALT"]).Some? && crypto.parseHex(parameters["SRP_B"]).Some?
    ensures r.Success? ==>
      && "SALT" in parameters && "SECRET_BLOCK" in parameters && "USER_ID_FOR_SRP" in parameters
      && "USERNAME" in parameters && "SRP_B" in parameters
      && crypto.parseHex(parameters["SALT"]) == Some(r.value.salt)
      && crypto.parseHex(parameters["SRP_B"]) == Some(r.value.srpB)
      && r.value.secretBlock == parameters["SECRET_BLOCK"]
      && r.value.userIdForSrp == parameters["USER_ID_FOR_SRP"]
      && r.value.username == parameters["USERNAME"]
  {
    var saltText :- Param(parameters, "SALT");
    var salt :- Hex(crypto, saltText);
    var secretBlock :- Param(parameters, "SECRET_BLOCK");
    var userIdForSrp :- Param(parameters, "USER_ID_FOR_SRP");
    var username :- Param(parameters, "USERNAME");
    var srpBText :- Param(parameters, "SRP_B");
    var srpB :- Hex(crypto, srpBText);
    Success(SrpChallenge(salt, secretBlock, userIdForSrp, username, srpB))
  }

  function PasswordKey(crypto: Crypto, c: SrpChallenge, password: string): (r: Result<Bytes, Cause>)
    ensures r.Success? <==> crypto.passwordKey(c.userIdForSrp, password, c.srpB, c.salt).Some?
    ensures r.Success? ==> crypto.passwordKey(c.userIdForSrp, password, c.srpB, c.salt) == Some(r.value)
  {
    if crypto.passwordKey(c.userIdForSrp, password, c.srpB, c.salt).Some? then
      Success(crypto.passwordKey(c.userIdForSrp, password, c.srpB, c.salt).value)
    else Failure(CryptoFailure("password authentication key"))
  }

  /** The RespondToAuthChallenge request of lines 104-115, built from the
      challenge once the signature is known. */
  function ChallengeRequest(crypto: Crypto, cfg: SignInConfig, response: InitiateAuthResponse, c: SrpChallenge,
                            claimSignature: string, timestamp: string): Result<RespondToAuthChallengeRequest, Cause>
  {
    var secretHash :- SecretHash(crypto.secretHash, c.username, cfg.clientId, cfg.clientSecret);
    Success(RespondToAuthChallengeRequest(response.challengeName, cfg.clientId,
      map["SECRET_HASH" := secretHash,
          "PASSWORD_CLAIM_SIGNATURE" := claimSignature,
          "PASSWORD_CLAIM_SECRET_BLOCK" := c.secretBlock,
          "TIMESTAMP" := timestamp,
          "USERNAME" := c.username],
      response.session))
  }

  /** Everything `verifyPassword` computes before it calls the service. */
  function ChallengeAnswer(crypto: Crypto, cfg: SignInConfig, response: InitiateAuthResponse, timestamp: string)
    : (r: Result<RespondToAuthChallengeRequest, Cause>)
    ensures var p := response.challengeParameters;
      !("SALT" in p && "SECRET_BLOCK" in p && "USER_ID_FOR_SRP" in p && "USERNAME" in p && "SRP_B" in p) ==> r.Failure?
    ensures var p := response.challengeParameters; r.Success? ==>
      && r.value.challengeResponses.Keys == {"SECRET_HASH", "PASSWORD_CLAIM_SIGNATURE", "PASSWORD_CLAIM_SECRET_BLOCK", "TIMESTAMP", "USERNAME"}
      && r.value.challengeResponses["PASSWORD_CLAIM_SECRET_BLOCK"] == p["SECRET_BLOCK"]
      && r.value.challengeResponses["USERNAME"] == p["USERNAME"]
      && r.value.challengeResponses["TIMESTAMP"] == timestamp
      && crypto.secretHash(p["USERNAME"], cfg.clientId, cfg.clientSecret).Some?
      && r.value.challengeResponses["SECRET_HASH"] == crypto.secretHash(p["USERNAME"], cfg.clientId, cfg.clientSecret).value
      && r.value.session == response.session
      && r.value.challengeName == response.challengeName
      && r.value.clientId == cfg.clientId
    ensures var p := response.challengeParameters; r.Success? ==>
      && ReadSrpChallenge(crypto, p).Success?
      && var c := ReadSrpChallenge(crypto, p).value;
      && crypto.passwordKey(c.userIdForSrp, cfg.password, c.srpB, c.salt).Some?
      && ClaimSignatureOf(crypto, cfg.poolId, p["USER_ID_FOR_SRP"], crypto.passwordKey(c.userIdForSrp, cfg.password, c.srpB, c.salt).value,
                          timestamp, p["SECRET_BLOCK"])
         == Success(r.value.challengeResponses["PASSWORD_CLAIM_SIGNATURE"])
    ensures var p := response.challengeParameters; ReadSrpChallenge(crypto, p).Success? ==>
      var c := ReadSrpChallenge(crypto, p).value;
      var key := crypto.passwordKey(c.userIdForSrp, cfg.password, c.srpB, c.salt);
      (key.Some? && ClaimSignatureOf(crypto, cfg.poolId, c.userIdForSrp, key.value, timestamp, c.secretBlock).Success?
       && crypto.secretHash(c.username, cfg.clientId, cfg.clientSecret).Some?) ==> r.Success?
  {
    var c :- ReadSrpChallenge(crypto, response.challengeParameters);
    var key :- PasswordKey(crypto, c, cfg.password);
    var signature :- ClaimSignatureOf(crypto, cfg.poolId, c.userIdForSrp, key, timestamp, c.secretBlock);
    ChallengeRequest(crypto, cfg, response, c, signature, timestamp)
  }

  /** One RespondToAuthChallenge round trip, whose tokens are stored; any
      failure before the call leaves the store alone and sends nothing. */
  method VerifyPassword(store: InsecureInMemCredStore, t: Transport, crypto: Crypto, cfg: SignInConfig,
                        timestamp: string, response: InitiateAuthResponse)
    returns (r: Result<(), Cause>, sent: seq<RespondToAuthChallengeRequest>)
    modifies store
    ensures var answer := ChallengeAnswer(crypto, cfg, response, timestamp);
      && (answer.Failure? ==> r == Failure(answer.error) && sent == [] && store.Contents() == old(store.Contents()))
      && (answer.Success? ==> sent == [answer.value])
    ensures |sent| == 1 ==> var reply := RespondToAuthChallenge(t, sent[0]);
      && (reply.Failure? ==> r == Failure(reply.error) && store.Contents() == old(store.Contents()))
      && (reply.Success? ==> r == Success(()) && store.Contents() == StoredFrom(reply.value.authenticationResult))
  {
    sent := [];
    var challenge := ReadSrpChallenge(crypto, response.challengeParameters);
    if challenge.Failure? {
      return Failure(challenge.error), sent;
    }
    var c := challenge.value;
    var key := PasswordKey(crypto, c, cfg.password);
    if key.Failure? {
      return Failure(key.error), sent;
    }
    var signature := ClaimSignature(crypto, cfg.poolId, c.userIdForSrp, key.value, timestamp, c.secretBlock);
    if signature.Failure? {
      return Failure(signature.error), sent;
    }
    var request := ChallengeRequest(crypto, cfg, response, c, signature.value, timestamp);
    if request.Failure? {
      return Failure(request.error), sent;
    }
    sent := [request.value];
    var reply := RespondToAuthChallenge(t, request.value);
    if reply.Failure? {
      return Failure(reply.error), sent;
    }
    StoreCredentials(store, reply.value.authenticationResult);
    r := Success(());
  }

  /** Lines 66-87: the three branches over an InitiateAuth reply. */
  method HandleInitiateAuthResponse(store: InsecureInMemCredStore, t: Transport, crypto: Crypto, cfg: SignInConfig,
                                    timestamp: string, response: InitiateAuthResponse)
    returns (r: Result<AuthSignInResult, Cause>, sent: seq<RespondToAuthChallengeRequest>)
    requires response.authenticationResult.Some? ==> response.authenticationResult.value.refreshToken.Some?
    modifies store
    ensures !response.hasChallengeParameters ==>
      && r == Success(SignedIn(NoChallengeDetails)) && sent == []
      && store.Contents() == (if response.authenticationResult.Some? then StoredFrom(response.authenticationResult.value)
                              else old(store.Contents()))
    ensures response.hasChallengeParameters && response.challengeName == PasswordVerifier ==>
      && |sent| <= 1
      && (sent == [] ==> r.Failure? && store.Contents() == old(store.Contents()))
      && (r.Success? ==> r.value == SignedIn(VerifierDetails) && |sent| == 1
                         && var reply := RespondToAuthChallenge(t, sent[0]);
                            reply.Success? && store.Contents() == StoredFrom(reply.value.authenticationResult))
    ensures response.hasChallengeParameters && response.challengeName != PasswordVerifier ==>
      && r == Failure(UnknownChallenge("Unknown challenge = " + response.challengeName, "Implement it!"))
      && sent == [] && store.Contents() == old(store.Contents())
  {
    if !response.hasChallengeParameters {
      if response.authenticationResult.Some? {
        StoreCredentials(store, response.authenticationResult.value);
      }
      return Success(SignedIn(NoChallengeDetails)), [];
    }
    if response.challengeName == PasswordVerifier {
      var verified;
      verified, sent := VerifyPassword(store, t, crypto, cfg, timestamp, response);
      if verified.Failure? {
        return Failure(verified.error), sent;
      }
      return Success(SignedIn(VerifierDetails)), sent;
    }
    return Failure(UnknownChallenge("Unknown challenge = " + response.challengeName, "Implement it!")), [];
  }

  /** `callCognito` over a real client: because `initiateAuth` never reports
      challenge parameters, the no-challenge branch is the only one taken,
      RespondToAuthChallenge is never called, and a success always stores
      the tokens of the InitiateAuth reply. */
  method CallCognito(store: InsecureInMemCredStore, t: Transport, crypto: Crypto, cfg: SignInConfig, timestamp: string)
    returns (r: Result<AuthSignInResult, Cause>, sent: seq<CognitoCall>)
    modifies store
    ensures forall c :: c in sent ==> c.InitiateAuthCall?
    ensures var request := SrpInitiateRequest(crypto, cfg);
      && (request.Failure? ==> r == Failure(request.error) && sent == [] && store.Contents() == old(store.Contents()))
      && (request.Success? ==> sent == [InitiateAuthCall(request.value)])
    ensures |sent| == 1 ==> var reply := InitiateAuth(t, sent[0].initiate);
      && (reply.Failure? ==> r == Failure(reply.error) && store.Contents() == old(store.Contents()))
      && (reply.Success? ==> r == Success(SignedIn(NoChallengeDetails))
                             && store.Contents() == StoredFrom(reply.value.authenticationResult.value))
  {
    var request := SrpInitiateRequest(crypto, cfg);
    if request.Failure? {
      return Failure(request.error), [];
    }
    sent := [InitiateAuthCall(request.value)];
    var reply := InitiateAuth(t, request.value);
    if reply.Failure? {
      return Failure(reply.error), sent;
    }
    var responded;
    r, responded := HandleInitiateAuthResponse(store, t, crypto, cfg, timestamp, reply.value);
    assert responded == [];
  }

  /** `start`: every failure reaches `onError` as "Sign in failed." /
      "Try again.", caused by what went wrong; a success stores the tokens
      of the InitiateAuth reply. */
  method Start(store: InsecureInMemCredStore, t: Transport, crypto: Crypto, cfg: SignInConfig, timestamp: string)
    returns (outcome: Completion<AuthSignInResult>, sent: seq<CognitoCall>)
    modifies store
    ensures !outcome.Uncaught?
    ensures outcome.Succeeded? ==> outcome.value == SignedIn(NoChallengeDetails) && |sent| == 1
    ensures outcome.Failed? ==> outcome.error.message == SignInFailed && outcome.error.recoverySuggestion == TryAgain
    ensures forall c :: c in sent ==> c.InitiateAuthCall?
    ensures var request := SrpInitiateRequest(crypto, cfg);
      && (request.Failure? ==> outcome == Failed(AuthException(SignInFailed, request.error, TryAgain))
                               && sent == [] && store.Contents() == old(store.Contents()))
      && (request.Success? ==> sent == [InitiateAuthCall(request.value)])
    ensures |sent| == 1 ==> var reply := InitiateAuth(t, sent[0].initiate);
      && (reply.Failure? ==> outcome == Failed(AuthException(SignInFailed, reply.error, TryAgain))
                             && store.Contents() == old(store.Contents()))
      && (reply.Success? ==> outcome == Succeeded(SignedIn(NoChallengeDetails))
                             && store.Contents() == StoredFrom(reply.value.authenticationResult.value))
  {
    var r;
    r, sent := CallCognito(store, t, crypto, cfg, timestamp);
    outcome := Complete(r, SignInFailed);
  }
}
