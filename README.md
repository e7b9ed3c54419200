# Amplify Android core logic, modelled in Dafny

This project models the sequential core of five parts of the Amplify
Android libraries and proves properties of the model:

- **Auth** (`aws-auth`): the SRP sign-in, session fetch with token
  refresh, sign-out, sign-up and confirm-sign-up operations; the in-memory
  credential store they write to; and the Cognito client (the HTTP status
  gate, the joining of response lines, the request serialisers and the
  response parsers). JSON is a map from key to value. The network, the
  JSON text parser, the SRP maths, SecretHash, HMAC-SHA256 (RFC 2104) and
  Base64 (section 4 of RFC 4648) are function-valued parameters that may
  fail.
- **S3 transfer table** (`TransferDB.kt`): the transfer records as a map
  from id to record, in a class whose methods insert, update, bulk-move and
  delete them. It covers the guarded move to FAILED, the network
  disconnect and reconnect moves, pause and cancel by type, the
  completed-part byte sum, the part ETag list, the placeholder builder,
  and the values of new records. It also covers the connection-type
  parser and the `TransferOptions` parcel round trip, which loses the
  connection type. `describeContents` is the constant
  `TransferOptions.DescribeContents`, 0.
- **Pinpoint event queue** (`EventRecorder.java`): the event table is a
  sequence of rows, oldest first, in a class. It covers eviction to the
  clamped pending budget, batching by size and count, the delete-map
  bookkeeping, the retryable-error classification, and the
  submission loop.
- **DataStore debugger** (`debug/*`): the per-event state machine and its
  description, the model element with its state priority, title and error
  description, and the debugger's create-if-absent element registry with
  its listeners and singleton.
- **ModelMetadata migration** (`AddItemModelNameToModelMetadataMigration.java`):
  the SQL text builders, and `apply`'s three-way decision over a model
  of SQLite tables. The decisions are: skip, clear, or copy with backfill.
  Each statement's effect, and the exception it may raise, is stated.

Each core file is one module. Where the source updates state in place,
the module has a class with `modifies` clauses. The loops of the source
are methods proved equal to a specification function. The lemmas beside
those functions state what the source promises.

## Model

| member | source | states |
|---|---|---|
| Json.GetString | aws-auth/src/main/java/com/amplifyframework/auth/client/Cognito.kt:22 | `getString` succeeds exactly when the key holds a string, and returns that string |
| Json.GetInt | aws-auth/src/main/java/com/amplifyframework/auth/client/Cognito.kt:49 | `getInt` succeeds exactly when the key holds an integer, and returns it |
| Json.GetBoolean | aws-auth/src/main/java/com/amplifyframework/auth/client/Cognito.kt:21 | `getBoolean` succeeds exactly when the key holds a boolean, and returns it |
| Json.GetObject | aws-auth/src/main/java/com/amplifyframework/auth/client/Cognito.kt:19 | `getJSONObject` succeeds exactly when the key holds an object, and returns it |
| Json.FromStringMap | aws-auth/src/main/java/com/amplifyframework/auth/client/RespondToAuthChallengeRequest.kt:14 | `JSONObject(map)` has the map's keys, each holding that entry's string |
| Json.ToStringMap | aws-auth/src/main/java/com/amplifyframework/auth/client/RespondToAuthChallengeRequest.kt:14 | reading an object back as a string map succeeds iff every value is a string, and keeps keys and values |
| Json.StringMapRoundTrip | aws-auth/src/main/java/com/amplifyframework/auth/client/RespondToAuthChallengeRequest.kt:14 | a string map survives the trip into a JSON object and back unchanged |
| CognitoRequests.SignUpRequestJson | aws-auth/src/main/java/com/amplifyframework/auth/client/SignUpRequest.kt:10-14 | the body has exactly the keys Username, Password, ClientId and SecretHash, and reading it back gives the request |
| CognitoRequests.SignUpRequestJsonInjective | aws-auth/src/main/java/com/amplifyframework/auth/client/SignUpRequest.kt:10-14 | two requests with the same body are the same request |
| CognitoRequests.ConfirmSignUpRequestJson | aws-auth/src/main/java/com/amplifyframework/auth/client/ConfirmSignUpRequest.kt:10-14 | the body has exactly SecretHash, ClientId, Username and ConfirmationCode (no password), and reading it back gives the request |
| CognitoRequests.RespondToAuthChallengeRequestJson | aws-auth/src/main/java/com/amplifyframework/auth/client/RespondToAuthChallengeRequest.kt:10-14 | the body has exactly Session, ChallengeName, ClientId and ChallengeResponses; the responses object has the map's keys; reading it back gives the request |
| CognitoRequests.InitiateAuthRequestJson | aws-auth/src/main/java/com/amplifyframework/auth/client/InitiateAuthRequest.kt:6 | `asJson` is the empty object: neither AuthFlow, ClientId nor AuthParameters is sent |
| CognitoRequests.InitiateAuthRequestJsonNotInjective | aws-auth/src/main/java/com/amplifyframework/auth/client/InitiateAuthRequest.kt:5-6 | two different requests serialise to the same body |
| CognitoClient.TrimStartDropsLeading | aws-auth/src/main/java/com/amplifyframework/auth/client/Cognito.kt:105 | trimming the front drops only Kotlin's whitespace (`Char.isWhitespace`: tab to carriage return, U+001C to U+0020, U+00A0, U+1680, U+2000 to U+200A, U+2028, U+2029, U+202F, U+205F, U+3000) and leaves a suffix that does not start with such a character |
| CognitoClient.TrimEndDropsTrailing | aws-auth/src/main/java/com/amplifyframework/auth/client/Cognito.kt:105 | trimming the back drops only Kotlin whitespace and leaves a prefix that does not end with it |
| CognitoClient.TrimIsMiddle | aws-auth/src/main/java/com/amplifyframework/auth/client/Cognito.kt:105 | `trim` keeps a contiguous middle of the line, drops only Kotlin whitespace around it, and neither starts nor ends with it |
| CognitoClient.TrimKeepsControlDropsSpaces | aws-auth/src/main/java/com/amplifyframework/auth/client/Cognito.kt:105 | Kotlin's `trim` keeps a leading U+0001 and drops a leading no-break space and a trailing ideographic space |
| CognitoClient.JoinTrimmedAppend | aws-auth/src/main/java/com/amplifyframework/auth/client/Cognito.kt:100-109 | the text of two streams read one after the other is the concatenation of their texts |
| CognitoClient.ReadStream | aws-auth/src/main/java/com/amplifyframework/auth/client/Cognito.kt:100-109 | the read loop appends each line trimmed of Kotlin whitespace and returns exactly `JoinTrimmed` of the lines |
| CognitoClient.Post | aws-auth/src/main/java/com/amplifyframework/auth/client/Cognito.kt:77-98 | a status outside 200..399 fails with ResponseError carrying the error stream's text; a status in 200..399 succeeds with the parsed input stream when it parses, and fails with MalformedBody when it does not |
| CognitoClient.Str | aws-auth/src/main/java/com/amplifyframework/auth/client/Cognito.kt:22 | reading a string field succeeds iff the key holds a string, and returns it |
| CognitoClient.Int | aws-auth/src/main/java/com/amplifyframework/auth/client/Cognito.kt:49 | reading an integer field succeeds iff the key holds an integer, and returns it |
| CognitoClient.Bool | aws-auth/src/main/java/com/amplifyframework/auth/client/Cognito.kt:21 | reading a boolean field succeeds iff the key holds a boolean, and returns it |
| CognitoClient.Obj | aws-auth/src/main/java/com/amplifyframework/auth/client/Cognito.kt:19 | reading an object field succeeds iff the key holds an object, and returns it |
| CognitoClient.ParseAuthenticationResult | aws-auth/src/main/java/com/amplifyframework/auth/client/Cognito.kt:47-53 | the result parses iff AccessToken, IdToken, RefreshToken and TokenType hold strings and ExpiresIn an integer; a parsed result always has a refresh token |
| CognitoClient.AuthenticationResultRoundTrip | aws-auth/src/main/java/com/amplifyframework/auth/client/Cognito.kt:47-53 | parsing the wire form of a result gives it back when it has a refresh token, and fails when it has none |
| CognitoClient.ParseSignUpResponse | aws-auth/src/main/java/com/amplifyframework/auth/client/Cognito.kt:17-29 | a parsed response holds exactly the UserConfirmed, UserSub and CodeDeliveryDetails fields of the reply |
| CognitoClient.SignUpResponseRoundTrip | aws-auth/src/main/java/com/amplifyframework/auth/client/Cognito.kt:17-29 | parsing the wire form of a sign-up response gives it back |
| CognitoClient.SignUp | aws-auth/src/main/java/com/amplifyframework/auth/client/Cognito.kt:17-29 | a success is the parsed reply to a successful post of the request's body |
| CognitoClient.ConfirmSignUp | aws-auth/src/main/java/com/amplifyframework/auth/client/Cognito.kt:13-15 | succeeds exactly when the post succeeds; the reply body is ignored |
| CognitoClient.CopyOwnKeys | aws-auth/src/main/java/com/amplifyframework/auth/client/Cognito.kt:35-38 | copying succeeds iff every key of the target map holds a string in the source; the result has the target's keys, each with the source's string |
| CognitoClient.CopyChallengeParameters | aws-auth/src/main/java/com/amplifyframework/auth/client/Cognito.kt:35-38 | the loop over the target map's own keys computes exactly `CopyOwnKeys` |
| CognitoClient.ParseInitiateAuthResponse | aws-auth/src/main/java/com/amplifyframework/auth/client/Cognito.kt:31-56 | the reply parses iff ChallengeParameters and AuthenticationResult hold objects, ChallengeName and Session hold strings and the tokens parse; a success has no challenge parameters, says so, and carries the reply's name, session and parsed tokens |
| CognitoClient.InitiateAuth | aws-auth/src/main/java/com/amplifyframework/auth/client/Cognito.kt:31-56 | a failed post fails with its cause, and a successful one gives the parsed reply; a success never reports challenge parameters and always holds an authentication result with a refresh token |
| CognitoClient.InitiateAuthIgnoresRequest | aws-auth/src/main/java/com/amplifyframework/auth/client/Cognito.kt:31-32 | what `initiateAuth` returns does not depend on the request |
| CognitoClient.ParseRespondToAuthChallenge | aws-auth/src/main/java/com/amplifyframework/auth/client/Cognito.kt:62-75 | the reply parses iff AuthenticationResult holds an object that parses and ChallengeName holds a string; a success carries that name and the parsed tokens |
| CognitoClient.RespondToAuthChallenge | aws-auth/src/main/java/com/amplifyframework/auth/client/Cognito.kt:62-75 | a failed post fails with its cause, and a successful one gives the parsed reply, whose tokens include a refresh token |
| CognitoClient.GlobalSignOutBody | aws-auth/src/main/java/com/amplifyframework/auth/client/Cognito.kt:59 | the body holds exactly AccessToken with the given token |
| CognitoClient.GlobalSignOut | aws-auth/src/main/java/com/amplifyframework/auth/client/Cognito.kt:58-60 | succeeds exactly when the post of that body succeeds |
| RespondToAuthChallengeResponseParser.From | aws-auth/src/main/java/com/amplifyframework/auth/client/RespondToAuthChallengeResponse.kt:10-26 | fails without AuthenticationResult; the challenge name is absent exactly when the key is, and otherwise is the key's string; the tokens are the parsed result |
| RespondToAuthChallengeResponseParser.FromRoundTrip | aws-auth/src/main/java/com/amplifyframework/auth/client/RespondToAuthChallengeResponse.kt:10-26 | every response with a refresh token comes back unchanged from its wire form, with or without a challenge name |
| CredentialStore.InsecureInMemCredStore.constructor | aws-auth/src/main/java/com/amplifyframework/auth/InsecureInMemCredStore.kt:3-8 | a new store holds no field |
| CredentialStore.InsecureInMemCredStore.SetAccessToken | aws-auth/src/main/java/com/amplifyframework/auth/InsecureInMemCredStore.kt:10-12 | sets the access token and leaves the other four fields alone |
| CredentialStore.InsecureInMemCredStore.SetIdToken | aws-auth/src/main/java/com/amplifyframework/auth/InsecureInMemCredStore.kt:16-18 | sets the ID token and leaves the other four fields alone |
| CredentialStore.InsecureInMemCredStore.SetRefreshToken | aws-auth/src/main/java/com/amplifyframework/auth/InsecureInMemCredStore.kt:22-24 | sets the refresh token and leaves the other four fields alone |
| CredentialStore.InsecureInMemCredStore.SetExpiresIn | aws-auth/src/main/java/com/amplifyframework/auth/InsecureInMemCredStore.kt:28-30 | sets the expiry and leaves the other four fields alone |
| CredentialStore.InsecureInMemCredStore.SetTokenType | aws-auth/src/main/java/com/amplifyframework/auth/InsecureInMemCredStore.kt:32-34 | sets the token type and leaves the other four fields alone |
| CredentialStore.InsecureInMemCredStore.AccessToken | aws-auth/src/main/java/com/amplifyframework/auth/InsecureInMemCredStore.kt:14 | returns the access token iff one was set, and otherwise fails on the `!!` |
| CredentialStore.InsecureInMemCredStore.IdToken | aws-auth/src/main/java/com/amplifyframework/auth/InsecureInMemCredStore.kt:20 | returns the ID token iff one was set, and otherwise fails on the `!!` |
| CredentialStore.InsecureInMemCredStore.RefreshToken | aws-auth/src/main/java/com/amplifyframework/auth/InsecureInMemCredStore.kt:26 | returns the refresh token iff one was set, and otherwise fails on the `!!` |
| CredentialStore.InsecureInMemCredStore.TokenType | aws-auth/src/main/java/com/amplifyframework/auth/InsecureInMemCredStore.kt:36 | returns the token type iff one was set, and otherwise fails on the `!!` |
| CredentialStore.InsecureInMemCredStore.IsEmptyStore | aws-auth/src/main/java/com/amplifyframework/auth/FetchAuthSessionOperation.kt:23 | the store is empty iff none of its five fields is set |
| CredentialStore.InsecureInMemCredStore.Clear | aws-auth/src/main/java/com/amplifyframework/auth/FetchAuthSessionOperation.kt:53 | afterwards no field is set |
| AuthResults.Complete | aws-auth/src/main/java/com/amplifyframework/auth/SignUpOperation.kt:28-32 | a success reaches the success callback unchanged; a failure reaches the error callback as AuthException(message, cause, "Try again.") |
| AuthResults.SecretHash | aws-auth/src/main/java/com/amplifyframework/auth/SignUpOperation.kt:41 | the secret hash succeeds iff `SecretHash.of` does, and is its value |
| SignIn.SrpInitiateRequest | aws-auth/src/main/java/com/amplifyframework/auth/SignInOperation.kt:53-63 | the request is USER_SRP_AUTH for the client, with exactly USERNAME, SRP_A and SECRET_HASH; it fails iff the secret hash does |
| SignIn.StoreCredentials | aws-auth/src/main/java/com/amplifyframework/auth/SignInOperation.kt:146-153 | all five store fields are written from the one result; nothing of the old contents survives |
| SignIn.Split | aws-auth/src/main/java/com/amplifyframework/auth/SignInOperation.kt:132 | `split` always yields at least one piece |
| SignIn.SplitJoin | aws-auth/src/main/java/com/amplifyframework/auth/SignInOperation.kt:132 | no piece holds the separator, and joining the pieces with it gives the string back |
| SignIn.PoolSegment | aws-auth/src/main/java/com/amplifyframework/auth/SignInOperation.kt:132 | `poolId.split("_")[1]` exists iff the pool id holds an underscore |
| SignIn.SplitHasSecondPiece | aws-auth/src/main/java/com/amplifyframework/auth/SignInOperation.kt:132 | `split` yields a second piece iff the separator occurs |
| SignIn.Mac.constructor | aws-auth/src/main/java/com/amplifyframework/auth/SignInOperation.kt:129-131 | a MAC starts with its key and no input |
| SignIn.Mac.Update | aws-auth/src/main/java/com/amplifyframework/auth/SignInOperation.kt:132-134 | `update` appends the data to the accumulated input |
| SignIn.Mac.DoFinal | aws-auth/src/main/java/com/amplifyframework/auth/SignInOperation.kt:136 | `doFinal` tags everything accumulated plus the data, and resets the input |
| SignIn.ClaimSignature | aws-auth/src/main/java/com/amplifyframework/auth/SignInOperation.kt:122-138 | the incremental MAC gives the one-shot HMAC of pool segment, user id, decoded secret block and timestamp, Base64-encoded |
| SignIn.Param | aws-auth/src/main/java/com/amplifyframework/auth/SignInOperation.kt:95-97 | a challenge parameter's `!!` succeeds iff the key is present, with its value |
| SignIn.Hex | aws-auth/src/main/java/com/amplifyframework/auth/SignInOperation.kt:94 | `BigInteger(text, 16)` succeeds iff the parser does, with its value |
| SignIn.ReadSrpChallenge | aws-auth/src/main/java/com/amplifyframework/auth/SignInOperation.kt:93-98 | the challenge reads iff SALT, SECRET_BLOCK, USER_ID_FOR_SRP, USERNAME and SRP_B are all present and SALT and SRP_B parse as hexadecimal, and then carries those values |
| SignIn.PasswordKey | aws-auth/src/main/java/com/amplifyframework/auth/SignInOperation.kt:101 | the key exists iff the SRP helper gives one for the challenge's user id, password, B and salt, and is that key |
| SignIn.ChallengeAnswer | aws-auth/src/main/java/com/amplifyframework/auth/SignInOperation.kt:93-115 | a missing challenge parameter fails; the answer has exactly the five responses, with the challenge's secret block and user name, the timestamp, the secret hash of the challenge's user name, and as PASSWORD_CLAIM_SIGNATURE the claim signature of pool, user id, password key, timestamp and secret block; session, name and client id are carried over; when the challenge reads, the key, signature and secret hash exist, the answer exists |
| SignIn.VerifyPassword | aws-auth/src/main/java/com/amplifyframework/auth/SignInOperation.kt:90-119 | a failure before the call sends nothing and leaves the store alone; otherwise exactly the answer is sent once; a failed reply leaves the store alone and a successful one stores its tokens |
| SignIn.HandleInitiateAuthResponse | aws-auth/src/main/java/com/amplifyframework/auth/SignInOperation.kt:66-87 | without challenge parameters: done, tokens stored if present; PASSWORD_VERIFIER: done only after one successful respond call whose tokens are stored; any other challenge: "Unknown challenge = …" and nothing sent or stored |
| SignIn.CallCognito | aws-auth/src/main/java/com/amplifyframework/auth/SignInOperation.kt:51-88 | only InitiateAuth is ever sent, once, and only when the secret hash succeeds; a failed reply leaves the store alone; a successful one stores its tokens and signs in |
| SignIn.Start | aws-auth/src/main/java/com/amplifyframework/auth/SignInOperation.kt:41-49 | nothing escapes; a failed request or reply fails with "Sign in failed." / "Try again." and that cause, leaving the store alone; a successful reply to the one InitiateAuth call signs in with no challenge and stores its tokens |
| FetchAuthSession.RefreshRequest | aws-auth/src/main/java/com/amplifyframework/auth/FetchAuthSessionOperation.kt:42-50 | the request is REFRESH_TOKEN_AUTH for the client, with exactly REFRESH_TOKEN and SECRET_HASH, the latter being the client secret itself |
| FetchAuthSession.RewriteStore | aws-auth/src/main/java/com/amplifyframework/auth/FetchAuthSessionOperation.kt:53-62 | every field is rewritten from the result, keeping the previous refresh token when the result has none |
| FetchAuthSession.Refresh | aws-auth/src/main/java/com/amplifyframework/auth/FetchAuthSessionOperation.kt:39-63 | without a refresh token nothing is sent; otherwise one request with the stored token is sent; the store changes only after a successful reply, to the refreshed contents |
| FetchAuthSession.SessionOf | aws-auth/src/main/java/com/amplifyframework/auth/FetchAuthSessionOperation.kt:29-35 | a valid session iff both tokens are stored, made of them; otherwise "Failed to fetch session." / "Try again.", citing the access token first |
| FetchAuthSession.ReadSession | aws-auth/src/main/java/com/amplifyframework/auth/FetchAuthSessionOperation.kt:29-35 | reading the two tokens gives exactly `SessionOf` of the store |
| FetchAuthSession.Start | aws-auth/src/main/java/com/amplifyframework/auth/FetchAuthSessionOperation.kt:21-37 | empty store: invalid session; not expired: the stored session; expired: one refresh request, whose failure escapes both callbacks and whose success gives the session of the refreshed tokens |
| SignOut.Start | aws-auth/src/main/java/com/amplifyframework/auth/SignOutOperation.kt:16-27 | without an access token: failure, nothing sent, store unchanged; otherwise the store is emptied before the one global sign-out call, whose outcome reaches the callbacks |
| SignUp.SignUpRequestFor | aws-auth/src/main/java/com/amplifyframework/auth/SignUpOperation.kt:37-43 | the request carries the user name, password, client id and secret hash; it fails iff the secret hash does |
| SignUp.SignUpResultOf | aws-auth/src/main/java/com/amplifyframework/auth/SignUpOperation.kt:48-64 | complete and DONE iff the user is confirmed, otherwise CONFIRM_SIGN_UP_STEP; the user is (UserSub, user name); the delivery details are the reply's |
| SignUp.CallCognito | aws-auth/src/main/java/com/amplifyframework/auth/SignUpOperation.kt:36-65 | a success is the mapped result of a successful SignUp call with the built request |
| SignUp.Start | aws-auth/src/main/java/com/amplifyframework/auth/SignUpOperation.kt:26-34 | nothing escapes; success iff `callCognito` succeeds; a failure is "Sign up failed." / "Try again." with the call's cause |
| SignUp.SignUpEndToEnd | aws-auth/src/main/java/com/amplifyframework/auth/SignUpOperation.kt:26-65 | when the service answers with the wire form of a response, the operation reports exactly its mapped result |
| ConfirmSignUp.ConfirmRequestFor | aws-auth/src/main/java/com/amplifyframework/auth/ConfirmSignUpOperation.kt:35-40 | the request carries client id, user name, code and secret hash; it fails iff the secret hash does |
| ConfirmSignUp.CallCognito | aws-auth/src/main/java/com/amplifyframework/auth/ConfirmSignUpOperation.kt:33-48 | succeeds iff the request is built and the call succeeds; then always complete, DONE, without delivery details, with the placeholder user id |
| ConfirmSignUp.Start | aws-auth/src/main/java/com/amplifyframework/auth/ConfirmSignUpOperation.kt:23-31 | nothing escapes; success iff `callCognito` succeeds, with a complete DONE result for the user name and the placeholder user id; a failure is "Confirm sign up failed." / "Try again." with the call's error as cause |
| TransferNetworkConnectionType.GetConnectionType | aws-storage-s3/src/main/java/com/amplifyframework/storage/s3/transfer/TransferNetworkConnectionType.kt:38-45 | the result is the constant whose name is the input, or ANY when the input names none of ANY, WIFI, MOBILE |
| TransferNetworkConnectionType.GetConnectionTypeOfName | aws-storage-s3/src/main/java/com/amplifyframework/storage/s3/transfer/TransferNetworkConnectionType.kt:21-45 | looking up a constant's own name gives that constant back (valueOf inverts the name) |
| TransferNetworkConnectionType.GetConnectionTypeFallback | aws-storage-s3/src/main/java/com/amplifyframework/storage/s3/transfer/TransferNetworkConnectionType.kt:39-44 | the lookup yields ANY exactly when the text is neither WIFI nor MOBILE |
| TransferOptions.DefaultThreadPoolSize | aws-storage-s3/src/main/java/com/amplifyframework/storage/s3/transfer/TransferOptions.kt:37 | the default pool size is even and, on any device with a processor, at least 4 |
| TransferOptions.Defaults | aws-storage-s3/src/main/java/com/amplifyframework/storage/s3/transfer/TransferOptions.kt:24-38 | options built with no arguments use connection type ANY and the default pool size |
| TransferOptions.Parcel.constructor | aws-storage-s3/src/main/java/com/amplifyframework/storage/s3/transfer/TransferOptions.kt:26-34 | a fresh parcel holds no slots and reads from position 0 |
| TransferOptions.Parcel.WriteInt | aws-storage-s3/src/main/java/com/amplifyframework/storage/s3/transfer/TransferOptions.kt:33 | writing an int appends one slot and leaves the read position alone |
| TransferOptions.Parcel.SetDataPosition | aws-storage-s3/src/main/java/com/amplifyframework/storage/s3/transfer/TransferOptions.kt:26-28 | rewinding changes only the read position |
| TransferOptions.Parcel.ReadInt | aws-storage-s3/src/main/java/com/amplifyframework/storage/s3/transfer/TransferOptions.kt:27 | reading returns the slot at the position, 0 past the end, and advances by one |
| TransferOptions.WriteToParcel | aws-storage-s3/src/main/java/com/amplifyframework/storage/s3/transfer/TransferOptions.kt:32-34 | only the pool size is written: exactly one slot is appended |
| TransferOptions.FromParcel | aws-storage-s3/src/main/java/com/amplifyframework/storage/s3/transfer/TransferOptions.kt:26-28 | the restored options take the pool size from the next slot and the connection type from its default |
| TransferOptions.ParcelRoundTrip | aws-storage-s3/src/main/java/com/amplifyframework/storage/s3/transfer/TransferOptions.kt:26-34 | write then read keeps the pool size but resets the connection type to ANY, so the round trip is the identity exactly when the type was ANY |
| TransferDb.MultiPartUploadValues | aws-storage-s3/src/main/java/com/amplifyframework/storage/s3/transfer/TransferDB.kt:588-616 | a part row is an UPLOAD in WAITING with 0 bytes done, multipart flag 1, the given part number, offset, upload id, last-part flag and total, and options JSON exactly when options were given |
| TransferDb.SinglePartTransferValues | aws-storage-s3/src/main/java/com/amplifyframework/storage/s3/transfer/TransferDB.kt:633-655 | a single-part row has the given type, WAITING, 0 bytes done, part number 0, a total exactly when it is an upload of a file (the file's length), a path exactly when a file was given, and options JSON or "null" |
| TransferDb.MoveSelected | aws-storage-s3/src/main/java/com/amplifyframework/storage/s3/transfer/TransferDB.kt:232-348 | a bulk update keeps every id, sets the target state on exactly the rows whose state is selected (and whose type matches unless ANY), and leaves the others unchanged |
| TransferDb.PlaceholdersShape | aws-storage-s3/src/main/java/com/amplifyframework/storage/s3/transfer/TransferDB.kt:511-524 | n placeholders are 2n-1 characters alternating '?' and ',' |
| TransferDb.CountCharAppend | aws-storage-s3/src/main/java/com/amplifyframework/storage/s3/transfer/TransferDB.kt:385-396 | counting a character over a concatenation adds the two counts |
| TransferDb.PlaceholdersCount | aws-storage-s3/src/main/java/com/amplifyframework/storage/s3/transfer/TransferDB.kt:511-524 | n placeholders contain exactly n question marks |
| TransferDb.CreatePlaceholders | aws-storage-s3/src/main/java/com/amplifyframework/storage/s3/transfer/TransferDB.kt:511-524 | no string for a count of 0 or less; otherwise the placeholder text for that count |
| TransferDb.NoDotInPlaceholders | aws-storage-s3/src/main/java/com/amplifyframework/storage/s3/transfer/TransferDB.kt:516-523 | placeholder text contains no '.' |
| TransferDb.TypeAndStatesSelectionMisnamesColumn | aws-storage-s3/src/main/java/com/amplifyframework/storage/s3/transfer/TransferDB.kt:387-396 | the selection as written contains a '.' (the template renders the table object followed by ".COLUMN_STATE"), the intended one does not, so they differ |
| TransferDb.SelectionMarksMatchArgs | aws-storage-s3/src/main/java/com/amplifyframework/storage/s3/transfer/TransferDB.kt:385-403 | the intended selection has as many '?' as there are arguments: one per state, plus one for the type unless ANY |
| TransferDb.StateConditionMarks | aws-storage-s3/src/main/java/com/amplifyframework/storage/s3/transfer/TransferDB.kt:385-387 | the state condition has one '?' per state |
| TransferDb.TypeConditionMarks | aws-storage-s3/src/main/java/com/amplifyframework/storage/s3/transfer/TransferDB.kt:396 | the type condition has one '?' unless the type is ANY, when it is empty |
| TransferDb.NoMarks | aws-storage-s3/src/main/java/com/amplifyframework/storage/s3/transfer/TransferDB.kt:387-396 | text without '?' counts zero marks |
| TransferDb.TypeAndStatesSelectionArgs | aws-storage-s3/src/main/java/com/amplifyframework/storage/s3/transfer/TransferDB.kt:388-403 | the arguments are the state names in order, followed by the type name unless ANY |
| TransferDb.StateNamesLength | aws-storage-s3/src/main/java/com/amplifyframework/storage/s3/transfer/TransferDB.kt:388-402 | one argument per state |
| TransferDb.CompletedPartBytesWithoutCompletedParts | aws-storage-s3/src/main/java/com/amplifyframework/storage/s3/transfer/TransferDB.kt:428-442 | an upload none of whose parts is PART_COMPLETED reports 0 bytes |
| TransferDb.CompletedPartBytesFrame | aws-storage-s3/src/main/java/com/amplifyframework/storage/s3/transfer/TransferDB.kt:428-442 | changing a row that is not, and does not become, a completed part of the upload leaves its byte count unchanged |
| TransferDb.CompletedPartBytesNonNegative | aws-storage-s3/src/main/java/com/amplifyframework/storage/s3/transfer/TransferDB.kt:428-442 | with non-negative totals the byte count is non-negative |
| TransferDb.PartETags | aws-storage-s3/src/main/java/com/amplifyframework/storage/s3/transfer/TransferDB.kt:453-466 | at most one tag per row |
| TransferDb.PartETagsBelongToUpload | aws-storage-s3/src/main/java/com/amplifyframework/storage/s3/transfer/TransferDB.kt:453-466 | every tag comes from a row of the given upload |
| TransferDb.TransferDB.constructor | aws-storage-s3/src/main/java/com/amplifyframework/storage/s3/transfer/TransferDB.kt:33-42 | a new database holds no records |
| TransferDb.TransferDB.Insert | aws-storage-s3/src/main/java/com/amplifyframework/storage/s3/transfer/TransferDB.kt:78-81 | an insert stores the values under a fresh id and changes nothing else |
| TransferDb.TransferDB.InsertMultipartUploadRecord | aws-storage-s3/src/main/java/com/amplifyframework/storage/s3/transfer/TransferDB.kt:68-82 | one new row, under a fresh id, holding the multipart part values |
| TransferDb.TransferDB.InsertSingleTransferRecord | aws-storage-s3/src/main/java/com/amplifyframework/storage/s3/transfer/TransferDB.kt:97-115 | one new row, under a fresh id, holding the single-part values |
| TransferDb.TransferDB.UpdateBytesTransferred | aws-storage-s3/src/main/java/com/amplifyframework/storage/s3/transfer/TransferDB.kt:137-143 | an existing row gets the new current byte count and the count 1; an unknown id changes nothing and gives 0 |
| TransferDb.TransferDB.UpdateBytesTotalForDownload | aws-storage-s3/src/main/java/com/amplifyframework/storage/s3/transfer/TransferDB.kt:153-157 | an existing row gets the new total and the count 1; an unknown id changes nothing and gives 0 |
| TransferDb.TransferDB.UpdateState | aws-storage-s3/src/main/java/com/amplifyframework/storage/s3/transfer/TransferDB.kt:171-192 | the state is set unless the id is unknown or the move is to FAILED from COMPLETED, PENDING_NETWORK_DISCONNECT, PAUSED, CANCELED or WAITING_FOR_NETWORK, in which case nothing changes and the count is 0 |
| TransferDb.TransferDB.UpdateMultipartId | aws-storage-s3/src/main/java/com/amplifyframework/storage/s3/transfer/TransferDB.kt:201-208 | an existing row gets the new multipart id and the count 1; an unknown id changes nothing and gives 0 |
| TransferDb.TransferDB.UpdateETag | aws-storage-s3/src/main/java/com/amplifyframework/storage/s3/transfer/TransferDB.kt:217-224 | an existing row gets the new ETag and the count 1; an unknown id changes nothing and gives 0 |
| TransferDb.TransferDB.UpdateNetworkDisconnected | aws-storage-s3/src/main/java/com/amplifyframework/storage/s3/transfer/TransferDB.kt:232-244 | every IN_PROGRESS, RESUMED_WAITING or WAITING row becomes PENDING_NETWORK_DISCONNECT, others are untouched, and the count is the number moved |
| TransferDb.TransferDB.UpdateNetworkConnected | aws-storage-s3/src/main/java/com/amplifyframework/storage/s3/transfer/TransferDB.kt:252-265 | every PENDING_NETWORK_DISCONNECT or WAITING_FOR_NETWORK row becomes RESUMED_WAITING, others are untouched, and the count is the number moved |
| TransferDb.TransferDB.PauseAllWithType | aws-storage-s3/src/main/java/com/amplifyframework/storage/s3/transfer/TransferDB.kt:274-304 | running rows of the type (any type for ANY) become PENDING_PAUSE, others are untouched, and the count is the number moved |
| TransferDb.TransferDB.CancelAllWithType | aws-storage-s3/src/main/java/com/amplifyframework/storage/s3/transfer/TransferDB.kt:313-348 | running, paused and waiting-for-network rows of the type become PENDING_CANCEL, others are untouched, and the count is the number moved |
| TransferDb.TransferDB.QueryAllTransfersWithType | aws-storage-s3/src/main/java/com/amplifyframework/storage/s3/transfer/TransferDB.kt:356-368 | exactly the rows of the type, or every row for ANY |
| TransferDb.TransferDB.QueryTransfersWithTypeAndStates | aws-storage-s3/src/main/java/com/amplifyframework/storage/s3/transfer/TransferDB.kt:377-410 | the intended selection and its arguments, and exactly the rows in one of the states (of the type unless ANY); no states selects nothing |
| TransferDb.TransferDB.QueryTransferById | aws-storage-s3/src/main/java/com/amplifyframework/storage/s3/transfer/TransferDB.kt:418-420 | the row exactly when the id is stored |
| TransferDb.TransferDB.QueryBytesTransferredByMainUploadId | aws-storage-s3/src/main/java/com/amplifyframework/storage/s3/transfer/TransferDB.kt:428-442 | the sum of the totals of the upload's PART_COMPLETED parts, in id order |
| TransferDb.TransferDB.QueryPartETagsOfUpload | aws-storage-s3/src/main/java/com/amplifyframework/storage/s3/transfer/TransferDB.kt:453-466 | one (part number, ETag) pair per part of the upload, in id order |
| TransferDb.TransferDB.DeleteTransferRecords | aws-storage-s3/src/main/java/com/amplifyframework/storage/s3/transfer/TransferDB.kt:474-476 | the row is removed and the count is 1 exactly when it existed |
| TransferDb.DisconnectThenConnect | aws-storage-s3/src/main/java/com/amplifyframework/storage/s3/transfer/TransferDB.kt:232-265 | losing and regaining the network leaves every running or disconnected row RESUMED_WAITING and every other row as it was |
| TransferDb.BulkMovesIdempotent | aws-storage-s3/src/main/java/com/amplifyframework/storage/s3/transfer/TransferDB.kt:274-348 | pausing twice equals pausing once, and cancelling twice equals cancelling once |
| TransferDb.CancelCoversPause | aws-storage-s3/src/main/java/com/amplifyframework/storage/s3/transfer/TransferDB.kt:283-334 | every row a pause would stop, a cancel of the same type also stops |
| EventRecorder.PendingLimit | aws-analytics-pinpoint/src/main/java/com/amazonaws/mobileconnectors/pinpoint/internal/event/EventRecorder.java:151-154 | the pending budget is the configured size (5 MiB when unset) raised to at least 16 KiB, and never anything else |
| EventRecorder.EvictedKeepsNewest | aws-analytics-pinpoint/src/main/java/com/amazonaws/mobileconnectors/pinpoint/internal/event/EventRecorder.java:158-172 | eviction keeps a suffix of the table: only the oldest rows are deleted |
| EventRecorder.EvictedFits | aws-analytics-pinpoint/src/main/java/com/amazonaws/mobileconnectors/pinpoint/internal/event/EventRecorder.java:158-172 | after eviction the table's total size is within a non-negative budget |
| EventRecorder.EvictedIsMinimal | aws-analytics-pinpoint/src/main/java/com/amazonaws/mobileconnectors/pinpoint/internal/event/EventRecorder.java:158-172 | eviction deletes no more than it must: keeping one more old row would exceed the budget |
| EventRecorder.EvictedWithinLimit | aws-analytics-pinpoint/src/main/java/com/amazonaws/mobileconnectors/pinpoint/internal/event/EventRecorder.java:158 | a table already within budget is left untouched |
| EventRecorder.ReadEventFromCursor | aws-analytics-pinpoint/src/main/java/com/amazonaws/mobileconnectors/pinpoint/internal/event/EventRecorder.java:186-240 | a row with an id always goes into the delete map; it yields an event exactly when it has an id and a message that parses, with databaseId set to the row id; the size recorded is the stored size, or none when the stored size disagrees with the message length |
| EventRecorder.GatherBounded | aws-analytics-pinpoint/src/main/java/com/amazonaws/mobileconnectors/pinpoint/internal/event/EventRecorder.java:268-279 | a batch holds at most 100 events and ends on a row of the cursor |
| EventRecorder.GatherDeletesEveryReadRow | aws-analytics-pinpoint/src/main/java/com/amazonaws/mobileconnectors/pinpoint/internal/event/EventRecorder.java:268-279 | every row the batch read that has an id is in the delete map, whether its message parsed or not |
| EventRecorder.GatherDeletesOnlyReadRows | aws-analytics-pinpoint/src/main/java/com/amazonaws/mobileconnectors/pinpoint/internal/event/EventRecorder.java:268-279 | the delete map holds nothing but ids of rows in the table |
| EventRecorder.GatherStopsAtFirstOverrun | aws-analytics-pinpoint/src/main/java/com/amazonaws/mobileconnectors/pinpoint/internal/event/EventRecorder.java:268-279 | measured by message length, the events before the batch's last one fit within the request limit |
| EventRecorder.ReadTenCharRow | aws-analytics-pinpoint/src/main/java/com/amazonaws/mobileconnectors/pinpoint/internal/event/EventRecorder.java:186-229 | a stored 10-character message reads as an event with one key and message length 10 |
| EventRecorder.KeyCountReadsAll | aws-analytics-pinpoint/src/main/java/com/amazonaws/mobileconnectors/pinpoint/internal/event/EventRecorder.java:271-278 | as written (counting keys), three 10-character events all enter a batch whose limit is 5 |
| EventRecorder.MessageLengthStopsAtFirst | aws-analytics-pinpoint/src/main/java/com/amazonaws/mobileconnectors/pinpoint/internal/event/EventRecorder.java:271-278 | measured by message length, the same batch stops after the first event |
| EventRecorder.KeyCountBatchOverruns | aws-analytics-pinpoint/src/main/java/com/amazonaws/mobileconnectors/pinpoint/internal/event/EventRecorder.java:271 | as written, the batch carries 20 characters past a limit of 5 before its last event; the intended batch holds one event |
| EventRecorder.GetBatchOfEvents | aws-analytics-pinpoint/src/main/java/com/amazonaws/mobileconnectors/pinpoint/internal/event/EventRecorder.java:259-282 | under the given measure (key count, `json.length()` as written, or message length as intended) the loop returns exactly the batch, delete map and last row that the batch specification gives, with at most 100 events |
| EventRecorder.IsRetryableIgnoresCase | aws-analytics-pinpoint/src/main/java/com/amazonaws/mobileconnectors/pinpoint/internal/event/EventRecorder.java:490-497 | retryability of an error code does not depend on letter case |
| EventRecorder.ItemVerdictOf | aws-analytics-pinpoint/src/main/java/com/amazonaws/mobileconnectors/pinpoint/internal/event/EventRecorder.java:459-487 | an event is retried only when its item response is a retryable non-Accepted message and it carries a database id; it is unanswered exactly when its event id has no item response |
| EventRecorder.RetainedIdsAreRetried | aws-analytics-pinpoint/src/main/java/com/amazonaws/mobileconnectors/pinpoint/internal/event/EventRecorder.java:473-476 | every id kept out of deletion belongs to an event whose response was a retryable failure |
| EventRecorder.ProcessEventsResponse | aws-analytics-pinpoint/src/main/java/com/amazonaws/mobileconnectors/pinpoint/internal/event/EventRecorder.java:452-488 | succeeds exactly when every event id has an item response, and then removes from the delete map exactly the retried ids; otherwise throws NullPointerException |
| EventRecorder.SubmissionResult | aws-analytics-pinpoint/src/main/java/com/amazonaws/mobileconnectors/pinpoint/internal/event/EventRecorder.java:367-436 | no endpoint clears the delete map; a retryable service error or a retryable client error clears it and any other error keeps it; a delivered response succeeds iff it answers every event, and then removes the retried ids; the map only ever shrinks |
| EventRecorder.SubmitEventsAndEndpoint | aws-analytics-pinpoint/src/main/java/com/amazonaws/mobileconnectors/pinpoint/internal/event/EventRecorder.java:367-436 | the method's branches give exactly the submission result |
| EventRecorder.Without | aws-analytics-pinpoint/src/main/java/com/amazonaws/mobileconnectors/pinpoint/internal/event/EventRecorder.java:339-345 | deleting ids never adds rows |
| EventRecorder.WithoutTwice | aws-analytics-pinpoint/src/main/java/com/amazonaws/mobileconnectors/pinpoint/internal/event/EventRecorder.java:322-349 | deleting one set of ids and then another equals deleting their union |
| EventRecorder.WithoutKeepsMembers | aws-analytics-pinpoint/src/main/java/com/amazonaws/mobileconnectors/pinpoint/internal/event/EventRecorder.java:339-345 | every row left after deletion was in the table |
| EventRecorder.WithoutOrdered | aws-analytics-pinpoint/src/main/java/com/amazonaws/mobileconnectors/pinpoint/internal/event/EventRecorder.java:339-345 | deletion keeps the table's ids increasing and below the next id |
| EventRecorder.OrderedCons | aws-analytics-pinpoint/src/main/java/com/amazonaws/mobileconnectors/pinpoint/internal/event/EventRecorder.java:156 | a row with a smaller id in front of an ordered table gives an ordered table |
| EventRecorder.WithoutOldest | aws-analytics-pinpoint/src/main/java/com/amazonaws/mobileconnectors/pinpoint/internal/event/EventRecorder.java:161-166 | deleting the oldest row's id from an ordered table drops exactly that row |
| EventRecorder.WithoutAbsent | aws-analytics-pinpoint/src/main/java/com/amazonaws/mobileconnectors/pinpoint/internal/event/EventRecorder.java:339-345 | deleting ids the table does not hold changes nothing |
| EventRecorder.SubmissionBound | aws-analytics-pinpoint/src/main/java/com/amazonaws/mobileconnectors/pinpoint/internal/event/EventRecorder.java:318-348 | the do-while loop allows at least one submission and at least the configured count, and the bound is one of the two |
| EventRecorder.RunRound | aws-analytics-pinpoint/src/main/java/com/amazonaws/mobileconnectors/pinpoint/internal/event/EventRecorder.java:322-335 | the first half of the loop body reads the batch from the cursor's row and submits it only when its delete map is non-empty, giving exactly the specified round |
| EventRecorder.RoundDeletesTableIds | aws-analytics-pinpoint/src/main/java/com/amazonaws/mobileconnectors/pinpoint/internal/event/EventRecorder.java:322-345 | what a round leaves to delete are ids of rows of the table |
| EventRecorder.RoundKeepsRows | aws-analytics-pinpoint/src/main/java/com/amazonaws/mobileconnectors/pinpoint/internal/event/EventRecorder.java:367-434 | without an endpoint, or after a retryable service or client error, a round deletes nothing and nothing escapes |
| EventRecorder.RoundDeletesReadRows | aws-analytics-pinpoint/src/main/java/com/amazonaws/mobileconnectors/pinpoint/internal/event/EventRecorder.java:322-345 | when the submission keeps its delete map, a round deletes every row it read that has an id |
| EventRecorder.DriveStep | aws-analytics-pinpoint/src/main/java/com/amazonaws/mobileconnectors/pinpoint/internal/event/EventRecorder.java:322-349 | one pass of the loop: an escaped exception ends it; otherwise it counts a submission, deletes what is left, and ends at the allowed count or the last row or goes on from the next row |
| EventRecorder.DriveGrows | aws-analytics-pinpoint/src/main/java/com/amazonaws/mobileconnectors/pinpoint/internal/event/EventRecorder.java:322-349 | the loop never takes back a submission or a deletion, whatever its rounds |
| EventRecorder.DriveBounded | aws-analytics-pinpoint/src/main/java/com/amazonaws/mobileconnectors/pinpoint/internal/event/EventRecorder.java:318-348 | a loop started below the bound never makes more submissions than the allowed count, or one when fewer than one is allowed |
| EventRecorder.DriveStops | aws-analytics-pinpoint/src/main/java/com/amazonaws/mobileconnectors/pinpoint/internal/event/EventRecorder.java:346-349 | the loop ends only when an exception escapes, the cursor has no next row, or the submissions reach the allowed count |
| EventRecorder.DriveDeletesTableIds | aws-analytics-pinpoint/src/main/java/com/amazonaws/mobileconnectors/pinpoint/internal/event/EventRecorder.java:339-345 | when every round leaves only ids of the table, the loop deletes nothing else |
| EventRecorder.DriveKeepsRows | aws-analytics-pinpoint/src/main/java/com/amazonaws/mobileconnectors/pinpoint/internal/event/EventRecorder.java:322-349 | when no round deletes anything or throws, the loop deletes nothing and nothing escapes |
| EventRecorder.DriveDeletesRead | aws-analytics-pinpoint/src/main/java/com/amazonaws/mobileconnectors/pinpoint/internal/event/EventRecorder.java:322-349 | when every round deletes the rows it read, every row the cursor got through that has an id is deleted and nothing escapes |
| EventRecorder.ProcessFromDeletesTableIds | aws-analytics-pinpoint/src/main/java/com/amazonaws/mobileconnectors/pinpoint/internal/event/EventRecorder.java:322-349 | the loop over the table deletes only ids of its rows |
| EventRecorder.ProcessFromKeepsRows | aws-analytics-pinpoint/src/main/java/com/amazonaws/mobileconnectors/pinpoint/internal/event/EventRecorder.java:367-434 | without an endpoint, or when every submission fails retryably, no row is deleted and nothing escapes |
| EventRecorder.ProcessFromDeletesReadRows | aws-analytics-pinpoint/src/main/java/com/amazonaws/mobileconnectors/pinpoint/internal/event/EventRecorder.java:322-349 | when no submission takes anything out of its delete map, every row the cursor got through that has an id is deleted |
| EventRecorder.FinalFailuresDeleteReadRows | aws-analytics-pinpoint/src/main/java/com/amazonaws/mobileconnectors/pinpoint/internal/event/EventRecorder.java:367-434 | with an endpoint, when every submission fails with a non-retryable error, every row the cursor got through that has an id is deleted and nothing escapes |
| EventRecorder.GatherAccepted | aws-analytics-pinpoint/src/main/java/com/amazonaws/mobileconnectors/pinpoint/internal/event/EventRecorder.java:259-282 | a batch read from rows the service accepts holds only accepted events |
| EventRecorder.AcceptedRetainsNone | aws-analytics-pinpoint/src/main/java/com/amazonaws/mobileconnectors/pinpoint/internal/event/EventRecorder.java:452-488 | when every event is accepted, the response answers them all and keeps none out of deletion |
| EventRecorder.AcceptedDeletesReadRows | aws-analytics-pinpoint/src/main/java/com/amazonaws/mobileconnectors/pinpoint/internal/event/EventRecorder.java:303-358 | with an endpoint, when the service accepts every stored event, every row the cursor got through that has an id is deleted and nothing escapes |
| EventRecorder.ProcessingBounds | aws-analytics-pinpoint/src/main/java/com/amazonaws/mobileconnectors/pinpoint/internal/event/EventRecorder.java:303-358 | over the whole table only its ids are deleted, submissions stay within the bound, and the run stops only at the end of the table, at the allowed count or on an exception |
| EventRecorder.ProcessingSubmitsFirstBatch | aws-analytics-pinpoint/src/main/java/com/amazonaws/mobileconnectors/pinpoint/internal/event/EventRecorder.java:322-335 | when the oldest row has an id, the first batch is submitted: at least one submission is made unless it throws |
| EventRecorder.EventDatabase.constructor | aws-analytics-pinpoint/src/main/java/com/amazonaws/mobileconnectors/pinpoint/internal/event/EventRecorder.java:88-94 | a new event table is empty |
| EventRecorder.EventDatabase.SaveEvent | aws-analytics-pinpoint/src/main/java/com/amazonaws/mobileconnectors/pinpoint/internal/event/EventRecorder.java:156 | a successful save appends one row holding the event, its length and a fresh id, which is returned; a failed save changes nothing |
| EventRecorder.EventDatabase.DeleteEvent | aws-analytics-pinpoint/src/main/java/com/amazonaws/mobileconnectors/pinpoint/internal/event/EventRecorder.java:163-165 | deleting an id removes that row and keeps the table ordered |
| EventRecorder.EventDatabase.RecordEvent | aws-analytics-pinpoint/src/main/java/com/amazonaws/mobileconnectors/pinpoint/internal/event/EventRecorder.java:142-180 | a null event or a failed save returns no URI and changes nothing; otherwise the event is appended and the table is then evicted to the pending budget |
| EventRecorder.EventDatabase.Evict | aws-analytics-pinpoint/src/main/java/com/amazonaws/mobileconnectors/pinpoint/internal/event/EventRecorder.java:158-172 | the nested loops leave exactly the evicted table |
| EventRecorder.EventDatabase.ProcessEvents | aws-analytics-pinpoint/src/main/java/com/amazonaws/mobileconnectors/pinpoint/internal/event/EventRecorder.java:303-358 | the submissions made, the ids deleted and the exception that escapes are exactly those of `Processing` of the old table under the configured (or default) limits; the table afterwards is the old table without the deleted ids |
| EventRecorder.EventDatabase.CompleteRound | aws-analytics-pinpoint/src/main/java/com/amazonaws/mobileconnectors/pinpoint/internal/event/EventRecorder.java:333-349 | after one round the loop either ends with the new counts or goes on as the loop from the next row; the table loses exactly what the round's submission left in its delete map |
| EventRecorder.EventDatabase.DeleteEvents | aws-analytics-pinpoint/src/main/java/com/amazonaws/mobileconnectors/pinpoint/internal/event/EventRecorder.java:339-345 | deleting a set of ids one at a time removes exactly those rows |
| DataStoreEvents.NatToString | aws-datastore/src/main/java/com/amplifyframework/datastore/debug/DataStoreEvent.java:84 | the decimal text of an elapsed time has at least one digit |
| DataStoreEvents.CauseMessages | aws-datastore/src/main/java/com/amplifyframework/datastore/debug/DataStoreEvent.java:68-77 | the description reads at most the given number of levels of the cause chain |
| DataStoreEvents.CauseMessagesPrefix | aws-datastore/src/main/java/com/amplifyframework/datastore/debug/DataStoreEvent.java:68-77 | reading deeper into the chain only adds messages after those already read |
| DataStoreEvents.Lines | aws-datastore/src/main/java/com/amplifyframework/datastore/debug/DataStoreEvent.java:64-75 | a non-empty list of messages renders ending in a newline |
| DataStoreEvents.ExceptionText | aws-datastore/src/main/java/com/amplifyframework/datastore/debug/DataStoreEvent.java:60-79 | no exception adds nothing; a GraphQL exception adds its first error's message and a newline, and throws (None) exactly when it has no errors; any other exception adds its message lines ending in a newline |
| DataStoreEvents.DescriptionStartsWithHeader | aws-datastore/src/main/java/com/amplifyframework/datastore/debug/DataStoreEvent.java:58-59 | every description starts "<type> <state>: " |
| DataStoreEvents.DescriptionTimedIff | aws-datastore/src/main/java/com/amplifyframework/datastore/debug/DataStoreEvent.java:80-86 | the description ends in "ms" exactly when the event ended after it started |
| DataStoreEvents.FinishAfterErrorKeepsError | aws-datastore/src/main/java/com/amplifyframework/datastore/debug/DataStoreEvent.java:22-35 | finishing an event that has reported an error changes nothing: it stays in ERROR with its exception and end time |
| DataStoreEvents.DataStoreEvent.View | aws-datastore/src/main/java/com/amplifyframework/datastore/debug/DataStoreEvent.java:37-55 | the view carries the event's type, state, exception and times |
| DataStoreEvents.DataStoreEvent.constructor | aws-datastore/src/main/java/com/amplifyframework/datastore/debug/DataStoreEvent.java:16-20 | a new event is IN_PROGRESS with no exception, started now and not yet ended |
| DataStoreEvents.DataStoreEvent.Finish | aws-datastore/src/main/java/com/amplifyframework/datastore/debug/DataStoreEvent.java:22-29 | finish gives SUCCESS ended now, unless an error is on record, and keeps the event's invariant |
| DataStoreEvents.DataStoreEvent.RecordError | aws-datastore/src/main/java/com/amplifyframework/datastore/debug/DataStoreEvent.java:31-35 | error gives ERROR ended now with the exception, whatever the earlier state |
| DataStoreEvents.DataStoreEvent.GetDescription | aws-datastore/src/main/java/com/amplifyframework/datastore/debug/DataStoreEvent.java:57-88 | the description is the one the event's view determines |
| ModelElements.HasStateExtend | aws-datastore/src/main/java/com/amplifyframework/datastore/debug/ModelElement.java:57-71 | one more event examined finds a state exactly when it was found before or that event has it |
| ModelElements.ModelStateOfNoEvents | aws-datastore/src/main/java/com/amplifyframework/datastore/debug/ModelElement.java:78-79 | a model with no events is NOT_STARTED |
| ModelElements.ErrorMessages | aws-datastore/src/main/java/com/amplifyframework/datastore/debug/ModelElement.java:88-93 | at most one error message per event |
| ModelElements.NoErrorsNoDescription | aws-datastore/src/main/java/com/amplifyframework/datastore/debug/ModelElement.java:87-95 | a model with no ERROR event has no error messages and an empty error description |
| ModelElements.TitleOf | aws-datastore/src/main/java/com/amplifyframework/datastore/debug/ModelElement.java:22-42 | the title exists exactly when the model has events; with none, reading the latest event throws |
| ModelElements.TitlePendingSyncIff | aws-datastore/src/main/java/com/amplifyframework/datastore/debug/ModelElement.java:31-35 | the title shows PENDING_SYNC exactly when the model has one event and it is SUCCESS |
| ModelElements.TitleErrorsIff | aws-datastore/src/main/java/com/amplifyframework/datastore/debug/ModelElement.java:37-40 | the title carries an error list exactly when the model is in ERROR |
| ModelElements.ViewsOf | aws-datastore/src/main/java/com/amplifyframework/datastore/debug/ModelElement.java:83-85 | one view per event |
| ModelElements.ViewsOfEach | aws-datastore/src/main/java/com/amplifyframework/datastore/debug/ModelElement.java:83-85 | the view at each position is that of the event there |
| ModelElements.ModelElement.constructor | aws-datastore/src/main/java/com/amplifyframework/datastore/debug/ModelElement.java:15-17 | a new element has the model name and no events |
| ModelElements.ModelElement.StartEvent | aws-datastore/src/main/java/com/amplifyframework/datastore/debug/ModelElement.java:44-46 | one new IN_PROGRESS event is appended and the earlier events are unchanged |
| ModelElements.ModelElement.FinishEvent | aws-datastore/src/main/java/com/amplifyframework/datastore/debug/ModelElement.java:48-51 | throws exactly when there are no events; otherwise only the latest event is finished |
| ModelElements.ModelElement.ErrorEvent | aws-datastore/src/main/java/com/amplifyframework/datastore/debug/ModelElement.java:97-100 | throws exactly when there are no events; otherwise only the latest event records the error |
| ModelElements.ModelElement.GetModelState | aws-datastore/src/main/java/com/amplifyframework/datastore/debug/ModelElement.java:53-81 | the flag loop returns IN_PROGRESS over ERROR over SUCCESS over NOT_STARTED, the state the model-state specification gives |
| ModelElements.ModelElement.GetModelErrorDescription | aws-datastore/src/main/java/com/amplifyframework/datastore/debug/ModelElement.java:87-95 | the messages of the ERROR events, in order, joined by ", " |
| ModelElements.ModelElement.GetTitle | aws-datastore/src/main/java/com/amplifyframework/datastore/debug/ModelElement.java:22-42 | the title the title specification gives, absent when the model has no events |
| DataStoreDebuggers.NotificationsFor | aws-datastore/src/main/java/com/amplifyframework/datastore/debug/DataStoreDebugger.java:105-109 | one notification per listener |
| DataStoreDebuggers.NotificationsForEach | aws-datastore/src/main/java/com/amplifyframework/datastore/debug/DataStoreDebugger.java:105-109 | the i-th notification goes to the i-th listener and carries the elements in insertion order |
| DataStoreDebuggers.Lookup | aws-datastore/src/main/java/com/amplifyframework/datastore/debug/DataStoreDebugger.java:82 | a found position holds an element of that name |
| DataStoreDebuggers.LookupNone | aws-datastore/src/main/java/com/amplifyframework/datastore/debug/DataStoreDebugger.java:82-83 | the lookup finds nothing exactly when no element has that name |
| DataStoreDebuggers.DataStoreDebugger.constructor | aws-datastore/src/main/java/com/amplifyframework/datastore/debug/DataStoreDebugger.java:24-28 | a new debugger has no elements, no listeners and no sync-engine state |
| DataStoreDebuggers.DataStoreDebugger.GetElement | aws-datastore/src/main/java/com/amplifyframework/datastore/debug/DataStoreDebugger.java:81-88 | afterwards the name is registered and its element returned; an existing element is reused, otherwise a new empty element is appended; names stay unique |
| DataStoreDebuggers.DataStoreDebugger.NotifyListeners | aws-datastore/src/main/java/com/amplifyframework/datastore/debug/DataStoreDebugger.java:105-109 | every listener, in order, receives the element list |
| DataStoreDebuggers.DataStoreDebugger.SetSyncEngineState | aws-datastore/src/main/java/com/amplifyframework/datastore/debug/DataStoreDebugger.java:75-79 | the state is recorded and every listener is notified; elements and listeners are unchanged |
| DataStoreDebuggers.DataStoreDebugger.Listen | aws-datastore/src/main/java/com/amplifyframework/datastore/debug/DataStoreDebugger.java:111-114 | the listener is appended and every listener, the new one included, is notified |
| DataStoreDebuggers.DataStoreDebugger.StartEvent | aws-datastore/src/main/java/com/amplifyframework/datastore/debug/DataStoreDebugger.java:90-93 | the name's element (created when absent) gains one IN_PROGRESS event and listeners are notified |
| DataStoreDebuggers.DataStoreDebugger.FinishEvent | aws-datastore/src/main/java/com/amplifyframework/datastore/debug/DataStoreDebugger.java:95-98 | the name's latest event is finished; on an element with no events (a new one included) it throws and no one is notified |
| DataStoreDebuggers.DataStoreDebugger.ErrorEvent | aws-datastore/src/main/java/com/amplifyframework/datastore/debug/DataStoreDebugger.java:100-103 | the name's latest event records the error; on an element with no events it throws and no one is notified |
| DataStoreDebuggers.DebuggerInstance.constructor | aws-datastore/src/main/java/com/amplifyframework/datastore/debug/DataStoreDebugger.java:21 | no debugger exists before the first call |
| DataStoreDebuggers.DebuggerInstance.GetInstance | aws-datastore/src/main/java/com/amplifyframework/datastore/debug/DataStoreDebugger.java:30-35 | the first call creates an empty debugger, and every later call returns the same one |
| ModelMetadataMigration.SelectFor | aws-datastore/src/main/java/com/amplifyframework/datastore/storage/sqlite/migrations/AddItemModelNameToModelMetadataMigration.java:87-91 | each model contributes a non-empty select |
| ModelMetadataMigration.UserModelsMembers | aws-datastore/src/main/java/com/amplifyframework/datastore/storage/sqlite/migrations/AddItemModelNameToModelMetadataMigration.java:79-106 | a model name is selected exactly when the provider lists it and it is not a system model |
| ModelMetadataMigration.UserModelsIdempotent | aws-datastore/src/main/java/com/amplifyframework/datastore/storage/sqlite/migrations/AddItemModelNameToModelMetadataMigration.java:80-83 | filtering out system models a second time changes nothing |
| ModelMetadataMigration.UnionOfEmptyIff | aws-datastore/src/main/java/com/amplifyframework/datastore/storage/sqlite/migrations/AddItemModelNameToModelMetadataMigration.java:84-109 | the union text is empty exactly when no user model is selected |
| ModelMetadataMigration.UnionOfAppend | aws-datastore/src/main/java/com/amplifyframework/datastore/storage/sqlite/migrations/AddItemModelNameToModelMetadataMigration.java:84-91 | the union of two non-empty model lists is their unions joined by one " UNION ALL " |
| ModelMetadataMigration.UnionOfLast | aws-datastore/src/main/java/com/amplifyframework/datastore/storage/sqlite/migrations/AddItemModelNameToModelMetadataMigration.java:84-91 | one more model appends " UNION ALL " and its select |
| ModelMetadataMigration.JoinRowMembers | aws-datastore/src/main/java/com/amplifyframework/datastore/storage/sqlite/migrations/AddItemModelNameToModelMetadataMigration.java:116-121 | joining one metadata row on mm.id=models.id yields exactly one row per union entry with the same non-null id, tagged with that entry's table name |
| ModelMetadataMigration.BackfillRowsMembers | aws-datastore/src/main/java/com/amplifyframework/datastore/storage/sqlite/migrations/AddItemModelNameToModelMetadataMigration.java:116-122 | the backfill inserts exactly the metadata rows whose id appears in some model table, each tagged with that model's name |
| ModelMetadataMigration.BackfillRowsNotNull | aws-datastore/src/main/java/com/amplifyframework/datastore/storage/sqlite/migrations/AddItemModelNameToModelMetadataMigration.java:122-131 | every inserted row has a non-null id and a text itemModelName, as the NOT NULL columns demand |
| ModelMetadataMigration.KeysDistinctAppend | aws-datastore/src/main/java/com/amplifyframework/datastore/storage/sqlite/migrations/AddItemModelNameToModelMetadataMigration.java:135 | two row lists with distinct (id, itemModelName) keys and no key in common join into one with distinct keys |
| ModelMetadataMigration.JoinRowKeysDistinct | aws-datastore/src/main/java/com/amplifyframework/datastore/storage/sqlite/migrations/AddItemModelNameToModelMetadataMigration.java:93-121 | with no repeated (id, tableName) pair, one metadata row joins into rows with distinct keys |
| ModelMetadataMigration.BackfillKeysDistinct | aws-datastore/src/main/java/com/amplifyframework/datastore/storage/sqlite/migrations/AddItemModelNameToModelMetadataMigration.java:93-135 | when the duplicate query finds nothing and the old ids are distinct, the backfill never violates the new composite primary key |
| ModelMetadataMigration.ThenWrites | aws-datastore/src/main/java/com/amplifyframework/datastore/storage/sqlite/migrations/AddItemModelNameToModelMetadataMigration.java:57-70 | a statement leaves every table outside its write set as it was |
| ModelMetadataMigration.ApplyKeepsOtherTables | aws-datastore/src/main/java/com/amplifyframework/datastore/storage/sqlite/migrations/AddItemModelNameToModelMetadataMigration.java:48-74 | apply creates, changes or drops no table other than ModelMetadata and ModelMetadataCopy |
| ModelMetadataMigration.ApplyExecutes | aws-datastore/src/main/java/com/amplifyframework/datastore/storage/sqlite/migrations/AddItemModelNameToModelMetadataMigration.java:53-71 | when apply succeeds on a table without the column, it has run exactly the two clearing statements or the five copying statements, in source order, as the duplicate query decides |
| ModelMetadataMigration.ClearExecutes | aws-datastore/src/main/java/com/amplifyframework/datastore/storage/sqlite/migrations/AddItemModelNameToModelMetadataMigration.java:57-58 | a successful clearing branch ran the drop and then the create |
| ModelMetadataMigration.CopyExecutes | aws-datastore/src/main/java/com/amplifyframework/datastore/storage/sqlite/migrations/AddItemModelNameToModelMetadataMigration.java:62-70 | a successful copying branch ran its five statements in order |
| ModelMetadataMigration.ThenExecutes | aws-datastore/src/main/java/com/amplifyframework/datastore/storage/sqlite/migrations/AddItemModelNameToModelMetadataMigration.java:57-70 | a statement that leaves the run successful was carried out after the earlier ones |
| ModelMetadataMigration.UnionAllReadsModels | aws-datastore/src/main/java/com/amplifyframework/datastore/storage/sqlite/migrations/AddItemModelNameToModelMetadataMigration.java:87-114 | the union depends only on the model tables |
| ModelMetadataMigration.ApplyClears | aws-datastore/src/main/java/com/amplifyframework/datastore/storage/sqlite/migrations/AddItemModelNameToModelMetadataMigration.java:54-58 | with duplicates, apply succeeds exactly when ModelMetadata exists, and then leaves it empty with the new columns; otherwise nothing changes |
| ModelMetadataMigration.CopyCreated | aws-datastore/src/main/java/com/amplifyframework/datastore/storage/sqlite/migrations/AddItemModelNameToModelMetadataMigration.java:62-64 | dropping and creating the copy always succeeds, leaves an empty copy with the new columns, and does not change what the union reads |
| ModelMetadataMigration.CopyFilled | aws-datastore/src/main/java/com/amplifyframework/datastore/storage/sqlite/migrations/AddItemModelNameToModelMetadataMigration.java:65-66 | the backfill succeeds exactly when ModelMetadata has the columns it reads and the rows it inserts have distinct keys, and then fills the copy with them |
| ModelMetadataMigration.CopyRenamed | aws-datastore/src/main/java/com/amplifyframework/datastore/storage/sqlite/migrations/AddItemModelNameToModelMetadataMigration.java:67-70 | after a successful backfill, the drop and rename always succeed and put the copy in place of ModelMetadata |
| ModelMetadataMigration.ApplyCopies | aws-datastore/src/main/java/com/amplifyframework/datastore/storage/sqlite/migrations/AddItemModelNameToModelMetadataMigration.java:59-71 | without duplicates, a successful apply replaces ModelMetadata by the backfilled rows with the new columns and leaves no copy; a failed one leaves the old ModelMetadata as it was |
| ModelMetadataMigration.ApplyCopySucceeds | aws-datastore/src/main/java/com/amplifyframework/datastore/storage/sqlite/migrations/AddItemModelNameToModelMetadataMigration.java:59-71 | without duplicates, with ModelMetadata present with its columns and distinct ids, the copying branch always succeeds |
| ModelMetadataMigration.ApplyIdempotent | aws-datastore/src/main/java/com/amplifyframework/datastore/storage/sqlite/migrations/AddItemModelNameToModelMetadataMigration.java:49-52 | after a successful apply, applying again runs nothing and changes nothing |
| ModelMetadataMigration.ThenShift | aws-datastore/src/main/java/com/amplifyframework/datastore/storage/sqlite/migrations/AddItemModelNameToModelMetadataMigration.java:57-70 | a statement's effect does not depend on what was logged before it |
| ModelMetadataMigration.ClearShift | aws-datastore/src/main/java/com/amplifyframework/datastore/storage/sqlite/migrations/AddItemModelNameToModelMetadataMigration.java:57-58 | the clearing branch does the same whatever was logged before it |
| ModelMetadataMigration.CopyShift | aws-datastore/src/main/java/com/amplifyframework/datastore/storage/sqlite/migrations/AddItemModelNameToModelMetadataMigration.java:62-70 | the copying branch does the same whatever was logged before it |
| ModelMetadataMigration.Database.constructor | aws-datastore/src/main/java/com/amplifyframework/datastore/storage/sqlite/migrations/AddItemModelNameToModelMetadataMigration.java:34 | a connection starts with the given tables and nothing executed |
| ModelMetadataMigration.Database.Exec | aws-datastore/src/main/java/com/amplifyframework/datastore/storage/sqlite/migrations/AddItemModelNameToModelMetadataMigration.java:57-70 | a statement that runs applies its effect and is logged; one that throws changes nothing |
| ModelMetadataMigration.Database.ExecSql | aws-datastore/src/main/java/com/amplifyframework/datastore/storage/sqlite/migrations/AddItemModelNameToModelMetadataMigration.java:57-70 | execSQL of a statement's text is one step of the run |
| ModelMetadataMigration.Database.QueryDuplicates | aws-datastore/src/main/java/com/amplifyframework/datastore/storage/sqlite/migrations/AddItemModelNameToModelMetadataMigration.java:96 | the raw query reports whether the duplicate query yields a row, or that it throws |
| ModelMetadataMigration.Database.TableInfo | aws-datastore/src/main/java/com/amplifyframework/datastore/storage/sqlite/migrations/AddItemModelNameToModelMetadataMigration.java:139 | the PRAGMA lists ModelMetadata's column names, none when it is missing |
| ModelMetadataMigration.AddItemModelNameToModelMetadataMigration.constructor | aws-datastore/src/main/java/com/amplifyframework/datastore/storage/sqlite/migrations/AddItemModelNameToModelMetadataMigration.java:42-45 | the migration keeps the connection and the providers' model names |
| ModelMetadataMigration.AddItemModelNameToModelMetadataMigration.AppendModelSelects | aws-datastore/src/main/java/com/amplifyframework/datastore/storage/sqlite/migrations/AddItemModelNameToModelMetadataMigration.java:78-115 | the loop builds the union of the selects of the user models, in order |
| ModelMetadataMigration.AddItemModelNameToModelMetadataMigration.DuplicateIds | aws-datastore/src/main/java/com/amplifyframework/datastore/storage/sqlite/migrations/AddItemModelNameToModelMetadataMigration.java:76-97 | the result is whether the duplicate query over the user models yields a row |
| ModelMetadataMigration.AddItemModelNameToModelMetadataMigration.BackfillModelMetadataQuery | aws-datastore/src/main/java/com/amplifyframework/datastore/storage/sqlite/migrations/AddItemModelNameToModelMetadataMigration.java:99-125 | the text is the backfill statement over the user models |
| ModelMetadataMigration.AddItemModelNameToModelMetadataMigration.HasItemModelNameColumn | aws-datastore/src/main/java/com/amplifyframework/datastore/storage/sqlite/migrations/AddItemModelNameToModelMetadataMigration.java:138-149 | true exactly when ModelMetadata has an itemModelName column |
| ModelMetadataMigration.AddItemModelNameToModelMetadataMigration.ClearMetadata | aws-datastore/src/main/java/com/amplifyframework/datastore/storage/sqlite/migrations/AddItemModelNameToModelMetadataMigration.java:57-58 | runs the clearing branch's statements, stopping at the first that throws |
| ModelMetadataMigration.AddItemModelNameToModelMetadataMigration.CopyMetadata | aws-datastore/src/main/java/com/amplifyframework/datastore/storage/sqlite/migrations/AddItemModelNameToModelMetadataMigration.java:62-70 | runs the copying branch's statements, stopping at the first that throws |
| ModelMetadataMigration.AddItemModelNameToModelMetadataMigration.BackfillCopy | aws-datastore/src/main/java/com/amplifyframework/datastore/storage/sqlite/migrations/AddItemModelNameToModelMetadataMigration.java:65-66 | runs the backfill statement over the user models |
| ModelMetadataMigration.AddItemModelNameToModelMetadataMigration.CreateCopy | aws-datastore/src/main/java/com/amplifyframework/datastore/storage/sqlite/migrations/AddItemModelNameToModelMetadataMigration.java:62-64 | drops any old copy and creates it afresh |
| ModelMetadataMigration.AddItemModelNameToModelMetadataMigration.ReplaceWithCopy | aws-datastore/src/main/java/com/amplifyframework/datastore/storage/sqlite/migrations/AddItemModelNameToModelMetadataMigration.java:67-70 | drops ModelMetadata and renames the copy in its place |
| ModelMetadataMigration.AddItemModelNameToModelMetadataMigration.Apply | aws-datastore/src/main/java/com/amplifyframework/datastore/storage/sqlite/migrations/AddItemModelNameToModelMetadataMigration.java:47-74 | the tables, the outcome and the executed statements are those apply's specification gives for the old tables |

## Left out

Auth:
- Threading: the `GlobalScope.launch` dispatch of every operation is left out. Each operation runs to completion, and its callbacks are its result.
- HTTP I/O in `Cognito.post`: the exchange is a parameter that returns the status and the lines of the body and of the error stream.
- JSON text parsing is a parameter that may fail. org.json's coercions (a number read by `getString`, a string read by `getInt`) are not modelled: each getter demands a value of its own kind.
- `Cognito.initiateAuth` copies its challenge parameters in a loop over the new, empty map. So as written no parameter is ever copied. The model keeps this, and sign-in composed with the real client always takes the no-challenge branch.
- The Cognito response parsers demand a RefreshToken, so every parsed result has one. With the real client, the refresh never takes its branch that keeps the previous refresh token; FetchAuthSession.RewriteStore states that branch for any result.
- `Cognito.sign` is not modelled: it does nothing with its inputs and does not compile as written.
- `Cognito.ResponseError` receives the status code but does not keep it. The model keeps only the message.
- SignOutOperation passes a request object where `Cognito.globalSignOut` takes the token string. The model passes the token.
- SignUpOperation passes user attributes that the SignUpRequest constructor does not take. The model sends none.
- CredentialStorage declares no `isEmpty`, `clear` or `isExpired`. In the model, empty means all five fields are absent, and clear makes them so. Expiry is the store's answer, passed in as a parameter: no expiry formula is invented.
- A Kotlin `!!` on a missing value, or a missing map entry, throws. The model returns a Failure at that point, and the Failure goes where the source's exception goes.
- The timestamp that `computeTimestamp` formats is a parameter, and so is `DeliveryMedium.fromString`.
- The SharedPreferences-backed store, the plugin's configuration lookup and the sample app are not part of this model.

S3 transfer:
- The content provider (`TransferDatabaseHelper`), the `TransferTable` column names and the enum classes `TransferType` and `TransferState` are not part of this model. Record ids are the map keys, the URI of a record is its id, and state and type names are assumed to be the enum constants' names.
- `bulkInsertTransferRecords`, `closeDB`, `getStateUri`, `getPartUri` and `getRecordUri` are left out: they pass values through to the content provider.
- The object-metadata columns (`generateContentValuesForObjectMetadata`) and the Gson form of the options are not modelled. The options JSON is a parameter function.
- `android.os.Parcel` is reduced to a sequence of int slots and a read position.
- TransferDb.TransferDB.QueryTransfersWithTypeAndStates: it queries with the intended selection (the state and type column names, each followed by one `?` per argument). The selection text as written names no column, so SQLite would reject the query. That text is `TypeAndStatesSelectionAsWritten`, and the query's result on it is not modelled.

Pinpoint events:
- PinpointDBUtil is not part of this model. Its table is a sequence of rows with increasing ids, `getTotalSize` is the sum of the stored sizes, and `queryOldestEvents` is the front of that sequence.
- `submitEvents`, the executor, `newInstance`, `closeDB`, `setClippedEventLength` and the log messages are left out.
- `getAllEvents` is left out: it reads every row with `readEventFromCursor`, which is modelled.
- The request, endpoint and event payload builders (`createRecordEventsRequest`, `buildRequestPayload`, `buildEndpointPayload`, `buildEventPayload`) and `processEndpointResponse`, which only logs, are left out. The service call is a parameter that gives each submission's outcome.
- `isClientExceptionRetryable` is the `retryableCause` flag of a client failure: the exception's cause is not modelled.
- Event and message sizes count characters as Unicode scalar values. Java's `String.length()` counts UTF-16 units, so for text outside the Basic Multilingual Plane the pending budget and the request limit compare different numbers.
- `isRetryable(null)` throws a NullPointerException in the source, when a service exception has no error code. The model's error code is always a string, so that case is not covered.
- GetBatchOfEvents and ProcessEvents take the batch measure as a parameter. `KeyCount` is the source as written and `MessageLength` the evident intent (see Findings); the lemmas about the loop hold for both.
- EventRecorder.IsRetryableIgnoresCase: case is folded over ASCII letters only; Java's `equalsIgnoreCase` also folds a few other characters.
- EventRecorder.EventDatabase.RecordEvent: as in the source, eviction may delete the row just saved, when that row alone exceeds the budget.

DataStore debugger:
- The notification UI (`showNotification` and its channel) and the debugger activities are left out.
- Listeners are identities. A notification is returned as the list of (listener, element list) pairs delivered, not a call into listener code.
- The LinkedHashMap of elements is a sequence in insertion order with distinct names.
- DataStoreDebuggers.DataStoreDebugger.GetElement: the debugger's invariant keeps names unique and each element's events distinct; an event's own invariant is kept by the element's methods.
- The clock is the `now` parameter of each operation that reads it.
- DataStoreEvents.DataStoreEvent.RecordError always takes an exception, so `error(null)` is not covered. In the source that call sets ERROR with no exception, and a later `finish()` then turns the event into SUCCESS.

ModelMetadata migration:
- SQL text is not parsed. Each `execSQL` receives the statement that the text stands for, and the text is required to be that statement's rendering.
- `Wrap.inSingleQuotes` is assumed to wrap without escaping.
- The system model names come from a provider that is not part of this model; they are a parameter, and the model provider's set is a sequence in iteration order.
- The order of rows that the join inserts is a nested loop over the metadata rows and the union. SQLite guarantees no order, but the keys are proved distinct, so the order does not matter.
- SQLite's NOT NULL constraint is not checked by the modelled INSERT. ModelMetadataMigration.BackfillRowsNotNull shows that the inserted rows meet it.
- With no user models, the duplicate query reads "FROM ()", which SQLite rejects. This is modelled as the query throwing.
- ModelMetadataMigration.ApplyCopies assumes that no user model is named ModelMetadataCopy.
- The duplicate query groups by (id, tableName), so an id shared by two models is not reported. ModelMetadataMigration.BackfillKeysDistinct shows that this check, with the old table's primary key, is enough for the new composite key.
- The log messages are left out.

## Findings

| source | as written | input that shows it | evidently intended | confidence | as-written member | corrected member |
|---|---|---|---|---|---|---|
| aws-storage-s3/src/main/java/com/amplifyframework/storage/s3/transfer/TransferDB.kt:387-396 | the Kotlin template "$TransferTable.COLUMN_STATE" interpolates the `TransferTable` object's text, then the literal ".COLUMN_STATE" (likewise for the type column), so the selection names no real column | any call, e.g. type ANY with states [WAITING] | the column name followed by " in (?,...)", with one mark per argument | not executed | TransferDb.TypeAndStatesSelectionMisnamesColumn | TransferDb.SelectionMarksMatchArgs |
| aws-analytics-pinpoint/src/main/java/com/amazonaws/mobileconnectors/pinpoint/internal/event/EventRecorder.java:271 | the batch size adds `json.length()`, the number of keys of the event, not its length in characters | three stored events of 10 characters each, with a request limit of 5: all three enter the batch | each event adds the length of its stored message, so the batch stops at the first event that passes the limit | not executed | EventRecorder.KeyCountBatchOverruns | EventRecorder.GatherStopsAtFirstOverrun |
