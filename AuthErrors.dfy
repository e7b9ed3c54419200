/** What can go wrong inside the auth operations, and the AuthException that
    every operation hands to its error callback. */
module AuthErrors {
  import Json

  datatype Cause =
    | ResponseError(message: string)          // Cognito.ResponseError: HTTP status outside 200..399
    | MalformedBody                           // JSONObject(String) rejected the response text
    | JsonFailure(error: Json.JsonError)      // a getter on the response threw JSONException
    | UnreadableChallengeParameter            // `challengeParamJson[key] as String` threw
    | NullValue(what: string)                 // a `!!` met null
    | MissingCredential(field: string)        // a credential-store getter's `!!` met null
    | IndexOutOfBounds(what: string)          // a list index past the end
    | NumberFormat(what: string)              // BigInteger(text, 16) rejected the text
    | CryptoFailure(what: string)             // SecretHash, SRP key derivation, Base64 or HMAC threw
    | UnknownChallenge(message: string, recoverySuggestion: string)  // the AuthException thrown for an unhandled challenge

  datatype AuthException = AuthException(message: string, cause: Cause, recoverySuggestion: string)
}
