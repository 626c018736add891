/** The three-stage `verify_api_key` dependency that the LangChain agent and
    the CrewAI server both declare, word for word: a missing header, then a
    wrong scheme, then a wrong key, each rejected with its own 401 detail. */
module BearerAuth {
  import opened Http
  import opened Strings

  const MISSING_HEADER: string := "Missing Authorization header"
  const INVALID_FORMAT: string := "Invalid Authorization format"
  const INVALID_KEY: string := "Invalid API key"

  /** The token the guard compares with the key: the header with EVERY
      occurrence of `"Bearer "` removed, not only the leading one. */
  function Token(header: string): (t: string)
    ensures |t| <= |header|
  {
    ReplaceAll(header, BEARER, "")
  }

  /** `verify_api_key(authorization)`: the checks run in the order missing,
      format, key, and the first that fails alone decides the 401 detail; on
      success the stripped token, which then equals the key, is returned. */
  function VerifyApiKey(apiKey: string, authorization: Option<string>): (r: Result<string, HttpError>)
    ensures !Truthy(authorization) ==> r == Failure(HttpError(UNAUTHORIZED, MISSING_HEADER))
    ensures Truthy(authorization) && !StartsWith(authorization.value, BEARER) ==>
      r == Failure(HttpError(UNAUTHORIZED, INVALID_FORMAT))
    ensures authorization.Some? && StartsWith(authorization.value, BEARER) && Token(authorization.value) != apiKey ==>
      r == Failure(HttpError(UNAUTHORIZED, INVALID_KEY))
    ensures r.Success? <==>
      authorization.Some? && StartsWith(authorization.value, BEARER) && Token(authorization.value) == apiKey
    ensures r.Success? ==> r.value == apiKey
    ensures r.Failure? ==> r.error.status == UNAUTHORIZED
  {
    if !Truthy(authorization) then
      Failure(HttpError(UNAUTHORIZED, MISSING_HEADER))
    else if !StartsWith(authorization.value, BEARER) then
      Failure(HttpError(UNAUTHORIZED, INVALID_FORMAT))
    else
      var token := Token(authorization.value);
      if token != apiKey then Failure(HttpError(UNAUTHORIZED, INVALID_KEY))
      else Success(token)
  }

  /** The scheme check is case-sensitive: a lower-case `bearer` is a format error
      whatever follows it. */
  lemma LowercaseSchemeRejected(apiKey: string, rest: string)
    ensures VerifyApiKey(apiKey, Some("bearer " + rest)) == Failure(HttpError(UNAUTHORIZED, INVALID_FORMAT))
  {
    assert ("bearer " + rest)[0] == 'b';
  }

  /** The canonical header `"Bearer " + key` is accepted exactly when the key
      itself does not contain `"Bearer "`. */
  lemma CanonicalHeaderAcceptedIffKeyClean(apiKey: string)
    ensures VerifyApiKey(apiKey, Some(BEARER + apiKey)).Success? <==> !Contains(apiKey, BEARER)
  {
    ReplaceAfterLeading(BEARER, apiKey, "");
    assert StartsWith(BEARER + apiKey, BEARER);
    if Contains(apiKey, BEARER) {
      RemovalShrinks(apiKey, BEARER);
    } else {
      ReplaceAbsent(apiKey, BEARER, "");
    }
  }

  /** Any number n >= 1 of stacked `"Bearer "` prefixes is accepted in front of a
      key that does not contain `"Bearer "`. */
  lemma StackedPrefixesAccepted(apiKey: string, n: nat)
    requires n >= 1 && !Contains(apiKey, BEARER)
    ensures VerifyApiKey(apiKey, Some(Repeat(BEARER, n) + apiKey)) == Success(apiKey)
  {
    var h := Repeat(BEARER, n) + apiKey;
    assert StartsWith(h, BEARER) by {
      assert h == BEARER + (Repeat(BEARER, n - 1) + apiKey);
    }
    assert Token(h) == apiKey by {
      ReplaceRepeatedPrefix(BEARER, n, apiKey, "");
      ReplaceAbsent(apiKey, BEARER, "");
      assert Repeat("", n) == [];
    }
  }

  /** Every accepted header is the key with one or more `"Bearer "` occurrences
      woven in: its length is the key's plus seven per occurrence removed. */
  lemma AcceptedHeaderLength(apiKey: string, header: string)
    requires VerifyApiKey(apiKey, Some(header)).Success?
    ensures CountOccurrences(header, BEARER) >= 1
    ensures |header| == |apiKey| + |BEARER| * CountOccurrences(header, BEARER)
  {
    assert StartsWith(header, BEARER) && Token(header) == apiKey;
    assert CountOccurrences(header, BEARER) == 1 + CountOccurrences(header[|BEARER|..], BEARER);
    RemovalLength(header, BEARER);
  }

  /** Removing the middle occurrence of `"BeBearer arer "` joins `"Be"` and
      `"arer "` into a new occurrence. */
  lemma SplicedTokenIsScheme()
    ensures Token(BEARER[..2] + BEARER + BEARER[2..]) == BEARER
  {
    var head, rest := BEARER[..2], BEARER[2..];
    var spliced := head + BEARER + rest;
    var tail := spliced[1..];
    assert spliced[2] != BEARER[2];
    ReplaceAfterMismatch(spliced, BEARER, "");
    assert tail == [BEARER[1]] + (BEARER + rest);
    assert tail[1] != BEARER[1];
    ReplaceAfterMismatch(tail, BEARER, "");
    assert tail[1..] == BEARER + rest;
    ReplaceAfterLeading(BEARER, rest, "");
    assert head + rest == BEARER;
  }

  /** Removing every occurrence need not leave a token free of `"Bearer "`. So
      the key `"Bearer "`, whose canonical header is refused, is still accepted
      with the header `"Bearer BeBearer arer "`. */
  lemma SchemeKeyAcceptedThroughSplicedHeader()
    ensures VerifyApiKey(BEARER, Some(BEARER + BEARER)).Failure?
    ensures VerifyApiKey(BEARER, Some(BEARER + (BEARER[..2] + BEARER + BEARER[2..]))) == Success(BEARER)
  {
    assert VerifyApiKey(BEARER, Some(BEARER + BEARER)).Failure? by {
      assert OccursAt(BEARER, BEARER, 0);
      CanonicalHeaderAcceptedIffKeyClean(BEARER);
    }
    var spliced := BEARER[..2] + BEARER + BEARER[2..];
    SplicedTokenIsScheme();
    ReplaceAfterLeading(BEARER, spliced, "");
    assert StartsWith(BEARER + spliced, BEARER);
  }
}
