/** How the exact-match guard of the minimal server and the three-stage guard
    of the LangChain and CrewAI servers differ on the same key. Neither accepts
    a superset of the other: stripping every `"Bearer "` lets stacked prefixes
    through, and refuses the canonical header of a key that contains
    `"Bearer "`. */
module GuardComparison {
  import opened Http
  import opened Strings
  import opened BearerAuth
  import SimpleAgent

  /** Both guards turn away an absent or empty header. */
  lemma BothRejectMissingHeader(apiKey: string, authorization: Option<string>)
    requires !Truthy(authorization)
    ensures !SimpleAgent.Authorized(apiKey, authorization)
    ensures VerifyApiKey(apiKey, authorization) == Failure(HttpError(UNAUTHORIZED, MISSING_HEADER))
  {
  }

  /** For a key without `"Bearer "` in it, whatever the exact guard accepts the
      three-stage guard accepts too. */
  lemma ExactAcceptanceCarriesOver(apiKey: string, authorization: Option<string>)
    requires !Contains(apiKey, BEARER)
    ensures SimpleAgent.Authorized(apiKey, authorization) ==> VerifyApiKey(apiKey, authorization) == Success(apiKey)
  {
    if SimpleAgent.Authorized(apiKey, authorization) {
      CanonicalHeaderAcceptedIffKeyClean(apiKey);
    }
  }

  /** ... but not conversely: `"Bearer Bearer " + key` passes only the
      three-stage guard. */
  lemma DoubledPrefixSeparatesGuards(apiKey: string)
    requires !Contains(apiKey, BEARER)
    ensures VerifyApiKey(apiKey, Some(BEARER + BEARER + apiKey)) == Success(apiKey)
    ensures !SimpleAgent.Authorized(apiKey, Some(BEARER + BEARER + apiKey))
  {
    StackedPrefixesAccepted(apiKey, 2);
    assert Repeat(BEARER, 2) == BEARER + BEARER;
    assert |BEARER + BEARER + apiKey| != |BEARER + apiKey|;
  }

  /** A key containing `"Bearer "` is accepted by the exact guard with its
      canonical header, which the three-stage guard refuses as a wrong key. */
  lemma SchemeInKeySeparatesGuards(apiKey: string)
    requires Contains(apiKey, BEARER)
    ensures SimpleAgent.Authorized(apiKey, Some(BEARER + apiKey))
    ensures VerifyApiKey(apiKey, Some(BEARER + apiKey)) == Failure(HttpError(UNAUTHORIZED, INVALID_KEY))
  {
    CanonicalHeaderAcceptedIffKeyClean(apiKey);
    assert StartsWith(BEARER + apiKey, BEARER);
  }

  /** Every header the three-stage guard accepts is at least as long as the
      exact guard's, and one of exactly that length is the exact guard's. */
  lemma ShortestAcceptedHeaderIsExact(apiKey: string, header: string)
    requires VerifyApiKey(apiKey, Some(header)).Success?
    ensures |header| >= |BEARER + apiKey|
    ensures |header| == |BEARER + apiKey| ==> SimpleAgent.Authorized(apiKey, Some(header))
  {
    AcceptedHeaderLength(apiKey, header);
    if |header| == |BEARER + apiKey| {
      var rest := header[|BEARER|..];
      assert header == BEARER + rest;
      assert CountOccurrences(header, BEARER) == 1 + CountOccurrences(rest, BEARER);
      CountPositiveIffContains(rest, BEARER);
      ReplaceAbsent(rest, BEARER, "");
      ReplaceAfterLeading(BEARER, rest, "");
    }
  }
}
