/** The access checks of app/security.py: an athlete may read their own
    data, an administrator anyone's, and a token's identity claim must name
    the expected athlete. Identifiers are compared through their `str()`
    text, so the integer 5 and the text "5" name the same athlete. Token
    decoding is a parameter: its claims, or a failure. */
module Security {
  import opened Text

  /** The identifier values the checks receive. */
  datatype Identifier = IntId(n: int) | TextId(text: string) | NoId

  /** Python's `str()` of an identifier. */
  function Str(id: Identifier): string
  {
    match id
    case IntId(n) => IntToString(n)
    case TextId(t) => t
    case NoId => "None"
  }

  /** `validate_athlete_access`. */
  function ValidateAthleteAccess(currentUser: Identifier, requested: Identifier, isAdmin: bool): (r: bool)
    ensures isAdmin ==> r
    ensures currentUser == requested ==> r
    ensures !isAdmin && currentUser.IntId? && requested.IntId? ==> (r <==> currentUser.n == requested.n)
  {
    if isAdmin then true
    else if currentUser.IntId? && requested.IntId? then
      IntToStringInjective(currentUser.n, requested.n);
      Str(currentUser) == Str(requested)
    else Str(currentUser) == Str(requested)
  }

  /** Administrators pass whatever the identifiers; anyone else passes
      exactly when the two identifiers print the same. */
  lemma AccessMeaning(currentUser: Identifier, requested: Identifier, isAdmin: bool)
    ensures isAdmin ==> ValidateAthleteAccess(currentUser, requested, isAdmin)
    ensures !isAdmin ==> (ValidateAthleteAccess(currentUser, requested, isAdmin) <==> Str(currentUser) == Str(requested))
  {
  }

  /** Between integer identifiers access is granted exactly to the same
      athlete: the own id passes and any other id, such as 999 for athlete
      1, is refused. */
  lemma IntegerAccess(current: int, requested: int)
    ensures ValidateAthleteAccess(IntId(current), IntId(requested), false) <==> current == requested
  {
    IntToStringInjective(current, requested);
  }

  /** An integer id and its decimal text name the same athlete. */
  lemma IntegerMatchesText(n: nat)
    ensures ValidateAthleteAccess(IntId(n), TextId(NatToString(n)), false)
    ensures ValidateAthleteAccess(TextId(NatToString(n)), IntId(n), false)
  {
  }

  /** The result of `decode_token`: the `sub` claim (NoId when absent),
      or a failure, which the check turns into a refusal. */
  datatype DecodedToken = Claims(sub: Identifier) | DecodeFailure

  /** `verify_token_identity`. */
  function VerifyTokenIdentity(decoded: DecodedToken, expected: Identifier): (r: bool)
    ensures decoded.DecodeFailure? ==> !r
    ensures decoded == Claims(expected) ==> r
    ensures decoded.Claims? && decoded.sub.IntId? && expected.IntId? ==> (r <==> decoded.sub.n == expected.n)
  {
    match decoded
    case DecodeFailure => false
    case Claims(sub) =>
      if sub.IntId? && expected.IntId? then
        IntToStringInjective(sub.n, expected.n);
        Str(sub) == Str(expected)
      else Str(sub) == Str(expected)
  }

  /** A token passes exactly when it decodes and its subject prints as the
      expected athlete; a decoding failure never passes. */
  lemma TokenIdentityMeaning(decoded: DecodedToken, expected: Identifier)
    ensures VerifyTokenIdentity(decoded, expected) <==> decoded.Claims? && Str(decoded.sub) == Str(expected)
    ensures decoded.DecodeFailure? ==> !VerifyTokenIdentity(decoded, expected)
    ensures forall a, b :: VerifyTokenIdentity(Claims(IntId(a)), IntId(b)) <==> a == b
  {
    forall a, b ensures VerifyTokenIdentity(Claims(IntId(a)), IntId(b)) <==> a == b {
      IntToStringInjective(a, b);
    }
  }

  /** A token with no subject claim prints as "None" and so passes for the
      text identifier "None". */
  lemma MissingSubjectMatchesNoneText()
    ensures VerifyTokenIdentity(Claims(NoId), TextId("None"))
  {
  }
}
