/**
 * Authentication (api/services/auth_service.py): reading the bearer token,
 * funnelling every decoding failure into a 401, the user lookup, the tier
 * requirement and the development handler. Token decoding and the
 * database are foreign: their outcomes are inputs. The clock is `now`, in
 * whole seconds.
 */
module Auth {
  import opened Wrappers
  import opened Text
  import opened ErrorHandler
  import UserRepository

  /** What jwt.decode did with the token. */
  datatype JwtOutcome =
    | Decoded(sub: Option<string>, exp: Option<int>)  // the payload's "sub" and "exp" claims
    | JwtRejected                                     // a JWTError: bad signature, malformed token
    | DecodeRaised                                    // any other exception while decoding

  const InvalidCredentials: string := "Invalid authentication credentials"
  const AuthenticationError: string := "Authentication error"
  const NotAuthenticated: string := "Not authenticated"
  const InvalidScheme: string := "Invalid authentication scheme"
  const InvalidPayload: string := "Invalid token payload"
  const UserNotFound: string := "User not found"

  /** A value or the HTTPException raised instead. */
  datatype Checked<T> = Passed(value: T) | Refused(e: HttpException)

  /**
   * decode_jwt: the payload of a valid, unexpired token. The expiry
   * exception is raised inside the try block and caught by its catch-all,
   * so an expired token reports "Authentication error", not "Token has expired".
   */
  function DecodeJwt(outcome: JwtOutcome, now: int): (r: Checked<JwtOutcome>)
    ensures r.Passed? <==> outcome.Decoded? && !(outcome.exp.Some? && outcome.exp.value < now)
    ensures r.Passed? ==> r.value == outcome
    ensures outcome.JwtRejected? ==> r == Refused(HttpException(401, InvalidCredentials))
    ensures r.Refused? && !outcome.JwtRejected? ==> r == Refused(HttpException(401, AuthenticationError))
  {
    match outcome
    case JwtRejected => Refused(HttpException(401, InvalidCredentials))
    case DecodeRaised => Refused(HttpException(401, AuthenticationError))
    case Decoded(_, exp) =>
      if exp.Some? && exp.value < now then Refused(HttpException(401, AuthenticationError))
      else Passed(outcome)
  }

  /**
   * The token in an Authorization header: the second word after a "bearer"
   * scheme (any case), or the whole header when it has no space. A header
   * that does not split into two words fails the unpacking, which the
   * catch-all reports as "Authentication error".
   */
  function ExtractToken(authorization: string): (r: Checked<string>)
    ensures ' ' !in authorization ==> r == Passed(authorization)
    ensures ' ' in authorization && |Words(authorization)| != 2 ==> r == Refused(HttpException(401, AuthenticationError))
    ensures ' ' in authorization && |Words(authorization)| == 2 ==>
      r == if ToLower(Words(authorization)[0]) == "bearer" then Passed(Words(authorization)[1])
           else Refused(HttpException(401, InvalidScheme))
  {
    if ' ' in authorization then
      var parts := Words(authorization);
      if |parts| != 2 then Refused(HttpException(401, AuthenticationError))
      else if ToLower(parts[0]) != "bearer" then Refused(HttpException(401, InvalidScheme))
      else Passed(parts[1])
    else Passed(authorization)
  }

  /** A bearer header yields its token, whatever the scheme's case. */
  lemma {:induction false} BearerHeaderToken(scheme: string, token: string)
    requires ToLower(scheme) == "bearer"
    requires token != [] && forall i | 0 <= i < |token| :: !IsSpace(token[i])
    ensures ExtractToken(scheme + " " + token) == Passed(token)
  {
    assert |scheme| == 6;
    forall i | 0 <= i < |scheme|
      ensures !IsSpace(scheme[i])
    {
      assert LowerChar(scheme[i]) == "bearer"[i];
    }
    WordsOfPair(scheme, token);
    assert (scheme + " " + token)[|scheme|] == ' ';
  }

  /**
   * get_current_user: the user id and profile of the caller. The decoding
   * outcome is that of the extracted token; `user` is what get_user_by_id
   * returned, which is None both when no profile has the id and when the
   * query raised, since that lookup catches its own exceptions.
   */
  function GetCurrentUser(authorization: Option<string>, decoded: JwtOutcome,
                          user: Option<UserRepository.Profile>, now: int)
    : (r: Checked<(string, UserRepository.Profile)>)
    ensures !Truthy(authorization) ==> r == Refused(HttpException(401, NotAuthenticated))
    ensures r.Passed? <==>
      && Truthy(authorization)
      && ExtractToken(authorization.value).Passed?
      && DecodeJwt(decoded, now).Passed?
      && Truthy(decoded.sub)
      && user.Some?
    ensures r.Passed? ==> r.value == (decoded.sub.value, user.value)
    ensures r.Refused? && r.e.statusCode == 404 <==>
      && Truthy(authorization)
      && ExtractToken(authorization.value).Passed?
      && DecodeJwt(decoded, now).Passed?
      && Truthy(decoded.sub)
      && user.None?
    ensures r.Refused? ==> r.e.statusCode in {401, 404}
  {
    if !Truthy(authorization) then Refused(HttpException(401, NotAuthenticated))
    else
      match ExtractToken(authorization.value)
      case Refused(e) => Refused(e)
      case Passed(_) =>
        match DecodeJwt(decoded, now)
        case Refused(e) => Refused(e)
        case Passed(_) =>
          if !Truthy(decoded.sub) then Refused(HttpException(401, InvalidPayload))
          else if user.Some? then Passed((decoded.sub.value, user.value))
          else Refused(HttpException(404, UserNotFound))
  }

  /** The 403 detail of require_subscription. */
  function RequiresTier(requiredTier: string): string {
    "This feature requires a " + requiredTier + " subscription"
  }

  /**
   * require_subscription: 400 with the lookup's reason when the feature
   * check failed; otherwise the features when the tier is the required one
   * or "family", and 403 for any other tier.
   */
  function RequireSubscription(check: UserRepository.FeatureCheck, requiredTier: string)
    : (r: Checked<UserRepository.FeatureCheck>)
    ensures check.FeaturesFailed? ==> r == Refused(HttpException(400, check.reason))
    ensures check.FeaturesOf? ==>
      (r.Passed? <==> check.subscriptionTier == requiredTier || check.subscriptionTier == "family")
    ensures r.Passed? ==> r.value == check
    ensures check.FeaturesOf? && r.Refused? ==> r.e == HttpException(403, RequiresTier(requiredTier))
  {
    match check
    case FeaturesFailed(reason) => Refused(HttpException(400, reason))
    case FeaturesOf(tier, _) =>
      if tier != requiredTier && tier != "family" then Refused(HttpException(403, RequiresTier(requiredTier)))
      else Passed(check)
  }

  /**
   * With the default requirement, a known user passes exactly when the tier
   * table grants the paid features, and "family" passes every requirement.
   */
  lemma {:induction false} PremiumRequirementMatchesFeatures(user: UserRepository.Profile, requiredTier: string)
    ensures RequireSubscription(UserRepository.CheckSubscriptionFeatures(Some(user)), "premium").Passed? <==>
      UserRepository.FeaturesFor(user.Tier()).longStories
    ensures user.Tier() == "family" ==>
      RequireSubscription(UserRepository.CheckSubscriptionFeatures(Some(user)), requiredTier).Passed?
  {
    var tier := user.Tier();
    assert UserRepository.Paid(tier) <==> tier == "premium" || tier == "family";
  }

  /** mock_auth_handler: the token itself is the user id; an empty token is refused. */
  function MockAuthHandler(token: string): (r: Checked<string>)
    ensures token == "" <==> r == Refused(HttpException(401, NotAuthenticated))
    ensures token != "" ==> r == Passed(token)
  {
    if token == "" then Refused(HttpException(401, NotAuthenticated)) else Passed(token)
  }
}
