/**
 * Fixed-window rate limiting (api/middleware/rate_limiter.py). The
 * in-memory store maps "{user}:{rule}" to a counter and the second at which
 * its window ends. The clock is the parameter `now` (whole seconds); the
 * user lookup in the database is an input.
 */
module RateLimiter {
  import opened Wrappers
  import opened Text

  /** A tier's allowance for one rule: `limit` requests per `window` seconds. */
  datatype Allowance = Allowance(limit: nat, window: nat)

  /** RATE_LIMIT_RULES */
  const RateLimitRules: map<string, map<string, Allowance>> := map[
    "free" := map["story_generation" := Allowance(5, 3600), "get_stories" := Allowance(100, 3600),
                  "general" := Allowance(200, 3600)],
    "premium" := map["story_generation" := Allowance(20, 3600), "get_stories" := Allowance(500, 3600),
                     "general" := Allowance(1000, 3600)],
    "family" := map["story_generation" := Allowance(30, 3600), "get_stories" := Allowance(1000, 3600),
                    "general" := Allowance(2000, 3600)]
  ]

  /** The largest limit in the table. */
  const MaxLimit: nat := 2000

  /** ENDPOINT_RULES, in declaration order. */
  const EndpointRules: seq<(string, string)> := [("/api/stories/generate", "story_generation"), ("/api/stories/", "get_stories")]

  /** Paths that are never limited. */
  const UnlimitedPaths: set<string> := {"/", "/api/health", "/docs", "/redoc", "/openapi.json"}

  /** Every rule of every tier has a positive window and a limit no larger than MaxLimit. */
  lemma {:induction false} RulesWellFormed(tier: string, rule: string)
    requires tier in RateLimitRules && rule in RateLimitRules[tier]
    ensures 0 < RateLimitRules[tier][rule].limit <= MaxLimit
    ensures RateLimitRules[tier][rule].window == 3600
  {
    assert tier in {"free", "premium", "family"};
  }

  /** Story generation is the tightest free rule, and paying raises it. */
  lemma {:induction false} TierTableOrdering()
    ensures RateLimitRules["free"]["story_generation"].limit < RateLimitRules["free"]["general"].limit
    ensures RateLimitRules["free"]["story_generation"].limit < RateLimitRules["premium"]["story_generation"].limit
    ensures RateLimitRules["premium"]["story_generation"].limit < RateLimitRules["family"]["story_generation"].limit
    ensures forall tier | tier in RateLimitRules :: RateLimitRules[tier].Keys == {"story_generation", "get_stories", "general"}
  {
  }

  // ---------------------------------------------------------------- request key

  /**
   * The user id taken from the Authorization header: the token of a
   * "Bearer" header (scheme in any case), the whole header when it has no
   * space, and "anonymous" otherwise. A header with a space that does not
   * split into exactly two words makes the unpacking raise.
   */
  function UserKey(authorization: Option<string>): (r: Result<string>)
    ensures authorization.None? ==> r == Ok("anonymous")
    ensures authorization.Some? && ' ' !in authorization.value ==> r == Ok(authorization.value)
    ensures authorization.Some? && ' ' in authorization.value ==>
      (r.Ok? <==> |Words(authorization.value)| == 2)
    ensures r.Ok? && authorization.Some? && ' ' in authorization.value ==>
      r.value == (if ToLower(Words(authorization.value)[0]) == "bearer" then Words(authorization.value)[1] else "anonymous")
  {
    match authorization
    case None => Ok("anonymous")
    case Some(auth) =>
      if ' ' in auth then
        var parts := Words(auth);
        if |parts| != 2 then Err("not enough or too many values to unpack")
        else if ToLower(parts[0]) == "bearer" then Ok(parts[1])
        else Ok("anonymous")
      else Ok(auth)
  }

  /** A bearer token without whitespace is the user key, whatever the scheme's case. */
  lemma {:induction false} BearerTokenIsKey(scheme: string, token: string)
    requires ToLower(scheme) == "bearer"
    requires token != [] && forall i | 0 <= i < |token| :: !IsSpace(token[i])
    ensures UserKey(Some(scheme + " " + token)) == Ok(token)
  {
    assert |scheme| == 6;
    forall i | 0 <= i < |scheme|
      ensures !IsSpace(scheme[i])
    {
      assert LowerChar(scheme[i]) == "bearer"[i];
    }
    WordsOfPair(scheme, token);
    assert (scheme + " " + token)[|scheme|] == ' ';
  }

  // ---------------------------------------------------------------- rule

  /** The rule of the first endpoint prefix the path starts with, else "general". */
  function FirstMatch(rules: seq<(string, string)>, path: string): (rule: string)
    ensures rule == "general" || exists i | 0 <= i < |rules| :: rule == rules[i].1
  {
    if rules == [] then "general"
    else if StartsWith(path, rules[0].0) then rules[0].1
    else FirstMatch(rules[1..], path)
  }

  /** The loop over ENDPOINT_RULES that stops at the first matching prefix. */
  method SelectRule(path: string) returns (ruleKey: string)
    ensures ruleKey == FirstMatch(EndpointRules, path)
  {
    ruleKey := "general";
    var i := 0;
    while i < |EndpointRules|
      invariant 0 <= i <= |EndpointRules|
      invariant ruleKey == "general"
      invariant FirstMatch(EndpointRules, path) == FirstMatch(EndpointRules[i..], path)
      decreases |EndpointRules| - i
    {
      if StartsWith(path, EndpointRules[i].0) {
        ruleKey := EndpointRules[i].1;
        break;
      }
      assert EndpointRules[i..][1..] == EndpointRules[i + 1..];
      i := i + 1;
    }
  }

  /**
   * The three rule classes: generation paths, other paths under
   * "/api/stories/", and everything else, including "/api/stories" itself.
   */
  lemma {:induction false} RuleClasses(path: string)
    ensures StartsWith(path, "/api/stories/generate") ==> FirstMatch(EndpointRules, path) == "story_generation"
    ensures !StartsWith(path, "/api/stories/generate") && StartsWith(path, "/api/stories/") ==>
      FirstMatch(EndpointRules, path) == "get_stories"
    ensures !StartsWith(path, "/api/stories/") ==> FirstMatch(EndpointRules, path) == "general"
  {
    assert EndpointRules[1..][1..] == [];
  }

  /** The collection path without its trailing slash falls under the general rule. */
  lemma {:induction false} BareStoriesPathIsGeneral()
    ensures FirstMatch(EndpointRules, "/api/stories") == "general"
  {
    RuleClasses("/api/stories");
  }

  // ---------------------------------------------------------------- tier

  /** What looking the user up produced. */
  datatype TierLookup = NoUser | UserFound(subscriptionTier: Option<string>) | LookupRaised

  /** The tier used for limiting: "free" for anonymous callers, unknown users and failed lookups. */
  function SubscriptionTier(userId: string, lookup: TierLookup): (tier: string)
    ensures userId == "anonymous" || !lookup.UserFound? ==> tier == "free"
    ensures userId != "anonymous" && lookup.UserFound? && lookup.subscriptionTier.Some? ==>
      tier == lookup.subscriptionTier.value
  {
    if userId != "anonymous" && lookup.UserFound? then lookup.subscriptionTier.GetOr("free") else "free"
  }

  // ---------------------------------------------------------------- window

  /** One store entry. */
  datatype Entry = Entry(count: nat, reset: int)

  /** The entry the check sees: a missing or expired one restarts with count 0. */
  function Current(e: Option<Entry>, now: int, window: nat): (c: Entry)
    ensures e.None? || e.value.reset <= now ==> c == Entry(0, now + window)
    ensures e.Some? && e.value.reset > now ==> c == e.value
  {
    if e.None? || e.value.reset <= now then Entry(0, now + window) else e.value
  }

  /** The middleware's answer. */
  datatype Decision =
    | Bypassed
    | Raised(reason: string)
    | Limited(limit: nat, reset: int, retryAfter: int)
    | Allowed(limit: nat, remaining: int, reset: int)

  const UnknownTier: string := "no rate limit rules for this subscription tier"

  class RateLimitStore {
    var entries: map<string, Entry>

    /** No counter ever passes the largest limit. */
    predicate Valid()
      reads this
    {
      forall k | k in entries :: entries[k].count <= MaxLimit
    }

    constructor()
      ensures Valid() && entries == map[]
    {
      entries := map[];
    }

    /**
     * dispatch: skips the unlimited paths; otherwise restarts a missing or
     * expired window, answers 429 with the seconds until the reset when the
     * counter has reached the limit, and counts the request otherwise. A
     * malformed header or a tier without rules raises. Only the request's
     * own key changes.
     */
    method Dispatch(path: string, authorization: Option<string>, lookup: TierLookup, now: int)
      returns (d: Decision, key: string)
      requires Valid()
      modifies this
      ensures Valid()
      ensures d.Bypassed? <==> path in UnlimitedPaths
      ensures path in UnlimitedPaths ==> entries == old(entries)
      ensures d.Raised? ==> entries == old(entries)
      ensures path !in UnlimitedPaths && UserKey(authorization).Err? ==> d == Raised(UserKey(authorization).error)
      ensures path !in UnlimitedPaths && UserKey(authorization).Ok? ==>
        var tier := SubscriptionTier(UserKey(authorization).value, lookup);
        && (tier !in RateLimitRules ==> d == Raised(UnknownTier))
        && (tier in RateLimitRules ==> d.Limited? || d.Allowed?)
      ensures d.Limited? || d.Allowed? ==>
        && UserKey(authorization).Ok?
        && var user := UserKey(authorization).value;
           var tier := SubscriptionTier(user, lookup);
           var rule := FirstMatch(EndpointRules, path);
           && tier in RateLimitRules
           && rule in RateLimitRules[tier]
           && var allowance := RateLimitRules[tier][rule];
           var c := Current(if key in old(entries) then Some(old(entries)[key]) else None, now, allowance.window);
           && key == user + ":" + rule
           && entries.Keys == old(entries).Keys + {key}
           && (forall k | k in old(entries) && k != key :: entries[k] == old(entries)[k])
           && (d.Limited? <==> c.count >= allowance.limit)
           && (d.Limited? ==> entries[key] == c && d == Limited(allowance.limit, c.reset, c.reset - now))
           && (d.Allowed? ==> entries[key] == Entry(c.count + 1, c.reset) &&
                              d == Allowed(allowance.limit, allowance.limit - (c.count + 1), c.reset))
      ensures d.Limited? ==> d.retryAfter >= 1
      ensures d.Allowed? ==> 0 <= d.remaining && entries[key].count <= d.limit
    {
      key := "";
      if path in UnlimitedPaths {
        return Bypassed, key;
      }
      var user := UserKey(authorization);
      if user.Err? {
        return Raised(user.error), key;
      }
      var ruleKey := SelectRule(path);
      var tier := SubscriptionTier(user.value, lookup);
      if tier !in RateLimitRules {
        return Raised(UnknownTier), key;
      }
      RulesWellFormed(tier, ruleKey);
      var allowance := RateLimitRules[tier][ruleKey];
      key := user.value + ":" + ruleKey;
      d := CountRequest(key, allowance, now);
    }

    /**
     * The counting step of dispatch for one key: restart a missing or
     * expired window, then refuse at the limit or count the request.
     */
    method CountRequest(key: string, allowance: Allowance, now: int) returns (d: Decision)
      requires Valid() && 0 < allowance.limit <= MaxLimit && allowance.window > 0
      modifies this
      ensures Valid()
      ensures var c := Current(if key in old(entries) then Some(old(entries)[key]) else None, now, allowance.window);
        && entries.Keys == old(entries).Keys + {key}
        && (forall k | k in old(entries) && k != key :: entries[k] == old(entries)[k])
        && (d.Limited? || d.Allowed?)
        && (d.Limited? <==> c.count >= allowance.limit)
        && (d.Limited? ==> entries[key] == c && d == Limited(allowance.limit, c.reset, c.reset - now))
        && (d.Allowed? ==> entries[key] == Entry(c.count + 1, c.reset) &&
                           d == Allowed(allowance.limit, allowance.limit - (c.count + 1), c.reset))
      ensures d.Limited? ==> d.retryAfter >= 1
      ensures d.Allowed? ==> 0 <= d.remaining && entries[key].count <= d.limit
    {
      if key !in entries {
        entries := entries[key := Entry(0, now + allowance.window)];
      }
      if entries[key].reset <= now {
        entries := entries[key := Entry(0, now + allowance.window)];
      }
      var e := entries[key];
      if e.count >= allowance.limit {
        d := Limited(allowance.limit, e.reset, e.reset - now);
      } else {
        entries := entries[key := Entry(e.count + 1, e.reset)];
        d := Allowed(allowance.limit, allowance.limit - entries[key].count, e.reset);
      }
    }

    /**
     * One sweep of cleanup_rate_limits: collect the expired keys, then
     * delete them. Exactly the entries whose window has ended go.
     */
    method Cleanup(now: int) returns (removed: nat)
      requires Valid()
      modifies this
      ensures Valid()
      ensures entries == map k | k in old(entries) && old(entries)[k].reset > now :: old(entries)[k]
      ensures removed == |old(entries).Keys| - |entries.Keys|
    {
      var expiredKeys: seq<string> := [];
      var pending := entries.Keys;
      while pending != {}
        invariant pending <= entries.Keys
        invariant forall k :: k in expiredKeys <==> k in entries && k !in pending && entries[k].reset <= now
        invariant forall i, j | 0 <= i < j < |expiredKeys| :: expiredKeys[i] != expiredKeys[j]
        decreases pending
      {
        var k :| k in pending;
        if entries[k].reset <= now {
          expiredKeys := expiredKeys + [k];
        }
        pending := pending - {k};
      }
      ghost var before := entries;
      var i := 0;
      while i < |expiredKeys|
        invariant 0 <= i <= |expiredKeys|
        invariant entries == map k | k in before && k !in expiredKeys[..i] :: before[k]
        decreases |expiredKeys| - i
      {
        entries := entries - {expiredKeys[i]};
        assert expiredKeys[..i + 1] == expiredKeys[..i] + [expiredKeys[i]];
        i := i + 1;
      }
      assert expiredKeys[..i] == expiredKeys;
      removed := |expiredKeys|;
      DistinctCount(expiredKeys, before.Keys, entries.Keys);
    }
  }

  /** Removing a list of distinct keys of a set shrinks it by the list's length. */
  lemma {:induction false} DistinctCount(ks: seq<string>, all: set<string>, rest: set<string>)
    requires forall i, j | 0 <= i < j < |ks| :: ks[i] != ks[j]
    requires forall i | 0 <= i < |ks| :: ks[i] in all
    requires rest == set k | k in all && k !in ks
    ensures |rest| == |all| - |ks|
    decreases |ks|
  {
    if ks != [] {
      var last := ks[|ks| - 1];
      var init := ks[..|ks| - 1];
      var rest' := set k | k in all && k !in init;
      DistinctCount(init, all, rest');
      assert last !in init by {
        forall i | 0 <= i < |init|
          ensures init[i] != last
        {
          assert init[i] == ks[i];
        }
      }
      assert last in rest';
      assert rest == rest' - {last};
    } else {
      assert rest == all;
    }
  }
}
