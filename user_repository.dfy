/**
 * The profile table and its repository (api/db/repositories/user_repository.py):
 * credit checks, tier features, credit updates, sign-in upserts, subscription
 * changes and default preferences. The helpers of the same name in
 * api/db/supabase.py apply the same credit rules to the same table.
 *
 * Tables are sequences of rows in storage order, so "the first row that
 * matches" is what a select returns as `data[0]`; an update by id changes
 * every row with that id. The clock (`now`) and fresh uuids are parameters.
 */
module UserRepository {
  import opened Wrappers

  /** A profiles row. A column the row lacks is None. */
  datatype Profile = Profile(
    id: string,
    oauthId: string,
    email: string,
    name: Option<string>,
    avatarUrl: Option<string>,
    subscriptionTier: Option<string>,
    subscriptionStatus: Option<string>,
    subscriptionExpiry: Option<int>,
    storyCredits: Option<int>,
    voiceCredits: Option<int>,
    createdAt: Option<int>,
    lastLoginAt: Option<int>)
  {
    /** `user.get("story_credits", 0)` */
    function Credits(): int { storyCredits.GetOr(0) }

    /** `user.get("subscription_tier", "free")` */
    function Tier(): string { subscriptionTier.GetOr("free") }
  }

  // ---------------------------------------------------------------- lookups

  /**
   * The first row with this id (get_user_by_id). That the row found is the
   * stored row at the first position holding the id is FirstWithIdIsFirst.
   */
  function FirstWithId(rows: seq<Profile>, id: string): (r: Option<Profile>)
    ensures r.None? <==> forall i | 0 <= i < |rows| :: rows[i].id != id
    ensures r.Some? ==> r.value.id == id
  {
    if rows == [] then None
    else if rows[0].id == id then Some(rows[0])
    else FirstWithId(rows[1..], id)
  }

  /** The row FirstWithId finds is stored at the first position holding the id. */
  lemma {:induction false} FirstWithIdIsFirst(rows: seq<Profile>, id: string)
    ensures FirstWithId(rows, id).Some? ==>
      exists i | 0 <= i < |rows| :: rows[i] == FirstWithId(rows, id).value && forall j | 0 <= j < i :: rows[j].id != id
    decreases |rows|
  {
    if rows != [] && rows[0].id != id && FirstWithId(rows, id).Some? {
      FirstWithIdIsFirst(rows[1..], id);
      var i :| 0 <= i < |rows[1..]| && rows[1..][i] == FirstWithId(rows[1..], id).value
        && forall j | 0 <= j < i :: rows[1..][j].id != id;
      assert rows[i + 1] == FirstWithId(rows, id).value;
      assert forall j | 0 <= j < i + 1 :: rows[j].id != id by {
        forall j | 0 <= j < i + 1 ensures rows[j].id != id {
          if j > 0 { assert rows[j] == rows[1..][j - 1]; }
        }
      }
    }
  }

  /** The first row with this OAuth id (get_user_by_oauth_id). */
  function FirstWithOauthId(rows: seq<Profile>, oauthId: string): (r: Option<Profile>)
    ensures r.None? <==> forall i | 0 <= i < |rows| :: rows[i].oauthId != oauthId
    ensures r.Some? ==> r.value.oauthId == oauthId
    ensures r.Some? ==> exists i | 0 <= i < |rows| ::
      rows[i] == r.value && forall j | 0 <= j < i :: rows[j].oauthId != oauthId
  {
    if rows == [] then None
    else if rows[0].oauthId == oauthId then Some(rows[0])
    else FirstWithOauthId(rows[1..], oauthId)
  }

  /** `update(...).eq("id", id)`: every row with the id rewritten by `f`, the rest untouched. */
  function UpdateWhere(rows: seq<Profile>, id: string, f: Profile -> Profile): (r: seq<Profile>)
    ensures |r| == |rows|
    ensures forall i | 0 <= i < |rows| :: r[i] == (if rows[i].id == id then f(rows[i]) else rows[i])
  {
    seq(|rows|, i requires 0 <= i < |rows| => if rows[i].id == id then f(rows[i]) else rows[i])
  }

  /**
   * After an update that keeps ids, looking the id up finds the updated
   * first row, and looking up any other id finds what it found before.
   */
  lemma {:induction false} LookupAfterUpdate(rows: seq<Profile>, id: string, f: Profile -> Profile, other: string)
    requires forall p :: f(p).id == p.id
    ensures FirstWithId(UpdateWhere(rows, id, f), id) ==
      (if FirstWithId(rows, id).Some? then Some(f(FirstWithId(rows, id).value)) else None)
    ensures other != id ==> FirstWithId(UpdateWhere(rows, id, f), other) == FirstWithId(rows, other)
    decreases |rows|
  {
    if rows != [] {
      var u := UpdateWhere(rows, id, f);
      assert u[1..] == UpdateWhere(rows[1..], id, f);
      LookupAfterUpdate(rows[1..], id, f, other);
    }
  }

  // ---------------------------------------------------------------- credits and features

  /** The dict check_user_credits returns. */
  datatype CreditCheck = NoCredits(reason: string) | HasCredits(storyCredits: int, subscriptionTier: string)

  const UserNotFound: string := "User not found"
  const InsufficientCredits: string := "Insufficient story credits"

  /** check_user_credits, on the profile the lookup found. */
  function CheckUserCredits(user: Option<Profile>): (c: CreditCheck)
    ensures c.HasCredits? <==> user.Some? && user.value.Credits() > 0
    ensures user.None? ==> c == NoCredits(UserNotFound)
    ensures user.Some? && user.value.Credits() <= 0 ==> c == NoCredits(InsufficientCredits)
    ensures c.HasCredits? ==> c.storyCredits == user.value.Credits() && c.subscriptionTier == user.value.Tier()
  {
    if user.None? then NoCredits(UserNotFound)
    else if user.value.Credits() <= 0 then NoCredits(InsufficientCredits)
    else HasCredits(user.value.Credits(), user.value.Tier())
  }

  /** The features dict of check_subscription_features. */
  datatype Features = Features(
    longStories: bool,
    backgroundMusic: bool,
    customVoices: bool,
    educationalThemes: bool,
    storySharing: bool,
    unlimitedStorage: bool,
    maxImages: nat)

  predicate Paid(tier: string) { tier in ["premium", "family"] }

  /** The feature table: paid tiers get the premium features, only "family" shares. */
  function FeaturesFor(tier: string): (f: Features)
    ensures f.longStories == f.backgroundMusic == f.customVoices == f.educationalThemes == f.unlimitedStorage == Paid(tier)
    ensures f.storySharing <==> tier == "family"
    ensures f.maxImages == (if Paid(tier) then 5 else 3)
  {
    var paid := Paid(tier);
    Features(paid, paid, paid, paid, tier in ["family"], paid, if paid then 5 else 3)
  }

  /** Every feature of a lower tier is a feature of a higher one: other tiers <= premium <= family. */
  predicate Includes(higher: Features, lower: Features) {
    && (lower.longStories ==> higher.longStories)
    && (lower.backgroundMusic ==> higher.backgroundMusic)
    && (lower.customVoices ==> higher.customVoices)
    && (lower.educationalThemes ==> higher.educationalThemes)
    && (lower.storySharing ==> higher.storySharing)
    && (lower.unlimitedStorage ==> higher.unlimitedStorage)
    && lower.maxImages <= higher.maxImages
  }

  lemma {:induction false} TiersAreOrdered(tier: string)
    ensures Includes(FeaturesFor("premium"), FeaturesFor(tier))  || tier == "family"
    ensures Includes(FeaturesFor("family"), FeaturesFor(tier))
    ensures Includes(FeaturesFor(tier), FeaturesFor("free"))
    ensures FeaturesFor(tier) == FeaturesFor("free") || Paid(tier)
  {
  }

  datatype FeatureCheck = FeaturesFailed(reason: string) | FeaturesOf(subscriptionTier: string, features: Features)

  /** check_subscription_features, on the profile the lookup found. */
  function CheckSubscriptionFeatures(user: Option<Profile>): (c: FeatureCheck)
    ensures user.None? <==> c == FeaturesFailed(UserNotFound)
    ensures user.Some? ==> c == FeaturesOf(user.value.Tier(), FeaturesFor(user.value.Tier()))
  {
    if user.None? then FeaturesFailed(UserNotFound)
    else FeaturesOf(user.value.Tier(), FeaturesFor(user.value.Tier()))
  }

  /** A profile without a tier column is treated exactly like a free one. */
  lemma {:induction false} MissingTierIsFree(p: Profile)
    requires p.subscriptionTier.None?
    ensures CheckSubscriptionFeatures(Some(p)) == CheckSubscriptionFeatures(Some(p.(subscriptionTier := Some("free"))))
    ensures CheckSubscriptionFeatures(Some(p)).features.maxImages == 3
  {
  }

  // ---------------------------------------------------------------- preferences

  datatype Preferences = Preferences(
    userId: string, defaultLanguage: string, defaultTheme: string, themeMode: string,
    emailNotifications: bool, autoPlay: bool)

  /** The preferences written for a user who has none. */
  function DefaultPreferences(userId: string): Preferences {
    Preferences(userId, "en", "adventure", "dark", true, false)
  }

  function FirstPreferences(prefs: seq<Preferences>, userId: string): (r: Option<Preferences>)
    ensures r.None? <==> forall i | 0 <= i < |prefs| :: prefs[i].userId != userId
    ensures r.Some? ==> r.value.userId == userId
    ensures r.Some? ==> exists i | 0 <= i < |prefs| ::
      prefs[i] == r.value && forall j | 0 <= j < i :: prefs[j].userId != userId
  {
    if prefs == [] then None
    else if prefs[0].userId == userId then Some(prefs[0])
    else FirstPreferences(prefs[1..], userId)
  }

  lemma {:induction false} FirstPreferencesAppend(prefs: seq<Preferences>, p: Preferences, userId: string)
    requires FirstPreferences(prefs, userId).None? && p.userId == userId
    ensures FirstPreferences(prefs + [p], userId) == Some(p)
    decreases |prefs|
  {
    if prefs != [] {
      assert (prefs + [p])[1..] == prefs[1..] + [p];
      FirstPreferencesAppend(prefs[1..], p, userId);
    }
  }

  /** A subscription_events row. */
  datatype SubscriptionEvent = SubscriptionEvent(
    id: string, userId: string, eventType: string, newTier: string, effectiveDate: int)

  /** Stored credit counts are never negative. */
  predicate CreditsNonNegative(rows: seq<Profile>) {
    forall i | 0 <= i < |rows| :: rows[i].Credits() >= 0
  }

  /** The update that sets a profile's story credits. */
  function WithCredits(c: int): Profile -> Profile {
    (p: Profile) => p.(storyCredits := Some(c))
  }

  /** On a table whose counts are non-negative, the lookup finds a non-negative count. */
  lemma {:induction false} FoundCreditsNonNegative(rows: seq<Profile>, id: string)
    ensures CreditsNonNegative(rows) && FirstWithId(rows, id).Some? ==> FirstWithId(rows, id).value.Credits() >= 0
    decreases |rows|
  {
    if rows != [] && rows[0].id != id {
      FoundCreditsNonNegative(rows[1..], id);
      if CreditsNonNegative(rows) {
        assert forall i | 0 <= i < |rows[1..]| :: rows[1..][i] == rows[i + 1];
      }
    }
  }

  /**
   * Setting the credits of a known user: the lookup then finds the first
   * row with the new count, and a non-negative count keeps every stored
   * count non-negative.
   */
  lemma {:induction false} WithCreditsEffect(rows: seq<Profile>, id: string, c: int)
    requires FirstWithId(rows, id).Some?
    ensures FirstWithId(UpdateWhere(rows, id, WithCredits(c)), id).Some?
    ensures FirstWithId(UpdateWhere(rows, id, WithCredits(c)), id).value.Credits() == c
    ensures c >= 0 && CreditsNonNegative(rows) ==> CreditsNonNegative(UpdateWhere(rows, id, WithCredits(c)))
  {
    LookupAfterUpdate(rows, id, WithCredits(c), id);
    var u := UpdateWhere(rows, id, WithCredits(c));
    if c >= 0 && CreditsNonNegative(rows) {
      forall i | 0 <= i < |u|
        ensures u[i].Credits() >= 0
      {
        if rows[i].id == id {
          assert u[i] == rows[i].(storyCredits := Some(c));
        } else {
          assert u[i] == rows[i];
        }
      }
    }
  }

  // ---------------------------------------------------------------- tables

  /** The profiles, user_preferences and subscription_events tables. */
  class ProfileTables {
    var profiles: seq<Profile>
    var preferences: seq<Preferences>
    var events: seq<SubscriptionEvent>

    constructor()
      ensures profiles == [] && preferences == [] && events == []
    {
      profiles, preferences, events := [], [], [];
    }

    function GetUserById(userId: string): (r: Option<Profile>)
      reads this
      ensures r == FirstWithId(profiles, userId)
    {
      FirstWithId(profiles, userId)
    }

    /**
     * decrement_story_credits: refused (False, nothing written) exactly when
     * check_user_credits would refuse; otherwise the user's rows are set to
     * one credit fewer.
     */
    method DecrementStoryCredits(userId: string) returns (ok: bool)
      modifies this
      ensures ok <==> CheckUserCredits(old(GetUserById(userId))).HasCredits?
      ensures !ok ==> profiles == old(profiles)
      ensures ok ==> var c := old(GetUserById(userId)).value.Credits() - 1;
        profiles == UpdateWhere(old(profiles), userId, WithCredits(c)) &&
        GetUserById(userId).Some? && GetUserById(userId).value.Credits() == c
      ensures CreditsNonNegative(old(profiles)) ==> CreditsNonNegative(profiles)
      ensures preferences == old(preferences) && events == old(events)
    {
      var user := GetUserById(userId);
      if user.None? || user.value.Credits() <= 0 {
        return false;
      }
      var credits := user.value.Credits() - 1;
      WithCreditsEffect(profiles, userId, credits);
      profiles := UpdateWhere(profiles, userId, WithCredits(credits));
      ok := true;
    }

    /**
     * add_story_credits: refused for an unknown user; otherwise the user's
     * rows hold the first row's credits plus `credits` (which may be negative).
     */
    method AddStoryCredits(userId: string, credits: int) returns (ok: bool)
      modifies this
      ensures ok <==> old(GetUserById(userId)).Some?
      ensures !ok ==> profiles == old(profiles)
      ensures ok ==> var c := old(GetUserById(userId)).value.Credits() + credits;
        profiles == UpdateWhere(old(profiles), userId, WithCredits(c)) &&
        GetUserById(userId).Some? && GetUserById(userId).value.Credits() == c
      ensures CreditsNonNegative(old(profiles)) && credits >= 0 ==> CreditsNonNegative(profiles)
      ensures preferences == old(preferences) && events == old(events)
    {
      var user := GetUserById(userId);
      if user.None? {
        return false;
      }
      var total := user.value.Credits() + credits;
      FoundCreditsNonNegative(profiles, userId);
      WithCreditsEffect(profiles, userId, total);
      profiles := UpdateWhere(profiles, userId, WithCredits(total));
      ok := true;
    }

    /**
     * create_or_update_user: a known OAuth id gets its email, name, avatar
     * and login time rewritten; an unknown one gets a new row with the fresh
     * id, the free tier, an active subscription, five story credits and no
     * voice credits.
     */
    method CreateOrUpdateUser(oauthId: string, email: string, name: Option<string>, avatarUrl: Option<string>,
                              freshId: string, now: int)
      returns (user: Option<Profile>)
      modifies this
      ensures var existing := FirstWithOauthId(old(profiles), oauthId);
        && (existing.Some? ==>
              var f := (p: Profile) => p.(email := email, name := name, avatarUrl := avatarUrl, lastLoginAt := Some(now));
              profiles == UpdateWhere(old(profiles), existing.value.id, f) &&
              user == FirstWithId(profiles, existing.value.id) &&
              user == Some(f(FirstWithId(old(profiles), existing.value.id).value)))
        && (existing.None? ==>
              user == Some(Profile(freshId, oauthId, email, name, avatarUrl, Some("free"), Some("active"), None,
                                   Some(5), Some(0), Some(now), Some(now))) &&
              profiles == old(profiles) + [user.value])
      ensures user.Some? ==> user.value.email == email && user.value.name == name && user.value.avatarUrl == avatarUrl
      ensures preferences == old(preferences) && events == old(events)
    {
      var existing := FirstWithOauthId(profiles, oauthId);
      if existing.Some? {
        var f := (p: Profile) => p.(email := email, name := name, avatarUrl := avatarUrl, lastLoginAt := Some(now));
        var id := existing.value.id;
        assert FirstWithId(profiles, id).Some?;
        LookupAfterUpdate(profiles, id, f, id);
        profiles := UpdateWhere(profiles, id, f);
        user := FirstWithId(profiles, id);
      } else {
        var created := Profile(freshId, oauthId, email, name, avatarUrl, Some("free"), Some("active"), None,
                             Some(5), Some(0), Some(now), Some(now));
        profiles := profiles + [created];
        user := Some(created);
      }
    }

    /**
     * update_subscription: rewrites tier and status of the user's rows (the
     * expiry is `now` exactly when the status is "cancelled"), records a
     * "changed" event, and reports success even when no row has the id.
     */
    method UpdateSubscription(userId: string, tier: string, status: string, eventId: string, now: int)
      returns (ok: bool)
      modifies this
      ensures ok
      ensures profiles == UpdateWhere(old(profiles), userId,
        (p: Profile) => p.(subscriptionTier := Some(tier), subscriptionStatus := Some(status),
                subscriptionExpiry := if status == "cancelled" then Some(now) else None))
      ensures events == old(events) + [SubscriptionEvent(eventId, userId, "changed", tier, now)]
      ensures GetUserById(userId).Some? ==>
        GetUserById(userId).value.Tier() == tier &&
        (GetUserById(userId).value.subscriptionExpiry.Some? <==> status == "cancelled")
      ensures preferences == old(preferences)
    {
      var expiry := if status == "cancelled" then Some(now) else None;
      var f := (p: Profile) => p.(subscriptionTier := Some(tier), subscriptionStatus := Some(status),
                                  subscriptionExpiry := expiry);
      LookupAfterUpdate(profiles, userId, f, userId);
      profiles := UpdateWhere(profiles, userId, f);
      events := events + [SubscriptionEvent(eventId, userId, "changed", tier, now)];
      ok := true;
    }

    /**
     * get_user_preferences: the user's first stored preferences, or the
     * defaults, which are then stored so the next call finds them.
     */
    method GetUserPreferences(userId: string) returns (prefs: Preferences)
      modifies this
      ensures prefs.userId == userId || FirstPreferences(old(preferences), userId).Some?
      ensures FirstPreferences(old(preferences), userId).Some? ==>
        prefs == FirstPreferences(old(preferences), userId).value && preferences == old(preferences)
      ensures FirstPreferences(old(preferences), userId).None? ==>
        prefs == DefaultPreferences(userId) && preferences == old(preferences) + [prefs]
      ensures FirstPreferences(preferences, userId) == Some(prefs)
      ensures profiles == old(profiles) && events == old(events)
    {
      var found := FirstPreferences(preferences, userId);
      if found.Some? {
        return found.value;
      }
      prefs := DefaultPreferences(userId);
      FirstPreferencesAppend(preferences, prefs, userId);
      preferences := preferences + [prefs];
    }
  }
}
