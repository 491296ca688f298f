/** cache/ProfileCacheManager.java: one user profile kept in
    SharedPreferences as JSON with the time it was stored, valid for five
    minutes.

    Gson is a pair of functions given to the cache: `toJson`, and `fromJson`,
    which yields a profile, a JSON null, or a parse failure. The clock is
    `now`. */
module ProfileCache {
  import opened Common
  import opened Models
  import opened SharedPrefs

  const KEY_USER_PROFILE := "user_profile"
  const KEY_CACHE_TIMESTAMP := "cache_timestamp"
  /** 5 minutes in milliseconds. */
  const CACHE_EXPIRY_TIME: Long := 5 * 60 * 1000

  /** What `gson.fromJson` makes of a string. */
  datatype Decoded = Parsed(profile: UserProfile) | JsonNull | Malformed

  /** Serialisation round-trips. */
  ghost predicate RoundTrips(toJson: UserProfile -> string, fromJson: string -> Decoded)
  {
    forall p :: fromJson(toJson(p)) == Parsed(p)
  }

  /** `currentTime - cacheTime > CACHE_EXPIRY_TIME`, in Java `long`. */
  predicate Expired(prefs: Prefs, now: Long)
  {
    LongSub(now, GetLong(prefs, KEY_CACHE_TIMESTAMP, 0)) > CACHE_EXPIRY_TIME
  }

  /** `clearCache` on a preferences map: exactly the two cache keys go. */
  function ClearKeys(prefs: Prefs): (r: Prefs)
    ensures KEY_USER_PROFILE !in r && KEY_CACHE_TIMESTAMP !in r
    ensures forall k :: k != KEY_USER_PROFILE && k != KEY_CACHE_TIMESTAMP ==>
      (k in r <==> k in prefs) && (k in r ==> r[k] == prefs[k])
  {
    prefs - {KEY_USER_PROFILE, KEY_CACHE_TIMESTAMP}
  }

  /** What `getCachedUserProfile` returns for a store and a time. */
  function CachedProfile(prefs: Prefs, now: Long, fromJson: string -> Decoded): (r: Option<UserProfile>)
    ensures Expired(prefs, now) ==> r.None?
    ensures GetString(prefs, KEY_USER_PROFILE, None).None? ==> r.None?
    ensures r.Some? ==> fromJson(GetString(prefs, KEY_USER_PROFILE, None).value) == Parsed(r.value)
  {
    if Expired(prefs, now) then None
    else
      var json := GetString(prefs, KEY_USER_PROFILE, None);
      if json.None? then None
      else match fromJson(json.value)
        case Parsed(p) => Some(p)
        case _ => None
  }

  /** `hasCachedProfile`: an entry is present and at most five minutes old. */
  predicate HasCached(prefs: Prefs, now: Long)
  {
    KEY_USER_PROFILE in prefs && !Expired(prefs, now)
  }

  /** `hasCachedProfile` uses the boundary `getCachedUserProfile` uses: a
      profile is returned only when it reports one. */
  lemma ReturnedOnlyWhenPresent(prefs: Prefs, now: Long, fromJson: string -> Decoded)
    ensures CachedProfile(prefs, now, fromJson).Some? ==> HasCached(prefs, now)
  {
  }

  class ProfileCacheManager {
    var prefs: Prefs
    const toJson: UserProfile -> string
    const fromJson: string -> Decoded

    constructor (prefs: Prefs, toJson: UserProfile -> string, fromJson: string -> Decoded)
      ensures this.prefs == prefs && this.toJson == toJson && this.fromJson == fromJson
    {
      this.prefs := prefs;
      this.toJson := toJson;
      this.fromJson := fromJson;
    }

    /** `cacheUserProfile`: null is ignored; otherwise the JSON and the time
        are stored, and nothing else changes. */
    method CacheUserProfile(profile: Option<UserProfile>, now: Long)
      modifies this
      ensures profile.None? ==> prefs == old(prefs)
      ensures profile.Some? ==>
        prefs == old(prefs)[KEY_USER_PROFILE := StringPref(toJson(profile.value))][KEY_CACHE_TIMESTAMP := LongPref(now)]
    {
      if profile.None? {
        return;
      }
      prefs := prefs[KEY_USER_PROFILE := StringPref(toJson(profile.value))][KEY_CACHE_TIMESTAMP := LongPref(now)];
    }

    /** `getCachedUserProfile`. An expired cache is cleared; a missing entry
        gives null; an entry that does not parse is cleared. */
    method GetCachedUserProfile(now: Long) returns (r: Option<UserProfile>)
      modifies this
      ensures r == CachedProfile(old(prefs), now, fromJson)
      ensures Expired(old(prefs), now) ==> prefs == ClearKeys(old(prefs))
      ensures !Expired(old(prefs), now) && GetString(old(prefs), KEY_USER_PROFILE, None).None? ==>
        prefs == old(prefs)
      ensures !Expired(old(prefs), now) && GetString(old(prefs), KEY_USER_PROFILE, None).Some? ==>
        prefs == (if fromJson(GetString(old(prefs), KEY_USER_PROFILE, None).value).Malformed?
                  then ClearKeys(old(prefs)) else old(prefs))
    {
      var cacheTime := GetLong(prefs, KEY_CACHE_TIMESTAMP, 0);
      if LongSub(now, cacheTime) > CACHE_EXPIRY_TIME {
        ClearCache();
        return None;
      }
      var profileJson := GetString(prefs, KEY_USER_PROFILE, None);
      if profileJson.None? {
        return None;
      }
      match fromJson(profileJson.value)
      case Parsed(p) =>
        r := Some(p);
      case JsonNull =>
        r := None;
      case Malformed =>
        ClearCache();
        r := None;
    }

    method ClearCache()
      modifies this
      ensures prefs == ClearKeys(old(prefs))
    {
      prefs := prefs - {KEY_USER_PROFILE, KEY_CACHE_TIMESTAMP};
    }

    /** `hasCachedProfile`. */
    method HasCachedProfile(now: Long) returns (r: bool)
      ensures r == HasCached(prefs, now)
    {
      r := KEY_USER_PROFILE in prefs && LongSub(now, GetLong(prefs, KEY_CACHE_TIMESTAMP, 0)) <= CACHE_EXPIRY_TIME;
    }
  }

  /** With a round-tripping codec, a profile cached at `saved` is read back
      unchanged up to five minutes later. */
  lemma CacheRoundTrip(prefs: Prefs, profile: UserProfile, saved: Long, now: Long,
                       toJson: UserProfile -> string, fromJson: string -> Decoded)
    requires RoundTrips(toJson, fromJson)
    requires saved <= now <= saved + CACHE_EXPIRY_TIME
    ensures CachedProfile(prefs[KEY_USER_PROFILE := StringPref(toJson(profile))][KEY_CACHE_TIMESTAMP := LongPref(saved)],
                          now, fromJson) == Some(profile)
  {
    var p := prefs[KEY_USER_PROFILE := StringPref(toJson(profile))][KEY_CACHE_TIMESTAMP := LongPref(saved)];
    assert GetLong(p, KEY_CACHE_TIMESTAMP, 0) == saved;
    assert GetString(p, KEY_USER_PROFILE, None) == Some(toJson(profile));
  }

  /** After more than five minutes (without a wrap-around) the cached
      profile is gone. */
  lemma CacheExpires(prefs: Prefs, profile: UserProfile, saved: Long, now: Long,
                     toJson: UserProfile -> string, fromJson: string -> Decoded)
    requires 0 <= saved && saved + CACHE_EXPIRY_TIME < now
    ensures CachedProfile(prefs[KEY_USER_PROFILE := StringPref(toJson(profile))][KEY_CACHE_TIMESTAMP := LongPref(saved)],
                          now, fromJson).None?
  {
    var p := prefs[KEY_USER_PROFILE := StringPref(toJson(profile))][KEY_CACHE_TIMESTAMP := LongPref(saved)];
    assert GetLong(p, KEY_CACHE_TIMESTAMP, 0) == saved;
  }
}
