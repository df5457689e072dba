/**
  The process-local store that maps a scoped content key to the name of a
  cached-content object held by the remote service, with TTL-based expiry.

  Clock readings are the explicit parameter `now` (seconds, exact reals), and
  the MD5 hex digest used to shorten scoped keys is the function `md5Hex`
  given to the manager when it is created.
*/
module LocalCache {
  import opened Wrappers

  /** Seconds cut from every TTL on write, so that the local view expires before the remote one. */
  const SafetyBufferSeconds: real := 5.0

  /** Provider name for Google AI Studio, whose keys carry no project scope. */
  const GeminiProvider: string := "gemini"

  datatype CacheEntry = CacheEntry(cacheId: string, createdAt: real, ttlSeconds: real, expireTime: real)

  /** A fresh entry created at time `now`: it lives for `ttlSeconds`, so it is live at once exactly when that is positive. */
  function NewEntry(cacheId: string, ttlSeconds: real, now: real): (entry: CacheEntry)
    ensures entry.cacheId == cacheId && entry.createdAt == now && entry.ttlSeconds == ttlSeconds
    ensures entry.expireTime - entry.createdAt == ttlSeconds
    ensures IsExpired(entry, now) <==> ttlSeconds <= 0.0
  {
    CacheEntry(cacheId, now, ttlSeconds, now + ttlSeconds)
  }

  predicate IsExpired(entry: CacheEntry, now: real)
  {
    now >= entry.expireTime
  }

  /**
    Expiry is permanent: an entry expired at `t` is expired at every later
    time, and one live later was live at `t`. A fresh entry is expired once
    its TTL has elapsed since its creation.
  */
  lemma ExpiryIsPermanent(entry: CacheEntry, t: real, later: real)
    requires t <= later
    ensures IsExpired(entry, t) ==> IsExpired(entry, later)
    ensures !IsExpired(entry, later) ==> !IsExpired(entry, t)
    ensures entry == NewEntry(entry.cacheId, entry.ttlSeconds, entry.createdAt) ==>
      (IsExpired(entry, t) <==> t - entry.createdAt >= entry.ttlSeconds)
  {
  }

  /** Seconds left before the entry expires; zero or negative once it has. */
  function TimeUntilExpiry(entry: CacheEntry, now: real): (seconds: real)
    ensures seconds <= 0.0 <==> IsExpired(entry, now)
    ensures now + seconds == entry.expireTime
  {
    entry.expireTime - now
  }

  /** The TTL actually stored by a write: the safety buffer is taken off when it fits. */
  function AdjustedTtl(ttlSeconds: real): (adjusted: real)
    ensures ttlSeconds > SafetyBufferSeconds ==> ttlSeconds - adjusted == SafetyBufferSeconds
    ensures adjusted <= ttlSeconds
    ensures adjusted >= ttlSeconds - SafetyBufferSeconds
    ensures ttlSeconds > 0.0 ==> adjusted > 0.0
    ensures adjusted == ttlSeconds <==> ttlSeconds <= SafetyBufferSeconds
  {
    if ttlSeconds > SafetyBufferSeconds then ttlSeconds - SafetyBufferSeconds else ttlSeconds
  }

  /** Python's `h[:16]`: the first 16 characters, or all of a shorter string. */
  function Take16(h: string): (r: string)
    ensures |r| == if |h| < 16 then |h| else 16
    ensures r == h[..|r|]
  {
    if |h| <= 16 then h else h[..16]
  }

  predicate ColonFree(s: string)
  {
    forall i :: 0 <= i < |s| ==> s[i] != ':'
  }

  /**
    The key under which an entry is stored: the bare content key for the
    gemini provider or when project or location is missing or empty, and
    otherwise the content key, project, location and a 16-character digest of
    the first three, joined by colons.
  */
  function ScopedKey(md5Hex: string -> string, cacheKey: string, project: Option<string>,
                     location: Option<string>, provider: Option<string>): (key: string)
    ensures key != cacheKey <==> provider != Some(GeminiProvider) && NonEmpty(project) && NonEmpty(location)
    ensures key != cacheKey ==>
      var scope := cacheKey + ":" + project.value + ":" + location.value;
      key == scope + ":" + Take16(md5Hex(scope))
  {
    if provider == Some(GeminiProvider) then
      cacheKey
    else if NonEmpty(project) && NonEmpty(location) then
      var scopeString := cacheKey + ":" + project.value + ":" + location.value;
      scopeString + ":" + Take16(md5Hex(scopeString))
    else
      cacheKey
  }

  /** What a read answers from the map `m` for the scoped key `k` at time `now`. */
  function Lookup(m: map<string, CacheEntry>, k: string, now: real): Option<string>
  {
    if k in m && !IsExpired(m[k], now) then Some(m[k].cacheId) else None
  }

  /** The map a read leaves behind: an expired entry at `k` is dropped. */
  function AfterLookup(m: map<string, CacheEntry>, k: string, now: real): map<string, CacheEntry>
  {
    if k in m && IsExpired(m[k], now) then m - {k} else m
  }

  function ExpiredKeys(m: map<string, CacheEntry>, now: real): set<string>
  {
    set k | k in m && IsExpired(m[k], now)
  }

  function Unexpired(m: map<string, CacheEntry>, now: real): map<string, CacheEntry>
  {
    map k | k in m && !IsExpired(m[k], now) :: m[k]
  }

  datatype Stats = Stats(totalEntries: nat, validEntries: nat, expiredEntries: nat, cacheKeys: set<string>)

  class LocalCacheManager {
    var cache: map<string, CacheEntry>
    const md5Hex: string -> string

    constructor (md5Hex: string -> string)
      ensures cache == map[] && this.md5Hex == md5Hex
    {
      cache := map[];
      this.md5Hex := md5Hex;
    }

    method SetCache(cacheKey: string, cacheId: string, ttlSeconds: real, project: Option<string>,
                    location: Option<string>, provider: Option<string>, now: real)
      modifies this
      ensures cache == old(cache)[ScopedKey(md5Hex, cacheKey, project, location, provider) :=
                                  NewEntry(cacheId, AdjustedTtl(ttlSeconds), now)]
    {
      var scopedKey := ScopedKey(md5Hex, cacheKey, project, location, provider);
      cache := cache[scopedKey := NewEntry(cacheId, AdjustedTtl(ttlSeconds), now)];
    }

    method GetCache(cacheKey: string, project: Option<string>, location: Option<string>,
                    provider: Option<string>, now: real) returns (cacheId: Option<string>)
      modifies this
      ensures var k := ScopedKey(md5Hex, cacheKey, project, location, provider);
        cacheId == Lookup(old(cache), k, now) && cache == AfterLookup(old(cache), k, now)
    {
      var scopedKey := ScopedKey(md5Hex, cacheKey, project, location, provider);
      if scopedKey !in cache {
        return None;
      }
      var entry := cache[scopedKey];
      if IsExpired(entry, now) {
        cache := cache - {scopedKey};
        return None;
      }
      return Some(entry.cacheId);
    }

    method HasValidCache(cacheKey: string, project: Option<string>, location: Option<string>,
                         provider: Option<string>, now: real) returns (valid: bool)
      modifies this
      ensures var k := ScopedKey(md5Hex, cacheKey, project, location, provider);
        (valid <==> Lookup(old(cache), k, now).Some?) && cache == AfterLookup(old(cache), k, now)
    {
      var cacheId := GetCache(cacheKey, project, location, provider, now);
      valid := cacheId.Some?;
    }

    method InvalidateCache(cacheKey: string, project: Option<string>, location: Option<string>,
                           provider: Option<string>)
      modifies this
      ensures cache == old(cache) - {ScopedKey(md5Hex, cacheKey, project, location, provider)}
    {
      var scopedKey := ScopedKey(md5Hex, cacheKey, project, location, provider);
      if scopedKey in cache {
        cache := cache - {scopedKey};
      }
    }

    method ClearAll()
      modifies this
      ensures cache == map[]
    {
      cache := map[];
    }

    method CleanupExpired(now: real) returns (removed: nat)
      modifies this
      ensures removed == |ExpiredKeys(old(cache), now)|
      ensures cache == Unexpired(old(cache), now)
      ensures forall k :: k in cache ==> !IsExpired(cache[k], now)
      ensures forall k :: k in old(cache) && !IsExpired(old(cache)[k], now) ==> k in cache && cache[k] == old(cache)[k]
    {
      var expiredKeys := set k | k in cache && IsExpired(cache[k], now);
      var pending := expiredKeys;
      while pending != {}
        invariant pending <= expiredKeys
        invariant cache == old(cache) - (expiredKeys - pending)
        decreases pending
      {
        var k :| k in pending;
        cache := cache - {k};
        pending := pending - {k};
      }
      assert cache == Unexpired(old(cache), now);
      removed := |expiredKeys|;
    }

    method GetStats(now: real) returns (stats: Stats)
      ensures stats.totalEntries == |cache|
      ensures stats.expiredEntries == |ExpiredKeys(cache, now)|
      ensures stats.validEntries == |Unexpired(cache, now)|
      ensures stats.validEntries + stats.expiredEntries == stats.totalEntries
      ensures stats.cacheKeys == cache.Keys
    {
      var total := |cache|;
      var expired := 0;
      var pending := cache.Keys;
      while pending != {}
        invariant pending <= cache.Keys
        invariant expired == |ExpiredKeys(cache, now) - pending|
        decreases pending
      {
        var k :| k in pending;
        if IsExpired(cache[k], now) {
          assert ExpiredKeys(cache, now) - (pending - {k}) == (ExpiredKeys(cache, now) - pending) + {k};
          expired := expired + 1;
        } else {
          assert ExpiredKeys(cache, now) - (pending - {k}) == ExpiredKeys(cache, now) - pending;
        }
        pending := pending - {k};
      }
      assert ExpiredKeys(cache, now) - pending == ExpiredKeys(cache, now);
      ExpiredAndUnexpiredPartition(cache, now);
      stats := Stats(total, total - expired, expired, cache.Keys);
    }
  }

  /** Every entry is either expired or kept by Unexpired, so the two counts add up to the map's size. */
  lemma ExpiredAndUnexpiredPartition(m: map<string, CacheEntry>, now: real)
    ensures |ExpiredKeys(m, now)| + |Unexpired(m, now)| == |m|
  {
    var expired := ExpiredKeys(m, now);
    var kept := Unexpired(m, now).Keys;
    assert kept == m.Keys - expired;
    assert expired <= m.Keys;
    assert |m.Keys - expired| == |m.Keys| - |expired| by {
      assert m.Keys == (m.Keys - expired) + expired;
    }
    assert |Unexpired(m, now)| == |kept|;
    assert |m| == |m.Keys|;
  }

  /** A write followed by a read of the same scoped key before expiry answers the written id. */
  lemma SetThenGet(m: map<string, CacheEntry>, k: string, cacheId: string, ttlSeconds: real, createdAt: real, now: real)
    requires now < createdAt + AdjustedTtl(ttlSeconds)
    ensures Lookup(m[k := NewEntry(cacheId, AdjustedTtl(ttlSeconds), createdAt)], k, now) == Some(cacheId)
  {
  }

  /** A second write to the same scoped key replaces the first entry entirely. */
  lemma LastWriteWins(m: map<string, CacheEntry>, k: string, first: CacheEntry, second: CacheEntry, now: real)
    ensures m[k := first][k := second] == m[k := second]
    ensures Lookup(m[k := first][k := second], k, now) == Lookup(m[k := second], k, now)
  {
  }

  /** A write to one scoped key changes neither what a read of another key answers nor what it leaves behind. */
  lemma WriteElsewhere(m: map<string, CacheEntry>, k: string, other: string, e: CacheEntry, now: real)
    requires k != other
    ensures Lookup(m[k := e], other, now) == Lookup(m, other, now)
  {
  }

  /** A read deletes at most its own key and leaves every other entry as it was. */
  lemma ReadTouchesOnlyItsKey(m: map<string, CacheEntry>, k: string, now: real)
    ensures forall j :: j != k ==> (j in AfterLookup(m, k, now) <==> j in m)
    ensures forall j :: j != k && j in m ==> AfterLookup(m, k, now)[j] == m[j]
    ensures k !in m ==> AfterLookup(m, k, now) == m
    ensures k in m && IsExpired(m[k], now) ==> k !in AfterLookup(m, k, now)
  {
  }

  /** A TTL of 3 seconds (below the buffer, so kept whole) is still valid after 2 seconds and expired after 4. */
  lemma ShortTtlTimeline(m: map<string, CacheEntry>, k: string, cacheId: string, t: real)
    ensures Lookup(m[k := NewEntry(cacheId, AdjustedTtl(3.0), t)], k, t + 2.0) == Some(cacheId)
    ensures Lookup(m[k := NewEntry(cacheId, AdjustedTtl(3.0), t)], k, t + 4.0) == None
  {
  }

  /** A TTL of 10 seconds is tracked locally for 5: the entry is gone at `t + 5`, before the remote one. */
  lemma BufferedTtlTimeline(cacheId: string, t: real)
    ensures !IsExpired(NewEntry(cacheId, AdjustedTtl(10.0), t), t + 4.0)
    ensures IsExpired(NewEntry(cacheId, AdjustedTtl(10.0), t), t + 5.0)
  {
  }

  /** The stored entry never outlives the TTL it was given. */
  lemma LocalExpiryWithinTtl(cacheId: string, ttlSeconds: real, t: real)
    ensures NewEntry(cacheId, AdjustedTtl(ttlSeconds), t).expireTime <= t + ttlSeconds
    ensures forall now :: now >= t + ttlSeconds ==> IsExpired(NewEntry(cacheId, AdjustedTtl(ttlSeconds), t), now)
  {
  }

  /** In `a + ":" + x` with `a` colon-free, position `i` within `a` holds no colon, while `|a|` does. */
  lemma ColonFreePrefix(a: string, x: string, i: nat)
    requires ColonFree(a) && i < |a|
    ensures (a + ":" + x)[i] != ':' && (a + ":" + x)[|a|] == ':'
  {
  }

  /** If `a` and `b` are colon-free, the first colon fixes where they end. */
  lemma {:induction false} SplitAtFirstColon(a: string, x: string, b: string, y: string)
    requires ColonFree(a) && ColonFree(b)
    requires a + ":" + x == b + ":" + y
    ensures a == b && x == y
  {
    var s := a + ":" + x;
    if |a| < |b| {
      ColonFreePrefix(b, y, |a|);
      assert false;
    } else if |b| < |a| {
      ColonFreePrefix(a, x, |b|);
      assert false;
    }
    assert a == s[..|a|];
    assert b == (b + ":" + y)[..|b|];
    assert x == s[|a| + 1..];
    assert y == (b + ":" + y)[|b| + 1..];
  }

  /** A scoped key is never the bare content key and always starts with it and a colon. */
  lemma ScopedKeyExtendsBareKey(md5Hex: string -> string, cacheKey: string, project: Option<string>,
                                location: Option<string>, provider: Option<string>)
    requires provider != Some(GeminiProvider) && NonEmpty(project) && NonEmpty(location)
    ensures |ScopedKey(md5Hex, cacheKey, project, location, provider)| > |cacheKey| + 1
    ensures ScopedKey(md5Hex, cacheKey, project, location, provider)[..|cacheKey| + 1] == cacheKey + ":"
  {
    var scope := cacheKey + ":" + project.value + ":" + location.value;
    var key := scope + ":" + Take16(md5Hex(scope));
    assert key == cacheKey + ":" + (project.value + ":" + location.value + ":" + Take16(md5Hex(scope)));
  }

  /**
    Same content key, two colon-free (project, location) pairs: a different
    pair gives a different scoped key.
  */
  lemma ScopedKeysDistinct(md5Hex: string -> string, cacheKey: string, p1: string, l1: string,
                           p2: string, l2: string, provider: Option<string>)
    requires provider != Some(GeminiProvider)
    requires p1 != "" && l1 != "" && p2 != "" && l2 != ""
    requires ColonFree(p1) && ColonFree(l1) && ColonFree(p2) && ColonFree(l2)
    requires (p1, l1) != (p2, l2)
    ensures ScopedKey(md5Hex, cacheKey, Some(p1), Some(l1), provider) != ScopedKey(md5Hex, cacheKey, Some(p2), Some(l2), provider)
  {
    var h1 := Take16(md5Hex(cacheKey + ":" + p1 + ":" + l1));
    var h2 := Take16(md5Hex(cacheKey + ":" + p2 + ":" + l2));
    var k1 := ScopedKey(md5Hex, cacheKey, Some(p1), Some(l1), provider);
    var k2 := ScopedKey(md5Hex, cacheKey, Some(p2), Some(l2), provider);
    if k1 == k2 {
      var tail1 := p1 + ":" + (l1 + ":" + h1);
      var tail2 := p2 + ":" + (l2 + ":" + h2);
      assert k1 == cacheKey + ":" + tail1;
      assert k2 == cacheKey + ":" + tail2;
      assert tail1 == k1[|cacheKey| + 1..];
      assert tail2 == k2[|cacheKey| + 1..];
      SplitAtFirstColon(p1, l1 + ":" + h1, p2, l2 + ":" + h2);
      SplitAtFirstColon(l1, h1, l2, h2);
      assert false;
    }
  }

  /**
    Writing the entry of one project/location never changes what a read for
    another project/location of the same content answers.
  */
  lemma ScopeIsolation(md5Hex: string -> string, m: map<string, CacheEntry>, cacheKey: string,
                       p1: string, l1: string, p2: string, l2: string, provider: Option<string>,
                       e: CacheEntry, now: real)
    requires provider != Some(GeminiProvider)
    requires p1 != "" && l1 != "" && p2 != "" && l2 != ""
    requires ColonFree(p1) && ColonFree(l1) && ColonFree(p2) && ColonFree(l2)
    requires (p1, l1) != (p2, l2)
    ensures var other := ScopedKey(md5Hex, cacheKey, Some(p2), Some(l2), provider);
      Lookup(m[ScopedKey(md5Hex, cacheKey, Some(p1), Some(l1), provider) := e], other, now) == Lookup(m, other, now)
  {
    ScopedKeysDistinct(md5Hex, cacheKey, p1, l1, p2, l2, provider);
  }

  /**
    Project and location are joined with ':' and nothing escapes a colon
    inside them, so ("a:b", "c") and ("a", "b:c") share one scoped key.
  */
  lemma ColonInScopeCollides(md5Hex: string -> string, cacheKey: string, provider: Option<string>)
    requires provider != Some(GeminiProvider)
    ensures ScopedKey(md5Hex, cacheKey, Some("a:b"), Some("c"), provider)
         == ScopedKey(md5Hex, cacheKey, Some("a"), Some("b:c"), provider)
  {
    assert cacheKey + ":" + "a:b" + ":" + "c" == cacheKey + ":" + "a" + ":" + "b:c";
  }

  /** The provider name is not part of the scope: vertex_ai and vertex_ai_beta share every scoped key. */
  lemma VertexProvidersShareKeys(md5Hex: string -> string, cacheKey: string, project: Option<string>, location: Option<string>)
    ensures ScopedKey(md5Hex, cacheKey, project, location, Some("vertex_ai"))
         == ScopedKey(md5Hex, cacheKey, project, location, Some("vertex_ai_beta"))
  {
  }
}
