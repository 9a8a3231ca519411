// The in-memory cache of Helm repository indexes: a table keyed by
// repository name with a capacity bound, eviction of the least recently
// accessed entry and expiry after a time-to-live.  Time is an explicit
// clock reading in seconds passed to each operation.
module HelmIndexCache {
  import opened Wrappers

  /** One chart version of a repository index: its version and download URLs. */
  datatype ChartVersion = ChartVersion(version: string, urls: seq<string>)

  /** A repository index: chart name to its versions, in the index's order. */
  datatype IndexFile = IndexFile(entries: map<string, seq<ChartVersion>>)

  /** `CachedIndex`. */
  datatype CachedIndex = CachedIndex(index: IndexFile, cachedAt: int, accessedAt: int, repoUrl: string)

  /** `isExpired`: strictly older than the time-to-live, counted from when the entry was cached. */
  predicate Expired(e: CachedIndex, ttl: int, now: int)
  {
    now - e.cachedAt > ttl
  }

  /** An entry no other entry was accessed before. */
  predicate LeastRecent(items: map<string, CachedIndex>, v: string)
  {
    v in items && forall k :: k in items ==> items[v].accessedAt <= items[k].accessedAt
  }

  /** What a lookup in an enabled cache answers: the stored index unless absent or expired. */
  function Lookup(items: map<string, CachedIndex>, ttl: int, name: string, now: int): Option<IndexFile>
  {
    if name in items && !Expired(items[name], ttl, now) then Some(items[name].index) else None
  }

  /** The table after all expired entries are dropped. */
  function Unexpired(items: map<string, CachedIndex>, ttl: int, now: int): map<string, CachedIndex>
  {
    map k | k in items && !Expired(items[k], ttl, now) :: items[k]
  }

  /** The entry `Set` writes. */
  function Fresh(index: IndexFile, url: string, now: int): CachedIndex
  {
    CachedIndex(index, now, now, url)
  }

  // ---------------------------------------------------------------------
  // Properties of the table operations

  /** Every non-empty table has a least recently accessed entry. */
  lemma {:induction false} LeastRecentExists(items: map<string, CachedIndex>)
    requires |items| > 0
    ensures exists v :: LeastRecent(items, v)
  {
    var k :| k in items;
    if |items| == 1 {
      assert forall j :: j in items ==> j == k by {
        forall j | j in items ensures j == k {
          if j != k {
            assert {j, k} <= items.Keys;
            SubsetCard({j, k}, items.Keys);
          }
        }
      }
      assert LeastRecent(items, k);
    } else {
      var rest := items - {k};
      assert rest.Keys == items.Keys - {k};
      assert |rest| == |items| - 1;
      LeastRecentExists(rest);
      var v :| LeastRecent(rest, v);
      assert forall j :: j in items ==> j == k || (j in rest && rest[j] == items[j]);
      if items[k].accessedAt < items[v].accessedAt {
        assert LeastRecent(items, k);
      } else {
        assert LeastRecent(items, v);
      }
    }
  }

  lemma {:induction false} SubsetCard<T>(a: set<T>, b: set<T>)
    requires a <= b
    ensures |a| <= |b|
  {
    if a != {} {
      var x :| x in a;
      SubsetCard(a - {x}, b - {x});
    }
  }

  /** An entry written at time `t` is found, unchanged, up to `ttl` seconds later. */
  lemma SetThenGet(items: map<string, CachedIndex>, ttl: int, name: string, url: string, index: IndexFile, t: int, now: int)
    requires now - t <= ttl
    ensures Lookup(items[name := Fresh(index, url, t)], ttl, name, now) == Some(index)
  {
  }

  /** ... and missed once more than `ttl` seconds have passed, however often it was read. */
  lemma ExpiresAfterTtl(items: map<string, CachedIndex>, ttl: int, name: string, now: int)
    requires name in items && now - items[name].cachedAt > ttl
    ensures Lookup(items, ttl, name, now) == None
    ensures forall a :: Lookup(items[name := items[name].(accessedAt := a)], ttl, name, now) == None
  {
  }

  /** Recording an access never changes what any lookup answers: it only affects eviction. */
  lemma TouchKeepsLookups(items: map<string, CachedIndex>, ttl: int, name: string, a: int)
    requires name in items
    ensures forall n, now :: Lookup(items[name := items[name].(accessedAt := a)], ttl, n, now) == Lookup(items, ttl, n, now)
  {
  }

  /** Dropping expired entries changes no lookup made at the same time, and never grows the table. */
  lemma CleanupKeepsLookups(items: map<string, CachedIndex>, ttl: int, now: int)
    ensures forall n :: Lookup(Unexpired(items, ttl, now), ttl, n, now) == Lookup(items, ttl, n, now)
    ensures |Unexpired(items, ttl, now)| <= |items|
    ensures forall k :: k in Unexpired(items, ttl, now) <==> k in items && !Expired(items[k], ttl, now)
  {
    assert Unexpired(items, ttl, now).Keys <= items.Keys;
    SubsetCard(Unexpired(items, ttl, now).Keys, items.Keys);
  }

  /** Removing one present key shrinks the table by one. */
  lemma RemoveCard(items: map<string, CachedIndex>, v: string)
    requires v in items
    ensures |items - {v}| == |items| - 1
  {
    assert (items - {v}).Keys == items.Keys - {v};
  }

  // ---------------------------------------------------------------------
  // `evictOldest` as written, over one iteration order of the map

  /**
   * The scan of `evictOldest` as written: `""` doubles as "nothing chosen
   * yet", so every key after an entry named `""` replaces it.
   */
  function ScanAsWritten(items: map<string, CachedIndex>, order: seq<string>, oldestName: string, oldestTime: int): string
    requires forall i :: 0 <= i < |order| ==> order[i] in items
  {
    if order == [] then oldestName
    else if oldestName == "" || items[order[0]].accessedAt < oldestTime then
      ScanAsWritten(items, order[1..], order[0], items[order[0]].accessedAt)
    else ScanAsWritten(items, order[1..], oldestName, oldestTime)
  }

  /** Without a key `""` the scan as written finds an entry accessed no later than any it visits. */
  lemma {:induction false} ScanFindsMinimum(items: map<string, CachedIndex>, order: seq<string>, oldestName: string, oldestTime: int)
    requires "" !in items
    requires forall i :: 0 <= i < |order| ==> order[i] in items
    requires oldestName != "" ==> oldestName in items && items[oldestName].accessedAt == oldestTime
    requires oldestName != "" || |order| > 0
    ensures var r := ScanAsWritten(items, order, oldestName, oldestTime);
      r in items && (oldestName != "" ==> items[r].accessedAt <= oldestTime) &&
      forall i :: 0 <= i < |order| ==> items[r].accessedAt <= items[order[i]].accessedAt
  {
    if order != [] {
      var r := ScanAsWritten(items, order, oldestName, oldestTime);
      if oldestName == "" || items[order[0]].accessedAt < oldestTime {
        ScanFindsMinimum(items, order[1..], order[0], items[order[0]].accessedAt);
      } else {
        ScanFindsMinimum(items, order[1..], oldestName, oldestTime);
      }
      forall i | 0 <= i < |order| ensures items[r].accessedAt <= items[order[i]].accessedAt {
        if i > 0 {
          assert order[i] == order[1..][i - 1];
        }
      }
    }
  }

  /** Hence, without a key `""`, the key the scan as written deletes is least recently accessed. */
  lemma ScanCorrectWithoutEmptyKey(items: map<string, CachedIndex>, order: seq<string>)
    requires "" !in items && |items| > 0
    requires forall i :: 0 <= i < |order| ==> order[i] in items
    requires forall k :: k in items ==> k in order
    ensures LeastRecent(items, ScanAsWritten(items, order, "", 0))
  {
    ScanFindsMinimum(items, order, "", 0);
  }

  /**
   * With a repository named `""` visited first, the scan as written deletes
   * the other, more recently accessed entry.
   */
  lemma ScanAsWrittenEvictsRecent(items: map<string, CachedIndex>, early: CachedIndex, late: CachedIndex)
    requires early.accessedAt == 1 && late.accessedAt == 5
    requires items == map["" := early, "a" := late]
    ensures ScanAsWritten(items, ["", "a"], "", 0) == "a"
    ensures !LeastRecent(items, "a")
  {
    assert ["", "a"][1..] == ["a"] && ["a"][1..] == [];
    assert ScanAsWritten(items, ["", "a"], "", 0) == ScanAsWritten(items, ["a"], "", 1);
    assert ScanAsWritten(items, ["a"], "", 1) == ScanAsWritten(items, [], "a", 5);
    assert items[""].accessedAt < items["a"].accessedAt;
  }

  // ---------------------------------------------------------------------
  // The cache

  /**
   * `IndexCache`.  A `maxSize` of 0 disables the cache; a negative one
   * enables it without a bound.
   */
  class IndexCache {
    const maxSize: int
    const ttl: int
    var items: map<string, CachedIndex>

    /** The capacity bound the operations keep. */
    ghost predicate Valid()
      reads this
    {
      maxSize > 0 ==> |items| <= maxSize
    }

    /** `NewIndexCache`: an empty table. */
    constructor (maxSize: int, ttl: int)
      ensures this.maxSize == maxSize && this.ttl == ttl
      ensures items == map[] && Valid()
    {
      this.maxSize := maxSize;
      this.ttl := ttl;
      items := map[];
    }

    /**
     * `Get`: a disabled cache always misses; otherwise the answer is the
     * lookup, and a hit records the access time of that entry only.  An
     * expired entry is left in place.
     */
    method Get(name: string, now: int) returns (index: Option<IndexFile>)
      modifies this
      ensures index == (if maxSize == 0 then None else Lookup(old(items), ttl, name, now))
      ensures index.Some? ==> items == old(items)[name := old(items)[name].(accessedAt := now)]
      ensures index.None? ==> items == old(items)
      ensures old(Valid()) ==> Valid()
    {
      if maxSize == 0 {
        return None;
      }
      if name !in items {
        return None;
      }
      var cached := items[name];
      if Expired(cached, ttl, now) {
        return None;
      }
      items := items[name := cached.(accessedAt := now)];
      return Some(cached.index);
    }

    /**
     * `Set`: a full table first loses one least recently accessed entry,
     * then the fresh entry is written.
     */
    method Set(name: string, url: string, index: IndexFile, now: int)
      modifies this
      ensures maxSize == 0 ==> items == old(items)
      ensures maxSize != 0 && (maxSize < 0 || |old(items)| < maxSize) ==>
                items == old(items)[name := Fresh(index, url, now)]
      ensures maxSize > 0 && |old(items)| >= maxSize ==>
                exists v :: LeastRecent(old(items), v) && items == (old(items) - {v})[name := Fresh(index, url, now)]
      ensures old(Valid()) ==> Valid()
    {
      if maxSize == 0 {
        return;
      }
      if maxSize > 0 && |items| >= maxSize {
        EvictOldest();
      }
      ghost var before := items;
      items := items[name := Fresh(index, url, now)];
      assert |items| <= |before| + 1;
    }

    /** `Clear`: an enabled cache forgets every entry. */
    method Clear()
      modifies this
      ensures maxSize == 0 ==> items == old(items)
      ensures maxSize != 0 ==> items == map[]
      ensures old(Valid()) ==> Valid()
    {
      if maxSize == 0 {
        return;
      }
      items := map[];
    }

    /**
     * `evictOldest`, with the scan keeping an explicit "found" flag instead
     * of the empty name: exactly one least recently accessed entry is
     * removed.  The keys are visited in an unspecified order.
     */
    method EvictOldest()
      modifies this
      ensures |old(items)| == 0 ==> items == old(items)
      ensures |old(items)| > 0 ==> exists v :: LeastRecent(old(items), v) && items == old(items) - {v}
      ensures |old(items)| > 0 ==> |items| == |old(items)| - 1
    {
      if |items| == 0 {
        return;
      }
      var remaining := items.Keys;
      var found := false;
      var oldestName := "";
      var oldestTime := 0;
      while remaining != {}
        invariant remaining <= items.Keys
        invariant found <==> remaining != items.Keys
        invariant found ==> oldestName in items && oldestName !in remaining && oldestTime == items[oldestName].accessedAt
        invariant found ==> forall k :: k in items && k !in remaining ==> oldestTime <= items[k].accessedAt
        decreases remaining
      {
        var name :| name in remaining;
        if !found || items[name].accessedAt < oldestTime {
          found := true;
          oldestName := name;
          oldestTime := items[name].accessedAt;
        }
        remaining := remaining - {name};
      }
      assert LeastRecent(items, oldestName);
      RemoveCard(items, oldestName);
      items := items - {oldestName};
    }

    /** `cleanupExpired`: every expired entry is removed and every other one kept. */
    method CleanupExpired(now: int)
      modifies this
      ensures items == Unexpired(old(items), ttl, now)
      ensures old(Valid()) ==> Valid()
    {
      ghost var start := items;
      var remaining := items.Keys;
      while remaining != {}
        invariant remaining <= start.Keys
        invariant items == map k | k in start && (k in remaining || !Expired(start[k], ttl, now)) :: start[k]
        decreases remaining
      {
        var name :| name in remaining;
        if Expired(items[name], ttl, now) {
          items := items - {name};
        }
        remaining := remaining - {name};
      }
      CleanupKeepsLookups(start, ttl, now);
    }
  }
}
