// The record cache of src/services/dns/dnsCache.ts: for each domain, a
// JavaScript Map from a "type:value" key to the cached record, with a
// 300-second floor on every time-to-live and a cap of 1000 entries over all
// domains. `Date.now()` is a parameter of every operation that reads it.

module DnsCache {
  import opened Common
  import opened OrderedMaps
  import opened DnsTypes

  /** The floor on a record's time-to-live, in seconds. */
  const DefaultTtl := 300
  const MaxCacheSize := 1000

  datatype CachedDnsRecord = CachedDnsRecord(record: DnsRecord, timestamp: int, expiresAt: int)

  type DomainCache = OMap<string, CachedDnsRecord>
  type Cache = OMap<string, DomainCache>

  datatype CacheStats = CacheStats(
    totalDomains: nat,
    totalRecords: nat,
    cacheSize: nat,
    oldestRecord: int,
    newestRecord: int)

  /** Every map of the cache, the outer one and each domain's, has distinct keys. */
  predicate WellFormed(c: Cache)
  {
    Keyed(c) && forall i :: 0 <= i < |c| ==> Keyed(c[i].1)
  }

  /** `cache.get(domain)`, with an empty map for an unknown domain. */
  function DomainOf(c: Cache, d: string): DomainCache
  {
    match Get(c, d)
    case None => []
    case Some(m) => m
  }

  lemma DomainOfKeyed(c: Cache, d: string)
    requires WellFormed(c)
    ensures Keyed(DomainOf(c, d))
  {
  }

  lemma PutWellFormed(c: Cache, d: string, m: DomainCache)
    requires WellFormed(c) && Keyed(m)
    ensures WellFormed(Put(c, d, m))
  {
    PutKeyed(c, d, m);
    var r := Put(c, d, m);
    if HasKey(c, d) {
      var k := IndexOf(c, d);
      assert forall i :: 0 <= i < |r| ==> r[i] == if i == k then (d, m) else c[i];
    } else {
      assert r == c + [(d, m)];
    }
  }

  lemma RemoveWellFormed(c: Cache, d: string)
    requires WellFormed(c)
    ensures WellFormed(Remove(c, d))
  {
    RemoveKeyed(c, d);
    var r := Remove(c, d);
    forall i | 0 <= i < |r| ensures Keyed(r[i].1) {
      var j :| 0 <= j < |c| && c[j] == r[i];
    }
  }

  // ---------------------------------------------------------------------
  // set

  /** `getCacheKey`. */
  function CacheKey(r: DnsRecord): string
  {
    RecordKey(r.rtype, r.value)
  }

  /** The entry `set` makes for a record at time `now`: it lives for the record's TTL, but never less than 300 seconds. */
  function Cached(r: DnsRecord, now: int): (e: CachedDnsRecord)
    ensures e.record == r && e.timestamp == now
    ensures e.expiresAt >= now + DefaultTtl * 1000 && e.expiresAt >= now + r.ttl * 1000
    ensures e.expiresAt == now + DefaultTtl * 1000 || e.expiresAt == now + r.ttl * 1000
  {
    CachedDnsRecord(r, now, now + MaxInt(r.ttl, DefaultTtl) * 1000)
  }

  /** The domain's map after `records.forEach(r => domainCache.set(getCacheKey(r), entry))`. */
  function StoreAll(m: DomainCache, rs: seq<DnsRecord>, now: int): DomainCache
  {
    if rs == [] then m
    else
      var r := rs[|rs| - 1];
      Put(StoreAll(m, rs[..|rs| - 1], now), CacheKey(r), Cached(r, now))
  }

  /** The last record of `rs` with key `k`: the one whose entry a `set` leaves behind. */
  function LastWithKey(rs: seq<DnsRecord>, k: string): (r: Option<DnsRecord>)
    ensures r.Some? ==> r.value in rs && CacheKey(r.value) == k
    ensures r.None? <==> forall i :: 0 <= i < |rs| ==> CacheKey(rs[i]) != k
  {
    if rs == [] then None
    else if CacheKey(rs[|rs| - 1]) == k then Some(rs[|rs| - 1])
    else
      var r := LastWithKey(rs[..|rs| - 1], k);
      assert forall i :: 0 <= i < |rs| - 1 ==> rs[i] == rs[..|rs| - 1][i];
      r
  }

  /**
   * After storing `rs`, each key holds the entry of the last record with that
   * key, and every other key keeps what it had.
   */
  lemma {:induction false} StoreAllLookup(m: DomainCache, rs: seq<DnsRecord>, now: int, k: string)
    requires Keyed(m)
    ensures Keyed(StoreAll(m, rs, now))
    ensures Get(StoreAll(m, rs, now), k) ==
      match LastWithKey(rs, k)
      case Some(r) => Some(Cached(r, now))
      case None => Get(m, k)
  {
    if rs != [] {
      var p, r := rs[..|rs| - 1], rs[|rs| - 1];
      StoreAllLookup(m, p, now, k);
      PutKeyed(StoreAll(m, p, now), CacheKey(r), Cached(r, now));
      PutGet(StoreAll(m, p, now), CacheKey(r), Cached(r, now), k);
    }
  }

  // ---------------------------------------------------------------------
  // get and isValid

  /** The filter of `get` and `isValid`: not expired, and of the requested type when one is given. */
  predicate Matches(e: CachedDnsRecord, rtype: Option<RecordType>, now: int)
  {
    e.expiresAt > now && (rtype.None? || e.record.rtype == rtype.value)
  }

  /** The records `get` returns from a domain's map, in the map's order. */
  function LiveRecords(m: DomainCache, rtype: Option<RecordType>, now: int): (r: seq<DnsRecord>)
    ensures |r| <= |m|
  {
    if m == [] then []
    else
      var rest := LiveRecords(m[..|m| - 1], rtype, now);
      if Matches(m[|m| - 1].1, rtype, now) then rest + [m[|m| - 1].1.record] else rest
  }

  lemma LiveRecordsSnoc(m: DomainCache, e: (string, CachedDnsRecord), rtype: Option<RecordType>, now: int)
    ensures LiveRecords(m + [e], rtype, now) ==
      LiveRecords(m, rtype, now) + if Matches(e.1, rtype, now) then [e.1.record] else []
  {
    assert (m + [e])[..|m|] == m;
  }

  lemma {:induction false} LiveRecordsMembers(m: DomainCache, rtype: Option<RecordType>, now: int, x: DnsRecord)
    ensures x in LiveRecords(m, rtype, now) <==>
      exists i :: 0 <= i < |m| && m[i].1.record == x && Matches(m[i].1, rtype, now)
  {
    if m != [] {
      var p := m[..|m| - 1];
      LiveRecordsMembers(p, rtype, now, x);
      if x in LiveRecords(p, rtype, now) {
        var i :| 0 <= i < |p| && p[i].1.record == x && Matches(p[i].1, rtype, now);
        assert m[i] == p[i];
      }
      if exists i :: 0 <= i < |m| && m[i].1.record == x && Matches(m[i].1, rtype, now) {
        var i :| 0 <= i < |m| && m[i].1.record == x && Matches(m[i].1, rtype, now);
        if i < |p| {
          assert p[i] == m[i];
        }
      }
    }
  }

  /** `isValid`: some entry of a known domain passes the `get` filter. */
  predicate AnyMatch(c: Cache, d: string, rtype: Option<RecordType>, now: int)
  {
    match Get(c, d)
    case None => false
    case Some(m) => exists i :: 0 <= i < |m| && Matches(m[i].1, rtype, now)
  }

  lemma AnyMatchIffFound(c: Cache, d: string, rtype: Option<RecordType>, now: int)
    ensures AnyMatch(c, d, rtype, now) <==> LiveRecords(DomainOf(c, d), rtype, now) != []
  {
    var m := DomainOf(c, d);
    if AnyMatch(c, d, rtype, now) {
      var i :| 0 <= i < |m| && Matches(m[i].1, rtype, now);
      LiveRecordsMembers(m, rtype, now, m[i].1.record);
    }
    if LiveRecords(m, rtype, now) != [] {
      LiveRecordsMembers(m, rtype, now, LiveRecords(m, rtype, now)[0]);
    }
  }

  // ---------------------------------------------------------------------
  // invalidate and cleanupExpiredRecords

  function NotOfType(t: RecordType): CachedDnsRecord -> bool
  {
    (e: CachedDnsRecord) => e.record.rtype != t
  }

  /** A domain's map after `invalidate(domain, t)` deleted the entries of type `t`. */
  function WithoutType(m: DomainCache, t: RecordType): DomainCache
  {
    FilterValues(m, NotOfType(t))
  }

  /** After invalidating type `t`, no record of that type is found, and every other type's answer is unchanged. */
  lemma {:induction false} WithoutTypeAnswers(m: DomainCache, t: RecordType, u: RecordType, now: int)
    ensures LiveRecords(WithoutType(m, t), Some(u), now) ==
      if u == t then [] else LiveRecords(m, Some(u), now)
  {
    if m != [] {
      var p, e := m[..|m| - 1], m[|m| - 1];
      assert m == p + [e];
      WithoutTypeAnswers(p, t, u, now);
      FilterValuesSnoc(p, e, NotOfType(t));
      LiveRecordsSnoc(p, e, Some(u), now);
      if e.1.record.rtype != t {
        LiveRecordsSnoc(WithoutType(p, t), e, Some(u), now);
      }
    }
  }

  /**
   * The cache after `invalidate(domain, rtype)`: unchanged for an unknown
   * domain; with a type, the domain keeps its other entries; without one,
   * the domain is removed.
   */
  function Invalidated(c: Cache, domain: string, rtype: Option<RecordType>): Cache
  {
    if !HasKey(c, domain) then c
    else if rtype.Some? then Put(c, domain, WithoutType(DomainOf(c, domain), rtype.value))
    else Remove(c, domain)
  }

  function Unexpired(now: int): CachedDnsRecord -> bool
  {
    (e: CachedDnsRecord) => e.expiresAt > now
  }

  /** The entries of a domain that `cleanupExpiredRecords` keeps. */
  function LiveEntries(m: DomainCache, now: int): DomainCache
  {
    FilterValues(m, Unexpired(now))
  }

  /** The cache after `cleanupExpiredRecords`: expired entries and domains left without a live entry are gone. */
  function Cleaned(c: Cache, now: int): Cache
  {
    if c == [] then []
    else
      var rest := Cleaned(c[..|c| - 1], now);
      var e := c[|c| - 1];
      var live := LiveEntries(e.1, now);
      if live == [] then rest else rest + [(e.0, live)]
  }

  lemma CleanedSnoc(c: Cache, e: (string, DomainCache), now: int)
    ensures Cleaned(c + [e], now) ==
      Cleaned(c, now) + if LiveEntries(e.1, now) == [] then [] else [(e.0, LiveEntries(e.1, now))]
  {
    assert (c + [e])[..|c|] == c;
  }

  /** A clean-up keeps only domains the cache had. */
  lemma {:induction false} CleanedKeys(c: Cache, now: int, d: string)
    ensures HasKey(Cleaned(c, now), d) ==> HasKey(c, d)
  {
    if c != [] {
      var p, e := c[..|c| - 1], c[|c| - 1];
      assert c == p + [e];
      CleanedKeys(p, now, d);
      CleanedSnoc(p, e, now);
      KeyedAppend(p, e);
      var live := LiveEntries(e.1, now);
      if live != [] {
        KeyedAppend(Cleaned(p, now), (e.0, live));
      }
    }
  }

  lemma {:induction false} CleanedWellFormed(c: Cache, now: int)
    requires WellFormed(c)
    ensures WellFormed(Cleaned(c, now))
  {
    if c != [] {
      var p, e := c[..|c| - 1], c[|c| - 1];
      assert c == p + [e];
      KeyedAppend(p, e);
      assert forall i :: 0 <= i < |p| ==> p[i] == c[i];
      CleanedWellFormed(p, now);
      CleanedSnoc(p, e, now);
      var live := LiveEntries(e.1, now);
      if live != [] {
        var r := Cleaned(p, now);
        CleanedKeys(p, now, e.0);
        KeyedAppend(r, (e.0, live));
        FilterValuesGet(e.1, Unexpired(now), e.0);
        assert forall i :: 0 <= i < |r| ==> (r + [(e.0, live)])[i] == r[i];
      }
    }
  }

  lemma {:induction false} CleanedGet(c: Cache, now: int, d: string)
    requires WellFormed(c)
    ensures WellFormed(Cleaned(c, now))
    ensures Get(Cleaned(c, now), d) ==
      match Get(c, d)
      case None => None
      case Some(m) => if LiveEntries(m, now) == [] then None else Some(LiveEntries(m, now))
  {
    CleanedWellFormed(c, now);
    if c != [] {
      var p, e := c[..|c| - 1], c[|c| - 1];
      assert c == p + [e];
      KeyedAppend(p, e);
      AppendGet(p, e, d);
      CleanedWellFormed(p, now);
      CleanedGet(p, now, d);
      CleanedSnoc(p, e, now);
      var live := LiveEntries(e.1, now);
      if live != [] {
        var r := Cleaned(p, now);
        CleanedKeys(p, now, e.0);
        AppendGet(r, (e.0, live), d);
      }
    }
  }

  lemma {:induction false} LiveEntriesAnswers(m: DomainCache, now: int, rtype: Option<RecordType>)
    ensures LiveRecords(LiveEntries(m, now), rtype, now) == LiveRecords(m, rtype, now)
  {
    if m != [] {
      var p, e := m[..|m| - 1], m[|m| - 1];
      assert m == p + [e];
      LiveEntriesAnswers(p, now, rtype);
      FilterValuesSnoc(p, e, Unexpired(now));
      LiveRecordsSnoc(p, e, rtype, now);
      if e.1.expiresAt > now {
        LiveRecordsSnoc(LiveEntries(p, now), e, rtype, now);
      }
    }
  }

  /** A clean-up changes no answer of `get` (and so of `isValid`) at the instant it runs. */
  lemma CleanupKeepsAnswers(c: Cache, now: int, d: string, rtype: Option<RecordType>)
    requires WellFormed(c)
    ensures LiveRecords(DomainOf(Cleaned(c, now), d), rtype, now) == LiveRecords(DomainOf(c, d), rtype, now)
  {
    CleanedGet(c, now, d);
    if HasKey(c, d) {
      LiveEntriesAnswers(DomainOf(c, d), now, rtype);
    }
  }

  /** After a clean-up every domain has an entry and every entry is live. */
  lemma {:induction false} CleanedIsClean(c: Cache, now: int)
    ensures forall i :: 0 <= i < |Cleaned(c, now)| ==>
      Cleaned(c, now)[i].1 != [] &&
      forall j :: 0 <= j < |Cleaned(c, now)[i].1| ==> Cleaned(c, now)[i].1[j].1.expiresAt > now
  {
    if c != [] {
      CleanedIsClean(c[..|c| - 1], now);
      var r := Cleaned(c[..|c| - 1], now);
      var e := c[|c| - 1];
      var live := LiveEntries(e.1, now);
      if live != [] {
        assert forall i :: 0 <= i < |r| ==> (r + [(e.0, live)])[i] == r[i];
        assert forall j :: 0 <= j < |live| ==> Unexpired(now)(live[j].1);
      }
    }
  }

  // ---------------------------------------------------------------------
  // enforceMaxCacheSize

  /** A record timestamp, or the `Infinity` that `Math.min()` gives for no values. */
  datatype Stamp = At(t: int) | Never

  predicate StampLe(a: Stamp, b: Stamp)
  {
    b.Never? || (a.At? && a.t <= b.t)
  }

  function MinStamp(a: Stamp, b: Stamp): Stamp
  {
    if StampLe(a, b) then a else b
  }

  /**
   * The stable sort `Array.prototype.sort` performs for a comparator that
   * subtracts the keys: each element goes before the first later-sorted one
   * that is not smaller.
   */
  function Insert(x: string, s: seq<string>, key: string -> Stamp): seq<string>
  {
    if s == [] then [x]
    else if StampLe(key(x), key(s[0])) then [x] + s
    else [s[0]] + Insert(x, s[1..], key)
  }

  function SortBy(s: seq<string>, key: string -> Stamp): seq<string>
  {
    if s == [] then [] else Insert(s[0], SortBy(s[1..], key), key)
  }

  predicate SortedBy(s: seq<string>, key: string -> Stamp)
  {
    forall i, j :: 0 <= i < j < |s| ==> StampLe(key(s[i]), key(s[j]))
  }

  lemma StampLeTotal(a: Stamp, b: Stamp, c: Stamp)
    ensures StampLe(a, b) || StampLe(b, a)
    ensures StampLe(a, b) && StampLe(b, c) ==> StampLe(a, c)
  {
  }

  lemma {:induction false} InsertPerm(x: string, s: seq<string>, key: string -> Stamp)
    ensures multiset(Insert(x, s, key)) == multiset{x} + multiset(s)
  {
    if s != [] {
      assert s == [s[0]] + s[1..];
      if !StampLe(key(x), key(s[0])) {
        InsertPerm(x, s[1..], key);
      }
    }
  }

  /** Every element of `Insert(x, s)` is `x` or an element of `s`. */
  lemma InsertMembers(x: string, s: seq<string>, key: string -> Stamp, j: nat)
    requires j < |Insert(x, s, key)|
    ensures Insert(x, s, key)[j] == x || exists k :: 0 <= k < |s| && s[k] == Insert(x, s, key)[j]
  {
    var t := Insert(x, s, key);
    InsertPerm(x, s, key);
    assert t[j] in multiset(t);
  }

  lemma {:induction false} InsertSorted(x: string, s: seq<string>, key: string -> Stamp)
    requires SortedBy(s, key)
    ensures SortedBy(Insert(x, s, key), key)
  {
    if s != [] {
      var r := Insert(x, s, key);
      if StampLe(key(x), key(s[0])) {
        assert r == [x] + s;
        forall i, j | 0 <= i < j < |r| ensures StampLe(key(r[i]), key(r[j])) {
          if i == 0 && j > 1 {
            StampLeTotal(key(x), key(s[0]), key(s[j - 1]));
          }
        }
      } else {
        var t := Insert(x, s[1..], key);
        assert r == [s[0]] + t;
        InsertSorted(x, s[1..], key);
        forall j | 0 <= j < |t| ensures StampLe(key(s[0]), key(t[j])) {
          InsertMembers(x, s[1..], key, j);
          if t[j] == x {
            StampLeTotal(key(x), key(s[0]), key(x));
          } else {
            var k :| 0 <= k < |s[1..]| && s[1..][k] == t[j];
            assert s[k + 1] == t[j];
          }
        }
        forall i, j | 0 <= i < j < |r| ensures StampLe(key(r[i]), key(r[j])) {
          if i == 0 {
            assert r[j] == t[j - 1];
          } else {
            assert r[i] == t[i - 1] && r[j] == t[j - 1];
          }
        }
      }
    }
  }

  /** The sort orders by the key and rearranges nothing else. */
  lemma {:induction false} SortByPerm(s: seq<string>, key: string -> Stamp)
    ensures multiset(SortBy(s, key)) == multiset(s)
  {
    if s != [] {
      SortByPerm(s[1..], key);
      InsertPerm(s[0], SortBy(s[1..], key), key);
      assert s == [s[0]] + s[1..];
    }
  }

  lemma {:induction false} SortBySorted(s: seq<string>, key: string -> Stamp)
    ensures SortedBy(SortBy(s, key), key)
  {
    if s != [] {
      SortBySorted(s[1..], key);
      InsertSorted(s[0], SortBy(s[1..], key), key);
    }
  }


  lemma {:induction false} NoDupCount(a: seq<string>, x: string)
    requires NoDuplicates(a)
    ensures multiset(a)[x] <= 1
  {
    if a != [] {
      assert a == [a[0]] + a[1..];
      NoDupCount(a[1..], x);
      if a[0] == x {
        assert x !in a[1..];
      }
    }
  }

  lemma PermNoDup(a: seq<string>, b: seq<string>)
    requires NoDuplicates(a) && multiset(a) == multiset(b)
    ensures NoDuplicates(b)
  {
    forall i, j | 0 <= i < j < |b| ensures b[i] != b[j] {
      NoDupCount(a, b[i]);
      if b[i] == b[j] {
        TwoOccurrences(b, i, j);
      }
    }
  }

  lemma TwoOccurrences(b: seq<string>, i: nat, j: nat)
    requires i < j < |b| && b[i] == b[j]
    ensures multiset(b)[b[i]] >= 2
  {
    assert b == b[..j] + b[j..];
    assert b[..j][i] == b[i] && b[j..][0] == b[j];
    assert b[i] in multiset(b[..j]) && b[j] in multiset(b[j..]);
  }

  /** The timestamp of the entry under `k`, or `Never` when there is none. */
  function StampOf(m: DomainCache, k: string): Stamp
  {
    match Get(m, k)
    case None => Never
    case Some(e) => At(e.timestamp)
  }

  function StampKey(m: DomainCache): string -> Stamp
  {
    (k: string) => StampOf(m, k)
  }

  /** `Math.min(...timestamps)` over a domain's entries. */
  function Oldest(m: DomainCache): (r: Stamp)
    ensures forall i :: 0 <= i < |m| ==> StampLe(r, At(m[i].1.timestamp))
    ensures r == Never <==> m == []
  {
    if m == [] then Never
    else
      var rest := Oldest(m[1..]);
      assert forall i :: 1 <= i < |m| ==> m[i] == m[1..][i - 1];
      MinStamp(At(m[0].1.timestamp), rest)
  }

  function OldestOf(c: Cache, d: string): Stamp
  {
    Oldest(DomainOf(c, d))
  }

  function OldestKey(c: Cache): string -> Stamp
  {
    (d: string) => OldestOf(c, d)
  }

  /** The order in which the eviction walks the domains: by their oldest entry. */
  function DomainOrder(c: Cache): seq<string>
  {
    SortBy(Keys(c), OldestKey(c))
  }

  /** The order in which the eviction deletes a domain's entries: oldest first. */
  function EntryOrder(m: DomainCache): seq<string>
  {
    SortBy(Keys(m), StampKey(m))
  }

  lemma EntryOrderFacts(m: DomainCache)
    requires Keyed(m)
    ensures NoDuplicates(EntryOrder(m)) && |EntryOrder(m)| == |m|
    ensures forall i :: 0 <= i < |EntryOrder(m)| ==> HasKey(m, EntryOrder(m)[i])
  {
    SortByPerm(Keys(m), StampKey(m));
    PermNoDup(Keys(m), EntryOrder(m));
    var es := EntryOrder(m);
    assert |es| == |multiset(es)| == |multiset(Keys(m))| == |Keys(m)|;
    forall i | 0 <= i < |es| ensures HasKey(m, es[i]) {
      assert es[i] in multiset(es);
    }
  }

  lemma DomainOrderFacts(c: Cache)
    requires Keyed(c)
    ensures multiset(DomainOrder(c)) == multiset(Keys(c))
    ensures NoDuplicates(DomainOrder(c))
  {
    SortByPerm(Keys(c), OldestKey(c));
    PermNoDup(Keys(c), DomainOrder(c));
  }

  /**
   * The eviction walks every domain exactly once, in order of its oldest
   * entry, and deletes each domain's entries oldest first.
   */
  lemma EvictionOrder(c: Cache, m: DomainCache)
    requires Keyed(c) && Keyed(m)
    ensures SortedBy(DomainOrder(c), OldestKey(c))
    ensures multiset(DomainOrder(c)) == multiset(Keys(c))
    ensures SortedBy(EntryOrder(m), StampKey(m))
    ensures multiset(EntryOrder(m)) == multiset(Keys(m))
  {
    SortByPerm(Keys(c), OldestKey(c));
    SortBySorted(Keys(c), OldestKey(c));
    SortByPerm(Keys(m), StampKey(m));
    SortBySorted(Keys(m), StampKey(m));
  }

  /** `domainCache.size` for a known domain, 0 otherwise. */
  function Size(c: Cache, d: string): nat
  {
    |DomainOf(c, d)|
  }

  function SumOver(c: Cache, ds: seq<string>): nat
  {
    if ds == [] then 0 else Size(c, ds[0]) + SumOver(c, ds[1..])
  }

  /** The number of entries over all domains. */
  function Total(c: Cache): nat
  {
    if c == [] then 0 else |c[0].1| + Total(c[1..])
  }

  lemma {:induction false} SumOverConcat(c: Cache, a: seq<string>, b: seq<string>)
    ensures SumOver(c, a + b) == SumOver(c, a) + SumOver(c, b)
  {
    if a != [] {
      assert (a + b)[1..] == a[1..] + b;
      SumOverConcat(c, a[1..], b);
    } else {
      assert a + b == b;
    }
  }

  lemma {:induction false} SumOverSame(c1: Cache, c2: Cache, ds: seq<string>)
    requires forall i :: 0 <= i < |ds| ==> Size(c1, ds[i]) == Size(c2, ds[i])
    ensures SumOver(c1, ds) == SumOver(c2, ds)
  {
    if ds != [] {
      SumOverSame(c1, c2, ds[1..]);
    }
  }

  lemma {:induction false} SumOverInsert(c: Cache, x: string, s: seq<string>, key: string -> Stamp)
    ensures SumOver(c, Insert(x, s, key)) == Size(c, x) + SumOver(c, s)
  {
    if s == [] {
      assert Insert(x, s, key) == [x];
      assert [x][1..] == [];
    } else if StampLe(key(x), key(s[0])) {
      assert ([x] + s)[1..] == s;
    } else {
      var t := Insert(x, s[1..], key);
      assert ([s[0]] + t)[1..] == t;
      SumOverInsert(c, x, s[1..], key);
    }
  }

  /** Sorting the domains does not change the sum of their sizes. */
  lemma {:induction false} SumOverSort(c: Cache, s: seq<string>, key: string -> Stamp)
    ensures SumOver(c, SortBy(s, key)) == SumOver(c, s)
  {
    if s != [] {
      SumOverSort(c, s[1..], key);
      SumOverInsert(c, s[0], SortBy(s[1..], key), key);
    }
  }

  lemma {:induction false} TotalAppend(c: Cache, e: (string, DomainCache))
    ensures Total(c + [e]) == Total(c) + |e.1|
  {
    if c != [] {
      assert (c + [e])[1..] == c[1..] + [e];
      TotalAppend(c[1..], e);
    } else {
      assert c + [e] == [e];
    }
  }

  lemma {:induction false} TotalIsSumOver(c: Cache)
    requires Keyed(c)
    ensures Total(c) == SumOver(c, Keys(c))
  {
    if c != [] {
      var t := c[1..];
      assert Keys(c) == [c[0].0] + Keys(t);
      assert Keys(c)[1..] == Keys(t);
      KeyedTail(c);
      TotalIsSumOver(t);
      forall i | 0 <= i < |Keys(t)| ensures Size(c, Keys(t)[i]) == Size(t, Keys(t)[i]) {
        assert Keys(c)[0] != Keys(c)[i + 1];
        GetTail(c, Keys(t)[i]);
      }
      SumOverSame(c, t, Keys(t));
    }
  }

  lemma {:induction false} TotalUpdate(c: Cache, i: nat, e: (string, DomainCache))
    requires i < |c|
    ensures Total(c[i := e]) == Total(c) - |c[i].1| + |e.1|
  {
    if i == 0 {
      assert c[i := e][1..] == c[1..];
    } else {
      assert c[i := e][1..] == c[1..][i - 1 := e];
      TotalUpdate(c[1..], i - 1, e);
    }
  }

  lemma TotalPut(c: Cache, d: string, m: DomainCache)
    ensures Total(Put(c, d, m)) == Total(c) - Size(c, d) + |m|
  {
    if HasKey(c, d) {
      TotalUpdate(c, IndexOf(c, d), (d, m));
    } else {
      TotalAppend(c, (d, m));
    }
  }

  lemma {:induction false} TotalRemove(c: Cache, d: string)
    requires Keyed(c)
    ensures Total(Remove(c, d)) == Total(c) - Size(c, d)
  {
    if c != [] {
      var t := c[1..];
      KeyedTail(c);
      TotalRemove(t, d);
      if c[0].0 != d {
        GetTail(c, d);
        assert ([c[0]] + Remove(t, d))[1..] == Remove(t, d);
      }
    }
  }

  /**
   * The inner loop of `enforceMaxCacheSize` on one domain: delete the keys
   * of `es` in turn, counting, until `need` deletions have been made in all.
   */
  function Drop(m: DomainCache, es: seq<string>, removed: int, need: int): (r: (DomainCache, int))
    decreases |es|
  {
    if es == [] then (m, removed)
    else
      var m1 := Remove(m, es[0]);
      if removed + 1 >= need then (m1, removed + 1) else Drop(m1, es[1..], removed + 1, need)
  }

  lemma {:induction false} DropCount(m: DomainCache, es: seq<string>, removed: int, need: int)
    requires Keyed(m) && NoDuplicates(es) && removed < need
    requires forall i :: 0 <= i < |es| ==> HasKey(m, es[i])
    ensures Keyed(Drop(m, es, removed, need).0)
    ensures Drop(m, es, removed, need).1 == removed + MinInt(|es|, need - removed)
    ensures |Drop(m, es, removed, need).0| == |m| - MinInt(|es|, need - removed)
    decreases |es|
  {
    if es != [] {
      RemoveKeyed(m, es[0]);
      var m1 := Remove(m, es[0]);
      if removed + 1 < need {
        forall i | 0 <= i < |es[1..]| ensures HasKey(m1, es[1..][i]) {
          assert es[1..][i] == es[i + 1] != es[0];
          RemoveHasKey(m, es[0], es[i + 1]);
        }
        DropCount(m1, es[1..], removed + 1, need);
      }
    }
  }

  /** The outer loop of `enforceMaxCacheSize`: visit the domains of `order`, dropping entries until `need` are gone. */
  /** The cache once one domain's map `m` has been thinned, and dropped if it was emptied. */
  function Evicted(c: Cache, d: string, m: DomainCache, removed: int, need: int): Cache
  {
    var dropped := Drop(m, EntryOrder(m), removed, need);
    var c1 := Put(c, d, dropped.0);
    if |dropped.0| == 0 then Remove(c1, d) else c1
  }

  /** The outer loop of `enforceMaxCacheSize`: visit the domains of `order`, dropping entries until `need` are gone. */
  function Walk(c: Cache, order: seq<string>, removed: int, need: int): Cache
    decreases |order|
  {
    if order == [] || removed >= need then c
    else
      match Get(c, order[0])
      case None => Walk(c, order[1..], removed, need)
      case Some(m) =>
        Walk(Evicted(c, order[0], m, removed, need), order[1..], Drop(m, EntryOrder(m), removed, need).1, need)
  }

  lemma EvictedFacts(c: Cache, d: string, m: DomainCache, removed: int, need: int)
    requires WellFormed(c) && Get(c, d) == Some(m) && removed < need
    ensures WellFormed(Evicted(c, d, m, removed, need))
    ensures Drop(m, EntryOrder(m), removed, need).1 == removed + MinInt(|m|, need - removed)
    ensures Total(Evicted(c, d, m, removed, need)) == Total(c) - MinInt(|m|, need - removed)
    ensures forall e :: e != d ==> Size(Evicted(c, d, m, removed, need), e) == Size(c, e)
  {
    EntryOrderFacts(m);
    var dropped := Drop(m, EntryOrder(m), removed, need);
    DropCount(m, EntryOrder(m), removed, need);
    var c1 := Put(c, d, dropped.0);
    PutWellFormed(c, d, dropped.0);
    PutKeyed(c, d, dropped.0);
    TotalPut(c, d, dropped.0);
    if |dropped.0| == 0 {
      RemoveWellFormed(c1, d);
      TotalRemove(c1, d);
      PutGet(c, d, dropped.0, d);
    }
    forall e | e != d ensures Size(Evicted(c, d, m, removed, need), e) == Size(c, e) {
      PutGet(c, d, dropped.0, e);
      RemoveGet(c1, d, e);
    }
  }

  /** The cache after `enforceMaxCacheSize`. */
  function Enforced(c: Cache): Cache
  {
    if Total(c) > MaxCacheSize then Walk(c, DomainOrder(c), 0, Total(c) - MaxCacheSize) else c
  }

  lemma {:induction false} WalkTotal(c: Cache, order: seq<string>, removed: int, need: int)
    requires WellFormed(c) && NoDuplicates(order)
    requires 0 <= removed <= need <= removed + SumOver(c, order)
    ensures WellFormed(Walk(c, order, removed, need))
    ensures Total(Walk(c, order, removed, need)) == Total(c) - (need - removed)
    decreases |order|
  {
    if order != [] && removed < need {
      var d := order[0];
      var rest := order[1..];
      assert forall i :: 0 <= i < |rest| ==> rest[i] == order[i + 1] != d;
      match Get(c, d) {
        case None =>
          WalkTotal(c, rest, removed, need);
        case Some(m) =>
          EvictedFacts(c, d, m, removed, need);
          var c2 := Evicted(c, d, m, removed, need);
          SumOverSame(c2, c, rest);
          WalkTotal(c2, rest, Drop(m, EntryOrder(m), removed, need).1, need);
      }
    }
  }


  lemma EnforcedBelow(c: Cache)
    requires Total(c) <= MaxCacheSize
    ensures Enforced(c) == c
  {
  }

  lemma EnforcedAbove(c: Cache, need: int)
    requires need == Total(c) - MaxCacheSize > 0
    ensures Enforced(c) == Walk(c, DomainOrder(c), 0, need)
  {
  }

  /** Summing the domain sizes in eviction order counts every entry once. */
  lemma DomainOrderSum(c: Cache)
    requires Keyed(c)
    ensures SumOver(c, DomainOrder(c)) == Total(c)
    ensures NoDuplicates(DomainOrder(c))
  {
    DomainOrderFacts(c);
    SumOverSort(c, Keys(c), OldestKey(c));
    TotalIsSumOver(c);
  }

  /** A walk over a duplicate-free list of domains holding the surplus removes exactly the surplus. */
  lemma WalkOverAll(c: Cache, order: seq<string>, need: int)
    requires WellFormed(c) && need == Total(c) - MaxCacheSize > 0
    requires NoDuplicates(order) && SumOver(c, order) == Total(c)
    ensures WellFormed(Walk(c, order, 0, need))
    ensures Total(Walk(c, order, 0, need)) == MaxCacheSize
  {
    WalkTotal(c, order, 0, need);
  }

  /** Above the cap, enforcement removes exactly the surplus. */
  lemma EnforcedOver(c: Cache)
    requires WellFormed(c) && Total(c) > MaxCacheSize
    ensures WellFormed(Enforced(c)) && Total(Enforced(c)) == MaxCacheSize
  {
    var total := Total(c);
    var order, need := DomainOrder(c), total - MaxCacheSize;
    DomainOrderSum(c);
    WalkOverAll(c, order, need);
    EnforcedAbove(c, need);
  }

  /**
   * Enforcement leaves at most 1000 entries: when there were more, it removes
   * exactly the surplus; otherwise it changes nothing.
   */
  lemma EnforcedBound(c: Cache)
    requires WellFormed(c)
    ensures WellFormed(Enforced(c))
    ensures Total(Enforced(c)) == MinInt(Total(c), MaxCacheSize)
    ensures Total(c) <= MaxCacheSize ==> Enforced(c) == c
  {
    if Total(c) > MaxCacheSize {
      EnforcedOver(c);
    } else {
      EnforcedBelow(c);
    }
  }

  /**
   * Every record a `set` stores is found at once by `get` under its own type
   * (the last of several with one key wins), unless the size cap evicted
   * entries.
   */
  lemma SetFindsRecord(c: Cache, d: string, rs: seq<DnsRecord>, now: int, i: nat)
    requires WellFormed(c) && i < |rs|
    requires LastWithKey(rs, CacheKey(rs[i])) == Some(rs[i])
    requires Total(Put(c, d, StoreAll(DomainOf(c, d), rs, now))) <= MaxCacheSize
    ensures rs[i] in LiveRecords(DomainOf(Enforced(Put(c, d, StoreAll(DomainOf(c, d), rs, now))), d), Some(rs[i].rtype), now)
  {
    var s := StoreAll(DomainOf(c, d), rs, now);
    StoreAllLookup(DomainOf(c, d), rs, now, CacheKey(rs[i]));
    PutWellFormed(c, d, s);
    EnforcedBound(Put(c, d, s));
    PutGet(c, d, s, d);
    var k := IndexOf(s, CacheKey(rs[i]));
    LiveRecordsMembers(s, Some(rs[i].rtype), now, rs[i]);
  }

  // ---------------------------------------------------------------------
  // getStats

  /** `acc` folded with `Math.min` over a domain's timestamps, in order. */
  function MinEntries(m: DomainCache, acc: int): int
  {
    if m == [] then acc else MinInt(MinEntries(m[..|m| - 1], acc), m[|m| - 1].1.timestamp)
  }

  function MaxEntries(m: DomainCache, acc: int): int
  {
    if m == [] then acc else MaxInt(MaxEntries(m[..|m| - 1], acc), m[|m| - 1].1.timestamp)
  }

  /** `acc` folded with `Math.min` over every domain's timestamps, domain by domain. */
  function MinAll(c: Cache, acc: int): int
  {
    if c == [] then acc else MinEntries(c[|c| - 1].1, MinAll(c[..|c| - 1], acc))
  }

  function MaxAll(c: Cache, acc: int): int
  {
    if c == [] then acc else MaxEntries(c[|c| - 1].1, MaxAll(c[..|c| - 1], acc))
  }

  /** The statistics `getStats` reports at time `now`. */
  function Stats(c: Cache, now: int): CacheStats
  {
    CacheStats(|c|, Total(c), Total(c), MinAll(c, now), MaxAll(c, 0))
  }

  /** Some entry of the cache has timestamp `x`. */
  predicate HasStamp(c: Cache, x: int)
  {
    exists i, j :: 0 <= i < |c| && 0 <= j < |c[i].1| && c[i].1[j].1.timestamp == x
  }

  lemma {:induction false} EntriesBounds(m: DomainCache, acc: int)
    ensures MinEntries(m, acc) <= acc <= MaxEntries(m, acc)
    ensures forall j :: 0 <= j < |m| ==> MinEntries(m, acc) <= m[j].1.timestamp <= MaxEntries(m, acc)
    ensures MinEntries(m, acc) == acc || exists j :: 0 <= j < |m| && m[j].1.timestamp == MinEntries(m, acc)
    ensures MaxEntries(m, acc) == acc || exists j :: 0 <= j < |m| && m[j].1.timestamp == MaxEntries(m, acc)
  {
    if m != [] {
      var p := m[..|m| - 1];
      EntriesBounds(p, acc);
      assert forall j :: 0 <= j < |p| ==> p[j] == m[j];
    }
  }

  lemma {:induction false} MinAllBounds(c: Cache, acc: int)
    ensures MinAll(c, acc) <= acc
    ensures forall i, j :: 0 <= i < |c| && 0 <= j < |c[i].1| ==> MinAll(c, acc) <= c[i].1[j].1.timestamp
    ensures MinAll(c, acc) == acc || HasStamp(c, MinAll(c, acc))
  {
    if c != [] {
      var p, m := c[..|c| - 1], c[|c| - 1].1;
      MinAllBounds(p, acc);
      EntriesBounds(m, MinAll(p, acc));
      assert forall i :: 0 <= i < |p| ==> p[i] == c[i];
      if MinAll(c, acc) == MinAll(p, acc) {
        if HasStamp(p, MinAll(p, acc)) {
          var i, j :| 0 <= i < |p| && 0 <= j < |p[i].1| && p[i].1[j].1.timestamp == MinAll(p, acc);
          assert c[i] == p[i];
        }
      } else {
        var j :| 0 <= j < |m| && m[j].1.timestamp == MinAll(c, acc);
        assert c[|c| - 1].1[j].1.timestamp == MinAll(c, acc);
      }
    }
  }

  lemma {:induction false} MaxAllBounds(c: Cache, acc: int)
    ensures acc <= MaxAll(c, acc)
    ensures forall i, j :: 0 <= i < |c| && 0 <= j < |c[i].1| ==> c[i].1[j].1.timestamp <= MaxAll(c, acc)
    ensures MaxAll(c, acc) == acc || HasStamp(c, MaxAll(c, acc))
  {
    if c != [] {
      var p, m := c[..|c| - 1], c[|c| - 1].1;
      MaxAllBounds(p, acc);
      EntriesBounds(m, MaxAll(p, acc));
      assert forall i :: 0 <= i < |p| ==> p[i] == c[i];
      if MaxAll(c, acc) == MaxAll(p, acc) {
        if HasStamp(p, MaxAll(p, acc)) {
          var i, j :| 0 <= i < |p| && 0 <= j < |p[i].1| && p[i].1[j].1.timestamp == MaxAll(p, acc);
          assert c[i] == p[i];
        }
      } else {
        var j :| 0 <= j < |m| && m[j].1.timestamp == MaxAll(c, acc);
        assert c[|c| - 1].1[j].1.timestamp == MaxAll(c, acc);
      }
    }
  }

  /**
   * The reported oldest timestamp is at most `now` and at most every entry's,
   * and is `now` or some entry's; the newest is at least 0 and every entry's,
   * and is 0 or some entry's; both record counts are the number of entries.
   */
  lemma StatsBounds(c: Cache, now: int)
    ensures var st := Stats(c, now);
      st.totalDomains == |c| && st.totalRecords == st.cacheSize == Total(c) &&
      st.oldestRecord <= now && st.newestRecord >= 0 &&
      (st.oldestRecord == now || HasStamp(c, st.oldestRecord)) &&
      (st.newestRecord == 0 || HasStamp(c, st.newestRecord)) &&
      forall i, j :: 0 <= i < |c| && 0 <= j < |c[i].1| ==>
        st.oldestRecord <= c[i].1[j].1.timestamp <= st.newestRecord
  {
    MinAllBounds(c, now);
    MaxAllBounds(c, 0);
  }

  lemma DropStep(m: DomainCache, es: seq<string>, removed: int, need: int)
    requires es != []
    ensures Drop(m, es, removed, need) ==
      if removed + 1 >= need then (Remove(m, es[0]), removed + 1)
      else Drop(Remove(m, es[0]), es[1..], removed + 1, need)
  {
  }

  lemma WalkStepFound(c: Cache, order: seq<string>, removed: int, need: int, m: DomainCache)
    requires order != [] && removed < need && Get(c, order[0]) == Some(m)
    ensures Walk(c, order, removed, need) ==
      Walk(Evicted(c, order[0], m, removed, need), order[1..], Drop(m, EntryOrder(m), removed, need).1, need)
  {
  }

  lemma WalkStepMissing(c: Cache, order: seq<string>, removed: int, need: int)
    requires order != [] && removed < need && Get(c, order[0]).None?
    ensures Walk(c, order, removed, need) == Walk(c, order[1..], removed, need)
  {
  }

  /** The cache after `set(domain, records)` at time `now`. */
  function AfterSet(c: Cache, domain: string, records: seq<DnsRecord>, now: int): Cache
  {
    Enforced(Put(c, domain, StoreAll(DomainOf(c, domain), records, now)))
  }

  // ---------------------------------------------------------------------
  // The service

  class DnsCacheService {
    var cache: Cache

    ghost predicate Valid()
      reads this
    {
      WellFormed(cache)
    }

    /** The periodic clean-up timer the constructor starts is not modelled. */
    constructor ()
      ensures cache == [] && Valid()
    {
      cache := [];
    }

    /** `set`: store the records under the domain, then enforce the size cap. */
    method Set(domain: string, records: seq<DnsRecord>, now: int)
      requires Valid()
      modifies this
      ensures Valid() && Total(cache) <= MaxCacheSize
      ensures cache == AfterSet(old(cache), domain, records, now)
    {
      var domainCache := DomainOf(cache, domain);
      ghost var start := domainCache;
      var i := 0;
      while i < |records|
        invariant 0 <= i <= |records|
        invariant domainCache == StoreAll(start, records[..i], now)
      {
        var r := records[i];
        assert records[..i + 1][..i] == records[..i];
        domainCache := Put(domainCache, CacheKey(r), Cached(r, now));
        i := i + 1;
      }
      assert records[..i] == records;
      DomainOfKeyed(cache, domain);
      StoreAllLookup(start, records, now, domain);
      PutWellFormed(cache, domain, domainCache);
      ghost var stored := Put(cache, domain, domainCache);
      cache := Put(cache, domain, domainCache);
      EnforceMaxCacheSize();
      EnforcedBound(stored);
    }

    /** `get`: the domain's live records of the requested type, in insertion order. */
    method Get(domain: string, rtype: Option<RecordType>, now: int) returns (records: seq<DnsRecord>)
      ensures records == LiveRecords(DomainOf(cache, domain), rtype, now)
    {
      var found := OrderedMaps.Get(cache, domain);
      if found.None? {
        return [];
      }
      var m := found.value;
      records := [];
      var i := 0;
      while i < |m|
        invariant 0 <= i <= |m|
        invariant records == LiveRecords(m[..i], rtype, now)
      {
        assert m[..i + 1][..i] == m[..i];
        if Matches(m[i].1, rtype, now) {
          records := records + [m[i].1.record];
        }
        i := i + 1;
      }
      assert m[..i] == m;
    }

    /** `isValid` holds exactly when `get` would return something. */
    function IsValid(domain: string, rtype: Option<RecordType>, now: int): (b: bool)
      reads this
      ensures b <==> LiveRecords(DomainOf(cache, domain), rtype, now) != []
    {
      AnyMatchIffFound(cache, domain, rtype, now);
      AnyMatch(cache, domain, rtype, now)
    }

    /**
     * `invalidate`: with a type, delete that type's entries and keep the
     * (possibly empty) domain; without one, delete the domain.
     */
    method Invalidate(domain: string, rtype: Option<RecordType>)
      requires Valid()
      modifies this
      ensures Valid()
      ensures cache == Invalidated(old(cache), domain, rtype)
      ensures forall d :: d != domain ==> OrderedMaps.Get(cache, d) == OrderedMaps.Get(old(cache), d)
    {
      var found := OrderedMaps.Get(cache, domain);
      if found.None? {
        return;
      }
      ghost var c0 := cache;
      if rtype.Some? {
        var m := WithoutType(found.value, rtype.value);
        FilterValuesGet(found.value, NotOfType(rtype.value), domain);
        PutWellFormed(cache, domain, m);
        cache := Put(cache, domain, m);
        forall d | d != domain ensures OrderedMaps.Get(cache, d) == OrderedMaps.Get(c0, d) {
          PutGet(c0, domain, m, d);
        }
      } else {
        RemoveWellFormed(cache, domain);
        cache := Remove(cache, domain);
        forall d | d != domain ensures OrderedMaps.Get(cache, d) == OrderedMaps.Get(c0, d) {
          RemoveGet(c0, domain, d);
        }
      }
    }

    /** `cleanupExpiredRecords`, the body of the periodic timer. */
    method CleanupExpiredRecords(now: int)
      requires Valid()
      modifies this
      ensures Valid()
      ensures cache == Cleaned(old(cache), now)
    {
      var kept: Cache := [];
      var i := 0;
      while i < |cache|
        invariant 0 <= i <= |cache|
        invariant kept == Cleaned(cache[..i], now)
      {
        var domain := cache[i].0;
        var m := cache[i].1;
        var live: DomainCache := [];
        var hasValidRecords := false;
        var j := 0;
        while j < |m|
          invariant 0 <= j <= |m|
          invariant live == LiveEntries(m[..j], now)
          invariant hasValidRecords <==> live != []
        {
          assert m[..j + 1][..j] == m[..j];
          if m[j].1.expiresAt > now {
            live := live + [m[j]];
            hasValidRecords := true;
          }
          j := j + 1;
        }
        assert m[..j] == m;
        assert cache[..i + 1][..i] == cache[..i];
        if hasValidRecords {
          kept := kept + [(domain, live)];
        }
        i := i + 1;
      }
      assert cache[..i] == cache;
      CleanedGet(cache, now, "");
      cache := kept;
    }

    /** `enforceMaxCacheSize`. */
    method EnforceMaxCacheSize()
      requires Valid()
      modifies this
      ensures cache == Enforced(old(cache))
    {
      var c := cache;
      var totalRecords := CountRecords(c);
      if totalRecords > MaxCacheSize {
        EnforcedAbove(c, totalRecords - MaxCacheSize);
        c := EvictOldest(c, totalRecords - MaxCacheSize);
      } else {
        EnforcedBelow(c);
      }
      cache := c;
    }

    /** The first loop of `enforceMaxCacheSize`: the number of entries over all domains. */
    method CountRecords(c: Cache) returns (totalRecords: nat)
      requires WellFormed(c)
      ensures totalRecords == Total(c)
    {
      totalRecords := 0;
      var domains := Keys(c);
      var i := 0;
      while i < |domains|
        invariant 0 <= i <= |domains|
        invariant totalRecords == SumOver(c, domains[..i])
      {
        totalRecords := totalRecords + Size(c, domains[i]);
        SumOverConcat(c, domains[..i], [domains[i]]);
        assert domains[..i + 1] == domains[..i] + [domains[i]];
        i := i + 1;
      }
      assert domains[..i] == domains;
      TotalIsSumOver(c);
    }

    /**
     * The second loop of `enforceMaxCacheSize`: visit the domains oldest
     * first, thinning each, until `recordsToRemove` entries are gone.
     */
    method EvictOldest(c0: Cache, recordsToRemove: int) returns (c: Cache)
      ensures c == Walk(c0, DomainOrder(c0), 0, recordsToRemove)
    {
      c := c0;
      var removedCount := 0;
      var domains := DomainOrder(c0);
      ghost var target := Walk(c0, domains, 0, recordsToRemove);
      var k := 0;
      while k < |domains|
        invariant 0 <= k <= |domains|
        invariant Walk(c, domains[k..], removedCount, recordsToRemove) == target
      {
        if removedCount >= recordsToRemove {
          break;
        }
        var domain := domains[k];
        ghost var rest := domains[k..];
        assert rest != [] && rest[0] == domain && rest[1..] == domains[k + 1..];
        var found := OrderedMaps.Get(c, domain);
        if found.Some? {
          WalkStepFound(c, rest, removedCount, recordsToRemove, found.value);
          c, removedCount := ThinDomain(c, domain, found.value, removedCount, recordsToRemove);
        } else {
          WalkStepMissing(c, rest, removedCount, recordsToRemove);
        }
        k := k + 1;
      }
    }

    /**
     * One visit of the second loop: thin the domain's entries, store what is
     * left, and delete the domain when nothing is.
     */
    method ThinDomain(c0: Cache, domain: string, m: DomainCache, removedCount: int, recordsToRemove: int)
      returns (c: Cache, removed: int)
      requires removedCount < recordsToRemove
      ensures c == Evicted(c0, domain, m, removedCount, recordsToRemove)
      ensures removed == Drop(m, EntryOrder(m), removedCount, recordsToRemove).1
    {
      var domainCache;
      domainCache, removed := DropOldest(m, removedCount, recordsToRemove);
      c := Put(c0, domain, domainCache);
      if |domainCache| == 0 {
        c := Remove(c, domain);
      }
    }

    /**
     * The inner loop of `enforceMaxCacheSize`: delete a domain's entries
     * oldest first, counting, until the count reaches `recordsToRemove`.
     */
    method DropOldest(domainCache: DomainCache, removedCount: int, recordsToRemove: int)
      returns (m: DomainCache, removed: int)
      requires removedCount < recordsToRemove
      ensures (m, removed) == Drop(domainCache, EntryOrder(domainCache), removedCount, recordsToRemove)
    {
      var records := EntryOrder(domainCache);
      ghost var target := Drop(domainCache, records, removedCount, recordsToRemove);
      m, removed := domainCache, removedCount;
      var j := 0;
      while j < |records|
        invariant 0 <= j <= |records|
        invariant removed < recordsToRemove
        invariant Drop(m, records[j..], removed, recordsToRemove) == target
      {
        ghost var rest := records[j..];
        assert rest != [] && rest[0] == records[j] && rest[1..] == records[j + 1..];
        DropStep(m, rest, removed, recordsToRemove);
        m := Remove(m, records[j]);
        removed := removed + 1;
        if removed >= recordsToRemove {
          break;
        }
        j := j + 1;
      }
      if j == |records| {
        assert records[j..] == [];
      }
    }

    /** `getStats` at time `now`. */
    method GetStats(now: int) returns (st: CacheStats)
      ensures st == Stats(cache, now)
    {
      var c := cache;
      var totalRecords := 0;
      var oldest := now;
      var newest := 0;
      var i := 0;
      while i < |c|
        invariant 0 <= i <= |c|
        invariant totalRecords == Total(c[..i])
        invariant oldest == MinAll(c[..i], now)
        invariant newest == MaxAll(c[..i], 0)
      {
        var m := c[i].1;
        TotalAppend(c[..i], c[i]);
        assert c[..i + 1] == c[..i] + [c[i]];
        assert c[..i + 1][..i] == c[..i];
        totalRecords := totalRecords + |m|;
        ghost var lo, hi := oldest, newest;
        var j := 0;
        while j < |m|
          invariant 0 <= j <= |m|
          invariant oldest == MinEntries(m[..j], lo)
          invariant newest == MaxEntries(m[..j], hi)
        {
          assert m[..j + 1][..j] == m[..j];
          oldest := MinInt(oldest, m[j].1.timestamp);
          newest := MaxInt(newest, m[j].1.timestamp);
          j := j + 1;
        }
        assert m[..j] == m;
        i := i + 1;
      }
      assert c[..i] == c;
      st := CacheStats(|c|, totalRecords, totalRecords, oldest, newest);
    }
  }
}
