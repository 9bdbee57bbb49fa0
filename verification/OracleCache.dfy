/** Last-known-good prices: a cache that always agrees with the latest stored price of every item. */
module OracleCache {
  import opened Client

  /** A limit of 0 disables a check. */
  datatype Limits = Limits(maxPrice: int, maxRatio: real)

  datatype Verdict = Accept | Invalid | Implausible

  /** A row of the price table; ids are positions, given in insertion order. */
  datatype Row = Row(item: nat, price: int, createdAt: nat)

  /** Go's conversion of a real to an integer, toward zero. */
  function Trunc(x: real): int { if x >= 0.0 then x.Floor else -(-x).Floor }

  function ValidatePrice(p: Price, prev: int, cfg: Limits): Verdict {
    if p.amount <= 0 then Invalid
    else if cfg.maxPrice > 0 && p.amount > cfg.maxPrice then Implausible
    else if cfg.maxRatio > 0.0 && prev > 0 &&
            (p.amount > Trunc(prev as real * cfg.maxRatio) || p.amount < Trunc(prev as real / cfg.maxRatio))
      then Implausible
    else Accept
  }

  /** Positive, under the ceiling, and within the ratio of prev, if there is one. */
  predicate Follows(prev: int, next: int, cfg: Limits) {
    && next > 0
    && (cfg.maxPrice > 0 ==> next <= cfg.maxPrice)
    && (cfg.maxRatio > 0.0 && prev > 0 ==>
        next as real <= prev as real * cfg.maxRatio && prev as real / cfg.maxRatio < (next + 1) as real)
  }

  /**
   * A price is accepted exactly when it is positive, below the ceiling, and within the ratio of the last good one, and
   * it is invalid rather than implausible exactly when it is not positive.
   */
  lemma AcceptedIff(p: Price, prev: int, cfg: Limits)
    ensures ValidatePrice(p, prev, cfg).Accept? <==>
              && p.amount > 0
              && (cfg.maxPrice > 0 ==> p.amount <= cfg.maxPrice)
              && (cfg.maxRatio > 0.0 && prev > 0 ==>
                    && p.amount as real <= prev as real * cfg.maxRatio
                    && prev as real / cfg.maxRatio < (p.amount + 1) as real)
    ensures ValidatePrice(p, prev, cfg).Accept? <==> Follows(prev, p.amount, cfg)
    ensures ValidatePrice(p, prev, cfg).Invalid? <==> p.amount <= 0
  {
  }

  // ---- The table ----

  /** Row j is at least as late as row i: by time, then by id. */
  predicate NotLater(table: seq<Row>, i: nat, j: nat)
    requires i < |table| && j < |table|
  {
    table[i].createdAt < table[j].createdAt || (table[i].createdAt == table[j].createdAt && i <= j)
  }

  /** Row i is the row DISTINCT ON (item) ORDER BY created_at DESC, id DESC returns for its item. */
  ghost predicate Latest(table: seq<Row>, i: nat) {
    i < |table| && forall j: nat :: j < |table| && table[j].item == table[i].item ==> NotLater(table, j, i)
  }

  /** The cache holds exactly the latest price of every item in the table. */
  ghost predicate Agrees(cache: map<nat, int>, table: seq<Row>) {
    && (forall i: nat :: i < |table| ==> table[i].item in cache)
    && (forall k :: k in cache ==>
        exists i: nat :: Latest(table, i) && table[i].item == k && table[i].price == cache[k])
  }

  ghost predicate InTime(table: seq<Row>, clock: nat) {
    && (forall i, j :: 0 <= i < j < |table| ==> table[i].createdAt <= table[j].createdAt)
    && (forall i :: 0 <= i < |table| ==> table[i].createdAt <= clock)
  }

  lemma LatestUnique(table: seq<Row>, i: nat, j: nat)
    requires Latest(table, i) && Latest(table, j) && table[i].item == table[j].item
    ensures i == j
  {
    assert NotLater(table, i, j) && NotLater(table, j, i);
  }

  /** Two caches that agree with a table are the same. */
  lemma AgreesUnique(c: map<nat, int>, d: map<nat, int>, table: seq<Row>)
    requires Agrees(c, table) && Agrees(d, table)
    ensures c == d
  {
    forall k | k in c ensures k in d && d[k] == c[k] {
      var i: nat :| Latest(table, i) && table[i].item == k && table[i].price == c[k];
      var j: nat :| Latest(table, j) && table[j].item == k && table[j].price == d[k];
      LatestUnique(table, i, j);
    }
    forall k | k in d ensures k in c {
      var i: nat :| Latest(table, i) && table[i].item == k && table[i].price == d[k];
    }
  }

  /** Storing a price that is no older than the table and caching it keeps them in agreement. */
  lemma StoreAgrees(cache: map<nat, int>, table: seq<Row>, clock: nat, row: Row)
    requires Agrees(cache, table) && InTime(table, clock) && row.createdAt == clock
    ensures Agrees(cache[row.item := row.price], table + [row])
    ensures InTime(table + [row], clock)
  {
    var more, n := table + [row], |table|;
    assert Latest(more, n);
    forall k | k in cache && k != row.item
      ensures exists i: nat :: Latest(more, i) && more[i].item == k && more[i].price == cache[k]
    {
      var i: nat :| Latest(table, i) && table[i].item == k && table[i].price == cache[k];
      forall j: nat | j < |more| && more[j].item == more[i].item ensures NotLater(more, j, i) {
        assert j < n && NotLater(table, j, i);
      }
      assert Latest(more, i);
    }
  }

  // ---- What one refresh keeps ----

  /** What the source gave, and for each price whether storing it would succeed. */
  datatype Feed = Feed(prices: seq<Price>, stored: seq<bool>)

  /** The cache and the table between two prices of a snapshot. */
  datatype Books = Books(cache: map<nat, int>, table: seq<Row>)

  function AmountOf(cache: map<nat, int>, item: nat): int { if item in cache then cache[item] else 0 }

  /** Price p is within the limits of the item's last good one. */
  predicate Plausible(cache: map<nat, int>, p: Price, cfg: Limits) {
    Follows(if p.item in cache then cache[p.item] else 0, p.amount, cfg)
  }

  /** What price p does to the books: kept if it is plausible, and dropped without a trace if it is not. */
  ghost predicate Takes(b: Books, p: Price, b': Books, cfg: Limits) {
    if Plausible(b.cache, p, cfg) then
      && b'.cache == b.cache[p.item := p.amount]
      && |b'.table| == |b.table| + 1 && b'.table[..|b.table|] == b.table
      && b'.table[|b.table|].item == p.item && b'.table[|b.table|].price == p.amount
    else b' == b
  }

  /** The first |trace| - 1 prices of the feed, one after the other; every plausible one of them could be stored. */
  ghost predicate Trace(trace: seq<Books>, feed: Feed, cfg: Limits) {
    && 0 < |trace| <= |feed.prices| + 1 && |feed.stored| == |feed.prices|
    && forall i :: 0 <= i < |trace| - 1 ==>
         && Takes(trace[i], feed.prices[i], trace[i + 1], cfg)
         && (Plausible(trace[i].cache, feed.prices[i], cfg) ==> feed.stored[i])
  }

  /** The refresh ends with the snapshot, or at the first plausible price that cannot be stored. */
  ghost predicate Stops(trace: seq<Books>, feed: Feed, cfg: Limits, ok: bool)
    requires Trace(trace, feed, cfg)
  {
    var m := |trace| - 1;
    && (ok <==> m == |feed.prices|)
    && (!ok ==> m < |feed.prices| && Plausible(trace[m].cache, feed.prices[m], cfg) && !feed.stored[m])
  }

  /** The same prices under the same ids, whenever they were stored. */
  ghost predicate SamePrices(t: seq<Row>, u: seq<Row>) {
    |t| == |u| && forall i :: 0 <= i < |t| ==> t[i].item == u[i].item && t[i].price == u[i].price
  }

  /** Up to the times of the rows, the first k prices of a feed have only one trace. */
  lemma {:induction false} SameTrace(t: seq<Books>, u: seq<Books>, feed: Feed, cfg: Limits, k: nat)
    requires Trace(t, feed, cfg) && Trace(u, feed, cfg) && k < |t| && k < |u| && t[0] == u[0]
    ensures t[k].cache == u[k].cache && SamePrices(t[k].table, u[k].table)
  {
    if k > 0 {
      SameTrace(t, u, feed, cfg, k - 1);
      var p := feed.prices[k - 1];
      assert Takes(t[k - 1], p, t[k], cfg) && Takes(u[k - 1], p, u[k], cfg);
      forall i | 0 <= i < |t[k - 1].table| && Plausible(t[k - 1].cache, p, cfg)
        ensures t[k].table[i] == t[k - 1].table[i] && u[k].table[i] == u[k - 1].table[i]
      {
        assert t[k].table[i] == t[k].table[..|t[k - 1].table|][i] && u[k].table[i] == u[k].table[..|u[k - 1].table|][i];
      }
    }
  }

  lemma TraceMore(trace: seq<Books>, feed: Feed, cfg: Limits, b: Books)
    requires Trace(trace, feed, cfg) && |trace| <= |feed.prices|
    requires var m := |trace| - 1;
             && Takes(trace[m], feed.prices[m], b, cfg)
             && (Plausible(trace[m].cache, feed.prices[m], cfg) ==> feed.stored[m])
    ensures Trace(trace + [b], feed, cfg)
  {
  }

  /** Main result: what a refresh keeps, where it stops and whether it succeeds depend on its inputs alone. */
  lemma RefreshDetermined(t: seq<Books>, u: seq<Books>, feed: Feed, cfg: Limits, ok: bool, ok': bool)
    requires Trace(t, feed, cfg) && Stops(t, feed, cfg, ok) && Trace(u, feed, cfg) && Stops(u, feed, cfg, ok')
    requires t[0] == u[0]
    ensures ok == ok' && |t| == |u|
    ensures t[|t| - 1].cache == u[|u| - 1].cache && SamePrices(t[|t| - 1].table, u[|u| - 1].table)
  {
    var m := if |t| < |u| then |t| - 1 else |u| - 1;
    SameTrace(t, u, feed, cfg, m);
  }

  // ---- The service ----

  class OracleService {
    const cfg: Limits
    var cache: map<nat, int>
    var table: seq<Row>
    var clock: nat

    /** A fresh service over an existing price table: its cache is empty. */
    constructor (cfg: Limits, table: seq<Row>, clock: nat)
      ensures this.cfg == cfg && this.table == table && this.clock == clock && cache == map[]
    {
      this.cfg, this.table, this.clock, cache := cfg, table, clock, map[];
    }

    ghost predicate Valid()
      reads this
    {
      Agrees(cache, table) && InTime(table, clock)
    }

    /** Warms an empty cache with the latest stored price of every item. */
    method LoadLastKnownGood(reachable: bool) returns (ok: bool)
      requires cache == map[]
      modifies `cache
      ensures ok == reachable
      ensures if ok then Agrees(cache, table) else cache == map[]
    {
      if !reachable { return false; }
      var newest: map<nat, nat> := map[];
      var i := 0;
      while i < |table|
        invariant i <= |table|
        invariant forall j: nat :: j < i ==> table[j].item in newest
        invariant forall k :: k in newest ==> newest[k] < i && table[newest[k]].item == k
        invariant forall j: nat :: j < i ==> NotLater(table, j, newest[table[j].item])
      {
        var k := table[i].item;
        if k !in newest || NotLater(table, newest[k], i) {
          newest := newest[k := i];
        }
        i := i + 1;
      }
      cache := map k | k in newest :: table[newest[k]].price;
      forall k | k in cache ensures Latest(table, newest[k]) { }
      return true;
    }

    method CurrentAmount(item: nat) returns (amount: int, known: bool)
      ensures known == (item in cache) && amount == if known then cache[item] else 0
    {
      if item in cache { return cache[item], true; }
      return 0, false;
    }

    /** Stores an accepted price and caches it, unless the store fails. */
    method Keep(p: Price, prev: int, stored: bool)
      requires Valid() && prev == AmountOf(cache, p.item) && ValidatePrice(p, prev, cfg).Accept?
      modifies this
      ensures Valid() && old(clock) <= clock
      ensures table == if stored then old(table) + [Row(p.item, p.amount, clock)] else old(table)
      ensures cache == if stored then old(cache)[p.item := p.amount] else old(cache)
      ensures StaysSteady(old(table), table, cfg)
    {
      var now :| clock <= now;
      clock := now;
      if !stored { return; }
      forall n: nat | Steady(table, n, cfg) ensures Steady(table + [Row(p.item, p.amount, now)], n, cfg) {
        PriceFollows(cache, table, p, prev, cfg, n, now);
      }
      StoreAgrees(cache, table, now, Row(p.item, p.amount, now));
      table := table + [Row(p.item, p.amount, now)];
      cache := cache[p.item := p.amount];
    }

    /** One price of a snapshot: kept, dropped, or the one at which the refresh stops. */
    method TakeOne(p: Price, stored: bool) returns (kept: bool, stopped: bool)
      requires Valid()
      modifies this
      ensures Valid() && old(clock) <= clock && StaysSteady(old(table), table, cfg)
      ensures kept <==> Plausible(old(cache), p, cfg) && stored
      ensures stopped <==> Plausible(old(cache), p, cfg) && !stored
      ensures if stopped then Books(cache, table) == Books(old(cache), old(table))
              else Takes(Books(old(cache), old(table)), p, Books(cache, table), cfg)
      ensures old(table) <= table && |table| == |old(table)| + if kept then 1 else 0
    {
      var prev, _ := CurrentAmount(p.item);
      AcceptedIff(p, prev, cfg);
      kept, stopped := false, false;
      if ValidatePrice(p, prev, cfg).Accept? {
        Keep(p, prev, stored);
        kept, stopped := stored, !stored;
      }
    }

    /**
     * Validates and stores a snapshot price by price. A price outside the limits is dropped and the next one is looked
     * at; a store that fails ends the refresh. Whatever the snapshot, whichever store fails, the cache agrees with the
     * table afterwards, and only prices within the limits were appended.
     */
    method Refresh(fetched: bool, feed: Feed) returns (accepted: nat, ok: bool, ghost trace: seq<Books>)
      requires Valid() && |feed.stored| == |feed.prices|
      modifies this
      ensures Valid() && old(clock) <= clock
      ensures !fetched ==> accepted == 0 && !ok && table == old(table) && cache == old(cache)
      ensures old(table) <= table && accepted == |table| - |old(table)|
      ensures fetched ==> Trace(trace, feed, cfg) && Stops(trace, feed, cfg, ok)
      ensures fetched ==> trace[0] == Books(old(cache), old(table)) && trace[|trace| - 1] == Books(cache, table)
      ensures StaysSteady(old(table), table, cfg)
    {
      accepted, trace := 0, [Books(cache, table)];
      if !fetched { return 0, false, trace; }
      var i := 0;
      ghost var before := table;
      while i < |feed.prices|
        invariant i <= |feed.prices| && Valid() && old(clock) <= clock
        invariant before <= table && accepted == |table| - |before|
        invariant |trace| == i + 1 && Trace(trace, feed, cfg)
        invariant trace[0] == Books(old(cache), before) && trace[i] == Books(cache, table)
        invariant StaysSteady(before, table, cfg)
      {
        var kept, stopped := TakeOne(feed.prices[i], feed.stored[i]);
        if stopped { return accepted, false, trace; }
        if kept { accepted := accepted + 1; }
        TraceMore(trace, feed, cfg, Books(cache, table));
        trace := trace + [Books(cache, table)];
        i := i + 1;
      }
      return accepted, true, trace;
    }

    /** A fresh service over the same table serves the same prices. */
    method Restart() returns (next: OracleService)
      requires Valid()
      ensures fresh(next) && next.Valid() && next.cache == cache
    {
      next := new OracleService(cfg, table, clock);
      var ok := next.LoadLastKnownGood(true);
      AgreesUnique(next.cache, cache, table);
    }
  }

  // ---- How far prices can move ----

  /** Row j is the stored price of its item just before row i. */
  predicate Before(table: seq<Row>, j: nat, i: nat)
    requires i < |table| && j < |table|
  {
    j < i && table[j].item == table[i].item && forall k :: j < k < i ==> table[k].item != table[i].item
  }

  /** Every row from n on is a plausible price, and within the limits of the row of its item before it. */
  ghost predicate Steady(table: seq<Row>, n: nat, cfg: Limits) {
    && (forall i :: n <= i < |table| ==> Follows(0, table[i].price, cfg))
    && (forall i, j :: 0 <= j < i < |table| && n <= i && Before(table, j, i) ==>
        Follows(table[j].price, table[i].price, cfg))
  }

  /** New rows are within the limits; if all old ones were, all rows are. */
  ghost predicate StaysSteady(before: seq<Row>, table: seq<Row>, cfg: Limits) {
    forall n: nat :: n <= |before| && Steady(before, n, cfg) ==> Steady(table, n, cfg)
  }

  lemma NewRowsSteady(before: seq<Row>, table: seq<Row>, cfg: Limits)
    requires StaysSteady(before, table, cfg)
    ensures Steady(table, |before|, cfg)
  {
    assert Steady(before, |before|, cfg);
  }

  lemma LatestIsLast(table: seq<Row>, clock: nat, i: nat, j: nat)
    requires InTime(table, clock) && Latest(table, i) && j < |table| && table[j].item == table[i].item
    ensures j <= i
  {
    assert NotLater(table, j, i);
  }

  lemma PriceFollows(cache: map<nat, int>, table: seq<Row>, p: Price, prev: int, cfg: Limits, n: nat, now: nat)
    requires Agrees(cache, table) && InTime(table, now) && prev == AmountOf(cache, p.item)
    requires ValidatePrice(p, prev, cfg).Accept? && Steady(table, n, cfg)
    ensures Steady(table + [Row(p.item, p.amount, now)], n, cfg)
  {
    var more, m := table + [Row(p.item, p.amount, now)], |table|;
    AcceptedIff(p, prev, cfg);
    forall i, j | 0 <= j < i < |more| && n <= i && Before(more, j, i)
      ensures Follows(more[j].price, more[i].price, cfg)
    {
      if i < m {
        assert Before(table, j, i) by {
          forall k | j < k < i ensures table[k].item != table[i].item { assert more[k].item != more[i].item; }
        }
      } else {
        assert forall k :: j < k < m ==> more[k] == table[k];
        NewRowFollows(cache, table, p, prev, cfg, now, j);
      }
    }
  }

  /** The last row of an item is the one in the cache. */
  lemma NewRowFollows(cache: map<nat, int>, table: seq<Row>, p: Price, prev: int, cfg: Limits, now: nat, j: nat)
    requires Agrees(cache, table) && InTime(table, now) && prev == AmountOf(cache, p.item)
    requires ValidatePrice(p, prev, cfg).Accept? && j < |table| && table[j].item == p.item
    requires forall k :: j < k < |table| ==> table[k].item != p.item
    ensures Follows(table[j].price, p.amount, cfg)
  {
    AcceptedIff(p, prev, cfg);
    var l: nat :| Latest(table, l) && table[l].item == p.item && table[l].price == cache[p.item];
    LatestIsLast(table, now, l, j);
  }

  function PowR(r: real, n: nat): real { if n == 0 then 1.0 else PowR(r, n - 1) * r }

  /** The stored prices of an item, in order. */
  function PricesOf(table: seq<Row>, item: nat): seq<int> {
    if table == [] then []
    else
      var rest, last := PricesOf(table[..|table| - 1], item), table[|table| - 1];
      if last.item == item then rest + [last.price] else rest
  }

  /** The last stored price of an item is that of its last row. */
  lemma {:induction false} LastPrice(table: seq<Row>, item: nat) returns (i: nat)
    requires PricesOf(table, item) != []
    ensures i < |table| && table[i].item == item && forall k :: i < k < |table| ==> table[k].item != item
    ensures table[i].price == PricesOf(table, item)[|PricesOf(table, item)| - 1]
  {
    var n := |table| - 1;
    if table[n].item == item {
      i := n;
    } else {
      i := LastPrice(table[..n], item);
    }
  }

  lemma SteadyPrefix(table: seq<Row>, n: nat, cfg: Limits)
    requires table != [] && Steady(table, n, cfg)
    ensures Steady(table[..|table| - 1], n, cfg)
  {
    var less := table[..|table| - 1];
    forall i, j | 0 <= j < i < |less| && n <= i && Before(less, j, i)
      ensures Follows(less[j].price, less[i].price, cfg)
    {
      assert Before(table, j, i) by {
        forall k | j < k < i ensures table[k].item != table[i].item { assert less[k].item != less[i].item; }
      }
    }
  }

  /** Where an item's last price among the first n rows is, or its first price when it has none there. */
  function Base(table: seq<Row>, n: nat, item: nat): nat
    requires n <= |table|
  {
    var m := |PricesOf(table[..n], item)|;
    if m == 0 then 0 else m - 1
  }

  lemma WholeBase(table: seq<Row>, item: nat)
    ensures Base(table, |table|, item) + 1 >= |PricesOf(table, item)|
  {
    assert table[..|table|] == table;
  }

  lemma Shorter(table: seq<Row>, n: nat, item: nat)
    requires n < |table|
    ensures var less, last := table[..|table| - 1], table[|table| - 1];
            && Base(less, n, item) == Base(table, n, item)
            && PricesOf(table, item) == PricesOf(less, item) + if last.item == item then [last.price] else []
  {
    assert table[..|table| - 1][..n] == table[..n];
  }

  /** The k-th of the prices after number b is at most ratio^k times it. */
  ghost predicate Within(ps: seq<int>, b: nat, k: nat, ratio: real)
    requires b + k < |ps|
  {
    ps[b + k] as real <= ps[b] as real * PowR(ratio, k)
  }

  predicate AtMostTimes(next: int, prev: int, ratio: real) { next as real <= prev as real * ratio }

  /** Every price after number b is at most ratio times the one before it. */
  ghost predicate Climbs(ps: seq<int>, b: nat, ratio: real) {
    forall i :: b < i < |ps| ==> AtMostTimes(ps[i], ps[i - 1], ratio)
  }

  lemma {:induction false} ClimbsPower(ps: seq<int>, b: nat, k: nat, ratio: real)
    requires Climbs(ps, b, ratio) && ratio > 0.0 && b + k < |ps|
    ensures Within(ps, b, k, ratio)
  {
    if k > 0 {
      ClimbsPower(ps, b, k - 1, ratio);
      assert AtMostTimes(ps[b + k], ps[b + k - 1], ratio);
      NextPower(ps[b + k - 1] as real, ps[b] as real, PowR(ratio, k - 1), ratio);
    }
  }

  /** A new price of an item is within the ratio of the one before it. */
  lemma LastStep(table: seq<Row>, n: nat, item: nat, cfg: Limits)
    requires n < |table| && Steady(table, n, cfg) && cfg.maxRatio > 0.0 && table[|table| - 1].item == item
    requires forall i :: 0 <= i < |table| ==> table[i].price > 0
    requires PricesOf(table[..|table| - 1], item) != []
    ensures var rest := PricesOf(table[..|table| - 1], item);
            AtMostTimes(table[|table| - 1].price, rest[|rest| - 1], cfg.maxRatio)
  {
    var j := LastPrice(table[..|table| - 1], item);
    assert Before(table, j, |table| - 1);
    assert Follows(table[j].price, table[|table| - 1].price, cfg);
  }

  lemma {:induction false} SteadyClimbs(table: seq<Row>, n: nat, item: nat, cfg: Limits)
    requires n <= |table| && Steady(table, n, cfg) && cfg.maxRatio > 0.0
    requires forall i :: 0 <= i < |table| ==> table[i].price > 0
    ensures Climbs(PricesOf(table, item), Base(table, n, item), cfg.maxRatio)
    decreases |table|
  {
    if n == |table| {
      WholeBase(table, item);
    } else {
      var less := table[..|table| - 1];
      SteadyPrefix(table, n, cfg);
      SteadyClimbs(less, n, item, cfg);
      Shorter(table, n, item);
      if table[|table| - 1].item == item && PricesOf(less, item) != [] {
        LastStep(table, n, item, cfg);
      }
    }
  }

  /**
   * Main result: whatever prices the table began with, the k-th price kept after an item's last good one is at most
   * ratio^k times it.
   */
  lemma Compound(table: seq<Row>, n: nat, item: nat, cfg: Limits, k: nat)
    requires n <= |table| && Steady(table, n, cfg) && cfg.maxRatio > 0.0
    requires forall i :: 0 <= i < |table| ==> table[i].price > 0
    requires Base(table, n, item) + k < |PricesOf(table, item)|
    ensures Within(PricesOf(table, item), Base(table, n, item), k, cfg.maxRatio)
  {
    SteadyClimbs(table, n, item, cfg);
    ClimbsPower(PricesOf(table, item), Base(table, n, item), k, cfg.maxRatio);
  }

  lemma NextPower(x: real, first: real, power: real, r: real)
    requires x <= first * power && r > 0.0
    ensures x * r <= first * (power * r)
  {
    Scale(x, first * power, r);
    assert first * power * r == first * (power * r);
  }

  lemma Scale(x: real, y: real, r: real)
    requires x <= y && r > 0.0
    ensures x * r <= y * r
  {
  }
}
