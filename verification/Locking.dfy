/**
 * Concurrent transactions at the granularity of single statements, under READ COMMITTED: a transaction sees the
 * committed rows and its own writes, its writes become visible to others when it commits, and the row locks it takes
 * are held until it ends.
 */
module Locking {
  import opened Model
  import opened Programs

  // ---- One transaction ----

  /**
   * What a running transaction holds: locks, the ids it drew, the auctions of bids it knows, its last clock reading and
   * all of them.
   */
  datatype Scope = Scope(locks: set<Key>, owned: set<Key>, bids: map<nat, nat>, last: nat, times: set<nat>)

  datatype Local = Local(prog: Prog, buf: Tables, scope: Scope, looked: set<Key>)

  const NoRows: Tables := Tables(map[], map[], map[], map[], map[], map[], map[], map[])
  const NoScope: Scope := Scope({}, {}, map[], 0, {})

  function Start(p: Prog): Local { Local(p, NoRows, NoScope, {}) }

  /** The rows of `over` where it has them, of `under` elsewhere. */
  function Overlay(under: Tables, over: Tables): Tables {
    Tables(under.guilds + over.guilds, under.wallets + over.wallets, under.ledger + over.ledger,
           under.items + over.items, under.listings + over.listings, under.auctions + over.auctions,
           under.bids + over.bids, under.daily + over.daily)
  }

  function View(l: Local, store: Tables): Tables { Overlay(store, l.buf) }

  /** A lock on an auction first taken makes its leader's bid known to belong to it. */
  function Granted(s: Scope, k: Key, r: Option<Row>): Scope {
    if r.None? then s
    else
      s.(locks := s.locks + {k},
         bids := if k.AuctionK? && r.value.AuctionR? && k !in s.locks && k !in s.owned && r.value.auction.highest.Some?
                 then s.bids[r.value.auction.highest.value := k.auction] else s.bids)
  }

  /** The scope after a movement of guild g's money recorded under ledger id e. */
  function Moved(s: Scope, g: nat, e: nat): Scope {
    s.(locks := s.locks + {WalletK(g)}, owned := s.owned + {LedgerK(e)})
  }

  function Told(s: Scope, t: nat): Scope { s.(last := t, times := s.times + {t}) }

  function Seen(s: Scope, k: Key, r: Option<Row>): Scope {
    if k.BidK? && k.bid !in s.bids && r.Some? && r.value.BidR? && AuctionK(r.value.bid.auction) in s.locks
    then s.(bids := s.bids[k.bid := r.value.bid.auction]) else s
  }

  /** One statement; `x` is the clock reading or the new id when it asks for one. */
  function Next(l: Local, store: Tables, x: nat): Local {
    match l.prog
    case Commit => l
    case Abort(_) => l
    case Lock(k, next) =>
      var r := Find(View(l, store), k);
      l.(prog := next(r), scope := Granted(l.scope, k, r), looked := l.looked + {k})
    case Read(k, next) =>
      var r := Find(View(l, store), k);
      l.(prog := next(r), scope := Seen(l.scope, k, r), looked := l.looked + {k})
    case Write(k, row, rest) => l.(prog := rest, buf := Put(l.buf, k, row))
    case Now(at) => l.(prog := at(x), scope := Told(l.scope, x))
    case NewId(ids, with) => l.(prog := with(x), scope := l.scope.(owned := l.scope.owned + {KeyOf(ids, x)}))
  }

  /** The statements of `hist` from number i on, run against one committed state. */
  function Forward(l: Local, store: Tables, hist: seq<nat>, i: nat): Local
    decreases |hist| - i
  {
    if i >= |hist| then l else Forward(Next(l, store, hist[i]), store, hist, i + 1)
  }

  // ---- What a clock reading or a new id is known to satisfy ----

  ghost predicate TimeOk(store: Tables, s: Scope, t: nat) {
    && s.last <= t
    && (forall a :: a in store.auctions && AuctionK(a) in s.locks ==> store.auctions[a].updatedAt <= t)
    && (forall k :: k in store.daily && WalletK(k.0) in s.locks ==> k.1 <= DayOf(t))
  }

  ghost predicate IdOk(store: Tables, s: Scope, ids: Serial, id: nat) {
    && Find(store, KeyOf(ids, id)).None?
    && (ids == BidIds ==> forall b :: b in store.bids && AuctionK(store.bids[b].auction) in s.locks ==> b < id)
    && (ids == LedgerIds ==>
          && (forall e :: e in store.ledger && WalletK(store.ledger[e].guild) in s.locks ==> e < id)
          && (forall e: nat :: LedgerK(e) in s.owned ==> e < id))
  }

  ghost predicate InputOk(store: Tables, p: Prog, s: Scope, x: nat) {
    && (p.Now? ==> TimeOk(store, s, x))
    && (p.NewId? ==> IdOk(store, s, p.ids, x))
  }

  ghost predicate Sound(l: Local, store: Tables, hist: seq<nat>, i: nat)
    decreases |hist| - i
  {
    i >= |hist| || (InputOk(store, l.prog, l.scope, hist[i]) && Sound(Next(l, store, hist[i]), store, hist, i + 1))
  }

  lemma {:induction false} ForwardSnoc(l: Local, store: Tables, hist: seq<nat>, i: nat, x: nat)
    requires i <= |hist|
    ensures Forward(l, store, hist + [x], i) == Next(Forward(l, store, hist, i), store, x)
    ensures Sound(l, store, hist + [x], i) <==>
            Sound(l, store, hist, i) &&
            InputOk(store, Forward(l, store, hist, i).prog, Forward(l, store, hist, i).scope, x)
    decreases |hist| - i
  {
    if i == |hist| {
      assert Forward(Next(l, store, x), store, hist + [x], i + 1) == Next(l, store, x);
    } else {
      assert (hist + [x])[i] == hist[i];
      ForwardSnoc(Next(l, store, hist[i]), store, hist, i + 1, x);
    }
  }

  lemma {:induction false} LookedGrows(l: Local, store: Tables, hist: seq<nat>, i: nat)
    ensures l.looked <= Forward(l, store, hist, i).looked
    ensures l.scope.locks <= Forward(l, store, hist, i).scope.locks
    ensures l.scope.owned <= Forward(l, store, hist, i).scope.owned
    ensures l.scope.times <= Forward(l, store, hist, i).scope.times
    decreases |hist| - i
  {
    if i < |hist| {
      LookedGrows(Next(l, store, hist[i]), store, hist, i + 1);
    }
  }

  /** A change of the committed rows that a transaction with locks and ids `s` cannot notice. */
  ghost predicate Apart(store: Tables, store': Tables, locks: set<Key>, owned: set<Key>) {
    && (forall k :: k in owned && Find(store, k).None? ==> Find(store', k).None?)
    && (forall a :: a in store'.auctions && AuctionK(a) in locks ==>
          a in store.auctions && store'.auctions[a] == store.auctions[a])
    && (forall k :: k in store'.daily && WalletK(k.0) in locks ==> k in store.daily)
    && (forall b :: b in store'.bids && AuctionK(store'.bids[b].auction) in locks ==>
          b in store.bids && store.bids[b].auction == store'.bids[b].auction)
    && (forall e :: e in store'.ledger && WalletK(store'.ledger[e].guild) in locks ==>
          e in store.ledger && store.ledger[e].guild == store'.ledger[e].guild)
  }

  lemma ApartSmaller(store: Tables, store': Tables, locks: set<Key>, owned: set<Key>, fewer: set<Key>, less: set<Key>)
    requires Apart(store, store', locks, owned) && fewer <= locks && less <= owned
    ensures Apart(store, store', fewer, less)
  {
  }

  lemma ApartInput(store: Tables, store': Tables, p: Prog, s: Scope, x: nat, owned: set<Key>)
    requires InputOk(store, p, s, x) && Apart(store, store', s.locks, owned)
    requires p.NewId? ==> KeyOf(p.ids, x) in owned
    ensures InputOk(store', p, s, x)
  {
  }

  /** Rerunning the statements against changed rows that were not read gives the same private state. */
  lemma {:induction false} Replayed(l: Local, store: Tables, store': Tables, hist: seq<nat>, i: nat)
    requires forall k :: k in Forward(l, store, hist, i).looked ==> Find(store', k) == Find(store, k)
    requires Apart(store, store', Forward(l, store, hist, i).scope.locks, Forward(l, store, hist, i).scope.owned)
    ensures Forward(l, store', hist, i) == Forward(l, store, hist, i)
    ensures Sound(l, store, hist, i) ==> Sound(l, store', hist, i)
    decreases |hist| - i
  {
    if i < |hist| {
      var n := Next(l, store, hist[i]);
      LookedGrows(n, store, hist, i + 1);
      var end := Forward(l, store, hist, i);
      assert Next(l, store', hist[i]) == n by {
        if l.prog.Lock? || l.prog.Read? {
          assert l.prog.k in n.looked;
          OverlayFind(store, l.buf, l.prog.k);
          OverlayFind(store', l.buf, l.prog.k);
        }
      }
      Replayed(n, store, store', hist, i + 1);
      if InputOk(store, l.prog, l.scope, hist[i]) {
        LookedGrows(l, store, hist, i);
        ApartSmaller(store, store', end.scope.locks, end.scope.owned, l.scope.locks, n.scope.owned);
        ApartInput(store, store', l.prog, l.scope, hist[i], n.scope.owned);
      }
    }
  }

  lemma OverlayFind(under: Tables, over: Tables, k: Key)
    ensures Find(Overlay(under, over), k) == if Find(over, k).Some? then Find(over, k) else Find(under, k)
  {
  }

  lemma UpdateAfter<K, V>(under: map<K, V>, over: map<K, V>, k: K, v: V)
    ensures under + over[k := v] == (under + over)[k := v]
  {
  }

  lemma OverlayPut(under: Tables, over: Tables, k: Key, row: Row)
    ensures Overlay(under, Put(over, k, row)) == Put(Overlay(under, over), k, row)
  {
    if k.WalletK? || k.LedgerK? || k.ItemK? {
      OverlayPutFirst(under, over, k, row);
    } else {
      OverlayPutRest(under, over, k, row);
    }
  }

  lemma OverlayPutFirst(under: Tables, over: Tables, k: Key, row: Row)
    requires k.WalletK? || k.LedgerK? || k.ItemK?
    ensures Overlay(under, Put(over, k, row)) == Put(Overlay(under, over), k, row)
  {
    match (k, row) {
      case (WalletK(g), WalletR(w)) => UpdateAfter(under.wallets, over.wallets, g, w);
      case (LedgerK(e), LedgerR(x)) => UpdateAfter(under.ledger, over.ledger, e, x);
      case (ItemK(i), ItemR(x)) => UpdateAfter(under.items, over.items, i, x);
      case _ =>
    }
  }

  lemma OverlayPutRest(under: Tables, over: Tables, k: Key, row: Row)
    requires !k.WalletK? && !k.LedgerK? && !k.ItemK?
    ensures Overlay(under, Put(over, k, row)) == Put(Overlay(under, over), k, row)
  {
    match (k, row) {
      case (ListingK(l), ListingR(x)) => UpdateAfter(under.listings, over.listings, l, x);
      case (AuctionK(a), AuctionR(x)) => UpdateAfter(under.auctions, over.auctions, a, x);
      case (BidK(b), BidR(x)) => UpdateAfter(under.bids, over.bids, b, x);
      case (DailyK(g, d), DailyR(x)) => UpdateAfter(under.daily, over.daily, (g, d), x);
      case _ =>
    }
  }
}
