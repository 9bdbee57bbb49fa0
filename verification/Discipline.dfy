/** The locking discipline that every transaction follows, and what it guarantees of a running transaction. */
module Discipline {
  import opened Model
  import opened Programs
  import opened Locking
  import opened Invariants

  ghost predicate Fits(k: Key, row: Row) {
    match k
    case GuildK(_) => row.GuildR?
    case WalletK(_) => row.WalletR?
    case LedgerK(_) => row.LedgerR?
    case ItemK(_) => row.ItemR?
    case ListingK(_) => row.ListingR?
    case AuctionK(_) => row.AuctionR?
    case BidK(_) => row.BidR?
    case DailyK(_, _) => row.DailyR?
  }

  /** Which lock covers which row: bids by their auction, daily totals and ledger entries by the guild's wallet. */
  ghost predicate MayWrite(k: Key, row: Row, s: Scope) {
    && Fits(k, row)
    && match k
       case GuildK(_) => false
       case WalletK(_) => k in s.locks
       case ItemK(_) => k in s.locks || k in s.owned
       case ListingK(_) => k in s.locks || k in s.owned
       case AuctionK(_) => (k in s.locks || k in s.owned) && row.auction.updatedAt <= s.last
       case LedgerK(_) => k in s.owned && WalletK(row.entry.guild) in s.locks
       case DailyK(g, d) => WalletK(g) in s.locks && d <= DayOf(s.last)
       case BidK(b) =>
         && AuctionK(row.bid.auction) in s.locks
         && (k in s.owned || b in s.bids)
         && (b in s.bids ==> s.bids[b] == row.bid.auction)
  }

  predicate Lockable(k: Key) { k.WalletK? || k.ItemK? || k.ListingK? || k.AuctionK? }

  predicate Issuable(k: Key) { k.ItemK? || k.ListingK? || k.AuctionK? || k.BidK? || k.LedgerK? }

  ghost predicate SafeRead(k: Key, next: Option<Row> -> Prog, s: Scope, n: nat)
    decreases n, 2
  {
    match k
    case GuildK(_) => forall r: Option<Row> :: (r.Some? ==> r.value.GuildR?) ==> Safe(next(r), s, n)
    case DailyK(g, _) =>
      WalletK(g) in s.locks && forall r: Option<Row> :: (r.Some? ==> r.value.DailyR?) ==> Safe(next(r), s, n)
    case BidK(b) =>
      if b in s.bids
      then forall bid: Bid :: bid.auction == s.bids[b] ==> Safe(next(Some(BidR(bid))), s, n)
      else
        && next(None).Abort?
        && forall bid: Bid ::
             if AuctionK(bid.auction) in s.locks then Safe(next(Some(BidR(bid))), Seen(s, k, Some(BidR(bid))), n)
             else next(Some(BidR(bid))).Abort?
    case _ => false
  }

  /** Within n statements p ends, and until then it reads and writes only rows its locks cover. */
  ghost predicate Safe(p: Prog, s: Scope, n: nat)
    decreases n, 1
  {
    match p
    case Commit => true
    case Abort(_) => true
    case Lock(k, next) =>
      && n > 0 && Lockable(k)
      && next(None).Abort?
      && forall row: Row :: Fits(k, row) ==> Safe(next(Some(row)), Granted(s, k, Some(row)), n - 1)
    case Read(k, next) => n > 0 && SafeRead(k, next, s, n - 1)
    case Write(k, row, rest) => n > 0 && MayWrite(k, row, s) && Safe(rest, s, n - 1)
    case Now(at) => n > 0 && forall t: nat :: s.last <= t ==> Safe(at(t), Told(s, t), n - 1)
    case NewId(ids, with) =>
      n > 0 && forall id: nat :: Safe(with(id), s.(owned := s.owned + {KeyOf(ids, id)}), n - 1)
  }

  ghost predicate BufferedBid(buf: Tables, s: Scope, store: Tables, b: nat)
    requires b in buf.bids
  {
    && AuctionK(buf.bids[b].auction) in s.locks
    && (BidK(b) in s.owned || (b in store.bids && store.bids[b].auction == buf.bids[b].auction))
  }

  ghost predicate BufferedRows(buf: Tables, s: Scope) {
    && buf.guilds == map[]
    && (forall g :: g in buf.wallets ==> WalletK(g) in s.locks)
    && (forall i :: i in buf.items ==> ItemK(i) in s.locks || ItemK(i) in s.owned)
    && (forall l :: l in buf.listings ==> ListingK(l) in s.locks || ListingK(l) in s.owned)
    && (forall a :: a in buf.auctions ==>
          (AuctionK(a) in s.locks || AuctionK(a) in s.owned) && buf.auctions[a].updatedAt <= s.last)
    && (forall e :: e in buf.ledger ==> LedgerK(e) in s.owned && WalletK(buf.ledger[e].guild) in s.locks)
    && (forall k :: k in buf.daily ==> WalletK(k.0) in s.locks && k.1 <= DayOf(s.last))
  }

  /** Every uncommitted row is covered by a lock or is new. */
  ghost predicate Buffered(buf: Tables, s: Scope, store: Tables) {
    && BufferedRows(buf, s)
    && (forall b :: b in buf.bids ==> BufferedBid(buf, s, store, b))
  }

  ghost predicate Known(view: Tables, s: Scope) {
    forall b :: b in s.bids ==> AuctionK(s.bids[b]) in s.locks && b in view.bids && view.bids[b].auction == s.bids[b]
  }

  ghost predicate Covered(k: Key, s: Scope) {
    k in s.locks || k in s.owned || k.GuildK? || (k.DailyK? && WalletK(k.guild) in s.locks) ||
        (k.BidK? && k.bid in s.bids)
  }

  ghost predicate Present(s: Scope, store: Tables) {
    forall k :: k in s.locks ==> Lockable(k) && (Find(store, k).Some? || k in s.owned)
  }

  ghost predicate New(s: Scope, store: Tables) {
    forall k :: k in s.owned ==> Issuable(k) && Find(store, k).None?
  }

  /** Rerun alone on the current committed rows, the transaction would be exactly where it is. */
  ghost predicate Consistent(p: Prog, l: Local, hist: seq<nat>, store: Tables) {
    && Forward(Start(p), store, hist, 0) == l
    && Sound(Start(p), store, hist, 0)
  }

  ghost predicate Guarded(l: Local, store: Tables, n: nat) {
    && Safe(l.prog, l.scope, n)
    && Buffered(l.buf, l.scope, store)
    && Known(View(l, store), l.scope)
    && (forall k :: k in l.looked ==> Covered(k, l.scope))
    && Present(l.scope, store)
    && New(l.scope, store)
  }

  // ---- One statement keeps the guarantees ----

  lemma HeadKnown(buf: Tables, s: Scope, store: Tables, a: nat)
    requires Buffered(buf, s, store) && New(s, store) && a in store.auctions && LeaderOk(store, a)
    requires store.auctions[a].highest.Some?
    ensures var h := store.auctions[a].highest.value;
            h in Overlay(store, buf).bids && Overlay(store, buf).bids[h].auction == a
  {
    var h := store.auctions[a].highest.value;
    assert BidK(h) !in s.owned;
    assert h in buf.bids ==> BufferedBid(buf, s, store, h);
  }

  /** A lock on an auction makes its leader's bid known: the committed rows agree that it is a bid on that auction. */
  lemma GrantedKnown(l: Local, store: Tables, k: Key)
    requires Buffered(l.buf, l.scope, store) && Known(View(l, store), l.scope) && New(l.scope, store)
    requires forall a :: a in store.auctions ==> LeaderOk(store, a)
    ensures Known(View(l, store), Granted(l.scope, k, Find(View(l, store), k)))
  {
    var r := Find(View(l, store), k);
    if Granted(l.scope, k, r).bids != l.scope.bids {
      assert k.auction !in l.buf.auctions;
      HeadKnown(l.buf, l.scope, store, k.auction);
      OneMoreKnown(View(l, store), l.scope, r.value.auction.highest.value, k.auction);
    }
  }

  lemma OneMoreKnown(view: Tables, s: Scope, b: nat, a: nat)
    requires Known(view, s) && b in view.bids && view.bids[b].auction == a
    ensures Known(view, s.(locks := s.locks + {AuctionK(a)}, bids := s.bids[b := a]))
  {
  }

  lemma LockKeeps(l: Local, store: Tables, x: nat, n: nat)
    requires Guarded(l, store, n) && l.prog.Lock?
    requires forall a :: a in store.auctions ==> LeaderOk(store, a)
    requires !Next(l, store, x).prog.Abort?
    ensures n > 0 && Guarded(Next(l, store, x), store, n - 1)
  {
    var k := l.prog.k;
    var r := Find(View(l, store), k);
    var l' := Next(l, store, x);
    OverlayFind(store, l.buf, k);
    assert r.Some? && Fits(k, r.value);
    assert Safe(l'.prog, l'.scope, n - 1);
    GrantedKnown(l, store, k);
    BufferedMore(l.buf, l.scope, l'.scope, store);
  }

  lemma BufferedMore(buf: Tables, s: Scope, s': Scope, store: Tables)
    requires Buffered(buf, s, store)
    requires s.locks <= s'.locks && s.owned <= s'.owned && s.last <= s'.last
    ensures Buffered(buf, s', store)
  {
    DayMonotone(s.last, s'.last);
    forall b | b in buf.bids ensures BufferedBid(buf, s', store, b) {
      assert BufferedBid(buf, s, store, b);
    }
  }

  /** What an unlocked read returns is what the discipline allows for. */
  lemma ReadSafe(k: Key, next: Option<Row> -> Prog, s: Scope, n: nat, view: Tables)
    requires SafeRead(k, next, s, n) && Known(view, s) && !next(Find(view, k)).Abort?
    ensures Safe(next(Find(view, k)), Seen(s, k, Find(view, k)), n)
    ensures Known(view, Seen(s, k, Find(view, k))) && Covered(k, Seen(s, k, Find(view, k)))
  {
    var r := Find(view, k);
    if k.BidK? {
      assert r.Some? && r.value.BidR?;
      var bid := r.value.bid;
      assert r == Some(BidR(bid));
    }
  }

  lemma ReadKeeps(l: Local, store: Tables, x: nat, n: nat)
    requires Guarded(l, store, n) && l.prog.Read?
    requires !Next(l, store, x).prog.Abort?
    ensures n > 0 && Guarded(Next(l, store, x), store, n - 1)
  {
    var l' := Next(l, store, x);
    ReadSafe(l.prog.k, l.prog.next, l.scope, n - 1, View(l, store));
    assert Safe(l'.prog, l'.scope, n - 1);
    BufferedMore(l.buf, l.scope, l'.scope, store);
  }

  lemma WriteKeeps(l: Local, store: Tables, x: nat, n: nat)
    requires Guarded(l, store, n) && l.prog.Write?
    ensures n > 0 && Guarded(Next(l, store, x), store, n - 1)
  {
    var k, row := l.prog.k, l.prog.row;
    var l' := Next(l, store, x);
    assert Safe(l'.prog, l'.scope, n - 1);
    OverlayPut(store, l.buf, k, row);
    WriteBuffered(l.buf, l.scope, store, k, row);
    WriteKnown(View(l, store), l.scope, k, row);
  }

  lemma WriteBuffered(buf: Tables, s: Scope, store: Tables, k: Key, row: Row)
    requires Buffered(buf, s, store) && Known(Overlay(store, buf), s) && MayWrite(k, row, s)
    ensures Buffered(Put(buf, k, row), s, store)
  {
    if k.BidK? {
      WriteBid(buf, s, store, k.bid, row.bid);
    } else {
      WriteRow(buf, s, k, row);
      var buf' := Put(buf, k, row);
      forall b | b in buf'.bids ensures BufferedBid(buf', s, store, b) {
        assert BufferedBid(buf, s, store, b);
      }
    }
  }

  lemma WriteRow(buf: Tables, s: Scope, k: Key, row: Row)
    requires BufferedRows(buf, s) && MayWrite(k, row, s) && !k.BidK?
    ensures BufferedRows(Put(buf, k, row), s) && Put(buf, k, row).bids == buf.bids
  {
    if k.WalletK? || k.ItemK? || k.ListingK? {
      WriteLocked(buf, s, k, row);
    } else {
      WriteStamped(buf, s, k, row);
    }
  }

  lemma WriteLocked(buf: Tables, s: Scope, k: Key, row: Row)
    requires BufferedRows(buf, s) && MayWrite(k, row, s) && (k.WalletK? || k.ItemK? || k.ListingK?)
    ensures BufferedRows(Put(buf, k, row), s) && Put(buf, k, row).bids == buf.bids
  {
    if k.WalletK? {
      WriteWallet(buf, s, k.guild, row.wallet);
    } else if k.ItemK? {
      WriteItem(buf, s, k.item, row.item);
    } else {
      WriteListing(buf, s, k.listing, row.listing);
    }
  }

  lemma WriteWallet(buf: Tables, s: Scope, g: nat, row: Wallet)
    requires BufferedRows(buf, s) && MayWrite(WalletK(g), WalletR(row), s)
    ensures BufferedRows(buf.(wallets := buf.wallets[g := row]), s)
  {
  }

  lemma WriteItem(buf: Tables, s: Scope, i: nat, row: Item)
    requires BufferedRows(buf, s) && MayWrite(ItemK(i), ItemR(row), s)
    ensures BufferedRows(buf.(items := buf.items[i := row]), s)
  {
  }

  lemma WriteListing(buf: Tables, s: Scope, l: nat, row: Listing)
    requires BufferedRows(buf, s) && MayWrite(ListingK(l), ListingR(row), s)
    ensures BufferedRows(buf.(listings := buf.listings[l := row]), s)
  {
  }

  lemma WriteStamped(buf: Tables, s: Scope, k: Key, row: Row)
    requires BufferedRows(buf, s) && MayWrite(k, row, s) && (k.AuctionK? || k.LedgerK? || k.DailyK?)
    ensures BufferedRows(Put(buf, k, row), s) && Put(buf, k, row).bids == buf.bids
  {
    if k.AuctionK? {
      WriteAuction(buf, s, k.auction, row.auction);
    } else if k.LedgerK? {
      WriteEntry(buf, s, k.entry, row.entry);
    } else {
      WriteDaily(buf, s, k.guild, k.day, row.spent);
    }
  }

  lemma WriteAuction(buf: Tables, s: Scope, a: nat, row: Auction)
    requires BufferedRows(buf, s) && MayWrite(AuctionK(a), AuctionR(row), s)
    ensures BufferedRows(buf.(auctions := buf.auctions[a := row]), s)
  {
  }

  lemma WriteEntry(buf: Tables, s: Scope, e: nat, row: Entry)
    requires BufferedRows(buf, s) && MayWrite(LedgerK(e), LedgerR(row), s)
    ensures BufferedRows(buf.(ledger := buf.ledger[e := row]), s)
  {
  }

  lemma WriteDaily(buf: Tables, s: Scope, g: nat, d: nat, spent: int)
    requires BufferedRows(buf, s) && MayWrite(DailyK(g, d), DailyR(spent), s)
    ensures BufferedRows(buf.(daily := buf.daily[(g, d) := spent]), s)
  {
  }

  lemma WriteBid(buf: Tables, s: Scope, store: Tables, b: nat, bid: Bid)
    requires Buffered(buf, s, store) && Known(Overlay(store, buf), s) && MayWrite(BidK(b), BidR(bid), s)
    ensures Buffered(buf.(bids := buf.bids[b := bid]), s, store)
  {
    var buf' := buf.(bids := buf.bids[b := bid]);
    assert b in buf.bids ==> BufferedBid(buf, s, store, b);
    forall c | c in buf'.bids ensures BufferedBid(buf', s, store, c) {
      assert c != b ==> BufferedBid(buf, s, store, c);
    }
  }

  lemma WriteKnown(view: Tables, s: Scope, k: Key, row: Row)
    requires Known(view, s) && MayWrite(k, row, s)
    ensures Known(Put(view, k, row), s)
  {
  }

  /** More ids and a later reading take nothing away from what a transaction's locks and rows guarantee. */
  lemma ScopeMore(l: Local, s': Scope, store: Tables)
    requires Buffered(l.buf, l.scope, store) && Known(View(l, store), l.scope) && Present(l.scope, store)
    requires forall k :: k in l.looked ==> Covered(k, l.scope)
    requires s'.locks == l.scope.locks && l.scope.owned <= s'.owned && s'.bids == l.scope.bids &&
        l.scope.last <= s'.last
    ensures Buffered(l.buf, s', store) && Known(View(l, store), s') && Present(s', store)
    ensures forall k :: k in l.looked ==> Covered(k, s')
  {
    BufferedMore(l.buf, l.scope, s', store);
  }

  lemma NowKeeps(l: Local, store: Tables, x: nat, n: nat)
    requires Guarded(l, store, n) && l.prog.Now? && l.scope.last <= x
    ensures n > 0 && Guarded(Next(l, store, x), store, n - 1)
  {
    ScopeMore(l, Told(l.scope, x), store);
  }

  lemma NewIdKeeps(l: Local, store: Tables, x: nat, n: nat)
    requires Guarded(l, store, n) && l.prog.NewId? && Find(store, KeyOf(l.prog.ids, x)).None?
    ensures n > 0 && Guarded(Next(l, store, x), store, n - 1)
  {
    ScopeMore(l, l.scope.(owned := l.scope.owned + {KeyOf(l.prog.ids, x)}), store);
  }

  lemma StatementKeeps(l: Local, store: Tables, x: nat, n: nat)
    requires Guarded(l, store, n) && InputOk(store, l.prog, l.scope, x) && !l.prog.Commit? && !l.prog.Abort?
    requires forall a :: a in store.auctions ==> LeaderOk(store, a)
    requires !Next(l, store, x).prog.Abort?
    ensures n > 0 && Guarded(Next(l, store, x), store, n - 1)
  {
    match l.prog {
      case Lock(_, _) => LockKeeps(l, store, x, n);
      case Read(_, _) => ReadKeeps(l, store, x, n);
      case Write(_, _, _) => WriteKeeps(l, store, x, n);
      case Now(_) => NowKeeps(l, store, x, n);
      case NewId(_, _) => NewIdKeeps(l, store, x, n);
    }
  }

  lemma ConsistentNext(p: Prog, l: Local, hist: seq<nat>, store: Tables, x: nat)
    requires Consistent(p, l, hist, store) && InputOk(store, l.prog, l.scope, x)
    ensures Consistent(p, Next(l, store, x), hist + [x], store)
  {
    ForwardSnoc(Start(p), store, hist, 0, x);
  }

  // ---- A commit of another transaction keeps the guarantees ----

  /** Two transactions that hold no lock and drew no id in common. */
  ghost predicate Disjoint(s: Scope, t: Scope) { s.locks !! t.locks && s.owned !! t.owned }

  /** The committing transaction t writes nothing that s looked at. */
  lemma CommitUnseen(l: Local, buf: Tables, t: Scope, store: Tables, k: Key)
    requires Known(View(l, store), l.scope) && Buffered(l.buf, l.scope, store) && Covered(k, l.scope)
    requires Present(l.scope, store) && New(l.scope, store)
    requires Buffered(buf, t, store) && Present(t, store) && New(t, store) && Disjoint(l.scope, t)
    ensures Find(Overlay(store, buf), k) == Find(store, k)
  {
    OverlayFind(store, buf, k);
    if k.BidK? && k.bid in buf.bids {
      var b := k.bid;
      assert BufferedBid(buf, t, store, b);
      if b in l.scope.bids {
        assert b in l.buf.bids ==> BufferedBid(l.buf, l.scope, store, b);
      }
    }
  }

  lemma CommitApart(s: Scope, buf: Tables, t: Scope, store: Tables)
    requires Present(s, store) && New(s, store)
    requires Buffered(buf, t, store) && Present(t, store) && New(t, store) && Disjoint(s, t)
    ensures Apart(store, Overlay(store, buf), s.locks, s.owned)
    ensures New(s, Overlay(store, buf)) && Present(s, Overlay(store, buf))
  {
    CommitLeavesNew(s, buf, t, store);
    forall k | k in s.locks ensures Find(Overlay(store, buf), k).Some? || k in s.owned {
      OverlayFind(store, buf, k);
    }
    BidsApart(s, buf, t, store);
  }

  lemma CommitLeavesNew(s: Scope, buf: Tables, t: Scope, store: Tables)
    requires New(s, store) && Buffered(buf, t, store) && Present(t, store) && New(t, store) && Disjoint(s, t)
    ensures New(s, Overlay(store, buf))
  {
    forall k | k in s.owned ensures Find(Overlay(store, buf), k).None? {
      OverlayFind(store, buf, k);
      assert k.BidK? && k.bid in buf.bids ==> BufferedBid(buf, t, store, k.bid);
    }
  }

  /** No bid that is committed belongs to an auction locked by another transaction. */
  lemma BidsApart(s: Scope, buf: Tables, t: Scope, store: Tables)
    requires Buffered(buf, t, store) && Disjoint(s, t)
    ensures forall b :: b in buf.bids ==> AuctionK(buf.bids[b].auction) !in s.locks
  {
    forall b | b in buf.bids ensures AuctionK(buf.bids[b].auction) !in s.locks {
      assert BufferedBid(buf, t, store, b);
    }
  }

  lemma CommitBuffered(l: Local, buf: Tables, t: Scope, store: Tables)
    requires Buffered(l.buf, l.scope, store) && Buffered(buf, t, store) && New(t, store)
    ensures Buffered(l.buf, l.scope, Overlay(store, buf))
  {
    forall b | b in l.buf.bids ensures BufferedBid(l.buf, l.scope, Overlay(store, buf), b) {
      BidStaysBuffered(l, buf, t, store, b);
    }
  }

  lemma BidStaysBuffered(l: Local, buf: Tables, t: Scope, store: Tables, b: nat)
    requires b in l.buf.bids && BufferedBid(l.buf, l.scope, store, b) && Buffered(buf, t, store) && New(t, store)
    ensures BufferedBid(l.buf, l.scope, Overlay(store, buf), b)
  {
    assert b in buf.bids ==> BufferedBid(buf, t, store, b);
  }

  /** A committed bid row never moves to another auction. */
  lemma BidKeepsAuction(buf: Tables, t: Scope, store: Tables, b: nat)
    requires Buffered(buf, t, store) && New(t, store) && b in store.bids
    ensures b in Overlay(store, buf).bids && Overlay(store, buf).bids[b].auction == store.bids[b].auction
  {
    assert b in buf.bids ==> BufferedBid(buf, t, store, b);
  }

  lemma CommitKnown(l: Local, buf: Tables, t: Scope, store: Tables)
    requires Known(View(l, store), l.scope) && Buffered(buf, t, store) && New(t, store)
    ensures Known(View(l, Overlay(store, buf)), l.scope)
  {
    forall b | b in l.scope.bids
      ensures b in View(l, Overlay(store, buf)).bids && View(l, Overlay(store, buf)).bids[b].auction == l.scope.bids[b]
    {
      BidStaysKnown(l, buf, t, store, b);
    }
  }

  lemma BidStaysKnown(l: Local, buf: Tables, t: Scope, store: Tables, b: nat)
    requires Buffered(buf, t, store) && New(t, store) && b in View(l, store).bids
    ensures b in View(l, Overlay(store, buf)).bids
    ensures View(l, Overlay(store, buf)).bids[b].auction == View(l, store).bids[b].auction
  {
    if b !in l.buf.bids {
      BidKeepsAuction(buf, t, store, b);
    }
  }

  /** The heart of the argument: what t commits cannot be noticed by l, whose locks cover all it has looked at. */
  lemma CommitUnnoticed(p: Prog, l: Local, hist: seq<nat>, buf: Tables, t: Scope, store: Tables, n: nat)
    requires Guarded(l, store, n) && Consistent(p, l, hist, store)
    requires Buffered(buf, t, store) && Present(t, store) && New(t, store) && Disjoint(l.scope, t)
    ensures Guarded(l, Overlay(store, buf), n) && Consistent(p, l, hist, Overlay(store, buf))
  {
    forall k | k in l.looked ensures Find(Overlay(store, buf), k) == Find(store, k) {
      CommitUnseen(l, buf, t, store, k);
    }
    CommitApart(l.scope, buf, t, store);
    CommitBuffered(l, buf, t, store);
    CommitKnown(l, buf, t, store);
    Replayed(Start(p), store, Overlay(store, buf), hist, 0);
  }
}
