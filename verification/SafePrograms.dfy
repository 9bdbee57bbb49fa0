/** Every transaction follows the locking discipline and ends after a bounded number of statements. */
module SafePrograms {
  import opened Model
  import opened Rules
  import opened Programs
  import opened Locking
  import opened Discipline

  lemma MoveSafe(g: nat, kind: EntryKind, amount: int, ref: Ref, rest: Prog, s: Scope, n: nat)
    requires n >= 4 && forall e: nat :: Safe(rest, Moved(s, g, e), n - 4)
    ensures Safe(Move(g, kind, amount, ref, rest), s, n)
  {
    forall row: Row | Fits(WalletK(g), row)
      ensures Safe(MoveLocked(g, kind, amount, ref, rest, Some(row)), Granted(s, WalletK(g), Some(row)), n - 1)
    {
      MoveLockedSafe(g, kind, amount, ref, rest, s, n, row);
    }
  }

  lemma MoveLockedSafe(g: nat, kind: EntryKind, amount: int, ref: Ref, rest: Prog, s: Scope, n: nat, row: Row)
    requires n >= 4 && (forall e: nat :: Safe(rest, Moved(s, g, e), n - 4)) && row.WalletR?
    ensures Safe(MoveLocked(g, kind, amount, ref, rest, Some(row)), Granted(s, WalletK(g), Some(row)), n - 1)
  {
    var s1 := Granted(s, WalletK(g), Some(row));
    var record := (e: nat) => Write(LedgerK(e), LedgerR(Entry(g, kind, amount, ref)), rest);
    forall e: nat ensures Safe(record(e), s1.(owned := s1.owned + {LedgerK(e)}), n - 3) {
      assert s1.(owned := s1.owned + {LedgerK(e)}) == Moved(s, g, e);
    }
    assert Safe(NewId(LedgerIds, record), s1, n - 2);
  }

  lemma ItemSafe(owner: nat, name: string, tier: Option<Tier>, stock: int, s: Scope, n: nat)
    requires n >= 3
    ensures Safe(ItemProg(owner, name, tier, stock), s, n)
  {
    if tier.Some? {
      var it := Item(name, tier.value, owner, Available, if tier == Some(Legendary) then 1 else stock);
      var fill := (i: nat) => Write(ItemK(i), ItemR(it), Commit);
      forall i: nat ensures Safe(fill(i), s.(owned := s.owned + {ItemK(i)}), n - 2) { }
      assert Safe(NewId(ItemIds, fill), s, n - 1);
    }
  }

  lemma ListingSafe(seller: nat, item: nat, price: int, s: Scope, n: nat)
    requires n >= 3
    ensures Safe(ListingProg(seller, item, price), s, n)
  {
    forall row: Row | row.ItemR?
      ensures Safe(ListLocked(seller, item, price, Some(row)), Granted(s, ItemK(item), Some(row)), n - 1)
    {
    }
  }

  lemma AuctionSafe(cfg: Config, seller: nat, item: nat, s: Scope, n: nat)
    requires n >= 5
    ensures Safe(AuctionProg(cfg, seller, item), s, n)
  {
    forall row: Row | row.ItemR?
      ensures Safe(OpenLocked(cfg, seller, item, Some(row)), Granted(s, ItemK(item), Some(row)), n - 1)
    {
      OpenSafe(cfg, seller, item, row.item, Granted(s, ItemK(item), Some(row)), n - 1);
    }
  }

  lemma OpenSafe(cfg: Config, seller: nat, item: nat, it: Item, s: Scope, n: nat)
    requires n >= 4 && ItemK(item) in s.locks
    ensures Safe(OpenLocked(cfg, seller, item, Some(ItemR(it))), s, n)
  {
    forall t0: nat, a: nat | s.last <= t0
      ensures Safe(OpenSave(cfg, seller, item, it, t0, a), Told(s, t0).(owned := s.owned + {AuctionK(a)}), n - 2)
    {
      OpenSaveSafe(cfg, seller, item, it, t0, a, Told(s, t0).(owned := s.owned + {AuctionK(a)}), n - 2);
    }
  }

  lemma OpenSaveSafe(cfg: Config, seller: nat, item: nat, it: Item, t0: nat, a: nat, s: Scope, n: nat)
    requires n >= 2 && ItemK(item) in s.locks && AuctionK(a) in s.owned && t0 <= s.last
    ensures Safe(OpenSave(cfg, seller, item, it, t0, a), s, n)
  {
    assert Safe(Write(ItemK(item), ItemR(it.(status := InAuction)), Commit), s, n - 1);
  }

  // ---- Buy ----

  lemma BuyTotalSafe(buyer: nat, id: nat, l: Listing, s: Scope, n: nat)
    requires n >= 4 && WalletK(buyer) in s.locks && ListingK(id) in s.locks
    ensures Safe(BuyTotal(buyer, id, l), s, n)
  {
    forall t1: nat, r | s.last <= t1 ensures Safe(BuyLast(buyer, id, l, t1, r), Told(s, t1), n - 2) {
      BuyLastSafe(buyer, id, l, t1, r, Told(s, t1), n - 2);
    }
  }

  lemma BuyLastSafe(buyer: nat, id: nat, l: Listing, t1: nat, r: Option<Row>, s: Scope, n: nat)
    requires n >= 2 && WalletK(buyer) in s.locks && ListingK(id) in s.locks && t1 <= s.last
    ensures Safe(BuyLast(buyer, id, l, t1, r), s, n)
  {
    DayMonotone(t1, s.last);
    assert Safe(Write(ListingK(id), ListingR(l.(status := ListingSold, buyer := Some(buyer))), Commit), s, n - 1);
  }

  lemma BuyPaidSafe(buyer: nat, id: nat, l: Listing, it: Item, s: Scope, n: nat)
    requires n >= 7 && WalletK(buyer) in s.locks && ListingK(id) in s.locks && ItemK(l.item) in s.locks
    ensures Safe(BuyPaid(buyer, id, l, it), s, n)
  {
    var bought := Item(it.name, it.tier, buyer, Available, 1);
    var grant := (i: nat) => Write(ItemK(i), ItemR(bought), BuyTotal(buyer, id, l));
    forall i: nat ensures Safe(grant(i), s.(owned := s.owned + {ItemK(i)}), n - 2) {
      BuyTotalSafe(buyer, id, l, s.(owned := s.owned + {ItemK(i)}), n - 3);
    }
    assert Safe(NewId(ItemIds, grant), s, n - 1);
  }

  lemma BuyCheckedSafe(buyer: nat, id: nat, l: Listing, it: Item, cap: nat, spent: int, s: Scope, n: nat)
    requires n >= 15 && ListingK(id) in s.locks && ItemK(l.item) in s.locks
    ensures Safe(BuyChecked(buyer, id, l, it, cap, spent), s, n)
  {
    var ref := ListingRef(id);
    var paid := BuyPaid(buyer, id, l, it);
    forall e: nat ensures Safe(Move(l.seller, Credited, l.price, ref, paid), Moved(s, buyer, e), n - 4) {
      var s1 := Moved(s, buyer, e);
      forall f: nat ensures Safe(paid, Moved(s1, l.seller, f), n - 8) {
        BuyPaidSafe(buyer, id, l, it, Moved(s1, l.seller, f), n - 8);
      }
      MoveSafe(l.seller, Credited, l.price, ref, paid, s1, n - 4);
    }
    MoveSafe(buyer, Debited, l.price, ref, Move(l.seller, Credited, l.price, ref, paid), s, n);
  }

  lemma BuyGuildSafe(buyer: nat, id: nat, l: Listing, it: Item, r: Option<Row>, s: Scope, n: nat)
    requires n >= 17 && WalletK(buyer) in s.locks && ListingK(id) in s.locks && ItemK(l.item) in s.locks
    ensures Safe(BuyGuild(buyer, id, l, it, r), s, n)
  {
    forall cap: nat, spent, t0: nat | s.last <= t0
      ensures Safe(BuyChecked(buyer, id, l, it, cap, spent), Told(s, t0), n - 2)
    {
      BuyCheckedSafe(buyer, id, l, it, cap, spent, Told(s, t0), n - 2);
    }
  }

  lemma BuyWalletSafe(buyer: nat, id: nat, l: Listing, it: Item, r: Option<Row>, s: Scope, n: nat)
    requires n >= 18 && (r.Some? ==> WalletK(buyer) in s.locks) && ListingK(id) in s.locks && ItemK(l.item) in s.locks
    ensures Safe(BuyWallet(buyer, id, l, it, r), s, n)
  {
    if r.Some? {
      forall q ensures Safe(BuyGuild(buyer, id, l, it, q), s, n - 1) {
        BuyGuildSafe(buyer, id, l, it, q, s, n - 1);
      }
    }
  }

  lemma BuyItemSafe(buyer: nat, id: nat, l: Listing, r: Row, s: Scope, n: nat)
    requires n >= 19 && ListingK(id) in s.locks && ItemK(l.item) in s.locks
    ensures Safe(BuyItem(buyer, id, l, Some(r)), s, n)
  {
    if r.ItemR? {
      forall row: Row | row.WalletR?
        ensures Safe(BuyWallet(buyer, id, l, r.item, Some(row)), Granted(s, WalletK(buyer), Some(row)), n - 1)
      {
        BuyWalletSafe(buyer, id, l, r.item, Some(row), Granted(s, WalletK(buyer), Some(row)), n - 1);
      }
    }
  }

  lemma BuyListedSafe(buyer: nat, id: nat, r: Row, s: Scope, n: nat)
    requires n >= 20 && ListingK(id) in s.locks
    ensures Safe(BuyListed(buyer, id, Some(r)), s, n)
  {
    if r.ListingR? {
      var l := r.listing;
      forall row: Row | row.ItemR?
        ensures Safe(BuyItem(buyer, id, l, Some(row)), Granted(s, ItemK(l.item), Some(row)), n - 1)
      {
        BuyItemSafe(buyer, id, l, row, Granted(s, ItemK(l.item), Some(row)), n - 1);
      }
    }
  }

  lemma BuySafe(buyer: nat, id: nat, s: Scope, n: nat)
    requires n >= 21
    ensures Safe(BuyProg(buyer, id), s, n)
  {
    forall row: Row | row.ListingR?
      ensures Safe(BuyListed(buyer, id, Some(row)), Granted(s, ListingK(id), Some(row)), n - 1)
    {
      BuyListedSafe(buyer, id, row, Granted(s, ListingK(id), Some(row)), n - 1);
    }
  }

  // ---- PlaceBid ----

  /** Only auction a is locked and known about. */
  ghost predicate Only(s: Scope, a: nat) {
    AuctionK(a) in s.locks && forall b :: b in s.bids ==> s.bids[b] == a
  }

  lemma BidSaveSafe(cfg: Config, a: nat, bidder: nat, amount: int, auc: Auction, t0: nat, s: Scope, n: nat)
    requires n >= 3 && Only(s, a) && t0 <= s.last
    ensures Safe(BidSave(cfg, a, bidder, amount, auc, t0), s, n)
  {
    forall b: nat ensures Safe(BidLast(cfg, a, bidder, amount, auc, t0, b), s.(owned := s.owned + {BidK(b)}), n - 1) {
      BidLastSafe(cfg, a, bidder, amount, auc, t0, b, s.(owned := s.owned + {BidK(b)}), n - 1);
    }
  }

  lemma BidLastSafe(cfg: Config, a: nat, bidder: nat, amount: int, auc: Auction, t0: nat, b: nat, s: Scope, n: nat)
    requires n >= 2 && Only(s, a) && t0 <= s.last && BidK(b) in s.owned
    ensures Safe(BidLast(cfg, a, bidder, amount, auc, t0, b), s, n)
  {
    var end := MaybeExtend(t0, auc.endsAt, cfg.extension, cfg.extension).0;
    var save := Write(AuctionK(a), AuctionR(auc.(highest := Some(b), endsAt := end, updatedAt := t0)), Commit);
    assert Safe(save, s, n - 1);
  }

  lemma BidHeldSafe(cfg: Config, a: nat, bidder: nat, amount: int, auc: Auction, t0: nat, prev: Option<Bid>, s: Scope,
      n: nat)
    requires n >= 8 && Only(s, a) && t0 <= s.last
    requires prev.Some? && auc.highest.Some? ==> auc.highest.value in s.bids && prev.value.auction == a
    ensures Safe(BidHeld(cfg, a, bidder, amount, auc, t0, prev), s, n)
  {
    var last := BidSave(cfg, a, bidder, amount, auc, t0);
    BidSaveSafe(cfg, a, bidder, amount, auc, t0, s, n);
    if prev.Some? && auc.highest.Some? {
      var p := prev.value;
      var mark := Write(BidK(auc.highest.value), BidR(p.(status := Released)), last);
      forall e: nat ensures Safe(mark, Moved(s, p.bidder, e), n - 4) {
        BidSaveSafe(cfg, a, bidder, amount, auc, t0, Moved(s, p.bidder, e), n - 5);
      }
      MoveSafe(p.bidder, Freed, p.amount, BidRef(a), mark, s, n);
    }
  }

  lemma BidBeatsSafe(cfg: Config, a: nat, bidder: nat, amount: int, auc: Auction, t0: nat, prev: Option<Bid>, s: Scope,
      n: nat)
    requires n >= 12 && Only(s, a) && t0 <= s.last
    requires prev.Some? && auc.highest.Some? ==> auc.highest.value in s.bids && prev.value.auction == a
    ensures Safe(BidBeats(cfg, a, bidder, amount, auc, t0, prev), s, n)
  {
    var rest := BidHeld(cfg, a, bidder, amount, auc, t0, prev);
    forall e: nat ensures Safe(rest, Moved(s, bidder, e), n - 4) {
      BidHeldSafe(cfg, a, bidder, amount, auc, t0, prev, Moved(s, bidder, e), n - 4);
    }
    MoveSafe(bidder, Reserved, amount, BidRef(a), rest, s, n);
  }

  lemma BidTimedSafe(cfg: Config, a: nat, bidder: nat, amount: int, auc: Auction, t0: nat, s: Scope, n: nat)
    requires n >= 13 && Only(s, a) && t0 <= s.last && (auc.highest.Some? ==> auc.highest.value in s.bids)
    ensures Safe(BidTimed(cfg, a, bidder, amount, auc, t0), s, n)
  {
    BidBeatsSafe(cfg, a, bidder, amount, auc, t0, None, s, n);
    if auc.highest.Some? {
      var k := BidK(auc.highest.value);
      forall bid: Bid | bid.auction == a
        ensures Safe(BidOver(cfg, a, bidder, amount, auc, t0, Some(BidR(bid))), s, n - 1)
      {
        BidBeatsSafe(cfg, a, bidder, amount, auc, t0, Some(bid), s, n - 1);
      }
      var next := r => BidOver(cfg, a, bidder, amount, auc, t0, r);
      assert SafeRead(k, next, s, n - 1);
      assert Safe(Read(k, next), s, n);
    }
  }

  lemma BidLockedSafe(cfg: Config, a: nat, bidder: nat, amount: int, r: Row, s: Scope, n: nat)
    requires n >= 14 && r.AuctionR? && Only(s, a)
    requires r.auction.highest.Some? ==> r.auction.highest.value in s.bids
    ensures Safe(BidLocked(cfg, a, bidder, amount, Some(r)), s, n)
  {
    forall t0: nat | s.last <= t0
      ensures Safe(BidTimed(cfg, a, bidder, amount, r.auction, t0), Told(s, t0), n - 1)
    {
      BidTimedSafe(cfg, a, bidder, amount, r.auction, t0, Told(s, t0), n - 1);
    }
  }

  lemma BidSafe(cfg: Config, a: nat, bidder: nat, amount: int, n: nat)
    requires n >= 15
    ensures Safe(BidProg(cfg, a, bidder, amount), NoScope, n)
  {
    forall row: Row | row.AuctionR?
      ensures Safe(BidLocked(cfg, a, bidder, amount, Some(row)), Granted(NoScope, AuctionK(a), Some(row)), n - 1)
    {
      BidLockedSafe(cfg, a, bidder, amount, row, Granted(NoScope, AuctionK(a), Some(row)), n - 1);
    }
  }

  // ---- CancelBid ----

  lemma CancelFoundSafe(a: nat, b: nat, bidder: nat, auc: Auction, bid: Bid, s: Scope, n: nat)
    requires n >= 5 && Only(s, a) && b in s.bids && bid.auction == a
    ensures Safe(CancelFound(a, b, bidder, auc, Some(BidR(bid))), s, n)
  {
    var last := Write(BidK(b), BidR(bid.(status := BidCancelled)), Commit);
    forall e: nat ensures Safe(last, Moved(s, bidder, e), n - 4) { }
    MoveSafe(bidder, Freed, bid.amount, BidRef(a), last, s, n);
  }

  lemma CancelLockedSafe(a: nat, b: nat, bidder: nat, r: Row, s: Scope, n: nat)
    requires n >= 6 && r.AuctionR? && Only(s, a)
    ensures Safe(CancelLocked(a, b, bidder, Some(r)), s, n)
  {
    var next := q => CancelFound(a, b, bidder, r.auction, q);
    forall bid: Bid, s': Scope | Only(s', a) && b in s'.bids && bid.auction == a
      ensures Safe(next(Some(BidR(bid))), s', n - 1)
    {
      CancelFoundSafe(a, b, bidder, r.auction, bid, s', n - 1);
    }
    assert SafeRead(BidK(b), next, s, n - 1) by {
      forall bid: Bid
        ensures if AuctionK(bid.auction) in s.locks && b !in s.bids
                then Safe(next(Some(BidR(bid))), Seen(s, BidK(b), Some(BidR(bid))), n - 1) || bid.auction != a
                else true
      {
      }
    }
  }

  lemma CancelSafe(a: nat, b: nat, bidder: nat, n: nat)
    requires n >= 7
    ensures Safe(CancelProg(a, b, bidder), NoScope, n)
  {
    forall row: Row | row.AuctionR?
      ensures Safe(CancelLocked(a, b, bidder, Some(row)), Granted(NoScope, AuctionK(a), Some(row)), n - 1)
    {
      CancelLockedSafe(a, b, bidder, row, Granted(NoScope, AuctionK(a), Some(row)), n - 1);
    }
  }

  // ---- Settle ----

  lemma SettleSaveSafe(a: nat, auc: Auction, it: Item, winner: Option<nat>, s: Scope, n: nat)
    requires n >= 3 && AuctionK(a) in s.locks && ItemK(auc.item) in s.locks
    ensures Safe(SettleSave(a, auc, it, winner), s, n)
  {
    forall t1: nat | s.last <= t1 ensures Safe(SettleLast(a, auc, it, winner, t1), Told(s, t1), n - 1) {
      SettleLastSafe(a, auc, it, winner, t1, Told(s, t1), n - 1);
    }
  }

  lemma SettleLastSafe(a: nat, auc: Auction, it: Item, winner: Option<nat>, t1: nat, s: Scope, n: nat)
    requires n >= 2 && AuctionK(a) in s.locks && ItemK(auc.item) in s.locks && t1 <= s.last
    ensures Safe(SettleLast(a, auc, it, winner, t1), s, n)
  {
    assert Safe(Write(AuctionK(a), AuctionR(ClosedRow(auc, winner, t1)), Commit), s, n - 1);
  }

  lemma SettleWinSafe(a: nat, auc: Auction, h: nat, it: Item, win: Bid, s: Scope, n: nat)
    requires n >= 12 && Only(s, a) && ItemK(auc.item) in s.locks && h in s.bids && win.auction == a
    ensures Safe(SettleWin(a, auc, h, it, Some(BidR(win))), s, n)
  {
    var mark := Write(BidK(h), BidR(win.(status := Won)), SettleSave(a, auc, it, Some(win.bidder)));
    var earn := Move(auc.seller, Credited, win.amount, AuctionRef(a), mark);
    forall e: nat ensures Safe(earn, Moved(s, win.bidder, e), n - 4) {
      var s1 := Moved(s, win.bidder, e);
      forall f: nat ensures Safe(mark, Moved(s1, auc.seller, f), n - 8) {
        SettleSaveSafe(a, auc, it, Some(win.bidder), Moved(s1, auc.seller, f), n - 9);
      }
      MoveSafe(auc.seller, Credited, win.amount, AuctionRef(a), mark, s1, n - 4);
    }
    MoveSafe(win.bidder, Debited, win.amount, AuctionRef(a), earn, s, n);
  }

  lemma SettleItemSafe(a: nat, auc: Auction, r: Row, s: Scope, n: nat)
    requires n >= 13 && Only(s, a) && ItemK(auc.item) in s.locks && r.ItemR?
    requires auc.highest.Some? ==> auc.highest.value in s.bids
    ensures Safe(SettleItem(a, auc, Some(r)), s, n)
  {
    SettleSaveSafe(a, auc, r.item, None, s, n);
    if auc.highest.Some? {
      var h := auc.highest.value;
      forall win: Bid | win.auction == a ensures Safe(SettleWin(a, auc, h, r.item, Some(BidR(win))), s, n - 1) {
        SettleWinSafe(a, auc, h, r.item, win, s, n - 1);
      }
    }
  }

  lemma SettleLockedSafe(a: nat, r: Row, s: Scope, n: nat)
    requires n >= 15 && r.AuctionR? && Only(s, a)
    requires r.auction.highest.Some? ==> r.auction.highest.value in s.bids
    ensures Safe(SettleLocked(a, Some(r)), s, n)
  {
    var auc := r.auction;
    forall row: Row, t0: nat | row.ItemR? && s.last <= t0
      ensures Safe(SettleItem(a, auc, Some(row)), Granted(Told(s, t0), ItemK(auc.item), Some(row)), n - 2)
    {
      SettleItemSafe(a, auc, row, Granted(Told(s, t0), ItemK(auc.item), Some(row)), n - 2);
    }
  }

  lemma SettleSafe(a: nat, n: nat)
    requires n >= 16
    ensures Safe(SettleProg(a), NoScope, n)
  {
    forall row: Row | row.AuctionR?
      ensures Safe(SettleLocked(a, Some(row)), Granted(NoScope, AuctionK(a), Some(row)), n - 1)
    {
      SettleLockedSafe(a, row, Granted(NoScope, AuctionK(a), Some(row)), n - 1);
    }
  }

  /** Every request's transaction is disciplined and ends within 21 statements. */
  lemma AllSafe(cfg: Config, req: Request)
    ensures Safe(ProgOf(cfg, req), NoScope, 21)
  {
    match req {
      case CreateItem(owner, name, tier, stock) => ItemSafe(owner, name, tier, stock, NoScope, 21);
      case CreateListing(seller, item, price) => ListingSafe(seller, item, price, NoScope, 21);
      case Buy(buyer, listing) => BuySafe(buyer, listing, NoScope, 21);
      case CreateAuction(seller, item) => AuctionSafe(cfg, seller, item, NoScope, 21);
      case PlaceBid(a, bidder, amount) => BidSafe(cfg, a, bidder, amount, 21);
      case CancelBid(a, b, bidder) => CancelSafe(a, b, bidder, 21);
      case Settle(a) => SettleSafe(a, 21);
    }
  }
}
