/** The marketplace transactions as sequences of row locks, reads, writes, clock readings and new ids. */
module Programs {
  import opened Model
  import opened Rules
  import opened Wallets

  datatype Key =
    | GuildK(guild: nat) | WalletK(guild: nat) | LedgerK(entry: nat) | ItemK(item: nat) | ListingK(listing: nat)
    | AuctionK(auction: nat) | BidK(bid: nat) | DailyK(guild: nat, day: nat)

  datatype Row =
    | GuildR(cap: nat) | WalletR(wallet: Wallet) | LedgerR(entry: Entry) | ItemR(item: Item)
    | ListingR(listing: Listing)
    | AuctionR(auction: Auction) | BidR(bid: Bid) | DailyR(spent: int)

  /** The tables whose rows get new ids. */
  datatype Serial = ItemIds | ListingIds | AuctionIds | BidIds | LedgerIds

  function KeyOf(s: Serial, id: nat): Key {
    match s
    case ItemIds => ItemK(id)
    case ListingIds => ListingK(id)
    case AuctionIds => AuctionK(id)
    case BidIds => BidK(id)
    case LedgerIds => LedgerK(id)
  }

  /**
   * What a transaction does next. Lock is SELECT ... FOR UPDATE: it waits for the row and returns it, or returns
   * nothing and locks nothing when there is no such row. Read is an unlocked SELECT.
   */
  datatype Prog =
    | Commit
    | Abort(error: Error)
    | Lock(k: Key, next: Option<Row> -> Prog)
    | Read(k: Key, next: Option<Row> -> Prog)
    | Write(k: Key, row: Row, rest: Prog)
    | Now(at: nat -> Prog)
    | NewId(ids: Serial, with: nat -> Prog)

  function Find(db: Tables, k: Key): Option<Row> {
    match k
    case GuildK(g) => if g in db.guilds then Some(GuildR(db.guilds[g])) else None
    case WalletK(g) => if g in db.wallets then Some(WalletR(db.wallets[g])) else None
    case LedgerK(e) => if e in db.ledger then Some(LedgerR(db.ledger[e])) else None
    case ItemK(i) => if i in db.items then Some(ItemR(db.items[i])) else None
    case ListingK(l) => if l in db.listings then Some(ListingR(db.listings[l])) else None
    case AuctionK(a) => if a in db.auctions then Some(AuctionR(db.auctions[a])) else None
    case BidK(b) => if b in db.bids then Some(BidR(db.bids[b])) else None
    case DailyK(g, d) => if (g, d) in db.daily then Some(DailyR(db.daily[(g, d)])) else None
  }

  /** Writes a row; a row of another table's kind cannot be written. */
  function Put(db: Tables, k: Key, row: Row): Tables {
    match (k, row)
    case (WalletK(g), WalletR(w)) => db.(wallets := db.wallets[g := w])
    case (LedgerK(e), LedgerR(x)) => db.(ledger := db.ledger[e := x])
    case (ItemK(i), ItemR(x)) => db.(items := db.items[i := x])
    case (ListingK(l), ListingR(x)) => db.(listings := db.listings[l := x])
    case (AuctionK(a), AuctionR(x)) => db.(auctions := db.auctions[a := x])
    case (BidK(b), BidR(x)) => db.(bids := db.bids[b := x])
    case (DailyK(g, d), DailyR(x)) => db.(daily := db.daily[(g, d) := x])
    case _ => db
  }

  // ---- Money movements ----

  function Move(g: nat, kind: EntryKind, amount: int, ref: Ref, rest: Prog): Prog {
    Lock(WalletK(g), r => MoveLocked(g, kind, amount, ref, rest, r))
  }

  function MoveLocked(g: nat, kind: EntryKind, amount: int, ref: Ref, rest: Prog, r: Option<Row>): Prog {
    if !(r.Some? && r.value.WalletR?) then Abort(WalletMissing) else
      match Change(kind, ref, r.value.wallet, amount)
      case Err(e) => Abort(e)
      case Ok(w) =>
        Write(WalletK(g), WalletR(w),
              NewId(LedgerIds, (e: nat) => Write(LedgerK(e), LedgerR(Entry(g, kind, amount, ref)), rest)))
  }

  // ---- The transactions ----

  function ItemProg(owner: nat, name: string, tier: Option<Tier>, stock: int): Prog {
    if name == "" then Abort(NameRequired)
    else if tier.None? then Abort(InvalidTier)
    else if tier != Some(Legendary) && stock < 1 then Abort(InvalidStock)
    else
      var it := Item(name, tier.value, owner, Available, if tier == Some(Legendary) then 1 else stock);
      Read(GuildK(owner), (r: Option<Row>) =>
        if r.None? then Abort(NotFound) else NewId(ItemIds, (i: nat) => Write(ItemK(i), ItemR(it), Commit)))
  }

  function ListingProg(seller: nat, item: nat, price: int): Prog {
    if price <= 0 then Abort(InvalidAmount) else Lock(ItemK(item), r => ListLocked(seller, item, price, r))
  }

  function ListLocked(seller: nat, item: nat, price: int, r: Option<Row>): Prog {
    if !(r.Some? && r.value.ItemR?) then Abort(NotFound)
    else if r.value.item.owner != seller then Abort(ItemNotOwned)
    else if r.value.item.tier == Legendary then Abort(LegendaryNeedsAuction)
    else if r.value.item.stock < 1 then Abort(OutOfStock)
    else NewId(ListingIds, (l: nat) => Write(ListingK(l), ListingR(Listing(item, seller, price, Open, None)), Commit))
  }

  function BuyProg(buyer: nat, id: nat): Prog {
    Lock(ListingK(id), r => BuyListed(buyer, id, r))
  }

  function BuyListed(buyer: nat, id: nat, r: Option<Row>): Prog {
    if !(r.Some? && r.value.ListingR?) then Abort(NotFound)
    else
      var l := r.value.listing;
      if l.status != Open then Abort(ListingNotOpen)
      else if l.seller == buyer then Abort(SelfPurchase)
      else Lock(ItemK(l.item), r => BuyItem(buyer, id, l, r))
  }

  function BuyItem(buyer: nat, id: nat, l: Listing, r: Option<Row>): Prog {
    if !(r.Some? && r.value.ItemR?) then Abort(NotFound)
    else
      var it := r.value.item;
      if it.stock < 1 then Abort(OutOfStock)
      else Lock(WalletK(buyer), r => BuyWallet(buyer, id, l, it, r))
  }

  function BuyWallet(buyer: nat, id: nat, l: Listing, it: Item, r: Option<Row>): Prog {
    if r.None? then Abort(WalletMissing) else Read(GuildK(buyer), r => BuyGuild(buyer, id, l, it, r))
  }

  function BuyGuild(buyer: nat, id: nat, l: Listing, it: Item, r: Option<Row>): Prog {
    if !(r.Some? && r.value.GuildR?) then Abort(NotFound)
    else
      var cap := r.value.cap;
      Now((t0: nat) => Read(DailyK(buyer, DayOf(t0)), r => BuyChecked(buyer, id, l, it, cap, Spent(r))))
  }

  function Spent(r: Option<Row>): int { if r.Some? && r.value.DailyR? then r.value.spent else 0 }

  function BuyChecked(buyer: nat, id: nat, l: Listing, it: Item, cap: nat, spent: int): Prog {
    match EnsureWithinDailyCap(cap, spent, l.price)
    case Fail(e) => Abort(e)
    case Pass =>
      Move(buyer, Debited, l.price, ListingRef(id),
           Move(l.seller, Credited, l.price, ListingRef(id), BuyPaid(buyer, id, l, it)))
  }

  function BuyPaid(buyer: nat, id: nat, l: Listing, it: Item): Prog {
    var left := it.(stock := it.stock - 1, status := if it.stock == 1 then Sold else it.status);
    Write(ItemK(l.item), ItemR(left),
      NewId(ItemIds, (i: nat) =>
        Write(ItemK(i), ItemR(Item(it.name, it.tier, buyer, Available, 1)), BuyTotal(buyer, id, l))))
  }

  /** The day's total is added to by one statement, under the buyer's wallet lock. */
  function BuyTotal(buyer: nat, id: nat, l: Listing): Prog {
    Now((t1: nat) => Read(DailyK(buyer, DayOf(t1)), r => BuyLast(buyer, id, l, t1, r)))
  }

  function BuyLast(buyer: nat, id: nat, l: Listing, t1: nat, r: Option<Row>): Prog {
    Write(DailyK(buyer, DayOf(t1)), DailyR(Spent(r) + l.price),
      Write(ListingK(id), ListingR(l.(status := ListingSold, buyer := Some(buyer))), Commit))
  }

  function AuctionProg(cfg: Config, seller: nat, item: nat): Prog {
    Lock(ItemK(item), r => OpenLocked(cfg, seller, item, r))
  }

  function OpenLocked(cfg: Config, seller: nat, item: nat, r: Option<Row>): Prog {
    if !(r.Some? && r.value.ItemR?) then Abort(NotFound)
    else
      var it := r.value.item;
      if it.owner != seller then Abort(ItemNotOwned)
      else if it.tier != Legendary then Abort(NotLegendary)
      else if it.status == InAuction then Abort(ActiveAuctionExists)
      else if it.status != Available then Abort(ItemNotAvailable)
      else Now((t0: nat) => NewId(AuctionIds, (a: nat) => OpenSave(cfg, seller, item, it, t0, a)))
  }

  function OpenSave(cfg: Config, seller: nat, item: nat, it: Item, t0: nat, a: nat): Prog {
    Write(AuctionK(a), AuctionR(Auction(item, seller, Active, t0, t0 + cfg.window, None, None, t0)),
      Write(ItemK(item), ItemR(it.(status := InAuction)), Commit))
  }

  function BidProg(cfg: Config, a: nat, bidder: nat, amount: int): Prog {
    Lock(AuctionK(a), r => BidLocked(cfg, a, bidder, amount, r))
  }

  function BidLocked(cfg: Config, a: nat, bidder: nat, amount: int, r: Option<Row>): Prog {
    if !(r.Some? && r.value.AuctionR?) then Abort(NotFound)
    else
      var auc := r.value.auction;
      if auc.status != Active then Abort(AuctionNotActive)
      else Now((t0: nat) => BidTimed(cfg, a, bidder, amount, auc, t0))
  }

  function BidTimed(cfg: Config, a: nat, bidder: nat, amount: int, auc: Auction, t0: nat): Prog {
    if AuctionEnded(t0, auc.endsAt) then Abort(AuctionHasEnded)
    else if auc.seller == bidder then Abort(SelfBid)
    else if auc.highest.None? then BidBeats(cfg, a, bidder, amount, auc, t0, None)
    else Read(BidK(auc.highest.value), r => BidOver(cfg, a, bidder, amount, auc, t0, r))
  }

  function BidOver(cfg: Config, a: nat, bidder: nat, amount: int, auc: Auction, t0: nat, r: Option<Row>): Prog {
    if !(r.Some? && r.value.BidR?) then Abort(NotFound)
    else BidBeats(cfg, a, bidder, amount, auc, t0, Some(r.value.bid))
  }

  function BidBeats(cfg: Config, a: nat, bidder: nat, amount: int, auc: Auction, t0: nat, prev: Option<Bid>): Prog {
    match EnsureBidBeatsCurrent(if prev.Some? then prev.value.amount else 0, amount)
    case Fail(e) => Abort(e)
    case Pass => Move(bidder, Reserved, amount, BidRef(a), BidHeld(cfg, a, bidder, amount, auc, t0, prev))
  }

  function BidHeld(cfg: Config, a: nat, bidder: nat, amount: int, auc: Auction, t0: nat, prev: Option<Bid>): Prog {
    var last := BidSave(cfg, a, bidder, amount, auc, t0);
    if prev.None? || auc.highest.None? then last
    else
      Move(prev.value.bidder, Freed, prev.value.amount, BidRef(a),
        Write(BidK(auc.highest.value), BidR(prev.value.(status := Released)), last))
  }

  function BidSave(cfg: Config, a: nat, bidder: nat, amount: int, auc: Auction, t0: nat): Prog {
    NewId(BidIds, (b: nat) => BidLast(cfg, a, bidder, amount, auc, t0, b))
  }

  function BidLast(cfg: Config, a: nat, bidder: nat, amount: int, auc: Auction, t0: nat, b: nat): Prog {
    var end := MaybeExtend(t0, auc.endsAt, cfg.extension, cfg.extension).0;
    Write(BidK(b), BidR(Bid(a, bidder, amount, Leading, t0)),
      Write(AuctionK(a), AuctionR(auc.(highest := Some(b), endsAt := end, updatedAt := t0)), Commit))
  }

  function CancelProg(a: nat, b: nat, bidder: nat): Prog {
    Lock(AuctionK(a), r => CancelLocked(a, b, bidder, r))
  }

  function CancelLocked(a: nat, b: nat, bidder: nat, r: Option<Row>): Prog {
    if !(r.Some? && r.value.AuctionR?) then Abort(NotFound)
    else
      var auc := r.value.auction;
      if auc.status != Active then Abort(AuctionNotActive)
      else Read(BidK(b), r => CancelFound(a, b, bidder, auc, r))
  }

  function CancelFound(a: nat, b: nat, bidder: nat, auc: Auction, r: Option<Row>): Prog {
    if !(r.Some? && r.value.BidR?) then Abort(NotFound)
    else
      var bid := r.value.bid;
      if bid.auction != a || bid.bidder != bidder then Abort(NotFound)
      else if auc.highest == Some(b) then Abort(CancelHighestBid)
      else
        var last := Write(BidK(b), BidR(bid.(status := BidCancelled)), Commit);
        if bid.status == Leading then Move(bidder, Freed, bid.amount, BidRef(a), last) else last
  }

  function SettleProg(a: nat): Prog {
    Lock(AuctionK(a), r => SettleLocked(a, r))
  }

  function SettleLocked(a: nat, r: Option<Row>): Prog {
    if !(r.Some? && r.value.AuctionR?) then Abort(NotFound)
    else
      var auc := r.value.auction;
      if auc.status != Active then Commit
      else Now((t0: nat) =>
        if !AuctionEnded(t0, auc.endsAt) then Commit else Lock(ItemK(auc.item), r => SettleItem(a, auc, r)))
  }

  function SettleItem(a: nat, auc: Auction, r: Option<Row>): Prog {
    if !(r.Some? && r.value.ItemR?) then Abort(NotFound)
    else if auc.highest.None? then SettleSave(a, auc, r.value.item, None)
    else
      var it := r.value.item;
      Read(BidK(auc.highest.value), r => SettleWin(a, auc, auc.highest.value, it, r))
  }

  function SettleWin(a: nat, auc: Auction, h: nat, it: Item, r: Option<Row>): Prog {
    if !(r.Some? && r.value.BidR?) then Abort(NotFound)
    else
      var win := r.value.bid;
      Move(win.bidder, Debited, win.amount, AuctionRef(a), Move(auc.seller, Credited, win.amount, AuctionRef(a),
        Write(BidK(h), BidR(win.(status := Won)), SettleSave(a, auc, it, Some(win.bidder)))))
  }

  function SettleSave(a: nat, auc: Auction, it: Item, winner: Option<nat>): Prog {
    Now((t1: nat) => SettleLast(a, auc, it, winner, t1))
  }

  /** An auction without bids keeps the winner it had, which is none. */
  function ClosedRow(auc: Auction, winner: Option<nat>, t1: nat): Auction {
    auc.(status := Settled, winner := if winner.Some? then winner else auc.winner, updatedAt := t1)
  }

  function SettleLast(a: nat, auc: Auction, it: Item, winner: Option<nat>, t1: nat): Prog {
    Write(ItemK(auc.item), ItemR(it.(owner := if winner.Some? then winner.value else it.owner, status := Available)),
      Write(AuctionK(a), AuctionR(ClosedRow(auc, winner, t1)), Commit))
  }

  function ProgOf(cfg: Config, req: Request): Prog {
    match req
    case CreateItem(owner, name, tier, stock) => ItemProg(owner, name, tier, stock)
    case CreateListing(seller, item, price) => ListingProg(seller, item, price)
    case Buy(buyer, listing) => BuyProg(buyer, listing)
    case CreateAuction(seller, item) => AuctionProg(cfg, seller, item)
    case PlaceBid(a, bidder, amount) => BidProg(cfg, a, bidder, amount)
    case CancelBid(a, b, bidder) => CancelProg(a, b, bidder)
    case Settle(a) => SettleProg(a)
  }
}
