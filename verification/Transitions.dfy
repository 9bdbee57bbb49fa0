/** What each marketplace operation does to the tables when it runs alone: the new tables or its error. */
module Transitions {
  import opened Model
  import opened Rules
  import opened Wallets

  function CreateItem(db: Tables, owner: nat, name: string, tier: Option<Tier>, stock: int, env: Env): Result<Tables> {
    if name == "" then Err(NameRequired)
    else if tier.None? then Err(InvalidTier)
    else if tier != Some(Legendary) && stock < 1 then Err(InvalidStock)
    else if owner !in db.guilds then Err(NotFound)
    else
      var units := if tier == Some(Legendary) then 1 else stock;
      Ok(db.(items := db.items[env.row := Item(name, tier.value, owner, Available, units)]))
  }

  function CreateListing(db: Tables, seller: nat, item: nat, price: int, env: Env): Result<Tables> {
    if EnsurePositive(price).Fail? then Err(EnsurePositive(price).error)
    else if item !in db.items then Err(NotFound)
    else if db.items[item].owner != seller then Err(ItemNotOwned)
    else if db.items[item].tier == Legendary then Err(LegendaryNeedsAuction)
    else if db.items[item].stock < 1 then Err(OutOfStock)
    else Ok(db.(listings := db.listings[env.row := Listing(item, seller, price, Open, None)]))
  }

  function DailySpent(db: Tables, g: nat, day: nat): int {
    if (g, day) in db.daily then db.daily[(g, day)] else 0
  }

  /** A purchase after its guards and its money movements: one unit, the day's total and the listing. */
  function Deliver(db: Tables, buyer: nat, id: nat, env: Env): Tables
    requires id in db.listings && db.listings[id].item in db.items
  {
    var l := db.listings[id];
    var it := db.items[l.item];
    var left := it.(stock := it.stock - 1, status := if it.stock == 1 then Sold else it.status);
    var day := DayOf(env.t1);
    db.(items := db.items[l.item := left][env.row := Item(it.name, it.tier, buyer, Available, 1)],
        daily := db.daily[(buyer, day) := DailySpent(db, buyer, day) + l.price],
        listings := db.listings[id := l.(status := ListingSold, buyer := Some(buyer))])
  }

  /** The daily total is read for the day of `t0` and written for the day of `t1`. */
  function Buy(db: Tables, buyer: nat, id: nat, env: Env): Result<Tables> {
    if id !in db.listings then Err(NotFound)
    else
      var l := db.listings[id];
      if l.status != Open then Err(ListingNotOpen)
      else if l.seller == buyer then Err(SelfPurchase)
      else if l.item !in db.items then Err(NotFound)
      else if db.items[l.item].stock < 1 then Err(OutOfStock)
      else if buyer !in db.wallets then Err(WalletMissing)
      else if buyer !in db.guilds then Err(NotFound)
      else
        :- EnsureWithinDailyCap(db.guilds[buyer], DailySpent(db, buyer, DayOf(env.t0)), l.price);
        var paid :- DebitTx(db, buyer, l.price, ListingRef(id), env.e1);
        var earned :- CreditTx(paid, l.seller, l.price, ListingRef(id), env.e2);
        Ok(Deliver(earned, buyer, id, env))
  }

  function CreateAuction(db: Tables, cfg: Config, seller: nat, item: nat, env: Env): Result<Tables> {
    if item !in db.items then Err(NotFound)
    else
      var it := db.items[item];
      if it.owner != seller then Err(ItemNotOwned)
      else if it.tier != Legendary then Err(NotLegendary)
      else if it.status == InAuction then Err(ActiveAuctionExists)
      else if it.status != Available then Err(ItemNotAvailable)
      else
        var a := Auction(item, seller, Active, env.t0, env.t0 + cfg.window, None, None, env.t0);
        Ok(db.(auctions := db.auctions[env.row := a], items := db.items[item := it.(status := InAuction)]))
  }

  /** Frees the outbid leader, if there is one. */
  function Outbid(db: Tables, prev: Option<nat>, a: nat, e: nat): Result<Tables>
    requires prev.Some? ==> prev.value in db.bids
  {
    if prev.None? then Ok(db) else
      var p := db.bids[prev.value];
      var freed :- ReleaseTx(db, p.bidder, p.amount, BidRef(a), e);
      Ok(freed.(bids := freed.bids[prev.value := p.(status := Released)]))
  }

  /** Reserves the new leader's amount, then frees the outbid leader's. */
  function HoldFor(db: Tables, a: nat, bidder: nat, amount: int, prev: Option<nat>, env: Env): Result<Tables>
    requires prev.Some? ==> prev.value in db.bids
  {
    var held :- ReserveTx(db, bidder, amount, BidRef(a), env.e1);
    Outbid(held, prev, a, env.e2)
  }

  function PlaceBid(db: Tables, cfg: Config, a: nat, bidder: nat, amount: int, env: Env): Result<Tables> {
    if a !in db.auctions then Err(NotFound)
    else
      var auc := db.auctions[a];
      if auc.status != Active then Err(AuctionNotActive)
      else if AuctionEnded(env.t0, auc.endsAt) then Err(AuctionHasEnded)
      else
        :- EnsureNotSelfBid(auc.seller, bidder);
        if auc.highest.Some? && auc.highest.value !in db.bids then Err(NotFound)
        else
          var current := if auc.highest.Some? then db.bids[auc.highest.value].amount else 0;
          :- EnsureBidBeatsCurrent(current, amount);
          var freed :- HoldFor(db, a, bidder, amount, auc.highest, env);
          var (end, _) := MaybeExtend(env.t0, auc.endsAt, cfg.extension, cfg.extension);
          Ok(freed.(bids := freed.bids[env.row := Bid(a, bidder, amount, Leading, env.t0)],
                    auctions :=
                      freed.auctions[a := auc.(highest := Some(env.row), endsAt := end, updatedAt := env.t0)]))
  }

  /** Releases money only for a bid still marked as leading. */
  function CancelBid(db: Tables, a: nat, b: nat, bidder: nat, env: Env): Result<Tables> {
    if a !in db.auctions then Err(NotFound)
    else if db.auctions[a].status != Active then Err(AuctionNotActive)
    else if b !in db.bids then Err(NotFound)
    else
      var bid := db.bids[b];
      if bid.auction != a || bid.bidder != bidder then Err(NotFound)
      else
        :- EnsureCanCancelBid(db.auctions[a].highest == Some(b));
        var freed :- if bid.status == Leading then ReleaseTx(db, bidder, bid.amount, BidRef(a), env.e1) else Ok(db);
        Ok(freed.(bids := freed.bids[b := bid.(status := BidCancelled)]))
  }

  /** Pays the seller from the winner's reserve and marks the bid won. */
  function PayOut(db: Tables, a: nat, auc: Auction, h: nat, env: Env): Result<Tables> {
    if h !in db.bids then Err(NotFound)
    else
      var win := db.bids[h];
      var spent :- SettleReservedTx(db, win.bidder, win.amount, AuctionRef(a), env.e1);
      var paid :- CreditTx(spent, auc.seller, win.amount, AuctionRef(a), env.e2);
      Ok(paid.(bids := paid.bids[h := win.(status := Won)]))
  }

  /** True when SettleAuction would close this auction rather than leave it alone. */
  predicate Due(auc: Auction, now: nat) {
    auc.status == Active && AuctionEnded(now, auc.endsAt)
  }

  /** An auction that is not due is left alone without error. */
  function Settle(db: Tables, a: nat, env: Env): Result<Tables> {
    if a !in db.auctions then Err(NotFound)
    else
      var auc := db.auctions[a];
      if !Due(auc, env.t0) then Ok(db)
      else if auc.item !in db.items then Err(NotFound)
      else
        var it := db.items[auc.item];
        var paid :- if auc.highest.Some? then PayOut(db, a, auc, auc.highest.value, env) else Ok(db);
        var winner := if auc.highest.Some? then Some(db.bids[auc.highest.value].bidder) else None;
        var owner := if winner.Some? then winner.value else it.owner;
        Ok(paid.(items := paid.items[auc.item := it.(owner := owner, status := Available)],
                 auctions :=
                   paid.auctions[a := auc.(status := Settled, winner := if winner.Some? then winner else auc.winner,
                                           updatedAt := env.t1)]))
  }

  function Apply(db: Tables, cfg: Config, req: Request, env: Env): Result<Tables> {
    match req
    case CreateItem(owner, name, tier, stock) => CreateItem(db, owner, name, tier, stock, env)
    case CreateListing(seller, item, price) => CreateListing(db, seller, item, price, env)
    case Buy(buyer, listing) => Buy(db, buyer, listing, env)
    case CreateAuction(seller, item) => CreateAuction(db, cfg, seller, item, env)
    case PlaceBid(a, bidder, amount) => PlaceBid(db, cfg, a, bidder, amount, env)
    case CancelBid(a, b, bidder) => CancelBid(db, a, b, bidder, env)
    case Settle(a) => Settle(db, a, env)
  }

  // ---- The ids of the rows a successful request adds ----

  function NewItems(req: Request, env: Env): set<nat> { if req.CreateItem? || req.Buy? then {env.row} else {} }

  function NewListings(req: Request, env: Env): set<nat> { if req.CreateListing? then {env.row} else {} }

  function NewAuctions(req: Request, env: Env): set<nat> { if req.CreateAuction? then {env.row} else {} }

  function NewBids(req: Request, env: Env): set<nat> { if req.PlaceBid? then {env.row} else {} }

  function NewEntries(db: Tables, req: Request, env: Env): set<nat> {
    match req
    case Buy(_, _) => {env.e1, env.e2}
    case PlaceBid(a, _, _) => if a in db.auctions && db.auctions[a].highest.Some? then {env.e1, env.e2} else {env.e1}
    case CancelBid(_, b, _) => if b in db.bids && db.bids[b].status == Leading then {env.e1} else {}
    case Settle(a) =>
      if a in db.auctions && Due(db.auctions[a], env.t0) && db.auctions[a].highest.Some? then {env.e1, env.e2} else {}
    case _ => {}
  }
}
