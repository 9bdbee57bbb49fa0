/**
 * When each operation succeeds, and with which error it fails: stated on the rows and the amounts alone, for every
 * operation and every state that the invariants allow.
 */
module Acceptance {
  import opened Model
  import opened Wallets
  import opened Invariants
  import Rules
  import Settlement
  import Transitions

  // ---- Wallet movements ----

  function Posted(db: Tables, g: nat, total: int, reserved: int, e: nat, entry: Entry): Tables {
    db.(wallets := db.wallets[g := Wallet(total, reserved)], ledger := db.ledger[e := entry])
  }

  /** A reservation needs a positive amount of at most what is not yet reserved. */
  lemma ReserveExactly(db: Tables, g: nat, amount: int, ref: Ref, e: nat)
    ensures var r := ReserveTx(db, g, amount, ref, e);
            if g !in db.wallets then r == Err(WalletMissing)
            else if amount <= 0 then r == Err(InvalidAmount)
            else if amount > db.wallets[g].total - db.wallets[g].reserved then r == Err(InsufficientFunds)
            else r == Ok(Posted(db, g, db.wallets[g].total, db.wallets[g].reserved + amount, e,
                                Entry(g, Reserved, amount, ref)))
  {
  }

  /** A release needs a positive amount of at most what is reserved. */
  lemma ReleaseExactly(db: Tables, g: nat, amount: int, ref: Ref, e: nat)
    ensures var r := ReleaseTx(db, g, amount, ref, e);
            if g !in db.wallets then r == Err(WalletMissing)
            else if amount <= 0 then r == Err(InvalidAmount)
            else if amount > db.wallets[g].reserved then r == Err(InsufficientReserved)
            else r == Ok(Posted(db, g, db.wallets[g].total, db.wallets[g].reserved - amount, e,
                                Entry(g, Freed, amount, ref)))
  {
  }

  /** A debit needs a positive amount of at most what is not reserved. */
  lemma DebitExactly(db: Tables, g: nat, amount: int, ref: Ref, e: nat)
    ensures var r := DebitTx(db, g, amount, ref, e);
            if g !in db.wallets then r == Err(WalletMissing)
            else if amount <= 0 then r == Err(InvalidAmount)
            else if amount > db.wallets[g].total - db.wallets[g].reserved then r == Err(InsufficientFunds)
            else r == Ok(Posted(db, g, db.wallets[g].total - amount, db.wallets[g].reserved, e,
                                Entry(g, Debited, amount, ref)))
  {
  }

  /** A credit needs a positive amount. */
  lemma CreditExactly(db: Tables, g: nat, amount: int, ref: Ref, e: nat)
    ensures var r := CreditTx(db, g, amount, ref, e);
            if g !in db.wallets then r == Err(WalletMissing)
            else if amount <= 0 then r == Err(InvalidAmount)
            else r == Ok(Posted(db, g, db.wallets[g].total + amount, db.wallets[g].reserved, e,
                                Entry(g, Credited, amount, ref)))
  {
  }

  /** Spending a reserve needs a positive amount of at most what is reserved. */
  lemma SpendExactly(db: Tables, g: nat, amount: int, ref: Ref, e: nat)
    ensures var r := SettleReservedTx(db, g, amount, ref, e);
            if g !in db.wallets then r == Err(WalletMissing)
            else if amount <= 0 then r == Err(InvalidAmount)
            else if amount > db.wallets[g].reserved then r == Err(InsufficientReserved)
            else r == Ok(Posted(db, g, db.wallets[g].total - amount, db.wallets[g].reserved - amount, e,
                                Entry(g, Debited, amount, ref)))
  {
  }

  // ---- Items and listings ----

  ghost predicate ItemOutcome(db: Tables, owner: nat, name: string, tier: Option<Tier>, stock: int, env: Env,
      r: Result<Tables>) {
    if name == "" then r == Err(NameRequired)
    else if tier == None then r == Err(InvalidTier)
    else if tier.value != Legendary && stock <= 0 then r == Err(InvalidStock)
    else if owner !in db.guilds then r == Err(NotFound)
    else r == Ok(db.(items := db.items[env.row := Item(name, tier.value, owner, Available,
                                                       if tier.value == Legendary then 1 else stock)]))
  }

  /** An item needs a name, a tier, stock unless it is legendary, and an owner that exists. */
  lemma ItemExactly(db: Tables, owner: nat, name: string, tier: Option<Tier>, stock: int, env: Env)
    ensures Transitions.CreateItem(db, owner, name, tier, stock, env).Ok? <==>
              name != "" && tier.Some? && (tier == Some(Legendary) || stock > 0) && owner in db.guilds
    ensures ItemOutcome(db, owner, name, tier, stock, env,
                        Transitions.CreateItem(db, owner, name, tier, stock, env))
  {
    assert tier.Some? ==> tier == Some(tier.value);
  }

  ghost predicate ListingOutcome(db: Tables, seller: nat, item: nat, price: int, env: Env, r: Result<Tables>) {
    if price <= 0 then r == Err(InvalidAmount)
    else if item !in db.items then r == Err(NotFound)
    else if db.items[item].owner != seller then r == Err(ItemNotOwned)
    else if db.items[item].tier == Legendary then r == Err(LegendaryNeedsAuction)
    else if db.items[item].stock <= 0 then r == Err(OutOfStock)
    else r == Ok(db.(listings := db.listings[env.row := Listing(item, seller, price, Open, None)]))
  }

  /** The owner of an item that is not legendary can list it at any positive price while a unit is left. */
  lemma ListingExactly(db: Tables, seller: nat, item: nat, price: int, env: Env)
    ensures Transitions.CreateListing(db, seller, item, price, env).Ok? <==>
              && price > 0 && item in db.items && db.items[item].owner == seller
              && db.items[item].tier != Legendary && db.items[item].stock >= 1
    ensures ListingOutcome(db, seller, item, price, env, Transitions.CreateListing(db, seller, item, price, env))
  {
  }

  /** So in a reachable state a listing is refused for lack of stock exactly when the item is sold. */
  lemma ListedIff(w: World, db: Tables, seller: nat, item: nat, price: int, env: Env)
    requires Inv(w, db)
    ensures Transitions.CreateListing(db, seller, item, price, env).Ok? <==>
              && price > 0 && item in db.items && db.items[item].owner == seller
              && db.items[item].tier != Legendary && db.items[item].status != Sold
  {
    ListingExactly(db, seller, item, price, env);
    assert item in db.items ==> ItemOk(db.items[item]);
  }

  const NS_PER_DAY: nat := 86_400_000_000_000

  /** What g has spent on the UTC day of time t, in nanoseconds since an epoch at midnight. */
  function SpentOnDay(daily: map<(nat, nat), int>, g: nat, t: nat): int {
    if (g, t / NS_PER_DAY) in daily then daily[(g, t / NS_PER_DAY)] else 0
  }

  /** The facts about a listing that the invariants give. */
  ghost predicate Deliverable(db: Tables, id: nat)
    requires id in db.listings
  {
    && db.listings[id].item in db.items && db.listings[id].price > 0
    && db.listings[id].seller in db.wallets
  }

  /** The tables after a purchase: the money, a unit, the total of the day of the second reading, the listing. */
  function Bought(db: Tables, buyer: nat, id: nat, env: Env): Tables
    requires id in db.listings && db.listings[id].item in db.items
    requires buyer in db.wallets && db.listings[id].seller in db.wallets
  {
    var l := db.listings[id];
    var it, payer, payee := db.items[l.item], db.wallets[buyer], db.wallets[l.seller];
    db.(wallets := db.wallets[buyer := Wallet(payer.total - l.price, payer.reserved)]
                             [l.seller := Wallet(payee.total + l.price, payee.reserved)],
        ledger := db.ledger[env.e1 := Entry(buyer, Debited, l.price, ListingRef(id))]
                           [env.e2 := Entry(l.seller, Credited, l.price, ListingRef(id))],
        items := db.items[l.item := Item(it.name, it.tier, it.owner, if it.stock == 1 then Sold else it.status,
                                         it.stock - 1)]
                         [env.row := Item(it.name, it.tier, buyer, Available, 1)],
        daily := db.daily[(buyer, env.t1 / NS_PER_DAY) := SpentOnDay(db.daily, buyer, env.t1) + l.price],
        listings := db.listings[id := Listing(l.item, l.seller, l.price, ListingSold, Some(buyer))])
  }

  /** The result of a purchase: the first condition that fails names the error. */
  ghost predicate BuyOutcome(db: Tables, buyer: nat, id: nat, env: Env, r: Result<Tables>) {
    if id !in db.listings then r == Err(NotFound)
    else
      var l := db.listings[id];
      if l.status != Open then r == Err(ListingNotOpen)
      else if l.seller == buyer then r == Err(SelfPurchase)
      else if l.item !in db.items || l.seller !in db.wallets then false
      else if db.items[l.item].stock <= 0 then r == Err(OutOfStock)
      else if buyer !in db.guilds || buyer !in db.wallets then r == Err(WalletMissing)
      else if db.guilds[buyer] != 0 && SpentOnDay(db.daily, buyer, env.t0) + l.price > db.guilds[buyer]
      then r == Err(DailyCapExceeded)
      else if l.price > db.wallets[buyer].total - db.wallets[buyer].reserved then r == Err(InsufficientFunds)
      else r == Ok(Bought(db, buyer, id, env))
  }

  lemma BuySucceeds(db: Tables, buyer: nat, id: nat, env: Env)
    requires db.guilds.Keys == db.wallets.Keys && (id in db.listings ==> Deliverable(db, id))
    ensures BuyOutcome(db, buyer, id, env, Transitions.Buy(db, buyer, id, env))
  {
  }

  lemma ListingDeliverable(db: Tables, id: nat)
    requires Catalog(db) && id in db.listings
    ensures Deliverable(db, id)
  {
    assert ListingOk(db, db.listings[id]);
  }

  /**
   * Main result, exact: in a reachable state a purchase succeeds if and only if the listing is open, somebody else's,
   * a unit is left, the day's total with the price is within the cap, if there is one, and the price is within what
   * the buyer has not reserved; otherwise the first of these that fails names the error.
   */
  lemma BuyExactly(w: World, db: Tables, buyer: nat, id: nat, env: Env)
    requires Inv(w, db)
    ensures Transitions.Buy(db, buyer, id, env).Ok? <==>
              && id in db.listings && db.listings[id].status == Open && db.listings[id].seller != buyer
              && db.listings[id].item in db.items && db.items[db.listings[id].item].stock >= 1
              && buyer in db.guilds && buyer in db.wallets
              && (db.guilds[buyer] == 0 ||
                  SpentOnDay(db.daily, buyer, env.t0) + db.listings[id].price <= db.guilds[buyer])
              && db.listings[id].price <= db.wallets[buyer].total - db.wallets[buyer].reserved
    ensures BuyOutcome(db, buyer, id, env, Transitions.Buy(db, buyer, id, env))
  {
    if id in db.listings {
      ListingDeliverable(db, id);
    }
    BuySucceeds(db, buyer, id, env);
  }

  // ---- Auctions and bids ----

  ghost predicate AuctionOutcome(db: Tables, cfg: Config, seller: nat, item: nat, env: Env, r: Result<Tables>) {
    if item !in db.items then r == Err(NotFound)
    else if db.items[item].owner != seller then r == Err(ItemNotOwned)
    else if db.items[item].tier != Legendary then r == Err(NotLegendary)
    else if db.items[item].status == InAuction then r == Err(ActiveAuctionExists)
    else r == Ok(db.(auctions := db.auctions[env.row :=
                       Auction(item, seller, Active, env.t0, env.t0 + cfg.window, None, None, env.t0)],
                     items := db.items[item := db.items[item].(status := InAuction)]))
  }

  lemma AuctionOpens(db: Tables, cfg: Config, seller: nat, item: nat, env: Env)
    requires item in db.items ==> ItemOk(db.items[item])
    ensures AuctionOutcome(db, cfg, seller, item, env, Transitions.CreateAuction(db, cfg, seller, item, env))
  {
  }

  /**
   * Exact: in a reachable state the owner of a legendary item can open an auction of it if and only if no active
   * auction is of that item. The error for an item that is neither available nor in auction never occurs.
   */
  lemma AuctionExactly(w: World, db: Tables, seller: nat, item: nat, env: Env)
    requires Inv(w, db)
    ensures Transitions.CreateAuction(db, w.cfg, seller, item, env).Ok? <==>
              && item in db.items && db.items[item].owner == seller && db.items[item].tier == Legendary
              && forall a :: !ActiveFor(db, a, item)
    ensures AuctionOutcome(db, w.cfg, seller, item, env, Transitions.CreateAuction(db, w.cfg, seller, item, env))
  {
    AuctionOpens(db, w.cfg, seller, item, env);
    if item in db.items {
      InAuctionIff(db, item);
    }
  }

  lemma InAuctionIff(db: Tables, item: nat)
    requires Catalog(db) && item in db.items
    ensures db.items[item].status == InAuction <==> exists a :: ActiveFor(db, a, item)
  {
    forall a | ActiveFor(db, a, item) ensures db.items[item].status == InAuction {
      assert AuctionOk(db, db.auctions[a]);
    }
  }

  /** The facts about an active auction that the invariants give: its leader's amount is reserved. */
  ghost predicate Covered(db: Tables, a: nat)
    requires a in db.auctions
  {
    db.auctions[a].highest.Some? ==>
      && db.auctions[a].highest.value in db.bids
      && var p := db.bids[db.auctions[a].highest.value];
         p.bidder in db.wallets && 0 < p.amount <= db.wallets[p.bidder].reserved
  }

  /** A new bid reserves its amount and then frees the outbid leader's, perhaps the bidder's own. */
  function Reserving(db: Tables, a: nat, bidder: nat, amount: int, env: Env): Tables
    requires a in db.auctions && Covered(db, a) && bidder in db.wallets
  {
    var total, reserved := db.wallets[bidder].total, db.wallets[bidder].reserved;
    var held := Posted(db, bidder, total, reserved + amount, env.e1, Entry(bidder, Reserved, amount, BidRef(a)));
    if db.auctions[a].highest == None then held
    else
      var h := db.auctions[a].highest.value;
      var p := db.bids[h];
      var w := held.wallets[p.bidder];
      Posted(held, p.bidder, w.total, w.reserved - p.amount, env.e2, Entry(p.bidder, Freed, p.amount, BidRef(a)))
        .(bids := db.bids[h := Bid(p.auction, p.bidder, p.amount, Released, p.createdAt)])
  }

  /** The tables after a bid: the money, the bid in the lead, and the end no earlier than the extension after it. */
  function WithBid(db: Tables, cfg: Config, a: nat, bidder: nat, amount: int, env: Env): Tables
    requires a in db.auctions && Covered(db, a) && bidder in db.wallets
  {
    var freed, auc, late := Reserving(db, a, bidder, amount, env), db.auctions[a], env.t0 + cfg.extension;
    freed.(bids := freed.bids[env.row := Bid(a, bidder, amount, Leading, env.t0)],
           auctions := db.auctions[a := Auction(auc.item, auc.seller, Active, auc.startsAt,
                                                if auc.endsAt < late then late else auc.endsAt,
                                                Some(env.row), auc.winner, env.t0)])
  }

  /** Reserving first and releasing after works for every leader, the bidder itself included. */
  lemma HoldSucceeds(db: Tables, a: nat, bidder: nat, amount: int, env: Env)
    requires a in db.auctions && Covered(db, a) && amount > 0
    ensures var r := Transitions.HoldFor(db, a, bidder, amount, db.auctions[a].highest, env);
            if bidder !in db.wallets then r == Err(WalletMissing)
            else if amount > db.wallets[bidder].total - db.wallets[bidder].reserved then r == Err(InsufficientFunds)
            else r == Ok(Reserving(db, a, bidder, amount, env))
  {
  }

  /** The result of a bid: the first condition that fails names the error. */
  ghost predicate BidOutcome(db: Tables, cfg: Config, a: nat, bidder: nat, amount: int, env: Env, r: Result<Tables>) {
    if a !in db.auctions then r == Err(NotFound)
    else
      var auc := db.auctions[a];
      if auc.status != Active then r == Err(AuctionNotActive)
      else if auc.endsAt <= env.t0 then r == Err(AuctionHasEnded)
      else if auc.seller == bidder then r == Err(SelfBid)
      else if amount <= 0 then r == Err(InvalidAmount)
      else if 100 * amount < 105 * Price(auc, db.bids) then r == Err(BidTooLow)
      else if bidder !in db.wallets then r == Err(WalletMissing)
      else if amount > db.wallets[bidder].total - db.wallets[bidder].reserved then r == Err(InsufficientFunds)
      else if !Covered(db, a) then false
      else r == Ok(WithBid(db, cfg, a, bidder, amount, env))
  }

  lemma BidSucceeds(db: Tables, cfg: Config, a: nat, bidder: nat, amount: int, env: Env)
    requires a in db.auctions && db.auctions[a].status == Active ==> Covered(db, a)
    ensures BidOutcome(db, cfg, a, bidder, amount, env, Transitions.PlaceBid(db, cfg, a, bidder, amount, env))
  {
    if a in db.auctions && db.auctions[a].status == Active {
      Rules.BidAcceptedIff(Price(db.auctions[a], db.bids), amount);
      if amount > 0 {
        HoldSucceeds(db, a, bidder, amount, env);
      }
    }
  }

  lemma ActiveCovered(w: World, db: Tables, a: nat)
    requires Inv(w, db) && a in db.auctions && db.auctions[a].status == Active
    ensures Covered(db, a)
  {
    if db.auctions[a].highest.Some? {
      Settlement.LeaderReserved(db, a);
    }
  }

  /**
   * Main result, exact: in a reachable state a bid succeeds if and only if the auction is active and has not ended at
   * the reading, the bidder is not the seller, and the positive amount is at least 105% of the leading one and within
   * what the bidder has not reserved, also when the bidder is the leader; otherwise the first of these that fails
   * names the error. Releasing the outbid leader never fails.
   */
  lemma BidExactly(w: World, db: Tables, a: nat, bidder: nat, amount: int, env: Env)
    requires Inv(w, db)
    ensures Transitions.PlaceBid(db, w.cfg, a, bidder, amount, env).Ok? <==>
              && a in db.auctions && db.auctions[a].status == Active && env.t0 < db.auctions[a].endsAt
              && bidder != db.auctions[a].seller && bidder in db.wallets
              && amount > 0 && 100 * amount >= 105 * Price(db.auctions[a], db.bids)
              && amount <= db.wallets[bidder].total - db.wallets[bidder].reserved
    ensures BidOutcome(db, w.cfg, a, bidder, amount, env, Transitions.PlaceBid(db, w.cfg, a, bidder, amount, env))
  {
    if a in db.auctions && db.auctions[a].status == Active {
      ActiveCovered(w, db, a);
    }
    BidSucceeds(db, w.cfg, a, bidder, amount, env);
  }

  ghost predicate CancelOutcome(db: Tables, a: nat, b: nat, bidder: nat, r: Result<Tables>) {
    if a !in db.auctions then r == Err(NotFound)
    else if db.auctions[a].status != Active then r == Err(AuctionNotActive)
    else if b !in db.bids || db.bids[b].auction != a || db.bids[b].bidder != bidder then r == Err(NotFound)
    else if db.auctions[a].highest == Some(b) then r == Err(CancelHighestBid)
    else r == Ok(db.(bids := db.bids[b := db.bids[b].(status := BidCancelled)]))
  }

  lemma CancelSucceeds(db: Tables, a: nat, b: nat, bidder: nat, env: Env)
    requires b in db.bids ==> BidOk(db, b)
    ensures CancelOutcome(db, a, b, bidder, Transitions.CancelBid(db, a, b, bidder, env))
  {
  }

  lemma LeadingIsHighest(db: Tables, b: nat)
    requires b in db.bids && BidOk(db, b)
    ensures db.bids[b].status == Leading <==>
              db.auctions[db.bids[b].auction].status == Active && db.auctions[db.bids[b].auction].highest == Some(b)
  {
  }

  /**
   * Main result, exact: in a reachable state a cancellation succeeds if and only if the auction is active and the bid
   * is the caller's, on that auction, and not its highest; it then marks the bid and changes nothing else. The error
   * for the highest bid is for the caller's own leading bid, and for nothing else.
   */
  lemma CancelExactly(w: World, db: Tables, a: nat, b: nat, bidder: nat, env: Env)
    requires Inv(w, db)
    ensures Transitions.CancelBid(db, a, b, bidder, env).Ok? <==>
              && a in db.auctions && db.auctions[a].status == Active
              && b in db.bids && db.bids[b].auction == a && db.bids[b].bidder == bidder
              && db.auctions[a].highest != Some(b)
    ensures Transitions.CancelBid(db, a, b, bidder, env) == Err(CancelHighestBid) <==>
              && b in db.bids && db.bids[b].auction == a && db.bids[b].bidder == bidder
              && db.bids[b].status == Leading
    ensures CancelOutcome(db, a, b, bidder, Transitions.CancelBid(db, a, b, bidder, env))
  {
    CancelSucceeds(db, a, b, bidder, env);
    if b in db.bids {
      LeadingIsHighest(db, b);
      assert db.bids[b].auction in db.auctions;
    }
  }

  /** The tables after a settlement. Without a bid the item goes back to its owner. */
  function Closed(db: Tables, a: nat, env: Env): Tables
    requires a in db.auctions && Covered(db, a)
    requires db.auctions[a].item in db.items && db.auctions[a].seller in db.wallets
  {
    var auc := db.auctions[a];
    var it := db.items[auc.item];
    if auc.highest == None then
      db.(items := db.items[auc.item := Item(it.name, it.tier, it.owner, Available, it.stock)],
          auctions := db.auctions[a := Auction(auc.item, auc.seller, Settled, auc.startsAt, auc.endsAt, None,
                                               auc.winner, env.t1)])
    else
      var h := auc.highest.value;
      var win := db.bids[h];
      var w := db.wallets[win.bidder];
      var spent := db.wallets[win.bidder := Wallet(w.total - win.amount, w.reserved - win.amount)];
      db.(wallets := spent[auc.seller := Wallet(spent[auc.seller].total + win.amount, spent[auc.seller].reserved)],
          ledger := db.ledger[env.e1 := Entry(win.bidder, Debited, win.amount, AuctionRef(a))]
                             [env.e2 := Entry(auc.seller, Credited, win.amount, AuctionRef(a))],
          items := db.items[auc.item := Item(it.name, it.tier, win.bidder, Available, it.stock)],
          auctions := db.auctions[a := Auction(auc.item, auc.seller, Settled, auc.startsAt, auc.endsAt, Some(h),
                                               Some(win.bidder), env.t1)],
          bids := db.bids[h := Bid(win.auction, win.bidder, win.amount, Won, win.createdAt)])
  }

  ghost predicate SettleOutcome(db: Tables, a: nat, env: Env, r: Result<Tables>) {
    if a !in db.auctions then r == Err(NotFound)
    else if db.auctions[a].status != Active || env.t0 < db.auctions[a].endsAt then r == Ok(db)
    else if db.auctions[a].item !in db.items || db.auctions[a].seller !in db.wallets || !Covered(db, a) then false
    else r == Ok(Closed(db, a, env))
  }

  lemma SettleSucceeds(db: Tables, a: nat, env: Env)
    requires a in db.auctions && db.auctions[a].status == Active ==>
               db.auctions[a].item in db.items && db.auctions[a].seller in db.wallets && Covered(db, a)
    ensures SettleOutcome(db, a, env, Transitions.Settle(db, a, env))
  {
  }

  lemma AuctionRefers(db: Tables, a: nat)
    requires Catalog(db) && a in db.auctions
    ensures db.auctions[a].item in db.items && db.auctions[a].seller in db.wallets
  {
    assert AuctionOk(db, db.auctions[a]);
  }

  /**
   * Main result, exact: in a reachable state settling fails only for an unknown auction, changes nothing unless the
   * auction is active and has ended at the reading, and otherwise closes it: the leader pays its bid out of its
   * reserve to the seller and owns the item, or without a bid the item is available again.
   */
  lemma SettleExactly(w: World, db: Tables, a: nat, env: Env)
    requires Inv(w, db)
    ensures SettleOutcome(db, a, env, Transitions.Settle(db, a, env))
  {
    if a in db.auctions && db.auctions[a].status == Active {
      ActiveCovered(w, db, a);
      AuctionRefers(db, a);
    }
    SettleSucceeds(db, a, env);
  }
}
