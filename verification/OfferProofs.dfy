/** Creating items, listings and auctions, and cancelling bids, keep every invariant. */
module OfferProofs {
  import opened Model
  import opened Sums
  import opened Transitions
  import opened Invariants
  import opened LedgerProofs

  lemma NewItemCatalog(db: Tables, row: nat, it: Item)
    requires Catalog(db) && row !in db.items && ItemOk(it) && it.status != InAuction && it.owner in db.guilds
    ensures Catalog(db.(items := db.items[row := it]))
  {
    var db' := db.(items := db.items[row := it]);
    forall x, i ensures ActiveFor(db', x, i) == ActiveFor(db, x, i) { }
    forall l | l in db'.listings ensures ListingOk(db', db'.listings[l]) { assert ListingOk(db, db.listings[l]); }
    forall a | a in db'.auctions ensures AuctionOk(db', db'.auctions[a]) { assert AuctionOk(db, db.auctions[a]); }
  }

  ghost predicate Created(db: Tables, row: nat, it: Item, db': Tables) {
    && row !in db.items && ItemOk(it) && it.status == Available && it.owner in db.guilds
    && db' == db.(items := db.items[row := it])
  }

  lemma CreatedShape(db: Tables, owner: nat, name: string, tier: Option<Tier>, stock: int, env: Env, db': Tables)
    requires env.row !in db.items && Transitions.CreateItem(db, owner, name, tier, stock, env) == Ok(db')
    ensures tier.Some?
    ensures Created(db, env.row, Item(name, tier.value, owner, Available, if tier == Some(Legendary) then 1 else stock),
                    db')
  {
  }

  lemma CreatedKeeps(w: World, db: Tables, row: nat, it: Item, db': Tables)
    requires Inv(w, db) && Created(db, row, it, db')
    ensures Inv(w, db')
  {
    NewItemCatalog(db, row, it);
    BidsFrame(db, db');
    AccountsFrame(db, db');
    MoneyFrame(w, db, db');
  }

  lemma NewListingCatalog(db: Tables, row: nat, l: Listing)
    requires Catalog(db) && row !in db.listings && ListingOk(db, l)
    ensures Catalog(db.(listings := db.listings[row := l]))
  {
    var db' := db.(listings := db.listings[row := l]);
    forall x, i ensures ActiveFor(db', x, i) == ActiveFor(db, x, i) { }
    forall x | x in db'.listings ensures ListingOk(db', db'.listings[x]) {
      assert x != row ==> ListingOk(db, db.listings[x]);
    }
    forall a | a in db'.auctions ensures AuctionOk(db', db'.auctions[a]) { assert AuctionOk(db, db.auctions[a]); }
  }

  /** Nothing is booked under a new listing. */
  lemma NewListingAccounts(db: Tables, row: nat, l: Listing)
    requires Accounts(db) && row !in db.listings && l.status == Open
    ensures Accounts(db.(listings := db.listings[row := l]))
  {
    var db' := db.(listings := db.listings[row := l]);
    EntriesKept(db, db');
    forall e | e in db.ledger ensures db.ledger[e].ref != ListingRef(row) { assert EntryOk(db, db.ledger[e]); }
    assert Booked(db'.ledger, ListingRef(row)) == {};
    forall x | x in db'.listings ensures ListingBooked(db', x) {
      if x != row { assert ListingBooked(db, x); }
    }
    forall a | a in db'.auctions ensures AuctionBooked(db', a) { assert AuctionBooked(db, a); }
  }

  lemma NothingBought(listings: map<nat, Listing>, row: nat, l: Listing, g: nat)
    requires row !in listings && l.status == Open
    ensures Sum(BoughtBy(listings[row := l], g)) == Sum(BoughtBy(listings, g))
  {
    SumUpdate(BoughtBy(listings, g), row, 0);
    assert BoughtBy(listings[row := l], g) == BoughtBy(listings, g)[row := 0];
  }

  lemma NewListingSpending(db: Tables, row: nat, l: Listing)
    requires Spending(db) && row !in db.listings && l.status == Open
    ensures Spending(db.(listings := db.listings[row := l]))
  {
    forall g | g in db.guilds ensures Sum(BoughtBy(db.listings[row := l], g)) == Sum(BoughtBy(db.listings, g)) {
      NothingBought(db.listings, row, l, g);
    }
  }

  ghost predicate Listed(db: Tables, row: nat, l: Listing, db': Tables) {
    && row !in db.listings && l.status == Open && l.buyer == None && l.price > 0
    && l.item in db.items && db.items[l.item].owner == l.seller
    && db.items[l.item].tier != Legendary && db.items[l.item].stock >= 1
    && db' == db.(listings := db.listings[row := l])
  }

  lemma ListedShape(db: Tables, seller: nat, item: nat, price: int, env: Env, db': Tables)
    requires env.row !in db.listings && Transitions.CreateListing(db, seller, item, price, env) == Ok(db')
    ensures Listed(db, env.row, Listing(item, seller, price, Open, None), db')
  {
  }

  lemma ListedKeeps(w: World, db: Tables, row: nat, l: Listing, db': Tables)
    requires Inv(w, db) && Listed(db, row, l, db')
    ensures Inv(w, db')
  {
    NewListingCatalog(db, row, l);
    BidsFrame(db, db');
    NewListingAccounts(db, row, l);
    NewListingSpending(db, row, l);
    MoneyFrame(w, db, db');
  }

  // ---- CreateAuction ----

  ghost predicate Opened(cfg: Config, db: Tables, seller: nat, item: nat, env: Env, db': Tables) {
    && env.row !in db.auctions && item in db.items
    && db.items[item].owner == seller && db.items[item].tier == Legendary && db.items[item].status == Available
    && db' == db.(auctions :=
                    db.auctions[env.row :=
                      Auction(item, seller, Active, env.t0, env.t0 + cfg.window, None, None, env.t0)],
                  items := db.items[item := db.items[item].(status := InAuction)])
  }

  lemma OpenedCatalog(cfg: Config, db: Tables, seller: nat, item: nat, env: Env, db': Tables)
    requires Opened(cfg, db, seller, item, env, db') && Catalog(db)
    ensures Catalog(db')
  {
    forall x ensures !ActiveFor(db, x, item) {
      assert x in db.auctions ==> AuctionOk(db, db.auctions[x]);
    }
    OneMore(cfg, db, seller, item, env, db');
    forall l | l in db'.listings ensures ListingOk(db', db'.listings[l]) { assert ListingOk(db, db.listings[l]); }
    forall a | a in db'.auctions ensures AuctionOk(db', db'.auctions[a]) {
      if a != env.row {
        assert AuctionOk(db, db.auctions[a]);
        assert db.auctions[a].status == Active ==> ActiveFor(db, a, db.auctions[a].item);
      }
    }
  }

  /** The new auction is active, and every item in auction has its own. */
  lemma OneMore(cfg: Config, db: Tables, seller: nat, item: nat, env: Env, db': Tables)
    requires Opened(cfg, db, seller, item, env, db') && Catalog(db)
    ensures forall x, i :: ActiveFor(db', x, i) <==> ActiveFor(db, x, i) || (x == env.row && i == item)
    ensures forall i :: i in db'.items && db'.items[i].status == InAuction ==> exists a :: ActiveFor(db', a, i)
  {
    forall x, i ensures ActiveFor(db', x, i) <==> ActiveFor(db, x, i) || (x == env.row && i == item) { }
    forall i | i in db'.items && db'.items[i].status == InAuction ensures exists a :: ActiveFor(db', a, i) {
      if i == item {
        assert ActiveFor(db', env.row, i);
      } else {
        var a :| ActiveFor(db, a, i);
        assert ActiveFor(db', a, i);
      }
    }
  }

  lemma OpenedBids(cfg: Config, db: Tables, seller: nat, item: nat, env: Env, db': Tables)
    requires Opened(cfg, db, seller, item, env, db') && BidsOk(db) && Timeline(cfg, db)
    ensures BidsOk(db') && Timeline(cfg, db')
  {
    forall b | b in db'.bids ensures BidOk(db', b) { assert BidOk(db, b); }
    forall a | a in db'.auctions ensures LeaderOk(db', a) && Timed(cfg, a, db'.auctions[a], db'.bids) {
      if a == env.row {
        forall b | b in db.bids ensures db.bids[b].auction != a { assert BidOk(db, b); }
        assert BidsOf(db'.bids, a) == {};
      } else {
        assert LeaderOk(db, a) && Timed(cfg, a, db.auctions[a], db.bids);
      }
    }
  }

  lemma OpenedReserves(cfg: Config, db: Tables, seller: nat, item: nat, env: Env, db': Tables)
    requires Opened(cfg, db, seller, item, env, db') && Reserves(db)
    ensures Reserves(db')
  {
    forall g | g in db'.wallets ensures db'.wallets[g].reserved == Sum(Held(db'.auctions, db'.bids, g)) {
      HeldUpdate(db.auctions, db.bids, env.row, db'.auctions[env.row], db'.bids, g);
    }
  }

  /** Nothing is booked under a new auction. */
  lemma OpenedAccount(db: Tables, db': Tables, row: nat)
    requires forall e :: e in db.ledger ==> EntryOk(db, db.ledger[e])
    requires row !in db.auctions && db'.ledger == db.ledger
    requires row in db'.auctions && db'.auctions[row].highest == None && db'.auctions[row].status == Active
    ensures AuctionBooked(db', row)
  {
    forall e | e in db.ledger ensures db.ledger[e].ref != AuctionRef(row) && db.ledger[e].ref != BidRef(row) {
      assert EntryOk(db, db.ledger[e]);
    }
    assert Booked(db'.ledger, AuctionRef(row)) == {};
    SumZero(NetOf(db'.ledger, row));
  }

  lemma OpenedAccounts(cfg: Config, db: Tables, seller: nat, item: nat, env: Env, db': Tables)
    requires Opened(cfg, db, seller, item, env, db') && Accounts(db)
    ensures Accounts(db')
  {
    EntriesKept(db, db');
    OpenedAccount(db, db', env.row);
    forall a | a in db'.auctions ensures AuctionBooked(db', a) {
      if a != env.row { assert AuctionBooked(db, a); }
    }
    ListingsKept(db, db');
  }

  lemma OpenedShape(cfg: Config, db: Tables, seller: nat, item: nat, env: Env, db': Tables)
    requires env.row !in db.auctions && Transitions.CreateAuction(db, cfg, seller, item, env) == Ok(db')
    ensures Opened(cfg, db, seller, item, env, db')
  {
  }

  lemma OpenedKeeps(w: World, db: Tables, seller: nat, item: nat, env: Env, db': Tables)
    requires Inv(w, db) && Opened(w.cfg, db, seller, item, env, db')
    ensures Inv(w, db')
  {
    OpenedCatalog(w.cfg, db, seller, item, env, db');
    OpenedBids(w.cfg, db, seller, item, env, db');
    OpenedReserves(w.cfg, db, seller, item, env, db');
    OpenedAccounts(w.cfg, db, seller, item, env, db');
    MoneyFrame(w, db, db');
  }

  // ---- CancelBid ----

  ghost predicate Cancelled(db: Tables, b: nat, db': Tables) {
    && b in db.bids
    && (db.bids[b].status == Released || db.bids[b].status == BidCancelled)
    && db' == db.(bids := db.bids[b := db.bids[b].(status := BidCancelled)])
  }

  /** A bid that may be cancelled is never still marked as leading, so cancelling moves no money. */
  lemma CancelMovesNoMoney(db: Tables, a: nat, b: nat, bidder: nat, env: Env, db': Tables)
    requires forall x :: x in db.bids ==> BidOk(db, x)
    requires Transitions.CancelBid(db, a, b, bidder, env) == Ok(db')
    ensures Cancelled(db, b, db')
  {
    assert BidOk(db, b);
  }

  lemma CancelledBids(db: Tables, b: nat, db': Tables)
    requires Cancelled(db, b, db') && BidsOk(db)
    ensures BidsOk(db')
  {
    assert BidOk(db, b);
    forall c | c in db'.bids ensures BidOk(db', c) { assert BidOk(db, c); }
    forall x | x in db'.auctions ensures LeaderOk(db', x) { assert LeaderOk(db, x); }
  }

  lemma CancelledTimes(cfg: Config, db: Tables, b: nat, db': Tables)
    requires Cancelled(db, b, db') && Growth(db.bids) && Timeline(cfg, db)
    ensures Growth(db'.bids) && Timeline(cfg, db')
  {
    assert db'.bids.Keys == db.bids.Keys;
    forall x | x in db'.auctions ensures Timed(cfg, x, db'.auctions[x], db'.bids) {
      assert Timed(cfg, x, db.auctions[x], db.bids);
      assert BidsOf(db'.bids, x) == BidsOf(db.bids, x);
    }
  }

  lemma CancelledCatalog(db: Tables, b: nat, db': Tables)
    requires Cancelled(db, b, db') && Catalog(db)
    ensures Catalog(db')
  {
    forall x, i ensures ActiveFor(db', x, i) == ActiveFor(db, x, i) { }
  }

  lemma CancelledReserves(db: Tables, b: nat, db': Tables)
    requires Cancelled(db, b, db') && Reserves(db)
    ensures Reserves(db')
  {
    forall g ensures Held(db'.auctions, db'.bids, g) == Held(db.auctions, db.bids, g) { }
  }

  lemma CancelledAccount(db: Tables, b: nat, db': Tables, y: nat)
    requires Cancelled(db, b, db') && y in db.auctions && LeaderOk(db, y) && AuctionBooked(db, y)
    ensures AuctionBooked(db', y)
  {
    AuctionKept(db, db', y);
  }

  lemma CancelledAccounts(db: Tables, b: nat, db': Tables)
    requires Cancelled(db, b, db') && BidsOk(db) && Accounts(db)
    ensures Accounts(db')
  {
    EntriesKept(db, db');
    ListingsKept(db, db');
    forall y | y in db'.auctions ensures AuctionBooked(db', y) {
      CancelledAccount(db, b, db', y);
    }
  }

  lemma CancelledAffordable(w: World, db: Tables, b: nat, db': Tables)
    requires Cancelled(db, b, db') && Affordable(w, db.bids)
    ensures Affordable(w, db'.bids)
  {
  }

  lemma CancelledKeeps(w: World, db: Tables, b: nat, db': Tables)
    requires Inv(w, db) && Cancelled(db, b, db')
    ensures Inv(w, db')
  {
    CancelledBids(db, b, db');
    CancelledTimes(w.cfg, db, b, db');
    CancelledCatalog(db, b, db');
    CancelledReserves(db, b, db');
    CancelledAccounts(db, b, db');
    CancelledAffordable(w, db, b, db');
    MoneyFrame(w, db, db');
  }
}
