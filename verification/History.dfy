/** What no transaction can undo, and what each can change. */
module History {
  import opened Model
  import opened Sums
  import opened Transitions
  import opened Invariants
  import opened Effects
  import Reachable
  import PlaceBidProofs
  import SettleProofs
  import BuyProofs
  import OfferProofs

  ghost function SoldFrom(listings: map<nat, Listing>, i: nat): set<nat> {
    set l | l in listings && listings[l].item == i && listings[l].status == ListingSold
  }

  /** Units of item row i that were ever there: those left and those sold through its listings. */
  ghost function Units(db: Tables, i: nat): int
    requires i in db.items
  {
    db.items[i].stock + |SoldFrom(db.listings, i)|
  }

  ghost predicate AuctionGrows(db: Tables, db': Tables, a: nat)
    requires a in db.auctions
  {
    && a in db'.auctions
    && db'.auctions[a].item == db.auctions[a].item && db'.auctions[a].seller == db.auctions[a].seller
    && db'.auctions[a].startsAt == db.auctions[a].startsAt
    && db.auctions[a].endsAt <= db'.auctions[a].endsAt
    && (db.auctions[a].status != Active ==> db'.auctions[a] == db.auctions[a])
    && (db.auctions[a].highest.Some? ==> db'.auctions[a].highest.Some?)
  }

  ghost predicate BidGrows(db: Tables, db': Tables, b: nat)
    requires b in db.bids
  {
    && b in db'.bids
    && db'.bids[b] == db.bids[b].(status := db'.bids[b].status)
  }

  ghost predicate ItemGrows(db: Tables, db': Tables, i: nat)
    requires i in db.items
  {
    && i in db'.items
    && db'.items[i].name == db.items[i].name && db'.items[i].tier == db.items[i].tier
    && Units(db', i) == Units(db, i)
    && (db.items[i].tier != Legendary ==> db'.items[i].owner == db.items[i].owner)
  }

  ghost predicate ListingGrows(db: Tables, db': Tables, l: nat)
    requires l in db.listings
  {
    && l in db'.listings
    && (db.listings[l].status == ListingSold ==> db'.listings[l] == db.listings[l])
    && db'.listings[l] == db.listings[l].(status := db'.listings[l].status, buyer := db'.listings[l].buyer)
  }

  /** Rows keep their identity, ledger entries never change, sold and settled rows are final, units are conserved. */
  ghost predicate Grows(db: Tables, db': Tables) {
    && db'.guilds == db.guilds
    && (forall e :: e in db.ledger ==> e in db'.ledger && db'.ledger[e] == db.ledger[e])
    && (forall a :: a in db.auctions ==> AuctionGrows(db, db', a))
    && (forall b :: b in db.bids ==> BidGrows(db, db', b))
    && (forall i :: i in db.items ==> ItemGrows(db, db', i))
    && (forall l :: l in db.listings ==> ListingGrows(db, db', l))
  }

  lemma GrowsTransitive(d0: Tables, d1: Tables, d2: Tables)
    requires Grows(d0, d1) && Grows(d1, d2)
    ensures Grows(d0, d2)
  {
    forall a | a in d0.auctions ensures AuctionGrows(d0, d2, a) {
      assert AuctionGrows(d0, d1, a) && AuctionGrows(d1, d2, a);
    }
    forall b | b in d0.bids ensures BidGrows(d0, d2, b) { assert BidGrows(d0, d1, b) && BidGrows(d1, d2, b); }
    forall i | i in d0.items ensures ItemGrows(d0, d2, i) { assert ItemGrows(d0, d1, i) && ItemGrows(d1, d2, i); }
    forall l | l in d0.listings ensures ListingGrows(d0, d2, l) {
      assert ListingGrows(d0, d1, l) && ListingGrows(d1, d2, l);
    }
  }

  lemma PlaceBidGrows(w: World, db: Tables, a: nat, bidder: nat, amount: int, env: Env, db': Tables)
    requires PlaceBidProofs.Rows(w.cfg, db, a, bidder, amount, env, db')
    requires PlaceBidProofs.Moves(db, a, bidder, amount, env, db')
    ensures Grows(db, db')
  {
    EntriesBid(w, db, a, bidder, amount, env, db');
    RowsBid(w, db, a, bidder, amount, env, db');
  }

  lemma EntriesBid(w: World, db: Tables, a: nat, bidder: nat, amount: int, env: Env, db': Tables)
    requires PlaceBidProofs.Rows(w.cfg, db, a, bidder, amount, env, db')
    requires PlaceBidProofs.Moves(db, a, bidder, amount, env, db')
    ensures forall e :: e in db.ledger ==> e in db'.ledger && db'.ledger[e] == db.ledger[e]
  {
    PlaceBidProofs.Bookings(db, a, bidder, amount, env, db');
  }

  lemma RowsBid(w: World, db: Tables, a: nat, bidder: nat, amount: int, env: Env, db': Tables)
    requires PlaceBidProofs.Rows(w.cfg, db, a, bidder, amount, env, db')
    requires forall e :: e in db.ledger ==> e in db'.ledger && db'.ledger[e] == db.ledger[e]
    ensures Grows(db, db')
  {
    forall i | i in db.items ensures ItemGrows(db, db', i) {
      SameUnits(db, db', i);
    }
  }

  lemma SameUnits(db: Tables, db': Tables, i: nat)
    requires i in db.items && i in db'.items && db'.listings == db.listings && db'.items[i].stock == db.items[i].stock
    ensures Units(db', i) == Units(db, i)
  {
    assert SoldFrom(db'.listings, i) == SoldFrom(db.listings, i);
  }

  lemma SettleGrows(db: Tables, a: nat, env: Env, db': Tables)
    requires SettleProofs.Rows(db, a, env, db') && SettleProofs.Moves(db, a, env, db')
    requires db.items[db.auctions[a].item].tier == Legendary
    ensures Grows(db, db')
  {
    EntriesSettled(db, a, env, db');
    RowsSettled(db, a, env, db');
  }

  lemma EntriesSettled(db: Tables, a: nat, env: Env, db': Tables)
    requires SettleProofs.Rows(db, a, env, db') && SettleProofs.Moves(db, a, env, db')
    ensures forall e :: e in db.ledger ==> e in db'.ledger && db'.ledger[e] == db.ledger[e]
  {
    SettleProofs.Bookings(db, a, env, db');
  }

  lemma RowsSettled(db: Tables, a: nat, env: Env, db': Tables)
    requires SettleProofs.Rows(db, a, env, db') && db.items[db.auctions[a].item].tier == Legendary
    requires forall e :: e in db.ledger ==> e in db'.ledger && db'.ledger[e] == db.ledger[e]
    ensures Grows(db, db')
  {
    forall i | i in db.items ensures ItemGrows(db, db', i) {
      SameUnits(db, db', i);
    }
  }

  lemma UnitsBought(db: Tables, buyer: nat, l: nat, env: Env, db': Tables, i: nat)
    requires BuyProofs.Rows(db, buyer, l, env, db') && i in db.items
    ensures i in db'.items && Units(db', i) == Units(db, i)
  {
    if i == db.listings[l].item {
      assert SoldFrom(db'.listings, i) == SoldFrom(db.listings, i) + {l};
      assert l !in SoldFrom(db.listings, i);
    } else {
      assert SoldFrom(db'.listings, i) == SoldFrom(db.listings, i);
    }
  }

  lemma EntriesBought(db: Tables, buyer: nat, l: nat, env: Env, db': Tables)
    requires BuyProofs.Rows(db, buyer, l, env, db') && BuyProofs.Moves(db, buyer, l, env, db')
    ensures forall e :: e in db.ledger ==> e in db'.ledger && db'.ledger[e] == db.ledger[e]
  {
    BuyProofs.Bookings(db, buyer, l, env, db');
  }

  lemma BuyGrows(db: Tables, buyer: nat, l: nat, env: Env, db': Tables)
    requires BuyProofs.Rows(db, buyer, l, env, db') && BuyProofs.Moves(db, buyer, l, env, db')
    ensures Grows(db, db')
  {
    EntriesBought(db, buyer, l, env, db');
    RowsBought(db, buyer, l, env, db');
  }

  lemma RowsBought(db: Tables, buyer: nat, l: nat, env: Env, db': Tables)
    requires BuyProofs.Rows(db, buyer, l, env, db')
    requires forall e :: e in db.ledger ==> e in db'.ledger && db'.ledger[e] == db.ledger[e]
    ensures Grows(db, db')
  {
    forall i | i in db.items ensures ItemGrows(db, db', i) {
      UnitsBought(db, buyer, l, env, db', i);
    }
  }

  lemma CreatedGrows(db: Tables, row: nat, it: Item, db': Tables)
    requires OfferProofs.Created(db, row, it, db')
    ensures Grows(db, db')
  {
    forall i | i in db.items ensures ItemGrows(db, db', i) { SameUnits(db, db', i); }
  }

  lemma ListedGrows(db: Tables, row: nat, l: Listing, db': Tables)
    requires OfferProofs.Listed(db, row, l, db')
    ensures Grows(db, db')
  {
    forall i | i in db.items ensures ItemGrows(db, db', i) {
      assert SoldFrom(db'.listings, i) == SoldFrom(db.listings, i);
    }
  }

  lemma OpenedGrows(cfg: Config, db: Tables, seller: nat, item: nat, env: Env, db': Tables)
    requires OfferProofs.Opened(cfg, db, seller, item, env, db')
    ensures Grows(db, db')
  {
    forall i | i in db.items ensures ItemGrows(db, db', i) { SameUnits(db, db', i); }
  }

  lemma CancelGrows(db: Tables, b: nat, db': Tables)
    requires OfferProofs.Cancelled(db, b, db')
    ensures Grows(db, db')
  {
  }

  lemma EffectGrows(w: World, db: Tables, ev: Event, db': Tables)
    requires Catalog(db) && Effect(w.cfg, db, ev, db')
    ensures Grows(db, db')
  {
    match ev.req {
      case Buy(buyer, l) => BuyGrows(db, buyer, l, ev.env, db');
      case PlaceBid(a, bidder, amount) => PlaceBidGrows(w, db, a, bidder, amount, ev.env, db');
      case Settle(a) => SettledGrows(w, db, a, ev.env, db');
      case _ => OfferGrows(w, db, ev, db');
    }
  }

  lemma OfferGrows(w: World, db: Tables, ev: Event, db': Tables)
    requires Effect(w.cfg, db, ev, db') && !ev.req.Buy? && !ev.req.PlaceBid? && !ev.req.Settle?
    ensures Grows(db, db')
  {
    match ev.req {
      case CreateItem(owner, name, tier, stock) =>
        CreatedGrows(db, ev.env.row, NewItem(owner, name, tier.value, stock), db');
      case CreateListing(seller, item, price) =>
        ListedGrows(db, ev.env.row, Listing(item, seller, price, Open, None), db');
      case CreateAuction(seller, item) => OpenedGrows(w.cfg, db, seller, item, ev.env, db');
      case CancelBid(_, b, _) => CancelGrows(db, b, db');
    }
  }

  lemma SettledGrows(w: World, db: Tables, a: nat, env: Env, db': Tables)
    requires Catalog(db) && Effect(w.cfg, db, Event(Request.Settle(a), env), db')
    ensures Grows(db, db')
  {
    if Due(db.auctions[a], env.t0) {
      assert AuctionOk(db, db.auctions[a]);
      SettleGrows(db, a, env, db');
    } else {
      GrowsReflexive(db);
    }
  }

  lemma GrowsReflexive(db: Tables)
    ensures Grows(db, db)
  {
  }

  lemma LinkGrows(w: World, db: Tables, ev: Event, db': Tables)
    requires Catalog(db) && Reachable.Linked(w, db, ev, db')
    ensures Grows(db, db')
  {
    if db' == db {
      GrowsReflexive(db);
    } else {
      EffectGrows(w, db, ev, db');
    }
  }

  lemma StepGrows(w: World, db: Tables, ev: Event)
    requires Inv(w, db) && EnvOk(db, ev.req, ev.env)
    ensures Grows(db, Step(w.cfg, db, ev))
  {
    Reachable.StepLinked(w, db, ev);
    LinkGrows(w, db, ev, Step(w.cfg, db, ev));
  }

  /**
   * Main result: along every run nothing is lost; in particular each item row's stock and sales add up to what it
   * had.
   */
  lemma {:induction false} RunGrows(w: World, db: Tables, run: seq<Event>)
    requires Inv(w, db) && Legal(w.cfg, db, run)
    ensures Grows(db, After(w.cfg, db, run))
  {
    if run == [] {
      GrowsReflexive(db);
    } else {
      var before, ev := run[..|run| - 1], run[|run| - 1];
      var mid := After(w.cfg, db, before);
      RunGrows(w, db, before);
      Reachable.RunKeeps(w, db, before);
      StepGrows(w, mid, ev);
      GrowsTransitive(db, mid, Step(w.cfg, mid, ev));
    }
  }

  // ---- Stock and owners ----

  ghost function Stocks(items: map<nat, Item>): map<nat, int> {
    map i | i in items :: items[i].stock
  }

  ghost function Added(req: Request): int {
    match req
    case CreateItem(_, _, tier, stock) => if tier == Some(Legendary) then 1 else stock
    case _ => 0
  }

  lemma StockOfOne(items: map<nat, Item>, i: nat, it: Item)
    ensures Sum(Stocks(items[i := it])) == Sum(Stocks(items)) - At(Stocks(items), i) + it.stock
  {
    SumUpdate(Stocks(items), i, it.stock);
    assert Stocks(items[i := it]) == Stocks(items)[i := it.stock];
  }

  lemma HandOverKeepsStock(items: map<nat, Item>, i: nat, buyer: nat, row: nat)
    requires i in items && row !in items
    ensures Sum(Stocks(BuyProofs.HandOver(items, i, buyer, row))) == Sum(Stocks(items))
  {
    StockOfOne(items, i, BuyProofs.UnitsLeft(items[i]));
    StockOfOne(items[i := BuyProofs.UnitsLeft(items[i])], row, Item(items[i].name, items[i].tier, buyer, Available, 1));
  }

  lemma SettledStock(db: Tables, a: nat, env: Env, db': Tables)
    requires SettleProofs.Rows(db, a, env, db')
    ensures Sum(Stocks(db'.items)) == Sum(Stocks(db.items))
  {
    StockOfOne(db.items, db.auctions[a].item, db'.items[db.auctions[a].item]);
  }

  lemma OpenedStock(cfg: Config, db: Tables, seller: nat, item: nat, env: Env, db': Tables)
    requires OfferProofs.Opened(cfg, db, seller, item, env, db')
    ensures Sum(Stocks(db'.items)) == Sum(Stocks(db.items))
  {
    StockOfOne(db.items, item, db'.items[item]);
  }

  lemma BoughtStock(db: Tables, buyer: nat, l: nat, env: Env, db': Tables)
    requires BuyProofs.Rows(db, buyer, l, env, db')
    ensures Sum(Stocks(db'.items)) == Sum(Stocks(db.items))
  {
    HandOverKeepsStock(db.items, db.listings[l].item, buyer, env.row);
  }

  lemma SettleKeepsStock(w: World, db: Tables, a: nat, env: Env, db': Tables)
    requires Effect(w.cfg, db, Event(Request.Settle(a), env), db')
    ensures Sum(Stocks(db'.items)) == Sum(Stocks(db.items))
  {
    if Due(db.auctions[a], env.t0) {
      SettledStock(db, a, env, db');
    }
  }

  lemma CreatedStock(db: Tables, i: nat, it: Item, db': Tables)
    requires OfferProofs.Created(db, i, it, db')
    ensures Sum(Stocks(db'.items)) == Sum(Stocks(db.items)) + it.stock
  {
    StockOfOne(db.items, i, it);
  }

  lemma SameItems(cfg: Config, db: Tables, ev: Event, db': Tables)
    requires Effect(cfg, db, ev, db') && (ev.req.CreateListing? || ev.req.PlaceBid? || ev.req.CancelBid?)
    ensures db'.items == db.items
  {
  }

  /** Only creating an item adds stock to the market; every other transaction keeps the total. */
  lemma OnlyCreateItemAddsStock(w: World, db: Tables, ev: Event, db': Tables)
    requires Effect(w.cfg, db, ev, db')
    ensures Sum(Stocks(db'.items)) == Sum(Stocks(db.items)) + Added(ev.req)
  {
    match ev.req {
      case CreateItem(owner, name, tier, stock) =>
        CreatedStock(db, ev.env.row, NewItem(owner, name, tier.value, stock), db');
      case CreateAuction(seller, item) => OpenedStock(w.cfg, db, seller, item, ev.env, db');
      case Buy(buyer, l) => BoughtStock(db, buyer, l, ev.env, db');
      case Settle(a) => SettleKeepsStock(w, db, a, ev.env, db');
      case _ => SameItems(w.cfg, db, ev, db');
    }
  }

  lemma OwnerKept(w: World, db: Tables, ev: Event, db': Tables, i: nat)
    requires Effect(w.cfg, db, ev, db') && !ev.req.Settle? && i in db.items
    ensures i in db'.items && db'.items[i].owner == db.items[i].owner
  {
    match ev.req {
      case CreateItem(_, _, _, _) =>
      case CreateListing(_, _, _) =>
      case CreateAuction(_, _) =>
      case Buy(_, _) =>
      case PlaceBid(_, _, _) =>
      case CancelBid(_, _, _) =>
    }
  }

  /** An item changes owner only when an auction of it is settled with a winner, who becomes the owner. */
  lemma OwnerChangesOnlyByWinning(w: World, db: Tables, ev: Event, db': Tables, i: nat)
    requires Catalog(db) && Effect(w.cfg, db, ev, db')
    requires i in db.items && i in db'.items && db'.items[i].owner != db.items[i].owner
    ensures ev.req.Settle? && ev.req.auction in db.auctions && ev.req.auction in db'.auctions
    ensures var auc := db.auctions[ev.req.auction];
            && auc.status == Active && auc.item == i && ev.env.t0 >= auc.endsAt && db.items[i].tier == Legendary
    ensures var auc' := db'.auctions[ev.req.auction];
            && auc'.status == Settled && auc'.winner == Some(db'.items[i].owner)
  {
    if ev.req.Settle? {
      assert AuctionOk(db, db.auctions[ev.req.auction]);
    } else {
      OwnerKept(w, db, ev, db', i);
    }
  }
}
