/** What holds of the tables after every run from a seeded state, stated one guarantee at a time. */
module Guarantees {
  import opened Model
  import opened Rules
  import opened Sums
  import opened Wallets
  import opened Transitions
  import opened Invariants
  import Reachable
  import History
  import Machine
  import Serializability

  /** db is what a run of transactions, in any order and with any errors, leaves of a seeded state. */
  ghost predicate Reached(w: World, start: Tables, run: seq<Event>, db: Tables) {
    Init(w, start) && Legal(w.cfg, start, run) && After(w.cfg, start, run) == db
  }

  lemma ReachedInv(w: World, start: Tables, run: seq<Event>, db: Tables)
    requires Reached(w, start, run, db)
    ensures Inv(w, db)
  {
    Reachable.InitHolds(w, start);
    Reachable.RunKeeps(w, start, run);
  }

  /** So are the committed tables at every moment of every interleaving: each guarantee below holds of them too. */
  lemma InterleavingsReach(w: World, states: seq<Machine.State>, acts: seq<Machine.Action>, n: nat)
    returns (run: seq<Event>)
    requires Machine.Execution(w.cfg, states, acts) && n <= |acts|
    requires Init(w, states[0].store) && Machine.Issued(states[0].store, states[0].ids) && states[0].txns == map[]
    ensures Reached(w, states[0].store, run, states[n].store)
  {
    Reachable.InitHolds(w, states[0].store);
    run := Serializability.Serializable(w, states[..n + 1], acts[..n]);
  }

  // ---- Money ----

  /** A guild's reserve is exactly what it has bid on the active auctions it leads, and never more than it owns. */
  lemma ReservedExactly(w: World, start: Tables, run: seq<Event>, db: Tables, g: nat)
    requires Reached(w, start, run, db) && g in db.wallets
    ensures 0 <= db.wallets[g].reserved <= db.wallets[g].total
    ensures db.wallets[g].reserved == Sum(Held(db.auctions, db.bids, g))
  {
    ReachedInv(w, start, run, db);
    assert Solvent(db.wallets[g]);
  }

  /** No money is made or lost: balances always add up to what the guilds were seeded with. */
  lemma MoneyConserved(w: World, start: Tables, run: seq<Event>, db: Tables)
    requires Reached(w, start, run, db)
    ensures db.wallets.Keys == start.wallets.Keys && Sum(Totals(db.wallets)) == Sum(Totals(start.wallets))
  {
    ReachedInv(w, start, run, db);
    SeededMoney(w, start);
  }

  lemma SeededMoney(w: World, start: Tables)
    requires Init(w, start)
    ensures Totals(start.wallets) == Opening(w)
  {
  }

  /** The ledger alone gives the books: every prefix replays to a solvent wallet, and all of it to the stored one. */
  lemma LedgerRebuilds(w: World, start: Tables, run: seq<Event>, db: Tables, g: nat, n: nat)
    requires Reached(w, start, run, db) && g in db.wallets
    ensures g in start.wallets && start.wallets[g].total >= 0
    ensures var replayed := Replay(db.ledger, start.wallets[g].total, g, n);
            0 <= replayed.reserved <= replayed.total && (AllBelow(db.ledger, g, n) ==> replayed == db.wallets[g])
  {
    ReachedInv(w, start, run, db);
    assert Rebuilds(db.ledger, w.opening[g], g, db.wallets[g]);
    assert Solvent(Replay(db.ledger, w.opening[g], g, n));
  }

  /** The database's balance check never fires: a movement that passes its guard keeps 0 <= reserved <= total. */
  lemma GuardsKeepSolvent(w: Wallet, kind: EntryKind, ref: Ref, amount: int)
    requires Solvent(w) && Change(kind, ref, w, amount).Ok?
    ensures Solvent(Change(kind, ref, w, amount).value)
  {
  }

  /**
   * For each auction, reserves less releases booked against it equal its leading or winning bid, and there is one
   * debit of the winner and one credit of the seller at that amount once it is settled with a winner, and none
   * otherwise.
   */
  lemma AuctionAccounts(w: World, start: Tables, run: seq<Event>, db: Tables, a: nat)
    requires Reached(w, start, run, db) && a in db.auctions
    ensures Sum(NetOf(db.ledger, a)) == Price(db.auctions[a], db.bids)
    ensures db.auctions[a].highest.None? <==> BidsOf(db.bids, a) == {}
    ensures var auc := db.auctions[a];
            if auc.status == Settled && auc.winner.Some?
            then PaidOnce(db.ledger, AuctionRef(a), auc.winner.value, auc.seller, Price(auc, db.bids)) &&
                Price(auc, db.bids) > 0
            else Booked(db.ledger, AuctionRef(a)) == {}
  {
    ReachedInv(w, start, run, db);
    AuctionAccount(w, db, a);
  }

  lemma AuctionAccount(w: World, db: Tables, a: nat)
    requires BidsOk(db) && Accounts(db) && a in db.auctions
    ensures Sum(NetOf(db.ledger, a)) == Price(db.auctions[a], db.bids)
    ensures db.auctions[a].highest.None? <==> BidsOf(db.bids, a) == {}
    ensures var auc := db.auctions[a];
            if auc.status == Settled && auc.winner.Some?
            then PaidOnce(db.ledger, AuctionRef(a), auc.winner.value, auc.seller, Price(auc, db.bids)) &&
                Price(auc, db.bids) > 0
            else Booked(db.ledger, AuctionRef(a)) == {}
  {
    var auc := db.auctions[a];
    assert AuctionBooked(db, a) && LeaderOk(db, a);
    if auc.highest.Some? {
      assert BidOk(db, auc.highest.value) && auc.highest.value in BidsOf(db.bids, a);
    } else {
      forall b ensures b !in BidsOf(db.bids, a) { assert b in db.bids ==> BidOk(db, b); }
    }
  }

  /**
   * For each listing there is one debit of the buyer and one credit of the seller at its price, exactly if it is
   * sold.
   */
  lemma ListingAccounts(w: World, start: Tables, run: seq<Event>, db: Tables, l: nat)
    requires Reached(w, start, run, db) && l in db.listings
    ensures var lst := db.listings[l];
            if lst.status == ListingSold
            then lst.buyer.Some? && PaidOnce(db.ledger, ListingRef(l), lst.buyer.value, lst.seller, lst.price) &&
                lst.price > 0
            else Booked(db.ledger, ListingRef(l)) == {}
  {
    ReachedInv(w, start, run, db);
    assert ListingBooked(db, l) && ListingOk(db, db.listings[l]);
  }

  /** No day's purchases exceed a guild's cap, even across midnight, and its totals add up to what it bought. */
  lemma DailyCapHolds(w: World, start: Tables, run: seq<Event>, db: Tables, g: nat, day: nat)
    requires Reached(w, start, run, db) && g in db.guilds
    ensures db.guilds[g] > 0 ==> DailySpent(db, g, day) <= db.guilds[g]
    ensures Sum(SpentBy(db.daily, g)) == Sum(BoughtBy(db.listings, g))
  {
    ReachedInv(w, start, run, db);
  }

  // ---- Bids, items and stock ----

  lemma ReachedBids(w: World, start: Tables, run: seq<Event>, db: Tables)
    requires Reached(w, start, run, db)
    ensures BidsOk(db) && Growth(db.bids) && Timeline(w.cfg, db)
  {
    ReachedInv(w, start, run, db);
  }

  /** A bid is marked as leading exactly while its auction is active and no bid of it is higher or later. */
  lemma LeadingIff(w: World, start: Tables, run: seq<Event>, db: Tables, b: nat)
    requires Reached(w, start, run, db) && b in db.bids
    ensures db.bids[b].auction in db.auctions
    ensures db.bids[b].status == Leading <==>
            && db.auctions[db.bids[b].auction].status == Active
            && forall c :: c in BidsOf(db.bids, db.bids[b].auction) ==> c <= b && db.bids[c].amount <= db.bids[b].amount
  {
    ReachedBids(w, start, run, db);
    LeadingBid(db, b);
  }

  lemma LeadingBid(db: Tables, b: nat)
    requires BidsOk(db) && Growth(db.bids) && b in db.bids
    ensures db.bids[b].auction in db.auctions
    ensures db.bids[b].status == Leading <==>
            && db.auctions[db.bids[b].auction].status == Active
            && forall c :: c in BidsOf(db.bids, db.bids[b].auction) ==> c <= b && db.bids[c].amount <= db.bids[b].amount
  {
    var a := db.bids[b].auction;
    assert BidOk(db, b) && LeaderOk(db, a);
    assert db.auctions[a].highest.value in BidsOf(db.bids, a);
    forall c | c in BidsOf(db.bids, a) ensures BidOk(db, c) && db.bids[c].amount > 0 {
      assert BidOk(db, c);
    }
  }

  /** Bids of one auction, in the order they were made, grow by 5% each time and were made before the auction ended. */
  lemma BidsGrow(w: World, start: Tables, run: seq<Event>, db: Tables, b: nat, c: nat)
    requires Reached(w, start, run, db) && b in db.bids && c in db.bids && b < c
    requires db.bids[b].auction == db.bids[c].auction
    ensures MinNextBid(db.bids[b].amount) <= db.bids[c].amount && db.bids[b].amount < db.bids[c].amount
    ensures db.bids[b].createdAt <= db.bids[c].createdAt
    ensures db.bids[c].auction in db.auctions && db.bids[c].createdAt < db.auctions[db.bids[c].auction].endsAt
  {
    ReachedBids(w, start, run, db);
    assert BidOk(db, b) && BidOk(db, c);
    BidAcceptedIff(db.bids[b].amount, db.bids[c].amount);
    assert Timed(w.cfg, db.bids[c].auction, db.auctions[db.bids[c].auction], db.bids);
  }

  ghost predicate LastBid(bids: map<nat, Bid>, a: nat, b: nat) {
    b in BidsOf(bids, a) && forall c :: c in BidsOf(bids, a) ==> c <= b
  }

  /** An auction ends at the later of its window's end and its last accepted bid plus the extension. */
  lemma EndsWhen(w: World, start: Tables, run: seq<Event>, db: Tables, a: nat, b: nat)
    requires Reached(w, start, run, db) && a in db.auctions
    ensures BidsOf(db.bids, a) == {} ==> db.auctions[a].endsAt == db.auctions[a].startsAt + w.cfg.window
    ensures LastBid(db.bids, a, b) ==>
              db.auctions[a].endsAt == Max(db.auctions[a].startsAt + w.cfg.window,
                                           db.bids[b].createdAt + w.cfg.extension)
  {
    ReachedBids(w, start, run, db);
    EndOfLast(w.cfg, db, a, b);
  }

  lemma EndOfLast(cfg: Config, db: Tables, a: nat, b: nat)
    requires BidsOk(db) && Timeline(cfg, db) && a in db.auctions
    ensures BidsOf(db.bids, a) == {} ==> db.auctions[a].endsAt == db.auctions[a].startsAt + cfg.window
    ensures LastBid(db.bids, a, b) ==>
              db.auctions[a].endsAt == Max(db.auctions[a].startsAt + cfg.window, db.bids[b].createdAt + cfg.extension)
  {
    assert Timed(cfg, a, db.auctions[a], db.bids) && LeaderOk(db, a);
    if db.auctions[a].highest.Some? {
      assert db.auctions[a].highest.value in BidsOf(db.bids, a);
    }
    if b in BidsOf(db.bids, a) {
      assert BidOk(db, b);
    }
  }

  /** Cancelling never releases money: the branch for a bid still marked as leading is unreachable. */
  lemma CancelNeverReleases(w: World, start: Tables, run: seq<Event>, db: Tables, a: nat, b: nat, bidder: nat, env: Env)
    requires Reached(w, start, run, db) && Transitions.CancelBid(db, a, b, bidder, env).Ok?
    ensures b in db.bids && db.bids[b].status != Leading
    ensures Transitions.CancelBid(db, a, b, bidder, env) ==
        Ok(db.(bids := db.bids[b := db.bids[b].(status := BidCancelled)]))
  {
    ReachedBids(w, start, run, db);
    CancelOnlyMarks(db, a, b, bidder, env);
  }

  lemma CancelOnlyMarks(db: Tables, a: nat, b: nat, bidder: nat, env: Env)
    requires BidsOk(db) && Transitions.CancelBid(db, a, b, bidder, env).Ok?
    ensures b in db.bids && db.bids[b].status != Leading
    ensures Transitions.CancelBid(db, a, b, bidder, env) ==
        Ok(db.(bids := db.bids[b := db.bids[b].(status := BidCancelled)]))
  {
    assert BidOk(db, b);
  }

  /** An item is in auction exactly while one active auction refers to it, and whoever offers an item owns it. */
  lemma OffersAreOwned(w: World, start: Tables, run: seq<Event>, db: Tables, i: nat)
    requires Reached(w, start, run, db) && i in db.items
    ensures db.items[i].status == InAuction <==> exists a :: ActiveFor(db, a, i)
    ensures forall a, b :: ActiveFor(db, a, i) && ActiveFor(db, b, i) ==> a == b
    ensures forall a :: ActiveFor(db, a, i) ==> db.auctions[a].seller == db.items[i].owner
    ensures forall l :: l in db.listings && db.listings[l].item == i ==>
              db.listings[l].seller == db.items[i].owner && db.items[i].tier != Legendary
    ensures db.items[i].tier == Legendary ==> db.items[i].stock == 1
    ensures db.items[i].stock == 0 <==> db.items[i].status == Sold
  {
    ReachedInv(w, start, run, db);
    assert ItemOk(db.items[i]);
    forall a | ActiveFor(db, a, i) ensures AuctionOk(db, db.auctions[a]) { }
    forall l | l in db.listings && db.listings[l].item == i ensures ListingOk(db, db.listings[l]) { }
  }

  /**
   * A request that names an item looks up its auction first and bids in a second transaction. Whatever runs in between,
   * the auction found is still the only active one of that item, or the bid and the cancellation are refused.
   */
  lemma LookupHolds(w: World, db: Tables, run: seq<Event>, a: nat, item: nat)
    requires Inv(w, db) && ActiveFor(db, a, item) && Legal(w.cfg, db, run)
    ensures var later := After(w.cfg, db, run);
            if a in later.auctions && later.auctions[a].status == Active
            then forall c :: ActiveFor(later, c, item) <==> c == a
            else
              && (forall bidder, amount, env ::
                    Transitions.PlaceBid(later, w.cfg, a, bidder, amount, env) == Err(AuctionNotActive))
              && (forall b, bidder, env :: Transitions.CancelBid(later, a, b, bidder, env) == Err(AuctionNotActive))
  {
    var later := After(w.cfg, db, run);
    History.RunGrows(w, db, run);
    Reachable.RunKeeps(w, db, run);
    assert History.AuctionGrows(db, later, a);
    if later.auctions[a].status == Active {
      assert ActiveFor(later, a, item);
    }
  }

  /** A purchase looked up earlier is one of the same offer, or is refused because the listing is no longer open. */
  lemma OfferHolds(w: World, db: Tables, run: seq<Event>, l: nat)
    requires Inv(w, db) && l in db.listings && Legal(w.cfg, db, run)
    ensures var later := After(w.cfg, db, run);
            && l in later.listings
            && if later.listings[l].status == Open
               then later.listings[l] == db.listings[l].(status := Open, buyer := later.listings[l].buyer)
               else forall buyer, env :: Transitions.Buy(later, buyer, l, env) == Err(ListingNotOpen)
  {
    History.RunGrows(w, db, run);
    assert History.ListingGrows(db, After(w.cfg, db, run), l);
  }

  /** However many listings of a seeded item were open at once, its sales and its stock add up to the stock it had. */
  lemma UnitsConserved(w: World, start: Tables, run: seq<Event>, db: Tables, i: nat)
    requires Reached(w, start, run, db) && i in start.items
    ensures i in db.items && db.items[i].stock + |History.SoldFrom(db.listings, i)| == start.items[i].stock
    ensures db.items[i].stock >= 0
  {
    ReachedInv(w, start, run, db);
    Reachable.InitHolds(w, start);
    History.RunGrows(w, start, run);
    assert History.ItemGrows(start, db, i) && ItemOk(db.items[i]);
    assert History.SoldFrom(start.listings, i) == {};
  }
}
