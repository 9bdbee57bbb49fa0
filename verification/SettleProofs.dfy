/** Settling a due auction keeps every invariant, and in a state that satisfies them it cannot fail. */
module SettleProofs {
  import opened Model
  import opened Sums
  import opened Wallets
  import opened Transitions
  import opened Invariants
  import opened LedgerProofs

  function SpendFor(db: Tables, a: nat, win: Bid, e: nat): Tables
    requires win.bidder in db.wallets
  {
    var w := db.wallets[win.bidder];
    Record(db, win.bidder, Wallet(w.total - win.amount, w.reserved - win.amount), Debited, win.amount, AuctionRef(a), e)
  }

  /** The winning bid of an auction, when it has one. */
  ghost predicate HasWinner(db: Tables, auc: Auction) { auc.highest.Some? && auc.highest.value in db.bids }

  function WonBids(bids: map<nat, Bid>, h: Option<nat>): map<nat, Bid> {
    if h.Some? && h.value in bids then bids[h.value := bids[h.value].(status := Won)] else bids
  }

  function SettledAuction(auc: Auction, bids: map<nat, Bid>, now: nat): Auction {
    auc.(status := Settled, updatedAt := now,
         winner := if auc.highest.Some? && auc.highest.value in bids then Some(bids[auc.highest.value].bidder)
             else auc.winner)
  }

  function SettledItem(it: Item, auc: Auction, bids: map<nat, Bid>): Item {
    it.(status := Available,
        owner := if auc.highest.Some? && auc.highest.value in bids then bids[auc.highest.value].bidder else it.owner)
  }

  ghost predicate Rows(db: Tables, a: nat, env: Env, db': Tables) {
    && a in db.auctions && Due(db.auctions[a], env.t0) && env.t0 <= env.t1
    && db.auctions[a].item in db.items
    && (db.auctions[a].highest.Some? ==> db.auctions[a].highest.value in db.bids)
    && db'.items == db.items[db.auctions[a].item := SettledItem(db.items[db.auctions[a].item], db.auctions[a], db.bids)]
    && db'.auctions == db.auctions[a := SettledAuction(db.auctions[a], db.bids, env.t1)]
    && db'.bids == WonBids(db.bids, db.auctions[a].highest)
    && db'.guilds == db.guilds && db'.listings == db.listings && db'.daily == db.daily
    && db'.wallets.Keys == db.wallets.Keys
  }

  ghost predicate Moves(db: Tables, a: nat, env: Env, db': Tables) {
    && a in db.auctions && env.e1 < env.e2
    && if HasWinner(db, db.auctions[a])
       then
         var auc := db.auctions[a];
         var win := db.bids[auc.highest.value];
         && win.bidder in db.wallets && 0 < win.amount <= db.wallets[win.bidder].reserved
         && auc.seller in db.wallets
         && EntryFresh(db.ledger, win.bidder, env.e1) && EntryFresh(db.ledger, auc.seller, env.e2)
         && var paid := EarnFor(SpendFor(db, a, win, env.e1), AuctionRef(a), auc.seller, win.amount, env.e2);
            db'.wallets == paid.wallets && db'.ledger == paid.ledger
       else db'.wallets == db.wallets && db'.ledger == db.ledger
  }

  lemma Shape(db: Tables, a: nat, env: Env, db': Tables)
    requires EnvOk(db, Settle(a), env) && a in db.auctions && Due(db.auctions[a], env.t0)
    requires Transitions.Settle(db, a, env) == Ok(db')
    ensures Rows(db, a, env, db') && Moves(db, a, env, db')
  {
    ShapeRows(db, a, env, db');
    ShapeMoves(db, a, env, db');
  }

  lemma ShapeRows(db: Tables, a: nat, env: Env, db': Tables)
    requires EnvOk(db, Settle(a), env) && a in db.auctions && Due(db.auctions[a], env.t0)
    requires Transitions.Settle(db, a, env) == Ok(db')
    ensures Rows(db, a, env, db')
  {
  }

  lemma ShapeMoves(db: Tables, a: nat, env: Env, db': Tables)
    requires EnvOk(db, Settle(a), env) && a in db.auctions && Due(db.auctions[a], env.t0)
    requires Transitions.Settle(db, a, env) == Ok(db')
    ensures Moves(db, a, env, db')
  {
  }

  lemma KeepsCatalog(db: Tables, a: nat, env: Env, db': Tables)
    requires Rows(db, a, env, db') && Catalog(db) && BidsOk(db)
    ensures Catalog(db')
  {
    var auc := db.auctions[a];
    assert ActiveFor(db, a, auc.item) && AuctionOk(db, auc) && LeaderOk(db, a);
    if auc.highest.Some? {
      assert BidOk(db, auc.highest.value);
    }
    OneFewer(db, a, env, db');
    OthersOk(db, a, env, db');
  }

  lemma OthersOk(db: Tables, a: nat, env: Env, db': Tables)
    requires Rows(db, a, env, db') && Catalog(db) && ActiveFor(db, a, db.auctions[a].item) &&
        AuctionOk(db, db.auctions[a])
    ensures forall x :: x in db'.auctions ==> AuctionOk(db', db'.auctions[x])
    ensures forall l :: l in db'.listings ==> ListingOk(db', db'.listings[l])
  {
    forall x | x in db'.auctions ensures AuctionOk(db', db'.auctions[x]) {
      assert AuctionOk(db, db.auctions[x]);
      if x != a && db.auctions[x].status == Active {
        assert ActiveFor(db, x, db.auctions[x].item);
      }
    }
    forall l | l in db'.listings ensures ListingOk(db', db'.listings[l]) { assert ListingOk(db, db.listings[l]); }
  }

  /** Auction a is no longer active; the other items in auction still have theirs. */
  lemma OneFewer(db: Tables, a: nat, env: Env, db': Tables)
    requires Rows(db, a, env, db') && Catalog(db) && ActiveFor(db, a, db.auctions[a].item)
    ensures forall x, i :: ActiveFor(db', x, i) <==> ActiveFor(db, x, i) && x != a
    ensures forall i :: i in db'.items && db'.items[i].status == InAuction ==> exists x :: ActiveFor(db', x, i)
  {
    forall x, i ensures ActiveFor(db', x, i) <==> ActiveFor(db, x, i) && x != a { }
    forall i | i in db'.items && db'.items[i].status == InAuction ensures exists x :: ActiveFor(db', x, i) {
      var x :| ActiveFor(db, x, i);
      assert ActiveFor(db', x, i);
    }
  }

  lemma KeepsBid(db: Tables, a: nat, env: Env, db': Tables, b: nat)
    requires Rows(db, a, env, db') && LeaderOk(db, a) && b in db.bids && BidOk(db, b)
    ensures b in db'.bids && BidOk(db', b)
  {
  }

  lemma KeepsBids(db: Tables, a: nat, env: Env, db': Tables)
    requires Rows(db, a, env, db') && BidsOk(db)
    ensures BidsOk(db')
  {
    forall b | b in db'.bids ensures BidOk(db', b) {
      KeepsBid(db, a, env, db', b);
    }
    forall x | x in db'.auctions ensures LeaderOk(db', x) {
      assert LeaderOk(db, x) && LeaderOk(db, a);
    }
  }

  lemma KeepsGrowth(bids: map<nat, Bid>, h: Option<nat>)
    requires Growth(bids)
    ensures Growth(WonBids(bids, h))
  {
    assert WonBids(bids, h).Keys == bids.Keys;
  }

  lemma KeepsTimed(cfg: Config, db: Tables, a: nat, env: Env, db': Tables, x: nat)
    requires Rows(db, a, env, db') && x in db.auctions && Timed(cfg, x, db.auctions[x], db.bids)
    ensures Timed(cfg, x, db'.auctions[x], db'.bids)
  {
    assert BidsOf(db'.bids, x) == BidsOf(db.bids, x);
  }

  lemma KeepsTimeline(cfg: Config, db: Tables, a: nat, env: Env, db': Tables)
    requires Rows(db, a, env, db') && Timeline(cfg, db)
    ensures Timeline(cfg, db')
  {
    forall x | x in db'.auctions ensures Timed(cfg, x, db'.auctions[x], db'.bids) {
      KeepsTimed(cfg, db, a, env, db', x);
    }
  }

  lemma ReserveOf(db: Tables, a: nat, env: Env, db': Tables, g: nat)
    requires Rows(db, a, env, db') && BidsOk(db)
    ensures Sum(Held(db'.auctions, db'.bids, g)) ==
            Sum(Held(db.auctions, db.bids, g)) - HeldOn(db.auctions[a], db.bids, g)
  {
    forall x | x in db.auctions && x != a
      ensures HeldOn(db.auctions[x], db'.bids, g) == HeldOn(db.auctions[x], db.bids, g)
    {
      assert LeaderOk(db, x);
    }
    HeldUpdate(db.auctions, db.bids, a, db'.auctions[a], db'.bids, g);
  }

  lemma MovedFor(db: Tables, a: nat, env: Env, db': Tables, g: nat)
    requires Moves(db, a, env, db') && g in db.wallets && db.auctions[a].status == Active
    requires Solvent(db.wallets[g])
    ensures g in db'.wallets && Solvent(db'.wallets[g])
    ensures db'.wallets[g].reserved == db.wallets[g].reserved - HeldOn(db.auctions[a], db.bids, g)
  {
  }

  lemma KeepsReserves(db: Tables, a: nat, env: Env, db': Tables)
    requires Rows(db, a, env, db') && Moves(db, a, env, db') && BidsOk(db) && Reserves(db)
    ensures Reserves(db')
  {
    forall g | g in db'.wallets
      ensures Solvent(db'.wallets[g]) && db'.wallets[g].reserved == Sum(Held(db'.auctions, db'.bids, g))
    {
      ReserveOf(db, a, env, db', g);
      MovedFor(db, a, env, db', g);
    }
  }

  lemma SpendKeeps(w: World, db: Tables, a: nat, win: Bid, e: nat)
    requires win.bidder in db.wallets && 0 < win.amount <= db.wallets[win.bidder].reserved
    requires Solvent(db.wallets[win.bidder]) && EntryFresh(db.ledger, win.bidder, e) && Books(w, db)
    ensures Books(w, SpendFor(db, a, win, e))
    ensures Sum(Totals(SpendFor(db, a, win, e).wallets)) == Sum(Totals(db.wallets)) - win.amount
  {
    var spent := SpendFor(db, a, win, e);
    RecordBooks(w, db, win.bidder, spent.wallets[win.bidder], Debited, win.amount, AuctionRef(a), e);
    TotalsUpdate(db.wallets, win.bidder, spent.wallets[win.bidder]);
  }

  lemma PayKeeps(w: World, db: Tables, a: nat, win: Bid, seller: nat, e1: nat, e2: nat)
    requires win.bidder in db.wallets && 0 < win.amount <= db.wallets[win.bidder].reserved && seller in db.wallets
    requires Solvent(db.wallets[win.bidder]) && Solvent(db.wallets[seller])
    requires EntryFresh(db.ledger, win.bidder, e1) && EntryFresh(db.ledger, seller, e2) && e1 < e2
    requires Conserved(w, db) && Books(w, db)
    ensures var paid := EarnFor(SpendFor(db, a, win, e1), AuctionRef(a), seller, win.amount, e2);
            Conserved(w, paid) && Books(w, paid)
  {
    SpendKeeps(w, db, a, win, e1);
    EntryFreshAfter(db.ledger, seller, e1, Entry(win.bidder, Debited, win.amount, AuctionRef(a)), e2);
    EarnKeeps(w, SpendFor(db, a, win, e1), AuctionRef(a), seller, win.amount, e2);
  }

  lemma KeepsMoney(w: World, db: Tables, a: nat, env: Env, db': Tables)
    requires Moves(db, a, env, db') && Reserves(db) && Conserved(w, db) && Books(w, db)
    ensures Conserved(w, db') && Books(w, db')
  {
    var auc := db.auctions[a];
    if HasWinner(db, auc) {
      var win := db.bids[auc.highest.value];
      assert Solvent(db.wallets[win.bidder]) && Solvent(db.wallets[auc.seller]);
      PayKeeps(w, db, a, win, auc.seller, env.e1, env.e2);
    }
  }

  lemma Bookings(db: Tables, a: nat, env: Env, db': Tables)
    requires Moves(db, a, env, db')
    ensures forall ref: Ref :: ref != AuctionRef(a) ==> Booked(db'.ledger, ref) == Booked(db.ledger, ref)
    ensures HasWinner(db, db.auctions[a]) && Booked(db.ledger, AuctionRef(a)) == {} ==>
              var win := db.bids[db.auctions[a].highest.value];
              PaidOnce(db'.ledger, AuctionRef(a), win.bidder, db.auctions[a].seller, win.amount)
    ensures !HasWinner(db, db.auctions[a]) ==> db'.ledger == db.ledger
    ensures forall e :: e in db.ledger ==> e in db'.ledger && db'.ledger[e] == db.ledger[e]
    ensures forall e :: e in db'.ledger && e !in db.ledger ==>
              db'.ledger[e].ref == AuctionRef(a) && (db'.ledger[e].kind == Debited || db'.ledger[e].kind == Credited)
    ensures forall y :: Sum(NetOf(db'.ledger, y)) == Sum(NetOf(db.ledger, y))
  {
    var auc := db.auctions[a];
    if HasWinner(db, auc) {
      var win := db.bids[auc.highest.value];
      PairBooked(db.ledger, AuctionRef(a), win.bidder, auc.seller, win.amount, env.e1, env.e2);
    }
  }

  lemma OwnAccount(db: Tables, a: nat, env: Env, db': Tables)
    requires Rows(db, a, env, db') && Moves(db, a, env, db')
    requires AuctionBooked(db, a) && LeaderOk(db, a)
    ensures AuctionBooked(db', a)
  {
    Bookings(db, a, env, db');
  }

  lemma OtherAccount(db: Tables, a: nat, env: Env, db': Tables, y: nat)
    requires Rows(db, a, env, db') && y in db.auctions && y != a && AuctionBooked(db, y) && LeaderOk(db, y) &&
        LeaderOk(db, a)
    requires Booked(db'.ledger, AuctionRef(y)) == Booked(db.ledger, AuctionRef(y))
    requires forall e :: e in db.ledger ==> e in db'.ledger && db'.ledger[e] == db.ledger[e]
    requires Sum(NetOf(db'.ledger, y)) == Sum(NetOf(db.ledger, y))
    ensures AuctionBooked(db', y)
  {
    AuctionKept(db, db', y);
  }

  lemma OtherAccounts(db: Tables, a: nat, env: Env, db': Tables)
    requires Rows(db, a, env, db') && Moves(db, a, env, db')
    requires forall y :: y in db.auctions ==> AuctionBooked(db, y) && LeaderOk(db, y)
    ensures forall y :: y in db'.auctions && y != a ==> AuctionBooked(db', y)
  {
    Bookings(db, a, env, db');
    forall y | y in db'.auctions && y != a ensures AuctionBooked(db', y) {
      OtherAccount(db, a, env, db', y);
    }
  }

  lemma KeepsAccounts(db: Tables, a: nat, env: Env, db': Tables)
    requires Rows(db, a, env, db') && Moves(db, a, env, db') && BidsOk(db) && Accounts(db)
    ensures Accounts(db')
  {
    OwnAccount(db, a, env, db');
    OtherAccounts(db, a, env, db');
    OtherEntries(db, a, env, db');
  }

  lemma OtherEntries(db: Tables, a: nat, env: Env, db': Tables)
    requires Rows(db, a, env, db') && Moves(db, a, env, db')
    requires forall e :: e in db.ledger ==> EntryOk(db, db.ledger[e])
    requires forall l :: l in db.listings ==> ListingBooked(db, l)
    ensures forall e :: e in db'.ledger ==> EntryOk(db', db'.ledger[e])
    ensures forall l :: l in db'.listings ==> ListingBooked(db', l)
  {
    Bookings(db, a, env, db');
    EntriesKept(db, db');
    ListingsKept(db, db');
  }

  lemma KeepsAffordable(w: World, bids: map<nat, Bid>, h: Option<nat>)
    requires Affordable(w, bids)
    ensures Affordable(w, WonBids(bids, h))
  {
  }

  lemma Keeps(w: World, db: Tables, a: nat, env: Env, db': Tables)
    requires Inv(w, db) && Rows(db, a, env, db') && Moves(db, a, env, db')
    ensures Inv(w, db')
  {
    KeepsCatalog(db, a, env, db');
    KeepsBids(db, a, env, db');
    KeepsGrowth(db.bids, db.auctions[a].highest);
    KeepsTimeline(w.cfg, db, a, env, db');
    KeepsReserves(db, a, env, db');
    KeepsAffordable(w, db.bids, db.auctions[a].highest);
    KeepsMoney(w, db, a, env, db');
    KeepsAccounts(db, a, env, db');
  }
}
