/** An accepted bid keeps every invariant. */
module PlaceBidProofs {
  import opened Model
  import opened Rules
  import opened Sums
  import opened Wallets
  import opened Transitions
  import opened Invariants
  import opened LedgerProofs

  function Outbids(bids: map<nat, Bid>, h: Option<nat>): map<nat, Bid> {
    if h.Some? && h.value in bids then bids[h.value := bids[h.value].(status := Released)] else bids
  }

  /** The tables after the bidder's reserve. */
  function HoldFor(db: Tables, a: nat, bidder: nat, amount: int, e: nat): Tables
    requires bidder in db.wallets
  {
    var w := db.wallets[bidder];
    Record(db, bidder, w.(reserved := w.reserved + amount), Reserved, amount, BidRef(a), e)
  }

  /** The tables after the outbid leader's release. */
  function FreeFor(db: Tables, a: nat, p: Bid, e: nat): Tables
    requires p.bidder in db.wallets
  {
    var w := db.wallets[p.bidder];
    Record(db, p.bidder, w.(reserved := w.reserved - p.amount), Freed, p.amount, BidRef(a), e)
  }

  /** The guards an accepted bid passed and the rows it wrote. */
  ghost predicate Rows(cfg: Config, db: Tables, a: nat, bidder: nat, amount: int, env: Env, db': Tables) {
    && a in db.auctions && db.auctions[a].status == Active
    && env.t0 < db.auctions[a].endsAt && db.auctions[a].updatedAt <= env.t0
    && bidder != db.auctions[a].seller && bidder in db.wallets && amount > 0
    && 100 * amount >= 105 * Price(db.auctions[a], db.bids)
    && RowFresh(db, a, env.row)
    && db'.auctions == db.auctions[a := db.auctions[a].(highest := Some(env.row), updatedAt := env.t0,
                                        endsAt := Max(db.auctions[a].endsAt, env.t0 + cfg.extension))]
    && db'.bids == Outbids(db.bids, db.auctions[a].highest)[env.row := Bid(a, bidder, amount, Leading, env.t0)]
    && db'.guilds == db.guilds && db'.items == db.items && db'.listings == db.listings && db'.daily == db.daily
    && db'.wallets.Keys == db.wallets.Keys
  }

  /** The money movements of an accepted bid. */
  ghost predicate Moves(db: Tables, a: nat, bidder: nat, amount: int, env: Env, db': Tables) {
    && a in db.auctions && bidder in db.wallets
    && 0 < amount <= db.wallets[bidder].total - db.wallets[bidder].reserved
    && EntryFresh(db.ledger, bidder, env.e1) && env.e1 < env.e2
    && var held := HoldFor(db, a, bidder, amount, env.e1);
       if db.auctions[a].highest.Some? && db.auctions[a].highest.value in db.bids
       then
         var p := db.bids[db.auctions[a].highest.value];
         && p.bidder in held.wallets && 0 < p.amount <= held.wallets[p.bidder].reserved
         && EntryFresh(db.ledger, p.bidder, env.e2)
         && db'.wallets == FreeFor(held, a, p, env.e2).wallets && db'.ledger == FreeFor(held, a, p, env.e2).ledger
       else db'.wallets == held.wallets && db'.ledger == held.ledger
  }

  lemma ShapeRows(cfg: Config, db: Tables, a: nat, bidder: nat, amount: int, env: Env, db': Tables)
    requires EnvOk(db, PlaceBid(a, bidder, amount), env)
    requires Transitions.PlaceBid(db, cfg, a, bidder, amount, env) == Ok(db')
    requires a in db.auctions ==> Price(db.auctions[a], db.bids) >= 0
    ensures Rows(cfg, db, a, bidder, amount, env, db')
  {
    BidAcceptedIff(Price(db.auctions[a], db.bids), amount);
    Written(cfg, db, a, bidder, amount, env, db');
  }

  lemma Written(cfg: Config, db: Tables, a: nat, bidder: nat, amount: int, env: Env, db': Tables)
    requires Transitions.PlaceBid(db, cfg, a, bidder, amount, env) == Ok(db')
    ensures db'.auctions == db.auctions[a := db.auctions[a].(highest := Some(env.row), updatedAt := env.t0,
                                          endsAt := Max(db.auctions[a].endsAt, env.t0 + cfg.extension))]
    ensures db'.bids == Outbids(db.bids, db.auctions[a].highest)[env.row := Bid(a, bidder, amount, Leading, env.t0)]
    ensures db'.guilds == db.guilds && db'.items == db.items && db'.listings == db.listings && db'.daily == db.daily
    ensures db'.wallets.Keys == db.wallets.Keys
  {
    ExtendIsMax(env.t0, db.auctions[a].endsAt, cfg.extension);
  }

  lemma ShapeMoves(cfg: Config, db: Tables, a: nat, bidder: nat, amount: int, env: Env, db': Tables)
    requires EnvOk(db, PlaceBid(a, bidder, amount), env)
    requires Transitions.PlaceBid(db, cfg, a, bidder, amount, env) == Ok(db')
    ensures Moves(db, a, bidder, amount, env, db')
  {
    var held := HoldFor(db, a, bidder, amount, env.e1);
    assert ReserveTx(db, bidder, amount, BidRef(a), env.e1) == Ok(held);
  }

  lemma KeepsCatalog(cfg: Config, db: Tables, a: nat, bidder: nat, amount: int, env: Env, db': Tables)
    requires Rows(cfg, db, a, bidder, amount, env, db') && Catalog(db)
    ensures Catalog(db')
  {
    forall x, i ensures ActiveFor(db', x, i) == ActiveFor(db, x, i) {
    }
  }

  lemma KeepsBid(cfg: Config, db: Tables, a: nat, bidder: nat, amount: int, env: Env, db': Tables, b: nat)
    requires Rows(cfg, db, a, bidder, amount, env, db') && b in db.bids && BidOk(db, b) && LeaderOk(db, a)
    ensures b in db'.bids && BidOk(db', b)
  {
    assert db.bids[b].auction == a ==> b in BidsOf(db.bids, a);
  }

  lemma KeepsBids(cfg: Config, db: Tables, a: nat, bidder: nat, amount: int, env: Env, db': Tables)
    requires Rows(cfg, db, a, bidder, amount, env, db') && BidsOk(db) && db.guilds.Keys == db.wallets.Keys
    ensures BidsOk(db')
  {
    assert LeaderOk(db, a);
    forall b | b in db'.bids ensures BidOk(db', b) {
      if b != env.row {
        KeepsBid(cfg, db, a, bidder, amount, env, db', b);
      }
    }
    forall x | x in db'.auctions ensures LeaderOk(db', x) {
      assert x in db.auctions && LeaderOk(db, x);
    }
  }

  /** The new bid is above and no earlier than every bid of its auction. */
  lemma Tops(cfg: Config, db: Tables, a: nat, bidder: nat, amount: int, env: Env, db': Tables, b: nat)
    requires Rows(cfg, db, a, bidder, amount, env, db') && BidsOk(db) && Growth(db.bids)
    requires Timed(cfg, a, db.auctions[a], db.bids)
    requires b in db.bids && db.bids[b].auction == a
    ensures b < env.row && 100 * amount >= 105 * db.bids[b].amount && db.bids[b].createdAt <= env.t0
  {
    assert b in BidsOf(db.bids, a) && BidOk(db, b) && LeaderOk(db, a);
    var h := db.auctions[a].highest.value;
    assert b == h || b < h;
    assert 100 * db.bids[h].amount >= 100 * db.bids[b].amount;
  }

  lemma GrowthAppend(bids: map<nat, Bid>, h: Option<nat>, row: nat, top: Bid)
    requires Growth(bids) && row !in bids
    requires forall b :: b in bids && bids[b].auction == top.auction ==>
               b < row && 100 * top.amount >= 105 * bids[b].amount && bids[b].createdAt <= top.createdAt
    ensures Growth(Outbids(bids, h)[row := top])
  {
    var bids' := Outbids(bids, h)[row := top];
    forall b, c | b in bids' && c in bids' && b < c && bids'[b].auction == bids'[c].auction
      ensures 100 * bids'[c].amount >= 105 * bids'[b].amount && bids'[b].createdAt <= bids'[c].createdAt
    {
      assert b == row || b in bids;
      assert c == row || c in bids;
    }
  }

  lemma KeepsGrowth(cfg: Config, db: Tables, a: nat, bidder: nat, amount: int, env: Env, db': Tables)
    requires Rows(cfg, db, a, bidder, amount, env, db') && BidsOk(db) && Growth(db.bids) && Timeline(cfg, db)
    ensures Growth(db'.bids)
  {
    forall b | b in db.bids && db.bids[b].auction == a
      ensures b < env.row && 100 * amount >= 105 * db.bids[b].amount && db.bids[b].createdAt <= env.t0
    {
      Tops(cfg, db, a, bidder, amount, env, db', b);
    }
    GrowthAppend(db.bids, db.auctions[a].highest, env.row, Bid(a, bidder, amount, Leading, env.t0));
  }

  /** The auction's own clock: the end is pushed to the new bid's time plus the extension, or stays. */
  lemma TimedByBid(cfg: Config, auc: Auction, bids: map<nat, Bid>, a: nat, row: nat, top: Bid, auc': Auction)
    requires Timed(cfg, a, auc, bids) && row !in bids && top.auction == a
    requires auc.highest.Some? ==> auc.highest.value in bids
    requires auc.status == Active && auc.updatedAt <= top.createdAt < auc.endsAt
    requires auc' == auc.(highest := Some(row), updatedAt := top.createdAt,
                          endsAt := Max(auc.endsAt, top.createdAt + cfg.extension))
    ensures Timed(cfg, a, auc', Outbids(bids, auc.highest)[row := top])
  {
    var bids' := Outbids(bids, auc.highest)[row := top];
    assert BidsOf(bids', a) == BidsOf(bids, a) + {row};
    assert row !in BidsOf(bids, a);
    LinearStep(cfg.extension, |BidsOf(bids, a)|);
  }

  lemma TimedElsewhere(cfg: Config, auc: Auction, bids: map<nat, Bid>, h: Option<nat>, x: nat, row: nat, top: Bid)
    requires Timed(cfg, x, auc, bids) && row !in bids && top.auction != x
    requires auc.highest.Some? ==> auc.highest.value in bids
    ensures Timed(cfg, x, auc, Outbids(bids, h)[row := top])
  {
    assert BidsOf(Outbids(bids, h)[row := top], x) == BidsOf(bids, x);
  }

  lemma KeepsTimeline(cfg: Config, db: Tables, a: nat, bidder: nat, amount: int, env: Env, db': Tables)
    requires Rows(cfg, db, a, bidder, amount, env, db') && BidsOk(db) && Timeline(cfg, db)
    ensures Timeline(cfg, db')
  {
    var top := Bid(a, bidder, amount, Leading, env.t0);
    forall x | x in db'.auctions ensures Timed(cfg, x, db'.auctions[x], db'.bids) {
      assert LeaderOk(db, x);
      if x == a {
        TimedByBid(cfg, db.auctions[a], db.bids, a, env.row, top, db'.auctions[a]);
      } else {
        TimedElsewhere(cfg, db.auctions[x], db.bids, db.auctions[a].highest, x, env.row, top);
      }
    }
  }

  lemma LinearStep(e: nat, n: nat)
    ensures e * (n + 1) == e * n + e
  {
  }

  lemma ReserveOf(cfg: Config, db: Tables, a: nat, bidder: nat, amount: int, env: Env, db': Tables, g: nat)
    requires Rows(cfg, db, a, bidder, amount, env, db') && BidsOk(db)
    ensures Sum(Held(db'.auctions, db'.bids, g)) ==
            Sum(Held(db.auctions, db.bids, g)) - HeldOn(db.auctions[a], db.bids, g) +
            (if g == bidder then amount else 0)
  {
    forall x | x in db.auctions && x != a
      ensures HeldOn(db.auctions[x], db'.bids, g) == HeldOn(db.auctions[x], db.bids, g)
    {
      assert LeaderOk(db, x);
    }
    HeldUpdate(db.auctions, db.bids, a, db'.auctions[a], db'.bids, g);
  }

  /** A leader outbidding itself is reserved for the new amount before the old one is released. */
  lemma MovedFor(db: Tables, a: nat, bidder: nat, amount: int, env: Env, db': Tables, g: nat)
    requires Moves(db, a, bidder, amount, env, db') && g in db.wallets && db.auctions[a].status == Active
    requires Solvent(db.wallets[g])
    ensures g in db'.wallets && db'.wallets[g].total == db.wallets[g].total && Solvent(db'.wallets[g])
    ensures db'.wallets[g].reserved ==
            db.wallets[g].reserved - HeldOn(db.auctions[a], db.bids, g) + (if g == bidder then amount else 0)
  {
  }

  lemma KeepsReserves(cfg: Config, db: Tables, a: nat, bidder: nat, amount: int, env: Env, db': Tables)
    requires Rows(cfg, db, a, bidder, amount, env, db') && Moves(db, a, bidder, amount, env, db')
    requires BidsOk(db) && Reserves(db)
    ensures Reserves(db')
  {
    forall g | g in db'.wallets
      ensures Solvent(db'.wallets[g]) && db'.wallets[g].reserved == Sum(Held(db'.auctions, db'.bids, g))
    {
      ReserveOf(cfg, db, a, bidder, amount, env, db', g);
      MovedFor(db, a, bidder, amount, env, db', g);
    }
  }

  lemma HoldKeeps(w: World, db: Tables, a: nat, bidder: nat, amount: int, e: nat)
    requires bidder in db.wallets && 0 < amount <= db.wallets[bidder].total - db.wallets[bidder].reserved
    requires Solvent(db.wallets[bidder]) && EntryFresh(db.ledger, bidder, e)
    requires Conserved(w, db) && Books(w, db)
    ensures Conserved(w, HoldFor(db, a, bidder, amount, e)) && Books(w, HoldFor(db, a, bidder, amount, e))
  {
    var held := HoldFor(db, a, bidder, amount, e);
    RecordBooks(w, db, bidder, held.wallets[bidder], Reserved, amount, BidRef(a), e);
    TotalsUpdate(db.wallets, bidder, held.wallets[bidder]);
  }

  lemma FreeKeeps(w: World, db: Tables, a: nat, p: Bid, e: nat)
    requires p.bidder in db.wallets && 0 < p.amount <= db.wallets[p.bidder].reserved
    requires Solvent(db.wallets[p.bidder]) && EntryFresh(db.ledger, p.bidder, e)
    requires Conserved(w, db) && Books(w, db)
    ensures Conserved(w, FreeFor(db, a, p, e)) && Books(w, FreeFor(db, a, p, e))
  {
    var freed := FreeFor(db, a, p, e);
    RecordBooks(w, db, p.bidder, freed.wallets[p.bidder], Freed, p.amount, BidRef(a), e);
    TotalsUpdate(db.wallets, p.bidder, freed.wallets[p.bidder]);
  }

  lemma KeepsMoney(w: World, db: Tables, a: nat, bidder: nat, amount: int, env: Env, db': Tables)
    requires Moves(db, a, bidder, amount, env, db')
    requires Reserves(db) && Conserved(w, db) && Books(w, db)
    ensures Conserved(w, db') && Books(w, db')
  {
    var held := HoldFor(db, a, bidder, amount, env.e1);
    assert Solvent(db.wallets[bidder]);
    HoldKeeps(w, db, a, bidder, amount, env.e1);
    var h := db.auctions[a].highest;
    if h.Some? && h.value in db.bids {
      var p := db.bids[h.value];
      EntryFreshAfter(db.ledger, p.bidder, env.e1, Entry(bidder, Reserved, amount, BidRef(a)), env.e2);
      assert Solvent(held.wallets[p.bidder]);
      FreeKeeps(w, held, a, p, env.e2);
      MoneyFrame(w, FreeFor(held, a, p, env.e2), db');
    } else {
      MoneyFrame(w, held, db');
    }
  }

  /** The entries booked: only bid entries of this auction, netting to the change of its price. */
  lemma Bookings(db: Tables, a: nat, bidder: nat, amount: int, env: Env, db': Tables)
    requires Moves(db, a, bidder, amount, env, db')
    ensures forall ref: Ref :: !ref.BidRef? ==> Booked(db'.ledger, ref) == Booked(db.ledger, ref)
    ensures forall e :: e in db.ledger ==> e in db'.ledger && db'.ledger[e] == db.ledger[e]
    ensures forall e :: e in db'.ledger && e !in db.ledger ==>
              db'.ledger[e].ref == BidRef(a) && (db'.ledger[e].kind == Reserved || db'.ledger[e].kind == Freed)
    ensures forall y :: Sum(NetOf(db'.ledger, y)) ==
                        Sum(NetOf(db.ledger, y)) + if y == a then amount - Price(db.auctions[a], db.bids) else 0
  {
    var x1 := Entry(bidder, Reserved, amount, BidRef(a));
    var held := HoldFor(db, a, bidder, amount, env.e1);
    var h := db.auctions[a].highest;
    forall y
      ensures Sum(NetOf(db'.ledger, y)) ==
              Sum(NetOf(db.ledger, y)) + if y == a then amount - Price(db.auctions[a], db.bids) else 0
    {
      NetUpdate(db.ledger, env.e1, x1, y);
      if h.Some? && h.value in db.bids {
        var p := db.bids[h.value];
        NetUpdate(held.ledger, env.e2, Entry(p.bidder, Freed, p.amount, BidRef(a)), y);
      }
    }
  }

  lemma AuctionAccount(cfg: Config, db: Tables, a: nat, bidder: nat, amount: int, env: Env, db': Tables, y: nat)
    requires Rows(cfg, db, a, bidder, amount, env, db')
    requires y in db.auctions && AuctionBooked(db, y) && LeaderOk(db, y) && LeaderOk(db, a)
    requires Booked(db'.ledger, AuctionRef(y)) == Booked(db.ledger, AuctionRef(y))
    requires forall e :: e in db.ledger ==> e in db'.ledger && db'.ledger[e] == db.ledger[e]
    requires Sum(NetOf(db'.ledger, y)) ==
             Sum(NetOf(db.ledger, y)) + if y == a then amount - Price(db.auctions[a], db.bids) else 0
    ensures AuctionBooked(db', y)
  {
    PaidSame(db, db', AuctionRef(y));
  }

  lemma AuctionAccounts(cfg: Config, db: Tables, a: nat, bidder: nat, amount: int, env: Env, db': Tables)
    requires Rows(cfg, db, a, bidder, amount, env, db') && Moves(db, a, bidder, amount, env, db')
    requires forall y :: y in db.auctions ==> AuctionBooked(db, y) && LeaderOk(db, y)
    ensures forall y :: y in db'.auctions ==> AuctionBooked(db', y)
  {
    Bookings(db, a, bidder, amount, env, db');
    forall y | y in db'.auctions ensures AuctionBooked(db', y) {
      AuctionAccount(cfg, db, a, bidder, amount, env, db', y);
    }
  }

  lemma KeepsAccounts(cfg: Config, db: Tables, a: nat, bidder: nat, amount: int, env: Env, db': Tables)
    requires Rows(cfg, db, a, bidder, amount, env, db') && Moves(db, a, bidder, amount, env, db')
    requires BidsOk(db) && Accounts(db)
    ensures Accounts(db')
  {
    AuctionAccounts(cfg, db, a, bidder, amount, env, db');
    OtherRows(cfg, db, a, bidder, amount, env, db');
  }

  lemma OtherRows(cfg: Config, db: Tables, a: nat, bidder: nat, amount: int, env: Env, db': Tables)
    requires Rows(cfg, db, a, bidder, amount, env, db') && Moves(db, a, bidder, amount, env, db') && Accounts(db)
    ensures forall e :: e in db'.ledger ==> EntryOk(db', db'.ledger[e])
    ensures forall l :: l in db'.listings ==> ListingBooked(db', l)
  {
    Bookings(db, a, bidder, amount, env, db');
    EntriesKept(db, db');
    ListingsKept(db, db');
  }

  /** A bidder can pay what it bids, and nobody owns more than the whole supply of money. */
  lemma KeepsAffordable(w: World, db: Tables, a: nat, bidder: nat, amount: int, env: Env, db': Tables)
    requires Rows(w.cfg, db, a, bidder, amount, env, db') && Moves(db, a, bidder, amount, env, db')
    requires Reserves(db) && Conserved(w, db) && Affordable(w, db.bids)
    ensures Affordable(w, db'.bids)
  {
    WalletBound(w, db, bidder);
  }

  lemma Shape(w: World, db: Tables, a: nat, bidder: nat, amount: int, env: Env, db': Tables)
    requires BidsOk(db) && EnvOk(db, PlaceBid(a, bidder, amount), env)
    requires Transitions.PlaceBid(db, w.cfg, a, bidder, amount, env) == Ok(db')
    ensures Rows(w.cfg, db, a, bidder, amount, env, db') && Moves(db, a, bidder, amount, env, db')
  {
    if a in db.auctions && db.auctions[a].highest.Some? && db.auctions[a].highest.value in db.bids {
      assert BidOk(db, db.auctions[a].highest.value);
    }
    ShapeRows(w.cfg, db, a, bidder, amount, env, db');
    ShapeMoves(w.cfg, db, a, bidder, amount, env, db');
  }

  lemma Keeps(w: World, db: Tables, a: nat, bidder: nat, amount: int, env: Env, db': Tables)
    requires Inv(w, db) && Rows(w.cfg, db, a, bidder, amount, env, db') && Moves(db, a, bidder, amount, env, db')
    ensures Inv(w, db')
  {
    KeepsCatalog(w.cfg, db, a, bidder, amount, env, db');
    KeepsBids(w.cfg, db, a, bidder, amount, env, db');
    KeepsGrowth(w.cfg, db, a, bidder, amount, env, db');
    KeepsTimeline(w.cfg, db, a, bidder, amount, env, db');
    KeepsReserves(w.cfg, db, a, bidder, amount, env, db');
    KeepsMoney(w, db, a, bidder, amount, env, db');
    KeepsAccounts(w.cfg, db, a, bidder, amount, env, db');
    KeepsAffordable(w, db, a, bidder, amount, env, db');
  }
}
