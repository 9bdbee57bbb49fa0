/** With 64-bit wrap-around in every money computation, runs are the same while 105 times all the money fits. */
module Int64Range {
  import opened Model
  import opened Rules
  import opened Sums
  import opened Wallets
  import opened Transitions
  import opened Invariants
  import opened Words
  import Reachable

  // ---- The money operations on 64-bit integers ----

  function Sufficient64(total: int, reserved: int, amount: int): Check {
    if amount <= 0 then Fail(InvalidAmount)
    else if Wrap(total - reserved) < amount then Fail(InsufficientFunds)
    else Pass
  }

  function Change64(kind: EntryKind, ref: Ref, w: Wallet, amount: int): Result<Wallet> {
    match kind
    case Reserved =>
      :- Sufficient64(w.total, w.reserved, amount);
      Ok(w.(reserved := Wrap(w.reserved + amount)))
    case Freed =>
      :- EnsureCanRelease(w.reserved, amount);
      Ok(w.(reserved := Wrap(w.reserved - amount)))
    case Credited =>
      :- EnsurePositive(amount);
      Ok(w.(total := Wrap(w.total + amount)))
    case Debited =>
      if ref.AuctionRef? then
        :- EnsureCanRelease(w.reserved, amount);
        Ok(Wallet(Wrap(w.total - amount), Wrap(w.reserved - amount)))
      else
        :- Sufficient64(w.total, w.reserved, amount);
        Ok(w.(total := Wrap(w.total - amount)))
  }

  function Tx64(db: Tables, g: nat, kind: EntryKind, amount: int, ref: Ref, e: nat): Result<Tables> {
    if g !in db.wallets then Err(WalletMissing)
    else
      var w :- Change64(kind, ref, db.wallets[g], amount);
      Ok(Record(db, g, w, kind, amount, ref, e))
  }

  function MinNextBid64(current: int): int {
    Quot(Wrap(Wrap(current * (100 + BID_INCREMENT_PERCENT)) + 99), 100)
  }

  function Beats64(current: int, amount: int): Check {
    if amount <= 0 then Fail(InvalidAmount)
    else if amount < MinNextBid64(current) then Fail(BidTooLow)
    else Pass
  }

  function WithinDailyCap64(cap: int, spent: int, amount: int): Check {
    if cap == 0 then Pass
    else if Wrap(spent + amount) > cap then Fail(DailyCapExceeded)
    else Pass
  }

  // ---- The transitions that move money, on 64-bit integers ----

  /** The sum in the cap check wraps around; the sum in the day's row is the database's, which refuses an overflow. */
  function Buy64(db: Tables, buyer: nat, id: nat, env: Env): Result<Tables> {
    if id !in db.listings then Err(NotFound)
    else
      var l := db.listings[id];
      if l.status != Open then Err(ListingNotOpen)
      else if l.seller == buyer then Err(SelfPurchase)
      else if l.item !in db.items then Err(NotFound)
      else if db.items[l.item].stock < 1 then Err(OutOfStock)
      else if buyer !in db.wallets then Err(WalletMissing)
      else if buyer !in db.guilds then Err(NotFound)
      else
        :- WithinDailyCap64(db.guilds[buyer], DailySpent(db, buyer, DayOf(env.t0)), l.price);
        var paid :- Tx64(db, buyer, Debited, l.price, ListingRef(id), env.e1);
        var earned :- Tx64(paid, l.seller, Credited, l.price, ListingRef(id), env.e2);
        if DailySpent(db, buyer, DayOf(env.t1)) + l.price >= TWO_63 then Err(OutOfRange)
        else Ok(Deliver(earned, buyer, id, env))
  }

  function Outbid64(db: Tables, prev: Option<nat>, a: nat, e: nat): Result<Tables>
    requires prev.Some? ==> prev.value in db.bids
  {
    if prev.None? then Ok(db) else
      var p := db.bids[prev.value];
      var freed :- Tx64(db, p.bidder, Freed, p.amount, BidRef(a), e);
      Ok(freed.(bids := freed.bids[prev.value := p.(status := Released)]))
  }

  function HoldFor64(db: Tables, a: nat, bidder: nat, amount: int, prev: Option<nat>, env: Env): Result<Tables>
    requires prev.Some? ==> prev.value in db.bids
  {
    var held :- Tx64(db, bidder, Reserved, amount, BidRef(a), env.e1);
    Outbid64(held, prev, a, env.e2)
  }

  function PlaceBid64(db: Tables, cfg: Config, a: nat, bidder: nat, amount: int, env: Env): Result<Tables> {
    if a !in db.auctions then Err(NotFound)
    else
      var auc := db.auctions[a];
      if auc.status != Active then Err(AuctionNotActive)
      else if AuctionEnded(env.t0, auc.endsAt) then Err(AuctionHasEnded)
      else
        :- EnsureNotSelfBid(auc.seller, bidder);
        if auc.highest.Some? && auc.highest.value !in db.bids then Err(NotFound)
        else
          var current := if auc.highest.Some? then db.bids[auc.highest.value].amount else 0;
          :- Beats64(current, amount);
          var freed :- HoldFor64(db, a, bidder, amount, auc.highest, env);
          var (end, _) := MaybeExtend(env.t0, auc.endsAt, cfg.extension, cfg.extension);
          Ok(freed.(bids := freed.bids[env.row := Bid(a, bidder, amount, Leading, env.t0)],
                    auctions :=
                      freed.auctions[a := auc.(highest := Some(env.row), endsAt := end, updatedAt := env.t0)]))
  }

  function CancelBid64(db: Tables, a: nat, b: nat, bidder: nat, env: Env): Result<Tables> {
    if a !in db.auctions then Err(NotFound)
    else if db.auctions[a].status != Active then Err(AuctionNotActive)
    else if b !in db.bids then Err(NotFound)
    else
      var bid := db.bids[b];
      if bid.auction != a || bid.bidder != bidder then Err(NotFound)
      else
        :- EnsureCanCancelBid(db.auctions[a].highest == Some(b));
        var freed :- if bid.status == Leading then Tx64(db, bidder, Freed, bid.amount, BidRef(a), env.e1) else Ok(db);
        Ok(freed.(bids := freed.bids[b := bid.(status := BidCancelled)]))
  }

  function PayOut64(db: Tables, a: nat, auc: Auction, h: nat, env: Env): Result<Tables> {
    if h !in db.bids then Err(NotFound)
    else
      var win := db.bids[h];
      var spent :- Tx64(db, win.bidder, Debited, win.amount, AuctionRef(a), env.e1);
      var paid :- Tx64(spent, auc.seller, Credited, win.amount, AuctionRef(a), env.e2);
      Ok(paid.(bids := paid.bids[h := win.(status := Won)]))
  }

  function Settle64(db: Tables, a: nat, env: Env): Result<Tables> {
    if a !in db.auctions then Err(NotFound)
    else
      var auc := db.auctions[a];
      if !Due(auc, env.t0) then Ok(db)
      else if auc.item !in db.items then Err(NotFound)
      else
        var it := db.items[auc.item];
        var paid :- if auc.highest.Some? then PayOut64(db, a, auc, auc.highest.value, env) else Ok(db);
        var winner := if auc.highest.Some? then Some(db.bids[auc.highest.value].bidder) else None;
        var owner := if winner.Some? then winner.value else it.owner;
        Ok(paid.(items := paid.items[auc.item := it.(owner := owner, status := Available)],
                 auctions :=
                   paid.auctions[a := auc.(status := Settled, winner := if winner.Some? then winner else auc.winner,
                                                     updatedAt := env.t1)]))
  }

  function Apply64(db: Tables, cfg: Config, req: Request, env: Env): Result<Tables> {
    match req
    case Buy(buyer, listing) => Buy64(db, buyer, listing, env)
    case PlaceBid(a, bidder, amount) => PlaceBid64(db, cfg, a, bidder, amount, env)
    case CancelBid(a, b, bidder) => CancelBid64(db, a, b, bidder, env)
    case Settle(a) => Settle64(db, a, env)
    case _ => Apply(db, cfg, req, env)
  }

  function After64(cfg: Config, db: Tables, run: seq<Event>): Tables {
    if run == [] then db
    else
      var before, ev := After64(cfg, db, run[..|run| - 1]), run[|run| - 1];
      match Apply64(before, cfg, ev.req, ev.env)
      case Ok(after) => after
      case Err(_) => before
  }

  // ---- They agree where the numbers are small enough ----

  predicate Bounded(w: Wallet, money: int) { 0 <= w.reserved <= w.total <= money }

  lemma ChangeSame(kind: EntryKind, ref: Ref, w: Wallet, amount: int, money: int)
    requires Bounded(w, money) && money < TWO_63
    requires kind == Credited ==> w.total + amount <= money
    ensures Change64(kind, ref, w, amount) == Change(kind, ref, w, amount)
    ensures Change(kind, ref, w, amount).Ok? ==> Bounded(Change(kind, ref, w, amount).value, money)
  {
    WrapSame(w.total - w.reserved);
    WrapSame(w.reserved + amount);
    WrapSame(w.reserved - amount);
    WrapSame(w.total - amount);
    WrapSame(w.total + amount);
  }

  lemma TxSame(db: Tables, g: nat, kind: EntryKind, amount: int, ref: Ref, e: nat, money: int)
    requires money < TWO_63 && (g in db.wallets ==> Bounded(db.wallets[g], money))
    requires kind == Credited && g in db.wallets ==> db.wallets[g].total + amount <= money
    ensures Tx64(db, g, kind, amount, ref, e) == TxOf(db, g, kind, amount, ref, e)
    ensures TxOf(db, g, kind, amount, ref, e).Ok? ==>
              var after := TxOf(db, g, kind, amount, ref, e).value;
              && g in db.wallets && g in after.wallets && after.wallets == db.wallets[g := after.wallets[g]]
              && after.bids == db.bids && Bounded(after.wallets[g], money)
              && (kind == Debited ==> after.wallets[g].total == db.wallets[g].total - amount)
  {
    ChangeIsTx(db, g, kind, amount, ref, e);
    if g in db.wallets {
      ChangeSame(kind, ref, db.wallets[g], amount, money);
    }
  }

  lemma MinSame(current: int, money: int)
    requires 0 <= current <= money && 105 * money + 99 < TWO_63
    ensures MinNextBid64(current) == MinNextBid(current)
  {
    WrapSame(current * (100 + BID_INCREMENT_PERCENT));
    WrapSame(current * (100 + BID_INCREMENT_PERCENT) + 99);
  }

  // ---- The bounds that the invariants give ----

  lemma WalletsBounded(w: World, db: Tables)
    requires Reserves(db) && Conserved(w, db)
    ensures forall g :: g in db.wallets ==> Bounded(db.wallets[g], Sum(Opening(w)))
  {
    forall g | g in db.wallets ensures Solvent(db.wallets[g]) && Totals(db.wallets)[g] == db.wallets[g].total { }
    SumBounds(Totals(db.wallets));
  }

  lemma TwoBounded(w: World, db: Tables, g: nat, h: nat)
    requires Reserves(db) && Conserved(w, db) && g in db.wallets && h in db.wallets && g != h
    ensures db.wallets[g].total + db.wallets[h].total <= Sum(Opening(w))
  {
    var totals := Totals(db.wallets);
    forall x | x in db.wallets ensures Solvent(db.wallets[x]) { }
    SumRemove(totals, g);
    SumBounds(totals - {g});
    assert (totals - {g})[h] == db.wallets[h].total;
  }

  ghost predicate Small(w: World) { 105 * Sum(Opening(w)) + 99 < TWO_63 }

  /** A payment between two guilds: what leaves the payer makes room for what the payee gets. */
  lemma PaySame(w: World, db: Tables, payer: nat, payee: nat, amount: int, ref: Ref, e1: nat, e2: nat)
    requires Reserves(db) && Conserved(w, db) && Small(w) && payer != payee
    ensures Tx64(db, payer, Debited, amount, ref, e1) == TxOf(db, payer, Debited, amount, ref, e1)
    ensures TxOf(db, payer, Debited, amount, ref, e1).Ok? ==>
              var mid := TxOf(db, payer, Debited, amount, ref, e1).value;
              Tx64(mid, payee, Credited, amount, ref, e2) == TxOf(mid, payee, Credited, amount, ref, e2)
  {
    var money := Sum(Opening(w));
    WalletsBounded(w, db);
    MoneyNonnegative(w);
    TxSame(db, payer, Debited, amount, ref, e1, money);
    if TxOf(db, payer, Debited, amount, ref, e1).Ok? {
      var mid := TxOf(db, payer, Debited, amount, ref, e1).value;
      if payee in db.wallets {
        TwoBounded(w, db, payer, payee);
      }
      TxSame(mid, payee, Credited, amount, ref, e2, money);
    }
  }

  lemma MoneyNonnegative(w: World)
    ensures Sum(Opening(w)) >= 0
  {
    SumBounds(Opening(w));
  }

  /** Prices and daily totals are stored as 64-bit integers. */
  ghost predicate Stored(db: Tables) {
    && (forall l :: l in db.listings ==> 0 < db.listings[l].price < TWO_63)
    && (forall k :: k in db.daily ==> 0 <= db.daily[k] < TWO_63)
  }

  /** A purchase whose price overflows the total that the cap is checked against, or the total that is written. */
  predicate Overflows(db: Tables, buyer: nat, id: nat, env: Env) {
    && id in db.listings
    && var r, price := Transitions.Buy(db, buyer, id, env), db.listings[id].price;
       || (r == Err(DailyCapExceeded) && DailySpent(db, buyer, DayOf(env.t0)) + price >= TWO_63)
       || (r.Ok? && DailySpent(db, buyer, DayOf(env.t1)) + price >= TWO_63)
  }

  lemma CapSame(cap: nat, spent: int, amount: int)
    requires 0 <= spent < TWO_63 && 0 < amount < TWO_63
    ensures WithinDailyCap64(cap, spent, amount) == EnsureWithinDailyCap(cap, spent, amount) <==>
        EnsureWithinDailyCap(cap, spent, amount).Pass? || spent + amount < TWO_63
  {
    WrapSame(spent + amount);
  }

  lemma BuySame(w: World, db: Tables, buyer: nat, id: nat, env: Env)
    requires Reserves(db) && Conserved(w, db) && Small(w) && Stored(db)
    ensures Buy64(db, buyer, id, env) == Transitions.Buy(db, buyer, id, env) <==> !Overflows(db, buyer, id, env)
  {
    if id in db.listings && db.listings[id].seller != buyer {
      var l := db.listings[id];
      PaySame(w, db, buyer, l.seller, l.price, ListingRef(id), env.e1, env.e2);
      BuyFrom(db, buyer, id, l, env);
    }
  }

  lemma BuyFrom(db: Tables, buyer: nat, id: nat, l: Listing, env: Env)
    requires id in db.listings && db.listings[id] == l && Stored(db)
    requires Tx64(db, buyer, Debited, l.price, ListingRef(id), env.e1) ==
             DebitTx(db, buyer, l.price, ListingRef(id), env.e1)
    requires var paid := DebitTx(db, buyer, l.price, ListingRef(id), env.e1);
             paid.Ok? ==> Tx64(paid.value, l.seller, Credited, l.price, ListingRef(id), env.e2) ==
                          CreditTx(paid.value, l.seller, l.price, ListingRef(id), env.e2)
    ensures Buy64(db, buyer, id, env) == Transitions.Buy(db, buyer, id, env) <==> !Overflows(db, buyer, id, env)
  {
    if buyer in db.guilds {
      CapSame(db.guilds[buyer], DailySpent(db, buyer, DayOf(env.t0)), l.price);
    }
  }

  lemma DebitTakes(db: Tables, g: nat, amount: int, ref: Ref, e: nat, money: int)
    requires money < TWO_63 && (g in db.wallets ==> Bounded(db.wallets[g], money)) && ref.ListingRef?
    ensures Tx64(db, g, Debited, amount, ref, e).Ok? ==> amount <= money
  {
    if g in db.wallets {
      ChangeSame(Debited, ref, db.wallets[g], amount, money);
    }
  }

  lemma BuyPays(db: Tables, buyer: nat, id: nat, env: Env, money: int)
    requires money < TWO_63 && (buyer in db.wallets ==> Bounded(db.wallets[buyer], money))
    requires Buy64(db, buyer, id, env).Ok?
    ensures id in db.listings && db.listings[id].price <= money
    ensures DailySpent(db, buyer, DayOf(env.t1)) + db.listings[id].price < TWO_63
  {
    DebitTakes(db, buyer, db.listings[id].price, ListingRef(id), env.e1, money);
  }

  /** With caps that leave room for all the money, an overflow never lets a purchase through that the cap forbids. */
  lemma NeverPastCap(w: World, db: Tables, buyer: nat, id: nat, env: Env)
    requires Reserves(db) && Conserved(w, db) && Spending(db) && Small(w) && Stored(db)
    requires buyer in db.guilds && db.guilds[buyer] + Sum(Opening(w)) < TWO_63
    ensures Buy64(db, buyer, id, env).Ok? ==> Buy64(db, buyer, id, env) == Transitions.Buy(db, buyer, id, env)
  {
    BuySame(w, db, buyer, id, env);
    if Buy64(db, buyer, id, env).Ok? {
      WalletsBounded(w, db);
      MoneyNonnegative(w);
      BuyPays(db, buyer, id, env, Sum(Opening(w)));
      WithinCap(db, buyer, DayOf(env.t0));
      NoFalseCap(db, buyer, id, env);
    }
  }

  lemma WithinCap(db: Tables, g: nat, day: nat)
    requires Spending(db) && g in db.guilds
    ensures 0 <= DailySpent(db, g, day) && (db.guilds[g] > 0 ==> DailySpent(db, g, day) <= db.guilds[g])
  {
  }

  /** A purchase that 64-bit integers let through passes the cap, unless the sum overflows. */
  lemma NoFalseCap(db: Tables, buyer: nat, id: nat, env: Env)
    requires Buy64(db, buyer, id, env).Ok? && Stored(db)
    requires buyer in db.guilds && id in db.listings
    requires db.guilds[buyer] == 0 || DailySpent(db, buyer, DayOf(env.t0)) + db.listings[id].price < TWO_63
    ensures Transitions.Buy(db, buyer, id, env) != Err(DailyCapExceeded)
  {
    if db.guilds[buyer] != 0 {
      CapSame(db.guilds[buyer], DailySpent(db, buyer, DayOf(env.t0)), db.listings[id].price);
    }
  }

  lemma HoldSame(w: World, db: Tables, a: nat, bidder: nat, amount: int, prev: Option<nat>, env: Env)
    requires Reserves(db) && Conserved(w, db) && Small(w) && (prev.Some? ==> prev.value in db.bids)
    ensures HoldFor64(db, a, bidder, amount, prev, env) == HoldFor(db, a, bidder, amount, prev, env)
  {
    var money := Sum(Opening(w));
    WalletsBounded(w, db);
    MoneyNonnegative(w);
    TxSame(db, bidder, Reserved, amount, BidRef(a), env.e1, money);
    if ReserveTx(db, bidder, amount, BidRef(a), env.e1).Ok? && prev.Some? {
      var held, p := ReserveTx(db, bidder, amount, BidRef(a), env.e1).value, db.bids[prev.value];
      TxSame(held, p.bidder, Freed, p.amount, BidRef(a), env.e2, money);
    }
  }

  lemma PlaceBidSame(w: World, db: Tables, a: nat, bidder: nat, amount: int, env: Env)
    requires Reserves(db) && Conserved(w, db) && Affordable(w, db.bids) && BidsOk(db) && Small(w)
    ensures PlaceBid64(db, w.cfg, a, bidder, amount, env) == Transitions.PlaceBid(db, w.cfg, a, bidder, amount, env)
  {
    MoneyNonnegative(w);
    MinSame(0, Sum(Opening(w)));
    if a in db.auctions && (db.auctions[a].highest.Some? ==> db.auctions[a].highest.value in db.bids) {
      if db.auctions[a].highest.Some? {
        assert BidOk(db, db.auctions[a].highest.value);
        MinSame(db.bids[db.auctions[a].highest.value].amount, Sum(Opening(w)));
      }
      HoldSame(w, db, a, bidder, amount, db.auctions[a].highest, env);
    }
  }

  lemma CancelBidSame(w: World, db: Tables, a: nat, b: nat, bidder: nat, env: Env)
    requires Reserves(db) && Conserved(w, db) && Small(w)
    ensures CancelBid64(db, a, b, bidder, env) == Transitions.CancelBid(db, a, b, bidder, env)
  {
    WalletsBounded(w, db);
    MoneyNonnegative(w);
    if b in db.bids {
      TxSame(db, bidder, Freed, db.bids[b].amount, BidRef(a), env.e1, Sum(Opening(w)));
    }
  }

  lemma AuctionTx(db: Tables, g: nat, amount: int, a: nat, e: nat)
    ensures TxOf(db, g, Debited, amount, AuctionRef(a), e) == SettleReservedTx(db, g, amount, AuctionRef(a), e)
  {
  }

  lemma PayOutFrom(db: Tables, a: nat, auc: Auction, h: nat, env: Env)
    requires h in db.bids
    requires var win := db.bids[h];
             Tx64(db, win.bidder, Debited, win.amount, AuctionRef(a), env.e1) ==
             TxOf(db, win.bidder, Debited, win.amount, AuctionRef(a), env.e1)
    requires var win := db.bids[h];
             var spent := TxOf(db, win.bidder, Debited, win.amount, AuctionRef(a), env.e1);
             spent.Ok? ==> Tx64(spent.value, auc.seller, Credited, win.amount, AuctionRef(a), env.e2) ==
                           TxOf(spent.value, auc.seller, Credited, win.amount, AuctionRef(a), env.e2)
    ensures PayOut64(db, a, auc, h, env) == PayOut(db, a, auc, h, env)
  {
    AuctionTx(db, db.bids[h].bidder, db.bids[h].amount, a, env.e1);
  }

  lemma PayOutSame(w: World, db: Tables, a: nat, auc: Auction, h: nat, env: Env)
    requires Reserves(db) && Conserved(w, db) && Small(w) && (h in db.bids ==> db.bids[h].bidder != auc.seller)
    ensures PayOut64(db, a, auc, h, env) == PayOut(db, a, auc, h, env)
  {
    if h in db.bids {
      var win := db.bids[h];
      PaySame(w, db, win.bidder, auc.seller, win.amount, AuctionRef(a), env.e1, env.e2);
      PayOutFrom(db, a, auc, h, env);
    }
  }

  lemma SettleSame(w: World, db: Tables, a: nat, env: Env)
    requires Reserves(db) && Conserved(w, db) && BidsOk(db) && Small(w)
    ensures Settle64(db, a, env) == Transitions.Settle(db, a, env)
  {
    if a in db.auctions && db.auctions[a].highest.Some? {
      NotItsOwn(db, a);
      PayOutSame(w, db, a, db.auctions[a], db.auctions[a].highest.value, env);
    }
  }

  lemma NotItsOwn(db: Tables, a: nat)
    requires BidsOk(db) && a in db.auctions && db.auctions[a].highest.Some?
    ensures var h := db.auctions[a].highest.value; h in db.bids && db.bids[h].bidder != db.auctions[a].seller
  {
    assert LeaderOk(db, a);
    assert BidOk(db, db.auctions[a].highest.value);
  }

  /** The one kind of request that 64-bit integers can answer differently, and exactly when. */
  predicate Differs(db: Tables, req: Request, env: Env) {
    req.Buy? && Overflows(db, req.buyer, req.listing, env)
  }

  /**
   * Main result, exact: in a reachable state, if 105 times all the money plus 99 fits in 64 bits, a request returns
   * on 64-bit integers what it returns on unbounded ones, whatever amount it names and however it ends, if and only if
   * it is not a purchase whose price overflows a daily total.
   */
  lemma NoOverflow(w: World, db: Tables, req: Request, env: Env)
    requires Inv(w, db) && Small(w) && Stored(db)
    ensures Apply64(db, w.cfg, req, env) == Apply(db, w.cfg, req, env) <==> !Differs(db, req, env)
  {
    match req {
      case Buy(buyer, l) => BuySame(w, db, buyer, l, env);
      case PlaceBid(a, bidder, amount) => PlaceBidSame(w, db, a, bidder, amount, env);
      case CancelBid(a, b, bidder) => CancelBidSame(w, db, a, b, bidder, env);
      case Settle(a) => SettleSame(w, db, a, env);
      case _ =>
    }
  }

  /** Every request of the run stores 64-bit prices and overflows no daily total. */
  ghost predicate Fits(cfg: Config, db: Tables, run: seq<Event>) {
    forall n :: 0 <= n < |run| ==>
      Stored(After(cfg, db, run[..n])) && !Differs(After(cfg, db, run[..n]), run[n].req, run[n].env)
  }

  lemma FitsBefore(cfg: Config, db: Tables, run: seq<Event>)
    requires run != [] && Fits(cfg, db, run)
    ensures Fits(cfg, db, run[..|run| - 1])
  {
    var before := run[..|run| - 1];
    forall k | 0 <= k < |before| ensures before[..k] == run[..k] && before[k] == run[k] { }
  }

  /** So a whole run on 64-bit integers leaves the tables it leaves on unbounded ones. */
  lemma {:induction false} RunSame(w: World, db: Tables, run: seq<Event>)
    requires Inv(w, db) && Legal(w.cfg, db, run) && Small(w) && Fits(w.cfg, db, run)
    ensures After64(w.cfg, db, run) == After(w.cfg, db, run)
  {
    if run != [] {
      var n := |run| - 1;
      var before, ev := run[..n], run[n];
      FitsBefore(w.cfg, db, run);
      RunSame(w, db, before);
      Reachable.RunKeeps(w, db, before);
      NoOverflow(w, After(w.cfg, db, before), ev.req, ev.env);
    }
  }
}
