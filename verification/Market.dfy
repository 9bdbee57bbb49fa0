/** The services as they are written: tables updated in place, one transaction at a time, rolled back on error. */
module Market {
  import opened Model
  import opened Rules
  import opened Invariants
  import opened Machine
  import opened Draws
  import opened Sums
  import Outcomes
  import Wallets
  import Transitions
  import Reachable
  import Settlement

  class Market {
    const world: World
    var guilds: map<nat, nat>
    var wallets: map<nat, Wallet>
    var ledger: map<nat, Entry>
    var items: map<nat, Item>
    var listings: map<nat, Listing>
    var auctions: map<nat, Auction>
    var bids: map<nat, Bid>
    var daily: map<(nat, nat), int>
    var ids: Ids
    var clock: nat

    function Rows(): Tables
      reads this
    {
      Tables(guilds, wallets, ledger, items, listings, auctions, bids, daily)
    }

    /** Reads the clock, which may have advanced since the last reading. */
    method Now() returns (t: nat)
      modifies `clock
      ensures old(clock) <= clock == t
    {
      t :| clock <= t;
      clock := t;
    }

    // ---- Money movements ----

    method SaveAndRecord(g: nat, w: Wallet, kind: EntryKind, amount: int, ref: Ref)
      modifies `wallets, `ledger, `ids
      ensures Rows() == Wallets.Record(old(Rows()), g, w, kind, amount, ref, old(ids.ledger))
      ensures ids == old(ids).(ledger := old(ids.ledger) + 1)
    {
      wallets := wallets[g := w];
      ledger := ledger[ids.ledger := Entry(g, kind, amount, ref)];
      ids := ids.(ledger := ids.ledger + 1);
    }

    /** What a money movement must have done when its transition says `done`. */
    twostate predicate Moved(done: Result<Tables>, r: Check)
      reads this
    {
      match done
      case Ok(after) => r == Pass && Rows() == after && ids == old(ids).(ledger := old(ids.ledger) + 1)
      case Err(e) => r == Fail(e) && Rows() == old(Rows()) && ids == old(ids)
    }

    method ReserveTx(g: nat, amount: int, ref: Ref) returns (r: Check)
      modifies `wallets, `ledger, `ids
      ensures Moved(Wallets.ReserveTx(old(Rows()), g, amount, ref, old(ids.ledger)), r)
    {
      if g !in wallets { return Fail(WalletMissing); }
      var w := wallets[g];
      r := EnsureCanReserve(w.total, w.reserved, amount);
      if r.Fail? { return; }
      w := w.(reserved := w.reserved + amount);
      SaveAndRecord(g, w, Reserved, amount, ref);
    }

    method ReleaseTx(g: nat, amount: int, ref: Ref) returns (r: Check)
      modifies `wallets, `ledger, `ids
      ensures Moved(Wallets.ReleaseTx(old(Rows()), g, amount, ref, old(ids.ledger)), r)
    {
      if g !in wallets { return Fail(WalletMissing); }
      var w := wallets[g];
      r := EnsureCanRelease(w.reserved, amount);
      if r.Fail? { return; }
      w := w.(reserved := w.reserved - amount);
      SaveAndRecord(g, w, Freed, amount, ref);
    }

    method DebitTx(g: nat, amount: int, ref: Ref) returns (r: Check)
      modifies `wallets, `ledger, `ids
      ensures Moved(Wallets.DebitTx(old(Rows()), g, amount, ref, old(ids.ledger)), r)
    {
      if g !in wallets { return Fail(WalletMissing); }
      var w := wallets[g];
      r := EnsureSufficientAvailable(w.total, w.reserved, amount);
      if r.Fail? { return; }
      w := w.(total := w.total - amount);
      SaveAndRecord(g, w, Debited, amount, ref);
    }

    method CreditTx(g: nat, amount: int, ref: Ref) returns (r: Check)
      modifies `wallets, `ledger, `ids
      ensures Moved(Wallets.CreditTx(old(Rows()), g, amount, ref, old(ids.ledger)), r)
    {
      if g !in wallets { return Fail(WalletMissing); }
      var w := wallets[g];
      r := EnsurePositive(amount);
      if r.Fail? { return; }
      w := w.(total := w.total + amount);
      SaveAndRecord(g, w, Credited, amount, ref);
    }

    method SettleReservedTx(g: nat, amount: int, ref: Ref) returns (r: Check)
      modifies `wallets, `ledger, `ids
      ensures Moved(Wallets.SettleReservedTx(old(Rows()), g, amount, ref, old(ids.ledger)), r)
    {
      if g !in wallets { return Fail(WalletMissing); }
      var w := wallets[g];
      r := EnsureCanRelease(w.reserved, amount);
      if r.Fail? { return; }
      w := w.(total := w.total - amount);
      w := w.(reserved := w.reserved - amount);
      SaveAndRecord(g, w, Debited, amount, ref);
    }

    // ---- Transaction bodies ----

    /** The readings and ids a body drew are the clock's and the sequences'. */
    twostate predicate Drew(env: Env)
      reads this
    {
      && guilds == old(guilds) && old(clock) <= env.t0 <= env.t1 <= clock
      && env.e1 == old(ids.ledger) && env.e2 == env.e1 + 1
      && old(ids.items) <= ids.items && old(ids.listings) <= ids.listings && old(ids.auctions) <= ids.auctions
      && old(ids.bids) <= ids.bids && old(ids.ledger) <= ids.ledger
    }

    /** A body either performed its whole transition or returned the transition's error, having written anything. */
    twostate predicate Ran(done: Result<Tables>, r: Check)
      reads this
    {
      match done
      case Ok(after) => r == Pass && Rows() == after
      case Err(e) => r == Fail(e)
    }

    method CreateItemTx(owner: nat, name: string, tier: Option<Tier>, stock: int) returns (r: Check, ghost env: Env)
      modifies this
      ensures Drew(env) && env.row == old(ids.items)
      ensures Ran(Transitions.CreateItem(old(Rows()), owner, name, tier, stock, env), r)
      ensures r.Pass? ==> ids == old(ids).(items := env.row + 1)
    {
      env := Env(clock, clock, ids.items, ids.ledger, ids.ledger + 1);
      if name == "" { return Fail(NameRequired), env; }
      var units := stock;
      match tier {
        case Some(Common) => if stock < 1 { return Fail(InvalidStock), env; }
        case Some(Rare) => if stock < 1 { return Fail(InvalidStock), env; }
        case Some(Legendary) => units := 1;
        case None => return Fail(InvalidTier), env;
      }
      if owner !in guilds { return Fail(NotFound), env; }
      var now := Now();
      env := env.(t0 := now, t1 := now);
      items := items[ids.items := Item(name, tier.value, owner, Available, units)];
      ids := ids.(items := ids.items + 1);
      return Pass, env;
    }

    method CreateListingTx(seller: nat, itemID: nat, price: int) returns (r: Check, ghost env: Env)
      modifies this
      ensures Drew(env) && env.row == old(ids.listings)
      ensures Ran(Transitions.CreateListing(old(Rows()), seller, itemID, price, env), r)
      ensures r.Pass? ==> ids == old(ids).(listings := env.row + 1)
    {
      env := Env(clock, clock, ids.listings, ids.ledger, ids.ledger + 1);
      r := EnsurePositive(price);
      if r.Fail? { return; }
      if itemID !in items { return Fail(NotFound), env; }
      var item := items[itemID];
      if item.owner != seller { return Fail(ItemNotOwned), env; }
      if item.tier == Legendary { return Fail(LegendaryNeedsAuction), env; }
      if item.stock < 1 { return Fail(OutOfStock), env; }
      var now := Now();
      env := env.(t0 := now, t1 := now);
      listings := listings[ids.listings := Listing(itemID, seller, price, Open, None)];
      ids := ids.(listings := ids.listings + 1);
    }

    method DailySpent(g: nat) returns (spent: int, ghost t: nat)
      modifies `clock
      ensures old(clock) <= clock == t
      ensures spent == Transitions.DailySpent(Rows(), g, DayOf(t))
    {
      var today := Now();
      t := today;
      spent := if (g, DayOf(today)) in daily then daily[(g, DayOf(today))] else 0;
    }

    method AddDailySpent(g: nat, amount: int) returns (ghost t: nat)
      modifies `clock, `daily
      ensures old(clock) <= clock == t
      ensures daily == old(daily)[(g, DayOf(t)) := Transitions.DailySpent(old(Rows()), g, DayOf(t)) + amount]
    {
      var today := Now();
      t := today;
      var k := (g, DayOf(today));
      daily := if k in daily then daily[k := daily[k] + amount] else daily[k := amount];
    }

    /** Transfers one unit, adds to the day's total and marks the listing sold. */
    method HandOver(buyer: nat, id: nat, ghost env: Env) returns (ghost t1: nat)
      requires id in listings && listings[id].item in items && env.row == ids.items
      modifies this
      ensures old(clock) <= clock == t1 && ids == old(ids).(items := env.row + 1)
      ensures Rows() == Transitions.Deliver(old(Rows()), buyer, id, env.(t1 := t1))
    {
      var listing := listings[id];
      var item := items[listing.item];
      item := item.(stock := item.stock - 1);
      if item.stock == 0 { item := item.(status := Sold); }
      items := items[listing.item := item];
      items := items[ids.items := Item(item.name, item.tier, buyer, Available, 1)];
      ids := ids.(items := ids.items + 1);
      t1 := AddDailySpent(buyer, listing.price);
      listing := listing.(status := ListingSold, buyer := Some(buyer));
      listings := listings[id := listing];
    }

    method BuyTx(buyer: nat, id: nat) returns (r: Check, ghost env: Env)
      modifies this
      ensures Drew(env) && env.row == old(ids.items)
      ensures Ran(Transitions.Buy(old(Rows()), buyer, id, env), r)
      ensures r.Pass? ==> ids == old(ids).(items := env.row + 1, ledger := env.e2 + 1)
    {
      env := Env(clock, clock, ids.items, ids.ledger, ids.ledger + 1);
      if id !in listings { return Fail(NotFound), env; }
      var listing := listings[id];
      if listing.status != Open { return Fail(ListingNotOpen), env; }
      if listing.seller == buyer { return Fail(SelfPurchase), env; }
      if listing.item !in items { return Fail(NotFound), env; }
      var item := items[listing.item];
      if item.stock < 1 { return Fail(OutOfStock), env; }
      if buyer !in wallets { return Fail(WalletMissing), env; }
      if buyer !in guilds { return Fail(NotFound), env; }
      var spent, t0 := DailySpent(buyer);
      env := env.(t0 := t0, t1 := t0);
      r := EnsureWithinDailyCap(guilds[buyer], spent, listing.price);
      if r.Fail? { return; }
      r := DebitTx(buyer, listing.price, ListingRef(id));
      if r.Fail? { return; }
      r := CreditTx(listing.seller, listing.price, ListingRef(id));
      if r.Fail? { return; }
      var t1 := HandOver(buyer, id, env);
      env := env.(t1 := t1);
    }

    method CreateAuctionTx(seller: nat, itemID: nat) returns (r: Check, ghost env: Env)
      modifies this
      ensures Drew(env) && env.row == old(ids.auctions)
      ensures Ran(Transitions.CreateAuction(old(Rows()), world.cfg, seller, itemID, env), r)
      ensures r.Pass? ==> ids == old(ids).(auctions := env.row + 1)
    {
      env := Env(clock, clock, ids.auctions, ids.ledger, ids.ledger + 1);
      if itemID !in items { return Fail(NotFound), env; }
      var item := items[itemID];
      if item.owner != seller { return Fail(ItemNotOwned), env; }
      if item.tier != Legendary { return Fail(NotLegendary), env; }
      if item.status == InAuction { return Fail(ActiveAuctionExists), env; }
      if item.status != Available { return Fail(ItemNotAvailable), env; }
      var now := Now();
      env := env.(t0 := now, t1 := now);
      auctions := auctions[ids.auctions :=
        Auction(itemID, seller, Active, now, now + world.cfg.window, None, None, now)];
      ids := ids.(auctions := ids.auctions + 1);
      item := item.(status := InAuction);
      items := items[itemID := item];
      return Pass, env;
    }

    /** Frees the outbid leader's money and marks its bid released. */
    method ReleaseLeader(a: nat, h: nat) returns (r: Check)
      requires h in bids
      modifies `wallets, `ledger, `ids, `bids
      ensures Ran(Transitions.Outbid(old(Rows()), Some(h), a, old(ids.ledger)), r)
      ensures ids == old(ids).(ledger := old(ids.ledger) + if r.Pass? then 1 else 0)
    {
      var prev := bids[h];
      r := ReleaseTx(prev.bidder, prev.amount, BidRef(a));
      if r.Fail? { return; }
      prev := prev.(status := Released);
      bids := bids[h := prev];
    }

    /** Reserves the new bidder's funds, then releases the outbid leader. */
    method HoldFunds(a: nat, bidder: nat, amount: int, prev: Option<nat>, ghost env: Env) returns (r: Check)
      requires (prev.Some? ==> prev.value in bids) && env.e1 == ids.ledger && env.e2 == env.e1 + 1
      modifies `wallets, `ledger, `ids, `bids
      ensures Ran(Transitions.HoldFor(old(Rows()), a, bidder, amount, prev, env), r)
      ensures old(ids.ledger) <= ids.ledger && ids == old(ids).(ledger := ids.ledger)
      ensures r.Pass? ==> ids.ledger == if prev.Some? then env.e2 + 1 else env.e1 + 1
    {
      r := ReserveTx(bidder, amount, BidRef(a));
      if r.Fail? { return; }
      if prev.Some? {
        r := ReleaseLeader(a, prev.value);
      }
    }

    method PlaceBidTx(a: nat, bidder: nat, amount: int) returns (r: Check, ghost env: Env)
      modifies this
      ensures Drew(env) && env.row == old(ids.bids)
      ensures Ran(Transitions.PlaceBid(old(Rows()), world.cfg, a, bidder, amount, env), r)
      ensures r.Pass? ==> a in old(auctions) &&
                          ids == old(ids).(bids := env.row + 1,
                                           ledger := if old(auctions)[a].highest.Some? then env.e2 + 1 else env.e1 + 1)
    {
      env := Env(clock, clock, ids.bids, ids.ledger, ids.ledger + 1);
      if a !in auctions { return Fail(NotFound), env; }
      var auction := auctions[a];
      if auction.status != Active { return Fail(AuctionNotActive), env; }
      var now := Now();
      env := env.(t0 := now, t1 := now);
      if AuctionEnded(now, auction.endsAt) { return Fail(AuctionHasEnded), env; }
      r := EnsureNotSelfBid(auction.seller, bidder);
      if r.Fail? { return; }
      var current: int := 0;
      var prev: Option<Bid> := None;
      if auction.highest.Some? {
        if auction.highest.value !in bids { return Fail(NotFound), env; }
        prev := Some(bids[auction.highest.value]);
        current := prev.value.amount;
      }
      r := EnsureBidBeatsCurrent(current, amount);
      if r.Fail? { return; }
      r := HoldFunds(a, bidder, amount, auction.highest, env);
      if r.Fail? { return; }
      RecordBid(a, bidder, amount, now);
    }

    /** Inserts the bid, makes it the auction's leader and applies the anti-snipe extension. */
    method RecordBid(a: nat, bidder: nat, amount: int, now: nat)
      requires a in auctions
      modifies `bids, `auctions, `ids
      ensures bids == old(bids)[old(ids.bids) := Bid(a, bidder, amount, Leading, now)]
      ensures ids == old(ids).(bids := old(ids.bids) + 1)
      ensures var auc := old(auctions)[a];
              var (end, _) := MaybeExtend(now, auc.endsAt, world.cfg.extension, world.cfg.extension);
              && end >= 0
              && auctions == old(auctions)[a := auc.(highest := Some(old(ids.bids)), endsAt := end, updatedAt := now)]
    {
      var auction := auctions[a];
      var row := ids.bids;
      bids := bids[row := Bid(a, bidder, amount, Leading, now)];
      ids := ids.(bids := row + 1);
      auction := auction.(highest := Some(row));
      var (end, extended) := MaybeExtend(now, auction.endsAt, world.cfg.extension, world.cfg.extension);
      if extended { auction := auction.(endsAt := end); }
      auction := auction.(updatedAt := now);
      auctions := auctions[a := auction];
    }

    method CancelBidTx(a: nat, b: nat, bidder: nat) returns (r: Check, ghost env: Env)
      modifies this
      ensures Drew(env)
      ensures Ran(Transitions.CancelBid(old(Rows()), a, b, bidder, env), r)
      ensures r.Pass? ==> b in old(bids) && (old(bids)[b].status == Leading ==> ids.ledger > env.e1)
    {
      env := Env(clock, clock, 0, ids.ledger, ids.ledger + 1);
      if a !in auctions { return Fail(NotFound), env; }
      var auction := auctions[a];
      if auction.status != Active { return Fail(AuctionNotActive), env; }
      if b !in bids { return Fail(NotFound), env; }
      var bid := bids[b];
      if bid.auction != a || bid.bidder != bidder { return Fail(NotFound), env; }
      r := EnsureCanCancelBid(auction.highest == Some(b));
      if r.Fail? { return; }
      if bid.status == Leading {
        r := ReleaseTx(bidder, bid.amount, BidRef(a));
        if r.Fail? { return; }
      }
      bid := bid.(status := BidCancelled);
      bids := bids[b := bid];
    }

    /** The winner pays out of its reserve, the seller is paid, and the bid is marked won. */
    method PayOut(a: nat, auction: Auction, h: nat, ghost env: Env) returns (r: Check, winner: nat)
      requires env.e1 == ids.ledger && env.e2 == env.e1 + 1
      modifies this
      ensures Ran(Transitions.PayOut(old(Rows()), a, auction, h, env), r)
      ensures r.Pass? ==> h in old(bids) && winner == old(bids)[h].bidder && ids == old(ids).(ledger := env.e2 + 1)
      ensures clock == old(clock) && guilds == old(guilds)
      ensures old(ids.ledger) <= ids.ledger && ids == old(ids).(ledger := ids.ledger)
    {
      winner := 0;
      if h !in bids { return Fail(NotFound), 0; }
      var win := bids[h];
      winner := win.bidder;
      r := SettleReservedTx(win.bidder, win.amount, AuctionRef(a));
      if r.Fail? { return; }
      r := CreditTx(auction.seller, win.amount, AuctionRef(a));
      if r.Fail? { return; }
      win := win.(status := Won);
      bids := bids[h := win];
    }

    /** `settled` is the source's result: false, without error, when there was nothing to do. */
    method SettleTx(a: nat) returns (r: Check, settled: bool, ghost env: Env)
      modifies this
      ensures Drew(env)
      ensures Ran(Transitions.Settle(old(Rows()), a, env), r)
      ensures settled <==> r.Pass? && a in old(auctions) && Transitions.Due(old(auctions)[a], env.t0)
      ensures settled && old(auctions)[a].highest.Some? ==> ids.ledger > env.e2
    {
      env := Env(clock, clock, 0, ids.ledger, ids.ledger + 1);
      settled := false;
      if a !in auctions { return Fail(NotFound), false, env; }
      var auction := auctions[a];
      if auction.status != Active { return Pass, false, env; }
      var now := Now();
      env := env.(t0 := now, t1 := now);
      if !AuctionEnded(now, auction.endsAt) { return Pass, false, env; }
      if auction.item !in items { return Fail(NotFound), false, env; }
      var item := items[auction.item];
      ghost var paid := Rows();
      if auction.highest.Some? {
        var winner;
        r, winner := PayOut(a, auction, auction.highest.value, env);
        if r.Fail? { return; }
        paid := Rows();
        item := item.(owner := winner);
        item := item.(status := Available);
        auction := auction.(winner := Some(winner));
      } else {
        item := item.(status := Available);
      }
      var later := Now();
      env := env.(t1 := later);
      auction := auction.(status := Settled);
      auction := auction.(updatedAt := later);
      items := items[auction.item := item];
      auctions := auctions[a := auction];
      assert auction.highest.Some? ==>
          Transitions.PayOut(old(Rows()), a, old(auctions[a]), auction.highest.value, env) == Ok(paid);
      assert items == paid.items[auction.item := item] && auctions == paid.auctions[a := auction];
      return Pass, true, env;
    }

    // ---- Transactions ----

    /** The state between transactions: every invariant holds, and clock and sequences are ahead of the tables. */
    ghost predicate Valid()
      reads this
    {
      Inv(world, Rows()) && Clocked(Rows(), clock) && Ahead(Rows(), ids)
    }

    constructor (world: World, seeded: Tables, ids: Ids)
      requires Init(world, seeded) && Ahead(seeded, ids)
      ensures Valid() && Rows() == seeded && this.world == world
    {
      this.world := world;
      guilds, wallets, ledger, items := seeded.guilds, seeded.wallets, seeded.ledger, seeded.items;
      listings, auctions, bids, daily := seeded.listings, seeded.auctions, seeded.bids, seeded.daily;
      this.ids := ids;
      clock := 0;
      new;
      Reachable.InitHolds(world, seeded);
      assert Rows() == seeded;
    }

    /** Puts every table back as it was; ids already drawn stay drawn. */
    method Rollback(saved: Tables)
      requires saved.guilds == guilds
      modifies `wallets, `ledger, `items, `listings, `auctions, `bids, `daily
      ensures Rows() == saved
    {
      wallets, ledger, items, listings := saved.wallets, saved.ledger, saved.items, saved.listings;
      auctions, bids, daily := saved.auctions, saved.bids, saved.daily;
    }

    /** Runs a request's body; `settled` is the result of a settlement. */
    method Body(req: Request) returns (r: Check, settled: bool, ghost env: Env)
      modifies this
      ensures Drew(env) && RowCounter(req, old(ids)) <= env.row
      ensures Ran(Transitions.Apply(old(Rows()), world.cfg, req, env), r)
      ensures r.Pass? ==> Covers(old(Rows()), req, env, ids)
      ensures settled <==> r.Pass? && Settles(old(Rows()), req, env)
    {
      settled := false;
      match req {
        case CreateItem(owner, name, tier, stock) => r, env := CreateItemTx(owner, name, tier, stock);
        case CreateListing(seller, item, price) => r, env := CreateListingTx(seller, item, price);
        case Buy(buyer, listing) => r, env := BuyTx(buyer, listing);
        case CreateAuction(seller, item) => r, env := CreateAuctionTx(seller, item);
        case PlaceBid(a, bidder, amount) => r, env := PlaceBidTx(a, bidder, amount);
        case CancelBid(a, b, bidder) => r, env := CancelBidTx(a, b, bidder);
        case Settle(a) => r, settled, env := SettleTx(a);
      }
    }

    /**
     * One transaction: either the whole transition and its invariants, or an error and every table exactly as before,
     * even when the error came after rows were written.
     */
    method Transact(req: Request) returns (r: Check, settled: bool, ghost env: Env)
      requires Valid()
      modifies this
      ensures Valid() && old(clock) <= env.t0 <= env.t1 <= clock
      ensures Served(world.cfg, old(Rows()), Event(req, env), r, Rows())
      ensures settled <==> r.Pass? && Settles(old(Rows()), req, env)
    {
      var saved := Rows();
      r, settled, env := Body(req);
      EnvGranted(saved, old(clock), old(ids), req, env);
      if r.Fail? {
        Rollback(saved);
        AbortKeeps(saved, old(clock), clock, old(ids), ids);
      } else {
        CommitKeeps(world, saved, req, env, Rows(), old(clock), clock, old(ids), ids);
      }
    }

    /** A guild's balance: what is available is never negative, and the rest is bid on auctions it leads. */
    method Balance(g: nat) returns (found: bool, total: int, available: int)
      requires Valid()
      ensures found <==> g in wallets
      ensures found ==> total == wallets[g].total && 0 <= available == total - Sum(Held(auctions, bids, g))
    {
      if g !in wallets { return false, 0, 0; }
      var w := wallets[g];
      assert Solvent(w);
      return true, w.total, w.total - w.reserved;
    }

    // ---- Settling what is due ----

    /** One settlement of a pass: auction a was found due in db, after which the auctions of `order` were settled. */
    method SettleScanned(a: nat, ghost db: Tables, ghost order: seq<nat>, ghost run: seq<Event>)
      returns (r: Check, ok: bool, ghost env: Env)
      requires Valid() && Inv(world, db) && Passed(world, db, order, run, Rows())
      requires a in db.auctions && a !in Settlement.SetOf(order) && Transitions.Due(db.auctions[a], clock)
      modifies this
      ensures Valid() && old(clock) <= clock && r == Pass && ok
      ensures Passed(world, db, order + [a], run + [Event(Request.Settle(a), env)], Rows())
    {
      ghost var before := Rows();
      NotYetSettled(world, db, order, run, before, a);
      r, ok, env := Transact(Request.Settle(a));
      Settlement.SettleNeverFails(world, before, a, env);
      PassMore(world, db, order, run, before, a, env);
    }

    /** Settles the scanned auctions in whatever order the scan lists them, each in its own transaction. */
    method SettleScan(due: set<nat>) returns (r: Check, settled: nat, ghost order: seq<nat>, ghost run: seq<Event>)
      requires Valid() && forall a :: a in due ==> a in auctions && Transitions.Due(auctions[a], clock)
      modifies this
      ensures Valid() && old(clock) <= clock && r == Pass && settled == |due|
      ensures Settlement.SetOf(order) == due && Passed(world, old(Rows()), order, run, Rows())
    {
      ghost var db, now := Rows(), clock;
      var pending := due;
      ghost var done := {};
      order, run, settled := [], [], 0;
      NoneTaken(due);
      NonePassed(world, db);
      while pending != {}
        invariant Valid() && now <= clock
        invariant Passed(world, db, order, run, Rows())
        invariant done == Settlement.SetOf(order) && Split(done, pending, due) && settled == |done|
        decreases |pending|
      {
        var a :| a in pending;
        TakeOne(done, pending, due, a);
        SetOfMore(order, a);
        ghost var env;
        var ok;
        r, ok, env := SettleScanned(a, db, order, run);
        if r.Fail? { return; }
        if ok { settled := settled + 1; }
        pending, done := pending - {a}, done + {a};
        order, run := order + [a], run + [Event(Request.Settle(a), env)];
      }
      r := Pass;
      AllTaken(done, due);
    }

    /** The ids of the auctions whose window has closed. */
    method FindDue() returns (due: set<nat>, now: nat)
      requires Valid()
      modifies `clock
      ensures Valid() && old(clock) <= clock == now && due == DueAt(Rows(), now)
    {
      now := ReadClock();
      due := set a | a in auctions && Transitions.Due(auctions[a], now);
    }

    /** A clock reading between transactions. */
    method ReadClock() returns (now: nat)
      requires Valid()
      modifies `clock
      ensures Valid() && old(clock) <= clock == now
    {
      now := Now();
      AbortKeeps(Rows(), old(clock), now, ids, ids);
    }

    /** Every auction due at the scan is settled, and nothing fails. */
    method SettleDue() returns (r: Check, settled: nat, ghost scan: nat)
      requires Valid()
      modifies this
      ensures Valid() && old(clock) <= scan && r == Pass
      ensures settled == |DueAt(old(Rows()), scan)|
      ensures Settlement.SettledBy(old(Rows()), DueAt(old(Rows()), scan), Rows())
    {
      var due, now := FindDue();
      scan := now;
      ghost var order, run;
      r, settled, order, run := SettleScan(due);
      PassedAll(world, old(Rows()), scan, order, run, Rows());
    }

    // ---- Requests that name an item ----

    /** The item's active auction. There is at most one, and there is one exactly while the item is in auction. */
    method ActiveAuctionByItem(item: nat) returns (found: Option<nat>)
      requires Valid()
      ensures found.Some? <==> item in items && items[item].status == InAuction
      ensures found.Some? ==> forall a :: ActiveFor(Rows(), a, item) <==> a == found.value
    {
      var active := ActiveAuctions(auctions, item);
      found := First(active);
      TheActiveOne(Rows(), item, active, found);
    }

    /** A bid on an item is a bid on the one auction it is in. */
    method PlaceBidOnItem(item: nat, bidder: nat, amount: int) returns (r: Check, ghost env: Env)
      requires Valid()
      modifies this
      ensures Valid()
      ensures !(item in old(items) && old(items)[item].status == InAuction) ==>
          r == Fail(NotFound) && Rows() == old(Rows())
      ensures forall a :: ActiveFor(old(Rows()), a, item) ==>
                Served(world.cfg, old(Rows()), Event(Request.PlaceBid(a, bidder, amount), env), r, Rows())
    {
      var found := ActiveAuctionByItem(item);
      env := Env(clock, clock, 0, 0, 1);
      if found.None? { return Fail(NotFound), env; }
      var settled;
      r, settled, env := Transact(Request.PlaceBid(found.value, bidder, amount));
    }

    method CancelBidOnItem(item: nat, b: nat, bidder: nat) returns (r: Check, ghost env: Env)
      requires Valid()
      modifies this
      ensures Valid()
      ensures !(item in old(items) && old(items)[item].status == InAuction) ==>
          r == Fail(NotFound) && Rows() == old(Rows())
      ensures forall a :: ActiveFor(old(Rows()), a, item) ==>
                Served(world.cfg, old(Rows()), Event(Request.CancelBid(a, b, bidder), env), r, Rows())
    {
      var found := ActiveAuctionByItem(item);
      env := Env(clock, clock, 0, 0, 1);
      if found.None? { return Fail(NotFound), env; }
      var settled;
      r, settled, env := Transact(Request.CancelBid(found.value, b, bidder));
    }

    /** The item's newest open listing. */
    method OpenListingByItem(item: nat) returns (found: Option<nat>)
      ensures found.None? ==> forall l: nat :: !OpenFor(Rows(), l, item)
      ensures found.Some? ==> forall l :: NewestOpen(Rows(), l, item) <==> l == found.value
    {
      var open := set l | l in listings && listings[l].item == item && listings[l].status == Open;
      forall l ensures l in open <==> OpenFor(Rows(), l, item) { }
      if open == {} {
        found := None;
      } else {
        var newest := Newest(open);
        found := Some(newest);
        assert NewestOpen(Rows(), newest, item);
      }
    }

    /** Buys the newest open listing of an item. */
    method BuyByItem(buyer: nat, item: nat) returns (r: Check, ghost env: Env)
      requires Valid()
      modifies this
      ensures Valid()
      ensures (forall l: nat :: !OpenFor(old(Rows()), l, item)) ==> r == Fail(NotFound) && Rows() == old(Rows())
      ensures forall l :: NewestOpen(old(Rows()), l, item) ==>
                Served(world.cfg, old(Rows()), Event(Request.Buy(buyer, l), env), r, Rows())
    {
      var found := OpenListingByItem(item);
      env := Env(clock, clock, 0, 0, 1);
      if found.None? { return Fail(NotFound), env; }
      assert NewestOpen(Rows(), found.value, item) && OpenFor(Rows(), found.value, item);
      var settled;
      r, settled, env := Transact(Request.Buy(buyer, found.value));
    }
  }

  /** The newest row of a result that may be empty. */
  method First(s: set<nat>) returns (found: Option<nat>)
    ensures if found.Some? then found.value in s && forall x :: x in s ==> x <= found.value else s == {}
  {
    if s == {} { return None; }
    var newest := Newest(s);
    return Some(newest);
  }

  function ActiveAuctions(auctions: map<nat, Auction>, item: nat): set<nat> {
    set a | a in auctions && auctions[a].item == item && auctions[a].status == Active
  }

  lemma TheActiveOne(db: Tables, item: nat, active: set<nat>, found: Option<nat>)
    requires Catalog(db)
    requires active == ActiveAuctions(db.auctions, item)
    requires if found.Some? then found.value in active else active == {}
    ensures found.Some? <==> item in db.items && db.items[item].status == InAuction
    ensures found.Some? ==> forall a :: ActiveFor(db, a, item) <==> a == found.value
  {
    forall a ensures a in active <==> ActiveFor(db, a, item) { }
    forall a | a in active ensures item in db.items && db.items[item].status == InAuction {
      assert AuctionOk(db, db.auctions[a]);
    }
  }

  /** The event suits db; its reply and the rows after it are its transition's. */
  ghost predicate Served(cfg: Config, db: Tables, ev: Event, r: Check, db': Tables) {
    && EnvOk(db, ev.req, ev.env)
    && match Transitions.Apply(db, cfg, ev.req, ev.env)
       case Ok(after) => r == Pass && db' == after
       case Err(e) => r == Fail(e) && db' == db
  }

  function ResultOf(r: Check, db': Tables): Result<Tables> { if r.Pass? then Ok(db') else Err(r.error) }

  lemma ServedResult(cfg: Config, db: Tables, ev: Event, r: Check, db': Tables)
    requires Served(cfg, db, ev, r, db')
    ensures Transitions.Apply(db, cfg, ev.req, ev.env) == ResultOf(r, db') && (r.Fail? ==> db' == db)
  {
  }

  /** So a request is served with exactly its outcome, and one that fails changes no row. */
  lemma ServedExactly(w: World, db: Tables, ev: Event, r: Check, db': Tables)
    requires Inv(w, db) && Served(w.cfg, db, ev, r, db')
    ensures Outcomes.Outcome(db, w.cfg, ev.req, ev.env, ResultOf(r, db')) && (r.Fail? ==> db' == db)
  {
    ServedResult(w.cfg, db, ev, r, db');
    Outcomes.ApplyExactly(w, db, ev.req, ev.env);
  }

  ghost predicate OpenFor(db: Tables, l: nat, item: nat) {
    l in db.listings && db.listings[l].status == Open && db.listings[l].item == item
  }

  ghost predicate NewestOpen(db: Tables, l: nat, item: nat) {
    OpenFor(db, l, item) && forall k: nat :: OpenFor(db, k, item) ==> k <= l
  }

  /** The largest id of a nonempty result, as ORDER BY id DESC LIMIT 1 returns it. */
  method Newest(s: set<nat>) returns (m: nat)
    requires s != {}
    ensures m in s && forall x :: x in s ==> x <= m
  {
    m :| m in s;
    var rest := s - {m};
    while rest != {}
      invariant m in s && rest <= s && forall x :: x in s && x !in rest ==> x <= m
      decreases |rest|
    {
      var x :| x in rest;
      rest := rest - {x};
      if m < x { m := x; }
    }
  }

  ghost predicate Split(done: set<nat>, pending: set<nat>, due: set<nat>) { done + pending == due && done !! pending }

  lemma NoneTaken(due: set<nat>)
    ensures Split({}, due, due) && Settlement.SetOf([]) == {}
  {
  }

  lemma AllTaken(done: set<nat>, due: set<nat>)
    requires Split(done, {}, due)
    ensures done == due
  {
  }

  lemma TakeOne(done: set<nat>, pending: set<nat>, due: set<nat>, a: nat)
    requires Split(done, pending, due) && a in pending
    ensures Split(done + {a}, pending - {a}, due) && |done + {a}| == |done| + 1 && a in due && a !in done
  {
    assert (done + {a}) + (pending - {a}) == due;
  }

  /** The requests that close an auction when they succeed. */
  ghost predicate Settles(db: Tables, req: Request, env: Env) {
    req.Settle? && req.auction in db.auctions && Transitions.Due(db.auctions[req.auction], env.t0)
  }

  ghost function DueAt(db: Tables, now: nat): set<nat> {
    set a | a in db.auctions && Transitions.Due(db.auctions[a], now)
  }

  /** The sequences are past every id the transaction drew. */
  ghost predicate Covers(db: Tables, req: Request, env: Env, ids: Ids) {
    && Below(Transitions.NewItems(req, env), ids.items) && Below(Transitions.NewListings(req, env), ids.listings)
    && Below(Transitions.NewAuctions(req, env), ids.auctions) && Below(Transitions.NewBids(req, env), ids.bids)
    && Below(Transitions.NewEntries(db, req, env), ids.ledger)
  }

  lemma AbortKeeps(db: Tables, clock: nat, clock': nat, ids: Ids, ids': Ids)
    requires Clocked(db, clock) && Ahead(db, ids) && clock <= clock' && Grown(ids, ids')
    ensures Clocked(db, clock') && Ahead(db, ids')
  {
    DayMonotone(clock, clock');
  }

  lemma CommitKeeps(w: World, db: Tables, req: Request, env: Env, db': Tables, clock: nat, clock': nat, ids: Ids,
      ids': Ids)
    requires Inv(w, db) && Clocked(db, clock) && Ahead(db, ids) && EnvOk(db, req, env)
    requires Transitions.Apply(db, w.cfg, req, env) == Ok(db')
    requires clock <= env.t0 <= env.t1 <= clock' && Grown(ids, ids') && Covers(db, req, env, ids')
    ensures Inv(w, db') && Clocked(db', clock') && Ahead(db', ids')
  {
    Reachable.StepKeeps(w, db, Event(req, env));
    ApplyAdds(db, w.cfg, req, env, db');
    StaysAhead(db, req, env, db', ids, ids');
    StaysClocked(db, w.cfg, req, env, db', clock, clock');
  }

  /** The auctions of `order`, found due in db, have been settled one by one, leaving `now`. */
  ghost predicate Passed(w: World, db: Tables, order: seq<nat>, run: seq<Event>, now: Tables) {
    Settlement.Pass(db, order, run) && Legal(w.cfg, db, run) && After(w.cfg, db, run) == now
  }

  lemma NonePassed(w: World, db: Tables)
    ensures Passed(w, db, [], [], db)
  {
  }

  lemma PassedAll(w: World, db: Tables, scan: nat, order: seq<nat>, run: seq<Event>, now: Tables)
    requires Inv(w, db) && Passed(w, db, order, run, now) && Settlement.SetOf(order) == DueAt(db, scan)
    ensures Settlement.SettledBy(db, DueAt(db, scan), now)
  {
    Settlement.PassSettles(w, db, order, run);
  }

  lemma NotYetSettled(w: World, db: Tables, order: seq<nat>, run: seq<Event>, mid: Tables, a: nat)
    requires Inv(w, db) && Passed(w, db, order, run, mid) && a in db.auctions && a !in Settlement.SetOf(order)
    ensures a in mid.auctions && mid.auctions[a] == db.auctions[a]
  {
    Settlement.PassSettles(w, db, order, run);
  }

  lemma SetOfMore(order: seq<nat>, a: nat)
    ensures Settlement.SetOf(order + [a]) == Settlement.SetOf(order) + {a}
  {
  }

  lemma PassMore(w: World, db: Tables, order: seq<nat>, run: seq<Event>, mid: Tables, a: nat, env: Env)
    requires Passed(w, db, order, run, mid) && a in db.auctions && a !in Settlement.SetOf(order)
    requires Transitions.Due(db.auctions[a], env.t0) && EnvOk(mid, Request.Settle(a), env)
    ensures Passed(w, db, order + [a], run + [Event(Request.Settle(a), env)],
                   Step(w.cfg, mid, Event(Request.Settle(a), env)))
  {
    var ev := Event(Request.Settle(a), env);
    var longer := run + [ev];
    assert longer[..|longer| - 1] == run && longer[|longer| - 1] == ev;
    assert forall i :: 0 <= i < |order| ==> order[i] in Settlement.SetOf(order);
  }
}
