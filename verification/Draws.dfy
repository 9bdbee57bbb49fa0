/** The clock and the id sequences of a single process give every transaction readings and ids that suit it. */
module Draws {
  import opened Model
  import opened Transitions
  import opened Invariants
  import opened Machine

  predicate Below(s: set<nat>, n: nat) { forall x :: x in s ==> x < n }

  /** `Issued`, table by table. */
  ghost predicate Ahead(db: Tables, ids: Ids) {
    && Below(db.items.Keys, ids.items) && Below(db.listings.Keys, ids.listings) && Below(db.auctions.Keys, ids.auctions)
    && Below(db.bids.Keys, ids.bids) && Below(db.ledger.Keys, ids.ledger)
  }

  predicate Grown(ids: Ids, ids': Ids) {
    && ids.items <= ids'.items && ids.listings <= ids'.listings && ids.auctions <= ids'.auctions
    && ids.bids <= ids'.bids && ids.ledger <= ids'.ledger
  }

  /** The sequence a request's new row draws its id from. */
  function RowCounter(req: Request, ids: Ids): nat {
    match req
    case CreateItem(_, _, _, _) => ids.items
    case Buy(_, _) => ids.items
    case CreateListing(_, _, _) => ids.listings
    case CreateAuction(_, _) => ids.auctions
    case PlaceBid(_, _, _) => ids.bids
    case CancelBid(_, _, _) => 0
    case Settle(_) => 0
  }

  lemma EnvGranted(db: Tables, clock: nat, ids: Ids, req: Request, env: Env)
    requires Clocked(db, clock) && Ahead(db, ids) && clock <= env.t0 <= env.t1
    requires ids.ledger <= env.e1 < env.e2 && RowCounter(req, ids) <= env.row
    ensures EnvOk(db, req, env)
  {
    DayMonotone(clock, env.t0);
    forall g ensures EntryFresh(db.ledger, g, env.e1) && EntryFresh(db.ledger, g, env.e2) { }
  }

  // ---- The rows a transaction adds ----

  ghost predicate Adds(db: Tables, req: Request, env: Env, db': Tables) {
    && db'.items.Keys <= db.items.Keys + NewItems(req, env)
    && db'.listings.Keys <= db.listings.Keys + NewListings(req, env)
    && db'.auctions.Keys <= db.auctions.Keys + NewAuctions(req, env)
    && db'.bids.Keys <= db.bids.Keys + NewBids(req, env)
    && db'.ledger.Keys <= db.ledger.Keys + NewEntries(db, req, env)
  }

  lemma BuyAdds(db: Tables, buyer: nat, id: nat, env: Env, db': Tables)
    requires Transitions.Buy(db, buyer, id, env) == Ok(db')
    ensures Adds(db, Request.Buy(buyer, id), env, db')
    ensures db'.auctions == db.auctions && db'.daily.Keys <= db.daily.Keys + {(buyer, DayOf(env.t1))}
  {
  }

  lemma HoldAdds(db: Tables, a: nat, bidder: nat, amount: int, prev: Option<nat>, env: Env, freed: Tables)
    requires (prev.Some? ==> prev.value in db.bids) && HoldFor(db, a, bidder, amount, prev, env) == Ok(freed)
    ensures freed == db.(wallets := freed.wallets, ledger := freed.ledger, bids := freed.bids)
    ensures freed.bids.Keys == db.bids.Keys
    ensures freed.ledger.Keys <= db.ledger.Keys + if prev.Some? then {env.e1, env.e2} else {env.e1}
  {
  }

  lemma PlaceBidAdds(db: Tables, cfg: Config, a: nat, bidder: nat, amount: int, env: Env, db': Tables)
    requires Transitions.PlaceBid(db, cfg, a, bidder, amount, env) == Ok(db')
    ensures Adds(db, Request.PlaceBid(a, bidder, amount), env, db')
    ensures a in db'.auctions && db'.auctions == db.auctions[a := db'.auctions[a]] &&
        db'.auctions[a].updatedAt == env.t0
    ensures db'.daily == db.daily
  {
    HoldAdds(db, a, bidder, amount, db.auctions[a].highest, env,
             HoldFor(db, a, bidder, amount, db.auctions[a].highest, env).value);
  }

  lemma CancelBidAdds(db: Tables, a: nat, b: nat, bidder: nat, env: Env, db': Tables)
    requires Transitions.CancelBid(db, a, b, bidder, env) == Ok(db')
    ensures Adds(db, Request.CancelBid(a, b, bidder), env, db')
    ensures db'.auctions == db.auctions && db'.daily == db.daily
  {
  }

  lemma SettleAdds(db: Tables, a: nat, env: Env, db': Tables)
    requires Transitions.Settle(db, a, env) == Ok(db')
    ensures Adds(db, Request.Settle(a), env, db')
    ensures db' == db || (a in db'.auctions && db'.auctions == db.auctions[a := db'.auctions[a]] &&
                          db'.auctions[a].updatedAt == env.t1)
    ensures db'.daily == db.daily
  {
  }

  lemma ApplyAdds(db: Tables, cfg: Config, req: Request, env: Env, db': Tables)
    requires Apply(db, cfg, req, env) == Ok(db')
    ensures Adds(db, req, env, db')
  {
    match req {
      case Buy(buyer, id) => BuyAdds(db, buyer, id, env, db');
      case PlaceBid(a, bidder, amount) => PlaceBidAdds(db, cfg, a, bidder, amount, env, db');
      case CancelBid(a, b, bidder) => CancelBidAdds(db, a, b, bidder, env, db');
      case Settle(a) => SettleAdds(db, a, env, db');
      case _ =>
    }
  }

  lemma StaysAhead(db: Tables, req: Request, env: Env, db': Tables, ids: Ids, ids': Ids)
    requires Ahead(db, ids) && Adds(db, req, env, db') && Grown(ids, ids')
    requires Below(NewItems(req, env), ids'.items) && Below(NewListings(req, env), ids'.listings)
    requires Below(NewAuctions(req, env), ids'.auctions) && Below(NewBids(req, env), ids'.bids)
    requires Below(NewEntries(db, req, env), ids'.ledger)
    ensures Ahead(db', ids')
  {
  }

  lemma StaysClocked(db: Tables, cfg: Config, req: Request, env: Env, db': Tables, clock: nat, clock': nat)
    requires Clocked(db, clock) && Apply(db, cfg, req, env) == Ok(db')
    requires clock <= clock' && env.t0 <= env.t1 <= clock'
    ensures Clocked(db', clock')
  {
    DayMonotone(clock, clock');
    DayMonotone(env.t1, clock');
    match req {
      case Buy(buyer, id) => BuyAdds(db, buyer, id, env, db');
      case PlaceBid(a, bidder, amount) => PlaceBidAdds(db, cfg, a, bidder, amount, env, db');
      case CancelBid(a, b, bidder) => CancelBidAdds(db, a, b, bidder, env, db');
      case Settle(a) => SettleAdds(db, a, env, db');
      case _ =>
    }
  }
}
