/** Every request has exactly its outcome: alone, in every interleaving, and as an error or as new tables. */
module Outcomes {
  import opened Model
  import opened Invariants
  import opened Machine
  import opened Acceptance
  import Alone
  import Serializability
  import Transitions

  /** The result of a request on db: its tables, or the error of the first condition that fails. */
  ghost predicate Outcome(db: Tables, cfg: Config, req: Request, env: Env, r: Result<Tables>) {
    match req
    case CreateItem(owner, name, tier, stock) => ItemOutcome(db, owner, name, tier, stock, env, r)
    case CreateListing(seller, item, price) => ListingOutcome(db, seller, item, price, env, r)
    case Buy(buyer, l) => BuyOutcome(db, buyer, l, env, r)
    case CreateAuction(seller, item) => AuctionOutcome(db, cfg, seller, item, env, r)
    case PlaceBid(a, bidder, amount) => BidOutcome(db, cfg, a, bidder, amount, env, r)
    case CancelBid(a, b, bidder) => CancelOutcome(db, a, b, bidder, r)
    case Settle(a) => SettleOutcome(db, a, env, r)
  }

  /** Main result: in a reachable state every request, whatever it names and draws, returns exactly its outcome. */
  lemma ApplyExactly(w: World, db: Tables, req: Request, env: Env)
    requires Inv(w, db)
    ensures Outcome(db, w.cfg, req, env, Transitions.Apply(db, w.cfg, req, env))
  {
    match req {
      case CreateItem(owner, name, tier, stock) => ItemExactly(db, owner, name, tier, stock, env);
      case CreateListing(seller, item, price) => ListingExactly(db, seller, item, price, env);
      case Buy(buyer, l) => BuyExactly(w, db, buyer, l, env);
      case CreateAuction(seller, item) => AuctionExactly(w, db, seller, item, env);
      case PlaceBid(a, bidder, amount) => BidExactly(w, db, a, bidder, amount, env);
      case CancelBid(a, b, bidder) => CancelExactly(w, db, a, b, bidder, env);
      case Settle(a) => SettleExactly(w, db, a, env);
    }
  }

  /** So a transaction that commits among others has exactly its request's outcome on the committed rows. */
  lemma CommitsExactly(w: World, s: State, t: nat, s': State) returns (env: Env)
    requires Sane(w, s) && Acts(w.cfg, s, Finish(t), s')
    ensures Alone.Drawn(s.store, s.txns[t].req, env, s.txns[t].local.scope)
    ensures Outcome(s.store, w.cfg, s.txns[t].req, env, Ok(s'.store))
  {
    assert TxnOk(w.cfg, s.txns[t], s);
    var ev := Serializability.CommitEvent(w.cfg, s, t, s');
    env := ev.env;
    ApplyExactly(w, s.store, ev.req, env);
  }

  /** And one that aborts among others does so with its request's error on the committed rows. */
  lemma AbortsExactly(w: World, s: State, t: nat, x: nat) returns (env: Env)
    requires Sane(w, s) && t in s.txns && Enabled(s, t, x) && Done(s, t, x).txns[t].local.prog.Abort?
    ensures Outcome(s.store, w.cfg, s.txns[t].req, env, Err(Done(s, t, x).txns[t].local.prog.error))
  {
    env := Serializability.AbortIsApply(w, s, t, x);
    ApplyExactly(w, s.store, s.txns[t].req, env);
  }
}
