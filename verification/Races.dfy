/** Settling what a scan found due, while other transactions run between the scan and the settlements. */
module Races {
  import opened Model
  import opened Transitions
  import opened Invariants
  import opened Draws
  import Reachable
  import History
  import Settlement

  /** An auction due at s is left alone by everything but its settlement, if no bid reads the clock before s. */
  lemma StepLeaves(cfg: Config, db: Tables, ev: Event, a: nat, s: nat)
    requires a in db.auctions && Due(db.auctions[a], s) && EnvOk(db, ev.req, ev.env)
    requires ev.req.PlaceBid? && ev.req.auction == a ==> ev.env.t0 >= s
    requires ev.req != Request.Settle(a)
    ensures a in Step(cfg, db, ev).auctions && Step(cfg, db, ev).auctions[a] == db.auctions[a]
  {
    if Apply(db, cfg, ev.req, ev.env).Ok? {
      var db' := Apply(db, cfg, ev.req, ev.env).value;
      match ev.req {
        case Buy(buyer, l) => BuyAdds(db, buyer, l, ev.env, db');
        case PlaceBid(b, bidder, amount) => PlaceBidAdds(db, cfg, b, bidder, amount, ev.env, db');
        case CancelBid(b, bid, bidder) => CancelBidAdds(db, b, bid, bidder, ev.env, db');
        case Settle(b) => SettleAdds(db, b, ev.env, db');
        case _ =>
      }
    }
  }

  ghost predicate Closed(db: Tables, a: nat) { a in db.auctions && db.auctions[a].status == Settled }

  ghost predicate Kept(db: Tables, a: nat, auc: Auction) { a in db.auctions && db.auctions[a] == auc }

  lemma StepOfSettle(cfg: Config, db: Tables, a: nat, env: Env)
    requires Transitions.Settle(db, a, env).Ok?
    ensures Step(cfg, db, Event(Request.Settle(a), env)) == Transitions.Settle(db, a, env).value
  {
  }

  /** Settling an auction found due at s, with a reading no earlier than s, settles it. */
  lemma SettleCloses(w: World, db: Tables, a: nat, env: Env, s: nat)
    requires Inv(w, db) && a in db.auctions && Due(db.auctions[a], s) && s <= env.t0
    ensures Closed(Step(w.cfg, db, Event(Request.Settle(a), env)), a)
  {
    Settlement.SettleNeverFails(w, db, a, env);
    StepOfSettle(w.cfg, db, a, env);
  }

  lemma ClosedStays(w: World, db: Tables, ev: Event, a: nat)
    requires Inv(w, db) && EnvOk(db, ev.req, ev.env) && Closed(db, a)
    ensures Closed(Step(w.cfg, db, ev), a)
  {
    Reachable.StepLinked(w, db, ev);
    History.LinkGrows(w, db, ev, Step(w.cfg, db, ev));
    assert History.AuctionGrows(db, Step(w.cfg, db, ev), a);
  }

  /** One transaction after a scan at s that found auction a, with row auc, due. */
  ghost predicate Punctual(ev: Event, a: nat, s: nat) {
    (ev.req.PlaceBid? && ev.req.auction == a) || ev.req == Request.Settle(a) ==> ev.env.t0 >= s
  }

  lemma OneStep(w: World, db: Tables, ev: Event, a: nat, s: nat, auc: Auction, closed: bool)
    requires Inv(w, db) && EnvOk(db, ev.req, ev.env) && Due(auc, s) && Punctual(ev, a, s)
    requires if closed then Closed(db, a) else Kept(db, a, auc)
    ensures if closed || ev.req == Request.Settle(a) then Closed(Step(w.cfg, db, ev), a)
        else Kept(Step(w.cfg, db, ev), a, auc)
  {
    if closed {
      ClosedStays(w, db, ev, a);
    } else if ev.req == Request.Settle(a) {
      SettleCloses(w, db, a, ev.env, s);
    } else {
      StepLeaves(w.cfg, db, ev, a, s);
    }
  }

  // ---- Bids that read the clock before the scan ----

  /**
   * Main result, exact: after any run of other transactions, settling an auction found due at s and still active
   * settles it exactly when every bid accepted in between read the clock at least one extension before the
   * settlement did.
   */
  lemma SettledIff(w: World, db: Tables, run: seq<Event>, a: nat, s: nat, env: Env)
    requires Inv(w, db) && Legal(w.cfg, db, run) && a in db.auctions && Due(db.auctions[a], s) && s <= env.t0
    requires a in After(w.cfg, db, run).auctions && After(w.cfg, db, run).auctions[a].status == Active
    ensures var mid := After(w.cfg, db, run);
            Closed(Step(w.cfg, mid, Event(Request.Settle(a), env)), a) <==>
            forall b :: b in Settlement.Since(db, mid, a) ==> mid.bids[b].createdAt + w.cfg.extension <= env.t0
  {
    var mid := After(w.cfg, db, run);
    Settlement.StillDueIff(w, db, run, a, s, env.t0);
    Reachable.RunKeeps(w, db, run);
    ClosesIff(w, mid, a, env);
  }

  lemma ClosesIff(w: World, db: Tables, a: nat, env: Env)
    requires Inv(w, db) && a in db.auctions && db.auctions[a].status == Active
    ensures Closed(Step(w.cfg, db, Event(Request.Settle(a), env)), a) <==> Due(db.auctions[a], env.t0)
  {
    Settlement.SettleNeverFails(w, db, a, env);
    StepOfSettle(w.cfg, db, a, env);
  }
}
