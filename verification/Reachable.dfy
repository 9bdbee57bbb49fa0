/** Every invariant holds at the start and after every transaction of every run. */
module Reachable {
  import opened Model
  import opened Sums
  import opened Transitions
  import opened Invariants
  import opened LedgerProofs
  import opened Effects

  lemma InitHolds(w: World, db: Tables)
    requires Init(w, db)
    ensures Inv(w, db)
  {
    assert Totals(db.wallets) == Opening(w);
    forall g | g in db.wallets
      ensures db.wallets[g].reserved == Sum(Held(db.auctions, db.bids, g))
      ensures Sum(SpentBy(db.daily, g)) == Sum(BoughtBy(db.listings, g))
      ensures Rebuilds(db.ledger, w.opening[g], g, db.wallets[g])
    {
      assert Held(db.auctions, db.bids, g) == map[] && SpentBy(db.daily, g) == map[] &&
          BoughtBy(db.listings, g) == map[];
      forall n: nat ensures Replay(db.ledger, w.opening[g], g, n) == Wallet(w.opening[g], 0) {
        ReplaySettled(db.ledger, w.opening[g], g, 0, n);
      }
    }
  }

  // ---- Whole runs ----

  lemma StepKeeps(w: World, db: Tables, ev: Event)
    requires Inv(w, db) && EnvOk(db, ev.req, ev.env)
    ensures Inv(w, Step(w.cfg, db, ev))
  {
    if Apply(db, w.cfg, ev.req, ev.env).Ok? {
      EffectOf(w, db, ev, Step(w.cfg, db, ev));
      EffectKeeps(w, db, ev, Step(w.cfg, db, ev));
    }
  }

  /** Main invariant: it holds after every run from a seeded state. */
  lemma {:induction false} RunKeeps(w: World, db: Tables, run: seq<Event>)
    requires Inv(w, db) && Legal(w.cfg, db, run)
    ensures Inv(w, After(w.cfg, db, run))
  {
    if run != [] {
      RunKeeps(w, db, run[..|run| - 1]);
      StepKeeps(w, After(w.cfg, db, run[..|run| - 1]), run[|run| - 1]);
    }
  }

  /** One transaction attempt as its effect: nothing, or what a committed transaction does. */
  ghost predicate Linked(w: World, db: Tables, ev: Event, db': Tables) {
    db' == db || Effect(w.cfg, db, ev, db')
  }

  lemma StepLinked(w: World, db: Tables, ev: Event)
    requires Inv(w, db) && EnvOk(db, ev.req, ev.env)
    ensures Linked(w, db, ev, Step(w.cfg, db, ev))
  {
    if Apply(db, w.cfg, ev.req, ev.env).Ok? {
      EffectOf(w, db, ev, Step(w.cfg, db, ev));
    }
  }
}
