/** Settling what a scan found due, while other transactions interleave with it statement by statement. */
module Scans {
  import opened Model
  import opened Transitions
  import opened Invariants
  import opened Programs
  import opened Locking
  import opened Discipline
  import opened Induction
  import opened Machine
  import opened Races
  import Alone
  import Serializability
  import Settlement

  /** The requests that can move auction a's end or close it. */
  predicate Concerns(req: Request, a: nat) { (req.PlaceBid? && req.auction == a) || req == Request.Settle(a) }

  /** Every clock reading of a transaction on auction a was taken at s0 or later. */
  ghost predicate Late(s: State, a: nat, s0: nat) {
    forall t :: t in s.txns && Concerns(s.txns[t].req, a) && !s.txns[t].local.prog.Abort? ==>
      LateTxn(s.txns[t], s0)
  }

  ghost predicate LateTxn(n: Txn, s0: nat) { forall x :: x in n.local.scope.times ==> x >= s0 }

  ghost predicate Unlocked(s: State, k: Key) { forall t :: t in s.txns ==> k !in s.txns[t].local.scope.locks }

  /** A transaction on an auction reads the clock only under the auction's lock. */
  lemma UnlockedUntimed(cfg: Config, n: Txn, store: Tables, a: nat)
    requires Concerns(n.req, a) && Consistent(ProgOf(cfg, n.req), n.local, n.hist, store)
    requires AuctionK(a) !in n.local.scope.locks
    ensures n.local.scope.times == {}
  {
    if n.hist != [] {
      var first := Start(ProgOf(cfg, n.req));
      var second := Next(first, store, n.hist[0]);
      if Find(View(first, store), AuctionK(a)).Some? {
        LookedGrows(second, store, n.hist, 1);
      } else {
        Alone.EndStays(second, store, n.hist, 1);
      }
    }
  }

  lemma LateStart(w: World, s: State, a: nat)
    requires Sane(w, s) && Unlocked(s, AuctionK(a))
    ensures Late(s, a, s.clock)
  {
    forall t | t in s.txns && Concerns(s.txns[t].req, a) && !s.txns[t].local.prog.Abort?
      ensures LateTxn(s.txns[t], s.clock)
    {
      assert TxnOk(w.cfg, s.txns[t], s);
      UnlockedUntimed(w.cfg, s.txns[t], s.store, a);
    }
  }

  lemma LateStays(cfg: Config, s: State, act: Action, s': State, a: nat, s0: nat)
    requires Late(s, a, s0) && Acts(cfg, s, act, s') && s0 <= s.clock
    ensures Late(s', a, s0) && s0 <= s'.clock
  {
    forall t | t in s'.txns && Concerns(s'.txns[t].req, a) && !s'.txns[t].local.prog.Abort?
      ensures LateTxn(s'.txns[t], s0)
    {
      if act.Do? && act.t == t {
        Serializability.ScopeGrows(s.txns[t].local, s.store, act.input);
      }
      assert t in s.txns ==> !s.txns[t].local.prog.Abort? ==> LateTxn(s.txns[t], s0);
    }
  }

  /** Auction a, with row auc when it was scanned, is as it was or is settled. */
  ghost predicate Waits(store: Tables, a: nat, auc: Auction) { Kept(store, a, auc) || Closed(store, a) }

  lemma CommitWaits(w: World, s: State, t: nat, s': State, a: nat, s0: nat, auc: Auction)
    requires t in s.txns && Sane(w, s) && Acts(w.cfg, s, Finish(t), s') && Late(s, a, s0) && Due(auc, s0)
    requires Waits(s.store, a, auc)
    ensures if s.txns[t].req == Request.Settle(a) then Closed(s'.store, a) else Waits(s'.store, a, auc)
  {
    var ev := Serializability.FinishKeeps(w, s, t, s');
    DrawnLate(s, t, a, s0, ev);
    EventWaits(w, s.store, ev, a, s0, auc, s'.store);
  }

  lemma EventWaits(w: World, store: Tables, ev: Event, a: nat, s0: nat, auc: Auction, store': Tables)
    requires Inv(w, store) && EnvOk(store, ev.req, ev.env) && Apply(store, w.cfg, ev.req, ev.env) == Ok(store')
    requires Due(auc, s0) && Waits(store, a, auc) && (Kept(store, a, auc) ==> Punctual(ev, a, s0))
    ensures if ev.req == Request.Settle(a) then Closed(store', a) else Waits(store', a, auc)
  {
    assert Step(w.cfg, store, ev) == store';
    if Closed(store, a) {
      ClosedStays(w, store, ev, a);
    } else {
      OneStep(w, store, ev, a, s0, auc, false);
    }
  }

  /** What a committing transaction on an active auction read is late. */
  lemma DrawnLate(s: State, t: nat, a: nat, s0: nat, ev: Event)
    requires Late(s, a, s0) && t in s.txns && s.txns[t].local.prog.Commit? && ev.req == s.txns[t].req
    requires Alone.Drawn(s.store, ev.req, ev.env, s.txns[t].local.scope)
    ensures a in s.store.auctions && s.store.auctions[a].status == Active ==> Punctual(ev, a, s0)
  {
    assert Concerns(ev.req, a) ==> LateTxn(s.txns[t], s0);
  }

  /** What holds from the scan at s0 on. */
  ghost predicate SinceScan(w: World, s: State, a: nat, s0: nat, auc: Auction) {
    Sane(w, s) && Late(s, a, s0) && s0 <= s.clock && Waits(s.store, a, auc)
  }

  lemma ActWaits(w: World, s: State, act: Action, s': State, a: nat, s0: nat, auc: Auction)
    requires SinceScan(w, s, a, s0, auc) && Due(auc, s0) && Acts(w.cfg, s, act, s')
    ensures SinceScan(w, s', a, s0, auc)
  {
    LateStays(w.cfg, s, act, s', a, s0);
    if act.Finish? {
      var _ := Serializability.FinishKeeps(w, s, act.t, s');
      CommitWaits(w, s, act.t, s', a, s0, auc);
    } else {
      Serializability.OthersKeep(w, s, act, s');
    }
  }

  lemma ScanWaits(w: World, states: seq<State>, acts: seq<Action>, i: nat, k: nat, a: nat, auc: Auction)
    requires Execution(w.cfg, states, acts) && i <= k <= |acts| && Sane(w, states[i])
    requires Kept(states[i].store, a, auc) && Due(auc, states[i].clock) && Unlocked(states[i], AuctionK(a))
    ensures SinceScan(w, states[k], a, states[i].clock, auc)
  {
    var s0 := states[i].clock;
    LateStart(w, states[i], a);
    forall s, act, s' | SinceScan(w, s, a, s0, auc) && Acts(w.cfg, s, act, s') ensures SinceScan(w, s', a, s0, auc) {
      ActWaits(w, s, act, s', a, s0, auc);
    }
    Always(s => SinceScan(w, s, a, s0, auc), (s, act, s') => Acts(w.cfg, s, act, s'), states, acts, i, k);
  }

  lemma SaneAt(w: World, states: seq<State>, acts: seq<Action>, i: nat)
    requires Execution(w.cfg, states, acts) && Sane(w, states[0]) && i <= |acts|
    ensures Sane(w, states[i])
  {
    forall s, act, s' | Sane(w, s) && Acts(w.cfg, s, act, s') ensures Sane(w, s') {
      var _ := Serializability.ActKeeps(w, s, act, s');
    }
    Always(s => Sane(w, s), (s, act, s') => Acts(w.cfg, s, act, s'), states, acts, 0, i);
  }

  lemma ActAt(cfg: Config, states: seq<State>, acts: seq<Action>, j: nat)
    requires Execution(cfg, states, acts) && j < |acts|
    ensures Acts(cfg, states[j], acts[j], states[j + 1])
  {
  }

  /**
   * Main result: if no transaction holds an auction's lock when a scan finds it due, then however statements interleave
   * from there, the auction is settled as soon as one settlement of it commits.
   */
  lemma ScanSettles(w: World, states: seq<State>, acts: seq<Action>, i: nat, j: nat, a: nat)
    requires Execution(w.cfg, states, acts) && Sane(w, states[0]) && i <= j < |acts|
    requires a in states[i].store.auctions && Due(states[i].store.auctions[a], states[i].clock)
    requires Unlocked(states[i], AuctionK(a))
    requires acts[j].Finish? && acts[j].t in states[j].txns && states[j].txns[acts[j].t].req == Request.Settle(a)
    ensures Closed(states[j + 1].store, a)
  {
    var auc := states[i].store.auctions[a];
    SaneAt(w, states, acts, i);
    ScanWaits(w, states, acts, i, j, a, auc);
    ActAt(w.cfg, states, acts, j);
    CommitWaits(w, states[j], acts[j].t, states[j + 1], a, states[i].clock, auc);
  }

  /**
   * Main result, exact: whoever holds the lock when the scan finds an auction due, a settlement that begins after
   * the scan and finds the auction still active settles it exactly when every bid committed since the scan read the
   * clock at least one extension before the settlement did.
   */
  lemma ScanSettlesIff(w: World, states: seq<State>, acts: seq<Action>, i: nat, j: nat, a: nat) returns (reading: nat)
    requires Execution(w.cfg, states, acts) && Sane(w, states[0]) && i <= j < |acts|
    requires a in states[i].store.auctions && Due(states[i].store.auctions[a], states[i].clock)
    requires acts[j].Finish? && acts[j].t in states[j].txns && states[j].txns[acts[j].t].req == Request.Settle(a)
    requires states[i].clock <= states[j].txns[acts[j].t].since
    requires a in states[j].store.auctions && states[j].store.auctions[a].status == Active
    ensures reading in states[j].txns[acts[j].t].local.scope.times
    ensures Closed(states[j + 1].store, a) <==>
            forall b :: b in Settlement.Since(states[i].store, states[j].store, a) ==>
              states[j].store.bids[b].createdAt + w.cfg.extension <= reading
  {
    var s, s' := states[j], states[j + 1];
    SaneAt(w, states, acts, i);
    SaneAt(w, states, acts, j);
    var run := RunBetween(w, states, acts, i, j);
    ActAt(w.cfg, states, acts, j);
    var ev := Serializability.FinishKeeps(w, s, acts[j].t, s');
    assert Step(w.cfg, s.store, ev) == s'.store;
    reading := ev.env.t0;
    assert TxnOk(w.cfg, s.txns[acts[j].t], s);
    SettledIff(w, states[i].store, run, a, states[i].clock, ev.env);
  }

  lemma RunBetween(w: World, states: seq<State>, acts: seq<Action>, i: nat, j: nat) returns (run: seq<Event>)
    requires Execution(w.cfg, states, acts) && i <= j <= |acts| && Sane(w, states[i])
    ensures Legal(w.cfg, states[i].store, run) && After(w.cfg, states[i].store, run) == states[j].store
  {
    var first, before := states[..j + 1], acts[..j];
    Sooner(w.cfg, states, acts, j);
    Later(w.cfg, first, before, i);
    assert first[i..][0] == states[i] && first[i..][j - i] == states[j];
    run := Serializability.Serializable(w, first[i..], before[i..]);
  }

  lemma Sooner(cfg: Config, states: seq<State>, acts: seq<Action>, j: nat)
    requires Execution(cfg, states, acts) && j <= |acts|
    ensures Execution(cfg, states[..j + 1], acts[..j])
  {
  }

  lemma Later(cfg: Config, states: seq<State>, acts: seq<Action>, i: nat)
    requires Execution(cfg, states, acts) && i <= |acts|
    ensures Execution(cfg, states[i..], acts[i..])
  {
    var later, more := states[i..], acts[i..];
    forall k | 0 <= k < |more| ensures Acts(cfg, later[k], more[k], later[k + 1]) {
      ActAt(cfg, states, acts, i + k);
    }
  }
}
