/** Every interleaving leaves the tables that the committed transactions leave when run alone in commit order. */
module Serializability {
  import opened Model
  import opened Transitions
  import opened Invariants
  import opened Programs
  import opened Locking
  import opened Discipline
  import opened SafePrograms
  import opened Machine
  import Alone
  import Reachable

  lemma FreshStart(cfg: Config, req: Request, store: Tables)
    ensures Consistent(ProgOf(cfg, req), Start(ProgOf(cfg, req)), [], store)
    ensures Guarded(Start(ProgOf(cfg, req)), store, LONGEST)
  {
    AllSafe(cfg, req);
  }

  lemma BeginKeeps(cfg: Config, s: State, t: nat, req: Request, s': State)
    requires Coherent(cfg, s) && Acts(cfg, s, Begin(t, req), s')
    ensures Coherent(cfg, s')
  {
    FreshStart(cfg, req, s.store);
    forall u | u in s'.txns ensures TxnOk(cfg, s'.txns[u], s') {
      assert u != t ==> TxnOk(cfg, s.txns[u], s);
    }
  }

  lemma TickKeeps(cfg: Config, s: State, time: nat, s': State)
    requires Coherent(cfg, s) && Acts(cfg, s, Tick(time), s')
    ensures Coherent(cfg, s')
  {
    DayMonotone(s.clock, time);
    forall u | u in s'.txns ensures TxnOk(cfg, s'.txns[u], s') {
      assert TxnOk(cfg, s.txns[u], s);
    }
  }

  lemma DropKeeps(cfg: Config, s: State, t: nat, s': State)
    requires Coherent(cfg, s) && Acts(cfg, s, Drop(t), s')
    ensures Coherent(cfg, s')
  {
    forall u | u in s'.txns ensures TxnOk(cfg, s'.txns[u], s') {
      assert TxnOk(cfg, s.txns[u], s);
    }
  }

  // ---- Statements ----

  /** The shared clock and the sequences give a transaction what its locks promise. */
  lemma InputGranted(s: State, t: nat, x: nat)
    requires t in s.txns && Enabled(s, t, x) && Clocked(s.store, s.clock) && Issued(s.store, s.ids)
    requires s.txns[t].local.scope.last <= s.clock && OwnedIssued(s.txns[t].local.scope, s.ids)
    ensures InputOk(s.store, s.txns[t].local.prog, s.txns[t].local.scope, x)
  {
    var l := s.txns[t].local;
    if l.prog.NewId? {
      assert Find(s.store, KeyOf(l.prog.ids, x)).None?;
      forall b | b in s.store.bids ensures b < s.ids.bids { assert Find(s.store, KeyOf(BidIds, b)).Some?; }
      forall e | e in s.store.ledger ensures e < s.ids.ledger { assert Find(s.store, KeyOf(LedgerIds, e)).Some?; }
      forall e: nat | LedgerK(e) in l.scope.owned ensures e < s.ids.ledger {
        assert KeyOf(LedgerIds, e) in l.scope.owned;
      }
    }
  }

  /** What a statement adds to a transaction's locks and ids. */
  lemma ScopeGrows(l: Local, store: Tables, x: nat)
    ensures var s' := Next(l, store, x).scope;
            && s'.locks <= l.scope.locks + (if l.prog.Lock? then {l.prog.k} else {})
            && s'.owned == l.scope.owned + (if l.prog.NewId? then {KeyOf(l.prog.ids, x)} else {})
            && s'.last == (if l.prog.Now? then x else l.scope.last)
            && s'.times == l.scope.times + (if l.prog.Now? then {x} else {})
  {
  }

  lemma CounterAdvanced(ids: Ids, q: Serial, x: nat, r: Serial)
    requires x >= Counter(ids, q)
    ensures Counter(ids, r) <= Counter(Advance(ids, q, x), r)
    ensures Counter(Advance(ids, q, x), q) == x + 1
  {
  }

  lemma StillIssued(s: Scope, ids: Ids, q: Serial, x: nat)
    requires OwnedIssued(s, ids) && x >= Counter(ids, q)
    ensures OwnedIssued(s.(owned := s.owned + {KeyOf(q, x)}), Advance(ids, q, x))
    ensures OwnedIssued(s, Advance(ids, q, x))
    ensures KeyOf(q, x) !in s.owned
  {
    forall r, id: nat | KeyOf(r, id) in s.owned + {KeyOf(q, x)} ensures id < Counter(Advance(ids, q, x), r) {
      CounterAdvanced(ids, q, x, r);
      assert KeyOf(r, id) == KeyOf(q, x) ==> r == q && id == x;
    }
  }

  lemma IssuedMore(store: Tables, ids: Ids, q: Serial, x: nat)
    requires Issued(store, ids) && x >= Counter(ids, q)
    ensures Issued(store, Advance(ids, q, x))
  {
    forall r, id: nat | Find(store, KeyOf(r, id)).Some? ensures id < Counter(Advance(ids, q, x), r) {
      CounterAdvanced(ids, q, x, r);
    }
  }

  lemma ScopeIssued(s: State, t: nat, x: nat)
    requires t in s.txns && Enabled(s, t, x) && Issued(s.store, s.ids)
    requires forall u :: u in s.txns ==> OwnedIssued(s.txns[u].local.scope, s.ids)
    ensures Issued(s.store, Done(s, t, x).ids)
    ensures forall u :: u in s.txns ==> OwnedIssued(Done(s, t, x).txns[u].local.scope, Done(s, t, x).ids)
  {
    var l := s.txns[t].local;
    ScopeGrows(l, s.store, x);
    if l.prog.NewId? {
      IssuedMore(s.store, s.ids, l.prog.ids, x);
      forall u | u in s.txns ensures OwnedIssued(Done(s, t, x).txns[u].local.scope, Done(s, t, x).ids) {
        StillIssued(s.txns[u].local.scope, s.ids, l.prog.ids, x);
      }
    }
  }

  lemma StaysDisjoint(s: State, t: nat, x: nat, u: nat)
    requires t in s.txns && u in s.txns && t != u && Enabled(s, t, x) && OwnedIssued(s.txns[u].local.scope, s.ids)
    requires Disjoint(s.txns[t].local.scope, s.txns[u].local.scope)
    ensures Disjoint(Done(s, t, x).txns[t].local.scope, s.txns[u].local.scope)
  {
    var l := s.txns[t].local;
    ScopeGrows(l, s.store, x);
    if l.prog.NewId? {
      assert KeyOf(l.prog.ids, x) !in s.txns[u].local.scope.owned;
    }
  }

  /** A transaction that has not ended has statements left. */
  lemma StatementLeft(cfg: Config, s: State, t: nat, x: nat)
    requires t in s.txns && TxnOk(cfg, s.txns[t], s) && Enabled(s, t, x)
    ensures |s.txns[t].hist| < LONGEST && !s.txns[t].local.prog.Abort?
  {
    var n := s.txns[t];
    assert Safe(n.local.prog, n.local.scope, LONGEST - |n.hist|);
  }

  ghost predicate Led(store: Tables) { forall a :: a in store.auctions ==> LeaderOk(store, a) }

  /** The statement leaves the transaction aborted, or consistent and guarded with one statement fewer to go. */
  lemma StatementGuarded(cfg: Config, s: State, t: nat, x: nat)
    requires t in s.txns && TxnOk(cfg, s.txns[t], s) && Enabled(s, t, x) && Led(s.store)
    requires Clocked(s.store, s.clock) && Issued(s.store, s.ids)
    ensures var n, l' := s.txns[t], Next(s.txns[t].local, s.store, x);
            |n.hist| < LONGEST &&
            (l'.prog.Abort? || (Consistent(ProgOf(cfg, n.req), l', n.hist + [x], s.store) &&
                                Guarded(l', s.store, LONGEST - |n.hist| - 1)))
  {
    var n := s.txns[t];
    InputGranted(s, t, x);
    StatementLeft(cfg, s, t, x);
    if !Next(n.local, s.store, x).prog.Abort? {
      StatementKeeps(n.local, s.store, x, LONGEST - |n.hist|);
      ConsistentNext(ProgOf(cfg, n.req), n.local, n.hist, s.store, x);
    }
  }

  lemma StatementOk(cfg: Config, s: State, t: nat, x: nat)
    requires Coherent(cfg, s) && Led(s.store) && t in s.txns && Enabled(s, t, x)
    ensures TxnOk(cfg, Done(s, t, x).txns[t], Done(s, t, x))
  {
    StatementGuarded(cfg, s, t, x);
    ScopeIssued(s, t, x);
    ScopeGrows(s.txns[t].local, s.store, x);
  }

  lemma DoKeeps(cfg: Config, s: State, t: nat, x: nat, s': State)
    requires Coherent(cfg, s) && Led(s.store) && Acts(cfg, s, Do(t, x), s')
    ensures Coherent(cfg, s')
  {
    StatementOk(cfg, s, t, x);
    ScopeIssued(s, t, x);
    forall u | u in s'.txns ensures TxnOk(cfg, s'.txns[u], s') {
      assert u != t ==> TxnOk(cfg, s.txns[u], s);
    }
    forall u, v | u in s'.txns && v in s'.txns && u != v
      ensures Disjoint(s'.txns[u].local.scope, s'.txns[v].local.scope)
    {
      assert Disjoint(s.txns[u].local.scope, s.txns[v].local.scope);
      if u == t {
        StaysDisjoint(s, t, x, v);
      } else if v == t {
        StaysDisjoint(s, t, x, u);
      }
    }
  }

  // ---- Commits ----

  /** A transaction that ends returns what its request's transition does on the committed rows of that moment. */
  lemma EndIsApply(cfg: Config, n: Txn, store: Tables) returns (env: Env)
    requires Consistent(ProgOf(cfg, n.req), n.local, n.hist, store) && Alone.Ended(n.local.prog)
    ensures Apply(store, cfg, n.req, env) == Alone.OutcomeOf(n.local, store)
    ensures n.local.prog.Commit? ==> Alone.Drawn(store, n.req, env, n.local.scope)
  {
    Alone.StartEnds(ProgOf(cfg, n.req), store, n.hist);
    env := Alone.AloneIsApply(store, cfg, n.req, n.hist, Alone.OutcomeOf(n.local, store), n.local.scope);
  }

  /**
   * A statement that makes a transaction abort gives it the error its request's transition returns on the committed
   * rows of that moment.
   */
  lemma AbortIsApply(w: World, s: State, t: nat, x: nat) returns (env: Env)
    requires Sane(w, s) && t in s.txns && Enabled(s, t, x) && Done(s, t, x).txns[t].local.prog.Abort?
    ensures Apply(s.store, w.cfg, s.txns[t].req, env) == Err(Done(s, t, x).txns[t].local.prog.error)
  {
    assert TxnOk(w.cfg, s.txns[t], s);
    InputGranted(s, t, x);
    ConsistentNext(ProgOf(w.cfg, s.txns[t].req), s.txns[t].local, s.txns[t].hist, s.store, x);
    env := EndIsApply(w.cfg, Done(s, t, x).txns[t], s.store);
  }

  lemma CommitClocked(store: Tables, clock: nat, buf: Tables, t: Scope)
    requires Clocked(store, clock) && Buffered(buf, t, store) && t.last <= clock
    ensures Clocked(Overlay(store, buf), clock)
  {
    DayMonotone(t.last, clock);
  }

  lemma CommitIssued(store: Tables, ids: Ids, buf: Tables, t: Scope)
    requires Issued(store, ids) && Buffered(buf, t, store) && Present(t, store) && OwnedIssued(t, ids)
    ensures Issued(Overlay(store, buf), ids)
  {
    forall q, id: nat | Find(Overlay(store, buf), KeyOf(q, id)).Some? ensures id < Counter(ids, q) {
      NewRowOwned(store, buf, t, q, id);
    }
  }

  lemma NewRowOwned(store: Tables, buf: Tables, t: Scope, q: Serial, id: nat)
    requires Buffered(buf, t, store) && Present(t, store) && Find(Overlay(store, buf), KeyOf(q, id)).Some?
    ensures Find(store, KeyOf(q, id)).Some? || KeyOf(q, id) in t.owned
  {
    OverlayFind(store, buf, KeyOf(q, id));
    match q {
      case BidIds => assert id in buf.bids ==> BufferedBid(buf, t, store, id);
      case _ =>
    }
  }

  lemma OthersUnaffected(cfg: Config, s: State, t: nat, u: nat, s': State)
    requires Coherent(cfg, s) && Acts(cfg, s, Finish(t), s') && u in s'.txns
    ensures TxnOk(cfg, s'.txns[u], s')
  {
    TxnUnaffected(cfg, s.txns[t], s.txns[u], s, s');
  }

  lemma TxnUnaffected(cfg: Config, n: Txn, m: Txn, s: State, s': State)
    requires TxnOk(cfg, n, s) && n.local.prog.Commit? && TxnOk(cfg, m, s) && Disjoint(m.local.scope, n.local.scope)
    requires s'.store == View(n.local, s.store) && s'.clock == s.clock && s'.ids == s.ids
    ensures TxnOk(cfg, m, s')
  {
    if !m.local.prog.Abort? {
      WorkUnaffected(cfg, n, m, s.store);
    }
  }

  lemma WorkUnaffected(cfg: Config, n: Txn, m: Txn, store: Tables)
    requires |n.hist| <= LONGEST && Guarded(n.local, store, LONGEST - |n.hist|)
    requires |m.hist| <= LONGEST && Guarded(m.local, store, LONGEST - |m.hist|)
    requires Consistent(ProgOf(cfg, m.req), m.local, m.hist, store) && Disjoint(m.local.scope, n.local.scope)
    ensures Consistent(ProgOf(cfg, m.req), m.local, m.hist, View(n.local, store))
    ensures Guarded(m.local, View(n.local, store), LONGEST - |m.hist|)
  {
    CommitUnnoticed(ProgOf(cfg, m.req), m.local, m.hist, n.local.buf, n.local.scope, store, LONGEST - |m.hist|);
  }

  lemma FinishCoherent(cfg: Config, s: State, t: nat, s': State)
    requires Coherent(cfg, s) && Acts(cfg, s, Finish(t), s')
    ensures Coherent(cfg, s')
  {
    var n := s.txns[t];
    assert TxnOk(cfg, n, s);
    CommitClocked(s.store, s.clock, n.local.buf, n.local.scope);
    CommitIssued(s.store, s.ids, n.local.buf, n.local.scope);
    forall u | u in s'.txns ensures TxnOk(cfg, s'.txns[u], s') {
      OthersUnaffected(cfg, s, t, u, s');
    }
  }

  /** What the commit of transaction t does, as an event with the readings and ids it drew. */
  lemma CommitEvent(cfg: Config, s: State, t: nat, s': State) returns (ev: Event)
    requires t in s.txns && TxnOk(cfg, s.txns[t], s) && Acts(cfg, s, Finish(t), s')
    ensures ev.req == s.txns[t].req && Alone.Drawn(s.store, ev.req, ev.env, s.txns[t].local.scope)
    ensures Apply(s.store, cfg, ev.req, ev.env) == Ok(s'.store)
  {
    var env := EndIsApply(cfg, s.txns[t], s.store);
    ev := Event(s.txns[t].req, env);
  }

  lemma FinishKeeps(w: World, s: State, t: nat, s': State) returns (ev: Event)
    requires t in s.txns && Sane(w, s) && Acts(w.cfg, s, Finish(t), s')
    ensures Sane(w, s')
    ensures ev.req == s.txns[t].req && Alone.Drawn(s.store, ev.req, ev.env, s.txns[t].local.scope)
    ensures Apply(s.store, w.cfg, ev.req, ev.env) == Ok(s'.store)
  {
    ev := CommitEvent(w.cfg, s, t, s');
    FinishCoherent(w.cfg, s, t, s');
    Reachable.StepKeeps(w, s.store, ev);
  }

  // ---- Executions ----

  /** Event ev is what transaction n did to db: its request, the readings and ids it drew, and success. */
  ghost predicate Did(cfg: Config, db: Tables, ev: Event, n: Txn) {
    && ev.req == n.req && Alone.Drawn(db, ev.req, ev.env, n.local.scope)
    && Apply(db, cfg, ev.req, ev.env).Ok?
  }

  /** Run one at a time, the transactions of `done` do the events of `run`, each with the readings and ids it drew. */
  ghost predicate AllDid(cfg: Config, db: Tables, run: seq<Event>, done: seq<Txn>) {
    && |run| == |done|
    && (run == [] ||
        (AllDid(cfg, db, run[..|run| - 1], done[..|run| - 1]) &&
         Did(cfg, After(cfg, db, run[..|run| - 1]), run[|run| - 1], done[|run| - 1])))
  }

  ghost predicate Explains(w: World, db: Tables, run: seq<Event>, done: seq<Txn>, final: Tables) {
    Legal(w.cfg, db, run) && AllDid(w.cfg, db, run, done) && After(w.cfg, db, run) == final
  }

  /** Nothing happened to the committed tables, or one transaction committed. */
  ghost predicate OneStep(cfg: Config, db: Tables, evs: seq<Event>, done: seq<Txn>, db': Tables) {
    if evs == [] then done == [] && db' == db
    else |evs| == |done| == 1 && Did(cfg, db, evs[0], done[0]) && Apply(db, cfg, evs[0].req, evs[0].env) == Ok(db')
  }

  /** Appending what an action did: nothing, or one committed transaction. */
  lemma ExplainsMore(w: World, db: Tables, run: seq<Event>, done: seq<Txn>, mid: Tables, evs: seq<Event>,
      more: seq<Txn>, final: Tables)
    requires Explains(w, db, run, done, mid) && OneStep(w.cfg, mid, evs, more, final)
    ensures Explains(w, db, run + evs, done + more, final)
  {
    if evs == [] {
      assert run + evs == run && done + more == done;
    } else {
      var longer, all := run + evs, done + more;
      assert longer[..|longer| - 1] == run && longer[|longer| - 1] == evs[0];
      assert all[..|all| - 1] == done && all[|all| - 1] == more[0];
    }
  }

  lemma OthersKeep(w: World, s: State, a: Action, s': State)
    requires Sane(w, s) && Acts(w.cfg, s, a, s') && !a.Finish?
    ensures Sane(w, s') && s'.store == s.store
  {
    OthersCoherent(w.cfg, s, a, s');
  }

  lemma OthersCoherent(cfg: Config, s: State, a: Action, s': State)
    requires Coherent(cfg, s) && Led(s.store) && Acts(cfg, s, a, s') && !a.Finish?
    ensures Coherent(cfg, s') && s'.store == s.store
  {
    match a {
      case Begin(t, req) => BeginKeeps(cfg, s, t, req, s');
      case Tick(time) => TickKeeps(cfg, s, time, s');
      case Do(t, x) => DoKeeps(cfg, s, t, x, s');
      case Drop(t) => DropKeeps(cfg, s, t, s');
    }
  }

  /** One action keeps the machine sane; a commit is one transition, and nothing else changes the committed tables. */
  lemma ActKeeps(w: World, s: State, a: Action, s': State) returns (evs: seq<Event>)
    requires Sane(w, s) && Acts(w.cfg, s, a, s')
    ensures Sane(w, s') && OneStep(w.cfg, s.store, evs, Commits(s, a), s'.store)
  {
    if a.Finish? {
      var ev := FinishKeeps(w, s, a.t, s');
      evs := [ev];
    } else {
      OthersKeep(w, s, a, s');
      evs := [];
    }
  }

  /**
   * Main theorem. However the statements of any number of transactions interleave, the committed tables are those of
   * running the committed transactions one at a time in commit order, with the clock readings and the ids they drew,
   * and every invariant holds of them.
   */
  lemma {:induction false} Serializable(w: World, states: seq<State>, acts: seq<Action>) returns (run: seq<Event>)
    requires Execution(w.cfg, states, acts) && Sane(w, states[0])
    ensures Explains(w, states[0].store, run, Committed(states, acts), states[|acts|].store)
    ensures Sane(w, states[|acts|])
  {
    if acts == [] {
      run := [];
    } else {
      var n := |acts| - 1;
      var before := Serializable(w, states[..n + 1], acts[..n]);
      var evs := ActKeeps(w, states[n], acts[n], states[n + 1]);
      ExplainsMore(w, states[0].store, before, Committed(states[..n + 1], acts[..n]), states[n].store, evs,
                   Commits(states[n], acts[n]), states[n + 1].store);
      run := before + evs;
    }
  }

  /** Exact: a running transaction can make its next statement unless it waits for a row another one has locked. */
  lemma ProceedsIff(s: State, t: nat)
    requires t in s.txns && !Alone.Ended(s.txns[t].local.prog)
    ensures (exists x :: Enabled(s, t, x)) <==>
            !(s.txns[t].local.prog.Lock? &&
              exists u :: u in s.txns && u != t && s.txns[t].local.prog.k in s.txns[u].local.scope.locks)
  {
    var p := s.txns[t].local.prog;
    var x := if p.NewId? then Counter(s.ids, p.ids) else s.clock;
    assert (p.Lock? ==> Free(s, t, p.k)) <==> Enabled(s, t, x);
  }

  /** Whatever the others do, a transaction that is not made to wait ends within its number of statements. */
  lemma TransactionsEnd(w: World, states: seq<State>, acts: seq<Action>, t: nat)
    requires Execution(w.cfg, states, acts) && Sane(w, states[0]) && t in states[|acts|].txns
    ensures |states[|acts|].txns[t].hist| <= LONGEST
    ensures |states[|acts|].txns[t].hist| == LONGEST ==> Alone.Ended(states[|acts|].txns[t].local.prog)
  {
    var run := Serializable(w, states, acts);
    EndsInTime(w, states[|acts|], t);
  }

  lemma EndsInTime(w: World, s: State, t: nat)
    requires Sane(w, s) && t in s.txns
    ensures |s.txns[t].hist| <= LONGEST && (|s.txns[t].hist| == LONGEST ==> Alone.Ended(s.txns[t].local.prog))
  {
    var n := s.txns[t];
    assert TxnOk(w.cfg, n, s);
    assert n.local.prog.Abort? || Safe(n.local.prog, n.local.scope, LONGEST - |n.hist|);
  }

  /** A machine on which nothing runs is sane. */
  lemma IdleSane(w: World, s: State)
    requires Idle(w, s)
    ensures Sane(w, s)
  {
  }
}
