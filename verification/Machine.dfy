/** Any number of transactions run at once, one statement at a time, in any order. */
module Machine {
  import opened Model
  import opened Invariants
  import opened Programs
  import opened Locking
  import opened Discipline

  /** A running transaction: its request, where it is, the readings and ids it was given, and when it began. */
  datatype Txn = Txn(req: Request, local: Local, hist: seq<nat>, since: nat)

  /** The next id of each table. Sequences are not rolled back. */
  datatype Ids = Ids(items: nat, listings: nat, auctions: nat, bids: nat, ledger: nat)

  datatype State = State(store: Tables, clock: nat, ids: Ids, txns: map<nat, Txn>)

  datatype Action =
    | Begin(t: nat, req: Request)
    | Tick(time: nat)
    | Do(t: nat, input: nat)
    | Finish(t: nat)
    | Drop(t: nat)

  function Counter(ids: Ids, s: Serial): nat {
    match s
    case ItemIds => ids.items
    case ListingIds => ids.listings
    case AuctionIds => ids.auctions
    case BidIds => ids.bids
    case LedgerIds => ids.ledger
  }

  function Advance(ids: Ids, s: Serial, id: nat): Ids {
    match s
    case ItemIds => ids.(items := id + 1)
    case ListingIds => ids.(listings := id + 1)
    case AuctionIds => ids.(auctions := id + 1)
    case BidIds => ids.(bids := id + 1)
    case LedgerIds => ids.(ledger := id + 1)
  }

  ghost predicate Free(s: State, t: nat, k: Key) {
    forall u :: u in s.txns && u != t ==> k !in s.txns[u].local.scope.locks
  }

  /** A lock is granted only when no other transaction holds it; a clock reading is the clock; ids only grow. */
  ghost predicate Enabled(s: State, t: nat, x: nat)
    requires t in s.txns
  {
    match s.txns[t].local.prog
    case Commit => false
    case Abort(_) => false
    case Lock(k, _) => Free(s, t, k)
    case Read(_, _) => true
    case Write(_, _, _) => true
    case Now(_) => x == s.clock
    case NewId(ids, _) => x >= Counter(s.ids, ids)
  }

  function Done(s: State, t: nat, x: nat): State
    requires t in s.txns
  {
    var n := s.txns[t];
    var p := n.local.prog;
    s.(txns := s.txns[t := Txn(n.req, Next(n.local, s.store, x), n.hist + [x], n.since)],
       ids := if p.NewId? then Advance(s.ids, p.ids, x) else s.ids)
  }

  /** A transaction may be dropped at any time: by its own error, a deadlock or a lost connection. */
  ghost predicate Acts(cfg: Config, s: State, a: Action, s': State) {
    match a
    case Begin(t, req) =>
      t !in s.txns && s' == s.(txns := s.txns[t := Txn(req, Start(ProgOf(cfg, req)), [], s.clock)])
    case Tick(time) => s.clock <= time && s' == s.(clock := time)
    case Do(t, x) => t in s.txns && Enabled(s, t, x) && s' == Done(s, t, x)
    case Finish(t) =>
      t in s.txns && s.txns[t].local.prog.Commit? &&
          s' == s.(store := View(s.txns[t].local, s.store), txns := s.txns - {t})
    case Drop(t) => t in s.txns && s' == s.(txns := s.txns - {t})
  }

  // ---- What holds in every state ----

  ghost predicate Clocked(store: Tables, clock: nat) {
    && (forall a :: a in store.auctions ==> store.auctions[a].updatedAt <= clock)
    && (forall k :: k in store.daily ==> k.1 <= DayOf(clock))
  }

  ghost predicate Issued(store: Tables, ids: Ids) {
    forall s, id: nat :: Find(store, KeyOf(s, id)).Some? ==> id < Counter(ids, s)
  }

  ghost predicate OwnedIssued(s: Scope, ids: Ids) {
    forall q, id: nat :: KeyOf(q, id) in s.owned ==> id < Counter(ids, q)
  }

  /** No transaction has more statements than this. */
  const LONGEST: nat := 21

  ghost predicate TxnOk(cfg: Config, n: Txn, s: State) {
    && n.local.scope.last <= s.clock && n.since <= s.clock
    && (forall x :: x in n.local.scope.times ==> n.since <= x <= s.clock)
    && OwnedIssued(n.local.scope, s.ids)
    && |n.hist| <= LONGEST
    && (n.local.prog.Abort? ||
        (Consistent(ProgOf(cfg, n.req), n.local, n.hist, s.store) && Guarded(n.local, s.store, LONGEST - |n.hist|)))
  }

  /** The clock and the sequences are ahead, and each running transaction is where it would be if it ran alone. */
  ghost predicate Coherent(cfg: Config, s: State) {
    && Clocked(s.store, s.clock)
    && Issued(s.store, s.ids)
    && (forall t :: t in s.txns ==> TxnOk(cfg, s.txns[t], s))
    && (forall t, u :: t in s.txns && u in s.txns && t != u ==> Disjoint(s.txns[t].local.scope, s.txns[u].local.scope))
  }

  ghost predicate Sane(w: World, s: State) { Inv(w, s.store) && Coherent(w.cfg, s) }

  /** No transaction is running and the clock and the sequences are ahead of the tables. */
  ghost predicate Idle(w: World, s: State) {
    Inv(w, s.store) && Clocked(s.store, s.clock) && Issued(s.store, s.ids) && s.txns == map[]
  }

  ghost predicate Execution(cfg: Config, states: seq<State>, acts: seq<Action>) {
    && |states| == |acts| + 1
    && forall i :: 0 <= i < |acts| ==> Acts(cfg, states[i], acts[i], states[i + 1])
  }

  /** The transactions that committed, as they were when they did, in commit order. */
  ghost function Committed(states: seq<State>, acts: seq<Action>): seq<Txn>
    requires |states| == |acts| + 1
  {
    if acts == [] then []
    else
      var n := |acts| - 1;
      Committed(states[..n + 1], acts[..n]) + Commits(states[n], acts[n])
  }

  /** The transaction that action a commits, if it commits one. */
  ghost function Commits(s: State, a: Action): seq<Txn> {
    if a.Finish? && a.t in s.txns then [s.txns[a.t]] else []
  }
}
