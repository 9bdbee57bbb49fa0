/** Any number of concurrent requests sharing the key table, with failing statements and crashes at any point. */
module IdempotencyRuns {
  import opened Idempotency

  datatype Phase = Arrived | Running | Ran(status: nat, body: string) | Lost | Done(reply: Reply) | Crashed

  datatype Client = Client(key: string, call: Call, phase: Phase)

  /** A handler run that ended. */
  datatype End = End(client: nat, key: string, call: Call, status: nat, body: string)

  datatype State = State(rows: map<string, Row>, clients: map<nat, Client>, ends: seq<End>)

  /** `reaches` says whether the statement reached the database. */
  datatype Action =
    | Arrive(r: nat, key: string, call: Call)
    | Claim(r: nat)
    | Finish(r: nat, status: nat, body: string)
    | Store(r: nat, reaches: bool)
    | Release(r: nat, reaches: bool)
    | Replay(r: nat)
    | Crash(r: nat)

  predicate Enabled(s: State, a: Action) {
    match a
    case Arrive(r, key, _) => r !in s.clients && key != ""
    case Claim(r) => r in s.clients && s.clients[r].phase.Arrived?
    case Finish(r, _, _) => r in s.clients && s.clients[r].phase.Running?
    case Store(r, _) => r in s.clients && s.clients[r].phase.Ran? && s.clients[r].phase.status < SERVER_ERROR
    case Release(r, _) => r in s.clients && s.clients[r].phase.Ran? && s.clients[r].phase.status >= SERVER_ERROR
    case Replay(r) => r in s.clients && s.clients[r].phase.Lost?
    case Crash(r) => r in s.clients && !s.clients[r].phase.Done?
  }

  function Moved(s: State, r: nat, phase: Phase): State
    requires r in s.clients
  {
    s.(clients := s.clients[r := s.clients[r].(phase := phase)])
  }

  function Next(s: State, a: Action): State
    requires Enabled(s, a)
  {
    match a
    case Arrive(r, key, call) => s.(clients := s.clients[r := Client(key, call, Arrived)])
    case Claim(r) =>
      var c := s.clients[r];
      Moved(s, r, if c.key in s.rows then Lost else Running).(rows := Claimed(s.rows, c.key, c.call))
    case Finish(r, status, body) =>
      var c := s.clients[r];
      Moved(s, r, Ran(status, body)).(ends := s.ends + [End(r, c.key, c.call, status, body)])
    case Store(r, reaches) =>
      var c := s.clients[r];
      var done := Moved(s, r, Done(Handler(c.phase.status, c.phase.body)));
      if reaches then done.(rows := Stored(s.rows, c.key, c.phase.status, c.phase.body)) else done
    case Release(r, reaches) =>
      var c := s.clients[r];
      var done := Moved(s, r, Done(Handler(c.phase.status, c.phase.body)));
      if reaches then done.(rows := Released(s.rows, c.key)) else done
    case Replay(r) =>
      var c := s.clients[r];
      Moved(s, r, Done(Answer(s.rows, c.key, c.call)))
    case Crash(r) => Moved(s, r, Crashed)
  }

  // ---- The invariant ----

  /** The request has won its key and not finished with it. */
  predicate Owns(c: Client) { c.phase.Running? || c.phase.Ran? }

  predicate Good(e: End) { e.status < SERVER_ERROR }

  ghost predicate Owner(s: State, r: nat) { r in s.clients && Owns(s.clients[r]) }

  ghost predicate OwnerOk(s: State, r: nat)
    requires r in s.clients
  {
    var c := s.clients[r];
    && c.key in s.rows && s.rows[c.key] == Row(c.call, 0, "")
    && (c.phase.Ran? ==> End(r, c.key, c.call, c.phase.status, c.phase.body) in s.ends)
  }

  /** A run that ended well has taken its key for good. */
  ghost predicate EndOk(s: State, e: End) {
    && e.key in s.rows && s.rows[e.key].call == e.call
    && (s.rows[e.key].status == 0 || s.rows[e.key] == Row(e.call, e.status, e.body))
    && (forall r :: Owner(s, r) && s.clients[r].key == e.key ==>
        r == e.client && s.clients[r].phase == Ran(e.status, e.body))
  }

  ghost predicate Answers(e: End, key: string, row: Row) {
    e.key == key && Good(e) && row == Row(e.call, e.status, e.body)
  }

  ghost predicate Answered(s: State, key: string)
    requires key in s.rows
  {
    exists e :: e in s.ends && Answers(e, key, s.rows[key])
  }

  ghost predicate OneGood(ends: seq<End>) {
    forall i, j :: 0 <= i < j < |ends| && Good(ends[i]) && Good(ends[j]) ==> ends[i].key != ends[j].key
  }

  ghost predicate Orderly(s: State) {
    && (forall r :: Owner(s, r) ==> OwnerOk(s, r))
    && (forall r, q :: Owner(s, r) && Owner(s, q) && s.clients[r].key == s.clients[q].key ==> r == q)
    && (forall e :: e in s.ends && Good(e) ==> EndOk(s, e))
    && OneGood(s.ends)
    && (forall k :: k in s.rows && s.rows[k].status != 0 ==> Answered(s, k))
  }

  lemma ClaimKeeps(s: State, r: nat)
    requires Orderly(s) && Enabled(s, Claim(r))
    ensures Orderly(Next(s, Claim(r)))
  {
    var s' := Next(s, Claim(r));
    forall k | k in s'.rows && s'.rows[k].status != 0 ensures Answered(s', k) {
      assert Answered(s, k);
    }
    forall e | e in s'.ends && Good(e) ensures EndOk(s', e) {
      assert EndOk(s, e);
      forall q | Owner(s', q) && s'.clients[q].key == e.key
        ensures q == e.client && s'.clients[q].phase == Ran(e.status, e.body)
      {
        assert Owner(s, q);
      }
    }
    forall q | Owner(s', q) ensures OwnerOk(s', q) {
      assert q != r ==> OwnerOk(s, q);
    }
    forall q, p | Owner(s', q) && Owner(s', p) && s'.clients[q].key == s'.clients[p].key ensures q == p {
      assert q != r ==> OwnerOk(s, q);
      assert p != r ==> OwnerOk(s, p);
    }
  }

  /** No earlier run under this key ended well while r is still running. */
  lemma FirstGood(s: State, r: nat, e: End)
    requires Orderly(s) && Enabled(s, Finish(r, 0, "")) && e in s.ends && Good(e)
    ensures e.key != s.clients[r].key
  {
    assert Owner(s, r) && EndOk(s, e);
  }

  lemma FinishKeeps(s: State, r: nat, status: nat, body: string)
    requires Orderly(s) && Enabled(s, Finish(r, status, body))
    ensures Orderly(Next(s, Finish(r, status, body)))
  {
    var s', c := Next(s, Finish(r, status, body)), s.clients[r];
    var new_ := End(r, c.key, c.call, status, body);
    assert Owner(s, r) && OwnerOk(s, r);
    forall q | Owner(s', q) ensures Owner(s, q) && OwnerOk(s', q) {
      assert Owner(s, q) && OwnerOk(s, q);
    }
    forall e | e in s'.ends && Good(e) ensures EndOk(s', e) {
      if e in s.ends {
        FirstGood(s, r, e);
        assert EndOk(s, e);
      }
    }
    forall i, j | 0 <= i < j < |s'.ends| && Good(s'.ends[i]) && Good(s'.ends[j])
      ensures s'.ends[i].key != s'.ends[j].key
    {
      if j == |s.ends| {
        FirstGood(s, r, s.ends[i]);
      }
    }
    forall k | k in s'.rows && s'.rows[k].status != 0 ensures Answered(s', k) {
      assert Answered(s, k);
      var e :| e in s.ends && Answers(e, k, s.rows[k]);
      assert e in s'.ends;
    }
  }

  lemma StoreKeeps(s: State, r: nat, reaches: bool)
    requires Orderly(s) && Enabled(s, Store(r, reaches))
    ensures Orderly(Next(s, Store(r, reaches)))
  {
    var s', c := Next(s, Store(r, reaches)), s.clients[r];
    assert Owner(s, r) && OwnerOk(s, r);
    var mine := End(r, c.key, c.call, c.phase.status, c.phase.body);
    assert mine in s.ends && Good(mine);
    forall q | Owner(s', q) ensures OwnerOk(s', q) {
      assert Owner(s, q) && OwnerOk(s, q);
    }
    forall e | e in s'.ends && Good(e) ensures EndOk(s', e) {
      assert EndOk(s, e);
      forall q | Owner(s', q) && s'.clients[q].key == e.key
        ensures q == e.client && s'.clients[q].phase == Ran(e.status, e.body)
      {
        assert Owner(s, q);
      }
    }
    forall k | k in s'.rows && s'.rows[k].status != 0 ensures Answered(s', k) {
      if k == c.key && reaches {
        assert Answers(mine, k, s'.rows[k]);
      } else {
        assert Answered(s, k);
      }
    }
  }

  lemma ReleaseKeeps(s: State, r: nat, reaches: bool)
    requires Orderly(s) && Enabled(s, Release(r, reaches))
    ensures Orderly(Next(s, Release(r, reaches)))
  {
    var s', c := Next(s, Release(r, reaches)), s.clients[r];
    assert Owner(s, r) && OwnerOk(s, r);
    forall q | Owner(s', q) ensures OwnerOk(s', q) {
      assert Owner(s, q) && OwnerOk(s, q);
    }
    forall e | e in s'.ends && Good(e) ensures EndOk(s', e) {
      assert EndOk(s, e);
      forall q | Owner(s', q) && s'.clients[q].key == e.key
        ensures q == e.client && s'.clients[q].phase == Ran(e.status, e.body)
      {
        assert Owner(s, q);
      }
    }
    forall k | k in s'.rows && s'.rows[k].status != 0 ensures Answered(s', k) {
      assert Answered(s, k);
    }
  }

  /** Arrivals, replays and crashes change no row and make nobody an owner. */
  lemma OtherKeeps(s: State, a: Action)
    requires Orderly(s) && Enabled(s, a) && (a.Arrive? || a.Replay? || a.Crash?)
    ensures Orderly(Next(s, a))
  {
    var s' := Next(s, a);
    forall q | Owner(s', q) ensures Owner(s, q) && s'.clients[q] == s.clients[q] && OwnerOk(s', q) {
      assert Owner(s, q) && OwnerOk(s, q);
    }
    forall e | e in s'.ends && Good(e) ensures EndOk(s', e) {
      assert EndOk(s, e);
    }
    forall k | k in s'.rows && s'.rows[k].status != 0 ensures Answered(s', k) {
      assert Answered(s, k);
    }
  }

  lemma NextKeeps(s: State, a: Action)
    requires Orderly(s) && Enabled(s, a)
    ensures Orderly(Next(s, a))
  {
    match a {
      case Claim(r) => ClaimKeeps(s, r);
      case Finish(r, status, body) => FinishKeeps(s, r, status, body);
      case Store(r, reaches) => StoreKeeps(s, r, reaches);
      case Release(r, reaches) => ReleaseKeeps(s, r, reaches);
      case _ => OtherKeeps(s, a);
    }
  }

  // ---- Whole runs ----

  ghost predicate Execution(states: seq<State>, acts: seq<Action>) {
    && |states| == |acts| + 1
    && states[0] == State(map[], map[], [])
    && forall i :: 0 <= i < |acts| ==> Enabled(states[i], acts[i]) && states[i + 1] == Next(states[i], acts[i])
  }

  lemma {:induction false} RunOrderly(states: seq<State>, acts: seq<Action>, n: nat)
    requires Execution(states, acts) && n <= |acts|
    ensures Orderly(states[n])
  {
    if n > 0 {
      RunOrderly(states, acts, n - 1);
      NextKeeps(states[n - 1], acts[n - 1]);
    }
  }

  /** Main result: per key, at most one handler run ends with a status below 500, in any interleaving. */
  lemma AtMostOnce(states: seq<State>, acts: seq<Action>, i: nat, j: nat)
    requires Execution(states, acts)
    requires i < |states[|acts|].ends| && j < |states[|acts|].ends|
    requires states[|acts|].ends[i].status < 500 && states[|acts|].ends[j].status < 500
    requires states[|acts|].ends[i].key == states[|acts|].ends[j].key
    ensures i == j
  {
    RunOrderly(states, acts, |acts|);
  }

  /**
   * Exactly what every action does to its request and to the table: a free key is won and a taken one lost, the loser
   * is answered by the row it finds, and the winner, whose own claim its row still is, stores or releases it.
   */
  ghost predicate Does(s: State, a: Action, s': State)
    requires a.Arrive? || a.r in s.clients
  {
    match a
    case Claim(r) =>
      var c := s.clients[r];
      && s'.clients == s.clients[r := Client(c.key, c.call, if c.key in s.rows then Lost else Running)]
      && s'.rows == if c.key in s.rows then s.rows else s.rows[c.key := Row(c.call, 0, "")]
    case Replay(r) =>
      var c := s.clients[r];
      var reply := if c.key !in s.rows then Conflict(Vanished)
                   else if s.rows[c.key].call != c.call then Conflict(Reused)
                   else if s.rows[c.key].status == 0 then Conflict(InFlight)
                   else Replayed(s.rows[c.key].status, s.rows[c.key].body);
      s'.clients == s.clients[r := Client(c.key, c.call, Done(reply))] && s'.rows == s.rows
    case Store(r, reaches) =>
      var c := s.clients[r];
      && c.phase.Ran? && c.phase.status < 500 && c.key in s.rows && s.rows[c.key] == Row(c.call, 0, "")
      && s'.clients == s.clients[r := Client(c.key, c.call, Done(Handler(c.phase.status, c.phase.body)))]
      && s'.rows == if reaches then s.rows[c.key := Row(c.call, c.phase.status, c.phase.body)] else s.rows
    case Release(r, reaches) =>
      var c := s.clients[r];
      && c.phase.Ran? && c.phase.status >= 500 && c.key in s.rows && s.rows[c.key] == Row(c.call, 0, "")
      && s'.clients == s.clients[r := Client(c.key, c.call, Done(Handler(c.phase.status, c.phase.body)))]
      && s'.rows == if reaches then s.rows - {c.key} else s.rows
    case Arrive(r, key, call) => s'.clients == s.clients[r := Client(key, call, Arrived)] && s'.rows == s.rows
    case Finish(r, status, body) =>
      var c := s.clients[r];
      && s'.clients == s.clients[r := Client(c.key, c.call, Ran(status, body))] && s'.rows == s.rows
      && s'.ends == s.ends + [End(r, c.key, c.call, status, body)]
    case Crash(r) =>
      var c := s.clients[r];
      s'.clients == s.clients[r := Client(c.key, c.call, Crashed)] && s'.rows == s.rows
  }

  /** Main result, exact: in every execution every action does just that. */
  lemma EveryAction(states: seq<State>, acts: seq<Action>, j: nat)
    requires Execution(states, acts) && j < |acts|
    ensures acts[j].Arrive? || acts[j].r in states[j].clients
    ensures Does(states[j], acts[j], states[j + 1])
  {
    RunOrderly(states, acts, j);
    ActionDoes(states[j], acts[j]);
  }

  lemma ActionDoes(s: State, a: Action)
    requires Orderly(s) && Enabled(s, a)
    ensures Does(s, a, Next(s, a))
  {
    if a.Store? || a.Release? {
      assert Owner(s, a.r) && OwnerOk(s, a.r);
    }
  }

  /** A request that nothing interferes with gets the reply, and leaves the table, of one pass of the middleware. */
  lemma AloneIsHandled(s: State, r: nat, key: string, call: Call, status: nat, body: string, reaches: bool)
    returns (s': State)
    requires r !in s.clients && key != ""
    ensures r in s'.clients && s'.clients[r].phase.Done?
    ensures Handled(s.rows, key, call, status, body, reaches, reaches, s'.clients[r].phase.reply, s'.rows)
    ensures s'.ends == if key in s.rows then s.ends else s.ends + [End(r, key, call, status, body)]
  {
    s' := Next(s, Arrive(r, key, call));
    s' := Next(s', Claim(r));
    if key in s.rows {
      s' := Next(s', Replay(r));
    } else {
      s' := Next(s', Finish(r, status, body));
      s' := Next(s', if status >= SERVER_ERROR then Release(r, reaches) else Store(r, reaches));
      assert s.rows[key := Row(call, 0, "")] - {key} == s.rows;
    }
  }

  /** A stored response is never changed or deleted, by any action. */
  lemma StoredStays(s: State, a: Action, key: string)
    requires Orderly(s) && Enabled(s, a) && key in s.rows && s.rows[key].status != 0
    ensures key in Next(s, a).rows && Next(s, a).rows[key] == s.rows[key]
  {
    if a.Store? || a.Release? {
      assert Owner(s, a.r) && OwnerOk(s, a.r);
    }
  }

  lemma {:induction false} StoredForever(states: seq<State>, acts: seq<Action>, i: nat, j: nat, key: string)
    requires Execution(states, acts) && i <= j <= |acts|
    requires key in states[i].rows && states[i].rows[key].status != 0
    ensures key in states[j].rows && states[j].rows[key] == states[i].rows[key]
    decreases j
  {
    if i < j {
      StoredForever(states, acts, i, j - 1, key);
      RunOrderly(states, acts, j - 1);
      StoredStays(states[j - 1], acts[j - 1], key);
    }
  }

  /**
   * Main result: once a response is stored, a later request with its key never runs the handler; if it is the same
   * request it is answered with exactly that response, and with a conflict if it is another one.
   */
  lemma LaterRequests(states: seq<State>, acts: seq<Action>, i: nat, j: nat, key: string)
    requires Execution(states, acts) && i <= j < |acts|
    requires key in states[i].rows && states[i].rows[key].status != 0
    ensures var row := states[i].rows[key];
            match acts[j]
            case Claim(r) => states[j].clients[r].key == key ==> states[j + 1].clients[r].phase == Lost
            case Finish(r, _, _) => states[j].clients[r].key != key
            case Replay(r) =>
              states[j].clients[r].key == key ==>
                states[j + 1].clients[r].phase ==
                Done(if states[j].clients[r].call == row.call then Replayed(row.status, row.body) else Conflict(Reused))
            case _ => true
  {
    StoredForever(states, acts, i, j, key);
    RunOrderly(states, acts, j);
    if acts[j].Finish? {
      assert Owner(states[j], acts[j].r) && OwnerOk(states[j], acts[j].r);
    }
  }

  /** Main result: a replayed response is what the handler answered the same request under the same key. */
  lemma ReplayIsGenuine(states: seq<State>, acts: seq<Action>, n: nat, r: nat)
    requires Execution(states, acts) && n <= |acts| && r in states[n].clients
    requires states[n].clients[r].phase.Done? && states[n].clients[r].phase.reply.Replayed?
    ensures var c := states[n].clients[r];
            exists e :: e in states[n].ends && Good(e) && e.key == c.key && e.call == c.call
                        && c.phase.reply == Replayed(e.status, e.body)
  {
    var _ := ReplayedOnce(states, acts, n, r);
  }

  /** The run behind the reply of a client that was replayed to. */
  ghost predicate Genuine(s: State, c: Client, e: End) {
    && e in s.ends && Good(e) && e.key == c.key && e.call == c.call
    && c.phase.Done? && c.phase.reply == Replayed(e.status, e.body)
  }

  predicate ReplayedTo(s: State, r: nat) {
    r in s.clients && s.clients[r].phase.Done? && s.clients[r].phase.reply.Replayed?
  }

  lemma {:induction false} ReplayedOnce(states: seq<State>, acts: seq<Action>, n: nat, r: nat) returns (e: End)
    requires Execution(states, acts) && n <= |acts| && ReplayedTo(states[n], r)
    ensures Genuine(states[n], states[n].clients[r], e)
  {
    var before := states[n - 1];
    if ReplayedTo(before, r) {
      e := ReplayedOnce(states, acts, n - 1, r);
    } else {
      RunOrderly(states, acts, n - 1);
      e := ReplayNow(before, acts[n - 1], r);
    }
  }

  lemma ReplayNow(s: State, a: Action, r: nat) returns (e: End)
    requires Orderly(s) && Enabled(s, a) && !ReplayedTo(s, r) && ReplayedTo(Next(s, a), r)
    ensures Genuine(Next(s, a), Next(s, a).clients[r], e)
  {
    var c := s.clients[r];
    assert a == Replay(r) && Answered(s, c.key);
    e :| e in s.ends && Answers(e, c.key, s.rows[c.key]);
  }

  /**
   * A handler that is running has the request its key was claimed for, so another request never runs while the row
   * exists.
   */
  lemma OnlyTheClaimant(states: seq<State>, acts: seq<Action>, n: nat, r: nat)
    requires Execution(states, acts) && n <= |acts| && Owner(states[n], r)
    ensures states[n].clients[r].key in states[n].rows
    ensures states[n].rows[states[n].clients[r].key].call == states[n].clients[r].call
    ensures forall q :: Owner(states[n], q) && states[n].clients[q].key == states[n].clients[r].key ==> q == r
  {
    RunOrderly(states, acts, n);
    assert OwnerOk(states[n], r);
  }

  // ---- Keys whose owner was lost ----

  /** A key claimed by nobody who could still store or release it. */
  ghost predicate Orphaned(s: State, key: string) {
    key in s.rows && s.rows[key].status == 0 && forall r :: Owner(s, r) ==> s.clients[r].key != key
  }

  /** Such a key is refused from then on: its row never changes again and its handler never runs again. */
  lemma {:induction false} OrphanedForever(states: seq<State>, acts: seq<Action>, i: nat, j: nat, key: string)
    requires Execution(states, acts) && i <= j <= |acts| && Orphaned(states[i], key)
    ensures Orphaned(states[j], key) && states[j].rows[key] == states[i].rows[key]
    decreases j
  {
    if i < j {
      OrphanedForever(states, acts, i, j - 1, key);
    }
  }

  /**
   * After a run, its key can be claimed again exactly when the run ended in a server error and the release reached the
   * database; a lost store or release, or a crash, leaves the key orphaned.
   */
  lemma WhatIsLeft(states: seq<State>, acts: seq<Action>, n: nat, r: nat)
    requires Execution(states, acts) && n < |acts| && Owner(states[n], r) && !Owner(states[n + 1], r)
    ensures var key := states[n].clients[r].key;
            && (key !in states[n + 1].rows <==> acts[n] == Release(r, true))
            && (Orphaned(states[n + 1], key) <==>
                  acts[n] == Crash(r) || acts[n] == Release(r, false) || acts[n] == Store(r, false) ||
                  (acts[n] == Store(r, true) && states[n].clients[r].phase.status == 0))
  {
    RunOrderly(states, acts, n);
    OwnerLeaves(states[n], acts[n], r);
  }

  lemma OwnerLeaves(s: State, a: Action, r: nat)
    requires Orderly(s) && Enabled(s, a) && Owner(s, r) && !Owner(Next(s, a), r)
    ensures var s', key := Next(s, a), s.clients[r].key;
            && (key !in s'.rows <==> a == Release(r, true))
            && (Orphaned(s', key) <==>
                  a == Crash(r) || a == Release(r, false) || a == Store(r, false) ||
                  (a == Store(r, true) && s.clients[r].phase.status == 0))
  {
    assert OwnerOk(s, r);
    var s', key := Next(s, a), s.clients[r].key;
    forall q | Owner(s', q) ensures s'.clients[q].key != key {
      assert Owner(s, q);
    }
  }
}
