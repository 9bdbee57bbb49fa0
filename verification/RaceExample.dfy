/** A bid in flight when the scan runs: the scan lists its auction, and the settlement leaves the auction open. */
module RaceExample {
  import opened Model
  import opened Transitions
  import opened Invariants
  import opened Programs
  import opened Locking
  import opened Machine
  import Alone
  import Reachable
  import Scans
  import Serializability

  const WORLD: World := World(Config(10, 5), map[1 := 100, 2 := 100])
  const BID: Request := Request.PlaceBid(3, 2, 50)
  const SETTLE: Request := Request.Settle(3)

  // ---- The tables before and after the bid ----

  /** Guild 1 owns a legendary item; guild 2 has money. */
  function Seeded(): Tables {
    Tables(map[1 := 0, 2 := 0], map[1 := Wallet(100, 0), 2 := Wallet(100, 0)], map[],
           map[7 := Item("crown", Legendary, 1, Available, 1)], map[], map[], map[], map[])
  }

  /** Guild 1 has opened auction 3 at time 0; it ends at 10. */
  function Opened(): Tables {
    Tables(map[1 := 0, 2 := 0], map[1 := Wallet(100, 0), 2 := Wallet(100, 0)], map[],
           map[7 := Item("crown", Legendary, 1, InAuction, 1)], map[],
           map[3 := OldEnd()], map[], map[])
  }

  function OldEnd(): Auction { Auction(7, 1, Active, 0, 10, None, None, 0) }

  function NewBid(): Bid { Bid(3, 2, 50, Leading, 9) }

  function NewEnd(): Auction { Auction(7, 1, Active, 0, 14, Some(4), None, 9) }

  function NewEntry(): Entry { Entry(2, Reserved, 50, BidRef(3)) }

  /** Guild 2 has bid 50 with a reading of 9; the auction ends at 14. */
  function WithBid(db: Tables): Tables {
    db.(wallets := db.wallets[2 := Wallet(100, 50)], ledger := db.ledger[0 := NewEntry()],
        bids := db.bids[4 := NewBid()],
        auctions := db.auctions[3 := NewEnd()])
  }

  function OpenEvent(): Event { Event(Request.CreateAuction(1, 7), Env(0, 0, 3, 0, 1)) }

  lemma OpenedHolds()
    ensures Inv(WORLD, Opened())
  {
    SeededOpens();
    Reachable.InitHolds(WORLD, Seeded());
    Reachable.StepKeeps(WORLD, Seeded(), OpenEvent());
  }

  lemma SeededOpens()
    ensures Init(WORLD, Seeded()) && EnvOk(Seeded(), OpenEvent().req, OpenEvent().env)
    ensures Step(WORLD.cfg, Seeded(), OpenEvent()) == Opened()
  {
  }

  // ---- One transaction running by itself ----

  /** Transaction t, begun at `since`, is the only one running and is at l. */
  ghost predicate Only(s: State, store: Tables, clock: nat, ids: Ids, t: nat, req: Request, l: Local, since: nat) {
    && s.store == store && s.clock == clock && s.ids == ids
    && s.txns.Keys == {t} && s.txns[t].req == req && s.txns[t].local == l && s.txns[t].since == since
  }

  predicate CanGo(p: Prog, clock: nat, ids: Ids, x: nat) {
    && !p.Commit? && !p.Abort? && (p.Now? ==> x == clock) && (p.NewId? ==> x >= Counter(ids, p.ids))
  }

  ghost predicate Prolongs(states: seq<State>, longer: seq<State>) {
    |states| <= |longer| && forall i :: 0 <= i < |states| ==> longer[i] == states[i]
  }

  lemma Extend(states: seq<State>, acts: seq<Action>, act: Action, s: State)
    returns (longer: seq<State>, all: seq<Action>)
    requires Execution(WORLD.cfg, states, acts) && Acts(WORLD.cfg, states[|acts|], act, s)
    ensures Execution(WORLD.cfg, longer, all) && longer == states + [s] && all == acts + [act]
  {
    longer, all := states + [s], acts + [act];
    forall i | 0 <= i < |all| ensures Acts(WORLD.cfg, longer[i], all[i], longer[i + 1]) {
      assert i < |acts| ==> longer[i] == states[i] && longer[i + 1] == states[i + 1] && all[i] == acts[i];
    }
  }

  /** The transaction performs its next statement. */
  lemma Does(states: seq<State>, acts: seq<Action>, store: Tables, clock: nat, ids: Ids, t: nat, req: Request, l: Local,
      since: nat, x: nat) returns (longer: seq<State>, all: seq<Action>)
    requires Execution(WORLD.cfg, states, acts) && Only(states[|acts|], store, clock, ids, t, req, l, since)
    requires CanGo(l.prog, clock, ids, x)
    ensures Execution(WORLD.cfg, longer, all) && |all| == |acts| + 1 && Prolongs(states, longer)
    ensures Only(longer[|all|], store, clock, if l.prog.NewId? then Advance(ids, l.prog.ids, x) else ids, t, req,
                 Next(l, store, x), since)
  {
    var s := states[|acts|];
    longer, all := Extend(states, acts, Do(t, x), Done(s, t, x));
  }

  lemma Begins(states: seq<State>, acts: seq<Action>, t: nat, req: Request)
    returns (longer: seq<State>, all: seq<Action>)
    requires Execution(WORLD.cfg, states, acts) && states[|acts|].txns == map[]
    ensures Execution(WORLD.cfg, longer, all) && |all| == |acts| + 1 && Prolongs(states, longer)
    ensures var s := states[|acts|];
            Only(longer[|all|], s.store, s.clock, s.ids, t, req, Start(ProgOf(WORLD.cfg, req)), s.clock)
  {
    var s := states[|acts|];
    var n := Txn(req, Start(ProgOf(WORLD.cfg, req)), [], s.clock);
    longer, all := Extend(states, acts, Begin(t, req), s.(txns := s.txns[t := n]));
  }

  lemma Ticks(states: seq<State>, acts: seq<Action>, store: Tables, clock: nat, ids: Ids, t: nat, req: Request,
      l: Local, since: nat, time: nat) returns (longer: seq<State>, all: seq<Action>)
    requires Execution(WORLD.cfg, states, acts) && Only(states[|acts|], store, clock, ids, t, req, l, since)
    requires clock <= time
    ensures Execution(WORLD.cfg, longer, all) && |all| == |acts| + 1 && Prolongs(states, longer)
    ensures Only(longer[|all|], store, time, ids, t, req, l, since)
  {
    longer, all := Extend(states, acts, Tick(time), states[|acts|].(clock := time));
  }

  lemma Finishes(states: seq<State>, acts: seq<Action>, store: Tables, clock: nat, ids: Ids, t: nat, req: Request,
      l: Local, since: nat) returns (longer: seq<State>, all: seq<Action>)
    requires Execution(WORLD.cfg, states, acts) && Only(states[|acts|], store, clock, ids, t, req, l, since)
    requires l.prog.Commit?
    ensures Execution(WORLD.cfg, longer, all) && all == acts + [Finish(t)] && Prolongs(states, longer)
    ensures longer[|all|] == State(View(l, store), clock, ids, map[])
  {
    var s := states[|acts|];
    assert s.txns - {t} == map[];
    longer, all := Extend(states, acts, Finish(t), s.(store := View(l, store), txns := map[]));
  }

  // ---- The statements ----

  lemma Writes(l: Local, store: Tables, k: Key, row: Row, rest: Prog)
    requires l.prog == Write(k, row, rest)
    ensures Next(l, store, 0).prog == rest && Next(l, store, 0).buf == Put(l.buf, k, row)
  {
  }

  lemma Numbers(l: Local, store: Tables, ids: Serial, with: nat -> Prog, x: nat)
    requires l.prog == NewId(ids, with)
    ensures Next(l, store, x).prog == with(x) && Next(l, store, x).buf == l.buf
  {
  }

  lemma LocksAuction(l: Local, store: Tables, next: Option<Row> -> Prog)
    requires l == Start(Lock(AuctionK(3), next)) && 3 in store.auctions
    ensures var n := Next(l, store, 0);
            n.prog == next(Some(AuctionR(store.auctions[3]))) && n.buf == NoRows && AuctionK(3) in n.scope.locks
  {
    Alone.OverlayNothing(store);
  }

  function Held(): Prog { BidHeld(WORLD.cfg, 3, 2, 50, OldEnd(), 9, None) }

  function Record(): nat -> Prog { (e: nat) => Write(LedgerK(e), LedgerR(NewEntry()), Held()) }

  /** At 9, guild 2's bid on an auction without bids goes on to reserve the money. */
  lemma BidStarts(store: Tables, l: Local)
    requires l.prog == BidLocked(WORLD.cfg, 3, 2, 50, Some(AuctionR(OldEnd()))) && l.buf == NoRows
    ensures l.prog.Now? && Next(l, store, 9).prog == Move(2, Reserved, 50, BidRef(3), Held())
    ensures Next(l, store, 9).buf == NoRows && Next(l, store, 9).scope.locks == l.scope.locks
  {
    assert BidTimed(WORLD.cfg, 3, 2, 50, OldEnd(), 9) == BidBeats(WORLD.cfg, 3, 2, 50, OldEnd(), 9, None);
  }

  lemma LocksWallet(l: Local, store: Tables)
    requires l.prog == Move(2, Reserved, 50, BidRef(3), Held()) && l.buf == NoRows
    requires 2 in store.wallets && store.wallets[2] == Wallet(100, 0)
    ensures var n := Next(l, store, 0);
            n.prog == Write(WalletK(2), WalletR(Wallet(100, 50)), NewId(LedgerIds, Record())) && n.buf == NoRows
  {
    Alone.OverlayNothing(store);
  }

  lemma HeldNumbers()
    ensures Held() == NewId(BidIds, (b: nat) => BidLast(WORLD.cfg, 3, 2, 50, OldEnd(), 9, b))
    ensures BidLast(WORLD.cfg, 3, 2, 50, OldEnd(), 9, 4) ==
            Write(BidK(4), BidR(NewBid()), Write(AuctionK(3), AuctionR(NewEnd()), Commit))
  {
  }

  function Paid(): Tables {
    Put(Put(NoRows, WalletK(2), WalletR(Wallet(100, 50))), LedgerK(0), LedgerR(NewEntry()))
  }

  function Saved(): Tables { Put(Put(Paid(), BidK(4), BidR(NewBid())), AuctionK(3), AuctionR(NewEnd())) }

  lemma PaidOverlaid(store: Tables)
    ensures Overlay(store, Paid()) ==
            store.(wallets := store.wallets[2 := Wallet(100, 50)], ledger := store.ledger[0 := NewEntry()])
  {
    Alone.OverlayNothing(store);
    OverlayPut(store, NoRows, WalletK(2), WalletR(Wallet(100, 50)));
    OverlayPut(store, Put(NoRows, WalletK(2), WalletR(Wallet(100, 50))), LedgerK(0), LedgerR(NewEntry()));
  }

  lemma SavedIsBidOn(store: Tables)
    ensures Overlay(store, Saved()) == WithBid(store)
  {
    PaidOverlaid(store);
    OverlayPut(store, Paid(), BidK(4), BidR(NewBid()));
    OverlayPut(store, Put(Paid(), BidK(4), BidR(NewBid())), AuctionK(3), AuctionR(NewEnd()));
  }

  // ---- The execution ----

  function Ahead(ledger: nat, bids: nat): Ids { Ids(8, 0, 4, bids, ledger) }

  /** What the example needs of the tables it starts from: auction 3 and guild 2's wallet. */
  predicate Ready(store: Tables) {
    && 3 in store.auctions && store.auctions[3] == OldEnd()
    && 2 in store.wallets && store.wallets[2] == Wallet(100, 0)
  }

  /** Up to the scan, at clock 10: the bid holds the auction's lock and has read the clock at 9. */
  lemma UntilScan(store: Tables) returns (states: seq<State>, acts: seq<Action>, l: Local)
    requires Ready(store)
    ensures Execution(WORLD.cfg, states, acts) && |acts| == 4
    ensures states[0] == State(store, 9, Ahead(0, 4), map[])
    ensures Only(states[4], store, 10, Ahead(0, 4), 1, BID, l, 9) && AuctionK(3) in l.scope.locks
    ensures l.prog == Move(2, Reserved, 50, BidRef(3), Held()) && l.buf == NoRows
  {
    states, acts := [State(store, 9, Ahead(0, 4), map[])], [];
    states, acts := Begins(states, acts, 1, BID);
    var l0 := Start(ProgOf(WORLD.cfg, BID));
    LocksAuction(l0, store, l0.prog.next);
    states, acts := Does(states, acts, store, 9, Ahead(0, 4), 1, BID, l0, 9, 0);
    var l1 := Next(l0, store, 0);
    BidStarts(store, l1);
    states, acts := Does(states, acts, store, 9, Ahead(0, 4), 1, BID, l1, 9, 9);
    l := Next(l1, store, 9);
    states, acts := Ticks(states, acts, store, 9, Ahead(0, 4), 1, BID, l, 9, 10);
  }

  /** The bid locks the wallet and saves it. */
  lemma BidPays(store: Tables, states: seq<State>, acts: seq<Action>, l: Local)
    returns (longer: seq<State>, all: seq<Action>, l': Local)
    requires Ready(store) && Execution(WORLD.cfg, states, acts)
    requires Only(states[|acts|], store, 10, Ahead(0, 4), 1, BID, l, 9)
    requires l.prog == Move(2, Reserved, 50, BidRef(3), Held()) && l.buf == NoRows
    ensures Execution(WORLD.cfg, longer, all) && |all| == |acts| + 2 && Prolongs(states, longer)
    ensures Only(longer[|all|], store, 10, Ahead(0, 4), 1, BID, l', 9)
    ensures l'.prog == NewId(LedgerIds, Record()) && l'.buf == Put(NoRows, WalletK(2), WalletR(Wallet(100, 50)))
  {
    LocksWallet(l, store);
    longer, all := Does(states, acts, store, 10, Ahead(0, 4), 1, BID, l, 9, 0);
    var l3 := Next(l, store, 0);
    Writes(l3, store, WalletK(2), WalletR(Wallet(100, 50)), NewId(LedgerIds, Record()));
    longer, all := Does(longer, all, store, 10, Ahead(0, 4), 1, BID, l3, 9, 0);
    l' := Next(l3, store, 0);
  }

  /** The bid records its reserve in the ledger. */
  lemma BidBooks(store: Tables, states: seq<State>, acts: seq<Action>, l: Local)
    returns (longer: seq<State>, all: seq<Action>, l': Local)
    requires Execution(WORLD.cfg, states, acts) && Only(states[|acts|], store, 10, Ahead(0, 4), 1, BID, l, 9)
    requires l.prog == NewId(LedgerIds, Record()) && l.buf == Put(NoRows, WalletK(2), WalletR(Wallet(100, 50)))
    ensures Execution(WORLD.cfg, longer, all) && |all| == |acts| + 2 && Prolongs(states, longer)
    ensures Only(longer[|all|], store, 10, Ahead(1, 4), 1, BID, l', 9) && l'.prog == Held() && l'.buf == Paid()
  {
    Numbers(l, store, LedgerIds, Record(), 0);
    longer, all := Does(states, acts, store, 10, Ahead(0, 4), 1, BID, l, 9, 0);
    var l5 := Next(l, store, 0);
    Writes(l5, store, LedgerK(0), LedgerR(NewEntry()), Held());
    longer, all := Does(longer, all, store, 10, Ahead(1, 4), 1, BID, l5, 9, 0);
    l' := Next(l5, store, 0);
  }

  /** The bid is recorded and commits. */
  lemma BidCommits(store: Tables, states: seq<State>, acts: seq<Action>, l: Local)
    returns (longer: seq<State>, all: seq<Action>)
    requires Execution(WORLD.cfg, states, acts) && Only(states[|acts|], store, 10, Ahead(1, 4), 1, BID, l, 9)
    requires l.prog == Held() && l.buf == Paid()
    ensures Execution(WORLD.cfg, longer, all) && |all| == |acts| + 4 && Prolongs(states, longer)
    ensures longer[|all|] == State(WithBid(store), 10, Ahead(1, 5), map[])
  {
    HeldNumbers();
    var save := Write(AuctionK(3), AuctionR(NewEnd()), Commit);
    Numbers(l, store, BidIds, Held().with, 4);
    longer, all := Does(states, acts, store, 10, Ahead(1, 4), 1, BID, l, 9, 4);
    var l7 := Next(l, store, 4);
    Writes(l7, store, BidK(4), BidR(NewBid()), save);
    longer, all := Does(longer, all, store, 10, Ahead(1, 5), 1, BID, l7, 9, 0);
    var l8 := Next(l7, store, 0);
    Writes(l8, store, AuctionK(3), AuctionR(NewEnd()), Commit);
    longer, all := Does(longer, all, store, 10, Ahead(1, 5), 1, BID, l8, 9, 0);
    SavedIsBidOn(store);
    longer, all := Finishes(longer, all, store, 10, Ahead(1, 5), 1, BID, Next(l8, store, 0), 9);
  }

  /** The settlement begins after the scan, reads the clock at 11, and has nothing to do. */
  lemma SettlementCommits(store: Tables, states: seq<State>, acts: seq<Action>)
    returns (longer: seq<State>, all: seq<Action>)
    requires Execution(WORLD.cfg, states, acts) && states[|acts|] == State(store, 10, Ahead(1, 5), map[])
    requires 3 in store.auctions && store.auctions[3] == NewEnd()
    ensures Execution(WORLD.cfg, longer, all) && |all| == |acts| + 5 && Prolongs(states, longer)
    ensures all[|acts| + 4] == Finish(2)
    ensures var last := longer[|acts| + 4]; 2 in last.txns && last.txns[2].req == SETTLE && last.txns[2].since == 10
    ensures longer[|all|] == State(store, 11, Ahead(1, 5), map[])
  {
    longer, all := Begins(states, acts, 2, SETTLE);
    var l0 := Start(ProgOf(WORLD.cfg, SETTLE));
    longer, all := Ticks(longer, all, store, 10, Ahead(1, 5), 2, SETTLE, l0, 10, 11);
    LocksAuction(l0, store, l0.prog.next);
    longer, all := Does(longer, all, store, 11, Ahead(1, 5), 2, SETTLE, l0, 10, 0);
    var l1 := Next(l0, store, 0);
    longer, all := Does(longer, all, store, 11, Ahead(1, 5), 2, SETTLE, l1, 10, 11);
    Alone.OverlayNothing(store);
    longer, all := Finishes(longer, all, store, 11, Ahead(1, 5), 2, SETTLE, Next(l1, store, 11), 10);
  }

  lemma StartAhead()
    ensures Issued(Opened(), Ahead(0, 4)) && Clocked(Opened(), 9)
  {
    forall q, id: nat | Find(Opened(), KeyOf(q, id)).Some? ensures id < Counter(Ahead(0, 4), q) { }
  }

  lemma StartSane()
    ensures Sane(WORLD, State(Opened(), 9, Ahead(0, 4), map[]))
  {
    OpenedHolds();
    StartAhead();
    Serializability.IdleSane(WORLD, State(Opened(), 9, Ahead(0, 4), map[]));
  }

  /**
   * The promise that a scan's auctions all get settled fails for a bid in flight. It reads the clock at 9 under the
   * auction's lock; the scan at clock 10 still sees the old end and lists the auction; the bid commits and moves the
   * end to 14; a settlement that begins after the scan reads 11 and commits without an error; and the auction is
   * still active.
   */
  lemma InFlightBidReopens() returns (states: seq<State>, acts: seq<Action>)
    ensures Execution(WORLD.cfg, states, acts) && |acts| == 17 && Sane(WORLD, states[0])
    ensures 3 in states[4].store.auctions && Due(states[4].store.auctions[3], states[4].clock)
    ensures !Scans.Unlocked(states[4], AuctionK(3))
    ensures acts[16] == Finish(2) && 2 in states[16].txns && states[16].txns[2].req == SETTLE
    ensures states[4].clock <= states[16].txns[2].since
    ensures 3 in states[17].store.auctions && states[17].store.auctions[3].status == Active
  {
    StartSane();
    var s1, a1, l := UntilScan(Opened());
    var s2, a2, l2 := BidPays(Opened(), s1, a1, l);
    var s3, a3, l3 := BidBooks(Opened(), s2, a2, l2);
    var s4, a4 := BidCommits(Opened(), s3, a3, l3);
    states, acts := SettlementCommits(WithBid(Opened()), s4, a4);
    assert states[4] == s4[4] == s3[4] == s2[4] == s1[4] && states[0] == s4[0] == s3[0] == s2[0] == s1[0];
  }
}
