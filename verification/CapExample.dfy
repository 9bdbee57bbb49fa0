/** A listing priced so high that the day's sum wraps around: the cap check passes, and the debit refuses. */
module CapExample {
  import opened Model
  import opened Transitions
  import opened Invariants
  import opened Words
  import opened Int64Range

  const WORLD: World := World(Config(1, 1), map[1 := 100, 2 := 100])

  const CHEAP: Listing := Listing(7, 1, 1, Open, None)
  const DEAR: Listing := Listing(7, 1, TWO_63 - 1, Open, None)

  /** Guild 1 owns two units of an item; guild 2 may spend 10 a day. */
  function Seeded(): Tables {
    Tables(map[1 := 0, 2 := 10], map[1 := Wallet(100, 0), 2 := Wallet(100, 0)], map[],
           map[7 := Item("ore", Common, 1, Available, 2)], map[], map[], map[], map[])
  }

  function Offered(): Tables { Seeded().(listings := map[3 := CHEAP, 4 := DEAR]) }

  /** Guild 2 has bought the first listing. */
  function Bought(): Tables {
    Tables(map[1 := 0, 2 := 10], map[1 := Wallet(101, 0), 2 := Wallet(99, 0)],
           map[0 := Entry(2, Debited, 1, ListingRef(3)), 1 := Entry(1, Credited, 1, ListingRef(3))],
           map[7 := Item("ore", Common, 1, Available, 1), 8 := Item("ore", Common, 2, Available, 1)],
           map[3 := CHEAP.(status := ListingSold, buyer := Some(2)), 4 := DEAR], map[], map[], map[(2, 0) := 1])
  }

  const LIST_CHEAP: Event := Event(Request.CreateListing(1, 7, 1), Env(0, 0, 3, 0, 1))
  const LIST_DEAR: Event := Event(Request.CreateListing(1, 7, TWO_63 - 1), Env(0, 0, 4, 0, 1))
  const BUY_CHEAP: Event := Event(Request.Buy(2, 3), Env(0, 0, 8, 0, 1))

  lemma OneMore(db: Tables, run: seq<Event>, ev: Event)
    requires Legal(WORLD.cfg, db, run) && EnvOk(After(WORLD.cfg, db, run), ev.req, ev.env)
    ensures Legal(WORLD.cfg, db, run + [ev])
    ensures After(WORLD.cfg, db, run + [ev]) == Step(WORLD.cfg, After(WORLD.cfg, db, run), ev)
  {
    assert (run + [ev])[..|run|] == run;
  }

  lemma Offers()
    ensures Step(WORLD.cfg, Step(WORLD.cfg, Seeded(), LIST_CHEAP), LIST_DEAR) == Offered()
    ensures Step(WORLD.cfg, Seeded(), LIST_CHEAP).listings == map[3 := CHEAP]
  {
  }

  lemma Buys()
    ensures Step(WORLD.cfg, Offered(), BUY_CHEAP) == Bought()
    ensures EnvOk(Offered(), BUY_CHEAP.req, BUY_CHEAP.env)
  {
  }

  /** Guild 2 has bought the first listing. */
  lemma Reaches() returns (run: seq<Event>)
    ensures Legal(WORLD.cfg, Seeded(), run) && After(WORLD.cfg, Seeded(), run) == Bought()
  {
    Offers();
    Buys();
    OneMore(Seeded(), [], LIST_CHEAP);
    OneMore(Seeded(), [LIST_CHEAP], LIST_DEAR);
    OneMore(Seeded(), [LIST_CHEAP] + [LIST_DEAR], BUY_CHEAP);
    run := [LIST_CHEAP] + [LIST_DEAR] + [BUY_CHEAP];
  }

  lemma Refused()
    ensures Apply(Bought(), WORLD.cfg, Request.Buy(2, 4), Env(0, 0, 9, 2, 3)) == Err(DailyCapExceeded)
    ensures Apply64(Bought(), WORLD.cfg, Request.Buy(2, 4), Env(0, 0, 9, 2, 3)) == Err(InsufficientFunds)
  {
    WrapSame(1 + (TWO_63 - 1));
  }

  lemma Starts()
    ensures Init(WORLD, Seeded()) && Small(WORLD)
  {
  }

  lemma Suits()
    ensures Stored(Bought()) && EnvOk(Bought(), Request.Buy(2, 4), Env(0, 0, 9, 2, 3))
  {
  }

  /** In a reachable state, a purchase that unbounded integers refuse for the cap is refused for lack of funds. */
  lemma CapWraps() returns (run: seq<Event>, db: Tables, env: Env)
    ensures Init(WORLD, Seeded()) && Legal(WORLD.cfg, Seeded(), run) && db == After(WORLD.cfg, Seeded(), run)
    ensures Small(WORLD) && Stored(db) && EnvOk(db, Request.Buy(2, 4), env)
    ensures Apply(db, WORLD.cfg, Request.Buy(2, 4), env) == Err(DailyCapExceeded)
    ensures Apply64(db, WORLD.cfg, Request.Buy(2, 4), env) == Err(InsufficientFunds)
  {
    run := Reaches();
    db, env := Bought(), Env(0, 0, 9, 2, 3);
    Starts();
    Suits();
    Refused();
  }
}
