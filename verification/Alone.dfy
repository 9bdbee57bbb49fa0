/** A transaction that runs alone does to the tables exactly what its pure transition says. */
module Alone {
  import opened Model
  import opened Rules
  import opened Wallets
  import opened Transitions
  import opened Invariants
  import opened Programs
  import opened Locking

  /** From the rows `view`, with inputs `xs`, program p ends in scope `fin`, with Ok(rows) or Err(error). */
  ghost predicate Ends(store: Tables, p: Prog, view: Tables, s: Scope, xs: seq<nat>, out: Result<Tables>, fin: Scope)
    decreases |xs|
  {
    match p
    case Commit => out == Ok(view) && fin == s
    case Abort(e) => out == Err(e) && fin == s
    case Lock(k, next) =>
      xs != [] && Ends(store, next(Find(view, k)), view, Granted(s, k, Find(view, k)), xs[1..], out, fin)
    case Read(k, next) =>
      xs != [] && Ends(store, next(Find(view, k)), view, Seen(s, k, Find(view, k)), xs[1..], out, fin)
    case Write(k, row, rest) => xs != [] && Ends(store, rest, Put(view, k, row), s, xs[1..], out, fin)
    case Now(at) => xs != [] && TimeOk(store, s, xs[0]) &&
        Ends(store, at(xs[0]), view, Told(s, xs[0]), xs[1..], out, fin)
    case NewId(ids, with) =>
      && xs != [] && IdOk(store, s, ids, xs[0])
      && Ends(store, with(xs[0]), view, s.(owned := s.owned + {KeyOf(ids, xs[0])}), xs[1..], out, fin)
  }

  lemma {:induction false} EndsGrow(store: Tables, p: Prog, view: Tables, s: Scope, xs: seq<nat>, out: Result<Tables>,
      fin: Scope)
    requires Ends(store, p, view, s, xs, out, fin)
    ensures s.times <= fin.times && s.owned <= fin.owned
    decreases |xs|
  {
    match p
    case Commit =>
    case Abort(_) =>
    case Lock(k, next) => EndsGrow(store, next(Find(view, k)), view, Granted(s, k, Find(view, k)), xs[1..], out, fin);
    case Read(k, next) => EndsGrow(store, next(Find(view, k)), view, Seen(s, k, Find(view, k)), xs[1..], out, fin);
    case Write(k, row, rest) => EndsGrow(store, rest, Put(view, k, row), s, xs[1..], out, fin);
    case Now(at) => EndsGrow(store, at(xs[0]), view, Told(s, xs[0]), xs[1..], out, fin);
    case NewId(ids, with) =>
      EndsGrow(store, with(xs[0]), view, s.(owned := s.owned + {KeyOf(ids, xs[0])}), xs[1..], out, fin);
  }

  // ---- What a transaction drew ----

  /** The readings of env that the request uses are among those drawn. */
  ghost predicate TimesDrawn(db: Tables, req: Request, env: Env, times: set<nat>) {
    match req
    case Buy(_, _) => env.t0 in times && env.t1 in times
    case CreateAuction(_, _) => env.t0 in times
    case PlaceBid(_, _, _) => env.t0 in times
    case Settle(a) =>
      a in db.auctions && db.auctions[a].status == Active ==>
        env.t0 in times && (Due(db.auctions[a], env.t0) ==> env.t1 in times)
    case _ => true
  }

  /** The ids of env that the request uses are among those drawn. */
  ghost predicate IdsDrawn(db: Tables, req: Request, env: Env, owned: set<Key>) {
    && (forall i :: i in NewItems(req, env) ==> ItemK(i) in owned)
    && (forall l :: l in NewListings(req, env) ==> ListingK(l) in owned)
    && (forall a :: a in NewAuctions(req, env) ==> AuctionK(a) in owned)
    && (forall b :: b in NewBids(req, env) ==> BidK(b) in owned)
    && (forall e :: e in NewEntries(db, req, env) ==> LedgerK(e) in owned)
  }

  /** A successful request's readings and ids suit the tables, and are those its transaction drew. */
  ghost predicate Drawn(db: Tables, req: Request, env: Env, fin: Scope) {
    EnvOk(db, req, env) && TimesDrawn(db, req, env, fin.times) && IdsDrawn(db, req, env, fin.owned)
  }

  predicate Ended(p: Prog) { p.Commit? || p.Abort? }

  /** What a transaction that has ended returned. */
  function OutcomeOf(l: Local, store: Tables): Result<Tables>
    requires Ended(l.prog)
  {
    if l.prog.Commit? then Ok(View(l, store)) else Err(l.prog.error)
  }

  lemma {:induction false} EndsOf(l: Local, store: Tables, hist: seq<nat>, i: nat)
    requires i <= |hist| && Sound(l, store, hist, i) && Ended(Forward(l, store, hist, i).prog)
    ensures Ends(store, l.prog, View(l, store), l.scope, hist[i..], OutcomeOf(Forward(l, store, hist, i), store),
                 Forward(l, store, hist, i).scope)
    decreases |hist| - i
  {
    if i < |hist| {
      var n := Next(l, store, hist[i]);
      EndsOf(n, store, hist, i + 1);
      assert hist[i..][1..] == hist[i + 1..];
      if l.prog.Write? {
        OverlayPut(store, l.buf, l.prog.k, l.prog.row);
      }
      if Ended(l.prog) {
        EndStays(l, store, hist, i);
      }
    }
  }

  lemma StartEnds(p: Prog, store: Tables, hist: seq<nat>)
    requires Sound(Start(p), store, hist, 0) && Ended(Forward(Start(p), store, hist, 0).prog)
    ensures Ends(store, p, store, NoScope, hist, OutcomeOf(Forward(Start(p), store, hist, 0), store),
                 Forward(Start(p), store, hist, 0).scope)
  {
    EndsOf(Start(p), store, hist, 0);
    OverlayNothing(store);
    assert hist[0..] == hist;
  }

  lemma AddNothing<K, V>(m: map<K, V>)
    ensures m + map[] == m
  {
  }

  lemma OverlayNothing(store: Tables)
    ensures Overlay(store, NoRows) == store
  {
    AddNothing(store.guilds);
    AddNothing(store.wallets);
    AddNothing(store.ledger);
    AddNothing(store.items);
    AddNothing(store.listings);
    AddNothing(store.auctions);
    AddNothing(store.bids);
    AddNothing(store.daily);
  }

  lemma {:induction false} EndStays(l: Local, store: Tables, hist: seq<nat>, i: nat)
    requires Ended(l.prog)
    ensures Forward(l, store, hist, i) == l
    decreases |hist| - i
  {
    if i < |hist| {
      EndStays(l, store, hist, i + 1);
    }
  }

  // ---- Money movements ----

  /** A movement ends the transaction with the wallet operation's error, or goes on with what the operation leaves. */
  lemma MoveEnds(store: Tables, g: nat, kind: EntryKind, amount: int, ref: Ref, rest: Prog, view: Tables, s: Scope,
      xs: seq<nat>, out: Result<Tables>, fin: Scope) returns (e: nat)
    requires Ends(store, Move(g, kind, amount, ref, rest), view, s, xs, out, fin)
    ensures TxOf(view, g, kind, amount, ref, e).Err? ==> out == Err(TxOf(view, g, kind, amount, ref, e).error)
    ensures TxOf(view, g, kind, amount, ref, e).Ok? ==>
              && |xs| >= 4 && IdOk(store, s.(locks := s.locks + {WalletK(g)}), LedgerIds, e) && LedgerK(e) in fin.owned
              && Ends(store, rest, TxOf(view, g, kind, amount, ref, e).value, Moved(s, g, e), xs[4..], out, fin)
  {
    var s1 := Granted(s, WalletK(g), Find(view, WalletK(g)));
    var r := Find(view, WalletK(g));
    assert Ends(store, MoveLocked(g, kind, amount, ref, rest, r), view, s1, xs[1..], out, fin);
    e := 0;
    ChangeIsTx(view, g, kind, amount, ref, e);
    if g in view.wallets && Change(kind, ref, view.wallets[g], amount).Ok? {
      e := MoveRecorded(store, g, kind, amount, ref, rest, view, s, s1, xs, out, fin);
      ChangeIsTx(view, g, kind, amount, ref, e);
    }
  }

  lemma MoveRecorded(store: Tables, g: nat, kind: EntryKind, amount: int, ref: Ref, rest: Prog, view: Tables, s: Scope,
      s1: Scope, xs: seq<nat>, out: Result<Tables>, fin: Scope) returns (e: nat)
    requires xs != [] && g in view.wallets && Change(kind, ref, view.wallets[g], amount).Ok?
    requires s1 == s.(locks := s.locks + {WalletK(g)})
    requires Ends(store, MoveLocked(g, kind, amount, ref, rest, Some(WalletR(view.wallets[g]))), view, s1, xs[1..], out,
                  fin)
    ensures |xs| >= 4 && IdOk(store, s1, LedgerIds, e) && LedgerK(e) in fin.owned
    ensures var w := Change(kind, ref, view.wallets[g], amount).value;
            Ends(store, rest, Record(view, g, w, kind, amount, ref, e), Moved(s, g, e), xs[4..], out, fin)
  {
    var w := Change(kind, ref, view.wallets[g], amount).value;
    var record := (e: nat) => Write(LedgerK(e), LedgerR(Entry(g, kind, amount, ref)), rest);
    var v1 := Put(view, WalletK(g), WalletR(w));
    assert Ends(store, NewId(LedgerIds, record), v1, s1, xs[1..][1..], out, fin);
    e := xs[1..][1..][0];
    assert Ends(store, record(e), v1, Moved(s, g, e), xs[1..][1..][1..], out, fin);
    assert Ends(store, rest, Put(v1, LedgerK(e), LedgerR(Entry(g, kind, amount, ref))), Moved(s, g, e),
                xs[1..][1..][1..][1..], out, fin);
    assert xs[1..][1..][1..][1..] == xs[4..];
    EndsGrow(store, record(e), v1, Moved(s, g, e), xs[1..][1..][1..], out, fin);
  }

  lemma IdFresh(store: Tables, s: Scope, g: nat, e: nat)
    requires IdOk(store, s.(locks := s.locks + {WalletK(g)}), LedgerIds, e)
    ensures EntryFresh(store.ledger, g, e)
  {
    assert Find(store, LedgerK(e)).None?;
  }

  const NO_DRAWS: Env := Env(0, 0, 0, 0, 1)

  // ---- Creating items, listings and auctions ----

  lemma LastWrite(store: Tables, k: Key, row: Row, view: Tables, s: Scope, xs: seq<nat>, out: Result<Tables>,
      fin: Scope)
    requires Ends(store, Write(k, row, Commit), view, s, xs, out, fin)
    ensures out == Ok(Put(view, k, row)) && fin == s
  {
    assert Ends(store, Commit, Put(view, k, row), s, xs[1..], out, fin);
  }

  lemma ItemAlone(db: Tables, owner: nat, name: string, tier: Option<Tier>, stock: int, xs: seq<nat>,
      out: Result<Tables>, fin: Scope) returns (env: Env)
    requires Ends(db, ItemProg(owner, name, tier, stock), db, NoScope, xs, out, fin)
    ensures Transitions.CreateItem(db, owner, name, tier, stock, env) == out
    ensures out.Ok? ==> Drawn(db, Request.CreateItem(owner, name, tier, stock), env, fin)
  {
    env := NO_DRAWS;
    if name != "" && tier.Some? && (tier == Some(Legendary) || stock >= 1) && owner in db.guilds {
      var it := Item(name, tier.value, owner, Available, if tier == Some(Legendary) then 1 else stock);
      var fill := (i: nat) => Write(ItemK(i), ItemR(it), Commit);
      assert Ends(db, NewId(ItemIds, fill), db, NoScope, xs[1..], out, fin);
      var i := xs[1..][0];
      env := env.(row := i);
      assert Find(db, ItemK(i)).None?;
      LastWrite(db, ItemK(i), ItemR(it), db, NoScope.(owned := NoScope.owned + {ItemK(i)}), xs[1..][1..], out, fin);
    }
  }

  lemma ListingAlone(db: Tables, seller: nat, item: nat, price: int, xs: seq<nat>, out: Result<Tables>, fin: Scope)
    returns (env: Env)
    requires Ends(db, ListingProg(seller, item, price), db, NoScope, xs, out, fin)
    ensures Transitions.CreateListing(db, seller, item, price, env) == out
    ensures out.Ok? ==> Drawn(db, Request.CreateListing(seller, item, price), env, fin)
  {
    env := NO_DRAWS;
    if price > 0 {
      var r := Find(db, ItemK(item));
      var s := Granted(NoScope, ItemK(item), r);
      assert Ends(db, ListLocked(seller, item, price, r), db, s, xs[1..], out, fin);
      if r.Some? && r.value.item.owner == seller && r.value.item.tier != Legendary && r.value.item.stock >= 1 {
        var save := (l: nat) => Write(ListingK(l), ListingR(Listing(item, seller, price, Open, None)), Commit);
        assert Ends(db, NewId(ListingIds, save), db, s, xs[1..], out, fin);
        var l := xs[1..][0];
        env := env.(row := l);
        assert Find(db, ListingK(l)).None?;
        LastWrite(db, ListingK(l), ListingR(Listing(item, seller, price, Open, None)), db,
                  s.(owned := s.owned + {ListingK(l)}), xs[1..][1..], out, fin);
      }
    }
  }

  lemma AuctionAlone(db: Tables, cfg: Config, seller: nat, item: nat, xs: seq<nat>, out: Result<Tables>, fin: Scope)
    returns (env: Env)
    requires Ends(db, AuctionProg(cfg, seller, item), db, NoScope, xs, out, fin)
    ensures Transitions.CreateAuction(db, cfg, seller, item, env) == out
    ensures out.Ok? ==> Drawn(db, Request.CreateAuction(seller, item), env, fin)
  {
    var r := Find(db, ItemK(item));
    var s := Granted(NoScope, ItemK(item), r);
    assert Ends(db, OpenLocked(cfg, seller, item, r), db, s, xs[1..], out, fin);
    env := NO_DRAWS;
    if r.Some? {
      var it := r.value.item;
      if it.owner == seller && it.tier == Legendary && it.status == Available {
        var t0, a := OpenEnds(db, cfg, seller, item, s, xs[1..], out, fin);
        env := Env(t0, t0, a, 0, 1);
      }
    }
  }

  lemma OpenEnds(db: Tables, cfg: Config, seller: nat, item: nat, s: Scope, xs: seq<nat>, out: Result<Tables>,
      fin: Scope) returns (t0: nat, a: nat)
    requires item in db.items
    requires var it := db.items[item]; it.owner == seller && it.tier == Legendary && it.status == Available
    requires Ends(db, OpenLocked(cfg, seller, item, Some(ItemR(db.items[item]))), db, s, xs, out, fin)
    ensures a !in db.auctions && t0 in fin.times && AuctionK(a) in fin.owned
    ensures out == Ok(db.(auctions :=
                            db.auctions[a := Auction(item, seller, Active, t0, t0 + cfg.window, None, None, t0)],
                          items := db.items[item := db.items[item].(status := InAuction)]))
  {
    var it := db.items[item];
    t0 := xs[0];
    var number := (a: nat) => OpenSave(cfg, seller, item, it, t0, a);
    assert Ends(db, NewId(AuctionIds, number), db, Told(s, t0), xs[1..], out, fin);
    a := xs[1..][0];
    assert Find(db, AuctionK(a)).None?;
    OpenSaved(db, cfg, seller, item, it, t0, a, Told(s, t0).(owned := s.owned + {AuctionK(a)}), xs[1..][1..], out, fin);
  }

  lemma OpenSaved(db: Tables, cfg: Config, seller: nat, item: nat, it: Item, t0: nat, a: nat, s: Scope, xs: seq<nat>,
      out: Result<Tables>, fin: Scope)
    requires Ends(db, OpenSave(cfg, seller, item, it, t0, a), db, s, xs, out, fin)
    ensures fin == s
    ensures out == Ok(db.(auctions :=
                            db.auctions[a := Auction(item, seller, Active, t0, t0 + cfg.window, None, None, t0)],
                          items := db.items[item := it.(status := InAuction)]))
  {
    var v := Put(db, AuctionK(a), AuctionR(Auction(item, seller, Active, t0, t0 + cfg.window, None, None, t0)));
    LastWrite(db, ItemK(item), ItemR(it.(status := InAuction)), v, s, xs[1..], out, fin);
  }

  // ---- Buy ----

  lemma BuyLastEnds(store: Tables, buyer: nat, id: nat, l: Listing, t1: nat, view: Tables, s: Scope, xs: seq<nat>,
      out: Result<Tables>, fin: Scope)
    requires Ends(store, BuyLast(buyer, id, l, t1, Find(view, DailyK(buyer, DayOf(t1)))), view, s, xs, out, fin)
    ensures fin == s
    ensures out == Ok(view.(daily := view.daily[(buyer, DayOf(t1)) := DailySpent(view, buyer, DayOf(t1)) + l.price],
                            listings := view.listings[id := l.(status := ListingSold, buyer := Some(buyer))]))
  {
    var k := DailyK(buyer, DayOf(t1));
    var v := Put(view, k, DailyR(Spent(Find(view, k)) + l.price));
    LastWrite(store, ListingK(id), ListingR(l.(status := ListingSold, buyer := Some(buyer))), v, s, xs[1..], out, fin);
  }

  lemma BuyTotalEnds(store: Tables, buyer: nat, id: nat, l: Listing, view: Tables, s: Scope, xs: seq<nat>,
      out: Result<Tables>, fin: Scope) returns (t1: nat)
    requires Ends(store, BuyTotal(buyer, id, l), view, s, xs, out, fin)
    ensures t1 in fin.times && s.owned <= fin.owned
    ensures s.last <= t1
    ensures out == Ok(view.(daily := view.daily[(buyer, DayOf(t1)) := DailySpent(view, buyer, DayOf(t1)) + l.price],
                            listings := view.listings[id := l.(status := ListingSold, buyer := Some(buyer))]))
  {
    t1 := xs[0];
    var k := DailyK(buyer, DayOf(t1));
    var next := r => BuyLast(buyer, id, l, t1, r);
    assert Ends(store, Read(k, next), view, Told(s, t1), xs[1..], out, fin);
    BuyLastEnds(store, buyer, id, l, t1, view, Seen(Told(s, t1), k, Find(view, k)), xs[1..][1..], out, fin);
  }

  lemma BuyPaidEnds(store: Tables, buyer: nat, id: nat, l: Listing, it: Item, view: Tables, s: Scope, xs: seq<nat>,
      out: Result<Tables>, fin: Scope, env: Env) returns (t1: nat, i: nat)
    requires Ends(store, BuyPaid(buyer, id, l, it), view, s, xs, out, fin)
    requires id in view.listings && view.listings[id] == l && l.item in view.items && view.items[l.item] == it
    ensures t1 in fin.times && ItemK(i) in fin.owned
    ensures s.last <= t1 && i !in store.items
    ensures out == Ok(Deliver(view, buyer, id, env.(t1 := t1, row := i)))
  {
    var left := it.(stock := it.stock - 1, status := if it.stock == 1 then Sold else it.status);
    var bought := Item(it.name, it.tier, buyer, Available, 1);
    var grant := (i: nat) => Write(ItemK(i), ItemR(bought), BuyTotal(buyer, id, l));
    var v1 := Put(view, ItemK(l.item), ItemR(left));
    assert Ends(store, NewId(ItemIds, grant), v1, s, xs[1..], out, fin);
    i := xs[1..][0];
    assert Find(store, ItemK(i)).None?;
    var s1 := s.(owned := s.owned + {ItemK(i)});
    assert Ends(store, grant(i), v1, s1, xs[1..][1..], out, fin);
    t1 := BuyTotalEnds(store, buyer, id, l, Put(v1, ItemK(i), ItemR(bought)), s1, xs[1..][1..][1..], out, fin);
  }

  /** A purchase from the daily cap on. */
  function BuyRest(db: Tables, buyer: nat, id: nat, l: Listing, cap: nat, env: Env): Result<Tables>
    requires id in db.listings && db.listings[id].item in db.items
  {
    var spent := DailySpent(db, buyer, DayOf(env.t0));
    :- EnsureWithinDailyCap(cap, spent, l.price);
    var paid :- DebitTx(db, buyer, l.price, ListingRef(id), env.e1);
    var earned :- CreditTx(paid, l.seller, l.price, ListingRef(id), env.e2);
    Ok(Deliver(earned, buyer, id, env))
  }

  ghost predicate BuyDraws(db: Tables, buyer: nat, l: Listing, env: Env, fin: Scope) {
    && env.t0 in fin.times && env.t1 in fin.times
    && ItemK(env.row) in fin.owned && LedgerK(env.e1) in fin.owned && LedgerK(env.e2) in fin.owned
    && env.t0 <= env.t1 && env.e1 < env.e2 && env.row !in db.items
    && EntryFresh(db.ledger, buyer, env.e1) && EntryFresh(db.ledger, l.seller, env.e2)
  }

  lemma BuyCheckedEnds(db: Tables, buyer: nat, id: nat, l: Listing, it: Item, cap: nat, s: Scope, xs: seq<nat>,
      out: Result<Tables>, fin: Scope) returns (env: Env)
    requires id in db.listings && db.listings[id] == l && l.item in db.items && db.items[l.item] == it
    requires Ends(db, BuyChecked(buyer, id, l, it, cap, DailySpent(db, buyer, DayOf(s.last))), db, s, xs, out, fin)
    requires s.last in s.times
    ensures env.t0 == s.last && out == BuyRest(db, buyer, id, l, cap, env) &&
        (out.Ok? ==> BuyDraws(db, buyer, l, env, fin))
  {
    EndsGrow(db, BuyChecked(buyer, id, l, it, cap, DailySpent(db, buyer, DayOf(s.last))), db, s, xs, out, fin);
    env := NO_DRAWS.(t0 := s.last, t1 := s.last);
    if EnsureWithinDailyCap(cap, DailySpent(db, buyer, DayOf(s.last)), l.price).Pass? {
      var ref, rest := ListingRef(id), BuyPaid(buyer, id, l, it);
      var e1 := MoveEnds(db, buyer, Debited, l.price, ref, Move(l.seller, Credited, l.price, ref, rest), db, s, xs, out,
                         fin);
      env := env.(e1 := e1, e2 := e1 + 1);
      if DebitTx(db, buyer, l.price, ref, e1).Ok? {
        IdFresh(db, s, buyer, e1);
        var v1, s1 := DebitTx(db, buyer, l.price, ref, e1).value, Moved(s, buyer, e1);
        var e2 := MoveEnds(db, l.seller, Credited, l.price, ref, rest, v1, s1, xs[4..], out, fin);
        env := env.(e2 := e2);
        if CreditTx(v1, l.seller, l.price, ref, e2).Ok? {
          IdFresh(db, s1, l.seller, e2);
          assert LedgerK(e1) in s1.owned;
          var v2 := CreditTx(v1, l.seller, l.price, ref, e2).value;
          var t1, i := BuyPaidEnds(db, buyer, id, l, it, v2, Moved(s1, l.seller, e2), xs[4..][4..], out, fin, env);
          env := env.(t1 := t1, row := i);
        }
      }
    }
  }

  lemma BuyGuildEnds(db: Tables, buyer: nat, id: nat, l: Listing, it: Item, s: Scope, xs: seq<nat>, out: Result<Tables>,
      fin: Scope) returns (env: Env)
    requires id in db.listings && db.listings[id] == l && l.item in db.items && db.items[l.item] == it
    requires Ends(db, BuyGuild(buyer, id, l, it, Find(db, GuildK(buyer))), db, s, xs, out, fin)
    ensures if buyer !in db.guilds then out == Err(NotFound)
            else out == BuyRest(db, buyer, id, l, db.guilds[buyer], env)
    ensures out.Ok? ==> BuyDraws(db, buyer, l, env, fin) && TimeOk(db, s, env.t0)
  {
    env := NO_DRAWS;
    if buyer in db.guilds {
      var cap, t0 := db.guilds[buyer], xs[0];
      var k := DailyK(buyer, DayOf(t0));
      var next := r => BuyChecked(buyer, id, l, it, cap, Spent(r));
      assert Ends(db, Read(k, next), db, Told(s, t0), xs[1..], out, fin);
      assert Spent(Find(db, k)) == DailySpent(db, buyer, DayOf(t0));
      env := BuyCheckedEnds(db, buyer, id, l, it, cap, Told(s, t0), xs[1..][1..], out, fin);
    }
  }

  lemma BuyItemEnds(db: Tables, buyer: nat, id: nat, l: Listing, s: Scope, xs: seq<nat>, out: Result<Tables>,
      fin: Scope) returns (env: Env)
    requires id in db.listings && db.listings[id] == l
    requires Ends(db, BuyItem(buyer, id, l, Find(db, ItemK(l.item))), db, s, xs, out, fin)
    ensures if l.item !in db.items then out == Err(NotFound)
            else if db.items[l.item].stock < 1 then out == Err(OutOfStock)
            else if buyer !in db.wallets then out == Err(WalletMissing)
            else if buyer !in db.guilds then out == Err(NotFound)
            else out == BuyRest(db, buyer, id, l, db.guilds[buyer], env)
    ensures out.Ok? ==> BuyDraws(db, buyer, l, env, fin) && TimeOk(db, s.(locks := s.locks + {WalletK(buyer)}), env.t0)
  {
    env := NO_DRAWS;
    if l.item in db.items && db.items[l.item].stock >= 1 {
      var it, r := db.items[l.item], Find(db, WalletK(buyer));
      var s1 := s.(locks := s.locks + {WalletK(buyer)});
      assert Ends(db, BuyWallet(buyer, id, l, it, r), db, Granted(s, WalletK(buyer), r), xs[1..], out, fin);
      if buyer in db.wallets {
        var next := r => BuyGuild(buyer, id, l, it, r);
        assert Ends(db, Read(GuildK(buyer), next), db, s1, xs[1..], out, fin);
        env := BuyGuildEnds(db, buyer, id, l, it, s1, xs[1..][1..], out, fin);
      }
    }
  }

  lemma BuyAlone(db: Tables, buyer: nat, id: nat, xs: seq<nat>, out: Result<Tables>, fin: Scope) returns (env: Env)
    requires Ends(db, BuyProg(buyer, id), db, NoScope, xs, out, fin)
    ensures Transitions.Buy(db, buyer, id, env) == out
    ensures out.Ok? ==> Drawn(db, Request.Buy(buyer, id), env, fin)
  {
    var r := Find(db, ListingK(id));
    var s1 := Granted(NoScope, ListingK(id), r);
    assert Ends(db, BuyListed(buyer, id, r), db, s1, xs[1..], out, fin);
    env := NO_DRAWS;
    if r.Some? && r.value.listing.status == Open && r.value.listing.seller != buyer {
      var l := db.listings[id];
      var s2 := Granted(s1, ItemK(l.item), Find(db, ItemK(l.item)));
      assert Ends(db, BuyItem(buyer, id, l, Find(db, ItemK(l.item))), db, s2, xs[1..][1..], out, fin);
      env := BuyItemEnds(db, buyer, id, l, s2, xs[1..][1..], out, fin);
      assert forall d :: (buyer, d) in db.daily ==> WalletK((buyer, d).0) in s2.locks + {WalletK(buyer)};
    }
  }

  // ---- PlaceBid ----

  /** What recording a bid does to the rows, after the money has moved. */
  function BidRecorded(cfg: Config, freed: Tables, a: nat, bidder: nat, amount: int, auc: Auction, t0: nat,
      b: nat): Result<Tables> {
    var end := MaybeExtend(t0, auc.endsAt, cfg.extension, cfg.extension).0;
    Ok(freed.(bids := freed.bids[b := Bid(a, bidder, amount, Leading, t0)],
              auctions := freed.auctions[a := auc.(highest := Some(b), endsAt := end, updatedAt := t0)]))
  }

  lemma BidSaveEnds(store: Tables, cfg: Config, a: nat, bidder: nat, amount: int, auc: Auction, t0: nat, view: Tables,
      s: Scope, xs: seq<nat>, out: Result<Tables>, fin: Scope) returns (b: nat)
    requires Ends(store, BidSave(cfg, a, bidder, amount, auc, t0), view, s, xs, out, fin) && AuctionK(a) in s.locks
    ensures RowFresh(store, a, b) && BidK(b) in fin.owned
    ensures out == BidRecorded(cfg, view, a, bidder, amount, auc, t0, b)
  {
    b := xs[0];
    var s1 := s.(owned := s.owned + {BidK(b)});
    assert Ends(store, BidLast(cfg, a, bidder, amount, auc, t0, b), view, s1, xs[1..], out, fin);
    var end := MaybeExtend(t0, auc.endsAt, cfg.extension, cfg.extension).0;
    var v := Put(view, BidK(b), BidR(Bid(a, bidder, amount, Leading, t0)));
    LastWrite(store, AuctionK(a), AuctionR(auc.(highest := Some(b), endsAt := end, updatedAt := t0)), v, s1,
              xs[1..][1..], out, fin);
    RowIsFresh(store, s, a, b);
  }

  lemma RowIsFresh(store: Tables, s: Scope, a: nat, b: nat)
    requires IdOk(store, s, BidIds, b) && AuctionK(a) in s.locks
    ensures RowFresh(store, a, b)
  {
    assert Find(store, BidK(b)).None?;
  }

  /** A bid from its money movements on. */
  function BidRest(db: Tables, cfg: Config, a: nat, bidder: nat, amount: int, auc: Auction, env: Env): Result<Tables>
    requires auc.highest.Some? ==> auc.highest.value in db.bids
  {
    var freed :- HoldFor(db, a, bidder, amount, auc.highest, env);
    BidRecorded(cfg, freed, a, bidder, amount, auc, env.t0, env.row)
  }

  ghost predicate BidDraws(db: Tables, a: nat, bidder: nat, auc: Auction, env: Env, fin: Scope) {
    && env.t0 == env.t1 && env.e1 < env.e2 && RowFresh(db, a, env.row) && EntryFresh(db.ledger, bidder, env.e1)
    && BidK(env.row) in fin.owned && LedgerK(env.e1) in fin.owned
    && (auc.highest.Some? && auc.highest.value in db.bids ==>
          EntryFresh(db.ledger, db.bids[auc.highest.value].bidder, env.e2) && LedgerK(env.e2) in fin.owned)
  }

  lemma BidMarkEnds(db: Tables, cfg: Config, a: nat, bidder: nat, amount: int, auc: Auction, t0: nat, prev: Bid,
      h: nat, view: Tables, s: Scope, xs: seq<nat>, out: Result<Tables>, fin: Scope) returns (b: nat)
    requires AuctionK(a) in s.locks
    requires Ends(db, Write(BidK(h), BidR(prev.(status := Released)), BidSave(cfg, a, bidder, amount, auc, t0)), view,
                  s, xs, out, fin)
    ensures RowFresh(db, a, b) && BidK(b) in fin.owned
    ensures out ==
            BidRecorded(cfg, view.(bids := view.bids[h := prev.(status := Released)]), a, bidder, amount, auc, t0, b)
  {
    var marked := Put(view, BidK(h), BidR(prev.(status := Released)));
    assert Ends(db, BidSave(cfg, a, bidder, amount, auc, t0), marked, s, xs[1..], out, fin);
    b := BidSaveEnds(db, cfg, a, bidder, amount, auc, t0, marked, s, xs[1..], out, fin);
  }

  lemma BidHeldEnds(db: Tables, cfg: Config, a: nat, bidder: nat, amount: int, auc: Auction, t0: nat, prev: Bid,
      e1: nat, view: Tables, s: Scope, xs: seq<nat>, out: Result<Tables>, fin: Scope) returns (e2: nat, b: nat)
    requires Ends(db, BidHeld(cfg, a, bidder, amount, auc, t0, Some(prev)), view, s, xs, out, fin)
    requires auc.highest.Some? && auc.highest.value in view.bids && view.bids[auc.highest.value] == prev
    requires LedgerK(e1) in s.owned && AuctionK(a) in s.locks
    ensures Outbid(view, auc.highest, a, e2).Err? ==> out == Err(Outbid(view, auc.highest, a, e2).error)
    ensures Outbid(view, auc.highest, a, e2).Ok? ==>
              && e1 < e2 && RowFresh(db, a, b) && EntryFresh(db.ledger, prev.bidder, e2)
              && BidK(b) in fin.owned && LedgerK(e2) in fin.owned
              && out == BidRecorded(cfg, Outbid(view, auc.highest, a, e2).value, a, bidder, amount, auc, t0, b)
  {
    var last, h := BidSave(cfg, a, bidder, amount, auc, t0), auc.highest.value;
    var mark := Write(BidK(h), BidR(prev.(status := Released)), last);
    e2 := MoveEnds(db, prev.bidder, Freed, prev.amount, BidRef(a), mark, view, s, xs, out, fin);
    b := 0;
    if ReleaseTx(view, prev.bidder, prev.amount, BidRef(a), e2).Ok? {
      IdFresh(db, s, prev.bidder, e2);
      var freed, s1 := ReleaseTx(view, prev.bidder, prev.amount, BidRef(a), e2).value, Moved(s, prev.bidder, e2);
      b := BidMarkEnds(db, cfg, a, bidder, amount, auc, t0, prev, h, freed, s1, xs[4..], out, fin);
    }
  }

  lemma BidBeatsEnds(db: Tables, cfg: Config, a: nat, bidder: nat, amount: int, auc: Auction, t0: nat,
      prev: Option<Bid>, s: Scope, xs: seq<nat>, out: Result<Tables>, fin: Scope) returns (env: Env)
    requires Ends(db, BidBeats(cfg, a, bidder, amount, auc, t0, prev), db, s, xs, out, fin) && AuctionK(a) in s.locks
    requires prev.Some? == auc.highest.Some?
    requires prev.Some? ==> auc.highest.value in db.bids && db.bids[auc.highest.value] == prev.value
    ensures env.t0 == t0
    ensures var beats := EnsureBidBeatsCurrent(if prev.Some? then prev.value.amount else 0, amount);
            if beats.Fail? then out == Err(beats.error)
            else
              out == BidRest(db, cfg, a, bidder, amount, auc, env) &&
              (out.Ok? ==> BidDraws(db, a, bidder, auc, env, fin))
  {
    env := NO_DRAWS.(t0 := t0, t1 := t0);
    if EnsureBidBeatsCurrent(if prev.Some? then prev.value.amount else 0, amount).Pass? {
      var rest := BidHeld(cfg, a, bidder, amount, auc, t0, prev);
      var e1 := MoveEnds(db, bidder, Reserved, amount, BidRef(a), rest, db, s, xs, out, fin);
      env := env.(e1 := e1, e2 := e1 + 1);
      if ReserveTx(db, bidder, amount, BidRef(a), e1).Ok? {
        IdFresh(db, s, bidder, e1);
        var v1, s1 := ReserveTx(db, bidder, amount, BidRef(a), e1).value, Moved(s, bidder, e1);
        if prev.None? {
          var b := BidSaveEnds(db, cfg, a, bidder, amount, auc, t0, v1, s1, xs[4..], out, fin);
          env := env.(row := b);
        } else {
          var e2, b := BidHeldEnds(db, cfg, a, bidder, amount, auc, t0, prev.value, e1, v1, s1, xs[4..], out, fin);
          env := env.(e2 := e2, row := b);
        }
      }
    }
  }

  lemma BidTimedEnds(db: Tables, cfg: Config, a: nat, bidder: nat, amount: int, t0: nat, s: Scope, xs: seq<nat>,
      out: Result<Tables>, fin: Scope) returns (env: Env)
    requires a in db.auctions && db.auctions[a].status == Active && AuctionK(a) in s.locks
    requires Ends(db, BidTimed(cfg, a, bidder, amount, db.auctions[a], t0), db, s, xs, out, fin)
    ensures env.t0 == t0 && Transitions.PlaceBid(db, cfg, a, bidder, amount, env) == out
    ensures out.Ok? ==> BidDraws(db, a, bidder, db.auctions[a], env, fin)
  {
    var auc := db.auctions[a];
    env := NO_DRAWS.(t0 := t0, t1 := t0);
    if !AuctionEnded(t0, auc.endsAt) && auc.seller != bidder {
      if auc.highest.None? {
        env := BidBeatsEnds(db, cfg, a, bidder, amount, auc, t0, None, s, xs, out, fin);
      } else {
        var k := BidK(auc.highest.value);
        var next := r => BidOver(cfg, a, bidder, amount, auc, t0, r);
        assert Ends(db, Read(k, next), db, s, xs, out, fin);
        assert Ends(db, BidOver(cfg, a, bidder, amount, auc, t0, Find(db, k)), db, Seen(s, k, Find(db, k)), xs[1..],
                    out, fin);
        if auc.highest.value in db.bids {
          var prev := Some(db.bids[auc.highest.value]);
          env := BidBeatsEnds(db, cfg, a, bidder, amount, auc, t0, prev, Seen(s, k, Find(db, k)), xs[1..], out, fin);
        }
      }
    }
  }

  lemma BidAlone(db: Tables, cfg: Config, a: nat, bidder: nat, amount: int, xs: seq<nat>, out: Result<Tables>,
      fin: Scope) returns (env: Env)
    requires Ends(db, BidProg(cfg, a, bidder, amount), db, NoScope, xs, out, fin)
    ensures Transitions.PlaceBid(db, cfg, a, bidder, amount, env) == out
    ensures out.Ok? ==> Drawn(db, Request.PlaceBid(a, bidder, amount), env, fin)
  {
    var r := Find(db, AuctionK(a));
    var s := Granted(NoScope, AuctionK(a), r);
    assert Ends(db, BidLocked(cfg, a, bidder, amount, r), db, s, xs[1..], out, fin);
    env := NO_DRAWS;
    if r.Some? && r.value.auction.status == Active {
      var t0 := xs[1..][0];
      env := BidTimedEnds(db, cfg, a, bidder, amount, t0, Told(s, t0), xs[1..][1..], out, fin);
      EndsGrow(db, BidTimed(cfg, a, bidder, amount, db.auctions[a], t0), db, Told(s, t0), xs[1..][1..], out, fin);
      if out.Ok? {
        BidDrawn(db, a, bidder, amount, env, Told(s, t0), fin);
      }
    }
  }

  lemma BidDrawn(db: Tables, a: nat, bidder: nat, amount: int, env: Env, s: Scope, fin: Scope)
    requires a in db.auctions && BidDraws(db, a, bidder, db.auctions[a], env, fin)
    requires AuctionK(a) in s.locks && TimeOk(db, s.(last := 0), env.t0) && env.t0 in fin.times
    requires db.auctions[a].highest.Some? ==> db.auctions[a].highest.value in db.bids
    ensures Drawn(db, Request.PlaceBid(a, bidder, amount), env, fin)
  {
  }

  // ---- CancelBid ----

  lemma CancelFoundEnds(db: Tables, a: nat, b: nat, bidder: nat, auc: Auction, s: Scope, xs: seq<nat>,
      out: Result<Tables>, fin: Scope) returns (env: Env)
    requires Ends(db, CancelFound(a, b, bidder, auc, Find(db, BidK(b))), db, s, xs, out, fin)
    requires a in db.auctions && db.auctions[a] == auc && auc.status == Active
    ensures b in db.bids && db.bids[b].status == Leading && out.Ok? ==> LedgerK(env.e1) in fin.owned
    ensures env.t0 == env.t1 && env.e1 < env.e2
    ensures Transitions.CancelBid(db, a, b, bidder, env) == out
  {
    env := NO_DRAWS;
    if b in db.bids && db.bids[b].auction == a && db.bids[b].bidder == bidder && auc.highest != Some(b) {
      var bid := db.bids[b];
      var done := bid.(status := BidCancelled);
      if bid.status == Leading {
        var e := MoveEnds(db, bidder, Freed, bid.amount, BidRef(a), Write(BidK(b), BidR(done), Commit), db, s, xs, out,
                          fin);
        env := env.(e1 := e, e2 := e + 1);
        if ReleaseTx(db, bidder, bid.amount, BidRef(a), e).Ok? {
          var freed := ReleaseTx(db, bidder, bid.amount, BidRef(a), e).value;
          LastWrite(db, BidK(b), BidR(done), freed, Moved(s, bidder, e), xs[4..], out, fin);
        }
      } else {
        LastWrite(db, BidK(b), BidR(done), db, s, xs, out, fin);
      }
    }
  }

  lemma CancelAlone(db: Tables, a: nat, b: nat, bidder: nat, xs: seq<nat>, out: Result<Tables>, fin: Scope)
    returns (env: Env)
    requires Ends(db, CancelProg(a, b, bidder), db, NoScope, xs, out, fin)
    ensures Transitions.CancelBid(db, a, b, bidder, env) == out
    ensures out.Ok? ==> Drawn(db, Request.CancelBid(a, b, bidder), env, fin)
  {
    var r := Find(db, AuctionK(a));
    var s := Granted(NoScope, AuctionK(a), r);
    assert Ends(db, CancelLocked(a, b, bidder, r), db, s, xs[1..], out, fin);
    env := NO_DRAWS;
    if r.Some? && r.value.auction.status == Active {
      var auc := db.auctions[a];
      var next := q => CancelFound(a, b, bidder, auc, q);
      assert Ends(db, Read(BidK(b), next), db, s, xs[1..], out, fin);
      env := CancelFoundEnds(db, a, b, bidder, auc, Seen(s, BidK(b), Find(db, BidK(b))), xs[1..][1..], out, fin);
    }
  }

  // ---- Settle ----

  /** A settlement after the money has moved. */
  function SettleRest(paid: Tables, a: nat, auc: Auction, it: Item, winner: Option<nat>, t1: nat): Tables {
    var owner := if winner.Some? then winner.value else it.owner;
    paid.(items := paid.items[auc.item := it.(owner := owner, status := Available)],
          auctions := paid.auctions[a := ClosedRow(auc, winner, t1)])
  }

  lemma SettleSaveEnds(store: Tables, a: nat, auc: Auction, it: Item, winner: Option<nat>, view: Tables, s: Scope,
      xs: seq<nat>, out: Result<Tables>, fin: Scope) returns (t1: nat)
    requires Ends(store, SettleSave(a, auc, it, winner), view, s, xs, out, fin)
    ensures s.last <= t1 && t1 in fin.times && out == Ok(SettleRest(view, a, auc, it, winner, t1))
  {
    t1 := xs[0];
    assert Ends(store, SettleLast(a, auc, it, winner, t1), view, Told(s, t1), xs[1..], out, fin);
    var owner := if winner.Some? then winner.value else it.owner;
    var v := Put(view, ItemK(auc.item), ItemR(it.(owner := owner, status := Available)));
    LastWrite(store, AuctionK(a), AuctionR(ClosedRow(auc, winner, t1)), v, Told(s, t1), xs[1..][1..], out, fin);
  }

  ghost predicate SettleDraws(db: Tables, winner: nat, seller: nat, env: Env, fin: Scope) {
    && env.t1 in fin.times && LedgerK(env.e1) in fin.owned && LedgerK(env.e2) in fin.owned
    && env.t0 <= env.t1 && env.e1 < env.e2 && EntryFresh(db.ledger, winner, env.e1) &&
        EntryFresh(db.ledger, seller, env.e2)
  }

  /** Marking the bid won and closing the auction, after both movements. */
  lemma WonEnds(store: Tables, a: nat, auc: Auction, h: nat, it: Item, win: Bid, view: Tables, s: Scope, xs: seq<nat>,
      out: Result<Tables>, fin: Scope) returns (t1: nat)
    requires Ends(store, Write(BidK(h), BidR(win.(status := Won)), SettleSave(a, auc, it, Some(win.bidder))), view, s,
                  xs, out, fin)
    ensures t1 in fin.times
    ensures s.last <= t1
    ensures var paid := view.(bids := view.bids[h := win.(status := Won)]);
            out == Ok(SettleRest(paid, a, auc, it, Some(win.bidder), t1))
  {
    var marked := Put(view, BidK(h), BidR(win.(status := Won)));
    t1 := SettleSaveEnds(store, a, auc, it, Some(win.bidder), marked, s, xs[1..], out, fin);
  }

  lemma SettleWinEnds(db: Tables, a: nat, auc: Auction, h: nat, it: Item, s: Scope, xs: seq<nat>, out: Result<Tables>,
      fin: Scope) returns (env: Env)
    requires h in db.bids && Ends(db, SettleWin(a, auc, h, it, Some(BidR(db.bids[h]))), db, s, xs, out, fin)
    ensures env.t0 == s.last
    ensures PayOut(db, a, auc, h, env).Err? ==> out == Err(PayOut(db, a, auc, h, env).error)
    ensures PayOut(db, a, auc, h, env).Ok? ==>
              && out == Ok(SettleRest(PayOut(db, a, auc, h, env).value, a, auc, it, Some(db.bids[h].bidder), env.t1))
              && SettleDraws(db, db.bids[h].bidder, auc.seller, env, fin)
  {
    var win, ref := db.bids[h], AuctionRef(a);
    var mark := Write(BidK(h), BidR(win.(status := Won)), SettleSave(a, auc, it, Some(win.bidder)));
    var e1 := MoveEnds(db, win.bidder, Debited, win.amount, ref, Move(auc.seller, Credited, win.amount, ref, mark), db,
                       s, xs, out, fin);
    env := Env(s.last, s.last, 0, e1, e1 + 1);
    if SettleReservedTx(db, win.bidder, win.amount, ref, e1).Ok? {
      IdFresh(db, s, win.bidder, e1);
      var v1, s1 := SettleReservedTx(db, win.bidder, win.amount, ref, e1).value, Moved(s, win.bidder, e1);
      var e2 := MoveEnds(db, auc.seller, Credited, win.amount, ref, mark, v1, s1, xs[4..], out, fin);
      env := env.(e2 := e2);
      if CreditTx(v1, auc.seller, win.amount, ref, e2).Ok? {
        IdFresh(db, s1, auc.seller, e2);
        assert LedgerK(e1) in s1.owned;
        var v2 := CreditTx(v1, auc.seller, win.amount, ref, e2).value;
        var t1 := WonEnds(db, a, auc, h, it, win, v2, Moved(s1, auc.seller, e2), xs[4..][4..], out, fin);
        env := env.(t1 := t1);
      }
    }
  }

  lemma SettleItemEnds(db: Tables, a: nat, s: Scope, xs: seq<nat>, out: Result<Tables>, fin: Scope) returns (env: Env)
    requires a in db.auctions && Due(db.auctions[a], s.last)
    requires Ends(db, SettleItem(a, db.auctions[a], Find(db, ItemK(db.auctions[a].item))), db, s, xs, out, fin)
    requires s.last in s.times
    ensures env.t0 == s.last && Transitions.Settle(db, a, env) == out
    ensures out.Ok? ==> Drawn(db, Request.Settle(a), env, fin)
  {
    EndsGrow(db, SettleItem(a, db.auctions[a], Find(db, ItemK(db.auctions[a].item))), db, s, xs, out, fin);
    var auc := db.auctions[a];
    env := NO_DRAWS.(t0 := s.last, t1 := s.last);
    if auc.item in db.items {
      var it := db.items[auc.item];
      if auc.highest.None? {
        var t1 := SettleSaveEnds(db, a, auc, it, None, db, s, xs, out, fin);
        env := env.(t1 := t1);
      } else {
        var h := auc.highest.value;
        var next := r => SettleWin(a, auc, h, it, r);
        assert Ends(db, Read(BidK(h), next), db, s, xs, out, fin);
        assert Ends(db, SettleWin(a, auc, h, it, Find(db, BidK(h))), db, Seen(s, BidK(h), Find(db, BidK(h))), xs[1..],
                    out, fin);
        if h in db.bids {
          env := SettleWinEnds(db, a, auc, h, it, Seen(s, BidK(h), Find(db, BidK(h))), xs[1..], out, fin);
        }
      }
    }
  }

  lemma SettleTimedEnds(db: Tables, a: nat, s: Scope, xs: seq<nat>, out: Result<Tables>, fin: Scope) returns (env: Env)
    requires a in db.auctions && db.auctions[a].status == Active
    requires Ends(db, SettleLocked(a, Some(AuctionR(db.auctions[a]))), db, s, xs, out, fin)
    ensures Transitions.Settle(db, a, env) == out
    ensures out.Ok? ==> Drawn(db, Request.Settle(a), env, fin)
  {
    var auc, t0 := db.auctions[a], xs[0];
    var s1 := Told(s, t0);
    if AuctionEnded(t0, auc.endsAt) {
      var next := r => SettleItem(a, auc, r);
      assert Ends(db, Lock(ItemK(auc.item), next), db, s1, xs[1..], out, fin);
      env := SettleItemEnds(db, a, Granted(s1, ItemK(auc.item), Find(db, ItemK(auc.item))), xs[1..][1..], out, fin);
    } else {
      assert Ends(db, Commit, db, s1, xs[1..], out, fin);
      env := NO_DRAWS.(t0 := t0, t1 := t0);
    }
  }

  lemma SettleAlone(db: Tables, a: nat, xs: seq<nat>, out: Result<Tables>, fin: Scope) returns (env: Env)
    requires Ends(db, SettleProg(a), db, NoScope, xs, out, fin)
    ensures Transitions.Settle(db, a, env) == out
    ensures out.Ok? ==> Drawn(db, Request.Settle(a), env, fin)
  {
    var r := Find(db, AuctionK(a));
    var s := Granted(NoScope, AuctionK(a), r);
    assert Ends(db, SettleLocked(a, r), db, s, xs[1..], out, fin);
    env := NO_DRAWS;
    if r.Some? && r.value.auction.status == Active {
      env := SettleTimedEnds(db, a, s, xs[1..], out, fin);
    }
  }

  // ---- All transactions ----

  /** A request's statements, run alone to their end, return what its transition does for some readings and ids. */
  lemma AloneIsApply(db: Tables, cfg: Config, req: Request, xs: seq<nat>, out: Result<Tables>, fin: Scope)
    returns (env: Env)
    requires Ends(db, ProgOf(cfg, req), db, NoScope, xs, out, fin)
    ensures Apply(db, cfg, req, env) == out
    ensures out.Ok? ==> Drawn(db, req, env, fin)
  {
    match req {
      case CreateItem(owner, name, tier, stock) => env := ItemAlone(db, owner, name, tier, stock, xs, out, fin);
      case CreateListing(seller, item, price) => env := ListingAlone(db, seller, item, price, xs, out, fin);
      case Buy(buyer, listing) => env := BuyAlone(db, buyer, listing, xs, out, fin);
      case CreateAuction(seller, item) => env := AuctionAlone(db, cfg, seller, item, xs, out, fin);
      case PlaceBid(a, bidder, amount) => env := BidAlone(db, cfg, a, bidder, amount, xs, out, fin);
      case CancelBid(a, b, bidder) => env := CancelAlone(db, a, b, bidder, xs, out, fin);
      case Settle(a) => env := SettleAlone(db, a, xs, out, fin);
    }
  }
}
