/** Settling due auctions: it cannot fail on funds, and the order of settling does not matter. */
module Settlement {
  import opened Model
  import opened Sums
  import opened Transitions
  import opened Invariants
  import opened SettleProofs
  import Reachable
  import History

  lemma HeldNonnegative(db: Tables, g: nat)
    requires forall b :: b in db.bids ==> db.bids[b].amount > 0
    ensures Sum(Held(db.auctions, db.bids, g)) >= 0
    ensures forall a :: a in db.auctions ==> HeldOn(db.auctions[a], db.bids, g) <= Sum(Held(db.auctions, db.bids, g))
  {
    var held := Held(db.auctions, db.bids, g);
    SumBounds(held);
    forall a | a in db.auctions ensures HeldOn(db.auctions[a], db.bids, g) <= Sum(held) {
      assert held[a] == HeldOn(db.auctions[a], db.bids, g);
    }
  }

  /** Every past bid left exactly what settling needs: the leader's amount is still reserved. */
  lemma LeaderReserved(db: Tables, a: nat)
    requires Reserves(db) && BidsOk(db) && a in db.auctions && db.auctions[a].status == Active
    requires db.auctions[a].highest.Some? && db.guilds.Keys == db.wallets.Keys
    ensures db.auctions[a].highest.value in db.bids
    ensures var p := db.bids[db.auctions[a].highest.value];
            p.bidder in db.wallets && 0 < p.amount <= db.wallets[p.bidder].reserved <= db.wallets[p.bidder].total
  {
    assert LeaderOk(db, a);
    var h := db.auctions[a].highest.value;
    assert BidOk(db, h);
    forall b | b in db.bids ensures db.bids[b].amount > 0 { assert BidOk(db, b); }
    HeldNonnegative(db, db.bids[h].bidder);
    assert Solvent(db.wallets[db.bids[h].bidder]);
  }

  /** Settling never returns an error, whatever was bid, cancelled or bought before; a due auction gets settled. */
  lemma SettleNeverFails(w: World, db: Tables, a: nat, env: Env)
    requires Inv(w, db) && a in db.auctions
    ensures Transitions.Settle(db, a, env).Ok?
    ensures var db' := Transitions.Settle(db, a, env).value;
            if Due(db.auctions[a], env.t0) then a in db'.auctions && db'.auctions[a].status == Settled else db' == db
  {
    var auc := db.auctions[a];
    assert AuctionOk(db, auc) && LeaderOk(db, a);
    if Due(auc, env.t0) && auc.highest.Some? {
      LeaderReserved(db, a);
      PayOutOk(db, a, auc, auc.highest.value, env);
    }
    SettleOk(db, a, env);
  }

  lemma SettleOk(db: Tables, a: nat, env: Env)
    requires a in db.auctions && db.auctions[a].item in db.items
    requires Due(db.auctions[a], env.t0) && db.auctions[a].highest.Some? ==>
               PayOut(db, a, db.auctions[a], db.auctions[a].highest.value, env).Ok?
    ensures Transitions.Settle(db, a, env).Ok?
    ensures var db' := Transitions.Settle(db, a, env).value;
            if Due(db.auctions[a], env.t0) then a in db'.auctions && db'.auctions[a].status == Settled else db' == db
  {
  }

  lemma PayOutOk(db: Tables, a: nat, auc: Auction, h: nat, env: Env)
    requires h in db.bids && db.bids[h].bidder in db.wallets && auc.seller in db.wallets
    requires 0 < db.bids[h].amount <= db.wallets[db.bids[h].bidder].reserved
    ensures PayOut(db, a, auc, h, env).Ok?
  {
  }

  // ---- The order of settling ----

  function DebitOf(db: Tables, a: nat): Entry
    requires a in db.auctions && HasWinner(db, db.auctions[a])
  {
    var win := db.bids[db.auctions[a].highest.value];
    Entry(win.bidder, Debited, win.amount, AuctionRef(a))
  }

  function CreditOf(db: Tables, a: nat): Entry
    requires a in db.auctions && HasWinner(db, db.auctions[a])
  {
    Entry(db.auctions[a].seller, Credited, db.bids[db.auctions[a].highest.value].amount, AuctionRef(a))
  }

  /** What settling auction a adds to guild g's total: its winning bid is spent, and earned by its seller. */
  ghost function Gain(db: Tables, a: nat, g: nat): int
    requires a in db.auctions
  {
    var auc := db.auctions[a];
    if !HasWinner(db, auc) then 0 else
      (if auc.seller == g then Price(auc, db.bids) else 0) -
      (if db.bids[auc.highest.value].bidder == g then Price(auc, db.bids) else 0)
  }

  ghost function CopySet(l: map<nat, Entry>, x: Entry): set<nat> { set e | e in l && l[e] == x }

  ghost function Copies(l: map<nat, Entry>, x: Entry): nat { |CopySet(l, x)| }

  /** How many ledger rows equal to x settling auction a adds. */
  ghost function NewCopies(db: Tables, a: nat, x: Entry): int
    requires a in db.auctions
  {
    if !HasWinner(db, db.auctions[a]) then 0 else
      (if DebitOf(db, a) == x then 1 else 0) + (if CreditOf(db, a) == x then 1 else 0)
  }

  ghost function Gains(db: Tables, s: set<nat>, g: nat): map<nat, int>
    requires s <= db.auctions.Keys
  {
    map a | a in s :: Gain(db, a, g)
  }

  ghost function Freed(db: Tables, s: set<nat>, g: nat): map<nat, int>
    requires s <= db.auctions.Keys
  {
    map a | a in s :: HeldOn(db.auctions[a], db.bids, g)
  }

  ghost function Added(db: Tables, s: set<nat>, x: Entry): map<nat, int>
    requires s <= db.auctions.Keys
  {
    map a | a in s :: NewCopies(db, a, x)
  }

  ghost predicate SameBut(x: Auction, y: Auction) { x == y.(updatedAt := x.updatedAt) }

  ghost predicate SettledAuctions(db: Tables, s: set<nat>, auctions: map<nat, Auction>) {
    && auctions.Keys == db.auctions.Keys
    && (forall a :: a in db.auctions && a in s ==>
          SameBut(auctions[a], SettledAuction(db.auctions[a], db.bids, 0)))
    && (forall a :: a in db.auctions && a !in s ==> auctions[a] == db.auctions[a])
  }

  ghost predicate SettledBids(db: Tables, s: set<nat>, bids: map<nat, Bid>)
    requires s <= db.auctions.Keys
  {
    bids.Keys == db.bids.Keys && forall b :: b in db.bids ==> bids[b] == BidAfter(db, s, b)
  }

  /** The one auction of s that sells item i, if any, decides what becomes of it. */
  ghost predicate SettledItems(db: Tables, s: set<nat>, items: map<nat, Item>)
    requires s <= db.auctions.Keys
  {
    && items.Keys == db.items.Keys
    && (forall a :: a in s && db.auctions[a].item in db.items ==>
          items[db.auctions[a].item] == SettledItem(db.items[db.auctions[a].item], db.auctions[a], db.bids))
    && (forall i :: i in db.items && !SoldBy(db, s, i) ==> items[i] == db.items[i])
  }

  ghost predicate SoldBy(db: Tables, s: set<nat>, i: nat)
    requires s <= db.auctions.Keys
  {
    exists a :: a in s && db.auctions[a].item == i
  }

  /** The rows after settling exactly the auctions of s, as a function of the set alone. */
  ghost predicate SettledRows(db: Tables, s: set<nat>, db': Tables)
    requires s <= db.auctions.Keys
  {
    && db'.guilds == db.guilds && db'.listings == db.listings && db'.daily == db.daily
    && db'.wallets.Keys == db.wallets.Keys
    && SettledAuctions(db, s, db'.auctions) && SettledBids(db, s, db'.bids) && SettledItems(db, s, db'.items)
  }

  ghost function BidAfter(db: Tables, s: set<nat>, b: nat): Bid
    requires b in db.bids && s <= db.auctions.Keys
  {
    var bid := db.bids[b];
    if bid.auction in s && db.auctions[bid.auction].highest == Some(b) then bid.(status := Won) else bid
  }

  ghost predicate SettledWallet(db: Tables, s: set<nat>, wallets: map<nat, Wallet>, g: nat)
    requires s <= db.auctions.Keys && g in db.wallets
  {
    && g in wallets
    && wallets[g].total == db.wallets[g].total + Sum(Gains(db, s, g))
    && wallets[g].reserved == db.wallets[g].reserved - Sum(Freed(db, s, g))
  }

  ghost predicate SettledWallets(db: Tables, s: set<nat>, wallets: map<nat, Wallet>)
    requires s <= db.auctions.Keys
  {
    forall g :: g in db.wallets ==> SettledWallet(db, s, wallets, g)
  }

  ghost predicate SettledLedger(db: Tables, s: set<nat>, ledger: map<nat, Entry>)
    requires s <= db.auctions.Keys
  {
    forall x :: Copies(ledger, x) == Copies(db.ledger, x) + Sum(Added(db, s, x))
  }

  ghost predicate SettledBy(db: Tables, s: set<nat>, db': Tables) {
    && s <= db.auctions.Keys
    && SettledRows(db, s, db') && SettledWallets(db, s, db'.wallets) && SettledLedger(db, s, db'.ledger)
  }

  lemma CopiesUpdate(l: map<nat, Entry>, e: nat, y: Entry, x: Entry)
    requires e !in l
    ensures Copies(l[e := y], x) == Copies(l, x) + if y == x then 1 else 0
  {
    assert CopySet(l[e := y], x) == CopySet(l, x) + if y == x then {e} else {};
  }

  lemma NothingSettled(db: Tables, none: set<nat>)
    requires none == {}
    ensures SettledBy(db, none, db)
  {
    forall g | g in db.wallets ensures SettledWallet(db, none, db.wallets, g) {
      SumZero(Gains(db, none, g));
      SumZero(Freed(db, none, g));
    }
    forall x ensures Copies(db.ledger, x) == Copies(db.ledger, x) + Sum(Added(db, none, x)) {
      SumZero(Added(db, none, x));
    }
    assert SettledBids(db, none, db.bids) && SettledItems(db, none, db.items);
  }

  /** In the state reached after settling s, auction a and its winning bid are still as they were. */
  lemma Untouched(db: Tables, s: set<nat>, mid: Tables, a: nat)
    requires s <= db.auctions.Keys && SettledAuctions(db, s, mid.auctions) && SettledBids(db, s, mid.bids)
    requires a in db.auctions && a !in s && LeaderOk(db, a)
    ensures mid.auctions[a] == db.auctions[a]
    ensures HasWinner(db, db.auctions[a]) == HasWinner(mid, mid.auctions[a])
    ensures HasWinner(db, db.auctions[a]) ==>
              mid.bids[db.auctions[a].highest.value] == db.bids[db.auctions[a].highest.value]
  {
    if HasWinner(db, db.auctions[a]) {
      assert mid.bids[db.auctions[a].highest.value] == BidAfter(db, s, db.auctions[a].highest.value);
    }
  }

  lemma AuctionsExtend(db: Tables, s: set<nat>, mid: Tables, a: nat, env: Env, db': Tables)
    requires s <= db.auctions.Keys && SettledAuctions(db, s, mid.auctions) && SettledBids(db, s, mid.bids)
    requires a in db.auctions && a !in s && LeaderOk(db, a) && Rows(mid, a, env, db')
    ensures SettledAuctions(db, s + {a}, db'.auctions)
  {
    Untouched(db, s, mid, a);
  }

  lemma BidsExtend(db: Tables, s: set<nat>, mid: Tables, a: nat, env: Env, db': Tables)
    requires s <= db.auctions.Keys && SettledAuctions(db, s, mid.auctions) && SettledBids(db, s, mid.bids)
    requires a in db.auctions && a !in s && LeaderOk(db, a) && Rows(mid, a, env, db')
    ensures SettledBids(db, s + {a}, db'.bids)
  {
    Untouched(db, s, mid, a);
    forall b | b in db.bids ensures db'.bids[b] == BidAfter(db, s + {a}, b) {
      assert mid.bids[b] == BidAfter(db, s, b);
    }
  }

  lemma SoldByMore(db: Tables, s: set<nat>, a: nat, i: nat)
    requires s <= db.auctions.Keys && a in db.auctions && SoldBy(db, s, i)
    ensures SoldBy(db, s + {a}, i)
  {
    var x :| x in s && db.auctions[x].item == i;
    assert x in s + {a};
  }

  lemma ItemsExtend(db: Tables, s: set<nat>, mid: Tables, a: nat, env: Env, db': Tables)
    requires s <= db.auctions.Keys && SettledAuctions(db, s, mid.auctions) && SettledBids(db, s, mid.bids)
    requires SettledItems(db, s, mid.items)
    requires a in db.auctions && a !in s && LeaderOk(db, a) && Rows(mid, a, env, db')
    requires forall x :: x in s ==> db.auctions[x].item != db.auctions[a].item
    ensures SettledItems(db, s + {a}, db'.items)
  {
    Untouched(db, s, mid, a);
    var sold := db.auctions[a].item;
    assert !SoldBy(db, s, sold);
    assert mid.items[sold] == db.items[sold];
    assert SoldBy(db, s + {a}, sold) by { assert a in s + {a}; }
    forall i | i in db.items && SoldBy(db, s, i) ensures SoldBy(db, s + {a}, i) {
      SoldByMore(db, s, a, i);
    }
  }

  lemma GainsExtend(db: Tables, s: set<nat>, a: nat, g: nat)
    requires s <= db.auctions.Keys && a in db.auctions && a !in s
    ensures Sum(Gains(db, s + {a}, g)) == Sum(Gains(db, s, g)) + Gain(db, a, g)
  {
    SumUpdate(Gains(db, s, g), a, Gain(db, a, g));
    assert Gains(db, s + {a}, g) == Gains(db, s, g)[a := Gain(db, a, g)];
  }

  lemma FreedExtend(db: Tables, s: set<nat>, a: nat, g: nat)
    requires s <= db.auctions.Keys && a in db.auctions && a !in s
    ensures Sum(Freed(db, s + {a}, g)) == Sum(Freed(db, s, g)) + HeldOn(db.auctions[a], db.bids, g)
  {
    SumUpdate(Freed(db, s, g), a, HeldOn(db.auctions[a], db.bids, g));
    assert Freed(db, s + {a}, g) == Freed(db, s, g)[a := HeldOn(db.auctions[a], db.bids, g)];
  }

  /** One settlement moves every wallet by the gain and the held amount computed from the original tables. */
  lemma WalletMoves(db: Tables, mid: Tables, a: nat, env: Env, db': Tables, g: nat)
    requires a in db.auctions && a in mid.auctions && mid.auctions[a] == db.auctions[a] &&
        db.auctions[a].status == Active
    requires HasWinner(db, db.auctions[a]) == HasWinner(mid, mid.auctions[a])
    requires HasWinner(db, db.auctions[a]) ==>
               mid.bids[db.auctions[a].highest.value] == db.bids[db.auctions[a].highest.value]
    requires Moves(mid, a, env, db') && g in mid.wallets
    ensures g in db'.wallets
    ensures db'.wallets[g].total == mid.wallets[g].total + Gain(db, a, g)
    ensures db'.wallets[g].reserved == mid.wallets[g].reserved - HeldOn(db.auctions[a], db.bids, g)
  {
  }

  lemma WalletExtends(db: Tables, s: set<nat>, mid: Tables, a: nat, env: Env, db': Tables, g: nat)
    requires s <= db.auctions.Keys && SettledAuctions(db, s, mid.auctions) && SettledBids(db, s, mid.bids)
    requires a in db.auctions && a !in s && LeaderOk(db, a) && g in db.wallets && SettledWallet(db, s, mid.wallets, g)
    requires db.auctions[a].status == Active && Moves(mid, a, env, db')
    ensures SettledWallet(db, s + {a}, db'.wallets, g)
  {
    Untouched(db, s, mid, a);
    GainsExtend(db, s, a, g);
    FreedExtend(db, s, a, g);
    WalletMoves(db, mid, a, env, db', g);
  }

  lemma LedgerExtends(db: Tables, s: set<nat>, mid: Tables, a: nat, env: Env, db': Tables, x: Entry)
    requires s <= db.auctions.Keys && SettledAuctions(db, s, mid.auctions) && SettledBids(db, s, mid.bids)
    requires a in db.auctions && a !in s && LeaderOk(db, a) && Moves(mid, a, env, db')
    requires Copies(mid.ledger, x) == Copies(db.ledger, x) + Sum(Added(db, s, x))
    ensures Copies(db'.ledger, x) == Copies(db.ledger, x) + Sum(Added(db, s + {a}, x))
  {
    Untouched(db, s, mid, a);
    SumUpdate(Added(db, s, x), a, NewCopies(db, a, x));
    assert Added(db, s + {a}, x) == Added(db, s, x)[a := NewCopies(db, a, x)];
    LedgerGains(db, mid, a, env, db', x);
  }

  lemma LedgerGains(db: Tables, mid: Tables, a: nat, env: Env, db': Tables, x: Entry)
    requires a in db.auctions && a in mid.auctions && mid.auctions[a] == db.auctions[a] && Moves(mid, a, env, db')
    requires HasWinner(db, db.auctions[a]) == HasWinner(mid, mid.auctions[a])
    requires HasWinner(db, db.auctions[a]) ==>
               mid.bids[db.auctions[a].highest.value] == db.bids[db.auctions[a].highest.value]
    ensures Copies(db'.ledger, x) == Copies(mid.ledger, x) + NewCopies(db, a, x)
  {
    if HasWinner(db, db.auctions[a]) {
      CopiesUpdate(mid.ledger, env.e1, DebitOf(db, a), x);
      CopiesUpdate(mid.ledger[env.e1 := DebitOf(db, a)], env.e2, CreditOf(db, a), x);
    }
  }

  lemma SettledExtends(db: Tables, s: set<nat>, mid: Tables, a: nat, env: Env, db': Tables)
    requires SettledBy(db, s, mid) && a in db.auctions && a !in s && LeaderOk(db, a) && db.auctions[a].status == Active
    requires forall x :: x in s ==> db.auctions[x].item != db.auctions[a].item
    requires Rows(mid, a, env, db') && Moves(mid, a, env, db')
    ensures SettledBy(db, s + {a}, db')
  {
    AuctionsExtend(db, s, mid, a, env, db');
    BidsExtend(db, s, mid, a, env, db');
    ItemsExtend(db, s, mid, a, env, db');
    forall g | g in db.wallets ensures SettledWallet(db, s + {a}, db'.wallets, g) {
      WalletExtends(db, s, mid, a, env, db', g);
    }
    forall x ensures Copies(db'.ledger, x) == Copies(db.ledger, x) + Sum(Added(db, s + {a}, x)) {
      LedgerExtends(db, s, mid, a, env, db', x);
    }
  }

  // ---- A settlement pass ----

  /** A pass over the due auctions `ids`, one transaction each. */
  ghost predicate Pass(db: Tables, ids: seq<nat>, run: seq<Event>) {
    && |run| == |ids|
    && (forall i :: 0 <= i < |ids| ==> run[i].req == Request.Settle(ids[i]))
    && (forall i, j :: 0 <= i < j < |ids| ==> ids[i] != ids[j])
    && (forall i :: 0 <= i < |ids| ==> ids[i] in db.auctions && Due(db.auctions[ids[i]], run[i].env.t0))
  }

  ghost function SetOf(ids: seq<nat>): set<nat> { set a | a in ids }

  lemma DistinctItems(db: Tables, a: nat, b: nat)
    requires Catalog(db) && a in db.auctions && b in db.auctions && a != b
    requires db.auctions[a].status == Active && db.auctions[b].status == Active
    ensures db.auctions[a].item != db.auctions[b].item
  {
    assert ActiveFor(db, a, db.auctions[a].item) && ActiveFor(db, b, db.auctions[b].item);
  }

  /** Settling a on db, when it is due there, went through. */
  ghost predicate SettleLink(db: Tables, a: nat, env: Env, db': Tables) {
    a in db.auctions && Due(db.auctions[a], env.t0) ==> Rows(db, a, env, db') && Moves(db, a, env, db')
  }

  /** One more auction of a pass, settled from the state its predecessors led to. */
  lemma NextSettles(db: Tables, s: set<nat>, mid: Tables, a: nat, env: Env, db': Tables)
    requires a in db.auctions && LeaderOk(db, a) && SettledBy(db, s, mid) && a !in s
    requires forall x :: x in s ==> db.auctions[x].item != db.auctions[a].item
    requires Due(db.auctions[a], env.t0) && SettleLink(mid, a, env, db')
    ensures SettledBy(db, s + {a}, db')
  {
    Untouched(db, s, mid, a);
    SettledExtends(db, s, mid, a, env, db');
  }

  /** Distinct auctions of distinct items. */
  ghost predicate Apart(db: Tables, ids: seq<nat>) {
    && (forall i :: 0 <= i < |ids| ==> ids[i] in db.auctions && LeaderOk(db, ids[i]))
    && (forall i, j :: 0 <= i < j < |ids| ==> ids[i] != ids[j] && db.auctions[ids[i]].item != db.auctions[ids[j]].item)
  }

  lemma PassApart(db: Tables, ids: seq<nat>, run: seq<Event>)
    requires Catalog(db) && BidsOk(db) && Pass(db, ids, run)
    ensures Apart(db, ids)
  {
    forall i, j | 0 <= i < j < |ids| ensures db.auctions[ids[i]].item != db.auctions[ids[j]].item {
      DistinctItems(db, ids[i], ids[j]);
    }
  }

  lemma ApartFrom(db: Tables, ids: seq<nat>, m: nat)
    requires Apart(db, ids) && m < |ids|
    ensures ids[m] !in SetOf(ids[..m]) && SetOf(ids[..m + 1]) == SetOf(ids[..m]) + {ids[m]}
    ensures forall x :: x in SetOf(ids[..m]) ==> x in db.auctions && db.auctions[x].item != db.auctions[ids[m]].item
  {
    assert ids[..m + 1] == ids[..m] + [ids[m]];
  }

  lemma LinkOf(w: World, db: Tables, a: nat, env: Env)
    requires Inv(w, db) && EnvOk(db, Request.Settle(a), env)
    ensures SettleLink(db, a, env, Step(w.cfg, db, Event(Request.Settle(a), env)))
  {
    if a in db.auctions && Due(db.auctions[a], env.t0) {
      SettleNeverFails(w, db, a, env);
      Shape(db, a, env, Transitions.Settle(db, a, env).value);
    }
  }

  /** The states that a pass goes through. */
  ghost predicate Links(states: seq<Tables>, ids: seq<nat>, run: seq<Event>) {
    && |run| == |ids| && |states| == |run| + 1
    && forall i :: 0 <= i < |run| ==> SettleLink(states[i], ids[i], run[i].env, states[i + 1])
  }

  lemma {:induction false} ChainSettles(db: Tables, ids: seq<nat>, run: seq<Event>, states: seq<Tables>, n: nat)
    requires Apart(db, ids) && Links(states, ids, run) && states[0] == db && n <= |run|
    requires forall i :: 0 <= i < |ids| ==> ids[i] in db.auctions && Due(db.auctions[ids[i]], run[i].env.t0)
    ensures SettledBy(db, SetOf(ids[..n]), states[n])
  {
    if n == 0 {
      NothingSettled(db, SetOf(ids[..0]));
    } else {
      var m := n - 1;
      ChainSettles(db, ids, run, states, m);
      ApartFrom(db, ids, m);
      assert SettleLink(states[m], ids[m], run[m].env, states[m + 1]);
      NextSettles(db, SetOf(ids[..m]), states[m], ids[m], run[m].env, states[n]);
    }
  }

  lemma LinksExtended(states: seq<Tables>, ids: seq<nat>, run: seq<Event>, next: Tables)
    requires run != [] && |ids| == |run| && Links(states, ids[..|run| - 1], run[..|run| - 1])
    requires SettleLink(states[|run| - 1], ids[|run| - 1], run[|run| - 1].env, next)
    ensures Links(states + [next], ids, run)
  {
    var longer, m := states + [next], |run| - 1;
    forall i | 0 <= i < |run| ensures SettleLink(longer[i], ids[i], run[i].env, longer[i + 1]) {
      assert i < m ==> SettleLink(states[i], ids[..m][i], run[..m][i].env, states[i + 1]);
    }
  }

  /** The states a legal run of settlements goes through. */
  lemma {:induction false} LinksOf(w: World, db: Tables, ids: seq<nat>, run: seq<Event>) returns (states: seq<Tables>)
    requires Inv(w, db) && Legal(w.cfg, db, run) && |run| == |ids|
    requires forall i :: 0 <= i < |ids| ==> run[i].req == Request.Settle(ids[i])
    ensures Links(states, ids, run) && states[0] == db && states[|run|] == After(w.cfg, db, run)
  {
    if run == [] {
      states := [db];
    } else {
      var n := |run| - 1;
      var prefix := LinksOf(w, db, ids[..n], run[..n]);
      var next := LinkAfter(w, db, run, ids[n]);
      LinksExtended(prefix, ids, run, next);
      states := prefix + [next];
    }
  }

  lemma LinkAfter(w: World, db: Tables, run: seq<Event>, a: nat) returns (next: Tables)
    requires Inv(w, db) && Legal(w.cfg, db, run) && run != [] && run[|run| - 1].req == Request.Settle(a)
    ensures next == After(w.cfg, db, run)
    ensures SettleLink(After(w.cfg, db, run[..|run| - 1]), a, run[|run| - 1].env, next)
  {
    var before, ev := run[..|run| - 1], run[|run| - 1];
    Reachable.RunKeeps(w, db, before);
    assert ev == Event(Request.Settle(a), ev.env);
    LinkOf(w, After(w.cfg, db, before), a, ev.env);
    next := After(w.cfg, db, run);
  }

  lemma PassFromLinks(db: Tables, ids: seq<nat>, run: seq<Event>, states: seq<Tables>)
    requires Catalog(db) && BidsOk(db) && Pass(db, ids, run) && Links(states, ids, run) && states[0] == db
    ensures SettledBy(db, SetOf(ids), states[|run|])
  {
    PassApart(db, ids, run);
    ChainSettles(db, ids, run, states, |run|);
    assert ids[..|run|] == ids;
  }

  lemma PassSettles(w: World, db: Tables, ids: seq<nat>, run: seq<Event>)
    requires Inv(w, db) && Pass(db, ids, run) && Legal(w.cfg, db, run)
    ensures SettledBy(db, SetOf(ids), After(w.cfg, db, run))
  {
    var states := LinksOf(w, db, ids, run);
    PassFromLinks(db, ids, run, states);
  }

  /** Equal up to the order of ledger rows and the times auctions were settled at. */
  ghost predicate SameOutcome(x: Tables, y: Tables) {
    && x.guilds == y.guilds && x.wallets == y.wallets && x.items == y.items && x.listings == y.listings
    && x.bids == y.bids && x.daily == y.daily
    && x.auctions.Keys == y.auctions.Keys && (forall a :: a in x.auctions ==> SameBut(x.auctions[a], y.auctions[a]))
    && (forall e :: Copies(x.ledger, e) == Copies(y.ledger, e))
  }

  lemma SameItems(db: Tables, s: set<nat>, x: map<nat, Item>, y: map<nat, Item>)
    requires s <= db.auctions.Keys && SettledItems(db, s, x) && SettledItems(db, s, y)
    ensures x == y
  {
    forall i | i in db.items ensures x[i] == y[i] {
      if SoldBy(db, s, i) {
        var a :| a in s && db.auctions[a].item == i;
      }
    }
  }

  lemma SameWallets(db: Tables, s: set<nat>, x: map<nat, Wallet>, y: map<nat, Wallet>)
    requires s <= db.auctions.Keys && SettledWallets(db, s, x) && SettledWallets(db, s, y)
    requires x.Keys == y.Keys == db.wallets.Keys
    ensures x == y
  {
    forall g | g in db.wallets ensures x[g] == y[g] {
      assert SettledWallet(db, s, x, g) && SettledWallet(db, s, y, g);
    }
  }

  lemma SameAuctions(db: Tables, s: set<nat>, x: map<nat, Auction>, y: map<nat, Auction>)
    requires SettledAuctions(db, s, x) && SettledAuctions(db, s, y)
    ensures x.Keys == y.Keys && forall a :: a in x ==> SameBut(x[a], y[a])
  {
  }

  lemma SettledUnique(db: Tables, s: set<nat>, x: Tables, y: Tables)
    requires SettledBy(db, s, x) && SettledBy(db, s, y)
    ensures SameOutcome(x, y)
  {
    SameItems(db, s, x.items, y.items);
    SameWallets(db, s, x.wallets, y.wallets);
    SameAuctions(db, s, x.auctions, y.auctions);
    assert x.bids == y.bids;
  }

  /** Main result: the unordered scan may return the due auctions in any order; every order gives the same outcome. */
  lemma OrderIrrelevant(w: World, db: Tables, ids: seq<nat>, run: seq<Event>, ids': seq<nat>, run': seq<Event>)
    requires Inv(w, db) && SetOf(ids) == SetOf(ids')
    requires Pass(db, ids, run) && Legal(w.cfg, db, run)
    requires Pass(db, ids', run') && Legal(w.cfg, db, run')
    ensures SameOutcome(After(w.cfg, db, run), After(w.cfg, db, run'))
  {
    PassSettles(w, db, ids, run);
    PassSettles(w, db, ids', run');
    SettledUnique(db, SetOf(ids), After(w.cfg, db, run), After(w.cfg, db, run'));
  }

  // ---- Bids that race with the scan ----

  /** The bids on a committed since db. */
  ghost function Since(db: Tables, db': Tables, a: nat): set<nat> {
    set b | b in db'.bids && db'.bids[b].auction == a && b !in db.bids
  }

  /**
   * Main result: an auction found due at time s, and still active after any run of other transactions, is due at a
   * later time t exactly when every bid accepted in between had a reading that the extension does not carry past t.
   */
  lemma StillDueIff(w: World, db: Tables, run: seq<Event>, a: nat, s: nat, t: nat)
    requires Inv(w, db) && Legal(w.cfg, db, run)
    requires a in db.auctions && Due(db.auctions[a], s) && s <= t
    requires a in After(w.cfg, db, run).auctions && After(w.cfg, db, run).auctions[a].status == Active
    ensures var db' := After(w.cfg, db, run);
            Due(db'.auctions[a], t) <==>
            forall b :: b in Since(db, db', a) ==> db'.bids[b].createdAt + w.cfg.extension <= t
  {
    Reachable.RunKeeps(w, db, run);
    History.RunGrows(w, db, run);
    DueBoth(w, db, After(w.cfg, db, run), a, s, t);
  }

  lemma DueBoth(w: World, db: Tables, db': Tables, a: nat, s: nat, t: nat)
    requires Inv(w, db) && Inv(w, db') && History.Grows(db, db')
    requires a in db.auctions && Due(db.auctions[a], s) && s <= t && a in db'.auctions &&
        db'.auctions[a].status == Active
    ensures Due(db'.auctions[a], t) <==>
        forall b :: b in Since(db, db', a) ==> db'.bids[b].createdAt + w.cfg.extension <= t
  {
    assert Timed(w.cfg, a, db.auctions[a], db.bids) && Timed(w.cfg, a, db'.auctions[a], db'.bids);
    DueByTimes(w, db, db', a, s, t);
  }

  lemma NewBidsNoLater(db: Tables, db': Tables, a: nat)
    requires BidsOk(db') && Growth(db'.bids) && a in db'.auctions && db'.auctions[a].highest.Some?
    ensures db'.auctions[a].highest.value in db'.bids
    ensures forall b :: b in Since(db, db', a) ==>
        db'.bids[b].createdAt <= db'.bids[db'.auctions[a].highest.value].createdAt
  {
    assert LeaderOk(db', a);
    forall b | b in Since(db, db', a)
      ensures db'.bids[b].createdAt <= db'.bids[db'.auctions[a].highest.value].createdAt
    {
      assert BidOk(db', b);
    }
  }

  /** A leader that is not new was the leader before. */
  lemma OldLeader(db: Tables, db': Tables, a: nat)
    requires BidsOk(db) && BidsOk(db') && History.Grows(db, db')
    requires a in db.auctions && a in db'.auctions && db'.auctions[a].highest.Some?
    ensures var h' := db'.auctions[a].highest.value;
            if h' in db.bids then db.auctions[a].highest == Some(h') && h' in db'.bids &&
                                  db.bids[h'].createdAt == db'.bids[h'].createdAt
            else h' in Since(db, db', a)
  {
    var h' := db'.auctions[a].highest.value;
    assert LeaderOk(db', a) && LeaderOk(db, a);
    if h' in db.bids {
      assert History.BidGrows(db, db', h') && BidOk(db, h');
      var h := db.auctions[a].highest.value;
      assert History.BidGrows(db, db', h) && BidOk(db', h);
    }
  }

  lemma DueByTimes(w: World, db: Tables, db': Tables, a: nat, s: nat, t: nat)
    requires BidsOk(db) && BidsOk(db') && Growth(db'.bids) && History.Grows(db, db')
    requires a in db.auctions && Due(db.auctions[a], s) && s <= t && a in db'.auctions &&
        db'.auctions[a].status == Active
    requires Timed(w.cfg, a, db.auctions[a], db.bids) && Timed(w.cfg, a, db'.auctions[a], db'.bids)
    ensures Due(db'.auctions[a], t) <==>
        forall b :: b in Since(db, db', a) ==> db'.bids[b].createdAt + w.cfg.extension <= t
  {
    assert History.AuctionGrows(db, db', a);
    if db'.auctions[a].highest.Some? {
      NewBidsNoLater(db, db', a);
      OldLeader(db, db', a);
    } else {
      forall b ensures b !in Since(db, db', a) {
        assert b in db'.bids ==> BidOk(db', b);
      }
    }
  }
}
