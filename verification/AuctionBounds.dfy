/** Every auction ends: bids grow geometrically while money does not, so there are boundedly many extensions. */
module AuctionBounds {
  import opened Model
  import opened Sums
  import opened Invariants
  import Reachable

  function Pow(b: nat, n: nat): nat { if n == 0 then 1 else b * Pow(b, n - 1) }

  lemma {:induction false} MaxExists(s: set<nat>) returns (m: nat)
    requires s != {}
    ensures m in s && forall x :: x in s ==> x <= m
  {
    var x :| x in s;
    if s == {x} {
      m := x;
    } else {
      m := MaxExists(s - {x});
      assert s == (s - {x}) + {x};
      m := if m < x then x else m;
    }
  }

  /** After |s| bids in id order from lo to hi the price has grown by 5% at each step. */
  lemma {:induction false} Geometric(bids: map<nat, Bid>, a: nat, s: set<nat>, lo: nat, hi: nat)
    requires Growth(bids) && s <= BidsOf(bids, a) && lo in s && hi in s
    requires forall x :: x in s ==> lo <= x <= hi
    requires forall x :: x in s ==> bids[x].amount > 0
    ensures Pow(20, |s| - 1) * bids[hi].amount >= Pow(21, |s| - 1) * bids[lo].amount
    decreases |s|
  {
    if s == {hi} {
      assert lo == hi && |s| == 1;
    } else {
      var rest := s - {hi};
      assert |rest| == |s| - 1;
      var y :| y in s && y != hi;
      assert y in rest && rest != {};
      assert lo != hi;
      var top := MaxExists(rest);
      Geometric(bids, a, rest, lo, top);
      GrowOnce(|rest| - 1, bids[lo].amount, bids[top].amount, bids[hi].amount);
    }
  }

  lemma GrowOnce(k: nat, first: int, before: int, next: int)
    requires Pow(20, k) * before >= Pow(21, k) * first
    requires 100 * next >= 105 * before
    ensures Pow(20, k + 1) * next >= Pow(21, k + 1) * first
  {
    var p, q := Pow(20, k), Pow(21, k);
    calc {
      Pow(20, k + 1) * next;
      (20 * p) * next;
      p * (20 * next);
      >= { MulMono(p, 21 * before, 20 * next); }
      p * (21 * before);
      21 * (p * before);
      >= 21 * (q * first);
      (21 * q) * first;
      Pow(21, k + 1) * first;
    }
  }

  lemma MulMono(p: nat, x: int, y: int)
    requires x <= y
    ensures p * x <= p * y
  {
  }

  lemma BernoulliStep(k: nat, p: nat, q: nat)
    requires 20 * q >= (20 + k) * p
    ensures 20 * (21 * q) >= (20 + (k + 1)) * (20 * p)
  {
    assert 21 * (20 * q) >= 21 * ((20 + k) * p);
    assert 21 * ((20 + k) * p) == (21 * (20 + k)) * p;
    MulMono(p, 20 * (21 + k), 21 * (20 + k));
    assert p * (20 * (21 + k)) == (20 + (k + 1)) * (20 * p);
  }

  /** (21/20)^k is at least 1 + k/20. */
  lemma {:induction false} Bernoulli(k: nat)
    ensures 20 * Pow(21, k) >= (20 + k) * Pow(20, k) && Pow(20, k) > 0
  {
    if k > 0 {
      Bernoulli(k - 1);
      BernoulliStep(k - 1, Pow(20, k - 1), Pow(21, k - 1));
    }
  }

  lemma MulCancel(p: int, x: int, y: int)
    requires p > 0 && p * x <= p * y
    ensures x <= y
  {
    assert p * (x - y) <= 0;
  }

  lemma LinearBound(k: nat, money: nat)
    requires Pow(20, k) * money >= Pow(21, k)
    ensures k + 20 <= 20 * money
  {
    Bernoulli(k);
    var p := Pow(20, k);
    assert p * (20 * money) == 20 * (p * money);
    assert p * (20 + k) == (20 + k) * p;
    MulCancel(p, 20 + k, 20 * money);
  }

  /** The bids of a reachable auction, from its first to its leader, and their bound by all the money there is. */
  lemma BidsBounded(w: World, db: Tables, a: nat, first: nat)
    requires Inv(w, db) && a in db.auctions && first in BidsOf(db.bids, a)
    requires forall b :: b in BidsOf(db.bids, a) ==> first <= b
    ensures db.auctions[a].highest.Some? && db.auctions[a].highest.value in BidsOf(db.bids, a)
    ensures var n := |BidsOf(db.bids, a)|;
            && Pow(20, n - 1) * db.bids[db.auctions[a].highest.value].amount >= Pow(21, n - 1) * db.bids[first].amount
            && db.bids[db.auctions[a].highest.value].amount <= Sum(Opening(w))
            && n + 19 <= 20 * Sum(Opening(w))
  {
    var s := BidsOf(db.bids, a);
    assert BidOk(db, first) && LeaderOk(db, a);
    var h := db.auctions[a].highest.value;
    forall b | b in s ensures db.bids[b].amount > 0 && b <= h { assert BidOk(db, b); }
    Geometric(db.bids, a, s, first, h);
    var k: nat, money: nat := |s| - 1, Sum(Opening(w));
    MulMono(Pow(20, k), db.bids[h].amount, money);
    MulMono(Pow(21, k), 1, db.bids[first].amount);
    LinearBound(k, money);
  }

  /** Main result: in every reachable state every auction ends by a time fixed when it was opened. */
  lemma EveryAuctionEnds(w: World, start: Tables, run: seq<Event>, a: nat)
    requires Init(w, start) && Legal(w.cfg, start, run) && a in After(w.cfg, start, run).auctions
    ensures var db := After(w.cfg, start, run);
            && |BidsOf(db.bids, a)| <= 20 * Sum(Opening(w))
            && db.auctions[a].endsAt <=
               db.auctions[a].startsAt + w.cfg.window + w.cfg.extension * |BidsOf(db.bids, a)|
            && db.auctions[a].endsAt <=
               db.auctions[a].startsAt + w.cfg.window + w.cfg.extension * (20 * Sum(Opening(w)))
  {
    Reachable.InitHolds(w, start);
    Reachable.RunKeeps(w, start, run);
    var db := After(w.cfg, start, run);
    assert Timed(w.cfg, a, db.auctions[a], db.bids);
    if BidsOf(db.bids, a) != {} {
      var first := MinExists(BidsOf(db.bids, a));
      BidsBounded(w, db, a, first);
    } else {
      forall g | g in w.opening ensures Opening(w)[g] >= 0 { }
      SumBounds(Opening(w));
    }
    MulMono(w.cfg.extension, |BidsOf(db.bids, a)|, 20 * Sum(Opening(w)));
  }

  lemma {:induction false} MinExists(s: set<nat>) returns (m: nat)
    requires s != {}
    ensures m in s && forall x :: x in s ==> m <= x
  {
    var x :| x in s;
    if s == {x} {
      m := x;
    } else {
      m := MinExists(s - {x});
      assert s == (s - {x}) + {x};
      m := if x < m then x else m;
    }
  }

  /** The leading or winning bid holds the maximum over all bids of its auction, cancelled ones included. */
  lemma LeaderHoldsMaximum(w: World, db: Tables, b: nat)
    requires Inv(w, db) && b in db.bids
    ensures db.bids[b].auction in db.auctions && db.auctions[db.bids[b].auction].highest.Some?
    ensures var h := db.auctions[db.bids[b].auction].highest.value;
            h in db.bids && (b == h || (b < h && db.bids[b].amount < db.bids[h].amount))
  {
    Leader(db, b);
    var h := db.auctions[db.bids[b].auction].highest.value;
    if b < h {
      assert 100 * db.bids[h].amount >= 105 * db.bids[b].amount;
    }
  }

  lemma Leader(db: Tables, b: nat)
    requires BidsOk(db) && b in db.bids
    ensures db.bids[b].auction in db.auctions && db.auctions[db.bids[b].auction].highest.Some? && db.bids[b].amount > 0
    ensures var h := db.auctions[db.bids[b].auction].highest.value;
            b <= h && h in db.bids && db.bids[h].auction == db.bids[b].auction
  {
    assert BidOk(db, b);
    assert LeaderOk(db, db.bids[b].auction);
  }
}
