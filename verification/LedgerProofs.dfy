/** How one recorded money movement moves the books. */
module LedgerProofs {
  import opened Model
  import opened Sums
  import opened Wallets
  import opened Invariants

  lemma {:induction false} ReplaySame(l1: map<nat, Entry>, l2: map<nat, Entry>, opening: nat, g: nat, n: nat)
    requires forall e | 0 <= e < n :: (e in l1 && l1[e].guild == g) == (e in l2 && l2[e].guild == g)
    requires forall e | 0 <= e < n && e in l1 && l1[e].guild == g :: l1[e] == l2[e]
    ensures Replay(l1, opening, g, n) == Replay(l2, opening, g, n)
  {
    if n > 0 {
      ReplaySame(l1, l2, opening, g, n - 1);
    }
  }

  /** Ids above all of g's entries add nothing. */
  lemma {:induction false} ReplaySettled(l: map<nat, Entry>, opening: nat, g: nat, m: nat, n: nat)
    requires m <= n && AllBelow(l, g, m)
    ensures Replay(l, opening, g, n) == Replay(l, opening, g, m)
    decreases n
  {
    if m < n {
      ReplaySettled(l, opening, g, m, n - 1);
    }
  }

  /** Appending an entry above all of its guild's entries posts it to the replayed wallet. */
  lemma RebuildAppend(l: map<nat, Entry>, opening: nat, g: nat, w: Wallet, e: nat, x: Entry)
    requires Rebuilds(l, opening, g, w)
    requires EntryFresh(l, g, e) && x.guild == g && Solvent(Post(w, x))
    ensures Rebuilds(l[e := x], opening, g, Post(w, x))
  {
    var l' := l[e := x];
    forall n: nat
      ensures Replay(l', opening, g, n) == if n <= e then Replay(l, opening, g, n) else Post(w, x)
    {
      if n <= e {
        ReplaySame(l, l', opening, g, n);
      } else {
        ReplaySame(l, l', opening, g, e);
        assert AllBelow(l', g, e + 1);
        ReplaySettled(l', opening, g, e + 1, n);
      }
    }
    assert e in l' && l'[e].guild == g;
  }

  lemma RebuildOther(l: map<nat, Entry>, opening: nat, g: nat, w: Wallet, e: nat, x: Entry)
    requires Rebuilds(l, opening, g, w)
    requires e !in l && x.guild != g
    ensures Rebuilds(l[e := x], opening, g, w)
  {
    var l' := l[e := x];
    forall n: nat ensures Replay(l', opening, g, n) == Replay(l, opening, g, n) {
      ReplaySame(l, l', opening, g, n);
    }
    forall n: nat | AllBelow(l', g, n) ensures AllBelow(l, g, n) {
      forall k | k in l && l[k].guild == g ensures k < n {
        assert k in l' && l'[k] == l[k];
      }
    }
  }

  lemma RecordBooks(w: World, db: Tables, g: nat, wal: Wallet, kind: EntryKind, amount: int, ref: Ref, e: nat)
    requires Books(w, db) && g in db.wallets && EntryFresh(db.ledger, g, e)
    requires wal == Post(db.wallets[g], Entry(g, kind, amount, ref)) && Solvent(wal)
    ensures Books(w, Record(db, g, wal, kind, amount, ref, e))
  {
    var x := Entry(g, kind, amount, ref);
    forall h | h in db.wallets
      ensures Rebuilds(db.ledger[e := x], w.opening[h], h, if h == g then wal else db.wallets[h])
    {
      if h == g {
        RebuildAppend(db.ledger, w.opening[h], h, db.wallets[h], e, x);
      } else {
        RebuildOther(db.ledger, w.opening[h], h, db.wallets[h], e, x);
      }
    }
  }

  lemma TotalsUpdate(wallets: map<nat, Wallet>, g: nat, wal: Wallet)
    requires g in wallets
    ensures Sum(Totals(wallets[g := wal])) == Sum(Totals(wallets)) + wal.total - wallets[g].total
  {
    SumUpdate(Totals(wallets), g, wal.total);
    assert Totals(wallets[g := wal]) == Totals(wallets)[g := wal.total];
  }

  lemma WalletBound(w: World, db: Tables, g: nat)
    requires Reserves(db) && Conserved(w, db) && g in db.wallets
    ensures 0 <= db.wallets[g].reserved <= db.wallets[g].total <= Sum(Opening(w))
  {
    forall h | h in db.wallets ensures Solvent(db.wallets[h]) { }
    SumBounds(Totals(db.wallets));
    assert Totals(db.wallets)[g] == db.wallets[g].total;
  }

  lemma NetUpdate(l: map<nat, Entry>, e: nat, x: Entry, a: nat)
    requires e !in l
    ensures Sum(NetOf(l[e := x], a)) == Sum(NetOf(l, a)) + Net(x, a)
  {
    SumUpdate(NetOf(l, a), e, Net(x, a));
    assert NetOf(l[e := x], a) == NetOf(l, a)[e := Net(x, a)];
  }

  lemma BookedUpdate(l: map<nat, Entry>, e: nat, x: Entry, ref: Ref)
    requires e !in l
    ensures Booked(l[e := x], ref) == Booked(l, ref) + if x.ref == ref then {e} else {}
  {
  }

  lemma EntryFreshAfter(l: map<nat, Entry>, g: nat, e: nat, x: Entry, e': nat)
    requires EntryFresh(l, g, e') && e < e'
    ensures EntryFresh(l[e := x], g, e')
  {
  }

  /** The money one auction holds of guild g changes only with that auction's leader. */
  lemma HeldUpdate(auctions: map<nat, Auction>, bids: map<nat, Bid>, a: nat, auc: Auction, bids': map<nat, Bid>, g: nat)
    requires forall x :: x in auctions && x != a ==> HeldOn(auctions[x], bids', g) == HeldOn(auctions[x], bids, g)
    ensures Sum(Held(auctions[a := auc], bids', g)) ==
            Sum(Held(auctions, bids, g)) - (if a in auctions then HeldOn(auctions[a], bids, g) else 0) +
            HeldOn(auc, bids', g)
  {
    SumUpdate(Held(auctions, bids, g), a, HeldOn(auc, bids', g));
    assert Held(auctions[a := auc], bids', g) == Held(auctions, bids, g)[a := HeldOn(auc, bids', g)];
  }

  /** Rows already booked under a reference stay as they were. */
  lemma PaidSame(db: Tables, db': Tables, ref: Ref)
    requires Booked(db'.ledger, ref) == Booked(db.ledger, ref)
    requires forall e :: e in db.ledger ==> e in db'.ledger && db'.ledger[e] == db.ledger[e]
    ensures forall p, q, m :: PaidOnce(db.ledger, ref, p, q, m) ==> PaidOnce(db'.ledger, ref, p, q, m)
  {
    forall p, q, m | PaidOnce(db.ledger, ref, p, q, m) ensures PaidOnce(db'.ledger, ref, p, q, m) {
      var d, c :| Pair(db.ledger, ref, p, q, m, d, c);
      assert Pair(db'.ledger, ref, p, q, m, d, c);
    }
  }

  /** Adding entries keeps the old ones valid while their listings and auctions remain. */
  lemma EntriesKept(db: Tables, db': Tables)
    requires forall e :: e in db.ledger ==> EntryOk(db, db.ledger[e])
    requires db.listings.Keys <= db'.listings.Keys && db.auctions.Keys <= db'.auctions.Keys
    requires forall e :: e in db'.ledger && e !in db.ledger ==> EntryOk(db', db'.ledger[e])
    requires forall e :: e in db.ledger ==> e in db'.ledger && db'.ledger[e] == db.ledger[e]
    ensures forall e :: e in db'.ledger ==> EntryOk(db', db'.ledger[e])
  {
    forall e | e in db'.ledger ensures EntryOk(db', db'.ledger[e]) {
      if e in db.ledger {
        assert EntryOk(db, db.ledger[e]);
      }
    }
  }

  lemma ListingKept(db: Tables, db': Tables, l: nat)
    requires l in db.listings && l in db'.listings && db'.listings[l] == db.listings[l]
    requires ListingBooked(db, l)
    requires Booked(db'.ledger, ListingRef(l)) == Booked(db.ledger, ListingRef(l))
    requires forall e :: e in db.ledger ==> e in db'.ledger && db'.ledger[e] == db.ledger[e]
    ensures ListingBooked(db', l)
  {
    PaidSame(db, db', ListingRef(l));
  }

  lemma ListingsKept(db: Tables, db': Tables)
    requires db'.listings == db.listings
    requires forall l :: l in db.listings ==> ListingBooked(db, l)
    requires forall ref: Ref :: ref.ListingRef? ==> Booked(db'.ledger, ref) == Booked(db.ledger, ref)
    requires forall e :: e in db.ledger ==> e in db'.ledger && db'.ledger[e] == db.ledger[e]
    ensures forall l :: l in db'.listings ==> ListingBooked(db', l)
  {
    forall l | l in db'.listings ensures ListingBooked(db', l) {
      ListingKept(db, db', l);
    }
  }

  /** The account of an auction this step does not touch. */
  lemma AuctionKept(db: Tables, db': Tables, y: nat)
    requires y in db.auctions && y in db'.auctions && db'.auctions[y] == db.auctions[y]
    requires AuctionBooked(db, y) && LeaderOk(db, y)
    requires db.auctions[y].highest.Some? ==>
               db.auctions[y].highest.value in db'.bids &&
               db'.bids[db.auctions[y].highest.value].amount == db.bids[db.auctions[y].highest.value].amount &&
               db'.bids[db.auctions[y].highest.value].bidder == db.bids[db.auctions[y].highest.value].bidder
    requires Booked(db'.ledger, AuctionRef(y)) == Booked(db.ledger, AuctionRef(y))
    requires forall e :: e in db.ledger ==> e in db'.ledger && db'.ledger[e] == db.ledger[e]
    requires Sum(NetOf(db'.ledger, y)) == Sum(NetOf(db.ledger, y))
    ensures AuctionBooked(db', y)
  {
    PaidSame(db, db', AuctionRef(y));
  }

  lemma AccountsFrame(db: Tables, db': Tables)
    requires Accounts(db)
    requires db'.ledger == db.ledger && db'.auctions == db.auctions && db'.bids == db.bids &&
        db'.listings == db.listings
    ensures Accounts(db')
  {
    EntriesKept(db, db');
    forall a | a in db'.auctions ensures AuctionBooked(db', a) { assert AuctionBooked(db, a); }
    forall l | l in db'.listings ensures ListingBooked(db', l) { assert ListingBooked(db, l); }
  }

  lemma MoneyFrame(w: World, db: Tables, db': Tables)
    requires db'.wallets == db.wallets && db'.ledger == db.ledger
    requires Conserved(w, db) && Books(w, db)
    ensures Conserved(w, db') && Books(w, db')
  {
  }

  lemma BidsFrame(db: Tables, db': Tables)
    requires BidsOk(db) && db'.bids == db.bids && db'.auctions == db.auctions && db'.guilds == db.guilds
    ensures BidsOk(db')
  {
    forall b | b in db'.bids ensures BidOk(db', b) { assert BidOk(db, b); }
    forall a | a in db'.auctions ensures LeaderOk(db', a) { assert LeaderOk(db, a); }
  }

  // ---- A payment: one debit and one credit under the same reference ----

  function EarnFor(db: Tables, ref: Ref, seller: nat, amount: int, e: nat): Tables
    requires seller in db.wallets
  {
    var w := db.wallets[seller];
    Record(db, seller, w.(total := w.total + amount), Credited, amount, ref, e)
  }

  lemma EarnKeeps(w: World, db: Tables, ref: Ref, seller: nat, amount: int, e: nat)
    requires seller in db.wallets && amount > 0
    requires Solvent(db.wallets[seller]) && EntryFresh(db.ledger, seller, e) && Books(w, db)
    ensures Books(w, EarnFor(db, ref, seller, amount, e))
    ensures Sum(Totals(EarnFor(db, ref, seller, amount, e).wallets)) == Sum(Totals(db.wallets)) + amount
  {
    var paid := EarnFor(db, ref, seller, amount, e);
    RecordBooks(w, db, seller, paid.wallets[seller], Credited, amount, ref, e);
    TotalsUpdate(db.wallets, seller, paid.wallets[seller]);
  }

  function Paired(l: map<nat, Entry>, ref: Ref, payer: nat, payee: nat, amount: int, e1: nat,
      e2: nat): map<nat, Entry> {
    l[e1 := Entry(payer, Debited, amount, ref)][e2 := Entry(payee, Credited, amount, ref)]
  }

  lemma PairBooked(l: map<nat, Entry>, ref: Ref, payer: nat, payee: nat, amount: int, e1: nat, e2: nat)
    requires e1 !in l && e2 !in l && e1 != e2 && !ref.BidRef?
    ensures forall r: Ref :: r != ref ==> Booked(Paired(l, ref, payer, payee, amount, e1, e2), r) == Booked(l, r)
    ensures Booked(l, ref) == {} ==> PaidOnce(Paired(l, ref, payer, payee, amount, e1, e2), ref, payer, payee, amount)
    ensures forall y :: Sum(NetOf(Paired(l, ref, payer, payee, amount, e1, e2), y)) == Sum(NetOf(l, y))
  {
    var x1 := Entry(payer, Debited, amount, ref);
    var x2 := Entry(payee, Credited, amount, ref);
    var l1 := l[e1 := x1];
    var l2 := Paired(l, ref, payer, payee, amount, e1, e2);
    assert l2 == l1[e2 := x2];
    forall y ensures Sum(NetOf(l2, y)) == Sum(NetOf(l, y)) {
      NetUpdate(l, e1, x1, y);
      NetUpdate(l1, e2, x2, y);
    }
    if Booked(l, ref) == {} {
      BookedUpdate(l, e1, x1, ref);
      BookedUpdate(l1, e2, x2, ref);
      assert Pair(l2, ref, payer, payee, amount, e1, e2);
    }
  }
}
