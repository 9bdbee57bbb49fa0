/** A purchase keeps every invariant; the daily cap survives a clock that crosses midnight inside it. */
module BuyProofs {
  import opened Model
  import opened Sums
  import opened Wallets
  import opened Transitions
  import opened Invariants
  import opened LedgerProofs

  function ChargeFor(db: Tables, l: nat, buyer: nat, price: int, e: nat): Tables
    requires buyer in db.wallets
  {
    var w := db.wallets[buyer];
    Record(db, buyer, w.(total := w.total - price), Debited, price, ListingRef(l), e)
  }

  function UnitsLeft(it: Item): Item {
    it.(stock := it.stock - 1, status := if it.stock == 1 then Sold else it.status)
  }

  /** One unit leaves the seller's row and becomes a row of the buyer's. */
  function HandOver(items: map<nat, Item>, i: nat, buyer: nat, row: nat): map<nat, Item>
    requires i in items
  {
    items[i := UnitsLeft(items[i])][row := Item(items[i].name, items[i].tier, buyer, Available, 1)]
  }

  function SoldTo(l: Listing, buyer: nat): Listing { l.(status := ListingSold, buyer := Some(buyer)) }

  function SpentOn(daily: map<(nat, nat), int>, k: (nat, nat)): int { if k in daily then daily[k] else 0 }

  /** The guards a purchase passed and the rows it wrote. */
  ghost predicate Rows(db: Tables, buyer: nat, l: nat, env: Env, db': Tables) {
    && l in db.listings && db.listings[l].status == Open && db.listings[l].seller != buyer
    && db.listings[l].item in db.items && db.items[db.listings[l].item].stock >= 1
    && buyer in db.guilds && env.row !in db.items
    && db'.items == HandOver(db.items, db.listings[l].item, buyer, env.row)
    && db'.listings == db.listings[l := SoldTo(db.listings[l], buyer)]
    && db'.guilds == db.guilds && db'.auctions == db.auctions && db'.bids == db.bids
    && db'.wallets.Keys == db.wallets.Keys
  }

  /** The daily total was checked for one day and written for the same or a later one. */
  ghost predicate Day(db: Tables, buyer: nat, l: nat, env: Env, db': Tables) {
    && env.t0 <= env.t1 && buyer in db.guilds && l in db.listings
    && (forall d :: (buyer, d) in db.daily ==> d <= DayOf(env.t0))
    && (db.guilds[buyer] == 0 || SpentOn(db.daily, (buyer, DayOf(env.t0))) + db.listings[l].price <= db.guilds[buyer])
    && var k := (buyer, DayOf(env.t1));
       db'.daily == db.daily[k := SpentOn(db.daily, k) + db.listings[l].price]
  }

  ghost predicate Moves(db: Tables, buyer: nat, l: nat, env: Env, db': Tables) {
    && l in db.listings && env.e1 < env.e2
    && var lst := db.listings[l];
       && buyer in db.wallets && lst.seller in db.wallets && buyer != lst.seller
       && 0 < lst.price <= db.wallets[buyer].total - db.wallets[buyer].reserved
       && EntryFresh(db.ledger, buyer, env.e1) && EntryFresh(db.ledger, lst.seller, env.e2)
       && var earned := EarnFor(ChargeFor(db, l, buyer, lst.price, env.e1), ListingRef(l), lst.seller, lst.price,
                                env.e2);
          db'.wallets == earned.wallets && db'.ledger == earned.ledger
  }

  lemma Shape(db: Tables, buyer: nat, l: nat, env: Env, db': Tables)
    requires EnvOk(db, Buy(buyer, l), env) && Transitions.Buy(db, buyer, l, env) == Ok(db')
    ensures Rows(db, buyer, l, env, db') && Day(db, buyer, l, env, db') && Moves(db, buyer, l, env, db')
  {
  }

  lemma KeepsCatalog(db: Tables, buyer: nat, l: nat, env: Env, db': Tables)
    requires Rows(db, buyer, l, env, db') && Catalog(db)
    ensures Catalog(db')
  {
    assert ListingOk(db, db.listings[l]) && ItemOk(db.items[db.listings[l].item]);
    forall x, i ensures ActiveFor(db', x, i) == ActiveFor(db, x, i) {
    }
    forall x | x in db'.listings ensures ListingOk(db', db'.listings[x]) {
      assert ListingOk(db, db.listings[x]);
    }
    forall x | x in db'.auctions ensures AuctionOk(db', db'.auctions[x]) {
      assert AuctionOk(db, db.auctions[x]);
    }
  }

  lemma KeepsReserves(db: Tables, buyer: nat, l: nat, env: Env, db': Tables)
    requires Rows(db, buyer, l, env, db') && Moves(db, buyer, l, env, db') && Reserves(db)
    ensures Reserves(db')
  {
  }

  lemma ChargeKeeps(w: World, db: Tables, l: nat, buyer: nat, price: int, e: nat)
    requires buyer in db.wallets && 0 < price <= db.wallets[buyer].total - db.wallets[buyer].reserved
    requires Solvent(db.wallets[buyer]) && EntryFresh(db.ledger, buyer, e) && Books(w, db)
    ensures Books(w, ChargeFor(db, l, buyer, price, e))
    ensures Sum(Totals(ChargeFor(db, l, buyer, price, e).wallets)) == Sum(Totals(db.wallets)) - price
  {
    var paid := ChargeFor(db, l, buyer, price, e);
    RecordBooks(w, db, buyer, paid.wallets[buyer], Debited, price, ListingRef(l), e);
    TotalsUpdate(db.wallets, buyer, paid.wallets[buyer]);
  }

  lemma KeepsMoney(w: World, db: Tables, buyer: nat, l: nat, env: Env, db': Tables)
    requires Moves(db, buyer, l, env, db') && Reserves(db) && Conserved(w, db) && Books(w, db)
    ensures Conserved(w, db') && Books(w, db')
  {
    var lst := db.listings[l];
    assert Solvent(db.wallets[buyer]) && Solvent(db.wallets[lst.seller]);
    PayKeeps(w, db, l, buyer, lst.seller, lst.price, env.e1, env.e2);
  }

  /** A purchase's debit and credit keep the books and the sum of the balances. */
  lemma PayKeeps(w: World, db: Tables, l: nat, buyer: nat, seller: nat, price: int, e1: nat, e2: nat)
    requires buyer in db.wallets && seller in db.wallets && buyer != seller && e1 < e2
    requires 0 < price <= db.wallets[buyer].total - db.wallets[buyer].reserved
    requires Solvent(db.wallets[buyer]) && Solvent(db.wallets[seller]) && Books(w, db)
    requires EntryFresh(db.ledger, buyer, e1) && EntryFresh(db.ledger, seller, e2)
    ensures var earned := EarnFor(ChargeFor(db, l, buyer, price, e1), ListingRef(l), seller, price, e2);
            Books(w, earned) && Sum(Totals(earned.wallets)) == Sum(Totals(db.wallets))
  {
    ChargeKeeps(w, db, l, buyer, price, e1);
    EntryFreshAfter(db.ledger, seller, e1, Entry(buyer, Debited, price, ListingRef(l)), e2);
    EarnKeeps(w, ChargeFor(db, l, buyer, price, e1), ListingRef(l), seller, price, e2);
  }

  lemma Bookings(db: Tables, buyer: nat, l: nat, env: Env, db': Tables)
    requires Moves(db, buyer, l, env, db')
    ensures forall ref: Ref :: ref != ListingRef(l) ==> Booked(db'.ledger, ref) == Booked(db.ledger, ref)
    ensures Booked(db.ledger, ListingRef(l)) == {} ==>
              PaidOnce(db'.ledger, ListingRef(l), buyer, db.listings[l].seller, db.listings[l].price)
    ensures forall e :: e in db.ledger ==> e in db'.ledger && db'.ledger[e] == db.ledger[e]
    ensures forall e :: e in db'.ledger && e !in db.ledger ==>
              db'.ledger[e].ref == ListingRef(l) && (db'.ledger[e].kind == Debited || db'.ledger[e].kind == Credited)
    ensures forall y :: Sum(NetOf(db'.ledger, y)) == Sum(NetOf(db.ledger, y))
  {
    var lst := db.listings[l];
    PairBooked(db.ledger, ListingRef(l), buyer, lst.seller, lst.price, env.e1, env.e2);
  }

  lemma ListingAccounts(db: Tables, buyer: nat, l: nat, env: Env, db': Tables)
    requires Rows(db, buyer, l, env, db') && Moves(db, buyer, l, env, db')
    requires forall x :: x in db.listings ==> ListingBooked(db, x)
    ensures forall x :: x in db'.listings ==> ListingBooked(db', x)
  {
    Bookings(db, buyer, l, env, db');
    forall x | x in db'.listings ensures ListingBooked(db', x) {
      assert ListingBooked(db, x);
      if x != l {
        ListingKept(db, db', x);
      }
    }
  }

  lemma KeepsAccounts(db: Tables, buyer: nat, l: nat, env: Env, db': Tables)
    requires Rows(db, buyer, l, env, db') && Moves(db, buyer, l, env, db') && BidsOk(db) && Accounts(db)
    ensures Accounts(db')
  {
    ListingAccounts(db, buyer, l, env, db');
    Bookings(db, buyer, l, env, db');
    EntriesKept(db, db');
    forall y | y in db'.auctions ensures AuctionBooked(db', y) {
      assert LeaderOk(db, y);
      AuctionKept(db, db', y);
    }
  }

  /** The day written holds nothing yet unless it is the day that was checked. */
  lemma WithinCap(daily: map<(nat, nat), int>, cap: nat, buyer: nat, price: int, t0: nat, t1: nat)
    requires t0 <= t1 && price > 0
    requires forall d :: (buyer, d) in daily ==> d <= DayOf(t0)
    requires SpentOn(daily, (buyer, DayOf(t0))) >= 0
    requires cap == 0 || SpentOn(daily, (buyer, DayOf(t0))) + price <= cap
    ensures cap == 0 || SpentOn(daily, (buyer, DayOf(t1))) + price <= cap
  {
    DayMonotone(t0, t1);
    if DayOf(t0) < DayOf(t1) {
      assert (buyer, DayOf(t1)) !in daily;
    }
  }

  lemma SpentMore(daily: map<(nat, nat), int>, k: (nat, nat), price: int, g: nat)
    ensures Sum(SpentBy(daily[k := SpentOn(daily, k) + price], g)) ==
            Sum(SpentBy(daily, g)) + if k.0 == g then price else 0
  {
    var v := if k.0 == g then SpentOn(daily, k) + price else 0;
    SumUpdate(SpentBy(daily, g), k, v);
    assert SpentBy(daily[k := SpentOn(daily, k) + price], g) == SpentBy(daily, g)[k := v];
  }

  lemma BoughtMore(listings: map<nat, Listing>, l: nat, buyer: nat, g: nat)
    requires l in listings && listings[l].status == Open
    ensures Sum(BoughtBy(listings[l := SoldTo(listings[l], buyer)], g)) ==
            Sum(BoughtBy(listings, g)) + if buyer == g then listings[l].price else 0
  {
    var v := if buyer == g then listings[l].price else 0;
    SumUpdate(BoughtBy(listings, g), l, v);
    assert BoughtBy(listings[l := SoldTo(listings[l], buyer)], g) == BoughtBy(listings, g)[l := v];
  }

  lemma KeepsSum(daily: map<(nat, nat), int>, listings: map<nat, Listing>, l: nat, buyer: nat, day: nat, g: nat)
    requires l in listings && listings[l].status == Open
    requires Sum(SpentBy(daily, g)) == Sum(BoughtBy(listings, g))
    ensures Sum(SpentBy(daily[(buyer, day) := SpentOn(daily, (buyer, day)) + listings[l].price], g)) ==
            Sum(BoughtBy(listings[l := SoldTo(listings[l], buyer)], g))
  {
    SpentMore(daily, (buyer, day), listings[l].price, g);
    BoughtMore(listings, l, buyer, g);
  }

  ghost predicate Matched(db: Tables, g: nat) {
    Sum(SpentBy(db.daily, g)) == Sum(BoughtBy(db.listings, g))
  }

  lemma KeepsMatched(db: Tables, buyer: nat, l: nat, env: Env, db': Tables, g: nat)
    requires Rows(db, buyer, l, env, db') && Day(db, buyer, l, env, db') && Matched(db, g)
    ensures Matched(db', g)
  {
    KeepsSum(db.daily, db.listings, l, buyer, DayOf(env.t1), g);
  }

  lemma KeepsSpending(db: Tables, buyer: nat, l: nat, env: Env, db': Tables)
    requires Rows(db, buyer, l, env, db') && Day(db, buyer, l, env, db') && Spending(db) && db.listings[l].price > 0
    ensures Spending(db')
  {
    assert SpentOn(db.daily, (buyer, DayOf(env.t0))) >= 0;
    WithinCap(db.daily, db.guilds[buyer], buyer, db.listings[l].price, env.t0, env.t1);
    forall g | g in db'.guilds ensures Matched(db', g) {
      assert Matched(db, g);
      KeepsMatched(db, buyer, l, env, db', g);
    }
  }

  lemma Keeps(w: World, db: Tables, buyer: nat, l: nat, env: Env, db': Tables)
    requires Inv(w, db)
    requires Rows(db, buyer, l, env, db') && Day(db, buyer, l, env, db') && Moves(db, buyer, l, env, db')
    ensures Inv(w, db')
  {
    KeepsCatalog(db, buyer, l, env, db');
    BidsFrame(db, db');
    KeepsReserves(db, buyer, l, env, db');
    KeepsMoney(w, db, buyer, l, env, db');
    KeepsAccounts(db, buyer, l, env, db');
    KeepsSpending(db, buyer, l, env, db');
  }
}
