/** What holds in every reachable state of the marketplace, and the runs it is proved over. */
module Invariants {
  import opened Model
  import opened Rules
  import opened Sums
  import opened Transitions

  /** Fixed facts of a deployment: its configuration and each guild's opening balance. */
  datatype World = World(cfg: Config, opening: map<nat, nat>)

  // ---- Items, listings and auctions refer to each other consistently ----

  ghost predicate ItemOk(it: Item) {
    && it.stock >= 0
    && (it.tier == Legendary ==> it.stock == 1 && (it.status == Available || it.status == InAuction))
    && (it.tier != Legendary ==> (it.stock == 0 <==> it.status == Sold) && (it.stock != 0 <==> it.status == Available))
  }

  ghost predicate ListingOk(db: Tables, l: Listing) {
    && l.item in db.items
    && db.items[l.item].tier != Legendary
    && db.items[l.item].owner == l.seller
    && l.price > 0
    && (l.status == Open || l.status == ListingSold)
    && (l.status == Open ==> l.buyer == None)
    && (l.status == ListingSold ==> l.buyer.Some? && l.buyer.value in db.guilds && l.buyer.value != l.seller)
  }

  ghost predicate AuctionOk(db: Tables, auc: Auction) {
    && auc.item in db.items
    && db.items[auc.item].tier == Legendary
    && auc.seller in db.guilds
    && (auc.status == Active || auc.status == Settled)
    && (auc.status == Active ==> db.items[auc.item].owner == auc.seller && db.items[auc.item].status == InAuction)
  }

  ghost predicate ActiveFor(db: Tables, a: nat, i: nat) {
    a in db.auctions && db.auctions[a].status == Active && db.auctions[a].item == i
  }

  ghost predicate Catalog(db: Tables) {
    && db.guilds.Keys == db.wallets.Keys
    && (forall i :: i in db.items ==> ItemOk(db.items[i]) && db.items[i].owner in db.guilds)
    && (forall l :: l in db.listings ==> ListingOk(db, db.listings[l]))
    && (forall a :: a in db.auctions ==> AuctionOk(db, db.auctions[a]))
    && (forall i :: i in db.items && db.items[i].status == InAuction ==> exists a :: ActiveFor(db, a, i))
    && (forall a, b, i :: ActiveFor(db, a, i) && ActiveFor(db, b, i) ==> a == b)
  }

  // ---- Bids ----

  ghost predicate BidOk(db: Tables, b: nat)
    requires b in db.bids
  {
    var bid := db.bids[b];
    && bid.auction in db.auctions
    && bid.bidder in db.guilds
    && bid.amount > 0
    && bid.bidder != db.auctions[bid.auction].seller
    && (bid.status == Leading <==>
        db.auctions[bid.auction].status == Active && db.auctions[bid.auction].highest == Some(b))
    && (bid.status == Won <==>
        db.auctions[bid.auction].status == Settled && db.auctions[bid.auction].highest == Some(b))
    && db.auctions[bid.auction].highest.Some?
    && b <= db.auctions[bid.auction].highest.value
  }

  ghost predicate LeaderOk(db: Tables, a: nat)
    requires a in db.auctions
  {
    var auc := db.auctions[a];
    && (auc.highest.Some? ==> auc.highest.value in db.bids && db.bids[auc.highest.value].auction == a)
    && auc.winner == if auc.status == Settled && auc.highest.Some? && auc.highest.value in db.bids
                     then Some(db.bids[auc.highest.value].bidder) else None
  }

  ghost predicate BidsOk(db: Tables) {
    && (forall b :: b in db.bids ==> BidOk(db, b))
    && (forall a :: a in db.auctions ==> LeaderOk(db, a))
  }

  /** Bids of one auction, in id order, grow by at least 5% and are in time order. */
  ghost predicate Growth(bids: map<nat, Bid>) {
    forall b, c :: b in bids && c in bids && b < c && bids[b].auction == bids[c].auction ==>
      100 * bids[c].amount >= 105 * bids[b].amount && bids[b].createdAt <= bids[c].createdAt
  }

  ghost function BidsOf(bids: map<nat, Bid>, a: nat): set<nat> {
    set b | b in bids && bids[b].auction == a
  }

  ghost function EndOf(cfg: Config, auc: Auction, bids: map<nat, Bid>): int {
    if auc.highest.Some? && auc.highest.value in bids
    then Max(auc.startsAt + cfg.window, bids[auc.highest.value].createdAt + cfg.extension)
    else auc.startsAt + cfg.window
  }

  ghost predicate Timed(cfg: Config, a: nat, auc: Auction, bids: map<nat, Bid>) {
    && auc.endsAt == EndOf(cfg, auc, bids)
    && auc.startsAt <= auc.updatedAt
    && (auc.highest.Some? && auc.highest.value in bids ==> bids[auc.highest.value].createdAt <= auc.updatedAt)
    && (auc.status == Settled ==> auc.endsAt <= auc.updatedAt)
    && auc.endsAt <= auc.startsAt + cfg.window + cfg.extension * |BidsOf(bids, a)|
    && (forall b :: b in bids && bids[b].auction == a ==> bids[b].createdAt < auc.endsAt)
  }

  ghost predicate Timeline(cfg: Config, db: Tables) {
    forall a :: a in db.auctions ==> Timed(cfg, a, db.auctions[a], db.bids)
  }

  // ---- Money ----

  /** What auction `auc` holds of guild g's money. */
  ghost function HeldOn(auc: Auction, bids: map<nat, Bid>, g: nat): int {
    if auc.status == Active && auc.highest.Some? && auc.highest.value in bids && bids[auc.highest.value].bidder == g
    then bids[auc.highest.value].amount else 0
  }

  ghost function Held(auctions: map<nat, Auction>, bids: map<nat, Bid>, g: nat): map<nat, int> {
    map a | a in auctions :: HeldOn(auctions[a], bids, g)
  }

  ghost predicate Solvent(w: Wallet) { 0 <= w.reserved <= w.total }

  ghost predicate Reserves(db: Tables) {
    forall g :: g in db.wallets ==>
      Solvent(db.wallets[g]) && db.wallets[g].reserved == Sum(Held(db.auctions, db.bids, g))
  }

  ghost function Totals(wallets: map<nat, Wallet>): map<nat, int> {
    map g | g in wallets :: wallets[g].total
  }

  ghost function Opening(w: World): map<nat, int> {
    map g | g in w.opening :: w.opening[g]
  }

  ghost predicate Conserved(w: World, db: Tables) {
    && db.wallets.Keys == w.opening.Keys
    && Sum(Totals(db.wallets)) == Sum(Opening(w))
  }

  ghost predicate Affordable(w: World, bids: map<nat, Bid>) {
    forall b :: b in bids ==> bids[b].amount <= Sum(Opening(w))
  }

  // ---- The ledger ----

  function Post(w: Wallet, e: Entry): Wallet {
    match e.kind
    case Reserved => w.(reserved := w.reserved + e.amount)
    case Freed => w.(reserved := w.reserved - e.amount)
    case Credited => w.(total := w.total + e.amount)
    case Debited =>
      if e.ref.AuctionRef? then Wallet(w.total - e.amount, w.reserved - e.amount)
      else w.(total := w.total - e.amount)
  }

  /** Guild g's wallet as its ledger entries with id below n rebuild it from its opening balance. */
  function Replay(ledger: map<nat, Entry>, opening: nat, g: nat, n: nat): Wallet {
    if n == 0 then Wallet(opening, 0)
    else
      var w := Replay(ledger, opening, g, n - 1);
      if n - 1 in ledger && ledger[n - 1].guild == g then Post(w, ledger[n - 1]) else w
  }

  ghost predicate AllBelow(ledger: map<nat, Entry>, g: nat, n: nat) {
    forall e :: e in ledger && ledger[e].guild == g ==> e < n
  }

  ghost predicate Rebuilds(ledger: map<nat, Entry>, opening: nat, g: nat, w: Wallet) {
    && (forall n: nat :: Solvent(Replay(ledger, opening, g, n)))
    && (forall n: nat :: AllBelow(ledger, g, n) ==> Replay(ledger, opening, g, n) == w)
  }

  ghost predicate Books(w: World, db: Tables) {
    && db.wallets.Keys == w.opening.Keys
    && (forall g :: g in db.wallets ==> Rebuilds(db.ledger, w.opening[g], g, db.wallets[g]))
  }

  // ---- Accounting per reference ----

  function Net(e: Entry, a: nat): int {
    if e.ref != BidRef(a) then 0
    else if e.kind == Reserved then e.amount
    else if e.kind == Freed then -e.amount
    else 0
  }

  ghost function NetOf(ledger: map<nat, Entry>, a: nat): map<nat, int> {
    map e | e in ledger :: Net(ledger[e], a)
  }

  ghost function Booked(ledger: map<nat, Entry>, ref: Ref): set<nat> {
    set e | e in ledger && ledger[e].ref == ref
  }

  ghost predicate Pair(ledger: map<nat, Entry>, ref: Ref, payer: nat, payee: nat, amount: int, d: nat, c: nat) {
    && Booked(ledger, ref) == {d, c}
    && d in ledger && ledger[d] == Entry(payer, Debited, amount, ref)
    && c in ledger && ledger[c] == Entry(payee, Credited, amount, ref)
  }

  /** Exactly one debit of the payer and one credit of the payee are booked under `ref`. */
  ghost predicate PaidOnce(ledger: map<nat, Entry>, ref: Ref, payer: nat, payee: nat, amount: int) {
    exists d, c :: Pair(ledger, ref, payer, payee, amount, d, c)
  }

  ghost predicate EntryOk(db: Tables, e: Entry) {
    match e.ref
    case ListingRef(l) => l in db.listings && (e.kind == Debited || e.kind == Credited)
    case AuctionRef(a) => a in db.auctions && (e.kind == Debited || e.kind == Credited)
    case BidRef(a) => a in db.auctions && (e.kind == Reserved || e.kind == Freed)
  }

  ghost function Price(auc: Auction, bids: map<nat, Bid>): int {
    if auc.highest.Some? && auc.highest.value in bids then bids[auc.highest.value].amount else 0
  }

  ghost predicate AuctionBooked(db: Tables, a: nat)
    requires a in db.auctions
  {
    var auc := db.auctions[a];
    && Sum(NetOf(db.ledger, a)) == Price(auc, db.bids)
    && (if auc.status == Settled && auc.highest.Some? && auc.highest.value in db.bids
        then PaidOnce(db.ledger, AuctionRef(a), db.bids[auc.highest.value].bidder, auc.seller, Price(auc, db.bids))
        else Booked(db.ledger, AuctionRef(a)) == {})
  }

  ghost predicate ListingBooked(db: Tables, l: nat)
    requires l in db.listings
  {
    var lst := db.listings[l];
    if lst.status == ListingSold && lst.buyer.Some?
    then PaidOnce(db.ledger, ListingRef(l), lst.buyer.value, lst.seller, lst.price)
    else Booked(db.ledger, ListingRef(l)) == {}
  }

  ghost predicate Accounts(db: Tables) {
    && (forall e :: e in db.ledger ==> EntryOk(db, db.ledger[e]))
    && (forall a :: a in db.auctions ==> AuctionBooked(db, a))
    && (forall l :: l in db.listings ==> ListingBooked(db, l))
  }

  // ---- Daily purchase totals ----

  ghost function SpentBy(daily: map<(nat, nat), int>, g: nat): map<(nat, nat), int> {
    map k | k in daily :: if k.0 == g then daily[k] else 0
  }

  ghost function BoughtBy(listings: map<nat, Listing>, g: nat): map<nat, int> {
    map l | l in listings ::
      if listings[l].status == ListingSold && listings[l].buyer == Some(g) then listings[l].price else 0
  }

  ghost predicate Spending(db: Tables) {
    && (forall k :: k in db.daily ==>
          k.0 in db.guilds && db.daily[k] >= 0 && (db.guilds[k.0] > 0 ==> db.daily[k] <= db.guilds[k.0]))
    && (forall g :: g in db.guilds ==> Sum(SpentBy(db.daily, g)) == Sum(BoughtBy(db.listings, g)))
  }

  ghost predicate Inv(w: World, db: Tables) {
    && Catalog(db)
    && BidsOk(db)
    && Growth(db.bids)
    && Timeline(w.cfg, db)
    && Reserves(db)
    && Conserved(w, db)
    && Affordable(w, db.bids)
    && Books(w, db)
    && Accounts(db)
    && Spending(db)
  }

  /** The seeded state: wallets at their opening balances, items owned by guilds, nothing else. */
  ghost predicate Init(w: World, db: Tables) {
    && db.guilds.Keys == db.wallets.Keys == w.opening.Keys
    && (forall g :: g in db.wallets ==> db.wallets[g] == Wallet(w.opening[g], 0))
    && (forall i :: i in db.items ==>
        ItemOk(db.items[i]) && db.items[i].status != InAuction && db.items[i].owner in db.guilds)
    && db.ledger == map[] && db.listings == map[] && db.auctions == map[] && db.bids == map[] && db.daily == map[]
  }

  // ---- Runs ----

  ghost predicate EntryFresh(ledger: map<nat, Entry>, g: nat, e: nat) {
    e !in ledger && AllBelow(ledger, g, e)
  }

  ghost predicate RowFresh(db: Tables, a: nat, b: nat) {
    b !in db.bids && forall c :: c in BidsOf(db.bids, a) ==> c < b
  }

  /**
   * What row locks and id sequences guarantee about the clock readings and ids one transaction draws: new ids are
   * unused and above those of the rows its locks protect, and readings are no earlier than those its locks protect.
   * Nothing is assumed of transactions that lock other rows: those may commit in another order than their readings.
   */
  ghost predicate EnvOk(db: Tables, req: Request, env: Env) {
    && env.t0 <= env.t1
    && env.e1 < env.e2
    && match req
       case CreateItem(_, _, _, _) => env.row !in db.items
       case CreateListing(_, _, _) => env.row !in db.listings
       case CreateAuction(_, _) => env.row !in db.auctions
       case CancelBid(_, _, _) => true
       case Buy(buyer, l) =>
         && env.row !in db.items
         && (forall d :: (buyer, d) in db.daily ==> d <= DayOf(env.t0))
         && EntryFresh(db.ledger, buyer, env.e1)
         && (l in db.listings ==> EntryFresh(db.ledger, db.listings[l].seller, env.e2))
       case PlaceBid(a, bidder, _) =>
         && RowFresh(db, a, env.row)
         && EntryFresh(db.ledger, bidder, env.e1)
         && (a in db.auctions ==>
               db.auctions[a].updatedAt <= env.t0 &&
               (db.auctions[a].highest.Some? && db.auctions[a].highest.value in db.bids ==>
                  EntryFresh(db.ledger, db.bids[db.auctions[a].highest.value].bidder, env.e2)))
       case Settle(a) =>
         a in db.auctions && Due(db.auctions[a], env.t0) &&
         db.auctions[a].highest.Some? && db.auctions[a].highest.value in db.bids ==>
           && EntryFresh(db.ledger, db.bids[db.auctions[a].highest.value].bidder, env.e1)
           && EntryFresh(db.ledger, db.auctions[a].seller, env.e2)
  }

  /** One transaction attempt: its request and what it drew from the clock and the id sequences. */
  datatype Event = Event(req: Request, env: Env)

  /** A transaction that returns an error is rolled back. */
  function Step(cfg: Config, db: Tables, ev: Event): Tables {
    match Apply(db, cfg, ev.req, ev.env)
    case Ok(after) => after
    case Err(_) => db
  }

  /** The tables after the transactions of `run`, one at a time. */
  function After(cfg: Config, db: Tables, run: seq<Event>): Tables {
    if run == [] then db else Step(cfg, After(cfg, db, run[..|run| - 1]), run[|run| - 1])
  }

  ghost predicate Legal(cfg: Config, db: Tables, run: seq<Event>) {
    run == [] ||
    (Legal(cfg, db, run[..|run| - 1]) &&
     EnvOk(After(cfg, db, run[..|run| - 1]), run[|run| - 1].req, run[|run| - 1].env))
  }
}
