/** The rows and tables of the marketplace, and the outcomes of its operations. */
module Model {

  datatype Option<+T> = None | Some(value: T)

  /** OutOfRange: the database refuses a sum that does not fit its column. It occurs only where integers are bounded. */
  datatype Error =
    | InvalidAmount | InsufficientFunds | InsufficientReserved | SelfBid | BidTooLow
    | CancelHighestBid | DailyCapExceeded | NameRequired | InvalidTier | InvalidStock
    | NotFound | ItemNotOwned | LegendaryNeedsAuction | OutOfStock | ListingNotOpen
    | SelfPurchase | NotLegendary | ItemNotAvailable | ActiveAuctionExists
    | AuctionNotActive | AuctionHasEnded | WalletMissing | OutOfRange

  /** The result of an operation: its value or the error it returned. */
  datatype Result<+T> = Ok(value: T) | Err(error: Error) {
    predicate IsFailure() { Err? }
    function PropagateFailure<U>(): Result<U> requires Err? { Err(error) }
    function Extract(): T requires Ok? { value }
  }

  /** The result of a guard: nothing, or the error that stops the operation. */
  datatype Check = Pass | Fail(error: Error) {
    predicate IsFailure() { Fail? }
    function PropagateFailure<U>(): Result<U> requires Fail? { Err(error) }
  }

  datatype Tier = Common | Rare | Legendary
  datatype ItemStatus = Available | Listed | InAuction | Sold
  datatype ListingStatus = Open | ListingSold | ListingCancelled
  datatype AuctionStatus = Active | Settled | AuctionCancelled
  datatype BidStatus = Leading | Released | Won | BidCancelled
  datatype EntryKind = Reserved | Freed | Debited | Credited
  datatype Ref = ListingRef(listing: nat) | AuctionRef(auction: nat) | BidRef(auction: nat)

  datatype Wallet = Wallet(total: int, reserved: int)
  datatype Entry = Entry(guild: nat, kind: EntryKind, amount: int, ref: Ref)
  datatype Item = Item(name: string, tier: Tier, owner: nat, status: ItemStatus, stock: int)
  datatype Listing = Listing(item: nat, seller: nat, price: int, status: ListingStatus, buyer: Option<nat>)
  datatype Auction = Auction(item: nat, seller: nat, status: AuctionStatus, startsAt: nat, endsAt: nat,
                             highest: Option<nat>, winner: Option<nat>, updatedAt: nat)
  datatype Bid = Bid(auction: nat, bidder: nat, amount: int, status: BidStatus, createdAt: nat)

  /** One guild has one wallet, so wallets are keyed by guild; `guilds` holds daily caps (0 = unlimited). */
  datatype Tables = Tables(
    guilds: map<nat, nat>,
    wallets: map<nat, Wallet>,
    ledger: map<nat, Entry>,
    items: map<nat, Item>,
    listings: map<nat, Listing>,
    auctions: map<nat, Auction>,
    bids: map<nat, Bid>,
    daily: map<(nat, nat), int>)

  /** The configured auction window and anti-snipe extension. */
  datatype Config = Config(window: nat, extension: nat)

  /** What one transaction draws from outside the tables: clock readings and new row ids. */
  datatype Env = Env(t0: nat, t1: nat, row: nat, e1: nat, e2: nat)

  datatype Request =
    | CreateItem(owner: nat, name: string, tier: Option<Tier>, stock: int)
    | CreateListing(seller: nat, item: nat, price: int)
    | Buy(buyer: nat, listing: nat)
    | CreateAuction(seller: nat, item: nat)
    | PlaceBid(auction: nat, bidder: nat, amount: int)
    | CancelBid(auction: nat, bid: nat, bidder: nat)
    | Settle(auction: nat)

  /** Nanoseconds in a UTC day. */
  const DAY: nat := 86_400_000_000_000

  function DayOf(t: nat): nat { t / DAY }

  lemma DayMonotone(s: nat, t: nat)
    requires s <= t
    ensures DayOf(s) <= DayOf(t)
  {
  }
}
