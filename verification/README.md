# Market Dragon: a verified model

Market Dragon is a marketplace in which guilds sell items at a fixed price, auction legendary items, and pay out of
wallets whose movements are recorded in a ledger. This project models its transactional core and proves what no single
function of it checks: that a settlement never runs out of money, that every auction ends, that the books balance after
every run, that concurrent transactions behave as if they ran one at a time, that a retried request takes effect once, and
that the cached prices always agree with the stored ones. `dafny verify dfyconfig.toml` checks everything.

## How the model is built

* **Tables and transitions.** `Model`, `Rules`, `Wallets` and `Transitions` describe the rows and what each operation does
  when it runs alone: the new tables, or the error it returns. What an operation draws from outside the tables is in
  `Env`: the two clock readings that matter (`t0`, `t1`, which may be on different days) and the ids of the rows it inserts.
* **Services as written.** `Market` is a class with one field per table. Its methods follow the service methods statement
  by statement, update the fields in place, and may fail after rows were written; `Transact` is the surrounding database
  transaction, which rolls the tables back but not the id sequences. Each method is proved against its transition, and
  `SettleDue` against the closed form of a whole settlement pass.
* **Invariants.** `Invariants` lists what holds between transactions (`Inv`) and the runs it is proved over. The `...Proofs`
  modules first describe each committed operation by a closed form and then show, one invariant at a time, that it keeps
  them; `Reachable`, `History`, `AuctionBounds`, `Settlement`, `Races` and `Guarantees` draw the consequences for every
  run, and `Int64Range` compares them with runs on 64-bit integers. A run may interleave requests of all kinds, including failing ones, in any order. Nothing is assumed about
  the clock readings of transactions that lock different rows: `EnvOk` asks only for what row locks and sequences give.
* **Acceptance.** `Acceptance` is a second description of every operation, on rows and amounts alone: the ordered
  conditions, the error each one is refused with, and the whole table afterwards. In every reachable state the transitions
  return exactly that, and `Outcomes` shows the same of the transactions of every interleaving, `Market` of its replies.
* **Interleavings.** `Programs` spells out each transaction as the row locks, reads, writes, clock readings and sequence
  draws it makes. `Machine` runs any number of them at once under READ COMMITTED, with locks held to the end, the clock
  moving at any time and transactions dropped at any time. `Discipline` states which lock protects which row (bids by their
  auction, daily totals and ledger entries by the guild's wallet); `SafePrograms` shows that every transaction follows it
  and ends within 21 statements; `Alone` shows that the statements of a transaction, run alone, do what its transition
  says, for the clock readings and ids it drew; `Serializability` combines them. `Scans` follows one settlement scan through
  every interleaving, and `RaceExample` is an execution in which its promise fails.
* **Idempotency.** `Idempotency` is the key table and one request's path through the middleware; `IdempotencyRuns` is any
  number of concurrent requests, with lost statements and crashes at every point.
* **Oracle.** `Breaker`, `Client` and `OracleCache` are the circuit breaker, the retrying client and the price service.

Seeded states follow the repository's seed data: one wallet per guild, no reserves, consistent items, everything else
empty. The configured auction window and extension are nonnegative.

## Where the code does not do what its documentation says

* The comments on SettleDue promise to settle every auction it finds. A bid that read the clock before the scan and
  commits after it can move the end past the settlement, which then does nothing and reports no error
  (`RaceExample.InFlightBidReopens`, a complete execution). `Scans.ScanSettlesIff` gives the exact condition, and
  `Scans.ScanSettles` one that can be checked at the scan: if no transaction holds the auction's lock then, the promise
  holds in every interleaving.
* The breaker is described as allowing a single trial call while half-open. It admits every call until the first verdict.
  `Breaker.TwoTrials` is an input with two trials, and `Breaker.SingleTrialIff` says exactly when there is only one. With
  one caller at a time, as the price poller uses it, `Breaker.OncePerCooldown` bounds them.
* The cap check adds a listing's price to the day's total in a 64-bit integer. A price that overflows the sum passes the
  check (`CapExample.CapWraps`: the purchase is then refused for lack of funds instead). `Int64Range.NoOverflow` says
  exactly which requests differ from unbounded integers, and `Int64Range.NeverPastCap` that, with caps that leave room for
  all the money, no purchase gets past its cap that way.
* CancelBid releases money for a bid still marked as leading. That branch cannot be reached
  (`Guarantees.CancelNeverReleases`).
* CreateAuction has an error for an item that is neither available nor in auction. It never occurs
  (`Acceptance.AuctionExactly`).
* A key whose owner crashed, or whose store or release was lost, is refused for good
  (`IdempotencyRuns.WhatIsLeft`, `IdempotencyRuns.OrphanedForever`).

## Model

| member | source | states |
|---|---|---|
| `Rules.BidAcceptedIff` | internal/service/rules.go:61-75 | a bid is accepted iff it is positive and at least 105% of the current one; the least next bid is the least integer with that property |
| `Rules.ExtendIsMax` | internal/service/rules.go:100-107 | with threshold and extension equal, the anti-snipe rule is a maximum |
| `Reachable.InitHolds` | internal/model/seed.go:12-41 | a seeded state satisfies every invariant |
| `Reachable.StepKeeps` | internal/service/auction.go:83-152 | one transaction of any kind, successful or failed, keeps every invariant |
| `Reachable.RunKeeps` | internal/service/auction.go:15-25 | every invariant holds after every run of transactions |
| `PlaceBidProofs.Shape` | internal/service/auction.go:83-152 | what a successful bid did to rows, wallets and ledger, including a leader outbidding itself |
| `PlaceBidProofs.Keeps` | internal/service/auction.go:115-147 | a bid keeps reserves, books, accounts, growth and end times |
| `SettleProofs.Shape` | internal/service/auction.go:224-280 | what a settlement did, with and without a winner |
| `SettleProofs.Keeps` | internal/service/auction.go:243-276 | a settlement keeps every invariant |
| `BuyProofs.Shape` | internal/service/listing.go:73-160 | what a purchase did to stock, daily total, listing and money |
| `BuyProofs.Keeps` | internal/service/listing.go:111-155 | a purchase keeps every invariant, also when midnight falls between its two clock readings |
| `BuyProofs.WithinCap` | internal/service/listing.go:105-113 | a total read for one day and written for a later one still respects the cap |
| `OfferProofs.CreatedKeeps` | internal/service/item.go:50-67 | registering an item keeps every invariant |
| `OfferProofs.ListedKeeps` | internal/service/listing.go:52-61 | opening a listing keeps every invariant |
| `OfferProofs.OpenedKeeps` | internal/service/auction.go:55-72 | opening an auction keeps every invariant |
| `OfferProofs.CancelledKeeps` | internal/service/auction.go:182-185 | cancelling a bid keeps every invariant |
| `Acceptance.ReserveExactly` | internal/service/wallet.go:37-45 | a reservation succeeds iff the amount is positive and at most total less reserved; the error otherwise; exactly what it writes |
| `Acceptance.ReleaseExactly` | internal/service/wallet.go:53-61 | the same for a release: positive and at most the reserve |
| `Acceptance.DebitExactly` | internal/service/wallet.go:69-77 | the same for a debit: positive and at most total less reserved |
| `Acceptance.CreditExactly` | internal/service/wallet.go:85-93 | the same for a credit: positive |
| `Acceptance.SpendExactly` | internal/service/wallet.go:102-111 | the same for spending a reserve: positive and at most the reserve |
| `Acceptance.ItemExactly` | internal/service/item.go:31-73 | an item is created iff it has a name, a tier, stock unless legendary, and an existing owner; the first condition that fails names the error |
| `Acceptance.ListingExactly` | internal/service/listing.go:31-68 | a listing opens iff the price is positive and the seller owns the item, which is not legendary and has a unit left; the error otherwise |
| `Acceptance.ListedIff` | internal/service/listing.go:48-50 | in a reachable state, out of stock means sold |
| `Acceptance.BuyExactly` | internal/service/listing.go:73-157 | a purchase succeeds iff the listing is open and another guild's, a unit is left, the total of the day with the price is within the cap and the price within the available balance; the first failing condition names the error, and a success leaves exactly the table given |
| `Acceptance.AuctionExactly` | internal/service/auction.go:35-79 | an auction opens iff the seller owns the item, which is legendary and has no active auction; the error otherwise; "not available" never occurs |
| `Acceptance.HoldSucceeds` | internal/service/auction.go:114-127 | reserving and then releasing works for every leader, the bidder included |
| `Acceptance.BidExactly` | internal/service/auction.go:83-152 | a bid succeeds iff the auction is active and not ended, the bidder is not the seller, the amount is positive, at least 105% of the leading one and within the available balance; the first failing condition names the error, and a success leaves exactly the table given |
| `Acceptance.CancelExactly` | internal/service/auction.go:159-193 | a bid is cancelled iff it is the caller's, on that active auction, and not its highest; the error otherwise, "highest bid" exactly for the caller's own leading bid |
| `Acceptance.SettleExactly` | internal/service/auction.go:219-280 | settling fails only for an unknown auction, does nothing unless it is active and has ended, and otherwise leaves exactly the closed auction |
| `Outcomes.ApplyExactly` | internal/service/auction.go:83-280 | in a reachable state every request has exactly its outcome |
| `Outcomes.CommitsExactly` | internal/service/wallet.go:136-138 | a transaction that commits among others has exactly its request's outcome on the committed rows, with the readings and ids it drew |
| `Outcomes.AbortsExactly` | internal/service/wallet.go:136-138 | one that aborts among others does so with its request's error on the committed rows |
| `LedgerProofs.RecordBooks` | internal/service/wallet.go:153-170 | saving a wallet with a ledger entry that accounts for the change keeps the ledger rebuilding all books |
| `Guarantees.InterleavingsReach` | internal/service/auction.go:15-17 | at every moment of every interleaving the committed tables are those of a run, so every guarantee holds of them |
| `Guarantees.ReservedExactly` | internal/service/auction.go:115-127 | each guild's reserve is the sum of its leading bids on active auctions, and within its balance |
| `Guarantees.MoneyConserved` | internal/service/wallet.go:69-111 | balances always add up to the seeded money |
| `Guarantees.LedgerRebuilds` | internal/service/wallet_integration_test.go:138-145 | every prefix of a guild's entries replays to a solvent wallet, and all of them to the stored one |
| `Guarantees.GuardsKeepSolvent` | internal/service/wallet.go:37-111 | a movement that passes its guard never trips the balance check constraint |
| `Guarantees.AuctionAccounts` | internal/service/auction.go:249-254 | reserves less releases booked on an auction equal its leading or winning bid; one debit and one credit at that amount iff settled with a winner |
| `Guarantees.ListingAccounts` | internal/service/listing.go:116-122 | one debit and one credit at the price iff the listing is sold, none otherwise |
| `Guarantees.DailyCapHolds` | internal/service/listing.go:98-113 | no day's total exceeds the cap; a guild's totals add up to the prices of what it bought |
| `Guarantees.LeadingIff` | internal/service/auction.go:129-140 | a bid is marked as leading iff its auction is active and it is its latest and highest bid |
| `Guarantees.BidsGrow` | internal/service/rules.go:67-75 | later bids on an auction are at least the least next bid of every earlier one, are made later, and before the end |
| `Guarantees.EndsWhen` | internal/service/auction.go:141-143 | an auction ends at the later of its window and its last accepted bid plus the extension |
| `Guarantees.CancelNeverReleases` | internal/service/auction.go:177-181 | the defensive release is unreachable: a successful cancellation changes only the bid's status |
| `Guarantees.OffersAreOwned` | internal/service/auction.go:38-53 | an item is in auction iff exactly one active auction refers to it; sellers own what they offer; legendary items have stock 1 and are never listed; stock is 0 iff sold |
| `Guarantees.UnitsConserved` | internal/service/listing.go:124-131 | an item's stock and its sales add up to the stock it was seeded with |
| `History.RunGrows` | internal/service/wallet.go:153-170 | ledger entries, sold listings and settled auctions never change; every row keeps its identity and its units |
| `History.OnlyCreateItemAddsStock` | internal/service/item.go:36-46 | total stock changes only by creating an item, by exactly its stock |
| `History.OwnerChangesOnlyByWinning` | internal/service/auction.go:255-268 | an item changes owner only when its auction is settled with a winner, who becomes the owner |
| `AuctionBounds.Geometric` | internal/service/rules.go:61-75 | n bids from the first to the last: 20^(n-1) times the last is at least 21^(n-1) times the first |
| `AuctionBounds.BidsBounded` | internal/service/auction.go:111-118 | the last bid is at most all the money, so the number of bids is bounded by it |
| `AuctionBounds.EveryAuctionEnds` | internal/service/auction.go:141-143 | an auction has at most 20 bids per unit of money, and ends by its window plus one extension for each of them: a time fixed when it was opened |
| `AuctionBounds.LeaderHoldsMaximum` | internal/service/auction.go:101-112 | the leading or winning bid is higher than every other bid of its auction, cancelled ones included |
| `Int64Range.NoOverflow` | internal/service/rules.go:67-95 | if 105 times all the money plus 99 fits in 64 bits, a request with 64-bit arithmetic returns what it returns with unbounded integers iff it is not a purchase that overflows a daily total |
| `Int64Range.NeverPastCap` | internal/service/rules.go:87-95 | a purchase that succeeds with 64-bit arithmetic is one that unbounded integers allow, with the same tables, if the cap leaves room for all the money |
| `Int64Range.RunSame` | internal/service/wallet.go:37-111 | a run that overflows no daily total leaves the same tables with 64-bit arithmetic as with unbounded integers |
| `CapExample.CapWraps` | internal/service/rules.go:87-95 | in a reachable state, a price of 2^63 - 1 passes a cap of 10 because the sum wraps around |
| `Settlement.LeaderReserved` | internal/service/auction.go:249-251 | the leader of an active auction holds at least its bid in reserve |
| `Settlement.SettleNeverFails` | internal/service/auction.go:224-280 | settling never returns an error in a reachable state, and a due auction gets settled |
| `Settlement.PassSettles` | internal/service/auction.go:198-217 | a pass over due auctions leaves wallets, items, auctions, bids and ledger multiset that depend on the set alone |
| `Settlement.OrderIrrelevant` | internal/service/auction.go:199-205 | every order of the unordered id list has the same outcome, even when one auction's winner is another's seller |
| `Settlement.StillDueIff` | internal/service/auction.go:198-217 | an auction found due at s is still due at a later t iff the extension of every bid committed in between ends by t |
| `Scans.ScanSettles` | internal/service/auction.go:198-217 | in every interleaving, an auction found due while no transaction holds its lock is settled by the first settlement of it that commits |
| `Scans.ScanSettlesIff` | internal/service/auction.go:198-217 | in every interleaving, a settlement begun after the scan settles a scanned auction still active iff every bid committed in between read the clock at least one extension before it |
| `Races.SettledIff` | internal/service/auction.go:206-216 | the same of runs of whole transactions: settled iff every bid committed in between read the clock at least one extension earlier |
| `RaceExample.InFlightBidReopens` | internal/service/auction.go:198-217 | a complete execution in which a bid that read the clock before the scan leaves a scanned auction open after its settlement |
| `Draws.EnvGranted` | internal/service/auction.go:90-94 | a clock and sequences ahead of the tables give every request readings and ids that suit it |
| `SafePrograms.AllSafe` | internal/service/wallet.go:140-150 | every transaction reads and writes only rows its locks cover, and ends within 21 statements |
| `SafePrograms.BuySafe` | internal/service/listing.go:76-155 | a purchase reads and adds to the daily total only under the buyer's wallet lock |
| `SafePrograms.BidSafe` | internal/service/auction.go:86-147 | a bid reads and changes bids only under their auction's lock |
| `SafePrograms.CancelSafe` | internal/service/auction.go:160-187 | a cancellation uses a bid only if its auction is the locked one |
| `SafePrograms.SettleSafe` | internal/service/auction.go:227-277 | a settlement changes auction, item, bid and wallets only under their locks |
| `Alone.MoveEnds` | internal/service/wallet.go:141-170 | the lock, guard, save and ledger insert of a movement are the wallet operation, with its error or what it leaves |
| `Discipline.StatementKeeps` | internal/service/wallet.go:140-150 | one more statement keeps what the discipline guarantees of a running transaction |
| `Discipline.CommitUnnoticed` | internal/service/auction.go:15-17 | what another transaction commits cannot be noticed by a running one |
| `Alone.ItemAlone` | internal/service/item.go:51-69 | the statements of an item creation, run alone, return what its transition says: its tables or its error |
| `Alone.ListingAlone` | internal/service/listing.go:37-63 | the same for opening a listing |
| `Alone.BuyAlone` | internal/service/listing.go:75-157 | the same for a purchase |
| `Alone.AuctionAlone` | internal/service/auction.go:37-75 | the same for opening an auction |
| `Alone.BidAlone` | internal/service/auction.go:85-149 | the same for a bid |
| `Alone.CancelAlone` | internal/service/auction.go:160-192 | the same for cancelling a bid |
| `Alone.SettleAlone` | internal/service/auction.go:226-278 | the same for a settlement, including the two ways it does nothing |
| `Alone.AloneIsApply` | internal/service/auction.go:83-280 | every request's statements, run alone to their end, return its transition's tables or error, for the clock readings and ids they drew |
| `Serializability.EndIsApply` | internal/service/wallet.go:136-138 | an interleaved transaction that ends returns what its transition returns on the committed rows of that moment, with the readings and ids it drew |
| `Serializability.AbortIsApply` | internal/service/wallet.go:136-138 | the error an interleaved transaction aborts with is its transition's error on the committed rows of that moment |
| `Serializability.DoKeeps` | internal/service/wallet.go:141-150 | one statement of one transaction keeps every running transaction consistent with the committed rows |
| `Serializability.FinishKeeps` | internal/service/wallet.go:136-138 | a commit is one legal transition with the readings and ids the transaction drew, and leaves the others consistent |
| `Serializability.Serializable` | internal/service/auction.go:15-17 | however statements interleave, the committed tables are those of the committed transactions run alone in commit order, each with the clock readings and ids it drew |
| `Serializability.TransactionsEnd` | internal/service/wallet.go:140-150 | in every interleaving, a transaction has ended after at most 21 statements |
| `Serializability.ProceedsIff` | internal/service/wallet.go:140-150 | a running transaction can make its next statement unless it waits for a row another one has locked |
| `Market.Market.constructor` | internal/model/seed.go:12-41 | a seeded marketplace is valid |
| `Market.Market.SaveAndRecord` | internal/service/wallet.go:153-170 | saves the wallet and appends one ledger entry with the next id |
| `Market.Market.ReserveTx` | internal/service/wallet.go:37-45 | in place, the reserve transition, or its error and no change |
| `Market.Market.ReleaseTx` | internal/service/wallet.go:53-61 | the same for a release |
| `Market.Market.DebitTx` | internal/service/wallet.go:69-77 | the same for a debit |
| `Market.Market.CreditTx` | internal/service/wallet.go:85-93 | the same for a credit |
| `Market.Market.SettleReservedTx` | internal/service/wallet.go:102-111 | the same for spending a reserve |
| `Market.Market.CreateItemTx` | internal/service/item.go:31-73 | in place, the transition of creating an item or its error |
| `Market.Market.CreateListingTx` | internal/service/listing.go:31-68 | the same for opening a listing |
| `Market.Market.DailySpent` | internal/service/listing.go:189-199 | the total of the day of its clock reading, 0 without a row |
| `Market.Market.AddDailySpent` | internal/service/listing.go:202-212 | adds to the total of the day of its own clock reading, inserting the row if needed |
| `Market.Market.HandOver` | internal/service/listing.go:124-155 | one unit, the day's total and the listing, in place |
| `Market.Market.BuyTx` | internal/service/listing.go:73-162 | in place, the transition of a purchase or its error |
| `Market.Market.CreateAuctionTx` | internal/service/auction.go:35-79 | the same for opening an auction |
| `Market.Market.HoldFunds` | internal/service/auction.go:114-127 | reserves for the new bidder, then releases the outbid leader |
| `Market.Market.ReleaseLeader` | internal/service/auction.go:119-126 | frees the outbid leader and marks its bid |
| `Market.Market.RecordBid` | internal/service/auction.go:129-147 | inserts the bid, makes it the leader and extends the auction |
| `Market.Market.PlaceBidTx` | internal/service/auction.go:83-154 | in place, the transition of a bid or its error |
| `Market.Market.CancelBidTx` | internal/service/auction.go:159-193 | the same for cancelling a bid |
| `Market.Market.PayOut` | internal/service/auction.go:243-265 | the winner pays out of its reserve, the seller is paid, the bid is marked won |
| `Market.Market.SettleTx` | internal/service/auction.go:224-280 | in place, the transition of a settlement; reports whether it settled |
| `Market.Market.Rollback` | internal/service/wallet.go:136-138 | puts every table back |
| `Market.Market.Transact` | internal/service/wallet.go:136-138 | either the whole transition with every invariant, or the error and every table as before |
| `Market.ServedExactly` | internal/service/wallet.go:136-138 | the reply and the tables of a transaction are exactly its request's outcome; a failed one changes no row |
| `Market.Market.Balance` | internal/service/wallet.go:123-134 | what is available is total less the guild's leading bids, and never negative |
| `Market.Market.FindDue` | internal/service/auction.go:199-205 | exactly the auctions due at the scan's clock reading |
| `Market.Market.SettleScan` | internal/service/auction.go:206-216 | settles the scanned auctions in any order, one legal transaction each, without error |
| `Market.Market.SettleDue` | internal/service/auction.go:198-217 | undisturbed, settles exactly the due auctions, counts them, and leaves the closed form of the pass |
| `Market.Market.ActiveAuctionByItem` | internal/service/auction.go:284-294 | finds the item's one active auction, and finds none iff the item is not in auction |
| `Market.Market.PlaceBidOnItem` | internal/service/auction.go:309-315 | a bid on an item is a bid on its one active auction: the same reply and the same tables |
| `Market.Market.CancelBidOnItem` | internal/service/auction.go:318-324 | the same for cancelling |
| `Market.Market.OpenListingByItem` | internal/service/listing.go:166-176 | finds the item's newest open listing, and none iff there is none |
| `Market.Market.BuyByItem` | internal/service/listing.go:180-186 | buying an item is buying its newest open listing: the same reply and the same tables |
| `Guarantees.LookupHolds` | internal/service/auction.go:308-324 | whatever runs between the lookup and the bid, the auction found is still the item's only active one, or bid and cancellation are refused |
| `Guarantees.OfferHolds` | internal/service/listing.go:178-186 | whatever runs between the lookup and the purchase, the listing found offers the same item at the same price, or is refused as not open |
| `Market.Newest` | internal/service/listing.go:166-176 | the largest id of a nonempty result |
| `Idempotency.KeyTable.Claim` | internal/api/middleware/idempotency.go:65-83 | wins iff the key is free, and then inserts an in-flight row |
| `Idempotency.KeyTable.Store` | internal/api/middleware/idempotency.go:96-104 | updates the key's row, if there is one |
| `Idempotency.KeyTable.Release` | internal/api/middleware/idempotency.go:91-95 | deletes the key's row |
| `Idempotency.KeyTable.ReplayExisting` | internal/api/middleware/idempotency.go:108-125 | the stored response for the same request; otherwise a conflict, and which of the three, exactly |
| `Idempotency.KeyTable.Serve` | internal/api/middleware/idempotency.go:50-106 | one request: its reply and the exact table it leaves, for every outcome of the handler and of the statement after it |
| `Idempotency.KeyTable.Retry` | internal/api/middleware/idempotency.go:38-49 | a retry returns the first answer, whatever the handler would answer now |
| `IdempotencyRuns.EveryAction` | internal/api/middleware/idempotency.go:65-125 | exactly what every statement does in any interleaving: a free key is won, a taken one answered by its row, and a winner's row is still its own claim when it stores or releases it |
| `IdempotencyRuns.AloneIsHandled` | internal/api/middleware/idempotency.go:50-106 | a request that nothing interferes with does what one pass of the middleware does |
| `IdempotencyRuns.AtMostOnce` | internal/api/middleware/idempotency.go:65-105 | per key at most one handler run ends below 500, in any interleaving |
| `IdempotencyRuns.StoredForever` | internal/api/middleware/idempotency.go:91-104 | a stored response is never changed or deleted |
| `IdempotencyRuns.LaterRequests` | internal/api/middleware/idempotency.go:80-83 | once a response is stored, the same request gets exactly it, another one gets a conflict, and no handler runs |
| `IdempotencyRuns.ReplayIsGenuine` | internal/api/middleware/idempotency.go:108-125 | a replayed response is what the handler answered the same request under the same key |
| `IdempotencyRuns.OnlyTheClaimant` | internal/api/middleware/idempotency.go:65-88 | a running handler's request is the one its key was claimed for, and it is the only one |
| `IdempotencyRuns.OrphanedForever` | internal/api/middleware/idempotency.go:119-122 | a key whose owner was lost is refused for good |
| `IdempotencyRuns.WhatIsLeft` | internal/api/middleware/idempotency.go:90-104 | exactly which endings free a key and which orphan it |
| `Breaker.CircuitBreaker.Allow` | internal/infra/oracle/breaker.go:47-58 | admits iff not open or the cooldown has passed; a rejection changes nothing |
| `Breaker.CircuitBreaker.Success` | internal/infra/oracle/breaker.go:61-66 | closes the breaker and clears its counter |
| `Breaker.CircuitBreaker.Failure` | internal/infra/oracle/breaker.go:70-83 | counts the failure, opening at the threshold or from half-open |
| `Breaker.ClosedIff` | internal/infra/oracle/breaker.go:47-83 | closed iff fewer than threshold admitted fetches in a row failed; the counter is that number, capped |
| `Breaker.AdmitsIff` | internal/infra/oracle/breaker.go:47-83 | a call is refused iff the threshold is positive, that many admitted fetches in a row failed, and the last of them ended less than a cooldown ago |
| `Breaker.NeverTrips` | internal/infra/oracle/breaker.go:40-43 | a threshold of zero or less disables tripping |
| `Breaker.OncePerCooldown` | internal/infra/oracle/breaker.go:50-56 | an open breaker admits a failing source at most once per cooldown since it opened |
| `Breaker.FailuresAreRare` | internal/infra/oracle/breaker.go:47-83 | in any span a failing source is called at most threshold times plus once per cooldown |
| `Breaker.TrialsAre` | internal/infra/oracle/breaker.go:47-58 | before the first verdict, an open breaker admits exactly the calls that ask after its cooldown |
| `Breaker.SingleTrialIff` | internal/infra/oracle/breaker.go:27-58 | there is at most one trial before the first verdict iff no two calls ask between the cooldown's end and that verdict |
| `Breaker.TwoTrials` | internal/infra/oracle/breaker.go:27-58 | an input with two trials |
| `Client.WaitBound` | internal/infra/oracle/client.go:39-46 | n waits add up to at most the base times 2^n - 1, and to exactly that iff the last shift does not overflow |
| `Client.ResilientClient.Fetch` | internal/infra/oracle/client.go:33-62 | one breaker question and one verdict; at most one call more than the retries; exact waits; the first success is returned; a rejected fetch does nothing |
| `OracleCache.AcceptedIff` | internal/service/oracle.go:139-154 | a price is accepted iff positive, under the ceiling and within the ratio of the last good one |
| `OracleCache.StoreAgrees` | internal/service/oracle.go:92-108 | storing a price and caching it keeps the cache equal to the latest row per item |
| `OracleCache.AgreesUnique` | internal/service/oracle.go:54-73 | only one cache agrees with a table |
| `OracleCache.OracleService.LoadLastKnownGood` | internal/service/oracle.go:54-73 | an empty cache becomes the latest row of every item |
| `OracleCache.OracleService.CurrentAmount` | internal/service/oracle.go:124-129 | the cached amount, or 0 and unknown |
| `OracleCache.OracleService.Keep` | internal/service/oracle.go:96-108 | stores and caches an accepted price, or leaves both alone when the store fails |
| `OracleCache.OracleService.TakeOne` | internal/service/oracle.go:84-109 | one price: kept and cached iff it is positive, under the ceiling, within the ratio of the last good one, and stored; dropped if it is not; the end of the refresh if the store fails |
| `OracleCache.OracleService.Refresh` | internal/service/oracle.go:78-111 | goes through the snapshot price by price, skipping the ones outside the limits; ends with it, or at the first acceptable price whose store fails; cache and table still agree |
| `OracleCache.RefreshDetermined` | internal/service/oracle.go:78-111 | what a refresh keeps, where it stops and whether it succeeds depend on its inputs alone |
| `OracleCache.OracleService.Restart` | internal/service/oracle.go:52-73 | a fresh service over the same table serves the same prices |
| `OracleCache.NewRowsSteady` | internal/service/oracle.go:136-154 | every row a refresh adds is within the limits of the item's price before it |
| `OracleCache.Compound` | internal/service/oracle.go:146-152 | the k-th price kept after an item's last good one is at most ratio^k times it |

## Left out

- Deadlock freedom: wallet locks are not taken in one global order, so it does not hold; a deadlock victim is a dropped transaction.
- Database internals: tables, row locks held to commit, rollback, sequences and unique inserts are taken as given. A lock request for a missing row returns nothing and locks nothing.
- Columns that nothing reads back: creation times of items and ledger entries, wallet ids, sold-at times and the observation time of prices.
- Trimming and case folding of item names and tiers: CreateItem starts from the trimmed name and the recognised tier, if any.
- SHA-256 in the request hash: requests are compared as method, path and body.
- Failing open when the claim insert itself errors: such a request runs without the protocol and is outside the at-most-once claim.
- `IdempotencyRuns.AtMostOnce`: does not cover requests without a key, which the middleware passes through.
- `Client.ResilientClient.Fetch`: does not model the per-attempt deadline; an attempt that runs into it is one that fails.
- Floating-point rounding in the deviation check: the ratio is a real number and the conversion truncates.
- Several callers of one breaker at a time: after the first verdict the history theorems are for one caller; the methods hold for any order of calls.
- `Market.Market.SettleDue`: is the undisturbed pass; passes with other transactions in between are `Scans.ScanSettles` and `Scans.ScanSettlesIff`.
- `Market.Market.PlaceBidOnItem`: nothing runs between its lookup and its bid; `Guarantees.LookupHolds` says what can happen if something does.
- `Market.Market.CancelBidOnItem`: the same.
- `Market.Market.BuyByItem`: nothing runs between its lookup and its purchase; `Guarantees.OfferHolds` says what can happen if something does.
- The wallet operations as requests of their own: no endpoint calls them, and they would break the conservation of money.
- Handlers, routing, configuration, logging, the worker's tickers, the mock price source and read-only listings of rows.
