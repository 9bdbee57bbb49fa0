/** The pure business rules. */
module Rules {
  import opened Model

  const BID_INCREMENT_PERCENT := 5

  function AvailableBalance(total: int, reserved: int): int { total - reserved }

  function EnsurePositive(amount: int): Check {
    if amount <= 0 then Fail(InvalidAmount) else Pass
  }

  function EnsureSufficientAvailable(total: int, reserved: int, amount: int): Check {
    if amount <= 0 then Fail(InvalidAmount)
    else if AvailableBalance(total, reserved) < amount then Fail(InsufficientFunds)
    else Pass
  }

  function EnsureCanReserve(total: int, reserved: int, amount: int): Check {
    EnsureSufficientAvailable(total, reserved, amount)
  }

  function EnsureCanRelease(reserved: int, amount: int): Check {
    if amount <= 0 then Fail(InvalidAmount)
    else if reserved < amount then Fail(InsufficientReserved)
    else Pass
  }

  function EnsureNotSelfBid(owner: nat, bidder: nat): Check {
    if owner == bidder then Fail(SelfBid) else Pass
  }

  /** Integer division that truncates toward zero, as in Go. */
  function Quot(n: int, d: int): int
    requires d > 0
  {
    if n >= 0 then n / d else -(-n / d)
  }

  function MinNextBid(current: int): int {
    Quot(current * (100 + BID_INCREMENT_PERCENT) + 99, 100)
  }

  function EnsureBidBeatsCurrent(current: int, amount: int): Check {
    if amount <= 0 then Fail(InvalidAmount)
    else if amount < MinNextBid(current) then Fail(BidTooLow)
    else Pass
  }

  function EnsureCanCancelBid(isHighest: bool): Check {
    if isHighest then Fail(CancelHighestBid) else Pass
  }

  function EnsureWithinDailyCap(cap: int, spent: int, amount: int): Check {
    if cap == 0 then Pass
    else if spent + amount > cap then Fail(DailyCapExceeded)
    else Pass
  }

  /** The new end, and whether the bid extended the auction. */
  function MaybeExtend(now: int, endsAt: int, threshold: int, extension: int): (int, bool) {
    if endsAt - now <= threshold && now + extension > endsAt then (now + extension, true)
    else (endsAt, false)
  }

  predicate AuctionEnded(now: int, endsAt: int) { !(now < endsAt) }

  function Max(a: int, b: int): int { if a < b then b else a }

  /** A bid on a nonnegative current amount is accepted exactly when it is positive and at least 105% of it. */
  lemma BidAcceptedIff(current: int, amount: int)
    requires current >= 0
    ensures EnsureBidBeatsCurrent(current, amount).Pass? <==> amount > 0 && 100 * amount >= 105 * current
    ensures 100 * MinNextBid(current) >= 105 * current
    ensures forall m :: 100 * m >= 105 * current ==> MinNextBid(current) <= m
  {
    var q := MinNextBid(current);
    assert 100 * q <= current * 105 + 99 < 100 * q + 100;
  }

  /** With the threshold equal to the extension, the anti-snipe rule is a maximum. */
  lemma ExtendIsMax(now: int, endsAt: int, extension: int)
    ensures MaybeExtend(now, endsAt, extension, extension) == (Max(endsAt, now + extension), now + extension > endsAt)
  {
  }
}
