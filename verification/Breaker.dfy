/** The circuit breaker, and what its state says about the fetches it has admitted. */
module Breaker {

  datatype Mode = Closed | Open | HalfOpen

  /** The breaker's fields as a value. */
  datatype Status = Status(failures: int, mode: Mode, openedAt: int)

  const FRESH := Status(0, Closed, 0)

  class CircuitBreaker {
    const threshold: int
    const cooldown: int
    var failures: int
    var mode: Mode
    var openedAt: int

    constructor (threshold: int, cooldown: int)
      ensures this.threshold == threshold && this.cooldown == cooldown && Now() == FRESH
    {
      this.threshold, this.cooldown := threshold, cooldown;
      failures, mode, openedAt := 0, Closed, 0;
    }

    function Now(): Status
      reads this
    {
      Status(failures, mode, openedAt)
    }

    method Allow(now: int) returns (ok: bool)
      modifies this
      ensures ok == Admits(old(Now()), cooldown, now)
      ensures Now() == if ok then Asked(old(Now())) else old(Now())
    {
      if mode == Open {
        if now - openedAt >= cooldown {
          mode := HalfOpen;
          return true;
        }
        return false;
      }
      return true;
    }

    method Success()
      modifies this
      ensures Now() == Verdict(old(Now()), threshold, true, 0)
    {
      failures := 0;
      mode := Closed;
    }

    method Failure(now: int)
      modifies this
      ensures Now() == Verdict(old(Now()), threshold, false, now)
    {
      if mode == HalfOpen {
        mode := Open;
        openedAt := now;
        return;
      }
      failures := failures + 1;
      if threshold > 0 && failures >= threshold {
        mode := Open;
        openedAt := now;
      }
    }
  }

  predicate Admits(b: Status, cooldown: int, now: int) { b.mode != Open || now - b.openedAt >= cooldown }

  /** After admitting a call: an open breaker is half-open. */
  function Asked(b: Status): Status { if b.mode == Open then b.(mode := HalfOpen) else b }

  function Verdict(b: Status, threshold: int, ok: bool, now: int): Status {
    if ok then b.(failures := 0, mode := Closed)
    else if b.mode == HalfOpen then b.(mode := Open, openedAt := now)
    else if threshold > 0 && b.failures + 1 >= threshold then Status(b.failures + 1, Open, now)
    else b.(failures := b.failures + 1)
  }

  // ---- One caller at a time ----

  /** A fetch: when it asked the breaker, when it gave its verdict if it was admitted, and that verdict. */
  datatype Fetch = Fetch(asked: int, ended: int, ok: bool)

  function Step(b: Status, threshold: int, cooldown: int, f: Fetch): Status {
    if Admits(b, cooldown, f.asked) then Verdict(Asked(b), threshold, f.ok, f.ended) else b
  }

  function Run(b: Status, threshold: int, cooldown: int, fs: seq<Fetch>): Status {
    if fs == [] then b else Step(Run(b, threshold, cooldown, fs[..|fs| - 1]), threshold, cooldown, fs[|fs| - 1])
  }

  /** The number of admitted fetches since the last success, all of which failed. */
  function Streak(b: Status, threshold: int, cooldown: int, fs: seq<Fetch>): nat {
    if fs == [] then 0
    else
      var before, f := fs[..|fs| - 1], fs[|fs| - 1];
      var k := Streak(b, threshold, cooldown, before);
      if !Admits(Run(b, threshold, cooldown, before), cooldown, f.asked) then k else if f.ok then 0 else k + 1
  }

  /**
   * Main result: between fetches the breaker is closed exactly while fewer than `threshold` admitted fetches in a
   * row have failed, and open otherwise; its counter is the length of that streak, capped at the threshold.
   */
  lemma {:induction false} ClosedIff(threshold: int, cooldown: int, fs: seq<Fetch>)
    requires threshold > 0
    ensures var k := Streak(FRESH, threshold, cooldown, fs);
            var b := Run(FRESH, threshold, cooldown, fs);
            && b.mode == (if k < threshold then Closed else Open)
            && b.failures == (if k < threshold then k else threshold)
  {
    if fs != [] {
      ClosedIff(threshold, cooldown, fs[..|fs| - 1]);
    }
  }

  /** A threshold of zero or less disables tripping: every fetch is admitted. */
  lemma {:induction false} NeverTrips(threshold: int, cooldown: int, fs: seq<Fetch>)
    requires threshold <= 0
    ensures Run(FRESH, threshold, cooldown, fs).mode == Closed
    ensures Run(FRESH, threshold, cooldown, fs).failures == Streak(FRESH, threshold, cooldown, fs)
  {
    if fs != [] {
      NeverTrips(threshold, cooldown, fs[..|fs| - 1]);
    }
  }

  // ---- The breaker without modes ----

  /** How many admitted fetches in a row have failed, and when the last admitted one ended. */
  datatype Tally = Tally(streak: nat, ended: int)

  /** A call is refused after `threshold` failures in a row, for one cooldown from the end of the last of them. */
  predicate Refused(t: Tally, threshold: int, cooldown: int, now: int) {
    threshold > 0 && t.streak >= threshold && now < t.ended + cooldown
  }

  function TallyOf(threshold: int, cooldown: int, fs: seq<Fetch>): Tally {
    if fs == [] then Tally(0, 0)
    else
      var t, f := TallyOf(threshold, cooldown, fs[..|fs| - 1]), fs[|fs| - 1];
      if Refused(t, threshold, cooldown, f.asked) then t
      else if f.ok then Tally(0, f.ended)
      else Tally(t.streak + 1, f.ended)
  }

  /**
   * Main result, exact: after any fetches, with any threshold and cooldown, the breaker admits a call if and only if
   * the rule without modes does not refuse it: the three modes, the counter and the opening time are nothing more.
   */
  lemma {:induction false} AdmitsIff(threshold: int, cooldown: int, fs: seq<Fetch>)
    ensures var t, b := TallyOf(threshold, cooldown, fs), Run(FRESH, threshold, cooldown, fs);
            && (b.mode == Open <==> threshold > 0 && t.streak >= threshold)
            && (b.mode == Open ==> b.openedAt == t.ended)
            && b.mode != HalfOpen
            && b.failures == (if threshold > 0 && t.streak >= threshold then threshold else t.streak)
    ensures forall now :: Admits(Run(FRESH, threshold, cooldown, fs), cooldown, now) <==>
                          !Refused(TallyOf(threshold, cooldown, fs), threshold, cooldown, now)
  {
    if fs != [] {
      AdmitsIff(threshold, cooldown, fs[..|fs| - 1]);
    }
  }

  // ---- Several callers before the first verdict ----

  /** How many of the calls asking at `asks`, one after the other with no verdict in between, are admitted. */
  function Trials(b: Status, cooldown: int, asks: seq<int>): nat
    decreases |asks|
  {
    if asks == [] then 0
    else if Admits(b, cooldown, asks[0]) then 1 + Trials(Asked(b), cooldown, asks[1..])
    else Trials(b, cooldown, asks[1..])
  }

  function CountFrom(asks: seq<int>, from: int): nat {
    if asks == [] then 0 else (if asks[0] >= from then 1 else 0) + CountFrom(asks[1..], from)
  }

  ghost predicate Ordered(asks: seq<int>) { forall i, j :: 0 <= i < j < |asks| ==> asks[i] <= asks[j] }

  lemma {:induction false} HalfOpenAdmitsAll(b: Status, cooldown: int, asks: seq<int>)
    requires b.mode != Open
    ensures Trials(b, cooldown, asks) == |asks|
    decreases |asks|
  {
    if asks != [] {
      HalfOpenAdmitsAll(b, cooldown, asks[1..]);
    }
  }

  lemma {:induction false} CountAll(asks: seq<int>, from: int)
    requires forall i :: 0 <= i < |asks| ==> asks[i] >= from
    ensures CountFrom(asks, from) == |asks|
  {
    if asks != [] {
      CountAll(asks[1..], from);
    }
  }

  /** An open breaker admits every call from the end of its cooldown until the first verdict, and none before. */
  lemma {:induction false} TrialsAre(b: Status, cooldown: int, asks: seq<int>)
    requires b.mode == Open && Ordered(asks)
    ensures Trials(b, cooldown, asks) == CountFrom(asks, b.openedAt + cooldown)
    decreases |asks|
  {
    if asks != [] {
      if Admits(b, cooldown, asks[0]) {
        HalfOpenAdmitsAll(Asked(b), cooldown, asks[1..]);
        CountAll(asks[1..], b.openedAt + cooldown);
      } else {
        TrialsAre(b, cooldown, asks[1..]);
      }
    }
  }

  lemma {:induction false} CountAtMostOne(asks: seq<int>, from: int)
    ensures CountFrom(asks, from) == 0 <==> forall i :: 0 <= i < |asks| ==> asks[i] < from
    ensures CountFrom(asks, from) <= 1 <==> forall i, j :: 0 <= i < j < |asks| ==> asks[i] < from || asks[j] < from
  {
    if asks != [] {
      var rest := asks[1..];
      CountAtMostOne(rest, from);
      assert forall i :: 0 < i < |asks| ==> asks[i] == rest[i - 1];
      assert forall i :: 0 <= i < |rest| ==> rest[i] == asks[i + 1];
    }
  }

  /**
   * Main result, exact: after a breaker opens, there is at most a single trial before the first verdict if and only
   * if no two calls ask between the end of the cooldown and that verdict.
   */
  lemma {:induction false} SingleTrialIff(b: Status, cooldown: int, asks: seq<int>)
    requires b.mode == Open && Ordered(asks)
    ensures Trials(b, cooldown, asks) <= 1 <==>
            forall i, j :: 0 <= i < j < |asks| ==>
              asks[i] < b.openedAt + cooldown || asks[j] < b.openedAt + cooldown
  {
    TrialsAre(b, cooldown, asks);
    CountAtMostOne(asks, b.openedAt + cooldown);
  }

  /** Opened at 0 with a cooldown of 5, a breaker that is asked at 5 and again at 6 lets two trials through. */
  lemma TwoTrials()
    ensures Trials(Status(1, Open, 0), 5, [5, 6]) == 2
  {
    TrialsAre(Status(1, Open, 0), 5, [5, 6]);
    assert CountFrom([5, 6][1..][1..], 5) == 0 && CountFrom([5, 6][1..], 5) == 1;
  }

  // ---- A source that always fails ----

  /** Fetches one after the other, from time s to time e. */
  ghost predicate Sequential(fs: seq<Fetch>, s: int, e: int) {
    if fs == [] then s <= e
    else s <= fs[0].asked <= fs[0].ended && Sequential(fs[1..], fs[0].ended, e)
  }

  ghost predicate AllFail(fs: seq<Fetch>) { forall i :: 0 <= i < |fs| ==> !fs[i].ok }

  function Admitted(b: Status, threshold: int, cooldown: int, fs: seq<Fetch>): nat
    decreases |fs|
  {
    if fs == [] then 0
    else
      (if Admits(b, cooldown, fs[0].asked) then 1 else 0) +
      Admitted(Step(b, threshold, cooldown, fs[0]), threshold, cooldown, fs[1..])
  }

  /** An open breaker admits a failing call at most once per cooldown since it opened. */
  lemma {:induction false} OncePerCooldown(b: Status, threshold: int, cooldown: int, fs: seq<Fetch>, s: int, e: int)
    requires threshold > 0 && cooldown >= 0 && b.mode == Open && b.openedAt <= s
    requires Sequential(fs, s, e) && AllFail(fs)
    ensures Admitted(b, threshold, cooldown, fs) * cooldown <= e - b.openedAt
    decreases |fs|
  {
    if fs == [] {
    } else {
      var b' := Step(b, threshold, cooldown, fs[0]);
      var n := Admitted(b', threshold, cooldown, fs[1..]);
      OncePerCooldown(b', threshold, cooldown, fs[1..], fs[0].ended, e);
      if Admits(b, cooldown, fs[0].asked) {
        assert (n + 1) * cooldown == n * cooldown + cooldown;
      }
    }
  }

  /**
   * Main result: in any span from s to e, from any state the breaker can be in between fetches, a failing source is
   * called at most `threshold` times plus once per cooldown.
   */
  lemma {:induction false} FailuresAreRare(b: Status, threshold: int, cooldown: int, fs: seq<Fetch>, s: int, e: int)
    requires threshold > 0 && cooldown >= 0 && Sequential(fs, s, e) && AllFail(fs)
    requires b.mode == Open || (b.mode == Closed && 0 <= b.failures < threshold)
    ensures (Admitted(b, threshold, cooldown, fs) - threshold) * cooldown <= e - s
    ensures b.mode == Closed ==> (Admitted(b, threshold, cooldown, fs) - (threshold - b.failures)) * cooldown <= e - s
    decreases |fs|
  {
    if fs == [] {
      Shrinks(threshold, cooldown);
      Shrinks(threshold - b.failures, cooldown);
    } else {
      FirstOfSpan(b, threshold, cooldown, fs, s, e);
    }
  }

  lemma Shrinks(k: int, cooldown: int)
    ensures k >= 0 && cooldown >= 0 ==> (0 - k) * cooldown <= 0
  {
  }

  lemma Fewer(n: int, k: int, j: int, cooldown: int)
    requires k >= j && cooldown >= 0
    ensures (n - k) * cooldown <= (n - j) * cooldown
  {
  }

  lemma {:induction false} FirstOfSpan(b: Status, threshold: int, cooldown: int, fs: seq<Fetch>, s: int, e: int)
    requires threshold > 0 && cooldown >= 0 && Sequential(fs, s, e) && AllFail(fs) && fs != []
    requires b.mode == Open || (b.mode == Closed && 0 <= b.failures < threshold)
    ensures (Admitted(b, threshold, cooldown, fs) - threshold) * cooldown <= e - s
    ensures b.mode == Closed ==> (Admitted(b, threshold, cooldown, fs) - (threshold - b.failures)) * cooldown <= e - s
    decreases |fs|, 0
  {
    var b', rest := Step(b, threshold, cooldown, fs[0]), fs[1..];
    var n := Admitted(b', threshold, cooldown, rest);
    if !Admits(b, cooldown, fs[0].asked) {
      FailuresAreRare(b', threshold, cooldown, rest, fs[0].ended, e);
    } else if b'.mode == Open {
      OncePerCooldown(b', threshold, cooldown, rest, fs[0].ended, e);
      Fewer(n + 1, threshold, 1, cooldown);
      if b.mode == Closed {
        Fewer(n + 1, threshold - b.failures, 1, cooldown);
      }
    } else {
      FailuresAreRare(b', threshold, cooldown, rest, fs[0].ended, e);
      Fewer(n + 1, threshold, threshold - b.failures, cooldown);
    }
  }
}
