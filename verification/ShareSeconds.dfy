/** Share-seconds of a depositor (assistant/rewards/classes/User.py). */
module ShareSeconds {

  datatype Transfer = Transfer(timestamp: int, amount: int)

  /** The fields of a user as a value. */
  datatype Account = Account(deposited: int, lastUpdated: int, shareSeconds: int)

  function Clamped(x: int): int {
    if x < 0 then 0 else x
  }

  function After(a: Account, t: Transfer): Account {
    Account(Clamped(a.deposited + t.amount),
            t.timestamp,
            a.shareSeconds + (t.timestamp - a.lastUpdated) * a.deposited)
  }

  class User {
    var currentDeposited: int
    var lastUpdated: int
    var shareSeconds: int

    ghost function State(): Account
      reads this
    {
      Account(currentDeposited, lastUpdated, shareSeconds)
    }

    constructor (currentDeposited: int, lastUpdated: int)
      ensures State() == Account(currentDeposited, lastUpdated, 0)
    {
      this.currentDeposited, this.lastUpdated, shareSeconds := currentDeposited, lastUpdated, 0;
    }

    /** A transfer from before the last update is an error that changes nothing. */
    method ProcessTransfer(transfer: Transfer) returns (ok: bool)
      modifies this
      ensures ok <==> transfer.timestamp >= old(lastUpdated)
      ensures State() == if ok then After(old(State()), transfer) else old(State())
      ensures ok ==> lastUpdated == transfer.timestamp
      ensures ok ==> shareSeconds
                     == old(shareSeconds) + (transfer.timestamp - old(lastUpdated)) * old(currentDeposited)
      ensures ok ==> var sum := old(currentDeposited) + transfer.amount; currentDeposited == if sum < 0 then 0 else sum
    {
      var secondsSinceLastAction := transfer.timestamp - lastUpdated;
      if secondsSinceLastAction < 0 {
        return false;
      }
      lastUpdated := transfer.timestamp;
      shareSeconds := shareSeconds + secondsSinceLastAction * currentDeposited;
      currentDeposited := currentDeposited + transfer.amount;
      if currentDeposited < 0 {
        currentDeposited := 0;
      }
      return true;
    }
  }

  // ----- any number of transfers -----

  function AfterAll(a: Account, ts: seq<Transfer>): Account {
    if ts == [] then a else After(AfterAll(a, ts[..|ts| - 1]), ts[|ts| - 1])
  }

  predicate TimeOrdered(a: Account, ts: seq<Transfer>) {
    && (forall i | 0 <= i < |ts| :: a.lastUpdated <= ts[i].timestamp)
    && (forall i, j | 0 <= i < j < |ts| :: ts[i].timestamp <= ts[j].timestamp)
  }

  /** The deposit during second `s`: the initial one changed by every transfer made by then, never below zero. */
  function DepositAt(a: Account, ts: seq<Transfer>, s: int): int {
    if ts == [] then a.deposited
    else if ts[|ts| - 1].timestamp <= s then AfterAll(a, ts).deposited
    else DepositAt(a, ts[..|ts| - 1], s)
  }

  /** The deposits of every second from `first` until before `until`. */
  function SumSeconds(a: Account, ts: seq<Transfer>, first: int, until: int): int
    decreases until - first
  {
    if until <= first then 0 else SumSeconds(a, ts, first, until - 1) + DepositAt(a, ts, until - 1)
  }

  lemma {:induction false} SumBeforeLast(a: Account, ts: seq<Transfer>, first: int, until: int)
    requires ts != [] && until <= ts[|ts| - 1].timestamp
    ensures SumSeconds(a, ts, first, until) == SumSeconds(a, ts[..|ts| - 1], first, until)
    decreases until - first
  {
    if until <= first {
    } else {
      SumBeforeLast(a, ts, first, until - 1);
    }
  }

  lemma {:induction false} SumAfterAll(a: Account, ts: seq<Transfer>, start: int, first: int, until: int)
    requires start <= first <= until
    requires ts != [] ==> ts[|ts| - 1].timestamp <= first
    ensures SumSeconds(a, ts, start, until)
         == SumSeconds(a, ts, start, first) + (until - first) * AfterAll(a, ts).deposited
    decreases until - first
  {
    if until <= first {
    } else {
      SumAfterAll(a, ts, start, first, until - 1);
      assert DepositAt(a, ts, until - 1) == AfterAll(a, ts).deposited;
      var d := AfterAll(a, ts).deposited;
      assert (until - first) * d == (until - 1 - first) * d + d;
    }
  }

  /** The accumulator is the second-by-second sum of the deposit, from the initial to the last timestamp. */
  lemma {:induction false} AccumulatorIsSum(a: Account, ts: seq<Transfer>)
    requires TimeOrdered(a, ts)
    ensures AfterAll(a, ts).lastUpdated >= a.lastUpdated
    ensures AfterAll(a, ts).shareSeconds
         == a.shareSeconds + SumSeconds(a, ts, a.lastUpdated, AfterAll(a, ts).lastUpdated)
  {
    if ts == [] {
    } else {
      var rest, last := ts[..|ts| - 1], ts[|ts| - 1];
      AccumulatorIsSum(a, rest);
      var before := AfterAll(a, rest);
      SumAfterAll(a, rest, a.lastUpdated, before.lastUpdated, last.timestamp);
      SumBeforeLast(a, ts, a.lastUpdated, last.timestamp);
    }
  }

  lemma LastTransfer(a: Account, ts: seq<Transfer>)
    requires TimeOrdered(a, ts) && a.deposited >= 0
    ensures AfterAll(a, ts).deposited >= 0
    ensures AfterAll(a, ts).lastUpdated == if ts == [] then a.lastUpdated else ts[|ts| - 1].timestamp
  {
  }

  /** With an initial deposit that is not negative, deposits never are, and the accumulator never decreases. */
  lemma AccumulatorGrows(a: Account, ts: seq<Transfer>, n: nat)
    requires TimeOrdered(a, ts) && n < |ts| && a.deposited >= 0
    ensures AfterAll(a, ts[..n]).shareSeconds <= AfterAll(a, ts[..n + 1]).shareSeconds
    ensures AfterAll(a, ts[..n + 1]).deposited >= 0
  {
    assert ts[..n + 1][..n] == ts[..n];
    LastTransfer(a, ts[..n]);
    var before := AfterAll(a, ts[..n]);
    SpanNonNegative(ts[n].timestamp - before.lastUpdated, before.deposited);
  }

  lemma SpanNonNegative(x: int, y: int)
    requires x >= 0 && y >= 0
    ensures x * y >= 0
  {
  }
}
