/** Unlock schedules: how many tokens are released by a given time (assistant/rewards/calc_snapshot.py:136-175). */
module Schedules {
  import opened Prelude
  import opened Dicts
  import opened Abi

  datatype Schedule = Schedule(
    sett: Address,
    token: Address,
    initialTokensLocked: nat,
    startTime: nat,
    endTime: nat,
    duration: nat)

  function Min(a: int, b: int): int {
    if a <= b then a else b
  }

  predicate Started(s: Schedule, time: int) {
    time >= s.startTime
  }

  /** `k / d` of `n`, in whole units and exactly. */
  function WholeShare(n: nat, k: nat, d: nat): nat
    requires d > 0
  {
    n * k / d
  }

  function ExactShare(n: nat, k: nat, d: nat): real
    requires d > 0
  {
    n as real * k as real / d as real
  }

  /** The tokens a schedule has released by a time, in whole units. A started schedule without duration raises. */
  function ReleasedBy(s: Schedule, time: int): nat {
    if !Started(s, time) || s.duration == 0 then 0
    else Min(s.initialTokensLocked, WholeShare(s.initialTokensLocked, time - s.startTime, s.duration))
  }

  /** A division by the duration, or by the locked amount in the progress message of a running schedule. */
  predicate Divides(s: Schedule, time: int) {
    Started(s, time) ==> s.duration > 0 && (time <= s.endTime ==> s.initialTokensLocked > 0)
  }

  predicate AllDivide(ss: seq<Schedule>, time: int) {
    forall i | 0 <= i < |ss| :: Divides(ss[i], time)
  }

  predicate AllLast(ss: seq<Schedule>) {
    forall i | 0 <= i < |ss| :: ss[i].duration > 0
  }

  function Released(ss: seq<Schedule>, time: int): nat {
    if ss == [] then 0 else Released(ss[..|ss| - 1], time) + ReleasedBy(ss[|ss| - 1], time)
  }

  method GetDistributedForTokenAt(schedules: seq<Schedule>, time: int) returns (r: Result<nat>)
    ensures r.Success? <==> AllDivide(schedules, time)
    ensures r.Failure? ==> r.error == ZeroDivisionError
    ensures r.Failure? <==> exists i | 0 <= i < |schedules| ::
              && schedules[i].startTime <= time
              && (schedules[i].duration == 0
                  || (time <= schedules[i].endTime && schedules[i].initialTokensLocked == 0))
    ensures r.Success? ==> r.value == Released(schedules, time)
  {
    var totalToDistribute: nat := 0;
    for i := 0 to |schedules|
      invariant AllDivide(schedules[..i], time)
      invariant totalToDistribute == Released(schedules[..i], time)
    {
      var schedule := schedules[i];
      var toDistribute: nat := 0;
      if time >= schedule.startTime {
        var rangeDuration := time - schedule.startTime;
        if schedule.duration == 0 {
          return Failure(ZeroDivisionError);
        }
        toDistribute := Min(schedule.initialTokensLocked,
                            schedule.initialTokensLocked * rangeDuration / schedule.duration);
        if schedule.startTime <= time && schedule.endTime >= time && schedule.initialTokensLocked == 0 {
          return Failure(ZeroDivisionError);
        }
      }
      assert schedules[..i + 1][..i] == schedules[..i];
      totalToDistribute := totalToDistribute + toDistribute;
    }
    assert schedules[..|schedules|] == schedules;
    return Success(totalToDistribute);
  }

  // ----- one schedule -----

  lemma ReleasedByMonotone(s: Schedule, a: int, b: int)
    requires a <= b
    ensures ReleasedBy(s, a) <= ReleasedBy(s, b) <= s.initialTokensLocked
  {
    if Started(s, a) && s.duration > 0 {
      ProductMonotone(s.initialTokensLocked, a - s.startTime, b - s.startTime);
      var n := s.initialTokensLocked;
      DivisionMonotone(n * (a - s.startTime), n * (b - s.startTime), s.duration);
    }
  }

  lemma ReleasedByComplete(s: Schedule, time: int)
    requires s.duration > 0 && time >= s.startTime + s.duration
    ensures ReleasedBy(s, time) == s.initialTokensLocked
  {
    DivisionReaches(s.initialTokensLocked, time - s.startTime, s.duration);
  }

  /** The exact amount of a linear release over the schedule's duration. */
  function ExactlyReleased(s: Schedule, time: int): real
    requires s.duration > 0
  {
    if time < s.startTime then 0.0
    else if time >= s.startTime + s.duration then s.initialTokensLocked as real
    else ExactShare(s.initialTokensLocked, time - s.startTime, s.duration)
  }

  lemma FloorOfQuotient(a: nat, d: nat)
    requires d > 0
    ensures (a / d) as real <= a as real / d as real < (a / d) as real + 1.0
  {
    var q, r := a / d, a % d;
    assert a == q * d + r;
    assert a as real == q as real * d as real + r as real;
    var x := a as real / d as real;
    assert x * d as real == a as real;
    if x < q as real {
      RealProduct(d as real, x, q as real);
    }
    if x >= q as real + 1.0 {
      RealProductAtLeast(d as real, q as real + 1.0, x);
    }
  }

  lemma RealProduct(d: real, x: real, y: real)
    requires d > 0.0 && x < y
    ensures x * d < y * d
  {
  }

  lemma RealProductAtLeast(d: real, x: real, y: real)
    requires d > 0.0 && x <= y
    ensures x * d <= y * d
  {
  }

  /** The whole amount is the exact one rounded down. */
  lemma ReleasedByAccuracy(s: Schedule, time: int)
    requires s.duration > 0
    ensures ReleasedBy(s, time) as real <= ExactlyReleased(s, time) < ReleasedBy(s, time) as real + 1.0
  {
    hide WholeShare, ExactShare;
    if time >= s.startTime + s.duration {
      ReleasedByComplete(s, time);
    } else if Started(s, time) {
      RunningAccuracy(s.initialTokensLocked, time - s.startTime, s.duration);
    }
  }

  lemma RunningAccuracy(n: nat, k: nat, d: nat)
    requires k < d
    ensures WholeShare(n, k, d) <= n
    ensures WholeShare(n, k, d) as real <= ExactShare(n, k, d) < WholeShare(n, k, d) as real + 1.0
  {
    ProductMonotone(n, k, d);
    DivisionMonotone(n * k, n * d, d);
    QuotientOfProduct(n, d);
    FloorOfQuotient(n * k, d);
    RealOfProduct(n, k);
    assert ExactShare(n, k, d) == (n * k) as real / d as real;
  }

  lemma RealOfProduct(n: nat, k: nat)
    ensures (n * k) as real == n as real * k as real
  {
  }

  lemma QuotientOfProduct(n: nat, d: nat)
    requires d > 0
    ensures n * d / d == n
  {
    var q, r := n * d / d, n * d % d;
    assert n * d == q * d + r;
    if q < n {
      MultiplyStep(d, q, n);
    } else if n < q {
      MultiplyStep(d, n, q);
    }
  }

  // ----- all schedules of a token -----

  function TotalLocked(ss: seq<Schedule>): nat {
    if ss == [] then 0 else TotalLocked(ss[..|ss| - 1]) + ss[|ss| - 1].initialTokensLocked
  }

  /** Releases never go back and never exceed what is locked. */
  lemma {:induction false} ReleasedMonotone(ss: seq<Schedule>, a: int, b: int)
    requires a <= b
    ensures Released(ss, a) <= Released(ss, b) <= TotalLocked(ss)
  {
    if ss == [] {
    } else {
      ReleasedMonotone(ss[..|ss| - 1], a, b);
      ReleasedByMonotone(ss[|ss| - 1], a, b);
    }
  }

  /** Once every duration has passed, everything is released. */
  lemma {:induction false} ReleasedComplete(ss: seq<Schedule>, time: int)
    requires AllLast(ss) && forall i | 0 <= i < |ss| :: time >= ss[i].startTime + ss[i].duration
    ensures Released(ss, time) == TotalLocked(ss)
  {
    if ss == [] {
    } else {
      ReleasedComplete(ss[..|ss| - 1], time);
      ReleasedByComplete(ss[|ss| - 1], time);
    }
  }

  // ----- periods -----

  datatype Period = Period(startTime: int, endTime: int)

  /** What one cycle distributes of a token. */
  function Distribution(ss: seq<Schedule>, p: Period): int {
    Released(ss, p.endTime) - Released(ss, p.startTime)
  }

  function ExactDistribution(ss: seq<Schedule>, p: Period): real
    requires AllLast(ss)
  {
    if ss == [] then 0.0
    else
      ExactDistribution(ss[..|ss| - 1], p)
      + (ExactlyReleased(ss[|ss| - 1], p.endTime) - ExactlyReleased(ss[|ss| - 1], p.startTime))
  }

  /** The amount distributed in any period is off the exact one by less than one unit per schedule. */
  lemma {:induction false} DistributionAccuracy(ss: seq<Schedule>, p: Period)
    requires AllLast(ss) && ss != []
    ensures ExactDistribution(ss, p) - |ss| as real < Distribution(ss, p) as real
            < ExactDistribution(ss, p) + |ss| as real
  {
    var rest, last := ss[..|ss| - 1], ss[|ss| - 1];
    ReleasedByAccuracy(last, p.startTime);
    ReleasedByAccuracy(last, p.endTime);
    var exact := ExactlyReleased(last, p.endTime) - ExactlyReleased(last, p.startTime);
    var whole := ReleasedBy(last, p.endTime) - ReleasedBy(last, p.startTime);
    assert exact - 1.0 < whole as real < exact + 1.0;
    assert Distribution(ss, p) == Distribution(rest, p) + whole;
    assert ExactDistribution(ss, p) == ExactDistribution(rest, p) + exact;
    if rest == [] {
      assert Distribution(rest, p) == 0 && ExactDistribution(rest, p) == 0.0;
    } else {
      DistributionAccuracy(rest, p);
    }
  }

  /** Periods that run forwards and do not overlap; there may be gaps. */
  predicate InOrder(ps: seq<Period>) {
    && (forall i | 0 <= i < |ps| :: ps[i].startTime <= ps[i].endTime)
    && (forall i | 0 <= i < |ps| - 1 :: ps[i].endTime <= ps[i + 1].startTime)
  }

  function SumDistributed(ss: seq<Schedule>, ps: seq<Period>): int
  {
    if ps == [] then 0 else SumDistributed(ss, ps[..|ps| - 1]) + Distribution(ss, ps[|ps| - 1])
  }

  /** What is released between consecutive periods, and so distributed in none of them. */
  function SumGaps(ss: seq<Schedule>, ps: seq<Period>): int
  {
    if |ps| < 2 then 0
    else
      SumGaps(ss, ps[..|ps| - 1])
      + Distribution(ss, Period(ps[|ps| - 2].endTime, ps[|ps| - 1].startTime))
  }

  /** Over any run of periods, distributions and gaps add up to the release from the first start to the last end. */
  lemma {:induction false} DistributionsTelescope(ss: seq<Schedule>, ps: seq<Period>)
    requires ps != []
    ensures SumDistributed(ss, ps) + SumGaps(ss, ps)
         == Released(ss, ps[|ps| - 1].endTime) - Released(ss, ps[0].startTime)
  {
    if |ps| == 1 {
      assert ps[..0] == [];
    } else {
      DistributionsTelescope(ss, ps[..|ps| - 1]);
    }
  }

  /** So ordered periods never distribute more than is locked, and abutting ones exactly what is released. */
  lemma {:induction false} NeverOverDistributed(ss: seq<Schedule>, ps: seq<Period>)
    requires ps != [] && InOrder(ps)
    ensures 0 <= SumDistributed(ss, ps) <= Released(ss, ps[|ps| - 1].endTime) <= TotalLocked(ss)
    ensures (forall i | 0 <= i < |ps| - 1 :: ps[i].endTime == ps[i + 1].startTime) ==>
              SumDistributed(ss, ps) == Released(ss, ps[|ps| - 1].endTime) - Released(ss, ps[0].startTime)
  {
    DistributionsTelescope(ss, ps);
    GapsNonNegative(ss, ps);
    ReleasedMonotone(ss, ps[|ps| - 1].endTime, ps[|ps| - 1].endTime);
  }

  lemma {:induction false} GapsNonNegative(ss: seq<Schedule>, ps: seq<Period>)
    requires InOrder(ps)
    ensures SumGaps(ss, ps) >= 0 && SumDistributed(ss, ps) >= 0
    ensures (forall i | 0 <= i < |ps| - 1 :: ps[i].endTime == ps[i + 1].startTime) ==> SumGaps(ss, ps) == 0
  {
    if ps == [] {
    } else {
      var rest, last := ps[..|ps| - 1], ps[|ps| - 1];
      GapsNonNegative(ss, rest);
      ReleasedMonotone(ss, last.startTime, last.endTime);
      if |ps| > 1 {
        var before := ps[|ps| - 2];
        assert before.endTime <= ps[|ps| - 2 + 1].startTime;
        ReleasedMonotone(ss, before.endTime, last.startTime);
      }
    }
  }

  /** Schedules that are added later only add to what is distributed. */
  lemma {:induction false} MoreSchedulesMore(ss: seq<Schedule>, more: seq<Schedule>, p: Period)
    requires ss <= more && p.startTime <= p.endTime
    ensures Distribution(ss, p) <= Distribution(more, p)
  {
    if |ss| == |more| {
      assert ss == more;
    } else {
      MoreSchedulesMore(ss, more[..|more| - 1], p);
      ReleasedByMonotone(more[|more| - 1], p.startTime, p.endTime);
    }
  }

  // ----- parse_schedules -----

  /** The schedules of one token, in their original order. */
  function OfToken(ss: seq<Schedule>, t: Address): seq<Schedule> {
    if ss == [] then []
    else OfToken(ss[..|ss| - 1], t) + if ss[|ss| - 1].token == t then [ss[|ss| - 1]] else []
  }

  /** The tokens in the order of their first schedules. */
  function TokensOf(ss: seq<Schedule>): seq<Address> {
    if ss == [] then []
    else
      var rest := TokensOf(ss[..|ss| - 1]);
      if ss[|ss| - 1].token in rest then rest else rest + [ss[|ss| - 1].token]
  }

  lemma {:induction false} TokensAreThoseScheduled(ss: seq<Schedule>, t: Address)
    ensures t in TokensOf(ss) <==> OfToken(ss, t) != []
  {
    if ss == [] {
    } else {
      TokensAreThoseScheduled(ss[..|ss| - 1], t);
    }
  }

  lemma {:induction false} TokensAreDistinct(ss: seq<Schedule>)
    ensures forall i, j | 0 <= i < j < |TokensOf(ss)| :: TokensOf(ss)[i] != TokensOf(ss)[j]
  {
    if ss == [] {
    } else {
      var rest, t := TokensOf(ss[..|ss| - 1]), ss[|ss| - 1].token;
      TokensAreDistinct(ss[..|ss| - 1]);
      assert TokensOf(ss) == if t in rest then rest else rest + [t];
      hide TokensOf;
    }
  }

  method ParseSchedules(schedules: seq<Schedule>) returns (byToken: Dict<Address, seq<Schedule>>)
    ensures byToken.Valid() && byToken.keys == TokensOf(schedules)
    ensures forall t | t in byToken.vals :: byToken.vals[t] == OfToken(schedules, t)
  {
    byToken := Empty();
    for i := 0 to |schedules|
      invariant byToken.Valid() && byToken.keys == TokensOf(schedules[..i])
      invariant forall t | t in byToken.vals :: byToken.vals[t] == OfToken(schedules[..i], t)
    {
      var schedule := schedules[i];
      assert schedules[..i + 1][..i] == schedules[..i];
      byToken.HasKey(schedule.token);
      TokensAreThoseScheduled(schedules[..i], schedule.token);
      if schedule.token !in byToken.vals {
        byToken.PutValid(schedule.token, []);
        byToken := byToken.Put(schedule.token, []);
        byToken.HasKey(schedule.token);
      }
      var more := byToken.vals[schedule.token] + [schedule];
      byToken.PutValid(schedule.token, more);
      byToken := byToken.Put(schedule.token, more);
    }
    assert schedules[..|schedules|] == schedules;
  }

  lemma {:induction false} OfTokenPrefix(ss: seq<Schedule>, more: seq<Schedule>, t: Address)
    requires ss <= more
    ensures OfToken(ss, t) <= OfToken(more, t)
  {
    if |ss| == |more| {
      assert ss == more;
    } else {
      OfTokenPrefix(ss, more[..|more| - 1], t);
    }
  }

  /** Grouping loses no schedule and duplicates none. */
  lemma {:induction false} OfTokenMultiplicity(ss: seq<Schedule>, s: Schedule, t: Address)
    ensures multiset(OfToken(ss, t))[s] == if s.token == t then multiset(ss)[s] else 0
  {
    if ss == [] {
    } else {
      OfTokenMultiplicity(ss[..|ss| - 1], s, t);
      assert ss == ss[..|ss| - 1] + [ss[|ss| - 1]];
    }
  }
}
