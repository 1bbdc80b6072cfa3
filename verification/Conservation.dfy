/** Conservation over whole runs: nothing is published that was not released or distributed. */
module Conservation {
  import opened Prelude
  import opened Abi
  import opened Merkle
  import opened Rewards
  import opened RewardsUtils
  import opened Publication
  import opened Cycles
  import opened Schedules

  // ----- totals of combined and cumulative lists -----

  lemma {:induction false} EntryCreditsTo(u: Address, e: Entry, n: nat)
    requires n <= |e.tokens| && n <= |e.cumulativeAmounts|
    ensures AllTo(EntryCredits(u, e, n), u)
  {
    if n == 0 {
    } else {
      EntryCreditsTo(u, e, n - 1);
    }
  }

  lemma {:induction false} FileCreditsSum(f: File, n: nat, t: Address)
    requires GoodFile(f) && Readable(f) && n <= |f.claims.keys|
    ensures CreditSum(FileCredits(f, n), t) == SumPublished(f, f.claims.keys[..n], t) as real
  {
    if n == 0 {
    } else {
      var u := f.claims.keys[n - 1];
      f.claims.HasKey(u);
      var e := f.claims.vals[u];
      assert f.claims.keys[..n][..n - 1] == f.claims.keys[..n - 1];
      FileCreditsSum(f, n - 1, t);
      EntryCreditsTo(u, e, |e.tokens|);
      SumOfOneUser(EntryCredits(u, e, |e.tokens|), u, t);
      UserEntryContents(u, e, u, t);
      CreditSumConcat(FileCredits(f, n - 1), EntryCredits(u, e, |e.tokens|), t);
    }
  }

  /** Everything that the users of a file can claim in a token. */
  ghost function TotalClaims(f: File, t: Address): int
    requires GoodFile(f)
  {
    SumPublished(f, f.claims.keys, t)
  }

  lemma CumulativeTotal(current: File, new_: Ledger, t: Address)
    requires GoodFile(current) && Readable(current) && Consistent(new_)
    ensures Total(Cumulative(current, new_), t) == Total(new_, t) + TotalClaims(current, t) as real
  {
    var n := |current.claims.keys|;
    ApplyTotal(NO_REWARDS, Items(new_), t);
    ApplyTotal(Apply(NO_REWARDS, Items(new_)), FileCredits(current, n), t);
    ItemsSum(new_, t);
    FileCreditsSum(current, n, t);
    assert current.claims.keys[..n] == current.claims.keys;
  }

  // ----- runs -----

  /** How many of the users have the token listed in the file. */
  ghost function Listed(f: File, users: seq<Address>, t: Address): nat {
    if users == [] then 0
    else Listed(f, users[..|users| - 1], t) + if Lists(f, users[|users| - 1], t) then 1 else 0
  }

  /** The holders of a token in a file. */
  ghost function HoldersIn(f: File, t: Address): nat {
    Listed(f, f.claims.keys, t)
  }

  lemma {:induction false} HoldersListed(l: Ledger, f: File, users: seq<Address>, t: Address)
    requires forall u :: Has(l, u, t) <==> Lists(f, u, t)
    ensures Holders(l, users, t) == Listed(f, users, t)
  {
    hide Has, Lists;
    if users == [] {
    } else {
      HoldersListed(l, f, users[..|users| - 1], t);
    }
  }

  lemma PublishedHolders(keccak: Hash, l: Ledger, cycle: int, startBlock: int, endBlock: int, f: File, t: Address)
    requires Publishes(keccak, l, cycle, startBlock, endBlock, f)
    ensures Holders(l, f.claims.keys, t) == HoldersIn(f, t)
  {
    hide Publishes, Has, Lists, Holders, Listed, GoodFile, Readable, Published, Amount;
    forall u ensures Has(l, u, t) <==> Lists(f, u, t) {
      PublishedAmounts(keccak, l, cycle, startBlock, endBlock, f, u, t);
    }
    HoldersListed(l, f, f.claims.keys, t);
  }

  /** In one cycle claims grow by what is credited, short by less than one unit per holder. */
  lemma StepClaims(keccak: Hash, a: System, input: Input, b: System, t: Address)
    requires Step(keccak, a, input, b)
    requires forall i | 0 <= i < |input.sources| :: Consistent(input.sources[i])
    ensures GoodFile(a.file) && GoodFile(b.file)
    ensures var due := TotalClaims(a.file, t) as real + SumTotals(input.sources, t);
            var shortfall, holders := due - TotalClaims(b.file, t) as real, HoldersIn(b.file, t);
            0.0 <= shortfall <= holders as real && (holders > 0 ==> shortfall < holders as real)
  {
    hide Publishes, Cumulative, GoodFile, Readable, Combined, Consistent, WellFormed, SumTotals, SumPublished, Holders,
         PublishedTotal, Total, Has, Amount, Published, Lists, HoldersIn;
    var new_, range := Combined(input.sources), CalcNextCycleRange(a, input.height);
    var l := Cumulative(a.file, new_);
    CombinedContents(input.sources, 0, 0);
    CombinedTotal(input.sources, t);
    CumulativeContents(a.file, new_, 0, 0);
    CumulativeTotal(a.file, new_, t);
    TotalsCoverClaims(keccak, l, a.currentCycle + 1, range.start, range.end, b.file, t);
    PublishedTotalIs(keccak, l, a.currentCycle + 1, range.start, range.end, b.file, t);
    PublishedHolders(keccak, l, a.currentCycle + 1, range.start, range.end, b.file, t);
  }

  lemma PublishedTotalIs(keccak: Hash, l: Ledger, cycle: int, startBlock: int, endBlock: int, f: File, t: Address)
    requires Publishes(keccak, l, cycle, startBlock, endBlock, f)
    ensures PublishedTotal(f, t) == Total(l, t)
  {
  }

  /** The totals of all sources over the first `n` cycles. */
  function SumInputs(inputs: seq<Input>, n: nat, t: Address): real
    requires n <= |inputs|
  {
    if n == 0 then 0.0 else SumInputs(inputs, n - 1, t) + SumTotals(inputs[n - 1].sources, t)
  }

  ghost predicate ConsistentInputs(inputs: seq<Input>) {
    forall i, j | 0 <= i < |inputs| && 0 <= j < |inputs[i].sources| :: Consistent(inputs[i].sources[j])
  }

  /** The holders of a token in each of the first `n` files published by a run, added up. */
  ghost function SumHolders(states: seq<System>, n: nat, t: Address): nat
    requires n < |states|
  {
    if n == 0 then 0 else SumHolders(states, n - 1, t) + HoldersIn(states[n].file, t)
  }

  /**
   Over any number of cycles, all claims in a token grow by what the sources have credited, short by less than one unit
   per holder and cycle.
   */
  lemma {:induction false} ClaimsWithinCredits(
    keccak: Hash, states: seq<System>, inputs: seq<Input>, n: nat, t: Address)
    requires Run(keccak, states, inputs) && ConsistentInputs(inputs) && n <= |inputs|
    ensures GoodFile(states[0].file) && GoodFile(states[n].file)
    ensures var due := TotalClaims(states[0].file, t) as real + SumInputs(inputs, n, t);
            var shortfall, holders := due - TotalClaims(states[n].file, t) as real, SumHolders(states, n, t);
            0.0 <= shortfall <= holders as real && (holders > 0 ==> shortfall < holders as real)
  {
    hide GoodFile, Step, TotalClaims, Consistent, SumTotals, HoldersIn;
    if n == 0 {
    } else {
      ClaimsWithinCredits(keccak, states, inputs, n - 1, t);
      StepClaims(keccak, states[n - 1], inputs[n - 1], states[n], t);
    }
  }

  // ----- schedules over a run -----

  /** The time at which each block of a chain was made; later blocks are not earlier. */
  ghost predicate ChainTimes(time: int -> int) {
    forall a, b :: a <= b ==> time(a) <= time(b)
  }

  function PeriodOf(r: Range, time: int -> int): Period {
    Period(time(r.start), time(r.end))
  }

  function SumLocked(setts: seq<seq<Schedule>>, t: Address): int {
    if setts == [] then 0 else SumLocked(setts[..|setts| - 1], t) + TotalLocked(OfToken(setts[|setts| - 1], t))
  }

  /** What all setts release in one period. */
  function SettsDistribution(setts: seq<seq<Schedule>>, t: Address, p: Period): int {
    if setts == [] then 0
    else SettsDistribution(setts[..|setts| - 1], t, p) + Distribution(OfToken(setts[|setts| - 1], t), p)
  }

  /** What all setts have released by a time. */
  function SettsReleased(setts: seq<seq<Schedule>>, t: Address, time: int): nat {
    if setts == [] then 0
    else SettsReleased(setts[..|setts| - 1], t, time) + Released(OfToken(setts[|setts| - 1], t), time)
  }

  lemma {:induction false} DistributionIsDifference(setts: seq<seq<Schedule>>, t: Address, p: Period)
    ensures SettsDistribution(setts, t, p) == SettsReleased(setts, t, p.endTime) - SettsReleased(setts, t, p.startTime)
  {
    hide OfToken, Released;
    if setts == [] {
    } else {
      DistributionIsDifference(setts[..|setts| - 1], t, p);
    }
  }

  lemma {:induction false} SettsReleasedMonotone(setts: seq<seq<Schedule>>, t: Address, a: int, b: int)
    requires a <= b
    ensures SettsReleased(setts, t, a) <= SettsReleased(setts, t, b) <= SumLocked(setts, t)
  {
    hide OfToken, Released, TotalLocked;
    if setts == [] {
    } else {
      SettsReleasedMonotone(setts[..|setts| - 1], t, a, b);
      ReleasedMonotone(OfToken(setts[|setts| - 1], t), a, b);
    }
  }

  // ----- gains over ranges that may overlap, fall or be empty -----

  /** What a growing quantity gains over a range; a range that does not run forwards gains nothing. */
  function Gain(f: int -> int, r: Range): int {
    if r.start < r.end then f(r.end) - f(r.start) else 0
  }

  function SumGains(f: int -> int, rs: seq<Range>): int {
    if rs == [] then 0 else SumGains(f, rs[..|rs| - 1]) + Gain(f, rs[|rs| - 1])
  }

  ghost predicate Grows(f: int -> int) {
    forall a, b :: a <= b ==> f(a) <= f(b)
  }

  /** The gains of the blocks above `low` up to `high` that lie in the range. */
  function BlockGains(f: int -> int, r: Range, low: int, high: int): int
    requires low <= high
    decreases high - low
  {
    if low == high then 0
    else BlockGains(f, r, low, high - 1) + if InTreeWindow(r, high) then f(high) - f(high - 1) else 0
  }

  /** The gain of each block, as often as ranges count the block. */
  function CountedGains(f: int -> int, rs: seq<Range>, low: int, high: int): int
    requires low <= high
    decreases high - low
  {
    if low == high then 0
    else CountedGains(f, rs, low, high - 1) + Multiple(TreeCount(rs, high), f(high) - f(high - 1))
  }

  lemma {:induction false} BlockGainsTelescope(f: int -> int, r: Range, low: int, high: int)
    requires low <= high && low <= r.start
    ensures BlockGains(f, r, low, high)
         == if r.start < r.end && r.start < high then f(Min(r.end, high)) - f(r.start) else 0
    decreases high - low
  {
    if low == high {
    } else {
      BlockGainsTelescope(f, r, low, high - 1);
    }
  }

  lemma {:induction false} CountedGainsLast(f: int -> int, rs: seq<Range>, low: int, high: int)
    requires low <= high && rs != []
    ensures CountedGains(f, rs, low, high)
         == CountedGains(f, rs[..|rs| - 1], low, high) + BlockGains(f, rs[|rs| - 1], low, high)
    decreases high - low
  {
    hide Multiple, InTreeWindow;
    if low == high {
    } else {
      CountedGainsLast(f, rs, low, high - 1);
      MultipleStep(TreeCount(rs[..|rs| - 1], high), f(high) - f(high - 1));
    }
  }

  lemma {:induction false} NoneCounted(f: int -> int, low: int, high: int)
    requires low <= high
    ensures CountedGains(f, [], low, high) == 0
    decreases high - low
  {
    if low == high {
    } else {
      NoneCounted(f, low, high - 1);
      MultipleStep(0, f(high) - f(high - 1));
    }
  }

  ghost predicate Inside(rs: seq<Range>, low: int, high: int) {
    low <= high && forall i | 0 <= i < |rs| :: low <= rs[i].start && rs[i].end <= high
  }

  lemma {:induction false} GainsAreCounted(f: int -> int, rs: seq<Range>, low: int, high: int)
    requires Inside(rs, low, high)
    ensures SumGains(f, rs) == CountedGains(f, rs, low, high)
  {
    if rs == [] {
      NoneCounted(f, low, high);
    } else {
      GainsAreCounted(f, rs[..|rs| - 1], low, high);
      CountedGainsLast(f, rs, low, high);
      BlockGainsTelescope(f, rs[|rs| - 1], low, high);
    }
  }

  lemma {:induction false} CountedOnceWithin(f: int -> int, rs: seq<Range>, low: int, high: int)
    requires low <= high && TreeOnce(rs) && Grows(f)
    ensures CountedGains(f, rs, low, high) <= f(high) - f(low)
    decreases high - low
  {
    if low == high {
    } else {
      CountedOnceWithin(f, rs, low, high - 1);
      OnceAtMost(TreeCount(rs, high), f(high) - f(high - 1));
    }
  }

  function Lowest(rs: seq<Range>): int {
    if rs == [] then 0 else Min(Lowest(rs[..|rs| - 1]), rs[|rs| - 1].start)
  }

  function Highest(rs: seq<Range>): int {
    if rs == [] then 0 else Max(Highest(rs[..|rs| - 1]), rs[|rs| - 1].end)
  }

  lemma {:induction false} InsideBounds(rs: seq<Range>)
    ensures Lowest(rs) <= 0 <= Highest(rs) && Inside(rs, Lowest(rs), Highest(rs))
  {
    if rs == [] {
    } else {
      InsideBounds(rs[..|rs| - 1]);
      assert forall i | 0 <= i < |rs| - 1 :: rs[..|rs| - 1][i] == rs[i];
    }
  }

  /** When no block is counted twice, all gains together are at most one gain over everything. */
  lemma GainsWithin(f: int -> int, rs: seq<Range>)
    requires TreeOnce(rs) && Grows(f)
    ensures SumGains(f, rs) <= f(Highest(rs)) - f(Lowest(rs))
  {
    InsideBounds(rs);
    GainsAreCounted(f, rs, Lowest(rs), Highest(rs));
    CountedOnceWithin(f, rs, Lowest(rs), Highest(rs));
  }

  /** What all setts have released by each block of the chain. */
  function ReleasedAt(setts: seq<seq<Schedule>>, t: Address, time: int -> int): int -> int {
    b => SettsReleased(setts, t, time(b))
  }

  lemma GainIsDistribution(setts: seq<seq<Schedule>>, t: Address, time: int -> int, r: Range)
    ensures Gain(ReleasedAt(setts, t, time), r)
         == if r.start < r.end then SettsDistribution(setts, t, PeriodOf(r, time)) else 0
  {
    DistributionIsDifference(setts, t, PeriodOf(r, time));
  }

  /**
   Whatever the ranges of the cycles, as long as no block is counted twice, all that is distributed of a token is at
   most what was locked for it. Ranges may be empty, and may go back.
   */
  lemma GainsWithinLocked(setts: seq<seq<Schedule>>, t: Address, time: int -> int, rs: seq<Range>)
    requires TreeOnce(rs) && ChainTimes(time)
    ensures SumGains(ReleasedAt(setts, t, time), rs) <= SumLocked(setts, t)
  {
    var f := ReleasedAt(setts, t, time);
    forall a, b | a <= b ensures f(a) <= f(b) {
      SettsReleasedMonotone(setts, t, time(a), time(b));
    }
    GainsWithin(f, rs);
    SettsReleasedMonotone(setts, t, time(Highest(rs)), time(Highest(rs)));
  }

  /** Setts and schedules are only ever added. */
  predicate GrowsInto(now: seq<seq<Schedule>>, later: seq<seq<Schedule>>) {
    |now| <= |later| && forall j | 0 <= j < |now| :: now[j] <= later[j]
  }

  lemma {:induction false} LaterReleasesMore(now: seq<seq<Schedule>>, later: seq<seq<Schedule>>, t: Address, p: Period)
    requires GrowsInto(now, later) && p.startTime <= p.endTime
    ensures SettsDistribution(now, t, p) <= SettsDistribution(later, t, p)
  {
    hide OfToken;
    if later == [] {
    } else {
      var n := |later| - 1;
      if |now| == |later| {
        LaterReleasesMore(now[..n], later[..n], t, p);
        OfTokenPrefix(now[n], later[n], t);
        MoreSchedulesMore(OfToken(now[n], t), OfToken(later[n], t), p);
      } else {
        LaterReleasesMore(now, later[..n], t, p);
        ReleasedMonotone(OfToken(later[n], t), p.startTime, p.endTime);
      }
    }
  }
}
