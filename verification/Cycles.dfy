/**
 Whole runs: cycle after cycle, new rewards are added to the last published file and published again
 (scripts/rewards/rewards_utils.py:51-67, assistant/rewards/rewards_assistant.py:199-267).

 Proposal and approval on chain are one step here: the contract then records the file's cycle and end block.
 */
module Cycles {
  import opened Prelude
  import opened Abi
  import opened Merkle
  import opened Rewards
  import opened RewardsUtils
  import opened Publication

  /** The last published file, and what the contract recorded about it. */
  datatype System = System(file: File, currentCycle: int, lastPublishEndBlock: int)

  /** The rewards of the sources of one cycle, and the chain height at which it is run. */
  datatype Input = Input(sources: seq<Ledger>, height: int)

  datatype Range = Range(start: int, end: int)

  /** The next range starts after the last published block and ends 100 blocks below the chain height. */
  function CalcNextCycleRange(s: System, height: int): Range {
    Range(s.lastPublishEndBlock + 1, height - 100)
  }

  ghost predicate GoodSources(ls: seq<Ledger>) {
    forall i | 0 <= i < |ls| :: WellFormed(ls[i])
  }

  ghost predicate PublishesNext(keccak: Hash, a: System, input: Input, range: Range, f: File)
    requires GoodSources(input.sources) && Readable(a.file) && WellFormed(Combined(input.sources))
  {
    Publishes(keccak, Cumulative(a.file, Combined(input.sources)), a.currentCycle + 1, range.start, range.end, f)
  }

  ghost predicate Step(keccak: Hash, a: System, input: Input, b: System) {
    && GoodSources(input.sources) && GoodFile(a.file) && Readable(a.file) && WellFormed(Combined(input.sources))
    && PublishesNext(keccak, a, input, CalcNextCycleRange(a, input.height), b.file)
    && b.currentCycle == b.file.cycle
    && b.lastPublishEndBlock == b.file.endBlock
  }

  /** The end of a cycle, from the rewards of its sources to the file; it publishes what `Step` asks for. */
  method PublishRewards(
    keccak: Hash, range: Range, cycle: int, sett: RewardsList, tree: RewardsList, sushi: RewardsList, past: File,
    ghost ls: seq<Ledger>)
    returns (r: Result<File>)
    requires GoodFile(past)
    requires GoodSources(ls) && ls == [sett.State(), tree.State(), sushi.State()]
    ensures Readable(past) && WellFormed(Combined(ls))
    ensures var l := Cumulative(past, Combined(ls));
            && WellFormed(l)
            && (r.Success? <==> Encodable(l, cycle) && l.claims.keys != [])
            && (r.Success? ==> Publishes(keccak, l, cycle, range.start, range.end, r.value))
  {
    hide GoodFile, Publishes, Encodable, Consistent, Has, Amount, Published, Lists, SumAmounts, AnyHas, Combined,
         Cumulative, GoodHoldings;
    CombinedContents(ls, 0, 0);
    GoodIsReadable(past);
    CumulativeContents(past, Combined(ls), 0, 0);
    var newRewards := CombineRewards([sett, tree, sushi], cycle, ls);
    var cumulativeRewards := ProcessCumulativeRewards(past, newRewards, Combined(ls));
    r := RewardsToMerkleTree(keccak, cumulativeRewards.value, range.start, range.end);
  }

  // ----- one cycle -----

  lemma StepContents(keccak: Hash, a: System, input: Input, b: System, u: Address, t: Address)
    requires Step(keccak, a, input, b)
    ensures GoodFile(b.file) && Readable(b.file)
    ensures Published(b.file, u, t) == Published(a.file, u, t) + Trunc(SumAmounts(input.sources, u, t))
    ensures Lists(b.file, u, t) <==> Lists(a.file, u, t) || AnyHas(input.sources, u, t)
    ensures SumAmounts(input.sources, u, t) >= 0.0 && Published(a.file, u, t) >= 0
  {
    hide Publishes, Cumulative, GoodFile, Readable, Combined, Published, Lists, Amount, Has, Consistent, WellFormed,
         SumAmounts, AnyHas;
    var new_, range := Combined(input.sources), CalcNextCycleRange(a, input.height);
    CombinedContents(input.sources, u, t);
    AmountNonNegative(new_, u, t);
    CumulativeContents(a.file, new_, u, t);
    PublishedAmounts(keccak, Cumulative(a.file, new_), a.currentCycle + 1, range.start, range.end, b.file, u, t);
    PublishedNonNegative(a.file, u, t);
    TruncAddInt(Published(a.file, u, t), Amount(new_, u, t));
  }

  lemma PublishedNonNegative(f: File, u: Address, t: Address)
    requires GoodFile(f)
    ensures Published(f, u, t) >= 0
  {
    if u in f.claims.vals {
      var e := f.claims.vals[u];
      if t in e.tokens {
        var i :| 0 <= i < |e.tokens| && e.tokens[i] == t;
        ClaimableAt(e.tokens, e.cumulativeAmounts, i);
      } else {
        ClaimableAbsent(e.tokens, e.cumulativeAmounts, t);
      }
    }
  }

  // ----- runs -----

  ghost predicate Run(keccak: Hash, states: seq<System>, inputs: seq<Input>) {
    && |states| == |inputs| + 1
    && GoodFile(states[0].file)
    && forall i | 0 <= i < |inputs| :: Step(keccak, states[i], inputs[i], states[i + 1])
  }

  /** The whole part of each cycle's combined reward, summed over the first `n` cycles. */
  function SumWhole(inputs: seq<Input>, n: nat, u: Address, t: Address): int
    requires n <= |inputs|
  {
    if n == 0 then 0 else SumWhole(inputs, n - 1, u, t) + Trunc(SumAmounts(inputs[n - 1].sources, u, t))
  }

  /** After any number of cycles a user can claim the initial amount plus the whole part of each cycle's reward. */
  lemma {:induction false} RunAmounts(
    keccak: Hash, states: seq<System>, inputs: seq<Input>, n: nat, u: Address, t: Address)
    requires Run(keccak, states, inputs) && n <= |inputs|
    ensures GoodFile(states[0].file) && GoodFile(states[n].file)
    ensures Published(states[n].file, u, t) == Published(states[0].file, u, t) + SumWhole(inputs, n, u, t)
  {
    hide GoodFile, Step, Published, Lists, AnyHas, SumAmounts, Readable;
    if n == 0 {
    } else {
      RunAmounts(keccak, states, inputs, n - 1, u, t);
      StepContents(keccak, states[n - 1], inputs[n - 1], states[n], u, t);
    }
  }

  /** No amount ever decreases, and no user or token is ever dropped. */
  lemma {:induction false} RunMonotone(
    keccak: Hash, states: seq<System>, inputs: seq<Input>, i: nat, j: nat, u: Address, t: Address)
    requires Run(keccak, states, inputs) && i <= j <= |inputs|
    ensures GoodFile(states[i].file) && GoodFile(states[j].file)
    ensures Published(states[i].file, u, t) <= Published(states[j].file, u, t)
    ensures Lists(states[i].file, u, t) ==> Lists(states[j].file, u, t)
    decreases j - i
  {
    hide GoodFile, Step, Published, Lists, AnyHas, SumAmounts, Readable;
    RunAmounts(keccak, states, inputs, i, u, t);
    if j <= i {
    } else {
      RunMonotone(keccak, states, inputs, i, j - 1, u, t);
      StepContents(keccak, states[j - 1], inputs[j - 1], states[j], u, t);
    }
  }

  // ----- block ranges -----

  /** The ranges of the cycles of a run. */
  function Ranges(states: seq<System>, inputs: seq<Input>): seq<Range>
    requires |states| == |inputs| + 1
  {
    seq(|inputs|, i requires 0 <= i < |inputs| => CalcNextCycleRange(states[i], inputs[i].height))
  }

  /** Each range starts right after the end of the one before. */
  predicate Chained(rs: seq<Range>) {
    forall i | 0 <= i < |rs| - 1 :: rs[i + 1].start == rs[i].end + 1
  }

  lemma RunRanges(keccak: Hash, states: seq<System>, inputs: seq<Input>)
    requires Run(keccak, states, inputs)
    ensures var rs := Ranges(states, inputs);
            && Chained(rs)
            && forall i | 0 <= i < |inputs| ::
                 && states[i + 1].file.startBlock == rs[i].start
                 && states[i + 1].file.endBlock == rs[i].end == inputs[i].height - 100
                 && states[i + 1].currentCycle == states[i].currentCycle + 1
  {
  }

  predicate Ordered(rs: seq<Range>) {
    forall i, j | 0 <= i < j < |rs| :: rs[i].end < rs[j].start
  }

  /** No cycle between two others ends before the block at which the cycle before it ended. */
  predicate Advancing(rs: seq<Range>) {
    forall k | 0 < k < |rs| - 1 :: rs[k].start - 1 <= rs[k].end
  }

  /**
   The code does not compare the end block with the start block, so a range can end before it starts. Ranges follow one
   another without overlap if and only if none between two others ends before the end of the one before it.
   */
  lemma OrderedIffAdvancing(rs: seq<Range>)
    requires Chained(rs)
    ensures Ordered(rs) <==> Advancing(rs)
  {
    if Advancing(rs) {
      forall i, j | 0 <= i < j < |rs| ensures rs[i].end < rs[j].start {
        AdvancingOrder(rs, i, j);
      }
    }
    if Ordered(rs) {
      forall k | 0 < k < |rs| - 1 ensures rs[k].start - 1 <= rs[k].end {
        assert rs[k - 1].end < rs[k + 1].start;
        assert rs[k - 1 + 1].start == rs[k - 1].end + 1;
      }
    }
  }

  lemma {:induction false} AdvancingOrder(rs: seq<Range>, i: nat, j: nat)
    requires Chained(rs) && Advancing(rs) && i < j < |rs|
    ensures rs[i].end < rs[j].start
  {
    assert rs[j - 1 + 1].start == rs[j - 1].end + 1;
    if j - 1 <= i {
    } else {
      AdvancingOrder(rs, i, j - 1);
    }
  }

  /** In a run this is a matter of the chain: ranges never overlap exactly if its height does not fall in between. */
  lemma RunOrderedIffHeightsRise(keccak: Hash, states: seq<System>, inputs: seq<Input>)
    requires Run(keccak, states, inputs)
    ensures Ordered(Ranges(states, inputs)) <==>
            forall k | 0 < k < |inputs| - 1 :: inputs[k - 1].height <= inputs[k].height
  {
    hide Step, GoodFile;
    var rs := Ranges(states, inputs);
    RunRanges(keccak, states, inputs);
    OrderedIffAdvancing(rs);
    forall k | 0 < k < |inputs| - 1 ensures rs[k].start - 1 <= rs[k].end <==> inputs[k - 1].height <= inputs[k].height {
      assert rs[k - 1 + 1].start == rs[k - 1].end + 1;
    }
    if Advancing(rs) {
      forall k | 0 < k < |inputs| - 1 ensures inputs[k - 1].height <= inputs[k].height {
        assert rs[k].start - 1 <= rs[k].end;
      }
    }
    if forall k | 0 < k < |inputs| - 1 :: inputs[k - 1].height <= inputs[k].height {
      forall k | 0 < k < |rs| - 1 ensures rs[k].start - 1 <= rs[k].end {
        assert inputs[k - 1].height <= inputs[k].height;
      }
      assert Advancing(rs);
    }
  }

  /** Harvest events are kept strictly inside the range; tree distributions after its first block, up to its last. */
  predicate InHarvestWindow(r: Range, block: int) {
    r.start < block < r.end
  }

  predicate InTreeWindow(r: Range, block: int) {
    r.start < block <= r.end
  }

  /** In how many cycles an event at this block is rewarded. */
  function HarvestCount(rs: seq<Range>, block: int): nat {
    if rs == [] then 0
    else HarvestCount(rs[..|rs| - 1], block) + if InHarvestWindow(rs[|rs| - 1], block) then 1 else 0
  }

  function TreeCount(rs: seq<Range>, block: int): nat {
    if rs == [] then 0
    else TreeCount(rs[..|rs| - 1], block) + if InTreeWindow(rs[|rs| - 1], block) then 1 else 0
  }

  function Max(a: int, b: int): int {
    if a >= b then a else b
  }

  /** One of the two ranges ends by the time the later one has started. */
  predicate PairApart(r: Range, q: Range) {
    r.end <= Max(r.start, q.start) || q.end <= Max(r.start, q.start)
  }

  predicate Apart(rs: seq<Range>) {
    forall i, j | 0 <= i < j < |rs| :: PairApart(rs[i], rs[j])
  }

  lemma {:induction false} CountedSomewhere(rs: seq<Range>, block: int)
    requires TreeCount(rs, block) > 0
    ensures exists i | 0 <= i < |rs| :: InTreeWindow(rs[i], block)
  {
    var n := |rs| - 1;
    if InTreeWindow(rs[n], block) {
    } else {
      CountedSomewhere(rs[..n], block);
      var i :| 0 <= i < n && InTreeWindow(rs[..n][i], block);
      assert InTreeWindow(rs[i], block);
    }
  }

  /** A count grows with every window that contains the block. */
  lemma {:induction false} CountedAt(rs: seq<Range>, i: nat, block: int)
    requires i < |rs|
    ensures TreeCount(rs, block) >= TreeCount(rs[..i], block) + if InTreeWindow(rs[i], block) then 1 else 0
  {
    var n := |rs| - 1;
    if i == n {
    } else {
      CountedAt(rs[..n], i, block);
      assert rs[..n][..i] == rs[..i];
    }
  }

  lemma {:induction false} ApartOnce(rs: seq<Range>, block: int)
    requires Apart(rs)
    ensures TreeCount(rs, block) <= 1
  {
    if rs == [] {
    } else {
      var n := |rs| - 1;
      ApartOnce(rs[..n], block);
      if TreeCount(rs[..n], block) > 0 {
        CountedSomewhere(rs[..n], block);
        var i :| 0 <= i < n && InTreeWindow(rs[..n][i], block);
        assert rs[i].start < block <= rs[i].end;
      }
    }
  }

  ghost predicate TreeOnce(rs: seq<Range>) {
    forall block :: TreeCount(rs, block) <= 1
  }

  ghost predicate HarvestOnce(rs: seq<Range>) {
    forall block :: HarvestCount(rs, block) <= 1
  }

  lemma {:induction false} HarvestCountLess(rs: seq<Range>, block: int)
    ensures HarvestCount(rs, block) <= TreeCount(rs, block)
  {
    if rs == [] {
    } else {
      HarvestCountLess(rs[..|rs| - 1], block);
    }
  }

  /** In ordered ranges no event is rewarded twice, neither a tree distribution nor a harvest. */
  lemma OrderedOnce(rs: seq<Range>)
    requires Ordered(rs)
    ensures TreeOnce(rs) && HarvestOnce(rs)
  {
    TreeOnceIffApart(rs);
    forall block ensures HarvestCount(rs, block) <= 1 {
      HarvestCountLess(rs, block);
      assert TreeCount(rs, block) <= 1;
    }
  }

  /** Exactly when no tree distribution is rewarded twice, whatever the ranges. */
  lemma TreeOnceIffApart(rs: seq<Range>)
    ensures TreeOnce(rs) <==> Apart(rs)
  {
    if Apart(rs) {
      forall block ensures TreeCount(rs, block) <= 1 {
        ApartOnce(rs, block);
      }
    }
    if TreeOnce(rs) {
      forall i, j | 0 <= i < j < |rs| ensures PairApart(rs[i], rs[j]) {
        var block := Max(rs[i].start, rs[j].start) + 1;
        CountedAt(rs, j, block);
        CountedAt(rs[..j], i, block);
        assert rs[..j][i] == rs[i];
        assert TreeCount(rs, block) <= 1;
      }
    }
  }

  /** The ranges without their last blocks: a harvest at the end of a range is not rewarded. */
  function Trim(r: Range): Range {
    Range(r.start, r.end - 1)
  }

  function Trimmed(rs: seq<Range>): seq<Range> {
    seq(|rs|, i requires 0 <= i < |rs| => Trim(rs[i]))
  }

  lemma {:induction false} HarvestIsTrimmed(rs: seq<Range>, block: int)
    ensures HarvestCount(rs, block) == TreeCount(Trimmed(rs), block)
  {
    if rs == [] {
    } else {
      HarvestIsTrimmed(rs[..|rs| - 1], block);
      assert Trimmed(rs)[..|rs| - 1] == Trimmed(rs[..|rs| - 1]);
    }
  }

  /** Exactly when no harvest is rewarded twice. */
  lemma HarvestOnceIffApart(rs: seq<Range>)
    ensures HarvestOnce(rs) <==> Apart(Trimmed(rs))
  {
    TreeOnceIffApart(Trimmed(rs));
    if HarvestOnce(rs) {
      forall block ensures TreeCount(Trimmed(rs), block) <= 1 {
        HarvestIsTrimmed(rs, block);
      }
    }
    if TreeOnce(Trimmed(rs)) {
      forall block ensures HarvestCount(rs, block) <= 1 {
        HarvestIsTrimmed(rs, block);
      }
    }
  }

  /** The range of cycle `i` as the heights and the block published up to before the run give it. */
  function RangeByHeights(first: System, heights: seq<int>, i: nat): Range
    requires i < |heights|
  {
    Range(if i == 0 then first.lastPublishEndBlock + 1 else heights[i - 1] - 99, heights[i] - 100)
  }

  predicate HeightsApart(first: System, heights: seq<int>) {
    forall i, j | 0 <= i < j < |heights| ::
      PairApart(RangeByHeights(first, heights, i), RangeByHeights(first, heights, j))
  }

  predicate HarvestHeightsApart(first: System, heights: seq<int>) {
    forall i, j | 0 <= i < j < |heights| ::
      PairApart(Trim(RangeByHeights(first, heights, i)), Trim(RangeByHeights(first, heights, j)))
  }

  function Heights(inputs: seq<Input>): seq<int> {
    seq(|inputs|, i requires 0 <= i < |inputs| => inputs[i].height)
  }

  lemma RangesByHeights(keccak: Hash, states: seq<System>, inputs: seq<Input>)
    requires Run(keccak, states, inputs)
    ensures forall i | 0 <= i < |inputs| ::
              Ranges(states, inputs)[i] == RangeByHeights(states[0], Heights(inputs), i)
  {
    hide Step, GoodFile;
    RunRanges(keccak, states, inputs);
    var rs := Ranges(states, inputs);
    hide Run;
    forall i | 0 <= i < |inputs| ensures rs[i] == RangeByHeights(states[0], Heights(inputs), i) {
      if i > 0 {
        assert rs[i - 1 + 1].start == rs[i - 1].end + 1;
      }
    }
  }

  /**
   For a run this is a condition on the heights and on the block published up to before. Heights may fall between
   cycles, as long as no later cycle climbs over rewarded blocks again.
   */
  lemma RunTreeOnceIff(keccak: Hash, states: seq<System>, inputs: seq<Input>)
    requires Run(keccak, states, inputs)
    ensures TreeOnce(Ranges(states, inputs)) <==> HeightsApart(states[0], Heights(inputs))
  {
    RangesByHeights(keccak, states, inputs);
    TreeOnceIffApart(Ranges(states, inputs));
    hide Run, TreeOnce, RangeByHeights, Ranges, PairApart;
    assert |Ranges(states, inputs)| == |Heights(inputs)| == |inputs|;
  }

  /** The same for harvests. */
  lemma RunHarvestOnceIff(keccak: Hash, states: seq<System>, inputs: seq<Input>)
    requires Run(keccak, states, inputs)
    ensures HarvestOnce(Ranges(states, inputs)) <==> HarvestHeightsApart(states[0], Heights(inputs))
  {
    hide Step, GoodFile, HarvestOnce, RangeByHeights, HarvestHeightsApart, Trimmed;
    RangesByHeights(keccak, states, inputs);
    HarvestOnceIffApart(Ranges(states, inputs));
    TrimmedApart(Ranges(states, inputs), states[0], Heights(inputs));
  }

  lemma TrimmedApart(rs: seq<Range>, first: System, heights: seq<int>)
    requires |rs| == |heights| && forall i | 0 <= i < |rs| :: rs[i] == RangeByHeights(first, heights, i)
    ensures Apart(Trimmed(rs)) <==> HarvestHeightsApart(first, heights)
  {
    hide RangeByHeights, PairApart, Trim;
    assert forall i | 0 <= i < |rs| :: Trimmed(rs)[i] == Trim(RangeByHeights(first, heights, i));
  }

  /** Exactly which events are rewarded when every range is non-empty: all but those at boundary blocks. */
  lemma {:induction false} RewardedOnce(rs: seq<Range>, block: int)
    requires Chained(rs) && rs != []
    requires forall i | 0 <= i < |rs| :: rs[i].start <= rs[i].end
    ensures TreeCount(rs, block) == 1 <==>
            rs[0].start <= block <= rs[|rs| - 1].end && forall i | 0 <= i < |rs| :: block != rs[i].start
    ensures HarvestCount(rs, block) == 1 <==>
            && rs[0].start <= block <= rs[|rs| - 1].end
            && forall i | 0 <= i < |rs| :: block != rs[i].start && block != rs[i].end
    ensures HarvestCount(rs, block) <= TreeCount(rs, block) <= 1
    ensures block > rs[|rs| - 1].end ==> TreeCount(rs, block) == 0
  {
    var n := |rs| - 1;
    if n == 0 {
      assert rs[..0] == [];
    } else {
      var rest := rs[..n];
      RewardedOnce(rest, block);
      assert rs[n].start == rs[n - 1].end + 1;
      assert forall i | 0 <= i < n :: rest[i] == rs[i];
      StartsBelow(rs, n);
    }
  }

  lemma {:induction false} StartsBelow(rs: seq<Range>, n: nat)
    requires Chained(rs) && n < |rs|
    requires forall i | 0 <= i < |rs| :: rs[i].start <= rs[i].end
    ensures forall i | 0 <= i < n :: rs[i].end < rs[n].start
  {
    if n == 0 {
    } else {
      StartsBelow(rs, n - 1);
      assert rs[n - 1 + 1].start == rs[n - 1].end + 1;
    }
  }
}
