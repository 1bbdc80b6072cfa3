/**
 One whole cycle (assistant/rewards/rewards_assistant.py:199-230), and whole runs of such cycles: whatever is published
 in the end has been released, distributed or harvested before.
 */
module Pipeline {
  import opened Prelude
  import opened Dicts
  import opened Abi
  import opened Merkle
  import opened Rewards
  import opened RewardsUtils
  import opened Publication
  import opened Cycles
  import opened Schedules
  import opened Snapshot
  import opened MetaRewards
  import opened Conservation
  import opened Balances
  import opened Vaults
  import opened Assistant

  const BCVX: Address := 0x53C8E199eb2Cb7c01543C137078a038937a68E40
  const BCVXCRV: Address := 0x2B5455aac8d64C14786c3a29858E43b5945819C0

  /** Everything that was ever recorded: harvests of the sushi setts and tree distributions. */
  datatype Records = Records(sushi: SushiEvents, distributions: seq<Event>)

  /** What one cycle finds: setts, wallets, the service that knows unclaimed balances, and the chain height. */
  datatype Feed = Feed(
    setts: seq<Sett>,
    wallets: Wallets,
    fetchUnclaimed: seq<Address> -> Unclaimed,
    height: int)

  // ----- one cycle -----

  /** The users among the first `n` whose claims list one of the two tokens. */
  ghost function UnclaimedAmong(f: File, n: nat): seq<Address>
    requires f.claims.Valid() && n <= |f.claims.keys|
  {
    if n == 0 then []
    else
      f.claims.HasKey(f.claims.keys[n - 1]);
      var u := f.claims.keys[n - 1];
      UnclaimedAmong(f, n - 1)
      + if BCVX in f.claims.vals[u].tokens || BCVXCRV in f.claims.vals[u].tokens then [u] else []
  }

  ghost function UnclaimedAddresses(f: File): seq<Address>
    requires f.claims.Valid()
  {
    UnclaimedAmong(f, |f.claims.keys|)
  }

  lemma {:induction false} UnclaimedAmongContents(f: File, n: nat, a: Address)
    requires f.claims.Valid() && n <= |f.claims.keys|
    ensures a in UnclaimedAmong(f, n) <==>
            && a in f.claims.keys[..n] && a in f.claims.vals
            && (BCVX in f.claims.vals[a].tokens || BCVXCRV in f.claims.vals[a].tokens)
    ensures forall i, j | 0 <= i < j < |UnclaimedAmong(f, n)| :: UnclaimedAmong(f, n)[i] != UnclaimedAmong(f, n)[j]
  {
    if n == 0 {
    } else {
      var u := f.claims.keys[n - 1];
      f.claims.HasKey(u);
      UnclaimedAmongContents(f, n - 1, a);
      UnclaimedAmongContents(f, n - 1, u);
      PrefixMember(f.claims.keys, n, a);
    }
  }

  /** Exactly the users whose claim lists one of the two tokens, each once. */
  lemma UnclaimedContents(f: File, a: Address)
    requires f.claims.Valid()
    ensures a in UnclaimedAddresses(f) <==>
            a in f.claims.vals && (BCVX in f.claims.vals[a].tokens || BCVXCRV in f.claims.vals[a].tokens)
    ensures forall i, j | 0 <= i < j < |UnclaimedAddresses(f)| ::
              UnclaimedAddresses(f)[i] != UnclaimedAddresses(f)[j]
  {
    UnclaimedAmongContents(f, |f.claims.keys|, a);
    f.claims.HasKey(a);
    assert f.claims.keys[..|f.claims.keys|] == f.claims.keys;
  }

  method FindUnclaimedAddresses(f: File) returns (addresses: seq<Address>)
    requires f.claims.Valid()
    ensures addresses == UnclaimedAddresses(f)
  {
    addresses := [];
    for i := 0 to |f.claims.keys|
      invariant addresses == UnclaimedAmong(f, i)
    {
      var u := f.claims.keys[i];
      f.claims.HasKey(u);
      if BCVX in f.claims.vals[u].tokens || BCVXCRV in f.claims.vals[u].tokens {
        addresses := addresses + [u];
      }
    }
  }

  ghost function TreeRewards(events: seq<Event>, range: Range): (l: Ledger)
    ensures WellFormed(l) && Consistent(l)
  {
    EmptyConsistent();
    ApplyConsistent(NO_REWARDS, TreeCredits(Distributed(events, range)));
    Apply(NO_REWARDS, TreeCredits(Distributed(events, range)))
  }

  /** The sett rewards of one cycle. */
  ghost function FeedRewards(feed: Feed, p: Period, past: File): (l: Ledger)
    requires ValidSheets(feed.setts) && past.claims.Valid()
    ensures WellFormed(l) && Consistent(l)
  {
    AllSettRewards(Seen(feed.setts, feed.wallets), BoostsFor(feed.setts, feed.wallets), p,
                   feed.fetchUnclaimed(UnclaimedAddresses(past)))
  }

  /** The three lists of one cycle: setts, tree distributions, harvests. */
  ghost function Sources(feed: Feed, records: Records, range: Range, time: int -> int, past: File): (ls: seq<Ledger>)
    requires ValidSheets(feed.setts) && past.claims.Valid()
    ensures GoodSources(ls) && GoodLedgers(ls)
  {
    hide WellFormed, Consistent, FeedRewards, TreeRewards, SushiRewards;
    [FeedRewards(feed, PeriodOf(range, time), past), TreeRewards(records.distributions, range),
     SushiRewards(records.sushi, range)]
  }

  /** No division by zero and no failed conversion in any of the three. */
  ghost predicate NothingFails(feed: Feed, records: Records, range: Range, time: int -> int, past: File)
    requires ValidSheets(feed.setts) && past.claims.Valid()
  {
    && SushiHeld(records.sushi, range)
    && AllHeld(Distributed(records.distributions, range))
    && AllSettsComputable(Seen(feed.setts, feed.wallets), BoostsFor(feed.setts, feed.wallets), PeriodOf(range, time),
                          feed.fetchUnclaimed(UnclaimedAddresses(past)))
  }

  ghost predicate GoodRecords(records: Records) {
    SushiGood(records.sushi) && GoodEvents(records.distributions)
  }

  lemma KnownValid(events: seq<Event>, end: int)
    requires GoodEvents(events)
    ensures forall i | 0 <= i < |KnownBy(events, end)| :: KnownBy(events, end)[i].balances.Valid()
  {
    KnownGood(events, end);
  }

  /** The rewards of the three sources, one after the other. */
  method CalcSources(
    range: Range, cycle: int, vaults: seq<Vault>, wallets: WalletBalances, records: Records, unclaimed: Unclaimed,
    time: int -> int, past: File, ghost feed: Feed)
    returns (r: Result<(RewardsList, RewardsList, RewardsList)>)
    requires past.claims.Valid() && GoodRecords(records) && SeparateVaults(vaults) && SeparateWallets(vaults, wallets)
    requires Match(vaults, feed.setts, 0) && ValidSheets(feed.setts)
    requires feed.wallets == Wallets(wallets.digg.View(), wallets.badger.View())
    requires unclaimed == feed.fetchUnclaimed(UnclaimedAddresses(past))
    requires unclaimed.bCvx.Valid() && unclaimed.bCvxCrv.Valid()
    modifies AllObjects(vaults), wallets.digg.Objects(), wallets.badger.Objects()
    ensures r.Success? <==> NothingFails(feed, records, range, time, past)
    ensures r.Success? ==> [r.value.0.State(), r.value.1.State(), r.value.2.State()]
                           == Sources(feed, records, range, time, past)
    ensures r.Success? ==> r.value.0.Valid() && r.value.1.Valid() && r.value.2.Valid()
  {
    hide WellFormed, Consistent, SushiHeld, AllHeld, AllSettsComputable, SushiRewards, TreeCredits, AllSettRewards,
         GoodEvents, AreRecorded, SettError, KnownBy, AfterStart, SushiGood, HoldsDistributed;
    var sushiRewards := CalcAllSushiRewards(records.sushi, range, cycle);
    if sushiRewards.Failure? {
      return Failure(sushiRewards.error);
    }
    KnownValid(records.distributions, range.end);
    var treeRewards := CalcTreeRewards(KnownBy(records.distributions, range.end), range.start, cycle);
    if treeRewards.Failure? {
      return Failure(treeRewards.error);
    }
    var settRewards :=
      CalcSettRewards(vaults, wallets, PeriodOf(range, time), cycle, unclaimed, feed.setts, feed.wallets);
    if settRewards.Failure? {
      return Failure(settRewards.error);
    }
    return Success((settRewards.value.0, treeRewards.value, sushiRewards.value));
  }

  /** The list that a cycle publishes: the previous amounts, with the rewards of all three sources on top. */
  ghost function NextLedger(feed: Feed, records: Records, range: Range, time: int -> int, past: File): (l: Ledger)
    requires ValidSheets(feed.setts) && GoodFile(past)
    ensures WellFormed(l)
  {
    GoodIsReadable(past);
    CombinedContents(Sources(feed, records, range, time, past), 0, 0);
    CumulativeContents(past, Combined(Sources(feed, records, range, time, past)), 0, 0);
    Cumulative(past, Combined(Sources(feed, records, range, time, past)))
  }

  /**
   What one cycle owes a user in a token: the whole parts of the releases of all setts in the period, the whole parts of
   the distributions after the first block and up to the last, and the exact parts of the harvests strictly in between.
   */
  ghost function Owed(
    feed: Feed, records: Records, range: Range, time: int -> int, past: File, u: Address, t: Address): real
    requires ValidSheets(feed.setts) && past.claims.Valid()
  {
    var seen, boosts := Seen(feed.setts, feed.wallets), BoostsFor(feed.setts, feed.wallets);
    SettsPart(seen, boosts, Period(time(range.start), time(range.end)), feed.fetchUnclaimed(UnclaimedAddresses(past)),
              u, t) as real
    + DistributedWithin(records.distributions, range, u, t) as real
    + if t == XSUSHI then SushiShares(records.sushi, range, u) else 0.0
  }

  ghost predicate ValidUnclaimed(feed: Feed, past: File)
    requires past.claims.Valid()
  {
    feed.fetchUnclaimed(UnclaimedAddresses(past)).bCvx.Valid()
    && feed.fetchUnclaimed(UnclaimedAddresses(past)).bCvxCrv.Valid()
  }

  lemma DistributedGood(events: seq<Event>, range: Range)
    requires GoodEvents(events)
    ensures GoodEvents(Distributed(events, range))
  {
    hide GoodEvents;
    KnownGood(events, range.end);
    AfterStartGood(KnownBy(events, range.end), range.start);
  }

  lemma TreeAmount(events: seq<Event>, range: Range, u: Address, t: Address)
    requires GoodEvents(events)
    ensures Amount(TreeRewards(events, range), u, t) == DistributedWithin(events, range, u, t) as real
  {
    hide TreeCredits, DistributionShares, DistributedWithin, Apply, Amount, Distributed;
    DistributedGood(events, range);
    DistributedAmounts(Distributed(events, range));
    DistributedShares(events, range, u, t);
  }

  lemma SourcesHold(
    feed: Feed, records: Records, range: Range, time: int -> int, past: File, u: Address, t: Address)
    requires ValidSheets(feed.setts) && past.claims.Valid() && ValidUnclaimed(feed, past) && GoodRecords(records)
    ensures SumAmounts(Sources(feed, records, range, time, past), u, t)
         == Owed(feed, records, range, time, past, u, t)
  {
    hide SettsPart, DistributedWithin, SushiShares, AllSettRewards, TreeRewards, SushiRewards, Amount, SumAmounts,
         WellFormed, Consistent, GoodEvents, SushiGood, Seen;
    SeenFields(feed.setts, feed.wallets);
    var seen, boosts := Seen(feed.setts, feed.wallets), BoostsFor(feed.setts, feed.wallets);
    AllSettAmounts(seen, boosts, PeriodOf(range, time), feed.fetchUnclaimed(UnclaimedAddresses(past)), u, t);
    TreeAmount(records.distributions, range, u, t);
    SushiAmounts(records.sushi, range, u, t);
    ThreeAmounts(FeedRewards(feed, PeriodOf(range, time), past), TreeRewards(records.distributions, range),
                 SushiRewards(records.sushi, range), u, t);
  }

  /** Every user's published amount has grown by the whole units of what the cycle owes, in every token. */
  ghost predicate Adds(past: File, f: File, feed: Feed, records: Records, range: Range, time: int -> int) {
    && ValidSheets(feed.setts) && GoodFile(past) && GoodFile(f)
    && forall u, t :: Published(f, u, t) == Published(past, u, t) + Trunc(Owed(feed, records, range, time, past, u, t))
  }

  lemma GoodFileValid(f: File)
    requires GoodFile(f)
    ensures f.claims.Valid()
  {
  }

  lemma LedgerAdds(
    keccak: Hash, feed: Feed, records: Records, range: Range, time: int -> int, past: File, cycle: int, f: File)
    requires ValidSheets(feed.setts) && GoodFile(past) && ValidUnclaimed(feed, past) && GoodRecords(records)
    requires Publishes(keccak, NextLedger(feed, records, range, time, past), cycle, range.start, range.end, f)
    ensures Adds(past, f, feed, records, range, time)
  {
    hide Owed, Sources, GoodRecords, Cumulative, Combined, Publishes, Published, Lists, Has, Amount, Consistent,
         WellFormed, SumAmounts, AnyHas, GoodFile;
    GoodFileValid(past);
    var ls, l := Sources(feed, records, range, time, past), NextLedger(feed, records, range, time, past);
    PublishedAmounts(keccak, l, cycle, range.start, range.end, f, 0, 0);
    forall u, t
      ensures Published(f, u, t) == Published(past, u, t) + Trunc(Owed(feed, records, range, time, past, u, t))
    {
      SourcesHold(feed, records, range, time, past, u, t);
      GoodIsReadable(past);
      CombinedContents(ls, u, t);
      CumulativeContents(past, Combined(ls), u, t);
      PublishedAmounts(keccak, l, cycle, range.start, range.end, f, u, t);
      AmountNonNegative(Combined(ls), u, t);
      PublishedNonNegative(past, u, t);
      TruncAddInt(Published(past, u, t), Amount(Combined(ls), u, t));
    }
  }

  /**
   A whole cycle. It publishes the previous amounts with the rewards of all sources on top, or fails exactly when one of
   them cannot be computed, when there is nothing to publish, or when a claim does not fit its types.
   */
  method GenerateRewardsInRange(
    keccak: Hash, range: Range, nextCycle: int, past: File, vaults: seq<Vault>, wallets: WalletBalances,
    records: Records, fetchUnclaimed: seq<Address> -> Unclaimed, time: int -> int, ghost feed: Feed)
    returns (r: Result<File>)
    requires GoodFile(past) && GoodRecords(records) && SeparateVaults(vaults) && SeparateWallets(vaults, wallets)
    requires Match(vaults, feed.setts, 0) && ValidSheets(feed.setts) && feed.fetchUnclaimed == fetchUnclaimed
    requires feed.wallets == Wallets(wallets.digg.View(), wallets.badger.View())
    requires fetchUnclaimed(UnclaimedAddresses(past)).bCvx.Valid()
    requires fetchUnclaimed(UnclaimedAddresses(past)).bCvxCrv.Valid()
    modifies AllObjects(vaults), wallets.digg.Objects(), wallets.badger.Objects()
    ensures var l := NextLedger(feed, records, range, time, past);
            && (r.Success? <==>
                  NothingFails(feed, records, range, time, past) && Encodable(l, nextCycle) && l.claims.keys != [])
            && (r.Success? ==> Publishes(keccak, l, nextCycle, range.start, range.end, r.value))
            && (r.Success? ==> Adds(past, r.value, feed, records, range, time))
  {
    hide WellFormed, Publishes, Encodable, NothingFails, Cumulative, Combined, GoodRecords, Consistent, Sources,
         GoodHoldings, Adds;
    var unclaimedAddresses := FindUnclaimedAddresses(past);
    var unclaimed := fetchUnclaimed(unclaimedAddresses);
    var sources := CalcSources(range, nextCycle, vaults, wallets, records, unclaimed, time, past, feed);
    if sources.Failure? {
      return Failure(sources.error);
    }
    var (sett, tree, sushi) := sources.value;
    r := PublishRewards(keccak, range, nextCycle, sett, tree, sushi, past, Sources(feed, records, range, time, past));
    if r.Success? {
      LedgerAdds(keccak, feed, records, range, time, past, nextCycle, r.value);
    }
  }

  // ----- runs of whole cycles -----

  /** One cycle of the pipeline: its range follows the last published one, nothing fails, and its file is published. */
  ghost predicate Generates(keccak: Hash, a: System, feed: Feed, records: Records, time: int -> int, b: System) {
    var range := CalcNextCycleRange(a, feed.height);
    && ValidSheets(feed.setts) && a.file.claims.Valid()
    && NothingFails(feed, records, range, time, a.file)
    && Step(keccak, a, Input(Sources(feed, records, range, time, a.file), feed.height), b)
  }

  ghost predicate PipelineRun(
    keccak: Hash, states: seq<System>, feeds: seq<Feed>, records: Records, time: int -> int)
  {
    && |states| == |feeds| + 1
    && GoodFile(states[0].file)
    && forall i | 0 <= i < |feeds| :: Generates(keccak, states[i], feeds[i], records, time, states[i + 1])
  }

  /** What a successful cycle publishes, and the contract then records, is one step of such a run. */
  lemma GeneratedIsStep(keccak: Hash, a: System, feed: Feed, records: Records, time: int -> int, f: File)
    requires ValidSheets(feed.setts) && GoodFile(a.file)
    requires NothingFails(feed, records, CalcNextCycleRange(a, feed.height), time, a.file)
    requires var range := CalcNextCycleRange(a, feed.height);
             Publishes(keccak, NextLedger(feed, records, range, time, a.file), a.currentCycle + 1, range.start,
                       range.end, f)
    ensures Generates(keccak, a, feed, records, time, System(f, f.cycle, f.endBlock))
  {
    hide NothingFails, Publishes, Sources, WellFormed, Cumulative, Combined;
    GoodIsReadable(a.file);
    CombinedContents(Sources(feed, records, CalcNextCycleRange(a, feed.height), time, a.file), 0, 0);
  }

  /** Every user's published amount grows in a cycle by the whole units of what the cycle owes, in every token. */
  lemma CycleAdds(
    keccak: Hash, a: System, feed: Feed, records: Records, time: int -> int, b: System, u: Address, t: Address)
    requires Generates(keccak, a, feed, records, time, b)
    requires ValidUnclaimed(feed, a.file) && GoodRecords(records)
    ensures GoodFile(a.file) && GoodFile(b.file)
    ensures Published(b.file, u, t) == Published(a.file, u, t)
            + Trunc(Owed(feed, records, Range(a.lastPublishEndBlock + 1, feed.height - 100), time, a.file, u, t))
  {
    hide Owed, Sources, GoodRecords, NothingFails, GoodFile, Published, Publishes, Cumulative, Combined, WellFormed;
    LedgerAdds(keccak, feed, records, CalcNextCycleRange(a, feed.height), time, a.file, a.currentCycle + 1, b.file);
  }

  /** The whole units of what each of the first `n` cycles owes. */
  ghost function SumOwed(
    states: seq<System>, feeds: seq<Feed>, records: Records, time: int -> int, n: nat, u: Address, t: Address): int
    requires |states| == |feeds| + 1 && n <= |feeds|
    requires forall i | 0 <= i < |feeds| :: ValidSheets(feeds[i].setts) && states[i].file.claims.Valid()
  {
    if n == 0 then 0
    else
      var a, feed := states[n - 1], feeds[n - 1];
      SumOwed(states, feeds, records, time, n - 1, u, t)
      + Trunc(Owed(feed, records, Range(a.lastPublishEndBlock + 1, feed.height - 100), time, a.file, u, t))
  }

  ghost predicate AllUnclaimedValid(states: seq<System>, feeds: seq<Feed>)
    requires |states| == |feeds| + 1
  {
    forall i | 0 <= i < |feeds| :: states[i].file.claims.Valid() && ValidUnclaimed(feeds[i], states[i].file)
  }

  lemma AllSheetsValid(keccak: Hash, states: seq<System>, feeds: seq<Feed>, records: Records, time: int -> int)
    requires PipelineRun(keccak, states, feeds, records, time)
    ensures forall i | 0 <= i < |feeds| :: ValidSheets(feeds[i].setts) && states[i].file.claims.Valid()
  {
    hide NothingFails, Step, Sources;
    forall i | 0 <= i < |feeds| ensures ValidSheets(feeds[i].setts) && states[i].file.claims.Valid() {
      assert Generates(keccak, states[i], feeds[i], records, time, states[i + 1]);
    }
  }

  /** Over any run, every user can claim what was published at first and the whole units of what each cycle owes. */
  lemma {:induction false} RunAdds(
    keccak: Hash, states: seq<System>, feeds: seq<Feed>, records: Records, time: int -> int, n: nat, u: Address,
    t: Address)
    requires PipelineRun(keccak, states, feeds, records, time) && n <= |feeds|
    requires AllUnclaimedValid(states, feeds) && GoodRecords(records)
    ensures forall i | 0 <= i < |feeds| :: ValidSheets(feeds[i].setts) && states[i].file.claims.Valid()
    ensures GoodFile(states[0].file) && GoodFile(states[n].file)
    ensures Published(states[n].file, u, t)
         == Published(states[0].file, u, t) + SumOwed(states, feeds, records, time, n, u, t)
  {
    hide Owed, GoodRecords, Generates, GoodFile, Published, ValidUnclaimed;
    AllSheetsValid(keccak, states, feeds, records, time);
    if n == 0 {
    } else {
      RunAdds(keccak, states, feeds, records, time, n - 1, u, t);
      CycleAdds(keccak, states[n - 1], feeds[n - 1], records, time, states[n], u, t);
    }
  }

  /** No balance and no price is negative. */
  ghost predicate GoodBalances(setts: seq<Sett>, w: Wallets) {
    && GoodSheets(setts) && (forall i | 0 <= i < |setts| :: setts[i].rate >= 0.0)
    && w.digg.Valid() && w.badger.Valid() && NonNegative(w.digg) && NonNegative(w.badger)
  }

  lemma {:induction false} SumDollarsNonNegative(setts: seq<Sett>, w: Wallets, g: Group, n: nat, a: Address)
    requires GoodBalances(setts, w) && n <= |setts|
    ensures SumDollars(setts, g, n, a) >= 0.0
  {
    hide GroupOf;
    if n == 0 {
    } else {
      SumDollarsNonNegative(setts, w, g, n - 1, a);
      ProductNonNegative(setts[n - 1].rate, BalanceIn(setts[n - 1].sheet, a));
    }
  }

  lemma StakeNonNegative(setts: seq<Sett>, w: Wallets, g: Group, a: Address)
    requires GoodBalances(setts, w)
    ensures BalanceIn(GroupTotal(setts, w, g), a) >= 0.0
  {
    hide GroupTotal, SumDollars;
    GroupTotalContents(setts, w, g, a);
    SumDollarsNonNegative(setts, w, g, |setts|, a);
  }

  /** What the snapshots see is not negative either, and the schedules are the same. */
  lemma SeenGood(setts: seq<Sett>, w: Wallets)
    requires GoodBalances(setts, w)
    ensures GoodSheets(Seen(setts, w)) && ActiveSchedules(Seen(setts, w)) == ActiveSchedules(setts)
  {
    SeenFields(setts, w);
    ActiveSame(Seen(setts, w), setts);
    hide GroupOf, ListedBefore, GroupTotal, ActiveSchedules, Times;
    forall v | 0 <= v < |setts| ensures NonNegative(SeenSheet(setts, w, v)) {
      forall a | a in setts[v].sheet.vals
        ensures Times(setts[v].rate, setts[v].sheet.vals[a]) >= 0.0
        ensures BalanceIn(GroupTotal(setts, w, GroupOf(setts[v].name)), a) >= 0.0
      {
        ProductNonNegative(setts[v].rate, setts[v].sheet.vals[a]);
        StakeNonNegative(setts, w, GroupOf(setts[v].name), a);
      }
    }
  }

  /** What the schedules of a cycle's setts have become by the end of the run, and balances that are not negative. */
  ghost predicate GoodFeed(feed: Feed, past: File, later: seq<seq<Schedule>>)
    requires past.claims.Valid()
  {
    && GrowsInto(ActiveSchedules(feed.setts), later)
    && GoodBalances(feed.setts, feed.wallets)
    && NonNegative(feed.fetchUnclaimed(UnclaimedAddresses(past)).bCvx)
    && NonNegative(feed.fetchUnclaimed(UnclaimedAddresses(past)).bCvxCrv)
  }

  /** What one cycle may pay in a token: releases over its range, its distributions, its harvests. */
  ghost function CycleFunds(
    later: seq<seq<Schedule>>, records: Records, range: Range, time: int -> int, t: Address): int
  {
    Gain(ReleasedAt(later, t, time), range) + AmountIn(Distributed(records.distributions, range), t)
    + if t == XSUSHI then WindowHarvested(records.sushi, range) else 0
  }

  function WindowHarvested(e: SushiEvents, range: Range): int {
    SumHarvested(InWindow(e.wbtcEth, range)) + SumHarvested(InWindow(e.wbtcBadger, range))
    + SumHarvested(InWindow(e.wbtcDigg, range)) + SumHarvested(InWindow(e.iBbtcWbtc, range))
  }

  /** Sett rewards stay within the releases over the range; a range that does not run forwards brings none. */
  lemma FeedWithinReleases(
    feed: Feed, records: Records, range: Range, time: int -> int, past: File, later: seq<seq<Schedule>>, t: Address)
    requires ValidSheets(feed.setts) && past.claims.Valid() && GoodFeed(feed, past, later)
    requires NothingFails(feed, records, range, time, past) && ChainTimes(time)
    ensures Total(FeedRewards(feed, PeriodOf(range, time), past), t) <= Gain(ReleasedAt(later, t, time), range) as real
  {
    hide GrowsInto, GoodBalances, GoodSheets, AllSettsComputable, ActiveSchedules, SettsDistribution, Total,
         AllSettRewards, NonNegative, ReleasedAt, Gain, Seen;
    var seen, boosts := Seen(feed.setts, feed.wallets), BoostsFor(feed.setts, feed.wallets);
    var p := PeriodOf(range, time);
    SeenGood(feed.setts, feed.wallets);
    var unclaimed := feed.fetchUnclaimed(UnclaimedAddresses(past));
    GainIsDistribution(later, t, time, range);
    if range.start < range.end {
      SettRewardsWithinReleases(seen, boosts, p, unclaimed, t);
      LaterReleasesMore(ActiveSchedules(feed.setts), later, t, p);
    } else {
      NoRewardsBackwards(seen, boosts, p, unclaimed, t);
    }
  }

  lemma TreeWithinDistributed(events: seq<Event>, range: Range, t: Address)
    requires GoodEvents(Distributed(events, range)) && AllHeld(Distributed(events, range))
    ensures var brought, paid := AmountIn(Distributed(events, range), t) as real, Total(TreeRewards(events, range), t);
            brought - RecipientsIn(Distributed(events, range), t) as real <= paid <= brought
  {
    ApplyTotal(NO_REWARDS, TreeCredits(Distributed(events, range)), t);
    TreeRewardsConserve(Distributed(events, range), t);
  }

  lemma TotalNonNegative(l: Ledger, t: Address)
    requires Consistent(l)
    ensures Total(l, t) >= 0.0
  {
    ConsistentTotal(l, t);
    SumUsersNonNegative(l, l.claims.keys, t);
  }

  lemma {:induction false} SumUsersNonNegative(l: Ledger, users: seq<Address>, t: Address)
    requires WellFormed(l)
    ensures SumUsers(l, users, t) >= 0.0
  {
    if users == [] {
    } else {
      SumUsersNonNegative(l, users[..|users| - 1], t);
      AmountNonNegative(l, users[|users| - 1], t);
    }
  }

  lemma SushiLedgerTotal(events: seq<Event>, range: Range, t: Address)
    requires GoodEvents(InWindow(events, range)) && AllHeld(InWindow(events, range))
    ensures Total(SushiLedger(events, range), t)
         == if t == XSUSHI then SumHarvested(InWindow(events, range)) as real else 0.0
  {
    var log := HarvestCredits(InWindow(events, range), XSUSHI);
    ApplyTotal(NO_REWARDS, log, t);
    HarvestsConserve(InWindow(events, range), XSUSHI);
    if t != XSUSHI {
      SettRewards.OtherTokens(log, XSUSHI, t);
    }
  }

  lemma SushiTotal(e: SushiEvents, range: Range, t: Address)
    requires SushiGood(e) && SushiHeld(e, range)
    ensures Total(SushiRewards(e, range), t) == if t == XSUSHI then WindowHarvested(e, range) as real else 0.0
  {
    hide GoodEvents, AllHeld, SumHarvested, InWindow, Total, SushiLedger, WellFormed, Consistent, Combined;
    WindowGood(e.wbtcEth, range);
    WindowGood(e.wbtcBadger, range);
    WindowGood(e.wbtcDigg, range);
    WindowGood(e.iBbtcWbtc, range);
    SushiLedgerTotal(e.wbtcEth, range, t);
    SushiLedgerTotal(e.wbtcBadger, range, t);
    SushiLedgerTotal(e.wbtcDigg, range, t);
    SushiLedgerTotal(e.iBbtcWbtc, range, t);
    var ls := SushiLedgers(e, range);
    CombinedTotal(ls, t);
    ThreeTotals(ls[0], ls[1], ls[2], t);
    assert ls[..3] == [ls[0], ls[1], ls[2]];
  }

  lemma ThreeTotals(a: Ledger, b: Ledger, c: Ledger, t: Address)
    ensures SumTotals([a, b, c], t) == Total(a, t) + Total(b, t) + Total(c, t)
  {
    assert [a, b, c][..2] == [a, b] && [a, b][..1] == [a] && [a][..0] == [];
    assert SumTotals([a], t) == Total(a, t);
    assert SumTotals([a, b], t) == Total(a, t) + Total(b, t);
  }

  /**
   A cycle credits at most what its schedules release and its distributions and harvests bring, and at least what its
   harvests bring and, short of at most one unit per recipient, its distributions.
   */
  lemma CycleWithinFunds(
    feed: Feed, records: Records, range: Range, time: int -> int, past: File, later: seq<seq<Schedule>>, t: Address)
    requires ValidSheets(feed.setts) && past.claims.Valid() && GoodFeed(feed, past, later) && GoodRecords(records)
    requires NothingFails(feed, records, range, time, past) && ChainTimes(time)
    ensures var credited := SumTotals(Sources(feed, records, range, time, past), t);
            var dists := Distributed(records.distributions, range);
            && credited <= CycleFunds(later, records, range, time, t) as real
            && credited >= AmountIn(dists, t) as real - RecipientsIn(dists, t) as real
                           + if t == XSUSHI then WindowHarvested(records.sushi, range) as real else 0.0
  {
    hide GoodFeed, GoodEvents, SushiGood, SushiHeld, AllHeld, AllSettsComputable, SumTotals, Total, FeedRewards,
         TreeRewards, SushiRewards, Gain, ReleasedAt, AmountIn, RecipientsIn, WindowHarvested, Distributed, GoodLedgers,
         WellFormed, Consistent;
    FeedWithinReleases(feed, records, range, time, past, later, t);
    TotalNonNegative(FeedRewards(feed, PeriodOf(range, time), past), t);
    DistributedGood(records.distributions, range);
    TreeWithinDistributed(records.distributions, range, t);
    SushiTotal(records.sushi, range, t);
    ThreeTotals(FeedRewards(feed, PeriodOf(range, time), past), TreeRewards(records.distributions, range),
                SushiRewards(records.sushi, range), t);
  }

  function RangesOf(states: seq<System>, feeds: seq<Feed>): seq<Range>
    requires |states| == |feeds| + 1
  {
    seq(|feeds|, i requires 0 <= i < |feeds| => CalcNextCycleRange(states[i], feeds[i].height))
  }

  /** The inputs of the cycles of a run. */
  ghost function Inputs(states: seq<System>, feeds: seq<Feed>, records: Records, time: int -> int): seq<Input>
    requires |states| == |feeds| + 1
    requires forall i | 0 <= i < |feeds| :: ValidSheets(feeds[i].setts) && states[i].file.claims.Valid()
  {
    seq(|feeds|, i requires 0 <= i < |feeds| =>
      Input(Sources(feeds[i], records, CalcNextCycleRange(states[i], feeds[i].height), time, states[i].file),
            feeds[i].height))
  }

  /** A run of the pipeline is a run of cycles over the inputs that it computes. */
  lemma PipelineIsRun(keccak: Hash, states: seq<System>, feeds: seq<Feed>, records: Records, time: int -> int)
    requires PipelineRun(keccak, states, feeds, records, time)
    ensures forall i | 0 <= i < |feeds| :: ValidSheets(feeds[i].setts) && states[i].file.claims.Valid()
    ensures Run(keccak, states, Inputs(states, feeds, records, time))
    ensures Ranges(states, Inputs(states, feeds, records, time)) == RangesOf(states, feeds)
    ensures ConsistentInputs(Inputs(states, feeds, records, time))
  {
    hide Step, NothingFails, Consistent, WellFormed, GoodFile, Sources;
    AllSheetsValid(keccak, states, feeds, records, time);
    var inputs := Inputs(states, feeds, records, time);
    forall i, j | 0 <= i < |inputs| && 0 <= j < |inputs[i].sources| ensures Consistent(inputs[i].sources[j]) {
      assert GoodLedgers(inputs[i].sources);
    }
  }

  /** What the first `n` cycles of a run may pay. */
  ghost function RunFunds(
    later: seq<seq<Schedule>>, records: Records, rs: seq<Range>, time: int -> int, t: Address): int
  {
    if rs == [] then 0
    else RunFunds(later, records, rs[..|rs| - 1], time, t) + CycleFunds(later, records, rs[|rs| - 1], time, t)
  }

  function SushiTaken(e: SushiEvents, rs: seq<Range>): int {
    HarvestTaken(e.wbtcEth, rs) + HarvestTaken(e.wbtcBadger, rs) + HarvestTaken(e.wbtcDigg, rs)
    + HarvestTaken(e.iBbtcWbtc, rs)
  }

  /** The funds of a run by kind. */
  lemma {:induction false} FundsByKind(
    later: seq<seq<Schedule>>, records: Records, rs: seq<Range>, time: int -> int, t: Address)
    ensures RunFunds(later, records, rs, time, t)
         == SumGains(ReleasedAt(later, t, time), rs) + AmountTaken(records.distributions, rs, t)
            + if t == XSUSHI then SushiTaken(records.sushi, rs) else 0
  {
    hide Gain, ReleasedAt, AmountIn, SumHarvested, InWindow, Distributed;
    if rs == [] {
    } else {
      FundsByKind(later, records, rs[..|rs| - 1], time, t);
    }
  }

  /** When no block is counted twice, all funds together are at most what was locked, distributed and harvested. */
  lemma FundsWithinRecorded(
    later: seq<seq<Schedule>>, records: Records, rs: seq<Range>, time: int -> int, t: Address)
    requires TreeOnce(rs) && ChainTimes(time) && GoodRecords(records)
    ensures RunFunds(later, records, rs, time, t)
            <= SumLocked(later, t) + AmountIn(records.distributions, t)
               + if t == XSUSHI then SushiHarvested(records.sushi) else 0
  {
    hide RunFunds, ReleasedAt, SumGains, SumLocked, AmountTaken, AmountIn, HarvestTaken, SumHarvested, GoodEvents,
         TreeOnce, ChainTimes;
    FundsByKind(later, records, rs, time, t);
    GainsWithinLocked(later, t, time, rs);
    TakenWithinRecorded(records.distributions, rs, t);
    TakenWithinRecorded(records.sushi.wbtcEth, rs, t);
    TakenWithinRecorded(records.sushi.wbtcBadger, rs, t);
    TakenWithinRecorded(records.sushi.wbtcDigg, rs, t);
    TakenWithinRecorded(records.sushi.iBbtcWbtc, rs, t);
  }

  /** In a run, setts and schedules grow into `later`. */
  ghost predicate GoodFeeds(states: seq<System>, feeds: seq<Feed>, later: seq<seq<Schedule>>)
    requires |states| == |feeds| + 1
  {
    forall i | 0 <= i < |feeds| :: states[i].file.claims.Valid() && GoodFeed(feeds[i], states[i].file, later)
  }

  lemma {:induction false} InputsWithinFunds(
    keccak: Hash, states: seq<System>, feeds: seq<Feed>, records: Records, time: int -> int, later: seq<seq<Schedule>>,
    n: nat, t: Address)
    requires PipelineRun(keccak, states, feeds, records, time) && n <= |feeds|
    requires GoodRecords(records) && ChainTimes(time) && GoodFeeds(states, feeds, later)
    requires forall i | 0 <= i < |feeds| :: ValidSheets(feeds[i].setts) && states[i].file.claims.Valid()
    ensures SumInputs(Inputs(states, feeds, records, time), n, t)
            <= RunFunds(later, records, RangesOf(states, feeds)[..n], time, t) as real
  {
    hide Step, NothingFails, GoodFeed, GoodRecords, Sources, CycleFunds, SumTotals;
    if n == 0 {
    } else {
      InputsWithinFunds(keccak, states, feeds, records, time, later, n - 1, t);
      var rs := RangesOf(states, feeds);
      assert rs[..n][..n - 1] == rs[..n - 1];
      assert Generates(keccak, states[n - 1], feeds[n - 1], records, time, states[n]);
      CycleWithinFunds(feeds[n - 1], records, rs[n - 1], time, states[n - 1].file, later, t);
    }
  }

  lemma ClaimsWithinRunFunds(
    keccak: Hash, states: seq<System>, feeds: seq<Feed>, records: Records, time: int -> int, later: seq<seq<Schedule>>,
    t: Address)
    requires PipelineRun(keccak, states, feeds, records, time)
    requires GoodRecords(records) && ChainTimes(time) && GoodFeeds(states, feeds, later)
    ensures GoodFile(states[0].file) && GoodFile(states[|feeds|].file)
    ensures TotalClaims(states[|feeds|].file, t)
            <= TotalClaims(states[0].file, t) + RunFunds(later, records, RangesOf(states, feeds), time, t)
  {
    hide GoodFile, TotalClaims, ConsistentInputs, SumInputs, RunFunds, GoodFeeds, GoodRecords, Sources, Generates,
         ChainTimes, Run, RangesOf;
    PipelineIsRun(keccak, states, feeds, records, time);
    var inputs, rs, n := Inputs(states, feeds, records, time), RangesOf(states, feeds), |feeds|;
    InputsWithinFunds(keccak, states, feeds, records, time, later, n, t);
    assert rs[..n] == rs by {
      assert |rs| == |Ranges(states, inputs)| == n;
    }
    ClaimsWithinCredits(keccak, states, inputs, n, t);
  }

  /**
   End to end: over any run of the pipeline in which no block is counted twice, all users together can never claim more
   of a token than they could at first, plus all that was ever locked for it in the setts' schedules, plus all recorded
   distributions of it, plus, for xSUSHI, all recorded harvests. Ranges may be empty or go back, and schedules and setts
   may be added during the run.
   */
  lemma ClaimsWithinFunds(
    keccak: Hash, states: seq<System>, feeds: seq<Feed>, records: Records, time: int -> int, later: seq<seq<Schedule>>,
    t: Address)
    requires PipelineRun(keccak, states, feeds, records, time) && Apart(RangesOf(states, feeds))
    requires GoodRecords(records) && ChainTimes(time) && GoodFeeds(states, feeds, later)
    ensures GoodFile(states[0].file) && GoodFile(states[|feeds|].file)
    ensures TotalClaims(states[|feeds|].file, t)
            <= TotalClaims(states[0].file, t) + SumLocked(later, t) + AmountIn(records.distributions, t)
               + if t == XSUSHI then SushiHarvested(records.sushi) else 0
  {
    hide GoodFile, TotalClaims, RunFunds, GoodRecords, ChainTimes, Generates, GoodFeeds, SumLocked, AmountIn,
         SushiHarvested, Apart, TreeOnce, RangesOf;
    ClaimsWithinRunFunds(keccak, states, feeds, records, time, later, t);
    TreeOnceIffApart(RangesOf(states, feeds));
    FundsWithinRecorded(later, records, RangesOf(states, feeds), time, t);
  }

  /** On a chain whose height does not fall between cycles no block is counted twice. */
  lemma RisingIsApart(keccak: Hash, states: seq<System>, feeds: seq<Feed>, records: Records, time: int -> int)
    requires PipelineRun(keccak, states, feeds, records, time)
    requires forall k | 0 < k < |feeds| :: feeds[k - 1].height <= feeds[k].height
    ensures Apart(RangesOf(states, feeds))
  {
    hide GoodFile, Generates, Sources, TreeOnce, HarvestOnce, ConsistentInputs;
    PipelineIsRun(keccak, states, feeds, records, time);
    var inputs := Inputs(states, feeds, records, time);
    assert forall k | 0 <= k < |inputs| :: inputs[k].height == feeds[k].height;
    RunOrderedIffHeightsRise(keccak, states, inputs);
    OrderedOnce(Ranges(states, inputs));
    TreeOnceIffApart(Ranges(states, inputs));
  }
}
