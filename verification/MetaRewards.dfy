/**
 Rewards from harvests (assistant/rewards/meta_rewards/calc_meta_rewards.py) and from tree distributions
 (assistant/rewards/meta_rewards/tree_rewards.py). An event carries the balances of its sett at the event's block.
 */
module MetaRewards {
  import opened Prelude
  import opened Dicts
  import opened Abi
  import opened Rewards
  import opened RewardsUtils
  import opened Balances
  import opened Snapshot
  import opened Cycles
  import opened SettRewards

  datatype Event = Event(blockNumber: int, amount: int, token: Address, balances: Sheet)

  // ----- selecting the events of a cycle -----

  function InWindow(events: seq<Event>, r: Range): seq<Event> {
    if events == [] then []
    else
      InWindow(events[..|events| - 1], r)
      + if InHarvestWindow(r, events[|events| - 1].blockNumber) then [events[|events| - 1]] else []
  }

  /** The distributions known at the end block, without those up to the start block. */
  function AfterStart(events: seq<Event>, start: int): seq<Event> {
    if events == [] then []
    else
      AfterStart(events[..|events| - 1], start)
      + if events[|events| - 1].blockNumber > start then [events[|events| - 1]] else []
  }

  /** What the subgraph, asked at block `end`, knows of all distributions ever made. */
  function KnownBy(events: seq<Event>, end: int): seq<Event> {
    if events == [] then []
    else
      KnownBy(events[..|events| - 1], end)
      + if events[|events| - 1].blockNumber <= end then [events[|events| - 1]] else []
  }

  /** The distributions that a cycle rewards. */
  function Distributed(events: seq<Event>, r: Range): seq<Event> {
    AfterStart(KnownBy(events, r.end), r.start)
  }

  function CountHarvested(events: seq<Event>, rs: seq<Range>, e: Event): nat {
    if rs == [] then 0
    else CountHarvested(events, rs[..|rs| - 1], e) + multiset(InWindow(events, rs[|rs| - 1]))[e]
  }

  function CountDistributed(events: seq<Event>, rs: seq<Range>, e: Event): nat {
    if rs == [] then 0
    else
      CountDistributed(events, rs[..|rs| - 1], e)
      + multiset(Distributed(events, rs[|rs| - 1]))[e]
  }

  lemma AppendMultiplicity(events: seq<Event>, last: Event, e: Event)
    ensures multiset(events + [last])[e] == multiset(events)[e] + if last == e then 1 else 0
  {
  }

  lemma WindowLast(events: seq<Event>, r: Range)
    ensures events == [] ==> InWindow(events, r) == []
    ensures events != [] ==>
              var rest, e := events[..|events| - 1], events[|events| - 1];
              InWindow(events, r)
              == if InHarvestWindow(r, e.blockNumber) then InWindow(rest, r) + [e] else InWindow(rest, r)
  {
    if events == [] {
    } else {
      assert InWindow(events[..|events| - 1], r) + [] == InWindow(events[..|events| - 1], r);
    }
  }

  lemma {:induction false} WindowMultiplicity(events: seq<Event>, r: Range, e: Event)
    ensures multiset(InWindow(events, r))[e] == if r.start < e.blockNumber < r.end then multiset(events)[e] else 0
  {
    hide InWindow;
    WindowLast(events, r);
    if events == [] {
    } else {
      var rest, last := events[..|events| - 1], events[|events| - 1];
      WindowMultiplicity(rest, r, e);
      assert events == rest + [last];
      AppendMultiplicity(rest, last, e);
      AppendMultiplicity(InWindow(rest, r), last, e);
    }
  }

  lemma KnownLast(events: seq<Event>, end: int)
    ensures events == [] ==> KnownBy(events, end) == []
    ensures events != [] ==>
              var rest, e := events[..|events| - 1], events[|events| - 1];
              KnownBy(events, end)
              == if e.blockNumber <= end then KnownBy(rest, end) + [e] else KnownBy(rest, end)
  {
    if events == [] {
    } else {
      assert KnownBy(events[..|events| - 1], end) + [] == KnownBy(events[..|events| - 1], end);
    }
  }

  lemma {:induction false} KnownMultiplicity(events: seq<Event>, end: int, e: Event)
    ensures multiset(KnownBy(events, end))[e] == if e.blockNumber <= end then multiset(events)[e] else 0
  {
    hide KnownBy;
    KnownLast(events, end);
    if events == [] {
    } else {
      var rest, last := events[..|events| - 1], events[|events| - 1];
      KnownMultiplicity(rest, end, e);
      assert events == rest + [last];
      AppendMultiplicity(rest, last, e);
      AppendMultiplicity(KnownBy(rest, end), last, e);
    }
  }

  lemma AfterStartLast(events: seq<Event>, start: int)
    ensures events == [] ==> AfterStart(events, start) == []
    ensures events != [] ==>
              var rest, e := events[..|events| - 1], events[|events| - 1];
              AfterStart(events, start)
              == if e.blockNumber > start then AfterStart(rest, start) + [e] else AfterStart(rest, start)
  {
    if events == [] {
    } else {
      assert AfterStart(events[..|events| - 1], start) + [] == AfterStart(events[..|events| - 1], start);
    }
  }

  lemma {:induction false} AfterStartMultiplicity(events: seq<Event>, start: int, e: Event)
    ensures multiset(AfterStart(events, start))[e] == if e.blockNumber > start then multiset(events)[e] else 0
  {
    hide AfterStart;
    AfterStartLast(events, start);
    if events == [] {
    } else {
      var rest, last := events[..|events| - 1], events[|events| - 1];
      AfterStartMultiplicity(rest, start, e);
      assert events == rest + [last];
      AppendMultiplicity(rest, last, e);
      AppendMultiplicity(AfterStart(rest, start), last, e);
    }
  }

  /** Whatever the ranges, every recorded harvest is processed as often as its block is counted. */
  lemma {:induction false} HarvestsCounted(events: seq<Event>, rs: seq<Range>, e: Event)
    ensures CountHarvested(events, rs, e) == Multiple(HarvestCount(rs, e.blockNumber), multiset(events)[e])
  {
    hide Multiple, InWindow;
    if rs == [] {
      MultipleStep(0, multiset(events)[e]);
    } else {
      HarvestsCounted(events, rs[..|rs| - 1], e);
      WindowMultiplicity(events, rs[|rs| - 1], e);
      MultipleStep(HarvestCount(rs[..|rs| - 1], e.blockNumber), multiset(events)[e]);
    }
  }

  /** And so is every tree distribution. */
  lemma {:induction false} DistributionsCounted(events: seq<Event>, rs: seq<Range>, e: Event)
    ensures CountDistributed(events, rs, e) == Multiple(TreeCount(rs, e.blockNumber), multiset(events)[e])
  {
    hide Multiple, Distributed;
    if rs == [] {
      MultipleStep(0, multiset(events)[e]);
    } else {
      DistributionsCounted(events, rs[..|rs| - 1], e);
      DistributedMultiplicity(events, rs[|rs| - 1], e);
      MultipleStep(TreeCount(rs[..|rs| - 1], e.blockNumber), multiset(events)[e]);
    }
  }

  lemma DistributedMultiplicity(events: seq<Event>, r: Range, e: Event)
    ensures multiset(Distributed(events, r))[e] == if r.start < e.blockNumber <= r.end then multiset(events)[e] else 0
  {
    KnownMultiplicity(events, r.end, e);
    AfterStartMultiplicity(KnownBy(events, r.end), r.start, e);
  }

  ghost predicate NoHarvestTwice(rs: seq<Range>) {
    forall events: seq<Event>, e :: CountHarvested(events, rs, e) <= multiset(events)[e]
  }

  ghost predicate NoDistributionTwice(rs: seq<Range>) {
    forall events: seq<Event>, e :: CountDistributed(events, rs, e) <= multiset(events)[e]
  }

  lemma OneRecorded(e: Event, n: nat)
    ensures multiset([e])[e] == 1 && Multiple(n, multiset([e])[e]) == n
  {
  }

  /** No harvest, of whatever record, is processed twice if and only if no block is counted twice. */
  lemma HarvestsOnce(rs: seq<Range>)
    ensures NoHarvestTwice(rs) <==> HarvestOnce(rs)
  {
    hide CountHarvested, HarvestCount, Multiple;
    if HarvestOnce(rs) {
      forall events: seq<Event>, e ensures CountHarvested(events, rs, e) <= multiset(events)[e] {
        HarvestsCounted(events, rs, e);
        OnceAtMost(HarvestCount(rs, e.blockNumber), multiset(events)[e]);
      }
    }
    if NoHarvestTwice(rs) {
      forall block ensures HarvestCount(rs, block) <= 1 {
        var e := Event(block, 0, 0, Empty());
        OneRecorded(e, HarvestCount(rs, block));
        HarvestsCounted([e], rs, e);
        assert CountHarvested([e], rs, e) <= multiset([e])[e];
      }
    }
  }

  /** The same for tree distributions. */
  lemma DistributionsOnce(rs: seq<Range>)
    ensures NoDistributionTwice(rs) <==> TreeOnce(rs)
  {
    hide CountDistributed, TreeCount, Multiple;
    if TreeOnce(rs) {
      forall events: seq<Event>, e ensures CountDistributed(events, rs, e) <= multiset(events)[e] {
        DistributionsCounted(events, rs, e);
        OnceAtMost(TreeCount(rs, e.blockNumber), multiset(events)[e]);
      }
    }
    if NoDistributionTwice(rs) {
      forall block ensures TreeCount(rs, block) <= 1 {
        var e := Event(block, 0, 0, Empty());
        OneRecorded(e, TreeCount(rs, block));
        DistributionsCounted([e], rs, e);
        assert CountDistributed([e], rs, e) <= multiset([e])[e];
      }
    }
  }

  /**
   For a whole run this is a condition on the chain heights, and on the block published up to before the run. It always
   holds when the height does not fall.
   */
  lemma RunProcessesOnce(keccak: Merkle.Hash, states: seq<System>, inputs: seq<Input>)
    requires Run(keccak, states, inputs)
    ensures NoDistributionTwice(Ranges(states, inputs)) <==> HeightsApart(states[0], Heights(inputs))
    ensures NoHarvestTwice(Ranges(states, inputs)) <==> HarvestHeightsApart(states[0], Heights(inputs))
    ensures (forall k | 0 < k < |inputs| :: inputs[k - 1].height <= inputs[k].height) ==>
              NoDistributionTwice(Ranges(states, inputs)) && NoHarvestTwice(Ranges(states, inputs))
  {
    hide Step, NoDistributionTwice, NoHarvestTwice, HeightsApart, HarvestHeightsApart, TreeOnce, HarvestOnce, Heights;
    var rs := Ranges(states, inputs);
    HarvestsOnce(rs);
    DistributionsOnce(rs);
    RunTreeOnceIff(keccak, states, inputs);
    RunHarvestOnceIff(keccak, states, inputs);
    if forall k | 0 < k < |inputs| :: inputs[k - 1].height <= inputs[k].height {
      RunOrderedIffHeightsRise(keccak, states, inputs);
      OrderedOnce(rs);
    }
  }

  // ----- harvests: exact shares -----

  /** Everyone on the sheet gets their balance times the unit. */
  function ExactCredits(s: Sheet, n: nat, token: Address, unit: real): seq<Credit>
    requires n <= |s.keys|
  {
    if n == 0 then []
    else ExactCredits(s, n - 1, token, unit) + [Credit(s.keys[n - 1], token, Times(unit, BalanceIn(s, s.keys[n - 1])))]
  }

  function EventCredits(e: Event, token: Address): seq<Credit> {
    ExactCredits(e.balances, |e.balances.keys|, token, PerUnit(e.amount as real, SheetTotal(e.balances)))
  }

  function HarvestCredits(events: seq<Event>, token: Address): seq<Credit> {
    if events == [] then []
    else HarvestCredits(events[..|events| - 1], token) + EventCredits(events[|events| - 1], token)
  }

  function SumHarvested(events: seq<Event>): int {
    if events == [] then 0 else SumHarvested(events[..|events| - 1]) + events[|events| - 1].amount
  }

  predicate AllHeld(events: seq<Event>) {
    forall i | 0 <= i < |events| :: SheetTotal(events[i].balances) != 0.0
  }

  ghost predicate GoodEvents(events: seq<Event>) {
    forall i | 0 <= i < |events| ::
      events[i].amount >= 0 && events[i].balances.Valid() && NonNegative(events[i].balances)
  }

  lemma {:induction false} ExactSum(s: Sheet, n: nat, token: Address, unit: real)
    requires NonNegative(s) && unit >= 0.0 && n <= |s.keys|
    ensures CreditSum(ExactCredits(s, n, token, unit), token) == Times(unit, SumOver(s, s.keys[..n]))
    ensures Only(ExactCredits(s, n, token, unit), token)
  {
    if n == 0 {
    } else {
      var x := BalanceIn(s, s.keys[n - 1]);
      assert s.keys[..n][..n - 1] == s.keys[..n - 1];
      TimesOfSum(unit, SumOver(s, s.keys[..n - 1]), x);
      ProductNonNegative(unit, x);
      hide Times;
      ExactSum(s, n - 1, token, unit);
      CreditSumAppend(ExactCredits(s, n - 1, token, unit), Credit(s.keys[n - 1], token, Times(unit, x)), token);
    }
  }

  /** Every holder gets their exact part of a harvest, and nobody else anything. */
  lemma {:induction false} ExactPays(s: Sheet, n: nat, token: Address, unit: real, u: Address)
    requires s.Valid() && NonNegative(s) && unit >= 0.0 && n <= |s.keys|
    ensures Credited(ExactCredits(s, n, token, unit), u, token)
         == if u in s.keys[..n] then Times(unit, BalanceIn(s, u)) else 0.0
  {
    if n == 0 {
    } else {
      var a := s.keys[n - 1];
      ProductNonNegative(unit, BalanceIn(s, a));
      hide Times;
      ExactPays(s, n - 1, token, unit, u);
      PrefixMember(s.keys, n, u);
      CreditedAppend(ExactCredits(s, n - 1, token, unit), Credit(a, token, Times(unit, BalanceIn(s, a))), u, token);
    }
  }

  /** User `u`'s exact part of an event: the amount times the user's balance over the sum of all balances. */
  function EventShare(e: Event, u: Address): real {
    ShareOf(e.amount as real, BalanceIn(e.balances, u), SheetTotal(e.balances))
  }

  function HarvestShares(events: seq<Event>, u: Address): real {
    if events == [] then 0.0 else HarvestShares(events[..|events| - 1], u) + EventShare(events[|events| - 1], u)
  }

  /** One event credits every user their exact part of it. */
  lemma EventPays(e: Event, token: Address, u: Address)
    requires e.amount >= 0 && e.balances.Valid() && NonNegative(e.balances)
    ensures Credited(EventCredits(e, token), u, token) == EventShare(e, u)
  {
    var s, d := e.balances, e.amount as real;
    SumOverNonNegative(s, s.keys);
    PerUnitNonNegative(d, SheetTotal(s));
    ExactPays(s, |s.keys|, token, PerUnit(d, SheetTotal(s)), u);
    UnitShare(d, BalanceIn(s, u), SheetTotal(s));
    assert s.keys[..|s.keys|] == s.keys;
    s.HasKey(u);
    NoShare(d, SheetTotal(s));
    hide Times, PerUnit, ShareOf, SheetTotal, ExactCredits;
  }

  lemma NoShare(amount: real, total: real)
    ensures ShareOf(amount, 0.0, total) == 0.0
  {
  }

  /** All harvests together credit every user the sum of their exact parts. */
  lemma {:induction false} HarvestsPay(events: seq<Event>, token: Address, u: Address)
    requires GoodEvents(events)
    ensures Credited(HarvestCredits(events, token), u, token) == HarvestShares(events, u)
  {
    hide EventCredits, EventShare;
    if events == [] {
    } else {
      var rest, e := events[..|events| - 1], events[|events| - 1];
      HarvestsPay(rest, token, u);
      EventPays(e, token, u);
      CreditedConcat(HarvestCredits(rest, token), EventCredits(e, token), u, token);
    }
  }

  lemma {:induction false} HarvestsOnly(events: seq<Event>, token: Address)
    requires GoodEvents(events)
    ensures Only(HarvestCredits(events, token), token)
  {
    if events == [] {
    } else {
      var s, d := events[|events| - 1].balances, events[|events| - 1].amount as real;
      HarvestsOnly(events[..|events| - 1], token);
      SumOverNonNegative(s, s.keys);
      PerUnitNonNegative(d, SheetTotal(s));
      ExactSum(s, |s.keys|, token, PerUnit(d, SheetTotal(s)));
    }
  }

  /** Every user holds the sum of their parts of the harvests, in the one token only. */
  ghost predicate HoldsShares(l: Ledger, events: seq<Event>, token: Address) {
    forall u, t :: Amount(l, u, t) == if t == token then HarvestShares(events, u) else 0.0
  }

  lemma HarvestAmounts(events: seq<Event>, token: Address)
    requires GoodEvents(events)
    ensures HoldsShares(Apply(NO_REWARDS, HarvestCredits(events, token)), events, token)
  {
    hide HarvestCredits, HarvestShares, GoodEvents, Apply, Amount, Credited;
    var log := HarvestCredits(events, token);
    HarvestsOnly(events, token);
    forall u, t
      ensures Amount(Apply(NO_REWARDS, log), u, t) == if t == token then HarvestShares(events, u) else 0.0
    {
      ApplyContents(NO_REWARDS, log, u, t);
      NoAmount(u, t);
      if t == token {
        HarvestsPay(events, token, u);
      } else {
        OtherTokensOfUser(log, token, u, t);
      }
    }
  }

  /** The parts of all recorded harvests strictly between the first and the last block of a range. */
  function SharesWithin(events: seq<Event>, r: Range, u: Address): real {
    if events == [] then 0.0
    else
      var e := events[|events| - 1];
      SharesWithin(events[..|events| - 1], r, u) + if r.start < e.blockNumber < r.end then EventShare(e, u) else 0.0
  }

  lemma {:induction false} WindowShares(events: seq<Event>, r: Range, u: Address)
    ensures HarvestShares(InWindow(events, r), u) == SharesWithin(events, r, u)
  {
    hide EventShare;
    WindowLast(events, r);
    if events == [] {
    } else {
      var rest, e := events[..|events| - 1], events[|events| - 1];
      WindowShares(rest, r, u);
      assert (InWindow(rest, r) + [e])[..|InWindow(rest, r)|] == InWindow(rest, r);
    }
  }

  /** The shares of the harvests add up to the harvested amounts, exactly. */
  lemma {:induction false} HarvestsConserve(events: seq<Event>, token: Address)
    requires GoodEvents(events) && AllHeld(events)
    ensures CreditSum(HarvestCredits(events, token), token) == SumHarvested(events) as real
    ensures Only(HarvestCredits(events, token), token)
  {
    if events == [] {
    } else {
      var e := events[|events| - 1];
      var s := e.balances;
      HarvestsConserve(events[..|events| - 1], token);
      assert s.keys[..|s.keys|] == s.keys;
      SumOverNonNegative(s, s.keys);
      PerUnitNonNegative(e.amount as real, SheetTotal(s));
      PerUnitTotal(e.amount as real, SheetTotal(s));
      ExactSum(s, |s.keys|, token, PerUnit(e.amount as real, SheetTotal(s)));
      CreditSumConcat(HarvestCredits(events[..|events| - 1], token), EventCredits(e, token), token);
    }
  }

  /** The amounts found under the first token of each of the first `n` users. */
  ghost function SumFirstTokens(l: Ledger, n: nat): real
    requires WellFormed(l) && n <= |l.claims.keys|
  {
    if n == 0 then 0.0
    else
      l.claims.HasKey(l.claims.keys[n - 1]);
      var d := l.claims.vals[l.claims.keys[n - 1]];
      d.HasKey(d.keys[0]);
      SumFirstTokens(l, n - 1) + d.vals[d.keys[0]]
  }

  /** In a ledger of one token, the first tokens are all its tokens. */
  lemma {:induction false} FirstIsOnly(l: Ledger, n: nat, token: Address)
    requires WellFormed(l) && n <= |l.claims.keys|
    requires forall u, t :: Has(l, u, t) ==> t == token
    ensures SumFirstTokens(l, n) == SumUsers(l, l.claims.keys[..n], token)
  {
    if n == 0 {
    } else {
      FirstIsOnly(l, n - 1, token);
      var u := l.claims.keys[n - 1];
      l.claims.HasKey(u);
      var d := l.claims.vals[u];
      d.HasKey(d.keys[0]);
      assert Has(l, u, d.keys[0]);
      assert l.claims.keys[..n][..n - 1] == l.claims.keys[..n - 1];
    }
  }

  lemma OneToken(log: seq<Credit>, token: Address)
    requires Only(log, token)
    ensures var l := Apply(NO_REWARDS, log);
            && WellFormed(l)
            && SumFirstTokens(l, |l.claims.keys|) == CreditSum(log, token)
  {
    var l := Apply(NO_REWARDS, log);
    EmptyConsistent();
    ApplyConsistent(NO_REWARDS, log);
    ConsistentTotal(l, token);
    ApplyTotal(NO_REWARDS, log, token);
    forall u, t | Has(l, u, t) ensures t == token {
      ApplyContents(NO_REWARDS, log, u, t);
    }
    FirstIsOnly(l, |l.claims.keys|, token);
    assert l.claims.keys[..|l.claims.keys|] == l.claims.keys;
  }

  method FirstAmounts(rewards: RewardsList) returns (total: real)
    requires rewards.Valid()
    ensures total == SumFirstTokens(rewards.State(), |rewards.claims.keys|)
  {
    total := 0.0;
    for i := 0 to |rewards.claims.keys|
      invariant total == SumFirstTokens(rewards.State(), i)
    {
      rewards.claims.HasKey(rewards.claims.keys[i]);
      var d := rewards.claims.vals[rewards.claims.keys[i]];
      d.HasKey(d.keys[0]);
      total := total + d.vals[d.keys[0]];
    }
  }

  /** Credits one event's exact shares. */
  method AddEvent(rewards: RewardsList, e: Event, token: Address)
    requires rewards.Valid() && e.balances.Valid() && SheetTotal(e.balances) != 0.0
    modifies rewards
    ensures rewards.Valid()
    ensures rewards.State() == Apply(old(rewards.State()), EventCredits(e, token))
  {
    hide WellFormed, Increase, Times;
    ghost var before := rewards.State();
    var s, unit := e.balances, PerUnit(e.amount as real, SheetTotal(e.balances));
    for i := 0 to |s.keys|
      invariant rewards.Valid()
      invariant rewards.State() == Apply(before, ExactCredits(s, i, token, unit))
    {
      s.HasKey(s.keys[i]);
      var share := Times(unit, s.vals[s.keys[i]]);
      ApplyAppend(before, ExactCredits(s, i, token, unit), Credit(s.keys[i], token, share));
      rewards.IncreaseUserRewards(s.keys[i], token, share);
    }
  }

  /** Rewards and events agree, exactly. */
  lemma AmountsAgree(events: seq<Event>, token: Address)
    requires GoodEvents(events) && AllHeld(events)
    ensures var l := Apply(NO_REWARDS, HarvestCredits(events, token));
            && WellFormed(l)
            && SumFirstTokens(l, |l.claims.keys|) == SumHarvested(events) as real
  {
    HarvestsConserve(events, token);
    OneToken(HarvestCredits(events, token), token);
  }

  lemma HarvestStep(events: seq<Event>, i: nat, token: Address, l: Ledger)
    requires i < |events| && AllHeld(events[..i]) && SheetTotal(events[i].balances) != 0.0
    requires l == Apply(NO_REWARDS, HarvestCredits(events[..i], token))
    ensures AllHeld(events[..i + 1])
    ensures SumHarvested(events[..i + 1]) == SumHarvested(events[..i]) + events[i].amount
    ensures Apply(l, EventCredits(events[i], token)) == Apply(NO_REWARDS, HarvestCredits(events[..i + 1], token))
  {
    hide EventCredits, Apply;
    assert events[..i + 1][..i] == events[..i];
    ApplyConcat(NO_REWARDS, HarvestCredits(events[..i], token), EventCredits(events[i], token));
  }

  lemma NoHarvests(events: seq<Event>, token: Address)
    ensures AllHeld(events[..0]) && SumHarvested(events[..0]) == 0
    ensures Apply(NO_REWARDS, HarvestCredits(events[..0], token)) == NO_REWARDS
  {
    assert events[..0] == [];
  }

  lemma NextHarvest(events: seq<Event>, i: nat)
    requires GoodEvents(events) && i < |events|
    ensures events[i].balances.Valid()
    ensures SheetTotal(events[i].balances) == 0.0 ==> !AllHeld(events)
  {
  }

  /** The final check that rewards and events agree never fails: only an event without holders is an error. */
  method ProcessRewards(events: seq<Event>, token: Address, nextCycle: int) returns (r: Result<RewardsList>)
    requires GoodEvents(events)
    ensures r.Success? <==> AllHeld(events)
    ensures r.Failure? ==> r.error == ZeroDivisionError
    ensures r.Success? ==> r.value.Valid() && r.value.cycle == nextCycle
    ensures r.Success? ==> r.value.State() == Apply(NO_REWARDS, HarvestCredits(events, token))
    ensures r.Success? ==> HoldsShares(r.value.State(), events, token)
  {
    hide WellFormed, Increase, NonNegative, EventCredits, SheetTotal, HoldsShares, Apply, HarvestCredits, SumHarvested,
         AllHeld, GoodEvents;
    HarvestAmounts(events, token);
    NoHarvests(events, token);
    var rewards := new RewardsList(nextCycle);
    var total := 0;
    for i := 0 to |events|
      invariant rewards.Valid() && fresh(rewards)
      invariant AllHeld(events[..i])
      invariant total == SumHarvested(events[..i])
      invariant rewards.State() == Apply(NO_REWARDS, HarvestCredits(events[..i], token))
    {
      NextHarvest(events, i);
      if SheetTotal(events[i].balances) == 0.0 {
        return Failure(ZeroDivisionError);
      }
      HarvestStep(events, i, token, rewards.State());
      total := total + events[i].amount;
      AddEvent(rewards, events[i], token);
    }
    assert events[..|events|] == events;
    var totalFromRewards := FirstAmounts(rewards);
    AmountsAgree(events, token);
    var difference := total as real - totalFromRewards;
    if difference > 100000.0 * 1000000000000000000.0 || -difference > 100000.0 * 1000000000000000000.0 {
      return Failure(AssertionError);
    }
    return Success(rewards);
  }

  /** The events inside the range, if any, are processed. */
  method CalcRewards(events: seq<Event>, range: Range, nextCycle: int, token: Address) returns (r: Result<RewardsList>)
    requires GoodEvents(events)
    ensures r.Success? <==> AllHeld(InWindow(events, range))
    ensures r.Failure? ==> r.error == ZeroDivisionError
    ensures r.Success? ==> r.value.Valid() && r.value.cycle == nextCycle
    ensures r.Success? ==> r.value.State() == Apply(NO_REWARDS, HarvestCredits(InWindow(events, range), token))
    ensures r.Success? ==> HoldsShares(r.value.State(), InWindow(events, range), token)
  {
    var filtered := InWindow(events, range);
    WindowGood(events, range);
    if filtered == [] {
      var none := new RewardsList(nextCycle);
      HarvestAmounts(filtered, token);
      return Success(none);
    }
    r := ProcessRewards(filtered, token, nextCycle);
  }

  lemma GoodAppend(events: seq<Event>, selected: seq<Event>)
    requires events != [] && GoodEvents(events) && GoodEvents(selected)
    ensures GoodEvents(selected + [events[|events| - 1]]) && GoodEvents(selected + [])
  {
  }

  lemma GoodRest(events: seq<Event>)
    requires events != [] && GoodEvents(events)
    ensures GoodEvents(events[..|events| - 1])
  {
  }

  lemma NoneGood()
    ensures GoodEvents([])
  {
  }

  lemma {:induction false} KnownGood(events: seq<Event>, end: int)
    requires GoodEvents(events)
    ensures GoodEvents(KnownBy(events, end))
  {
    hide GoodEvents;
    if events == [] {
      NoneGood();
    } else {
      GoodRest(events);
      KnownGood(events[..|events| - 1], end);
      GoodAppend(events, KnownBy(events[..|events| - 1], end));
    }
  }

  lemma {:induction false} AfterStartGood(events: seq<Event>, start: int)
    requires GoodEvents(events)
    ensures GoodEvents(AfterStart(events, start))
  {
    hide GoodEvents;
    if events == [] {
      NoneGood();
    } else {
      GoodRest(events);
      AfterStartGood(events[..|events| - 1], start);
      GoodAppend(events, AfterStart(events[..|events| - 1], start));
    }
  }

  lemma {:induction false} WindowGood(events: seq<Event>, range: Range)
    requires GoodEvents(events)
    ensures GoodEvents(InWindow(events, range))
  {
    hide GoodEvents;
    if events == [] {
      NoneGood();
    } else {
      GoodRest(events);
      WindowGood(events[..|events| - 1], range);
      GoodAppend(events, InWindow(events[..|events| - 1], range));
    }
  }

  // ----- the four sushi setts -----

  const XSUSHI: Address := 0x8798249C2e607446EfB7Ad49eC89dD1865Ff4272

  /** The harvests recorded for each sett. */
  datatype SushiEvents = SushiEvents(
    wbtcEth: seq<Event>,
    wbtcBadger: seq<Event>,
    wbtcDigg: seq<Event>,
    iBbtcWbtc: seq<Event>)

  ghost function SushiLedger(events: seq<Event>, range: Range): (l: Ledger)
    ensures WellFormed(l) && Consistent(l)
  {
    EmptyConsistent();
    ApplyConsistent(NO_REWARDS, HarvestCredits(InWindow(events, range), XSUSHI));
    Apply(NO_REWARDS, HarvestCredits(InWindow(events, range), XSUSHI))
  }

  ghost function SushiLedgers(e: SushiEvents, range: Range): seq<Ledger> {
    [SushiLedger(e.wbtcEth, range), SushiLedger(e.wbtcBadger, range), SushiLedger(e.wbtcDigg, range),
     SushiLedger(e.iBbtcWbtc, range)]
  }

  /** All sushi rewards of a cycle. */
  ghost function SushiRewards(e: SushiEvents, range: Range): (l: Ledger)
    ensures WellFormed(l) && Consistent(l)
  {
    hide WellFormed, Consistent, SushiLedger;
    CombinedContents(SushiLedgers(e, range), 0, 0);
    Combined(SushiLedgers(e, range))
  }

  ghost predicate SushiGood(e: SushiEvents) {
    GoodEvents(e.wbtcEth) && GoodEvents(e.wbtcBadger) && GoodEvents(e.wbtcDigg) && GoodEvents(e.iBbtcWbtc)
  }

  predicate SushiHeld(e: SushiEvents, range: Range) {
    && AllHeld(InWindow(e.wbtcEth, range)) && AllHeld(InWindow(e.wbtcBadger, range))
    && AllHeld(InWindow(e.wbtcDigg, range)) && AllHeld(InWindow(e.iBbtcWbtc, range))
  }

  method CalcAllSushiRewards(e: SushiEvents, range: Range, nextCycle: int) returns (r: Result<RewardsList>)
    requires SushiGood(e)
    ensures r.Success? <==> SushiHeld(e, range)
    ensures r.Failure? ==> r.error == ZeroDivisionError
    ensures r.Success? ==> r.value.Valid() && r.value.cycle == nextCycle
    ensures r.Success? ==> r.value.State() == SushiRewards(e, range)
  {
    hide GoodEvents, AllHeld, WellFormed, Consistent, HarvestCredits, InWindow, Apply, Combined;
    var wbtcEth: RewardsList :- CalcRewards(e.wbtcEth, range, nextCycle, XSUSHI);
    var wbtcBadger: RewardsList :- CalcRewards(e.wbtcBadger, range, nextCycle, XSUSHI);
    var wbtcDigg: RewardsList :- CalcRewards(e.wbtcDigg, range, nextCycle, XSUSHI);
    var iBbtcWbtc: RewardsList :- CalcRewards(e.iBbtcWbtc, range, nextCycle, XSUSHI);
    var combined := CombineRewards([wbtcEth, wbtcBadger, wbtcDigg, iBbtcWbtc], nextCycle, SushiLedgers(e, range));
    return Success(combined);
  }

  /** User `u`'s parts of all harvests of the four setts strictly inside the range. */
  function SushiShares(e: SushiEvents, range: Range, u: Address): real {
    SharesWithin(e.wbtcEth, range, u) + SharesWithin(e.wbtcBadger, range, u) + SharesWithin(e.wbtcDigg, range, u)
    + SharesWithin(e.iBbtcWbtc, range, u)
  }

  lemma SushiLedgerAmount(events: seq<Event>, range: Range, u: Address, t: Address)
    requires GoodEvents(events)
    ensures Amount(SushiLedger(events, range), u, t) == if t == XSUSHI then SharesWithin(events, range, u) else 0.0
  {
    hide GoodEvents, HarvestCredits, InWindow, HarvestShares, Amount, Apply;
    WindowGood(events, range);
    HarvestAmounts(InWindow(events, range), XSUSHI);
    WindowShares(events, range, u);
  }

  lemma FourAmounts(a: Ledger, b: Ledger, c: Ledger, d: Ledger, u: Address, t: Address)
    ensures SumAmounts([a, b, c, d], u, t) == Amount(a, u, t) + Amount(b, u, t) + Amount(c, u, t) + Amount(d, u, t)
  {
    ThreeAmounts(a, b, c, u, t);
    assert [a, b, c, d][..3] == [a, b, c];
  }

  lemma ThreeAmounts(a: Ledger, b: Ledger, c: Ledger, u: Address, t: Address)
    ensures SumAmounts([a, b, c], u, t) == Amount(a, u, t) + Amount(b, u, t) + Amount(c, u, t)
  {
    assert [a, b, c][..2] == [a, b] && [a, b][..1] == [a] && [a][..0] == [];
    assert SumAmounts([a], u, t) == Amount(a, u, t);
    assert SumAmounts([a, b], u, t) == Amount(a, u, t) + Amount(b, u, t);
  }

  /** The sushi rewards of a user are the user's parts of the harvests, in xSUSHI only. */
  lemma SushiAmounts(e: SushiEvents, range: Range, u: Address, t: Address)
    requires SushiGood(e)
    ensures Amount(SushiRewards(e, range), u, t) == if t == XSUSHI then SushiShares(e, range, u) else 0.0
  {
    hide GoodEvents, SushiLedger, SharesWithin, Amount, SumAmounts, WellFormed, Consistent, Combined;
    SushiLedgerAmount(e.wbtcEth, range, u, t);
    SushiLedgerAmount(e.wbtcBadger, range, u, t);
    SushiLedgerAmount(e.wbtcDigg, range, u, t);
    SushiLedgerAmount(e.iBbtcWbtc, range, u, t);
    var ls := SushiLedgers(e, range);
    CombinedContents(ls, u, t);
    FourAmounts(ls[0], ls[1], ls[2], ls[3], u, t);
  }

  /** What the four setts have harvested altogether. */
  function SushiHarvested(e: SushiEvents): int {
    SumHarvested(e.wbtcEth) + SumHarvested(e.wbtcBadger) + SumHarvested(e.wbtcDigg) + SumHarvested(e.iBbtcWbtc)
  }

  // ----- tree distributions: whole shares -----

  function DistributionCredits(e: Event): seq<Credit> {
    SplitCredits(e.balances, |e.balances.keys|, e.token, PerUnit(e.amount as real, SheetTotal(e.balances)))
  }

  function TreeCredits(events: seq<Event>): seq<Credit> {
    if events == [] then []
    else TreeCredits(events[..|events| - 1]) + DistributionCredits(events[|events| - 1])
  }

  method CalcTreeRewards(known: seq<Event>, startBlock: int, nextCycle: int) returns (r: Result<RewardsList>)
    requires forall i | 0 <= i < |known| :: known[i].balances.Valid()
    ensures r.Success? <==> AllHeld(AfterStart(known, startBlock))
    ensures r.Failure? ==> r.error == ZeroDivisionError
    ensures r.Success? ==> r.value.Valid() && r.value.cycle == nextCycle
    ensures r.Success? ==> r.value.State() == Apply(NO_REWARDS, TreeCredits(AfterStart(known, startBlock)))
    ensures r.Success? ==> HoldsDistributed(r.value.State(), AfterStart(known, startBlock))
  {
    hide WellFormed, Increase, SplitCredits, SheetTotal, InWindow, AfterStart, HoldsDistributed;
    var dists := AfterStart(known, startBlock);
    AfterStartValid(known, startBlock);
    DistributedAmounts(dists);
    var rewards := new RewardsList(nextCycle);
    for i := 0 to |dists|
      invariant rewards.Valid() && fresh(rewards)
      invariant AllHeld(dists[..i])
      invariant rewards.State() == Apply(NO_REWARDS, TreeCredits(dists[..i]))
    {
      var e := dists[i];
      var totalBalance := SheetTotal(e.balances);
      if totalBalance == 0.0 {
        return Failure(ZeroDivisionError);
      }
      assert dists[..i + 1][..i] == dists[..i];
      SplitAmong(rewards, e.balances, e.token, e.amount as real / totalBalance);
      ApplyConcat(NO_REWARDS, TreeCredits(dists[..i]), DistributionCredits(e));
    }
    assert dists[..|dists|] == dists;
    return Success(rewards);
  }

  lemma {:induction false} AfterStartValid(events: seq<Event>, start: int)
    requires forall i | 0 <= i < |events| :: events[i].balances.Valid()
    ensures forall i | 0 <= i < |AfterStart(events, start)| :: AfterStart(events, start)[i].balances.Valid()
  {
    if events == [] {
    } else {
      AfterStartValid(events[..|events| - 1], start);
    }
  }

  /** What user `u` gets of the distributions of token `t`: the whole units of every single part. */
  function DistributionShares(events: seq<Event>, u: Address, t: Address): nat {
    if events == [] then 0
    else
      var e := events[|events| - 1];
      DistributionShares(events[..|events| - 1], u, t)
      + if e.token == t then SharePaid(e.balances, e.amount as real, u) else 0
  }

  lemma DistributionPays(e: Event, u: Address, t: Address)
    requires e.balances.Valid()
    ensures Credited(DistributionCredits(e), u, t)
         == (if e.token == t then SharePaid(e.balances, e.amount as real, u) else 0) as real
  {
    var s, d := e.balances, e.amount as real;
    var unit := PerUnit(d, SheetTotal(s));
    if e.token == t {
      SplitPays(s, |s.keys|, t, unit, u);
      assert s.keys[..|s.keys|] == s.keys;
      FlooredIsPaid(s, d, u);
      NothingPaidOutside(s, d, u);
    } else {
      SplitOnly(s, |s.keys|, e.token, unit);
      OtherTokensOfUser(DistributionCredits(e), e.token, u, t);
    }
  }

  /** All distributions together credit every user the whole units of their parts. */
  lemma {:induction false} DistributionsPay(events: seq<Event>, u: Address, t: Address)
    requires forall i | 0 <= i < |events| :: events[i].balances.Valid()
    ensures Credited(TreeCredits(events), u, t) == DistributionShares(events, u, t) as real
  {
    hide DistributionCredits, SharePaid;
    if events == [] {
    } else {
      var rest, e := events[..|events| - 1], events[|events| - 1];
      DistributionsPay(rest, u, t);
      DistributionPays(e, u, t);
      CreditedConcat(TreeCredits(rest), DistributionCredits(e), u, t);
    }
  }

  ghost predicate HoldsDistributed(l: Ledger, events: seq<Event>) {
    forall u, t :: Amount(l, u, t) == DistributionShares(events, u, t) as real
  }

  lemma DistributedAmounts(events: seq<Event>)
    requires forall i | 0 <= i < |events| :: events[i].balances.Valid()
    ensures HoldsDistributed(Apply(NO_REWARDS, TreeCredits(events)), events)
  {
    hide TreeCredits, DistributionShares, Apply, Amount, Credited;
    forall u, t
      ensures Amount(Apply(NO_REWARDS, TreeCredits(events)), u, t) == DistributionShares(events, u, t) as real
    {
      ApplyContents(NO_REWARDS, TreeCredits(events), u, t);
      NoAmount(u, t);
      DistributionsPay(events, u, t);
    }
  }

  /** The same over all recorded distributions after the first block of a range, up to its last. */
  function DistributedWithin(events: seq<Event>, r: Range, u: Address, t: Address): nat {
    if events == [] then 0
    else
      var e := events[|events| - 1];
      DistributedWithin(events[..|events| - 1], r, u, t)
      + if r.start < e.blockNumber <= r.end && e.token == t then SharePaid(e.balances, e.amount as real, u) else 0
  }

  lemma {:induction false} DistributedShares(events: seq<Event>, r: Range, u: Address, t: Address)
    ensures DistributionShares(Distributed(events, r), u, t) == DistributedWithin(events, r, u, t)
  {
    hide SharePaid;
    if events == [] {
    } else {
      var rest, e := events[..|events| - 1], events[|events| - 1];
      DistributedShares(rest, r, u, t);
      assert events == rest + [e];
      DistributedAppend(rest, e, r);
      assert (Distributed(rest, r) + [e])[..|Distributed(rest, r)|] == Distributed(rest, r);
      hide Distributed;
    }
  }

  function AmountIn(events: seq<Event>, t: Address): int {
    if events == [] then 0
    else
      AmountIn(events[..|events| - 1], t)
      + if events[|events| - 1].token == t then events[|events| - 1].amount else 0
  }

  function RecipientsIn(events: seq<Event>, t: Address): nat {
    if events == [] then 0
    else
      RecipientsIn(events[..|events| - 1], t)
      + if events[|events| - 1].token == t then |events[|events| - 1].balances.keys| else 0
  }

  /** In each token, tree rewards total at most what was distributed, short by less than one unit per recipient. */
  lemma {:induction false} TreeRewardsConserve(events: seq<Event>, t: Address)
    requires GoodEvents(events) && AllHeld(events)
    ensures var shortfall := AmountIn(events, t) as real - CreditSum(TreeCredits(events), t);
            && 0.0 <= shortfall
            && if RecipientsIn(events, t) == 0 then shortfall == 0.0 else shortfall < RecipientsIn(events, t) as real
  {
    if events == [] {
    } else {
      var e := events[|events| - 1];
      var s := e.balances;
      TreeRewardsConserve(events[..|events| - 1], t);
      CreditSumConcat(TreeCredits(events[..|events| - 1]), DistributionCredits(e), t);
      var unit := PerUnit(e.amount as real, SheetTotal(s));
      if e.token == t {
        assert s.keys[..|s.keys|] == s.keys;
        SumOverNonNegative(s, s.keys);
        PerUnitNonNegative(e.amount as real, SheetTotal(s));
        PerUnitTotal(e.amount as real, SheetTotal(s));
        hide Times, PerUnit;
        SplitBounds(s, |s.keys|, t, unit);
      } else {
        SplitOnly(s, |s.keys|, e.token, unit);
        OtherTokens(DistributionCredits(e), e.token, t);
      }
    }
  }

  // ----- what a run takes -----

  /** What the cycles of a run distribute of a token. */
  function AmountTaken(events: seq<Event>, rs: seq<Range>, t: Address): int {
    if rs == [] then 0
    else
      AmountTaken(events, rs[..|rs| - 1], t)
      + AmountIn(Distributed(events, rs[|rs| - 1]), t)
  }

  /** What the cycles of a run take from the harvests of one sett. */
  function HarvestTaken(events: seq<Event>, rs: seq<Range>): int {
    if rs == [] then 0
    else HarvestTaken(events, rs[..|rs| - 1]) + SumHarvested(InWindow(events, rs[|rs| - 1]))
  }

  lemma DistributedAppend(events: seq<Event>, e: Event, r: Range)
    ensures Distributed(events + [e], r)
         == if InTreeWindow(r, e.blockNumber) then Distributed(events, r) + [e] else Distributed(events, r)
  {
    var known := KnownBy(events, r.end);
    assert (events + [e])[..|events|] == events;
    assert (known + [e])[..|known|] == known;
    assert known + [] == known && AfterStart(known, r.start) + [] == AfterStart(known, r.start);
  }

  lemma InWindowAppend(events: seq<Event>, e: Event, r: Range)
    ensures InWindow(events + [e], r)
         == if InHarvestWindow(r, e.blockNumber) then InWindow(events, r) + [e] else InWindow(events, r)
  {
    assert (events + [e])[..|events|] == events;
    assert InWindow(events, r) + [] == InWindow(events, r);
  }

  function ValueIn(e: Event, t: Address): int {
    if e.token == t then e.amount else 0
  }

  lemma AmountAppend(events: seq<Event>, e: Event, t: Address)
    ensures AmountIn(events + [e], t) == AmountIn(events, t) + ValueIn(e, t)
    ensures SumHarvested(events + [e]) == SumHarvested(events) + e.amount
  {
    assert (events + [e])[..|events|] == events;
  }

  /** A recorded distribution is taken once for every window it lies in. */
  lemma {:induction false} DistributionTaken(events: seq<Event>, e: Event, rs: seq<Range>, t: Address)
    ensures AmountTaken(events + [e], rs, t)
         == AmountTaken(events, rs, t) + Multiple(TreeCount(rs, e.blockNumber), ValueIn(e, t))
  {
    hide AmountIn, Distributed, InTreeWindow, Multiple, ValueIn;
    if rs == [] {
      MultipleStep(0, ValueIn(e, t));
    } else {
      var before, r := rs[..|rs| - 1], rs[|rs| - 1];
      DistributionTaken(events, e, before, t);
      DistributedAppend(events, e, r);
      AmountAppend(Distributed(events, r), e, t);
      MultipleStep(TreeCount(before, e.blockNumber), ValueIn(e, t));
    }
  }

  /** And so is a recorded harvest. */
  lemma {:induction false} OneHarvestTaken(events: seq<Event>, e: Event, rs: seq<Range>)
    ensures HarvestTaken(events + [e], rs)
         == HarvestTaken(events, rs) + Multiple(HarvestCount(rs, e.blockNumber), e.amount)
  {
    hide SumHarvested, InWindow, InHarvestWindow, Multiple;
    if rs == [] {
      MultipleStep(0, e.amount);
    } else {
      var before, r := rs[..|rs| - 1], rs[|rs| - 1];
      OneHarvestTaken(events, e, before);
      InWindowAppend(events, e, r);
      AmountAppend(InWindow(events, r), e, 0);
      MultipleStep(HarvestCount(before, e.blockNumber), e.amount);
    }
  }

  /** When no block is counted twice, the cycles never distribute more than was recorded. */
  lemma {:induction false} TakenWithinRecorded(events: seq<Event>, rs: seq<Range>, t: Address)
    requires TreeOnce(rs) && GoodEvents(events)
    ensures 0 <= AmountTaken(events, rs, t) <= AmountIn(events, t)
    ensures 0 <= HarvestTaken(events, rs) <= SumHarvested(events)
  {
    if events == [] {
      NothingTaken(rs, t);
    } else {
      var e := events[|events| - 1];
      TakenWithinRecorded(events[..|events| - 1], rs, t);
      assert events == events[..|events| - 1] + [e];
      DistributionTaken(events[..|events| - 1], e, rs, t);
      OneHarvestTaken(events[..|events| - 1], e, rs);
      HarvestCountLess(rs, e.blockNumber);
      OnceAtMost(TreeCount(rs, e.blockNumber), ValueIn(e, t));
      OnceAtMost(HarvestCount(rs, e.blockNumber), e.amount);
      hide TreeCount, HarvestCount, AmountTaken, HarvestTaken, Multiple;
    }
  }

  lemma {:induction false} NothingTaken(rs: seq<Range>, t: Address)
    ensures AmountTaken([], rs, t) == 0 && HarvestTaken([], rs) == 0
  {
    if rs == [] {
    } else {
      NothingTaken(rs[..|rs| - 1], t);
    }
  }
}
