/** The rewards of all setts in one cycle (assistant/rewards/rewards_assistant.py:41-87). */
module Assistant {
  import opened Prelude
  import opened Dicts
  import opened Abi
  import opened Rewards
  import opened RewardsUtils
  import opened Schedules
  import opened Balances
  import opened Multipliers
  import opened Snapshot
  import opened SettRewards
  import opened Conservation
  import opened Vaults

  predicate Skipped(name: string) {
    name == "native.digg" || name == "experimental.digg"
  }

  // ----- the rewards lists -----

  function CreditsOf(s: Sett, boosts: Boosts, p: Period, unclaimed: Unclaimed): seq<Credit> {
    SnapshotCredits(AfterBoost(s.name, s.sheet, boosts), s.schedules, |TokensOf(s.schedules)|, p,
                    ResplitAmong(s.name, unclaimed))
  }

  /** The rewards lists of the setts that are not skipped. */
  function SettLedgers(setts: seq<Sett>, boosts: Boosts, p: Period, unclaimed: Unclaimed): seq<Ledger> {
    if setts == [] then []
    else
      var rest, last := SettLedgers(setts[..|setts| - 1], boosts, p, unclaimed), setts[|setts| - 1];
      if Skipped(last.name) then rest else rest + [Apply(NO_REWARDS, CreditsOf(last, boosts, p, unclaimed))]
  }

  /** Nothing fails while the sett is processed. */
  predicate Computable(s: Sett, boosts: Boosts, p: Period, unclaimed: Unclaimed) {
    && (s.name in NON_NATIVE_SETTS ==> s.sheet.keys == [] || Divisible(s.sheet, boosts))
    && AllComputable(AfterBoost(s.name, s.sheet, boosts), s.schedules, |TokensOf(s.schedules)|, p,
                     ResplitAmong(s.name, unclaimed))
  }

  predicate AllSettsComputable(setts: seq<Sett>, boosts: Boosts, p: Period, unclaimed: Unclaimed) {
    forall i | 0 <= i < |setts| :: Skipped(setts[i].name) || Computable(setts[i], boosts, p, unclaimed)
  }

  ghost predicate GoodLedgers(ls: seq<Ledger>) {
    forall i | 0 <= i < |ls| :: WellFormed(ls[i]) && Consistent(ls[i])
  }

  lemma LedgersAppend(ls: seq<Ledger>, log: seq<Credit>)
    requires GoodLedgers(ls)
    ensures GoodLedgers(ls + [Apply(NO_REWARDS, log)])
  {
    EmptyConsistent();
    ApplyConsistent(NO_REWARDS, log);
  }

  lemma {:induction false} SettLedgersGood(setts: seq<Sett>, boosts: Boosts, p: Period, unclaimed: Unclaimed)
    ensures GoodLedgers(SettLedgers(setts, boosts, p, unclaimed))
  {
    if setts == [] {
    } else {
      hide GoodLedgers, Apply, CreditsOf;
      SettLedgersGood(setts[..|setts| - 1], boosts, p, unclaimed);
      LedgersAppend(SettLedgers(setts[..|setts| - 1], boosts, p, unclaimed),
                    CreditsOf(setts[|setts| - 1], boosts, p, unclaimed));
    }
  }

  /** All sett rewards of a cycle. */
  ghost function AllSettRewards(setts: seq<Sett>, boosts: Boosts, p: Period, unclaimed: Unclaimed): (l: Ledger)
    ensures WellFormed(l) && Consistent(l)
  {
    hide WellFormed, Consistent, SettLedgers;
    SettLedgersGood(setts, boosts, p, unclaimed);
    CombinedContents(SettLedgers(setts, boosts, p, unclaimed), 0, 0);
    Combined(SettLedgers(setts, boosts, p, unclaimed))
  }

  /** What all setts pay a user in a token; two of them pay nothing. */
  function SettsPart(
    setts: seq<Sett>, boosts: Boosts, p: Period, unclaimed: Unclaimed, u: Address, t: Address): nat
  {
    if setts == [] then 0
    else
      var s := setts[|setts| - 1];
      SettsPart(setts[..|setts| - 1], boosts, p, unclaimed, u, t)
      + if s.name in ["native.digg", "experimental.digg"] then 0
        else SettPart(s.name, s.sheet, boosts, s.schedules, p, unclaimed, u, t)
  }

  lemma {:induction false} LedgersHold(
    setts: seq<Sett>, boosts: Boosts, p: Period, unclaimed: Unclaimed, u: Address, t: Address)
    requires ValidSheets(setts) && unclaimed.bCvx.Valid() && unclaimed.bCvxCrv.Valid()
    ensures SumAmounts(SettLedgers(setts, boosts, p, unclaimed), u, t)
         == SettsPart(setts, boosts, p, unclaimed, u, t) as real
  {
    hide SettPart, SnapshotCredits, AfterBoost, TokensOf, ResplitAmong, Amount, Apply;
    if setts == [] {
    } else {
      var rest, s := setts[..|setts| - 1], setts[|setts| - 1];
      LedgersHold(rest, boosts, p, unclaimed, u, t);
      if !Skipped(s.name) {
        SnapshotAmounts(s.name, s.sheet, boosts, s.schedules, p, unclaimed);
        var ls := SettLedgers(rest, boosts, p, unclaimed);
        assert (ls + [Apply(NO_REWARDS, CreditsOf(s, boosts, p, unclaimed))])[..|ls|] == ls;
      }
    }
  }

  /** The combined list holds for every user and token what the setts pay. */
  lemma AllSettAmounts(
    setts: seq<Sett>, boosts: Boosts, p: Period, unclaimed: Unclaimed, u: Address, t: Address)
    requires ValidSheets(setts) && unclaimed.bCvx.Valid() && unclaimed.bCvxCrv.Valid()
    ensures Amount(AllSettRewards(setts, boosts, p, unclaimed), u, t)
         == SettsPart(setts, boosts, p, unclaimed, u, t) as real
  {
    hide SettLedgers, SettsPart, Amount, SumAmounts, Combined, WellFormed, Consistent;
    SettLedgersGood(setts, boosts, p, unclaimed);
    CombinedContents(SettLedgers(setts, boosts, p, unclaimed), u, t);
    LedgersHold(setts, boosts, p, unclaimed, u, t);
  }

  // ----- the extremes of the multipliers -----

  function Least(xs: seq<real>): real
    requires xs != []
  {
    if |xs| == 1 then xs[0]
    else
      var rest, last := Least(xs[..|xs| - 1]), xs[|xs| - 1];
      if last < rest then last else rest
  }

  function Greatest(xs: seq<real>): real
    requires xs != []
  {
    if |xs| == 1 then xs[0]
    else
      var rest, last := Greatest(xs[..|xs| - 1]), xs[|xs| - 1];
      if last > rest then last else rest
  }

  lemma {:induction false} ExtremesContents(xs: seq<real>)
    requires xs != []
    ensures Least(xs) in xs && Greatest(xs) in xs
    ensures forall x | x in xs :: Least(xs) <= x <= Greatest(xs)
  {
    if |xs| == 1 {
    } else {
      var rest, last := xs[..|xs| - 1], xs[|xs| - 1];
      ExtremesContents(rest);
      assert xs == rest + [last];
    }
  }

  function Multiples(d: Dict<Address, real>): seq<real>
    requires forall k | k in d.keys :: k in d.vals
  {
    seq(|d.keys|, i requires 0 <= i < |d.keys| => d.vals[d.keys[i]])
  }

  /** `e` is the least and the greatest of the multipliers of a sett's users. */
  ghost predicate AreExtremes(e: (real, real), s: Sheet, boosts: Boosts) {
    exists d: Dict<Address, real> ::
      && AreMultipliersOf(d, s, boosts, |s.keys|)
      && d.keys != [] && (forall k | k in d.keys :: k in d.vals)
      && e == (Least(Multiples(d)), Greatest(Multiples(d)))
  }

  lemma EveryMultiple(d: Dict<Address, real>, s: Sheet, boosts: Boosts, a: Address)
    requires AreMultipliersOf(d, s, boosts, |s.keys|) && a in s.keys
    requires forall k | k in d.keys :: k in d.vals
    ensures SheetTotal(s) != 0.0 && SheetTotal(Boosted(s, boosts)) != 0.0 && Part(s, a) != 0.0
    ensures Multiplier(s, boosts, a) in Multiples(d)
  {
    var i :| 0 <= i < |s.keys| && s.keys[i] == a;
    assert s.keys[..|s.keys|] == s.keys;
    assert Multiples(d)[i] == d.vals[a];
  }

  lemma ExtremesOf(d: Dict<Address, real>, s: Sheet, boosts: Boosts)
    requires Positive(s) && GoodBoosts(boosts) && AreMultipliersOf(d, s, boosts, |s.keys|) && d.keys != []
    requires forall k | k in d.keys :: k in d.vals
    ensures 1.0 / 3.0 <= Least(Multiples(d)) <= 1.0 <= Greatest(Multiples(d)) <= 3.0
  {
    var low, high := Least(Multiples(d)), Greatest(Multiples(d));
    ExtremesContents(Multiples(d));
    TotalsPositive(s, boosts);
    forall a | a in s.vals
      ensures Part(s, a) != 0.0 && low <= Multiplier(s, boosts, a) <= high
    {
      s.HasKey(a);
      EveryMultiple(d, s, boosts, a);
    }
    assert s.keys[..|s.keys|] == s.keys;
    forall i | 0 <= i < |Multiples(d)| ensures 1.0 / 3.0 <= Multiples(d)[i] <= 3.0 {
      s.HasKey(s.keys[i]);
      MultiplierBounds(s, boosts, s.keys[i], s.keys[i]);
    }
    hide Least, Greatest, Multiples, AreMultipliersOf;
    MeanBetween(s, boosts, low, high);
  }

  /** The least multiplier of a sett is at most 1 and the greatest at least 1, both within a factor of three. */
  lemma ExtremesAroundOne(e: (real, real), s: Sheet, boosts: Boosts)
    requires Positive(s) && GoodBoosts(boosts) && AreExtremes(e, s, boosts)
    ensures 1.0 / 3.0 <= e.0 <= 1.0 <= e.1 <= 3.0
  {
    var d: Dict<Address, real> :|
      && AreMultipliersOf(d, s, boosts, |s.keys|)
      && d.keys != [] && (forall k | k in d.keys :: k in d.vals)
      && e == (Least(Multiples(d)), Greatest(Multiples(d)));
    ExtremesOf(d, s, boosts);
  }

  /** The multipliers of a sett are boosted, so their extremes are recorded. */
  predicate Rated(s: Sett) {
    !Skipped(s.name) && s.name in NON_NATIVE_SETTS && s.sheet.keys != []
  }

  type Extremes = Dict<Address, (real, real)>

  /** No later one of the first `n` setts is rated under the same address. */
  predicate LastRated(setts: seq<Sett>, i: nat, n: nat)
    requires i < n <= |setts|
  {
    Rated(setts[i]) && forall j | i < j < n && Rated(setts[j]) :: setts[j].address != setts[i].address
  }

  ghost predicate HasExtremes(data: Extremes, s: Sett, boosts: Boosts) {
    s.address in data.vals && AreExtremes(data.vals[s.address], s.sheet, boosts)
  }

  /** Exactly the addresses of rated setts are recorded, each with the extremes of the last sett rated under it. */
  ghost predicate AreRecorded(data: Extremes, setts: seq<Sett>, boosts: Boosts, n: nat)
    requires n <= |setts|
  {
    && (forall a | a in data.vals :: exists i | 0 <= i < n :: Rated(setts[i]) && setts[i].address == a)
    && forall i | 0 <= i < n && LastRated(setts, i, n) :: HasExtremes(data, setts[i], boosts)
  }

  lemma RecordNone(data: Extremes, setts: seq<Sett>, boosts: Boosts, n: nat)
    requires n < |setts| && AreRecorded(data, setts, boosts, n) && !Rated(setts[n])
    ensures AreRecorded(data, setts, boosts, n + 1)
  {
    hide Rated, HasExtremes;
    forall a | a in data.vals ensures exists i | 0 <= i < n + 1 :: Rated(setts[i]) && setts[i].address == a {
      var i :| 0 <= i < n && Rated(setts[i]) && setts[i].address == a;
      assert Rated(setts[i]);
    }
    forall i | 0 <= i < n + 1 && LastRated(setts, i, n + 1) ensures HasExtremes(data, setts[i], boosts) {
      assert i < n && LastRated(setts, i, n);
    }
  }

  lemma RecordOne(data: Extremes, setts: seq<Sett>, boosts: Boosts, n: nat, e: (real, real))
    requires n < |setts| && AreRecorded(data, setts, boosts, n) && Rated(setts[n])
    requires AreExtremes(e, setts[n].sheet, boosts)
    ensures AreRecorded(data.Put(setts[n].address, e), setts, boosts, n + 1)
  {
    hide Rated, AreExtremes;
    var more := data.Put(setts[n].address, e);
    forall a | a in more.vals ensures exists i | 0 <= i < n + 1 :: Rated(setts[i]) && setts[i].address == a {
      if a == setts[n].address {
        assert Rated(setts[n]);
      } else {
        var i :| 0 <= i < n && Rated(setts[i]) && setts[i].address == a;
        assert Rated(setts[i]);
      }
    }
    forall i | 0 <= i < n + 1 && LastRated(setts, i, n + 1) ensures HasExtremes(more, setts[i], boosts) {
      if i < n {
        assert LastRated(setts, i, n) && setts[i].address != setts[n].address;
        assert HasExtremes(data, setts[i], boosts);
      }
    }
  }

  // ----- the code -----

  /** Some sett releases an amount of DIGG that cannot be converted. */
  predicate SomeUnconverted(setts: seq<Sett>, p: Period) {
    exists i | 0 <= i < |setts| :: !DiggConverts(setts[i].schedules, p)
  }

  /** A division by zero, or an amount of DIGG that cannot be converted. */
  predicate SettError(error: Error, setts: seq<Sett>, p: Period) {
    error == ZeroDivisionError || (error == OverflowError && SomeUnconverted(setts, p))
  }

  method CalcVaultRewards(
    vault: Vault, boosts: Boosts, p: Period, cycle: int, unclaimed: Unclaimed, ghost sett: Sett)
    returns (r: Result<(RewardsList, Option<(real, real)>)>)
    requires vault.users.Valid() && unclaimed.bCvx.Valid() && unclaimed.bCvxCrv.Valid()
    requires sett == Sett(vault.name, vault.address, vault.rate, vault.users.View(), vault.schedules)
    requires !Skipped(sett.name)
    modifies vault.users.Objects()
    ensures r.Success? <==> Computable(sett, boosts, p, unclaimed)
    ensures r.Failure? ==>
              r.error == ZeroDivisionError || (r.error == OverflowError && !DiggConverts(sett.schedules, p))
    ensures r.Success? ==> r.value.0.State() == Apply(NO_REWARDS, CreditsOf(sett, boosts, p, unclaimed))
    ensures r.Success? ==> (r.value.1.Some? <==> Rated(sett))
    ensures r.Success? && Rated(sett) ==> AreExtremes(r.value.1.value, sett.sheet, boosts)
  {
    hide WellFormed, FiledByAddress, Divisible, AllComputable, AreMultipliersOf, SnapshotCredits, AfterBoost,
         DiggConverts;
    var result: (RewardsList, Dict<Address, real>) :-
      CalcSnapshot(vault.name, vault.users, boosts, vault.schedules, p, cycle, unclaimed);
    var settRewards: RewardsList, apyBoost: Dict<Address, real> := result.0, result.1;
    if vault.name in NON_NATIVE_SETTS {
      MultiplierKeys(apyBoost, sett.sheet, boosts);
    }
    if apyBoost.keys == [] {
      return Success((settRewards, None));
    }
    return Success((settRewards, Some((Least(Multiples(apyBoost)), Greatest(Multiples(apyBoost))))));
  }

  lemma MultiplierKeys(d: Dict<Address, real>, s: Sheet, boosts: Boosts)
    requires AreMultipliersOf(d, s, boosts, |s.keys|)
    ensures d.keys == s.keys && forall k | k in d.keys :: k in d.vals
  {
    assert s.keys[..|s.keys|] == s.keys;
  }

  lemma LedgersStep(setts: seq<Sett>, i: nat, boosts: Boosts, p: Period, unclaimed: Unclaimed)
    requires i < |setts|
    ensures var before, log := SettLedgers(setts[..i], boosts, p, unclaimed), CreditsOf(setts[i], boosts, p, unclaimed);
            SettLedgers(setts[..i + 1], boosts, p, unclaimed)
            == if Skipped(setts[i].name) then before else before + [Apply(NO_REWARDS, log)]
  {
    assert setts[..i + 1][..i] == setts[..i];
    assert SettLedgers(setts[..i], boosts, p, unclaimed) + [] == SettLedgers(setts[..i], boosts, p, unclaimed);
  }

  ghost predicate HoldLedgers(lists: seq<RewardsList>, ls: seq<Ledger>)
    reads lists
  {
    |lists| == |ls| && forall i | 0 <= i < |lists| :: lists[i].State() == ls[i]
  }

  lemma ObjectsOfOne(vaults: seq<Vault>, i: nat)
    requires i < |vaults|
    ensures vaults[i].users.Objects() <= AllObjects(vaults)
  {
  }

  /** The next sett, while the balances of those after it are left alone. */
  method CalcNextVault(
    vaults: seq<Vault>, i: nat, boosts: Boosts, p: Period, cycle: int, unclaimed: Unclaimed, ghost setts: seq<Sett>)
    returns (r: Result<(RewardsList, Option<(real, real)>)>)
    requires i < |vaults| && SeparateVaults(vaults) && Match(vaults, setts, i) && !Skipped(setts[i].name)
    requires unclaimed.bCvx.Valid() && unclaimed.bCvxCrv.Valid()
    modifies AllObjects(vaults)
    ensures SeparateVaults(vaults) && AllObjects(vaults) == old(AllObjects(vaults)) && Match(vaults, setts, i + 1)
    ensures r.Success? <==> Computable(setts[i], boosts, p, unclaimed)
    ensures r.Failure? ==> SettError(r.error, setts, p)
    ensures r.Success? ==> r.value.0.State() == Apply(NO_REWARDS, CreditsOf(setts[i], boosts, p, unclaimed))
    ensures r.Success? ==> (r.value.1.Some? <==> Rated(setts[i]))
    ensures r.Success? && Rated(setts[i]) ==> AreExtremes(r.value.1.value, setts[i].sheet, boosts)
  {
    hide FiledByAddress, Computable, CreditsOf, Apply, DiggConverts, AreExtremes, Rated, Skipped;
    ObjectsOfOne(vaults, i);
    r := CalcVaultRewards(vaults[i], boosts, p, cycle, unclaimed, setts[i]);
  }

  lemma HoldOneMore(lists: seq<RewardsList>, ls: seq<Ledger>, list: RewardsList)
    requires HoldLedgers(lists, ls)
    ensures HoldLedgers(lists + [list], ls + [list.State()])
  {
  }

  lemma ComputableStep(setts: seq<Sett>, i: nat, boosts: Boosts, p: Period, unclaimed: Unclaimed)
    requires i < |setts| && AllSettsComputable(setts[..i], boosts, p, unclaimed)
    ensures Skipped(setts[i].name) || Computable(setts[i], boosts, p, unclaimed) ==>
              AllSettsComputable(setts[..i + 1], boosts, p, unclaimed)
    ensures !Skipped(setts[i].name) && !Computable(setts[i], boosts, p, unclaimed) ==>
              !AllSettsComputable(setts, boosts, p, unclaimed)
  {
  }

  /** The lists and extremes of the first `n` setts. */
  ghost predicate Calculated(
    lists: seq<RewardsList>, data: Extremes, setts: seq<Sett>, n: nat, boosts: Boosts, p: Period, unclaimed: Unclaimed)
    requires n <= |setts|
    reads lists
  {
    && AllSettsComputable(setts[..n], boosts, p, unclaimed)
    && HoldLedgers(lists, SettLedgers(setts[..n], boosts, p, unclaimed))
    && AreRecorded(data, setts, boosts, n)
  }

  lemma CalculatedSkipped(
    lists: seq<RewardsList>, data: Extremes, setts: seq<Sett>, n: nat, boosts: Boosts, p: Period, unclaimed: Unclaimed)
    requires n < |setts| && Calculated(lists, data, setts, n, boosts, p, unclaimed) && Skipped(setts[n].name)
    ensures Calculated(lists, data, setts, n + 1, boosts, p, unclaimed)
  {
    SkippedUnrated(setts[n]);
    hide HoldLedgers, SettLedgers, AreRecorded, AllSettsComputable, Skipped, Computable;
    RecordNone(data, setts, boosts, n);
    ComputableStep(setts, n, boosts, p, unclaimed);
    LedgersStep(setts, n, boosts, p, unclaimed);
  }

  lemma CalculatedMore(
    lists: seq<RewardsList>, data: Extremes, setts: seq<Sett>, n: nat, boosts: Boosts, p: Period, unclaimed: Unclaimed,
    list: RewardsList, extremes: Option<(real, real)>)
    requires n < |setts| && Calculated(lists, data, setts, n, boosts, p, unclaimed)
    requires !Skipped(setts[n].name) && Computable(setts[n], boosts, p, unclaimed)
    requires list.State() == Apply(NO_REWARDS, CreditsOf(setts[n], boosts, p, unclaimed))
    requires extremes.Some? <==> Rated(setts[n])
    requires extremes.Some? ==> AreExtremes(extremes.value, setts[n].sheet, boosts)
    ensures Calculated(lists + [list], if extremes.Some? then data.Put(setts[n].address, extremes.value) else data,
                       setts, n + 1, boosts, p, unclaimed)
  {
    hide HoldLedgers, SettLedgers, AreRecorded, AllSettsComputable, Skipped, Computable, Rated, AreExtremes, Apply,
         CreditsOf;
    ComputableStep(setts, n, boosts, p, unclaimed);
    LedgersStep(setts, n, boosts, p, unclaimed);
    HoldOneMore(lists, SettLedgers(setts[..n], boosts, p, unclaimed), list);
    if extremes.Some? {
      RecordOne(data, setts, boosts, n, extremes.value);
    } else {
      RecordNone(data, setts, boosts, n);
    }
  }

  lemma NothingCalculated(setts: seq<Sett>, boosts: Boosts, p: Period, unclaimed: Unclaimed)
    ensures Calculated([], Empty(), setts, 0, boosts, p, unclaimed)
  {
  }

  lemma AllCalculated(
    lists: seq<RewardsList>, data: Extremes, setts: seq<Sett>, boosts: Boosts, p: Period, unclaimed: Unclaimed)
    requires Calculated(lists, data, setts, |setts|, boosts, p, unclaimed)
    ensures AllSettsComputable(setts, boosts, p, unclaimed)
    ensures HoldLedgers(lists, SettLedgers(setts, boosts, p, unclaimed))
    ensures AreRecorded(data, setts, boosts, |setts|)
  {
    assert setts[..|setts|] == setts;
  }

  /** One round of the loop: the sett is skipped, fails, or adds its list and extremes. */
  method CalcOneMore(
    vaults: seq<Vault>, i: nat, boosts: Boosts, p: Period, cycle: int, unclaimed: Unclaimed,
    lists: seq<RewardsList>, data: Extremes, ghost setts: seq<Sett>)
    returns (failure: Option<Error>, moreLists: seq<RewardsList>, moreData: Extremes)
    requires i < |vaults| && SeparateVaults(vaults) && Match(vaults, setts, i)
    requires unclaimed.bCvx.Valid() && unclaimed.bCvxCrv.Valid()
    requires Calculated(lists, data, setts, i, boosts, p, unclaimed)
    modifies AllObjects(vaults)
    ensures SeparateVaults(vaults) && AllObjects(vaults) == old(AllObjects(vaults)) && Match(vaults, setts, i + 1)
    ensures failure.None? ==> Calculated(moreLists, moreData, setts, i + 1, boosts, p, unclaimed)
    ensures failure.Some? ==> SettError(failure.value, setts, p) && !AllSettsComputable(setts, boosts, p, unclaimed)
  {
    hide Computable, CreditsOf, Apply, SettLedgers, AreExtremes, AreRecorded, Rated, SettError, HoldLedgers,
         AllSettsComputable, Calculated, SeparateVaults, AllObjects;
    failure, moreLists, moreData := None, lists, data;
    MatchNames(vaults, setts, i);
    if Skipped(vaults[i].name) {
      CalculatedSkipped(lists, data, setts, i, boosts, p, unclaimed);
    } else {
      hide Skipped, Match;
      CannotCompute(lists, data, setts, i, boosts, p, unclaimed);
      var result := CalcNextVault(vaults, i, boosts, p, cycle, unclaimed, setts);
      if result.Failure? {
        failure := Some(result.error);
      } else {
        CalculatedMore(lists, data, setts, i, boosts, p, unclaimed, result.value.0, result.value.1);
        moreLists := lists + [result.value.0];
        if result.value.1.Some? {
          moreData := data.Put(vaults[i].address, result.value.1.value);
        }
      }
    }
  }

  /** One rewards list per sett that is not skipped, and the extremes of its multipliers. */
  method CalcRewardsBySett(
    vaults: seq<Vault>, boosts: Boosts, p: Period, cycle: int, unclaimed: Unclaimed,
    ghost setts: seq<Sett>)
    returns (r: Result<(seq<RewardsList>, Extremes)>)
    requires SeparateVaults(vaults) && unclaimed.bCvx.Valid() && unclaimed.bCvxCrv.Valid()
    requires Match(vaults, setts, 0)
    modifies AllObjects(vaults)
    ensures r.Success? <==> AllSettsComputable(setts, boosts, p, unclaimed)
    ensures r.Failure? ==> SettError(r.error, setts, p)
    ensures r.Success? ==> HoldLedgers(r.value.0, SettLedgers(setts, boosts, p, unclaimed))
    ensures r.Success? ==> AreRecorded(r.value.1, setts, boosts, |setts|)
  {
    hide Computable, CreditsOf, Apply, SettLedgers, AreExtremes, AreRecorded, Rated, SettError, HoldLedgers,
         AllSettsComputable, Calculated, SeparateVaults, AllObjects;
    var lists: seq<RewardsList>, multiplierData: Extremes := [], Empty();
    NothingCalculated(setts, boosts, p, unclaimed);
    for i := 0 to |vaults|
      invariant SeparateVaults(vaults) && AllObjects(vaults) == old(AllObjects(vaults)) && Match(vaults, setts, i)
      invariant Calculated(lists, multiplierData, setts, i, boosts, p, unclaimed)
    {
      var failure;
      failure, lists, multiplierData :=
        CalcOneMore(vaults, i, boosts, p, cycle, unclaimed, lists, multiplierData, setts);
      if failure.Some? {
        return Failure(failure.value);
      }
    }
    AllCalculated(lists, multiplierData, setts, boosts, p, unclaimed);
    return Success((lists, multiplierData));
  }

  lemma CannotCompute(
    lists: seq<RewardsList>, data: Extremes, setts: seq<Sett>, n: nat, boosts: Boosts, p: Period, unclaimed: Unclaimed)
    requires n < |setts| && Calculated(lists, data, setts, n, boosts, p, unclaimed) && !Skipped(setts[n].name)
    ensures !Computable(setts[n], boosts, p, unclaimed) ==> !AllSettsComputable(setts, boosts, p, unclaimed)
  {
    ComputableStep(setts, n, boosts, p, unclaimed);
  }

  lemma MatchNames(vaults: seq<Vault>, setts: seq<Sett>, i: nat)
    requires Match(vaults, setts, i) && i < |vaults|
    ensures |setts| == |vaults| && setts[i].name == vaults[i].name && setts[i].address == vaults[i].address
    ensures Match(vaults, setts, i + 1)
  {
  }

  lemma SkippedUnrated(s: Sett)
    requires Skipped(s.name)
    ensures !Rated(s)
  {
  }

  /** Stakes and boosts: afterwards the objects of all setts hold what `Seen` says. */
  method CalcBoosts(vaults: seq<Vault>, wallets: WalletBalances, ghost setts: seq<Sett>, ghost w: Wallets)
    returns (boosts: Boosts)
    requires SeparateVaults(vaults) && Match(vaults, setts, 0) && ValidSheets(setts)
    requires SeparateWallets(vaults, wallets) && w == Wallets(wallets.digg.View(), wallets.badger.View())
    modifies AllObjects(vaults), wallets.digg.Objects(), wallets.badger.Objects()
    ensures SeparateVaults(vaults) && AllObjects(vaults) == old(AllObjects(vaults))
    ensures Match(vaults, Seen(setts, w), 0)
    ensures boosts == BoostsFor(setts, w)
  {
    hide FiledByAddress, Seen, StakesOf, SeparateWallets, SeparateVaults;
    var stakes := CollectStakes(vaults, wallets, setts, w);
    AllAllocated(vaults);
    StakesValid(setts, w);
    Boost.PreparedIsGood(stakes);
    var badgerBoosts := Boost.BadgerBoost(Boost.Prepared(stakes));
    boosts := badgerBoosts.vals;
  }

  /** All setts of a cycle: stakes and boosts first, which change all balances, then one snapshot after the other. */
  method CalcSettRewards(
    vaults: seq<Vault>, wallets: WalletBalances, p: Period, cycle: int, unclaimed: Unclaimed,
    ghost setts: seq<Sett>, ghost w: Wallets)
    returns (r: Result<(RewardsList, Extremes)>)
    requires SeparateVaults(vaults) && Match(vaults, setts, 0) && ValidSheets(setts)
    requires unclaimed.bCvx.Valid() && unclaimed.bCvxCrv.Valid()
    requires SeparateWallets(vaults, wallets) && w == Wallets(wallets.digg.View(), wallets.badger.View())
    modifies AllObjects(vaults), wallets.digg.Objects(), wallets.badger.Objects()
    ensures var seen, boosts := Seen(setts, w), BoostsFor(setts, w);
            && (r.Success? <==> AllSettsComputable(seen, boosts, p, unclaimed))
            && (r.Failure? ==> SettError(r.error, seen, p))
            && (r.Success? ==>
                  && r.value.0.Valid() && r.value.0.cycle == cycle
                  && r.value.0.State() == AllSettRewards(seen, boosts, p, unclaimed)
                  && AreRecorded(r.value.1, seen, boosts, |seen|))
  {
    hide FiledByAddress, SettLedgers, WellFormed, Consistent, AllSettsComputable, AreRecorded, SettError, Combined,
         Match, SeparateVaults, Seen, SeparateWallets, AllObjects, BoostsFor;
    AllAllocated(vaults);
    var boosts := CalcBoosts(vaults, wallets, setts, w);
    ghost var seen := Seen(setts, w);
    SettLedgersGood(seen, boosts, p, unclaimed);
    var bySett: (seq<RewardsList>, Extremes) :- CalcRewardsBySett(vaults, boosts, p, cycle, unclaimed, seen);
    var combined := CombineRewards(bySett.0, cycle, SettLedgers(seen, boosts, p, unclaimed));
    return Success((combined, bySett.1));
  }

  lemma StakesValid(setts: seq<Sett>, w: Wallets)
    requires ValidSheets(setts)
    ensures StakesOf(setts, w).nonNative.Valid()
  {
    PooledContents(setts, NonNative, |setts|, 0);
  }

  // ----- all setts together -----

  /** The schedules of the setts that are not skipped. */
  function ActiveSchedules(setts: seq<Sett>): seq<seq<Schedule>> {
    if setts == [] then []
    else
      var rest, last := ActiveSchedules(setts[..|setts| - 1]), setts[|setts| - 1];
      if Skipped(last.name) then rest else rest + [last.schedules]
  }

  ghost predicate GoodSheets(setts: seq<Sett>) {
    forall i | 0 <= i < |setts| :: setts[i].sheet.Valid() && NonNegative(setts[i].sheet)
  }

  lemma {:induction false} SettLedgersWithinReleases(
    setts: seq<Sett>, boosts: Boosts, p: Period, unclaimed: Unclaimed, t: Address)
    requires GoodBoosts(boosts) && NonNegative(unclaimed.bCvx) && NonNegative(unclaimed.bCvxCrv)
    requires p.startTime <= p.endTime && GoodSheets(setts) && AllSettsComputable(setts, boosts, p, unclaimed)
    ensures SumTotals(SettLedgers(setts, boosts, p, unclaimed), t)
            <= SettsDistribution(ActiveSchedules(setts), t, p) as real
  {
    hide GoodBoosts, NonNegative, Distribution, OfToken, CreditsOf, Total, Skipped;
    if setts == [] {
    } else {
      var rest, last := setts[..|setts| - 1], setts[|setts| - 1];
      SettLedgersWithinReleases(rest, boosts, p, unclaimed, t);
      if !Skipped(last.name) {
        assert Computable(last, boosts, p, unclaimed);
        LedgerWithinRelease(last, boosts, p, unclaimed, t);
        var ls, active := SettLedgers(rest, boosts, p, unclaimed), ActiveSchedules(rest);
        assert (ls + [Apply(NO_REWARDS, CreditsOf(last, boosts, p, unclaimed))])[..|ls|] == ls;
        assert (active + [last.schedules])[..|active|] == active;
      }
    }
  }

  lemma LedgerWithinRelease(s: Sett, boosts: Boosts, p: Period, unclaimed: Unclaimed, t: Address)
    requires GoodBoosts(boosts) && NonNegative(unclaimed.bCvx) && NonNegative(unclaimed.bCvxCrv)
    requires p.startTime <= p.endTime && s.sheet.Valid() && NonNegative(s.sheet) && Computable(s, boosts, p, unclaimed)
    ensures Total(Apply(NO_REWARDS, CreditsOf(s, boosts, p, unclaimed)), t)
            <= Distribution(OfToken(s.schedules, t), p) as real
  {
    hide GoodBoosts, NonNegative, Distribution, OfToken, Total, Apply;
    SettWithinRelease(s.name, s.sheet, boosts, s.schedules, p, unclaimed, t);
  }

  /** The combined rewards of all setts in a token are at most what all their schedules release in the period. */
  lemma SettRewardsWithinReleases(
    setts: seq<Sett>, boosts: Boosts, p: Period, unclaimed: Unclaimed, t: Address)
    requires GoodBoosts(boosts) && NonNegative(unclaimed.bCvx) && NonNegative(unclaimed.bCvxCrv)
    requires p.startTime <= p.endTime && GoodSheets(setts) && AllSettsComputable(setts, boosts, p, unclaimed)
    ensures Total(AllSettRewards(setts, boosts, p, unclaimed), t)
            <= SettsDistribution(ActiveSchedules(setts), t, p) as real
  {
    SettLedgersGood(setts, boosts, p, unclaimed);
    SettLedgersWithinReleases(setts, boosts, p, unclaimed, t);
    CombinedTotal(SettLedgers(setts, boosts, p, unclaimed), t);
  }

  lemma {:induction false} NoLedgersBackwards(
    setts: seq<Sett>, boosts: Boosts, p: Period, unclaimed: Unclaimed, t: Address)
    requires p.endTime <= p.startTime
    ensures SumTotals(SettLedgers(setts, boosts, p, unclaimed), t) == 0.0
  {
    hide SnapshotCredits, Total, Skipped, AfterBoost, TokensOf;
    if setts == [] {
    } else {
      var rest, s := setts[..|setts| - 1], setts[|setts| - 1];
      NoLedgersBackwards(rest, boosts, p, unclaimed, t);
      if !Skipped(s.name) {
        NothingBackwards(AfterBoost(s.name, s.sheet, boosts), s.schedules, |TokensOf(s.schedules)|, p,
                         ResplitAmong(s.name, unclaimed));
        NoTotal(t);
        var ls := SettLedgers(rest, boosts, p, unclaimed);
        assert (ls + [NO_REWARDS])[..|ls|] == ls;
      }
    }
  }

  /** In a period that does not run forwards no sett pays anything. */
  lemma NoRewardsBackwards(setts: seq<Sett>, boosts: Boosts, p: Period, unclaimed: Unclaimed, t: Address)
    requires p.endTime <= p.startTime
    ensures Total(AllSettRewards(setts, boosts, p, unclaimed), t) == 0.0
  {
    SettLedgersGood(setts, boosts, p, unclaimed);
    NoLedgersBackwards(setts, boosts, p, unclaimed, t);
    CombinedTotal(SettLedgers(setts, boosts, p, unclaimed), t);
  }

  // ----- what the snapshots see -----

  lemma {:induction false} ActiveSame(a: seq<Sett>, b: seq<Sett>)
    requires |a| == |b| && forall v | 0 <= v < |a| :: a[v].name == b[v].name && a[v].schedules == b[v].schedules
    ensures ActiveSchedules(a) == ActiveSchedules(b)
  {
    hide Skipped;
    if a == [] {
    } else {
      ActiveSame(a[..|a| - 1], b[..|b| - 1]);
    }
  }

  /**
   A sett is paid as if its balances had never been touched when no user whose object its group keeps for it has
   anything else in the group. Only the growth of such objects can change what a snapshot pays; the conversion to
   dollars cannot.
   */
  lemma UndistortedCredits(setts: seq<Sett>, w: Wallets, v: nat, boosts: Boosts, p: Period, unclaimed: Unclaimed)
    requires PositiveSetts(setts, w) && v < |setts| && (GroupOf(setts[v].name) != Outside ==> Undistorted(setts, w, v))
    requires Computable(setts[v], boosts, p, unclaimed)
    ensures CreditsOf(Seen(setts, w)[v], boosts, p, unclaimed) == CreditsOf(setts[v], boosts, p, unclaimed)
  {
    hide SnapshotCredits, AfterBoost, AllComputable, Divisible, GroupOf, Undistorted, SeenSheet, Scaled, TokensOf;
    var s := setts[v];
    if GroupOf(s.name) == Outside {
      SeenOutside(setts, w, v);
    } else {
      SeenIsOwn(setts, w, v);
      CreditsUnit(s.name, s.sheet, s.rate, boosts, s.schedules, p, ResplitAmong(s.name, unclaimed));
    }
  }
}
