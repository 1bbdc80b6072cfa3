/** All of `calc_snapshot`: boosts, schedules and payouts of one sett (assistant/rewards/calc_snapshot.py:13-133). */
module SettRewards {
  import opened Prelude
  import opened Dicts
  import opened Abi
  import opened Rewards
  import opened Schedules
  import opened Balances
  import opened Multipliers
  import opened Snapshot

  /** The credits for the first `n` tokens. */
  function SnapshotCredits(
    users: Sheet, schedules: seq<Schedule>, n: nat, p: Period, resplit: Option<Sheet>): seq<Credit>
    requires n <= |TokensOf(schedules)|
  {
    if n == 0 then []
    else
      var t := TokensOf(schedules)[n - 1];
      SnapshotCredits(users, schedules, n - 1, p, resplit)
      + Payout(users, t, Distribution(OfToken(schedules, t), p), resplit)
  }

  const DIGG: Address := 0x798D1bE841a82a273720CE31c822C61a67a601C3

  /** An amount of DIGG is converted on chain, where only an unsigned number of 256 bits can be asked about. */
  predicate Converts(t: Address, distribution: int) {
    t == DIGG ==> IsUint256(distribution)
  }

  predicate DiggConverts(schedules: seq<Schedule>, p: Period) {
    DIGG in TokensOf(schedules) ==> Converts(DIGG, Distribution(OfToken(schedules, DIGG), p))
  }

  /** Nothing is divided by zero while token `t` is processed, and its distribution can be converted. */
  predicate TokenComputable(users: Sheet, schedules: seq<Schedule>, t: Address, p: Period, resplit: Option<Sheet>) {
    && AllDivide(OfToken(schedules, t), p.endTime)
    && AllDivide(OfToken(schedules, t), p.startTime)
    && Converts(t, Distribution(OfToken(schedules, t), p))
    && CanPay(users, Distribution(OfToken(schedules, t), p), resplit)
  }

  predicate AllComputable(users: Sheet, schedules: seq<Schedule>, n: nat, p: Period, resplit: Option<Sheet>)
    requires n <= |TokensOf(schedules)|
  {
    forall i | 0 <= i < n :: TokenComputable(users, schedules, TokensOf(schedules)[i], p, resplit)
  }

  /** Balances are boosted in non-native setts only. */
  function AfterBoost(name: string, users: Sheet, boosts: Boosts): Sheet {
    if name in NON_NATIVE_SETTS then Boosted(users, boosts) else users
  }

  /** What counts for the users of a sett: their balances, in non-native setts times their boosts. */
  function Weights(name: string, users: Sheet, boosts: Boosts): Sheet {
    Dict(users.keys, map a | a in users.vals ::
      if name in NON_NATIVE_SETTS && a in boosts then Times(users.vals[a], boosts[a]) else users.vals[a])
  }

  /**
   What a sett pays a user in a token during a period: of the amount that the token's schedules release the floor of the
   part by weight, and in two setts the floor of the part of the tree account's share by unclaimed balance.
   */
  function SettPart(
    name: string, users: Sheet, boosts: Boosts, schedules: seq<Schedule>, p: Period, unclaimed: Unclaimed, u: Address,
    t: Address): nat
  {
    var ofToken, w := OfToken(schedules, t), Weights(name, users, boosts);
    var released := Released(ofToken, p.endTime) - Released(ofToken, p.startTime);
    if released <= 0 then 0
    else
      (if u == BADGER_TREE then 0 else SharePaid(w, released as real, u))
      + if BADGER_TREE !in w.vals then 0
        else
          var treeShare := ShareOf(released as real, w.vals[BADGER_TREE], SheetTotal(w));
          if name == "native.cvx" then SharePaid(unclaimed.bCvx, treeShare, u)
          else if name == "native.cvxCrv" then SharePaid(unclaimed.bCvxCrv, treeShare, u)
          else 0
  }

  lemma ViewValid(users: UserBalances)
    requires users.Valid()
    ensures users.View().Valid()
  {
    SheetValid(users.userBalances, users.View());
  }

  /** Every user holds what the sett owes them, in every token. */
  ghost predicate HoldsSettParts(
    l: Ledger, name: string, users: Sheet, boosts: Boosts, schedules: seq<Schedule>, p: Period, unclaimed: Unclaimed)
  {
    forall u, t :: Amount(l, u, t) == SettPart(name, users, boosts, schedules, p, unclaimed, u, t) as real
  }

  method PayScheduled(
    rewards: RewardsList, name: string, users: UserBalances, token: Address, schedules: seq<Schedule>, p: Period,
    unclaimed: Unclaimed, ghost all: seq<Schedule>)
    returns (failure: Option<Error>)
    requires rewards.Valid() && users.Valid() && unclaimed.bCvx.Valid() && unclaimed.bCvxCrv.Valid()
    requires schedules == OfToken(all, token)
    modifies rewards
    ensures rewards.Valid()
    ensures failure in [None, Some(ZeroDivisionError), Some(OverflowError)]
    ensures failure == Some(OverflowError) ==> !Converts(token, Distribution(schedules, p))
    ensures var resplit := ResplitAmong(name, unclaimed);
            && (failure.None? <==> TokenComputable(users.View(), all, token, p, resplit))
            && (failure.None? ==> rewards.State() == Apply(old(rewards.State()),
                                                Payout(users.View(), token, Distribution(schedules, p), resplit)))
  {
    hide WellFormed, FiledByAddress, AllDivide, CanPay, Payout;
    var endDist := GetDistributedForTokenAt(schedules, p.endTime);
    if endDist.Failure? {
      return Some(ZeroDivisionError);
    }
    var startDist := GetDistributedForTokenAt(schedules, p.startTime);
    if startDist.Failure? {
      return Some(ZeroDivisionError);
    }
    var end: int, start: int := endDist.value, startDist.value;
    if token == DIGG && !IsUint256(end - start) {
      return Some(OverflowError);
    }
    var ok := PayToken(rewards, name, users, token, end - start, unclaimed);
    return if ok then None else Some(ZeroDivisionError);
  }

  method CalcSnapshot(
    name: string, users: UserBalances, boosts: Boosts, schedules: seq<Schedule>, p: Period, nextCycle: int,
    unclaimed: Unclaimed)
    returns (r: Result<(RewardsList, Dict<Address, real>)>)
    requires users.Valid() && unclaimed.bCvx.Valid() && unclaimed.bCvxCrv.Valid()
    modifies users.Objects()
    ensures var before, resplit := old(users.View()), ResplitAmong(name, unclaimed);
            var sheet := AfterBoost(name, before, boosts);
            && (r.Success? <==>
                  && (name in NON_NATIVE_SETTS ==> before.keys == [] || Divisible(before, boosts))
                  && AllComputable(sheet, schedules, |TokensOf(schedules)|, p, resplit))
            && (r.Failure? ==>
                  r.error == ZeroDivisionError || (r.error == OverflowError && !DiggConverts(schedules, p)))
            && (r.Success? ==>
                  && r.value.0.Valid() && r.value.0.cycle == nextCycle
                  && r.value.0.State()
                     == Apply(NO_REWARDS, SnapshotCredits(sheet, schedules, |TokensOf(schedules)|, p, resplit))
                  && HoldsSettParts(r.value.0.State(), name, before, boosts, schedules, p, unclaimed)
                  && (if name in NON_NATIVE_SETTS then AreMultipliersOf(r.value.1, before, boosts, |before.keys|)
                      else r.value.1 == Empty()))
  {
    hide WellFormed, FiledByAddress, Divisible, AreMultipliersOf, Payout, AllComputable, Boosted, Increase,
         ResplitAmong, SnapshotCredits, SheetOf, HoldsSettParts, Apply, TokensOf, SheetTotal, DiggConverts;
    ghost var before := users.View();
    ViewValid(users);
    var rewards := new RewardsList(nextCycle);
    var apyBoosts: Dict<Address, real> := Empty();
    if name in NON_NATIVE_SETTS {
      apyBoosts :- ApplyBoosts(users, boosts);
    }
    var failure := PayAll(rewards, name, users, schedules, p, unclaimed);
    SnapshotAmounts(name, before, boosts, schedules, p, unclaimed);
    return if failure.None? then Success((rewards, apyBoosts)) else Failure(failure.value);
  }

  /** The payouts of every token, in the order in which the tokens are first scheduled. */
  method PayAll(
    rewards: RewardsList, name: string, users: UserBalances, schedules: seq<Schedule>, p: Period, unclaimed: Unclaimed)
    returns (failure: Option<Error>)
    requires rewards.Valid() && users.Valid() && unclaimed.bCvx.Valid() && unclaimed.bCvxCrv.Valid()
    modifies rewards
    ensures rewards.Valid()
    ensures failure in [None, Some(ZeroDivisionError), Some(OverflowError)]
    ensures failure == Some(OverflowError) ==> !DiggConverts(schedules, p)
    ensures var sheet, n, resplit := users.View(), |TokensOf(schedules)|, ResplitAmong(name, unclaimed);
            && (failure.None? <==> AllComputable(sheet, schedules, n, p, resplit))
            && (failure.None? ==>
                  rewards.State() == Apply(old(rewards.State()), SnapshotCredits(sheet, schedules, n, p, resplit)))
  {
    hide WellFormed, FiledByAddress, Payout, TokenComputable, Increase, ResplitAmong, OfToken, TokensOf, Distribution;
    ghost var start, sheet, resplit := rewards.State(), users.View(), ResplitAmong(name, unclaimed);
    var byToken := ParseSchedules(schedules);
    for i := 0 to |byToken.keys|
      invariant users.Valid() && users.View() == sheet
      invariant rewards.Valid()
      invariant AllComputable(sheet, schedules, i, p, resplit)
      invariant rewards.State() == Apply(start, SnapshotCredits(sheet, schedules, i, p, resplit))
    {
      var token := byToken.keys[i];
      byToken.HasKey(token);
      failure := PayScheduled(rewards, name, users, token, byToken.vals[token], p, unclaimed, schedules);
      if failure.Some? {
        return;
      }
      ApplyConcat(start, SnapshotCredits(sheet, schedules, i, p, resplit),
                  Payout(sheet, token, Distribution(OfToken(schedules, token), p), resplit));
    }
    return None;
  }

  // ----- conservation over all tokens -----

  predicate Only(log: seq<Credit>, token: Address) {
    forall i | 0 <= i < |log| :: log[i].token == token
  }

  lemma {:induction false} OtherTokens(log: seq<Credit>, token: Address, t: Address)
    requires Only(log, token) && t != token
    ensures CreditSum(log, t) == 0.0
  {
    if log == [] {
    } else {
      OtherTokens(log[..|log| - 1], token, t);
    }
  }

  lemma {:induction false} SplitOnly(s: Sheet, n: nat, token: Address, unit: real)
    requires n <= |s.keys|
    ensures Only(SplitCredits(s, n, token, unit), token)
  {
    if n == 0 {
    } else {
      SplitOnly(s, n - 1, token, unit);
    }
  }

  lemma {:induction false} PayoutOnly(users: Sheet, n: nat, token: Address, unit: real, resplit: Option<Sheet>)
    requires n <= |users.keys|
    ensures Only(PayoutCredits(users, n, token, unit, resplit), token)
  {
    if n == 0 {
    } else {
      PayoutOnly(users, n - 1, token, unit, resplit);
      if resplit.Some? {
        var share := Times(unit, BalanceIn(users, users.keys[n - 1]));
        SplitOnly(resplit.value, |resplit.value.keys|, token, PerUnit(share, SheetTotal(resplit.value)));
      }
    }
  }

  lemma PayoutOther(users: Sheet, token: Address, distribution: int, resplit: Option<Sheet>, t: Address)
    requires t != token
    ensures CreditSum(Payout(users, token, distribution, resplit), t) == 0.0
  {
    PayoutOnly(users, |users.keys|, token, PerUnit(distribution as real, SheetTotal(users)), resplit);
    OtherTokens(Payout(users, token, distribution, resplit), token, t);
  }

  lemma NoCredits(t: Address)
    ensures CreditSum([], t) == 0.0
  {
  }

  /** A token's credits come from its own distribution only. */
  lemma {:induction false} CreditsOfToken(
    users: Sheet, schedules: seq<Schedule>, n: nat, p: Period, resplit: Option<Sheet>, t: Address)
    requires n <= |TokensOf(schedules)|
    ensures CreditSum(SnapshotCredits(users, schedules, n, p, resplit), t)
         == if t in TokensOf(schedules)[..n]
            then CreditSum(Payout(users, t, Distribution(OfToken(schedules, t), p), resplit), t) else 0.0
  {
    hide Payout, Distribution, OfToken, TokensOf, CreditSum;
    if n == 0 {
      NoCredits(t);
    } else {
      var token := TokensOf(schedules)[n - 1];
      var log := Payout(users, token, Distribution(OfToken(schedules, token), p), resplit);
      TokensAreDistinct(schedules);
      CreditsOfToken(users, schedules, n - 1, p, resplit, t);
      CreditSumConcat(SnapshotCredits(users, schedules, n - 1, p, resplit), log, t);
      PrefixMember(TokensOf(schedules), n, t);
      if t != token {
        PayoutOther(users, token, Distribution(OfToken(schedules, token), p), resplit, t);
      }
    }
  }

  lemma {:induction false} OtherTokensOfUser(log: seq<Credit>, token: Address, u: Address, t: Address)
    requires Only(log, token) && t != token
    ensures Credited(log, u, t) == 0.0
  {
    if log == [] {
    } else {
      OtherTokensOfUser(log[..|log| - 1], token, u, t);
    }
  }

  lemma PayoutOfOther(
    users: Sheet, token: Address, distribution: int, resplit: Option<Sheet>, u: Address, t: Address)
    requires t != token
    ensures Credited(Payout(users, token, distribution, resplit), u, t) == 0.0
  {
    PayoutOnly(users, |users.keys|, token, PerUnit(distribution as real, SheetTotal(users)), resplit);
    OtherTokensOfUser(Payout(users, token, distribution, resplit), token, u, t);
  }

  lemma NothingCredited(u: Address, t: Address)
    ensures Credited([], u, t) == 0.0
  {
  }

  lemma {:induction false} CreditsOfUser(
    users: Sheet, schedules: seq<Schedule>, n: nat, p: Period, resplit: Option<Sheet>, u: Address, t: Address)
    requires n <= |TokensOf(schedules)|
    ensures Credited(SnapshotCredits(users, schedules, n, p, resplit), u, t)
         == if t in TokensOf(schedules)[..n]
            then Credited(Payout(users, t, Distribution(OfToken(schedules, t), p), resplit), u, t) else 0.0
  {
    hide Payout, Distribution, OfToken, TokensOf, Credited;
    if n == 0 {
      NothingCredited(u, t);
    } else {
      var token := TokensOf(schedules)[n - 1];
      var log := Payout(users, token, Distribution(OfToken(schedules, token), p), resplit);
      TokensAreDistinct(schedules);
      CreditsOfUser(users, schedules, n - 1, p, resplit, u, t);
      CreditedConcat(SnapshotCredits(users, schedules, n - 1, p, resplit), log, u, t);
      PrefixMember(TokensOf(schedules), n, t);
      if t != token {
        PayoutOfOther(users, token, Distribution(OfToken(schedules, token), p), resplit, u, t);
      }
    }
  }

  lemma WeightsAreBoosted(name: string, users: Sheet, boosts: Boosts)
    requires users.Valid()
    ensures AfterBoost(name, users, boosts) == Weights(name, users, boosts)
    ensures Weights(name, users, boosts).Valid()
  {
    forall a | a in users.vals ensures Times(users.vals[a], 1.0) == users.vals[a] {}
    assert AfterBoost(name, users, boosts).vals == Weights(name, users, boosts).vals;
  }

  /** Every user's credits in every token are what the sett owes them. */
  lemma SnapshotPerUser(
    name: string, users: Sheet, boosts: Boosts, schedules: seq<Schedule>, p: Period, unclaimed: Unclaimed, u: Address,
    t: Address)
    requires users.Valid() && unclaimed.bCvx.Valid() && unclaimed.bCvxCrv.Valid()
    ensures Credited(SnapshotCredits(AfterBoost(name, users, boosts), schedules, |TokensOf(schedules)|, p,
                                     ResplitAmong(name, unclaimed)), u, t)
         == SettPart(name, users, boosts, schedules, p, unclaimed, u, t) as real
  {
    hide Payout, OfToken, TokensOf, Weights, AfterBoost, Released, SharePaid, ShareOf, SheetTotal, Credited;
    WeightsAreBoosted(name, users, boosts);
    var w, n, resplit := Weights(name, users, boosts), |TokensOf(schedules)|, ResplitAmong(name, unclaimed);
    var released := Distribution(OfToken(schedules, t), p);
    CreditsOfUser(w, schedules, n, p, resplit, u, t);
    assert TokensOf(schedules)[..n] == TokensOf(schedules);
    TokensAreThoseScheduled(schedules, t);
    if released > 0 {
      if OfToken(schedules, t) == [] {
        NothingReleased(p);
      }
      PayoutPerUser(w, t, released, resplit, u);
    } else {
      NoPayout(w, t, released, resplit);
      NothingCredited(u, t);
    }
  }

  lemma NothingReleased(p: Period)
    ensures Distribution([], p) == 0
  {
  }

  /** So the list of the sett holds it. */
  lemma SnapshotAmounts(
    name: string, users: Sheet, boosts: Boosts, schedules: seq<Schedule>, p: Period, unclaimed: Unclaimed)
    requires users.Valid() && unclaimed.bCvx.Valid() && unclaimed.bCvxCrv.Valid()
    ensures var l := Apply(NO_REWARDS, SnapshotCredits(AfterBoost(name, users, boosts), schedules,
                                                       |TokensOf(schedules)|, p, ResplitAmong(name, unclaimed)));
            HoldsSettParts(l, name, users, boosts, schedules, p, unclaimed)
  {
    hide SnapshotCredits, AfterBoost, TokensOf, ResplitAmong, SettPart, Apply, Amount;
    var log := SnapshotCredits(AfterBoost(name, users, boosts), schedules, |TokensOf(schedules)|, p,
                               ResplitAmong(name, unclaimed));
    forall u, t
      ensures Amount(Apply(NO_REWARDS, log), u, t)
           == SettPart(name, users, boosts, schedules, p, unclaimed, u, t) as real
    {
      SnapshotPerUser(name, users, boosts, schedules, p, unclaimed, u, t);
      ApplyContents(NO_REWARDS, log, u, t);
      NoAmount(u, t);
    }
  }

  lemma NoAmount(u: Address, t: Address)
    ensures Amount(NO_REWARDS, u, t) == 0.0
  {
  }

  /** A period that does not run forwards pays nothing. */
  lemma {:induction false} NothingBackwards(
    users: Sheet, schedules: seq<Schedule>, n: nat, p: Period, resplit: Option<Sheet>)
    requires n <= |TokensOf(schedules)| && p.endTime <= p.startTime
    ensures SnapshotCredits(users, schedules, n, p, resplit) == []
  {
    hide OfToken, TokensOf, Released, Payout;
    if n == 0 {
    } else {
      var t := TokensOf(schedules)[n - 1];
      NothingBackwards(users, schedules, n - 1, p, resplit);
      ReleasedMonotone(OfToken(schedules, t), p.endTime, p.startTime);
      NoPayout(users, t, Distribution(OfToken(schedules, t), p), resplit);
    }
  }

  lemma NoPayout(users: Sheet, t: Address, distribution: int, resplit: Option<Sheet>)
    requires distribution <= 0
    ensures Payout(users, t, distribution, resplit) == []
  {
  }

  lemma NoTotal(t: Address)
    ensures Total(NO_REWARDS, t) == 0.0
  {
  }

  /** Everything a sett credits in a token during a period is at most what its schedules release in that period. */
  lemma SnapshotWithinRelease(
    users: Sheet, schedules: seq<Schedule>, p: Period, resplit: Option<Sheet>, t: Address)
    requires users.Valid() && NonNegative(users) && (resplit.Some? ==> NonNegative(resplit.value))
    requires p.startTime <= p.endTime
    requires AllComputable(users, schedules, |TokensOf(schedules)|, p, resplit)
    ensures var l := Apply(NO_REWARDS, SnapshotCredits(users, schedules, |TokensOf(schedules)|, p, resplit));
            Total(l, t) <= Distribution(OfToken(schedules, t), p) as real
  {
    var n, d := |TokensOf(schedules)|, Distribution(OfToken(schedules, t), p);
    hide OfToken, TokensOf, SnapshotCredits, NonNegative, Total, Apply, CreditSum, Released;
    NoTotal(t);
    NoCredits(t);
    ApplyTotal(NO_REWARDS, SnapshotCredits(users, schedules, n, p, resplit), t);
    CreditsOfToken(users, schedules, n, p, resplit, t);
    ReleasedMonotone(OfToken(schedules, t), p.startTime, p.endTime);
    assert TokensOf(schedules)[..n] == TokensOf(schedules);
    if t in TokensOf(schedules) && d > 0 {
      var i :| 0 <= i < n && TokensOf(schedules)[i] == t;
      assert TokenComputable(users, schedules, TokensOf(schedules)[i], p, resplit);
      PayoutConserves(users, t, d, resplit);
    }
  }

  lemma BoostedNonNegative(s: Sheet, boosts: Boosts)
    requires NonNegative(s) && GoodBoosts(boosts)
    ensures NonNegative(Boosted(s, boosts))
  {
  }

  /** The same for the code as it is run: whatever the boosts, and with the tree account's share split again. */
  lemma SettWithinRelease(
    name: string, before: Sheet, boosts: Boosts, schedules: seq<Schedule>, p: Period, unclaimed: Unclaimed, t: Address)
    requires before.Valid() && NonNegative(before) && GoodBoosts(boosts)
    requires NonNegative(unclaimed.bCvx) && NonNegative(unclaimed.bCvxCrv)
    requires p.startTime <= p.endTime
    requires AllComputable(AfterBoost(name, before, boosts), schedules, |TokensOf(schedules)|, p,
                           ResplitAmong(name, unclaimed))
    ensures var log := SnapshotCredits(AfterBoost(name, before, boosts), schedules, |TokensOf(schedules)|, p,
                                       ResplitAmong(name, unclaimed));
            && Consistent(Apply(NO_REWARDS, log))
            && Total(Apply(NO_REWARDS, log), t) <= Distribution(OfToken(schedules, t), p) as real
  {
    var sheet := AfterBoost(name, before, boosts);
    BoostedNonNegative(before, boosts);
    assert sheet.Valid();
    SnapshotWithinRelease(sheet, schedules, p, ResplitAmong(name, unclaimed), t);
    EmptyConsistent();
    ApplyConsistent(NO_REWARDS,
                    SnapshotCredits(sheet, schedules, |TokensOf(schedules)|, p, ResplitAmong(name, unclaimed)));
  }

  // ----- the unit of the balances -----

  lemma AfterBoostScaled(name: string, s: Sheet, k: real, boosts: Boosts)
    ensures AfterBoost(name, Scaled(s, k), boosts) == Scaled(AfterBoost(name, s, boosts), k)
  {
    if name in NON_NATIVE_SETTS {
      forall a | a in s.vals
        ensures Times(Times(k, s.vals[a]), BoostOf(boosts, a)) == Times(k, Times(s.vals[a], BoostOf(boosts, a)))
      {
        TimesRegroup(k, s.vals[a], BoostOf(boosts, a));
      }
      assert Boosted(Scaled(s, k), boosts).vals == Scaled(Boosted(s, boosts), k).vals;
    }
  }

  lemma TokenComputableUnit(
    users: Sheet, k: real, schedules: seq<Schedule>, t: Address, p: Period, resplit: Option<Sheet>)
    requires k != 0.0
    ensures TokenComputable(Scaled(users, k), schedules, t, p, resplit)
            <==> TokenComputable(users, schedules, t, p, resplit)
  {
    hide CanPay, AllDivide, Converts, Distribution;
    CanPayUnit(users, k, Distribution(OfToken(schedules, t), p), resplit);
  }

  lemma {:induction false} SnapshotUnit(
    users: Sheet, k: real, schedules: seq<Schedule>, n: nat, p: Period, resplit: Option<Sheet>)
    requires k != 0.0 && n <= |TokensOf(schedules)|
    ensures AllComputable(Scaled(users, k), schedules, n, p, resplit)
            <==> AllComputable(users, schedules, n, p, resplit)
    ensures AllComputable(users, schedules, n, p, resplit) ==>
              SnapshotCredits(Scaled(users, k), schedules, n, p, resplit)
              == SnapshotCredits(users, schedules, n, p, resplit)
  {
    hide Payout, Scaled, CanPay, AllDivide, Converts, TokensOf, OfToken, Distribution;
    if n == 0 {
    } else {
      var t := TokensOf(schedules)[n - 1];
      SnapshotUnit(users, k, schedules, n - 1, p, resplit);
      TokenComputableUnit(users, k, schedules, t, p, resplit);
      if TokenComputable(users, schedules, t, p, resplit) {
        PayoutUnit(users, k, t, Distribution(OfToken(schedules, t), p), resplit);
      }
    }
  }

  /**
   Counting all balances of a sett in another unit, as converting them to dollars does, changes none of its credits,
   with or without boosts.
   */
  lemma CreditsUnit(
    name: string, users: Sheet, k: real, boosts: Boosts, schedules: seq<Schedule>, p: Period, resplit: Option<Sheet>)
    requires k != 0.0
    requires AllComputable(AfterBoost(name, users, boosts), schedules, |TokensOf(schedules)|, p, resplit)
    ensures var n := |TokensOf(schedules)|;
            SnapshotCredits(AfterBoost(name, Scaled(users, k), boosts), schedules, n, p, resplit)
            == SnapshotCredits(AfterBoost(name, users, boosts), schedules, n, p, resplit)
  {
    hide SnapshotCredits, AllComputable, AfterBoost, TokensOf, Scaled;
    AfterBoostScaled(name, users, k, boosts);
    SnapshotUnit(AfterBoost(name, users, boosts), k, schedules, |TokensOf(schedules)|, p, resplit);
  }
}
