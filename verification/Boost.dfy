/**
 Boosts by stake ratio (assistant/rewards/boost.py:34-75, 118-187). Users with non-native balances are ranked by their
 stake ratio, highest first; the boost falls from 3 to 1 with the share of non-native balances ranked so far.
 */
module Boost {
  import opened Prelude
  import opened Dicts
  import opened Abi
  import opened Balances
  import opened Sorting
  import Multipliers

  const MAX_BOOST := 3.0

  /** What counts for a user's stake: native balances in two groups, and non-native ones. */
  datatype Stakes = Stakes(digg: Sheet, badger: Sheet, nonNative: Sheet)

  // ----- filter_dust -----

  function Keep(s: Sheet, keys: seq<Address>): seq<Address> {
    if keys == [] then []
    else Keep(s, keys[..|keys| - 1]) + if BalanceIn(s, keys[|keys| - 1]) > 1.0 then [keys[|keys| - 1]] else []
  }

  /** Balances of at most one dollar are dropped. */
  function FilterDust(s: Sheet): Sheet {
    Dict(Keep(s, s.keys), map a | a in s.vals && s.vals[a] > 1.0 :: s.vals[a])
  }

  lemma {:induction false} KeepContents(s: Sheet, keys: seq<Address>, a: Address)
    requires forall i, j | 0 <= i < j < |keys| :: keys[i] != keys[j]
    ensures a in Keep(s, keys) <==> a in keys && BalanceIn(s, a) > 1.0
    ensures forall i, j | 0 <= i < j < |Keep(s, keys)| :: Keep(s, keys)[i] != Keep(s, keys)[j]
  {
    if keys == [] {
    } else {
      var rest, last := keys[..|keys| - 1], keys[|keys| - 1];
      KeepContents(s, rest, a);
      KeepContents(s, rest, last);
      assert a in keys <==> a in rest || a == last;
    }
  }

  /** Exactly the users with more than one dollar remain, with their balances. */
  lemma FilterDustContents(s: Sheet, a: Address)
    requires s.Valid()
    ensures FilterDust(s).Valid()
    ensures a in FilterDust(s).vals <==> BalanceIn(s, a) > 1.0
    ensures BalanceIn(FilterDust(s), a) == if BalanceIn(s, a) > 1.0 then BalanceIn(s, a) else 0.0
  {
    var f := FilterDust(s);
    forall b ensures b in f.keys <==> b in f.vals {
      KeepContents(s, s.keys, b);
      s.HasKey(b);
    }
    KeepContents(s, s.keys, a);
    assert (set k | k in f.keys) == f.vals.Keys;
  }

  // ----- stake ratios -----

  function StakeRatio(st: Stakes, a: Address): real {
    if BalanceIn(st.nonNative, a) == 0.0 then 0.0
    else Quotient(BalanceIn(st.digg, a) + BalanceIn(st.badger, a), BalanceIn(st.nonNative, a))
  }

  /** Higher ratios first; equal ratios in the order of the balances. */
  function Ranking(st: Stakes): seq<Address> {
    SortedBy(st.nonNative.keys, a => -StakeRatio(st, a))
  }

  ghost predicate GoodStakes(st: Stakes) {
    && st.nonNative.Valid()
    && (forall a | a in st.nonNative.vals :: st.nonNative.vals[a] > 1.0)
    && (forall a | a in st.digg.vals :: st.digg.vals[a] > 1.0)
    && (forall a | a in st.badger.vals :: st.badger.vals[a] > 1.0)
  }

  lemma RankingPermutes(st: Stakes)
    ensures multiset(Ranking(st)) == multiset(st.nonNative.keys)
  {
    SortedByContents(st.nonNative.keys, a => -StakeRatio(st, a));
  }

  lemma RankingContents(st: Stakes)
    requires st.nonNative.Valid()
    ensures |Ranking(st)| == |st.nonNative.keys|
    ensures forall a :: a in Ranking(st) <==> a in st.nonNative.vals
    ensures forall i, j | 0 <= i < j < |Ranking(st)| :: Ranking(st)[i] != Ranking(st)[j]
    ensures forall i, j | 0 <= i < j < |Ranking(st)| :: StakeRatio(st, Ranking(st)[i]) >= StakeRatio(st, Ranking(st)[j])
  {
    var keys, key, r := st.nonNative.keys, (a: Address) => -StakeRatio(st, a), Ranking(st);
    SortedByContents(keys, key);
    forall a ensures a in r <==> a in st.nonNative.vals {
      st.nonNative.HasKey(a);
      assert a in r <==> a in multiset(r);
      assert a in keys <==> a in multiset(keys);
    }
    DistinctPermutation(keys, r);
    forall i, j | 0 <= i < j < |r| ensures StakeRatio(st, r[i]) >= StakeRatio(st, r[j]) {
      assert key(r[i]) <= key(r[j]);
    }
  }

  lemma DistinctPermutation(a: seq<Address>, b: seq<Address>)
    requires multiset(a) == multiset(b)
    requires forall i, j | 0 <= i < j < |a| :: a[i] != a[j]
    ensures forall i, j | 0 <= i < j < |b| :: b[i] != b[j]
  {
    forall i, j | 0 <= i < j < |b| ensures b[i] != b[j] {
      if b[i] == b[j] {
        TwiceInMultiset(b, i, j);
        OnceInMultiset(a, b[i]);
      }
    }
  }

  lemma TwiceInMultiset(s: seq<Address>, i: nat, j: nat)
    requires i < j < |s| && s[i] == s[j]
    ensures multiset(s)[s[i]] >= 2
  {
    assert s == s[..j] + [s[j]] + s[j + 1..];
    assert s[i] in multiset(s[..j]) by {
      assert s[..j][i] == s[i];
    }
  }

  lemma {:induction false} OnceInMultiset(s: seq<Address>, x: Address)
    requires forall i, j | 0 <= i < j < |s| :: s[i] != s[j]
    ensures multiset(s)[x] <= 1
  {
    if s == [] {
    } else {
      var rest, last := s[..|s| - 1], s[|s| - 1];
      assert s == rest + [last];
      OnceInMultiset(rest, x);
      if x == last {
        assert last !in rest;
        assert last !in multiset(rest);
      }
    }
  }

  // ----- cumulative shares and boosts -----

  method CalcCumulative(l: seq<real>) returns (result: seq<real>)
    ensures |result| == |l|
    ensures forall i | 0 <= i < |l| :: result[i] == SumTo(l, i + 1)
  {
    result := [];
    var cumulative := 0.0;
    for i := 0 to |l|
      invariant |result| == i && cumulative == SumTo(l, i)
      invariant forall j | 0 <= j < i :: result[j] == SumTo(l, j + 1)
    {
      cumulative := cumulative + l[i];
      result := result + [cumulative];
    }
  }

  /** The sum of the first `n` values. */
  function SumTo(l: seq<real>, n: nat): real
    requires n <= |l|
  {
    if n == 0 then 0.0 else SumTo(l, n - 1) + l[n - 1]
  }

  function BoostAt(p: real): real {
    var boost := MAX_BOOST - p * (MAX_BOOST - 1.0);
    if boost < 1.0 then 1.0 else boost
  }

  method CalcBoost(percentages: seq<real>) returns (boosts: seq<real>)
    ensures |boosts| == |percentages|
    ensures forall i | 0 <= i < |percentages| :: boosts[i] == BoostAt(percentages[i])
  {
    boosts := [];
    for i := 0 to |percentages|
      invariant |boosts| == i
      invariant forall j | 0 <= j < i :: boosts[j] == BoostAt(percentages[j])
    {
      var boost := MAX_BOOST - percentages[i] * (MAX_BOOST - 1.0);
      if boost < 1.0 {
        boost := 1.0;
      }
      boosts := boosts + [boost];
    }
  }

  /** The part of all non-native balances held by the first `n` users of the ranking. */
  function RankedShare(st: Stakes, n: nat): real
    requires n <= |Ranking(st)| && SheetTotal(st.nonNative) != 0.0
  {
    if n == 0 then 0.0
    else RankedShare(st, n - 1) + Quotient(BalanceIn(st.nonNative, Ranking(st)[n - 1]), SheetTotal(st.nonNative))
  }

  /** The boost of the user at rank `i`. */
  function RankBoost(st: Stakes, i: nat): real
    requires i < |Ranking(st)| && SheetTotal(st.nonNative) != 0.0
  {
    if StakeRatio(st, Ranking(st)[i]) == 0.0 then 1.0 else BoostAt(RankedShare(st, i + 1))
  }

  ghost predicate IsBoosts(st: Stakes, boosts: Dict<Address, real>, n: nat)
    requires n <= |Ranking(st)|
  {
    && boosts.Valid() && boosts.keys == Ranking(st)[..n]
    && (n > 0 ==> SheetTotal(st.nonNative) != 0.0)
    && forall i | 0 <= i < n :: Ranking(st)[i] in boosts.vals && boosts.vals[Ranking(st)[i]] == RankBoost(st, i)
  }

  /** The boosts of the first `n` users of the ranking. */
  ghost function RankedBoosts(st: Stakes, n: nat): (boosts: Dict<Address, real>)
    requires GoodStakes(st) && n <= |Ranking(st)|
  {
    if n == 0 then Empty()
    else
      TotalNotZero(st);
      RankedBoosts(st, n - 1).Put(Ranking(st)[n - 1], RankBoost(st, n - 1))
  }

  ghost function BoostsOf(st: Stakes): Dict<Address, real>
    requires GoodStakes(st)
  {
    RankedBoosts(st, |Ranking(st)|)
  }

  /** Everyone who is ranked gets the boost of their rank, and nobody else gets any. */
  lemma {:induction false} RankedBoostsAre(st: Stakes, n: nat)
    requires GoodStakes(st) && n <= |Ranking(st)|
    ensures IsBoosts(st, RankedBoosts(st, n), n)
  {
    if n == 0 {
      assert Ranking(st)[..0] == [];
    } else {
      RankedBoostsAre(st, n - 1);
      TotalNotZero(st);
      BoostsStep(st, RankedBoosts(st, n - 1), n - 1);
    }
  }

  /** Every ranked user's part of all non-native balances. */
  method Percentages(st: Stakes, ranking: seq<Address>) returns (percentages: seq<real>)
    requires ranking != [] ==> SheetTotal(st.nonNative) != 0.0
    ensures |percentages| == |ranking|
    ensures forall i | 0 <= i < |ranking| ::
              && SheetTotal(st.nonNative) != 0.0
              && percentages[i] == Quotient(BalanceIn(st.nonNative, ranking[i]), SheetTotal(st.nonNative))
  {
    hide SheetTotal, BalanceIn, Quotient;
    var total := SheetTotal(st.nonNative);
    percentages := [];
    for i := 0 to |ranking|
      invariant |percentages| == i
      invariant forall j | 0 <= j < i :: percentages[j] == Quotient(BalanceIn(st.nonNative, ranking[j]), total)
    {
      percentages := percentages + [Quotient(BalanceIn(st.nonNative, ranking[i]), total)];
    }
  }

  method BadgerBoost(st: Stakes) returns (boosts: Dict<Address, real>)
    requires GoodStakes(st)
    ensures boosts == BoostsOf(st)
    ensures IsBoosts(st, boosts, |Ranking(st)|)
    ensures FollowStakes(boosts.vals, st)
  {
    hide Ranking, StakeRatio, SheetTotal, IsBoosts, BoostAt, Quotient, BalanceIn, GoodStakes, FollowStakes;
    TotalNotZero(st);
    AllFollowStakes(st);
    var ranking := Ranking(st);
    var percentages := Percentages(st, ranking);
    var cumulative := CalcCumulative(percentages);
    var ranked := CalcBoost(cumulative);
    boosts := Empty();
    for i := 0 to |ranking|
      invariant boosts == RankedBoosts(st, i)
    {
      SameShares(st, percentages, i + 1);
      var boost := if StakeRatio(st, ranking[i]) == 0.0 then 1.0 else ranked[i];
      boosts := boosts.Put(ranking[i], boost);
    }
    RankedBoostsAre(st, |ranking|);
  }

  lemma BoostsStep(st: Stakes, boosts: Dict<Address, real>, i: nat)
    requires i < |Ranking(st)| && SheetTotal(st.nonNative) != 0.0 && IsBoosts(st, boosts, i)
    requires st.nonNative.Valid()
    ensures IsBoosts(st, boosts.Put(Ranking(st)[i], RankBoost(st, i)), i + 1)
  {
    RankingContents(st);
    boosts.PutNext(Ranking(st), i, RankBoost(st, i));
  }

  lemma {:induction false} SameShares(st: Stakes, percentages: seq<real>, n: nat)
    requires n <= |percentages| == |Ranking(st)| && SheetTotal(st.nonNative) != 0.0
    requires forall j | 0 <= j < |percentages| ::
               percentages[j] == Quotient(BalanceIn(st.nonNative, Ranking(st)[j]), SheetTotal(st.nonNative))
    ensures SumTo(percentages, n) == RankedShare(st, n)
  {
    if n == 0 {
    } else {
      SameShares(st, percentages, n - 1);
    }
  }

  // ----- what the ranking promises -----

  lemma {:induction false} SumPositive(s: Sheet, n: nat)
    requires s.Valid() && n <= |s.keys| && forall a | a in s.vals :: s.vals[a] > 1.0
    ensures n > 0 ==> SumOver(s, s.keys[..n]) > 0.0
  {
    if n == 0 {
    } else {
      SumPositive(s, n - 1);
      s.HasKey(s.keys[n - 1]);
      assert s.keys[..n][..n - 1] == s.keys[..n - 1];
    }
  }

  lemma TotalNotZero(st: Stakes)
    requires GoodStakes(st)
    ensures Ranking(st) != [] ==> SheetTotal(st.nonNative) > 0.0
  {
    RankingContents(st);
    SumPositive(st.nonNative, |st.nonNative.keys|);
    assert st.nonNative.keys[..|st.nonNative.keys|] == st.nonNative.keys;
  }

  lemma {:induction false} SumOverConcat(s: Sheet, a: seq<Address>, b: seq<Address>)
    ensures SumOver(s, a + b) == SumOver(s, a) + SumOver(s, b)
    decreases |b|
  {
    if b == [] {
      assert a + b == a;
    } else {
      SumOverConcat(s, a, b[..|b| - 1]);
      SplitLast(a, b);
    }
  }

  lemma SumOverRemove(s: Sheet, keys: seq<Address>, i: nat)
    requires i < |keys|
    ensures SumOver(s, keys) == SumOver(s, keys[..i] + keys[i + 1..]) + BalanceIn(s, keys[i])
  {
    var before, after := keys[..i], keys[i + 1..];
    assert keys == (before + [keys[i]]) + after;
    SumOverConcat(s, before + [keys[i]], after);
    SumOverConcat(s, before, after);
    assert (before + [keys[i]])[..i] == before;
  }

  /** A sum of balances does not depend on the order of the users. */
  lemma {:induction false} SumOverPermutation(s: Sheet, a: seq<Address>, b: seq<Address>)
    requires multiset(a) == multiset(b)
    ensures SumOver(s, a) == SumOver(s, b)
    decreases |a|
  {
    if a == [] {
      assert |multiset(b)| == 0;
    } else {
      var c := a[|a| - 1];
      assert a == a[..|a| - 1] + [c];
      assert c in multiset(b);
      var i :| 0 <= i < |b| && b[i] == c;
      var rest := b[..i] + b[i + 1..];
      assert b == b[..i] + [c] + b[i + 1..];
      assert multiset(b) == multiset(rest) + multiset{c};
      MultisetCancel(multiset(a[..|a| - 1]), multiset(rest), multiset{c});
      SumOverPermutation(s, a[..|a| - 1], rest);
      SumOverRemove(s, b, i);
    }
  }

  lemma {:induction false} RankedShareSum(st: Stakes, n: nat)
    requires n <= |Ranking(st)| && SheetTotal(st.nonNative) != 0.0
    ensures RankedShare(st, n) == Quotient(SumOver(st.nonNative, Ranking(st)[..n]), SheetTotal(st.nonNative))
  {
    if n == 0 {
    } else {
      RankedShareSum(st, n - 1);
      assert Ranking(st)[..n][..n - 1] == Ranking(st)[..n - 1];
      Multipliers.QuotientSum(SumOver(st.nonNative, Ranking(st)[..n - 1]), BalanceIn(st.nonNative, Ranking(st)[n - 1]),
                              SheetTotal(st.nonNative));
    }
  }

  /** The shares of all ranked users add up to exactly one. */
  lemma AllRanked(st: Stakes)
    requires SheetTotal(st.nonNative) != 0.0
    ensures RankedShare(st, |Ranking(st)|) == 1.0
  {
    var r := Ranking(st);
    RankingPermutes(st);
    SumOverPermutation(st.nonNative, r, st.nonNative.keys);
    RankedShareSum(st, |r|);
    assert r[..|r|] == r;
    Multipliers.QuotientSelf(SheetTotal(st.nonNative));
  }

  lemma NextShareIncreases(st: Stakes, i: nat)
    requires GoodStakes(st) && i < |Ranking(st)|
    ensures SheetTotal(st.nonNative) > 0.0
    ensures RankedShare(st, i) < RankedShare(st, i + 1)
  {
    var a := Ranking(st)[i];
    TotalNotZero(st);
    RankingContents(st);
    assert a in Ranking(st);
    assert BalanceIn(st.nonNative, a) > 1.0;
    hide Ranking, SheetTotal, BalanceIn, GoodStakes;
    Multipliers.PartPositive(BalanceIn(st.nonNative, a), SheetTotal(st.nonNative));
  }

  /** Prefix shares increase strictly along the ranking, from above zero to one. */
  lemma {:induction false} RankedShareIncreases(st: Stakes, i: nat, j: nat)
    requires GoodStakes(st) && i < j <= |Ranking(st)|
    ensures SheetTotal(st.nonNative) > 0.0
    ensures 0.0 <= RankedShare(st, i) < RankedShare(st, j)
    decreases j
  {
    hide Ranking, SheetTotal, BalanceIn, GoodStakes, Quotient;
    NextShareIncreases(st, j - 1);
    if i < j - 1 {
      RankedShareIncreases(st, i, j - 1);
    } else if i > 0 {
      RankedShareIncreases(st, 0, i);
    }
  }

  lemma RankedShareBelowOne(st: Stakes, i: nat)
    requires GoodStakes(st) && i < |Ranking(st)|
    ensures SheetTotal(st.nonNative) > 0.0
    ensures 0.0 < RankedShare(st, i + 1) <= 1.0
    ensures i + 1 < |Ranking(st)| ==> RankedShare(st, i + 1) < 1.0
  {
    RankedShareIncreases(st, 0, i + 1);
    AllRanked(st);
    if i + 1 < |Ranking(st)| {
      RankedShareIncreases(st, i + 1, |Ranking(st)|);
    }
  }

  lemma RatioNonNegative(st: Stakes, a: Address)
    requires GoodStakes(st)
    ensures StakeRatio(st, a) >= 0.0
  {
  }

  /** Every boost is at least 1 and below 3; without a stake, and at the last rank, it is exactly 1. */
  lemma BoostRange(st: Stakes, i: nat)
    requires GoodStakes(st) && i < |Ranking(st)|
    ensures SheetTotal(st.nonNative) > 0.0
    ensures 1.0 <= RankBoost(st, i) < 3.0
    ensures StakeRatio(st, Ranking(st)[i]) == 0.0 || i == |Ranking(st)| - 1 ==> RankBoost(st, i) == 1.0
    ensures StakeRatio(st, Ranking(st)[i]) != 0.0 ==> RankBoost(st, i) == 3.0 - 2.0 * RankedShare(st, i + 1)
  {
    RankedShareBelowOne(st, i);
    AllRanked(st);
  }

  lemma HigherRatioFirst(st: Stakes, i: nat, j: nat)
    requires st.nonNative.Valid() && i < |Ranking(st)| && j < |Ranking(st)|
    requires StakeRatio(st, Ranking(st)[i]) > StakeRatio(st, Ranking(st)[j])
    ensures i < j
  {
    RankingContents(st);
    hide Ranking, StakeRatio;
  }

  /** A strictly higher stake ratio earns a strictly higher boost. */
  lemma HigherRatioHigherBoost(st: Stakes, i: nat, j: nat)
    requires GoodStakes(st) && i < |Ranking(st)| && j < |Ranking(st)|
    requires StakeRatio(st, Ranking(st)[i]) > StakeRatio(st, Ranking(st)[j])
    ensures SheetTotal(st.nonNative) > 0.0
    ensures i < j && RankBoost(st, i) > RankBoost(st, j)
  {
    HigherRatioFirst(st, i, j);
    hide Ranking, StakeRatio, SheetTotal, RankBoost, RankedShare, GoodStakes;
    RatioNonNegative(st, Ranking(st)[j]);
    BoostRange(st, i);
    BoostRange(st, j);
    RankedShareIncreases(st, i + 1, j + 1);
    RankedShareBelowOne(st, i);
  }

  /** Of two users with equal non-native balances, the one with more native stake gets the higher boost. */
  lemma MoreStakeHigherBoost(st: Stakes, i: nat, j: nat)
    requires GoodStakes(st) && i < |Ranking(st)| && j < |Ranking(st)|
    requires BalanceIn(st.nonNative, Ranking(st)[i]) == BalanceIn(st.nonNative, Ranking(st)[j])
    requires BalanceIn(st.digg, Ranking(st)[i]) + BalanceIn(st.badger, Ranking(st)[i])
             > BalanceIn(st.digg, Ranking(st)[j]) + BalanceIn(st.badger, Ranking(st)[j])
    ensures SheetTotal(st.nonNative) > 0.0
    ensures RankBoost(st, i) > RankBoost(st, j)
  {
    var a, b := Ranking(st)[i], Ranking(st)[j];
    RankingContents(st);
    assert a in Ranking(st);
    var x, y := BalanceIn(st.digg, a) + BalanceIn(st.badger, a), BalanceIn(st.digg, b) + BalanceIn(st.badger, b);
    var z := BalanceIn(st.nonNative, a);
    Multipliers.QuotientSum(x - y, y, z);
    Multipliers.PartPositive(x - y, z);
    HigherRatioHigherBoost(st, i, j);
  }

  /** So the boosts handed to the setts lie in [1, 3], as the multipliers need. */
  lemma BoostsAreGood(st: Stakes)
    requires GoodStakes(st)
    ensures Multipliers.GoodBoosts(BoostsOf(st).vals)
  {
    var boosts := BoostsOf(st);
    RankedBoostsAre(st, |Ranking(st)|);
    forall a | a in boosts.vals ensures 1.0 <= boosts.vals[a] <= 3.0 {
      boosts.HasKey(a);
      assert Ranking(st)[..|Ranking(st)|] == Ranking(st);
      var i :| 0 <= i < |Ranking(st)| && Ranking(st)[i] == a;
      BoostRange(st, i);
    }
  }

  // ----- what a boost means -----

  /** The balances of the users whose ratio is at least `r`. */
  function AtLeast(st: Stakes, r: real): Sheet {
    Dict(st.nonNative.keys, map a | a in st.nonNative.vals && StakeRatio(st, a) >= r :: st.nonNative.vals[a])
  }

  /** The balances of the users whose ratio is above `r`. */
  function Above(st: Stakes, r: real): Sheet {
    Dict(st.nonNative.keys, map a | a in st.nonNative.vals && StakeRatio(st, a) > r :: st.nonNative.vals[a])
  }

  lemma RatiosAround(st: Stakes, i: nat, k: nat)
    requires GoodStakes(st) && i < |Ranking(st)| && k < |Ranking(st)|
    ensures var a, r := Ranking(st)[k], StakeRatio(st, Ranking(st)[i]);
            && 0.0 <= BalanceIn(Above(st, r), a) <= BalanceIn(AtLeast(st, r), a) <= BalanceIn(st.nonNative, a)
            && (k <= i ==> BalanceIn(AtLeast(st, r), a) == BalanceIn(st.nonNative, a))
            && (k >= i ==> BalanceIn(Above(st, r), a) == 0.0)
  {
    RankingContents(st);
    hide Ranking;
    var x, y := StakeRatio(st, Ranking(st)[k]), StakeRatio(st, Ranking(st)[i]);
    assert Ranking(st)[k] in Ranking(st);
    assert k < i ==> x >= y;
    assert k > i ==> x <= y;
  }

  lemma {:induction false} RankedAround(st: Stakes, i: nat, n: nat)
    requires GoodStakes(st) && i < |Ranking(st)| && n <= |Ranking(st)|
    ensures var r, ranking := StakeRatio(st, Ranking(st)[i]), Ranking(st);
            && SumOver(AtLeast(st, r), ranking[..n]) >= SumOver(st.nonNative, ranking[..if n <= i then n else i + 1])
            && SumOver(Above(st, r), ranking[..n]) <= SumOver(st.nonNative, ranking[..if n <= i then n else i])
  {
    hide Ranking, StakeRatio, AtLeast, Above, BalanceIn, GoodStakes;
    if n == 0 {
    } else {
      var ranking, k := Ranking(st), n - 1;
      assert ranking[..n][..k] == ranking[..k];
      RankedAround(st, i, k);
      RatiosAround(st, i, k);
    }
  }

  lemma DividedOrder(x: real, y: real, total: real)
    requires total > 0.0 && x <= y
    ensures Quotient(x, total) <= Quotient(y, total)
  {
  }

  /**
   Also among users with equal ratios: a boost lies between 3 less twice the share of those with at least that ratio
   and 3 less twice the share of those with a higher one, and strictly below the latter.
   */
  lemma BoostBetween(st: Stakes, i: nat)
    requires GoodStakes(st) && i < |Ranking(st)| && StakeRatio(st, Ranking(st)[i]) != 0.0
    ensures SheetTotal(st.nonNative) > 0.0
    ensures var r := StakeRatio(st, Ranking(st)[i]);
            3.0 - 2.0 * Quotient(SheetTotal(AtLeast(st, r)), SheetTotal(st.nonNative)) <= RankBoost(st, i)
            < 3.0 - 2.0 * Quotient(SheetTotal(Above(st, r)), SheetTotal(st.nonNative))
  {
    hide Ranking, NoTie, StakeRatio, SumOver, RankBoost, RankedShare, Quotient;
    var ranking, r := Ranking(st), StakeRatio(st, Ranking(st)[i]);
    BoostRange(st, i);
    RankedAround(st, i, |ranking|);
    assert ranking[..|ranking|] == ranking;
    RankingPermutes(st);
    SumOverPermutation(AtLeast(st, r), ranking, st.nonNative.keys);
    SumOverPermutation(Above(st, r), ranking, st.nonNative.keys);
    RankedShareSum(st, i);
    RankedShareSum(st, i + 1);
    NextShareIncreases(st, i);
    var total := SheetTotal(st.nonNative);
    DividedOrder(SumOver(st.nonNative, ranking[..i + 1]), SheetTotal(AtLeast(st, r)), total);
    DividedOrder(SheetTotal(Above(st, r)), SumOver(st.nonNative, ranking[..i]), total);
  }

  /** User `i` of the ranking has the same ratio as nobody else. */
  ghost predicate NoTie(st: Stakes, i: nat)
    requires i < |Ranking(st)|
  {
    forall j | 0 <= j < |Ranking(st)| && j != i :: StakeRatio(st, Ranking(st)[j]) != StakeRatio(st, Ranking(st)[i])
  }

  /** Of the ranked users, those up to rank `i` have at least its ratio. */
  lemma AtLeastAt(st: Stakes, i: nat, k: nat)
    requires st.nonNative.Valid() && i < |Ranking(st)| && k < |Ranking(st)| && NoTie(st, i)
    ensures BalanceIn(AtLeast(st, StakeRatio(st, Ranking(st)[i])), Ranking(st)[k])
         == if k <= i then BalanceIn(st.nonNative, Ranking(st)[k]) else 0.0
  {
    RankingContents(st);
    var x, y := StakeRatio(st, Ranking(st)[k]), StakeRatio(st, Ranking(st)[i]);
    assert Ranking(st)[k] in Ranking(st);
    assert k < i ==> x >= y;
    assert k > i ==> x <= y && x != y;
  }

  lemma {:induction false} RankedAtLeast(st: Stakes, i: nat, n: nat)
    requires st.nonNative.Valid() && i < |Ranking(st)| && n <= |Ranking(st)| && NoTie(st, i)
    ensures SumOver(AtLeast(st, StakeRatio(st, Ranking(st)[i])), Ranking(st)[..n])
         == SumOver(st.nonNative, Ranking(st)[..if n <= i then n else i + 1])
  {
    if n == 0 {
    } else {
      var r, k := Ranking(st), n - 1;
      assert r[..n][..k] == r[..k];
      RankedAtLeast(st, i, k);
      AtLeastAt(st, i, k);
      if k <= i {
        assert r[..k + 1][..k] == r[..k];
      }
    }
  }

  /**
   The boost does not depend on the order in which users are stored: without a tie it is 3 less twice the share of all
   non-native balances held by users with at least the same stake ratio.
   */
  lemma BoostMeaning(st: Stakes, i: nat)
    requires GoodStakes(st) && i < |Ranking(st)| && NoTie(st, i)
    requires StakeRatio(st, Ranking(st)[i]) != 0.0
    ensures SheetTotal(st.nonNative) > 0.0
    ensures RankBoost(st, i)
         == 3.0 - 2.0 * Quotient(SheetTotal(AtLeast(st, StakeRatio(st, Ranking(st)[i]))), SheetTotal(st.nonNative))
  {
    hide Ranking, NoTie, StakeRatio, SumOver, RankBoost, RankedShare, Quotient;
    var r := Ranking(st);
    var s := AtLeast(st, StakeRatio(st, r[i]));
    BoostRange(st, i);
    RankedAtLeast(st, i, |r|);
    assert r[..|r|] == r;
    RankingPermutes(st);
    SumOverPermutation(s, r, st.nonNative.keys);
    RankedShareSum(st, i + 1);
  }

  // ----- boosts by stakes and balances -----

  lemma RankOf(st: Stakes, a: Address) returns (i: nat)
    requires GoodStakes(st) && a in st.nonNative.vals
    ensures i < |Ranking(st)| && Ranking(st)[i] == a && SheetTotal(st.nonNative) > 0.0
    ensures a in BoostsOf(st).vals && BoostsOf(st).vals[a] == RankBoost(st, i)
  {
    RankingContents(st);
    TotalNotZero(st);
    i :| 0 <= i < |Ranking(st)| && Ranking(st)[i] == a;
    RankedBoostsAre(st, |Ranking(st)|);
  }

  /** Comparing quotients without dividing. */
  lemma CrossProducts(x: real, p: real, y: real, q: real)
    requires p > 0.0 && q > 0.0
    ensures Quotient(x, p) > Quotient(y, q) <==> Times(x, q) > Times(y, p)
    ensures Quotient(x, p) >= Quotient(y, q) <==> Times(x, q) >= Times(y, p)
    ensures Quotient(x, p) == 0.0 <==> x == 0.0
  {
    var r, r' := Quotient(x, p), Quotient(y, q);
    Multipliers.QuotientTimes(x, p);
    Multipliers.QuotientTimes(y, q);
    var pq := Times(p, q);
    Multipliers.TimesRegroup(r, p, q);
    Multipliers.TimesRegroup(r', q, p);
    assert Times(x, q) == Times(r, pq) && Times(y, p) == Times(r', pq);
    Multipliers.TimesOrder(r, r', pq);
    Multipliers.TimesOrder(r', r, pq);
  }

  lemma RatiosCompare(st: Stakes, a: Address, b: Address)
    requires GoodStakes(st) && a in st.nonNative.vals && b in st.nonNative.vals
    ensures var x := BalanceIn(st.digg, a) + BalanceIn(st.badger, a);
            var y := BalanceIn(st.digg, b) + BalanceIn(st.badger, b);
            var p, q := st.nonNative.vals[a], st.nonNative.vals[b];
            && (StakeRatio(st, a) > StakeRatio(st, b) <==> Times(x, q) > Times(y, p))
            && (StakeRatio(st, a) >= StakeRatio(st, b) <==> Times(x, q) >= Times(y, p))
            && (StakeRatio(st, a) == 0.0 <==> x == 0.0)
  {
    var x, y := BalanceIn(st.digg, a) + BalanceIn(st.badger, a), BalanceIn(st.digg, b) + BalanceIn(st.badger, b);
    CrossProducts(x, st.nonNative.vals[a], y, st.nonNative.vals[b]);
  }

  /**
   Of two users the one with more native stake per non-native balance gets the higher boost, and without native stake
   the boost is exactly 1.
   */
  lemma BoostsByStakes(st: Stakes, a: Address, b: Address)
    requires GoodStakes(st) && a in st.nonNative.vals && b in st.nonNative.vals
    ensures a in BoostsOf(st).vals && b in BoostsOf(st).vals
    ensures var x := BalanceIn(st.digg, a) + BalanceIn(st.badger, a);
            var y := BalanceIn(st.digg, b) + BalanceIn(st.badger, b);
            && (x * st.nonNative.vals[b] > y * st.nonNative.vals[a] ==> BoostsOf(st).vals[a] > BoostsOf(st).vals[b])
            && (x == 0.0 ==> BoostsOf(st).vals[a] == 1.0)
  {
    RatiosCompare(st, a, b);
    var i := RankOf(st, a);
    var j := RankOf(st, b);
    BoostRange(st, i);
    if StakeRatio(st, a) > StakeRatio(st, b) {
      HigherRatioHigherBoost(st, i, j);
    }
  }

  /** More native stake per non-native balance earns a higher boost, and no stake a boost of exactly 1. */
  ghost predicate FollowStakesAt(boosts: Multipliers.Boosts, st: Stakes, a: Address, b: Address)
    requires a in boosts && b in boosts
  {
    var x, y := BalanceIn(st.digg, a) + BalanceIn(st.badger, a), BalanceIn(st.digg, b) + BalanceIn(st.badger, b);
    && (x * BalanceIn(st.nonNative, b) > y * BalanceIn(st.nonNative, a) ==> boosts[a] > boosts[b])
    && (x == 0.0 ==> boosts[a] == 1.0)
  }

  ghost predicate FollowStakes(boosts: Multipliers.Boosts, st: Stakes) {
    && (forall a :: a in boosts <==> a in st.nonNative.vals)
    && forall a, b | a in boosts && b in boosts :: FollowStakesAt(boosts, st, a, b)
  }

  lemma PairFollows(st: Stakes, a: Address, b: Address)
    requires GoodStakes(st) && a in st.nonNative.vals && b in st.nonNative.vals
    ensures a in BoostsOf(st).vals && b in BoostsOf(st).vals && FollowStakesAt(BoostsOf(st).vals, st, a, b)
  {
    hide BoostsOf, GoodStakes;
    BoostsByStakes(st, a, b);
  }

  lemma AllFollowStakes(st: Stakes)
    requires GoodStakes(st)
    ensures FollowStakes(BoostsOf(st).vals, st)
  {
    hide BoostsOf, GoodStakes, FollowStakesAt;
    var boosts := BoostsOf(st).vals;
    forall a ensures a in boosts <==> a in st.nonNative.vals {
      OnlyRankedBoosted(st, a);
    }
    forall a, b | a in boosts && b in boosts ensures FollowStakesAt(boosts, st, a, b) {
      PairFollows(st, a, b);
    }
  }

  /** The balances of those who have at least as much stake per balance as user `a`; and of those who have more. */
  function AsHigh(st: Stakes, a: Address): Sheet {
    Dict(st.nonNative.keys, map b | b in st.nonNative.vals
      && Times(BalanceIn(st.digg, b) + BalanceIn(st.badger, b), BalanceIn(st.nonNative, a))
         >= Times(BalanceIn(st.digg, a) + BalanceIn(st.badger, a), BalanceIn(st.nonNative, b)) :: st.nonNative.vals[b])
  }

  function Higher(st: Stakes, a: Address): Sheet {
    Dict(st.nonNative.keys, map b | b in st.nonNative.vals
      && Times(BalanceIn(st.digg, b) + BalanceIn(st.badger, b), BalanceIn(st.nonNative, a))
         > Times(BalanceIn(st.digg, a) + BalanceIn(st.badger, a), BalanceIn(st.nonNative, b)) :: st.nonNative.vals[b])
  }

  lemma SameAround(st: Stakes, a: Address)
    requires GoodStakes(st) && a in st.nonNative.vals
    ensures AsHigh(st, a) == AtLeast(st, StakeRatio(st, a)) && Higher(st, a) == Above(st, StakeRatio(st, a))
  {
    hide StakeRatio, Times;
    forall b | b in st.nonNative.vals
      ensures b in AsHigh(st, a).vals <==> b in AtLeast(st, StakeRatio(st, a)).vals
      ensures b in Higher(st, a).vals <==> b in Above(st, StakeRatio(st, a)).vals
    {
      RatiosCompare(st, b, a);
    }
    assert AsHigh(st, a).vals == AtLeast(st, StakeRatio(st, a)).vals;
    assert Higher(st, a).vals == Above(st, StakeRatio(st, a)).vals;
  }

  /**
   The boost of a user with native stake lies between 3 less twice the share of all balances held by those with at least
   as much stake per balance, and 3 less twice the share of those with more. When nobody else has just as much, it is
   the former.
   */
  lemma BoostsByShares(st: Stakes, a: Address)
    requires GoodStakes(st) && a in st.nonNative.vals && BalanceIn(st.digg, a) + BalanceIn(st.badger, a) != 0.0
    ensures a in BoostsOf(st).vals && SheetTotal(st.nonNative) > 0.0
    ensures var low := 3.0 - 2.0 * Quotient(SheetTotal(AsHigh(st, a)), SheetTotal(st.nonNative));
            var high := 3.0 - 2.0 * Quotient(SheetTotal(Higher(st, a)), SheetTotal(st.nonNative));
            && low <= BoostsOf(st).vals[a] < high
            && ((forall b | b in AsHigh(st, a).vals && b != a :: b in Higher(st, a).vals) ==>
                  BoostsOf(st).vals[a] == low)
  {
    RatiosCompare(st, a, a);
    SameAround(st, a);
    var i := RankOf(st, a);
    BoostBetween(st, i);
    if forall b | b in AsHigh(st, a).vals && b != a :: b in Higher(st, a).vals {
      OnlyAtRatio(st, i);
      BoostMeaning(st, i);
    }
  }

  lemma OnlyAtRatio(st: Stakes, i: nat)
    requires GoodStakes(st) && i < |Ranking(st)|
    requires var r := StakeRatio(st, Ranking(st)[i]);
             forall b | b in AtLeast(st, r).vals && b != Ranking(st)[i] :: b in Above(st, r).vals
    ensures NoTie(st, i)
  {
    RankingContents(st);
    hide Ranking, StakeRatio;
    forall j | 0 <= j < |Ranking(st)| && j != i
      ensures StakeRatio(st, Ranking(st)[j]) != StakeRatio(st, Ranking(st)[i])
    {
      var b, r := Ranking(st)[j], StakeRatio(st, Ranking(st)[i]);
      assert b in Ranking(st) && b != Ranking(st)[i];
      assert b in AtLeast(st, r).vals ==> b in Above(st, r).vals;
    }
  }

  /** What `badger_boost` ranks: all three groups of balances without dust. */
  function Prepared(st: Stakes): Stakes {
    Stakes(FilterDust(st.digg), FilterDust(st.badger), FilterDust(st.nonNative))
  }

  lemma PreparedIsGood(st: Stakes)
    requires st.nonNative.Valid()
    ensures GoodStakes(Prepared(st))
  {
    FilterDustContents(st.nonNative, 0);
  }

  /** The boosts that come of these stakes, dust and all. */
  ghost function PreparedBoosts(st: Stakes): (boosts: Multipliers.Boosts)
    requires st.nonNative.Valid()
    ensures Multipliers.GoodBoosts(boosts)
  {
    PreparedIsGood(st);
    BoostsAreGood(Prepared(st));
    BoostsOf(Prepared(st)).vals
  }

  /** An amount of at most one dollar does not count. */
  function WithoutDust(x: real): real {
    if x > 1.0 then x else 0.0
  }

  lemma PreparedBalances(st: Stakes, a: Address)
    requires st.digg.Valid() && st.badger.Valid() && st.nonNative.Valid()
    ensures a in Prepared(st).nonNative.vals <==> BalanceIn(st.nonNative, a) > 1.0
    ensures BalanceIn(Prepared(st).digg, a) == WithoutDust(BalanceIn(st.digg, a))
    ensures BalanceIn(Prepared(st).badger, a) == WithoutDust(BalanceIn(st.badger, a))
    ensures BalanceIn(Prepared(st).nonNative, a) == WithoutDust(BalanceIn(st.nonNative, a))
  {
    FilterDustContents(st.digg, a);
    FilterDustContents(st.badger, a);
    FilterDustContents(st.nonNative, a);
  }

  /** Exactly the users with more than one dollar outside the native setts get a boost, and it follows their stakes. */
  lemma PreparedByStakes(st: Stakes, a: Address, b: Address)
    requires st.digg.Valid() && st.badger.Valid() && st.nonNative.Valid()
    ensures a in PreparedBoosts(st) <==> BalanceIn(st.nonNative, a) > 1.0
    ensures a in PreparedBoosts(st) && b in PreparedBoosts(st) ==>
              var x := WithoutDust(BalanceIn(st.digg, a)) + WithoutDust(BalanceIn(st.badger, a));
              var y := WithoutDust(BalanceIn(st.digg, b)) + WithoutDust(BalanceIn(st.badger, b));
              && (x * BalanceIn(st.nonNative, b) > y * BalanceIn(st.nonNative, a) ==>
                    PreparedBoosts(st)[a] > PreparedBoosts(st)[b])
              && (x == 0.0 ==> PreparedBoosts(st)[a] == 1.0)
  {
    hide FilterDust, RankBoost, StakeRatio, SheetTotal;
    PreparedIsGood(st);
    PreparedBalances(st, a);
    PreparedBalances(st, b);
    OnlyRankedBoosted(Prepared(st), a);
    OnlyRankedBoosted(Prepared(st), b);
    if a in PreparedBoosts(st) && b in PreparedBoosts(st) {
      BoostsByStakes(Prepared(st), a, b);
    }
  }

  lemma OnlyRankedBoosted(st: Stakes, a: Address)
    requires GoodStakes(st)
    ensures a in BoostsOf(st).vals <==> a in st.nonNative.vals
  {
    var boosts := BoostsOf(st);
    RankedBoostsAre(st, |Ranking(st)|);
    RankingContents(st);
    boosts.HasKey(a);
    assert Ranking(st)[..|Ranking(st)|] == Ranking(st);
  }
}
