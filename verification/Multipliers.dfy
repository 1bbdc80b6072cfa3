/**
 Boosted balances and APY multipliers of one sett (assistant/rewards/calc_snapshot.py:29-46): a user's multiplier is
 the share of the boosted balances over the share of the balances before.
 */
module Multipliers {
  import opened Prelude
  import opened Dicts
  import opened Abi
  import opened Balances

  type Boosts = map<Address, real>

  /** A user without boost counts once. */
  function BoostOf(boosts: Boosts, a: Address): real {
    if a in boosts then boosts[a] else 1.0
  }

  function Boosted(s: Sheet, boosts: Boosts): Sheet {
    Dict(s.keys, map k | k in s.vals :: Times(s.vals[k], BoostOf(boosts, k)))
  }

  function Part(s: Sheet, a: Address): real
    requires SheetTotal(s) != 0.0
  {
    Quotient(BalanceIn(s, a), SheetTotal(s))
  }

  /** No share is divided by an empty total and no multiplier by an empty share. */
  predicate Divisible(s: Sheet, boosts: Boosts) {
    && SheetTotal(s) != 0.0
    && SheetTotal(Boosted(s, boosts)) != 0.0
    && forall i | 0 <= i < |s.keys| :: BalanceIn(s, s.keys[i]) != 0.0
  }

  function Multiplier(s: Sheet, boosts: Boosts, a: Address): real
    requires SheetTotal(s) != 0.0 && SheetTotal(Boosted(s, boosts)) != 0.0 && Part(s, a) != 0.0
  {
    Quotient(Part(Boosted(s, boosts), a), Part(s, a))
  }

  // ----- arithmetic -----

  lemma QuotientTimes(x: real, y: real)
    requires y != 0.0
    ensures Times(Quotient(x, y), y) == x
  {
  }

  lemma QuotientNonZero(x: real, y: real)
    requires x != 0.0 && y != 0.0
    ensures Quotient(x, y) != 0.0
  {
  }

  lemma TimesOrder(x: real, y: real, z: real)
    requires z > 0.0
    ensures x <= y <==> Times(x, z) <= Times(y, z)
  {
  }

  lemma QuotientSum(x: real, y: real, z: real)
    requires z != 0.0
    ensures Quotient(x + y, z) == Quotient(x, z) + Quotient(y, z)
  {
  }

  lemma TimesRegroup(a: real, b: real, c: real)
    ensures Times(Times(a, b), c) == Times(a, Times(b, c)) == Times(Times(a, c), b)
  {
  }

  // ----- the multipliers -----

  /** Balances of a sett are positive: `Counter` addition keeps no others. */
  ghost predicate Positive(s: Sheet) {
    s.Valid() && s.keys != [] && forall a | a in s.vals :: s.vals[a] > 0.0
  }

  ghost predicate GoodBoosts(boosts: Boosts) {
    forall a | a in boosts :: 1.0 <= boosts[a] <= 3.0
  }

  lemma BoostedBalance(s: Sheet, boosts: Boosts, a: Address)
    ensures BalanceIn(Boosted(s, boosts), a) == Times(BalanceIn(s, a), BoostOf(boosts, a))
  {
  }

  lemma {:induction false} BoostedSums(s: Sheet, boosts: Boosts, n: nat)
    requires Positive(s) && GoodBoosts(boosts) && n <= |s.keys|
    ensures var before, after := SumOver(s, s.keys[..n]), SumOver(Boosted(s, boosts), s.keys[..n]);
            before <= after <= 3.0 * before && (n > 0 ==> before > 0.0)
  {
    if n == 0 {
    } else {
      var a := s.keys[n - 1];
      BoostedSums(s, boosts, n - 1);
      assert s.keys[..n][..n - 1] == s.keys[..n - 1];
      s.HasKey(a);
      BoostedBalance(s, boosts, a);
      var b, k := BalanceIn(s, a), BoostOf(boosts, a);
      BoostedOnce(b, k);
    }
  }

  lemma BoostedOnce(b: real, k: real)
    requires b > 0.0 && 1.0 <= k <= 3.0
    ensures b <= Times(b, k) <= 3.0 * b
  {
    ProductNonNegative(b, k - 1.0);
    ProductNonNegative(b, 3.0 - k);
    assert Times(b, k) - b == Times(b, k - 1.0);
    assert 3.0 * b - Times(b, k) == Times(b, 3.0 - k);
  }

  lemma TotalsPositive(s: Sheet, boosts: Boosts)
    requires Positive(s) && GoodBoosts(boosts)
    ensures Divisible(s, boosts)
    ensures 0.0 < SheetTotal(s) <= SheetTotal(Boosted(s, boosts)) <= 3.0 * SheetTotal(s)
  {
    BoostedSums(s, boosts, |s.keys|);
    assert s.keys[..|s.keys|] == s.keys;
    forall i | 0 <= i < |s.keys| ensures BalanceIn(s, s.keys[i]) != 0.0 {
      s.HasKey(s.keys[i]);
    }
  }

  /** A multiplier is the user's boost times a factor that is the same for all users. */
  lemma MultiplierForm(s: Sheet, boosts: Boosts, a: Address)
    requires Divisible(s, boosts) && BalanceIn(s, a) != 0.0
    ensures Part(s, a) != 0.0
    ensures Multiplier(s, boosts, a)
         == Times(BoostOf(boosts, a), Quotient(SheetTotal(s), SheetTotal(Boosted(s, boosts))))
  {
  }

  /** Multipliers are in proportion to the boosts; a user without one counts as boosted by 1. */
  lemma MultipliersInProportion(s: Sheet, boosts: Boosts, a: Address, b: Address)
    requires Positive(s) && GoodBoosts(boosts) && a in s.vals && b in s.vals
    ensures Divisible(s, boosts) && Part(s, a) != 0.0 && Part(s, b) != 0.0
    ensures var x, y := if a in boosts then boosts[a] else 1.0, if b in boosts then boosts[b] else 1.0;
            Multiplier(s, boosts, a) * y == Multiplier(s, boosts, b) * x
  {
    TotalsPositive(s, boosts);
    MultiplierForm(s, boosts, a);
    MultiplierForm(s, boosts, b);
    var r := Quotient(SheetTotal(s), SheetTotal(Boosted(s, boosts)));
    TimesRegroup(BoostOf(boosts, a), r, BoostOf(boosts, b));
    TimesRegroup(BoostOf(boosts, b), r, BoostOf(boosts, a));
    TimesRegroup(r, BoostOf(boosts, a), BoostOf(boosts, b));
  }

  /** Multipliers lie in [1/3, 3] and are ordered as the boosts are. */
  lemma MultiplierBounds(s: Sheet, boosts: Boosts, a: Address, b: Address)
    requires Positive(s) && GoodBoosts(boosts) && a in s.vals && b in s.vals
    ensures Divisible(s, boosts) && Part(s, a) != 0.0 && Part(s, b) != 0.0
    ensures 1.0 / 3.0 <= Multiplier(s, boosts, a) <= 3.0
    ensures var x, y := if a in boosts then boosts[a] else 1.0, if b in boosts then boosts[b] else 1.0;
            x <= y <==> Multiplier(s, boosts, a) <= Multiplier(s, boosts, b)
  {
    TotalsPositive(s, boosts);
    MultiplierForm(s, boosts, a);
    MultiplierForm(s, boosts, b);
    var before, after := SheetTotal(s), SheetTotal(Boosted(s, boosts));
    var r := Quotient(before, after);
    QuotientTimes(before, after);
    hide Quotient, Times, Part, Multiplier, SheetTotal, Boosted;
    RatioBounds(before, after, r);
    TimesOrder(BoostOf(boosts, a), BoostOf(boosts, b), r);
    BoostRange(boosts, a);
    TimesOrder(1.0, BoostOf(boosts, a), r);
    TimesOrder(BoostOf(boosts, a), 3.0, r);
    TimesOne(r);
  }

  lemma BoostRange(boosts: Boosts, a: Address)
    requires GoodBoosts(boosts)
    ensures 1.0 <= BoostOf(boosts, a) <= 3.0
  {
  }

  lemma TimesOne(r: real)
    ensures Times(1.0, r) == r && Times(3.0, r) == 3.0 * r
  {
  }

  lemma TimesZero(x: real)
    ensures Times(0.0, x) == 0.0
  {
  }

  lemma RatioBounds(before: real, after: real, r: real)
    requires 0.0 < before <= after <= 3.0 * before && Times(r, after) == before
    ensures 1.0 / 3.0 <= r <= 1.0
  {
    TimesOrder(1.0 / 3.0, r, after);
    TimesOrder(r, 1.0, after);
    assert Times(1.0 / 3.0, after) == after / 3.0;
    TimesOne(after);
  }

  function SumParts(s: Sheet, keys: seq<Address>): real
    requires SheetTotal(s) != 0.0
  {
    if keys == [] then 0.0 else SumParts(s, keys[..|keys| - 1]) + Part(s, keys[|keys| - 1])
  }

  lemma {:induction false} PartsAddUp(s: Sheet, keys: seq<Address>)
    requires SheetTotal(s) != 0.0
    ensures SumParts(s, keys) == Quotient(SumOver(s, keys), SheetTotal(s))
  {
    if keys == [] {
    } else {
      PartsAddUp(s, keys[..|keys| - 1]);
      QuotientSum(SumOver(s, keys[..|keys| - 1]), BalanceIn(s, keys[|keys| - 1]), SheetTotal(s));
    }
  }

  /** The multipliers weighted by the shares before the boost. */
  function SumWeighted(s: Sheet, boosts: Boosts, n: nat): real
    requires Divisible(s, boosts) && n <= |s.keys|
  {
    if n == 0 then 0.0
    else
      QuotientNonZero(BalanceIn(s, s.keys[n - 1]), SheetTotal(s));
      SumWeighted(s, boosts, n - 1) + Times(Part(s, s.keys[n - 1]), Multiplier(s, boosts, s.keys[n - 1]))
  }

  lemma {:induction false} WeightedSums(s: Sheet, boosts: Boosts, n: nat)
    requires Divisible(s, boosts) && n <= |s.keys|
    ensures SumWeighted(s, boosts, n) == SumParts(Boosted(s, boosts), s.keys[..n])
  {
    if n == 0 {
    } else {
      var a := s.keys[n - 1];
      WeightedSums(s, boosts, n - 1);
      assert s.keys[..n][..n - 1] == s.keys[..n - 1];
      QuotientNonZero(BalanceIn(s, a), SheetTotal(s));
      QuotientTimes(Part(Boosted(s, boosts), a), Part(s, a));
      TimesRegroup(Part(s, a), Multiplier(s, boosts, a), 1.0);
      assert Times(Part(s, a), Multiplier(s, boosts, a)) == Times(Multiplier(s, boosts, a), Part(s, a));
    }
  }

  /** Weighted by the shares before the boost, the multipliers average exactly one. */
  lemma WeightedMean(s: Sheet, boosts: Boosts)
    requires Divisible(s, boosts)
    ensures SumWeighted(s, boosts, |s.keys|) == 1.0
  {
    assert s.keys[..|s.keys|] == s.keys;
    WeightedSums(s, boosts, |s.keys|);
    PartsAddUp(Boosted(s, boosts), s.keys);
    QuotientSelf(SheetTotal(Boosted(s, boosts)));
  }

  lemma QuotientSelf(x: real)
    requires x != 0.0
    ensures Quotient(x, x) == 1.0
  {
  }

  lemma {:induction false} WeightedBounds(s: Sheet, boosts: Boosts, n: nat, low: real, high: real)
    requires Divisible(s, boosts) && Positive(s) && n <= |s.keys|
    requires forall a | a in s.vals ::
               Part(s, a) != 0.0 && low <= Multiplier(s, boosts, a) <= high
    ensures SumParts(s, s.keys[..n]) >= 0.0
    ensures Times(SumParts(s, s.keys[..n]), low) <= SumWeighted(s, boosts, n) <= Times(SumParts(s, s.keys[..n]), high)
  {
    hide Times, Quotient, Part, Multiplier, Positive, SheetTotal, Boosted;
    if n == 0 {
      TimesZero(low);
      TimesZero(high);
    } else {
      var a := s.keys[n - 1];
      WeightedBounds(s, boosts, n - 1, low, high);
      assert s.keys[..n][..n - 1] == s.keys[..n - 1];
      KeyPart(s, n - 1);
      var p, m := Part(s, a), Multiplier(s, boosts, a);
      ScaledBounds(SumParts(s, s.keys[..n - 1]), p, m, low, high);
    }
  }

  lemma KeyPart(s: Sheet, i: nat)
    requires Positive(s) && i < |s.keys|
    ensures s.keys[i] in s.vals && SheetTotal(s) != 0.0 && Part(s, s.keys[i]) > 0.0
  {
    s.HasKey(s.keys[i]);
    TotalsPositive(s, map[]);
    PartPositive(BalanceIn(s, s.keys[i]), SheetTotal(s));
  }

  lemma PartPositive(b: real, total: real)
    requires b > 0.0 && total > 0.0
    ensures Quotient(b, total) > 0.0
  {
  }

  lemma ScaledBounds(sum: real, p: real, m: real, low: real, high: real)
    requires p > 0.0 && low <= m <= high
    ensures Times(sum + p, low) <= Times(sum, low) + Times(p, m)
    ensures Times(sum, high) + Times(p, m) <= Times(sum + p, high)
  {
  }

  /** So the least multiplier of a sett is at most one and the greatest at least one. */
  lemma MeanBetween(s: Sheet, boosts: Boosts, low: real, high: real)
    requires Divisible(s, boosts) && Positive(s)
    requires forall a | a in s.vals ::
               Part(s, a) != 0.0 && low <= Multiplier(s, boosts, a) <= high
    ensures low <= 1.0 <= high
  {
    assert s.keys[..|s.keys|] == s.keys;
    WeightedBounds(s, boosts, |s.keys|, low, high);
    WeightedMean(s, boosts);
    PartsAddUp(s, s.keys);
    QuotientSelf(SheetTotal(s));
    TimesOne(low);
    TimesOne(high);
    hide Times, Quotient, Part, Multiplier, Positive, Divisible;
  }

  // ----- the code -----

  /** Boosts every user in place. */
  method BoostAll(users: UserBalances, boosts: Boosts)
    requires users.Valid()
    modifies users.Objects()
    ensures users.Valid() && unchanged(users)
    ensures users.View() == Boosted(old(users.View()), boosts)
    ensures forall a | a in users.userBalances.vals ::
              var user := users.userBalances.vals[a];
              user.balance == Times(old(user.balance), if a in boosts then boosts[a] else 1.0)
  {
    hide FiledByAddress, Times;
    ghost var s := users.View();
    var book := users.userBalances;
    for i := 0 to |book.keys|
      invariant users.userBalances == book
      invariant forall k | k in book.vals && k !in book.keys[..i] :: book.vals[k].balance == s.vals[k]
      invariant forall k | k in book.vals && k in book.keys[..i] ::
                  book.vals[k].balance == Times(s.vals[k], BoostOf(boosts, k))
    {
      FiledAt(book, i);
      var user := book.vals[book.keys[i]];
      OnlyAt(book, book.keys[i]);
      user.BoostBalance(BoostOf(boosts, user.address));
    }
    AllKeys(book);
    forall k | k in book.vals ensures users.View().vals[k] == Boosted(s, boosts).vals[k] {
      assert k in book.keys[..|book.keys|];
    }
    assert users.View().vals == Boosted(s, boosts).vals;
  }

  lemma AllKeys(book: Book)
    requires FiledByAddress(book)
    ensures forall k | k in book.vals :: k in book.keys[..|book.keys|]
  {
  }

  /** Entries for the first `n` users of the sheet, each with the user's share. */
  ghost predicate ArePartsOf(d: Dict<Address, real>, s: Sheet, n: nat)
    requires n <= |s.keys|
  {
    && d.Valid() && d.keys == s.keys[..n]
    && forall i | 0 <= i < n ::
         SheetTotal(s) != 0.0 && s.keys[i] in d.vals && d.vals[s.keys[i]] == Part(s, s.keys[i])
  }

  lemma PartsStep(d: Dict<Address, real>, s: Sheet, i: nat)
    requires s.Valid() && i < |s.keys| && SheetTotal(s) != 0.0 && ArePartsOf(d, s, i)
    ensures ArePartsOf(d.Put(s.keys[i], Part(s, s.keys[i])), s, i + 1)
  {
    d.PutNext(s.keys, i, Part(s, s.keys[i]));
  }

  /** The shares of all users, or the division by an empty total. */
  method Parts(users: UserBalances) returns (r: Result<Dict<Address, real>>)
    requires users.Valid()
    ensures r.Success? <==> users.View().keys == [] || SheetTotal(users.View()) != 0.0
    ensures r.Failure? ==> r.error == ZeroDivisionError
    ensures r.Success? ==> ArePartsOf(r.value, users.View(), |users.View().keys|)
  {
    var parts: Dict<Address, real> := Empty();
    var book := users.userBalances;
    ghost var s := users.View();
    SheetValid(book, s);
    assert ArePartsOf(parts, s, 0);
    hide ArePartsOf, FiledByAddress;
    for i := 0 to |book.keys|
      invariant i > 0 ==> SheetTotal(s) != 0.0
      invariant ArePartsOf(parts, s, i)
    {
      FiledAt(book, i);
      var part: real :- users.PercentageOfTotal(book.vals[book.keys[i]]);
      PartsStep(parts, s, i);
      parts := parts.Put(book.keys[i], part);
    }
    return Success(parts);
  }

  lemma PartAt(d: Dict<Address, real>, s: Sheet, i: nat)
    requires i < |s.keys| && ArePartsOf(d, s, |s.keys|)
    ensures SheetTotal(s) != 0.0 && s.keys[i] in d.vals && d.vals[s.keys[i]] == Part(s, s.keys[i])
  {
  }

  /** Entries for the first `n` users of the sheet, each with the user's multiplier. */
  ghost predicate AreMultipliersOf(d: Dict<Address, real>, s: Sheet, boosts: Boosts, n: nat)
    requires n <= |s.keys|
  {
    && d.Valid() && d.keys == s.keys[..n]
    && forall i | 0 <= i < n ::
         && SheetTotal(s) != 0.0 && SheetTotal(Boosted(s, boosts)) != 0.0
         && BalanceIn(s, s.keys[i]) != 0.0 && Part(s, s.keys[i]) != 0.0
         && s.keys[i] in d.vals && d.vals[s.keys[i]] == Multiplier(s, boosts, s.keys[i])
  }

  lemma PartNonZero(s: Sheet, a: Address)
    requires SheetTotal(s) != 0.0 && Part(s, a) != 0.0
    ensures BalanceIn(s, a) != 0.0
  {
  }

  lemma MultipliersStep(d: Dict<Address, real>, s: Sheet, boosts: Boosts, i: nat)
    requires s.Valid() && i < |s.keys| && AreMultipliersOf(d, s, boosts, i)
    requires SheetTotal(s) != 0.0 && SheetTotal(Boosted(s, boosts)) != 0.0 && Part(s, s.keys[i]) != 0.0
    ensures AreMultipliersOf(d.Put(s.keys[i], Multiplier(s, boosts, s.keys[i])), s, boosts, i + 1)
  {
    hide Part, Multiplier, Quotient, SheetTotal, Boosted, BalanceIn;
    PartNonZero(s, s.keys[i]);
    d.PutNext(s.keys, i, Multiplier(s, boosts, s.keys[i]));
  }

  lemma EmptyPart(s: Sheet, boosts: Boosts, i: nat)
    requires i < |s.keys| && SheetTotal(s) != 0.0 && Part(s, s.keys[i]) == 0.0
    ensures !Divisible(s, boosts)
  {
  }

  lemma PartNow(users: UserBalances, i: nat)
    requires users.Valid() && i < |users.userBalances.keys| && SheetTotal(users.View()) != 0.0
    ensures users.userBalances.keys[i] in users.userBalances.vals
    ensures var a := users.userBalances.keys[i];
            Quotient(users.userBalances.vals[a].balance, SheetTotal(users.View())) == Part(users.View(), a)
  {
  }

  lemma NotDivisible(s: Sheet, boosts: Boosts)
    requires SheetTotal(s) == 0.0 || SheetTotal(Boosted(s, boosts)) == 0.0
    ensures !Divisible(s, boosts)
  {
  }

  lemma AllDivisible(d: Dict<Address, real>, s: Sheet, boosts: Boosts)
    requires AreMultipliersOf(d, s, boosts, |s.keys|)
    ensures s.keys == [] || Divisible(s, boosts)
  {
  }

  /** One user's share after the boost over the share before. */
  method DivideShare(users: UserBalances, pre: real, ghost s: Sheet, boosts: Boosts, i: nat) returns (r: Result<real>)
    requires users.Valid() && s.keys == users.userBalances.keys && i < |s.keys|
    requires users.View() == Boosted(s, boosts) && SheetTotal(s) != 0.0 && pre == Part(s, s.keys[i])
    ensures r.Failure? ==> r.error == ZeroDivisionError && !Divisible(s, boosts)
    ensures r.Success? ==> SheetTotal(Boosted(s, boosts)) != 0.0 && Part(s, s.keys[i]) != 0.0
    ensures r.Success? ==> r.value == Multiplier(s, boosts, s.keys[i])
  {
    hide FiledByAddress, Part, Boosted, Divisible;
    FiledAt(users.userBalances, i);
    var postBoost := users.PercentageOfTotal(users.userBalances.vals[users.userBalances.keys[i]]);
    if postBoost.Failure? {
      NotDivisible(s, boosts);
      return Failure(ZeroDivisionError);
    }
    PartNow(users, i);
    if pre == 0.0 {
      EmptyPart(s, boosts, i);
      return Failure(ZeroDivisionError);
    }
    return Success(Quotient(postBoost.value, pre));
  }

  /** The last loop: the multipliers of all users, one after the other. */
  method DivideShares(users: UserBalances, preBoost: Dict<Address, real>, ghost s: Sheet, boosts: Boosts)
    returns (r: Result<Dict<Address, real>>)
    requires users.Valid() && s.Valid() && s.keys == users.userBalances.keys
    requires users.View() == Boosted(s, boosts) && ArePartsOf(preBoost, s, |s.keys|)
    ensures r.Success? <==> s.keys == [] || Divisible(s, boosts)
    ensures r.Failure? ==> r.error == ZeroDivisionError
    ensures r.Success? ==> AreMultipliersOf(r.value, s, boosts, |s.keys|)
  {
    var keys := users.userBalances.keys;
    var apyBoosts: Dict<Address, real> := Empty();
    assert AreMultipliersOf(apyBoosts, s, boosts, 0);
    hide AreMultipliersOf, ArePartsOf, FiledByAddress, Part, Boosted, Divisible, Multiplier, SheetTotal;
    for i := 0 to |keys|
      invariant AreMultipliersOf(apyBoosts, s, boosts, i)
    {
      PartAt(preBoost, s, i);
      var multiplier := DivideShare(users, preBoost.vals[keys[i]], s, boosts, i);
      if multiplier.Failure? {
        return Failure(ZeroDivisionError);
      }
      MultipliersStep(apyBoosts, s, boosts, i);
      apyBoosts := apyBoosts.Put(keys[i], multiplier.value);
    }
    AllDivisible(apyBoosts, s, boosts);
    return Success(apyBoosts);
  }

  /** The multipliers of all users of a sett, whose balances are boosted on the way. */
  method ApplyBoosts(users: UserBalances, boosts: Boosts) returns (r: Result<Dict<Address, real>>)
    requires users.Valid()
    modifies users.Objects()
    ensures users.Valid() && unchanged(users)
    ensures r.Success? <==> old(users.View()).keys == [] || Divisible(old(users.View()), boosts)
    ensures r.Failure? ==> r.error == ZeroDivisionError
    ensures r.Success? ==> users.View() == Boosted(old(users.View()), boosts)
    ensures r.Success? ==> forall a | a in users.userBalances.vals ::
              var user := users.userBalances.vals[a];
              user.balance == Times(old(user.balance), if a in boosts then boosts[a] else 1.0)
    ensures r.Success? ==> AreMultipliersOf(r.value, old(users.View()), boosts, |old(users.View()).keys|)
  {
    ghost var s := users.View();
    SheetValid(users.userBalances, s);
    hide AreMultipliersOf, ArePartsOf, FiledByAddress, Boosted, Divisible;
    var preBoost := Parts(users);
    if preBoost.Failure? {
      NotDivisible(s, boosts);
      return Failure(ZeroDivisionError);
    }
    BoostAll(users, boosts);
    r := DivideShares(users, preBoost.value, s, boosts);
  }
}
