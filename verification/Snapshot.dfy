/**
 One sett's rewards in one cycle (assistant/rewards/calc_snapshot.py:13-133): balances are boosted, and each token's
 distribution is split in proportion to them. Python's floats are exact reals here; `int()` truncates.
 */
module Snapshot {
  import opened Prelude
  import opened Dicts
  import opened Abi
  import opened Rewards
  import opened Balances

  const BADGER_TREE: Address := 0x660802Fc641b154aBA66a62137e71f331B6d787A

  const NON_NATIVE_SETTS: set<string> := {
    "native.renCrv", "native.sbtcCrv", "native.tbtcCrv", "native.sushiWbtcEth", "harvest.renCrv", "yearn.wbtc",
    "experimental.sushiIBbtcWbtc", "native.hbtcCrv", "native.pbtcCrv", "native.obtcCrv", "native.bbtcCrv",
    "native.tricrypto", "native.cvxCrv", "native.cvx"}

  /** The unclaimed balances among which the tree account's share of two setts is split again. */
  datatype Unclaimed = Unclaimed(bCvx: Sheet, bCvxCrv: Sheet)

  // ----- the split -----

  /** Everyone on the sheet gets their balance times the unit, in whole units. */
  function SplitCredits(s: Sheet, n: nat, token: Address, unit: real): (log: seq<Credit>)
    requires n <= |s.keys|
    ensures |log| == n
  {
    if n == 0 then []
    else SplitCredits(s, n - 1, token, unit)
         + [Credit(s.keys[n - 1], token, Trunc(Times(unit, BalanceIn(s, s.keys[n - 1]))) as real)]
  }

  /** A division that the code makes only when the total is not zero. */
  function PerUnit(amount: real, total: real): real {
    if total == 0.0 then 0.0 else Quotient(amount, total)
  }

  function ResplitAmong(name: string, unclaimed: Unclaimed): Option<Sheet> {
    if name == "native.cvx" then Some(unclaimed.bCvx)
    else if name == "native.cvxCrv" then Some(unclaimed.bCvxCrv)
    else None
  }

  /** What user `a` triggers: the tree account's share is split again or withheld, other shares are credited. */
  function UserCredits(a: Address, share: real, token: Address, resplit: Option<Sheet>): seq<Credit> {
    if a != BADGER_TREE then [Credit(a, token, Trunc(share) as real)]
    else if resplit.None? then []
    else SplitCredits(resplit.value, |resplit.value.keys|, token, PerUnit(share, SheetTotal(resplit.value)))
  }

  function PayoutCredits(users: Sheet, n: nat, token: Address, unit: real, resplit: Option<Sheet>): seq<Credit>
    requires n <= |users.keys|
  {
    if n == 0 then []
    else
      var a := users.keys[n - 1];
      PayoutCredits(users, n - 1, token, unit, resplit)
      + UserCredits(a, Times(unit, BalanceIn(users, a)), token, resplit)
  }

  /** The credits for one token: none unless something is distributed. */
  function Payout(users: Sheet, token: Address, distribution: int, resplit: Option<Sheet>): seq<Credit> {
    if distribution <= 0 then []
    else PayoutCredits(users, |users.keys|, token, PerUnit(distribution as real, SheetTotal(users)), resplit)
  }

  /** Nothing is divided by zero. */
  predicate CanPay(users: Sheet, distribution: int, resplit: Option<Sheet>) {
    distribution > 0 ==>
      && SheetTotal(users) != 0.0
      && (BADGER_TREE in users.keys && resplit.Some? ==> SheetTotal(resplit.value) != 0.0)
  }

  method SplitAmong(rewards: RewardsList, among: Sheet, token: Address, unit: real)
    requires rewards.Valid() && among.Valid()
    modifies rewards
    ensures rewards.Valid()
    ensures rewards.State() == Apply(old(rewards.State()), SplitCredits(among, |among.keys|, token, unit))
  {
    hide WellFormed, Increase, Trunc;
    ghost var before := rewards.State();
    for i := 0 to |among.keys|
      invariant rewards.Valid()
      invariant rewards.State() == Apply(before, SplitCredits(among, i, token, unit))
    {
      among.HasKey(among.keys[i]);
      var amount := Trunc(Times(unit, among.vals[among.keys[i]])) as real;
      ApplyAppend(before, SplitCredits(among, i, token, unit), Credit(among.keys[i], token, amount));
      rewards.IncreaseUserRewards(among.keys[i], token, amount);
    }
  }

  /** The credits of one user of the sett, or the division by an empty total of unclaimed balances. */
  method PayUser(rewards: RewardsList, name: string, user: Address, share: real, token: Address, unclaimed: Unclaimed)
    returns (ok: bool)
    requires rewards.Valid() && unclaimed.bCvx.Valid() && unclaimed.bCvxCrv.Valid()
    modifies rewards
    ensures rewards.Valid()
    ensures var resplit := ResplitAmong(name, unclaimed);
            && (ok <==> (user == BADGER_TREE && resplit.Some? ==> SheetTotal(resplit.value) != 0.0))
            && (ok ==> rewards.State() == Apply(old(rewards.State()), UserCredits(user, share, token, resplit)))
  {
    hide WellFormed, Increase;
    ok := true;
    if user == BADGER_TREE {
      if name == "native.cvx" {
        var total := SheetTotal(unclaimed.bCvx);
        if total == 0.0 {
          return false;
        }
        SplitAmong(rewards, unclaimed.bCvx, token, share / total);
      }
      if name == "native.cvxCrv" {
        var total := SheetTotal(unclaimed.bCvxCrv);
        if total == 0.0 {
          return false;
        }
        SplitAmong(rewards, unclaimed.bCvxCrv, token, share / total);
      }
    } else {
      ApplyAppend(rewards.State(), [], Credit(user, token, Trunc(share) as real));
      assert [] + [Credit(user, token, Trunc(share) as real)] == [Credit(user, token, Trunc(share) as real)];
      rewards.IncreaseUserRewards(user, token, Trunc(share) as real);
    }
  }

  method PayToken(
    rewards: RewardsList, name: string, users: UserBalances, token: Address, distribution: int, unclaimed: Unclaimed)
    returns (ok: bool)
    requires rewards.Valid() && users.Valid() && unclaimed.bCvx.Valid() && unclaimed.bCvxCrv.Valid()
    modifies rewards
    ensures rewards.Valid()
    ensures var resplit := ResplitAmong(name, unclaimed);
            && (ok <==> CanPay(users.View(), distribution, resplit))
            && (ok ==>
                  rewards.State() == Apply(old(rewards.State()), Payout(users.View(), token, distribution, resplit)))
  {
    hide WellFormed, Increase, ResplitAmong, UserCredits, Times;
    if distribution <= 0 {
      return true;
    }
    var sumBalances := users.TotalBalance();
    if sumBalances == 0.0 {
      return false;
    }
    var unit := distribution as real / sumBalances;
    ghost var before, sheet, resplit := rewards.State(), users.View(), ResplitAmong(name, unclaimed);
    var book := users.userBalances;
    for i := 0 to |book.keys|
      invariant rewards.Valid() && users.userBalances == book && users.View() == sheet
      invariant BADGER_TREE in book.keys[..i] && resplit.Some? ==> SheetTotal(resplit.value) != 0.0
      invariant rewards.State() == Apply(before, PayoutCredits(sheet, i, token, unit, resplit))
    {
      FiledAt(book, i);
      var share := Times(unit, book.vals[book.keys[i]].balance);
      ok := PayUser(rewards, name, book.keys[i], share, token, unclaimed);
      if !ok {
        return false;
      }
      ApplyConcat(before, PayoutCredits(sheet, i, token, unit, resplit),
                  UserCredits(book.keys[i], share, token, resplit));
    }
    assert book.keys[..|book.keys|] == book.keys;
    return true;
  }

  /**
   A payout fails exactly when something is distributed and either nobody holds anything, or the tree account does in a
   sett whose unclaimed balances are empty.
   */
  lemma CannotPay(name: string, users: Sheet, distribution: int, unclaimed: Unclaimed)
    requires users.Valid()
    ensures !CanPay(users, distribution, ResplitAmong(name, unclaimed)) <==>
            && distribution > 0
            && (|| SheetTotal(users) == 0.0
                || (BADGER_TREE in users.vals && name == "native.cvx" && SheetTotal(unclaimed.bCvx) == 0.0)
                || (BADGER_TREE in users.vals && name == "native.cvxCrv" && SheetTotal(unclaimed.bCvxCrv) == 0.0))
  {
    users.HasKey(BADGER_TREE);
    hide SheetTotal;
  }

  // ----- conservation -----

  ghost predicate NonNegative(s: Sheet) {
    forall a | a in s.vals :: s.vals[a] >= 0.0
  }

  lemma TruncBounds(x: real)
    requires x >= 0.0
    ensures 0.0 <= Trunc(x) as real <= x < Trunc(x) as real + 1.0
  {
  }

  lemma CreditSumAppend(log: seq<Credit>, c: Credit, t: Address)
    ensures CreditSum(log + [c], t) == CreditSum(log, t) + if c.token == t then Clamp(c.amount) else 0.0
  {
  }

  lemma BalanceNonNegative(s: Sheet, a: Address)
    requires NonNegative(s)
    ensures BalanceIn(s, a) >= 0.0
  {
  }

  lemma NothingPaid(token: Address, unit: real)
    ensures CreditSum([], token) == 0.0 && Times(unit, 0.0) == 0.0
  {
  }

  /** A floored split pays at most `unit` times the balances, and falls short by less than one unit per recipient. */
  lemma {:induction false} SplitBounds(s: Sheet, n: nat, token: Address, unit: real)
    requires NonNegative(s) && unit >= 0.0 && n <= |s.keys|
    ensures var paid, due := CreditSum(SplitCredits(s, n, token, unit), token), Times(unit, SumOver(s, s.keys[..n]));
            paid <= due && due - n as real <= paid && (n > 0 ==> due - n as real < paid)
  {
    hide Times, Trunc, BalanceIn;
    if n == 0 {
      NothingPaid(token, unit);
    } else {
      var a := s.keys[n - 1];
      var x := BalanceIn(s, a);
      SplitBounds(s, n - 1, token, unit);
      assert s.keys[..n][..n - 1] == s.keys[..n - 1];
      BalanceNonNegative(s, a);
      TimesOfSum(unit, SumOver(s, s.keys[..n - 1]), x);
      ProductNonNegative(unit, x);
      TruncBounds(Times(unit, x));
      CreditSumAppend(SplitCredits(s, n - 1, token, unit), Credit(a, token, Trunc(Times(unit, x)) as real), token);
    }
  }

  lemma PerUnitTotal(amount: real, total: real)
    requires total != 0.0
    ensures Times(PerUnit(amount, total), total) == amount
  {
  }

  lemma PerUnitNonNegative(amount: real, total: real)
    requires amount >= 0.0 && total >= 0.0
    ensures PerUnit(amount, total) >= 0.0
  {
  }

  /** What the tree account's share adds to the withheld amount. */
  function Withheld(a: Address, share: real, resplit: Option<Sheet>): real {
    if a == BADGER_TREE && resplit.None? then share else 0.0
  }

  function SumWithheld(users: Sheet, n: nat, unit: real, resplit: Option<Sheet>): real
    requires n <= |users.keys|
  {
    if n == 0 then 0.0
    else
      SumWithheld(users, n - 1, unit, resplit)
      + Withheld(users.keys[n - 1], Times(unit, BalanceIn(users, users.keys[n - 1])), resplit)
  }

  lemma {:induction false} SumOverNonNegative(s: Sheet, keys: seq<Address>)
    requires NonNegative(s)
    ensures SumOver(s, keys) >= 0.0
  {
    if keys == [] {
    } else {
      SumOverNonNegative(s, keys[..|keys| - 1]);
    }
  }

  /** Every user's share is credited, split again or withheld, up to less than one unit per credit. */
  lemma UserBounds(a: Address, share: real, token: Address, resplit: Option<Sheet>)
    requires share >= 0.0
    requires resplit.Some? ==> NonNegative(resplit.value)
    requires a == BADGER_TREE && resplit.Some? ==> SheetTotal(resplit.value) != 0.0
    ensures var log := UserCredits(a, share, token, resplit);
            var paid, due := CreditSum(log, token), share - Withheld(a, share, resplit);
            paid <= due && due - |log| as real <= paid && (log != [] ==> due - |log| as real < paid)
  {
    if a != BADGER_TREE {
      TruncBounds(share);
      CreditSumAppend([], Credit(a, token, Trunc(share) as real), token);
      assert [] + [Credit(a, token, Trunc(share) as real)] == [Credit(a, token, Trunc(share) as real)];
    } else if resplit.Some? {
      var s := resplit.value;
      assert s.keys[..|s.keys|] == s.keys;
      SumOverNonNegative(s, s.keys);
      PerUnitNonNegative(share, SheetTotal(s));
      PerUnitTotal(share, SheetTotal(s));
      SplitBounds(s, |s.keys|, token, PerUnit(share, SheetTotal(s)));
    }
  }

  lemma {:induction false} PayoutBounds(users: Sheet, n: nat, token: Address, unit: real, resplit: Option<Sheet>)
    requires n <= |users.keys| && NonNegative(users) && unit >= 0.0
    requires resplit.Some? ==> NonNegative(resplit.value)
    requires BADGER_TREE in users.keys && resplit.Some? ==> SheetTotal(resplit.value) != 0.0
    ensures var log := PayoutCredits(users, n, token, unit, resplit);
            var paid := CreditSum(log, token);
            var due := Times(unit, SumOver(users, users.keys[..n])) - SumWithheld(users, n, unit, resplit);
            paid <= due && due - |log| as real <= paid && (log != [] ==> due - |log| as real < paid)
  {
    hide Times, UserCredits, Withheld, SheetTotal, BalanceIn;
    if n == 0 {
      NothingPaid(token, unit);
    } else {
      var a := users.keys[n - 1];
      var x := BalanceIn(users, a);
      PayoutBounds(users, n - 1, token, unit, resplit);
      assert users.keys[..n][..n - 1] == users.keys[..n - 1];
      BalanceNonNegative(users, a);
      TimesOfSum(unit, SumOver(users, users.keys[..n - 1]), x);
      ProductNonNegative(unit, x);
      UserBounds(a, Times(unit, x), token, resplit);
      CreditSumConcat(PayoutCredits(users, n - 1, token, unit, resplit), UserCredits(a, Times(unit, x), token, resplit),
                      token);
    }
  }

  lemma {:induction false} NoneWithheld(users: Sheet, n: nat, unit: real, resplit: Option<Sheet>)
    requires n <= |users.keys|
    requires resplit.Some? || BADGER_TREE !in users.keys
    ensures SumWithheld(users, n, unit, resplit) == 0.0
  {
    if n == 0 {
    } else {
      NoneWithheld(users, n - 1, unit, resplit);
    }
  }

  /** In other setts exactly the tree account's share is withheld. */
  lemma {:induction false} TreeShareWithheld(users: Sheet, n: nat, unit: real)
    requires n <= |users.keys| && users.Valid()
    ensures SumWithheld(users, n, unit, None)
         == if BADGER_TREE in users.keys[..n] then Times(unit, BalanceIn(users, BADGER_TREE)) else 0.0
  {
    if n == 0 {
    } else {
      TreeShareWithheld(users, n - 1, unit);
      PrefixMember(users.keys, n, BADGER_TREE);
    }
  }

  /**
   Payout conservation: what is credited in a period, together with what is withheld for the tree account, never
   exceeds the distribution, and falls short of it by less than one unit per recipient.
   */
  lemma PayoutConserves(users: Sheet, token: Address, distribution: int, resplit: Option<Sheet>)
    requires users.Valid() && NonNegative(users) && distribution > 0
    requires resplit.Some? ==> NonNegative(resplit.value)
    requires CanPay(users, distribution, resplit)
    ensures var log := Payout(users, token, distribution, resplit);
            var withheld := if resplit.None? && BADGER_TREE in users.keys
                            then Times(PerUnit(distribution as real, SheetTotal(users)), BalanceIn(users, BADGER_TREE))
                            else 0.0;
            var shortfall := distribution as real - withheld - CreditSum(log, token);
            && 0.0 <= shortfall
            && withheld >= 0.0
            && if log == [] then shortfall == 0.0 else shortfall < |log| as real
  {
    var unit, n := PerUnit(distribution as real, SheetTotal(users)), |users.keys|;
    assert users.keys[..n] == users.keys;
    SumOverNonNegative(users, users.keys);
    PerUnitNonNegative(distribution as real, SheetTotal(users));
    PerUnitTotal(distribution as real, SheetTotal(users));
    ProductNonNegative(unit, BalanceIn(users, BADGER_TREE));
    hide Times, PerUnit, BalanceIn;
    PayoutBounds(users, n, token, unit, resplit);
    if resplit.None? && BADGER_TREE in users.keys {
      TreeShareWithheld(users, n, unit);
    } else {
      NoneWithheld(users, n, unit, resplit);
    }
  }

  // ----- each user's part -----

  function Floored(unit: real, balance: real): real {
    Clamp(Trunc(Times(unit, balance)) as real)
  }

  lemma CreditedAppend(log: seq<Credit>, c: Credit, u: Address, t: Address)
    ensures Credited(log + [c], u, t)
         == Credited(log, u, t) + if c.user == u && c.token == t then Clamp(c.amount) else 0.0
  {
    assert (log + [c])[..|log|] == log;
  }

  lemma {:induction false} SplitPays(s: Sheet, n: nat, token: Address, unit: real, u: Address)
    requires s.Valid() && n <= |s.keys|
    ensures Credited(SplitCredits(s, n, token, unit), u, token)
         == if u in s.keys[..n] then Floored(unit, BalanceIn(s, u)) else 0.0
  {
    if n == 0 {
    } else {
      var a := s.keys[n - 1];
      SplitPays(s, n - 1, token, unit, u);
      PrefixMember(s.keys, n, u);
      CreditedAppend(SplitCredits(s, n - 1, token, unit), Credit(a, token, Trunc(Times(unit, BalanceIn(s, a))) as real),
                     u, token);
    }
  }

  /** What user `u` gets of the tree account's share. */
  function Resplit(share: real, resplit: Option<Sheet>, u: Address): real {
    if resplit.Some? && u in resplit.value.keys
    then Floored(PerUnit(share, SheetTotal(resplit.value)), BalanceIn(resplit.value, u)) else 0.0
  }

  lemma UserPays(a: Address, unit: real, balance: real, token: Address, resplit: Option<Sheet>, u: Address)
    requires resplit.Some? ==> resplit.value.Valid()
    ensures Credited(UserCredits(a, Times(unit, balance), token, resplit), u, token)
         == if a == BADGER_TREE then Resplit(Times(unit, balance), resplit, u)
            else if a == u then Floored(unit, balance) else 0.0
  {
    var share := Times(unit, balance);
    if a != BADGER_TREE {
      CreditedAppend([], Credit(a, token, Trunc(share) as real), u, token);
      assert [] + [Credit(a, token, Trunc(share) as real)] == [Credit(a, token, Trunc(share) as real)];
    } else if resplit.Some? {
      var s := resplit.value;
      assert s.keys[..|s.keys|] == s.keys;
      SplitPays(s, |s.keys|, token, PerUnit(share, SheetTotal(s)), u);
    }
  }

  lemma {:induction false} PayoutPays(
    users: Sheet, n: nat, token: Address, unit: real, resplit: Option<Sheet>, u: Address)
    requires users.Valid() && n <= |users.keys| && (resplit.Some? ==> resplit.value.Valid())
    ensures Credited(PayoutCredits(users, n, token, unit, resplit), u, token)
         == (if u in users.keys[..n] && u != BADGER_TREE then Floored(unit, BalanceIn(users, u)) else 0.0)
            + (if BADGER_TREE in users.keys[..n] then Resplit(Times(unit, BalanceIn(users, BADGER_TREE)), resplit, u)
               else 0.0)
  {
    if n == 0 {
    } else {
      hide Times, Floored, UserCredits, Resplit;
      var a := users.keys[n - 1];
      PayoutPays(users, n - 1, token, unit, resplit, u);
      PrefixMember(users.keys, n, u);
      PrefixMember(users.keys, n, BADGER_TREE);
      UserPays(a, unit, BalanceIn(users, a), token, resplit, u);
      CreditedConcat(PayoutCredits(users, n - 1, token, unit, resplit),
                     UserCredits(a, Times(unit, BalanceIn(users, a)), token, resplit), u, token);
    }
  }

  /** What user `u` gets in whole units when an amount is split in proportion to the balances of a sheet. */
  function SharePaid(s: Sheet, amount: real, u: Address): nat {
    if u in s.vals then Whole(ShareOf(amount, s.vals[u], SheetTotal(s))) else 0
  }

  lemma UnitShare(amount: real, x: real, total: real)
    ensures Times(PerUnit(amount, total), x) == ShareOf(amount, x, total)
  {
  }

  lemma FlooredIsPaid(s: Sheet, amount: real, u: Address)
    requires s.Valid()
    ensures u in s.keys <==> u in s.vals
    ensures u in s.keys ==> Floored(PerUnit(amount, SheetTotal(s)), BalanceIn(s, u)) == SharePaid(s, amount, u) as real
  {
    s.HasKey(u);
    UnitShare(amount, BalanceIn(s, u), SheetTotal(s));
    hide Times, ShareOf, PerUnit, SheetTotal;
  }

  /**
   Every user gets the floor of the distribution times their balance over the total, and of the tree account's share,
   where it is split again, the floor of that share times their unclaimed balance over the total unclaimed.
   */
  lemma PayoutPerUser(users: Sheet, token: Address, distribution: int, resplit: Option<Sheet>, u: Address)
    requires users.Valid() && (resplit.Some? ==> resplit.value.Valid()) && distribution > 0
    ensures Credited(Payout(users, token, distribution, resplit), u, token)
         == (if u == BADGER_TREE then 0 else SharePaid(users, distribution as real, u)) as real
            + (if BADGER_TREE in users.vals && resplit.Some?
               then SharePaid(resplit.value,
                              ShareOf(distribution as real, users.vals[BADGER_TREE], SheetTotal(users)), u)
               else 0) as real
  {
    hide Times, ShareOf, PerUnit, SheetTotal, Floored, SharePaid;
    var d, total := distribution as real, SheetTotal(users);
    assert users.keys[..|users.keys|] == users.keys;
    PayoutPays(users, |users.keys|, token, PerUnit(d, total), resplit, u);
    FlooredIsPaid(users, d, u);
    users.HasKey(BADGER_TREE);
    UnitShare(d, BalanceIn(users, BADGER_TREE), total);
    NothingPaidOutside(users, d, u);
    if resplit.Some? {
      var share := ShareOf(d, BalanceIn(users, BADGER_TREE), total);
      FlooredIsPaid(resplit.value, share, u);
      NothingPaidOutside(resplit.value, share, u);
    }
  }

  lemma NothingPaidOutside(s: Sheet, amount: real, u: Address)
    ensures u !in s.vals ==> SharePaid(s, amount, u) == 0
  {
  }

  // ----- the unit of the balances -----

  lemma SameShare(amount: real, total: real, balance: real, k: real)
    requires k != 0.0 && total != 0.0
    ensures Times(k, total) != 0.0
    ensures Times(PerUnit(amount, Times(k, total)), Times(k, balance)) == Times(PerUnit(amount, total), balance)
  {
    var unit, scaled := PerUnit(amount, total), PerUnit(amount, Times(k, total));
    assert unit * total == amount && scaled * (k * total) == amount;
    assert (scaled * k - unit) * total == 0.0;
    assert scaled * k == unit;
  }

  lemma {:induction false} PayoutCreditsSame(
    users: Sheet, users': Sheet, n: nat, token: Address, unit: real, unit': real, resplit: Option<Sheet>)
    requires users.keys == users'.keys && n <= |users.keys|
    requires forall a :: Times(unit', BalanceIn(users', a)) == Times(unit, BalanceIn(users, a))
    ensures PayoutCredits(users', n, token, unit', resplit) == PayoutCredits(users, n, token, unit, resplit)
  {
    hide Times, BalanceIn, UserCredits;
    if n == 0 {
    } else {
      PayoutCreditsSame(users, users', n - 1, token, unit, unit', resplit);
    }
  }

  /** A payout does not depend on the unit in which all balances of the sett are counted, tokens or dollars. */
  lemma PayoutUnit(users: Sheet, k: real, token: Address, distribution: int, resplit: Option<Sheet>)
    requires k != 0.0 && CanPay(users, distribution, resplit)
    ensures Payout(Scaled(users, k), token, distribution, resplit) == Payout(users, token, distribution, resplit)
  {
    hide Times, PerUnit, BalanceIn, SheetTotal, PayoutCredits;
    if distribution > 0 {
      var d, total := distribution as real, SheetTotal(users);
      ScaledTotal(users, k);
      forall a
        ensures Times(PerUnit(d, SheetTotal(Scaled(users, k))), BalanceIn(Scaled(users, k), a))
             == Times(PerUnit(d, total), BalanceIn(users, a))
      {
        ScaledBalance(users, k, a);
        SameShare(d, total, BalanceIn(users, a), k);
      }
      PayoutCreditsSame(users, Scaled(users, k), |users.keys|, token, PerUnit(d, total),
                        PerUnit(d, SheetTotal(Scaled(users, k))), resplit);
    }
  }

  lemma CanPayUnit(users: Sheet, k: real, distribution: int, resplit: Option<Sheet>)
    requires k != 0.0
    ensures CanPay(Scaled(users, k), distribution, resplit) <==> CanPay(users, distribution, resplit)
  {
    hide SheetTotal;
    ScaledTotal(users, k);
  }
}
