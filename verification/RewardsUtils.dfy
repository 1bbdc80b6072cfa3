/** Merging rewards lists (assistant/rewards/rewards_utils.py). */
module RewardsUtils {
  import opened Prelude
  import opened Abi
  import opened Rewards

  // ----- combine_rewards -----

  /** Every entry of every list, in iteration order. */
  ghost function AllItems(ls: seq<Ledger>): seq<Credit>
    requires forall i | 0 <= i < |ls| :: WellFormed(ls[i])
  {
    if ls == [] then [] else AllItems(ls[..|ls| - 1]) + Items(ls[|ls| - 1])
  }

  ghost function Combined(ls: seq<Ledger>): Ledger
    requires forall i | 0 <= i < |ls| :: WellFormed(ls[i])
  {
    Apply(NO_REWARDS, AllItems(ls))
  }

  function SumAmounts(ls: seq<Ledger>, u: Address, t: Address): real {
    if ls == [] then 0.0 else SumAmounts(ls[..|ls| - 1], u, t) + Amount(ls[|ls| - 1], u, t)
  }

  predicate AnyHas(ls: seq<Ledger>, u: Address, t: Address) {
    exists i | 0 <= i < |ls| :: Has(ls[i], u, t)
  }

  lemma {:induction false} AllItemsContents(ls: seq<Ledger>, u: Address, t: Address)
    requires forall i | 0 <= i < |ls| :: WellFormed(ls[i])
    ensures Credited(AllItems(ls), u, t) == SumAmounts(ls, u, t)
    ensures Mentions(AllItems(ls), u, t) <==> AnyHas(ls, u, t)
  {
    if ls == [] {
    } else {
      var rest, last := ls[..|ls| - 1], ls[|ls| - 1];
      AllItemsContents(rest, u, t);
      ItemsContents(last, u, t);
      CreditedConcat(AllItems(rest), Items(last), u, t);
      MentionsConcat(AllItems(rest), Items(last), u, t);
      AnyHasLast(ls, u, t);
    }
  }

  lemma AnyHasLast(ls: seq<Ledger>, u: Address, t: Address)
    requires ls != []
    ensures AnyHas(ls, u, t) <==> AnyHas(ls[..|ls| - 1], u, t) || Has(ls[|ls| - 1], u, t)
  {
  }

  /** The combined list holds for each user and token the sum over the lists, and nothing else. */
  lemma CombinedContents(ls: seq<Ledger>, u: Address, t: Address)
    requires forall i | 0 <= i < |ls| :: WellFormed(ls[i])
    ensures Amount(Combined(ls), u, t) == SumAmounts(ls, u, t)
    ensures Has(Combined(ls), u, t) <==> AnyHas(ls, u, t)
    ensures Consistent(Combined(ls))
  {
    AllItemsContents(ls, u, t);
    ApplyContents(NO_REWARDS, AllItems(ls), u, t);
    EmptyConsistent();
    ApplyConsistent(NO_REWARDS, AllItems(ls));
  }

  function SumTotals(ls: seq<Ledger>, t: Address): real {
    if ls == [] then 0.0 else SumTotals(ls[..|ls| - 1], t) + Total(ls[|ls| - 1], t)
  }

  lemma {:induction false} AllItemsSum(ls: seq<Ledger>, t: Address)
    requires forall i | 0 <= i < |ls| :: WellFormed(ls[i]) && Consistent(ls[i])
    ensures CreditSum(AllItems(ls), t) == SumTotals(ls, t)
  {
    if ls == [] {
    } else {
      AllItemsSum(ls[..|ls| - 1], t);
      ItemsSum(ls[|ls| - 1], t);
      CreditSumConcat(AllItems(ls[..|ls| - 1]), Items(ls[|ls| - 1]), t);
    }
  }

  /** The total of a combined list is the sum of the totals of its parts. */
  lemma CombinedTotal(ls: seq<Ledger>, t: Address)
    requires forall i | 0 <= i < |ls| :: WellFormed(ls[i]) && Consistent(ls[i])
    ensures Total(Combined(ls), t) == SumTotals(ls, t)
  {
    AllItemsSum(ls, t);
    ApplyTotal(NO_REWARDS, AllItems(ls), t);
  }

  lemma {:induction false} CombinedOrder(ls: seq<Ledger>)
    requires ls != [] && forall i | 0 <= i < |ls| :: WellFormed(ls[i])
    ensures ls[0].claims.keys <= Combined(ls).claims.keys
  {
    hide WellFormed, Apply;
    var n := |ls| - 1;
    ApplyConcat(NO_REWARDS, AllItems(ls[..n]), Items(ls[n]));
    if n == 0 {
      assert AllItems(ls) == Items(ls[0]);
      ItemsOrder(ls[0]);
    } else {
      CombinedOrder(ls[..n]);
      ApplyKeepsOrder(Combined(ls[..n]), Items(ls[n]));
    }
  }

  lemma CombinedStep(ls: seq<Ledger>, i: nat)
    requires i < |ls| && forall j | 0 <= j < |ls| :: WellFormed(ls[j])
    ensures Combined(ls[..i + 1]) == Apply(Combined(ls[..i]), Items(ls[i]))
  {
    ApplyConcat(NO_REWARDS, AllItems(ls[..i]), Items(ls[i]));
    assert ls[..i + 1][..i] == ls[..i];
  }

  // ----- neither grouping nor order matters -----

  lemma {:induction false} AllItemsConcat(a: seq<Ledger>, b: seq<Ledger>)
    requires forall i | 0 <= i < |a + b| :: WellFormed((a + b)[i])
    ensures forall i | 0 <= i < |a| :: WellFormed(a[i])
    ensures forall i | 0 <= i < |b| :: WellFormed(b[i])
    ensures AllItems(a + b) == AllItems(a) + AllItems(b)
    decreases |b|
  {
    hide WellFormed;
    assert forall i | 0 <= i < |a| :: (a + b)[i] == a[i];
    assert forall i | 0 <= i < |b| :: (a + b)[|a| + i] == b[i];
    if b == [] {
      assert a + b == a;
    } else {
      SplitLast(a, b);
      AllItemsConcat(a, b[..|b| - 1]);
    }
  }

  lemma {:induction false} AllItemsPermutation(a: seq<Ledger>, b: seq<Ledger>)
    requires multiset(a) == multiset(b)
    requires forall i | 0 <= i < |a| :: WellFormed(a[i])
    requires forall i | 0 <= i < |b| :: WellFormed(b[i])
    ensures multiset(AllItems(a)) == multiset(AllItems(b))
    decreases |a|
  {
    hide WellFormed;
    if a == [] {
      assert |multiset(b)| == 0;
    } else {
      var n := |a| - 1;
      assert a == a[..n] + [a[n]];
      assert a[n] in multiset(b);
      var i :| 0 <= i < |b| && b[i] == a[n];
      var before, after := b[..i], b[i + 1..];
      assert b == before + ([b[i]] + after);
      assert multiset(b) == multiset(before + after) + multiset{b[i]};
      MultisetCancel(multiset(a[..n]), multiset(before + after), multiset{a[n]});
      AllItemsPermutation(a[..n], before + after);
      AllItemsMove(before, b[i], after);
    }
  }

  /** Taking one list out takes out its entries. */
  lemma AllItemsMove(before: seq<Ledger>, l: Ledger, after: seq<Ledger>)
    requires WellFormed(l) && forall i | 0 <= i < |before + after| :: WellFormed((before + after)[i])
    ensures forall i | 0 <= i < |before + ([l] + after)| :: WellFormed((before + ([l] + after))[i])
    ensures multiset(AllItems(before + ([l] + after))) == multiset(AllItems(before + after)) + multiset(Items(l))
  {
    hide WellFormed;
    AllItemsConcat(before, after);
    forall i | 0 <= i < |[l] + after| ensures WellFormed(([l] + after)[i]) {
      assert i > 0 ==> ([l] + after)[i] == after[i - 1];
    }
    AllItemsConcat([l], after);
    forall i | 0 <= i < |before + ([l] + after)| ensures WellFormed((before + ([l] + after))[i]) {
      assert i >= |before| ==> (before + ([l] + after))[i] == ([l] + after)[i - |before|];
    }
    AllItemsConcat(before, [l] + after);
    OneItem(l);
    hide AllItems, Items;
  }

  lemma OneItem(l: Ledger)
    requires WellFormed(l)
    ensures AllItems([l]) == Items(l)
  {
    assert AllItems([l]) == AllItems([l][..0]) + Items(l);
    assert [l][..0] == [];
  }

  /** Combining lists in any other order gives every user the same tokens and amounts, and the same totals. */
  lemma CombineOrder(a: seq<Ledger>, b: seq<Ledger>, u: Address, t: Address)
    requires multiset(a) == multiset(b)
    requires forall i | 0 <= i < |a| :: WellFormed(a[i])
    requires forall i | 0 <= i < |b| :: WellFormed(b[i])
    ensures Amount(Combined(a), u, t) == Amount(Combined(b), u, t)
    ensures Has(Combined(a), u, t) <==> Has(Combined(b), u, t)
    ensures Total(Combined(a), t) == Total(Combined(b), t)
  {
    AllItemsPermutation(a, b);
    OrderIrrelevant(AllItems(a), AllItems(b), u, t);
  }

  function Flatten(groups: seq<seq<Ledger>>): seq<Ledger> {
    if groups == [] then [] else Flatten(groups[..|groups| - 1]) + groups[|groups| - 1]
  }

  /** Combining lists that were combined group by group credits what combining all of them at once credits. */
  lemma {:induction false} CombineTwice(groups: seq<seq<Ledger>>, ls: seq<Ledger>, u: Address, t: Address)
    requires |ls| == |groups|
    requires forall g, i | 0 <= g < |groups| && 0 <= i < |groups[g]| :: WellFormed(groups[g][i])
    requires forall g | 0 <= g < |groups| :: ls[g] == Combined(groups[g])
    ensures forall g | 0 <= g < |ls| :: WellFormed(ls[g])
    ensures forall i | 0 <= i < |Flatten(groups)| :: WellFormed(Flatten(groups)[i])
    ensures Credited(AllItems(ls), u, t) == Credited(AllItems(Flatten(groups)), u, t)
    ensures Mentions(AllItems(ls), u, t) <==> Mentions(AllItems(Flatten(groups)), u, t)
    ensures CreditSum(AllItems(ls), t) == CreditSum(AllItems(Flatten(groups)), t)
  {
    hide WellFormed, Consistent, Combined, Mentions, Credited, CreditSum, Has, Amount;
    if groups == [] {
    } else {
      var n := |groups| - 1;
      CombineTwice(groups[..n], ls[..n], u, t);
      CombinedItems(groups[n], u, t);
      AllItemsConcat(Flatten(groups[..n]), groups[n]);
      ConcatCredits(AllItems(Flatten(groups[..n])), AllItems(groups[n]), u, t);
      ConcatCredits(AllItems(ls[..n]), Items(ls[n]), u, t);
    }
  }

  /** The entries of a combined list credit what the entries of its parts credit. */
  lemma CombinedItems(ls: seq<Ledger>, u: Address, t: Address)
    requires forall i | 0 <= i < |ls| :: WellFormed(ls[i])
    ensures WellFormed(Combined(ls))
    ensures Credited(Items(Combined(ls)), u, t) == Credited(AllItems(ls), u, t)
    ensures Mentions(Items(Combined(ls)), u, t) <==> Mentions(AllItems(ls), u, t)
    ensures CreditSum(Items(Combined(ls)), t) == CreditSum(AllItems(ls), t)
  {
    CombinedContents(ls, u, t);
    AllItemsContents(ls, u, t);
    ItemsContents(Combined(ls), u, t);
    ItemsSum(Combined(ls), t);
    ApplyTotal(NO_REWARDS, AllItems(ls), t);
  }

  lemma ConcatCredits(a: seq<Credit>, b: seq<Credit>, u: Address, t: Address)
    ensures Credited(a + b, u, t) == Credited(a, u, t) + Credited(b, u, t)
    ensures Mentions(a + b, u, t) <==> Mentions(a, u, t) || Mentions(b, u, t)
    ensures CreditSum(a + b, t) == CreditSum(a, t) + CreditSum(b, t)
  {
    CreditedConcat(a, b, u, t);
    MentionsConcat(a, b, u, t);
    CreditSumConcat(a, b, t);
  }

  /** So the grouping does not matter either: not to any user, and not to the totals. */
  lemma NestedCombine(groups: seq<seq<Ledger>>, ls: seq<Ledger>, u: Address, t: Address)
    requires |ls| == |groups|
    requires forall g, i | 0 <= g < |groups| && 0 <= i < |groups[g]| :: WellFormed(groups[g][i])
    requires forall g | 0 <= g < |groups| :: ls[g] == Combined(groups[g])
    ensures forall g | 0 <= g < |ls| :: WellFormed(ls[g])
    ensures forall i | 0 <= i < |Flatten(groups)| :: WellFormed(Flatten(groups)[i])
    ensures Amount(Combined(ls), u, t) == Amount(Combined(Flatten(groups)), u, t)
    ensures Has(Combined(ls), u, t) <==> Has(Combined(Flatten(groups)), u, t)
    ensures Total(Combined(ls), t) == Total(Combined(Flatten(groups)), t)
  {
    CombineTwice(groups, ls, u, t);
    hide WellFormed;
    ApplyContents(NO_REWARDS, AllItems(ls), u, t);
    ApplyContents(NO_REWARDS, AllItems(Flatten(groups)), u, t);
    ApplyTotal(NO_REWARDS, AllItems(ls), t);
    ApplyTotal(NO_REWARDS, AllItems(Flatten(groups)), t);
  }

  /** Credits every claim of one list to another. */
  method AddClaims(result: RewardsList, rewards: RewardsList)
    requires result != rewards && result.Valid() && rewards.Valid()
    modifies result
    ensures result.Valid()
    ensures result.State() == Apply(old(result.State()), Items(rewards.State()))
  {
    ghost var start, l := result.State(), rewards.State();
    for i := 0 to |rewards.claims.keys|
      invariant result.Valid() && rewards.State() == l
      invariant result.State() == Apply(start, ClaimCredits(l, i))
    {
      var user := rewards.claims.keys[i];
      rewards.claims.HasKey(user);
      var data := rewards.claims.vals[user];
      ghost var before := result.State();
      for j := 0 to |data.keys|
        invariant result.Valid() && rewards.State() == l
        invariant result.State() == Apply(before, HoldingCredits(user, data, j))
      {
        var token := data.keys[j];
        data.HasKey(token);
        ApplyAppend(before, HoldingCredits(user, data, j), Credit(user, token, data.vals[token]));
        result.IncreaseUserRewards(user, token, data.vals[token]);
      }
      ApplyConcat(start, ClaimCredits(l, i), HoldingCredits(user, data, |data.keys|));
    }
  }

  method CombineRewards(lists: seq<RewardsList>, cycle: int, ghost ls: seq<Ledger>) returns (combined: RewardsList)
    requires |ls| == |lists|
    requires forall i | 0 <= i < |lists| :: WellFormed(ls[i]) && lists[i].State() == ls[i]
    ensures fresh(combined) && combined.Valid() && combined.cycle == cycle
    ensures combined.State() == Combined(ls)
  {
    combined := new RewardsList(cycle);
    for i := 0 to |lists|
      invariant combined.Valid()
      invariant forall j | 0 <= j < |lists| :: lists[j].State() == ls[j]
      invariant combined.State() == Combined(ls[..i])
    {
      AddClaims(combined, lists[i]);
      CombinedStep(ls, i);
    }
    assert ls[..|lists|] == ls;
  }
}
