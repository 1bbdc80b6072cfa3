/**
 Accumulating token rewards per user (assistant/rewards/classes/RewardsList.py).

 A `Ledger` is the value held by a rewards list; a log of credits says how it came about. The class updates its
 fields in place and is proved to follow `Increase`; the lemmas say what a ledger built from any log contains.
 */
module Rewards {
  import opened Prelude
  import opened Dicts
  import opened Abi

  type Holdings = Dict<Address, real>
  type Claims = Dict<Address, Holdings>

  datatype Ledger = Ledger(claims: Claims, totals: Holdings)

  datatype Credit = Credit(user: Address, token: Address, amount: real)

  const NO_REWARDS: Ledger := Ledger(Empty(), Empty())

  // ----- reading a ledger -----

  predicate Has(l: Ledger, u: Address, t: Address) {
    u in l.claims.vals && t in l.claims.vals[u].vals
  }

  function Amount(l: Ledger, u: Address, t: Address): real {
    if Has(l, u, t) then l.claims.vals[u].vals[t] else 0.0
  }

  function Total(l: Ledger, t: Address): real {
    if t in l.totals.vals then l.totals.vals[t] else 0.0
  }

  /** The amounts of token `t` held by the listed users. */
  function SumUsers(l: Ledger, users: seq<Address>, t: Address): real {
    if users == [] then 0.0
    else SumUsers(l, users[..|users| - 1], t) + Amount(l, users[|users| - 1], t)
  }

  ghost predicate GoodHoldings(d: Holdings) {
    d.Valid() && d.keys != [] && forall t | t in d.vals :: d.vals[t] >= 0.0
  }

  /** The dictionaries are well formed, every user holds something, and nothing held is negative. */
  ghost predicate WellFormed(l: Ledger) {
    && l.claims.Valid()
    && l.totals.Valid()
    && forall u | u in l.claims.vals :: GoodHoldings(l.claims.vals[u])
  }

  /** The recorded total of a token is what its holders hold, and a token without holders has no total. */
  ghost predicate TotalAgrees(l: Ledger, t: Address) {
    && Total(l, t) == SumUsers(l, l.claims.keys, t)
    && (t in l.totals.vals <==> exists u :: Has(l, u, t))
  }

  ghost predicate Consistent(l: Ledger) {
    WellFormed(l) && forall t :: TotalAgrees(l, t)
  }

  // ----- crediting -----

  /** A negative amount counts as zero. */
  function Clamp(x: real): real {
    if x < 0.0 then 0.0 else x
  }

  function Bump(d: Holdings, t: Address, x: real): Holdings {
    d.Put(t, if t in d.vals then d.vals[t] + x else x)
  }

  lemma BumpPut(d: Holdings, t: Address, x: real)
    ensures t in d.vals ==> d.Put(t, d.vals[t] + x) == Bump(d, t, x)
    ensures t !in d.vals ==> d.Put(t, x) == Bump(d, t, x)
  {
  }

  function Increase(l: Ledger, c: Credit): Ledger {
    var x := Clamp(c.amount);
    var mine := if c.user in l.claims.vals then l.claims.vals[c.user] else Empty();
    Ledger(l.claims.Put(c.user, Bump(mine, c.token, x)), Bump(l.totals, c.token, x))
  }

  function Apply(l: Ledger, log: seq<Credit>): Ledger {
    if log == [] then l else Increase(Apply(l, log[..|log| - 1]), log[|log| - 1])
  }

  /** What a log grants to one user in one token. */
  function Credited(log: seq<Credit>, u: Address, t: Address): real {
    if log == [] then 0.0
    else
      Credited(log[..|log| - 1], u, t)
      + (var c := log[|log| - 1]; if c.user == u && c.token == t then Clamp(c.amount) else 0.0)
  }

  predicate Mentions(log: seq<Credit>, u: Address, t: Address) {
    exists i | 0 <= i < |log| :: log[i].user == u && log[i].token == t
  }

  lemma ApplyAppend(l: Ledger, log: seq<Credit>, c: Credit)
    ensures Apply(l, log + [c]) == Increase(Apply(l, log), c)
  {
  }

  lemma {:induction false} ApplyConcat(l: Ledger, a: seq<Credit>, b: seq<Credit>)
    ensures Apply(l, a + b) == Apply(Apply(l, a), b)
    decreases |b|
  {
    if b == [] {
      assert a + b == a;
    } else {
      hide Increase;
      ApplyConcat(l, a, b[..|b| - 1]);
      SplitLast(a, b);
    }
  }

  lemma {:induction false} CreditedConcat(a: seq<Credit>, b: seq<Credit>, u: Address, t: Address)
    ensures Credited(a + b, u, t) == Credited(a, u, t) + Credited(b, u, t)
    decreases |b|
  {
    if b == [] {
      assert a + b == a;
    } else {
      CreditedConcat(a, b[..|b| - 1], u, t);
      SplitLast(a, b);
    }
  }

  lemma MentionsConcat(a: seq<Credit>, b: seq<Credit>, u: Address, t: Address)
    ensures Mentions(a + b, u, t) <==> Mentions(a, u, t) || Mentions(b, u, t)
  {
    if Mentions(b, u, t) {
      var i :| 0 <= i < |b| && b[i].user == u && b[i].token == t;
      assert (a + b)[|a| + i].user == u;
    }
    if Mentions(a, u, t) {
      var i :| 0 <= i < |a| && a[i].user == u && a[i].token == t;
      assert (a + b)[i].user == u;
    }
  }

  // ----- what a ledger contains after any log -----

  lemma {:induction false} SumUsersSame(l: Ledger, k: Ledger, users: seq<Address>, t: Address)
    requires forall i | 0 <= i < |users| :: Amount(l, users[i], t) == Amount(k, users[i], t)
    ensures SumUsers(l, users, t) == SumUsers(k, users, t)
  {
    if users == [] {
    } else {
      SumUsersSame(l, k, users[..|users| - 1], t);
    }
  }

  /** Raising one user's amount raises the sum over distinct users by as much. */
  lemma {:induction false} SumUsersBump(l: Ledger, k: Ledger, users: seq<Address>, t: Address, u: Address, x: real)
    requires forall i, j | 0 <= i < j < |users| :: users[i] != users[j]
    requires u in users
    requires Amount(k, u, t) == Amount(l, u, t) + x
    requires forall v | v != u :: Amount(k, v, t) == Amount(l, v, t)
    ensures SumUsers(k, users, t) == SumUsers(l, users, t) + x
  {
    var rest, last := users[..|users| - 1], users[|users| - 1];
    if last == u {
      SumUsersSame(l, k, rest, t);
    } else {
      SumUsersBump(l, k, rest, t, u, x);
    }
  }

  lemma BumpGood(d: Holdings, t: Address, x: real)
    requires d.Valid() && x >= 0.0 && (forall k | k in d.vals :: d.vals[k] >= 0.0)
    ensures GoodHoldings(Bump(d, t, x))
  {
  }

  lemma IncreaseWellFormed(l: Ledger, c: Credit)
    requires WellFormed(l)
    ensures WellFormed(Increase(l, c))
  {
    var mine := if c.user in l.claims.vals then l.claims.vals[c.user] else Empty();
    var x := Clamp(c.amount);
    BumpGood(mine, c.token, x);
    var held := Bump(mine, c.token, x);
    l.claims.PutValid(c.user, held);
    l.totals.PutValid(c.token, if c.token in l.totals.vals then l.totals.vals[c.token] + x else x);
    assert Increase(l, c) == Ledger(l.claims.Put(c.user, held), Bump(l.totals, c.token, x));
    hide GoodHoldings, Increase, Clamp;
  }

  /** One credit changes one amount of one user. */
  lemma IncreaseContents(l: Ledger, c: Credit, u: Address, t: Address)
    ensures var hit := c.user == u && c.token == t;
            && (Has(Increase(l, c), u, t) <==> Has(l, u, t) || hit)
            && Amount(Increase(l, c), u, t) == Amount(l, u, t) + if hit then Clamp(c.amount) else 0.0
  {
  }

  lemma IncreaseTotal(l: Ledger, c: Credit, t: Address)
    ensures var hit := c.token == t;
            && (t in Increase(l, c).totals.vals <==> t in l.totals.vals || hit)
            && Total(Increase(l, c), t) == Total(l, t) + if hit then Clamp(c.amount) else 0.0
  {
  }

  lemma SumUsersAppend(l: Ledger, users: seq<Address>, u: Address, t: Address)
    ensures SumUsers(l, users + [u], t) == SumUsers(l, users, t) + Amount(l, u, t)
  {
  }

  /** If only user `u` changes, by `x`, and may be new, then the sum over all users changes by `x`. */
  lemma SumUsersGrow(l: Ledger, k: Ledger, t: Address, u: Address, x: real)
    requires l.claims.Valid()
    requires k.claims.keys == l.claims.keys + if u in l.claims.keys then [] else [u]
    requires u !in l.claims.keys ==> Amount(l, u, t) == 0.0
    requires forall v :: Amount(k, v, t) == Amount(l, v, t) + if v == u then x else 0.0
    ensures SumUsers(k, k.claims.keys, t) == SumUsers(l, l.claims.keys, t) + x
  {
    var users := l.claims.keys;
    if u in users {
      assert k.claims.keys == users;
      SumUsersBump(l, k, users, t, u, x);
    } else {
      SumUsersAppend(k, users, u, t);
      SumUsersSame(l, k, users, t);
    }
  }

  lemma IncreaseSum(l: Ledger, c: Credit, t: Address)
    requires WellFormed(l)
    ensures var k := Increase(l, c);
            SumUsers(k, k.claims.keys, t)
            == SumUsers(l, l.claims.keys, t) + if t == c.token then Clamp(c.amount) else 0.0
  {
    l.claims.HasKey(c.user);
    var x := if t == c.token then Clamp(c.amount) else 0.0;
    forall v ensures Amount(Increase(l, c), v, t) == Amount(l, v, t) + if v == c.user then x else 0.0 {
      IncreaseContents(l, c, v, t);
    }
    SumUsersGrow(l, Increase(l, c), t, c.user, x);
  }

  lemma IncreaseConsistent(l: Ledger, c: Credit)
    requires Consistent(l)
    ensures Consistent(Increase(l, c))
  {
    var k := Increase(l, c);
    IncreaseWellFormed(l, c);
    forall t ensures TotalAgrees(k, t) {
      assert TotalAgrees(l, t);
      IncreaseSum(l, c, t);
      IncreaseTotal(l, c, t);
      forall u ensures Has(k, u, t) <==> Has(l, u, t) || (u == c.user && t == c.token) {
        IncreaseContents(l, c, u, t);
      }
      assert t == c.token ==> Has(k, c.user, t);
    }
  }

  lemma {:induction false} ApplyContents(l: Ledger, log: seq<Credit>, u: Address, t: Address)
    ensures Amount(Apply(l, log), u, t) == Amount(l, u, t) + Credited(log, u, t)
    ensures Has(Apply(l, log), u, t) <==> Has(l, u, t) || Mentions(log, u, t)
  {
    if log == [] {
    } else {
      var rest, last := log[..|log| - 1], log[|log| - 1];
      ApplyContents(l, rest, u, t);
      IncreaseContents(Apply(l, rest), last, u, t);
      MentionsLast(log, u, t);
    }
  }

  lemma MentionsLast(log: seq<Credit>, u: Address, t: Address)
    requires log != []
    ensures var rest, last := log[..|log| - 1], log[|log| - 1];
            Mentions(log, u, t) <==> Mentions(rest, u, t) || (last.user == u && last.token == t)
  {
  }

  /** The invariant of a rewards list: after any log, every total is the sum of what users hold. */
  lemma {:induction false} ApplyConsistent(l: Ledger, log: seq<Credit>)
    requires Consistent(l)
    ensures Consistent(Apply(l, log))
  {
    if log == [] {
    } else {
      ApplyConsistent(l, log[..|log| - 1]);
      IncreaseConsistent(Apply(l, log[..|log| - 1]), log[|log| - 1]);
    }
  }

  lemma EmptyConsistent()
    ensures Consistent(NO_REWARDS)
  {
  }

  lemma ConsistentTotal(l: Ledger, t: Address)
    requires Consistent(l)
    ensures WellFormed(l) && Total(l, t) == SumUsers(l, l.claims.keys, t)
  {
    assert TotalAgrees(l, t);
  }

  /** All a log grants in one token. */
  function CreditSum(log: seq<Credit>, t: Address): real {
    if log == [] then 0.0
    else
      CreditSum(log[..|log| - 1], t)
      + (var c := log[|log| - 1]; if c.token == t then Clamp(c.amount) else 0.0)
  }

  lemma {:induction false} CreditSumConcat(a: seq<Credit>, b: seq<Credit>, t: Address)
    ensures CreditSum(a + b, t) == CreditSum(a, t) + CreditSum(b, t)
    decreases |b|
  {
    if b == [] {
      assert a + b == a;
    } else {
      CreditSumConcat(a, b[..|b| - 1], t);
      SplitLast(a, b);
    }
  }

  lemma {:induction false} ApplyTotal(l: Ledger, log: seq<Credit>, t: Address)
    ensures Total(Apply(l, log), t) == Total(l, t) + CreditSum(log, t)
  {
    if log == [] {
    } else {
      ApplyTotal(l, log[..|log| - 1], t);
      IncreaseTotal(Apply(l, log[..|log| - 1]), log[|log| - 1], t);
    }
  }

  // ----- order independence -----

  lemma CreditedRemove(log: seq<Credit>, i: nat, u: Address, t: Address)
    requires i < |log|
    ensures Credited(log, u, t) == Credited(log[..i] + log[i + 1..], u, t) + Credited([log[i]], u, t)
    ensures CreditSum(log, t) == CreditSum(log[..i] + log[i + 1..], t) + CreditSum([log[i]], t)
  {
    var before, one, after := log[..i], [log[i]], log[i + 1..];
    CreditedConcat(before, after, u, t);
    CreditedConcat(before, one + after, u, t);
    CreditedConcat(one, after, u, t);
    CreditSumConcat(before, after, t);
    CreditSumConcat(before, one + after, t);
    CreditSumConcat(one, after, t);
    assert log == before + (one + after);
  }

  lemma {:induction false} CreditedPermutation(a: seq<Credit>, b: seq<Credit>, u: Address, t: Address)
    requires multiset(a) == multiset(b)
    ensures Credited(a, u, t) == Credited(b, u, t)
    ensures CreditSum(a, t) == CreditSum(b, t)
    decreases |a|
  {
    if a == [] {
      assert |multiset(b)| == 0;
      assert b == [];
    } else {
      var c := a[|a| - 1];
      assert a == a[..|a| - 1] + [c];
      assert c in multiset(b);
      var i :| 0 <= i < |b| && b[i] == c;
      var rest := b[..i] + b[i + 1..];
      assert b == b[..i] + [c] + b[i + 1..];
      assert multiset(b) == multiset(rest) + multiset{c};
      assert multiset(a) == multiset(a[..|a| - 1]) + multiset{c};
      MultisetCancel(multiset(a[..|a| - 1]), multiset(rest), multiset{c});
      CreditedPermutation(a[..|a| - 1], rest, u, t);
      CreditedRemove(b, i, u, t);
      CreditedConcat(a[..|a| - 1], [c], u, t);
      CreditSumConcat(a[..|a| - 1], [c], t);
    }
  }

  /** Crediting in any other order gives every user the same tokens and amounts, and the same totals. */
  lemma OrderIrrelevant(a: seq<Credit>, b: seq<Credit>, u: Address, t: Address)
    requires multiset(a) == multiset(b)
    ensures Amount(Apply(NO_REWARDS, a), u, t) == Amount(Apply(NO_REWARDS, b), u, t)
    ensures Has(Apply(NO_REWARDS, a), u, t) <==> Has(Apply(NO_REWARDS, b), u, t)
    ensures Total(Apply(NO_REWARDS, a), t) == Total(Apply(NO_REWARDS, b), t)
  {
    CreditedPermutation(a, b, u, t);
    ApplyTotal(NO_REWARDS, a, t);
    ApplyTotal(NO_REWARDS, b, t);
    ApplyContents(NO_REWARDS, a, u, t);
    ApplyContents(NO_REWARDS, b, u, t);
    if Mentions(a, u, t) {
      var i :| 0 <= i < |a| && a[i].user == u && a[i].token == t;
      assert a[i] in multiset(b);
    }
    if Mentions(b, u, t) {
      var i :| 0 <= i < |b| && b[i].user == u && b[i].token == t;
      assert b[i] in multiset(a);
    }
  }

  // ----- iterating over the claims -----

  /** The first `n` entries of one user's holdings, as credits. */
  ghost function HoldingCredits(u: Address, d: Holdings, n: nat): seq<Credit>
    requires d.Valid() && n <= |d.keys|
  {
    if n == 0 then []
    else
      d.HasKey(d.keys[n - 1]);
      HoldingCredits(u, d, n - 1) + [Credit(u, d.keys[n - 1], d.vals[d.keys[n - 1]])]
  }

  /** The claims of the first `n` users, in the order in which the dictionaries are iterated. */
  ghost function ClaimCredits(l: Ledger, n: nat): seq<Credit>
    requires WellFormed(l) && n <= |l.claims.keys|
  {
    if n == 0 then []
    else
      l.claims.HasKey(l.claims.keys[n - 1]);
      var u := l.claims.keys[n - 1];
      ClaimCredits(l, n - 1) + HoldingCredits(u, l.claims.vals[u], |l.claims.vals[u].keys|)
  }

  ghost function Items(l: Ledger): seq<Credit>
    requires WellFormed(l)
  {
    ClaimCredits(l, |l.claims.keys|)
  }

  lemma {:induction false} HoldingCreditsContents(u: Address, d: Holdings, n: nat, v: Address, t: Address)
    requires GoodHoldings(d) && n <= |d.keys|
    ensures Mentions(HoldingCredits(u, d, n), v, t) <==> v == u && t in d.keys[..n]
    ensures Credited(HoldingCredits(u, d, n), v, t)
         == if v == u && t in d.keys[..n] && t in d.vals then d.vals[t] else 0.0
  {
    if n == 0 {
    } else {
      var k := d.keys[n - 1];
      d.HasKey(k);
      HoldingCreditsContents(u, d, n - 1, v, t);
      PrefixMember(d.keys, n, t);
      var before, log := HoldingCredits(u, d, n - 1), HoldingCredits(u, d, n);
      assert log[..|log| - 1] == before;
      MentionsLast(log, v, t);
    }
  }

  lemma UserCreditsContents(u: Address, d: Holdings, v: Address, t: Address)
    requires GoodHoldings(d)
    ensures var log := HoldingCredits(u, d, |d.keys|);
            && (Mentions(log, v, t) <==> v == u && t in d.vals)
            && Credited(log, v, t) == if v == u && t in d.vals then d.vals[t] else 0.0
  {
    HoldingCreditsContents(u, d, |d.keys|, v, t);
    d.HasKey(t);
    assert d.keys[..|d.keys|] == d.keys;
  }

  lemma {:induction false} ClaimCreditsContents(l: Ledger, n: nat, v: Address, t: Address)
    requires WellFormed(l) && n <= |l.claims.keys|
    ensures Mentions(ClaimCredits(l, n), v, t) <==> v in l.claims.keys[..n] && Has(l, v, t)
    ensures Credited(ClaimCredits(l, n), v, t) == if v in l.claims.keys[..n] then Amount(l, v, t) else 0.0
  {
    if n == 0 {
    } else {
      var u := l.claims.keys[n - 1];
      l.claims.HasKey(u);
      var d := l.claims.vals[u];
      ClaimCreditsContents(l, n - 1, v, t);
      UserCreditsContents(u, d, v, t);
      MentionsConcat(ClaimCredits(l, n - 1), HoldingCredits(u, d, |d.keys|), v, t);
      CreditedConcat(ClaimCredits(l, n - 1), HoldingCredits(u, d, |d.keys|), v, t);
      PrefixMember(l.claims.keys, n, v);
    }
  }

  /** Iterating over a ledger meets each of its entries once. */
  lemma ItemsContents(l: Ledger, v: Address, t: Address)
    requires WellFormed(l)
    ensures Mentions(Items(l), v, t) <==> Has(l, v, t)
    ensures Credited(Items(l), v, t) == Amount(l, v, t)
  {
    ClaimCreditsContents(l, |l.claims.keys|, v, t);
    assert l.claims.keys[..|l.claims.keys|] == l.claims.keys;
    l.claims.HasKey(v);
  }

  /** All credits of a log go to one user. */
  predicate AllTo(log: seq<Credit>, u: Address) {
    forall i | 0 <= i < |log| :: log[i].user == u
  }

  lemma {:induction false} SumOfOneUser(log: seq<Credit>, u: Address, t: Address)
    requires AllTo(log, u)
    ensures CreditSum(log, t) == Credited(log, u, t)
  {
    if log == [] {
    } else {
      SumOfOneUser(log[..|log| - 1], u, t);
    }
  }

  lemma {:induction false} HoldingCreditsTo(u: Address, d: Holdings, n: nat)
    requires d.Valid() && n <= |d.keys|
    ensures AllTo(HoldingCredits(u, d, n), u)
  {
    if n == 0 {
    } else {
      HoldingCreditsTo(u, d, n - 1);
    }
  }

  lemma {:induction false} ClaimCreditsSum(l: Ledger, n: nat, t: Address)
    requires WellFormed(l) && n <= |l.claims.keys|
    ensures CreditSum(ClaimCredits(l, n), t) == SumUsers(l, l.claims.keys[..n], t)
  {
    if n == 0 {
    } else {
      var u := l.claims.keys[n - 1];
      l.claims.HasKey(u);
      var d := l.claims.vals[u];
      assert l.claims.keys[..n][..n - 1] == l.claims.keys[..n - 1];
      ClaimCreditsSum(l, n - 1, t);
      HoldingCreditsTo(u, d, |d.keys|);
      SumOfOneUser(HoldingCredits(u, d, |d.keys|), u, t);
      UserCreditsContents(u, d, u, t);
      CreditSumConcat(ClaimCredits(l, n - 1), HoldingCredits(u, d, |d.keys|), t);
    }
  }

  /** Iterating over a consistent ledger meets its totals. */
  lemma ItemsSum(l: Ledger, t: Address)
    requires Consistent(l)
    ensures CreditSum(Items(l), t) == Total(l, t)
  {
    ClaimCreditsSum(l, |l.claims.keys|, t);
    assert l.claims.keys[..|l.claims.keys|] == l.claims.keys;
    ConsistentTotal(l, t);
  }

  // ----- the order of users -----

  /** Crediting never moves a user; new users go last. */
  lemma {:induction false} ApplyKeepsOrder(l: Ledger, log: seq<Credit>)
    ensures l.claims.keys <= Apply(l, log).claims.keys
  {
    if log == [] {
    } else {
      ApplyKeepsOrder(l, log[..|log| - 1]);
    }
  }

  lemma {:induction false} OneUserOrder(l: Ledger, log: seq<Credit>, u: Address)
    requires AllTo(log, u)
    ensures Apply(l, log).claims.keys == if log == [] || u in l.claims.vals then l.claims.keys else l.claims.keys + [u]
    ensures forall v :: v in Apply(l, log).claims.vals <==> v in l.claims.vals || (log != [] && v == u)
  {
    if log == [] {
    } else {
      OneUserOrder(l, log[..|log| - 1], u);
    }
  }

  lemma NextClaims(l: Ledger, n: nat) returns (log: seq<Credit>)
    requires WellFormed(l) && n < |l.claims.keys|
    ensures ClaimCredits(l, n + 1) == ClaimCredits(l, n) + log
    ensures log != [] && AllTo(log, l.claims.keys[n]) && l.claims.keys[n] !in l.claims.keys[..n]
  {
    var u := l.claims.keys[n];
    l.claims.HasKey(u);
    log := HoldingCredits(u, l.claims.vals[u], |l.claims.vals[u].keys|);
    HoldingCreditsTo(u, l.claims.vals[u], |l.claims.vals[u].keys|);
  }

  lemma NoClaimsOrder(l: Ledger)
    requires WellFormed(l)
    ensures var m := Apply(NO_REWARDS, ClaimCredits(l, 0));
            m.claims.keys == [] && forall v :: v !in m.claims.vals
  {
  }

  lemma {:induction false} ClaimCreditsOrder(l: Ledger, n: nat)
    requires WellFormed(l) && n <= |l.claims.keys|
    ensures var m := Apply(NO_REWARDS, ClaimCredits(l, n));
            && m.claims.keys == l.claims.keys[..n]
            && forall v :: v in m.claims.vals <==> v in l.claims.keys[..n]
  {
    hide Apply, ClaimCredits, WellFormed;
    if n == 0 {
      NoClaimsOrder(l);
    } else {
      var log := NextClaims(l, n - 1);
      ClaimCreditsOrder(l, n - 1);
      ApplyConcat(NO_REWARDS, ClaimCredits(l, n - 1), log);
      OneUserOrder(Apply(NO_REWARDS, ClaimCredits(l, n - 1)), log, l.claims.keys[n - 1]);
      forall v ensures v in l.claims.keys[..n] <==> v in l.claims.keys[..n - 1] || v == l.claims.keys[n - 1] {
        PrefixMember(l.claims.keys, n, v);
      }
    }
  }

  /** Crediting everything a list holds to an empty list keeps the order of its users. */
  lemma ItemsOrder(l: Ledger)
    requires WellFormed(l)
    ensures Apply(NO_REWARDS, Items(l)).claims.keys == l.claims.keys
  {
    ClaimCreditsOrder(l, |l.claims.keys|);
    assert l.claims.keys[..|l.claims.keys|] == l.claims.keys;
  }

  // ----- the nodes of a ledger -----

  ghost function WholeAmounts(d: Holdings): (amounts: seq<int>)
    requires d.Valid()
    ensures |amounts| == |d.keys|
  {
    seq(|d.keys|, i requires 0 <= i < |d.keys| => d.HasKey(d.keys[i]); Trunc(d.vals[d.keys[i]]))
  }

  ghost function NodeOf(u: Address, d: Holdings, cycle: int, index: int): Node
    requires d.Valid()
  {
    Node(u, d.keys, WholeAmounts(d), cycle, index)
  }

  /** One node per user, indexed in the order in which users were first credited. */
  ghost function NodeAt(l: Ledger, cycle: int, i: nat): Node
    requires WellFormed(l) && i < |l.claims.keys|
  {
    l.claims.HasKey(l.claims.keys[i]);
    NodeOf(l.claims.keys[i], l.claims.vals[l.claims.keys[i]], cycle, i)
  }

  ghost function Nodes(l: Ledger, cycle: int): seq<Node>
    requires WellFormed(l)
  {
    seq(|l.claims.keys|, i requires 0 <= i < |l.claims.keys| => NodeAt(l, cycle, i))
  }

  ghost predicate Encodable(l: Ledger, cycle: int)
    requires WellFormed(l)
  {
    forall i | 0 <= i < |l.claims.keys| :: Encode(NodeAt(l, cycle, i)).Success?
  }

  /** The byte strings whose digests are the leaves. */
  ghost function Encodings(l: Ledger, cycle: int): seq<Bytes>
    requires WellFormed(l) && Encodable(l, cycle)
  {
    seq(|l.claims.keys|, i requires 0 <= i < |l.claims.keys| => Encode(NodeAt(l, cycle, i)).value)
  }

  class RewardsList {
    var claims: Claims
    var totals: Holdings
    const cycle: int

    ghost function State(): Ledger
      reads this
    {
      Ledger(claims, totals)
    }

    ghost predicate Valid()
      reads this
    {
      WellFormed(State())
    }

    constructor (cycle: int)
      ensures this.cycle == cycle && State() == NO_REWARDS && Valid()
    {
      claims, totals := Empty(), Empty();
      this.cycle := cycle;
    }

    method IncreaseUserRewards(user: Address, token: Address, amount: real)
      requires Valid()
      modifies this
      ensures State() == Increase(old(State()), Credit(user, token, amount))
      ensures var x := if amount < 0.0 then 0.0 else amount;
              && (forall u, t :: Amount(State(), u, t)
                                 == old(Amount(State(), u, t)) + if u == user && t == token then x else 0.0)
              && (forall t :: Total(State(), t) == old(Total(State(), t)) + if t == token then x else 0.0)
      ensures Valid()
    {
      hide WellFormed;
      ghost var before, c := State(), Credit(user, token, amount);
      IncreaseWellFormed(before, c);
      forall u, t ensures Amount(Increase(before, c), u, t)
                       == Amount(before, u, t) + if u == user && t == token then Clamp(amount) else 0.0 {
        IncreaseContents(before, c, u, t);
      }
      forall t ensures Total(Increase(before, c), t) == Total(before, t) + if t == token then Clamp(amount) else 0.0 {
        IncreaseTotal(before, c, t);
      }
      var toAdd := amount;
      if toAdd < 0.0 {
        toAdd := 0.0;
      }
      var mine := if user in claims.vals then claims.vals[user] else Empty();
      BumpPut(mine, token, toAdd);
      BumpPut(totals, token, toAdd);
      if token in mine.vals {
        mine := mine.Put(token, mine.vals[token] + toAdd);
      } else {
        mine := mine.Put(token, toAdd);
      }
      claims := claims.Put(user, mine);
      if token in totals.vals {
        totals := totals.Put(token, totals.vals[token] + toAdd);
      } else {
        totals := totals.Put(token, toAdd);
      }
    }

    static method ToNodeEntry(user: Address, userData: Holdings, cycle: int, index: int)
      returns (node: Node, encoded: Result<Bytes>)
      requires userData.Valid()
      ensures node == NodeOf(user, userData, cycle, index)
      ensures node.user == user && node.cycle == cycle && node.index == index && node.tokens == userData.keys
      ensures |node.cumulativeAmounts| == |node.tokens|
      ensures forall i | 0 <= i < |node.tokens| ::
                && node.tokens[i] in userData.vals
                && node.cumulativeAmounts[i] == Trunc(userData.vals[node.tokens[i]])
      ensures encoded == Encode(node)
    {
      var tokens: seq<Address>, amounts: seq<int> := [], [];
      for i := 0 to |userData.keys|
        invariant tokens == userData.keys[..i]
        invariant amounts == WholeAmounts(userData)[..i]
      {
        userData.HasKey(userData.keys[i]);
        tokens := tokens + [userData.keys[i]];
        amounts := amounts + [Trunc(userData.vals[userData.keys[i]])];
      }
      node := Node(user, tokens, amounts, cycle, index);
      encoded := Encode(node);
    }

    /** All nodes with their encodings, or the error of the first node that does not fit its types. */
    method ToMerkleFormat() returns (r: Result<(seq<Node>, seq<Bytes>)>)
      requires Valid()
      ensures r.Success? <==> Encodable(State(), cycle)
      ensures r.Failure? ==> r.error == EncodingError
      ensures r.Success? ==> r.value == (Nodes(State(), cycle), Encodings(State(), cycle))
    {
      var nodes, encodings := [], [];
      for i := 0 to |claims.keys|
        invariant |nodes| == i == |encodings|
        invariant forall j | 0 <= j < i :: nodes[j] == NodeAt(State(), cycle, j)
        invariant forall j | 0 <= j < i :: Encode(nodes[j]) == Success(encodings[j])
      {
        var user := claims.keys[i];
        claims.HasKey(user);
        var node, encoded := ToNodeEntry(user, claims.vals[user], cycle, i);
        if encoded.Failure? {
          assert Encode(NodeAt(State(), cycle, i)).Failure?;
          return Failure(EncodingError);
        }
        nodes := nodes + [node];
        encodings := encodings + [encoded.value];
      }
      assert nodes == Nodes(State(), cycle) && encodings == Encodings(State(), cycle);
      return Success((nodes, encodings));
    }
  }
}
