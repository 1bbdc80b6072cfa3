/**
 The setts and their balance objects, and what becomes of these objects while stakes are collected
 (assistant/rewards/boost.py:21-31, 78-127).

 Balances are converted to dollars in place, and three groups of setts are combined in place. The same objects are then
 used for the snapshots of the setts, so a snapshot sees dollars, and for some users the balances of a whole group.
 */
module Vaults {
  import opened Prelude
  import opened Dicts
  import opened Abi
  import opened Schedules
  import opened Balances
  import Boost
  import Multipliers

  /** A sett with its balance objects and the dollars per unit of balance, and the same at one moment as a value. */
  datatype Vault = Vault(name: string, address: Address, rate: real, users: UserBalances, schedules: seq<Schedule>)
  datatype Sett = Sett(name: string, address: Address, rate: real, sheet: Sheet, schedules: seq<Schedule>)

  /** Wallet balances of the two native tokens, in dollars. */
  datatype Wallets = Wallets(digg: Sheet, badger: Sheet)
  datatype WalletBalances = WalletBalances(digg: UserBalances, badger: UserBalances)

  const DIGG_SETTS: set<string> := {"native.uniDiggWbtc", "native.sushiDiggWbtc", "native.digg"}
  const BADGER_SETTS: set<string> := {"native.badger", "native.uniBadgerWbtc", "native.sushiBadgerWbtc"}
  const NO_STAKE: set<string> := {"experimental.digg"}

  datatype Group = Digg | Badger | NonNative | Outside

  function GroupOf(name: string): Group {
    if name == "experimental.digg" then Outside
    else if name in DIGG_SETTS then Digg
    else if name in BADGER_SETTS then Badger
    else NonNative
  }

  /** Setts whose balances are separate objects. */
  ghost predicate SeparateVaults(vaults: seq<Vault>)
    reads set i | 0 <= i < |vaults| :: vaults[i].users
  {
    && (forall i | 0 <= i < |vaults| :: vaults[i].users.Valid())
    && (forall i, j | 0 <= i < j < |vaults| :: vaults[i].users.Objects() !! vaults[j].users.Objects())
  }

  /** The setts as values while their balances are untouched. */
  ghost predicate Match(vaults: seq<Vault>, setts: seq<Sett>, n: nat)
    reads set i | 0 <= i < |vaults| :: vaults[i].users
    reads set i, o | 0 <= i < |vaults| && o in vaults[i].users.Objects() :: o
  {
    && |setts| == |vaults|
    && forall i | n <= i < |vaults| ::
         setts[i] == Sett(
           vaults[i].name, vaults[i].address, vaults[i].rate, vaults[i].users.View(), vaults[i].schedules)
  }

  ghost function AllObjects(vaults: seq<Vault>): set<UserBalance>
    reads set i | 0 <= i < |vaults| :: vaults[i].users
  {
    set i, o | 0 <= i < |vaults| && o in vaults[i].users.Objects() :: o
  }

  lemma AllAllocated(vaults: seq<Vault>)
    ensures forall o | o in AllObjects(vaults) :: allocated(o)
  {
  }

  /** The wallets' balances are objects of their own. */
  ghost predicate SeparateWallets(vaults: seq<Vault>, wallets: WalletBalances)
    reads wallets.digg, wallets.badger
    reads set i | 0 <= i < |vaults| :: vaults[i].users
  {
    && wallets.digg.Valid() && wallets.badger.Valid() && wallets.digg.Objects() !! wallets.badger.Objects()
    && AllObjects(vaults) !! (wallets.digg.Objects() + wallets.badger.Objects())
  }

  // ----- what a group holds -----

  function Usd(s: Sett): Sheet {
    Scaled(s.sheet, s.rate)
  }

  /** The balances of the first `n` setts of a group, in dollars, added up. */
  function Pooled(setts: seq<Sett>, g: Group, n: nat): Sheet
    requires n <= |setts|
  {
    if n == 0 then Empty()
    else
      var rest := Pooled(setts, g, n - 1);
      if GroupOf(setts[n - 1].name) == g then Merge(rest, Usd(setts[n - 1])) else rest
  }

  /** One of the first `n` setts of the group has the user. */
  predicate ListedBefore(setts: seq<Sett>, g: Group, n: nat, a: Address)
    requires n <= |setts|
  {
    exists u | 0 <= u < n :: GroupOf(setts[u].name) == g && a in setts[u].sheet.vals
  }

  ghost predicate ValidSheets(setts: seq<Sett>) {
    forall i | 0 <= i < |setts| :: setts[i].sheet.Valid()
  }

  lemma UsdValid(s: Sett)
    requires s.sheet.Valid()
    ensures Usd(s).Valid() && Usd(s).vals.Keys == s.sheet.vals.Keys
  {
  }

  lemma ListedNext(setts: seq<Sett>, g: Group, n: nat, a: Address)
    requires n < |setts|
    ensures ListedBefore(setts, g, n + 1, a) <==>
            ListedBefore(setts, g, n, a) || (GroupOf(setts[n].name) == g && a in setts[n].sheet.vals)
  {
    hide GroupOf;
  }

  lemma {:induction false} PooledContents(setts: seq<Sett>, g: Group, n: nat, a: Address)
    requires ValidSheets(setts) && n <= |setts|
    ensures Pooled(setts, g, n).Valid()
    ensures a in Pooled(setts, g, n).vals <==> ListedBefore(setts, g, n, a)
  {
    hide Merge, Usd, GroupOf, ListedBefore;
    if n == 0 {
      NoneListed(setts, g, a);
    } else {
      PooledContents(setts, g, n - 1, a);
      ListedNext(setts, g, n - 1, a);
      UsdValid(setts[n - 1]);
      MergeContents(Pooled(setts, g, n - 1), Usd(setts[n - 1]), a);
    }
  }

  lemma NoneListed(setts: seq<Sett>, g: Group, a: Address)
    ensures !ListedBefore(setts, g, 0, a)
  {
  }

  /** All stakes of a group, wallets included. */
  function GroupTotal(setts: seq<Sett>, w: Wallets, g: Group): Sheet {
    var pooled := Pooled(setts, g, |setts|);
    match g
    case Digg => Merge(pooled, w.digg)
    case Badger => Merge(pooled, w.badger)
    case NonNative => pooled
    case Outside => pooled
  }

  /** The stakes that are ranked: three groups of balances in dollars. */
  function StakesOf(setts: seq<Sett>, w: Wallets): Boost.Stakes {
    Boost.Stakes(GroupTotal(setts, w, Digg), GroupTotal(setts, w, Badger), GroupTotal(setts, w, NonNative))
  }

  /**
   What the snapshot of sett `v` sees: the dollars of each user; for a user whom no earlier sett of the group has, the
   dollars of the whole group.
   */
  function SeenSheet(setts: seq<Sett>, w: Wallets, v: nat): Sheet
    requires v < |setts|
  {
    var s := setts[v];
    var g := GroupOf(s.name);
    if g == Outside then s.sheet
    else
      Dict(s.sheet.keys, map a | a in s.sheet.vals ::
        if ListedBefore(setts, g, v, a) then Times(s.rate, s.sheet.vals[a]) else BalanceIn(GroupTotal(setts, w, g), a))
  }

  function Seen(setts: seq<Sett>, w: Wallets): seq<Sett> {
    seq(|setts|, v requires 0 <= v < |setts| => setts[v].(sheet := SeenSheet(setts, w, v)))
  }

  /** The boosts of a cycle, by the stakes in its setts and wallets. */
  ghost function BoostsFor(setts: seq<Sett>, w: Wallets): (boosts: map<Address, real>)
    requires ValidSheets(setts)
    ensures Multipliers.GoodBoosts(boosts)
  {
    PooledContents(setts, NonNative, |setts|, 0);
    Boost.PreparedBoosts(StakesOf(setts, w))
  }

  lemma SeenFields(setts: seq<Sett>, w: Wallets)
    requires ValidSheets(setts)
    ensures ValidSheets(Seen(setts, w))
    ensures forall v | 0 <= v < |setts| ::
              Seen(setts, w)[v].name == setts[v].name && Seen(setts, w)[v].schedules == setts[v].schedules
  {
    hide GroupOf, ListedBefore, GroupTotal;
    forall v | 0 <= v < |setts| ensures SeenSheet(setts, w, v).Valid() {
      assert setts[v].sheet.Valid();
    }
  }

  // ----- what stakes and sheets mean -----

  /** The dollars of a user in one sett of a group; none in a sett of another group. */
  function Dollars(s: Sett, g: Group, a: Address): real {
    if GroupOf(s.name) == g then Times(s.rate, BalanceIn(s.sheet, a)) else 0.0
  }

  function SumDollars(setts: seq<Sett>, g: Group, n: nat, a: Address): real
    requires n <= |setts|
  {
    if n == 0 then 0.0 else SumDollars(setts, g, n - 1, a) + Dollars(setts[n - 1], g, a)
  }

  function WalletOf(w: Wallets, g: Group): Sheet {
    match g
    case Digg => w.digg
    case Badger => w.badger
    case NonNative => Empty()
    case Outside => Empty()
  }

  lemma {:induction false} PooledBalance(setts: seq<Sett>, g: Group, n: nat, a: Address)
    requires ValidSheets(setts) && n <= |setts|
    ensures BalanceIn(Pooled(setts, g, n), a) == SumDollars(setts, g, n, a)
  {
    hide Merge, GroupOf, BalanceIn, Scaled;
    if n == 0 {
      NothingIn(a);
    } else {
      PooledBalance(setts, g, n - 1, a);
      PooledContents(setts, g, n - 1, a);
      UsdValid(setts[n - 1]);
      ScaledBalance(setts[n - 1].sheet, setts[n - 1].rate, a);
      MergeContents(Pooled(setts, g, n - 1), Usd(setts[n - 1]), a);
    }
  }

  lemma NothingIn(a: Address)
    ensures BalanceIn(Empty(), a) == 0.0
  {
  }

  /** The stake of a user in a group is the sum of the dollars in all its setts, and in the wallet. */
  lemma GroupTotalContents(setts: seq<Sett>, w: Wallets, g: Group, a: Address)
    requires ValidSheets(setts) && w.digg.Valid() && w.badger.Valid()
    ensures GroupTotal(setts, w, g).Valid()
    ensures BalanceIn(GroupTotal(setts, w, g), a) == SumDollars(setts, g, |setts|, a) + BalanceIn(WalletOf(w, g), a)
  {
    hide Merge, Pooled, BalanceIn, SumDollars;
    NothingIn(a);
    PooledContents(setts, g, |setts|, a);
    PooledBalance(setts, g, |setts|, a);
    MergeContents(Pooled(setts, g, |setts|), w.digg, a);
    MergeContents(Pooled(setts, g, |setts|), w.badger, a);
  }

  /** The dollars of a user in the setts with one of the names, among the first `n`. */
  function DollarsIn(setts: seq<Sett>, names: set<string>, n: nat, a: Address): real
    requires n <= |setts|
  {
    if n == 0 then 0.0
    else
      DollarsIn(setts, names, n - 1, a)
      + if setts[n - 1].name in names then Times(setts[n - 1].rate, BalanceIn(setts[n - 1].sheet, a)) else 0.0
  }

  function DollarsOutside(setts: seq<Sett>, names: set<string>, n: nat, a: Address): real
    requires n <= |setts|
  {
    if n == 0 then 0.0
    else
      DollarsOutside(setts, names, n - 1, a)
      + if setts[n - 1].name in names then 0.0 else Times(setts[n - 1].rate, BalanceIn(setts[n - 1].sheet, a))
  }

  lemma {:induction false} DollarsByName(setts: seq<Sett>, n: nat, a: Address)
    requires n <= |setts|
    ensures SumDollars(setts, Digg, n, a) == DollarsIn(setts, DIGG_SETTS, n, a)
    ensures SumDollars(setts, Badger, n, a) == DollarsIn(setts, BADGER_SETTS, n, a)
    ensures SumDollars(setts, NonNative, n, a) == DollarsOutside(setts, DIGG_SETTS + BADGER_SETTS + NO_STAKE, n, a)
  {
    if n == 0 {
    } else {
      DollarsByName(setts, n - 1, a);
      hide Times, BalanceIn;
    }
  }

  /** The three stakes of a user, by the names of the setts. */
  lemma StakesByName(setts: seq<Sett>, w: Wallets, a: Address)
    requires ValidSheets(setts) && w.digg.Valid() && w.badger.Valid()
    ensures var st, n := StakesOf(setts, w), |setts|;
            && st.digg.Valid() && st.badger.Valid() && st.nonNative.Valid()
            && BalanceIn(st.digg, a) == DollarsIn(setts, DIGG_SETTS, n, a) + BalanceIn(w.digg, a)
            && BalanceIn(st.badger, a) == DollarsIn(setts, BADGER_SETTS, n, a) + BalanceIn(w.badger, a)
            && BalanceIn(st.nonNative, a) == DollarsOutside(setts, DIGG_SETTS + BADGER_SETTS + NO_STAKE, n, a)
  {
    hide GroupTotal, BalanceIn, SumDollars, DollarsIn, DollarsOutside;
    GroupTotalContents(setts, w, Digg, a);
    GroupTotalContents(setts, w, Badger, a);
    GroupTotalContents(setts, w, NonNative, a);
    DollarsByName(setts, |setts|, a);
    NothingIn(a);
  }

  /** The dollars that count for a user's native stake: what is above one dollar in either group, wallets included. */
  function NativeDollars(setts: seq<Sett>, w: Wallets, a: Address): real {
    Boost.WithoutDust(DollarsIn(setts, DIGG_SETTS, |setts|, a) + BalanceIn(w.digg, a))
    + Boost.WithoutDust(DollarsIn(setts, BADGER_SETTS, |setts|, a) + BalanceIn(w.badger, a))
  }

  function OtherDollars(setts: seq<Sett>, a: Address): real {
    DollarsOutside(setts, DIGG_SETTS + BADGER_SETTS + NO_STAKE, |setts|, a)
  }

  /**
   From balances to boosts: exactly the users with more than one dollar in other setts get a boost; of two of them the
   one with more native dollars per other dollar gets the higher one; and without native dollars it is exactly 1.
   */
  lemma BoostsByDollars(setts: seq<Sett>, w: Wallets, a: Address, b: Address)
    requires ValidSheets(setts) && w.digg.Valid() && w.badger.Valid()
    ensures a in BoostsFor(setts, w) <==> OtherDollars(setts, a) > 1.0
    ensures a in BoostsFor(setts, w) && b in BoostsFor(setts, w) ==>
              var x, y := NativeDollars(setts, w, a), NativeDollars(setts, w, b);
              && (x * OtherDollars(setts, b) > y * OtherDollars(setts, a) ==>
                    BoostsFor(setts, w)[a] > BoostsFor(setts, w)[b])
              && (x == 0.0 ==> BoostsFor(setts, w)[a] == 1.0)
  {
    hide StakesOf, DollarsIn, DollarsOutside, BalanceIn, Boost.WithoutDust, Boost.PreparedBoosts;
    StakesByName(setts, w, a);
    StakesByName(setts, w, b);
    Boost.PreparedByStakes(StakesOf(setts, w), a, b);
  }

  ghost predicate PositiveSetts(setts: seq<Sett>, w: Wallets) {
    && (forall i | 0 <= i < |setts| ::
          setts[i].rate > 0.0 && PositiveSheet(setts[i].sheet))
    && PositiveSheet(w.digg) && PositiveSheet(w.badger)
  }

  ghost predicate PositiveSheet(s: Sheet) {
    s.Valid() && forall a | a in s.vals :: s.vals[a] > 0.0
  }

  lemma DollarsPositive(s: Sett, g: Group, a: Address)
    requires s.rate > 0.0 && forall a | a in s.sheet.vals :: s.sheet.vals[a] > 0.0
    ensures Dollars(s, g, a) >= 0.0
    ensures Dollars(s, g, a) > 0.0 <==> GroupOf(s.name) == g && a in s.sheet.vals
  {
    hide GroupOf;
  }

  /** All dollars of a user in a group lie in sett `v` exactly when no other sett of the group has the user. */
  lemma {:induction false} OnlyIn(setts: seq<Sett>, w: Wallets, g: Group, n: nat, v: nat, a: Address)
    requires PositiveSetts(setts, w) && n <= |setts| && v < |setts|
    ensures SumDollars(setts, g, n, a) >= if v < n then Dollars(setts[v], g, a) else 0.0
    ensures SumDollars(setts, g, n, a) == (if v < n then Dollars(setts[v], g, a) else 0.0) <==>
            forall u | 0 <= u < n && u != v :: !(GroupOf(setts[u].name) == g && a in setts[u].sheet.vals)
  {
    hide Dollars, GroupOf;
    if n == 0 {
    } else {
      OnlyIn(setts, w, g, n - 1, v, a);
      DollarsPositive(setts[n - 1], g, a);
    }
  }

  /** Every user whose object the group keeps for sett `v` has nothing else in the group. */
  ghost predicate Undistorted(setts: seq<Sett>, w: Wallets, v: nat)
    requires v < |setts|
  {
    var g := GroupOf(setts[v].name);
    forall a | a in setts[v].sheet.vals && !ListedBefore(setts, g, v, a) ::
      && a !in WalletOf(w, g).vals
      && forall u | 0 <= u < |setts| && u != v :: !(GroupOf(setts[u].name) == g && a in setts[u].sheet.vals)
  }

  /** The group holds for a user of sett `v` just the sett's own dollars, if and only if the user has nothing else. */
  lemma OwnDollars(setts: seq<Sett>, w: Wallets, v: nat, a: Address)
    requires PositiveSetts(setts, w) && v < |setts| && a in setts[v].sheet.vals
    ensures var g := GroupOf(setts[v].name);
            BalanceIn(GroupTotal(setts, w, g), a) == Times(setts[v].rate, setts[v].sheet.vals[a]) <==>
            && a !in WalletOf(w, g).vals
            && forall u | 0 <= u < |setts| && u != v :: !(GroupOf(setts[u].name) == g && a in setts[u].sheet.vals)
  {
    hide GroupOf, GroupTotal, SumDollars;
    var g := GroupOf(setts[v].name);
    GroupTotalContents(setts, w, g, a);
    OnlyIn(setts, w, g, |setts|, v, a);
    WalletPositive(w, g, a);
  }

  lemma WalletPositive(w: Wallets, g: Group, a: Address)
    requires PositiveSheet(w.digg) && PositiveSheet(w.badger)
    ensures BalanceIn(WalletOf(w, g), a) >= 0.0
    ensures BalanceIn(WalletOf(w, g), a) > 0.0 <==> a in WalletOf(w, g).vals
  {
  }

  /**
   With positive balances, a snapshot sees just the sett's own balances in dollars if and only if no user whose object
   the group keeps for it has anything else in the group.
   */
  lemma SeenIsOwn(setts: seq<Sett>, w: Wallets, v: nat)
    requires PositiveSetts(setts, w) && v < |setts| && GroupOf(setts[v].name) != Outside
    ensures SeenSheet(setts, w, v) == Usd(setts[v]) <==> Undistorted(setts, w, v)
  {
    hide GroupOf, GroupTotal, ListedBefore, WalletOf, PositiveSetts, Times;
    var g := GroupOf(setts[v].name);
    forall a | a in setts[v].sheet.vals
      ensures BalanceIn(GroupTotal(setts, w, g), a) == Times(setts[v].rate, setts[v].sheet.vals[a]) <==>
              && a !in WalletOf(w, g).vals
              && forall u | 0 <= u < |setts| && u != v :: !(GroupOf(setts[u].name) == g && a in setts[u].sheet.vals)
    {
      OwnDollars(setts, w, v, a);
    }
    if Undistorted(setts, w, v) {
      assert SeenSheet(setts, w, v).vals == Usd(setts[v]).vals;
    }
    if SeenSheet(setts, w, v) == Usd(setts[v]) {
      forall a | a in setts[v].sheet.vals && !ListedBefore(setts, g, v, a)
        ensures BalanceIn(GroupTotal(setts, w, g), a) == Times(setts[v].rate, setts[v].sheet.vals[a])
      {
        assert SeenSheet(setts, w, v).vals[a] == Usd(setts[v]).vals[a];
      }
    }
  }

  // ----- the code -----

  /** Balances become dollars, in place. */
  method ConvertToUsd(users: UserBalances, rate: real)
    requires users.Valid()
    modifies users.Objects()
    ensures users.Valid() && unchanged(users)
    ensures users.View() == Scaled(old(users.View()), rate)
  {
    hide FiledByAddress, Times;
    ghost var s := users.View();
    var book := users.userBalances;
    for i := 0 to |book.keys|
      invariant users.userBalances == book
      invariant forall k | k in book.vals && k !in book.keys[..i] :: book.vals[k].balance == s.vals[k]
      invariant forall k | k in book.vals && k in book.keys[..i] :: book.vals[k].balance == Times(rate, s.vals[k])
    {
      FiledAt(book, i);
      OnlyAt(book, book.keys[i]);
      var user := book.vals[book.keys[i]];
      user.balance := Times(rate, user.balance);
    }
    AllFiled(book);
    assert users.View().vals == Scaled(s, rate).vals;
  }

  lemma AllFiled(book: Book)
    requires FiledByAddress(book)
    ensures forall k | k in book.vals :: k in book.keys[..|book.keys|]
  {
  }

  /** The objects of the first `n` setts of a group. */
  ghost function GroupObjects(vaults: seq<Vault>, g: Group, n: nat): set<UserBalance>
    requires n <= |vaults|
    reads set v | 0 <= v < n && GroupOf(vaults[v].name) == g :: vaults[v].users
  {
    set v, o | 0 <= v < n && GroupOf(vaults[v].name) == g && o in vaults[v].users.Objects() :: o
  }

  /** A user of a sett in a group: the object is kept by the group, or holds its own dollars. */
  ghost predicate Settled(kept: Book, book: Book, view: Sheet, s: Sett, first: bool, a: Address) {
    && a in book.vals && a in view.vals && a in s.sheet.vals
    && if first then a in kept.vals && kept.vals[a] == book.vals[a]
       else book.vals[a] !in kept.vals.Values && view.vals[a] == Times(s.rate, s.sheet.vals[a])
  }

  /** All users of sett `v`; the group keeps the objects of those whom no earlier sett of the group has. */
  ghost predicate SettledSett(kept: Book, book: Book, view: Sheet, setts: seq<Sett>, v: nat)
    requires v < |setts|
  {
    && book.Valid() && book.keys == setts[v].sheet.keys && book.vals.Keys == setts[v].sheet.vals.Keys
    && forall a | a in setts[v].sheet.vals ::
         Settled(kept, book, view, setts[v], !ListedBefore(setts, GroupOf(setts[v].name), v, a), a)
  }

  /** The first `n` setts of a group that keeps the objects `kept`. */
  ghost predicate AllSettled(kept: Book, vaults: seq<Vault>, setts: seq<Sett>, g: Group, n: nat)
    requires n <= |vaults| == |setts|
    reads set v | 0 <= v < n && GroupOf(vaults[v].name) == g :: vaults[v].users
    reads GroupObjects(vaults, g, n)
  {
    forall v | 0 <= v < n && GroupOf(vaults[v].name) == g ::
      SettledSett(kept, vaults[v].users.userBalances, vaults[v].users.View(), setts, v)
  }

  /** The group of the first `n` setts, and what their objects hold. */
  ghost predicate Pools(group: UserBalances, vaults: seq<Vault>, setts: seq<Sett>, g: Group, n: nat)
    requires n <= |vaults| == |setts|
    reads group, group.Objects()
    reads set v | 0 <= v < n && GroupOf(vaults[v].name) == g :: vaults[v].users
    reads GroupObjects(vaults, g, n)
  {
    && group.Valid() && group.View() == Pooled(setts, g, n)
    && group.Objects() <= GroupObjects(vaults, g, n)
    && AllSettled(group.userBalances, vaults, setts, g, n)
  }

  predicate SameNames(vaults: seq<Vault>, setts: seq<Sett>) {
    && |vaults| == |setts|
    && forall i | 0 <= i < |vaults| :: setts[i].name == vaults[i].name && setts[i].rate == vaults[i].rate
  }

  /** A user of an earlier sett stays settled when the next sett is combined in. */
  lemma StaysSettled(
    kept: Book, more: Book, next: Book, book: Book, view: Sheet, view': Sheet, s: Sett, first: bool, a: Address)
    requires Settled(kept, book, view, s, first, a)
    requires a in view'.vals && (book.vals[a] !in kept.vals.Values ==> view'.vals[a] == view.vals[a])
    requires Joined(more, kept, next) && more.vals.Values <= kept.vals.Values + next.vals.Values
    requires (forall k | k in kept.vals :: k in more.vals) && book.vals[a] !in next.vals.Values
    ensures Settled(more, book, view', s, first, a)
  {
  }

  lemma SettStaysSettled(
    kept: Book, more: Book, next: Book, book: Book, view: Sheet, view': Sheet, setts: seq<Sett>, v: nat)
    requires v < |setts| && SettledSett(kept, book, view, setts, v)
    requires forall a | a in book.vals :: a in view'.vals
    requires forall a | a in book.vals && book.vals[a] !in kept.vals.Values ::
               a in view.vals && view'.vals[a] == view.vals[a]
    requires Joined(more, kept, next) && more.vals.Values <= kept.vals.Values + next.vals.Values
    requires (forall k | k in kept.vals :: k in more.vals) && book.vals.Values !! next.vals.Values
    ensures SettledSett(more, book, view', setts, v)
  {
    hide Settled, ListedBefore, Joined, GroupOf;
    forall a | a in setts[v].sheet.vals
      ensures Settled(more, book, view', setts[v], !ListedBefore(setts, GroupOf(setts[v].name), v, a), a)
    {
      assert book.vals[a] in book.vals.Values;
      StaysSettled(kept, more, next, book, view, view', setts[v],
                   !ListedBefore(setts, GroupOf(setts[v].name), v, a), a);
    }
  }

  /** The users of the next sett: known ones keep their own dollars, unknown ones are kept by the group. */
  lemma NextSettled(kept: Book, more: Book, next: Book, view: Sheet, setts: seq<Sett>, v: nat, pooled: Sheet)
    requires v < |setts| && ValidSheets(setts)
    requires pooled == Pooled(setts, GroupOf(setts[v].name), v) && kept.Valid() && kept.keys == pooled.keys
    requires FiledByAddress(next) && FiledByAddress(more) && kept.vals.Values !! next.vals.Values
    requires next.keys == setts[v].sheet.keys && next.vals.Keys == setts[v].sheet.vals.Keys
    requires forall a | a in next.vals ::
               a in view.vals && (next.vals[a] !in more.vals.Values ==>
                                    view.vals[a] == Times(setts[v].rate, setts[v].sheet.vals[a]))
    requires Joined(more, kept, next) && (forall k | k in kept.vals :: k in more.vals)
    requires forall k | k in next.vals :: k in more.vals
    ensures SettledSett(more, next, view, setts, v)
  {
    hide FiledByAddress, ListedBefore, Pooled, GroupOf;
    FiledIsValid(next);
    var g := GroupOf(setts[v].name);
    forall a | a in setts[v].sheet.vals ensures Settled(more, next, view, setts[v], !ListedBefore(setts, g, v, a), a) {
      PooledContents(setts, g, v, a);
      KeysInBook(kept, pooled, a);
      if ListedBefore(setts, g, v, a) {
        assert kept.vals[a] in kept.vals.Values && next.vals[a] in next.vals.Values;
        NotFiled(more, a, next);
      }
    }
  }

  lemma UsdHolds(s: Sett)
    ensures Usd(s).keys == s.sheet.keys && Usd(s).vals.Keys == s.sheet.vals.Keys
    ensures forall a | a in s.sheet.vals :: Usd(s).vals[a] == Times(s.rate, s.sheet.vals[a])
  {
  }

  lemma PooledNext(setts: seq<Sett>, g: Group, n: nat, sheet: Sheet)
    requires n < |setts| && GroupOf(setts[n].name) == g && sheet == Merge(Pooled(setts, g, n), Usd(setts[n]))
    ensures sheet == Pooled(setts, g, n + 1)
  {
  }

  lemma TwoJoined(book: Book, sheet: Sheet, a: Book, b: Book, s: Sheet, s': Sheet)
    requires CombinesTwo(book, sheet, a, b, s, s')
    ensures Joined(book, a, b)
    ensures (forall k | k in a.vals :: k in book.vals) && forall k | k in b.vals :: k in book.vals
  {
  }

  lemma InGroup(vaults: seq<Vault>, g: Group, n: nat, v: nat)
    requires v < n <= |vaults| && GroupOf(vaults[v].name) == g
    ensures vaults[v].users.Objects() <= GroupObjects(vaults, g, n)
  {
  }

  ghost function HeldNow(objects: set<UserBalance>): (held: Held)
    reads objects
    ensures held.Keys == objects && forall o | o in objects :: held[o] == o.balance
  {
    map o: UserBalance | o in objects :: o.balance
  }

  /** A dictionary with what its objects held before. */
  ghost function SheetBefore(book: Book, held: Held): Sheet {
    Dict(book.keys, map k | k in book.vals :: HeldBy(held, book.vals[k]))
  }

  ghost function Books(vaults: seq<Vault>): seq<Book>
    reads set v | 0 <= v < |vaults| :: vaults[v].users
  {
    seq(|vaults|, v requires 0 <= v < |vaults| reads if 0 <= v < |vaults| then {vaults[v].users} else {} =>
      vaults[v].users.userBalances)
  }

  /** As `AllSettled`, by dictionaries and balances as they were. */
  ghost predicate SettledBefore(
    kept: Book, vaults: seq<Vault>, books: seq<Book>, setts: seq<Sett>, g: Group, n: nat, objects: Held)
    requires n <= |vaults| == |setts| == |books|
  {
    forall v | 0 <= v < n && GroupOf(vaults[v].name) == g ::
      && books[v].vals.Values <= objects.Keys
      && SettledSett(kept, books[v], SheetBefore(books[v], objects), setts, v)
  }

  lemma SettledThen(kept: Book, vaults: seq<Vault>, setts: seq<Sett>, g: Group, n: nat, held: Held)
    requires n <= |vaults| == |setts| && AllSettled(kept, vaults, setts, g, n)
    requires held.Keys == GroupObjects(vaults, g, n) && forall o | o in held :: held[o] == o.balance
    ensures SettledBefore(kept, vaults, Books(vaults), setts, g, n, held)
  {
    hide SettledSett, GroupOf, GroupObjects;
    forall v | 0 <= v < n && GroupOf(vaults[v].name) == g
      ensures vaults[v].users.Objects() <= held.Keys
      ensures SheetBefore(vaults[v].users.userBalances, held) == vaults[v].users.View()
    {
      InGroup(vaults, g, n, v);
      SheetThen(vaults[v].users, held);
    }
  }

  lemma SheetThen(users: UserBalances, held: Held)
    requires forall o | o in users.Objects() :: o in held && held[o] == o.balance
    ensures SheetBefore(users.userBalances, held) == users.View()
  {
    assert SheetBefore(users.userBalances, held).vals == users.View().vals;
  }

  /** The setts stay settled while only objects that the group keeps, and others outside it, change. */
  lemma AllStaySettled(
    kept: Book, more: Book, next: Book, vaults: seq<Vault>, books: seq<Book>, setts: seq<Sett>, g: Group, n: nat,
    held: Held)
    requires n <= |vaults| == |setts| && books == Books(vaults)
    requires SettledBefore(kept, vaults, books, setts, g, n, held)
    requires forall o | o in held && o !in kept.vals.Values :: o.balance == held[o]
    requires Joined(more, kept, next) && more.vals.Values <= kept.vals.Values + next.vals.Values
    requires (forall k | k in kept.vals :: k in more.vals) && held.Keys !! next.vals.Values
    ensures AllSettled(more, vaults, setts, g, n)
  {
    hide SettledSett, GroupOf, Joined;
    forall v | 0 <= v < n && GroupOf(vaults[v].name) == g
      ensures SettledSett(more, vaults[v].users.userBalances, vaults[v].users.View(), setts, v)
    {
      SettStaysSettled(kept, more, next, books[v], SheetBefore(books[v], held), vaults[v].users.View(), setts, v);
    }
  }

  /** Of all these objects only those that the group keeps change. */
  method CombineKeeping(group: UserBalances, next: UserBalances, ghost objects: set<UserBalance>, ghost held: Held)
    returns (more: UserBalances)
    requires group.Valid() && next.Valid() && group.Objects() <= objects && objects !! next.Objects()
    requires held.Keys == objects && forall o | o in objects :: held[o] == o.balance
    modifies objects, next.Objects()
    ensures fresh(more) && more.Valid() && more.Objects() <= group.Objects() + next.Objects()
    ensures CombinesTwo(more.userBalances, more.View(), group.userBalances, next.userBalances,
                        old(group.View()), old(next.View()))
    ensures forall o | o in next.Objects() && o !in more.Objects() :: o.balance == old(o.balance)
    ensures forall o | o in objects && o !in group.Objects() :: o.balance == held[o]
  {
    hide FiledByAddress, Merge, CombinesTwo;
    more := CombineTwo(group, next);
  }

  /** Another set is combined into the group of the first `n` setts, which stay settled. */
  method CombineInto(
    group: UserBalances, next: UserBalances, vaults: seq<Vault>, ghost setts: seq<Sett>, ghost g: Group, ghost n: nat)
    returns (more: UserBalances)
    requires n <= |vaults| == |setts| && group.Valid() && next.Valid()
    requires group.Objects() <= GroupObjects(vaults, g, n) && GroupObjects(vaults, g, n) !! next.Objects()
    requires AllSettled(group.userBalances, vaults, setts, g, n)
    modifies GroupObjects(vaults, g, n), next.Objects()
    ensures fresh(more) && more.Valid() && more.Objects() <= GroupObjects(vaults, g, n) + next.Objects()
    ensures CombinesTwo(more.userBalances, more.View(), group.userBalances, next.userBalances,
                        old(group.View()), old(next.View()))
    ensures forall o | o in next.Objects() && o !in more.Objects() :: o.balance == old(o.balance)
    ensures AllSettled(more.userBalances, vaults, setts, g, n)
  {
    hide FiledByAddress, Merge, AllSettled, SettledBefore, Joined, GroupOf, CombinesTwo, GroupObjects;
    ghost var kept, books := group.userBalances, Books(vaults);
    ghost var held := HeldNow(GroupObjects(vaults, g, n));
    SettledThen(kept, vaults, setts, g, n, held);
    more := CombineKeeping(group, next, GroupObjects(vaults, g, n), held);
    TwoJoined(more.userBalances, more.View(), kept, next.userBalances, old(group.View()), old(next.View()));
    assert Books(vaults) == books;
    AllStaySettled(kept, more.userBalances, next.userBalances, vaults, books, setts, g, n, held);
  }

  lemma GroupGrows(vaults: seq<Vault>, g: Group, n: nat)
    requires n < |vaults| && GroupOf(vaults[n].name) == g
    ensures GroupObjects(vaults, g, n + 1) == GroupObjects(vaults, g, n) + vaults[n].users.Objects()
  {
    hide GroupOf;
  }

  lemma SettledMore(kept: Book, vaults: seq<Vault>, setts: seq<Sett>, g: Group, n: nat)
    requires n < |vaults| == |setts| && AllSettled(kept, vaults, setts, g, n)
    requires SettledSett(kept, vaults[n].users.userBalances, vaults[n].users.View(), setts, n)
    ensures AllSettled(kept, vaults, setts, g, n + 1)
  {
    hide SettledSett, GroupOf;
  }

  method PoolNext(group: UserBalances, vaults: seq<Vault>, i: nat, ghost setts: seq<Sett>, ghost g: Group)
    returns (more: UserBalances)
    requires i < |vaults| && SameNames(vaults, setts) && ValidSheets(setts) && SeparateVaults(vaults)
    requires GroupOf(vaults[i].name) == g && Pools(group, vaults, setts, g, i)
    requires vaults[i].users.View() == setts[i].sheet
    modifies vaults[i].users.Objects(), GroupObjects(vaults, g, i)
    ensures fresh(more) && Pools(more, vaults, setts, g, i + 1)
  {
    hide FiledByAddress, ListedBefore, Merge, ValidSheets, SettledSett, Joined, GroupOf, Scaled, AllSettled,
         GroupObjects, SeparateVaults;
    var next := vaults[i].users;
    ghost var pooled, kept := Pooled(setts, g, i), group.userBalances;
    UsdHolds(setts[i]);
    GroupsApart(vaults, g, g, i);
    ConvertToUsd(next, vaults[i].rate);
    assert next.View() == Usd(setts[i]);
    more := CombineInto(group, next, vaults, setts, g, i);
    FiledIsValid(kept);
    PooledNext(setts, g, i, more.View());
    NextSettled(kept, more.userBalances, next.userBalances, next.View(), setts, i, pooled);
    SettledMore(more.userBalances, vaults, setts, g, i);
    GroupGrows(vaults, g, i);
  }

  // ----- the round over all setts -----

  lemma PoolsSkip(group: UserBalances, vaults: seq<Vault>, setts: seq<Sett>, g: Group, n: nat)
    requires n < |vaults| == |setts| && setts[n].name == vaults[n].name && GroupOf(vaults[n].name) != g
    requires Pools(group, vaults, setts, g, n)
    ensures Pools(group, vaults, setts, g, n + 1)
  {
    hide GroupOf, SettledSett, FiledByAddress;
  }

  /** Different groups, and the next sett, hold different objects. */
  lemma GroupsApart(vaults: seq<Vault>, g: Group, g': Group, n: nat)
    requires n < |vaults| && SeparateVaults(vaults)
    ensures GroupObjects(vaults, g, n) !! vaults[n].users.Objects()
    ensures g != g' ==> GroupObjects(vaults, g, n) !! GroupObjects(vaults, g', n)
    ensures GroupObjects(vaults, g, n) <= AllObjects(vaults) && vaults[n].users.Objects() <= AllObjects(vaults)
    ensures vaults[n].users.Valid()
  {
    hide GroupOf, FiledByAddress;
  }

  lemma PoolsObjects(group: UserBalances, vaults: seq<Vault>, setts: seq<Sett>, g: Group, n: nat)
    requires n <= |vaults| == |setts| && Pools(group, vaults, setts, g, n)
    ensures group.Objects() <= GroupObjects(vaults, g, n)
  {
  }

  /** Objects of another group stay as they are while one group takes in the next sett. */
  method PoolNextApart(
    group: UserBalances, vaults: seq<Vault>, i: nat, ghost setts: seq<Sett>, ghost g: Group,
    ghost a: UserBalances, ghost ga: Group, ghost b: UserBalances, ghost gb: Group)
    returns (more: UserBalances)
    requires i < |vaults| && SameNames(vaults, setts) && ValidSheets(setts) && SeparateVaults(vaults)
    requires GroupOf(vaults[i].name) == g && g != ga && g != gb
    requires Pools(group, vaults, setts, g, i) && Pools(a, vaults, setts, ga, i) && Pools(b, vaults, setts, gb, i)
    requires vaults[i].users.View() == setts[i].sheet
    modifies vaults[i].users.Objects(), GroupObjects(vaults, g, i)
    ensures fresh(more)
    ensures Pools(more, vaults, setts, g, i + 1)
    ensures Pools(a, vaults, setts, ga, i + 1) && Pools(b, vaults, setts, gb, i + 1)
  {
    hide Pools, GroupOf, GroupObjects, FiledByAddress, ValidSheets, SeparateVaults;
    GroupsApart(vaults, ga, g, i);
    GroupsApart(vaults, gb, g, i);
    PoolsObjects(a, vaults, setts, ga, i);
    PoolsObjects(b, vaults, setts, gb, i);
    more := PoolNext(group, vaults, i, setts, g);
    PoolsSkip(a, vaults, setts, ga, i);
    PoolsSkip(b, vaults, setts, gb, i);
  }

  /** Setts outside the groups are left alone. */
  ghost predicate Untouched(vaults: seq<Vault>, setts: seq<Sett>, n: nat)
    requires n <= |vaults| == |setts|
    reads set v | 0 <= v < n && GroupOf(vaults[v].name) == Outside :: vaults[v].users
    reads GroupObjects(vaults, Outside, n)
  {
    forall v | 0 <= v < n && GroupOf(vaults[v].name) == Outside :: vaults[v].users.View() == setts[v].sheet
  }

  ghost function RestObjects(vaults: seq<Vault>, n: nat): set<UserBalance>
    reads set v | n <= v < |vaults| :: vaults[v].users
  {
    set v, o | n <= v < |vaults| && o in vaults[v].users.Objects() :: o
  }

  /** The setts from `n` on, as they were. */
  ghost predicate Waiting(vaults: seq<Vault>, setts: seq<Sett>, n: nat)
    requires n <= |vaults| == |setts|
    reads set v | n <= v < |vaults| :: vaults[v].users
    reads RestObjects(vaults, n)
  {
    forall v | n <= v < |vaults| :: vaults[v].users.View() == setts[v].sheet
  }

  lemma WaitingNext(vaults: seq<Vault>, setts: seq<Sett>, n: nat)
    requires n < |vaults| == |setts| && Waiting(vaults, setts, n)
    ensures vaults[n].users.View() == setts[n].sheet && Waiting(vaults, setts, n + 1)
  {
  }

  lemma UntouchedNext(vaults: seq<Vault>, setts: seq<Sett>, n: nat)
    requires n < |vaults| == |setts| && Untouched(vaults, setts, n)
    requires GroupOf(vaults[n].name) == Outside ==> vaults[n].users.View() == setts[n].sheet
    ensures Untouched(vaults, setts, n + 1)
  {
    hide GroupOf;
  }

  lemma WaitingApart(vaults: seq<Vault>, g: Group, n: nat)
    requires n < |vaults| && SeparateVaults(vaults)
    ensures RestObjects(vaults, n + 1) !! (vaults[n].users.Objects() + GroupObjects(vaults, g, n))
  {
    hide GroupOf, FiledByAddress;
  }

  datatype Pots = Pots(digg: UserBalances, badger: UserBalances, nonNative: UserBalances)

  ghost predicate Collected(pots: Pots, vaults: seq<Vault>, setts: seq<Sett>, n: nat)
    requires n <= |vaults| == |setts|
    reads pots.digg, pots.badger, pots.nonNative, pots.digg.Objects(), pots.badger.Objects(), pots.nonNative.Objects()
    reads set v | 0 <= v < |vaults| :: vaults[v].users
    reads AllObjects(vaults)
  {
    && Pools(pots.digg, vaults, setts, Digg, n)
    && Pools(pots.badger, vaults, setts, Badger, n)
    && Pools(pots.nonNative, vaults, setts, NonNative, n)
    && Untouched(vaults, setts, n) && Waiting(vaults, setts, n)
  }

  /** One sett of the loop: converted and pooled in its group, or passed over. */
  method CollectNext(pots: Pots, vaults: seq<Vault>, i: nat, ghost setts: seq<Sett>) returns (more: Pots)
    requires i < |vaults| && SameNames(vaults, setts) && ValidSheets(setts) && SeparateVaults(vaults)
    requires Collected(pots, vaults, setts, i)
    modifies AllObjects(vaults)
    ensures Collected(more, vaults, setts, i + 1)
  {
    hide Pools, FiledByAddress, ValidSheets, SeparateVaults, Untouched, Waiting;
    more := pots;
    ghost var g := GroupOf(vaults[i].name);
    WaitingNext(vaults, setts, i);
    WaitingApart(vaults, g, i);
    GroupsApart(vaults, Outside, g, i);
    GroupsApart(vaults, g, g, i);
    if vaults[i].name == "experimental.digg" {
      PoolsSkip(pots.digg, vaults, setts, Digg, i);
      PoolsSkip(pots.badger, vaults, setts, Badger, i);
      PoolsSkip(pots.nonNative, vaults, setts, NonNative, i);
    } else if vaults[i].name in {"native.uniDiggWbtc", "native.sushiDiggWbtc", "native.digg"} {
      var digg := PoolNextApart(pots.digg, vaults, i, setts, Digg, pots.badger, Badger, pots.nonNative, NonNative);
      more := pots.(digg := digg);
    } else if vaults[i].name in {"native.badger", "native.uniBadgerWbtc", "native.sushiBadgerWbtc"} {
      var badger := PoolNextApart(pots.badger, vaults, i, setts, Badger, pots.digg, Digg, pots.nonNative, NonNative);
      more := pots.(badger := badger);
    } else {
      var nonNative :=
        PoolNextApart(pots.nonNative, vaults, i, setts, NonNative, pots.digg, Digg, pots.badger, Badger);
      more := pots.(nonNative := nonNative);
    }
    UntouchedNext(vaults, setts, i);
  }

  // ----- wallets, and what the snapshots see -----

  /** All setts of a group are settled with the objects that it keeps. */
  ghost predicate GroupSettled(group: UserBalances, vaults: seq<Vault>, setts: seq<Sett>, g: Group)
    requires |vaults| == |setts|
    reads group
    reads set v | 0 <= v < |vaults| && GroupOf(vaults[v].name) == g :: vaults[v].users
    reads GroupObjects(vaults, g, |vaults|)
  {
    group.Valid() && AllSettled(group.userBalances, vaults, setts, g, |vaults|)
  }

  /** A settled sett shows what the group holds for the users it keeps, and their own dollars for the others. */
  lemma SettledSeen(
    group: UserBalances, users: UserBalances, setts: seq<Sett>, w: Wallets, v: nat)
    requires v < |setts| && GroupOf(setts[v].name) != Outside && setts[v].sheet.Valid()
    requires SettledSett(group.userBalances, users.userBalances, users.View(), setts, v)
    requires group.Valid() && group.View() == GroupTotal(setts, w, GroupOf(setts[v].name))
    ensures users.View() == SeenSheet(setts, w, v)
  {
    hide GroupOf, ListedBefore, GroupTotal, FiledByAddress, Times;
    forall a | a in setts[v].sheet.vals ensures users.View().vals[a] == SeenSheet(setts, w, v).vals[a] {
      assert Settled(group.userBalances, users.userBalances, users.View(), setts[v],
                     !ListedBefore(setts, GroupOf(setts[v].name), v, a), a);
    }
    assert users.View().vals == SeenSheet(setts, w, v).vals;
  }

  lemma SeenOutside(setts: seq<Sett>, w: Wallets, v: nat)
    requires v < |setts| && GroupOf(setts[v].name) == Outside
    ensures SeenSheet(setts, w, v) == setts[v].sheet
  {
  }

  lemma PoolsSettled(group: UserBalances, vaults: seq<Vault>, setts: seq<Sett>, g: Group)
    requires SameNames(vaults, setts) && Pools(group, vaults, setts, g, |vaults|)
    ensures GroupSettled(group, vaults, setts, g) && group.View() == Pooled(setts, g, |setts|)
    ensures group.Objects() <= GroupObjects(vaults, g, |vaults|)
  {
  }

  /** Different groups hold different objects, all of them objects of the vaults. */
  lemma AllGroupsApart(vaults: seq<Vault>, g: Group, g': Group)
    requires SeparateVaults(vaults)
    ensures g != g' ==> GroupObjects(vaults, g, |vaults|) !! GroupObjects(vaults, g', |vaults|)
    ensures GroupObjects(vaults, g, |vaults|) <= AllObjects(vaults)
    ensures forall o | o in GroupObjects(vaults, g, |vaults|) :: allocated(o)
  {
    hide GroupOf, FiledByAddress;
  }

  lemma MatchIs(vaults: seq<Vault>, setts: seq<Sett>)
    requires SeparateVaults(vaults) && Match(vaults, setts, 0)
    ensures SameNames(vaults, setts) && ValidSheets(setts) && Waiting(vaults, setts, 0) && SameFields(vaults, setts)
  {
    forall i | 0 <= i < |setts| ensures setts[i].sheet.Valid() {
      SheetValid(vaults[i].users.userBalances, setts[i].sheet);
    }
  }

  method NoPots(vaults: seq<Vault>, ghost setts: seq<Sett>) returns (pots: Pots)
    requires |vaults| == |setts| && Waiting(vaults, setts, 0)
    ensures Collected(pots, vaults, setts, 0)
  {
    hide FiledByAddress, GroupOf;
    var digg := NoBalances();
    var badger := NoBalances();
    var nonNative := NoBalances();
    pots := Pots(digg, badger, nonNative);
  }

  /** The loop over all setts: every sett converted and pooled with its group, in place. */
  method CollectPots(vaults: seq<Vault>, ghost setts: seq<Sett>) returns (pots: Pots)
    requires SeparateVaults(vaults) && SameNames(vaults, setts) && ValidSheets(setts) && Waiting(vaults, setts, 0)
    modifies AllObjects(vaults)
    ensures SeparateVaults(vaults) && AllObjects(vaults) == old(AllObjects(vaults))
    ensures Collected(pots, vaults, setts, |vaults|)
  {
    hide Collected, ValidSheets, FiledByAddress, SeparateVaults, AllObjects, SameNames;
    SameLength(vaults, setts);
    pots := NoPots(vaults, setts);
    for i := 0 to |vaults|
      invariant SeparateVaults(vaults) && AllObjects(vaults) == old(AllObjects(vaults))
      invariant Collected(pots, vaults, setts, i)
    {
      pots := CollectNext(pots, vaults, i, setts);
    }
  }

  lemma SameLength(vaults: seq<Vault>, setts: seq<Sett>)
    requires SameNames(vaults, setts)
    ensures |vaults| == |setts|
  {
  }

  /** Each group as the stakes need it, all its setts settled. */
  ghost predicate Funded(pots: Pots, vaults: seq<Vault>, setts: seq<Sett>, w: Wallets)
    requires |vaults| == |setts|
    reads pots.digg, pots.badger, pots.nonNative, pots.digg.Objects(), pots.badger.Objects(), pots.nonNative.Objects()
    reads set v | 0 <= v < |vaults| :: vaults[v].users
    reads AllObjects(vaults)
  {
    && GroupSettled(pots.digg, vaults, setts, Digg) && pots.digg.View() == GroupTotal(setts, w, Digg)
    && GroupSettled(pots.badger, vaults, setts, Badger) && pots.badger.View() == GroupTotal(setts, w, Badger)
    && GroupSettled(pots.nonNative, vaults, setts, NonNative)
    && pots.nonNative.View() == GroupTotal(setts, w, NonNative)
    && Untouched(vaults, setts, |vaults|)
  }

  /** Once all groups are funded, every sett shows what `SeenSheet` says. */
  lemma FundedSeen(pots: Pots, vaults: seq<Vault>, setts: seq<Sett>, w: Wallets)
    requires SameNames(vaults, setts) && ValidSheets(setts) && Funded(pots, vaults, setts, w)
    requires SameFields(vaults, setts)
    ensures Match(vaults, Seen(setts, w), 0)
  {
    hide GroupTotal, SettledSett, FiledByAddress, SeenSheet, GroupOf;
    forall v | 0 <= v < |vaults| ensures vaults[v].users.View() == SeenSheet(setts, w, v) {
      match GroupOf(vaults[v].name)
      case Digg => SettledSeen(pots.digg, vaults[v].users, setts, w, v);
      case Badger => SettledSeen(pots.badger, vaults[v].users, setts, w, v);
      case NonNative => SettledSeen(pots.nonNative, vaults[v].users, setts, w, v);
      case Outside => SeenOutside(setts, w, v);
    }
  }

  method AddWallet(
    group: UserBalances, wallet: UserBalances, vaults: seq<Vault>, ghost setts: seq<Sett>, ghost g: Group)
    returns (more: UserBalances)
    requires SameNames(vaults, setts) && wallet.Valid() && wallet.Objects() !! GroupObjects(vaults, g, |vaults|)
    requires GroupSettled(group, vaults, setts, g) && group.Objects() <= GroupObjects(vaults, g, |vaults|)
    modifies GroupObjects(vaults, g, |vaults|), wallet.Objects()
    ensures fresh(more) && GroupSettled(more, vaults, setts, g)
    ensures more.Objects() <= GroupObjects(vaults, g, |vaults|) + wallet.Objects()
    ensures more.View() == Merge(old(group.View()), old(wallet.View()))
  {
    hide FiledByAddress, Merge, AllSettled, Joined, GroupOf, GroupObjects;
    more := CombineInto(group, wallet, vaults, setts, g, |vaults|);
  }

  /** The wallet of a group is added to it, while the other two groups stay as they are. */
  method AddWalletApart(
    group: UserBalances, wallet: UserBalances, vaults: seq<Vault>, ghost setts: seq<Sett>, ghost g: Group,
    ghost a: UserBalances, ghost ga: Group, ghost b: UserBalances, ghost gb: Group)
    returns (more: UserBalances)
    requires SameNames(vaults, setts) && SeparateVaults(vaults) && wallet.Valid()
    requires GroupSettled(group, vaults, setts, g) && group.Objects() <= GroupObjects(vaults, g, |vaults|)
    requires wallet.Objects() !! (AllObjects(vaults) + a.Objects() + b.Objects())
    requires a.Objects() !! GroupObjects(vaults, g, |vaults|) && b.Objects() !! GroupObjects(vaults, g, |vaults|)
    requires GroupSettled(a, vaults, setts, ga) && GroupSettled(b, vaults, setts, gb) && g != ga && g != gb
    requires Untouched(vaults, setts, |vaults|) && g != Outside
    modifies GroupObjects(vaults, g, |vaults|), wallet.Objects()
    ensures fresh(more) && GroupSettled(more, vaults, setts, g)
    ensures more.Objects() <= GroupObjects(vaults, g, |vaults|) + wallet.Objects()
    ensures more.View() == Merge(old(group.View()), old(wallet.View()))
    ensures GroupSettled(a, vaults, setts, ga) && GroupSettled(b, vaults, setts, gb)
    ensures a.View() == old(a.View()) && b.View() == old(b.View()) && Untouched(vaults, setts, |vaults|)
  {
    hide FiledByAddress, Merge, GroupSettled, Untouched, SeparateVaults, GroupOf, AllObjects, GroupObjects;
    AllGroupsApart(vaults, g, g);
    AllGroupsApart(vaults, ga, g);
    AllGroupsApart(vaults, gb, g);
    AllGroupsApart(vaults, Outside, g);
    more := AddWallet(group, wallet, vaults, setts, g);
  }

  /** The wallets of the two native tokens are added to their groups. */
  method AddWallets(pots: Pots, wallets: WalletBalances, vaults: seq<Vault>, ghost setts: seq<Sett>, ghost w: Wallets)
    returns (more: Pots)
    requires SeparateVaults(vaults) && SameNames(vaults, setts) && Collected(pots, vaults, setts, |vaults|)
    requires SeparateWallets(vaults, wallets) && w == Wallets(wallets.digg.View(), wallets.badger.View())
    modifies AllObjects(vaults), wallets.digg.Objects(), wallets.badger.Objects()
    ensures Funded(more, vaults, setts, w)
  {
    hide FiledByAddress, Merge, Pooled, AllSettled, Untouched, Waiting, SeparateVaults, GroupObjects, AllObjects,
         GroupSettled, Pools;
    PoolsSettled(pots.digg, vaults, setts, Digg);
    PoolsSettled(pots.badger, vaults, setts, Badger);
    PoolsSettled(pots.nonNative, vaults, setts, NonNative);
    AllGroupsApart(vaults, Digg, Badger);
    AllGroupsApart(vaults, Badger, Digg);
    AllGroupsApart(vaults, NonNative, Digg);
    AllGroupsApart(vaults, NonNative, Badger);
    var badger := AddWalletApart(pots.badger, wallets.badger, vaults, setts, Badger, pots.digg, Digg, pots.nonNative,
                                 NonNative);
    var digg := AddWalletApart(pots.digg, wallets.digg, vaults, setts, Digg, badger, Badger, pots.nonNative, NonNative);
    more := Pots(digg, badger, pots.nonNative);
  }

  /** Everything of a sett but its balances. */
  predicate SameFields(vaults: seq<Vault>, setts: seq<Sett>) {
    && |vaults| == |setts|
    && forall v | 0 <= v < |vaults| ::
         setts[v] == Sett(vaults[v].name, vaults[v].address, vaults[v].rate, setts[v].sheet, vaults[v].schedules)
  }

  /**
   Collecting all stakes. The stakes are the three groups' balances in dollars; afterwards the objects of the setts hold
   what `Seen` says, not what they held before.
   */
  method CollectStakes(vaults: seq<Vault>, wallets: WalletBalances, ghost setts: seq<Sett>, ghost w: Wallets)
    returns (stakes: Boost.Stakes)
    requires SeparateVaults(vaults) && Match(vaults, setts, 0)
    requires SeparateWallets(vaults, wallets) && w == Wallets(wallets.digg.View(), wallets.badger.View())
    modifies AllObjects(vaults), wallets.digg.Objects(), wallets.badger.Objects()
    ensures SeparateVaults(vaults) && AllObjects(vaults) == old(AllObjects(vaults))
    ensures Match(vaults, Seen(setts, w), 0)
    ensures stakes == StakesOf(setts, w)
  {
    hide FiledByAddress, ValidSheets, GroupTotal, Collected, Match, GroupSettled, Untouched, SameNames, SameFields,
         SeparateVaults, AllObjects;
    MatchIs(vaults, setts);
    SameLength(vaults, setts);
    var pots := CollectPots(vaults, setts);
    pots := AddWallets(pots, wallets, vaults, setts, w);
    FundedSeen(pots, vaults, setts, w);
    stakes := Boost.Stakes(SheetOf(pots.digg.userBalances), SheetOf(pots.badger.userBalances),
                           SheetOf(pots.nonNative.userBalances));
  }
}
