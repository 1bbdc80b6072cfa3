/**
 Balances per user (assistant/rewards/classes/UserBalance.py) and their combination
 (assistant/rewards/rewards_utils.py:179-183).

 `__add__` keeps and updates the operands' own balance objects. A `Sheet` is the value of a set of balances at one
 moment: addresses in dictionary order with their amounts.
 */
module Balances {
  import opened Prelude
  import opened Dicts
  import opened Abi

  type Sheet = Dict<Address, real>

  // ----- sheets -----

  function BalanceIn(s: Sheet, a: Address): real {
    if a in s.vals then s.vals[a] else 0.0
  }

  /** The balances of the listed addresses. */
  function SumOver(s: Sheet, keys: seq<Address>): real {
    if keys == [] then 0.0 else SumOver(s, keys[..|keys| - 1]) + BalanceIn(s, keys[|keys| - 1])
  }

  function SheetTotal(s: Sheet): real {
    SumOver(s, s.keys)
  }

  /** One more user: added to the user's balance, or entered last. */
  function Enter(s: Sheet, a: Address, x: real): Sheet {
    s.Put(a, if a in s.vals then s.vals[a] + x else x)
  }

  /** The first `n` users of the second sheet entered into the first. */
  function MergeFirst(a: Sheet, b: Sheet, n: nat): Sheet
    requires n <= |b.keys|
  {
    if n == 0 then a else Enter(MergeFirst(a, b, n - 1), b.keys[n - 1], BalanceIn(b, b.keys[n - 1]))
  }

  function Merge(a: Sheet, b: Sheet): Sheet {
    MergeFirst(a, b, |b.keys|)
  }

  lemma EnterContents(s: Sheet, a: Address, x: real, b: Address)
    requires s.Valid()
    ensures Enter(s, a, x).Valid()
    ensures b in Enter(s, a, x).vals <==> b in s.vals || b == a
    ensures BalanceIn(Enter(s, a, x), b) == BalanceIn(s, b) + if b == a then x else 0.0
  {
  }

  lemma {:induction false} MergeFirstContents(a: Sheet, b: Sheet, n: nat, x: Address)
    requires a.Valid() && b.Valid() && n <= |b.keys|
    ensures var m := MergeFirst(a, b, n);
            && m.Valid()
            && (x in m.vals <==> x in a.vals || x in b.keys[..n])
            && BalanceIn(m, x) == BalanceIn(a, x) + if x in b.keys[..n] then BalanceIn(b, x) else 0.0
  {
    if n == 0 {
    } else {
      hide Enter;
      MergeFirstContents(a, b, n - 1, x);
      EnterContents(MergeFirst(a, b, n - 1), b.keys[n - 1], BalanceIn(b, b.keys[n - 1]), x);
      PrefixMember(b.keys, n, x);
    }
  }

  /** The merged sheet has the addresses of both, each with the sum of its two balances. */
  lemma MergeContents(a: Sheet, b: Sheet, x: Address)
    requires a.Valid() && b.Valid()
    ensures Merge(a, b).Valid()
    ensures x in Merge(a, b).vals <==> x in a.vals || x in b.vals
    ensures BalanceIn(Merge(a, b), x) == BalanceIn(a, x) + BalanceIn(b, x)
  {
    MergeFirstContents(a, b, |b.keys|, x);
    assert b.keys[..|b.keys|] == b.keys;
    b.HasKey(x);
  }

  lemma {:induction false} SumOverEnter(s: Sheet, a: Address, x: real, keys: seq<Address>)
    requires forall i, j | 0 <= i < j < |keys| :: keys[i] != keys[j]
    ensures SumOver(Enter(s, a, x), keys) == SumOver(s, keys) + if a in keys then x else 0.0
  {
    if keys == [] {
    } else {
      var rest, last := keys[..|keys| - 1], keys[|keys| - 1];
      SumOverEnter(s, a, x, rest);
      assert a in keys <==> a in rest || a == last;
    }
  }

  lemma EnterTotal(s: Sheet, a: Address, x: real)
    requires s.Valid()
    ensures SheetTotal(Enter(s, a, x)) == SheetTotal(s) + x
  {
    s.HasKey(a);
    SumOverEnter(s, a, x, s.keys);
    var more := Enter(s, a, x);
    if a !in s.vals {
      assert more.keys[..|s.keys|] == s.keys;
    }
  }

  lemma {:induction false} MergeFirstTotal(a: Sheet, b: Sheet, n: nat)
    requires a.Valid() && b.Valid() && n <= |b.keys|
    ensures SheetTotal(MergeFirst(a, b, n)) == SheetTotal(a) + SumOver(b, b.keys[..n])
  {
    if n == 0 {
    } else {
      assert b.keys[..n][..n - 1] == b.keys[..n - 1];
      hide Enter;
      MergeFirstTotal(a, b, n - 1);
      MergeFirstContents(a, b, n - 1, b.keys[n - 1]);
      EnterTotal(MergeFirst(a, b, n - 1), b.keys[n - 1], BalanceIn(b, b.keys[n - 1]));
    }
  }

  /** Totals add up. */
  lemma MergeTotal(a: Sheet, b: Sheet)
    requires a.Valid() && b.Valid()
    ensures SheetTotal(Merge(a, b)) == SheetTotal(a) + SheetTotal(b)
  {
    MergeFirstTotal(a, b, |b.keys|);
    assert b.keys[..|b.keys|] == b.keys;
  }

  function MergeAll(sheets: seq<Sheet>): Sheet {
    if sheets == [] then Empty() else Merge(MergeAll(sheets[..|sheets| - 1]), sheets[|sheets| - 1])
  }

  function SumBalances(sheets: seq<Sheet>, a: Address): real {
    if sheets == [] then 0.0
    else SumBalances(sheets[..|sheets| - 1], a) + BalanceIn(sheets[|sheets| - 1], a)
  }

  function TotalOfAll(sheets: seq<Sheet>): real {
    if sheets == [] then 0.0 else TotalOfAll(sheets[..|sheets| - 1]) + SheetTotal(sheets[|sheets| - 1])
  }

  lemma EmptyTotal()
    ensures SheetTotal(Empty()) == 0.0
  {
  }

  /** Combining any number of sheets: the union of the addresses, each with the sum of its balances. */
  lemma {:induction false} MergeAllContents(sheets: seq<Sheet>, a: Address)
    requires forall i | 0 <= i < |sheets| :: sheets[i].Valid()
    ensures MergeAll(sheets).Valid()
    ensures a in MergeAll(sheets).vals <==> exists i | 0 <= i < |sheets| :: a in sheets[i].vals
    ensures BalanceIn(MergeAll(sheets), a) == SumBalances(sheets, a)
    ensures SheetTotal(MergeAll(sheets)) == TotalOfAll(sheets)
  {
    EmptyTotal();
    hide Merge, SheetTotal;
    if sheets == [] {
    } else {
      var rest, last := sheets[..|sheets| - 1], sheets[|sheets| - 1];
      MergeAllContents(rest, a);
      MergeContents(MergeAll(rest), last, a);
      MergeTotal(MergeAll(rest), last);
      if i :| 0 <= i < |sheets| && a in sheets[i].vals {
        assert i < |rest| ==> a in rest[i].vals;
      }
      if i :| 0 <= i < |rest| && a in rest[i].vals {
        assert a in sheets[i].vals;
      }
    }
  }

  /** All balances in another unit. */
  function Scaled(s: Sheet, k: real): Sheet {
    Dict(s.keys, map a | a in s.vals :: Times(k, s.vals[a]))
  }

  lemma ScaledBalance(s: Sheet, k: real, a: Address)
    ensures BalanceIn(Scaled(s, k), a) == Times(k, BalanceIn(s, a))
  {
  }

  lemma {:induction false} ScaledSum(s: Sheet, k: real, keys: seq<Address>)
    ensures SumOver(Scaled(s, k), keys) == Times(k, SumOver(s, keys))
  {
    hide BalanceIn, Scaled;
    if keys == [] {
    } else {
      var rest, last := keys[..|keys| - 1], keys[|keys| - 1];
      ScaledSum(s, k, rest);
      ScaledBalance(s, k, last);
      TimesOfSum(k, SumOver(s, rest), BalanceIn(s, last));
    }
  }

  lemma ScaledTotal(s: Sheet, k: real)
    requires k != 0.0
    ensures SheetTotal(Scaled(s, k)) == Times(k, SheetTotal(s))
    ensures SheetTotal(Scaled(s, k)) == 0.0 <==> SheetTotal(s) == 0.0
  {
    ScaledSum(s, k, s.keys);
  }

  // ----- the objects -----

  class UserBalance {
    const address: Address
    var balance: real

    constructor (address: Address, balance: real)
      ensures this.address == address && this.balance == balance
    {
      this.address, this.balance := address, balance;
    }

    method BoostBalance(boost: real)
      modifies this
      ensures balance == Times(old(balance), boost)
    {
      balance := balance * boost;
    }
  }

  type Book = Dict<Address, UserBalance>

  /** `{u.address: u for u in users}` */
  function BookOf(users: seq<UserBalance>): Book {
    if users == [] then Empty()
    else BookOf(users[..|users| - 1]).Put(users[|users| - 1].address, users[|users| - 1])
  }

  /** The first `n` values of a dictionary in order. */
  function FirstValues(book: Book, n: nat): seq<UserBalance>
    requires FiledByAddress(book) && n <= |book.keys|
  {
    if n == 0 then [] else FirstValues(book, n - 1) + [book.vals[book.keys[n - 1]]]
  }

  function Values(book: Book): seq<UserBalance>
    requires FiledByAddress(book)
  {
    FirstValues(book, |book.keys|)
  }

  /** `b` holds the first `n` entries of `book`. */
  ghost predicate FirstOf(b: Book, book: Book, n: nat)
    requires n <= |book.keys|
  {
    b.Valid() && b.keys == book.keys[..n] && forall k | k in b.vals :: k in book.vals && b.vals[k] == book.vals[k]
  }

  lemma FirstOfStep(b: Book, book: Book, n: nat)
    requires FiledByAddress(book) && n < |book.keys| && FirstOf(b, book, n)
    ensures FirstOf(b.Put(book.keys[n], book.vals[book.keys[n]]), book, n + 1)
  {
    b.PutNext(book.keys, n, book.vals[book.keys[n]]);
  }

  /** Rebuilding a dictionary from its values changes nothing when every user is filed under their address. */
  lemma {:induction false} BookOfValues(book: Book, n: nat)
    requires FiledByAddress(book) && n <= |book.keys|
    ensures FirstOf(BookOf(FirstValues(book, n)), book, n)
  {
    hide FirstOf, FiledByAddress, BookOf;
    if n == 0 {
      NoneOf(book);
    } else {
      BookOfValues(book, n - 1);
      FiledAt(book, n - 1);
      BookOfAppend(FirstValues(book, n - 1), book.vals[book.keys[n - 1]]);
      FirstOfStep(BookOf(FirstValues(book, n - 1)), book, n - 1);
    }
  }

  lemma NoneOf(book: Book)
    ensures FirstOf(BookOf([]), book, 0)
  {
  }

  lemma BookOfAppend(users: seq<UserBalance>, user: UserBalance)
    ensures BookOf(users + [user]) == BookOf(users).Put(user.address, user)
  {
    assert (users + [user])[..|users|] == users;
  }

  lemma Rebuild(book: Book)
    requires FiledByAddress(book)
    ensures BookOf(Values(book)) == book
  {
    BookOfValues(book, |book.keys|);
    var b := BookOf(Values(book));
    assert book.keys[..|book.keys|] == book.keys;
    forall k ensures k in b.vals <==> k in book.vals {
      b.HasKey(k);
      book.HasKey(k);
    }
    assert b.vals == book.vals;
  }

  ghost predicate FiledByAddress(book: Book) {
    && book.Valid()
    && (forall i | 0 <= i < |book.keys| :: book.keys[i] in book.vals)
    && (forall k | k in book.vals :: book.vals[k].address == k)
  }

  lemma FiledAt(book: Book, i: nat)
    requires FiledByAddress(book) && i < |book.keys|
    ensures book.keys[i] in book.vals && book.vals[book.keys[i]].address == book.keys[i]
    ensures book.keys[i] !in book.keys[..i]
    ensures book.keys[..i + 1] == book.keys[..i] + [book.keys[i]]
  {
  }

  lemma OnlyAt(book: Book, a: Address)
    requires FiledByAddress(book) && a in book.vals
    ensures forall k | k in book.vals && k != a :: book.vals[k] != book.vals[a]
  {
  }

  lemma FiledNext(book: Book, user: UserBalance)
    requires FiledByAddress(book) && user.address !in book.vals
    ensures FiledByAddress(book.Put(user.address, user))
  {
  }

  lemma FiledApart(book: Book, a: Address, other: Book)
    requires FiledByAddress(book) && FiledByAddress(other) && a in other.vals
    ensures forall k | k in book.vals && k != a :: book.vals[k] != other.vals[a]
  {
  }

  /** An object that is not filed under its own address is not filed at all. */
  lemma NotFiled(book: Book, k: Address, other: Book)
    requires FiledByAddress(book) && FiledByAddress(other) && k in other.vals
    requires k in book.vals ==> book.vals[k] != other.vals[k]
    ensures other.vals[k] !in book.vals.Values
  {
  }

  /** Every entry of the sum is that of the first book, or, for the others' addresses, that of the second. */
  ghost predicate Joined(sum: Book, a: Book, b: Book) {
    forall k | k in sum.vals ::
      if k in a.vals then sum.vals[k] == a.vals[k] else k in b.vals && sum.vals[k] == b.vals[k]
  }

  lemma JoinedStart(a: Book, b: Book)
    ensures Joined(a, a, b)
  {
  }

  lemma JoinedNext(sum: Book, a: Book, b: Book, i: nat)
    requires Joined(sum, a, b) && i < |b.keys| && b.keys[i] in b.vals
    requires b.keys[i] in a.vals ==> b.keys[i] in sum.vals
    ensures b.keys[i] !in sum.vals ==> Joined(sum.Put(b.keys[i], b.vals[b.keys[i]]), a, b)
    ensures b.keys[i] in sum.vals && b.keys[i] in a.vals ==> sum.vals[b.keys[i]] in a.vals.Values
  {
  }

  lemma JoinedObjects(sum: Book, a: Book, b: Book)
    requires Joined(sum, a, b) && a.vals.Keys <= sum.vals.Keys
    ensures a.vals.Values <= sum.vals.Values <= a.vals.Values + b.vals.Values
  {
    forall o | o in a.vals.Values ensures o in sum.vals.Values {
      var k :| k in a.vals && a.vals[k] == o;
      assert sum.vals[k] == o;
    }
  }

  lemma SheetValid(book: Book, s: Sheet)
    requires FiledByAddress(book) && s.keys == book.keys && s.vals.Keys == book.vals.Keys
    ensures s.Valid()
  {
  }

  function SheetOf(book: Book): Sheet
    reads book.vals.Values
  {
    Dict(book.keys, map k | k in book.vals :: book.vals[k].balance)
  }

  class UserBalances {
    var userBalances: Book

    ghost predicate Valid()
      reads this
    {
      FiledByAddress(userBalances)
    }

    ghost function Objects(): set<UserBalance>
      reads this
    {
      userBalances.vals.Values
    }

    ghost function View(): Sheet
      reads this, Objects()
    {
      SheetOf(userBalances)
    }

    constructor (users: seq<UserBalance>)
      ensures userBalances == BookOf(users)
    {
      userBalances := BookOf(users);
    }

    method TotalBalance() returns (total: real)
      requires Valid()
      ensures total == SheetTotal(View())
    {
      total := 0.0;
      for i := 0 to |userBalances.keys|
        invariant total == SumOver(View(), userBalances.keys[..i])
      {
        total := total + userBalances.vals[userBalances.keys[i]].balance;
        assert userBalances.keys[..i + 1][..i] == userBalances.keys[..i];
      }
      assert userBalances.keys[..|userBalances.keys|] == userBalances.keys;
    }

    /** A user's part of the total; there is no part of a total of zero. */
    method PercentageOfTotal(user: UserBalance) returns (r: Result<real>)
      requires Valid() && user in Objects()
      ensures r == if SheetTotal(View()) == 0.0 then Failure(ZeroDivisionError)
                   else Success(Quotient(user.balance, SheetTotal(View())))
    {
      var total := TotalBalance();
      if total == 0.0 {
        return Failure(ZeroDivisionError);
      }
      return Success(user.balance / total);
    }

    /** One round of the addition: the balance of a known user grows, an unknown user's own object is filed. */
    method AddUser(user: UserBalance)
      requires Valid()
      modifies `userBalances
      modifies if user.address in userBalances.vals then {userBalances.vals[user.address]} else {}
      ensures Valid()
      ensures userBalances == if user.address in old(userBalances.vals) then old(userBalances)
                              else old(userBalances).Put(user.address, user)
      ensures View() == Enter(old(View()), user.address, old(user.balance))
    {
      hide FiledByAddress;
      ghost var after := Enter(View(), user.address, user.balance);
      if user.address in userBalances.vals {
        var known := userBalances.vals[user.address];
        OnlyAt(userBalances, user.address);
        known.balance := known.balance + user.balance;
        assert View().vals == after.vals;
      } else {
        FiledNext(userBalances, user);
        userBalances := userBalances.Put(user.address, user);
        assert View().vals == after.vals;
      }
    }

    /** The first `n` entries of `book`, which held `theirs`, have been added to `kept`, which held `mine`. */
    ghost predicate Added(kept: Book, mine: Sheet, book: Book, theirs: Sheet, n: nat)
      requires n <= |book.keys| && book.vals.Keys <= theirs.vals.Keys && theirs.keys == book.keys
      reads this, Objects(), book.vals.Values
    {
      && Valid() && View() == MergeFirst(mine, theirs, n)
      && Joined(userBalances, kept, book)
      && kept.vals.Keys <= userBalances.vals.Keys
      && (forall k | k in userBalances.vals && k !in book.keys[..n] :: k in kept.vals)
      && (forall k | k in book.vals && k !in book.keys[..n] :: book.vals[k].balance == theirs.vals[k])
    }

    method AddNext(ghost kept: Book, ghost mine: Sheet, book: Book, ghost theirs: Sheet, i: nat)
      requires i < |book.keys| && FiledByAddress(book)
      requires theirs.keys == book.keys && theirs.vals.Keys == book.vals.Keys
      requires Added(kept, mine, book, theirs, i)
      modifies `userBalances, kept.vals.Values
      ensures Added(kept, mine, book, theirs, i + 1)
      ensures book.keys[i] in old(userBalances.vals) ==> userBalances == old(userBalances)
    {
      hide Enter, FiledByAddress, Joined;
      FiledAt(book, i);
      if book.keys[i] in userBalances.vals {
        FiledApart(book, book.keys[i], userBalances);
      }
      JoinedNext(userBalances, kept, book, i);
      AddUser(book.vals[book.keys[i]]);
    }

    /** The loop of the addition: every user of the other dictionary in turn, which may file the same objects. */
    method AddUsers(other: UserBalances)
      requires Valid() && other.Valid()
      modifies `userBalances, Objects()
      ensures Valid() && (this != other ==> unchanged(other))
      ensures View() == Merge(old(View()), old(other.View()))
      ensures Joined(userBalances, old(userBalances), old(other.userBalances))
      ensures old(Objects()) <= Objects() <= old(Objects()) + old(other.Objects())
    {
      ghost var mine, theirs, kept := View(), other.View(), userBalances;
      var book := other.userBalances;
      JoinedStart(userBalances, book);
      assert Added(kept, mine, book, theirs, 0);
      for i := 0 to |book.keys|
        invariant other.userBalances == book && (this == other ==> userBalances == kept)
        invariant Added(kept, mine, book, theirs, i)
      {
        hide Added, FiledByAddress, MergeFirst;
        FiledAt(book, i);
        AddNext(kept, mine, book, theirs, i);
      }
      JoinedObjects(userBalances, kept, book);
    }

    /**
     Adds the other balances to this dictionary, in place; the result files the same objects. This holds whatever
     objects the two share, and also when a set is added to itself.
     */
    method Add(other: UserBalances) returns (sum: UserBalances)
      requires Valid() && other.Valid()
      modifies this, Objects()
      ensures fresh(sum) && sum.Valid() && Valid() && (this != other ==> unchanged(other))
      ensures sum.userBalances == userBalances
      ensures sum.View() == Merge(old(View()), old(other.View()))
      ensures Joined(sum.userBalances, old(userBalances), old(other.userBalances))
      ensures old(Objects()) <= sum.Objects() <= old(Objects()) + old(other.Objects())
    {
      hide Joined, Merge;
      AddUsers(other);
      sum := new UserBalances(Values(userBalances));
      Rebuild(userBalances);
    }
  }

  // ----- combining any number of sets -----

  lemma {:induction false} MergeFirstSameKeys(a: Sheet, a': Sheet, b: Sheet, b': Sheet, n: nat)
    requires a.Valid() && a'.Valid() && b.Valid() && b'.Valid() && a.keys == a'.keys && b.keys == b'.keys
    requires n <= |b.keys|
    ensures MergeFirst(a, b, n).Valid() && MergeFirst(a', b', n).Valid()
    ensures MergeFirst(a, b, n).keys == MergeFirst(a', b', n).keys
  {
    MergeFirstContents(a, b, n, 0);
    MergeFirstContents(a', b', n, 0);
    if n == 0 {
    } else {
      MergeFirstSameKeys(a, a', b, b', n - 1);
      var m, m' := MergeFirst(a, b, n - 1), MergeFirst(a', b', n - 1);
      m.HasKey(b.keys[n - 1]);
      m'.HasKey(b.keys[n - 1]);
    }
  }

  /** The object kept for an address is that of the first set that lists it. */
  ghost function FirstObject(books: seq<Book>, a: Address): Option<UserBalance> {
    if books == [] then None
    else
      var rest, last := FirstObject(books[..|books| - 1], a), books[|books| - 1];
      if rest.None? && a in last.vals then Some(last.vals[a]) else rest
  }

  /** What the objects hold before anything is added. */
  type Held = map<UserBalance, real>

  ghost function HeldBy(held: Held, o: UserBalance): real {
    if o in held then held[o] else 0.0
  }

  /** What each set adds to an address; the kept object itself has grown to the running sum by then. */
  ghost function Running(books: seq<Book>, held: Held, a: Address): real {
    if books == [] then 0.0
    else
      var rest, last := books[..|books| - 1], books[|books| - 1];
      var sum := Running(rest, held, a);
      if a !in last.vals then sum
      else sum + if FirstObject(rest, a) == Some(last.vals[a]) then sum else HeldBy(held, last.vals[a])
  }

  /** The sum of what the sets held for an address at first. */
  ghost function SumHeld(books: seq<Book>, held: Held, a: Address): real {
    if books == [] then 0.0
    else
      SumHeld(books[..|books| - 1], held, a)
      + if a in books[|books| - 1].vals then HeldBy(held, books[|books| - 1].vals[a]) else 0.0
  }

  /** How many sets list the address. */
  ghost function Listings(books: seq<Book>, a: Address): nat {
    if books == [] then 0
    else Listings(books[..|books| - 1], a) + if a in books[|books| - 1].vals then 1 else 0
  }

  /** The kept object of an address is met again, if ever, only in the second set that lists the address. */
  ghost predicate RepeatsAtOnce(books: seq<Book>, a: Address) {
    forall k | 0 <= k < |books| && a in books[k].vals ::
      FirstObject(books[..k], a) == Some(books[k].vals[a]) ==> Listings(books[..k], a) == 1
  }

  lemma RepeatsLast(books: seq<Book>, a: Address)
    requires books != []
    ensures var rest, last := books[..|books| - 1], books[|books| - 1];
            RepeatsAtOnce(books, a) <==>
            && RepeatsAtOnce(rest, a)
            && (a in last.vals && FirstObject(rest, a) == Some(last.vals[a]) ==> Listings(rest, a) == 1)
  {
    var n := |books| - 1;
    assert forall k | 0 <= k <= n :: books[..n][..k] == books[..k];
    if RepeatsAtOnce(books, a) {
      forall k | 0 <= k < n && a in books[..n][k].vals && FirstObject(books[..n][..k], a) == Some(books[..n][k].vals[a])
        ensures Listings(books[..n][..k], a) == 1
      {
        assert a in books[k].vals && books[..n][..k] == books[..k];
      }
    }
    if RepeatsAtOnce(books[..n], a) {
      forall k | 0 <= k < n && a in books[k].vals && FirstObject(books[..k], a) == Some(books[k].vals[a])
        ensures Listings(books[..k], a) == 1
      {
        assert a in books[..n][k].vals && books[..n][..k] == books[..k];
      }
    }
  }

  /** While few sets list an address, the running sum is what they hold. */
  lemma {:induction false} FewListings(books: seq<Book>, held: Held, a: Address)
    requires Listings(books, a) <= 1
    ensures Listings(books, a) == 0 <==> FirstObject(books, a).None?
    ensures Listings(books, a) == 0 ==> Running(books, held, a) == SumHeld(books, held, a) == 0.0
    ensures Listings(books, a) == 1 ==>
              Running(books, held, a) == SumHeld(books, held, a) == HeldBy(held, FirstObject(books, a).value)
  {
    if books == [] {
    } else {
      FewListings(books[..|books| - 1], held, a);
    }
  }

  /** Without such late repetitions every address ends with the sum of its balances. */
  lemma {:induction false} RunningIsSum(books: seq<Book>, held: Held, a: Address)
    requires RepeatsAtOnce(books, a)
    ensures Running(books, held, a) == SumHeld(books, held, a)
  {
    if books == [] {
    } else {
      var rest, last := books[..|books| - 1], books[|books| - 1];
      RepeatsLast(books, a);
      RunningIsSum(rest, held, a);
      if a in last.vals && FirstObject(rest, a) == Some(last.vals[a]) {
        FewListings(rest, held, a);
      }
    }
  }

  ghost predicate AllPositive(books: seq<Book>, held: Held) {
    forall i, k | 0 <= i < |books| && k in books[i].vals :: HeldBy(held, books[i].vals[k]) > 0.0
  }

  lemma {:induction false} RunningAtLeast(books: seq<Book>, held: Held, a: Address)
    requires AllPositive(books, held)
    ensures Running(books, held, a) >= SumHeld(books, held, a) >= 0.0
    ensures FirstObject(books, a).Some? <==> Listings(books, a) >= 1
    ensures FirstObject(books, a).Some? ==>
              SumHeld(books, held, a) >= HeldBy(held, FirstObject(books, a).value) > 0.0
    ensures Listings(books, a) >= 2 ==> SumHeld(books, held, a) > HeldBy(held, FirstObject(books, a).value)
  {
    if books == [] {
    } else {
      var n := |books| - 1;
      assert forall i | 0 <= i < n :: books[..n][i] == books[i];
      RunningAtLeast(books[..n], held, a);
    }
  }

  /** With positive balances the condition is exact: a later repetition counts a balance more than once. */
  lemma {:induction false} SumOnlyWithoutLateRepeats(books: seq<Book>, held: Held, a: Address)
    requires AllPositive(books, held)
    ensures Running(books, held, a) == SumHeld(books, held, a) <==> RepeatsAtOnce(books, a)
  {
    if books == [] {
    } else {
      var rest, last := books[..|books| - 1], books[|books| - 1];
      assert forall i | 0 <= i < |rest| :: rest[i] == books[i];
      RepeatsLast(books, a);
      RunningAtLeast(rest, held, a);
      SumOnlyWithoutLateRepeats(rest, held, a);
      if Listings(rest, a) <= 1 {
        FewListings(rest, held, a);
      }
    }
  }

  /** Sets that share no objects. */
  ghost predicate Separate(books: seq<Book>) {
    forall i, j | 0 <= i < j < |books| :: books[i].vals.Values !! books[j].vals.Values
  }

  lemma {:induction false} FirstObjectListed(books: seq<Book>, a: Address)
    requires FirstObject(books, a).Some?
    ensures exists i | 0 <= i < |books| :: a in books[i].vals && FirstObject(books, a) == Some(books[i].vals[a])
  {
    var n := |books| - 1;
    if FirstObject(books[..n], a).Some? {
      FirstObjectListed(books[..n], a);
      var i :| 0 <= i < n && a in books[..n][i].vals && FirstObject(books[..n], a) == Some(books[..n][i].vals[a]);
      assert a in books[i].vals;
    } else {
      assert a in books[n].vals;
    }
  }

  lemma SeparateNeverRepeats(books: seq<Book>, a: Address)
    requires Separate(books)
    ensures RepeatsAtOnce(books, a)
  {
    forall k | 0 <= k < |books| && a in books[k].vals
      ensures FirstObject(books[..k], a) != Some(books[k].vals[a])
    {
      if FirstObject(books[..k], a).Some? {
        FirstObjectListed(books[..k], a);
        var i :| 0 <= i < k && a in books[..k][i].vals && FirstObject(books[..k], a) == Some(books[..k][i].vals[a]);
        assert books[i].vals[a] in books[i].vals.Values && books[k].vals[a] in books[k].vals.Values;
      }
    }
  }

  /** The sheets of all books before anything is added. */
  ghost predicate SheetsOf(sheets: seq<Sheet>, books: seq<Book>, held: Held) {
    && |sheets| == |books|
    && forall i | 0 <= i < |books| ::
         && FiledByAddress(books[i]) && sheets[i].Valid() && sheets[i].keys == books[i].keys
         && forall k | k in books[i].vals ::
              && k in sheets[i].vals && books[i].vals[k] in held
              && sheets[i].vals[k] == held[books[i].vals[k]]
  }

  lemma {:induction false} SumHeldIsSum(sheets: seq<Sheet>, books: seq<Book>, held: Held, a: Address)
    requires SheetsOf(sheets, books, held)
    ensures SumHeld(books, held, a) == SumBalances(sheets, a)
  {
    if books == [] {
    } else {
      var n := |books| - 1;
      SumHeldIsSum(sheets[..n], books[..n], held, a);
      books[n].HasKey(a);
      sheets[n].HasKey(a);
    }
  }

  /** The objects and balances after the first sets have been combined. */
  ghost predicate Combines(book: Book, sheet: Sheet, books: seq<Book>, sheets: seq<Sheet>, held: Held) {
    && sheet.Valid() && book.Valid() && sheet.keys == book.keys == MergeAll(sheets).keys
    && (forall a :: a in book.vals <==> FirstObject(books, a).Some?)
    && forall a | a in book.vals ::
         && FirstObject(books, a) == Some(book.vals[a])
         && BalanceIn(sheet, a) == Running(books, held, a)
  }

  lemma CombinedBalance(
    book: Book, sheet: Sheet, books: seq<Book>, sheets: seq<Sheet>, held: Held, a: Address)
    requires SheetsOf(sheets, books, held) && Combines(book, sheet, books, sheets, held)
    ensures BalanceIn(sheet, a) == Running(books, held, a)
    ensures MergeAll(sheets).Valid() && BalanceIn(MergeAll(sheets), a) == SumHeld(books, held, a)
    ensures a in sheet.vals <==> a in MergeAll(sheets).vals
  {
    MergeAllContents(sheets, a);
    SumHeldIsSum(sheets, books, held, a);
    hide MergeAll, SheetsOf, Running, FirstObject;
    sheet.HasKey(a);
    book.HasKey(a);
    MergeAll(sheets).HasKey(a);
    if a !in book.vals {
      NeverListed(books, held, a);
    }
  }

  lemma {:induction false} NeverListed(books: seq<Book>, held: Held, a: Address)
    requires FirstObject(books, a).None?
    ensures Running(books, held, a) == 0.0
  {
    if books == [] {
    } else {
      NeverListed(books[..|books| - 1], held, a);
    }
  }

  lemma SameSheets(s: Sheet, s': Sheet)
    requires s.keys == s'.keys
    requires forall a :: BalanceIn(s, a) == BalanceIn(s', a) && (a in s.vals <==> a in s'.vals)
    ensures s == s'
  {
    forall a | a in s.vals ensures s.vals[a] == s'.vals[a] {
      assert BalanceIn(s, a) == BalanceIn(s', a);
    }
    assert s.vals == s'.vals;
  }

  /** The combination is the merge of the first balances if and only if no kept object is met again late. */
  lemma CombineExact(book: Book, sheet: Sheet, books: seq<Book>, sheets: seq<Sheet>, held: Held)
    requires SheetsOf(sheets, books, held) && Combines(book, sheet, books, sheets, held)
    ensures (forall a :: RepeatsAtOnce(books, a)) ==> sheet == MergeAll(sheets)
    ensures AllPositive(books, held) && sheet == MergeAll(sheets) ==> forall a :: RepeatsAtOnce(books, a)
    ensures Separate(books) ==> forall a :: RepeatsAtOnce(books, a)
  {
    var merged := MergeAll(sheets);
    MergeAllContents(sheets, 0);
    if forall a :: RepeatsAtOnce(books, a) {
      forall a ensures BalanceIn(sheet, a) == BalanceIn(merged, a) && (a in sheet.vals <==> a in merged.vals) {
        CombinedBalance(book, sheet, books, sheets, held, a);
        RunningIsSum(books, held, a);
      }
      SameSheets(sheet, merged);
    }
    if AllPositive(books, held) && sheet == merged {
      forall a ensures RepeatsAtOnce(books, a) {
        CombinedBalance(book, sheet, books, sheets, held, a);
        SumOnlyWithoutLateRepeats(books, held, a);
      }
    }
    if Separate(books) {
      forall a ensures RepeatsAtOnce(books, a) {
        SeparateNeverRepeats(books, a);
      }
    }
  }

  /** A set that comes once more after another one doubles everything combined so far. */
  lemma ThirdTimeDoubles(x: Book, y: Book, held: Held, a: Address)
    requires a in x.vals && a in y.vals && x.vals[a] != y.vals[a]
    ensures Running([x, y, x], held, a) == 2.0 * (HeldBy(held, x.vals[a]) + HeldBy(held, y.vals[a]))
  {
    RunningLast([], held, x, a);
    RunningLast([x], held, y, a);
    RunningLast([x, y], held, x, a);
    assert [] + [x] == [x] && [x] + [y] == [x, y] && [x, y] + [x] == [x, y, x];
    hide Running, FirstObject;
    StartsEmpty(held, a);
  }

  lemma StartsEmpty(held: Held, a: Address)
    ensures Running([], held, a) == 0.0 && FirstObject([], a) == None
  {
  }

  /** What the next set's entry for an address holds when its turn comes. */
  ghost predicate NowHolds(book: Book, sheet: Sheet, next: Book, now: Sheet, held: Held) {
    && now.Valid() && now.keys == next.keys
    && forall k | k in next.vals ::
         && k in now.vals
         && now.vals[k] == if k in book.vals && next.vals[k] == book.vals[k] then BalanceIn(sheet, k)
                           else HeldBy(held, next.vals[k])
  }

  /** One address while the next set is added. */
  lemma RunningStep(
    book: Book, sheet: Sheet, now: Sheet, book': Book, books: seq<Book>, sheets: seq<Sheet>, held: Held, next: Book,
    a: Address)
    requires Combines(book, sheet, books, sheets, held) && NowHolds(book, sheet, next, now, held) && next.Valid()
    requires book'.Valid() && book'.keys == Merge(sheet, now).keys && Joined(book', book, next)
    ensures Merge(sheet, now).Valid()
    ensures a in book'.vals <==> FirstObject(books + [next], a).Some?
    ensures a in book'.vals ==> FirstObject(books + [next], a) == Some(book'.vals[a])
    ensures a in book'.vals ==> BalanceIn(Merge(sheet, now), a) == Running(books + [next], held, a)
  {
    MergeContents(sheet, now, a);
    KeysInBook(book, sheet, a);
    KeysInBook(next, now, a);
    KeysInBook(book', Merge(sheet, now), a);
    var before := Running(books, held, a);
    if a !in book.vals {
      NeverListed(books, held, a);
    }
    assert (books + [next])[..|books|] == books;
    hide Merge, MergeAll, Running, FirstObject;
    assert BalanceIn(sheet, a) == before;
    RunningLast(books, held, next, a);
  }

  lemma KeysInBook(book: Book, sheet: Sheet, a: Address)
    requires book.Valid() && sheet.Valid() && book.keys == sheet.keys
    ensures a in book.vals <==> a in sheet.vals
  {
    book.HasKey(a);
    sheet.HasKey(a);
  }

  lemma RunningLast(books: seq<Book>, held: Held, next: Book, a: Address)
    ensures FirstObject(books + [next], a)
         == if FirstObject(books, a).None? && a in next.vals then Some(next.vals[a]) else FirstObject(books, a)
    ensures Running(books + [next], held, a)
         == Running(books, held, a)
            + if a !in next.vals then 0.0
              else if FirstObject(books, a) == Some(next.vals[a]) then Running(books, held, a)
              else HeldBy(held, next.vals[a])
  {
    assert (books + [next])[..|books|] == books;
  }

  lemma MergeAllStep(sheet: Sheet, now: Sheet, sheets: seq<Sheet>, next: Sheet)
    requires forall i | 0 <= i < |sheets| :: sheets[i].Valid()
    requires sheet.Valid() && sheet.keys == MergeAll(sheets).keys
    requires now.Valid() && next.Valid() && now.keys == next.keys
    ensures MergeAll(sheets + [next]).keys == Merge(sheet, now).keys
  {
    MergeAllContents(sheets, 0);
    MergeFirstSameKeys(sheet, MergeAll(sheets), now, next, |now.keys|);
    assert (sheets + [next])[..|sheets|] == sheets;
  }

  lemma CombineStep(
    book: Book, sheet: Sheet, now: Sheet, book': Book, books: seq<Book>, sheets: seq<Sheet>, held: Held, i: nat)
    requires SheetsOf(sheets, books, held) && i < |books| && Combines(book, sheet, books[..i], sheets[..i], held)
    requires NowHolds(book, sheet, books[i], now, held)
    requires book'.Valid() && book'.keys == Merge(sheet, now).keys && Joined(book', book, books[i])
    ensures Combines(book', Merge(sheet, now), books[..i + 1], sheets[..i + 1], held)
  {
    hide Merge, MergeAll, Joined, FirstObject, Running, FiledByAddress;
    assert books[..i + 1] == books[..i] + [books[i]] && sheets[..i + 1] == sheets[..i] + [sheets[i]];
    MergeAllStep(sheet, now, sheets[..i], sheets[i]);
    MergeContents(sheet, now, 0);
    FiledIsValid(books[i]);
    hide SheetsOf, NowHolds;
    forall a
      ensures Merge(sheet, now).Valid()
      ensures a in book'.vals <==> FirstObject(books[..i + 1], a).Some?
      ensures a in book'.vals ==> FirstObject(books[..i + 1], a) == Some(book'.vals[a])
      ensures a in book'.vals ==> BalanceIn(Merge(sheet, now), a) == Running(books[..i + 1], held, a)
    {
      RunningStep(book, sheet, now, book', books[..i], sheets[..i], held, books[i], a);
    }
  }

  /** Objects that are not kept still hold what they held at first. */
  lemma HoldsNow(all: UserBalances, next: UserBalances, held: Held)
    requires all.Valid() && next.Valid() && next.Objects() <= held.Keys
    requires forall o | o in held && o !in all.Objects() :: o.balance == held[o]
    ensures NowHolds(all.userBalances, all.View(), next.userBalances, next.View(), held)
  {
    var book, now := all.userBalances, next.View();
    SheetValid(next.userBalances, now);
    hide FiledByAddress;
    forall k | k in next.userBalances.vals
      ensures now.vals[k] == if k in book.vals && next.userBalances.vals[k] == book.vals[k]
                             then BalanceIn(all.View(), k)
                             else HeldBy(held, next.userBalances.vals[k])
    {
      if k !in book.vals || next.userBalances.vals[k] != book.vals[k] {
        NotFiled(book, k, next.userBalances);
      }
    }
  }

  /** The sets as they were given, and what is combined of them so far. */
  ghost predicate Combining(
    all: UserBalances, balances: seq<UserBalances>, books: seq<Book>, sheets: seq<Sheet>, held: Held, n: nat)
    requires |books| == |sheets| == |balances| && n <= |balances|
    reads all, all.Objects(), balances, held.Keys
  {
    && all.Valid() && all.Objects() <= held.Keys
    && (forall i | 0 <= i < |balances| ::
          balances[i].Valid() && balances[i].userBalances == books[i] && balances[i].Objects() <= held.Keys)
    && (forall o | o in held && o !in all.Objects() :: o.balance == held[o])
    && Combines(all.userBalances, all.View(), books[..n], sheets[..n], held)
  }

  method CombineNext(
    all: UserBalances, balances: seq<UserBalances>, ghost books: seq<Book>, ghost sheets: seq<Sheet>, ghost held: Held,
    i: nat)
    returns (more: UserBalances)
    requires |books| == |sheets| == |balances| && i < |balances| && all !in balances
    requires SheetsOf(sheets, books, held)
    requires Combining(all, balances, books, sheets, held, i)
    modifies all, held.Keys
    ensures fresh(more) && Combining(more, balances, books, sheets, held, i + 1)
  {
    hide FiledByAddress, Merge, Combines, SheetsOf, NowHolds, Joined;
    ghost var book, sheet, now := all.userBalances, all.View(), balances[i].View();
    HoldsNow(all, balances[i], held);
    more := all.Add(balances[i]);
    FiledIsValid(more.userBalances);
    CombineStep(book, sheet, now, more.userBalances, books, sheets, held, i);
  }

  lemma FiledIsValid(book: Book)
    requires FiledByAddress(book)
    ensures book.Valid()
  {
  }

  method CombineBalances(
    balances: seq<UserBalances>, ghost books: seq<Book>, ghost sheets: seq<Sheet>, ghost held: Held)
    returns (all: UserBalances)
    requires |books| == |sheets| == |balances|
    requires forall i | 0 <= i < |balances| ::
               && balances[i].Valid() && balances[i].Objects() <= held.Keys
               && books[i] == balances[i].userBalances && sheets[i] == balances[i].View()
    requires forall o | o in held :: held[o] == o.balance
    modifies held.Keys
    ensures fresh(all) && all.Valid() && all.Objects() <= held.Keys
    ensures forall o | o in held && o !in all.Objects() :: o.balance == held[o]
    ensures SheetsOf(sheets, books, held)
    ensures Combines(all.userBalances, all.View(), books, sheets, held)
  {
    FirstSheets(balances, books, sheets, held);
    all := NoBalances();
    assert books[..0] == [] && sheets[..0] == [];
    assert Combining(all, balances, books, sheets, held, 0);
    for i := 0 to |balances|
      invariant fresh(all)
      invariant Combining(all, balances, books, sheets, held, i)
    {
      hide Combining, SheetsOf;
      all := CombineNext(all, balances, books, sheets, held, i);
    }
    assert books[..|balances|] == books && sheets[..|balances|] == sheets;
  }

  lemma FirstSheets(balances: seq<UserBalances>, books: seq<Book>, sheets: seq<Sheet>, held: Held)
    requires |books| == |sheets| == |balances|
    requires forall i | 0 <= i < |balances| ::
               && balances[i].Valid() && balances[i].Objects() <= held.Keys
               && books[i] == balances[i].userBalances && sheets[i] == balances[i].View()
    requires forall o | o in held :: held[o] == o.balance
    ensures SheetsOf(sheets, books, held)
  {
    forall i | 0 <= i < |balances| ensures sheets[i].Valid() {
      SheetValid(books[i], sheets[i]);
    }
  }

  method NoBalances() returns (none: UserBalances)
    ensures fresh(none) && none.Valid() && none.Objects() == {} && none.View() == Empty()
  {
    none := new UserBalances([]);
  }

  // ----- combining two sets -----

  lemma {:induction false} MergeNothingKeys(s: Sheet, n: nat)
    requires s.Valid() && n <= |s.keys|
    ensures MergeFirst(Empty(), s, n).keys == s.keys[..n]
  {
    if n == 0 {
    } else {
      var a, before := s.keys[n - 1], MergeFirst(Empty(), s, n - 1);
      MergeNothingKeys(s, n - 1);
      MergeFirstContents(Empty(), s, n - 1, a);
      before.HasKey(a);
      assert a !in s.keys[..n - 1];
    }
  }

  lemma MergeNothing(s: Sheet)
    requires s.Valid()
    ensures Merge(Empty(), s) == s
  {
    MergeNothingKeys(s, |s.keys|);
    assert s.keys[..|s.keys|] == s.keys;
    forall a
      ensures BalanceIn(Merge(Empty(), s), a) == BalanceIn(s, a)
      ensures a in Merge(Empty(), s).vals <==> a in s.vals
    {
      MergeContents(Empty(), s, a);
    }
    hide Merge, BalanceIn;
    SameSheets(Merge(Empty(), s), s);
  }

  lemma MergeTwo(s: Sheet, s': Sheet)
    requires s.Valid() && s'.Valid()
    ensures MergeAll([s, s']) == Merge(s, s')
  {
    hide Merge;
    MergeNothing(s);
    assert [s, s'][..1] == [s] && [s][..0] == [];
    assert MergeAll([s]) == Merge(Empty(), s);
  }

  /** What two sets without common objects become: the first set's objects are kept, the others' left alone. */
  ghost predicate CombinesTwo(book: Book, sheet: Sheet, a: Book, b: Book, s: Sheet, s': Sheet) {
    && sheet == Merge(s, s') && Joined(book, a, b)
    && (forall k | k in a.vals :: k in book.vals) && (forall k | k in b.vals :: k in book.vals)
  }

  lemma TwoValid(s: Sheet, s': Sheet, a: Book, b: Book, held: Held)
    requires SheetsOf([s, s'], [a, b], held)
    ensures s.Valid() && s'.Valid()
  {
    assert [s, s'][0] == s && [s, s'][1] == s' && |[a, b]| == 2;
  }

  lemma TwoSeparate(a: Book, b: Book)
    requires a.vals.Values !! b.vals.Values
    ensures Separate([a, b])
  {
  }

  lemma TwoCombined(book: Book, sheet: Sheet, a: Book, b: Book, s: Sheet, s': Sheet, held: Held)
    requires SheetsOf([s, s'], [a, b], held) && Combines(book, sheet, [a, b], [s, s'], held)
    requires a.vals.Values !! b.vals.Values
    ensures CombinesTwo(book, sheet, a, b, s, s')
  {
    hide Combines, SheetsOf, Separate, RepeatsAtOnce, AllPositive, Merge, MergeAll;
    forall k
      ensures k in book.vals <==> k in a.vals || k in b.vals
      ensures k in book.vals ==> book.vals[k] == if k in a.vals then a.vals[k] else b.vals[k]
    {
      BookOfTwo(book, sheet, a, b, s, s', held, k);
    }
    TwoValid(s, s', a, b, held);
    TwoSeparate(a, b);
    CombineExact(book, sheet, [a, b], [s, s'], held);
    MergeTwo(s, s');
  }

  lemma BookOfTwo(book: Book, sheet: Sheet, a: Book, b: Book, s: Sheet, s': Sheet, held: Held, k: Address)
    requires Combines(book, sheet, [a, b], [s, s'], held)
    ensures k in book.vals <==> k in a.vals || k in b.vals
    ensures k in book.vals ==> book.vals[k] == if k in a.vals then a.vals[k] else b.vals[k]
  {
    hide FirstObject, Running, MergeAll, BalanceIn;
    FirstOfTwo(a, b, k);
  }

  lemma FirstOfTwo(a: Book, b: Book, k: Address)
    ensures FirstObject([a, b], k)
         == if k in a.vals then Some(a.vals[k]) else if k in b.vals then Some(b.vals[k]) else None
  {
    assert [a, b][..1] == [a] && [a][..0] == [];
    assert FirstObject([a], k) == if k in a.vals then Some(a.vals[k]) else None;
  }

  /** `combine_balances([a, b])` for sets that share nothing. */
  method CombineTwo(a: UserBalances, b: UserBalances) returns (all: UserBalances)
    requires a.Valid() && b.Valid() && a.Objects() !! b.Objects()
    modifies a.Objects(), b.Objects()
    ensures fresh(all) && all.Valid() && all.Objects() <= a.Objects() + b.Objects()
    ensures CombinesTwo(all.userBalances, all.View(), a.userBalances, b.userBalances, old(a.View()), old(b.View()))
    ensures forall o | o in b.Objects() && o !in all.Objects() :: o.balance == old(o.balance)
  {
    hide FiledByAddress, CombinesTwo, Combines, SheetsOf;
    ghost var objects := a.Objects() + b.Objects();
    ghost var held := map o: UserBalance | o in objects :: o.balance;
    ghost var s, s' := a.View(), b.View();
    all := CombineBalances([a, b], [a.userBalances, b.userBalances], [s, s'], held);
    TwoCombined(all.userBalances, all.View(), a.userBalances, b.userBalances, s, s', held);
  }
}
