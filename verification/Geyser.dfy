/** Geyser balances from stake and unstake events (assistant/rewards/rewards_utils.py:164-176). */
module Geyser {
  import opened Prelude
  import opened Dicts
  import opened Abi
  import opened Sorting

  /** A user's total after a stake or unstake. */
  datatype Event = Event(user: Address, timestamp: int, total: int)

  const TIME: Event -> real := (e: Event) => e.timestamp as real

  /** The user's last event in the list. */
  function LastOf(events: seq<Event>, u: Address): Option<Event> {
    if events == [] then None
    else if events[|events| - 1].user == u then Some(events[|events| - 1])
    else LastOf(events[..|events| - 1], u)
  }

  /** The user's event with the greatest timestamp; of several, the one that arrived last. */
  function Latest(events: seq<Event>, u: Address): Option<Event> {
    if events == [] then None
    else
      var before, e := Latest(events[..|events| - 1], u), events[|events| - 1];
      if e.user == u && (before.None? || before.value.timestamp <= e.timestamp) then Some(e) else before
  }

  /** The balances are the totals of the users' last events in the list. */
  ghost predicate HoldsLast(balances: Dict<Address, int>, events: seq<Event>) {
    balances.Valid() && forall u :: HoldsLastOf(balances, events, u)
  }

  ghost predicate HoldsLastOf(balances: Dict<Address, int>, events: seq<Event>, u: Address) {
    match LastOf(events, u)
    case None => u !in balances.vals
    case Some(e) => u in balances.vals && balances.vals[u] == e.total
  }

  lemma HoldsLastStep(balances: Dict<Address, int>, events: seq<Event>, e: Event)
    requires HoldsLast(balances, events)
    ensures HoldsLast(balances.Put(e.user, e.total), events + [e])
  {
    balances.PutValid(e.user, e.total);
    assert (events + [e])[..|events|] == events;
    forall u ensures HoldsLastOf(balances.Put(e.user, e.total), events + [e], u) {
      assert HoldsLastOf(balances, events, u);
    }
  }

  /** In time order, each event overwrites the user's balance. The time check compares with 0 throughout. */
  method CalcBalances(stakes: seq<Event>, unstakes: seq<Event>) returns (r: Result<Dict<Address, int>>)
    ensures r.Success? <==> AllTimed(stakes + unstakes)
    ensures r.Failure? ==> r.error == AssertionError
    ensures r.Success? ==> r.value.Valid()
    ensures r.Success? ==> forall u :: HoldsLatestOf(r.value, stakes + unstakes, u)
    ensures r.Success? ==> forall e | e in stakes + unstakes && LaterThanOthers(e, stakes + unstakes) ::
                             e.user in r.value.vals && r.value.vals[e.user] == e.total
  {
    ghost var arrived := stakes + unstakes;
    var events := SortedBy(stakes + unstakes, TIME);
    hide HoldsLast, HoldsLatestOf, SortedBy, AllTimed;
    TimedSorted(arrived);
    NoneHeld(events);
    var balances: Dict<Address, int> := Empty();
    var currentTime := 0;
    for i := 0 to |events|
      invariant HoldsLast(balances, events[..i])
      invariant AllTimed(events[..i])
    {
      var event := events[i];
      TimedStep(events, i);
      if event.timestamp < currentTime {
        return Failure(AssertionError);
      }
      HoldsLastStep(balances, events[..i], event);
      assert events[..i + 1] == events[..i] + [event];
      balances := balances.Put(event.user, event.total);
    }
    assert events[..|events|] == events;
    AllLatest(balances, arrived);
    LatestHeld(balances, arrived);
    return Success(balances);
  }

  /** Every other event of the user is earlier. */
  ghost predicate LaterThanOthers(e: Event, events: seq<Event>) {
    forall x | x in events && x.user == e.user && x != e :: x.timestamp < e.timestamp
  }

  lemma LatestOfAll(events: seq<Event>, e: Event)
    requires e in events && LaterThanOthers(e, events)
    ensures Latest(events, e.user) == Some(e)
  {
    LatestIsMaximal(events, e.user);
  }

  lemma LatestHeld(balances: Dict<Address, int>, events: seq<Event>)
    requires forall u :: HoldsLatestOf(balances, events, u)
    ensures forall e | e in events && LaterThanOthers(e, events) ::
              e.user in balances.vals && balances.vals[e.user] == e.total
  {
    forall e | e in events && LaterThanOthers(e, events)
      ensures e.user in balances.vals && balances.vals[e.user] == e.total
    {
      LatestOfAll(events, e);
      assert HoldsLatestOf(balances, events, e.user);
    }
  }

  predicate AllTimed(events: seq<Event>) {
    forall i | 0 <= i < |events| :: events[i].timestamp >= 0
  }

  lemma NoneHeld(events: seq<Event>)
    ensures HoldsLast(Empty(), events[..0]) && AllTimed(events[..0])
  {
  }

  lemma TimedStep(events: seq<Event>, i: nat)
    requires i < |events| && AllTimed(events[..i])
    ensures AllTimed(events[..i + 1]) <==> events[i].timestamp >= 0
    ensures events[i].timestamp < 0 ==> !AllTimed(events)
  {
    assert events[..i + 1] == events[..i] + [events[i]];
  }

  lemma TimedSorted(events: seq<Event>)
    ensures AllTimed(SortedBy(events, TIME)) <==> AllTimed(events)
  {
    var sorted := SortedBy(events, TIME);
    SortedByContents(events, TIME);
    forall i | 0 <= i < |events| ensures events[i] in sorted {
      assert events[i] in multiset(sorted);
    }
    forall i | 0 <= i < |sorted| ensures sorted[i] in events {
      assert sorted[i] in multiset(events);
    }
  }

  ghost predicate HoldsLatestOf(balances: Dict<Address, int>, events: seq<Event>, u: Address) {
    match Latest(events, u)
    case None => u !in balances.vals
    case Some(e) => u in balances.vals && balances.vals[u] == e.total
  }

  lemma AllLatest(balances: Dict<Address, int>, arrived: seq<Event>)
    requires HoldsLast(balances, SortedBy(arrived, TIME))
    ensures balances.Valid() && forall u :: HoldsLatestOf(balances, arrived, u)
  {
    forall u ensures HoldsLatestOf(balances, arrived, u) {
      LastOfSorted(arrived, u);
      assert HoldsLastOf(balances, SortedBy(arrived, TIME), u);
    }
  }

  lemma {:induction false} LastOfInsert(s: seq<Event>, x: Event, u: Address)
    requires Ascends(s, TIME)
    ensures var before := LastOf(s, u);
            LastOf(InsertBy(s, x, TIME), u)
            == if x.user == u && (before.None? || before.value.timestamp <= x.timestamp) then Some(x) else before
  {
    if s == [] {
    } else {
      var rest, last := s[..|s| - 1], s[|s| - 1];
      if TIME(last) <= TIME(x) {
        LastOfMember(s, u);
        assert (s + [x])[..|s|] == s;
      } else {
        LastOfInsert(rest, x, u);
        var r := InsertBy(rest, x, TIME);
        assert (r + [last])[..|r|] == r;
      }
    }
  }

  lemma {:induction false} LastOfMember(s: seq<Event>, u: Address)
    ensures LastOf(s, u).Some? ==> LastOf(s, u).value in s && LastOf(s, u).value.user == u
    ensures LastOf(s, u).None? ==> forall i | 0 <= i < |s| :: s[i].user != u
  {
    if s == [] {
    } else {
      LastOfMember(s[..|s| - 1], u);
    }
  }

  /** Sorting by time and keeping the last write finds each user's latest event. */
  lemma {:induction false} LastOfSorted(events: seq<Event>, u: Address)
    ensures LastOf(SortedBy(events, TIME), u) == Latest(events, u)
  {
    if events == [] {
    } else {
      var rest := events[..|events| - 1];
      LastOfSorted(rest, u);
      SortedByContents(rest, TIME);
      LastOfInsert(SortedBy(rest, TIME), events[|events| - 1], u);
    }
  }

  lemma {:induction false} LatestIsMaximal(events: seq<Event>, u: Address)
    ensures Latest(events, u).None? ==> forall i | 0 <= i < |events| :: events[i].user != u
    ensures Latest(events, u).Some? ==>
              var e := Latest(events, u).value;
              && e in events && e.user == u
              && forall i | 0 <= i < |events| && events[i].user == u :: events[i].timestamp <= e.timestamp
  {
    if events == [] {
    } else {
      LatestIsMaximal(events[..|events| - 1], u);
    }
  }

  /** When no two events of a user share a timestamp, the order in which events arrive does not matter to that user. */
  lemma ArrivalOrderIrrelevant(a: seq<Event>, b: seq<Event>, u: Address)
    requires multiset(a) == multiset(b)
    requires forall x, y | x in a && y in a && x.user == u && y.user == u && x.timestamp == y.timestamp :: x == y
    ensures Latest(a, u) == Latest(b, u)
  {
    LatestIsMaximal(a, u);
    LatestIsMaximal(b, u);
    assert forall e :: e in a <==> e in multiset(a);
    assert forall e :: e in b <==> e in multiset(b);
    if Latest(a, u).Some? {
      assert Latest(a, u).value in b;
    }
    if Latest(b, u).Some? {
      assert Latest(b, u).value in a;
    }
  }
}
