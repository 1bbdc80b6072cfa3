/**
 The published rewards file: adding new rewards to the previous file (assistant/rewards/rewards_utils.py:97-122)
 and turning the cumulative list into claims with proofs (assistant/rewards/classes/MerkleTree.py:62-112).
 */
module Publication {
  import opened Prelude
  import opened Dicts
  import opened Abi
  import opened Merkle
  import opened Rewards
  import RewardsUtils

  /** One user's claim in the file. */
  datatype Entry = Entry(
    index: int,
    user: Address,
    cycle: int,
    tokens: seq<Address>,
    cumulativeAmounts: seq<int>,
    proof: seq<Digest>,
    node: Bytes)

  datatype File = File(
    merkleRoot: Digest,
    cycle: int,
    startBlock: int,
    endBlock: int,
    tokenTotals: Holdings,
    claims: Dict<Address, Entry>)

  // ----- reading a file -----

  /** The amount listed for the first occurrence of a token. */
  function Claimable(tokens: seq<Address>, amounts: seq<int>, t: Address): int
    requires |tokens| <= |amounts|
  {
    if tokens == [] then 0
    else if tokens[0] == t then amounts[0]
    else Claimable(tokens[1..], amounts[1..], t)
  }

  /** The amount at the first place where the token is listed, which may lie beyond the amounts. */
  method GetCumulativeClaimableForToken(claim: Entry, token: Address) returns (amount: Result<int>)
    ensures token !in claim.tokens ==> amount == Success(0)
    ensures forall i | 0 <= i < |claim.tokens| && claim.tokens[i] == token && token !in claim.tokens[..i] ::
              amount == if i < |claim.cumulativeAmounts| then Success(claim.cumulativeAmounts[i])
                        else Failure(IndexError)
    ensures |claim.tokens| <= |claim.cumulativeAmounts| ==>
              amount == Success(Claimable(claim.tokens, claim.cumulativeAmounts, token))
  {
    var tokens, amounts := claim.tokens, claim.cumulativeAmounts;
    for i := 0 to |tokens|
      invariant |tokens| <= |amounts| ==>
                  Claimable(tokens[i..], amounts[i..], token) == Claimable(tokens, amounts, token)
      invariant token !in tokens[..i]
    {
      if tokens[i] == token {
        assert forall j | 0 <= j < |tokens| && tokens[j] == token && token !in tokens[..j] :: i == j by {
          forall j | i < j < |tokens| ensures token in tokens[..j] {
            assert tokens[..j][i] == token;
          }
        }
        return if i < |amounts| then Success(amounts[i]) else Failure(IndexError);
      }
      if |tokens| <= |amounts| {
        assert tokens[i..][1..] == tokens[i + 1..] && amounts[i..][1..] == amounts[i + 1..];
      }
    }
    return Success(0);
  }

  /** An entry lists at least one token, no token twice, and one amount per token, none negative. */
  ghost predicate GoodEntry(e: Entry) {
    && e.tokens != []
    && |e.tokens| == |e.cumulativeAmounts|
    && (forall i, j | 0 <= i < j < |e.tokens| :: e.tokens[i] != e.tokens[j])
    && (forall i | 0 <= i < |e.cumulativeAmounts| :: e.cumulativeAmounts[i] >= 0)
  }

  ghost predicate GoodFile(f: File) {
    f.claims.Valid() && forall u | u in f.claims.vals :: GoodEntry(f.claims.vals[u])
  }

  ghost predicate Lists(f: File, u: Address, t: Address) {
    u in f.claims.vals && t in f.claims.vals[u].tokens
  }

  /** What the file lets a user claim in a token, over all time. */
  ghost function Published(f: File, u: Address, t: Address): int
    requires GoodFile(f)
  {
    if u in f.claims.vals then
      Claimable(f.claims.vals[u].tokens, f.claims.vals[u].cumulativeAmounts, t)
    else 0
  }

  // ----- process_cumulative_rewards -----

  ghost function EntryCredits(u: Address, e: Entry, n: nat): seq<Credit>
    requires n <= |e.tokens| && n <= |e.cumulativeAmounts|
  {
    if n == 0 then []
    else EntryCredits(u, e, n - 1) + [Credit(u, e.tokens[n - 1], e.cumulativeAmounts[n - 1] as real)]
  }

  /** Every entry has an amount for each of its tokens. */
  ghost predicate Readable(f: File) {
    f.claims.Valid() && forall u | u in f.claims.vals :: ReadableEntry(f.claims.vals[u])
  }

  predicate ReadableEntry(e: Entry) {
    |e.tokens| <= |e.cumulativeAmounts|
  }

  ghost function FileCredits(f: File, n: nat): seq<Credit>
    requires Readable(f) && n <= |f.claims.keys|
  {
    if n == 0 then []
    else
      f.claims.HasKey(f.claims.keys[n - 1]);
      var u := f.claims.keys[n - 1];
      FileCredits(f, n - 1) + EntryCredits(u, f.claims.vals[u], |f.claims.vals[u].tokens|)
  }

  /** The new rewards, then everything published before. */
  ghost function Cumulative(current: File, new_: Ledger): Ledger
    requires Readable(current) && WellFormed(new_)
  {
    Apply(Apply(NO_REWARDS, Items(new_)), FileCredits(current, |current.claims.keys|))
  }

  lemma {:induction false} ClaimableAt(tokens: seq<Address>, amounts: seq<int>, i: nat)
    requires |tokens| <= |amounts| && i < |tokens|
    requires forall j, k | 0 <= j < k < |tokens| :: tokens[j] != tokens[k]
    ensures Claimable(tokens, amounts, tokens[i]) == amounts[i]
  {
    if i == 0 {
    } else {
      ClaimableAt(tokens[1..], amounts[1..], i - 1);
    }
  }

  lemma {:induction false} ClaimableAbsent(tokens: seq<Address>, amounts: seq<int>, t: Address)
    requires |tokens| <= |amounts| && t !in tokens
    ensures Claimable(tokens, amounts, t) == 0
  {
    if tokens == [] {
    } else {
      ClaimableAbsent(tokens[1..], amounts[1..], t);
    }
  }

  lemma {:induction false} EntryCreditsContents(u: Address, e: Entry, n: nat, v: Address, t: Address)
    requires GoodEntry(e) && n <= |e.tokens|
    ensures Mentions(EntryCredits(u, e, n), v, t) <==> v == u && t in e.tokens[..n]
    ensures Credited(EntryCredits(u, e, n), v, t)
         == if v == u && t in e.tokens[..n] then Claimable(e.tokens, e.cumulativeAmounts, t) as real else 0.0
  {
    if n == 0 {
    } else {
      EntryCreditsContents(u, e, n - 1, v, t);
      PrefixMember(e.tokens, n, t);
      ClaimableAt(e.tokens, e.cumulativeAmounts, n - 1);
      var before, log := EntryCredits(u, e, n - 1), EntryCredits(u, e, n);
      assert log[..|log| - 1] == before;
      MentionsLast(log, v, t);
    }
  }

  lemma UserEntryContents(u: Address, e: Entry, v: Address, t: Address)
    requires GoodEntry(e)
    ensures var log := EntryCredits(u, e, |e.tokens|);
            && (Mentions(log, v, t) <==> v == u && t in e.tokens)
            && Credited(log, v, t)
               == if v == u then Claimable(e.tokens, e.cumulativeAmounts, t) as real else 0.0
  {
    EntryCreditsContents(u, e, |e.tokens|, v, t);
    assert e.tokens[..|e.tokens|] == e.tokens;
    if t !in e.tokens {
      ClaimableAbsent(e.tokens, e.cumulativeAmounts, t);
    }
  }

  lemma {:induction false} FileCreditsContents(f: File, n: nat, v: Address, t: Address)
    requires GoodFile(f) && Readable(f) && n <= |f.claims.keys|
    ensures Mentions(FileCredits(f, n), v, t) <==> v in f.claims.keys[..n] && Lists(f, v, t)
    ensures Credited(FileCredits(f, n), v, t)
         == if v in f.claims.keys[..n] then Published(f, v, t) as real else 0.0
  {
    if n == 0 {
    } else {
      var u := f.claims.keys[n - 1];
      f.claims.HasKey(u);
      var e := f.claims.vals[u];
      FileCreditsContents(f, n - 1, v, t);
      UserEntryContents(u, e, v, t);
      MentionsConcat(FileCredits(f, n - 1), EntryCredits(u, e, |e.tokens|), v, t);
      CreditedConcat(FileCredits(f, n - 1), EntryCredits(u, e, |e.tokens|), v, t);
      PrefixMember(f.claims.keys, n, v);
    }
  }

  lemma GoodIsReadable(f: File)
    requires GoodFile(f)
    ensures Readable(f)
  {
  }

  /** The cumulative list is, for every user and token, the new amount on top of the published one. */
  lemma CumulativeContents(current: File, new_: Ledger, u: Address, t: Address)
    requires GoodFile(current) && Readable(current) && WellFormed(new_)
    ensures var l := Cumulative(current, new_);
            && Amount(l, u, t) == Published(current, u, t) as real + Amount(new_, u, t)
            && (Has(l, u, t) <==> Has(new_, u, t) || Lists(current, u, t))
            && Consistent(l)
  {
    var first, n := Items(new_), |current.claims.keys|;
    var second := FileCredits(current, n);
    ItemsContents(new_, u, t);
    FileCreditsContents(current, n, u, t);
    assert current.claims.keys[..n] == current.claims.keys;
    current.claims.HasKey(u);
    ApplyContents(NO_REWARDS, first, u, t);
    ApplyContents(Apply(NO_REWARDS, first), second, u, t);
    EmptyConsistent();
    ApplyConsistent(NO_REWARDS, first);
    ApplyConsistent(Apply(NO_REWARDS, first), second);
  }

  /** Users with new rewards come first, in the order of the new list. */
  lemma CumulativeOrder(current: File, new_: Ledger)
    requires Readable(current) && WellFormed(new_)
    ensures new_.claims.keys <= Cumulative(current, new_).claims.keys
  {
    ItemsOrder(new_);
    ApplyKeepsOrder(Apply(NO_REWARDS, Items(new_)), FileCredits(current, |current.claims.keys|));
  }

  /** Credits one published entry, or stops where an amount is missing. */
  method AddEntry(result: RewardsList, user: Address, userData: Entry) returns (complete: bool)
    requires result.Valid()
    modifies result
    ensures result.Valid()
    ensures complete <==> ReadableEntry(userData)
    ensures complete ==>
              result.State() == Apply(old(result.State()), EntryCredits(user, userData, |userData.tokens|))
  {
    hide WellFormed, Increase;
    ghost var before := result.State();
    for i := 0 to |userData.tokens|
      invariant i <= |userData.cumulativeAmounts|
      invariant result.Valid()
      invariant result.State() == Apply(before, EntryCredits(user, userData, i))
    {
      if i == |userData.cumulativeAmounts| {
        return false;
      }
      var token, amount := userData.tokens[i], userData.cumulativeAmounts[i] as real;
      ghost var c := Credit(user, token, amount);
      assert EntryCredits(user, userData, i + 1) == EntryCredits(user, userData, i) + [c];
      ApplyAppend(before, EntryCredits(user, userData, i), c);
      result.IncreaseUserRewards(user, token, amount);
    }
    return true;
  }

  method ProcessCumulativeRewards(current: File, rewards: RewardsList, ghost new_: Ledger)
    returns (r: Result<RewardsList>)
    requires rewards.Valid() && rewards.State() == new_ && current.claims.Valid()
    ensures r.Success? <==> Readable(current)
    ensures r.Failure? ==> r.error == IndexError
    ensures r.Success? ==> fresh(r.value) && r.value.Valid() && r.value.cycle == rewards.cycle
    ensures r.Success? ==> r.value.State() == Cumulative(current, new_)
  {
    hide WellFormed, Increase, ReadableEntry;
    var result := new RewardsList(rewards.cycle);
    RewardsUtils.AddClaims(result, rewards);
    ghost var start := result.State();
    for i := 0 to |current.claims.keys|
      invariant result.Valid()
      invariant forall j | 0 <= j < i ::
                  && current.claims.keys[j] in current.claims.vals
                  && ReadableEntry(current.claims.vals[current.claims.keys[j]])
      invariant ReadFrom(current, i, start, result.State())
    {
      var user := current.claims.keys[i];
      current.claims.HasKey(user);
      var userData := current.claims.vals[user];
      ghost var before := result.State();
      var complete := AddEntry(result, user, userData);
      if !complete {
        assert !ReadableEntry(current.claims.vals[user]);
        return Failure(IndexError);
      }
      ReadFromStep(current, i, start, before);
    }
    forall u | u in current.claims.vals ensures ReadableEntry(current.claims.vals[u]) {
      current.claims.HasKey(u);
    }
    return Success(result);
  }

  /** The first `n` entries of a readable file have been credited. */
  ghost predicate ReadFrom(f: File, n: nat, start: Ledger, l: Ledger)
    requires n <= |f.claims.keys|
  {
    Readable(f) ==> l == Apply(start, FileCredits(f, n))
  }

  lemma ReadFromStep(f: File, n: nat, start: Ledger, l: Ledger)
    requires n < |f.claims.keys| && ReadFrom(f, n, start, l)
    requires f.claims.keys[n] in f.claims.vals && ReadableEntry(f.claims.vals[f.claims.keys[n]])
    ensures var e := f.claims.vals[f.claims.keys[n]];
            ReadFrom(f, n + 1, start, Apply(l, EntryCredits(f.claims.keys[n], e, |e.tokens|)))
  {
    if Readable(f) {
      var u := f.claims.keys[n];
      var e := f.claims.vals[u];
      ApplyConcat(start, FileCredits(f, n), EntryCredits(u, e, |e.tokens|));
    }
  }

  // ----- rewards_to_merkle_tree -----

  ghost function EntryAt(keccak: Hash, l: Ledger, cycle: int, i: nat): Entry
    requires WellFormed(l) && Encodable(l, cycle) && i < |l.claims.keys|
  {
    var node, leaves := NodeAt(l, cycle, i), SortedDigests(keccak, Encodings(l, cycle));
    var encoded := Encodings(l, cycle)[i];
    Entry(node.index, node.user, node.cycle, node.tokens, node.cumulativeAmounts,
          PathProof(Layers(keccak, leaves), IndexOf(leaves, keccak(encoded)).value), encoded)
  }

  /** `f` is the file that publishes the ledger. */
  ghost predicate Publishes(keccak: Hash, l: Ledger, cycle: int, startBlock: int, endBlock: int, f: File) {
    && WellFormed(l) && l.claims.keys != [] && Encodable(l, cycle)
    && f.merkleRoot == Root(keccak, SortedDigests(keccak, Encodings(l, cycle)))
    && f.cycle == cycle && f.startBlock == startBlock && f.endBlock == endBlock
    && f.tokenTotals == l.totals
    && f.claims.Valid() && f.claims.keys == l.claims.keys
    && EntriesAre(keccak, l, cycle, f.claims, |l.claims.keys|)
  }

  ghost predicate EntriesAre(keccak: Hash, l: Ledger, cycle: int, claims: Dict<Address, Entry>, n: nat)
    requires WellFormed(l) && Encodable(l, cycle) && n <= |l.claims.keys|
  {
    forall i | 0 <= i < n ::
      l.claims.keys[i] in claims.vals && claims.vals[l.claims.keys[i]] == EntryAt(keccak, l, cycle, i)
  }

  method ClaimEntry(
    keccak: Hash, tree: MerkleTree, encodedNodes: seq<Bytes>, node: Node, ghost l: Ledger, ghost cycle: int,
    ghost i: nat)
    returns (entry: Entry)
    requires WellFormed(l) && Encodable(l, cycle) && i < |l.claims.keys|
    requires encodedNodes == Encodings(l, cycle) && node == NodeAt(l, cycle, i)
    requires tree.keccak == keccak && tree.elements == SortedDigests(keccak, encodedNodes)
    requires tree.layers == Layers(keccak, tree.elements)
    ensures entry == EntryAt(keccak, l, cycle, i)
  {
    assert keccak(encodedNodes[node.index]) in tree.elements;
    var proof: Result<seq<Digest>> := tree.GetProof(encodedNodes[node.index]);
    entry := Entry(node.index, node.user, node.cycle, node.tokens, node.cumulativeAmounts, proof.value,
                   encodedNodes[node.index]);
  }

  lemma ClaimsStep(keccak: Hash, l: Ledger, cycle: int, claims: Dict<Address, Entry>, i: nat)
    requires WellFormed(l) && Encodable(l, cycle) && i < |l.claims.keys|
    requires claims.Valid() && claims.keys == l.claims.keys[..i] && EntriesAre(keccak, l, cycle, claims, i)
    ensures var more := claims.Put(l.claims.keys[i], EntryAt(keccak, l, cycle, i));
            more.Valid() && more.keys == l.claims.keys[..i + 1] && EntriesAre(keccak, l, cycle, more, i + 1)
  {
    var entry := EntryAt(keccak, l, cycle, i);
    claims.PutNext(l.claims.keys, i, entry);
    assert EntriesAre(keccak, l, cycle, claims.Put(l.claims.keys[i], entry), i + 1) by {
      forall j | 0 <= j < i ensures l.claims.keys[j] != l.claims.keys[i] {}
    }
  }

  method RewardsToMerkleTree(keccak: Hash, rewards: RewardsList, startBlock: int, endBlock: int)
    returns (r: Result<File>)
    requires rewards.Valid()
    ensures r.Success? <==> Encodable(rewards.State(), rewards.cycle) && rewards.claims.keys != []
    ensures r.Failure? ==>
              r.error == if Encodable(rewards.State(), rewards.cycle) then IndexError else EncodingError
    ensures r.Success? ==> Publishes(keccak, rewards.State(), rewards.cycle, startBlock, endBlock, r.value)
  {
    hide WellFormed, Encodable, SortedDigests, Root, Layers, EntryAt;
    ghost var l, cycle := rewards.State(), rewards.cycle;
    var format: (seq<Node>, seq<Bytes>) :- rewards.ToMerkleFormat();
    var nodes: seq<Node>, encodedNodes: seq<Bytes> := format.0, format.1;
    var tree := new MerkleTree(keccak, encodedNodes);
    var root: Digest :- tree.GetRoot();
    var claims: Dict<Address, Entry> := Empty();
    for i := 0 to |nodes|
      invariant claims.Valid() && claims.keys == l.claims.keys[..i]
      invariant EntriesAre(keccak, l, cycle, claims, i)
    {
      var entry := ClaimEntry(keccak, tree, encodedNodes, nodes[i], l, cycle, i);
      ClaimsStep(keccak, l, cycle, claims, i);
      claims := claims.Put(nodes[i].user, entry);
    }
    return Success(File(root, nodes[0].cycle, startBlock, endBlock, rewards.totals, claims));
  }

  // ----- what a published file promises -----

  lemma {:induction false} ClaimableReadBack(tokens: seq<Address>, amounts: seq<int>, d: Holdings, i: nat)
    requires d.Valid() && tokens == d.keys && amounts == WholeAmounts(d) && i < |d.keys|
    ensures d.keys[i] in d.vals && Claimable(tokens, amounts, d.keys[i]) == Trunc(d.vals[d.keys[i]])
  {
    d.HasKey(d.keys[i]);
    ClaimableAt(tokens, amounts, i);
  }

  /** The tokens and amounts of every entry read back to the whole part of what the ledger holds. */
  lemma PublishedAmounts(
    keccak: Hash, l: Ledger, cycle: int, startBlock: int, endBlock: int, f: File, u: Address, t: Address)
    requires Publishes(keccak, l, cycle, startBlock, endBlock, f)
    ensures GoodFile(f) && Readable(f)
    ensures Published(f, u, t) == Trunc(Amount(l, u, t))
    ensures Lists(f, u, t) <==> Has(l, u, t)
  {
    forall v | v in f.claims.vals ensures GoodEntry(f.claims.vals[v]) {
      UserEntry(keccak, l, cycle, startBlock, endBlock, f, v);
    }
    f.claims.HasKey(u);
    l.claims.HasKey(u);
    if u in f.claims.vals {
      UserEntry(keccak, l, cycle, startBlock, endBlock, f, u);
      var d := l.claims.vals[u];
      d.HasKey(t);
      if t in d.keys {
        var i :| 0 <= i < |d.keys| && d.keys[i] == t;
        ClaimableReadBack(f.claims.vals[u].tokens, f.claims.vals[u].cumulativeAmounts, d, i);
      } else {
        ClaimableAbsent(f.claims.vals[u].tokens, f.claims.vals[u].cumulativeAmounts, t);
      }
    }
  }

  lemma UserEntry(keccak: Hash, l: Ledger, cycle: int, startBlock: int, endBlock: int, f: File, u: Address)
    requires Publishes(keccak, l, cycle, startBlock, endBlock, f)
    requires u in f.claims.vals
    ensures u in l.claims.vals
    ensures var e, d := f.claims.vals[u], l.claims.vals[u];
            GoodEntry(e) && d.Valid() && e.tokens == d.keys && e.cumulativeAmounts == WholeAmounts(d)
  {
    f.claims.HasKey(u);
    l.claims.HasKey(u);
    var i :| 0 <= i < |l.claims.keys| && l.claims.keys[i] == u;
    hide Encodings, SortedDigests, PathProof, Layers, IndexOf, Encodable, Encode, WholeAmounts, GoodEntry;
    assert f.claims.vals[u] == EntryAt(keccak, l, cycle, i);
    HoldingsEntry(l.claims.vals[u], f.claims.vals[u]);
  }

  lemma HoldingsEntry(d: Holdings, e: Entry)
    requires GoodHoldings(d) && e.tokens == d.keys && e.cumulativeAmounts == WholeAmounts(d)
    ensures GoodEntry(e)
  {
    WholeAmountsNonNegative(d);
  }

  lemma WholeAmountsNonNegative(d: Holdings)
    requires GoodHoldings(d)
    ensures forall i | 0 <= i < |WholeAmounts(d)| :: WholeAmounts(d)[i] >= 0
  {
    forall i | 0 <= i < |d.keys| ensures WholeAmounts(d)[i] >= 0 {
      d.HasKey(d.keys[i]);
    }
  }

  /** Indices are 0..n-1 in file order, and every user's proof leads from the user's own claim to the root. */
  lemma EntriesVerify(keccak: Hash, l: Ledger, cycle: int, startBlock: int, endBlock: int, f: File, i: nat)
    requires Publishes(keccak, l, cycle, startBlock, endBlock, f) && i < |f.claims.keys|
    ensures f.claims.keys[i] in f.claims.vals
    ensures var e := f.claims.vals[f.claims.keys[i]];
            && e.index == i && e.user == f.claims.keys[i] && e.cycle == f.cycle
            && Encode(Node(e.user, e.tokens, e.cumulativeAmounts, e.cycle, e.index)) == Success(e.node)
            && Fold(keccak, keccak(e.node), e.proof) == f.merkleRoot
  {
    var encodings := Encodings(l, cycle);
    var leaves := SortedDigests(keccak, encodings);
    assert keccak(encodings[i]) in leaves;
    PathProofFolds(keccak, leaves, IndexOf(leaves, keccak(encodings[i])).value);
  }

  lemma EncodingsLeafShaped(l: Ledger, cycle: int)
    requires WellFormed(l) && Encodable(l, cycle)
    ensures LeafShaped(Encodings(l, cycle))
  {
  }

  /** Nobody else can claim: whatever claim verifies against the root is, field by field, one in the file. */
  lemma OnlyPublishedClaimsVerify(
    keccak: Hash, l: Ledger, cycle: int, startBlock: int, endBlock: int, f: File, claim: Node, proof: seq<Digest>)
    requires Publishes(keccak, l, cycle, startBlock, endBlock, f)
    requires Encode(claim).Success?
    requires Fold(keccak, keccak(Encode(claim).value), proof) == f.merkleRoot
    requires CollisionFree(keccak,
                           TreeInputs(keccak, Encodings(l, cycle)) + {Encode(claim).value}
                           + FoldInputs(keccak, keccak(Encode(claim).value), proof))
    ensures claim.user in f.claims.vals
    ensures var e := f.claims.vals[claim.user];
            claim == Node(e.user, e.tokens, e.cumulativeAmounts, e.cycle, e.index)
  {
    EncodingsLeafShaped(l, cycle);
    EncodeLength(claim);
    Binding(keccak, Encodings(l, cycle), Encode(claim).value, proof);
    var i :| 0 <= i < |l.claims.keys| && Encodings(l, cycle)[i] == Encode(claim).value;
    EncodeInjective(NodeAt(l, cycle, i), claim);
  }

  /** There are as many leaves as users. */
  lemma LeafCount(keccak: Hash, l: Ledger, cycle: int)
    requires WellFormed(l) && Encodable(l, cycle)
    requires CollisionFree(keccak, TreeInputs(keccak, Encodings(l, cycle)))
    ensures |SortedDigests(keccak, Encodings(l, cycle))| == |l.claims.keys|
  {
    var encodings := Encodings(l, cycle);
    forall i, j | 0 <= i < j < |encodings| ensures keccak(encodings[i]) != keccak(encodings[j]) {
      if encodings[i] == encodings[j] {
        EncodeInjective(NodeAt(l, cycle, i), NodeAt(l, cycle, j));
      }
      assert encodings[i] in TreeInputs(keccak, encodings) && encodings[j] in TreeInputs(keccak, encodings);
    }
    DistinctDigests(keccak, encodings);
  }

  // ----- totals -----

  ghost function SumPublished(f: File, users: seq<Address>, t: Address): int
    requires GoodFile(f)
  {
    if users == [] then 0
    else SumPublished(f, users[..|users| - 1], t) + Published(f, users[|users| - 1], t)
  }

  /** How many of the users hold the token. */
  ghost function Holders(l: Ledger, users: seq<Address>, t: Address): nat {
    if users == [] then 0
    else Holders(l, users[..|users| - 1], t) + if Has(l, users[|users| - 1], t) then 1 else 0
  }

  function PublishedTotal(f: File, t: Address): real {
    if t in f.tokenTotals.vals then f.tokenTotals.vals[t] else 0.0
  }

  lemma {:induction false} RoundingLoss(l: Ledger, f: File, users: seq<Address>, t: Address)
    requires GoodFile(f)
    requires forall u :: Published(f, u, t) == Trunc(Amount(l, u, t)) && Amount(l, u, t) >= 0.0
    ensures var loss := SumUsers(l, users, t) - SumPublished(f, users, t) as real;
            && 0.0 <= loss <= Holders(l, users, t) as real
            && (Holders(l, users, t) > 0 ==> loss < Holders(l, users, t) as real)
            && ((forall u | u in users :: Amount(l, u, t) == Trunc(Amount(l, u, t)) as real) ==> loss == 0.0)
  {
    if users == [] {
    } else {
      var rest, last := users[..|users| - 1], users[|users| - 1];
      RoundingLoss(l, f, rest, t);
      var x := Amount(l, last, t);
      assert Published(f, last, t) == Trunc(x);
      assert x - 1.0 < x.Floor as real <= x;
      assert forall u | u in rest :: u in users;
    }
  }

  /** The total of a token covers all its claims, and exceeds them by less than one unit per holder. */
  lemma TotalsCoverClaims(keccak: Hash, l: Ledger, cycle: int, startBlock: int, endBlock: int, f: File, t: Address)
    requires Publishes(keccak, l, cycle, startBlock, endBlock, f) && Consistent(l)
    ensures GoodFile(f)
    ensures var loss := PublishedTotal(f, t) - SumPublished(f, f.claims.keys, t) as real;
            var holders := Holders(l, f.claims.keys, t);
            && 0.0 <= loss
            && (if holders == 0 then loss == 0.0 else loss < holders as real)
            && ((forall u | u in f.claims.keys :: Amount(l, u, t) == Trunc(Amount(l, u, t)) as real) ==> loss == 0.0)
  {
    hide Publishes, Published, Amount, GoodFile, Readable, Lists, Has, Consistent, WellFormed, SumUsers, SumPublished,
         Holders;
    PublishedTotals(keccak, l, cycle, startBlock, endBlock, f);
    ConsistentTotal(l, t);
    PublishedAmounts(keccak, l, cycle, startBlock, endBlock, f, 0, t);
    forall u ensures Published(f, u, t) == Trunc(Amount(l, u, t)) && Amount(l, u, t) >= 0.0 {
      PublishedAmounts(keccak, l, cycle, startBlock, endBlock, f, u, t);
      AmountNonNegative(l, u, t);
    }
    RoundingLoss(l, f, f.claims.keys, t);
  }

  lemma AmountNonNegative(l: Ledger, u: Address, t: Address)
    requires WellFormed(l)
    ensures Amount(l, u, t) >= 0.0
  {
  }

  lemma PublishedTotals(keccak: Hash, l: Ledger, cycle: int, startBlock: int, endBlock: int, f: File)
    requires Publishes(keccak, l, cycle, startBlock, endBlock, f)
    ensures f.claims.keys == l.claims.keys && f.tokenTotals == l.totals
  {
  }
}
