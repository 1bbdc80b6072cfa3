/**
 The Merkle tree over claim nodes (assistant/rewards/classes/MerkleTree.py).

 The hash is a parameter: any function from byte strings to 32-byte digests. Completeness holds of every such
 function. Binding asks that the function does not collide on the finitely many byte strings that are hashed when
 the tree is built and when the proof is checked; no function is injective on all byte strings.
 */
module Merkle {
  import opened Prelude
  import opened Abi

  type Digest = b: Bytes | |b| == 32 witness seq(32, i => 0)
  type Hash = Bytes -> Digest

  // ----- the order of digests -----

  /** Python's `<` on byte strings. */
  predicate Less(a: Bytes, b: Bytes) {
    b != [] && (a == [] || a[0] < b[0] || (a[0] == b[0] && Less(a[1..], b[1..])))
  }

  lemma {:induction false} LessConnected(a: Bytes, b: Bytes)
    ensures Less(a, b) || Less(b, a) || a == b
  {
    if a == [] || b == [] || a[0] != b[0] {
    } else {
      LessConnected(a[1..], b[1..]);
      assert a == [a[0]] + a[1..] && b == [b[0]] + b[1..];
    }
  }

  lemma {:induction false} LessTransitive(a: Bytes, b: Bytes, c: Bytes)
    requires Less(a, b) && Less(b, c)
    ensures Less(a, c)
  {
    if a == [] || !(a[0] == b[0] == c[0]) {
    } else {
      LessTransitive(a[1..], b[1..], c[1..]);
    }
  }

  lemma {:induction false} LessIrreflexive(a: Bytes)
    ensures !Less(a, a)
  {
    if a == [] {
    } else {
      LessIrreflexive(a[1..]);
    }
  }

  /** Byte strings of equal length are ordered as the numbers they stand for. */
  lemma {:induction false} LessIsValue(a: Bytes, b: Bytes)
    requires |a| == |b|
    ensures Less(a, b) <==> Value(a) < Value(b)
  {
    if a == [] {
    } else {
      var p := Pow256(|a| - 1);
      LessIsValue(a[1..], b[1..]);
      ValueFromFront(a);
      ValueFromFront(b);
      ValueBound(a[1..]);
      ValueBound(b[1..]);
      if a[0] < b[0] {
        MultiplyStep(p, a[0], b[0]);
      } else if b[0] < a[0] {
        MultiplyStep(p, b[0], a[0]);
      }
    }
  }

  predicate Ascending(s: seq<Digest>) {
    forall i, j | 0 <= i < j < |s| :: Less(s[i], s[j])
  }

  // ----- sorted(set(...)) -----

  /** Insert into an ascending list, keeping one copy of equal digests. */
  function Insert(s: seq<Digest>, d: Digest): (r: seq<Digest>)
    requires Ascending(s)
    ensures forall x :: x in r <==> x == d || x in s
    ensures Ascending(r)
  {
    if s == [] then [d]
    else if s[0] == d then s
    else if Less(d, s[0]) then
      assert forall i | 0 <= i < |s| :: Less(d, s[i]) by {
        forall i | 0 < i < |s| ensures Less(d, s[i]) { LessTransitive(d, s[0], s[i]); }
      }
      [d] + s
    else
      LessConnected(d, s[0]);
      var rest := Insert(s[1..], d);
      assert forall x | x in rest :: Less(s[0], x);
      assert s == [s[0]] + s[1..];
      [s[0]] + rest
  }

  /** The distinct digests of the elements in ascending order. */
  function SortedDigests(keccak: Hash, elements: seq<Bytes>): (r: seq<Digest>)
    ensures Ascending(r)
    ensures forall x :: x in r <==> exists i | 0 <= i < |elements| :: x == keccak(elements[i])
    ensures elements == [] <==> r == []
  {
    if elements == [] then []
    else
      var rest := SortedDigests(keccak, elements[1..]);
      var r := Insert(rest, keccak(elements[0]));
      assert forall x :: x in r <==> exists i | 0 <= i < |elements| :: x == keccak(elements[i]) by {
        forall x ensures x in r <==> exists i | 0 <= i < |elements| :: x == keccak(elements[i]) {
          if x in rest {
            var i :| 0 <= i < |elements[1..]| && x == keccak(elements[1..][i]);
            assert x == keccak(elements[i + 1]);
          }
          if i :| 0 <= i < |elements| && x == keccak(elements[i]) {
            assert i > 0 ==> x == keccak(elements[1..][i - 1]);
          }
        }
      }
      assert keccak(elements[0]) in r;
      r
  }

  /** The leaves are the digests of the elements, in ascending order as numbers. */
  lemma LeavesAscend(keccak: Hash, elements: seq<Bytes>)
    ensures var leaves := SortedDigests(keccak, elements);
            && (forall i, j | 0 <= i < j < |leaves| :: Value(leaves[i]) < Value(leaves[j]))
            && (forall i | 0 <= i < |elements| :: keccak(elements[i]) in leaves)
            && (forall x | x in leaves :: exists i | 0 <= i < |elements| :: x == keccak(elements[i]))
  {
    var leaves := SortedDigests(keccak, elements);
    forall i, j | 0 <= i < j < |leaves| ensures Value(leaves[i]) < Value(leaves[j]) {
      LessIsValue(leaves[i], leaves[j]);
    }
  }

  lemma {:induction false} InsertLength(s: seq<Digest>, d: Digest)
    requires Ascending(s) && d !in s
    ensures |Insert(s, d)| == |s| + 1
  {
    if s == [] || Less(d, s[0]) {
    } else {
      InsertLength(s[1..], d);
    }
  }

  /** Without equal digests nothing is dropped. */
  lemma {:induction false} DistinctDigests(keccak: Hash, elements: seq<Bytes>)
    requires forall i, j | 0 <= i < j < |elements| :: keccak(elements[i]) != keccak(elements[j])
    ensures |SortedDigests(keccak, elements)| == |elements|
  {
    if elements == [] {
    } else {
      DistinctDigests(keccak, elements[1..]);
      InsertLength(SortedDigests(keccak, elements[1..]), keccak(elements[0]));
    }
  }

  /** An ascending list is determined by its members. */
  lemma {:induction false} AscendingUnique(a: seq<Digest>, b: seq<Digest>)
    requires Ascending(a) && Ascending(b)
    requires forall x :: x in a <==> x in b
    ensures a == b
  {
    if a == [] {
      HasMember(b);
    } else {
      assert a[0] in b;
      assert b[0] in a;
      FirstIsLeast(a, b[0]);
      FirstIsLeast(b, a[0]);
      assert a[0] == b[0] by {
        if a[0] != b[0] {
          LessTransitive(a[0], b[0], a[0]);
          LessIrreflexive(a[0]);
        }
      }
      LessIrreflexive(a[0]);
      forall x ensures x in a[1..] <==> x in b[1..] {
        TailMember(a, x);
        TailMember(b, x);
        LessIrreflexive(x);
      }
      AscendingUnique(a[1..], b[1..]);
      assert a == [a[0]] + a[1..] && b == [b[0]] + b[1..];
    }
  }

  lemma HasMember(s: seq<Digest>)
    ensures s != [] ==> exists x :: x in s
  {
    if s != [] {
      assert s[0] in s;
    }
  }

  lemma TailMember(s: seq<Digest>, x: Bytes)
    requires Ascending(s) && s != []
    ensures x in s[1..] <==> x in s && x != s[0]
  {
    if x in s && x != s[0] {
      var i :| 0 <= i < |s| && s[i] == x;
      assert s[1..][i - 1] == x;
    }
    if x in s[1..] {
      LessIrreflexive(x);
    }
  }

  lemma FirstIsLeast(s: seq<Digest>, x: Digest)
    requires Ascending(s) && x in s
    ensures x == s[0] || Less(s[0], x)
  {
  }

  // ----- layers -----

  /** The 64 bytes hashed for two siblings: the smaller digest first. */
  function SortedPair(a: Digest, b: Digest): (p: Bytes)
    ensures |p| == 64
  {
    if Less(b, a) then b + a else a + b
  }

  /** A missing sibling is `None`; then the other digest is passed up unchanged. */
  function CombinedHash(keccak: Hash, a: Option<Digest>, b: Option<Digest>): Option<Digest> {
    if a.None? then b
    else if b.None? then a
    else Some(keccak(SortedPair(a.value, b.value)))
  }

  /** Siblings are hashed together; a lone last digest is promoted. */
  function NextLayer(keccak: Hash, layer: seq<Digest>): (next: seq<Digest>)
    ensures |next| == (|layer| + 1) / 2
  {
    if layer == [] then []
    else if |layer| == 1 then [CombinedHash(keccak, Some(layer[0]), None).value]
    else [CombinedHash(keccak, Some(layer[0]), Some(layer[1])).value] + NextLayer(keccak, layer[2..])
  }

  lemma {:induction false} NextLayerPair(keccak: Hash, layer: seq<Digest>, k: nat)
    requires k < |NextLayer(keccak, layer)|
    ensures 2 * k + 1 < |layer| ==>
              NextLayer(keccak, layer)[k] == keccak(SortedPair(layer[2 * k], layer[2 * k + 1]))
    ensures 2 * k + 1 >= |layer| ==> 2 * k == |layer| - 1 && NextLayer(keccak, layer)[k] == layer[2 * k]
  {
    if k == 0 {
    } else {
      NextLayerPair(keccak, layer[2..], k - 1);
    }
  }

  /** Two siblings are hashed with the smaller number first; a lone last digest is passed up. */
  lemma NextLayerAt(keccak: Hash, layer: seq<Digest>, k: nat)
    requires 2 * k < |layer|
    ensures |NextLayer(keccak, layer)| == (|layer| + 1) / 2
    ensures 2 * k + 1 < |layer| ==>
              var x: Bytes, y: Bytes := layer[2 * k], layer[2 * k + 1];
              NextLayer(keccak, layer)[k] == keccak(if Value(x) <= Value(y) then x + y else y + x)
    ensures 2 * k + 1 == |layer| ==> NextLayer(keccak, layer)[k] == layer[2 * k]
  {
    NextLayerPair(keccak, layer, k);
    if 2 * k + 1 < |layer| {
      LessIsValue(layer[2 * k + 1], layer[2 * k]);
    }
  }

  /** All layers, leaves first; the last one has at most one digest. */
  function Layers(keccak: Hash, layer: seq<Digest>): (layers: seq<seq<Digest>>)
    ensures layers != []
    decreases |layer|
  {
    if |layer| <= 1 then [layer] else [layer] + Layers(keccak, NextLayer(keccak, layer))
  }

  /** The first layer holds the leaves, and each further one is the next layer of the one before it. */
  lemma {:induction false} LayersLinked(keccak: Hash, layer: seq<Digest>, i: nat)
    requires i < |Layers(keccak, layer)|
    ensures var layers := Layers(keccak, layer);
            && layers[0] == layer
            && (i + 1 < |layers| ==> |layers[i]| > 1 && layers[i + 1] == NextLayer(keccak, layers[i]))
            && (i + 1 == |layers| ==> |layers[i]| <= 1)
    decreases i
  {
    if i == 0 {
    } else {
      LayersLinked(keccak, NextLayer(keccak, layer), i - 1);
    }
  }

  /** One round of the loop that builds the layers. */
  lemma LayersFrom(keccak: Hash, done: seq<seq<Digest>>, last: seq<Digest>)
    requires |last| > 1
    ensures done + Layers(keccak, last) == (done + [last]) + Layers(keccak, NextLayer(keccak, last))
  {
  }

  /** The one digest of the top layer. */
  function Root(keccak: Hash, layer: seq<Digest>): Digest
    requires layer != []
    decreases |layer|
  {
    if |layer| == 1 then layer[0] else Root(keccak, NextLayer(keccak, layer))
  }

  lemma {:induction false} TopLayer(keccak: Hash, layer: seq<Digest>)
    ensures var layers := Layers(keccak, layer);
            layers[|layers| - 1] == if layer == [] then [] else [Root(keccak, layer)]
    decreases |layer|
  {
    if |layer| <= 1 {
    } else {
      TopLayer(keccak, NextLayer(keccak, layer));
    }
  }

  // ----- proofs -----

  function Sibling(idx: nat): nat {
    if idx % 2 == 0 then idx + 1 else idx - 1
  }

  /** The siblings met on the way up; a layer in which the node has none contributes nothing. */
  function PathProof(layers: seq<seq<Digest>>, idx: nat): seq<Digest> {
    if layers == [] then []
    else
      (if Sibling(idx) < |layers[0]| then [layers[0][Sibling(idx)]] else [])
      + PathProof(layers[1..], idx / 2)
  }

  /** One round of the loop that collects a proof. */
  lemma PathProofFrom(prefix: seq<Digest>, layers: seq<seq<Digest>>, i: nat, idx: nat)
    requires i < |layers|
    ensures prefix + PathProof(layers[i..], idx)
         == (if Sibling(idx) < |layers[i]| then prefix + [layers[i][Sibling(idx)]] else prefix)
            + PathProof(layers[i + 1..], idx / 2)
  {
  }

  /** The index of the ancestor `n` layers up. */
  function Halved(idx: nat, n: nat): nat {
    if n == 0 then idx else Halved(idx / 2, n - 1)
  }

  /** In how many of the lowest `n` layers the node has a sibling. */
  function SiblingsBelow(layers: seq<seq<Digest>>, idx: nat, n: nat): nat
    requires n <= |layers|
  {
    if n == 0 then 0
    else
      (if (if idx % 2 == 0 then idx + 1 else idx - 1) < |layers[0]| then 1 else 0)
      + SiblingsBelow(layers[1..], idx / 2, n - 1)
  }

  /** A proof lists the siblings from the leaf upwards: one for every layer in which there is one. */
  lemma {:induction false} ProofEntries(layers: seq<seq<Digest>>, idx: nat, i: nat)
    requires i < |layers|
    ensures |PathProof(layers, idx)| == SiblingsBelow(layers, idx, |layers|)
    ensures var k, n := Halved(idx, i), SiblingsBelow(layers, idx, i);
            var sibling := if k % 2 == 0 then k + 1 else k - 1;
            sibling < |layers[i]| ==> n < |PathProof(layers, idx)| && PathProof(layers, idx)[n] == layers[i][sibling]
    decreases |layers|
  {
    if |layers| == 1 {
      assert layers[1..] == [];
    } else {
      ProofEntries(layers[1..], idx / 2, if i == 0 then 0 else i - 1);
    }
  }

  lemma PathProofTop(keccak: Hash, layer: seq<Digest>)
    requires |layer| == 1
    ensures PathProof(Layers(keccak, layer), 0) == []
  {
  }

  lemma PathProofStep(keccak: Hash, layer: seq<Digest>, idx: nat)
    requires idx < |layer| && |layer| > 1
    ensures PathProof(Layers(keccak, layer), idx)
         == (if Sibling(idx) < |layer| then [layer[Sibling(idx)]] else [])
            + PathProof(Layers(keccak, NextLayer(keccak, layer)), idx / 2)
  {
  }

  /** What a verifier computes: the leaf digest combined with each proof entry in turn. */
  function Fold(keccak: Hash, d: Digest, proof: seq<Digest>): Digest
    decreases |proof|
  {
    if proof == [] then d
    else Fold(keccak, CombinedHash(keccak, Some(d), Some(proof[0])).value, proof[1..])
  }

  /** The byte strings hashed to fold a proof. */
  function FoldInputs(keccak: Hash, d: Digest, proof: seq<Digest>): set<Bytes>
    decreases |proof|
  {
    if proof == [] then {}
    else
      {SortedPair(d, proof[0])} + FoldInputs(keccak, keccak(SortedPair(d, proof[0])), proof[1..])
  }

  lemma FoldStep(keccak: Hash, d: Digest, first: Digest, rest: seq<Digest>)
    ensures Fold(keccak, d, [first] + rest) == Fold(keccak, keccak(SortedPair(d, first)), rest)
    ensures FoldInputs(keccak, d, [first] + rest)
         == {SortedPair(d, first)} + FoldInputs(keccak, keccak(SortedPair(d, first)), rest)
  {
  }

  /** The fold cannot tell left from right, and need not: siblings are sorted before hashing. */
  lemma SortedPairSymmetric(a: Digest, b: Digest)
    ensures SortedPair(a, b) == SortedPair(b, a)
  {
    LessConnected(a, b);
    if Less(a, b) && Less(b, a) {
      LessTransitive(a, b, a);
      LessIrreflexive(a);
    }
  }

  /** Completeness: the proof of the digest at any index of any layer folds to the root. */
  lemma {:induction false} PathProofFolds(keccak: Hash, layer: seq<Digest>, idx: nat)
    requires idx < |layer|
    ensures Fold(keccak, layer[idx], PathProof(Layers(keccak, layer), idx)) == Root(keccak, layer)
    decreases |layer|
  {
    if |layer| == 1 {
      PathProofTop(keccak, layer);
    } else {
      var next := NextLayer(keccak, layer);
      PathProofStep(keccak, layer, idx);
      PathProofFolds(keccak, next, idx / 2);
      var tail := PathProof(Layers(keccak, next), idx / 2);
      if Sibling(idx) < |layer| {
        ParentOfPair(keccak, layer, idx);
        FoldStep(keccak, layer[idx], layer[Sibling(idx)], tail);
      } else {
        ParentOfLone(keccak, layer, idx);
        assert [] + tail == tail;
      }
    }
  }

  /** One step of a fold hashes the two digests with the smaller number first. */
  lemma FoldOnce(keccak: Hash, d: Digest, proof: seq<Digest>)
    ensures proof == [] ==> Fold(keccak, d, proof) == d
    ensures proof != [] ==>
              var x: Bytes, y: Bytes := d, proof[0];
              Fold(keccak, d, proof) == Fold(keccak, keccak(if Value(x) <= Value(y) then x + y else y + x), proof[1..])
  {
    if proof == [] {
    } else {
      LessIsValue(proof[0], d);
    }
  }

  // ----- shape -----

  function Pow2(n: nat): (p: nat)
    ensures p > 0
  {
    if n == 0 then 1 else 2 * Pow2(n - 1)
  }

  /** There are ceil(log2 n) + 1 layers. */
  lemma {:induction false} LayerCount(keccak: Hash, layer: seq<Digest>)
    requires layer != []
    ensures var h := |Layers(keccak, layer)| - 1;
            |layer| <= Pow2(h) && (h > 0 ==> Pow2(h - 1) < |layer|)
    decreases |layer|
  {
    if |layer| <= 1 {
    } else {
      LayerCount(keccak, NextLayer(keccak, layer));
    }
  }

  /** Layer `i` has ceil(n / 2^i) digests. */
  lemma {:induction false} LayerSize(keccak: Hash, layer: seq<Digest>, i: nat)
    requires i < |Layers(keccak, layer)|
    ensures |Layers(keccak, layer)[i]| == CeilDiv(|layer|, Pow2(i))
    decreases i
  {
    if i == 0 {
    } else {
      LayerSize(keccak, NextLayer(keccak, layer), i - 1);
      CeilDivHalves(|layer|, Pow2(i - 1));
    }
  }

  function CeilDiv(n: nat, d: nat): nat
    requires d > 0
  {
    (n + d - 1) / d
  }

  /** Halving upwards and then dividing upwards by `p` is dividing upwards by `2 * p`. */
  lemma CeilDivHalves(n: nat, p: nat)
    requires p > 0
    ensures CeilDiv((n + 1) / 2, p) == CeilDiv(n, 2 * p)
  {
    var h := (n + 1) / 2;
    var q := CeilDiv(h, p);
    var r := (h + p - 1) % p;
    assert h + p - 1 == q * p + r;
    var q2 := CeilDiv(n, 2 * p);
    var r2 := (n + 2 * p - 1) % (2 * p);
    assert n + 2 * p - 1 == q2 * (2 * p) + r2;
    assert q * (2 * p) == 2 * (q * p);
    QuotientUnique(2 * p, q, n + 2 * p - 1 - q * (2 * p), q2, r2);
  }

  lemma QuotientUnique(d: nat, q: int, r: int, q': int, r': int)
    requires 0 <= r < d && 0 <= r' < d && q * d + r == q' * d + r'
    ensures q == q'
  {
    if q > q' {
      MultiplyStep(d, q', q);
    } else if q < q' {
      MultiplyStep(d, q, q');
    }
  }

  /** A proof has at most ceil(log2 n) entries: none comes from the top layer. */
  lemma {:induction false} PathProofLength(keccak: Hash, layer: seq<Digest>, idx: nat)
    requires idx < |layer|
    ensures |PathProof(Layers(keccak, layer), idx)| <= |Layers(keccak, layer)| - 1
    decreases |layer|
  {
    if |layer| == 1 {
      PathProofTop(keccak, layer);
    } else {
      PathProofStep(keccak, layer, idx);
      PathProofLength(keccak, NextLayer(keccak, layer), idx / 2);
    }
  }

  // ----- binding -----

  predicate CollisionFree(keccak: Hash, inputs: set<Bytes>) {
    forall x, y | x in inputs && y in inputs :: keccak(x) == keccak(y) ==> x == y
  }

  /** The byte strings hashed to build the layers above `layer`. */
  function PairInputs(keccak: Hash, layer: seq<Digest>): set<Bytes>
    decreases |layer|
  {
    if |layer| <= 1 then {}
    else
      (set k | 0 <= k < |layer| / 2 :: SortedPair(layer[2 * k], layer[2 * k + 1]))
      + PairInputs(keccak, NextLayer(keccak, layer))
  }

  /** Everything hashed to build the tree over `elements`. */
  function TreeInputs(keccak: Hash, elements: seq<Bytes>): set<Bytes> {
    (set i | 0 <= i < |elements| :: elements[i]) + PairInputs(keccak, SortedDigests(keccak, elements))
  }

  /** Every digest at any height of the tree. */
  ghost function AllDigests(keccak: Hash, layer: seq<Digest>): set<Digest>
    decreases |layer|
  {
    (set i | 0 <= i < |layer| :: layer[i])
    + if |layer| <= 1 then {} else AllDigests(keccak, NextLayer(keccak, layer))
  }

  /** A tree digest is a leaf, or the hash of a pair of tree digests that building the tree hashed. */
  ghost predicate LeafOrPair(keccak: Hash, leaves: seq<Digest>, all: set<Digest>, inputs: set<Bytes>, x: Digest) {
    x in leaves
    || exists a, b :: a in all && b in all && SortedPair(a, b) in inputs && x == keccak(SortedPair(a, b))
  }

  lemma {:induction false} DigestOrigin(keccak: Hash, layer: seq<Digest>, x: Digest)
    requires x in AllDigests(keccak, layer)
    ensures LeafOrPair(keccak, layer, AllDigests(keccak, layer), PairInputs(keccak, layer), x)
    decreases |layer|
  {
    if x in layer {
    } else {
      var next := NextLayer(keccak, layer);
      DigestOrigin(keccak, next, x);
      if x in next {
        var k :| 0 <= k < |next| && next[k] == x;
        NextLayerPair(keccak, layer, k);
        assert 2 * k + 1 < |layer|;
        var a, b := layer[2 * k], layer[2 * k + 1];
        assert a in AllDigests(keccak, layer) && b in AllDigests(keccak, layer);
        assert SortedPair(a, b) in PairInputs(keccak, layer);
      } else {
        var a, b :| a in AllDigests(keccak, next) && b in AllDigests(keccak, next)
                    && SortedPair(a, b) in PairInputs(keccak, next) && x == keccak(SortedPair(a, b));
        assert a in AllDigests(keccak, layer) && b in AllDigests(keccak, layer);
        assert SortedPair(a, b) in PairInputs(keccak, layer);
      }
    }
  }

  lemma {:induction false} RootIsDigest(keccak: Hash, layer: seq<Digest>)
    requires layer != []
    ensures Root(keccak, layer) in AllDigests(keccak, layer)
    decreases |layer|
  {
    if |layer| == 1 {
      assert layer[0] in AllDigests(keccak, layer);
    } else {
      RootIsDigest(keccak, NextLayer(keccak, layer));
    }
  }

  /** Sorting the two digests of a pair loses only their order. */
  lemma SortedPairInjective(a: Digest, b: Digest, c: Digest, d: Digest)
    requires SortedPair(a, b) == SortedPair(c, d)
    ensures a == c || a == d
  {
    var p, q := SortedPair(a, b), SortedPair(c, d);
    assert a == p[..32] || a == p[32..];
    assert (c == q[..32] && d == q[32..]) || (d == q[..32] && c == q[32..]);
  }

  /** What an input to the hash must look like to be a leaf: anything but the 64 bytes of a pair. */
  predicate LeafShaped(elements: seq<Bytes>) {
    forall i | 0 <= i < |elements| :: |elements[i]| != 64
  }

  /** A fold that ends at a tree digest started at one. */
  lemma {:induction false} FoldStaysInTree(keccak: Hash, elements: seq<Bytes>, d: Digest, proof: seq<Digest>)
    requires LeafShaped(elements)
    requires CollisionFree(keccak, TreeInputs(keccak, elements) + FoldInputs(keccak, d, proof))
    requires Fold(keccak, d, proof) in AllDigests(keccak, SortedDigests(keccak, elements))
    ensures d in AllDigests(keccak, SortedDigests(keccak, elements))
    decreases |proof|
  {
    if proof == [] {
    } else {
      var leaves := SortedDigests(keccak, elements);
      var pair := SortedPair(d, proof[0]);
      FoldStaysInTree(keccak, elements, keccak(pair), proof[1..]);
      DigestOrigin(keccak, leaves, keccak(pair));
      forall i | 0 <= i < |elements| ensures keccak(elements[i]) != keccak(pair) {
        assert elements[i] in TreeInputs(keccak, elements);
      }
      var a, b :| a in AllDigests(keccak, leaves) && b in AllDigests(keccak, leaves)
                  && SortedPair(a, b) in PairInputs(keccak, leaves) && keccak(pair) == keccak(SortedPair(a, b));
      SortedPairInjective(d, proof[0], a, b);
    }
  }

  /** Binding: a proof of any length that folds a leaf to the root proves that the leaf is an element. */
  lemma Binding(keccak: Hash, elements: seq<Bytes>, leaf: Bytes, proof: seq<Digest>)
    requires elements != [] && LeafShaped(elements) && |leaf| != 64
    requires CollisionFree(keccak, TreeInputs(keccak, elements) + {leaf} + FoldInputs(keccak, keccak(leaf), proof))
    requires Fold(keccak, keccak(leaf), proof) == Root(keccak, SortedDigests(keccak, elements))
    ensures leaf in elements
  {
    var leaves := SortedDigests(keccak, elements);
    RootIsDigest(keccak, leaves);
    FoldStaysInTree(keccak, elements, keccak(leaf), proof);
    DigestOrigin(keccak, leaves, keccak(leaf));
    if keccak(leaf) in leaves {
      var i :| 0 <= i < |elements| && keccak(leaf) == keccak(elements[i]);
      assert elements[i] in TreeInputs(keccak, elements);
    }
  }

  /** The parent of a digest that has a sibling is the hash of a pair that building the tree hashed. */
  lemma ParentOfPair(keccak: Hash, layer: seq<Digest>, idx: nat)
    requires idx < |layer| && Sibling(idx) < |layer|
    ensures SortedPair(layer[idx], layer[Sibling(idx)]) in PairInputs(keccak, layer)
    ensures NextLayer(keccak, layer)[idx / 2] == keccak(SortedPair(layer[idx], layer[Sibling(idx)]))
  {
    var k := idx / 2;
    NextLayerPair(keccak, layer, k);
    SortedPairSymmetric(layer[2 * k], layer[2 * k + 1]);
    assert idx == 2 * k || idx == 2 * k + 1;
  }

  /** The parent of a digest without sibling is that digest. */
  lemma ParentOfLone(keccak: Hash, layer: seq<Digest>, idx: nat)
    requires idx < |layer| <= Sibling(idx)
    ensures NextLayer(keccak, layer)[idx / 2] == layer[idx]
  {
    var k := idx / 2;
    assert idx == 2 * k && idx == |layer| - 1;
    NextLayerPair(keccak, layer, k);
  }

  lemma NextInputs(keccak: Hash, layer: seq<Digest>)
    requires |layer| > 1
    ensures PairInputs(keccak, NextLayer(keccak, layer)) <= PairInputs(keccak, layer)
  {
  }

  /** Checking a proof issued by the tree hashes nothing that building the tree did not hash. */
  lemma {:induction false} PathProofInputs(keccak: Hash, layer: seq<Digest>, idx: nat)
    requires idx < |layer|
    ensures FoldInputs(keccak, layer[idx], PathProof(Layers(keccak, layer), idx)) <= PairInputs(keccak, layer)
    decreases |layer|
  {
    if |layer| == 1 {
      PathProofTop(keccak, layer);
    } else {
      var next, sibling := NextLayer(keccak, layer), Sibling(idx);
      PathProofInputs(keccak, next, idx / 2);
      PathProofStep(keccak, layer, idx);
      NextInputs(keccak, layer);
      var tail := PathProof(Layers(keccak, next), idx / 2);
      var above := FoldInputs(keccak, next[idx / 2], tail);
      if sibling < |layer| {
        ParentOfPair(keccak, layer, idx);
        FoldStep(keccak, layer[idx], layer[sibling], tail);
      } else {
        ParentOfLone(keccak, layer, idx);
        assert [] + tail == tail;
      }
    }
  }

  /** One direction of the theorem below. */
  lemma EqualRootsInclude(keccak: Hash, a: seq<Bytes>, b: seq<Bytes>, i: nat)
    requires a != [] && b != [] && LeafShaped(a) && LeafShaped(b) && i < |a|
    requires CollisionFree(keccak, TreeInputs(keccak, a) + TreeInputs(keccak, b))
    requires Root(keccak, SortedDigests(keccak, a)) == Root(keccak, SortedDigests(keccak, b))
    ensures a[i] in b
  {
    var leaves := SortedDigests(keccak, a);
    assert keccak(a[i]) in leaves;
    var k :| 0 <= k < |leaves| && leaves[k] == keccak(a[i]);
    var proof := PathProof(Layers(keccak, leaves), k);
    PathProofFolds(keccak, leaves, k);
    PathProofInputs(keccak, leaves, k);
    assert a[i] in TreeInputs(keccak, a);
    assert TreeInputs(keccak, b) + {a[i]} + FoldInputs(keccak, keccak(a[i]), proof)
           <= TreeInputs(keccak, a) + TreeInputs(keccak, b);
    Binding(keccak, b, a[i], proof);
  }

  /** Two trees with the same root have the same elements and the same sorted leaves. */
  lemma EqualRoots(keccak: Hash, a: seq<Bytes>, b: seq<Bytes>)
    requires a != [] && b != [] && LeafShaped(a) && LeafShaped(b)
    requires CollisionFree(keccak, TreeInputs(keccak, a) + TreeInputs(keccak, b))
    requires Root(keccak, SortedDigests(keccak, a)) == Root(keccak, SortedDigests(keccak, b))
    ensures forall x :: x in a <==> x in b
    ensures SortedDigests(keccak, a) == SortedDigests(keccak, b)
  {
    forall i | 0 <= i < |a| ensures a[i] in b {
      EqualRootsInclude(keccak, a, b, i);
    }
    forall i | 0 <= i < |b| ensures b[i] in a {
      assert TreeInputs(keccak, b) + TreeInputs(keccak, a) == TreeInputs(keccak, a) + TreeInputs(keccak, b);
      EqualRootsInclude(keccak, b, a, i);
    }
    assert forall x :: x in a <==> x in b;
    var da, db := SortedDigests(keccak, a), SortedDigests(keccak, b);
    forall x ensures x in da <==> x in db {
      if x in da {
        var i :| 0 <= i < |a| && x == keccak(a[i]);
        assert a[i] in b;
      }
      if x in db {
        var i :| 0 <= i < |b| && x == keccak(b[i]);
        assert b[i] in a;
      }
    }
    AscendingUnique(da, db);
  }

  // ----- the tree object -----

  /** `list.index`: the first position holding `x`. */
  function IndexOf(s: seq<Digest>, x: Digest): (r: Result<nat>)
    ensures r.Success? <==> x in s
    ensures r.Success? ==> r.value < |s| && s[r.value] == x && x !in s[..r.value]
    ensures r.Failure? ==> r.error == ValueError
  {
    if s == [] then Failure(ValueError)
    else if s[0] == x then Success(0)
    else
      var rest := IndexOf(s[1..], x);
      assert s == [s[0]] + s[1..];
      if rest.Failure? then rest
      else
        assert s[..rest.value + 1] == [s[0]] + s[1..][..rest.value];
        Success(rest.value + 1)
  }

  class MerkleTree {
    const keccak: Hash
    const elements: seq<Digest>
    const layers: seq<seq<Digest>>

    constructor (keccak: Hash, elements: seq<Bytes>)
      ensures this.keccak == keccak
      ensures this.elements == SortedDigests(keccak, elements)
      ensures layers == Layers(keccak, this.elements)
    {
      this.keccak := keccak;
      var sorted := SortedDigests(keccak, elements);
      this.elements := sorted;
      var ls := GetLayers(keccak, sorted);
      this.layers := ls;
    }

    static method GetLayers(keccak: Hash, elements: seq<Digest>) returns (layers: seq<seq<Digest>>)
      ensures layers == Layers(keccak, elements)
    {
      layers := [elements];
      ghost var done := [];
      while |layers[|layers| - 1]| > 1
        invariant |layers| == |done| + 1 && layers == done + [layers[|done|]]
        invariant done + Layers(keccak, layers[|done|]) == Layers(keccak, elements)
        decreases |layers[|done|]|
      {
        var next := NextLayer(keccak, layers[|layers| - 1]);
        LayersFrom(keccak, done, layers[|done|]);
        done := layers;
        layers := layers + [next];
      }
    }

    method GetRoot() returns (r: Result<Digest>)
      requires layers == Layers(keccak, elements)
      ensures r == if elements == [] then Failure(IndexError) else Success(Root(keccak, elements))
    {
      TopLayer(keccak, elements);
      var top := layers[|layers| - 1];
      return if top == [] then Failure(IndexError) else Success(top[0]);
    }

    /** The proof of an element folds to the root; anything else has no proof. */
    method GetProof(el: Bytes) returns (r: Result<seq<Digest>>)
      requires layers == Layers(keccak, elements)
      ensures r.Success? <==> keccak(el) in elements
      ensures r.Failure? ==> r.error == ValueError
      ensures r.Success? ==> Fold(keccak, keccak(el), r.value) == Root(keccak, elements)
      ensures r.Success? ==> |r.value| < |layers|
      ensures r.Success? ==> r.value == PathProof(layers, IndexOf(elements, keccak(el)).value)
    {
      var start :- IndexOf(elements, keccak(el));
      var idx := start;
      var proof := [];
      for i := 0 to |layers|
        invariant PathProof(layers, start) == proof + PathProof(layers[i..], idx)
      {
        var layer := layers[i];
        var pairIdx := Sibling(idx);
        PathProofFrom(proof, layers, i, idx);
        if pairIdx < |layer| {
          proof := proof + [layer[pairIdx]];
        }
        idx := idx / 2;
      }
      assert proof == PathProof(layers, start);
      PathProofFolds(keccak, elements, start);
      PathProofLength(keccak, elements, start);
      return Success(proof);
    }
  }
}
