/** Byte strings, and the contract ABI encoding of a claim node. */
module Abi {
  import opened Prelude

  type Byte = x: int | 0 <= x < 256
  type Bytes = seq<Byte>

  function Pow256(n: nat): (p: nat)
    ensures p > 0
  {
    if n == 0 then 1 else 256 * Pow256(n - 1)
  }

  /** A 20-byte account or token address; letter case of its hexadecimal form is not modelled. */
  type Address = a: nat | a < 0x1_00000000_00000000_00000000_00000000_00000000

  /** The `n`-byte big-endian form of `v`. */
  function BigEndian(v: nat, n: nat): (b: Bytes)
    ensures |b| == n
  {
    if n == 0 then [] else BigEndian(v / 256, n - 1) + [v % 256]
  }

  function Value(b: Bytes): nat {
    if b == [] then 0 else 256 * Value(b[..|b| - 1]) + b[|b| - 1]
  }

  lemma {:induction false} BigEndianValue(v: nat, n: nat)
    requires v < Pow256(n)
    ensures Value(BigEndian(v, n)) == v
  {
    if n == 0 {
    } else {
      assert v / 256 < Pow256(n - 1);
      BigEndianValue(v / 256, n - 1);
      assert BigEndian(v, n)[..n - 1] == BigEndian(v / 256, n - 1);
    }
  }

  lemma {:induction false} ValueBound(b: Bytes)
    ensures Value(b) < Pow256(|b|)
  {
    if b == [] {
    } else {
      ValueBound(b[..|b| - 1]);
    }
  }

  /** The number that a byte string stands for, from its first byte on. */
  lemma {:induction false} ValueFromFront(b: Bytes)
    requires b != []
    ensures Value(b) == b[0] * Pow256(|b| - 1) + Value(b[1..])
  {
    var n := |b|;
    if n == 1 {
      assert b[..0] == [] && b[1..] == [];
    } else {
      var init := b[..n - 1];
      ValueFromFront(init);
      assert init[1..] == b[1..][..n - 2];
      assert b[0] * Pow256(n - 1) == 256 * (b[0] * Pow256(n - 2));
    }
  }

  predicate IsUint256(v: int) {
    0 <= v < 0x1_00000000_00000000_00000000_00000000_00000000_00000000_00000000_00000000
  }

  lemma WordSize(v: nat)
    requires IsUint256(v)
    ensures v < Pow256(32)
  {
    for i := 0 to 8
      invariant Pow256(4 * i) == [
        0x1,
        0x1_00000000,
        0x1_00000000_00000000,
        0x1_00000000_00000000_00000000,
        0x1_00000000_00000000_00000000_00000000,
        0x1_00000000_00000000_00000000_00000000_00000000,
        0x1_00000000_00000000_00000000_00000000_00000000_00000000,
        0x1_00000000_00000000_00000000_00000000_00000000_00000000_00000000,
        0x1_00000000_00000000_00000000_00000000_00000000_00000000_00000000_00000000][i]
    {
      Pow256Four(4 * i);
    }
  }

  lemma Pow256Four(n: nat)
    ensures Pow256(n + 4) == 0x1_00000000 * Pow256(n)
  {
    assert Pow256(n + 2) == 0x1_0000 * Pow256(n);
    assert Pow256(n + 4) == 0x1_0000 * Pow256(n + 2);
  }

  predicate AllUint256(ws: seq<int>) {
    forall i | 0 <= i < |ws| :: IsUint256(ws[i])
  }

  lemma WordInjective(v: nat, w: nat)
    requires IsUint256(v) && IsUint256(w) && BigEndian(v, 32) == BigEndian(w, 32)
    ensures v == w
  {
    WordSize(v);
    WordSize(w);
    BigEndianValue(v, 32);
    BigEndianValue(w, 32);
  }

  /** Consecutive 32-byte words. */
  function Words(ws: seq<int>): (b: Bytes)
    requires AllUint256(ws)
    ensures |b| == 32 * |ws|
  {
    if ws == [] then [] else BigEndian(ws[0], 32) + Words(ws[1..])
  }

  lemma {:induction false} WordsInjective(a: seq<int>, b: seq<int>)
    requires AllUint256(a)
    requires AllUint256(b)
    requires Words(a) == Words(b)
    ensures a == b
  {
    if a == [] || b == [] {
    } else {
      var wa, wb := BigEndian(a[0], 32), BigEndian(b[0], 32);
      assert wa == Words(a)[..32] && wb == Words(b)[..32];
      assert Words(a[1..]) == Words(a)[32..] && Words(b[1..]) == Words(b)[32..];
      WordInjective(a[0], b[0]);
      WordsInjective(a[1..], b[1..]);
      assert a == [a[0]] + a[1..] && b == [b[0]] + b[1..];
    }
  }

  /** What a user claims with: one leaf of the tree. */
  datatype Node = Node(user: Address, tokens: seq<Address>, cumulativeAmounts: seq<int>, cycle: int, index: int)

  /** The words of (uint, address, uint, address[], uint[]): a head of five words, then the two arrays. */
  function NodeWords(node: Node): seq<int> {
    [node.index, node.user, node.cycle, 160, 192 + 32 * |node.tokens|, |node.tokens|]
    + node.tokens + [|node.cumulativeAmounts|] + node.cumulativeAmounts
  }

  /** `encode_abi` raises when a value does not fit its type. */
  function Encode(node: Node): (r: Result<Bytes>) {
    if AllUint256(NodeWords(node)) then
      Success(Words(NodeWords(node)))
    else
      Failure(EncodingError)
  }

  /** Different nodes never share an encoding. */
  lemma EncodeInjective(a: Node, b: Node)
    requires Encode(a).Success? && Encode(a) == Encode(b)
    ensures a == b
  {
    var wa, wb := NodeWords(a), NodeWords(b);
    WordsInjective(wa, wb);
    var n := |a.tokens|;
    assert wa[5] == wb[5];
    assert n == |b.tokens|;
    assert a.tokens == wa[6..6 + n] && b.tokens == wb[6..6 + n];
    assert a.cumulativeAmounts == wa[7 + n..] && b.cumulativeAmounts == wb[7 + n..];
    assert wa[0] == wb[0] && wa[1] == wb[1] && wa[2] == wb[2];
  }

  // ----- decoding -----

  /** The number in the 32-byte word at position `at`; nothing is read past the end. */
  function WordAt(b: Bytes, at: nat): nat {
    if at + 32 <= |b| then Value(b[at..at + 32]) else 0
  }

  /** The `n` words from position `at` on. */
  function WordsAt(b: Bytes, at: nat, n: nat): seq<int>
    decreases n
  {
    if n == 0 then [] else [WordAt(b, at)] + WordsAt(b, at + 32, n - 1)
  }

  /** A dynamic array: its length, then its elements. */
  function ArrayAt(b: Bytes, at: nat): seq<int> {
    WordsAt(b, at + 32, WordAt(b, at))
  }

  lemma {:induction false} WordOfWords(ws: seq<int>, i: nat)
    requires AllUint256(ws) && i < |ws|
    ensures WordAt(Words(ws), 32 * i) == ws[i]
  {
    var b := Words(ws);
    if i == 0 {
      WordSize(ws[0]);
      BigEndianValue(ws[0], 32);
      assert b[0..32] == BigEndian(ws[0], 32);
    } else {
      WordOfWords(ws[1..], i - 1);
      assert b[32..] == Words(ws[1..]);
      assert b[32 * i..32 * i + 32] == b[32..][32 * (i - 1)..32 * (i - 1) + 32];
    }
  }

  lemma {:induction false} SliceOfWords(ws: seq<int>, i: nat, n: nat)
    requires AllUint256(ws) && i + n <= |ws|
    ensures WordsAt(Words(ws), 32 * i, n) == ws[i..i + n]
    decreases n
  {
    hide WordAt, Words;
    if n == 0 {
    } else {
      WordOfWords(ws, i);
      SliceOfWords(ws, i + 1, n - 1);
      assert ws[i..i + n] == [ws[i]] + ws[i + 1..i + 1 + (n - 1)];
    }
  }

  lemma ArrayOfWords(ws: seq<int>, i: nat, n: nat)
    requires AllUint256(ws) && i + 1 + n <= |ws| && ws[i] == n
    ensures ArrayAt(Words(ws), 32 * i) == ws[i + 1..i + 1 + n]
  {
    hide WordAt, Words, WordsAt;
    WordOfWords(ws, i);
    SliceOfWords(ws, i + 1, n);
    assert 32 * i + 32 == 32 * (i + 1);
  }

  lemma NodeWordsAt(node: Node)
    ensures var ws, n, m := NodeWords(node), |node.tokens|, |node.cumulativeAmounts|;
            && |ws| == 7 + n + m
            && ws[0] == node.index && ws[1] == node.user && ws[2] == node.cycle
            && ws[3] == 32 * 5 && ws[4] == 32 * (6 + n)
            && ws[5] == n && ws[6..6 + n] == node.tokens
            && ws[6 + n] == m && ws[7 + n..7 + n + m] == node.cumulativeAmounts
  {
  }

  /**
   A decoder that knows the types (uint, address, uint, address[], uint[]) and follows the offsets of the two arrays
   reads back index, user, cycle, tokens and amounts, in this order.
   */
  lemma DecodesTo(node: Node)
    requires Encode(node).Success?
    ensures var b := Encode(node).value;
            && WordAt(b, 0) == node.index
            && WordAt(b, 32) == node.user
            && WordAt(b, 64) == node.cycle
            && ArrayAt(b, WordAt(b, 96)) == node.tokens
            && ArrayAt(b, WordAt(b, 128)) == node.cumulativeAmounts
  {
    hide WordAt, Words, WordsAt, ArrayAt, NodeWords;
    var ws, n := NodeWords(node), |node.tokens|;
    NodeWordsAt(node);
    WordOfWords(ws, 0);
    WordOfWords(ws, 1);
    WordOfWords(ws, 2);
    WordOfWords(ws, 3);
    WordOfWords(ws, 4);
    ArrayOfWords(ws, 5, n);
    ArrayOfWords(ws, 6 + n, |node.cumulativeAmounts|);
  }

  /** Exactly a number or a length outside 256 bits makes the encoding fail. */
  lemma EncodesIff(node: Node)
    ensures Encode(node).Success? <==>
            && IsUint256(node.index) && IsUint256(node.cycle)
            && (forall i | 0 <= i < |node.cumulativeAmounts| :: IsUint256(node.cumulativeAmounts[i]))
            && IsUint256(192 + 32 * |node.tokens|) && IsUint256(|node.cumulativeAmounts|)
  {
    var ws, n := NodeWords(node), |node.tokens|;
    assert ws[0] == node.index && ws[1] == node.user && ws[2] == node.cycle && ws[4] == 192 + 32 * n && ws[5] == n;
    assert ws[6 + n] == |node.cumulativeAmounts|;
    forall i | 0 <= i < |node.cumulativeAmounts| ensures ws[7 + n + i] == node.cumulativeAmounts[i] {}
    forall i | 6 <= i < 6 + n ensures ws[i] == node.tokens[i - 6] {}
    forall i | 7 + n <= i < |ws| ensures ws[i] == node.cumulativeAmounts[i - 7 - n] {}
  }

  /** An encoded node is never 64 bytes long, so it cannot be mistaken for two concatenated digests. */
  lemma EncodeLength(node: Node)
    requires Encode(node).Success?
    ensures |Encode(node).value| == 224 + 32 * |node.tokens| + 32 * |node.cumulativeAmounts|
  {
  }
}
