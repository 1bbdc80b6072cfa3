/** Splitting a call signature into its name and outermost groups (helpers/multicall/signature.py:7-25). */
module Signature {
  import opened Prelude

  /** The scanner after some letters: parts found, open parentheses, and where the next part starts. */
  datatype Scanner = Scanner(parts: seq<string>, depth: nat, start: nat)

  /** One letter at position `end`: an opening one may end the name, a closing one may end an outermost group. */
  function Read(s: string, sc: Scanner, end: nat): (r: Result<Scanner>)
    requires end < |s| && sc.start <= end
    ensures r.Success? ==> r.value.start <= end + 1
    ensures r.Failure? <==> s[end] == ')' && sc.depth == 0
    ensures r.Failure? ==> r.error == IndexError
  {
    if s[end] == '(' then
      Success(if sc.parts == [] then Scanner([s[sc.start..end]], sc.depth + 1, end)
              else Scanner(sc.parts, sc.depth + 1, sc.start))
    else if s[end] == ')' then
      if sc.depth == 0 then Failure(IndexError)
      else if sc.depth == 1 then Success(Scanner(sc.parts + [s[sc.start..end + 1]], 0, end + 1))
      else Success(Scanner(sc.parts, sc.depth - 1, sc.start))
    else Success(sc)
  }

  function Scan(s: string, n: nat): (r: Result<Scanner>)
    requires n <= |s|
    ensures r.Success? ==> r.value.start <= n
    ensures r.Failure? ==> r.error == IndexError
  {
    if n == 0 then Success(Scanner([], 0, 0))
    else
      var before := Scan(s, n - 1);
      if before.Failure? then before else Read(s, before.value, n - 1)
  }

  function Parse(s: string): Result<seq<string>> {
    var r := Scan(s, |s|);
    if r.Failure? then Failure(r.error) else Success(r.value.parts)
  }

  method ParseSignature(signature: string) returns (r: Result<seq<string>>)
    ensures r == Parse(signature)
  {
    var parts: seq<string>, stack: string, start: nat := [], [], 0;
    for end := 0 to |signature|
      invariant Scan(signature, end) == Success(Scanner(parts, |stack|, start))
    {
      var letter := signature[end];
      if letter == '(' {
        stack := stack + [letter];
        if parts == [] {
          parts := [signature[start..end]];
          start := end;
        }
      }
      if letter == ')' {
        if stack == [] {
          StuckAt(signature, end + 1, |signature|);
          return Failure(IndexError);
        }
        stack := stack[..|stack| - 1];
        if stack == [] {
          parts := parts + [signature[start..end + 1]];
          start := end + 1;
        }
      }
    }
    return Success(parts);
  }

  lemma {:induction false} StuckAt(s: string, n: nat, m: nat)
    requires n <= m <= |s| && Scan(s, n).Failure?
    ensures Scan(s, m).Failure?
    decreases m - n
  {
    if m <= n {
    } else {
      StuckAt(s, n + 1, m);
    }
  }

  // ----- balance -----

  /** Opening minus closing parentheses among the first `n` letters. */
  function Depth(s: string, n: nat): int
    requires n <= |s|
  {
    if n == 0 then 0
    else Depth(s, n - 1) + if s[n - 1] == '(' then 1 else if s[n - 1] == ')' then -1 else 0
  }

  predicate NeverBelow(s: string, n: nat)
    requires n <= |s|
  {
    forall k | 0 <= k <= n :: Depth(s, k) >= 0
  }

  lemma {:induction false} ScanDepth(s: string, n: nat)
    requires n <= |s|
    ensures Scan(s, n).Success? <==> NeverBelow(s, n)
    ensures Scan(s, n).Success? ==> Scan(s, n).value.depth == Depth(s, n)
  {
    if n == 0 {
    } else {
      ScanDepth(s, n - 1);
      assert Depth(s, n) < 0 ==> !NeverBelow(s, n);
    }
  }

  /** Parsing fails exactly when some closing parenthesis has no partner before it. */
  lemma FailsIffUnmatched(s: string)
    ensures Parse(s).Failure? <==> exists k | 0 <= k <= |s| :: Depth(s, k) < 0
  {
    ScanDepth(s, |s|);
    if Parse(s).Failure? {
      assert !NeverBelow(s, |s|);
      var k :| 0 <= k <= |s| && !(Depth(s, k) >= 0);
      assert Depth(s, k) < 0;
    }
  }

  // ----- what the parts are -----

  function Join(parts: seq<string>): string {
    if parts == [] then "" else Join(parts[..|parts| - 1]) + parts[|parts| - 1]
  }

  lemma JoinAppend(parts: seq<string>, part: string)
    ensures Join(parts + [part]) == Join(parts) + part
  {
  }

  /** The position after the last outermost close among the first `n` letters, or 0. */
  function LastClose(s: string, n: nat): (m: nat)
    requires n <= |s|
    ensures m <= n
  {
    if n == 0 then 0
    else if s[n - 1] == ')' && Depth(s, n) == 0 then n
    else LastClose(s, n - 1)
  }

  /** Nothing is lost between the parts. */
  lemma {:induction false} ScanJoin(s: string, n: nat)
    requires n <= |s| && Scan(s, n).Success?
    ensures Join(Scan(s, n).value.parts) == s[..Scan(s, n).value.start]
    ensures Scan(s, n).value.parts == [] ==> Scan(s, n).value.start == 0
  {
    if n == 0 {
    } else {
      ScanJoin(s, n - 1);
      var before := Scan(s, n - 1).value;
      if s[n - 1] == '(' && before.parts == [] {
        JoinAppend([], s[..n - 1]);
        assert [] + [s[..n - 1]] == [s[..n - 1]];
      } else if s[n - 1] == ')' && before.depth == 1 {
        JoinAppend(before.parts, s[before.start..n]);
        assert s[..before.start] + s[before.start..n] == s[..n];
      }
    }
  }

  /** Outside of groups the next part starts after the last outermost close. */
  lemma {:induction false} ScanStart(s: string, n: nat)
    requires n <= |s| && Scan(s, n).Success?
    ensures Scan(s, n).value.depth == 0 ==> Scan(s, n).value.start == LastClose(s, n)
  {
    if n == 0 {
    } else {
      ScanStart(s, n - 1);
      ScanDepth(s, n - 1);
      ScanDepth(s, n);
    }
  }

  /** For any balanced input, the parts concatenate to the input up to its last outermost close. */
  lemma PartsConcatenate(s: string)
    requires NeverBelow(s, |s|) && Depth(s, |s|) == 0
    ensures Parse(s).Success? && Join(Parse(s).value) == s[..LastClose(s, |s|)]
  {
    ScanDepth(s, |s|);
    ScanJoin(s, |s|);
    ScanStart(s, |s|);
  }

  // ----- round trip -----

  predicate ParenFree(s: string) {
    forall i | 0 <= i < |s| :: s[i] != '(' && s[i] != ')'
  }

  /** One balanced group: the depth is positive strictly inside and zero at the end. */
  predicate IsGroup(g: string) {
    && |g| >= 2
    && Depth(g, |g|) == 0
    && forall k | 0 < k < |g| :: Depth(g, k) > 0
  }

  lemma GroupEnds(g: string)
    requires IsGroup(g)
    ensures g[0] == '(' && g[|g| - 1] == ')' && Depth(g, |g| - 1) == 1 && Depth(g, 1) == 1
  {
    assert Depth(g, 1) > 0 && Depth(g, |g| - 1) > 0;
  }

  lemma {:induction false} ScanName(s: string, n: nat)
    requires n <= |s| && ParenFree(s[..n])
    ensures Scan(s, n) == Success(Scanner([], 0, 0))
  {
    if n == 0 {
    } else {
      assert s[..n][n - 1] == s[n - 1];
      assert ParenFree(s[..n - 1]) by {
        assert forall i | 0 <= i < n - 1 :: s[..n - 1][i] == s[..n][i];
      }
      ScanName(s, n - 1);
    }
  }

  /** Inside a group that starts at `k`, only the depth changes. */
  lemma {:induction false} ScanInside(s: string, k: nat, g: string, before: Scanner, n: nat)
    requires k + |g| <= |s| && s[k..k + |g|] == g && IsGroup(g)
    requires Scan(s, k) == Success(before) && before.depth == 0
    requires before.parts != [] ==> before.start == k
    requires 0 < n < |g|
    ensures Scan(s, k + n)
         == Success(Scanner(if before.parts == [] then [s[before.start..k]] else before.parts, Depth(g, n), k))
  {
    GroupEnds(g);
    assert s[k + n - 1] == g[n - 1];
    if n == 1 {
    } else {
      ScanInside(s, k, g, before, n - 1);
      assert Depth(g, n) > 0;
    }
  }

  lemma ScanGroup(s: string, k: nat, g: string, before: Scanner)
    requires k + |g| <= |s| && s[k..k + |g|] == g && IsGroup(g)
    requires Scan(s, k) == Success(before) && before.depth == 0
    requires before.parts != [] ==> before.start == k
    ensures Scan(s, k + |g|)
         == Success(Scanner((if before.parts == [] then [s[before.start..k]] else before.parts) + [g], 0, k + |g|))
  {
    GroupEnds(g);
    ScanInside(s, k, g, before, |g| - 1);
    assert s[k + |g| - 1] == g[|g| - 1];
  }

  lemma SplitPrefix(s: string, a: string, b: string)
    requires |a + b| <= |s| && s[..|a + b|] == a + b
    ensures s[..|a|] == a && s[|a|..|a| + |b|] == b
  {
  }

  lemma {:induction false} ScanGroups(s: string, name: string, groups: seq<string>)
    requires ParenFree(name) && groups != [] && forall i | 0 <= i < |groups| :: IsGroup(groups[i])
    requires |name + Join(groups)| <= |s| && s[..|name + Join(groups)|] == name + Join(groups)
    ensures Scan(s, |name + Join(groups)|) == Success(Scanner([name] + groups, 0, |name + Join(groups)|))
  {
    hide Scan, IsGroup, ParenFree;
    var rest, g := groups[..|groups| - 1], groups[|groups| - 1];
    var k := |name + Join(rest)|;
    assert name + Join(groups) == (name + Join(rest)) + g;
    SplitPrefix(s, name + Join(rest), g);
    if rest == [] {
      ScanFirst(s, name, g);
      assert name + Join(rest) == name;
      assert groups == [g];
    } else {
      ScanGroups(s, name, rest);
      ScanGroup(s, k, g, Scanner([name] + rest, 0, k));
      assert [name] + groups == ([name] + rest) + [g];
    }
  }

  lemma ScanFirst(s: string, name: string, g: string)
    requires ParenFree(name) && IsGroup(g) && |name| + |g| <= |s|
    requires s[..|name|] == name && s[|name|..|name| + |g|] == g
    ensures Scan(s, |name| + |g|) == Success(Scanner([name] + [g], 0, |name| + |g|))
  {
    hide Scan, IsGroup, ParenFree;
    var before := Scanner([], 0, 0);
    ScanName(s, |name|);
    ScanGroup(s, |name|, g, before);
    assert s[before.start..|name|] == name;
  }

  /** A name without parentheses followed by balanced groups, however deeply nested, parses into exactly these. */
  lemma RoundTrip(name: string, groups: seq<string>)
    requires ParenFree(name) && groups != [] && forall i | 0 <= i < |groups| :: IsGroup(groups[i])
    ensures Parse(name + Join(groups)) == Success([name] + groups)
  {
    var s := name + Join(groups);
    assert s[..|s|] == s;
    ScanGroups(s, name, groups);
  }
}
