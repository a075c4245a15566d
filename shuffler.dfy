/** The Fisher-Yates shuffle of `shuffle` and the split of the shuffled
    roster into two teams. The random index drawn at each step becomes a
    nondeterministic choice in [0, i]; the choices made are returned as a ghost
    record so that the result can be tied to the specification `Apply`. */
module Shuffler {

  /** `s` with the elements at `i` and `j` exchanged. */
  function Swap<T>(s: seq<T>, i: nat, j: nat): (r: seq<T>)
    requires i < |s| && j < |s|
    ensures |r| == |s| && multiset(r) == multiset(s)
    ensures r[i] == s[j] && r[j] == s[i]
    ensures forall k :: 0 <= k < |s| && k != i && k != j ==> r[k] == s[k]
  {
    s[i := s[j]][j := s[i]]
  }

  /** `js` is a legal record of the first |js| steps of the shuffle of a list
      of length `n`: step k swaps position n-1-k (never below 1) with a
      position in [0, n-1-k]. */
  predicate LegalChoices(n: nat, js: seq<nat>)
  {
    (|js| == 0 || |js| < n) && forall k :: 0 <= k < |js| ==> js[k] <= n - 1 - k
  }

  /** The record of a finished shuffle: one step for each i from n-1 down to 1. */
  predicate CompleteChoices(n: nat, js: seq<nat>)
  {
    LegalChoices(n, js) && |js| == if n == 0 then 0 else n - 1
  }

  /** The list after the steps recorded in `js` have been applied to `s`. */
  function Apply<T>(s: seq<T>, js: seq<nat>): (r: seq<T>)
    requires LegalChoices(|s|, js)
    ensures |r| == |s| && multiset(r) == multiset(s)
    decreases |js|
  {
    if js == [] then s
    else
      var k := |js| - 1;
      assert LegalChoices(|s|, js[..k]) by {
        forall m | 0 <= m < k ensures js[..k][m] <= |s| - 1 - m { assert js[..k][m] == js[m]; }
      }
      Swap(Apply(s, js[..k]), |s| - 1 - k, js[k])
  }

  /** A legal record stays legal when one more allowed choice is added. */
  lemma LegalExtend(n: nat, js: seq<nat>, j: nat)
    requires LegalChoices(n, js) && |js| + 1 < n && j <= n - 1 - |js|
    ensures LegalChoices(n, js + [j])
  {
    var js' := js + [j];
    forall k | 0 <= k < |js'| ensures js'[k] <= n - 1 - k {
      if k < |js| { assert js'[k] == js[k]; }
    }
  }

  /** One more step of the shuffle is one more swap. */
  lemma ApplyStep<T>(s: seq<T>, js: seq<nat>, j: nat)
    requires LegalChoices(|s|, js) && |js| + 1 < |s| && j <= |s| - 1 - |js|
    ensures LegalChoices(|s|, js + [j])
    ensures Apply(s, js + [j]) == Swap(Apply(s, js), |s| - 1 - |js|, j)
  {
    LegalExtend(|s|, js, j);
    assert (js + [j])[..|js|] == js;
  }

  /** Fisher-Yates: copy the input, then for i from the last index down to 1
      exchange position i with a position chosen in [0, i]. The argument is
      left as it was. */
  method Shuffle<T>(arr: array<T>) returns (a: array<T>, ghost choices: seq<nat>)
    ensures fresh(a)
    ensures arr[..] == old(arr[..])
    ensures a.Length == arr.Length && multiset(a[..]) == multiset(arr[..])
    ensures CompleteChoices(arr.Length, choices) && a[..] == Apply(arr[..], choices)
  {
    a := new T[arr.Length](k requires 0 <= k < arr.Length reads arr => arr[k]);
    assert a[..] == arr[..];
    choices := [];
    var i := a.Length - 1;
    while i > 0
      invariant -1 <= i < a.Length
      invariant |choices| == a.Length - 1 - i
      invariant LegalChoices(a.Length, choices)
      invariant a[..] == Apply(arr[..], choices)
      invariant multiset(a[..]) == multiset(arr[..])
    {
      var j: nat :| j <= i;
      ghost var before := a[..];
      a[i], a[j] := a[j], a[i];
      assert a[..] == Swap(before, i, j);
      ApplyStep(arr[..], choices, j);
      choices := choices + [j];
      i := i - 1;
    }
  }

  /** `Math.ceil(n / 2)` for a list length n. */
  function CeilHalf(n: nat): (h: nat)
    ensures n <= 2 * h <= n + 1
  {
    (n + 1) / 2
  }

  /** The team split: team A takes the first ceil(N/2) players of the
      shuffled list, team B the rest. */
  function Split<T>(shuffled: seq<T>): (teams: (seq<T>, seq<T>))
    ensures teams.0 + teams.1 == shuffled
    ensures |teams.0| == CeilHalf(|shuffled|) && |teams.1| == |shuffled| - CeilHalf(|shuffled|)
    ensures |teams.0| == |teams.1| || |teams.0| == |teams.1| + 1
  {
    var h := CeilHalf(|shuffled|);
    (shuffled[..h], shuffled[h..])
  }

  /** No participant appears twice. */
  predicate NoDuplicates<T(==)>(s: seq<T>)
  {
    forall i, j :: 0 <= i < j < |s| ==> s[i] != s[j]
  }

  /** Splitting a list without duplicates gives two disjoint teams that
      together hold exactly the list's players. */
  lemma SplitPartitions<T>(s: seq<T>)
    requires NoDuplicates(s)
    ensures (set x | x in Split(s).0) !! (set x | x in Split(s).1)
    ensures (set x | x in Split(s).0) + (set x | x in Split(s).1) == (set x | x in s)
  {
  }

  /** A permutation of a list without duplicates has none either. */
  lemma PermutationKeepsNoDuplicates<T>(s: seq<T>, t: seq<T>)
    requires NoDuplicates(s) && multiset(s) == multiset(t)
    ensures NoDuplicates(t)
  {
    forall i, j | 0 <= i < j < |t| ensures t[i] != t[j] {
      if t[i] == t[j] {
        DuplicateCount(t, i, j);
        DistinctCount(s, t[i]);
      }
    }
  }

  lemma {:induction false} DuplicateCount<T>(t: seq<T>, i: nat, j: nat)
    requires i < j < |t| && t[i] == t[j]
    ensures multiset(t)[t[i]] >= 2
  {
    var x := t[i];
    assert t == t[..i] + [x] + t[i+1..j] + [x] + t[j+1..];
  }

  lemma {:induction false} DistinctCount<T>(s: seq<T>, x: T)
    requires NoDuplicates(s)
    ensures multiset(s)[x] <= 1
  {
    if s != [] {
      assert s == [s[0]] + s[1..];
      assert NoDuplicates(s[1..]) by {
        forall i, j | 0 <= i < j < |s[1..]| ensures s[1..][i] != s[1..][j] {
          assert s[1..][i] == s[i + 1] && s[1..][j] == s[j + 1];
        }
      }
      DistinctCount(s[1..], x);
      if x == s[0] {
        assert x !in s[1..] by {
          forall k | 0 <= k < |s[1..]| ensures s[1..][k] != x { assert s[1..][k] == s[k + 1]; }
        }
      }
    }
  }
}
