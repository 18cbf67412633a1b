/**
 State paths of a hidden Markov model with `K` states, enumerated by where they end
 and by what they pass through; each enumeration lists exactly the paths it should,
 each once.
 */
module StatePaths {
  // ----- state paths

  type Path = seq<nat>

  ghost predicate IsPath(K: nat, p: Path, n: nat) {
    && |p| == n
    && forall k :: 0 <= k < n ==> p[k] < K
  }

  ghost function Extend(ps: seq<Path>, j: nat): (r: seq<Path>)
    ensures |r| == |ps|
    ensures forall k :: 0 <= k < |ps| ==> r[k] == ps[k] + [j]
  {
    seq(|ps|, k requires 0 <= k < |ps| => ps[k] + [j])
  }

  lemma {:induction false} ExtendNone(j: nat)
    ensures Extend([], j) == []
  {
  }

  lemma {:induction false} ExtendLast(ps: seq<Path>, j: nat)
    requires ps != []
    ensures
      var n := |ps| - 1;
      Extend(ps, j) == Extend(ps[..n], j) + [ps[n] + [j]]
      && Extend(ps, j)[..n] == Extend(ps[..n], j) && Extend(ps, j)[n] == ps[n] + [j]
  {
    var n := |ps| - 1;
    assert Extend(ps, j)[..n] == Extend(ps[..n], j);
  }

  /** All paths that end in state `j` at time `t`. */
  ghost function PathsTo(K: nat, t: nat, j: nat): seq<Path>
    decreases t, 1, 0
  {
    if t == 0 then [[j]] else PathsVia(K, t, j, K)
  }

  /** Those whose state at time `t - 1` is below `n`. */
  ghost function PathsVia(K: nat, t: nat, j: nat, n: nat): seq<Path>
    requires t > 0
    decreases t, 0, n
  {
    if n == 0 then [] else PathsVia(K, t, j, n - 1) + Extend(PathsTo(K, t - 1, n - 1), j)
  }

  /** All completions of the path `p` to `len` observations. */
  ghost function Completions(K: nat, p: Path, len: nat): seq<Path>
    requires |p| <= len
    decreases len - |p|, K + 1
  {
    if |p| == len then [p] else CompletionsVia(K, p, len, K)
  }

  ghost function CompletionsVia(K: nat, p: Path, len: nat, n: nat): seq<Path>
    requires |p| < len && n <= K
    decreases len - |p|, n
  {
    if n == 0 then [] else CompletionsVia(K, p, len, n - 1) + Completions(K, p + [n - 1], len)
  }

  /** All completions of paths that are all in state `j` at time `t`. */
  ghost function AllCompletions(K: nat, ps: seq<Path>, t: nat, j: nat, len: nat): seq<Path>
    requires t < len
    requires forall k :: 0 <= k < |ps| ==> EndsIn(K, ps[k], t, j)
  {
    if ps == [] then []
    else
      assert EndsIn(K, ps[|ps| - 1], t, j);
      AllCompletions(K, ps[..|ps| - 1], t, j, len) + Completions(K, ps[|ps| - 1], len)
  }

  /** All full-length paths that are in state `j` at time `t`. */
  ghost function PathsThrough(K: nat, len: nat, t: nat, j: nat): seq<Path>
    requires j < K && t < len
  {
    PathsToMembers(K, t, j);
    AllCompletions(K, PathsTo(K, t, j), t, j, len)
  }

  // ----- the enumerations are exact

  ghost predicate Distinct(ps: seq<Path>) {
    forall a, b :: 0 <= a < b < |ps| ==> ps[a] != ps[b]
  }

  ghost predicate EndsIn(K: nat, p: Path, t: nat, j: nat) {
    IsPath(K, p, t + 1) && p[t] == j
  }

  lemma {:induction false} PathsToMembers(K: nat, t: nat, j: nat)
    requires j < K
    ensures forall k :: 0 <= k < |PathsTo(K, t, j)| ==> EndsIn(K, PathsTo(K, t, j)[k], t, j)
    decreases t, 1, 0
  {
    if t > 0 {
      PathsViaMembers(K, t, j, K);
    }
  }

  lemma {:induction false} PathsViaMembers(K: nat, t: nat, j: nat, n: nat)
    requires j < K && t > 0 && n <= K
    ensures forall k :: 0 <= k < |PathsVia(K, t, j, n)| ==>
      EndsIn(K, PathsVia(K, t, j, n)[k], t, j) && PathsVia(K, t, j, n)[k][t - 1] < n
    decreases t, 0, n
  {
    if n > 0 {
      PathsViaMembers(K, t, j, n - 1);
      PathsToMembers(K, t - 1, n - 1);
      var ps := PathsTo(K, t - 1, n - 1);
      var ext := Extend(ps, j);
      assert forall k :: 0 <= k < |ext| ==> EndsIn(K, ps[k], t - 1, n - 1);
      assert forall k :: 0 <= k < |ext| ==> EndsIn(K, ext[k], t, j) && ext[k][t - 1] == n - 1;
    }
  }

  /** Every path into (t, j) is listed. */
  lemma {:induction false} PathsToComplete(K: nat, t: nat, j: nat, p: Path)
    requires EndsIn(K, p, t, j)
    ensures p in PathsTo(K, t, j)
    decreases t
  {
    if t == 0 {
      assert p == [j];
    } else {
      var init := p[..t];
      PathsToComplete(K, t - 1, p[t - 1], init);
      var ps := PathsTo(K, t - 1, p[t - 1]);
      var k :| 0 <= k < |ps| && ps[k] == init;
      assert p == init + [j];
      assert Extend(ps, j)[k] == p;
      assert p in PathsVia(K, t, j, p[t - 1] + 1);
      PathsViaGrows(K, t, j, p[t - 1] + 1, K, p);
    }
  }

  lemma {:induction false} PathsViaGrows(K: nat, t: nat, j: nat, n: nat, n': nat, p: Path)
    requires t > 0 && n <= n'
    requires p in PathsVia(K, t, j, n)
    ensures p in PathsVia(K, t, j, n')
    decreases n' - n
  {
    if n < n' {
      PathsViaGrows(K, t, j, n, n' - 1, p);
    }
  }

  /** No path into (t, j) is listed twice. */
  lemma {:induction false} PathsToDistinct(K: nat, t: nat, j: nat)
    requires j < K
    ensures Distinct(PathsTo(K, t, j))
    decreases t, 1, 0
  {
    if t > 0 {
      PathsViaDistinct(K, t, j, K);
    }
  }

  lemma {:induction false} PathsViaDistinct(K: nat, t: nat, j: nat, n: nat)
    requires j < K && t > 0 && n <= K
    ensures Distinct(PathsVia(K, t, j, n))
    decreases t, 0, n
  {
    if n > 0 {
      PathsViaDistinct(K, t, j, n - 1);
      PathsToDistinct(K, t - 1, n - 1);
      PathsViaMembers(K, t, j, n - 1);
      PathsToMembers(K, t - 1, n - 1);
      var ps := PathsTo(K, t - 1, n - 1);
      var ext := Extend(ps, j);
      assert Distinct(ext) by {
        forall a, b | 0 <= a < b < |ext|
          ensures ext[a] != ext[b]
        {
          assert ext[a][..|ps[a]|] == ps[a] && ext[b][..|ps[b]|] == ps[b];
          assert EndsIn(K, ps[a], t - 1, n - 1) && EndsIn(K, ps[b], t - 1, n - 1);
        }
      }
      assert forall k :: 0 <= k < |ext| ==> EndsIn(K, ps[k], t - 1, n - 1) && ext[k][t - 1] == n - 1;
    }
  }

  ghost predicate Completes(K: nat, q: Path, p: Path, len: nat) {
    IsPath(K, q, len) && p <= q
  }

  lemma {:induction false} CompletionsMembers(K: nat, p: Path, len: nat)
    requires IsPath(K, p, |p|) && |p| <= len
    ensures forall k :: 0 <= k < |Completions(K, p, len)| ==> Completes(K, Completions(K, p, len)[k], p, len)
    decreases len - |p|, K + 1
  {
    if |p| < len {
      CompletionsViaMembers(K, p, len, K);
    }
  }

  lemma {:induction false} CompletionsViaMembers(K: nat, p: Path, len: nat, n: nat)
    requires IsPath(K, p, |p|) && |p| < len && n <= K
    ensures forall k :: 0 <= k < |CompletionsVia(K, p, len, n)| ==>
      Completes(K, CompletionsVia(K, p, len, n)[k], p, len) && CompletionsVia(K, p, len, n)[k][|p|] < n
    decreases len - |p|, n
  {
    if n > 0 {
      CompletionsViaMembers(K, p, len, n - 1);
      CompletionsMembers(K, p + [n - 1], len);
      var qs := Completions(K, p + [n - 1], len);
      assert forall k :: 0 <= k < |qs| ==> Completes(K, qs[k], p + [n - 1], len);
      assert forall k :: 0 <= k < |qs| ==> Completes(K, qs[k], p, len) && qs[k][|p|] == n - 1;
    }
  }

  lemma {:induction false} CompletionsComplete(K: nat, p: Path, len: nat, q: Path)
    requires |p| <= len && Completes(K, q, p, len)
    ensures q in Completions(K, p, len)
    decreases len - |p|
  {
    if |p| < len {
      var next := p + [q[|p|]];
      CompletionsComplete(K, next, len, q);
      assert q in CompletionsVia(K, p, len, q[|p|] + 1);
      CompletionsViaGrows(K, p, len, q[|p|] + 1, K, q);
    } else {
      assert q == p;
    }
  }

  lemma {:induction false} CompletionsViaGrows(K: nat, p: Path, len: nat, n: nat, n': nat, q: Path)
    requires |p| < len && n <= n' <= K
    requires q in CompletionsVia(K, p, len, n)
    ensures q in CompletionsVia(K, p, len, n')
    decreases n' - n
  {
    if n < n' {
      CompletionsViaGrows(K, p, len, n, n' - 1, q);
    }
  }

  lemma {:induction false} CompletionsDistinct(K: nat, p: Path, len: nat)
    requires IsPath(K, p, |p|) && |p| <= len
    ensures Distinct(Completions(K, p, len))
    decreases len - |p|, K + 1
  {
    if |p| < len {
      CompletionsViaDistinct(K, p, len, K);
    }
  }

  lemma {:induction false} CompletionsViaDistinct(K: nat, p: Path, len: nat, n: nat)
    requires IsPath(K, p, |p|) && |p| < len && n <= K
    ensures Distinct(CompletionsVia(K, p, len, n))
    decreases len - |p|, n
  {
    if n > 0 {
      CompletionsViaDistinct(K, p, len, n - 1);
      CompletionsDistinct(K, p + [n - 1], len);
      CompletionsViaMembers(K, p, len, n - 1);
      CompletionsMembers(K, p + [n - 1], len);
      var qs := Completions(K, p + [n - 1], len);
      assert forall k :: 0 <= k < |qs| ==> Completes(K, qs[k], p + [n - 1], len);
      assert forall k :: 0 <= k < |qs| ==> qs[k][|p|] == n - 1;
    }
  }

  lemma {:induction false} AllCompletionsMembers(K: nat, ps: seq<Path>, t: nat, j: nat, len: nat)
    requires t < len
    requires forall k :: 0 <= k < |ps| ==> EndsIn(K, ps[k], t, j)
    ensures forall k :: 0 <= k < |AllCompletions(K, ps, t, j, len)| ==>
      && IsPath(K, AllCompletions(K, ps, t, j, len)[k], len)
      && AllCompletions(K, ps, t, j, len)[k][..t + 1] in ps
  {
    if ps != [] {
      var n := |ps| - 1;
      AllCompletionsMembers(K, ps[..n], t, j, len);
      CompletionsMembers(K, ps[n], len);
      var qs := Completions(K, ps[n], len);
      assert forall k :: 0 <= k < |qs| ==> Completes(K, qs[k], ps[n], len) && qs[k][..t + 1] == ps[n];
    }
  }

  lemma {:induction false} AllCompletionsDistinct(K: nat, ps: seq<Path>, t: nat, j: nat, len: nat)
    requires t < len
    requires forall k :: 0 <= k < |ps| ==> EndsIn(K, ps[k], t, j)
    requires Distinct(ps)
    ensures Distinct(AllCompletions(K, ps, t, j, len))
  {
    if ps != [] {
      var n := |ps| - 1;
      AllCompletionsDistinct(K, ps[..n], t, j, len);
      AllCompletionsMembers(K, ps[..n], t, j, len);
      CompletionsDistinct(K, ps[n], len);
      CompletionsMembers(K, ps[n], len);
      var qs, rs := Completions(K, ps[n], len), AllCompletions(K, ps[..n], t, j, len);
      assert forall k :: 0 <= k < |qs| ==> Completes(K, qs[k], ps[n], len) && qs[k][..t + 1] == ps[n];
      assert ps[n] !in ps[..n];
      forall a, b | 0 <= a < |rs| && 0 <= b < |qs|
        ensures rs[a] != qs[b]
      {
        assert rs[a][..t + 1] in ps[..n];
      }
    }
  }

  lemma {:induction false} AllCompletionsComplete(K: nat, ps: seq<Path>, t: nat, j: nat, len: nat, q: Path)
    requires t < len && IsPath(K, q, len)
    requires forall k :: 0 <= k < |ps| ==> EndsIn(K, ps[k], t, j)
    requires q[..t + 1] in ps
    ensures q in AllCompletions(K, ps, t, j, len)
  {
    var n := |ps| - 1;
    if ps[n] == q[..t + 1] {
      CompletionsComplete(K, ps[n], len, q);
    } else {
      AllCompletionsComplete(K, ps[..n], t, j, len, q);
    }
  }

  /** The paths listed as passing through (t, j) are exactly the full-length paths that
      do, each once. */
  lemma {:induction false} PathsThroughExact(K: nat, len: nat, t: nat, j: nat)
    requires j < K && t < len
    ensures forall q :: q in PathsThrough(K, len, t, j) <==> IsPath(K, q, len) && q[t] == j
    ensures Distinct(PathsThrough(K, len, t, j))
  {
    var ps := PathsTo(K, t, j);
    PathsToMembers(K, t, j);
    PathsToDistinct(K, t, j);
    AllCompletionsMembers(K, ps, t, j, len);
    AllCompletionsDistinct(K, ps, t, j, len);
    forall q
      ensures q in PathsThrough(K, len, t, j) <==> IsPath(K, q, len) && q[t] == j
    {
      if q in PathsThrough(K, len, t, j) {
        var i :| 0 <= i < |ps| && ps[i] == q[..t + 1];
        assert EndsIn(K, ps[i], t, j);
      }
      if IsPath(K, q, len) && q[t] == j {
        assert EndsIn(K, q[..t + 1], t, j);
        PathsToComplete(K, t, j, q[..t + 1]);
        AllCompletionsComplete(K, ps, t, j, len, q);
      }
    }
  }
}
