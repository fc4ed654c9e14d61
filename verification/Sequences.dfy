/** Sequences without repetition, and what is left of a sequence when some elements go. */
module Sequences {
  ghost predicate Distinct<T>(s: seq<T>) {
    forall i, j :: 0 <= i < j < |s| ==> s[i] != s[j]
  }

  lemma {:induction false} DistinctFits<T>(p: seq<T>, r: set<T>)
    requires Distinct(p) && forall x :: x in p ==> x in r
    ensures |p| <= |r|
  {
    if p != [] {
      var last := p[|p| - 1];
      forall x | x in p[..|p| - 1] ensures x in r - {last} {
      }
      DistinctFits(p[..|p| - 1], r - {last});
    }
  }

  lemma {:induction false} DistinctSize<T>(s: seq<T>)
    requires Distinct(s)
    ensures |set x | x in s| == |s|
  {
    if s != [] {
      var n := |s| - 1;
      DistinctSize(s[..n]);
      assert s == s[..n] + [s[n]];
      assert (set x | x in s) == (set x | x in s[..n]) + {s[n]};
    }
  }

  /** `ks` are positions of a sequence of length `n`, in order. */
  ghost predicate Positions(ks: seq<nat>, n: nat) {
    && (forall i :: 0 <= i < |ks| ==> ks[i] < n)
    && (forall i, j :: 0 <= i < j < |ks| ==> ks[i] < ks[j])
  }

  /** `r` is what is left of `s`, in order, when exactly the elements that fail `keep` go and each
      other one is turned into what `f` makes of it. */
  ghost predicate Filtered<S(!new), T(!new)>(s: seq<S>, keep: S -> bool, f: S -> T, r: seq<T>) {
    exists ks: seq<nat> :: FilteredAt(s, keep, f, r, ks)
  }

  ghost predicate FilteredAt<S(!new), T(!new)>(s: seq<S>, keep: S -> bool, f: S -> T, r: seq<T>, ks: seq<nat>) {
    && Positions(ks, |s|) && |r| == |ks|
    && (forall i :: 0 <= i < |ks| ==> keep(s[ks[i]]) && r[i] == f(s[ks[i]]))
    && (forall k :: 0 <= k < |s| && keep(s[k]) ==> k in ks)
  }

  function Itself<T>(): T -> T {
    x => x
  }

  lemma {:induction false} FilteredNothing<S(!new), T(!new)>(keep: S -> bool, f: S -> T)
    ensures Filtered([], keep, f, [])
  {
    assert FilteredAt([], keep, f, [], []);
  }

  lemma {:induction false} PositionsNext(ks: seq<nat>, n: nat)
    requires Positions(ks, n)
    ensures Positions(ks, n + 1) && Positions(ks + [n], n + 1)
    ensures forall i :: 0 <= i < |ks| ==> ks[i] < n
  {
  }

  lemma {:induction false} FilteredNext<S(!new), T(!new)>(s: seq<S>, keep: S -> bool, f: S -> T, r: seq<T>, x: S)
    requires Filtered(s, keep, f, r)
    ensures Filtered(s + [x], keep, f, r + if keep(x) then [f(x)] else [])
  {
    hide Positions;
    var ks: seq<nat> :| FilteredAt(s, keep, f, r, ks);
    PositionsNext(ks, |s|);
    if keep(x) {
      forall k | 0 <= k < |s + [x]| && keep((s + [x])[k]) ensures k in ks + [|s|] {
        assert k < |s| ==> keep(s[k]);
      }
      assert FilteredAt(s + [x], keep, f, r + [f(x)], ks + [|s|]);
    } else {
      assert FilteredAt(s + [x], keep, f, r, ks);
      assert r + [] == r;
    }
  }
}
