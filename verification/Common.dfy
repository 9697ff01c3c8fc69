/** Small shared definitions. */
module Common {
  datatype Option<+T> = None | Some(value: T)

  /** A row of groups, proxies or users: the loaders read only its id. */
  datatype NodeRow = NodeRow(id: int, name: string)

  function NodeIDs(rows: seq<NodeRow>): (ids: seq<int>)
    ensures |ids| == |rows| && forall i :: 0 <= i < |rows| ==> ids[i] == rows[i].id
  {
    seq(|rows|, i requires 0 <= i < |rows| => rows[i].id)
  }

  ghost predicate NoDuplicates<T>(s: seq<T>) {
    forall i, j :: 0 <= i < j < |s| ==> s[i] != s[j]
  }

  /** No later element equals element i. */
  ghost predicate LastAt<T>(s: seq<T>, i: int) {
    0 <= i < |s| && forall j :: i < j < |s| ==> s[j] != s[i]
  }

  lemma NoDuplicatesLastAt<T>(s: seq<T>)
    requires NoDuplicates(s)
    ensures forall i :: 0 <= i < |s| ==> LastAt(s, i)
  {
  }

  function Map<A, B>(s: seq<A>, f: A -> B): (t: seq<B>)
    ensures |t| == |s| && forall i :: 0 <= i < |s| ==> t[i] == f(s[i])
  {
    seq(|s|, i requires 0 <= i < |s| => f(s[i]))
  }

  /** The elements that satisfy p, in order. */
  function Filter<T>(s: seq<T>, p: T -> bool): seq<T> {
    if s == [] then []
    else Filter(s[..|s| - 1], p) + (if p(s[|s| - 1]) then [s[|s| - 1]] else [])
  }

  lemma FilterExtend<T>(s: seq<T>, x: T, p: T -> bool)
    ensures Filter(s + [x], p) == Filter(s, p) + if p(x) then [x] else []
  {
    assert (s + [x])[..|s|] == s;
  }

  lemma {:induction false} FilterContents<T(!new)>(s: seq<T>, p: T -> bool, f: seq<T>)
    requires f == Filter(s, p)
    ensures forall x :: x in f <==> x in s && p(x)
  {
    if s == [] {
    } else {
      var init, last := s[..|s| - 1], s[|s| - 1];
      FilterContents(init, p, Filter(init, p));
      assert s == init + [last];
    }
  }

  /** Positions in increasing order. */
  ghost predicate Increasing(at: seq<int>) {
    forall i, j :: 0 <= i < j < |at| ==> at[i] < at[j]
  }

  /** `f` holds what stands at the positions of `s` that satisfy p, once for each, and in order. */
  ghost predicate Picks<T>(s: seq<T>, p: T -> bool, f: seq<T>, at: seq<int>) {
    && Increasing(at) && |at| == |f| && (forall j :: j in at <==> 0 <= j < |s| && p(s[j]))
    && forall k :: 0 <= k < |at| ==> 0 <= at[k] < |s| && f[k] == s[at[k]]
  }

  lemma PickOne<T>(s: seq<T>, p: T -> bool, f: seq<T>, at: seq<int>, x: T)
    requires Picks(s, p, f, at) && p(x)
    ensures Picks(s + [x], p, f + [x], at + [|s|])
  {
    var more := at + [|s|];
    forall j ensures j in more <==> 0 <= j < |s + [x]| && p((s + [x])[j]) {
      assert j in more <==> j in at || j == |s|;
    }
  }

  lemma PassOne<T>(s: seq<T>, p: T -> bool, f: seq<T>, at: seq<int>, x: T)
    requires Picks(s, p, f, at) && !p(x)
    ensures Picks(s + [x], p, f, at)
  {
  }

  lemma {:induction false} FilterPicks<T>(s: seq<T>, p: T -> bool) returns (at: seq<int>)
    ensures Picks(s, p, Filter(s, p), at)
  {
    if s == [] {
      at := [];
    } else {
      var n := |s| - 1;
      at := FilterPicks(s[..n], p);
      FilterExtend(s[..n], s[n], p);
      assert s == s[..n] + [s[n]];
      hide Picks, Filter;
      if p(s[n]) {
        PickOne(s[..n], p, Filter(s[..n], p), at, s[n]);
        at := at + [n];
      } else {
        PassOne(s[..n], p, Filter(s[..n], p), at, s[n]);
        assert Filter(s[..n], p) + [] == Filter(s[..n], p);
      }
    }
  }

  /** Filtering keeps an order that all pairs are in. */
  lemma {:induction false} FilterOrdered<T(!new)>(s: seq<T>, p: T -> bool, before: (T, T) -> bool, f: seq<T>)
    requires f == Filter(s, p)
    requires forall i, j :: 0 <= i < j < |s| ==> before(s[i], s[j])
    ensures forall i, j :: 0 <= i < j < |f| ==> before(f[i], f[j])
  {
    if s == [] {
    } else {
      var init, last := s[..|s| - 1], s[|s| - 1];
      var g := Filter(init, p);
      FilterContents(init, p, g);
      FilterOrdered(init, p, before, g);
      assert f == g || f == g + [last];
      hide Filter;
      forall i | 0 <= i < |g| ensures before(g[i], last) {
        var x := g[i];
        assert x in g;
        assert x in init;
        var k :| 0 <= k < |init| && init[k] == x;
      }
    }
  }
}
