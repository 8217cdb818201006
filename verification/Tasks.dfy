/** Tasks as logs of updates to single cells, and the orders in which the updates of concurrent
    tasks may interleave */
module Tasks {

  /** `x` is combined into the cell `key`. */
  datatype Update<K, T> = Update(key: K, x: T)

  /** Updates in a fixed order, one piece of work after another, or two pieces side by side */
  datatype Work<K, T> =
    | Log(log: seq<Update<K, T>>)
    | Then(first: Work<K, T>, second: Work<K, T>)
    | Both(left: Work<K, T>, right: Work<K, T>)

  /** `log` has the updates of both logs, each in its own order. */
  predicate Interleaves<K(==), T(==)>(log: seq<Update<K, T>>, l: seq<Update<K, T>>, r: seq<Update<K, T>>)
  {
    if log == [] then l == [] && r == []
    else
      var last := log[|log| - 1];
      || (l != [] && l[|l| - 1] == last && Interleaves(log[..|log| - 1], l[..|l| - 1], r))
      || (r != [] && r[|r| - 1] == last && Interleaves(log[..|log| - 1], l, r[..|r| - 1]))
  }

  /** `log` is a possible order of the updates of `w`. */
  ghost predicate Executes<K(!new), T(!new)>(w: Work<K, T>, log: seq<Update<K, T>>)
  {
    match w
    case Log(l) => log == l
    case Then(first, second) => exists l, r :: log == l + r && Executes(first, l) && Executes(second, r)
    case Both(left, right) => exists l, r :: Interleaves(log, l, r) && Executes(left, l) && Executes(right, r)
  }

  lemma SplitThen<K(!new), T(!new)>(w: Work<K, T>, log: seq<Update<K, T>>)
    returns (l: seq<Update<K, T>>, r: seq<Update<K, T>>)
    requires w.Then? && Executes(w, log)
    ensures log == l + r && Executes(w.first, l) && Executes(w.second, r)
  {
    l, r :| log == l + r && Executes(w.first, l) && Executes(w.second, r);
  }

  lemma SplitBoth<K(!new), T(!new)>(w: Work<K, T>, log: seq<Update<K, T>>)
    returns (l: seq<Update<K, T>>, r: seq<Update<K, T>>)
    requires w.Both? && Executes(w, log)
    ensures Interleaves(log, l, r) && Executes(w.left, l) && Executes(w.right, r)
  {
    l, r :| Interleaves(log, l, r) && Executes(w.left, l) && Executes(w.right, r);
  }

  lemma {:induction false} ConcatInterleaves<K, T>(l: seq<Update<K, T>>, r: seq<Update<K, T>>)
    ensures Interleaves(l + r, l, r)
  {
    if r != [] {
      ConcatInterleaves(l, r[..|r| - 1]);
      assert (l + r)[..|l + r| - 1] == l + r[..|r| - 1];
    } else if l != [] {
      ConcatInterleaves(l[..|l| - 1], r);
      assert l + r == l && l[..|l| - 1] + r == l[..|l| - 1];
    }
  }

  /** The order of a single worker is one of the possible ones. */
  function InOrder<K, T>(w: Work<K, T>): seq<Update<K, T>>
  {
    match w
    case Log(l) => l
    case Then(first, second) => InOrder(first) + InOrder(second)
    case Both(left, right) => InOrder(left) + InOrder(right)
  }

  lemma {:induction false} InOrderExecutes<K(!new), T(!new)>(w: Work<K, T>)
    ensures Executes(w, InOrder(w))
  {
    match w
    case Log(_) =>
    case Then(first, second) =>
      InOrderExecutes(first);
      InOrderExecutes(second);
    case Both(left, right) =>
      InOrderExecutes(left);
      InOrderExecutes(right);
      ConcatInterleaves(InOrder(left), InOrder(right));
  }

  lemma {:induction false} InterleavedUpdates<K, T>(log: seq<Update<K, T>>, l: seq<Update<K, T>>, r: seq<Update<K, T>>,
                                                    u: Update<K, T>)
    requires Interleaves(log, l, r)
    ensures u in log <==> u in l || u in r
  {
    if log != [] {
      var last, log0 := log[|log| - 1], log[..|log| - 1];
      assert log == log0 + [last];
      if l != [] && l[|l| - 1] == last && Interleaves(log0, l[..|l| - 1], r) {
        InterleavedUpdates(log0, l[..|l| - 1], r, u);
        assert l == l[..|l| - 1] + [last];
      } else {
        InterleavedUpdates(log0, l, r[..|r| - 1], u);
        assert r == r[..|r| - 1] + [last];
      }
    }
  }

  lemma {:induction false} InterleavingSwaps<K, T>(log: seq<Update<K, T>>, l: seq<Update<K, T>>, r: seq<Update<K, T>>)
    requires Interleaves(log, l, r)
    ensures Interleaves(log, r, l)
  {
    if log != [] {
      var last, log0 := log[|log| - 1], log[..|log| - 1];
      if l != [] && l[|l| - 1] == last && Interleaves(log0, l[..|l| - 1], r) {
        InterleavingSwaps(log0, l[..|l| - 1], r);
      } else {
        InterleavingSwaps(log0, l, r[..|r| - 1]);
      }
    }
  }

  /** At each point of an interleaving, each of the two logs is at some point of its own. */
  lemma {:induction false} PrefixInterleaves<K, T>(log: seq<Update<K, T>>, l: seq<Update<K, T>>, r: seq<Update<K, T>>,
                                                   k: nat)
    returns (i: nat, j: nat)
    requires Interleaves(log, l, r) && k <= |log|
    ensures i <= |l| && j <= |r| && Interleaves(log[..k], l[..i], r[..j])
  {
    if k == |log| {
      i, j := |l|, |r|;
      assert log[..k] == log && l[..i] == l && r[..j] == r;
    } else {
      var last, log0 := log[|log| - 1], log[..|log| - 1];
      assert log0[..k] == log[..k];
      if l != [] && l[|l| - 1] == last && Interleaves(log0, l[..|l| - 1], r) {
        i, j := PrefixInterleaves(log0, l[..|l| - 1], r, k);
        assert l[..|l| - 1][..i] == l[..i];
      } else {
        i, j := PrefixInterleaves(log0, l, r[..|r| - 1], k);
        assert r[..|r| - 1][..j] == r[..j];
      }
    }
  }

  /** One of two tasks that run beside others runs beside all the rest. */
  lemma {:induction false} Regroup<K, T>(log: seq<Update<K, T>>, l: seq<Update<K, T>>, e: seq<Update<K, T>>,
                                         a: seq<Update<K, T>>, b: seq<Update<K, T>>)
    returns (rest: seq<Update<K, T>>)
    requires Interleaves(log, l, e) && Interleaves(l, a, b)
    ensures Interleaves(log, a, rest) && Interleaves(rest, b, e)
  {
    if log == [] {
      rest := [];
    } else {
      var last, log0 := log[|log| - 1], log[..|log| - 1];
      if l != [] && l[|l| - 1] == last && Interleaves(log0, l[..|l| - 1], e) {
        var l0 := l[..|l| - 1];
        if a != [] && a[|a| - 1] == last && Interleaves(l0, a[..|a| - 1], b) {
          rest := Regroup(log0, l0, e, a[..|a| - 1], b);
        } else {
          var rest0 := Regroup(log0, l0, e, a, b[..|b| - 1]);
          rest := rest0 + [last];
          assert rest[..|rest| - 1] == rest0;
        }
      } else {
        var rest0 := Regroup(log0, l, e[..|e| - 1], a, b);
        rest := rest0 + [last];
        assert rest[..|rest| - 1] == rest0;
      }
    }
  }

  // What a log does to one cell

  function RunCell<K(==), T>(combine: (T, T) -> T, log: seq<Update<K, T>>, key: K, init: T): T
  {
    if log == [] then init
    else
      var u := log[|log| - 1];
      var before := RunCell(combine, log[..|log| - 1], key, init);
      if u.key == key then combine(before, u.x) else before
  }

  lemma {:induction false} RunCellJoins<K, T>(combine: (T, T) -> T, l: seq<Update<K, T>>, r: seq<Update<K, T>>, key: K,
                                              init: T)
    ensures RunCell(combine, l + r, key, init) == RunCell(combine, r, key, RunCell(combine, l, key, init))
  {
    if r == [] {
      assert l + r == l;
    } else {
      RunCellJoins(combine, l, r[..|r| - 1], key, init);
      assert (l + r)[..|l + r| - 1] == l + r[..|r| - 1];
    }
  }

  ghost predicate Untouched<K, T>(log: seq<Update<K, T>>, key: K)
  {
    forall i :: 0 <= i < |log| ==> log[i].key != key
  }

  lemma {:induction false} RunCellUntouched<K, T>(combine: (T, T) -> T, log: seq<Update<K, T>>, key: K, init: T)
    requires Untouched(log, key)
    ensures RunCell(combine, log, key, init) == init
  {
    if log != [] {
      RunCellUntouched(combine, log[..|log| - 1], key, init);
    }
  }

  /** A cell that only one of two tasks updates gets what this task alone would give it. */
  lemma {:induction false} InterleavedCell<K, T>(combine: (T, T) -> T, log: seq<Update<K, T>>, l: seq<Update<K, T>>,
                                                 r: seq<Update<K, T>>, key: K, init: T)
    requires Interleaves(log, l, r)
    ensures Untouched(r, key) ==> RunCell(combine, log, key, init) == RunCell(combine, l, key, init)
    ensures Untouched(l, key) ==> RunCell(combine, log, key, init) == RunCell(combine, r, key, init)
  {
    if log != [] {
      var last, log0 := log[|log| - 1], log[..|log| - 1];
      if l != [] && l[|l| - 1] == last && Interleaves(log0, l[..|l| - 1], r) {
        InterleavedCell(combine, log0, l[..|l| - 1], r, key, init);
      } else {
        InterleavedCell(combine, log0, l, r[..|r| - 1], key, init);
      }
    }
  }
}
