/** Order-preserving deduplication (`list(dict.fromkeys(xs))`) and the
    sequence facts the scanner relies on. */
module Seqs {
  import opened Wrappers

  predicate NoDuplicates<T(==)>(xs: seq<T>) {
    forall i, j :: 0 <= i < j < |xs| ==> xs[i] != xs[j]
  }

  /** The position of the first occurrence of `x` in `xs`. */
  function FirstIndex<T(==)>(xs: seq<T>, x: T): (i: nat)
    requires x in xs
    ensures i < |xs| && xs[i] == x
    ensures forall k :: 0 <= k < i ==> xs[k] != x
  {
    if xs[0] == x then 0 else 1 + FirstIndex(xs[1..], x)
  }

  /** The elements of `xs` in order, each kept at its first occurrence:
      what `dict.fromkeys` keeps of a list. */
  function Dedup<T(==,!new)>(xs: seq<T>): (r: seq<T>)
    ensures forall x :: x in r <==> x in xs
    ensures NoDuplicates(r)
    ensures |r| <= |xs|
  {
    if xs == [] then []
    else
      var d := Dedup(xs[..|xs| - 1]);
      var x := xs[|xs| - 1];
      if x in d then d else d + [x]
  }

  /** Deduplication keeps first-occurrence order: an element comes before
      another in the result exactly when it first occurs earlier. */
  lemma {:induction false} DedupKeepsFirstOccurrenceOrder<T(!new)>(xs: seq<T>)
    ensures forall i, j :: 0 <= i < j < |Dedup(xs)| ==>
              FirstIndex(xs, Dedup(xs)[i]) < FirstIndex(xs, Dedup(xs)[j])
  {
    if xs != [] {
      var p := xs[..|xs| - 1];
      var x := xs[|xs| - 1];
      var d := Dedup(p);
      DedupKeepsFirstOccurrenceOrder(p);
      forall y | y in p ensures FirstIndex(xs, y) == FirstIndex(p, y) {
        FirstIndexOfPrefix(p, x, y);
      }
      forall i, j | 0 <= i < j < |Dedup(xs)|
        ensures FirstIndex(xs, Dedup(xs)[i]) < FirstIndex(xs, Dedup(xs)[j])
      {
        if j < |d| {
          assert Dedup(xs)[i] == d[i] && Dedup(xs)[j] == d[j];
        } else {
          assert x !in d && Dedup(xs)[j] == x && Dedup(xs)[i] == d[i];
          assert x !in p;
          assert FirstIndex(xs, x) == |p|;
        }
      }
    }
  }

  lemma FirstIndexOfPrefix<T>(p: seq<T>, x: T, y: T)
    requires y in p
    ensures FirstIndex(p + [x], y) == FirstIndex(p, y)
  {
    var i := FirstIndex(p, y);
    var j := FirstIndex(p + [x], y);
    assert (p + [x])[i] == y;
    assert p[j] == y || j == |p|;
  }

  /** Deduplicating a list that has no repeats changes nothing. */
  lemma {:induction false} DedupOfDistinct<T(!new)>(xs: seq<T>)
    requires NoDuplicates(xs)
    ensures Dedup(xs) == xs
  {
    if xs != [] {
      var p := xs[..|xs| - 1];
      assert NoDuplicates(p);
      DedupOfDistinct(p);
      assert xs[|xs| - 1] !in p;
      assert p + [xs[|xs| - 1]] == xs;
    }
  }

  /** The parts joined one after another. */
  function Flatten<T>(parts: seq<seq<T>>): (r: seq<T>)
  {
    if parts == [] then [] else Flatten(parts[..|parts| - 1]) + parts[|parts| - 1]
  }

  /** An element is in the joined sequence exactly when it is in one part. */
  lemma {:induction false} FlattenMembers<T>(parts: seq<seq<T>>, x: T)
    ensures x in Flatten(parts) <==> exists i :: 0 <= i < |parts| && x in parts[i]
  {
    if parts != [] {
      var n := |parts| - 1;
      var pre := parts[..n];
      FlattenMembers(pre, x);
      assert Flatten(parts) == Flatten(pre) + parts[n];
      if x in Flatten(pre) {
        var i :| 0 <= i < n && x in pre[i];
        assert parts[i] == pre[i];
      }
      if exists i :: 0 <= i < |parts| && x in parts[i] {
        var i :| 0 <= i < |parts| && x in parts[i];
        if i < n {
          assert pre[i] == parts[i];
        }
      }
    }
  }

  /** The present results of `f` over `xs`, in order: a loop that appends
      what each element yields, if anything. */
  function Gather<T, U>(xs: seq<T>, f: T -> Option<U>): (r: seq<U>)
    ensures |r| <= |xs|
  {
    if xs == [] then []
    else
      var y := f(xs[|xs| - 1]);
      Gather(xs[..|xs| - 1], f) + (if y.Some? then [y.value] else [])
  }

  /** Gathering one more element of a prefix appends what it yields. */
  lemma GatherStep<T, U>(xs: seq<T>, f: T -> Option<U>, i: nat)
    requires i < |xs|
    ensures Gather(xs[..i + 1], f) == Gather(xs[..i], f) + (if f(xs[i]).Some? then [f(xs[i]).value] else [])
  {
    assert xs[..i + 1][..i] == xs[..i];
  }

  /** A value is gathered exactly when some element yields it. */
  lemma {:induction false} GatherMembers<T, U>(xs: seq<T>, f: T -> Option<U>, y: U)
    ensures y in Gather(xs, f) <==> exists i :: 0 <= i < |xs| && f(xs[i]) == Some(y)
  {
    if xs != [] {
      var pre := xs[..|xs| - 1];
      GatherMembers(pre, f, y);
      if y in Gather(pre, f) {
        var i :| 0 <= i < |pre| && f(pre[i]) == Some(y);
        assert xs[i] == pre[i];
      }
      if exists i :: 0 <= i < |xs| && f(xs[i]) == Some(y) {
        var i :| 0 <= i < |xs| && f(xs[i]) == Some(y);
        if i < |pre| {
          assert xs[i] == pre[i];
        }
      }
    }
  }

  /** Gathering over two blocks is gathering over each, in turn. */
  lemma {:induction false} GatherAppend<T, U>(a: seq<T>, b: seq<T>, f: T -> Option<U>)
    ensures Gather(a + b, f) == Gather(a, f) + Gather(b, f)
  {
    if b == [] {
      assert a + b == a;
    } else {
      var pre := b[..|b| - 1];
      GatherAppend(a, pre, f);
      assert (a + b)[..|a + b| - 1] == a + pre;
      assert (a + b)[|a + b| - 1] == b[|b| - 1];
    }
  }

  /** Gathering keeps order: of two gathered values, the earlier one comes
      from an earlier element. */
  lemma {:induction false} GatherOrder<T, U>(xs: seq<T>, f: T -> Option<U>, i: nat, j: nat)
    requires i < j < |Gather(xs, f)|
    ensures exists a, b :: 0 <= a < b < |xs| && f(xs[a]) == Some(Gather(xs, f)[i]) && f(xs[b]) == Some(Gather(xs, f)[j])
  {
    var n := |xs| - 1;
    var pre := xs[..n];
    var g := Gather(pre, f);
    assert Gather(xs, f) == g + (if f(xs[n]).Some? then [f(xs[n]).value] else []);
    if j < |g| {
      GatherOrder(pre, f, i, j);
      var a, b :| 0 <= a < b < |pre| && f(pre[a]) == Some(g[i]) && f(pre[b]) == Some(g[j]);
      assert xs[a] == pre[a] && xs[b] == pre[b];
    } else {
      GatherMembers(pre, f, g[i]);
      var a :| 0 <= a < |pre| && f(pre[a]) == Some(g[i]);
      assert xs[a] == pre[a];
      assert f(xs[n]) == Some(Gather(xs, f)[j]);
    }
  }

  /** `f` over every element of `xs` in order, or the index of the first
      element for which it yields nothing. */
  function MapAll<T, U>(xs: seq<T>, f: T -> Option<U>): (r: Result<seq<U>, nat>)
    ensures r.Ok? ==> |r.value| == |xs| && forall i :: 0 <= i < |xs| ==> f(xs[i]) == Some(r.value[i])
    ensures r.Err? ==> r.error < |xs| && f(xs[r.error]).None?
    ensures r.Err? ==> forall i :: 0 <= i < r.error ==> f(xs[i]).Some?
  {
    if xs == [] then Ok([])
    else
      var n := |xs| - 1;
      var pre := xs[..n];
      assert forall i :: 0 <= i < n ==> pre[i] == xs[i];
      match MapAll(pre, f)
      case Err(k) => Err(k)
      case Ok(prev) =>
        match f(xs[n])
        case None => Err(n)
        case Some(y) => Ok(prev + [y])
  }

  /** The union of the sets `f` gives the elements: a loop adding each
      element's contribution to a set. */
  function UnionOf<T, U>(xs: seq<T>, f: T -> set<U>): set<U>
  {
    if xs == [] then {} else UnionOf(xs[..|xs| - 1], f) + f(xs[|xs| - 1])
  }

  /** A value is in the union exactly when some element contributes it. */
  lemma {:induction false} UnionOfMembers<T, U>(xs: seq<T>, f: T -> set<U>, y: U)
    ensures y in UnionOf(xs, f) <==> exists x :: x in xs && y in f(x)
  {
    if xs != [] {
      var pre := xs[..|xs| - 1];
      UnionOfMembers(pre, f, y);
      assert xs == pre + [xs[|xs| - 1]];
    }
  }
}
