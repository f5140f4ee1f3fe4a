/**
 * A JavaScript `Set` remembers the order in which its elements were first
 * added, and spreading it (`[...set]`) yields them in that order. Here such a
 * set of strings is a sequence without repeats; `Add` is `Set.prototype.add`.
 */
module OrderedSets {

  predicate Distinct(s: seq<string>) {
    forall i, j :: 0 <= i < j < |s| ==> s[i] != s[j]
  }

  /** Position of the first occurrence of `x` in `xs`. */
  function IndexOf(xs: seq<string>, x: string): (i: nat)
    requires x in xs
    ensures i < |xs| && xs[i] == x
    ensures forall k :: 0 <= k < i ==> xs[k] != x
  {
    if xs[0] == x then 0 else 1 + IndexOf(xs[1..], x)
  }

  /** `Set.prototype.add`: a value already present leaves the set as it is. */
  function Add(s: seq<string>, x: string): seq<string> {
    if x in s then s else s + [x]
  }

  /**
   * `s` is what `[...set]` yields after the values `added` were added, in
   * that order, to an empty `Set`: every added value once, in the order of
   * its first addition.
   */
  ghost predicate InsertionOrderOf(s: seq<string>, added: seq<string>) {
    && Distinct(s)
    && (forall x :: x in s <==> x in added)
    && (forall i, j :: 0 <= i < j < |s| ==> IndexOf(added, s[i]) < IndexOf(added, s[j]))
  }

  lemma {:induction false} IndexOfAppend(xs: seq<string>, ys: seq<string>, x: string)
    requires x in xs
    ensures x in xs + ys && IndexOf(xs + ys, x) == IndexOf(xs, x)
  {
    if xs[0] != x {
      assert (xs + ys)[1..] == xs[1..] + ys;
      IndexOfAppend(xs[1..], ys, x);
    }
  }

  /** Adding one more value keeps the sequence the set's insertion order. */
  lemma {:induction false} AddKeepsInsertionOrder(s: seq<string>, added: seq<string>, x: string)
    requires InsertionOrderOf(s, added)
    ensures InsertionOrderOf(Add(s, x), added + [x])
  {
    var added' := added + [x];
    forall y | y in added
      ensures IndexOf(added', y) == IndexOf(added, y)
    {
      IndexOfAppend(added, [x], y);
    }
    if x !in s {
      assert x !in added;
      var s' := s + [x];
      assert IndexOf(added', x) == |added|;
      forall i, j | 0 <= i < j < |s'|
        ensures IndexOf(added', s'[i]) < IndexOf(added', s'[j])
      {
        assert s'[i] in s;
        if j < |s| {
          assert s'[j] in s;
        }
      }
    }
  }

  lemma EmptyIffNothingAdded(s: seq<string>, added: seq<string>)
    requires InsertionOrderOf(s, added)
    ensures s == [] <==> added == []
  {
    if added != [] {
      assert added[0] in s;
    }
    if s != [] {
      assert s[0] in added;
    }
  }

  /** The first element of the set is the first value ever added. */
  lemma HeadIsFirstAdded(s: seq<string>, added: seq<string>)
    requires InsertionOrderOf(s, added) && s != []
    ensures added != [] && s[0] == added[0]
  {
    assert s[0] in added;
    assert added[0] in s;
    forall j | 0 < j < |s|
      ensures s[j] != added[0]
    {
      assert IndexOf(added, s[0]) < IndexOf(added, s[j]);
    }
  }

  /** The insertion order of a sequence of additions is unique. */
  lemma {:induction false} InsertionOrderUnique(s1: seq<string>, s2: seq<string>, added: seq<string>)
    requires InsertionOrderOf(s1, added) && InsertionOrderOf(s2, added)
    ensures s1 == s2
    decreases |s1| + |s2|
  {
    if s1 != [] && s2 != [] {
      HeadIsFirstAdded(s1, added);
      HeadIsFirstAdded(s2, added);
      RestIsInsertionOrder(s1, added);
      RestIsInsertionOrder(s2, added);
      InsertionOrderUnique(s1[1..], s2[1..], Remove(added, s1[0]));
      assert s1 == [s1[0]] + s1[1..] && s2 == [s2[0]] + s2[1..];
    } else {
      EmptyIffNothingAdded(s1, added);
      EmptyIffNothingAdded(s2, added);
    }
  }

  /** `xs` with every occurrence of `x` taken out. */
  function Remove(xs: seq<string>, x: string): (r: seq<string>)
    ensures forall y :: y in r <==> y in xs && y != x
    ensures |r| <= |xs|
  {
    if xs == [] then []
    else if xs[0] == x then Remove(xs[1..], x)
    else [xs[0]] + Remove(xs[1..], x)
  }

  lemma {:induction false} IndexOfRemove(xs: seq<string>, x: string, y: string, z: string)
    requires y in xs && z in xs && y != x && z != x
    ensures y in Remove(xs, x) && z in Remove(xs, x)
    ensures IndexOf(xs, y) < IndexOf(xs, z) <==> IndexOf(Remove(xs, x), y) < IndexOf(Remove(xs, x), z)
  {
    if xs[0] == x {
      IndexOfRemove(xs[1..], x, y, z);
    } else if xs[0] != y && xs[0] != z {
      IndexOfRemove(xs[1..], x, y, z);
    }
  }

  lemma {:induction false} RestIsInsertionOrder(s: seq<string>, added: seq<string>)
    requires InsertionOrderOf(s, added) && s != []
    ensures InsertionOrderOf(s[1..], Remove(added, s[0]))
  {
    var r := Remove(added, s[0]);
    forall y
      ensures y in s[1..] <==> y in r
    {
      if y in s[1..] {
        var k :| 1 <= k < |s| && s[k] == y;
      }
      if y in r {
        assert y in s;
        var k :| 0 <= k < |s| && s[k] == y;
      }
    }
    forall i, j | 0 <= i < j < |s[1..]|
      ensures IndexOf(r, s[1..][i]) < IndexOf(r, s[1..][j])
    {
      assert s[1..][i] == s[i + 1] && s[1..][j] == s[j + 1];
      IndexOfRemove(added, s[0], s[i + 1], s[j + 1]);
    }
  }
}
