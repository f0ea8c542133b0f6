/**
 * Rare-word ("singleton") replacement, `replace_singleton` in both updaters
 * (bin/train_model.py:97-106 and :143-152, identical).
 *
 * The numpy random draw `np.random.randint(0, 2, size=...)` is an explicit
 * `mask`: one bit per singleton occurrence, consumed in position order.
 * The functions here specify the result; the method that computes it in place
 * on a fresh array is `Updater.Updater.ReplaceSingleton`.
 */
module Singleton {

  /** The id a replaced singleton takes: the zeros of `r = np.zeros(...)`. */
  const UnknownId := 0

  /** The keys of `id2singleton`: the ids that the word-to-id map `singleton` assigns. */
  function SingletonIds<K>(singleton: map<K, int>): (ids: set<int>)
    ensures forall id :: id in ids <==> exists w :: w in singleton && singleton[w] == id
  {
    singleton.Values
  }

  /** `is_singleton` as first built: a position is flagged when its id is a singleton id. */
  function Flags(x: seq<int>, ids: set<int>): (f: seq<bool>)
    ensures |f| == |x|
  {
    seq(|x|, i requires 0 <= i < |x| => x[i] in ids)
  }

  /** Number of `true` entries. */
  function CountTrue(b: seq<bool>): nat
  {
    if b == [] then 0 else CountTrue(b[..|b| - 1]) + (if b[|b| - 1] then 1 else 0)
  }

  /** Number of singleton occurrences in `x`: the size of the random draw. */
  function Occurrences(x: seq<int>, ids: set<int>): nat
  {
    CountTrue(Flags(x, ids))
  }

  /**
   * `flags[flags] = mask`: the k-th flagged position receives `mask[k]`,
   * every other position stays false.
   */
  function Scatter(flags: seq<bool>, mask: seq<bool>): (s: seq<bool>)
    requires |mask| == CountTrue(flags)
    ensures |s| == |flags|
  {
    if flags == [] then []
    else if flags[|flags| - 1] then Scatter(flags[..|flags| - 1], mask[..|mask| - 1]) + [mask[|mask| - 1]]
    else Scatter(flags[..|flags| - 1], mask) + [false]
  }

  /** What `replace_singleton(x)` returns when the random draw is `mask`. */
  function Replaced(x: seq<int>, ids: set<int>, mask: seq<bool>): (r: seq<int>)
    requires |mask| == Occurrences(x, ids)
  {
    var hit := Scatter(Flags(x, ids), mask);
    seq(|x|, i requires 0 <= i < |x| => if hit[i] then UnknownId else x[i])
  }

  /** Counting a prefix: one more position adds its own flag, and a prefix never counts more. */
  lemma {:induction false} CountTruePrefix(f: seq<bool>, i: nat)
    requires i <= |f|
    ensures CountTrue(f[..i]) <= CountTrue(f)
    ensures i < |f| ==> CountTrue(f[..i + 1]) == CountTrue(f[..i]) + (if f[i] then 1 else 0)
    decreases |f|
  {
    if i < |f| {
      assert f[..i + 1][..i] == f[..i];
    }
    if i == |f| {
      assert f[..i] == f;
    } else {
      var front := f[..|f| - 1];
      assert front[..i] == f[..i];
      CountTruePrefix(front, i);
    }
  }

  /** One more position of `flags`: the scatter of the longer prefix extends the shorter one by that position's outcome. */
  lemma ScatterStep(flags: seq<bool>, mask: seq<bool>, i: nat)
    requires i < |flags|
    requires CountTrue(flags[..i]) <= |mask| == CountTrue(flags)
    ensures CountTrue(flags[..i + 1]) == CountTrue(flags[..i]) + (if flags[i] then 1 else 0) <= |mask|
    ensures Scatter(flags[..i + 1], mask[..CountTrue(flags[..i + 1])]) ==
      Scatter(flags[..i], mask[..CountTrue(flags[..i])]) + [flags[i] && mask[CountTrue(flags[..i])]]
  {
    CountTruePrefix(flags, i + 1);
    var k := CountTrue(flags[..i]);
    var front := flags[..i + 1];
    assert front[..|front| - 1] == flags[..i];
    assert front[|front| - 1] == flags[i];
    if flags[i] {
      assert CountTrue(front) == k + 1;
      var m := mask[..k + 1];
      assert m[..|m| - 1] == mask[..k];
      assert m[|m| - 1] == mask[k];
    } else {
      assert CountTrue(front) == k;
    }
  }

  /** A sequence with no `true` entry counts zero. */
  lemma {:induction false} CountTrueNone(b: seq<bool>)
    requires forall k :: 0 <= k < |b| ==> !b[k]
    ensures CountTrue(b) == 0
  {
    if b != [] {
      CountTrueNone(b[..|b| - 1]);
    }
  }

  /**
   * The mask is consumed in position order: an unflagged position is never
   * selected, and a flagged position is selected exactly when the mask bit
   * numbered by the flags before it is set.
   */
  lemma {:induction false} ScatterAt(flags: seq<bool>, mask: seq<bool>, i: nat)
    requires |mask| == CountTrue(flags)
    requires i < |flags|
    ensures !flags[i] ==> !Scatter(flags, mask)[i]
    ensures flags[i] ==> CountTrue(flags[..i]) < |mask| && Scatter(flags, mask)[i] == mask[CountTrue(flags[..i])]
    decreases |flags|
  {
    var n := |flags|;
    var front := flags[..n - 1];
    assert front[..i] == flags[..i] by { assert i <= n - 1; }
    if i == n - 1 {
      assert front == flags[..i];
    } else {
      var m := if flags[n - 1] then mask[..|mask| - 1] else mask;
      assert Scatter(flags, mask) == Scatter(front, m) + [if flags[n - 1] then mask[|mask| - 1] else false];
      ScatterAt(front, m, i);
    }
  }

  /** Exactly as many positions are selected for replacement as the mask has set bits. */
  lemma {:induction false} ScatterCount(flags: seq<bool>, mask: seq<bool>)
    requires |mask| == CountTrue(flags)
    ensures CountTrue(Scatter(flags, mask)) == CountTrue(mask)
    decreases |flags|
  {
    if flags != [] {
      var n := |flags|;
      var front := flags[..n - 1];
      var m := if flags[n - 1] then mask[..|mask| - 1] else mask;
      var s := Scatter(front, m);
      ScatterCount(front, m);
      assert (s + [Scatter(flags, mask)[n - 1]])[..|s|] == s;
      if flags[n - 1] {
        assert mask[..|mask| - 1] == m;
      }
    }
  }

  /**
   * Each position of the result: a singleton id whose mask bit (numbered by
   * the singleton occurrences before it) is set becomes the unknown id;
   * everything else keeps its value. The result has the input's length.
   */
  lemma ReplacedAt(x: seq<int>, ids: set<int>, mask: seq<bool>, i: nat)
    requires |mask| == Occurrences(x, ids)
    requires i < |x|
    ensures |Replaced(x, ids, mask)| == |x|
    ensures x[i] !in ids ==> Replaced(x, ids, mask)[i] == x[i]
    ensures x[i] in ids ==>
              && Occurrences(x[..i], ids) < |mask|
              && Replaced(x, ids, mask)[i] == (if mask[Occurrences(x[..i], ids)] then UnknownId else x[i])
  {
    assert Flags(x, ids)[..i] == Flags(x[..i], ids);
    ScatterAt(Flags(x, ids), mask, i);
  }

  /** A position changes only when it holds a singleton id, and then it becomes the unknown id. */
  lemma ChangesOnlySingletons(x: seq<int>, ids: set<int>, mask: seq<bool>)
    requires |mask| == Occurrences(x, ids)
    ensures |Replaced(x, ids, mask)| == |x|
    ensures forall i :: 0 <= i < |x| && Replaced(x, ids, mask)[i] != x[i] ==>
      x[i] in ids && Replaced(x, ids, mask)[i] == UnknownId
  {
    forall i | 0 <= i < |x| && Replaced(x, ids, mask)[i] != x[i]
      ensures x[i] in ids && Replaced(x, ids, mask)[i] == UnknownId
    {
      ReplacedAt(x, ids, mask, i);
    }
  }

  /** The number of positions selected for replacement is the number of set mask bits. */
  lemma SelectedCount(x: seq<int>, ids: set<int>, mask: seq<bool>)
    requires |mask| == Occurrences(x, ids)
    ensures CountTrue(Scatter(Flags(x, ids), mask)) == CountTrue(mask)
    ensures CountTrue(mask) <= |x|
  {
    ScatterCount(Flags(x, ids), mask);
    CountTrueBound(Scatter(Flags(x, ids), mask));
  }

  /** A sequence counts at most its length. */
  lemma {:induction false} CountTrueBound(b: seq<bool>)
    ensures CountTrue(b) <= |b|
  {
    if b != [] {
      CountTrueBound(b[..|b| - 1]);
    }
  }

  /** An all-zero draw replaces nothing. */
  lemma AllFalseMaskIsIdentity(x: seq<int>, ids: set<int>, mask: seq<bool>)
    requires |mask| == Occurrences(x, ids)
    requires forall k :: 0 <= k < |mask| ==> !mask[k]
    ensures Replaced(x, ids, mask) == x
  {
    forall i | 0 <= i < |x| ensures Replaced(x, ids, mask)[i] == x[i] {
      ReplacedAt(x, ids, mask, i);
    }
  }

  /** A sequence without singleton ids draws no bits and comes back unchanged. */
  lemma NoSingletonsIsIdentity(x: seq<int>, ids: set<int>)
    requires forall i :: 0 <= i < |x| ==> x[i] !in ids
    ensures Occurrences(x, ids) == 0
    ensures Replaced(x, ids, []) == x
  {
    CountTrueNone(Flags(x, ids));
    AllFalseMaskIsIdentity(x, ids, []);
  }

  /** An all-one draw replaces every singleton occurrence and nothing else. */
  lemma AllTrueMaskReplacesEverySingleton(x: seq<int>, ids: set<int>, mask: seq<bool>)
    requires |mask| == Occurrences(x, ids)
    requires forall k :: 0 <= k < |mask| ==> mask[k]
    ensures |Replaced(x, ids, mask)| == |x|
    ensures forall i :: 0 <= i < |x| ==>
      Replaced(x, ids, mask)[i] == if x[i] in ids then UnknownId else x[i]
  {
    forall i | 0 <= i < |x|
      ensures Replaced(x, ids, mask)[i] == if x[i] in ids then UnknownId else x[i]
    {
      ReplacedAt(x, ids, mask, i);
    }
  }
}
