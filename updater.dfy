/**
 * `LSTMUpdater` and `CharLSTMUpdater` (bin/train_model.py:66-106 and
 * :109-152), one class selected by `Variant`. The training iterator is not
 * modelled: `UpdateCore` receives the batch its `next()` returned, and the
 * random draws of `replace_singleton` as one mask per example.
 */
module Updater {
  import opened Wrappers
  import opened Batch
  import opened Singleton
  import opened Classifier

  class Updater<K(==), Y> {
    const variant: Variant
    const unit: nat
    const singleton: map<K, int>
    /** The keys of `id2singleton`, the only thing `replace_singleton` looks up. */
    const id2singleton: set<int>
    /** `optimizer.target`. */
    const target: Classifier<Y>

    constructor (variant: Variant, unit: nat, singleton: map<K, int>, target: Classifier<Y>)
      ensures this.variant == variant && this.unit == unit && this.singleton == singleton && this.target == target
      ensures id2singleton == SingletonIds(singleton)
    {
      this.variant := variant;
      this.unit := unit;
      this.singleton := singleton;
      this.id2singleton := SingletonIds(singleton);
      this.target := target;
    }

    /**
     * `replace_singleton(x)`: copy `x` into a new array, flag the singleton
     * ids, overwrite the flags with the draw (`is_singleton[is_singleton] =
     * bool_mask`), then write the unknown id at every remaining flag.
     */
    method ReplaceSingleton(x: seq<int>, mask: seq<bool>) returns (xArray: array<int>)
      requires |mask| == Occurrences(x, id2singleton)
      ensures fresh(xArray) && xArray.Length == |x|
      ensures xArray[..] == Replaced(x, id2singleton, mask)
    {
      var n := |x|;
      xArray := new int[n](i => if 0 <= i < n then x[i] else 0);
      var isSingleton := new bool[n](i => if 0 <= i < n then x[i] in id2singleton else false);
      assert isSingleton[..] == Flags(x, id2singleton);
      assert xArray[..] == x;
      AssignMasked(isSingleton, mask);
      ZeroWhere(xArray, isSingleton);
      assert xArray[..] == Replaced(x, id2singleton, mask);
    }

    /**
     * `update_core()` on the batch `next()` returned: replace singletons in
     * every example's tokens, take the labels and (for Char) the characters
     * as they are, build zero states of shape (1, N, W) and call the target
     * in training mode. `cleargrads`, `backward` and `update` are left out.
     */
    method UpdateCore(batch: seq<Example>, masks: seq<seq<bool>>) returns (inputs: Inputs, r: Result<Aggregate, CallError>)
      requires MasksFit(batch, id2singleton, masks)
      modifies target`y, target`loss, target`accuracy
      ensures inputs == TrainingInputs(variant, unit, id2singleton, batch, masks)
      ensures target.y == Some(target.predictor(inputs, true))
      ensures target.loss == LossField(target.lossfun, Zip(target.predictor(inputs, true), Labels(batch)))
      ensures target.accuracy == AccuracyField(target.accfun, target.computeAccuracy, Zip(target.predictor(inputs, true), Labels(batch)))
      ensures r == Outcome(target.lossfun, target.accfun, target.computeAccuracy,
                           target.predictor(inputs, true), Labels(batch))
    {
      var xsWithUnk: seq<seq<int>> := [];
      var i := 0;
      while i < |batch|
        invariant 0 <= i <= |batch|
        invariant |xsWithUnk| == i
        invariant forall j :: 0 <= j < i ==> xsWithUnk[j] == Replaced(batch[j].tokens, id2singleton, masks[j])
      {
        var a := ReplaceSingleton(batch[i].tokens, masks[i]);
        xsWithUnk := xsWithUnk + [a[..]];
        i := i + 1;
      }
      assert xsWithUnk == ReplacedTokens(batch, id2singleton, masks);
      var ts := Labels(batch);
      var w := StateWidth(variant, unit);
      var hx := Zeros(1, |xsWithUnk|, w);
      var cx := Zeros(1, |xsWithUnk|, w);
      var xxs := if variant == Char then Some(Characters(batch)) else None;
      inputs := Inputs(xsWithUnk, hx, cx, xxs);
      r := target.Call(inputs, ts, true);
    }
  }

  /** `is_singleton[is_singleton] = bool_mask`: the k-th set flag takes the k-th mask bit. */
  method AssignMasked(flags: array<bool>, mask: seq<bool>)
    requires |mask| == CountTrue(flags[..])
    modifies flags
    ensures flags[..] == Scatter(old(flags[..]), mask)
  {
    ghost var f := flags[..];
    var n := flags.Length;
    var i, k := 0, 0;
    while i < n
      invariant 0 <= i <= n && k == CountTrue(f[..i]) <= |mask|
      invariant flags[..i] == Scatter(f[..i], mask[..k])
      invariant forall j :: i <= j < n ==> flags[j] == f[j]
    {
      ScatterStep(f, mask, i);
      ghost var done := flags[..i];
      if flags[i] {
        flags[i] := mask[k];
        k := k + 1;
      }
      assert flags[..i + 1] == done + [flags[i]];
      i := i + 1;
    }
    assert f[..n] == f && flags[..n] == flags[..];
    assert mask[..k] == mask;
  }

  /** `x_array[is_singleton] = r[is_singleton]` with `r` all zeros. */
  method ZeroWhere(xArray: array<int>, hit: array<bool>)
    requires xArray.Length == hit.Length
    modifies xArray
    ensures forall j :: 0 <= j < xArray.Length ==> xArray[j] == (if hit[j] then UnknownId else old(xArray[j]))
  {
    var i := 0;
    while i < xArray.Length
      invariant 0 <= i <= xArray.Length
      invariant forall j :: 0 <= j < i ==> xArray[j] == (if hit[j] then UnknownId else old(xArray[j]))
      invariant forall j :: i <= j < xArray.Length ==> xArray[j] == old(xArray[j])
    {
      if hit[i] {
        xArray[i] := UnknownId;
      }
      i := i + 1;
    }
  }
}
