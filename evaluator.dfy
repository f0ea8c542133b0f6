/**
 * `LSTMEvaluator` and `CharLSTMEvaluator` (bin/train_model.py:155-184 and
 * :187-218), one class selected by `Variant`, and the validation iterator
 * they read, `SerialIterator(dev, batch_size, repeat=False)` (:265-266).
 */
module Evaluator {
  import opened Wrappers
  import opened Batch
  import opened Classifier

  /**
   * The batches a non-repeating iterator still yields: none once an epoch
   * has ended, otherwise consecutive slices of `batchSize` examples from
   * `position`, the last one holding whatever is left.
   */
  function Remaining(dataset: seq<Example>, batchSize: nat, position: nat, epoch: nat): seq<seq<Example>>
    requires batchSize > 0 && position <= |dataset|
    decreases |dataset| - position
  {
    if epoch > 0 then []
    else if position + batchSize >= |dataset| then [dataset[position..]]
    else [dataset[position..position + batchSize]] + Remaining(dataset, batchSize, position + batchSize, epoch)
  }

  /** Concatenation of a list of batches. */
  function Flatten(batches: seq<seq<Example>>): seq<Example>
  {
    if batches == [] then [] else batches[0] + Flatten(batches[1..])
  }

  /**
   * A fresh pass (epoch 0) yields the examples from `position` on, each
   * exactly once and in order, in batches of at most `batchSize`.
   */
  lemma {:induction false} RemainingCoversDataset(dataset: seq<Example>, batchSize: nat, position: nat)
    requires batchSize > 0 && position <= |dataset|
    ensures Flatten(Remaining(dataset, batchSize, position, 0)) == dataset[position..]
    ensures forall b :: b in Remaining(dataset, batchSize, position, 0) ==> |b| <= batchSize
    decreases |dataset| - position
  {
    var rest := Remaining(dataset, batchSize, position, 0);
    if position + batchSize >= |dataset| {
      assert rest[1..] == [];
    } else {
      var next := position + batchSize;
      RemainingCoversDataset(dataset, batchSize, next);
      assert rest[1..] == Remaining(dataset, batchSize, next, 0);
      assert dataset[position..] == dataset[position..next] + dataset[next..];
    }
  }

  class BatchCursor {
    const dataset: seq<Example>
    const batchSize: nat
    var position: nat
    var epoch: nat

    predicate Valid()
      reads this
    {
      batchSize > 0 && position <= |dataset|
    }

    /** The batches a `for` loop over this iterator would yield from now on. */
    function Batches(): seq<seq<Example>>
      reads this
      requires Valid()
    {
      Remaining(dataset, batchSize, position, epoch)
    }

    constructor (dataset: seq<Example>, batchSize: nat)
      requires batchSize > 0
      ensures Valid()
      ensures this.dataset == dataset && this.batchSize == batchSize
      ensures position == 0 && epoch == 0
    {
      this.dataset := dataset;
      this.batchSize := batchSize;
      position, epoch := 0, 0;
    }

    /** `copy.copy(iterator)`: a new cursor with the same fields. */
    method Copy() returns (c: BatchCursor)
      requires Valid()
      ensures fresh(c) && c.Valid()
      ensures c.dataset == dataset && c.batchSize == batchSize
      ensures c.position == position && c.epoch == epoch
    {
      c := new BatchCursor(dataset, batchSize);
      c.position, c.epoch := position, epoch;
    }

    /** `next(it)`: None stands for `StopIteration`. */
    method Next() returns (b: Option<seq<Example>>)
      requires Valid()
      modifies this
      ensures Valid()
      ensures old(Batches()) == (if b.None? then [] else [b.value] + Batches())
      ensures b.None? ==> position == old(position) && epoch == old(epoch)
    {
      if epoch > 0 {
        return None;
      }
      var i := position;
      var iEnd := i + batchSize;
      var n := |dataset|;
      var batch := dataset[i..if iEnd < n then iEnd else n];
      ghost var before := Batches();
      if iEnd >= n {
        assert batch == dataset[i..] && before == [batch];
        position := 0;
        epoch := epoch + 1;
      } else {
        assert before == [batch] + Remaining(dataset, batchSize, iEnd, 0);
        position := iEnd;
      }
      b := Some(batch);
    }

    /**
     * `for batch in iterator` on the cursor itself, without the copy: the
     * loop yields every remaining batch in order and leaves the cursor
     * yielding nothing, so a second loop over it would see no batch.
     */
    method Drain() returns (yielded: seq<seq<Example>>)
      requires Valid()
      modifies this
      ensures Valid()
      ensures yielded == old(Batches())
      ensures Batches() == []
    {
      yielded := [];
      while true
        invariant Valid()
        invariant old(Batches()) == yielded + Batches()
        decreases |Batches()|
      {
        ghost var pending := Batches();
        var b := Next();
        if b.None? {
          assert yielded + [] == yielded;
          return;
        }
        assert yielded + pending == (yielded + [b.value]) + Batches();
        yielded := yielded + [b.value];
      }
    }
  }

  /**
   * Evaluating `batches` in order: each batch's evaluation inputs go through
   * the target with `train=False`; the first error stops the pass.
   */
  function Sweep<Y>(predictor: (Inputs, bool) -> seq<Y>, lossfun: (Y, seq<int>) -> real,
                    accfun: (Y, seq<int>) -> real, computeAccuracy: bool,
                    variant: Variant, unit: nat, batches: seq<seq<Example>>): Result<seq<Aggregate>, CallError>
  {
    if batches == [] then Success([])
    else
      var out := Outcome(lossfun, accfun, computeAccuracy,
                         predictor(EvaluationInputs(variant, unit, batches[0]), false), Labels(batches[0]));
      if out.Failure? then Failure(out.error)
      else Prepend(out.value, Sweep(predictor, lossfun, accfun, computeAccuracy, variant, unit, batches[1..]))
  }

  function Prepend(a: Aggregate, r: Result<seq<Aggregate>, CallError>): Result<seq<Aggregate>, CallError>
  {
    if r.Failure? then r else Success([a] + r.value)
  }

  function PrependAll(done: seq<Aggregate>, r: Result<seq<Aggregate>, CallError>): Result<seq<Aggregate>, CallError>
  {
    if r.Failure? then r else Success(done + r.value)
  }

  /** A successful pass gives one aggregate per batch, each the outcome of evaluating that batch. */
  lemma {:induction false} SweepPerBatch<Y>(predictor: (Inputs, bool) -> seq<Y>, lossfun: (Y, seq<int>) -> real,
                                            accfun: (Y, seq<int>) -> real, computeAccuracy: bool,
                                            variant: Variant, unit: nat, batches: seq<seq<Example>>)
    ensures var r := Sweep(predictor, lossfun, accfun, computeAccuracy, variant, unit, batches);
      r.Success? ==>
        && |r.value| == |batches|
        && forall i :: 0 <= i < |batches| ==>
          Outcome(lossfun, accfun, computeAccuracy,
                  predictor(EvaluationInputs(variant, unit, batches[i]), false), Labels(batches[i]))
          == Success(r.value[i])
  {
    if batches != [] {
      SweepPerBatch(predictor, lossfun, accfun, computeAccuracy, variant, unit, batches[1..]);
    }
  }

  /** One batch of a pass: its outcome either ends the pass or joins the aggregates gathered so far. */
  lemma SweepStep<Y>(predictor: (Inputs, bool) -> seq<Y>, lossfun: (Y, seq<int>) -> real,
                     accfun: (Y, seq<int>) -> real, computeAccuracy: bool,
                     variant: Variant, unit: nat, batches: seq<seq<Example>>, done: seq<Aggregate>)
    requires batches != []
    ensures var out := Outcome(lossfun, accfun, computeAccuracy,
                               predictor(EvaluationInputs(variant, unit, batches[0]), false), Labels(batches[0]));
      PrependAll(done, Sweep(predictor, lossfun, accfun, computeAccuracy, variant, unit, batches)) ==
        if out.Failure? then Failure(out.error)
        else PrependAll(done + [out.value], Sweep(predictor, lossfun, accfun, computeAccuracy, variant, unit, batches[1..]))
  {
    var later := Sweep(predictor, lossfun, accfun, computeAccuracy, variant, unit, batches[1..]);
    if later.Success? {
      var out := Outcome(lossfun, accfun, computeAccuracy,
                         predictor(EvaluationInputs(variant, unit, batches[0]), false), Labels(batches[0]));
      if out.Success? {
        assert (done + [out.value]) + later.value == done + ([out.value] + later.value);
      }
    }
  }

  class Evaluator<Y> {
    const variant: Variant
    const unit: nat
    /** `self._iterators['main']`. */
    const dataIterator: BatchCursor
    /** `self._targets['main']`. */
    const target: Classifier<Y>

    constructor (dataIterator: BatchCursor, target: Classifier<Y>, variant: Variant, unit: nat)
      ensures this.dataIterator == dataIterator && this.target == target
      ensures this.variant == variant && this.unit == unit
    {
      this.dataIterator := dataIterator;
      this.target := target;
      this.variant := variant;
      this.unit := unit;
    }

    /**
     * `evaluate()`: iterate over a copy of the iterator, preparing the raw
     * tokens of every batch (no singleton replacement) with fresh zero
     * states and calling the target with `train=False`. The iterator itself
     * is not advanced, so every call sees the whole remaining validation set.
     */
    method Evaluate() returns (r: Result<seq<Aggregate>, CallError>)
      requires dataIterator.Valid()
      modifies target`y, target`loss, target`accuracy
      ensures dataIterator.position == old(dataIterator.position) && dataIterator.epoch == old(dataIterator.epoch)
      ensures r == Sweep(target.predictor, target.lossfun, target.accfun, target.computeAccuracy,
                         variant, unit, dataIterator.Batches())
    {
      var predictor, lossfun, accfun, computeAccuracy := target.predictor, target.lossfun, target.accfun, target.computeAccuracy;
      var it := dataIterator.Copy();
      ghost var whole := Sweep(predictor, lossfun, accfun, computeAccuracy, variant, unit, it.Batches());
      assert whole.Success? ==> [] + whole.value == whole.value;
      var done: seq<Aggregate> := [];
      while true
        invariant fresh(it) && it.Valid()
        invariant target.computeAccuracy == computeAccuracy
        invariant whole == PrependAll(done, Sweep(predictor, lossfun, accfun, computeAccuracy, variant, unit, it.Batches()))
        decreases |it.Batches()|
      {
        ghost var pending := it.Batches();
        var b := it.Next();
        if b.None? {
          assert done + [] == done;
          break;
        }
        assert pending[0] == b.value && pending[1..] == it.Batches();
        SweepStep(predictor, lossfun, accfun, computeAccuracy, variant, unit, pending, done);
        var xs := EvaluationInputs(variant, unit, b.value);
        var ts := Labels(b.value);
        var out := target.Call(xs, ts, false);
        if out.Failure? {
          return Failure(out.error);
        }
        done := done + [out.value];
      }
      r := Success(done);
    }

    /**
     * The trainer running this extension twice with no training step in
     * between: because `evaluate` iterates a copy, the second pass sees the
     * same batches as the first and gives the same result.
     */
    method EvaluateTwice() returns (first: Result<seq<Aggregate>, CallError>, second: Result<seq<Aggregate>, CallError>)
      requires dataIterator.Valid()
      modifies target`y, target`loss, target`accuracy
      ensures first == second
    {
      first := Evaluate();
      second := Evaluate();
    }
  }
}
