/**
 * `Classifier.__call__` (bin/train_model.py:38-63): run the predictor, sum the
 * per-sequence losses over `zip(y, t)`, accumulate the length-weighted
 * accuracy and the token count, and report `accuracy / count`.
 *
 * `lossfun` (softmax cross entropy) and `accfun` (accuracy) are foreign code:
 * they are arbitrary real-valued functions of a score sequence and its labels.
 * Scores have the type parameter `Y`; labels are `seq<int>`.
 */
module Classifier {
  import opened Wrappers
  import opened Batch

  /** The pairs visited by `zip(y, t)`, which stops at the shorter list. */
  function Zip<Y>(y: seq<Y>, t: seq<seq<int>>): (ps: seq<(Y, seq<int>)>)
    ensures |ps| == if |y| < |t| then |y| else |t|
    ensures forall i :: 0 <= i < |ps| ==> ps[i] == (y[i], t[i])
  {
    var n := if |y| < |t| then |y| else |t|;
    seq(n, i requires 0 <= i < n => (y[i], t[i]))
  }

  /** Σ lossfun(yi, ti): a plain sum, not divided by the batch size. */
  function LossSum<Y>(lossfun: (Y, seq<int>) -> real, ps: seq<(Y, seq<int>)>): real
  {
    if ps == [] then 0.0
    else LossSum(lossfun, ps[..|ps| - 1]) + lossfun(ps[|ps| - 1].0, ps[|ps| - 1].1)
  }

  /** `accfun(yi, ti) * len(ti)`: a sequence's accuracy weighted by its length. */
  function Weighted<Y>(accfun: (Y, seq<int>) -> real, p: (Y, seq<int>)): real
  {
    accfun(p.0, p.1) * (|p.1| as real)
  }

  /** Σ accfun(yi, ti) * len(ti). */
  function AccuracySum<Y>(accfun: (Y, seq<int>) -> real, ps: seq<(Y, seq<int>)>): real
  {
    if ps == [] then 0.0
    else AccuracySum(accfun, ps[..|ps| - 1]) + Weighted(accfun, ps[|ps| - 1])
  }

  /** Σ len(ti). */
  function TokenCount<Y>(ps: seq<(Y, seq<int>)>): nat
  {
    if ps == [] then 0 else TokenCount(ps[..|ps| - 1]) + |ps[|ps| - 1].1|
  }

  /** The triple `(loss, accuracy, count)` that `__call__` returns, with the accuracy it reports. */
  datatype Aggregate = Aggregate(loss: Option<real>, accuracy: Option<real>, count: nat, reported: Option<real>)

  /** The two ways `accuracy / count` at line 62 fails. */
  datatype CallError =
    | NoPairs         // no (yi, ti) pair: `self.accuracy` is still None
    | ZeroTokenCount  // every zipped label sequence is empty: division by zero

  /** The loss left in `self.loss`: None when `zip` yields nothing. */
  function LossField<Y>(lossfun: (Y, seq<int>) -> real, ps: seq<(Y, seq<int>)>): Option<real>
  {
    if ps == [] then None else Some(LossSum(lossfun, ps))
  }

  /** The accuracy sum left in `self.accuracy`. */
  function AccuracyField<Y>(accfun: (Y, seq<int>) -> real, computeAccuracy: bool, ps: seq<(Y, seq<int>)>): Option<real>
  {
    if computeAccuracy && ps != [] then Some(AccuracySum(accfun, ps)) else None
  }

  /** What one call with predictions `y` and labels `t` returns, or the error it raises. */
  function Outcome<Y>(lossfun: (Y, seq<int>) -> real, accfun: (Y, seq<int>) -> real, computeAccuracy: bool,
                      y: seq<Y>, t: seq<seq<int>>): Result<Aggregate, CallError>
  {
    var ps := Zip(y, t);
    if !computeAccuracy then Success(Aggregate(LossField(lossfun, ps), None, 0, None))
    else if ps == [] then Failure(NoPairs)
    else if TokenCount(ps) == 0 then Failure(ZeroTokenCount)
    else
      var acc := AccuracySum(accfun, ps);
      Success(Aggregate(LossField(lossfun, ps), Some(acc), TokenCount(ps), Some(acc / TokenCount(ps) as real)))
  }

  class Classifier<Y> {
    const predictor: (Inputs, bool) -> seq<Y>
    const lossfun: (Y, seq<int>) -> real
    const accfun: (Y, seq<int>) -> real
    var computeAccuracy: bool
    var y: Option<seq<Y>>
    var loss: Option<real>
    var accuracy: Option<real>

    constructor (predictor: (Inputs, bool) -> seq<Y>, lossfun: (Y, seq<int>) -> real, accfun: (Y, seq<int>) -> real)
      ensures this.predictor == predictor && this.lossfun == lossfun && this.accfun == accfun
      ensures computeAccuracy
      ensures y == None && loss == None && accuracy == None
    {
      this.predictor := predictor;
      this.lossfun := lossfun;
      this.accfun := accfun;
      computeAccuracy := true;
      y, loss, accuracy := None, None, None;
    }

    /** `__call__(*x, t, train=train)`. */
    method Call(x: Inputs, t: seq<seq<int>>, train: bool) returns (r: Result<Aggregate, CallError>)
      modifies this`y, this`loss, this`accuracy
      ensures y == Some(predictor(x, train))
      ensures loss == LossField(lossfun, Zip(predictor(x, train), t))
      ensures accuracy == AccuracyField(accfun, computeAccuracy, Zip(predictor(x, train), t))
      ensures r == Outcome(lossfun, accfun, computeAccuracy, predictor(x, train), t)
    {
      y, loss, accuracy := None, None, None;
      var scores := predictor(x, train);
      y := Some(scores);
      var ps := Zip(scores, t);
      AccumulateLoss(ps);
      var count := 0;
      if computeAccuracy {
        count := AccumulateAccuracy(ps);
        if accuracy.None? {
          return Failure(NoPairs);
        } else if count == 0 {
          return Failure(ZeroTokenCount);
        }
        r := Success(Aggregate(loss, accuracy, count, Some(accuracy.value / count as real)));
      } else {
        r := Success(Aggregate(loss, accuracy, count, None));
      }
    }

    /** The loss loop: `self.loss` starts from the first pair's loss and adds each next one. */
    method AccumulateLoss(ps: seq<(Y, seq<int>)>)
      requires loss == None
      modifies this`loss
      ensures loss == LossField(lossfun, ps)
    {
      var i := 0;
      while i < |ps|
        invariant 0 <= i <= |ps|
        invariant loss == LossField(lossfun, ps[..i])
      {
        assert ps[..i + 1][..i] == ps[..i] && ps[..i + 1][i] == ps[i];
        var (yi, ti) := ps[i];
        assert LossSum(lossfun, ps[..i + 1]) == LossSum(lossfun, ps[..i]) + lossfun(yi, ti);
        if loss.Some? {
          loss := Some(loss.value + lossfun(yi, ti));
        } else {
          loss := Some(lossfun(yi, ti));
        }
        i := i + 1;
      }
      assert ps[..|ps|] == ps;
    }

    /** The accuracy loop: `self.accuracy` accumulates `accfun(yi, ti) * len(ti)`, `count` the lengths. */
    method AccumulateAccuracy(ps: seq<(Y, seq<int>)>) returns (count: nat)
      requires accuracy == None
      modifies this`accuracy
      ensures accuracy == AccuracyField(accfun, true, ps)
      ensures count == TokenCount(ps)
    {
      count := 0;
      var i := 0;
      while i < |ps|
        invariant 0 <= i <= |ps|
        invariant accuracy == AccuracyField(accfun, true, ps[..i])
        invariant count == TokenCount(ps[..i])
      {
        assert ps[..i + 1][..i] == ps[..i] && ps[..i + 1][i] == ps[i];
        var (yi, ti) := ps[i];
        assert AccuracySum(accfun, ps[..i + 1]) == AccuracySum(accfun, ps[..i]) + Weighted(accfun, (yi, ti));
        assert Weighted(accfun, (yi, ti)) == accfun(yi, ti) * (|ti| as real);
        assert TokenCount(ps[..i + 1]) == TokenCount(ps[..i]) + |ti|;
        if accuracy.Some? {
          accuracy := Some(accuracy.value + accfun(yi, ti) * (|ti| as real));
          count := count + |ti|;
        } else {
          accuracy := Some(accfun(yi, ti) * (|ti| as real));
          count := count + |ti|;
        }
        i := i + 1;
      }
      assert ps[..|ps|] == ps;
    }
  }

  /** Zipping two batches whose first halves are aligned zips each half on its own. */
  lemma ZipAppend<Y>(y1: seq<Y>, t1: seq<seq<int>>, y2: seq<Y>, t2: seq<seq<int>>)
    requires |y1| == |t1|
    ensures Zip(y1 + y2, t1 + t2) == Zip(y1, t1) + Zip(y2, t2)
  {
  }

  /** Losses of concatenated pair lists add up. */
  lemma {:induction false} LossSumAppend<Y>(lossfun: (Y, seq<int>) -> real, ps: seq<(Y, seq<int>)>, qs: seq<(Y, seq<int>)>)
    ensures LossSum(lossfun, ps + qs) == LossSum(lossfun, ps) + LossSum(lossfun, qs)
    decreases |qs|
  {
    if qs != [] {
      var front := qs[..|qs| - 1];
      assert (ps + qs)[..|ps + qs| - 1] == ps + front;
      LossSumAppend(lossfun, ps, front);
    } else {
      assert ps + qs == ps;
    }
  }

  /**
   * The batch loss is batch-summed: the loss of a batch is the loss of its
   * first part plus the loss of the rest, so a batch's loss is the sum of
   * the losses of its examples taken one at a time.
   */
  lemma BatchLossAdditive<Y>(lossfun: (Y, seq<int>) -> real, y1: seq<Y>, t1: seq<seq<int>>, y2: seq<Y>, t2: seq<seq<int>>)
    requires |y1| == |t1|
    ensures LossSum(lossfun, Zip(y1 + y2, t1 + t2)) == LossSum(lossfun, Zip(y1, t1)) + LossSum(lossfun, Zip(y2, t2))
  {
    ZipAppend(y1, t1, y2, t2);
    LossSumAppend(lossfun, Zip(y1, t1), Zip(y2, t2));
  }

  /** The count is zero exactly when every zipped label sequence is empty. */
  lemma {:induction false} TokenCountZero<Y>(ps: seq<(Y, seq<int>)>)
    ensures TokenCount(ps) == 0 <==> forall i :: 0 <= i < |ps| ==> ps[i].1 == []
  {
    if ps != [] {
      var front := ps[..|ps| - 1];
      TokenCountZero(front);
      assert forall i :: 0 <= i < |front| ==> front[i] == ps[i];
    }
  }

  /** One non-empty zipped label sequence makes the count positive. */
  lemma {:induction false} TokenCountPositive<Y>(ps: seq<(Y, seq<int>)>, k: nat)
    requires k < |ps| && ps[k].1 != []
    ensures TokenCount(ps) > 0
  {
    if k < |ps| - 1 {
      var front := ps[..|ps| - 1];
      assert front[k] == ps[k];
      TokenCountPositive(front, k);
    }
  }

  /** With every accuracy in [0, 1], the weighted sum lies between 0 and the token count. */
  lemma {:induction false} AccuracySumBounds<Y>(accfun: (Y, seq<int>) -> real, ps: seq<(Y, seq<int>)>)
    requires forall i :: 0 <= i < |ps| ==> 0.0 <= accfun(ps[i].0, ps[i].1) <= 1.0
    ensures 0.0 <= AccuracySum(accfun, ps) <= TokenCount(ps) as real
  {
    if ps != [] {
      var front := ps[..|ps| - 1];
      assert forall i :: 0 <= i < |front| ==> front[i] == ps[i];
      AccuracySumBounds(accfun, front);
      WeightedBounds(accfun, ps[|ps| - 1]);
    }
  }

  /** A length-weighted accuracy in [0, 1] lies between 0 and the length. */
  lemma WeightedBounds<Y>(accfun: (Y, seq<int>) -> real, p: (Y, seq<int>))
    requires 0.0 <= accfun(p.0, p.1) <= 1.0
    ensures 0.0 <= Weighted(accfun, p) <= |p.1| as real
  {
    ScaleBounds(accfun(p.0, p.1), |p.1| as real);
  }

  /** Perfect predictions on every pair make the weighted sum equal to the token count. */
  lemma {:induction false} PerfectAccuracySum<Y>(accfun: (Y, seq<int>) -> real, ps: seq<(Y, seq<int>)>)
    requires forall i :: 0 <= i < |ps| ==> accfun(ps[i].0, ps[i].1) == 1.0
    ensures AccuracySum(accfun, ps) == TokenCount(ps) as real
  {
    if ps != [] {
      var front := ps[..|ps| - 1];
      assert forall i :: 0 <= i < |front| ==> front[i] == ps[i];
      PerfectAccuracySum(accfun, front);
      var last := ps[|ps| - 1];
      assert Weighted(accfun, last) == |last.1| as real;
    }
  }

  /**
   * The reported accuracy is a length-weighted mean: when every per-sequence
   * accuracy lies in [0, 1], so does the reported value.
   */
  lemma ReportedAccuracyInUnitInterval<Y>(lossfun: (Y, seq<int>) -> real, accfun: (Y, seq<int>) -> real,
                                          y: seq<Y>, t: seq<seq<int>>)
    requires forall i :: 0 <= i < |y| && i < |t| ==> 0.0 <= accfun(y[i], t[i]) <= 1.0
    ensures Outcome(lossfun, accfun, true, y, t).Success? ==>
      var a := Outcome(lossfun, accfun, true, y, t).value;
      a.reported.Some? && 0.0 <= a.reported.value <= 1.0
  {
    var ps := Zip(y, t);
    AccuracySumBounds(accfun, ps);
    if Outcome(lossfun, accfun, true, y, t).Success? {
      RatioBounds(AccuracySum(accfun, ps), TokenCount(ps) as real);
    }
  }

  /** A call fails exactly when accuracy is computed and no zipped label sequence has a token. */
  lemma CallFailsIffNoTokens<Y>(lossfun: (Y, seq<int>) -> real, accfun: (Y, seq<int>) -> real, computeAccuracy: bool,
                                y: seq<Y>, t: seq<seq<int>>)
    ensures Outcome(lossfun, accfun, computeAccuracy, y, t).Failure? <==>
      computeAccuracy && forall i :: 0 <= i < |y| && i < |t| ==> t[i] == []
  {
    TokenCountZero(Zip(y, t));
  }

  /** Perfect predictions on a batch with at least one token report accuracy 1 and count every token. */
  lemma PerfectPredictionsReportOne<Y>(lossfun: (Y, seq<int>) -> real, accfun: (Y, seq<int>) -> real,
                                       y: seq<Y>, t: seq<seq<int>>)
    requires |y| == |t|
    requires exists i :: 0 <= i < |t| && t[i] != []
    requires forall i :: 0 <= i < |y| ==> accfun(y[i], t[i]) == 1.0
    ensures Outcome(lossfun, accfun, true, y, t).Success?
    ensures Outcome(lossfun, accfun, true, y, t).value.count == TokenCount(Zip(y, t))
    ensures Outcome(lossfun, accfun, true, y, t).value.reported == Some(1.0)
  {
    var ps := Zip(y, t);
    var k :| 0 <= k < |t| && t[k] != [];
    assert ps[k].1 == t[k];
    TokenCountPositive(ps, k);
    PerfectAccuracySum(accfun, ps);
    var n := TokenCount(ps) as real;
    RatioOne(n);
    assert Outcome(lossfun, accfun, true, y, t) ==
      Success(Aggregate(LossField(lossfun, ps), Some(n), TokenCount(ps), Some(n / n)));
  }

  /** Scaling by a factor in [0, 1] keeps a non-negative value between 0 and itself. */
  lemma ScaleBounds(a: real, n: real)
    requires 0.0 <= a <= 1.0 && 0.0 <= n
    ensures 0.0 <= a * n <= n
  {
    assert n - a * n == (1.0 - a) * n;
  }

  /** A positive value divided by itself is one. */
  lemma RatioOne(whole: real)
    requires 0.0 < whole
    ensures whole / whole == 1.0
  {
  }

  /** A part of a positive whole, divided by it, lies in [0, 1]. */
  lemma RatioBounds(part: real, whole: real)
    requires 0.0 <= part <= whole && 0.0 < whole
    ensures 0.0 <= part / whole <= 1.0
  {
    var q := part / whole;
    assert q * whole == part;
    ProductSign(q - 1.0, whole);
    assert (q - 1.0) * whole == part - whole;
    ProductSign(q, whole);
  }

  /** A positive factor keeps the sign of the other one. */
  lemma ProductSign(a: real, b: real)
    requires 0.0 < b
    ensures a > 0.0 ==> a * b > 0.0
    ensures a < 0.0 ==> a * b < 0.0
  {
  }
}
