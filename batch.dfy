/**
 * The inputs handed to the tagger for one batch: token ids, the zero initial
 * recurrent state pair and, for the character variant, the character ids
 * (update_core at bin/train_model.py:79-95 and :122-141, evaluate at
 * :166-184 and :198-218).
 */
module Batch {
  import opened Wrappers
  import Singleton

  /** One dataset example: `x[0]` token ids, `x[1]` character ids per token, `x[2]` labels. */
  datatype Example = Example(tokens: seq<int>, chars: seq<seq<int>>, labels: seq<int>)

  /** LSTMUpdater/LSTMEvaluator (Word) or CharLSTMUpdater/CharLSTMEvaluator (Char). */
  datatype Variant = Word | Char

  /** Width the character encoder adds to the recurrent state. */
  const CharFeatureWidth: nat := 50

  /** Width `W` of the initial states: `unit`, or `unit + 50` for the character variant. */
  function StateWidth(variant: Variant, unit: nat): (w: nat)
    ensures variant == Word ==> w == unit
    ensures variant == Char ==> w == unit + CharFeatureWidth
  {
    match variant
    case Word => unit
    case Char => unit + CharFeatureWidth
  }

  /** A dense three-dimensional tensor, `t[i][j][k]`. */
  type Tensor3 = seq<seq<seq<real>>>

  predicate HasShape(t: Tensor3, d0: nat, d1: nat, d2: nat)
  {
    && |t| == d0
    && (forall i :: 0 <= i < |t| ==> |t[i]| == d1)
    && (forall i, j :: 0 <= i < |t| && 0 <= j < |t[i]| ==> |t[i][j]| == d2)
  }

  predicate AllZero(t: Tensor3)
  {
    forall i, j, k :: 0 <= i < |t| && 0 <= j < |t[i]| && 0 <= k < |t[i][j]| ==> t[i][j][k] == 0.0
  }

  /** `xp.zeros((d0, d1, d2))`. */
  function Zeros(d0: nat, d1: nat, d2: nat): (z: Tensor3)
    ensures HasShape(z, d0, d1, d2) && AllZero(z)
  {
    seq(d0, _ => seq(d1, _ => seq(d2, _ => 0.0)))
  }

  /** The positional arguments of `target(...)` before the labels. */
  datatype Inputs = Inputs(
    xs: seq<seq<int>>,
    hx: Tensor3,
    cx: Tensor3,
    xxs: Option<seq<seq<seq<int>>>>)

  /** `ts`: the labels `x[2]` of every example, unchanged. */
  function Labels(batch: seq<Example>): (ts: seq<seq<int>>)
    ensures |ts| == |batch|
    ensures forall i :: 0 <= i < |batch| ==> ts[i] == batch[i].labels
  {
    seq(|batch|, i requires 0 <= i < |batch| => batch[i].labels)
  }

  /** `xxs`: the character ids `sample[1]` of every example, unchanged. */
  function Characters(batch: seq<Example>): (xxs: seq<seq<seq<int>>>)
    ensures |xxs| == |batch|
    ensures forall i :: 0 <= i < |batch| ==> xxs[i] == batch[i].chars
  {
    seq(|batch|, i requires 0 <= i < |batch| => batch[i].chars)
  }

  /** The inputs built around the token lists `xs`: fresh zero states and, for Char, the characters. */
  function Assemble(variant: Variant, unit: nat, batch: seq<Example>, xs: seq<seq<int>>): Inputs
  {
    var w := StateWidth(variant, unit);
    Inputs(xs, Zeros(1, |xs|, w), Zeros(1, |xs|, w),
           if variant == Char then Some(Characters(batch)) else None)
  }

  /** The random draws fit the batch: one mask per example, one bit per singleton occurrence. */
  predicate MasksFit(batch: seq<Example>, ids: set<int>, masks: seq<seq<bool>>)
  {
    && |masks| == |batch|
    && forall i :: 0 <= i < |batch| ==> |masks[i]| == Singleton.Occurrences(batch[i].tokens, ids)
  }

  /** The tokens after singleton replacement, example by example. */
  function ReplacedTokens(batch: seq<Example>, ids: set<int>, masks: seq<seq<bool>>): seq<seq<int>>
    requires MasksFit(batch, ids, masks)
  {
    seq(|batch|, i requires 0 <= i < |batch| => Singleton.Replaced(batch[i].tokens, ids, masks[i]))
  }

  /** The inputs `update_core` hands to the target. */
  function TrainingInputs(variant: Variant, unit: nat, ids: set<int>, batch: seq<Example>, masks: seq<seq<bool>>): Inputs
    requires MasksFit(batch, ids, masks)
  {
    Assemble(variant, unit, batch, ReplacedTokens(batch, ids, masks))
  }

  /** The inputs `evaluate` hands to the target: the raw token ids `x[0]`. */
  function EvaluationInputs(variant: Variant, unit: nat, batch: seq<Example>): Inputs
  {
    Assemble(variant, unit, batch, seq(|batch|, i requires 0 <= i < |batch| => batch[i].tokens))
  }

  /** What every prepared batch satisfies, whether for training or for evaluation. */
  predicate WellFormed(variant: Variant, unit: nat, batch: seq<Example>, p: Inputs)
  {
    && |p.xs| == |batch|
    && (forall i :: 0 <= i < |batch| ==> |p.xs[i]| == |batch[i].tokens|)
    && HasShape(p.hx, 1, |batch|, StateWidth(variant, unit)) && AllZero(p.hx)
    && HasShape(p.cx, 1, |batch|, StateWidth(variant, unit)) && AllZero(p.cx)
    && (variant == Char <==> p.xxs.Some?)
    && (p.xxs.Some? ==> p.xxs.value == Characters(batch))
  }

  /**
   * Training inputs: one token list per example with its length kept, each
   * token either its own id or, for a singleton id, the unknown id; zero
   * states of shape (1, N, W); the characters passed through for Char.
   */
  lemma TrainingInputsShape(variant: Variant, unit: nat, ids: set<int>, batch: seq<Example>, masks: seq<seq<bool>>)
    requires MasksFit(batch, ids, masks)
    ensures WellFormed(variant, unit, batch, TrainingInputs(variant, unit, ids, batch, masks))
    ensures forall i, j :: 0 <= i < |batch| && 0 <= j < |batch[i].tokens| ==>
      var t := TrainingInputs(variant, unit, ids, batch, masks).xs[i][j];
      t == batch[i].tokens[j] || (batch[i].tokens[j] in ids && t == Singleton.UnknownId)
  {
    var p := TrainingInputs(variant, unit, ids, batch, masks);
    forall i | 0 <= i < |batch|
      ensures |p.xs[i]| == |batch[i].tokens|
      ensures forall j :: 0 <= j < |batch[i].tokens| ==>
        p.xs[i][j] == batch[i].tokens[j] || (batch[i].tokens[j] in ids && p.xs[i][j] == Singleton.UnknownId)
    {
      Singleton.ChangesOnlySingletons(batch[i].tokens, ids, masks[i]);
    }
  }

  /** Evaluation inputs are well formed and carry every token id exactly as given. */
  lemma EvaluationInputsShape(variant: Variant, unit: nat, batch: seq<Example>)
    ensures WellFormed(variant, unit, batch, EvaluationInputs(variant, unit, batch))
    ensures forall i :: 0 <= i < |batch| ==> EvaluationInputs(variant, unit, batch).xs[i] == batch[i].tokens
  {
  }

  /** Training with an all-zero draw for every example prepares exactly the evaluation inputs. */
  lemma {:induction false} TrainingWithoutDrawsIsEvaluation(variant: Variant, unit: nat, ids: set<int>, batch: seq<Example>, masks: seq<seq<bool>>)
    requires MasksFit(batch, ids, masks)
    requires forall i, k :: 0 <= i < |masks| && 0 <= k < |masks[i]| ==> !masks[i][k]
    ensures TrainingInputs(variant, unit, ids, batch, masks) == EvaluationInputs(variant, unit, batch)
  {
    forall i | 0 <= i < |batch|
      ensures Singleton.Replaced(batch[i].tokens, ids, masks[i]) == batch[i].tokens
    {
      Singleton.AllFalseMaskIsIdentity(batch[i].tokens, ids, masks[i]);
    }
    assert ReplacedTokens(batch, ids, masks) == seq(|batch|, i requires 0 <= i < |batch| => batch[i].tokens);
  }

  /** A batch without singleton ids draws nothing and trains on exactly the evaluation inputs. */
  lemma NoSingletonsTrainsOnRawTokens(variant: Variant, unit: nat, ids: set<int>, batch: seq<Example>)
    requires forall i, j :: 0 <= i < |batch| && 0 <= j < |batch[i].tokens| ==> batch[i].tokens[j] !in ids
    ensures MasksFit(batch, ids, seq(|batch|, _ => []))
    ensures TrainingInputs(variant, unit, ids, batch, seq(|batch|, _ => [])) == EvaluationInputs(variant, unit, batch)
  {
    forall i | 0 <= i < |batch| ensures Singleton.Occurrences(batch[i].tokens, ids) == 0 {
      Singleton.NoSingletonsIsIdentity(batch[i].tokens, ids);
    }
    TrainingWithoutDrawsIsEvaluation(variant, unit, ids, batch, seq(|batch|, _ => []));
  }
}
