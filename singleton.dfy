/**
 * The single-device training group: one graph trained directly by the optimizer,
 * with an optional moving average of its parameters kept in a second graph.
 */
module SingletonGroup {
  import opened Wrappers
  import opened Checkpoint

  /** Which of the group's two graphs an action refers to: `graph_` or `mvAvgGraph_`. */
  datatype GraphRef = TrainingGraph | AverageGraph

  /** The tensor operations the group calls but does not define. */
  datatype SingletonOps<!T> = SingletonOps(
    /** `opt_->update(graph_)`: the parameters after one step with the gradient. */
    update: (T, T) -> T,
    /** `updateMovingAverage(mvAvgParams, params)`. */
    movingAverage: (T, T) -> T)

  /** `updateMovingAverage` on one real-valued parameter:
      `decay * avg + (1 - decay) * p`. */
  function MovingAverage(decay: real, avg: real, p: real): (m: real)
    ensures m - avg == (1.0 - decay) * (p - avg)
    ensures decay == 1.0 ==> m == avg
    ensures decay == 0.0 ==> m == p
  {
    decay * avg + (1.0 - decay) * p
  }

  /** With a decay in [0, 1] the new average lies between the old average and the
      parameter, and an average equal to the parameter stays put. */
  lemma MovingAverageBetween(decay: real, avg: real, p: real)
    requires 0.0 <= decay <= 1.0
    ensures avg <= p ==> avg <= MovingAverage(decay, avg, p) <= p
    ensures p <= avg ==> p <= MovingAverage(decay, avg, p) <= avg
    ensures avg == p ==> MovingAverage(decay, avg, p) == p
  {
    var d := p - avg;
    assert MovingAverage(decay, avg, p) == avg + (1.0 - decay) * d;
    assert d - (1.0 - decay) * d == decay * d;
    if avg <= p {
      MulNonNegative(1.0 - decay, d);
      MulNonNegative(decay, d);
    } else {
      MulNonNegative(1.0 - decay, -d);
      MulNonNegative(decay, -d);
    }
  }

  /** The group's operations on one real-valued parameter: `update` is the
      optimizer step, and the moving average is `updateMovingAverage` with `decay`. */
  function RealOps(decay: real, update: (real, real) -> real): (ops: SingletonOps<real>)
    ensures ops.update == update
    ensures forall avg, p :: ops.movingAverage(avg, p) == MovingAverage(decay, avg, p)
  {
    SingletonOps(update, (avg, p) => MovingAverage(decay, avg, p))
  }

  /** A `Singleton` over `RealOps` keeps its average between the previous average
      and the new parameter at every `Execute` after the first. */
  lemma RealAverageBetween(decay: real, update: (real, real) -> real, avg: real, p: real)
    requires 0.0 <= decay <= 1.0
    ensures var m := RealOps(decay, update).movingAverage(avg, p);
      (avg <= p ==> avg <= m <= p) && (p <= avg ==> p <= m <= avg) && (avg == p ==> m == p)
  {
    MovingAverageBetween(decay, avg, p);
  }

  /** The product of two non-negative reals is non-negative. */
  lemma MulNonNegative(x: real, y: real)
    requires x >= 0.0 && y >= 0.0
    ensures x * y >= 0.0
  {
  }

  /** The graph another component reads the model from: `mvAvgGraph_` whenever the
      moving average is on, `graph_` otherwise (validation at 97-100 and `save(final)`
      at 138-144). Neither place checks that `mvAvgGraph_` has been built; it is
      built by the first `execute`. */
  function ModelGraph(mvAvg: bool): (g: GraphRef)
    ensures g == AverageGraph <==> mvAvg
  {
    if mvAvg then AverageGraph else TrainingGraph
  }

  /** A save action redirected to `graph_`. */
  function ToTrainingGraph(a: SaveAction<GraphRef>): SaveAction<GraphRef>
  {
    match a
    case BuilderSave(_, path, final) => BuilderSave(TrainingGraph, path, final)
    case ReporterSave(path) => a
  }

  /** `save(graph, final)` as written (146-165): the `graph` argument is ignored.
      The actions are those a save of `graph` would issue, in the same order and to
      the same files, except that every builder save writes `graph_`. */
  function SaveActionsAsWritten(graph: GraphRef, overwrite: bool, final: bool, model: string, batches: nat): (r: Result<seq<SaveAction<GraphRef>>, string>)
    ensures r.Failure? <==> !overwrite && !final && |model| < 4
    ensures r.Success? ==> forall i :: 0 <= i < |r.value| && r.value[i].BuilderSave? ==> r.value[i].graph == TrainingGraph
    ensures var intended := SaveActions(graph, overwrite, final, model, batches);
      r.Success? == intended.Success? &&
      (r.Success? ==>
        |r.value| == |intended.value| &&
        forall i :: 0 <= i < |r.value| ==> r.value[i] == ToTrainingGraph(intended.value[i]))
  {
    SaveActions(TrainingGraph, overwrite, final, model, batches)
  }

  /** As written, the actions do not depend on the graph asked for. */
  lemma SaveAsWrittenIgnoresGraph(g1: GraphRef, g2: GraphRef, overwrite: bool, final: bool, model: string, batches: nat)
    ensures SaveActionsAsWritten(g1, overwrite, final, model, batches) == SaveActionsAsWritten(g2, overwrite, final, model, batches)
  {
  }

  /** As written, a group with the moving average on checkpoints the training
      parameters instead of the averaged ones. */
  lemma SaveAsWrittenIgnoresAverage()
    ensures var r := SaveActionsAsWritten(ModelGraph(true), true, false, "model.npz", 0);
      r.Success? && r.value[0] == BuilderSave(TrainingGraph, "model.npz", true) &&
      ModelGraph(true) == AverageGraph
  {
  }

  class Singleton<T> {
    const ops: SingletonOps<T>
    /** `mvAvg_`. */
    const mvAvg: bool
    /** `graph_->params()->vals()`. */
    var params: T
    /** `mvAvgGraph_->params()->vals()`, once the average graph exists. */
    var avgParams: Option<T>

    ghost predicate Valid()
      reads this
    {
      !mvAvg ==> avgParams.None?
    }

    /** The constructor: `params0` are the parameters of the not yet built graph. */
    constructor (ops: SingletonOps<T>, mvAvg: bool, params0: T)
      ensures Valid() && this.ops == ops && this.mvAvg == mvAvg && params == params0 && avgParams.None?
    {
      this.ops := ops;
      this.mvAvg := mvAvg;
      params := params0;
      avgParams := None;
    }

    /** `execute(batch)` (65-106): one optimizer step with the batch's gradient, then
        the average graph is created as a copy of the new parameters or decays towards
        them. `gradientOf(p)` is the batch's gradient at parameters `p`. */
    method Execute(gradientOf: T -> T)
      requires Valid()
      modifies this
      ensures Valid()
      ensures params == ops.update(old(params), gradientOf(old(params)))
      ensures !mvAvg ==> avgParams.None?
      ensures mvAvg && old(avgParams).None? ==> avgParams == Some(params)
      ensures mvAvg && old(avgParams).Some? ==> avgParams == Some(ops.movingAverage(old(avgParams).value, params))
    {
      var grad := gradientOf(params);
      params := ops.update(params, grad);
      if mvAvg {
        if avgParams.None? {
          avgParams := Some(params);
        } else {
          avgParams := Some(ops.movingAverage(avgParams.value, params));
        }
      }
    }

    /** `save(final)`, corrected: the checkpoint is written from the graph `save(final)`
        selects, so with the moving average on the averaged parameters are saved. With
        the average on but not yet built that graph is null, and the save fails. */
    method Save(overwrite: bool, final: bool, model: string, batches: nat)
      returns (r: Result<seq<SaveAction<GraphRef>>, string>)
      requires Valid()
      ensures r.Failure? <==> (mvAvg && avgParams.None?) || (!overwrite && !final && |model| < 4)
      ensures !(mvAvg && avgParams.None?) ==> r == SaveActions(ModelGraph(mvAvg), overwrite, final, model, batches)
      ensures r.Success? ==> forall i :: 0 <= i < |r.value| && r.value[i].BuilderSave? ==>
        (r.value[i].graph == AverageGraph <==> mvAvg)
    {
      if mvAvg && avgParams.None? {
        r := Failure("the moving-average graph is not built yet");
      } else {
        var graph := ModelGraph(mvAvg);
        r := SaveActions(graph, overwrite, final, model, batches);
      }
    }
  }
}
