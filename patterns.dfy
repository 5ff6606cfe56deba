/**
 * Contextual patterns: phi computes a representation, psi predicts the
 * target from it, and an optional beta serves the contextual objective.
 *
 * The source's class hierarchy is a closed set of kinds. `Base` is `Pattern`,
 * whose default objectives and beta output are abstract. The other two are
 * `PairwiseTransformationPattern`, which supplies the default objectives, and
 * `PairwisePredictTransformationPattern`, which also supplies the beta output.
 */
module Patterns {
  import opened Wrappers
  import opened Graph
  import opened Tagging
  import opened Losses

  datatype Kind = Base | PairwiseTransformation | PairwisePredictTransformation

  /** The value of `context_shape`: a bare number of features, or a shape used as it is. */
  datatype ShapeArg = IntShape(n: int) | OtherShape(shape: Shape)

  /** The shape of the context input layer: a bare number n becomes (None, n). */
  function ContextDim(arg: ShapeArg): (s: Shape)
    ensures arg.IntShape? ==> s.Dims? && |s.dims| == 2 && s.dims[0].None? && s.dims[1] == Some(arg.n)
    ensures arg.OtherShape? ==> s == arg.shape
  {
    match arg
    case IntShape(n) => Dims([None, Some(n)])
    case OtherShape(shape) => shape
  }

  /** The layers of an optional beta: none when it is absent. */
  function BetaLayers(beta: Option<Net>): seq<Layer>
  {
    if beta.Some? then beta.value.layers else []
  }

  /** An input layer the pattern creates; its identity is the object's. */
  class InputLayer {
    const shape: Shape
    const inputVar: Option<VarId>

    constructor (shape: Shape, inputVar: Option<VarId>)
      ensures this.shape == shape && this.inputVar == inputVar
    {
      this.shape := shape;
      this.inputVar := inputVar;
    }
  }

  class Pattern {
    const kind: Kind
    const phi: Net
    const psi: Net
    const beta: Option<Net>
    const inputVar: Option<VarId>
    const targetVar: Option<VarId>
    const contextVar: Option<VarId>
    const contextTransformVar: Option<VarId>   // read by the pairwise kinds only

    var targetLoss: Option<Expr>
    var targetLossFn: Option<Objective>
    var contextLoss: Option<Expr>
    var contextLossFn: Option<Objective>

    var contextInputLayer: InputLayer?         // the cache behind DefaultBetaInput
    var contextShape: Option<ShapeArg>         // assigned by the caller, if at all

    /**
     * `Pattern.__init__`, together with the pairwise subclass's own
     * assignments. Those touch no state the base constructor reads, so making
     * them first does not change the outcome. The pairwise assertion and the
     * building of both losses are in `FinishPairwise`.
     */
    constructor Init(kind: Kind, phi: Net, psi: Net, beta: Option<Net>,
                     targetVar: Option<VarId>, contextVar: Option<VarId>,
                     targetLoss: LossArg, contextLoss: LossArg,
                     contextTransformVar: Option<VarId>, table: ParamTags)
      requires Covers(table.tags, phi.layers) && Covers(table.tags, psi.layers)
      requires Covers(table.tags, BetaLayers(beta))
      modifies table
      ensures this.kind == kind && this.phi == phi && this.psi == psi && this.beta == beta
      ensures this.targetVar == targetVar && this.contextVar == contextVar
      ensures this.contextTransformVar == contextTransformVar
      ensures inputVar == phi.inputVar
      ensures TargetSlot() == Normalise(targetLoss) && ContextSlot() == Normalise(contextLoss)
      ensures contextInputLayer == null && contextShape.None?
      ensures table.tags == TagAll(old(table.tags), phi.layers, psi.layers, BetaLayers(beta))
    {
      this.kind := kind;
      this.phi := phi;
      this.psi := psi;
      this.beta := beta;
      this.inputVar := phi.inputVar;
      this.targetVar := targetVar;
      this.contextVar := contextVar;
      this.contextTransformVar := contextTransformVar;
      this.contextInputLayer := null;
      this.contextShape := None;
      // a loss given as a function moves into the function slot
      var ts := Normalise(targetLoss);
      var cs := Normalise(contextLoss);
      this.targetLoss, this.targetLossFn := ts.expr, ts.fn;
      this.contextLoss, this.contextLossFn := cs.expr, cs.fn;
      new;
      TagRoles(table);
    }

    /** The constructor's tagging pass: phi's layers under "phi", then psi's
        under "psi", then beta's (none when beta is absent) under "beta". */
    method TagRoles(table: ParamTags)
      requires Covers(table.tags, phi.layers) && Covers(table.tags, psi.layers)
      requires Covers(table.tags, BetaLayers(beta))
      modifies table
      ensures table.tags == TagAll(old(table.tags), phi.layers, psi.layers, BetaLayers(beta))
    {
      TagFunctionParameters(table, phi.layers, Phi);
      TagFunctionParameters(table, psi.layers, Psi);
      TagFunctionParameters(table, BetaLayers(beta), Beta);
    }

    /** Adds `role` to the tag set of every parameter of every listed layer,
        except that under a role other than phi a parameter already tagged
        "phi" is skipped. */
    method TagFunctionParameters(table: ParamTags, layers: seq<Layer>, role: string)
      requires Covers(table.tags, layers)
      modifies table
      ensures table.tags == TagLayers(old(table.tags), layers, role)
    {
      var i := 0;
      while i < |layers|
        invariant 0 <= i <= |layers|
        invariant Covers(old(table.tags), layers[..i])
        invariant table.tags == TagLayers(old(table.tags), layers[..i], role)
      {
        var l := layers[i];
        ghost var before := table.tags;
        assert KeysOf(layers[..i + 1]) == KeysOf(layers[..i]) + LayerKeys(l) by {
          assert layers[..i + 1][..i] == layers[..i];
        }
        KeysOfPrefix(layers, i + 1);
        assert forall p :: p in l.params ==> (l.id, p) in LayerKeys(l);
        var j := 0;
        while j < |l.params|
          invariant 0 <= j <= |l.params|
          invariant table.tags == TagParams(before, l.id, l.params[..j], role)
        {
          var key := (l.id, l.params[j]);
          assert l.params[..j + 1][..j] == l.params[..j];
          if role != Phi && Phi in table.tags[key] {
            j := j + 1;
            continue;
          }
          table.tags := table.tags[key := table.tags[key] + {role}];
          j := j + 1;
        }
        assert l.params[..j] == l.params;
        assert layers[..i + 1][..i] == layers[..i];
        i := i + 1;
      }
      assert layers[..i] == layers;
    }

    function TargetSlot(): LossSlot
      reads this
    {
      LossSlot(targetLoss, targetLossFn)
    }

    function ContextSlot(): LossSlot
      reads this
    {
      LossSlot(contextLoss, contextLossFn)
    }

    /** `training_input_vars`, in the order a training loop feeds them. The
        pairwise kinds append `context_transform_var`; the entries after input
        and target are exactly `ContextVars()`. */
    function TrainingInputVars(): (r: seq<Option<VarId>>)
      ensures |r| == if kind == Base then 3 else 4
      ensures r[..3] == [inputVar, targetVar, contextVar]
      ensures kind != Base ==> r[3] == contextTransformVar
      ensures r[2..] == ContextVars()
    {
      if kind == Base then [inputVar, targetVar, contextVar]
      else [inputVar, targetVar, contextVar, contextTransformVar]
    }

    /** `context_vars`. */
    function ContextVars(): (r: seq<Option<VarId>>)
      ensures |r| == if kind == Base then 1 else 2
      ensures r[0] == contextVar
      ensures kind != Base ==> r[1] == contextTransformVar
    {
      if kind == Base then [contextVar] else [contextVar, contextTransformVar]
    }

    /** `default_target_objective`: abstract on the base kind. */
    function DefaultTargetObjective(): (r: Result<Objective, Failure>)
      ensures kind == Base <==> r.Err?
      ensures r.Ok? ==> r.value == CategoricalCrossentropy
    {
      if kind == Base then Err(NotImplemented("default_target_objective")) else Ok(CategoricalCrossentropy)
    }

    /** `default_context_objective`: abstract on the base kind. */
    function DefaultContextObjective(): (r: Result<Objective, Failure>)
      ensures kind == Base <==> r.Err?
      ensures r.Ok? ==> r.value == SquaredError
    {
      if kind == Base then Err(NotImplemented("default_context_objective")) else Ok(SquaredError)
    }

    /** `get_phi_output_for`. */
    function GetPhiOutputFor(x: Expr): (r: Expr)
      ensures r.Forward? && r.net == phi.id && r.input == x
    {
      Forward(phi.id, x)
    }

    /** `get_psi_output_for`: psi applied to phi's output. */
    function GetPsiOutputFor(x: Expr): (r: Expr)
      ensures r == Forward(psi.id, GetPhiOutputFor(x))
    {
      Forward(psi.id, Forward(phi.id, x))
    }

    /** `get_output_for`: the same composition as `get_psi_output_for`. */
    function GetOutputFor(x: Expr): (r: Expr)
      ensures r == GetPsiOutputFor(x)
    {
      GetPsiOutputFor(x)
    }

    /** `get_output`: the output for the pattern's own input variable. */
    function GetOutput(): (r: Expr)
      ensures r == GetOutputFor(VarExpr(inputVar))
    {
      GetOutputFor(VarExpr(inputVar))
    }

    /** `get_output_shape_for`: phi's shape inference, then psi's. */
    function GetOutputShapeFor(s: Shape): (r: Shape)
      ensures r.InferredShape? && r.net == psi.id
      ensures r.input == InferredShape(phi.id, s)
    {
      InferredShape(psi.id, InferredShape(phi.id, s))
    }

    /** `get_params`: psi's parameters, then beta's if there is a beta, then phi's. */
    method GetParams() returns (params: seq<ParamId>)
      ensures var b := if beta.Some? then beta.value.params else [];
              && |params| == |psi.params| + |b| + |phi.params|
              && params[..|psi.params|] == psi.params
              && params[|psi.params|..|psi.params| + |b|] == b
              && params[|psi.params| + |b|..] == phi.params
    {
      params := psi.params;
      if beta.Some? {
        params := params + beta.value.params;
      }
      params := params + phi.params;
    }

    /**
     * `get_beta_output_for(input_i, input_j)`. Only the predict kind provides
     * it: phi(input_i) - phi(input_j), passed through beta when there is one.
     */
    function GetBetaOutputFor(i: Expr, j: Expr): (r: Result<Expr, Failure>)
      ensures kind != PairwisePredictTransformation <==> r.Err?
      ensures r.Err? ==> r.error == NotImplemented("get_beta_output_for")
      ensures r.Ok? && beta.None? ==> r.value == Sub(GetPhiOutputFor(i), GetPhiOutputFor(j))
      ensures r.Ok? && beta.Some? ==> r.value == Forward(beta.value.id, Sub(GetPhiOutputFor(i), GetPhiOutputFor(j)))
    {
      if kind != PairwisePredictTransformation then Err(NotImplemented("get_beta_output_for"))
      else
        var diff := Sub(GetPhiOutputFor(i), GetPhiOutputFor(j));
        if beta.Some? then Ok(Forward(beta.value.id, diff)) else Ok(diff)
    }

    /** The checks `_create_target_objective` makes before building the loss. */
    function TargetChecks(): Outcome<Failure>
    {
      if inputVar.None? then Fail(AssertionFailed("input_var"))
      else if targetVar.None? then Fail(AssertionFailed("target_var"))
      else Pass
    }

    /** The checks `_create_context_objective` makes before building the loss. */
    function ContextChecks(): Outcome<Failure>
    {
      if inputVar.None? then Fail(AssertionFailed("input_var"))
      else if contextVar.None? then Fail(AssertionFailed("context_var"))
      else Pass
    }

    /** What `_create_target_objective(output, target)` does to the target slots. */
    function TargetFill(output: Option<Expr>, target: Option<Expr>): Result<LossSlot, Failure>
      reads this
    {
      Materialise(TargetSlot(), TargetChecks(), DefaultTargetObjective(),
                  Ok(if output.Some? then output.value else GetPsiOutputFor(VarExpr(inputVar))),
                  if target.Some? then target.value else VarExpr(targetVar))
    }

    /** What `_create_context_objective()` does to the context slots. */
    function ContextFill(): Result<LossSlot, Failure>
      reads this
    {
      Materialise(ContextSlot(), ContextChecks(), DefaultContextObjective(),
                  GetBetaOutputFor(VarExpr(inputVar), VarExpr(contextVar)),
                  VarExpr(contextTransformVar))
    }

    /** `_create_target_objective`. */
    method CreateTargetObjective(output: Option<Expr>, target: Option<Expr>) returns (r: Outcome<Failure>)
      modifies this`targetLoss
      ensures old(targetLoss).Some? ==> r.Pass? && targetLoss == old(targetLoss)
      ensures old(TargetFill(output, target)).Ok? ==>
                r.Pass? && targetLoss == old(TargetFill(output, target)).value.expr
      ensures old(TargetFill(output, target)).Err? ==>
                r == Fail(old(TargetFill(output, target)).error) && targetLoss == old(targetLoss)
    {
      var out := if output.Some? then output.value else GetPsiOutputFor(VarExpr(inputVar));
      var tgt := if target.Some? then target.value else VarExpr(targetVar);
      if targetLoss.None? {
        if inputVar.None? {
          return Fail(AssertionFailed("input_var"));
        }
        if targetVar.None? {
          return Fail(AssertionFailed("target_var"));
        }
        var fn: Objective;
        if targetLossFn.None? {
          var d := DefaultTargetObjective();
          if d.Err? {
            return Fail(d.error);
          }
          fn := d.value;
        } else {
          fn := targetLossFn.value;
        }
        targetLoss := Some(Mean(PerExample(fn, out, tgt)));
      }
      r := Pass;
    }

    /** `_create_context_objective` (pairwise kinds). */
    method CreateContextObjective() returns (r: Outcome<Failure>)
      requires kind != Base
      modifies this`contextLoss
      ensures old(contextLoss).Some? ==> r.Pass? && contextLoss == old(contextLoss)
      ensures old(ContextFill()).Ok? ==> r.Pass? && contextLoss == old(ContextFill()).value.expr
      ensures old(ContextFill()).Err? ==> r == Fail(old(ContextFill()).error) && contextLoss == old(contextLoss)
    {
      if contextLoss.None? {
        if inputVar.None? {
          return Fail(AssertionFailed("input_var"));
        }
        if contextVar.None? {
          return Fail(AssertionFailed("context_var"));
        }
        // every kind that has this method provides a default context objective
        var fn := if contextLossFn.None? then DefaultContextObjective().value else contextLossFn.value;
        var prediction := GetBetaOutputFor(VarExpr(inputVar), VarExpr(contextVar));
        if prediction.Err? {
          return Fail(prediction.error);
        }
        contextLoss := Some(Mean(PerExample(fn, prediction.value, VarExpr(contextTransformVar))));
      }
      r := Pass;
    }

    /** The rest of the pairwise constructor: assert that there is a
        `context_transform_var`, then build the target loss and the context loss. */
    method FinishPairwise() returns (r: Outcome<Failure>)
      requires kind != Base
      modifies this`targetLoss, this`contextLoss
      ensures contextTransformVar.None? ==>
                r == Fail(AssertionFailed("context_transform_var"))
                && targetLoss == old(targetLoss) && contextLoss == old(contextLoss)
      ensures r.Pass? <==> contextTransformVar.Some? && old(TargetFill(None, None)).Ok? && old(ContextFill()).Ok?
      ensures r.Pass? ==> targetLoss == old(TargetFill(None, None)).value.expr
                          && contextLoss == old(ContextFill()).value.expr
      ensures r.Pass? ==> targetLoss.Some? && contextLoss.Some?
    {
      if contextTransformVar.None? {
        return Fail(AssertionFailed("context_transform_var"));
      }
      ghost var contextFill := ContextFill();
      r := CreateTargetObjective(None, None);
      if r.Fail? {
        return;
      }
      assert ContextFill() == contextFill;
      r := CreateContextObjective();
    }

    /**
     * Construction of a pairwise pattern, `predict` choosing the leaf kind.
     * Tagging has happened whatever the outcome; the assertion on
     * `context_transform_var` comes before either loss is built; success
     * leaves both losses set.
     */
    static method NewPairwise(predict: bool, phi: Net, psi: Net, beta: Option<Net>,
                              targetVar: Option<VarId>, contextVar: Option<VarId>,
                              targetLoss: LossArg, contextLoss: LossArg,
                              contextTransformVar: Option<VarId>, table: ParamTags)
      returns (p: Pattern, r: Outcome<Failure>)
      requires Covers(table.tags, phi.layers) && Covers(table.tags, psi.layers)
      requires Covers(table.tags, BetaLayers(beta))
      modifies table
      ensures fresh(p)
      ensures p.kind == (if predict then PairwisePredictTransformation else PairwiseTransformation)
      ensures p.phi == phi && p.psi == psi && p.beta == beta && p.inputVar == phi.inputVar
      ensures p.targetVar == targetVar && p.contextVar == contextVar
      ensures p.contextTransformVar == contextTransformVar
      ensures p.contextInputLayer == null
      ensures table.tags == TagAll(old(table.tags), phi.layers, psi.layers, BetaLayers(beta))
      ensures contextTransformVar.None? ==>
                r == Fail(AssertionFailed("context_transform_var"))
                && p.TargetSlot() == Normalise(targetLoss) && p.ContextSlot() == Normalise(contextLoss)
      ensures var tf := Materialise(Normalise(targetLoss), p.TargetChecks(), p.DefaultTargetObjective(),
                                    Ok(p.GetPsiOutputFor(VarExpr(phi.inputVar))), VarExpr(targetVar));
              var cf := Materialise(Normalise(contextLoss), p.ContextChecks(), p.DefaultContextObjective(),
                                    p.GetBetaOutputFor(VarExpr(phi.inputVar), VarExpr(contextVar)),
                                    VarExpr(contextTransformVar));
              && (r.Pass? <==> contextTransformVar.Some? && tf.Ok? && cf.Ok?)
              && (r.Pass? ==> p.targetLoss == tf.value.expr && p.contextLoss == cf.value.expr)
      ensures r.Pass? ==> p.targetLoss.Some? && p.contextLoss.Some?
    {
      var kind := if predict then PairwisePredictTransformation else PairwiseTransformation;
      p := new Pattern.Init(kind, phi, psi, beta, targetVar, contextVar,
                            targetLoss, contextLoss, contextTransformVar, table);
      assert p.TargetFill(None, None)
          == Materialise(Normalise(targetLoss), p.TargetChecks(), p.DefaultTargetObjective(),
                         Ok(p.GetPsiOutputFor(VarExpr(phi.inputVar))), VarExpr(targetVar));
      assert p.ContextFill()
          == Materialise(Normalise(contextLoss), p.ContextChecks(), p.DefaultContextObjective(),
                         p.GetBetaOutputFor(VarExpr(phi.inputVar), VarExpr(contextVar)),
                         VarExpr(contextTransformVar));
      r := p.FinishPairwise();
    }

    /** `training_loss(target_weight, context_weight)` over this pattern's two loss slots. */
    function TrainingLoss(tw: real, cw: real): (r: Result<Expr, Failure>)
      reads this
      ensures r == WeightedLoss(tw, cw, targetLoss, contextLoss)
    {
      WeightedLoss(tw, cw, targetLoss, contextLoss)
    }

    /**
     * `default_beta_input` (predict kind): the context input layer, created on
     * first access from `context_shape` and bound to `context_var`, and the
     * very same object on every later access.
     */
    method DefaultBetaInput() returns (r: Result<InputLayer, Failure>)
      requires kind == PairwisePredictTransformation
      modifies this`contextInputLayer
      ensures old(contextInputLayer) != null ==>
                r == Ok(old(contextInputLayer)) && contextInputLayer == old(contextInputLayer)
      ensures old(contextInputLayer) == null && contextShape.None? ==>
                r == Err(MissingAttribute("context_shape")) && contextInputLayer == null
      ensures old(contextInputLayer) == null && contextShape.Some? ==>
                r.Ok? && fresh(r.value) && contextInputLayer == r.value
                && r.value.shape == ContextDim(contextShape.value) && r.value.inputVar == contextVar
    {
      if contextInputLayer == null {
        if contextShape.None? {
          return Err(MissingAttribute("context_shape"));
        }
        var contextDim := ContextDim(contextShape.value);
        contextInputLayer := new InputLayer(contextDim, contextVar);
      }
      r := Ok(contextInputLayer);
    }
  }

  /** The pairwise difference uses one phi for both inputs: with no beta it
      evaluates to phi(x_i) - phi(x_j), swapping the inputs negates it, and a
      pair of equal inputs gives zero (beta of zero when there is a beta). */
  lemma BetaOutputMeaning(p: Pattern, i: Expr, j: Expr, net: (NetId, real) -> real, leaf: Expr -> real)
    requires p.kind == PairwisePredictTransformation
    ensures p.GetBetaOutputFor(i, j).Ok? && p.GetBetaOutputFor(j, i).Ok?
    ensures var d := net(p.phi.id, Eval(i, net, leaf)) - net(p.phi.id, Eval(j, net, leaf));
            Eval(p.GetBetaOutputFor(i, j).value, net, leaf)
              == if p.beta.Some? then net(p.beta.value.id, d) else d
    ensures p.beta.None? ==>
              Eval(p.GetBetaOutputFor(j, i).value, net, leaf) == -Eval(p.GetBetaOutputFor(i, j).value, net, leaf)
    ensures Eval(p.GetBetaOutputFor(i, i).value, net, leaf)
              == if p.beta.Some? then net(p.beta.value.id, 0.0) else 0.0
  {
    var diff := Sub(p.GetPhiOutputFor(i), p.GetPhiOutputFor(j));
    assert Eval(diff, net, leaf) == net(p.phi.id, Eval(i, net, leaf)) - net(p.phi.id, Eval(j, net, leaf));
    var same := Sub(p.GetPhiOutputFor(i), p.GetPhiOutputFor(i));
    assert Eval(same, net, leaf) == 0.0;
  }

  /** Whenever it is defined, a pattern's training loss evaluates to
      tw * target_loss + cw * context_loss. */
  lemma TrainingLossIsWeightedSum(p: Pattern, tw: real, cw: real, net: (NetId, real) -> real, leaf: Expr -> real)
    requires p.TrainingLoss(tw, cw).Ok?
    ensures Eval(p.TrainingLoss(tw, cw).value, net, leaf)
         == tw * SlotValue(p.targetLoss, net, leaf) + cw * SlotValue(p.contextLoss, net, leaf)
  {
    WeightedLossIsWeightedSum(tw, cw, p.targetLoss, p.contextLoss, net, leaf);
  }
}
