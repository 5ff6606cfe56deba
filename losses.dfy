/**
 * The two loss slots of a pattern and how they are filled.
 *
 * A caller passes each loss as nothing, a ready expression, or an objective
 * function. The constructor splits that argument into an expression slot and a
 * function slot (`Normalise`). Later the expression slot is filled at most once
 * (`Materialise`). The training loss weighs the two filled slots
 * (`WeightedLoss`).
 */
module Losses {
  import opened Wrappers
  import opened Graph

  /** A loss argument as the caller passes it. */
  datatype LossArg = NoLoss | LossExpr(expr: Expr) | LossFn(fn: Objective)

  /** The pair of attributes `*_loss` (the expression) and `*_loss_fn` (the deferred function). */
  datatype LossSlot = LossSlot(expr: Option<Expr>, fn: Option<Objective>)

  predicate AtMostOne(s: LossSlot)
  {
    !(s.expr.Some? && s.fn.Some?)
  }

  /** The constructor's treatment of a loss argument: a function moves into the
      function slot and clears the expression slot; anything else stays in the
      expression slot. */
  function Normalise(arg: LossArg): (s: LossSlot)
    ensures AtMostOne(s)
    ensures s.fn.Some? <==> arg.LossFn?
    ensures arg.LossFn? ==> s.fn.value == arg.fn && s.expr.None?
    ensures !arg.LossFn? ==> s.expr == (if arg.LossExpr? then Some(arg.expr) else None)
  {
    match arg
    case NoLoss => LossSlot(None, None)
    case LossExpr(e) => LossSlot(Some(e), None)
    case LossFn(f) => LossSlot(None, Some(f))
  }

  /** The argument a freshly normalised slot pair came from. */
  function Restore(s: LossSlot): (arg: LossArg)
    requires AtMostOne(s)
    ensures s.fn.Some? <==> arg.LossFn?
  {
    if s.fn.Some? then LossFn(s.fn.value)
    else if s.expr.Some? then LossExpr(s.expr.value)
    else NoLoss
  }

  /** Normalising loses nothing, and every slot pair with at most one slot set
      is what some argument normalises to. */
  lemma NormaliseRoundTrip(arg: LossArg, s: LossSlot)
    ensures Restore(Normalise(arg)) == arg
    ensures AtMostOne(s) ==> Normalise(Restore(s)) == s
  {
  }

  /** The function a fill applies: the explicit one if given, else the default. */
  function Chosen(slot: LossSlot, default: Result<Objective, Failure>): Result<Objective, Failure>
  {
    if slot.fn.Some? then Ok(slot.fn.value) else default
  }

  /**
   * The one-shot fill of an expression slot. It does nothing when the slot
   * is already set. Otherwise the assertions in `check` come first, then the
   * choice of function, and then the prediction, which may be unavailable.
   * The slot becomes `Mean(fn(prediction, target))`.
   */
  function Materialise(slot: LossSlot, check: Outcome<Failure>, default: Result<Objective, Failure>,
                       prediction: Result<Expr, Failure>, target: Expr): (r: Result<LossSlot, Failure>)
    ensures slot.expr.Some? ==> r == Ok(slot)
    ensures r.Ok? <==> slot.expr.Some? || (check.Pass? && Chosen(slot, default).Ok? && prediction.Ok?)
    ensures r.Ok? ==> r.value.expr.Some? && r.value.fn == slot.fn
    ensures r.Ok? && slot.expr.None? ==>
              r.value.expr.value == Mean(PerExample(Chosen(slot, default).value, prediction.value, target))
    ensures r.Err? ==> r.error == (if check.Fail? then check.error
                                   else if Chosen(slot, default).Err? then Chosen(slot, default).error
                                   else prediction.error)
  {
    if slot.expr.Some? then Ok(slot)
    else if check.Fail? then Err(check.error)
    else
      match Chosen(slot, default)
      case Err(e) => Err(e)
      case Ok(fn) =>
        match prediction
        case Err(e) => Err(e)
        case Ok(p) => Ok(slot.(expr := Some(Mean(PerExample(fn, p, target)))))
  }

  /** A filled slot stays as it is: a second fill, whatever its arguments, is a no-op. */
  lemma MaterialiseOnce(slot: LossSlot, check: Outcome<Failure>, default: Result<Objective, Failure>,
                        prediction: Result<Expr, Failure>, target: Expr,
                        check2: Outcome<Failure>, default2: Result<Objective, Failure>,
                        prediction2: Result<Expr, Failure>, target2: Expr)
    requires Materialise(slot, check, default, prediction, target).Ok?
    ensures var s := Materialise(slot, check, default, prediction, target).value;
            Materialise(s, check2, default2, prediction2, target2) == Ok(s)
  {
  }

  /**
   * `training_loss`: the weighted combination of the two loss slots. The
   * comparisons with zero are exact, and the test of the target weight comes
   * first. An unweighted slot is never read; a weighted slot that holds None
   * is an error.
   */
  function WeightedLoss(tw: real, cw: real, target: Option<Expr>, context: Option<Expr>): (r: Result<Expr, Failure>)
    ensures r.Ok? <==> (if tw == 0.0 then context.Some?
                        else if cw == 0.0 then target.Some?
                        else target.Some? && context.Some?)
    ensures r.Err? ==> r.error.MissingLoss?
    ensures r.Ok? && tw == 0.0 ==> r.value == Scale(cw, context.value)
    ensures r.Ok? && tw != 0.0 && cw == 0.0 ==> r.value == Scale(tw, target.value)
    ensures r.Ok? && tw != 0.0 && cw != 0.0 ==> r.value == Add(Scale(tw, target.value), Scale(cw, context.value))
  {
    if tw == 0.0 then
      if context.Some? then Ok(Scale(cw, context.value)) else Err(MissingLoss("context_loss"))
    else if cw == 0.0 then
      if target.Some? then Ok(Scale(tw, target.value)) else Err(MissingLoss("target_loss"))
    else if target.Some? && context.Some? then
      Ok(Add(Scale(tw, target.value), Scale(cw, context.value)))
    else if target.None? then Err(MissingLoss("target_loss"))
    else Err(MissingLoss("context_loss"))
  }

  /** The value of a loss slot under an interpretation; an empty slot counts as zero. */
  function SlotValue(o: Option<Expr>, net: (NetId, real) -> real, leaf: Expr -> real): real
  {
    if o.Some? then Eval(o.value, net, leaf) else 0.0
  }

  /** Whenever it is defined, the training loss evaluates to exactly
      tw * target + cw * context: the three-way rule only drops terms whose
      weight is zero. */
  lemma WeightedLossIsWeightedSum(tw: real, cw: real, target: Option<Expr>, context: Option<Expr>,
                                  net: (NetId, real) -> real, leaf: Expr -> real)
    requires WeightedLoss(tw, cw, target, context).Ok?
    ensures Eval(WeightedLoss(tw, cw, target, context).value, net, leaf)
         == tw * SlotValue(target, net, leaf) + cw * SlotValue(context, net, leaf)
  {
  }

  /** With a zero target weight the target slot is never read; with a zero
      context weight (and a nonzero target weight) the context slot is never read. */
  lemma WeightedLossIgnoresUnweighted(tw: real, cw: real, t1: Option<Expr>, t2: Option<Expr>,
                                      c1: Option<Expr>, c2: Option<Expr>)
    ensures tw == 0.0 ==> WeightedLoss(tw, cw, t1, c1) == WeightedLoss(tw, cw, t2, c1)
    ensures tw != 0.0 && cw == 0.0 ==> WeightedLoss(tw, cw, t1, c1) == WeightedLoss(tw, cw, t1, c2)
  {
  }
}
