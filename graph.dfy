/**
 * The graph library as the patterns see it. Variables, sub-networks, layers and
 * parameters are opaque identifiers, and every graph the patterns build is a
 * symbolic expression. `Eval` gives those expressions a meaning: an
 * interpretation of each sub-network as a function on reals, and of every
 * other leaf as a real. A real stands for one element of a tensor.
 */
module Graph {
  import opened Wrappers

  type VarId = nat
  type NetId = nat
  type LayerId = nat
  type ParamId = nat

  /** One layer as the library's `get_all_layers` lists it: its identity and
      the parameters its own `get_params()` reports, in order. */
  datatype Layer = Layer(id: LayerId, params: seq<ParamId>)

  /**
   * A sub-network (phi, psi or beta), given by its output layer.
   * `layers` is what `get_all_layers` returns for it, `params` is what its
   * `get_params()` reports, and `inputVar` is the `input_var` of its
   * `input_layer`.
   */
  datatype Net = Net(id: NetId, layers: seq<Layer>, params: seq<ParamId>, inputVar: Option<VarId>)

  /** A per-example objective: the library's two built-in ones, or one the caller supplies. */
  datatype Objective = CategoricalCrossentropy | SquaredError | UserObjective(id: nat)

  /** Symbolic graph expressions. */
  datatype Expr =
    | Var(id: VarId)                                              // a symbolic variable
    | NoneValue                                                   // Python's None where a variable was expected
    | Forward(net: NetId, input: Expr)                            // net.get_output_for(input)
    | Sub(left: Expr, right: Expr)                                // left - right, elementwise
    | PerExample(objective: Objective, prediction: Expr, target: Expr)  // objective(prediction, target)
    | Mean(arg: Expr)                                             // arg.mean()
    | Scale(weight: real, arg: Expr)                              // weight * arg
    | Add(left: Expr, right: Expr)                                // left + right

  /** A variable slot as an expression: the variable, or None. */
  function VarExpr(v: Option<VarId>): (e: Expr)
    ensures v.Some? ==> e == Var(v.value)
    ensures v.None? ==> e == NoneValue
  {
    if v.Some? then Var(v.value) else NoneValue
  }

  /**
   * The value of `e` when every sub-network `n` computes `net(n, _)` and every
   * other leaf (variables, losses, means) has the value `leaf` gives it.
   */
  function Eval(e: Expr, net: (NetId, real) -> real, leaf: Expr -> real): real
  {
    match e
    case Forward(n, x) => net(n, Eval(x, net, leaf))
    case Sub(a, b) => Eval(a, net, leaf) - Eval(b, net, leaf)
    case Scale(w, a) => w * Eval(a, net, leaf)
    case Add(a, b) => Eval(a, net, leaf) + Eval(b, net, leaf)
    case _ => leaf(e)
  }

  /** A shape: explicit dimensions (None for an unknown one), or the shape a
      sub-network infers from an input shape. */
  datatype Shape = Dims(dims: seq<Option<int>>) | InferredShape(net: NetId, input: Shape)

  /** The ways graph construction stops. */
  datatype Failure =
    | AssertionFailed(what: string)     // an `assert` on a required attribute
    | NotImplemented(hook: string)      // an abstract hook the pattern kind does not provide
    | MissingLoss(slot: string)         // a weight multiplied with a loss slot that holds None
    | MissingAttribute(name: string)    // an attribute read before anything assigned it
}
