# Contextual patterns (concarne) in Dafny

This project models the bookkeeping core of concarne's contextual patterns. A pattern combines three sub-networks:

- phi extracts a representation from the input;
- psi predicts the target from that representation;
- beta is an optional auxiliary network that serves a contextual objective.

A pattern does four things:

- it tags every parameter of the three networks with its role;
- it turns the loss arguments into loss slots, which are filled at most once;
- it exposes its variables and parameters in a fixed order;
- it combines the target loss and the context loss by weight.

The pairwise patterns add a context-transform variable. They build both losses eagerly. The predicting variant computes its beta output from the difference of phi's outputs on two inputs.

The tensor library is symbolic here. Variables, sub-networks, layers and parameters are identifiers. Every graph the patterns build is an `Expr` (`Forward`, `Sub`, `PerExample`, `Mean`, `Scale`, `Add`). `Graph.Eval` gives these expressions a meaning over reals under any interpretation of the sub-networks.

Modules:

- `Wrappers` (wrappers.dfy): `Option`, `Result` and `Outcome`.
- `Graph` (graph.dfy): identifiers, `Layer`, `Net`, objectives, expressions and their evaluation, shapes, and the failure kinds.
- `Tagging` (tagging.dfy): the tag table, the tagging rule as folds with closed-form lemmas, and the `ParamTags` object that holds the table.
- `Losses` (losses.dfy): loss arguments and slots, the one-shot fill, and the weighted training loss.
- `Patterns` (patterns.dfy): the class `Pattern`, whose `kind` is `Base`, `PairwiseTransformation` or `PairwisePredictTransformation`. These stand for the source's `Pattern`, `PairwiseTransformationPattern` and `PairwisePredictTransformationPattern`. Abstract hooks that a kind does not provide return `NotImplemented`.

When no loss is given both slots stay empty (base.py:51-54), so `Losses.Normalise` guarantees at most one slot set.

## Model

| member | source | states |
|---|---|---|
| `Losses.Normalise` | concarne/patterns/base.py:51-63 | A loss given as a function ends in the function slot with the expression slot cleared; otherwise the argument stays in the expression slot and the function slot is empty; never both slots set |
| `Losses.NormaliseRoundTrip` | concarne/patterns/base.py:51-63 | Normalising a loss argument loses nothing (`Restore` recovers it), and every slot pair with at most one slot set comes from some argument |
| `Patterns.Pattern.Init` | concarne/patterns/base.py:36-67 | Stores the networks and variables; `input_var` is phi's input layer's variable; both loss arguments are normalised; the context input layer cache starts empty; the tag table ends as `TagAll` of the old one over phi, psi and beta |
| `Patterns.Pattern.TagRoles` | concarne/patterns/base.py:65-67 | Tags phi's layers, then psi's, then beta's (nothing for an absent beta); the table becomes `TagAll` of the old table |
| `Patterns.Pattern.TagFunctionParameters` | concarne/patterns/base.py:70-78 | The nested loop over layers and their parameters leaves the table equal to the fold `TagLayers` of the old table |
| `Tagging.TagStep` | concarne/patterns/base.py:73-78 | Tagging one parameter changes only its own tag set, and changes it as the rule `Tagged` says: the role is added unless the role is not phi and the set holds "phi" |
| `Tagging.TagParams` | concarne/patterns/base.py:72-78 | Tagging a layer's parameters keeps the table's keys |
| `Tagging.TagLayers` | concarne/patterns/base.py:70-78 | Tagging a network's layers keeps the table's keys |
| `Tagging.TagAll` | concarne/patterns/base.py:66-67 | The phi, psi, beta pass keeps the table's keys |
| `Tagging.TagParamsAt` | concarne/patterns/base.py:72-78 | After a layer's loop every tag set is the rule applied once, reached exactly when the parameter is one of that layer's |
| `Tagging.TagLayersAt` | concarne/patterns/base.py:70-78 | After one network's pass every tag set is the rule applied once, reached exactly when some layer of the network has the parameter |
| `Tagging.TagAllAt` | concarne/patterns/base.py:66-78 | Closed form of the whole pass: phi adds "phi" to what it reaches; psi and beta add their names only where phi does not reach and "phi" was not already present |
| `Tagging.TagAllOnlyAdds` | concarne/patterns/base.py:70-78 | Tagging never removes a tag and adds nothing beyond the three role names |
| `Tagging.TagAllPhiExclusive` | concarne/patterns/base.py:66-76 | A parameter phi reaches ends with "phi" and is never also given "psi" or "beta" by the pass |
| `Tagging.TagAllUnreached` | concarne/patterns/base.py:70-78 | Tag sets of parameters that no role reaches are unchanged |
| `Tagging.TagAllReached` | concarne/patterns/base.py:66-78 | Every parameter psi (or beta) reaches ends with "phi" or its role; one neither reached by phi nor already marked "phi" surely gets the role |
| `Patterns.Pattern.TrainingInputVars` | concarne/patterns/base.py:80-91 | The tuple is (input_var, target_var, context_var), with context_transform_var appended as fourth entry for the pairwise kinds (pairwise.py:78-80); its entries after the first two are exactly `context_vars` |
| `Patterns.Pattern.ContextVars` | concarne/patterns/base.py:93-104 | `(context_var,)`, or `(context_var, context_transform_var)` for the pairwise kinds (pairwise.py:82-84) |
| `Patterns.Pattern.DefaultTargetObjective` | concarne/patterns/pairwise.py:40-42 | Categorical cross-entropy for the pairwise kinds; unavailable on the base kind (base.py:107-115) |
| `Patterns.Pattern.DefaultContextObjective` | concarne/patterns/pairwise.py:44-46 | Squared error for the pairwise kinds; unavailable on the base kind (base.py:118-126) |
| `Patterns.Pattern.GetPhiOutputFor` | concarne/patterns/base.py:238-239 | phi's forward computation of the input |
| `Patterns.Pattern.GetPsiOutputFor` | concarne/patterns/base.py:231-233 | psi applied to phi's output for the same input |
| `Patterns.Pattern.GetOutputFor` | concarne/patterns/base.py:228-229 | The same expression as `get_psi_output_for` |
| `Patterns.Pattern.GetOutput` | concarne/patterns/base.py:225-226 | The output for the pattern's own input variable |
| `Patterns.Pattern.GetOutputShapeFor` | concarne/patterns/base.py:196-223 | psi's shape inference applied to phi's inferred shape of the input |
| `Patterns.Pattern.GetParams` | concarne/patterns/base.py:160-194 | psi's parameters, then beta's only when beta is present, then phi's, each block intact and in that order |
| `Patterns.Pattern.GetBetaOutputFor` | concarne/patterns/pairwise.py:125-132 | Only the predict kind provides it (base.py:235-236 and pairwise.py:75-76 raise); it is phi(x_i) - phi(x_j) with the same phi, passed through beta exactly when beta is present |
| `Patterns.BetaOutputMeaning` | concarne/patterns/pairwise.py:125-132 | Evaluates to phi(x_i) - phi(x_j) (beta of that when present); with no beta, swapping the inputs negates it; equal inputs give zero (beta of zero) |
| `Losses.Materialise` | concarne/patterns/base.py:136-152 | A set slot is left alone. Otherwise the required-variable assertions fail first, then an unavailable function, then an unavailable prediction. On success the slot holds Mean(fn(prediction, target)), where fn is the explicit function if given, else the default, and the function slot is kept |
| `Losses.MaterialiseOnce` | concarne/patterns/base.py:141-152 | Once filled, a slot is never rebuilt: a second fill, with any arguments, returns it unchanged |
| `Patterns.Pattern.CreateTargetObjective` | concarne/patterns/base.py:128-152 | No-op when `target_loss` is set. Otherwise it fails on a missing `input_var` or `target_var`, or on a missing default, with `target_loss` unchanged. Else `target_loss` becomes Mean(fn(psi(phi(input_var)), target_var)), where output and target can be overridden |
| `Patterns.Pattern.CreateContextObjective` | concarne/patterns/pairwise.py:58-72 | No-op when `context_loss` is set. Otherwise it fails on a missing `input_var` or `context_var`, or when the kind has no beta output. Else `context_loss` becomes Mean(fn(beta_output(input_var, context_var), context_transform_var)) |
| `Patterns.Pattern.FinishPairwise` | concarne/patterns/pairwise.py:52-56 | Fails before building any loss when `context_transform_var` is None. Succeeds exactly when both fills succeed, and then both losses are set |
| `Patterns.Pattern.NewPairwise` | concarne/patterns/pairwise.py:48-56 | Construction of a pairwise pattern. Tagging has happened whatever the outcome. A missing `context_transform_var` fails with the slots as normalised. Construction succeeds exactly when `context_transform_var` is present and both fills of the normalised slots succeed; the two losses are then exactly what those fills build |
| `Losses.WeightedLoss` | concarne/patterns/base.py:241-248 | Three-way rule: target weight exactly 0 gives cw·context; else context weight 0 gives tw·target; else their sum. Defined exactly when the losses it reads are present |
| `Losses.WeightedLossIsWeightedSum` | concarne/patterns/base.py:241-248 | Whenever defined, the result evaluates to tw·target + cw·context: the rule only drops zero-weighted terms |
| `Losses.WeightedLossIgnoresUnweighted` | concarne/patterns/base.py:242-245 | A zero target weight never reads the target loss; a zero context weight (after a nonzero target weight) never reads the context loss |
| `Patterns.Pattern.TrainingLoss` | concarne/patterns/base.py:241-248 | The weighted rule applied to this pattern's two loss slots |
| `Patterns.TrainingLossIsWeightedSum` | concarne/patterns/base.py:241-248 | A pattern's training loss, when defined, evaluates to tw·target_loss + cw·context_loss |
| `Patterns.ContextDim` | concarne/patterns/pairwise.py:118-120 | An int n becomes the shape (None, n); any other shape value is used unchanged |
| `Patterns.Pattern.DefaultBetaInput` | concarne/patterns/pairwise.py:113-123 | Creates a fresh input layer only when none is cached: shaped by `ContextDim(context_shape)` and bound to `context_var`. It stores the layer and returns that same object on every later call |

## Left out

- Library internals are not modelled: `get_all_layers`, the objectives, `.mean()`, forward computation and shape inference. Each network's layer list and parameter list are given as data; the rest are uninterpreted expression and shape constructors.
- `Patterns.Pattern.GetParams`: the `**tags` filter is left out, so it has no filter argument. What each network's `get_params()` reports is taken as given.
- Numeric evaluation of losses is left out; floating point is not modelled. Weights are reals compared exactly with zero, so IEEE cases such as NaN weights are not covered.
- `isfunction` is not part of this model. A loss argument is a variant: absent, an expression, or a function.
- The exception types of the abstract hooks are not reproduced. `raise NotImplemented()` is a `TypeError` in Python; here an unavailable hook is the failure `NotImplemented`.
- An absent beta contributes no layers to tagging. The source relies on the library treating `None` as an empty network.
- `context_shape` is never assigned by the pattern classes. It is a field a caller may set; reading it unset is the failure `MissingAttribute`.
- `name`, `output_shape` and the stored `input_layer` attribute are left out. Only `input_var` is kept from the input layer. `output_shape` just forwards to shape inference.
- Keyword arguments forwarded to `get_output_for` are not modelled.
- The default weights (0.5, 0.5) of `training_loss` are not modelled; callers pass both weights.
- A raising constructor is modelled by `NewPairwise` returning the object together with a failed `Outcome`. In Python that half-built object is unreachable, but its tags stay.
