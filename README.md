# Goal rules of the next trait solver, and generic-parameter indexing in rust-analyzer

This project models two small cores of the Rust toolchain and proves properties of them in Dafny.

**`Solve` (`solve.dfy`) models `compiler/rustc_next_trait_solver/src/solve/mod.rs`.**
The next-generation trait solver decides goals. A goal is a predicate under a parameter environment.
Each predicate kind has a small rule, modelled as a method of the class `Solve.EvalCtxt`. A rule ends in one of three ways:
- it holds (`Yes`);
- it is ambiguous (`Maybe(Ambiguity)`);
- it has no solution.

The context's fields are the state these rules change:
- `regionObligations`: the region obligations registered with the inference delegate;
- `nestedGoals`: the queued nested goals;
- `relateCalls`: a log of every `sub` and `eq` call the rules make directly into the delegate;
- `nextTyVid`: the counter for fresh type variables.

The delegate and the type-context queries are oracle functions, held in the datatype `Solve.Delegate`. `try_evaluate_added_goals` is the context's own method, which runs the queued goals through the solver. The solver is not part of this model, so the outcome of that run is an oracle given to the context (`EvalCtxt.evaluateAddedGoals`).

A rule's outcome is a `Result`: `Ok(c)` carries the certainty `c` and `Err(NoSolution)` is the failure, as in the source.

Canonical responses are a datatype. The pure functions over them are:
- `ResponseNoConstraintsRaw` and `HasNoInferenceOrExternalConstraints`;
- `TryMergeResponses`, which picks one response standing for several;
- `Flounder`, which folds several responses into one ambiguous answer.

`Certainty::unify_with` is defined outside this file. It is modelled by `Solve.UnifyWith` under an assumption: `Yes` is neutral, any `Maybe` gives `Maybe`, and `Overflow` dominates `Ambiguity`. Under that assumption, the `panic!` in `flounder` is unreachable. `Flounder` has no case for a `Yes` fold, and the verifier proves that case cannot happen.

**`HirGenerics` (`generics.dfy`) models `src/tools/rust-analyzer/crates/hir-ty/src/generics.rs`.**
A `Generics` value holds a declaration's own parameters: type and const parameters first, then lifetimes. It may also hold its parent's `Generics`. Parameters are iterated in this order:
1. self type/consts;
2. self lifetimes;
3. the parent's own parameters.

Every parameter gets a flat index in that order.
- `iter_parent` yields only the parent's own parameters.
- `len`, `find_type_or_const_param` and `find_lifetime` recurse through the whole parent chain.

These agree whenever the chain has at most one parent. `HirGenerics.WellFormed` states that shape. `HirGenerics.BuildGenerics` (the source's `generics`) always produces it, because `parent_generic_def` never returns a declaration that has a parent (`HirGenerics.ParentGenericDefIsRoot`). `HirGenerics.IterOmitsGrandparent` gives a deeper chain where they do not agree: its iteration is shorter than `len`. Every consistency lemma therefore requires `WellFormed`.

Two details of the const-arg-has-type rule:
- An `Error` constant answers `Yes` at once (mod.rs:189-191). Its natural type is never compared with the goal's type.
- A `Value` constant's natural type is the type the value carries (mod.rs:202). No context query is made for it.

## Model

| member | source | states |
|---|---|---|
| `Solve.UnifyWith` | compiler/rustc_next_trait_solver/src/solve/mod.rs:253-256 | assumed join used by the flounder fold: the result is `Yes` iff both sides are `Yes`, and `Maybe(Overflow)` iff either side is |
| `Solve.ResponseNoConstraintsRaw` | compiler/rustc_next_trait_solver/src/solve/mod.rs:295-313 | the built response has no constraints, carries the given certainty, universe and variables unchanged, has one identity value per variable and no defining opaque types |
| `Solve.HasNoInferenceOrExternalConstraints` | compiler/rustc_next_trait_solver/src/solve/mod.rs:53-65 | holds exactly when the external constraints are the empty default data (no region constraints, opaque types or normalization goals) and every var value maps position `i` back to bound variable `i` |
| `Solve.NoConstraintsResponseIsRaw` | compiler/rustc_next_trait_solver/src/solve/mod.rs:53-65 | a response is the raw no-constraints response for its own universe, variables and certainty exactly when its var values are the identity, its region constraints, opaque types and normalization goals are empty, it has one value per variable and no defining opaque types |
| `Solve.IsDominating` | compiler/rustc_next_trait_solver/src/solve/mod.rs:239-242 | a response the merge may pick records no external constraints, and its certainty is neutral for the join: combining it with any certainty leaves that certainty unchanged |
| `Solve.FirstDominating` | compiler/rustc_next_trait_solver/src/solve/mod.rs:237-243 | the position `find` stops at: a `Yes` response with no constraints, and none before it; or the end of the list when there is none |
| `Solve.TryMergeResponses` | compiler/rustc_next_trait_solver/src/solve/mod.rs:222-244 | `None` on an empty list. When all responses equal the first, that first response whatever its certainty. Otherwise `Some` exactly when a dominating response exists, and then the first one in list order. Any result is an element of the input |
| `Solve.FoldCertainty` | compiler/rustc_next_trait_solver/src/solve/mod.rs:253-256 | the fold is `Yes` iff the start and every response are `Yes`, and `Maybe(Overflow)` iff the start or some response is |
| `Solve.Flounder` | compiler/rustc_next_trait_solver/src/solve/mod.rs:248-262 | no solution exactly on an empty list. Otherwise a no-constraints response in the context's universe and variables, whose certainty is the fold from `AMBIGUOUS` and never `Yes` (so the panic is unreachable), and is `Overflow` iff some input overflowed |
| `Solve.FlounderCause` | compiler/rustc_next_trait_solver/src/solve/mod.rs:253-259 | folding from any ambiguous start gives `Maybe(Overflow)` if the start or any candidate overflowed and `Maybe(Ambiguity)` otherwise, so the answer does not depend on candidate order |
| `Solve.MakeAmbiguousResponseNoConstraints` | compiler/rustc_next_trait_solver/src/solve/mod.rs:261 | the flounder answer has no constraints and certainty `Maybe(cause)` |
| `Solve.EvalCtxt.ComputeTypeOutlivesGoal` | compiler/rustc_next_trait_solver/src/solve/mod.rs:73-80 | registers exactly the one type-outlives obligation, answers `Yes`, and changes nothing else |
| `Solve.EvalCtxt.ComputeRegionOutlivesGoal` | compiler/rustc_next_trait_solver/src/solve/mod.rs:83-90 | registers exactly the one region-outlives obligation, answers `Yes`, and changes nothing else |
| `Solve.EvalCtxt.ComputeSubtypeGoal` | compiler/rustc_next_trait_solver/src/solve/mod.rs:105-112 | two type variables: ambiguous and `sub` not called. Otherwise exactly one `sub` call, `Yes` iff it succeeds and no solution iff it fails. No obligation, goal or variable is added |
| `Solve.EvalCtxt.ComputeCoerceGoal` | compiler/rustc_next_trait_solver/src/solve/mod.rs:93-102 | the same outcome and the same single `sub` call as the subtype goal over the same two types with `a_is_expected = false` |
| `Solve.EvalCtxt.ComputeObjectSafeGoal` | compiler/rustc_next_trait_solver/src/solve/mod.rs:114-120 | `Yes` iff the trait is object safe, no solution otherwise, with no state touched |
| `Solve.EvalCtxt.ComputeWellFormedGoal` | compiler/rustc_next_trait_solver/src/solve/mod.rs:123-131 | with an expansion: `Yes` and exactly the expansion's goals appended. Without one: ambiguous and no goal added. Nothing else changes |
| `Solve.EvalCtxt.ComputeConstEvaluatableGoal` | compiler/rustc_next_trait_solver/src/solve/mod.rs:134-170 | never no-solution. Unevaluated: `Yes` iff it evaluates, ambiguous if it does not. Inference variable: ambiguous. Placeholder, value and error: `Yes`. Param, bound and expr constants are excluded by the precondition, since the source panics on them |
| `Solve.EvalCtxt.ComputeConstArgHasTypeGoal` | compiler/rustc_next_trait_solver/src/solve/mod.rs:173-210 | effect var or error: `Yes`; other inference var: ambiguous; neither calls `eq`. Otherwise exactly one `eq` of the natural type (the `type_of` of an unevaluated const, a value's own type, the environment's type for a placeholder) with the goal type; no solution iff it fails, `Yes` otherwise |
| `Solve.EvalCtxt.NextTyInfer` | compiler/rustc_next_trait_solver/src/solve/mod.rs:276 | returns the type variable numbered by the counter and advances the counter by one |
| `Solve.EvalCtxt.Sub` | compiler/rustc_next_trait_solver/src/solve/mod.rs:109 | one recorded `sub` call whose answer is the delegate's |
| `Solve.EvalCtxt.Eq` | compiler/rustc_next_trait_solver/src/solve/mod.rs:208 | one recorded `eq` call whose answer is the delegate's |
| `Solve.ResolveVarsIfPossible` | compiler/rustc_next_trait_solver/src/solve/mod.rs:288 | a type that is not a type variable, or a type variable without a binding, comes back unchanged |
| `Solve.EvalCtxt.StructurallyNormalizeTy` | compiler/rustc_next_trait_solver/src/solve/mod.rs:270-292 | a non-alias type is returned unchanged with no goal or variable added. An alias allocates one fresh variable and queues exactly one `AliasRelate(alias, var, Equate)` goal. A failed evaluation of the queued goals is no solution, and otherwise the result is the fresh variable's resolution |
| `HirGenerics.ParentGenericDef` | src/tools/rust-analyzer/crates/hir-ty/src/generics.rs:269-286 | no parent for ADT, trait, impl and trait-alias definitions. An enum variant's parent is its enum. A function, type alias or const inside an impl or trait has that impl or trait as parent, and one inside a module or extern block has none. Every parent returned is an impl, a trait or an enum |
| `HirGenerics.ParentGenericDefIsRoot` | src/tools/rust-analyzer/crates/hir-ty/src/generics.rs:269-286 | a parent never has a parent of its own and differs from the child, so the chain is at most one step long |
| `HirGenerics.BuildGenerics` | src/tools/rust-analyzer/crates/hir-ty/src/generics.rs:15-18 | the built generics carry the definition's own parameters, have a parent exactly when the definition has one, whose generics carry that parent definition and its own parameters from the database, and are well formed |
| `HirGenerics.ParentOrSelf` | src/tools/rust-analyzer/crates/hir-ty/src/generics.rs:224-226 | the parent when there is one, otherwise the generics themselves |
| `HirGenerics.ParentOrSelfIsRoot` | src/tools/rust-analyzer/crates/hir-ty/src/generics.rs:224-226 | for well-formed generics the result has no parent, and it holds all the parameters in scope except the declaration's own ones when a parent exists |
| `HirGenerics.IterSelf` | src/tools/rust-analyzer/crates/hir-ty/src/generics.rs:73-105 | `len_self` items: each own type/const parameter at its local index, then each own lifetime after the type/consts, all owned by the declaration |
| `HirGenerics.IterParent` | src/tools/rust-analyzer/crates/hir-ty/src/generics.rs:108-136 | empty without a parent; otherwise the parent's `len_self` items, all owned by the parent |
| `HirGenerics.Iter` | src/tools/rust-analyzer/crates/hir-ty/src/generics.rs:36-70 | `len_self` items owned by the declaration, followed by the parent's own items, all owned by the parent |
| `HirGenerics.IterSelfIsPrefix` | src/tools/rust-analyzer/crates/hir-ty/src/generics.rs:64-69 | `iter_self` is exactly the first `len_self` items of `iter`, and the rest of `iter` is `iter_parent` |
| `HirGenerics.Len` | src/tools/rust-analyzer/crates/hir-ty/src/generics.rs:139-143 | at least `len_self`; exactly `len_self` without a parent; for well-formed generics, `len_self` plus the number of parent items |
| `HirGenerics.IterLength` | src/tools/rust-analyzer/crates/hir-ty/src/generics.rs:139-148 | for well-formed generics, `iter` yields `len` items, and `iter_self` yields `len_self` items |
| `HirGenerics.IterOmitsGrandparent` | src/tools/rust-analyzer/crates/hir-ty/src/generics.rs:108-143 | some generics with a grandparent have an `iter` shorter than `len`, which is why the well-formed shape matters |
| `HirGenerics.IterId` | src/tools/rust-analyzer/crates/hir-ty/src/generics.rs:27-29 | one id per item of `iter`, the item's own, in the same order |
| `HirGenerics.CountsPartition` | src/tools/rust-analyzer/crates/hir-ty/src/generics.rs:162-169 | the self, type, const and impl-trait counts of a parameter list add up to its length |
| `HirGenerics.ProvenanceSplit` | src/tools/rust-analyzer/crates/hir-ty/src/generics.rs:156-175 | the first component is the parent's `len` (or 0), and it plus `len_self` is `len`. Each of the four type/const counters counts its class, and together they are `|type_or_consts|`. The lifetime counter is `|lifetimes|` |
| `HirGenerics.FindTypeOrConstParam` | src/tools/rust-analyzer/crates/hir-ty/src/generics.rs:181-197 | any index returned is below `len`. An owned parameter is found exactly when its local index is in range, at that index and with its data. A parameter found through the parent lies at or beyond `len_self` |
| `HirGenerics.TypeOrConstParamIdx` | src/tools/rust-analyzer/crates/hir-ty/src/generics.rs:177-179 | any index is below `len`; an owned parameter's index is its local index when in range and none otherwise; a parameter found through the parent lies at or beyond `len_self` |
| `HirGenerics.FindLifetime` | src/tools/rust-analyzer/crates/hir-ty/src/generics.rs:203-218 | any index returned is below `len`. An owned lifetime is found exactly when its local index `i` is in range, at `len_type_and_const_params + i` and with its data. A lifetime found through the parent lies at or beyond `len_self` |
| `HirGenerics.LifetimeIdx` | src/tools/rust-analyzer/crates/hir-ty/src/generics.rs:199-201 | any index is below `len`; an owned lifetime's index is `len_type_and_const_params` plus its local index when in range and none otherwise; a lifetime found through the parent lies at or beyond `len_self` |
| `HirGenerics.IterAt` | src/tools/rust-analyzer/crates/hir-ty/src/generics.rs:64-69 | a position of `iter` comes from `iter_self` when below `len_self`, and otherwise from the parent's own parameters at the offset past `len_self` |
| `HirGenerics.TypeOrConstParamIdxSound` | src/tools/rust-analyzer/crates/hir-ty/src/generics.rs:177-197 | an index returned for a type/const parameter is a position of `iter` that holds that parameter with the returned data |
| `HirGenerics.TypeOrConstParamIdxComplete` | src/tools/rust-analyzer/crates/hir-ty/src/generics.rs:177-197 | the type/const parameter at any position of `iter` has that position as its index |
| `HirGenerics.TypeOrConstParamIdxMatchesIter` | src/tools/rust-analyzer/crates/hir-ty/src/generics.rs:177-197 | `type_or_const_param_idx` returns `k` iff position `k` of `iter` is that parameter, and the data found is the data at that position |
| `HirGenerics.LifetimeIdxSound` | src/tools/rust-analyzer/crates/hir-ty/src/generics.rs:199-218 | an index returned for a lifetime is a position of `iter` that holds that lifetime with the returned data |
| `HirGenerics.LifetimeIdxComplete` | src/tools/rust-analyzer/crates/hir-ty/src/generics.rs:199-218 | the lifetime at any position of `iter` has that position as its index |
| `HirGenerics.LifetimeIdxMatchesIter` | src/tools/rust-analyzer/crates/hir-ty/src/generics.rs:199-218 | `lifetime_idx` returns `k` iff position `k` of `iter` is that lifetime, and the data found is the data at that position |
| `HirGenerics.IterPositionIsIndex` | src/tools/rust-analyzer/crates/hir-ty/src/generics.rs:177-218 | for well-formed generics, every position `k` of `iter` is below `len` and is the `type_or_const_param_idx` or `lifetime_idx` of the parameter found there |
| `HirGenerics.BoundVarsSubst` | src/tools/rust-analyzer/crates/hir-ty/src/generics.rs:229-248 | one entry per item of `iter_id`. Entry `idx` is bound variable `idx` at the given De Bruijn index, of the parameter's kind (type, const or lifetime) |
| `HirGenerics.BoundVarsSubstAtParamIdx` | src/tools/rust-analyzer/crates/hir-ty/src/generics.rs:229-248 | the entry at a type/const parameter's flat index is the bound variable with that index, and it is a type or const entry |
| `HirGenerics.PlaceholderSubst` | src/tools/rust-analyzer/crates/hir-ty/src/generics.rs:251-266 | one placeholder entry per item of `iter_id`, of the parameter's kind |

## Left out

- The fixpoint loop that uses `FIXPOINT_STEP_LIMIT` lives in the search graph, which is not part of this model. Only the constant is declared (`Solve.FixpointStepLimit`, 8).
- `GoalEvaluationKind` is only used by the evaluation context outside this file, so it is not modelled.
- `evaluate_added_goals_and_make_canonical_response` lives in the evaluation context and is not part of this model. Each rule returns `Ok(c)`, where `c` is the certainty the rule hands to it, and `Err(NoSolution)` where the rule itself fails.
- The delegate and the interner are oracle functions in `Solve.Delegate`: `sub`, `eq`, `try_const_eval_resolve`, `trait_is_object_safe`, `well_formed_goals`, `type_of` (already instantiated with the arguments), and `find_const_ty_from_env`. Their effect on inference state appears only as the `relateCalls` log. Goals that a `sub` or `eq` may add are not modelled.
- `Solve.UnifyWith`: `Certainty::unify_with` is not part of this model. Its join is assumed as described above, and the flag on overflow that suggests raising the recursion limit is not modelled.
- `is_identity` and `make_identity` are not part of this model. An identity `var_values` is modelled as "the value at position `i` is bound variable `i`".
- `GoalSource` is not modelled. Every goal added here uses `GoalSource::Misc`.
- `Solve.EvalCtxt.StructurallyNormalizeTy`: it does not state that the result equals the alias's expansion, because that depends on how the solver evaluates the queued goals. Evaluating the goals does not remove them from the queue in the model.
- Evaluating nested goals (`try_evaluate_added_goals`) has effects on the delegate that are not modelled. In the source, the queued `AliasRelate` goal relates the alias to the fresh variable through the delegate and may register obligations. In the model it only yields bindings, so `relateCalls` and `regionObligations` stay unchanged across `StructurallyNormalizeTy`.
- `Solve.ResolveVarsIfPossible` resolves one level: a bound type variable is replaced by its binding, and other types are returned unchanged, since the model's types have no nested structure.
- `Solve.Flounder` takes the context's maximum input universe and canonical variables as parameters. The source reads them from `self`.
- Types, regions and constants keep only the shape the rules inspect: type variables versus integer and float variables, aliases, and the constant kinds. Every other type is `Rigid`.
- `tracing::instrument`, `Debug` output and the text of panics are not modelled.
- The rust-analyzer database layer (`db.generic_params`, `lookup`, `const_param_ty`, `to_placeholder_idx`, `lt_to_placeholder_idx`) consists of function-valued inputs (`HirGenerics.DefDatabase`, `HirGenerics.HirDatabase`). Interning and chalk's substitution types become `HirGenerics.SubstArg`.
- `HirGenerics.PlaceholderSubst` states only the length of the substitution and the kind of each entry, since the placeholder indices come from interning.
- The accessors `def()` and `parent_generics()` are the datatype fields `def` and `parentGenerics`. `len_self()` and `len_type_and_const_params()` are the helpers `LenSelf` and `LenTypeAndConstParams`. Their properties are stated by the members above.
- Indices are unbounded naturals. `usize` and the `u32` local-id conversion are not bounded in the model.
- `src/tools/clippy/tests/ui/doc/doc_markdown-issue_13097.rs` is lint test data with no logic.
