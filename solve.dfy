/**
 * Goal evaluation in the next-generation trait solver: the small rule for each
 * predicate kind, the merging of several candidate responses into one, and
 * structural normalization of alias types. The inference delegate and the
 * type-context queries the rules call are given as oracle functions.
 */
module Solve {
  import opened Wrappers

  /** How many fixpoint iterations the solver attempts before bailing with overflow. */
  const FixpointStepLimit: nat := 8

  type ParamEnv = nat
  type DefId = nat
  type UniverseIndex = nat
  type GenericArgsId = nat

  // ---------------------------------------------------------------------------
  // Terms
  // ---------------------------------------------------------------------------

  datatype InferTy = TyVar(vid: nat) | IntVar(vid: nat) | FloatVar(vid: nat)

  datatype AliasTyKind = Projection | Inherent | Opaque | Weak

  /** Types; `Rigid` stands for every kind the rules here do not look into. */
  datatype Ty =
    | Infer(infer: InferTy)
    | Alias(aliasKind: AliasTyKind, def: DefId)
    | Rigid(head: nat)
  {
    /** Only a general type variable counts; integer and float variables do not. */
    predicate IsTyVar() {
      Infer? && infer.TyVar?
    }
  }

  datatype Region = Region(id: nat)

  datatype InferConst = Var(vid: nat) | EffectVar(vid: nat) | Fresh(n: nat)

  datatype UnevaluatedConst = UnevaluatedConst(def: DefId, args: GenericArgsId)

  datatype Const =
    | Param(index: nat)
    | Infer(infer: InferConst)
    | Bound(debruijn: nat, boundVar: nat)
    | Placeholder(placeholder: nat)
    | Unevaluated(uv: UnevaluatedConst)
    | Value(ty: Ty, valtree: nat)
    | Error
    | Expr(expr: nat)

  datatype GenericArg = TyArg(ty: Ty) | LifetimeArg(region: Region) | ConstArg(ct: Const)

  datatype Term = TyTerm(ty: Ty) | ConstTerm(ct: Const)

  // ---------------------------------------------------------------------------
  // Goals
  // ---------------------------------------------------------------------------

  datatype Goal<P> = Goal(paramEnv: ParamEnv, pred: P)

  datatype OutlivesPredicate<A> = OutlivesPredicate(a: A, b: Region)

  datatype SubtypePredicate = SubtypePredicate(aIsExpected: bool, a: Ty, b: Ty)

  datatype CoercePredicate = CoercePredicate(a: Ty, b: Ty)

  datatype AliasRelationDirection = Equate | Subtype

  /** The predicates a nested goal can carry; `OtherPredicate` is every kind handled elsewhere. */
  datatype PredicateKind =
    | TypeOutlivesPredicate(outlives: OutlivesPredicate<Ty>)
    | RegionOutlivesPredicate(regionOutlives: OutlivesPredicate<Region>)
    | SubtypeGoal(subtype: SubtypePredicate)
    | CoerceGoal(coerce: CoercePredicate)
    | ObjectSafe(traitDefId: DefId)
    | WellFormed(arg: GenericArg)
    | ConstEvaluatable(ct: Const)
    | ConstArgHasType(constArg: Const, constTy: Ty)
    | AliasRelate(lhs: Term, rhs: Term, direction: AliasRelationDirection)
    | OtherPredicate(id: nat)

  // ---------------------------------------------------------------------------
  // Certainty
  // ---------------------------------------------------------------------------

  datatype MaybeCause = Ambiguity | Overflow

  datatype Certainty = Yes | Maybe(cause: MaybeCause)

  const Ambiguous: Certainty := Maybe(Ambiguity)

  /**
   * The join of two certainties (`Certainty::unify_with`, defined outside this
   * file and assumed here): `Yes` is neutral, any `Maybe` makes the result
   * `Maybe`, and `Overflow` dominates `Ambiguity`.
   */
  function UnifyWith(a: Certainty, b: Certainty): (r: Certainty)
    ensures r == Yes <==> a == Yes && b == Yes
    ensures r == Maybe(Overflow) <==> a == Maybe(Overflow) || b == Maybe(Overflow)
  {
    match (a, b)
    case (Yes, Yes) => Yes
    case (Yes, Maybe(_)) => b
    case (Maybe(_), Yes) => a
    case (Maybe(x), Maybe(y)) => Maybe(if x == Overflow || y == Overflow then Overflow else Ambiguity)
  }

  // ---------------------------------------------------------------------------
  // Responses
  // ---------------------------------------------------------------------------

  datatype RegionObligation =
    | TyOutlivesObligation(ty: Ty, region: Region)
    | RegionOutlivesObligation(longer: Region, shorter: Region)

  datatype OpaqueBinding = OpaqueBinding(key: DefId, hidden: Ty)

  datatype ExternalConstraintsData = ExternalConstraintsData(
    regionConstraints: seq<RegionObligation>,
    opaqueTypes: seq<OpaqueBinding>,
    normalizationNestedGoals: seq<Goal<PredicateKind>>)

  /** What a canonical variable of the query is bound to by a response. */
  datatype VarValue = BoundVar(index: nat) | Arg(arg: GenericArg)

  datatype Response = Response(
    varValues: seq<VarValue>,
    externalConstraints: ExternalConstraintsData,
    certainty: Certainty)

  datatype CanonicalVarKind = TyVarKind | RegionVarKind | ConstVarKind

  datatype CanonicalResponse = Canonical(
    maxUniverse: UniverseIndex,
    variables: seq<CanonicalVarKind>,
    value: Response,
    definingOpaqueTypes: seq<DefId>)

  /** Every canonical variable is mapped back to itself. */
  predicate IsIdentity(varValues: seq<VarValue>) {
    forall i :: 0 <= i < |varValues| ==> varValues[i] == BoundVar(i)
  }

  function MakeIdentity(variables: seq<CanonicalVarKind>): (vv: seq<VarValue>)
    ensures |vv| == |variables| && IsIdentity(vv)
  {
    seq(|variables|, i requires 0 <= i < |variables| => BoundVar(i))
  }

  /** The response constrains neither inference variables nor anything outside the query. */
  predicate HasNoInferenceOrExternalConstraints(response: CanonicalResponse): (b: bool)
    ensures b <==>
      && response.value.externalConstraints == ExternalConstraintsData([], [], [])
      && forall i :: 0 <= i < |response.value.varValues| ==> response.value.varValues[i] == BoundVar(i)
  {
    var constraints := response.value.externalConstraints;
    && IsIdentity(response.value.varValues)
    && |constraints.regionConstraints| == 0
    && |constraints.opaqueTypes| == 0
    && |constraints.normalizationNestedGoals| == 0
  }

  /** A response with the given certainty and no constraints at all. */
  function ResponseNoConstraintsRaw(
    maxUniverse: UniverseIndex, variables: seq<CanonicalVarKind>, certainty: Certainty)
    : (r: CanonicalResponse)
    ensures HasNoInferenceOrExternalConstraints(r)
    ensures r.value.certainty == certainty
    ensures r.maxUniverse == maxUniverse && r.variables == variables
    ensures |r.value.varValues| == |variables| && r.definingOpaqueTypes == []
  {
    Canonical(
      maxUniverse,
      variables,
      Response(MakeIdentity(variables), ExternalConstraintsData([], [], []), certainty),
      [])
  }

  /**
   * A response is the one `ResponseNoConstraintsRaw` builds for its own
   * universe, variables and certainty exactly when it has no constraints, one
   * value per variable and no defining opaque types.
   */
  lemma NoConstraintsResponseIsRaw(r: CanonicalResponse)
    ensures r == ResponseNoConstraintsRaw(r.maxUniverse, r.variables, r.value.certainty) <==>
      HasNoInferenceOrExternalConstraints(r) && |r.value.varValues| == |r.variables| &&
      r.definingOpaqueTypes == []
  {
  }

  // ---------------------------------------------------------------------------
  // Merging several responses
  // ---------------------------------------------------------------------------

  /** Proven outright, with nothing else to record: such a response dominates all others. */
  predicate IsDominating(response: CanonicalResponse): (b: bool)
    ensures b ==> response.value.externalConstraints == ExternalConstraintsData([], [], [])
    ensures b ==> forall c :: UnifyWith(c, response.value.certainty) == c
  {
    response.value.certainty == Yes && HasNoInferenceOrExternalConstraints(response)
  }

  /** The position of the first dominating response, or `|responses|` if there is none. */
  function FirstDominating(responses: seq<CanonicalResponse>): (k: nat)
    ensures k <= |responses|
    ensures k < |responses| ==> IsDominating(responses[k])
    ensures forall j :: 0 <= j < k ==> !IsDominating(responses[j])
  {
    if |responses| == 0 then 0
    else if IsDominating(responses[0]) then 0
    else 1 + FirstDominating(responses[1..])
  }

  /**
   * One response standing for all of them: the common one if all are equal,
   * otherwise the first dominating one, otherwise none.
   */
  function TryMergeResponses(responses: seq<CanonicalResponse>): (r: Option<CanonicalResponse>)
    ensures |responses| == 0 ==> r.None?
    ensures |responses| > 0 && (forall i :: 0 <= i < |responses| ==> responses[i] == responses[0]) ==>
      r == Some(responses[0])
    ensures r.Some? ==> r.value in responses
    ensures (exists i :: 0 <= i < |responses| && responses[i] != responses[0]) ==>
      (r.Some? <==> exists i :: 0 <= i < |responses| && IsDominating(responses[i]))
    ensures (exists i :: 0 <= i < |responses| && responses[i] != responses[0]) && r.Some? ==>
      exists k :: 0 <= k < |responses| && responses[k] == r.value && IsDominating(responses[k]) &&
        forall j :: 0 <= j < k ==> !IsDominating(responses[j])
  {
    if |responses| == 0 then None
    else if forall i :: 1 <= i < |responses| ==> responses[i] == responses[0] then Some(responses[0])
    else
      var k := FirstDominating(responses);
      if k < |responses| then Some(responses[k]) else None
  }

  /** The certainties of all responses, joined one by one onto `start`. */
  function FoldCertainty(start: Certainty, responses: seq<CanonicalResponse>): (c: Certainty)
    ensures c == Yes <==> start == Yes && forall i :: 0 <= i < |responses| ==> responses[i].value.certainty == Yes
    ensures c == Maybe(Overflow) <==>
      start == Maybe(Overflow) || exists i :: 0 <= i < |responses| && responses[i].value.certainty == Maybe(Overflow)
    decreases |responses|
  {
    if |responses| == 0 then start
    else
      var c := FoldCertainty(UnifyWith(start, responses[0].value.certainty), responses[1..]);
      assert forall i :: 1 <= i < |responses| ==> responses[i] == responses[1..][i - 1];
      c
  }

  /** A response with no constraints and the given ambiguity cause. */
  function MakeAmbiguousResponseNoConstraints(
    maxInputUniverse: UniverseIndex, variables: seq<CanonicalVarKind>, cause: MaybeCause)
    : (r: CanonicalResponse)
    ensures HasNoInferenceOrExternalConstraints(r) && r.value.certainty == Maybe(cause)
  {
    ResponseNoConstraintsRaw(maxInputUniverse, variables, Maybe(cause))
  }

  /**
   * Gives up on choosing and answers with one ambiguous response summarising
   * all candidates; no candidates at all means there is no solution. The
   * folded certainty cannot be `Yes`, so the source's panic is unreachable.
   */
  function Flounder(
    maxInputUniverse: UniverseIndex, variables: seq<CanonicalVarKind>, responses: seq<CanonicalResponse>)
    : (r: Result<CanonicalResponse, NoSolution>)
    ensures r.Err? <==> |responses| == 0
    ensures r.Ok? ==>
      && HasNoInferenceOrExternalConstraints(r.value)
      && r.value.maxUniverse == maxInputUniverse && r.value.variables == variables
      && r.value.value.certainty == FoldCertainty(Ambiguous, responses)
      && r.value.value.certainty != Yes
    ensures r.Ok? ==>
      (r.value.value.certainty == Maybe(Overflow) <==>
        exists i :: 0 <= i < |responses| && responses[i].value.certainty == Maybe(Overflow))
  {
    if |responses| == 0 then Err(NoSolution)
    else
      match FoldCertainty(Ambiguous, responses)
      case Maybe(cause) => Ok(MakeAmbiguousResponseNoConstraints(maxInputUniverse, variables, cause))
  }

  /** The solver's one failure: the goal does not hold. */
  datatype NoSolution = NoSolution

  /**
   * The flounder certainty is `Ambiguity` unless some candidate overflowed, and
   * then `Overflow`, whatever order the candidates come in.
   */
  lemma FlounderCause(start: MaybeCause, responses: seq<CanonicalResponse>)
    ensures FoldCertainty(Maybe(start), responses) ==
      if start == Overflow || exists i :: 0 <= i < |responses| && responses[i].value.certainty == Maybe(Overflow)
      then Maybe(Overflow) else Maybe(Ambiguity)
  {
  }

  // ---------------------------------------------------------------------------
  // The evaluation context
  // ---------------------------------------------------------------------------

  /** One call a rule makes into the delegate's unification. */
  datatype RelateCall = SubCall(paramEnv: ParamEnv, a: Ty, b: Ty) | EqCall(paramEnv: ParamEnv, a: Ty, b: Ty)

  /**
   * The certainty a rule hands to the evaluation of its added goals (which
   * then builds the canonical response), or a definite failure.
   */
  type RuleResult = Result<Certainty, NoSolution>

  /** The inference delegate and type-context queries, as oracles. */
  datatype Delegate = Delegate(
    sub: (ParamEnv, Ty, Ty) -> bool,
    eq: (ParamEnv, Ty, Ty) -> bool,
    tryConstEvalResolve: (ParamEnv, UnevaluatedConst) -> Option<Const>,
    traitIsObjectSafe: DefId -> bool,
    wellFormedGoals: (ParamEnv, GenericArg) -> Option<seq<Goal<PredicateKind>>>,
    typeOf: (DefId, GenericArgsId) -> Ty,
    findConstTyFromEnv: (ParamEnv, nat) -> Ty)

  /** The binding of a type variable after evaluation, or the type itself. */
  function ResolveVarsIfPossible(bindings: map<nat, Ty>, ty: Ty): (r: Ty)
    ensures !ty.IsTyVar() ==> r == ty
    ensures ty.IsTyVar() && ty.infer.vid !in bindings ==> r == ty
  {
    if ty.IsTyVar() && ty.infer.vid in bindings then bindings[ty.infer.vid] else ty
  }

  class EvalCtxt {
    const delegate: Delegate
    /** Outlives obligations registered with the delegate. */
    var regionObligations: seq<RegionObligation>
    /** Nested goals queued for evaluation. */
    var nestedGoals: seq<Goal<PredicateKind>>
    /** Every `sub` and `eq` call the rules make directly into the delegate, in order. */
    var relateCalls: seq<RelateCall>
    /** The number of the next fresh type variable. */
    var nextTyVid: nat
    /**
     * The outcome of `try_evaluate_added_goals`, the context's own run of the
     * queued goals through the solver: the type-variable bindings it leaves,
     * or `None` when a goal has no solution.
     */
    const evaluateAddedGoals: seq<Goal<PredicateKind>> -> Option<map<nat, Ty>>

    constructor (delegate: Delegate, evaluateAddedGoals: seq<Goal<PredicateKind>> -> Option<map<nat, Ty>>, nextTyVid: nat)
      ensures this.delegate == delegate && this.evaluateAddedGoals == evaluateAddedGoals
      ensures this.nextTyVid == nextTyVid
      ensures regionObligations == [] && nestedGoals == [] && relateCalls == []
    {
      this.delegate := delegate;
      this.evaluateAddedGoals := evaluateAddedGoals;
      this.nextTyVid := nextTyVid;
      regionObligations := [];
      nestedGoals := [];
      relateCalls := [];
    }

    method ComputeTypeOutlivesGoal(goal: Goal<OutlivesPredicate<Ty>>) returns (r: RuleResult)
      modifies this
      ensures r == Ok(Yes)
      ensures regionObligations == old(regionObligations) + [TyOutlivesObligation(goal.pred.a, goal.pred.b)]
      ensures nestedGoals == old(nestedGoals) && relateCalls == old(relateCalls) && nextTyVid == old(nextTyVid)
    {
      regionObligations := regionObligations + [TyOutlivesObligation(goal.pred.a, goal.pred.b)];
      r := Ok(Yes);
    }

    method ComputeRegionOutlivesGoal(goal: Goal<OutlivesPredicate<Region>>) returns (r: RuleResult)
      modifies this
      ensures r == Ok(Yes)
      ensures regionObligations == old(regionObligations) + [RegionOutlivesObligation(goal.pred.a, goal.pred.b)]
      ensures nestedGoals == old(nestedGoals) && relateCalls == old(relateCalls) && nextTyVid == old(nextTyVid)
    {
      regionObligations := regionObligations + [RegionOutlivesObligation(goal.pred.a, goal.pred.b)];
      r := Ok(Yes);
    }

    /** Asks the delegate whether `a` is a subtype of `b`, recording the call. */
    method Sub(paramEnv: ParamEnv, a: Ty, b: Ty) returns (ok: bool)
      modifies this
      ensures ok == delegate.sub(paramEnv, a, b)
      ensures relateCalls == old(relateCalls) + [SubCall(paramEnv, a, b)]
      ensures regionObligations == old(regionObligations) && nestedGoals == old(nestedGoals)
      ensures nextTyVid == old(nextTyVid)
    {
      relateCalls := relateCalls + [SubCall(paramEnv, a, b)];
      ok := delegate.sub(paramEnv, a, b);
    }

    /** Asks the delegate whether `a` and `b` are equal, recording the call. */
    method Eq(paramEnv: ParamEnv, a: Ty, b: Ty) returns (ok: bool)
      modifies this
      ensures ok == delegate.eq(paramEnv, a, b)
      ensures relateCalls == old(relateCalls) + [EqCall(paramEnv, a, b)]
      ensures regionObligations == old(regionObligations) && nestedGoals == old(nestedGoals)
      ensures nextTyVid == old(nextTyVid)
    {
      relateCalls := relateCalls + [EqCall(paramEnv, a, b)];
      ok := delegate.eq(paramEnv, a, b);
    }

    /**
     * Two type variables cannot be related usefully yet: ambiguous, without
     * asking the delegate. Otherwise the answer is the delegate's `sub`.
     */
    method ComputeSubtypeGoal(goal: Goal<SubtypePredicate>) returns (r: RuleResult)
      modifies this
      ensures goal.pred.a.IsTyVar() && goal.pred.b.IsTyVar() ==>
        r == Ok(Ambiguous) && relateCalls == old(relateCalls)
      ensures !(goal.pred.a.IsTyVar() && goal.pred.b.IsTyVar()) ==>
        && relateCalls == old(relateCalls) + [SubCall(goal.paramEnv, goal.pred.a, goal.pred.b)]
        && (r == Ok(Yes) <==> delegate.sub(goal.paramEnv, goal.pred.a, goal.pred.b))
        && (r == Err(NoSolution) <==> !delegate.sub(goal.paramEnv, goal.pred.a, goal.pred.b))
      ensures regionObligations == old(regionObligations) && nestedGoals == old(nestedGoals)
      ensures nextTyVid == old(nextTyVid)
    {
      if goal.pred.a.IsTyVar() && goal.pred.b.IsTyVar() {
        r := Ok(Ambiguous);
      } else {
        var ok := Sub(goal.paramEnv, goal.pred.a, goal.pred.b);
        if !ok {
          return Err(NoSolution);
        }
        r := Ok(Yes);
      }
    }

    /** A coercion goal is the subtype goal with `a` not the expected side. */
    method ComputeCoerceGoal(goal: Goal<CoercePredicate>) returns (r: RuleResult)
      modifies this
      ensures goal.pred.a.IsTyVar() && goal.pred.b.IsTyVar() ==>
        r == Ok(Ambiguous) && relateCalls == old(relateCalls)
      ensures !(goal.pred.a.IsTyVar() && goal.pred.b.IsTyVar()) ==>
        && relateCalls == old(relateCalls) + [SubCall(goal.paramEnv, goal.pred.a, goal.pred.b)]
        && (r == Ok(Yes) <==> delegate.sub(goal.paramEnv, goal.pred.a, goal.pred.b))
        && (r == Err(NoSolution) <==> !delegate.sub(goal.paramEnv, goal.pred.a, goal.pred.b))
      ensures regionObligations == old(regionObligations) && nestedGoals == old(nestedGoals)
      ensures nextTyVid == old(nextTyVid)
    {
      r := ComputeSubtypeGoal(Goal(goal.paramEnv, SubtypePredicate(false, goal.pred.a, goal.pred.b)));
    }

    /** `Yes` exactly when the trait is object safe; nothing is recorded. */
    method ComputeObjectSafeGoal(traitDefId: DefId) returns (r: RuleResult)
      ensures r == Ok(Yes) <==> delegate.traitIsObjectSafe(traitDefId)
      ensures r == Err(NoSolution) <==> !delegate.traitIsObjectSafe(traitDefId)
    {
      if delegate.traitIsObjectSafe(traitDefId) {
        r := Ok(Yes);
      } else {
        r := Err(NoSolution);
      }
    }

    /**
     * When the argument's well-formedness can be expanded, the expansion is
     * queued and the goal holds; otherwise the goal is ambiguous.
     */
    method ComputeWellFormedGoal(goal: Goal<GenericArg>) returns (r: RuleResult)
      modifies this
      ensures delegate.wellFormedGoals(goal.paramEnv, goal.pred).Some? ==>
        r == Ok(Yes) &&
        nestedGoals == old(nestedGoals) + delegate.wellFormedGoals(goal.paramEnv, goal.pred).value
      ensures delegate.wellFormedGoals(goal.paramEnv, goal.pred).None? ==>
        r == Ok(Ambiguous) && nestedGoals == old(nestedGoals)
      ensures regionObligations == old(regionObligations) && relateCalls == old(relateCalls)
      ensures nextTyVid == old(nextTyVid)
    {
      match delegate.wellFormedGoals(goal.paramEnv, goal.pred)
      case Some(goals) =>
        nestedGoals := nestedGoals + goals;
        r := Ok(Yes);
      case None =>
        r := Ok(Ambiguous);
    }

    /**
     * Never a failure: an unevaluated constant is `Yes` if it evaluates and
     * ambiguous if not, an inference variable is ambiguous, and placeholders,
     * values and errors hold. Parameters, bound variables and expressions
     * cannot reach this rule.
     */
    method ComputeConstEvaluatableGoal(goal: Goal<Const>) returns (r: RuleResult)
      requires !goal.pred.Param? && !goal.pred.Bound? && !goal.pred.Expr?
      ensures r.Ok?
      ensures goal.pred.Unevaluated? ==>
        (r.value == Yes <==> delegate.tryConstEvalResolve(goal.paramEnv, goal.pred.uv).Some?)
      ensures goal.pred.Unevaluated? && delegate.tryConstEvalResolve(goal.paramEnv, goal.pred.uv).None? ==>
        r.value == Ambiguous
      ensures goal.pred.Infer? ==> r.value == Ambiguous
      ensures goal.pred.Placeholder? || goal.pred.Value? || goal.pred.Error? ==> r.value == Yes
    {
      match goal.pred
      case Unevaluated(uv) =>
        if delegate.tryConstEvalResolve(goal.paramEnv, uv).Some? {
          r := Ok(Yes);
        } else {
          r := Ok(Ambiguous);
        }
      case Infer(_) => r := Ok(Ambiguous);
      case Placeholder(_) => r := Ok(Yes);
      case Value(_, _) => r := Ok(Yes);
      case Error => r := Ok(Yes);
    }

    /**
     * Effect variables and errors hold and other inference variables are
     * ambiguous, without asking the delegate. For every other constant, its
     * natural type must equal the goal's type.
     */
    method ComputeConstArgHasTypeGoal(goal: Goal<(Const, Ty)>) returns (r: RuleResult)
      requires !goal.pred.0.Param? && !goal.pred.0.Bound? && !goal.pred.0.Expr?
      modifies this
      ensures (goal.pred.0.Infer? && goal.pred.0.infer.EffectVar?) || goal.pred.0.Error? ==>
        r == Ok(Yes) && relateCalls == old(relateCalls)
      ensures goal.pred.0.Infer? && !goal.pred.0.infer.EffectVar? ==>
        r == Ok(Ambiguous) && relateCalls == old(relateCalls)
      ensures !goal.pred.0.Infer? && !goal.pred.0.Error? ==>
        var naturalTy := match goal.pred.0
          case Unevaluated(uv) => delegate.typeOf(uv.def, uv.args)
          case Value(ty, _) => ty
          case Placeholder(p) => delegate.findConstTyFromEnv(goal.paramEnv, p)
          case _ => goal.pred.1;
        && relateCalls == old(relateCalls) + [EqCall(goal.paramEnv, naturalTy, goal.pred.1)]
        && (r == Err(NoSolution) <==> !delegate.eq(goal.paramEnv, naturalTy, goal.pred.1))
        && (r != Err(NoSolution) ==> r == Ok(Yes))
      ensures regionObligations == old(regionObligations) && nestedGoals == old(nestedGoals)
      ensures nextTyVid == old(nextTyVid)
    {
      var (ct, ty) := goal.pred;
      var ctTy: Ty;
      match ct {
        case Infer(EffectVar(_)) => return Ok(Yes);
        case Infer(_) => return Ok(Ambiguous);
        case Error => return Ok(Yes);
        case Unevaluated(uv) => ctTy := delegate.typeOf(uv.def, uv.args);
        case Value(t, _) => ctTy := t;
        case Placeholder(p) => ctTy := delegate.findConstTyFromEnv(goal.paramEnv, p);
      }
      var ok := Eq(goal.paramEnv, ctTy, ty);
      if !ok {
        return Err(NoSolution);
      }
      r := Ok(Yes);
    }

    /** A fresh type variable. */
    method NextTyInfer() returns (ty: Ty)
      modifies this
      ensures ty == Ty.Infer(TyVar(old(nextTyVid))) && nextTyVid == old(nextTyVid) + 1
      ensures regionObligations == old(regionObligations) && nestedGoals == old(nestedGoals)
      ensures relateCalls == old(relateCalls)
    {
      ty := Ty.Infer(TyVar(nextTyVid));
      nextTyVid := nextTyVid + 1;
    }

    /**
     * Non-alias types are returned as they are. An alias is related to a fresh
     * variable by one queued alias-relate goal; then the queued goals are
     * evaluated, a failure is no solution, and the variable's binding is the result.
     */
    method StructurallyNormalizeTy(paramEnv: ParamEnv, ty: Ty) returns (r: Result<Ty, NoSolution>)
      modifies this
      ensures !ty.Alias? ==>
        && r == Ok(ty)
        && nestedGoals == old(nestedGoals) && nextTyVid == old(nextTyVid)
      ensures ty.Alias? ==>
        var freshVar := Ty.Infer(TyVar(old(nextTyVid)));
        && nextTyVid == old(nextTyVid) + 1
        && nestedGoals == old(nestedGoals) + [Goal(paramEnv, AliasRelate(TyTerm(ty), TyTerm(freshVar), Equate))]
        && (r.Err? <==> evaluateAddedGoals(nestedGoals).None?)
        && (r.Ok? ==> r.value == ResolveVarsIfPossible(evaluateAddedGoals(nestedGoals).value, freshVar))
      ensures regionObligations == old(regionObligations) && relateCalls == old(relateCalls)
    {
      if ty.Alias? {
        var normalizedTy := NextTyInfer();
        var aliasRelateGoal := Goal(paramEnv, AliasRelate(TyTerm(ty), TyTerm(normalizedTy), Equate));
        nestedGoals := nestedGoals + [aliasRelateGoal];
        match evaluateAddedGoals(nestedGoals)
        case None => return Err(NoSolution);
        case Some(bindings) => r := Ok(ResolveVarsIfPossible(bindings, normalizedTy));
      } else {
        r := Ok(ty);
      }
    }
  }
}
