/**
 * The generic parameters in scope of a declaration, as rust-analyzer's type
 * layer sees them: the declaration's own parameters (type and const
 * parameters first, then lifetimes) followed by those of its parent (the impl,
 * trait or enum around it). Every parameter has one flat index in that order,
 * and the substitutions built from a `Generics` are numbered the same way.
 */
module HirGenerics {
  import opened Wrappers

  type Name = nat

  // ---------------------------------------------------------------------------
  // Declarations and their parameter lists
  // ---------------------------------------------------------------------------

  datatype AdtId = StructId(id: nat) | UnionId(id: nat) | EnumId(id: nat)

  /** The declarations that can carry generic parameters. */
  datatype GenericDefId =
    | FunctionId(id: nat)
    | Adt(adt: AdtId)
    | TraitId(id: nat)
    | TraitAliasId(id: nat)
    | TypeAliasId(id: nat)
    | ImplId(id: nat)
    | EnumVariantId(id: nat)
    | ConstId(id: nat)

  /** Where an associated item (function, type alias, const) is declared. */
  datatype ItemContainerId =
    | ModuleContainer(id: nat)
    | ImplContainer(id: nat)
    | TraitContainer(id: nat)
    | ExternBlockContainer(id: nat)

  datatype TypeParamProvenance = TypeParamList | TraitSelf | ArgumentImplTrait

  datatype TypeOrConstParamData =
    | TypeParamData(name: Name, provenance: TypeParamProvenance)
    | ConstParamData(name: Name)

  datatype LifetimeParamData = LifetimeParamData(name: Name)

  /** The parameters a declaration declares itself; local ids are positions. */
  datatype GenericParams = GenericParams(
    typeOrConsts: seq<TypeOrConstParamData>,
    lifetimes: seq<LifetimeParamData>)
  {
    function Len(): nat {
      |typeOrConsts| + |lifetimes|
    }
  }

  datatype TypeOrConstParamId = TypeOrConstParamId(parent: GenericDefId, localId: nat)

  datatype LifetimeParamId = LifetimeParamId(parent: GenericDefId, localId: nat)

  datatype GenericParamId =
    | TypeParam(toc: TypeOrConstParamId)
    | ConstParam(toc: TypeOrConstParamId)
    | LifetimeParam(lt: LifetimeParamId)
  {
    /** The declaration that declares the parameter. */
    function Owner(): GenericDefId {
      if LifetimeParam? then lt.parent else toc.parent
    }
  }

  datatype GenericParamDataRef =
    | TypeOrConstData(tocData: TypeOrConstParamData)
    | LifetimeData(ltData: LifetimeParamData)

  /** One item of the iteration: a parameter's id and its data. */
  datatype GenericParam = GenericParam(id: GenericParamId, data: GenericParamDataRef)

  /** The database lookups the parent computation needs, as plain functions. */
  datatype DefDatabase = DefDatabase(
    genericParams: GenericDefId -> GenericParams,
    functionContainer: nat -> ItemContainerId,
    typeAliasContainer: nat -> ItemContainerId,
    constContainer: nat -> ItemContainerId,
    variantParent: nat -> nat)

  datatype Generics = Generics(
    def: GenericDefId,
    params: GenericParams,
    parentGenerics: Option<Generics>)

  /**
   * The shape `BuildGenerics` produces: a parent, if any, has no parent of its
   * own and belongs to another declaration.
   */
  ghost predicate WellFormed(g: Generics) {
    g.parentGenerics.Some? ==>
      g.parentGenerics.value.parentGenerics.None? && g.parentGenerics.value.def != g.def
  }

  // ---------------------------------------------------------------------------
  // Parents
  // ---------------------------------------------------------------------------

  /** The declaration whose parameters are also in scope of `def`. */
  function ParentGenericDef(db: DefDatabase, def: GenericDefId): (r: Option<GenericDefId>)
    ensures def.Adt? || def.TraitId? || def.ImplId? || def.TraitAliasId? ==> r.None?
    ensures def.EnumVariantId? ==> r == Some(Adt(EnumId(db.variantParent(def.id))))
    ensures r.Some? ==> r.value.ImplId? || r.value.TraitId? || (r.value.Adt? && r.value.adt.EnumId?)
    ensures def.FunctionId? || def.TypeAliasId? || def.ConstId? ==>
      var c := if def.FunctionId? then db.functionContainer(def.id)
               else if def.TypeAliasId? then db.typeAliasContainer(def.id)
               else db.constContainer(def.id);
      && (c.ImplContainer? ==> r == Some(ImplId(c.id)))
      && (c.TraitContainer? ==> r == Some(TraitId(c.id)))
      && (c.ModuleContainer? || c.ExternBlockContainer? ==> r.None?)
  {
    var container :=
      match def
      case FunctionId(it) => Some(db.functionContainer(it))
      case TypeAliasId(it) => Some(db.typeAliasContainer(it))
      case ConstId(it) => Some(db.constContainer(it))
      case _ => None;
    match def
    case EnumVariantId(it) => Some(Adt(EnumId(db.variantParent(it))))
    case Adt(_) => None
    case TraitId(_) => None
    case ImplId(_) => None
    case TraitAliasId(_) => None
    case _ =>
      match container.value
      case ImplContainer(it) => Some(ImplId(it))
      case TraitContainer(it) => Some(TraitId(it))
      case ModuleContainer(_) => None
      case ExternBlockContainer(_) => None
  }

  /** Every parent has no parent: the parent chain is at most one step long. */
  lemma ParentGenericDefIsRoot(db: DefDatabase, def: GenericDefId)
    ensures ParentGenericDef(db, def).Some? ==>
      ParentGenericDef(db, ParentGenericDef(db, def).value).None? &&
      ParentGenericDef(db, def).value != def
  {
  }

  /** How far `def` is from a declaration without a parent; bounds the recursion below. */
  function DefDepth(def: GenericDefId): nat {
    if def.FunctionId? || def.TypeAliasId? || def.ConstId? || def.EnumVariantId? then 1 else 0
  }

  /** The generics of `def`: its own parameters and, recursively, its parent's. */
  function BuildGenerics(db: DefDatabase, def: GenericDefId): (g: Generics)
    ensures g.def == def && g.params == db.genericParams(def)
    ensures g.parentGenerics.Some? <==> ParentGenericDef(db, def).Some?
    ensures g.parentGenerics.Some? ==> g.parentGenerics.value.def == ParentGenericDef(db, def).value
    ensures g.parentGenerics.Some? ==> g.parentGenerics.value.params == db.genericParams(g.parentGenerics.value.def)
    ensures WellFormed(g)
    decreases DefDepth(def)
  {
    var parent :=
      match ParentGenericDef(db, def)
      case Some(p) => Some(BuildGenerics(db, p))
      case None => None;
    Generics(def, db.genericParams(def), parent)
  }

  /** The parent's generics when there is a parent, otherwise `g` itself. */
  function ParentOrSelf(g: Generics): (r: Generics)
    ensures g.parentGenerics.None? ==> r == g
    ensures g.parentGenerics.Some? ==> r == g.parentGenerics.value
  {
    match g.parentGenerics
    case Some(p) => p
    case None => g
  }

  /** For a well-formed `g`, `ParentOrSelf` is the declaration at the top of the chain. */
  lemma ParentOrSelfIsRoot(g: Generics)
    requires WellFormed(g)
    ensures ParentOrSelf(g).parentGenerics.None?
    ensures Len(g) == Len(ParentOrSelf(g)) + (if g.parentGenerics.Some? then LenSelf(g) else 0)
  {
  }

  // ---------------------------------------------------------------------------
  // Iteration order
  // ---------------------------------------------------------------------------

  function FromTypeOrConst(def: GenericDefId, localId: nat, p: TypeOrConstParamData): GenericParam {
    var id := TypeOrConstParamId(def, localId);
    match p
    case TypeParamData(_, _) => GenericParam(TypeParam(id), TypeOrConstData(p))
    case ConstParamData(_) => GenericParam(ConstParam(id), TypeOrConstData(p))
  }

  function FromLifetime(def: GenericDefId, localId: nat, p: LifetimeParamData): GenericParam {
    GenericParam(LifetimeParam(LifetimeParamId(def, localId)), LifetimeData(p))
  }

  /** The declaration's own type and const parameters, then its own lifetimes. */
  function IterSelf(g: Generics): (s: seq<GenericParam>)
    ensures |s| == LenSelf(g)
    ensures forall i :: 0 <= i < |g.params.typeOrConsts| ==>
      s[i] == FromTypeOrConst(g.def, i, g.params.typeOrConsts[i])
    ensures forall i :: |g.params.typeOrConsts| <= i < |s| ==>
      s[i] == FromLifetime(g.def, i - |g.params.typeOrConsts|, g.params.lifetimes[i - |g.params.typeOrConsts|])
    ensures forall i :: 0 <= i < |s| ==> s[i].id.Owner() == g.def
  {
    var tocs := g.params.typeOrConsts;
    var lts := g.params.lifetimes;
    seq(|tocs|, i requires 0 <= i < |tocs| => FromTypeOrConst(g.def, i, tocs[i]))
    + seq(|lts|, i requires 0 <= i < |lts| => FromLifetime(g.def, i, lts[i]))
  }

  /** The parent's own type and const parameters, then its own lifetimes. */
  function IterParent(g: Generics): (s: seq<GenericParam>)
    ensures g.parentGenerics.None? ==> s == []
    ensures g.parentGenerics.Some? ==>
      |s| == LenSelf(g.parentGenerics.value) &&
      forall i :: 0 <= i < |s| ==> s[i].id.Owner() == g.parentGenerics.value.def
  {
    match g.parentGenerics
    case Some(p) => IterSelf(p)
    case None => []
  }

  /** All parameters in scope: self first, then the parent. */
  function Iter(g: Generics): (s: seq<GenericParam>)
    ensures |s| == LenSelf(g) + |IterParent(g)|
    ensures forall k :: 0 <= k < LenSelf(g) ==> s[k].id.Owner() == g.def
    ensures forall k :: LenSelf(g) <= k < |s| ==>
      g.parentGenerics.Some? && s[k].id.Owner() == g.parentGenerics.value.def
  {
    IterSelf(g) + IterParent(g)
  }

  function IterId(g: Generics): (ids: seq<GenericParamId>)
    ensures |ids| == |Iter(g)|
    ensures forall k :: 0 <= k < |ids| ==> ids[k] == Iter(g)[k].id
  {
    var params := Iter(g);
    seq(|params|, k requires 0 <= k < |params| => params[k].id)
  }

  /** `IterSelf` is the part of `Iter` that comes before the parent's parameters. */
  lemma IterSelfIsPrefix(g: Generics)
    ensures |Iter(g)| >= LenSelf(g)
    ensures Iter(g)[..LenSelf(g)] == IterSelf(g)
    ensures Iter(g)[LenSelf(g)..] == IterParent(g)
  {
  }

  // ---------------------------------------------------------------------------
  // Lengths and the provenance split
  // ---------------------------------------------------------------------------

  /** Total number of parameters in scope, the parent's included. */
  function Len(g: Generics): (r: nat)
    ensures r >= LenSelf(g)
    ensures g.parentGenerics.None? ==> r == LenSelf(g)
    ensures WellFormed(g) ==> r == LenSelf(g) + |IterParent(g)|
  {
    (match g.parentGenerics
     case Some(p) => Len(p)
     case None => 0)
    + g.params.Len()
  }

  /** Number of parameters the declaration declares itself. */
  function LenSelf(g: Generics): nat {
    g.params.Len()
  }

  function LenTypeAndConstParams(g: Generics): nat {
    |g.params.typeOrConsts|
  }

  /** `Iter` yields exactly `Len` parameters once the parent chain is well formed. */
  lemma IterLength(g: Generics)
    requires WellFormed(g)
    ensures |Iter(g)| == Len(g)
    ensures |IterSelf(g)| == LenSelf(g)
  {
  }

  /** A chain with a grandparent can make `Iter` shorter than `Len`: `Iter` skips the grandparent's parameters. */
  lemma IterOmitsGrandparent()
    ensures exists g: Generics :: |Iter(g)| < Len(g)
  {
    var one := GenericParams([TypeParamData(0, TypeParamList)], []);
    var none := GenericParams([], []);
    var grandparent := Generics(ImplId(0), one, None);
    var parent := Generics(TraitId(0), none, Some(grandparent));
    var g := Generics(FunctionId(0), none, Some(parent));
    assert |Iter(g)| == 0;
    assert Len(g) == 1;
  }

  /** The classes `provenance_split` counts the type and const parameters by. */
  datatype ParamClass = SelfParam | TypeParamClass | ConstParamClass | ImplTraitParam

  function ClassOf(p: TypeOrConstParamData): ParamClass {
    match p
    case TypeParamData(_, TypeParamList) => TypeParamClass
    case TypeParamData(_, TraitSelf) => SelfParam
    case TypeParamData(_, ArgumentImplTrait) => ImplTraitParam
    case ConstParamData(_) => ConstParamClass
  }

  /** How many of `s` are of class `c`. */
  function Count(s: seq<TypeOrConstParamData>, c: ParamClass): nat {
    if |s| == 0 then 0
    else Count(s[..|s| - 1], c) + (if ClassOf(s[|s| - 1]) == c then 1 else 0)
  }

  /** The four classes partition the type and const parameters. */
  lemma {:induction false} CountsPartition(s: seq<TypeOrConstParamData>)
    ensures Count(s, SelfParam) + Count(s, TypeParamClass) + Count(s, ConstParamClass)
            + Count(s, ImplTraitParam) == |s|
  {
    if |s| > 0 {
      CountsPartition(s[..|s| - 1]);
    }
  }

  /**
   * (parent total, self params, type params, const params, impl-trait params,
   * lifetimes), counted one parameter at a time as the source's closures do.
   */
  method ProvenanceSplit(g: Generics)
    returns (parentLen: nat, selfParams: nat, typeParams: nat, constParams: nat,
             implTraitParams: nat, lifetimeParams: nat)
    ensures parentLen == (match g.parentGenerics case Some(p) => Len(p) case None => 0)
    ensures parentLen + LenSelf(g) == Len(g)
    ensures selfParams == Count(g.params.typeOrConsts, SelfParam)
    ensures typeParams == Count(g.params.typeOrConsts, TypeParamClass)
    ensures constParams == Count(g.params.typeOrConsts, ConstParamClass)
    ensures implTraitParams == Count(g.params.typeOrConsts, ImplTraitParam)
    ensures selfParams + typeParams + constParams + implTraitParams == LenTypeAndConstParams(g)
    ensures lifetimeParams == |g.params.lifetimes|
  {
    selfParams, typeParams, implTraitParams, constParams, lifetimeParams := 0, 0, 0, 0, 0;
    var tocs := g.params.typeOrConsts;
    for i := 0 to |tocs|
      invariant selfParams == Count(tocs[..i], SelfParam)
      invariant typeParams == Count(tocs[..i], TypeParamClass)
      invariant constParams == Count(tocs[..i], ConstParamClass)
      invariant implTraitParams == Count(tocs[..i], ImplTraitParam)
    {
      assert tocs[..i + 1][..i] == tocs[..i];
      match tocs[i]
      case TypeParamData(_, TypeParamList) => typeParams := typeParams + 1;
      case TypeParamData(_, TraitSelf) => selfParams := selfParams + 1;
      case TypeParamData(_, ArgumentImplTrait) => implTraitParams := implTraitParams + 1;
      case ConstParamData(_) => constParams := constParams + 1;
    }
    assert tocs[..|tocs|] == tocs;
    CountsPartition(tocs);

    var lts := g.params.lifetimes;
    for i := 0 to |lts|
      invariant lifetimeParams == i
    {
      lifetimeParams := lifetimeParams + 1;
    }

    parentLen := match g.parentGenerics case Some(p) => Len(p) case None => 0;
  }

  // ---------------------------------------------------------------------------
  // Flat indices
  // ---------------------------------------------------------------------------

  /** The flat index of a type or const parameter, with its data. */
  function FindTypeOrConstParam(g: Generics, param: TypeOrConstParamId)
    : (r: Option<(nat, TypeOrConstParamData)>)
    ensures r.Some? ==> r.value.0 < Len(g)
    ensures param.parent == g.def ==>
      (r.Some? <==> param.localId < |g.params.typeOrConsts|) &&
      (r.Some? ==> r.value == (param.localId, g.params.typeOrConsts[param.localId]))
    ensures param.parent != g.def && r.Some? ==> r.value.0 >= LenSelf(g)
  {
    if param.parent == g.def then
      var idx := param.localId;
      if idx >= |g.params.typeOrConsts| then None
      else Some((idx, g.params.typeOrConsts[idx]))
    else
      match g.parentGenerics
      case None => None
      case Some(p) =>
        // Parent parameters come after the parameters of the declaration itself.
        match FindTypeOrConstParam(p, param)
        case None => None
        case Some((idx, data)) => Some((LenSelf(g) + idx, data))
  }

  function TypeOrConstParamIdx(g: Generics, param: TypeOrConstParamId): (r: Option<nat>)
    ensures r.Some? ==> r.value < Len(g)
    ensures param.parent == g.def ==>
      r == if param.localId < |g.params.typeOrConsts| then Some(param.localId) else None
    ensures param.parent != g.def && r.Some? ==> r.value >= LenSelf(g)
  {
    match FindTypeOrConstParam(g, param)
    case Some((idx, _)) => Some(idx)
    case None => None
  }

  /** The flat index of a lifetime parameter, with its data. */
  function FindLifetime(g: Generics, lifetime: LifetimeParamId)
    : (r: Option<(nat, LifetimeParamData)>)
    ensures r.Some? ==> r.value.0 < Len(g)
    ensures lifetime.parent == g.def ==>
      (r.Some? <==> lifetime.localId < |g.params.lifetimes|) &&
      (r.Some? ==> r.value == (LenTypeAndConstParams(g) + lifetime.localId,
                               g.params.lifetimes[lifetime.localId]))
    ensures lifetime.parent != g.def && r.Some? ==> r.value.0 >= LenSelf(g)
  {
    if lifetime.parent == g.def then
      var idx := lifetime.localId;
      if idx >= |g.params.lifetimes| then None
      else Some((LenTypeAndConstParams(g) + idx, g.params.lifetimes[idx]))
    else
      match g.parentGenerics
      case None => None
      case Some(p) =>
        match FindLifetime(p, lifetime)
        case None => None
        case Some((idx, data)) => Some((LenSelf(g) + idx, data))
  }

  function LifetimeIdx(g: Generics, lifetime: LifetimeParamId): (r: Option<nat>)
    ensures r.Some? ==> r.value < Len(g)
    ensures lifetime.parent == g.def ==>
      r == if lifetime.localId < |g.params.lifetimes|
           then Some(LenTypeAndConstParams(g) + lifetime.localId) else None
    ensures lifetime.parent != g.def && r.Some? ==> r.value >= LenSelf(g)
  {
    match FindLifetime(g, lifetime)
    case Some((idx, _)) => Some(idx)
    case None => None
  }

  /** The type or const parameter id at a position of the iteration, if it is one. */
  function TypeOrConstIdOf(id: GenericParamId): Option<TypeOrConstParamId> {
    match id
    case TypeParam(p) => Some(p)
    case ConstParam(p) => Some(p)
    case LifetimeParam(_) => None
  }

  function LifetimeIdOf(id: GenericParamId): Option<LifetimeParamId> {
    match id
    case LifetimeParam(l) => Some(l)
    case _ => None
  }

  /** Position `k` of `Iter` lies in the declaration's own part or in its parent's. */
  lemma IterAt(g: Generics, k: nat)
    requires k < |Iter(g)|
    ensures k < LenSelf(g) ==> Iter(g)[k] == IterSelf(g)[k]
    ensures k >= LenSelf(g) ==>
      g.parentGenerics.Some? && Iter(g)[k] == IterSelf(g.parentGenerics.value)[k - LenSelf(g)]
  {
  }

  /** An index `find_type_or_const_param` returns is the position of that parameter in `Iter`. */
  lemma TypeOrConstParamIdxSound(g: Generics, param: TypeOrConstParamId)
    requires WellFormed(g)
    requires FindTypeOrConstParam(g, param).Some?
    ensures var (idx, data) := FindTypeOrConstParam(g, param).value;
      idx < |Iter(g)| && Iter(g)[idx] == FromTypeOrConst(param.parent, param.localId, data)
  {
  }

  /** The type or const parameter at a position of `Iter` is found at that position. */
  lemma TypeOrConstParamIdxComplete(g: Generics, k: nat)
    requires WellFormed(g)
    requires k < |Iter(g)| && !Iter(g)[k].id.LifetimeParam?
    ensures TypeOrConstParamIdx(g, Iter(g)[k].id.toc) == Some(k)
  {
  }

  /**
   * `find_type_or_const_param` agrees with the iteration order: it returns `k`
   * exactly when position `k` of `Iter` is that parameter, and then with the
   * data found there.
   */
  lemma TypeOrConstParamIdxMatchesIter(g: Generics, param: TypeOrConstParamId, k: nat)
    requires WellFormed(g)
    ensures TypeOrConstParamIdx(g, param) == Some(k) <==>
      k < |Iter(g)| && TypeOrConstIdOf(Iter(g)[k].id) == Some(param)
    ensures FindTypeOrConstParam(g, param).Some? ==>
      var (idx, data) := FindTypeOrConstParam(g, param).value;
      idx < |Iter(g)| && Iter(g)[idx].data == TypeOrConstData(data)
  {
  }

  /** A lifetime index `find_lifetime` returns is the position of that lifetime in `Iter`. */
  lemma LifetimeIdxSound(g: Generics, lifetime: LifetimeParamId)
    requires WellFormed(g)
    requires FindLifetime(g, lifetime).Some?
    ensures var (idx, data) := FindLifetime(g, lifetime).value;
      idx < |Iter(g)| && Iter(g)[idx] == FromLifetime(lifetime.parent, lifetime.localId, data)
  {
  }

  /** The lifetime at a position of `Iter` is found by `find_lifetime` at that position. */
  lemma LifetimeIdxComplete(g: Generics, k: nat)
    requires WellFormed(g)
    requires k < |Iter(g)| && Iter(g)[k].id.LifetimeParam?
    ensures LifetimeIdx(g, Iter(g)[k].id.lt) == Some(k)
  {
  }

  /** `find_lifetime` agrees with the iteration order, in both directions. */
  lemma LifetimeIdxMatchesIter(g: Generics, lifetime: LifetimeParamId, k: nat)
    requires WellFormed(g)
    ensures LifetimeIdx(g, lifetime) == Some(k) <==>
      k < |Iter(g)| && LifetimeIdOf(Iter(g)[k].id) == Some(lifetime)
    ensures FindLifetime(g, lifetime).Some? ==>
      var (idx, data) := FindLifetime(g, lifetime).value;
      idx < |Iter(g)| && Iter(g)[idx].data == LifetimeData(data)
  {
    if FindLifetime(g, lifetime).Some? {
      LifetimeIdxSound(g, lifetime);
    }
    if k < |Iter(g)| && LifetimeIdOf(Iter(g)[k].id) == Some(lifetime) {
      LifetimeIdxComplete(g, k);
    }
  }

  /**
   * Every position of the iteration is the flat index of the parameter found
   * there, and every index the lookups return is below `Len`.
   */
  lemma IterPositionIsIndex(g: Generics, k: nat)
    requires WellFormed(g)
    requires k < |Iter(g)|
    ensures k < Len(g)
    ensures !Iter(g)[k].id.LifetimeParam? ==> TypeOrConstParamIdx(g, Iter(g)[k].id.toc) == Some(k)
    ensures Iter(g)[k].id.LifetimeParam? ==> LifetimeIdx(g, Iter(g)[k].id.lt) == Some(k)
  {
  }

  // ---------------------------------------------------------------------------
  // Substitutions
  // ---------------------------------------------------------------------------

  datatype BoundVar = BoundVar(debruijn: nat, index: nat)

  /** What a substitution entry refers to: a bound variable or a placeholder. */
  datatype ParamRef = BoundVarRef(bv: BoundVar) | PlaceholderRef(placeholder: nat)

  type ConstTy = nat

  datatype SubstArg =
    | TyArg(param: ParamRef)
    | ConstArg(param: ParamRef, ty: ConstTy)
    | LifetimeArg(param: ParamRef)

  /** The database lookups the substitutions need. */
  datatype HirDatabase = HirDatabase(
    constParamTy: TypeOrConstParamId -> ConstTy,
    toPlaceholderIdx: TypeOrConstParamId -> nat,
    ltToPlaceholderIdx: LifetimeParamId -> nat)

  /** A substitution entry has the kind of the parameter it replaces. */
  predicate KindMatches(id: GenericParamId, arg: SubstArg) {
    (id.TypeParam? <==> arg.TyArg?) &&
    (id.ConstParam? <==> arg.ConstArg?) &&
    (id.LifetimeParam? <==> arg.LifetimeArg?)
  }

  /** Replaces each parameter by the bound variable numbered by its position. */
  function BoundVarsSubst(db: HirDatabase, g: Generics, debruijn: nat): (s: seq<SubstArg>)
    ensures |s| == |IterId(g)|
    ensures forall idx :: 0 <= idx < |s| ==>
      s[idx].param == BoundVarRef(BoundVar(debruijn, idx)) && KindMatches(IterId(g)[idx], s[idx])
  {
    var ids := IterId(g);
    seq(|ids|, idx requires 0 <= idx < |ids| =>
      match ids[idx]
      case ConstParam(id) => ConstArg(BoundVarRef(BoundVar(debruijn, idx)), db.constParamTy(id))
      case TypeParam(_) => TyArg(BoundVarRef(BoundVar(debruijn, idx)))
      case LifetimeParam(_) => LifetimeArg(BoundVarRef(BoundVar(debruijn, idx))))
  }

  /** Replaces each parameter by its own placeholder. */
  function PlaceholderSubst(db: HirDatabase, g: Generics): (s: seq<SubstArg>)
    ensures |s| == |IterId(g)|
    ensures forall idx :: 0 <= idx < |s| ==>
      s[idx].param.PlaceholderRef? && KindMatches(IterId(g)[idx], s[idx])
  {
    var ids := IterId(g);
    seq(|ids|, idx requires 0 <= idx < |ids| =>
      match ids[idx]
      case TypeParam(id) => TyArg(PlaceholderRef(db.toPlaceholderIdx(id)))
      case ConstParam(id) => ConstArg(PlaceholderRef(db.toPlaceholderIdx(id)), db.constParamTy(id))
      case LifetimeParam(id) => LifetimeArg(PlaceholderRef(db.ltToPlaceholderIdx(id))))
  }

  /**
   * Looking a type or const parameter up by its flat index in the bound-variable
   * substitution finds the bound variable with that index, of the parameter's kind.
   */
  lemma BoundVarsSubstAtParamIdx(db: HirDatabase, g: Generics, debruijn: nat, param: TypeOrConstParamId)
    requires WellFormed(g)
    requires TypeOrConstParamIdx(g, param).Some?
    ensures var k := TypeOrConstParamIdx(g, param).value;
      k < |BoundVarsSubst(db, g, debruijn)| &&
      BoundVarsSubst(db, g, debruijn)[k].param == BoundVarRef(BoundVar(debruijn, k)) &&
      (BoundVarsSubst(db, g, debruijn)[k].TyArg? || BoundVarsSubst(db, g, debruijn)[k].ConstArg?)
  {
  }
}
