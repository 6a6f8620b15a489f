/**
 * Dispatcher synthesis: the parameter list and the body of each of the six
 * generated functions.  The four body builders loop over the members and
 * push statements or match arms, as the source does; each is proved to build
 * the body its specification function describes, and module Trace proves
 * what running those bodies does.
 */
module Dispatch {
  import opened Wrappers
  import opened Syntax
  import opened Errors
  import opened Kinds
  import opened Naming
  import opened Forwarding
  import Args

  /** What the calls and tags of one dispatcher share. */
  datatype Ctx = Ctx(isMethod: bool, structIdent: string, generics: seq<string>,
                     args: seq<Arg>, enumName: string, void: bool)

  function MemberCall(ctx: Ctx, name: string): CallExpr {
    InnerCall(ctx.isMethod, name, ctx.structIdent, ctx.generics, ctx.args)
  }

  /** The tag of member `k`: `k` as a `usize` literal, or `Enum::name_k`. */
  function TagFor(ctx: Ctx, st: SpecificationType, names: seq<string>, k: nat): TagExpr
    requires k < |names|
  {
    if st == Enum then VariantLit(ctx.enumName, names[k]) else UsizeLit(k)
  }

  /** The `_ => panic!(..)` arm of the `usize`-selected dispatchers. */
  const InvalidIndexArm: Arm := Arm(Wildcard, PanicInvalidIndex)

  // ---- invoke_all ----

  /** `consumer(call);`, or `call;` when the members return nothing. */
  function AllStmt(ctx: Ctx, name: string): Stmt {
    if ctx.void then Semi(CallOnly(MemberCall(ctx, name)))
    else Semi(ConsumerCall([ResultArg(MemberCall(ctx, name))]))
  }

  function AllStmts(ctx: Ctx, names: seq<string>, n: nat): seq<Stmt>
    requires n <= |names|
  {
    if n == 0 then [] else AllStmts(ctx, names, n - 1) + [AllStmt(ctx, names[n - 1])]
  }

  method InvokeAllBlock(ctx: Ctx, methods: seq<Method>) returns (stmts: seq<Stmt>)
    ensures stmts == AllStmts(ctx, Names(methods), |methods|)
  {
    stmts := [];
    var i := 0;
    while i < |methods|
      invariant 0 <= i <= |methods|
      invariant stmts == AllStmts(ctx, Names(methods), i)
    {
      var innerCall := MemberCall(ctx, methods[i].sig.ident);
      if !ctx.void {
        stmts := stmts + [Semi(ConsumerCall([ResultArg(innerCall)]))];
      } else {
        stmts := stmts + [Semi(CallOnly(innerCall))];
      }
      i := i + 1;
    }
  }

  /** `invoke_all` has exactly one statement per member, in declaration order. */
  lemma {:induction false} AllStmtsAt(ctx: Ctx, names: seq<string>, n: nat)
    requires n <= |names|
    ensures |AllStmts(ctx, names, n)| == n
    ensures forall k :: 0 <= k < n ==> AllStmts(ctx, names, n)[k] == AllStmt(ctx, names[k])
  {
    if n > 0 {
      AllStmtsAt(ctx, names, n - 1);
    }
  }

  // ---- invoke_subset ----

  /** `k => consumer(call_k),` or `k => call_k,`. */
  function SubsetArm(ctx: Ctx, names: seq<string>, k: nat): Arm
    requires k < |names|
  {
    var call := MemberCall(ctx, names[k]);
    Arm(UsizePat(k), ExprBody(if ctx.void then CallOnly(call) else ConsumerCall([ResultArg(call)])))
  }

  function SubsetArms(ctx: Ctx, names: seq<string>, n: nat): seq<Arm>
    requires n <= |names|
  {
    if n == 0 then [] else SubsetArms(ctx, names, n - 1) + [SubsetArm(ctx, names, n - 1)]
  }

  function SubsetStmts(ctx: Ctx, names: seq<string>): seq<Stmt> {
    [ForMatch(SubsetArms(ctx, names, |names|) + [InvalidIndexArm])]
  }

  method InvokeSomeBlock(ctx: Ctx, methods: seq<Method>) returns (stmts: seq<Stmt>)
    ensures stmts == SubsetStmts(ctx, Names(methods))
  {
    var arms: seq<Arm> := [];
    var index := 0;
    while index < |methods|
      invariant 0 <= index <= |methods|
      invariant arms == SubsetArms(ctx, Names(methods), index)
    {
      var innerCall := MemberCall(ctx, methods[index].sig.ident);
      var outerCall := if !ctx.void then ConsumerCall([ResultArg(innerCall)]) else CallOnly(innerCall);
      arms := arms + [Arm(UsizePat(index), ExprBody(outerCall))];
      index := index + 1;
    }
    arms := arms + [InvalidIndexArm];
    stmts := [ForMatch(arms)];
  }

  // ---- invoke_all_enumerated and invoke_all_enum ----

  /** `consumer(tag, call);`, or `call; consumer(tag);` when the members return nothing. */
  function TaggedExprs(ctx: Ctx, tag: TagExpr, name: string): seq<Expr> {
    var call := MemberCall(ctx, name);
    if ctx.void then [CallOnly(call), ConsumerCall([TagArg(tag)])]
    else [ConsumerCall([TagArg(tag), ResultArg(call)])]
  }

  function TaggedStmts(ctx: Ctx, st: SpecificationType, names: seq<string>, k: nat): seq<Stmt>
    requires k < |names|
  {
    var es := TaggedExprs(ctx, TagFor(ctx, st, names, k), names[k]);
    seq(|es|, i requires 0 <= i < |es| => Semi(es[i]))
  }

  function AllTaggedStmts(ctx: Ctx, st: SpecificationType, names: seq<string>, n: nat): seq<Stmt>
    requires n <= |names|
  {
    if n == 0 then [] else AllTaggedStmts(ctx, st, names, n - 1) + TaggedStmts(ctx, st, names, n - 1)
  }

  /** The statements of member `k`, written out for each return-type case. */
  lemma TaggedStmtsShape(ctx: Ctx, st: SpecificationType, names: seq<string>, k: nat)
    requires k < |names|
    ensures var tag, call := TagFor(ctx, st, names, k), MemberCall(ctx, names[k]);
      TaggedStmts(ctx, st, names, k) ==
        if ctx.void then [Semi(CallOnly(call)), Semi(ConsumerCall([TagArg(tag)]))]
        else [Semi(ConsumerCall([TagArg(tag), ResultArg(call)]))]
  {
  }

  method InvokeAllEnumBlock(ctx: Ctx, st: SpecificationType, methods: seq<Method>) returns (stmts: seq<Stmt>)
    ensures stmts == AllTaggedStmts(ctx, st, Names(methods), |methods|)
  {
    stmts := [];
    var index := 0;
    while index < |methods|
      invariant 0 <= index <= |methods|
      invariant stmts == AllTaggedStmts(ctx, st, Names(methods), index)
    {
      ghost var before := stmts;
      var enumIdent := methods[index].sig.ident;
      var innerCall := MemberCall(ctx, enumIdent);
      var tag := if st == Enum then VariantLit(ctx.enumName, enumIdent) else UsizeLit(index);
      var outerCall: Expr;
      if !ctx.void {
        outerCall := ConsumerCall([TagArg(tag), ResultArg(innerCall)]);
      } else {
        stmts := stmts + [Semi(CallOnly(innerCall))];
        outerCall := ConsumerCall([TagArg(tag)]);
      }
      stmts := stmts + [Semi(outerCall)];
      TaggedStmtsShape(ctx, st, Names(methods), index);
      assert stmts == before + TaggedStmts(ctx, st, Names(methods), index);
      index := index + 1;
    }
  }

  // ---- invoke_enumerated and invoke_enum ----

  /** `k => { consumer(k, call_k); }` or, for the enum, `Enum::name_k => { ... }`. */
  function TaggedArm(ctx: Ctx, st: SpecificationType, names: seq<string>, k: nat): Arm
    requires k < |names|
  {
    var pat := if st == Enum then VariantPat(ctx.enumName, names[k]) else UsizePat(k);
    Arm(pat, BlockBody(TaggedExprs(ctx, TagFor(ctx, st, names, k), names[k])))
  }

  function TaggedArms(ctx: Ctx, st: SpecificationType, names: seq<string>, n: nat): seq<Arm>
    requires n <= |names|
  {
    if n == 0 then [] else TaggedArms(ctx, st, names, n - 1) + [TaggedArm(ctx, st, names, n - 1)]
  }

  /** The enum match is exhaustive by itself; the `usize` match gets the panic arm. */
  function SelectedStmts(ctx: Ctx, st: SpecificationType, names: seq<string>): seq<Stmt> {
    [ForMatch(TaggedArms(ctx, st, names, |names|) + if st == Enumerated then [InvalidIndexArm] else [])]
  }

  method InvokeEnumBlock(ctx: Ctx, st: SpecificationType, methods: seq<Method>) returns (stmts: seq<Stmt>)
    ensures stmts == SelectedStmts(ctx, st, Names(methods))
  {
    var arms: seq<Arm> := [];
    var index := 0;
    while index < |methods|
      invariant 0 <= index <= |methods|
      invariant arms == TaggedArms(ctx, st, Names(methods), index)
    {
      var enumIdent := methods[index].sig.ident;
      var innerCall := MemberCall(ctx, enumIdent);
      var tag := if st == Enum then VariantLit(ctx.enumName, enumIdent) else UsizeLit(index);
      var outerCall: seq<Expr> :=
        if !ctx.void then [ConsumerCall([TagArg(tag), ResultArg(innerCall)])]
        else [CallOnly(innerCall), ConsumerCall([TagArg(tag)])];
      match st {
        case Enum =>
          arms := arms + [Arm(VariantPat(ctx.enumName, enumIdent), BlockBody(outerCall))];
        case Enumerated =>
          arms := arms + [Arm(UsizePat(index), BlockBody(outerCall))];
      }
      index := index + 1;
    }
    match st {
      case Enum =>
        assert arms + [] == arms;
      case Enumerated =>
        arms := arms + [InvalidIndexArm];
    }
    stmts := [ForMatch(arms)];
  }

  /** The body of the dispatcher of one kind. */
  function Body(kind: InvokeType, ctx: Ctx, names: seq<string>): seq<Stmt> {
    match kind
    case All => AllStmts(ctx, names, |names|)
    case Subset => SubsetStmts(ctx, names)
    case SpecifiedAll(st) => AllTaggedStmts(ctx, st, names, |names|)
    case Specified(st) => SelectedStmts(ctx, st, names)
  }

  // ---- parameters ----

  /** `mut consumer: impl FnMut(params)`. */
  function ConsumerDecl(params: seq<Type>): FnArg {
    Typed(IdentPat(true, "consumer"), TyImplFnMut(params))
  }

  /** `mut invoke_impl_iter: impl Iterator<Item = item>`. */
  function SelectorDecl(item: Type): FnArg {
    Typed(IdentPat(true, "invoke_impl_iter"), TyImplIterator(item))
  }

  /** The tag a callback receives: nothing, a `usize`, or the tag enum. */
  function TagTypes(tag: TagAxis, enumName: string): seq<Type> {
    match tag
    case NoTag => []
    case IndexTag => [Usize]
    case DiscriminantTag => [TyPath([enumName])]
  }

  /**
   * The callback receives the tag and, unless the members return nothing,
   * their result; an untagged dispatcher of void members takes no callback.
   */
  function ConsumerParam(tag: TagAxis, out: ReturnType, enumName: string): Option<FnArg> {
    if IsVoid(out) then (if tag == NoTag then None else Some(ConsumerDecl(TagTypes(tag, enumName))))
    else Some(ConsumerDecl(TagTypes(tag, enumName) + [out.ty]))
  }

  /** Only caller-selected dispatchers take a selector, of tag-enum items when tagged by it. */
  function SelectorParam(scope: ScopeAxis, tag: TagAxis, enumName: string): Option<FnArg> {
    if scope == AllMembers then None
    else Some(SelectorDecl(if tag == DiscriminantTag then TyPath([enumName]) else Usize))
  }

  function Extra(o: Option<FnArg>): seq<FnArg> {
    if o.Some? then [o.value] else []
  }

  /** The members' own inputs, then the callback, then the selector. */
  function DispatcherInputs(inputs: seq<FnArg>, kind: InvokeType, out: ReturnType, enumName: string): seq<FnArg> {
    inputs + Extra(ConsumerParam(Tagging(kind), out, enumName)) +
      Extra(SelectorParam(Scope(kind), Tagging(kind), enumName))
  }

  /**
   * The parameter table of the six dispatchers: the members' inputs, then
   * `consumer` taking the tag (none, `usize` or the enum) and the members'
   * return type, absent only for untagged dispatchers of void members, then
   * `invoke_impl_iter`, present only for `invoke_subset` and the `Specified`
   * kinds and yielding the enum only for `invoke_enum`.
   */
  lemma DispatcherParameters(inputs: seq<FnArg>, kind: InvokeType, out: ReturnType, enumName: string)
    ensures var ps := DispatcherInputs(inputs, kind, out, enumName);
      var tagTys := if kind.All? || kind.Subset? then [] else if kind.st == Enum then [TyPath([enumName])] else [Usize];
      var hasConsumer := !(IsVoid(out) && (kind.All? || kind.Subset?));
      var hasSelector := kind.Subset? || kind.Specified?;
      && |ps| == |inputs| + (if hasConsumer then 1 else 0) + (if hasSelector then 1 else 0)
      && ps[..|inputs|] == inputs
      && (hasConsumer ==> ps[|inputs|] == ConsumerDecl(if IsVoid(out) then tagTys else tagTys + [out.ty]))
      && (hasSelector ==> ps[|ps| - 1] == SelectorDecl(if kind == Specified(Enum) then TyPath([enumName]) else Usize))
  {
    var c := Extra(ConsumerParam(Tagging(kind), out, enumName));
    var s := Extra(SelectorParam(Scope(kind), Tagging(kind), enumName));
    assert DispatcherInputs(inputs, kind, out, enumName) == inputs + c + s;
    assert (inputs + c + s)[..|inputs|] == inputs;
  }

  function DispatcherCtx(base: Method, structIdent: string, cfg: Args.Config): Ctx {
    Ctx(HasRefSelf(base.sig.inputs), structIdent, TypeGenerics(base.sig.generics),
        ForwardArgs(base.sig.inputs, cfg.clones), EnumName(structIdent, cfg.name), IsVoid(base.sig.output))
  }

  /**
   * The dispatcher of one kind: the base method's attributes, visibility,
   * qualifiers, generics and `where` clause; the kind's name; no return type;
   * the inputs and body above.
   */
  function Dispatcher(kind: InvokeType, base: Method, members: seq<Method>, structIdent: string,
                      cfg: Args.Config): Method
  {
    var sig := Sig(base.sig.qualifiers, InvokeName(cfg.name, kind), base.sig.generics, base.sig.whereClause,
                   DispatcherInputs(base.sig.inputs, kind, base.sig.output, EnumName(structIdent, cfg.name)),
                   Default);
    Method(base.attrs, base.vis, base.defaultness, sig,
           Generated(Body(kind, DispatcherCtx(base, structIdent, cfg), Names(members))))
  }

  /**
   * Builds the dispatcher of one kind.  Aborts exactly when the base method
   * takes `self` by value; otherwise the parameter list is extended with the
   * callback and selector the kind calls for and the body is built by the
   * kind's builder.
   */
  method CreateInvokeFunction(base: Method, members: seq<Method>, structIdent: string,
                              kind: InvokeType, cfg: Args.Config) returns (r: Result<Method, GenError>)
    ensures r.Ok? <==> !HasValueSelf(base.sig.inputs)
    ensures r.Err? ==> r.error == ByValueReceiver
    ensures r.Ok? ==> r.value == Dispatcher(kind, base, members, structIdent, cfg)
  {
    var outputType := base.sig.output;
    var invokeName := InvokeName(cfg.name, kind);
    var enumName := EnumName(structIdent, cfg.name);
    var enumType := TyPath([enumName]);
    var inputs := base.sig.inputs;

    var ids := CollectParamIds(inputs, cfg.clones);
    if ids.Err? {
      return Err(ids.error);
    }
    var genericParams := TypeGenerics(base.sig.generics);

    if outputType != Arrow(TyUnit) && outputType != Default {
      var bxtype := outputType.ty;
      var arg := match kind
        case Specified(st) => ConsumerDecl(if st == Enum then [enumType, bxtype] else [Usize, bxtype])
        case SpecifiedAll(st) => ConsumerDecl(if st == Enum then [enumType, bxtype] else [Usize, bxtype])
        case All => ConsumerDecl([bxtype])
        case Subset => ConsumerDecl([bxtype]);
      assert Some(arg) == ConsumerParam(Tagging(kind), outputType, enumName) by {
        assert !IsVoid(outputType);
        assert [] + [bxtype] == [bxtype];
        assert [Usize] + [bxtype] == [Usize, bxtype] && [enumType] + [bxtype] == [enumType, bxtype];
      }
      inputs := inputs + [arg];
    } else {
      var arg: Option<FnArg> := match kind
        case Specified(st) => Some(ConsumerDecl(if st == Enum then [enumType] else [Usize]))
        case SpecifiedAll(st) => Some(ConsumerDecl(if st == Enum then [enumType] else [Usize]))
        case Subset => None
        case All => None;
      assert arg == ConsumerParam(Tagging(kind), outputType, enumName) by {
        assert IsVoid(outputType);
      }
      if arg.Some? {
        inputs := inputs + [arg.value];
      }
    }

    assert inputs == base.sig.inputs + Extra(ConsumerParam(Tagging(kind), outputType, enumName));
    var specifier: Option<FnArg> := match kind
      case Specified(st) => Some(SelectorDecl(if st == Enum then enumType else Usize))
      case Subset => Some(SelectorDecl(Usize))
      case All => None
      case SpecifiedAll(_) => None;
    assert specifier == SelectorParam(Scope(kind), Tagging(kind), enumName);
    if specifier.Some? {
      inputs := inputs + [specifier.value];
    }
    assert inputs == DispatcherInputs(base.sig.inputs, kind, outputType, enumName);

    var ctx := Ctx(ids.value.isMethod, structIdent, genericParams, ids.value.args, enumName, IsVoid(outputType));
    var block: seq<Stmt>;
    match kind {
      case Specified(st) =>
        block := InvokeEnumBlock(ctx, st, members);
      case SpecifiedAll(st) =>
        block := InvokeAllEnumBlock(ctx, st, members);
      case Subset =>
        block := InvokeSomeBlock(ctx, members);
      case All =>
        block := InvokeAllBlock(ctx, members);
    }
    assert ctx == DispatcherCtx(base, structIdent, cfg);
    assert block == Body(kind, ctx, Names(members));
    var sig := Sig(base.sig.qualifiers, invokeName, base.sig.generics, base.sig.whereClause, inputs, Default);
    return Ok(Method(base.attrs, base.vis, base.defaultness, sig, Generated(block)));
  }
}
