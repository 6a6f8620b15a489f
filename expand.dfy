/**
 * The attribute itself: parse the arguments, collect the methods of the
 * impl block, check that their signatures agree, and append the six
 * dispatchers and the two metadata constants to the block; the tag enum
 * is emitted beside it.
 */
module Expand {
  import opened Wrappers
  import opened Syntax
  import opened Errors
  import opened Kinds
  import opened Naming
  import opened Args
  import opened Signatures
  import opened Forwarding
  import opened TagEnum
  import opened Dispatch
  import opened Trace

  /** The rewritten impl block and the tag enum emitted after it. */
  datatype Expansion = Expansion(impl: ImplBlock, tagEnum: TagEnum)

  /** The type's identifier: the first segment of a path type. */
  function StructIdent(selfTy: Type): (r: Result<string, GenError>)
    ensures r.Ok? ==> selfTy.TyPath? && |selfTy.segments| > 0 && r.value == selfTy.segments[0]
    ensures r.Err? ==> r.error == NoStructName && !(selfTy.TyPath? && |selfTy.segments| > 0)
  {
    if selfTy.TyPath? && |selfTy.segments| > 0 then Ok(selfTy.segments[0]) else Err(NoStructName)
  }

  /** `pub const METHOD_COUNT: usize = n;` and `pub const METHOD_LIST: [&'static str; n] = [..];`. */
  function MetadataItems(name: Option<string>, methods: seq<Method>): seq<ImplItem> {
    [ConstItem(Public, CountConstName(name), Usize, UsizeValue(|methods|)),
     ConstItem(Public, ListConstName(name), TyStrArray(|methods|), StrList(Names(methods)))]
  }

  /** The six dispatchers, in the order of `KindOrder`. */
  function DispatcherItems(base: Method, methods: seq<Method>, structIdent: string, cfg: Config): (items: seq<ImplItem>)
    ensures |items| == 6
  {
    seq(6, i requires 0 <= i < 6 => FnItem(Dispatcher(KindOrder[i], base, methods, structIdent, cfg)))
  }

  lemma EachKindInOrder(f: InvokeType -> ImplItem)
    ensures seq(6, i requires 0 <= i < 6 => f(KindOrder[i])) ==
      [f(All), f(Subset), f(SpecifiedAll(Enumerated)), f(SpecifiedAll(Enum)), f(Specified(Enumerated)), f(Specified(Enum))]
  {
  }

  lemma DispatcherItemsInOrder(base: Method, methods: seq<Method>, structIdent: string, cfg: Config)
    ensures DispatcherItems(base, methods, structIdent, cfg) ==
      [FnItem(Dispatcher(All, base, methods, structIdent, cfg)),
       FnItem(Dispatcher(Subset, base, methods, structIdent, cfg)),
       FnItem(Dispatcher(SpecifiedAll(Enumerated), base, methods, structIdent, cfg)),
       FnItem(Dispatcher(SpecifiedAll(Enum), base, methods, structIdent, cfg)),
       FnItem(Dispatcher(Specified(Enumerated), base, methods, structIdent, cfg)),
       FnItem(Dispatcher(Specified(Enum), base, methods, structIdent, cfg))]
  {
    var f := kind => FnItem(Dispatcher(kind, base, methods, structIdent, cfg));
    assert DispatcherItems(base, methods, structIdent, cfg) == seq(6, i requires 0 <= i < 6 => f(KindOrder[i]));
    EachKindInOrder(f);
  }

  predicate Uniform(methods: seq<Method>) {
    |methods| > 0 && forall k :: 0 <= k < |methods| ==> Interchangeable(methods[k], methods[0])
  }

  /** The first method whose signature differs from the first one's, searching from `k`. */
  function FirstMismatch(methods: seq<Method>, k: nat): (i: nat)
    requires 0 < |methods| && k <= |methods|
    requires exists i :: k <= i < |methods| && !Interchangeable(methods[i], methods[0])
    ensures k <= i < |methods| && !Interchangeable(methods[i], methods[0])
    ensures forall j :: k <= j < i ==> Interchangeable(methods[j], methods[0])
    decreases |methods| - k
  {
    if !Interchangeable(methods[k], methods[0]) then k else FirstMismatch(methods, k + 1)
  }

  /** The expansion of a block that passed every check. */
  function Expanded(cfg: Config, input: ImplBlock, structIdent: string): Expansion
    requires |Methods(input.items)| > 0
  {
    var methods := Methods(input.items);
    Expansion(ImplBlock(input.selfTy, input.items + DispatcherItems(methods[0], methods, structIdent, cfg)
                                                + MetadataItems(cfg.name, methods)),
              CreateEnum(methods, structIdent, cfg.name))
  }

  /**
   * How the attribute ends once its arguments are accepted: no methods,
   * a signature that differs, a type that is not a path and a `self`
   * receiver taken by value abort, in this order.  A `name` that does not
   * form an identifier is not among them: the model accepts any string.
   */
  function Outcome(cfg: Config, input: ImplBlock): Result<Expansion, GenError> {
    var methods := Methods(input.items);
    if methods == [] then Err(NoMethods)
    else if !Uniform(methods) then Err(SignatureMismatch(FirstMismatch(methods, 0)))
    else match StructIdent(input.selfTy)
      case Err(e) => Err(e)
      case Ok(ident) =>
        if HasValueSelf(methods[0].sig.inputs) then Err(ByValueReceiver) else Ok(Expanded(cfg, input, ident))
  }

  /**
   * The attribute.  An argument error comes first; otherwise the result is
   * `Outcome` of the configuration the arguments carry.
   */
  method InvokeImpl(args: seq<MetaList>, input: ImplBlock) returns (r: Result<Expansion, GenError>)
    ensures r.Err? && r.error.ConfigError? <==> !Accepted(args)
    ensures |args| > 2 ==> r == Err(ConfigError(TooManyArgs))
    ensures r.Err? && r.error.ConfigError? && |args| <= 2 ==>
      exists i :: 0 <= i < |args| && ArgFault(args, i) == Some(r.error.arg) &&
        forall j :: 0 <= j < i ==> ArgFault(args, j).None?
    ensures Accepted(args) ==> r == Outcome(Config(NameArg(args), CloneArg(args)), input)
  {
    var parsed := ParseArgs(args);
    if parsed.Err? {
      return Err(ConfigError(parsed.error));
    }
    var cfg := parsed.value;

    var methods := Methods(input.items);
    var count := |methods|;

    if count == 0 {
      return Err(NoMethods);
    }
    var mismatch := ValidateSignatures(methods[0], methods);
    if mismatch.Some? {
      assert !Uniform(methods);
      return Err(SignatureMismatch(mismatch.value));
    }
    assert Uniform(methods);

    var structIdent := StructIdent(input.selfTy);
    if structIdent.Err? {
      return Err(structIdent.error);
    }
    var ident := structIdent.value;

    var tagEnum := CreateEnum(methods, ident, cfg.name);

    var extended := AppendGenerated(input.items, methods, ident, cfg);
    if extended.Err? {
      return Err(extended.error);
    }
    r := Ok(Expansion(ImplBlock(input.selfTy, extended.value), tagEnum));
    OutcomeWhenChecksPass(cfg, input, ident);
  }

  /**
   * The second half of the attribute: the six dispatchers are built in the
   * order of `KindOrder` and pushed, then the two constants, which count and
   * list the user's methods only.  Aborts when the first method takes `self`
   * by value.
   */
  method AppendGenerated(input: seq<ImplItem>, methods: seq<Method>, ident: string, cfg: Config)
    returns (r: Result<seq<ImplItem>, GenError>)
    requires |methods| > 0
    ensures r.Ok? <==> !HasValueSelf(methods[0].sig.inputs)
    ensures r.Err? ==> r.error == ByValueReceiver
    ensures r.Ok? ==> r.value == input + DispatcherItems(methods[0], methods, ident, cfg) + MetadataItems(cfg.name, methods)
  {
    var count := |methods|;
    var names := Names(methods);

    var invokeAll := CreateInvokeFunction(methods[0], methods, ident, All, cfg);
    if invokeAll.Err? {
      return Err(invokeAll.error);
    }
    var invokeSubset := CreateInvokeFunction(methods[0], methods, ident, Subset, cfg);
    var invokeAllEnumerated := CreateInvokeFunction(methods[0], methods, ident, SpecifiedAll(Enumerated), cfg);
    var invokeAllEnum := CreateInvokeFunction(methods[0], methods, ident, SpecifiedAll(Enum), cfg);
    var invokeEnumerated := CreateInvokeFunction(methods[0], methods, ident, Specified(Enumerated), cfg);
    var invokeEnum := CreateInvokeFunction(methods[0], methods, ident, Specified(Enum), cfg);

    var items := input;
    items := items + [FnItem(invokeAll.value)];
    items := items + [FnItem(invokeSubset.value)];
    items := items + [FnItem(invokeAllEnumerated.value)];
    items := items + [FnItem(invokeAllEnum.value)];
    items := items + [FnItem(invokeEnumerated.value)];
    items := items + [FnItem(invokeEnum.value)];
    items := items + [ConstItem(Public, CountConstName(cfg.name), Usize, UsizeValue(count))];
    items := items + [ConstItem(Public, ListConstName(cfg.name), TyStrArray(count), StrList(names))];

    var generated := [FnItem(invokeAll.value), FnItem(invokeSubset.value), FnItem(invokeAllEnumerated.value),
                      FnItem(invokeAllEnum.value), FnItem(invokeEnumerated.value), FnItem(invokeEnum.value)];
    var metadata := [ConstItem(Public, CountConstName(cfg.name), Usize, UsizeValue(count)),
                     ConstItem(Public, ListConstName(cfg.name), TyStrArray(count), StrList(names))];
    Pushes(input, generated, metadata);
    DispatcherItemsInOrder(methods[0], methods, ident, cfg);
    return Ok(items);
  }

  /** Eight single pushes append the dispatchers and then the constants. */
  lemma Pushes(p: seq<ImplItem>, g: seq<ImplItem>, m: seq<ImplItem>)
    requires |g| == 6 && |m| == 2
    ensures p + [g[0]] + [g[1]] + [g[2]] + [g[3]] + [g[4]] + [g[5]] + [m[0]] + [m[1]] == p + g + m
  {
    assert g == [g[0], g[1], g[2], g[3], g[4], g[5]] && m == [m[0], m[1]];
  }

  lemma OutcomeWhenChecksPass(cfg: Config, input: ImplBlock, ident: string)
    requires Uniform(Methods(input.items)) && StructIdent(input.selfTy) == Ok(ident)
    requires !HasValueSelf(Methods(input.items)[0].sig.inputs)
    ensures Outcome(cfg, input) == Ok(Expanded(cfg, input, ident))
  {
  }

  // ---- properties of the expansion ----

  /**
   * The rewritten block holds the user's methods followed by the six
   * dispatchers, so `METHOD_COUNT` (the number of user methods) is six less
   * than the block's method count and `METHOD_LIST` lists exactly the user's
   * method names, in declaration order.
   */
  lemma MetadataCountsUserMethods(cfg: Config, input: ImplBlock, structIdent: string)
    requires |Methods(input.items)| > 0
    ensures var out := Expanded(cfg, input, structIdent).impl.items;
      var methods := Methods(input.items);
      |out| == |input.items| + 8 && out[..|input.items|] == input.items &&
      |Methods(out)| == |methods| + 6 &&
      Names(Methods(out)) == Names(methods) + seq(6, i requires 0 <= i < 6 => InvokeName(cfg.name, KindOrder[i])) &&
      out[|out| - 2] == ConstItem(Public, CountConstName(cfg.name), Usize, UsizeValue(|methods|)) &&
      out[|out| - 1] == ConstItem(Public, ListConstName(cfg.name), TyStrArray(|methods|), StrList(Names(methods)))
  {
    var methods := Methods(input.items);
    var gen := DispatcherItems(methods[0], methods, structIdent, cfg);
    var meta := MetadataItems(cfg.name, methods);
    var out := input.items + gen + meta;
    GeneratedMethods(methods[0], methods, structIdent, cfg);
    MetadataHasNoMethods(cfg.name, methods);
    MethodsAppend(input.items, gen);
    MethodsAppend(input.items + gen, meta);
    var ds := Methods(gen);
    assert Methods(out) == methods + ds;
    NamesAppend(methods, ds);
    assert out[..|input.items|] == input.items;
  }

  lemma GeneratedMethods(base: Method, methods: seq<Method>, structIdent: string, cfg: Config)
    ensures |Methods(DispatcherItems(base, methods, structIdent, cfg))| == 6
    ensures Names(Methods(DispatcherItems(base, methods, structIdent, cfg)))
         == seq(6, i requires 0 <= i < 6 => InvokeName(cfg.name, KindOrder[i]))
  {
    var ds := seq(6, i requires 0 <= i < 6 => Dispatcher(KindOrder[i], base, methods, structIdent, cfg));
    assert DispatcherItems(base, methods, structIdent, cfg) == seq(|ds|, k requires 0 <= k < |ds| => FnItem(ds[k]));
    MethodsOfFnItems(ds);
  }

  lemma MetadataHasNoMethods(name: Option<string>, methods: seq<Method>)
    ensures Methods(MetadataItems(name, methods)) == []
  {
    var meta := MetadataItems(name, methods);
    assert meta[1..] == [meta[1]] && [meta[1]][1..] == [];
  }

  lemma NamesAppend(a: seq<Method>, b: seq<Method>)
    ensures Names(a + b) == Names(a) + Names(b)
  {
  }

  /**
   * The identifiers the attribute adds are pairwise distinct: the six
   * dispatchers and the two constants.
   */
  lemma AddedNamesDistinct(name: Option<string>)
    ensures forall i, j :: 0 <= i < j < 6 ==> InvokeName(name, KindOrder[i]) != InvokeName(name, KindOrder[j])
    ensures forall i :: 0 <= i < 6 ==>
      InvokeName(name, KindOrder[i]) != CountConstName(name) && InvokeName(name, KindOrder[i]) != ListConstName(name)
    ensures CountConstName(name) != ListConstName(name)
  {
    AxesDetermineKind(All);
    forall i, j | 0 <= i < j < 6 ensures InvokeName(name, KindOrder[i]) != InvokeName(name, KindOrder[j]) {
      InvokeNamesDistinct(name, KindOrder[i], KindOrder[j]);
    }
    forall i | 0 <= i < 6
      ensures InvokeName(name, KindOrder[i]) != CountConstName(name) && InvokeName(name, KindOrder[i]) != ListConstName(name)
    {
      ConstNamesDistinct(name, KindOrder[i]);
    }
    ConstNamesDistinct(name, All);
  }

  /**
   * Every dispatcher of a successful expansion behaves as its kind is
   * documented to, over the user's methods in declaration order.
   */
  lemma ExpandedDispatchersRunAsDesigned(cfg: Config, input: ImplBlock, structIdent: string, i: nat, sels: seq<Value>)
    requires |Methods(input.items)| > 0 && i < 6
    requires WellTyped(KindOrder[i], DispatcherCtx(Methods(input.items)[0], structIdent, cfg), Names(Methods(input.items)), sels)
    ensures var item := Expanded(cfg, input, structIdent).impl.items[|input.items| + i];
      var methods := Methods(input.items);
      item.FnItem? && item.fn.sig.ident == InvokeName(cfg.name, KindOrder[i]) && item.fn.block.Generated? &&
      Exec(item.fn.block.stmts, sels)
        == Expected(KindOrder[i], DispatcherCtx(methods[0], structIdent, cfg), Names(methods), sels)
  {
    var methods := Methods(input.items);
    var gen := DispatcherItems(methods[0], methods, structIdent, cfg);
    var out := input.items + gen + MetadataItems(cfg.name, methods);
    assert out[|input.items| + i] == gen[i];
    DispatcherRunsAsDesigned(KindOrder[i], DispatcherCtx(methods[0], structIdent, cfg), Names(methods), sels);
  }
}
