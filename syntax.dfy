/**
 * Abstract syntax of what the `invoke_impl` attribute reads (an impl block and
 * its methods) and of what it writes (dispatcher bodies, constants).  Only the
 * shape the generator inspects or builds is kept; token streams, spans and
 * user-written bodies are opaque text.
 */
module Syntax {

  /** Types, as far as the generator inspects or builds them. */
  datatype Type =
    | TyPath(segments: seq<string>)   // `Foo`, `usize`, `a::B`
    | TyUnit                          // `()`
    | TyImplFnMut(params: seq<Type>)  // `impl FnMut(A, B)`
    | TyImplIterator(item: Type)      // `impl Iterator<Item = A>`
    | TyStrArray(len: nat)            // `[&'static str; len]`
    | TyOther(text: string)           // any other user-written type

  const Usize: Type := TyPath(["usize"])

  /** A parameter pattern: a plain (possibly `mut`) identifier, or anything else. */
  datatype Pat = IdentPat(mutable: bool, id: string) | OtherPat(text: string)

  datatype FnArg =
    | RefSelf(mutable: bool)      // `&self`, `&mut self`
    | ValueSelf(mutable: bool)    // `self`, `mut self`
    | Typed(pat: Pat, ty: Type)   // `pat: ty`

  datatype GenericParam =
    | TypeParam(id: string, bounds: string)
    | LifetimeParam(id: string)
    | ConstParam(id: string, ty: Type)

  /** `Default` is a missing return type; `-> ()` is `Arrow(TyUnit)`. */
  datatype ReturnType = Default | Arrow(ty: Type)

  /** Both spellings of "returns nothing" are treated alike by the generator. */
  predicate IsVoid(out: ReturnType) {
    out == Default || out == Arrow(TyUnit)
  }

  datatype Vis = Public | Inherited | Restricted(path: string)

  /**
   * `qualifiers` stands for constness, asyncness, unsafety, ABI and a variadic
   * tail together; `whereClause` is the text of the `where` clause, empty when
   * there is none.
   */
  datatype Sig = Sig(qualifiers: string, ident: string, generics: seq<GenericParam>, whereClause: string,
                     inputs: seq<FnArg>, output: ReturnType)

  // ---- generated code ----

  /** A forwarded argument: `id` or `id.clone()`. */
  datatype Arg = Var(id: string) | CloneOf(id: string)

  /** `self.m::<G>(args)` or `Owner::m::<G>(args)`. */
  datatype CallExpr =
    | SelfCall(callee: string, generics: seq<string>, args: seq<Arg>)
    | PathCall(owner: string, callee: string, generics: seq<string>, args: seq<Arg>)

  /** `3usize` or `Enum::name`. */
  datatype TagExpr = UsizeLit(n: nat) | VariantLit(enumName: string, variant: string)

  datatype ConsumerArg = TagArg(tag: TagExpr) | ResultArg(call: CallExpr)

  /** A bare member call, or `consumer(args)`. */
  datatype Expr = CallOnly(call: CallExpr) | ConsumerCall(args: seq<ConsumerArg>)

  datatype Pattern = UsizePat(n: nat) | VariantPat(enumName: string, variant: string) | Wildcard

  /** An arm's right-hand side: an expression, a `{ e; ... }` block, or the invalid-index panic. */
  datatype ArmBody = ExprBody(e: Expr) | BlockBody(stmts: seq<Expr>) | PanicInvalidIndex

  datatype Arm = Arm(pat: Pattern, body: ArmBody)

  /**
   * `e;`, or `for invoke_impl_i in invoke_impl_iter { match invoke_impl_i { arms } }`.
   */
  datatype Stmt = Semi(e: Expr) | ForMatch(arms: seq<Arm>)

  datatype Block = UserBlock(text: string) | Generated(stmts: seq<Stmt>)

  datatype Method = Method(attrs: seq<string>, vis: Vis, defaultness: bool, sig: Sig, block: Block)

  datatype ConstValue = UsizeValue(n: nat) | StrList(items: seq<string>) | OtherValue(text: string)

  datatype ImplItem =
    | FnItem(fn: Method)
    | ConstItem(vis: Vis, name: string, ty: Type, value: ConstValue)
    | OtherItem(text: string)

  datatype ImplBlock = ImplBlock(selfTy: Type, items: seq<ImplItem>)

  /** The methods of an impl block, in declaration order; other items are skipped. */
  function Methods(items: seq<ImplItem>): (ms: seq<Method>)
    ensures |ms| <= |items|
  {
    if items == [] then []
    else (if items[0].FnItem? then [items[0].fn] else []) + Methods(items[1..])
  }

  /** The identifiers of some methods, in order. */
  function Names(ms: seq<Method>): (ns: seq<string>)
    ensures |ns| == |ms|
  {
    seq(|ms|, k requires 0 <= k < |ms| => ms[k].sig.ident)
  }

  /** The selected methods are exactly those the block declares. */
  lemma {:induction false} MethodsAreTheFnItems(items: seq<ImplItem>)
    ensures forall m :: m in Methods(items) <==> FnItem(m) in items
  {
    if items != [] {
      MethodsAreTheFnItems(items[1..]);
      assert items == [items[0]] + items[1..];
    }
  }

  /** Selecting methods distributes over concatenation of item lists. */
  lemma {:induction false} MethodsAppend(a: seq<ImplItem>, b: seq<ImplItem>)
    ensures Methods(a + b) == Methods(a) + Methods(b)
  {
    if a == [] {
      assert a + b == b;
    } else {
      assert (a + b)[0] == a[0] && (a + b)[1..] == a[1..] + b;
      MethodsAppend(a[1..], b);
      var head := if a[0].FnItem? then [a[0].fn] else [];
      assert Methods(a + b) == head + (Methods(a[1..]) + Methods(b));
      assert head + (Methods(a[1..]) + Methods(b)) == (head + Methods(a[1..])) + Methods(b);
    }
  }

  /** A list made only of methods contributes every one of them, in order. */
  lemma {:induction false} MethodsOfFnItems(ms: seq<Method>)
    ensures Methods(seq(|ms|, k requires 0 <= k < |ms| => FnItem(ms[k]))) == ms
  {
    var items := seq(|ms|, k requires 0 <= k < |ms| => FnItem(ms[k]));
    if ms != [] {
      assert items[1..] == seq(|ms[1..]|, k requires 0 <= k < |ms[1..]| => FnItem(ms[1..][k]));
      MethodsOfFnItems(ms[1..]);
    }
  }
}
