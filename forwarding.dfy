/**
 * Argument forwarding: which parameters a dispatcher passes on to each
 * member, which of them are cloned, which generics are spelled out, and
 * whether the call goes through `self` or through the type's path.
 */
module Forwarding {
  import opened Wrappers
  import opened Syntax
  import opened Errors

  /** `id.clone()` when the parameter's position is in the clone set, else `id`. */
  function ForwardedArg(id: string, position: nat, clones: Option<set<nat>>): Arg {
    if clones.Some? && position in clones.value then CloneOf(id) else Var(id)
  }

  predicate IsIdentParam(a: FnArg) {
    a.Typed? && a.pat.IdentPat?
  }

  /** What input `p` contributes: one argument for a plain identifier parameter, none otherwise. */
  function ArgAt(inputs: seq<FnArg>, p: nat, clones: Option<set<nat>>): seq<Arg>
    requires p < |inputs|
  {
    if IsIdentParam(inputs[p]) then [ForwardedArg(inputs[p].pat.id, p, clones)] else []
  }

  /** The arguments forwarded for the first `n` inputs. */
  function ForwardPrefix(inputs: seq<FnArg>, n: nat, clones: Option<set<nat>>): seq<Arg>
    requires n <= |inputs|
  {
    if n == 0 then [] else ForwardPrefix(inputs, n - 1, clones) + ArgAt(inputs, n - 1, clones)
  }

  function ForwardArgs(inputs: seq<FnArg>, clones: Option<set<nat>>): seq<Arg> {
    ForwardPrefix(inputs, |inputs|, clones)
  }

  /** The positions, among the first `n`, of plain identifier parameters. */
  function IdentPositions(inputs: seq<FnArg>, n: nat): set<nat>
    requires n <= |inputs|
  {
    set p: nat | p < n && IsIdentParam(inputs[p])
  }

  predicate HasValueSelf(inputs: seq<FnArg>) {
    exists i :: 0 <= i < |inputs| && inputs[i].ValueSelf?
  }

  predicate HasRefSelf(inputs: seq<FnArg>) {
    exists i :: 0 <= i < |inputs| && inputs[i].RefSelf?
  }

  datatype ParamIds = ParamIds(args: seq<Arg>, isMethod: bool)

  /**
   * Walks the parameters of the base method once: a `&self` receiver makes
   * the dispatchers bound, a by-value `self` aborts, and every plain
   * identifier parameter becomes a forwarded argument, cloned when its
   * position (counted over all inputs, receiver included) is in the clone set.
   */
  method CollectParamIds(inputs: seq<FnArg>, clones: Option<set<nat>>) returns (r: Result<ParamIds, GenError>)
    ensures r.Ok? <==> !HasValueSelf(inputs)
    ensures r.Err? ==> r.error == ByValueReceiver
    ensures r.Ok? ==> r.value == ParamIds(ForwardArgs(inputs, clones), HasRefSelf(inputs))
  {
    var args: seq<Arg> := [];
    var isMethod := false;
    var i := 0;
    while i < |inputs|
      invariant 0 <= i <= |inputs|
      invariant args == ForwardPrefix(inputs, i, clones)
      invariant isMethod <==> exists j :: 0 <= j < i && inputs[j].RefSelf?
      invariant forall j :: 0 <= j < i ==> !inputs[j].ValueSelf?
    {
      match inputs[i] {
        case RefSelf(_) =>
          isMethod := true;
        case ValueSelf(_) =>
          return Err(ByValueReceiver);
        case Typed(pat, _) =>
          if pat.IdentPat? {
            args := args + [ForwardedArg(pat.id, i, clones)];
          }
      }
      i := i + 1;
    }
    return Ok(ParamIds(args, isMethod));
  }

  /** Looking at one more input adds its position exactly when it is a plain identifier parameter. */
  lemma IdentPositionsStep(inputs: seq<FnArg>, n: nat)
    requires 0 < n <= |inputs|
    ensures |IdentPositions(inputs, n)| == |IdentPositions(inputs, n - 1)| + if IsIdentParam(inputs[n - 1]) then 1 else 0
  {
    var before, now := IdentPositions(inputs, n - 1), IdentPositions(inputs, n);
    if IsIdentParam(inputs[n - 1]) {
      assert forall x :: x in now <==> x in before || x == n - 1;
      assert now == before + {n - 1};
      assert n - 1 !in before;
    } else {
      assert forall x :: x in now <==> x in before;
      assert now == before;
    }
  }

  /** One forwarded argument per plain identifier parameter among the first `n` inputs. */
  lemma {:induction false} ForwardPrefixLength(inputs: seq<FnArg>, n: nat, clones: Option<set<nat>>)
    requires n <= |inputs|
    ensures |ForwardPrefix(inputs, n, clones)| == |IdentPositions(inputs, n)|
  {
    if n > 0 {
      ForwardPrefixLength(inputs, n - 1, clones);
      IdentPositionsStep(inputs, n);
      assert |ForwardPrefix(inputs, n, clones)| == |ForwardPrefix(inputs, n - 1, clones)| + |ArgAt(inputs, n - 1, clones)|;
    } else {
      assert forall x :: x !in IdentPositions(inputs, 0);
      assert IdentPositions(inputs, 0) == {};
    }
  }

  /** Extending the prefix keeps what was already forwarded. */
  lemma {:induction false} ForwardPrefixGrows(inputs: seq<FnArg>, m: nat, n: nat, clones: Option<set<nat>>)
    requires m <= n <= |inputs|
    ensures ForwardPrefix(inputs, m, clones) <= ForwardPrefix(inputs, n, clones)
  {
    if m < n {
      ForwardPrefixGrows(inputs, m, n - 1, clones);
    }
  }

  /**
   * The plain identifier parameter at position `p` is forwarded at index
   * "number of such parameters before it", as `id.clone()` exactly when `p`
   * is in the clone set and as `id` otherwise.
   */
  lemma ForwardedAt(inputs: seq<FnArg>, clones: Option<set<nat>>, p: nat)
    requires p < |inputs| && IsIdentParam(inputs[p])
    ensures |IdentPositions(inputs, p)| < |ForwardArgs(inputs, clones)|
    ensures ForwardArgs(inputs, clones)[|IdentPositions(inputs, p)|] ==
      ForwardedArg(inputs[p].pat.id, p, clones)
  {
    ForwardPrefixLength(inputs, p, clones);
    ForwardPrefixGrows(inputs, p + 1, |inputs|, clones);
    var upTo := ForwardPrefix(inputs, p + 1, clones);
    assert upTo == ForwardPrefix(inputs, p, clones) + [ForwardedArg(inputs[p].pat.id, p, clones)];
    assert upTo[|IdentPositions(inputs, p)|] == ForwardArgs(inputs, clones)[|IdentPositions(inputs, p)|];
  }

  /** Every forwarded argument is one of the forms above: all arguments are accounted for. */
  lemma ForwardArgsCount(inputs: seq<FnArg>, clones: Option<set<nat>>)
    ensures |ForwardArgs(inputs, clones)| == |IdentPositions(inputs, |inputs|)|
  {
    ForwardPrefixLength(inputs, |inputs|, clones);
  }

  /** Without a clone set nothing is cloned. */
  lemma {:induction false} NoClonesForwardDirectly(inputs: seq<FnArg>, n: nat)
    requires n <= |inputs|
    ensures forall k :: 0 <= k < |ForwardPrefix(inputs, n, None)| ==> ForwardPrefix(inputs, n, None)[k].Var?
  {
    if n > 0 {
      NoClonesForwardDirectly(inputs, n - 1);
    }
  }

  /**
   * Clone positions count the receiver: with `&self, s: String`, position 1
   * (not 0) clones `s`.
   */
  lemma ClonePositionsCountReceiver()
    ensures ForwardArgs([RefSelf(false), Typed(IdentPat(false, "s"), TyOther("String"))], Some({1})) == [CloneOf("s")]
    ensures ForwardArgs([RefSelf(false), Typed(IdentPat(false, "s"), TyOther("String"))], Some({0})) == [Var("s")]
  {
    var inputs := [RefSelf(false), Typed(IdentPat(false, "s"), TyOther("String"))];
    assert ForwardPrefix(inputs, 1, Some({1})) == [];
    assert ForwardPrefix(inputs, 1, Some({0})) == [];
  }

  /** The type parameters among the generics, in order; lifetimes and const generics are not forwarded. */
  function TypeGenerics(gs: seq<GenericParam>): (ids: seq<string>)
    ensures |ids| <= |gs|
    ensures forall x :: x in ids <==> exists i :: 0 <= i < |gs| && gs[i].TypeParam? && gs[i].id == x
  {
    if gs == [] then []
    else
      var rest := TypeGenerics(gs[..|gs| - 1]);
      assert forall i :: 0 <= i < |gs| - 1 ==> gs[..|gs| - 1][i] == gs[i];
      if gs[|gs| - 1].TypeParam? then rest + [gs[|gs| - 1].id] else rest
  }

  /** A single generic contributes its name when it is a type parameter, and nothing otherwise. */
  lemma TypeGenericsOne(g: GenericParam)
    ensures TypeGenerics([g]) == if g.TypeParam? then [g.id] else []
  {
    assert [g][..0] == [];
  }

  /**
   * Filtering generics distributes over concatenation; with `TypeGenericsOne`
   * this fixes the result: the type parameters' names in declaration order.
   */
  lemma {:induction false} TypeGenericsAppend(a: seq<GenericParam>, b: seq<GenericParam>)
    ensures TypeGenerics(a + b) == TypeGenerics(a) + TypeGenerics(b)
  {
    if b == [] {
      assert a + b == a;
    } else {
      var init, last := b[..|b| - 1], b[|b| - 1];
      assert (a + b)[..|a + b| - 1] == a + init;
      assert (a + b)[|a + b| - 1] == last;
      TypeGenericsAppend(a, init);
      var tail := if last.TypeParam? then [last.id] else [];
      assert TypeGenerics(a + b) == TypeGenerics(a + init) + tail;
      assert TypeGenerics(b) == TypeGenerics(init) + tail;
      assert TypeGenerics(a) + TypeGenerics(init) + tail == TypeGenerics(a) + (TypeGenerics(init) + tail);
    }
  }

  /**
   * The call of one member: `self.m::<G>(args)` for bound dispatchers,
   * `Struct::m::<G>(args)` otherwise.
   */
  function InnerCall(isMethod: bool, callee: string, structIdent: string, generics: seq<string>, args: seq<Arg>): (c: CallExpr)
    ensures c.callee == callee && c.generics == generics && c.args == args
    ensures c.SelfCall? <==> isMethod
    ensures c.PathCall? ==> c.owner == structIdent
  {
    if isMethod then SelfCall(callee, generics, args) else PathCall(structIdent, callee, generics, args)
  }
}
