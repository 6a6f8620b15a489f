/**
 * The signature gate: every method of the block must be the same as the
 * first once its name, its attributes (doc comments among them) and its body
 * are erased.  Visibility, qualifiers, generics, parameters and return type
 * all take part in the comparison.
 */
module Signatures {
  import opened Wrappers
  import opened Syntax

  /** A method with name, attributes and body erased. */
  function Shape(m: Method): Method {
    m.(attrs := [], sig := m.sig.(ident := "name"), block := Generated([]))
  }

  predicate Interchangeable(a: Method, b: Method) {
    Shape(a) == Shape(b)
  }

  /**
   * Two methods are interchangeable exactly when they agree on everything
   * but name, attributes and body.
   */
  lemma InterchangeableIff(a: Method, b: Method)
    ensures Interchangeable(a, b) <==>
      a.vis == b.vis && a.defaultness == b.defaultness &&
      a.sig.qualifiers == b.sig.qualifiers && a.sig.generics == b.sig.generics &&
      a.sig.whereClause == b.sig.whereClause &&
      a.sig.inputs == b.sig.inputs && a.sig.output == b.sig.output
  {
    if Interchangeable(a, b) {
      assert Shape(a).sig == Shape(b).sig;
    }
  }

  /**
   * Compares every method against `base`, stopping at the first that
   * differs.  None means all are interchangeable with `base`; Some(k) names
   * the first one that is not.
   */
  method ValidateSignatures(base: Method, methods: seq<Method>) returns (mismatch: Option<nat>)
    ensures mismatch.None? <==> forall k :: 0 <= k < |methods| ==> Interchangeable(methods[k], base)
    ensures mismatch.Some? ==>
      mismatch.value < |methods| && !Interchangeable(methods[mismatch.value], base) &&
      forall j :: 0 <= j < mismatch.value ==> Interchangeable(methods[j], base)
  {
    var comparison := Shape(base);
    var k := 0;
    while k < |methods|
      invariant 0 <= k <= |methods|
      invariant forall j :: 0 <= j < k ==> Interchangeable(methods[j], base)
    {
      if Shape(methods[k]) != comparison {
        return Some(k);
      }
      k := k + 1;
    }
    return None;
  }

  /** `fn a<T>(x: T) where T: Clone` and `fn b<T>(x: T)` differ only in the `where` clause, and the gate rejects them. */
  lemma WhereClauseCounts()
    ensures var g := [TypeParam("T", "")];
      var x := [Typed(IdentPat(false, "x"), TyPath(["T"]))];
      var a := Method([], Public, false, Sig("", "a", g, "T: Clone", x, Default), UserBlock(""));
      var b := Method([], Public, false, Sig("", "b", g, "", x, Default), UserBlock(""));
      !Interchangeable(a, b)
  {
    var g := [TypeParam("T", "")];
    var x := [Typed(IdentPat(false, "x"), TyPath(["T"]))];
    var a := Method([], Public, false, Sig("", "a", g, "T: Clone", x, Default), UserBlock(""));
    var b := Method([], Public, false, Sig("", "b", g, "", x, Default), UserBlock(""));
    assert Shape(a).sig.whereClause != Shape(b).sig.whereClause;
  }

  /**
   * When the first method is the base and the gate passes, every two
   * methods of the block share parameters, return type, generics and
   * `where` clause.
   */
  lemma GatePassedMeansUniformSignatures(methods: seq<Method>)
    requires |methods| > 0
    requires forall k :: 0 <= k < |methods| ==> Interchangeable(methods[k], methods[0])
    ensures forall i, j :: 0 <= i < |methods| && 0 <= j < |methods| ==>
      methods[i].sig.inputs == methods[j].sig.inputs &&
      methods[i].sig.output == methods[j].sig.output &&
      methods[i].sig.generics == methods[j].sig.generics &&
      methods[i].sig.whereClause == methods[j].sig.whereClause
  {
    forall i, j | 0 <= i < |methods| && 0 <= j < |methods|
      ensures methods[i].sig.inputs == methods[j].sig.inputs
      ensures methods[i].sig.output == methods[j].sig.output
      ensures methods[i].sig.generics == methods[j].sig.generics
      ensures methods[i].sig.whereClause == methods[j].sig.whereClause
    {
      InterchangeableIff(methods[i], methods[0]);
      InterchangeableIff(methods[j], methods[0]);
    }
  }
}
