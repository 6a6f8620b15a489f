/**
 * The tag enum: one variant per member, named after it, in declaration
 * order, with `iter()`, `TryFrom<&str>` and `From<Enum> for &str`.  The
 * conversions are kept as their generated match arms and run by
 * first-match, as a `match` on a string or a variant does.
 */
module TagEnum {
  import opened Wrappers
  import opened Syntax
  import opened Naming

  /** A match arm pairing a string literal with a variant: `"f" => Ok(Self::f)` or `f => "f"`. */
  datatype StrArm = StrArm(text: string, variant: string)

  /**
   * The generated enum: its variants, the static array `iter()` walks, and
   * the arms of `try_from` and of `from`.
   */
  datatype TagEnum = TagEnum(name: string, variants: seq<string>, members: seq<string>,
                             tryFromArms: seq<StrArm>, intoStrArms: seq<StrArm>)

  const TryFromError: string := "Input str does not match any enums in Self!"

  function PairArms(names: seq<string>): (arms: seq<StrArm>)
    ensures |arms| == |names|
  {
    seq(|names|, k requires 0 <= k < |names| => StrArm(names[k], names[k]))
  }

  /** The enum of a block: one variant per member, each arm of both conversions pairing a member's name with its own variant. */
  function CreateEnum(members: seq<Method>, structIdent: string, name: Option<string>): (e: TagEnum)
    ensures |e.variants| == |members| && e.members == e.variants
    ensures forall k :: 0 <= k < |members| ==> e.variants[k] == members[k].sig.ident
    ensures |e.tryFromArms| == |members| && |e.intoStrArms| == |members|
    ensures forall k :: 0 <= k < |members| ==>
      e.tryFromArms[k] == StrArm(members[k].sig.ident, e.variants[k]) &&
      e.intoStrArms[k] == StrArm(members[k].sig.ident, e.variants[k])
  {
    var names := Names(members);
    TagEnum(EnumName(structIdent, name), names, names, PairArms(names), PairArms(names))
  }

  /** `iter()`: the variants of the static array, in its order. */
  function Iter(e: TagEnum): seq<string> {
    e.members
  }

  function FirstByText(arms: seq<StrArm>, s: string): Result<string, string> {
    if arms == [] then Err(TryFromError)
    else if arms[0].text == s then Ok(arms[0].variant)
    else FirstByText(arms[1..], s)
  }

  function FirstByVariant(arms: seq<StrArm>, v: string): Option<string> {
    if arms == [] then None
    else if arms[0].variant == v then Some(arms[0].text)
    else FirstByVariant(arms[1..], v)
  }

  /** `TryFrom<&str>::try_from`. */
  function TryFrom(e: TagEnum, s: string): Result<string, string> {
    FirstByText(e.tryFromArms, s)
  }

  /** `From<Enum> for &str`; None would be a variant the match does not cover. */
  function IntoStr(e: TagEnum, v: string): Option<string> {
    FirstByVariant(e.intoStrArms, v)
  }

  /** The variants are the member names, in declaration order, and `iter()` yields them so. */
  lemma VariantsInDeclarationOrder(members: seq<Method>, structIdent: string, name: Option<string>)
    ensures var e := CreateEnum(members, structIdent, name);
      e.name == EnumName(structIdent, name) &&
      |e.variants| == |members| && Iter(e) == e.variants &&
      forall k :: 0 <= k < |members| ==> e.variants[k] == members[k].sig.ident
  {
  }

  lemma {:induction false} PairArmsTail(names: seq<string>)
    requires names != []
    ensures PairArms(names)[0] == StrArm(names[0], names[0])
    ensures PairArms(names)[1..] == PairArms(names[1..])
  {
  }

  /** `try_from` accepts exactly the member names, each to its own variant. */
  lemma {:induction false} TryFromArms(names: seq<string>, s: string)
    ensures FirstByText(PairArms(names), s) == if s in names then Ok(s) else Err(TryFromError)
  {
    if names != [] {
      PairArmsTail(names);
      if names[0] != s {
        TryFromArms(names[1..], s);
        assert s in names <==> s in names[1..];
      }
    }
  }

  /** `from` maps each variant to its own name. */
  lemma {:induction false} IntoStrArms(names: seq<string>, v: string)
    ensures FirstByVariant(PairArms(names), v) == if v in names then Some(v) else None
  {
    if names != [] {
      PairArmsTail(names);
      if names[0] != v {
        IntoStrArms(names[1..], v);
        assert v in names <==> v in names[1..];
      }
    }
  }

  /**
   * The conversions are inverse bijections between the variants and the
   * member names: `try_from(name_k)` gives variant k, `from(variant k)` gives
   * `name_k`, and any other string is rejected.
   */
  lemma TagRoundTrip(members: seq<Method>, structIdent: string, name: Option<string>, s: string)
    ensures var e := CreateEnum(members, structIdent, name);
      && (forall k :: 0 <= k < |members| ==>
            TryFrom(e, members[k].sig.ident) == Ok(e.variants[k]) &&
            IntoStr(e, e.variants[k]) == Some(members[k].sig.ident))
      && (TryFrom(e, s).Err? <==> s !in e.variants)
      && (TryFrom(e, s).Ok? ==> IntoStr(e, TryFrom(e, s).value) == Some(s))
  {
    var e := CreateEnum(members, structIdent, name);
    var names := Names(members);
    forall k | 0 <= k < |members|
      ensures TryFrom(e, members[k].sig.ident) == Ok(e.variants[k])
      ensures IntoStr(e, e.variants[k]) == Some(members[k].sig.ident)
    {
      TryFromArms(names, names[k]);
      IntoStrArms(names, names[k]);
    }
    TryFromArms(names, s);
    IntoStrArms(names, s);
  }
}
