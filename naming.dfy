/**
 * Identifiers of the generated items.  An optional name suffix is appended,
 * after an underscore, to every generated identifier so that several
 * dispatcher families can live on one type.
 */
module Naming {
  import opened Wrappers
  import opened Kinds

  function InvokeBase(kind: InvokeType): (r: string)
    ensures |r| >= 10 && r[..7] == "invoke_"
  {
    match kind
    case Specified(st) => if st == Enum then "invoke_enum" else "invoke_enumerated"
    case SpecifiedAll(st) => if st == Enum then "invoke_all_enum" else "invoke_all_enumerated"
    case All => "invoke_all"
    case Subset => "invoke_subset"
  }

  /** `base` alone, or `base_name`. */
  function Suffixed(base: string, name: Option<string>): (r: string)
    ensures name.None? ==> r == base
    ensures name.Some? ==> |r| > |base| && r[..|base|] == base && r[|base|..] == "_" + name.value
  {
    if name.Some? then base + "_" + name.value else base
  }

  /** The identifier of the dispatcher of one kind. */
  function InvokeName(name: Option<string>, kind: InvokeType): (r: string)
    ensures |r| >= 10 && r[..7] == "invoke_"
    ensures name.Some? ==> |r| > |name.value| + 1 && r[|r| - |name.value| - 1..] == "_" + name.value
  {
    Suffixed(InvokeBase(kind), name)
  }

  /** `Struct_invoke_impl_enum`, or `Struct_invoke_impl_enum_name`. */
  function EnumName(structIdent: string, name: Option<string>): (r: string)
    ensures |r| >= |structIdent| + 17
    ensures r[..|structIdent|] == structIdent && r[|structIdent|..|structIdent| + 17] == "_invoke_impl_enum"
    ensures name.None? ==> |r| == |structIdent| + 17
    ensures name.Some? ==> r[|structIdent| + 17..] == "_" + name.value
  {
    Suffixed(structIdent + "_invoke_impl_enum", name)
  }

  function CountConstName(name: Option<string>): string {
    Suffixed("METHOD_COUNT", name)
  }

  function ListConstName(name: Option<string>): string {
    Suffixed("METHOD_LIST", name)
  }

  /** Appending the same suffix keeps different bases apart. */
  lemma SuffixedInjective(a: string, b: string, name: Option<string>)
    requires Suffixed(a, name) == Suffixed(b, name)
    ensures a == b
  {
    if name.Some? {
      var t := "_" + name.value;
      assert a + t == Suffixed(a, name) && b + t == Suffixed(b, name);
      assert |a| == |b|;
      assert a == (a + t)[..|a|];
    }
  }

  /** With a fixed suffix, the six dispatchers get six different identifiers. */
  lemma InvokeNamesDistinct(name: Option<string>, k1: InvokeType, k2: InvokeType)
    requires k1 != k2
    ensures InvokeName(name, k1) != InvokeName(name, k2)
  {
    if InvokeName(name, k1) == InvokeName(name, k2) {
      SuffixedInjective(InvokeBase(k1), InvokeBase(k2), name);
      assert false;
    }
  }

  /** The two constants get identifiers different from each other and from every dispatcher. */
  lemma ConstNamesDistinct(name: Option<string>, kind: InvokeType)
    ensures CountConstName(name) != ListConstName(name)
    ensures CountConstName(name) != InvokeName(name, kind)
    ensures ListConstName(name) != InvokeName(name, kind)
  {
    var c, l, i := CountConstName(name), ListConstName(name), InvokeName(name, kind);
    assert c[..12] == "METHOD_COUNT" && l[..11] == "METHOD_LIST";
    assert c[7] == 'C' && l[7] == 'L';
    assert c[0] == 'M' && l[0] == 'M' && i[0] == 'i';
  }

  /**
   * Suffixes do not always separate families: the plain family's
   * `invoke_all_enum` is the `enum`-suffixed family's `invoke_all`.
   */
  lemma SuffixCanCollide()
    ensures InvokeName(None, SpecifiedAll(Enum)) == InvokeName(Some("enum"), All)
  {
  }
}
