/**
 * The attribute's own arguments, `#[invoke_impl(name("s"); clone(0, 2))]`:
 * at most two `key(...)` groups, keys matched case-insensitively, `name`
 * holding one string literal and `clone` a list of integer literals.
 */
module Args {
  import opened Wrappers
  import opened Errors

  datatype Lit = StrLit(str: string) | IntLit(num: nat) | OtherLit(text: string)

  /** One entry inside `key(...)`: a nested meta item or a literal. */
  datatype NestedMeta = MetaNested(text: string) | LitNested(lit: Lit)

  /** `key(entries)`; `path` holds the segments of the key. */
  datatype MetaList = MetaList(path: seq<string>, nested: seq<NestedMeta>)

  /** The optional name suffix and the optional set of cloned parameter positions. */
  datatype Config = Config(name: Option<string>, clones: Option<set<nat>>)

  /** `usize` is taken to be 64 bits wide. */
  const UsizeLimit: nat := 0x1_0000_0000_0000_0000

  function LowerChar(c: char): char {
    if 'A' <= c <= 'Z' then (c as int + 32) as char else c
  }

  function Lower(s: string): (r: string)
    ensures |r| == |s|
  {
    seq(|s|, i requires 0 <= i < |s| => LowerChar(s[i]))
  }

  /** The lower-cased key, when the path is a single identifier. */
  function Key(a: MetaList): Option<string> {
    if |a.path| == 1 then Some(Lower(a.path[0])) else None
  }

  function EntryFault(n: NestedMeta): Option<ArgError> {
    match n
    case LitNested(IntLit(v)) => if v < UsizeLimit then None else Some(CloneOutOfRange)
    case _ => Some(CloneNotInt)
  }

  /** The fault of the first bad entry of a `clone` list. */
  function FirstEntryFault(ns: seq<NestedMeta>): Option<ArgError> {
    if ns == [] then None
    else if FirstEntryFault(ns[..|ns| - 1]).Some? then FirstEntryFault(ns[..|ns| - 1])
    else EntryFault(ns[|ns| - 1])
  }

  /** The integer values listed in a `clone` group. */
  function IntValues(ns: seq<NestedMeta>): set<nat> {
    if ns == [] then {}
    else
      IntValues(ns[..|ns| - 1]) +
      match ns[|ns| - 1]
      case LitNested(IntLit(v)) => {v}
      case _ => {}
  }

  /** A fault found in a prefix is the fault of the whole list. */
  lemma {:induction false} FirstFaultPrefix(ns: seq<NestedMeta>, k: nat)
    requires k <= |ns| && FirstEntryFault(ns[..k]).Some?
    ensures FirstEntryFault(ns) == FirstEntryFault(ns[..k])
  {
    if k < |ns| {
      assert ns[..|ns| - 1][..k] == ns[..k];
      FirstFaultPrefix(ns[..|ns| - 1], k);
    } else {
      assert ns[..k] == ns;
    }
  }

  predicate IsNameList(ns: seq<NestedMeta>) {
    |ns| == 1 && ns[0].LitNested? && ns[0].lit.StrLit?
  }

  predicate SeenBefore(args: seq<MetaList>, i: nat, k: string)
    requires i <= |args|
  {
    exists j :: 0 <= j < i && Key(args[j]) == Some(k)
  }

  /** What is wrong with argument `i`, given the arguments before it (None when nothing is). */
  function ArgFault(args: seq<MetaList>, i: nat): Option<ArgError>
    requires i < |args|
  {
    match Key(args[i])
    case None => Some(KeyNotIdent)
    case Some(k) =>
      if k == "name" then
        if SeenBefore(args, i, "name") then Some(DuplicateName)
        else if !IsNameList(args[i].nested) then Some(NameNotSingleStr)
        else None
      else if k == "clone" then
        if SeenBefore(args, i, "clone") then Some(DuplicateClone)
        else FirstEntryFault(args[i].nested)
      else Some(UnknownKey(k))
  }

  predicate Accepted(args: seq<MetaList>) {
    |args| <= 2 && forall i :: 0 <= i < |args| ==> ArgFault(args, i).None?
  }

  /** The string a well-formed `name` group carries. */
  function NameOfGroup(a: MetaList): Option<string> {
    if Key(a) == Some("name") && IsNameList(a.nested) then Some(a.nested[0].lit.str) else None
  }

  /** The integer set a `clone` group carries. */
  function CloneOfGroup(a: MetaList): Option<set<nat>> {
    if Key(a) == Some("clone") then Some(IntValues(a.nested)) else None
  }

  /** The string of the first well-formed `name` group. */
  function NameArg(args: seq<MetaList>): Option<string> {
    if args == [] then None
    else if NameArg(args[..|args| - 1]).Some? then NameArg(args[..|args| - 1])
    else NameOfGroup(args[|args| - 1])
  }

  /** The integer set of the first `clone` group. */
  function CloneArg(args: seq<MetaList>): Option<set<nat>> {
    if args == [] then None
    else if CloneArg(args[..|args| - 1]).Some? then CloneArg(args[..|args| - 1])
    else CloneOfGroup(args[|args| - 1])
  }

  /**
   * Parses the attribute's arguments.  Fails on more than two groups, and
   * otherwise with the fault of the first faulty group; on success the
   * name and the clone set are those the groups carry.
   */
  method ParseArgs(args: seq<MetaList>) returns (r: Result<Config, ArgError>)
    ensures |args| > 2 ==> r == Err(TooManyArgs)
    ensures r.Ok? <==> Accepted(args)
    ensures r.Ok? ==> r.value == Config(NameArg(args), CloneArg(args))
    ensures r.Err? && |args| <= 2 ==>
      exists i :: 0 <= i < |args| && ArgFault(args, i) == Some(r.error) &&
        forall j :: 0 <= j < i ==> ArgFault(args, j).None?
  {
    if |args| == 0 {
      return Ok(Config(None, None));
    }
    if |args| > 2 {
      return Err(TooManyArgs);
    }
    var name: Option<string> := None;
    var clones: Option<set<nat>> := None;
    var i := 0;
    while i < |args|
      invariant 0 <= i <= |args|
      invariant forall j :: 0 <= j < i ==> ArgFault(args, j).None?
      invariant name == NameArg(args[..i]) && clones == CloneArg(args[..i])
      invariant name.Some? <==> SeenBefore(args, i, "name")
      invariant clones.Some? <==> SeenBefore(args, i, "clone")
    {
      var a := args[i];
      assert args[..i + 1][..i] == args[..i];
      if |a.path| != 1 {
        assert ArgFault(args, i) == Some(KeyNotIdent);
        return Err(KeyNotIdent);
      }
      var key := Lower(a.path[0]);
      if key == "name" {
        if name.Some? {
          assert ArgFault(args, i) == Some(DuplicateName);
          return Err(DuplicateName);
        }
        if |a.nested| != 1 {
          assert ArgFault(args, i) == Some(NameNotSingleStr);
          return Err(NameNotSingleStr);
        }
        match a.nested[0]
        case MetaNested(_) =>
          assert ArgFault(args, i) == Some(NameNotSingleStr);
          return Err(NameNotSingleStr);
        case LitNested(lit) =>
          if !lit.StrLit? {
            assert ArgFault(args, i) == Some(NameNotSingleStr);
            return Err(NameNotSingleStr);
          }
          name := Some(lit.str);
      } else if key == "clone" {
        if clones.Some? {
          assert ArgFault(args, i) == Some(DuplicateClone);
          return Err(DuplicateClone);
        }
        var indices: set<nat> := {};
        var j := 0;
        while j < |a.nested|
          invariant 0 <= j <= |a.nested|
          invariant indices == IntValues(a.nested[..j])
          invariant FirstEntryFault(a.nested[..j]).None?
        {
          assert a.nested[..j + 1][..j] == a.nested[..j];
          match a.nested[j]
          case MetaNested(_) =>
            assert FirstEntryFault(a.nested[..j + 1]) == Some(CloneNotInt);
            FirstFaultPrefix(a.nested, j + 1);
            assert ArgFault(args, i) == Some(CloneNotInt);
            return Err(CloneNotInt);
          case LitNested(lit) =>
            if !lit.IntLit? {
              assert FirstEntryFault(a.nested[..j + 1]) == Some(CloneNotInt);
              FirstFaultPrefix(a.nested, j + 1);
              assert ArgFault(args, i) == Some(CloneNotInt);
              return Err(CloneNotInt);
            }
            if lit.num >= UsizeLimit {
              assert FirstEntryFault(a.nested[..j + 1]) == Some(CloneOutOfRange);
              FirstFaultPrefix(a.nested, j + 1);
              assert ArgFault(args, i) == Some(CloneOutOfRange);
              return Err(CloneOutOfRange);
            }
            indices := indices + {lit.num};
          j := j + 1;
        }
        assert a.nested[..j] == a.nested;
        clones := Some(indices);
      } else {
        assert ArgFault(args, i) == Some(UnknownKey(key));
        return Err(UnknownKey(key));
      }
      i := i + 1;
    }
    assert args[..i] == args;
    return Ok(Config(name, clones));
  }

  lemma GroupsOfOne(args: seq<MetaList>)
    requires |args| == 1
    ensures NameArg(args) == NameOfGroup(args[0]) && CloneArg(args) == CloneOfGroup(args[0])
  {
    assert args[..0] == [];
  }

  lemma GroupsOfTwo(args: seq<MetaList>)
    requires |args| == 2
    ensures NameArg(args) == if NameOfGroup(args[0]).Some? then NameOfGroup(args[0]) else NameOfGroup(args[1])
    ensures CloneArg(args) == if CloneOfGroup(args[0]).Some? then CloneOfGroup(args[0]) else CloneOfGroup(args[1])
  {
    GroupsOfOne(args[..1]);
  }

  /** The facts of ConfigFromAccepted, for a list of groups none of which is faulty. */
  predicate ReadsOffGroups(args: seq<MetaList>) {
    && (NameArg(args).Some? <==> exists i :: 0 <= i < |args| && Key(args[i]) == Some("name"))
    && (forall i :: 0 <= i < |args| && Key(args[i]) == Some("name") ==>
          IsNameList(args[i].nested) && NameArg(args) == Some(args[i].nested[0].lit.str))
    && (CloneArg(args).Some? <==> exists i :: 0 <= i < |args| && Key(args[i]) == Some("clone"))
    && (forall i :: 0 <= i < |args| && Key(args[i]) == Some("clone") ==>
          CloneArg(args) == Some(IntValues(args[i].nested)))
  }

  lemma OneGroupReadsOff(args: seq<MetaList>)
    requires |args| == 1 && ArgFault(args, 0).None?
    ensures ReadsOffGroups(args)
  {
    GroupsOfOne(args);
  }

  lemma TwoGroupsReadOff(args: seq<MetaList>)
    requires |args| == 2 && ArgFault(args, 0).None? && ArgFault(args, 1).None?
    ensures ReadsOffGroups(args)
  {
    GroupsOfTwo(args);
    if Key(args[0]) == Some("name") {
      assert SeenBefore(args, 1, "name");
      assert Key(args[1]) == Some("clone");
    } else {
      assert SeenBefore(args, 1, "clone");
      assert Key(args[1]) == Some("name");
    }
  }

  /**
   * For accepted arguments the configuration reads off the groups: the name
   * is present exactly when a `name` group is, and then is that group's
   * string; the clone set likewise holds the `clone` group's integers.
   */
  lemma ConfigFromAccepted(args: seq<MetaList>)
    requires Accepted(args)
    ensures ReadsOffGroups(args)
  {
    if |args| == 1 {
      assert ArgFault(args, 0).None?;
      OneGroupReadsOff(args);
    } else if |args| == 2 {
      assert ArgFault(args, 0).None? && ArgFault(args, 1).None?;
      TwoGroupsReadOff(args);
    }
  }
}
