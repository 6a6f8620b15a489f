/**
 * The six dispatcher kinds.  The source names them by `InvokeType` and
 * `SpecificationType`, whose doc comments (src/lib.rs:349-362) describe
 * two independent axes: which scope of members is invoked and how each
 * invocation is tagged.
 */
module Kinds {

  /** Whether a dispatcher tags its invocations by position (`usize`) or by the tag enum. */
  datatype SpecificationType = Enum | Enumerated

  datatype InvokeType =
    | Specified(st: SpecificationType)     // caller-selected members, tagged
    | SpecifiedAll(st: SpecificationType)  // every member, tagged
    | Subset                               // caller-selected members, untagged
    | All                                  // every member, untagged

  datatype ScopeAxis = AllMembers | CallerSpecified

  datatype TagAxis = NoTag | IndexTag | DiscriminantTag

  /** The kinds in the order the attribute appends their dispatchers. */
  const KindOrder: seq<InvokeType> :=
    [All, Subset, SpecifiedAll(Enumerated), SpecifiedAll(Enum), Specified(Enumerated), Specified(Enum)]

  function Scope(kind: InvokeType): ScopeAxis {
    match kind
    case Specified(_) => CallerSpecified
    case Subset => CallerSpecified
    case SpecifiedAll(_) => AllMembers
    case All => AllMembers
  }

  function Tagging(kind: InvokeType): TagAxis {
    match kind
    case Specified(st) => if st == Enum then DiscriminantTag else IndexTag
    case SpecifiedAll(st) => if st == Enum then DiscriminantTag else IndexTag
    case Subset => NoTag
    case All => NoTag
  }

  /** The inverse of the axes: the kind that has a given scope and tagging. */
  function KindOf(scope: ScopeAxis, tag: TagAxis): (kind: InvokeType)
    ensures Scope(kind) == scope && Tagging(kind) == tag
  {
    match (scope, tag)
    case (AllMembers, NoTag) => All
    case (CallerSpecified, NoTag) => Subset
    case (AllMembers, IndexTag) => SpecifiedAll(Enumerated)
    case (CallerSpecified, IndexTag) => Specified(Enumerated)
    case (AllMembers, DiscriminantTag) => SpecifiedAll(Enum)
    case (CallerSpecified, DiscriminantTag) => Specified(Enum)
  }

  /**
   * The two axes determine the kind: the six kinds are exactly the six
   * combinations of scope and tagging, and `KindOrder` lists each once.
   */
  lemma AxesDetermineKind(kind: InvokeType)
    ensures KindOf(Scope(kind), Tagging(kind)) == kind
    ensures kind in KindOrder
    ensures |KindOrder| == 6 && forall i, j :: 0 <= i < j < |KindOrder| ==> KindOrder[i] != KindOrder[j]
  {
  }
}
