# invoke_impl, modelled in Dafny

`invoke_impl` is an attribute macro for a Rust `impl` block whose methods all
share one signature. It reads the block and its arguments, `name("s")` and
`clone(i, j, ..)`. It then appends six *dispatchers* that call the members for
the caller:

- `invoke_all`
- `invoke_subset`
- `invoke_all_enumerated`
- `invoke_all_enum`
- `invoke_enumerated`
- `invoke_enum`

It also appends two constants, `METHOD_COUNT` and `METHOD_LIST`. Beside the
block it emits a *tag enum* with one variant per member. The enum has `iter()`,
`TryFrom<&str>` and `From<Enum> for &str`.

This project models that generator on an abstract syntax of impl blocks. It
also models what the generated code does when it runs.

| module (file) | models |
|---|---|
| `Wrappers` (wrappers.dfy) | `Option` and `Result` |
| `Errors` (errors.dfy) | one constructor per reason the attribute aborts, except a `name` that is not a valid identifier |
| `Syntax` (syntax.dfy) | the parts of `syn`'s impl-block AST that the generator reads, and the code it writes; the method filter |
| `Kinds` (kinds.dfy) | `InvokeType` / `SpecificationType`, and the two axes that describe them: scope (every member or caller-selected) and tagging (none, index, enum) |
| `Naming` (naming.dfy) | `generate_invoke_name`, `generate_enum_name`, the constant names |
| `Args` (args.dfy) | `parse_args` |
| `Signatures` (signatures.dfy) | `validate_signatures` |
| `Forwarding` (forwarding.dfy) | the `param_ids` walk of `create_invoke_function`, its generic-parameter filter, `get_inner_call_expr` |
| `TagEnum` (tag_enum.dfy) | `create_enum`, and how its `try_from`, `from` and `iter()` behave |
| `Dispatch` (dispatch.dfy) | `create_invoke_function` and the four body builders |
| `Trace` (trace.dfy) | a run semantics for generated bodies; the documented behaviour of each dispatcher; the theorem that they agree |
| `Expand` (expand.dfy) | `invoke_impl` itself |

The generator's loops are modelled as `method`s with loop invariants. Each
method is proved against a specification:

- the parameter walk (`Forwarding.CollectParamIds`) and the four body builders
  (`Dispatch.InvokeAllBlock`, `InvokeSomeBlock`, `InvokeAllEnumBlock`,
  `InvokeEnumBlock`) are proved equal to a recursive function over a prefix
  of their input (`ForwardPrefix`, `AllStmts`, `SubsetArms`, `AllTaggedStmts`,
  `TaggedArms`);
- the signature gate (`Signatures.ValidateSignatures`) is proved against a
  quantified postcondition: no result exactly when every member agrees, and
  otherwise the first member that does not;
- the argument parser (`Args.ParseArgs`) is proved against `Accepted` and
  against `NameArg` and `CloneArg`, which read its result off a prefix of the
  groups. Its error is the first fault `ArgFault` finds.

Lemmas then prove what the source promises about those functions. The six
dispatcher constructions and the eight pushes onto the block are straight-line
code in the source. They stay straight-line in `Expand.AppendGenerated`, which
is proved against `DispatcherItems` and `MetadataItems`.

A `panic!`, a failing `unwrap` or an out-of-range index becomes an `Err` of
`Errors.GenError`; panic sites that abort for the same reason share a
constructor. The model has five aborts, in the source's order:

1. argument errors (`parse_args` runs first);
2. an empty block (`methods[0]`);
3. the first member whose signature differs;
4. a self type that is not a path;
5. a `self` receiver taken by value. This is found while the first dispatcher is built.

The source has a sixth abort, between 4 and 5, that the model does not have:
a `name` that does not form a valid identifier (see "## Left out").

Generated bodies are given a meaning by `Trace.Exec`. `Exec` runs the
statements on a sequence of selector values and records two kinds of event:
each member call (`Called`) and each callback invocation (`Consumed`, with the
values passed). Member calls stay uninterpreted events.

`Trace.Expected` is written separately from the bodies, from the behaviour the
crate documentation promises (src/lib.rs:1-24, with the expansion it shows at
src/lib.rs:46-136):

- the "all" dispatchers call every member once, in declaration order;
- the selected dispatchers call, for each selector in turn, the member it designates;
- a `usize` selector that names no member panics, and nothing runs after it;
- the callback gets the tag and, unless the members return nothing, the member's result.

### Where the code and its documentation differ

**Clone positions.** The crate documentation (src/lib.rs:17-20) says clone
positions are 0-indexed parameters of the methods. In the code, the position is taken by `enumerate`
over all inputs, *before* the receiver is dropped (src/lib.rs:408-442). For a
method, `&self` therefore counts as position 0, and the first ordinary
parameter is position 1. The model follows the code, and
`Forwarding.ClonePositionsCountReceiver` states this with an example.

**Name suffixes.** Suffixes do not always keep dispatcher families apart. The
unsuffixed family's `invoke_all_enum` is the same identifier as the
`name("enum")` family's `invoke_all`. `Naming.SuffixCanCollide` states this.

## Model

| member | source | states |
|---|---|---|
| `Args.ParseArgs` | src/lib.rs:1046-1123 | More than two groups gives `TooManyArgs`. Otherwise it succeeds exactly when no group is faulty, and on failure it reports the fault of the first faulty group. A group is faulty for these reasons: its key is not a single identifier; its lower-cased key is neither `name` nor `clone`; the key is repeated; `name` does not hold exactly one string literal; a `clone` entry is not an integer literal, or does not fit in `usize`. On success the name and clone set are those the groups carry. No groups gives `(None, None)`. |
| `Args.ConfigFromAccepted` | src/lib.rs:1064-1109 | For accepted arguments, the name is present exactly when a `name` group is, and it is that group's string. The clone set is present exactly when a `clone` group is, and it is the set of that group's integers. |
| `Args.FirstFaultPrefix` | src/lib.rs:1093-1107 | A bad `clone` entry found in a prefix of the list is the fault reported for the whole list, so the scan stops at the first bad entry. |
| `Signatures.ValidateSignatures` | src/lib.rs:982-1028 | Returns `None` exactly when every member is interchangeable with the base. Otherwise it returns the first member that is not, and all members before it are interchangeable. |
| `Signatures.InterchangeableIff` | src/lib.rs:983-1016 | Two methods are interchangeable iff they agree on visibility, defaultness, qualifiers, generics, `where` clause, inputs and return type. Name, attributes and body are ignored. |
| `Signatures.GatePassedMeansUniformSignatures` | src/lib.rs:238-239 | Once the gate passes against the first member, every two members have the same inputs, return type, generics and `where` clause. |
| `Signatures.WhereClauseCounts` | src/lib.rs:983-1016 | Two methods that differ only in their `where` clause are not interchangeable, so the gate rejects such a block. |
| `Syntax.MethodsAreTheFnItems` | src/lib.rs:220-227 | The collected methods are exactly the block's `fn` items; other items are skipped. |
| `Syntax.MethodsAppend` | src/lib.rs:220-227 | Collecting methods distributes over concatenation of item lists. |
| `Syntax.MethodsOfFnItems` | src/lib.rs:306-311 | A list made only of `fn` items contributes all of those methods, in order. |
| `Naming.Suffixed` | src/lib.rs:1139-1143 | Without a name the identifier is the base. With a name it is the base followed by `_` and the name. |
| `Naming.SuffixedInjective` | src/lib.rs:1126-1144 | Appending the same suffix keeps different bases different. |
| `Naming.InvokeNamesDistinct` | src/lib.rs:1126-1144 | Within one family (one suffix), different kinds get different dispatcher identifiers. |
| `Naming.ConstNamesDistinct` | src/lib.rs:313-328 | `METHOD_COUNT[_s]` and `METHOD_LIST[_s]` differ from each other and from every dispatcher identifier. |
| `Naming.SuffixCanCollide` | src/lib.rs:1126-1144 | The unsuffixed `invoke_all_enum` equals the `enum`-suffixed `invoke_all`. |
| `Naming.InvokeName` | src/lib.rs:1126-1144 | A dispatcher identifier starts with `invoke_` and, with a name, ends with `_` and the name. `InvokeNamesDistinct` and `SuffixCanCollide` state how identifiers of different kinds and families relate. |
| `Naming.EnumName` | src/lib.rs:1147-1153 | The enum identifier is the struct identifier, then `_invoke_impl_enum`, then `_` and the name when there is one, and nothing else. `Suffixed` and `TagEnum.VariantsInDeclarationOrder` build on it. |
| `Kinds.KindOf` | src/lib.rs:349-362 | Each combination of scope and tagging is the kind that has exactly that scope and tagging. |
| `Kinds.AxesDetermineKind` | src/lib.rs:339-362 | Scope and tagging determine the kind. The six kinds in push order are pairwise distinct and include every kind. |
| `Forwarding.CollectParamIds` | src/lib.rs:405-442 | Fails with `ByValueReceiver` exactly when some input is a by-value `self`. Otherwise the dispatch is bound exactly when there is a `&self` receiver, and the forwarded arguments are `ForwardArgs` of the inputs. |
| `Forwarding.ForwardedAt` | src/lib.rs:422-440 | The plain identifier parameter at position p is forwarded at index "number of such parameters before p". It is forwarded as `id.clone()` when p is in the clone set, and as `id` otherwise. |
| `Forwarding.ForwardArgsCount` | src/lib.rs:420-442 | There is one forwarded argument per plain identifier parameter. Receivers and other patterns are dropped. |
| `Forwarding.ForwardPrefixLength` | src/lib.rs:420-442 | Within any prefix of the inputs, the number of forwarded arguments is the number of plain identifier parameters. |
| `Forwarding.ForwardPrefixGrows` | src/lib.rs:420-442 | Reading further inputs only appends arguments. |
| `Forwarding.NoClonesForwardDirectly` | src/lib.rs:434-437 | Without a clone set, every argument is forwarded as-is. |
| `Forwarding.ClonePositionsCountReceiver` | src/lib.rs:408-430 | With `&self, s: String`, clone position 1 clones `s` and clone position 0 does not. |
| `Forwarding.TypeGenerics` | src/lib.rs:444-454 | Its result holds exactly the names of the type parameters. Lifetimes and const generics are dropped. |
| `Forwarding.TypeGenericsOne` | src/lib.rs:449-452 | A single generic gives its name when it is a type parameter, and nothing otherwise. |
| `Forwarding.TypeGenericsAppend` | src/lib.rs:444-454 | Filtering distributes over concatenation. With `TypeGenericsOne` this makes the turbofish of every forwarded call (src/lib.rs:884, 890) the type parameters' names in declaration order. |
| `Forwarding.InnerCall` | src/lib.rs:873-895 | The call is `self.m::<G>(args)` exactly when the dispatch is bound. Otherwise it is `Struct::m::<G>(args)`. The callee, generics and arguments are those given. |
| `Dispatch.InvokeAllBlock` | src/lib.rs:578-618 | The built body is `AllStmts`: per member, `consumer(call);` or `call;`. |
| `Dispatch.AllStmtsAt` | src/lib.rs:594-616 | `invoke_all` has exactly one statement per member, in declaration order. |
| `Dispatch.InvokeSomeBlock` | src/lib.rs:621-681 | The built body is one `for` loop over a match with arm `k` for member k, for every k, then the invalid-index panic arm. |
| `Dispatch.InvokeAllEnumBlock` | src/lib.rs:684-754 | The built body is, per member, `consumer(tag_k, call_k);`, or `call_k; consumer(tag_k);` when void. The tag is `k` or `Enum::name_k`. |
| `Dispatch.InvokeEnumBlock` | src/lib.rs:757-870 | The built body is one `for` loop over a match with one arm per member (`k` or `Enum::name_k`). The panic arm is added only for `usize` selectors. |
| `Dispatch.DispatcherParameters` | src/lib.rs:460-519 | The parameter list is the members' inputs, then `consumer`, then `invoke_impl_iter`. `consumer` takes the tag (none, `usize` or the enum) and the return type, and is absent only for `invoke_all`/`invoke_subset` of void members. `invoke_impl_iter` is present only for `invoke_subset` and the `Specified` kinds, and yields the enum only for `invoke_enum`. |
| `Dispatch.CreateInvokeFunction` | src/lib.rs:379-575 | Fails with `ByValueReceiver` exactly when the base takes `self` by value. Otherwise it returns the dispatcher defined by the two axes: the base's attributes, visibility, generics and `where` clause; the kind's name; no return type; the parameter table above; and the kind's body. |
| `TagEnum.VariantsInDeclarationOrder` | src/lib.rs:901-940 | The enum is named `Struct_invoke_impl_enum[_s]`. It has one variant per member, named after it, in declaration order, and `iter()` yields them in that order. |
| `TagEnum.CreateEnum` | src/lib.rs:901-978 | One variant per member, the k-th named after the k-th member; `iter()` walks the variants; both conversions have one arm per member pairing its name with its own variant. `VariantsInDeclarationOrder`, `TryFromArms` and `TagRoundTrip` state what the enum does. |
| `TagEnum.TryFromArms` | src/lib.rs:942-956 | With first-match semantics, the `try_from` arms accept exactly the member names, each to its own variant. |
| `TagEnum.IntoStrArms` | src/lib.rs:958-971 | The `from` arms map each variant to its own name. |
| `TagEnum.TagRoundTrip` | src/lib.rs:942-971 | `try_from(name_k)` is variant k and `from(variant k)` is `name_k`. `try_from` fails exactly on non-member strings. `from(try_from(s)) == s` whenever `try_from` succeeds. |
| `Trace.DispatcherRunsAsDesigned` | src/lib.rs:578-870 | Running the body of any kind on well-typed selectors produces exactly the documented trace (`Expected`): calls, callback values and final status. |
| `Trace.AllDispatchersCallEveryMember` | src/lib.rs:5-11 | The four "all" dispatchers complete, calling every member exactly once in declaration order. |
| `Trace.SelectedCallsInOrder` | src/lib.rs:669-680 | Running the body of `invoke_subset`, `invoke_enumerated` or `invoke_enum` on well-typed selectors that each designate a member completes. The run makes one call per selector, in selector order and including repeats, and each call is to the designated member. |
| `Trace.SelectedStopsAtFirstInvalid` | src/lib.rs:662-667 | Running the body of a caller-selected dispatcher, the first selector that designates no member makes the run panic. The events before it are those of a run on the selectors before it. |
| `Trace.ExpectedSelectedCallsInOrder` | src/lib.rs:92-133 | The documented trace for selectors that all designate a member has one call per selector, to that member, in selector order. |
| `Trace.ExpectedSelectedStopsAtFirstInvalid` | src/lib.rs:75-78 | The documented trace panics at the first selector that designates no member and keeps the events before it. |
| `Trace.ExpectedAllCallsInOrder` | src/lib.rs:60-91 | The documented "all" trace calls the members in declaration order. |
| `Trace.StepCallsOneMember` | src/lib.rs:720-745 | Each dispatched member contributes exactly one call, to itself. |
| `Trace.SubsetExample` | src/lib.rs:65-81 | With members `f1, f2, f3`, `invoke_subset` with selectors 2, 0, 2 calls `f3, f1, f3` and completes. The selector 3 panics before any call. |
| `Expand.StructIdent` | src/lib.rs:1032-1039 | The type's identifier is the first segment of a path type. Any other self type gives `NoStructName`. |
| `Expand.InvokeImpl` | src/lib.rs:215-337 | Argument errors come first, and are reported exactly when the arguments are not accepted. Otherwise the result is `Outcome`: no methods, a signature mismatch (the first one), a non-path self type or a by-value receiver aborts, in that order. Otherwise the result is the expansion; an invalid `name` identifier is not an abort here. |
| `Expand.AppendGenerated` | src/lib.rs:247-332 | Fails exactly when the first member takes `self` by value. Otherwise it appends the six dispatchers in push order, then the count and list constants. |
| `Expand.FirstMismatch` | src/lib.rs:1000-1027 | The reported index is the first member that differs from the base, and every member before it agrees. |
| `Expand.MetadataCountsUserMethods` | src/lib.rs:313-332 | The rewritten block is the user's items followed by eight generated items. It has six more methods than before, named by the six dispatcher identifiers. `METHOD_COUNT[_s]` is the number of user methods and `METHOD_LIST[_s]` their names in declaration order. Non-method items and generated dispatchers are not counted. |
| `Expand.AddedNamesDistinct` | src/lib.rs:306-328 | The six dispatcher identifiers and the two constant identifiers of one family are pairwise distinct. |
| `Expand.ExpandedDispatchersRunAsDesigned` | src/lib.rs:306-311 | In a successful expansion, the i-th appended item is a function named after the i-th kind, and its body runs as that kind is documented to. |

## Left out

- Token streams, `syn` parsing and `quote` printing, spans and `format_ident!` hygiene. The model works on an abstract syntax, and identifiers are plain strings.
- A `name` value that does not form a valid identifier, such as `name("a-b c")`. In the source, `format_ident!` panics while the tag enum's name is built (src/lib.rs:1149, reached from src/lib.rs:244). This abort falls between aborts 4 and 5. The model accepts any string, because which strings form identifiers depends on Unicode's XID character classes, which the model does not represent.
- A failure to parse the annotated item as an impl block (`parse_macro_input!`), and malformed attribute token syntax. These happen before any of the modelled logic.
- Panic message texts. Each panic is a constructor of `Errors.GenError` or `Errors.ArgError`.
- The derived `Debug`, `Clone` and `Copy` impls of the tag enum.
- The bodies and effects of the users' methods. A member call is an uninterpreted event.
- That cloned arguments are independent copies at run time. The model shows which arguments are wrapped in `.clone()`, not what ownership this gives.
- Whether clone positions lie within the parameter list. The source does not check this either, so a position beyond the list simply clones nothing.
- `Args.Lower`: only ASCII letters are lower-cased, whereas Rust's `to_lowercase` is Unicode-aware. A key written with non-ASCII capitals is the only case where this matters.
- `usize` is taken to be 64 bits. Clone literals at or above 2^64 are `CloneOutOfRange`.
- `Expand.StructIdent`: only the first path segment is taken. A path type with no segments is reported as `NoStructName`, whereas the source would fail on an out-of-range index.
- Generic arguments inside paths, raw identifiers, and paths with a leading `::`.
- The selector iterator is a finite sequence of values read in advance. An infinite `impl Iterator`, with which the dispatcher never returns, is not modelled. Nor is the interleaving of its `next()` calls, and any side effects they have, with the member calls.
- The tag enum's `try_from` and `from` are modelled by their match arms under first-match semantics, not as Rust trait impls.
