/**
 * What running a generated dispatcher does.  A run is the sequence of
 * observable events (a member called with the forwarded arguments, the
 * callback called with some values) and how it ended.  `Exec` gives the
 * meaning of the generated statements; `Expected` is the behaviour the
 * crate documentation promises (src/lib.rs:1-24 and the expansion shown
 * after it), written independently of the syntax; the theorem
 * `DispatcherRunsAsDesigned` says the two agree for every kind, every member
 * list and every well-typed selector sequence.
 */
module Trace {
  import opened Wrappers
  import opened Syntax
  import opened Kinds
  import opened Dispatch

  /** The values a callback can receive: a member's result, a `usize`, an enum variant. */
  datatype Value = ResultOf(callee: string) | UsizeV(n: nat) | VariantV(enumName: string, variant: string)

  datatype Event = Called(callee: string, args: seq<Arg>) | Consumed(values: seq<Value>)

  /** `NoArmMatched` cannot arise from generated code for a well-typed selector. */
  datatype Status = Completed | Panicked | NoArmMatched

  datatype Run = Run(events: seq<Event>, status: Status)

  // ---- meaning of the generated syntax ----

  function TagValue(t: TagExpr): Value {
    match t
    case UsizeLit(n) => UsizeV(n)
    case VariantLit(e, v) => VariantV(e, v)
  }

  function ArgValue(a: ConsumerArg): Value {
    match a
    case TagArg(t) => TagValue(t)
    case ResultArg(c) => ResultOf(c.callee)
  }

  /** Arguments are evaluated left to right; only a call has an effect. */
  function ArgsEvents(args: seq<ConsumerArg>): seq<Event> {
    if args == [] then []
    else (match args[0] case TagArg(_) => [] case ResultArg(c) => [Called(c.callee, c.args)]) + ArgsEvents(args[1..])
  }

  function EvalExpr(e: Expr): seq<Event> {
    match e
    case CallOnly(c) => [Called(c.callee, c.args)]
    case ConsumerCall(args) =>
      ArgsEvents(args) + [Consumed(seq(|args|, i requires 0 <= i < |args| => ArgValue(args[i])))]
  }

  function EvalExprs(es: seq<Expr>): seq<Event> {
    if es == [] then [] else EvalExpr(es[0]) + EvalExprs(es[1..])
  }

  lemma EvalOneArg(a: ConsumerArg)
    ensures EvalExpr(ConsumerCall([a])) == ArgsEvents([a]) + [Consumed([ArgValue(a)])]
    ensures ArgsEvents([a]) == (if a.ResultArg? then [Called(a.call.callee, a.call.args)] else [])
  {
    var args := [a];
    assert args[1..] == [];
    assert seq(|args|, i requires 0 <= i < |args| => ArgValue(args[i])) == [ArgValue(a)];
  }

  lemma EvalTwoArgs(a: ConsumerArg, b: ConsumerArg)
    requires a.TagArg?
    ensures EvalExpr(ConsumerCall([a, b])) == ArgsEvents([b]) + [Consumed([ArgValue(a), ArgValue(b)])]
  {
    var args := [a, b];
    assert args[1..] == [b];
    assert seq(|args|, i requires 0 <= i < |args| => ArgValue(args[i])) == [ArgValue(a), ArgValue(b)];
  }

  lemma EvalTwoExprs(e1: Expr, e2: Expr)
    ensures EvalExprs([e1]) == EvalExpr(e1)
    ensures EvalExprs([e1, e2]) == EvalExpr(e1) + EvalExpr(e2)
  {
    assert [e1][1..] == [];
    assert [e1, e2][1..] == [e2];
    assert EvalExprs([e2]) == EvalExpr(e2) + EvalExprs([e2][1..]);
    assert [e2][1..] == [];
  }

  predicate Matches(p: Pattern, v: Value) {
    match p
    case UsizePat(n) => v == UsizeV(n)
    case VariantPat(e, x) => v == VariantV(e, x)
    case Wildcard => true
  }

  /** The body of the first arm whose pattern matches, as Rust's `match` picks it. */
  function SelectArm(arms: seq<Arm>, v: Value): Option<ArmBody> {
    if arms == [] then None
    else if Matches(arms[0].pat, v) then Some(arms[0].body)
    else SelectArm(arms[1..], v)
  }

  function RunArm(b: ArmBody): Run {
    match b
    case ExprBody(e) => Run(EvalExpr(e), Completed)
    case BlockBody(es) => Run(EvalExprs(es), Completed)
    case PanicInvalidIndex => Run([], Panicked)
  }

  /** Events already seen, followed by a run. */
  function Then(events: seq<Event>, r: Run): Run {
    Run(events + r.events, r.status)
  }

  /** Runs `r2` after `r1` unless `r1` did not complete. */
  function Seq(r1: Run, r2: Run): Run {
    if r1.status == Completed then Then(r1.events, r2) else r1
  }

  /** The `for x in invoke_impl_iter { match x { .. } }` loop over the selectors. */
  function Loop(arms: seq<Arm>, sels: seq<Value>): Run {
    if sels == [] then Run([], Completed)
    else match SelectArm(arms, sels[0])
      case None => Run([], NoArmMatched)
      case Some(b) => Seq(RunArm(b), Loop(arms, sels[1..]))
  }

  function RunStmt(s: Stmt, sels: seq<Value>): Run {
    match s
    case Semi(e) => Run(EvalExpr(e), Completed)
    case ForMatch(arms) => Loop(arms, sels)
  }

  /** Runs a generated body; `sels` is what the selector iterator yields. */
  function Exec(stmts: seq<Stmt>, sels: seq<Value>): Run {
    if stmts == [] then Run([], Completed) else Seq(RunStmt(stmts[0], sels), Exec(stmts[1..], sels))
  }

  // ---- the documented behaviour ----

  /** The tag the callback receives before the result: none, the index, or the variant. */
  function TagValues(tag: TagAxis, enumName: string, names: seq<string>, k: nat): seq<Value>
    requires k < |names|
  {
    match tag
    case NoTag => []
    case IndexTag => [UsizeV(k)]
    case DiscriminantTag => [VariantV(enumName, names[k])]
  }

  /**
   * Dispatching to member `k`: call it with the forwarded arguments, then hand
   * the callback the tag and the result; for members that return nothing the
   * callback gets the tag alone, and is not called at all when there is no tag.
   */
  function Step(ctx: Ctx, tag: TagAxis, names: seq<string>, k: nat): seq<Event>
    requires k < |names|
  {
    var tags := TagValues(tag, ctx.enumName, names, k);
    if ctx.void then [Called(names[k], ctx.args)] + (if tag == NoTag then [] else [Consumed(tags)])
    else [Called(names[k], ctx.args), Consumed(tags + [ResultOf(names[k])])]
  }

  /** Every member once, in declaration order. */
  function ExpectedAll(ctx: Ctx, tag: TagAxis, names: seq<string>, n: nat): seq<Event>
    requires n <= |names|
  {
    if n == 0 then [] else ExpectedAll(ctx, tag, names, n - 1) + Step(ctx, tag, names, n - 1)
  }

  /** The first position of `v` in `names`. */
  function IndexOf(names: seq<string>, v: string): (k: nat)
    requires v in names
    ensures k < |names| && names[k] == v
    ensures forall j :: 0 <= j < k ==> names[j] != v
  {
    if names[0] == v then 0 else 1 + IndexOf(names[1..], v)
  }

  /** The member a selector designates, if any. */
  function Resolve(ctx: Ctx, tag: TagAxis, names: seq<string>, sel: Value): (r: Option<nat>)
    ensures r.Some? ==> r.value < |names|
  {
    if tag == DiscriminantTag then
      if sel.VariantV? && sel.enumName == ctx.enumName && sel.variant in names
      then Some(IndexOf(names, sel.variant)) else None
    else if sel.UsizeV? && sel.n < |names| then Some(sel.n) else None
  }

  /** One step per selector, in the order given; a selector naming no member panics. */
  function ExpectedSelected(ctx: Ctx, tag: TagAxis, names: seq<string>, sels: seq<Value>): Run {
    if sels == [] then Run([], Completed)
    else match Resolve(ctx, tag, names, sels[0])
      case None => Run([], Panicked)
      case Some(k) => Then(Step(ctx, tag, names, k), ExpectedSelected(ctx, tag, names, sels[1..]))
  }

  function Expected(kind: InvokeType, ctx: Ctx, names: seq<string>, sels: seq<Value>): Run {
    if Scope(kind) == AllMembers then Run(ExpectedAll(ctx, Tagging(kind), names, |names|), Completed)
    else ExpectedSelected(ctx, Tagging(kind), names, sels)
  }

  /**
   * What Rust's types guarantee of the selectors: `usize`s for the indexed
   * dispatchers, variants of the dispatcher's own enum for the enum one.
   */
  predicate WellTyped(kind: InvokeType, ctx: Ctx, names: seq<string>, sels: seq<Value>) {
    Scope(kind) == CallerSpecified ==>
      forall i :: 0 <= i < |sels| ==>
        if Tagging(kind) == DiscriminantTag
        then sels[i].VariantV? && sels[i].enumName == ctx.enumName && sels[i].variant in names
        else sels[i].UsizeV?
  }

  // ---- running statement lists ----

  lemma {:induction false} ExecAppend(a: seq<Stmt>, b: seq<Stmt>, sels: seq<Value>)
    ensures Exec(a + b, sels) == Seq(Exec(a, sels), Exec(b, sels))
  {
    if a == [] {
      assert a + b == b;
    } else {
      assert (a + b)[1..] == a[1..] + b;
      ExecAppend(a[1..], b, sels);
      var r := RunStmt(a[0], sels);
      if r.status == Completed {
        var rest := Exec(a[1..], sels);
        if rest.status == Completed {
          assert r.events + (rest.events + Exec(b, sels).events) == (r.events + rest.events) + Exec(b, sels).events;
        }
      }
    }
  }

  /** Two completed runs, one after the other, complete with both their events. */
  lemma ExecCompletedAppend(a: seq<Stmt>, b: seq<Stmt>, sels: seq<Value>, ea: seq<Event>, eb: seq<Event>)
    requires Exec(a, sels) == Run(ea, Completed) && Exec(b, sels) == Run(eb, Completed)
    ensures Exec(a + b, sels) == Run(ea + eb, Completed)
  {
    ExecAppend(a, b, sels);
  }

  /** A list of expression statements runs its expressions one after another. */
  lemma {:induction false} ExecSemis(es: seq<Expr>, sels: seq<Value>)
    ensures Exec(seq(|es|, i requires 0 <= i < |es| => Semi(es[i])), sels) == Run(EvalExprs(es), Completed)
  {
    var stmts := seq(|es|, i requires 0 <= i < |es| => Semi(es[i]));
    if es != [] {
      assert stmts[1..] == seq(|es[1..]|, i requires 0 <= i < |es[1..]| => Semi(es[1..][i]));
      ExecSemis(es[1..], sels);
    }
  }

  lemma ExecOne(s: Stmt, sels: seq<Value>)
    ensures Exec([s], sels) == RunStmt(s, sels)
  {
    assert [s][1..] == [];
    assert RunStmt(s, sels).events + [] == RunStmt(s, sels).events;
  }

  lemma AllStmtRuns(ctx: Ctx, names: seq<string>, k: nat, sels: seq<Value>)
    requires k < |names|
    ensures Exec([AllStmt(ctx, names[k])], sels) == Run(Step(ctx, NoTag, names, k), Completed)
  {
    var call := MemberCall(ctx, names[k]);
    EvalOneArg(ResultArg(call));
    ExecOne(AllStmt(ctx, names[k]), sels);
    assert [] + [ResultOf(names[k])] == [ResultOf(names[k])];
  }

  lemma {:induction false} AllStmtsRun(ctx: Ctx, names: seq<string>, n: nat, sels: seq<Value>)
    requires n <= |names|
    ensures Exec(AllStmts(ctx, names, n), sels) == Run(ExpectedAll(ctx, NoTag, names, n), Completed)
  {
    if n > 0 {
      var prev := AllStmts(ctx, names, n - 1);
      var last := [AllStmt(ctx, names[n - 1])];
      var ePrev := ExpectedAll(ctx, NoTag, names, n - 1);
      var eLast := Step(ctx, NoTag, names, n - 1);
      assert AllStmts(ctx, names, n) == prev + last;
      assert ExpectedAll(ctx, NoTag, names, n) == ePrev + eLast;
      AllStmtsRun(ctx, names, n - 1, sels);
      AllStmtRuns(ctx, names, n - 1, sels);
      ExecCompletedAppend(prev, last, sels, ePrev, eLast);
    }
  }

  /** The tag axis of the enumerated and enum dispatchers. */
  function TagOf(st: SpecificationType): TagAxis {
    if st == Enum then DiscriminantTag else IndexTag
  }

  lemma TaggedExprsRun(ctx: Ctx, st: SpecificationType, names: seq<string>, k: nat)
    requires k < |names|
    ensures EvalExprs(TaggedExprs(ctx, TagFor(ctx, st, names, k), names[k])) == Step(ctx, TagOf(st), names, k)
  {
    var tag := TagFor(ctx, st, names, k);
    var call := MemberCall(ctx, names[k]);
    assert TagValue(tag) == (if st == Enum then VariantV(ctx.enumName, names[k]) else UsizeV(k));
    EvalOneArg(TagArg(tag));
    EvalOneArg(ResultArg(call));
    EvalTwoArgs(TagArg(tag), ResultArg(call));
    EvalTwoExprs(CallOnly(call), ConsumerCall([TagArg(tag)]));
    EvalTwoExprs(ConsumerCall([TagArg(tag), ResultArg(call)]), CallOnly(call));
    assert [TagValue(tag)] + [ResultOf(names[k])] == [TagValue(tag), ResultOf(names[k])];
  }

  lemma {:induction false} AllTaggedStmtsRun(ctx: Ctx, st: SpecificationType, names: seq<string>, n: nat, sels: seq<Value>)
    requires n <= |names|
    ensures Exec(AllTaggedStmts(ctx, st, names, n), sels) == Run(ExpectedAll(ctx, TagOf(st), names, n), Completed)
  {
    if n > 0 {
      var prev := AllTaggedStmts(ctx, st, names, n - 1);
      var last := TaggedStmts(ctx, st, names, n - 1);
      var ePrev := ExpectedAll(ctx, TagOf(st), names, n - 1);
      var eLast := Step(ctx, TagOf(st), names, n - 1);
      assert AllTaggedStmts(ctx, st, names, n) == prev + last;
      assert ExpectedAll(ctx, TagOf(st), names, n) == ePrev + eLast;
      AllTaggedStmtsRun(ctx, st, names, n - 1, sels);
      ExecSemis(TaggedExprs(ctx, TagFor(ctx, st, names, n - 1), names[n - 1]), sels);
      TaggedExprsRun(ctx, st, names, n - 1);
      ExecCompletedAppend(prev, last, sels, ePrev, eLast);
    }
  }

  // ---- the selector loop ----

  lemma {:induction false} SelectAppend(a: seq<Arm>, b: seq<Arm>, v: Value)
    ensures SelectArm(a + b, v) == if SelectArm(a, v).Some? then SelectArm(a, v) else SelectArm(b, v)
  {
    if a == [] {
      assert a + b == b;
    } else {
      assert (a + b)[1..] == a[1..] + b;
      SelectAppend(a[1..], b, v);
    }
  }

  /** The arm the loop runs for a selector does what `Expected` says of that selector. */
  predicate Agrees(arms: seq<Arm>, ctx: Ctx, tag: TagAxis, names: seq<string>, sel: Value) {
    var b := SelectArm(arms, sel);
    match Resolve(ctx, tag, names, sel)
    case None => b == Some(PanicInvalidIndex)
    case Some(k) => b.Some? && RunArm(b.value) == Run(Step(ctx, tag, names, k), Completed)
  }

  lemma {:induction false} LoopRuns(arms: seq<Arm>, ctx: Ctx, tag: TagAxis, names: seq<string>, sels: seq<Value>)
    requires forall i :: 0 <= i < |sels| ==> Agrees(arms, ctx, tag, names, sels[i])
    ensures Loop(arms, sels) == ExpectedSelected(ctx, tag, names, sels)
  {
    if sels != [] {
      assert Agrees(arms, ctx, tag, names, sels[0]);
      assert forall i :: 0 <= i < |sels[1..]| ==> sels[1..][i] == sels[i + 1];
      LoopRuns(arms, ctx, tag, names, sels[1..]);
    }
  }

  lemma {:induction false} SelectSubset(ctx: Ctx, names: seq<string>, n: nat, j: nat)
    requires n <= |names|
    ensures SelectArm(SubsetArms(ctx, names, n), UsizeV(j)) == if j < n then Some(SubsetArm(ctx, names, j).body) else None
  {
    if n > 0 {
      SelectSubset(ctx, names, n - 1, j);
      SelectAppend(SubsetArms(ctx, names, n - 1), [SubsetArm(ctx, names, n - 1)], UsizeV(j));
    }
  }

  lemma {:induction false} SelectEnumerated(ctx: Ctx, names: seq<string>, n: nat, j: nat)
    requires n <= |names|
    ensures SelectArm(TaggedArms(ctx, Enumerated, names, n), UsizeV(j))
         == if j < n then Some(TaggedArm(ctx, Enumerated, names, j).body) else None
  {
    if n > 0 {
      SelectEnumerated(ctx, names, n - 1, j);
      SelectAppend(TaggedArms(ctx, Enumerated, names, n - 1), [TaggedArm(ctx, Enumerated, names, n - 1)], UsizeV(j));
    }
  }

  /** An enum arm is chosen by the variant alone, so duplicate names are harmless. */
  lemma {:induction false} SelectEnum(ctx: Ctx, names: seq<string>, n: nat, v: string)
    requires n <= |names|
    ensures SelectArm(TaggedArms(ctx, Enum, names, n), VariantV(ctx.enumName, v))
         == if v in names[..n] then Some(BlockBody(TaggedExprs(ctx, VariantLit(ctx.enumName, v), v))) else None
  {
    if n > 0 {
      SelectEnum(ctx, names, n - 1, v);
      SelectAppend(TaggedArms(ctx, Enum, names, n - 1), [TaggedArm(ctx, Enum, names, n - 1)], VariantV(ctx.enumName, v));
      assert names[..n] == names[..n - 1] + [names[n - 1]];
    }
  }

  lemma SubsetAgrees(ctx: Ctx, names: seq<string>, sel: Value)
    requires sel.UsizeV?
    ensures Agrees(SubsetArms(ctx, names, |names|) + [InvalidIndexArm], ctx, NoTag, names, sel)
  {
    SelectAppend(SubsetArms(ctx, names, |names|), [InvalidIndexArm], sel);
    SelectSubset(ctx, names, |names|, sel.n);
    if sel.n < |names| {
      EvalOneArg(ResultArg(MemberCall(ctx, names[sel.n])));
      assert [] + [ResultOf(names[sel.n])] == [ResultOf(names[sel.n])];
    }
  }

  lemma EnumeratedAgrees(ctx: Ctx, names: seq<string>, sel: Value)
    requires sel.UsizeV?
    ensures Agrees(TaggedArms(ctx, Enumerated, names, |names|) + [InvalidIndexArm], ctx, IndexTag, names, sel)
  {
    SelectAppend(TaggedArms(ctx, Enumerated, names, |names|), [InvalidIndexArm], sel);
    SelectEnumerated(ctx, names, |names|, sel.n);
    if sel.n < |names| {
      TaggedExprsRun(ctx, Enumerated, names, sel.n);
    }
  }

  lemma EnumAgrees(ctx: Ctx, names: seq<string>, sel: Value)
    requires sel.VariantV? && sel.enumName == ctx.enumName && sel.variant in names
    ensures Agrees(TaggedArms(ctx, Enum, names, |names|), ctx, DiscriminantTag, names, sel)
  {
    assert names[..|names|] == names;
    SelectEnum(ctx, names, |names|, sel.variant);
    TaggedExprsRun(ctx, Enum, names, IndexOf(names, sel.variant));
  }

  // ---- the theorem ----

  /**
   * Every generated body behaves as documented: the "all" dispatchers call every
   * member once in declaration order, the selected ones call the designated
   * member for each selector in turn and panic at the first index that names
   * no member, and the callback receives the tag and the result as described.
   */
  lemma DispatcherRunsAsDesigned(kind: InvokeType, ctx: Ctx, names: seq<string>, sels: seq<Value>)
    requires WellTyped(kind, ctx, names, sels)
    ensures Exec(Body(kind, ctx, names), sels) == Expected(kind, ctx, names, sels)
  {
    match kind
    case All =>
      AllStmtsRun(ctx, names, |names|, sels);
    case SpecifiedAll(st) =>
      AllTaggedStmtsRun(ctx, st, names, |names|, sels);
    case Subset =>
      var arms := SubsetArms(ctx, names, |names|) + [InvalidIndexArm];
      forall i | 0 <= i < |sels| ensures Agrees(arms, ctx, NoTag, names, sels[i]) {
        SubsetAgrees(ctx, names, sels[i]);
      }
      LoopRuns(arms, ctx, NoTag, names, sels);
      ExecOne(ForMatch(arms), sels);
    case Specified(Enumerated) =>
      var arms := TaggedArms(ctx, Enumerated, names, |names|) + [InvalidIndexArm];
      forall i | 0 <= i < |sels| ensures Agrees(arms, ctx, IndexTag, names, sels[i]) {
        EnumeratedAgrees(ctx, names, sels[i]);
      }
      LoopRuns(arms, ctx, IndexTag, names, sels);
      ExecOne(ForMatch(arms), sels);
    case Specified(Enum) =>
      var arms := TaggedArms(ctx, Enum, names, |names|);
      assert arms + [] == arms;
      forall i | 0 <= i < |sels| ensures Agrees(arms, ctx, DiscriminantTag, names, sels[i]) {
        EnumAgrees(ctx, names, sels[i]);
      }
      LoopRuns(arms, ctx, DiscriminantTag, names, sels);
      ExecOne(ForMatch(arms), sels);
  }

  // ---- consequences ----

  /** The members called, in order. */
  function Callees(events: seq<Event>): seq<string> {
    if events == [] then [] else (if events[0].Called? then [events[0].callee] else []) + Callees(events[1..])
  }

  lemma {:induction false} CalleesAppend(a: seq<Event>, b: seq<Event>)
    ensures Callees(a + b) == Callees(a) + Callees(b)
  {
    if a == [] {
      assert a + b == b;
    } else {
      assert (a + b)[0] == a[0] && (a + b)[1..] == a[1..] + b;
      CalleesAppend(a[1..], b);
      var head := if a[0].Called? then [a[0].callee] else [];
      assert Callees(a + b) == head + (Callees(a[1..]) + Callees(b));
      assert head + (Callees(a[1..]) + Callees(b)) == (head + Callees(a[1..])) + Callees(b);
    }
  }

  lemma CalleesOfAppend(a: seq<Event>, b: seq<Event>, ca: seq<string>, cb: seq<string>)
    requires Callees(a) == ca && Callees(b) == cb
    ensures Callees(a + b) == ca + cb
  {
    CalleesAppend(a, b);
  }

  lemma StepCallsOneMember(ctx: Ctx, tag: TagAxis, names: seq<string>, k: nat)
    requires k < |names|
    ensures Callees(Step(ctx, tag, names, k)) == [names[k]]
  {
    var c := Called(names[k], ctx.args);
    assert Callees([c]) == [names[k]] by {
      assert [c][1..] == [];
    }
    var step := Step(ctx, tag, names, k);
    if |step| == 2 {
      var d := step[1];
      assert step == [c, d] && !d.Called?;
      assert [c, d][1..] == [d] && [d][1..] == [];
      assert Callees([d]) == [];
    } else {
      assert step == [c];
    }
  }

  lemma {:induction false} ExpectedAllCallsInOrder(ctx: Ctx, tag: TagAxis, names: seq<string>, n: nat)
    requires n <= |names|
    ensures Callees(ExpectedAll(ctx, tag, names, n)) == names[..n]
  {
    if n > 0 {
      var prev := ExpectedAll(ctx, tag, names, n - 1);
      var step := Step(ctx, tag, names, n - 1);
      assert ExpectedAll(ctx, tag, names, n) == prev + step;
      ExpectedAllCallsInOrder(ctx, tag, names, n - 1);
      StepCallsOneMember(ctx, tag, names, n - 1);
      assert names[..n] == names[..n - 1] + [names[n - 1]];
      CalleesOfAppend(prev, step, names[..n - 1], [names[n - 1]]);
    }
  }

  /** The four "all" dispatchers call every member exactly once, in declaration order, and complete. */
  lemma AllDispatchersCallEveryMember(kind: InvokeType, ctx: Ctx, names: seq<string>, sels: seq<Value>)
    requires Scope(kind) == AllMembers
    ensures Exec(Body(kind, ctx, names), sels).status == Completed
    ensures Callees(Exec(Body(kind, ctx, names), sels).events) == names
  {
    DispatcherRunsAsDesigned(kind, ctx, names, sels);
    ExpectedAllCallsInOrder(ctx, Tagging(kind), names, |names|);
    assert names[..|names|] == names;
  }

  /** In the documented trace, when every selector names a member, each selector calls its member, in the order given. */
  lemma {:induction false} ExpectedSelectedCallsInOrder(ctx: Ctx, tag: TagAxis, names: seq<string>, sels: seq<Value>)
    requires forall i :: 0 <= i < |sels| ==> Resolve(ctx, tag, names, sels[i]).Some?
    ensures ExpectedSelected(ctx, tag, names, sels).status == Completed
    ensures |Callees(ExpectedSelected(ctx, tag, names, sels).events)| == |sels|
    ensures forall i :: 0 <= i < |sels| ==>
      Callees(ExpectedSelected(ctx, tag, names, sels).events)[i] == names[Resolve(ctx, tag, names, sels[i]).value]
  {
    if sels != [] {
      assert Resolve(ctx, tag, names, sels[0]).Some?;
      var k := Resolve(ctx, tag, names, sels[0]).value;
      var rest := ExpectedSelected(ctx, tag, names, sels[1..]);
      assert ExpectedSelected(ctx, tag, names, sels) == Then(Step(ctx, tag, names, k), rest);
      assert forall i :: 0 <= i < |sels[1..]| ==> Resolve(ctx, tag, names, sels[1..][i]).Some? by {
        forall i | 0 <= i < |sels[1..]| ensures Resolve(ctx, tag, names, sels[1..][i]).Some? {
          assert sels[1..][i] == sels[i + 1];
        }
      }
      ExpectedSelectedCallsInOrder(ctx, tag, names, sels[1..]);
      StepCallsOneMember(ctx, tag, names, k);
      CalleesOfAppend(Step(ctx, tag, names, k), rest.events, [names[k]], Callees(rest.events));
      var cs := Callees(ExpectedSelected(ctx, tag, names, sels).events);
      assert cs == [names[k]] + Callees(rest.events);
      forall i | 0 <= i < |sels| ensures cs[i] == names[Resolve(ctx, tag, names, sels[i]).value] {
        if i > 0 {
          assert sels[i] == sels[1..][i - 1];
        }
      }
    }
  }

  /** In the documented trace, the first selector that names no member aborts the run; what was dispatched before it stays. */
  lemma {:induction false} ExpectedSelectedStopsAtFirstInvalid(ctx: Ctx, tag: TagAxis, names: seq<string>, sels: seq<Value>, j: nat)
    requires j < |sels| && Resolve(ctx, tag, names, sels[j]).None?
    requires forall i :: 0 <= i < j ==> Resolve(ctx, tag, names, sels[i]).Some?
    ensures ExpectedSelected(ctx, tag, names, sels).status == Panicked
    ensures ExpectedSelected(ctx, tag, names, sels).events == ExpectedSelected(ctx, tag, names, sels[..j]).events
  {
    if j > 0 {
      assert Resolve(ctx, tag, names, sels[0]).Some?;
      assert forall i :: 0 <= i < |sels[1..]| ==> sels[1..][i] == sels[i + 1];
      ExpectedSelectedStopsAtFirstInvalid(ctx, tag, names, sels[1..], j - 1);
      assert sels[..j][1..] == sels[1..][..j - 1];
    }
  }

  /**
   * The three caller-selected dispatchers, run on selectors that all name a
   * member, complete after one call per selector, in selector order and
   * repeats included, each to the member its selector names.
   */
  lemma SelectedCallsInOrder(kind: InvokeType, ctx: Ctx, names: seq<string>, sels: seq<Value>)
    requires Scope(kind) == CallerSpecified && WellTyped(kind, ctx, names, sels)
    requires forall i :: 0 <= i < |sels| ==> Resolve(ctx, Tagging(kind), names, sels[i]).Some?
    ensures Exec(Body(kind, ctx, names), sels).status == Completed
    ensures |Callees(Exec(Body(kind, ctx, names), sels).events)| == |sels|
    ensures forall i :: 0 <= i < |sels| ==>
      Callees(Exec(Body(kind, ctx, names), sels).events)[i] == names[Resolve(ctx, Tagging(kind), names, sels[i]).value]
  {
    DispatcherRunsAsDesigned(kind, ctx, names, sels);
    ExpectedSelectedCallsInOrder(ctx, Tagging(kind), names, sels);
  }

  /**
   * A caller-selected dispatcher panics at the first selector that names no
   * member; the calls made before it are those the earlier selectors make.
   */
  lemma SelectedStopsAtFirstInvalid(kind: InvokeType, ctx: Ctx, names: seq<string>, sels: seq<Value>, j: nat)
    requires Scope(kind) == CallerSpecified && WellTyped(kind, ctx, names, sels)
    requires j < |sels| && Resolve(ctx, Tagging(kind), names, sels[j]).None?
    requires forall i :: 0 <= i < j ==> Resolve(ctx, Tagging(kind), names, sels[i]).Some?
    ensures Exec(Body(kind, ctx, names), sels).status == Panicked
    ensures Exec(Body(kind, ctx, names), sels).events == Exec(Body(kind, ctx, names), sels[..j]).events
  {
    DispatcherRunsAsDesigned(kind, ctx, names, sels);
    assert WellTyped(kind, ctx, names, sels[..j]) by {
      assert forall i :: 0 <= i < j ==> sels[..j][i] == sels[i];
    }
    DispatcherRunsAsDesigned(kind, ctx, names, sels[..j]);
    ExpectedSelectedStopsAtFirstInvalid(ctx, Tagging(kind), names, sels, j);
  }

  /**
   * `invoke_subset` over members `f1, f2, f3`: the selectors 2, 0, 2 call
   * `f3`, `f1`, `f3`; the selector 3 panics before calling anything.
   */
  lemma SubsetExample(ctx: Ctx)
    ensures Exec(Body(Subset, ctx, ["f1", "f2", "f3"]), [UsizeV(2), UsizeV(0), UsizeV(2)]).status == Completed
    ensures Callees(Exec(Body(Subset, ctx, ["f1", "f2", "f3"]), [UsizeV(2), UsizeV(0), UsizeV(2)]).events) == ["f3", "f1", "f3"]
    ensures Exec(Body(Subset, ctx, ["f1", "f2", "f3"]), [UsizeV(3)]) == Run([], Panicked)
  {
    var names := ["f1", "f2", "f3"];
    var sels := [UsizeV(2), UsizeV(0), UsizeV(2)];
    DispatcherRunsAsDesigned(Subset, ctx, names, sels);
    ExpectedSelectedCallsInOrder(ctx, NoTag, names, sels);
    DispatcherRunsAsDesigned(Subset, ctx, names, [UsizeV(3)]);
  }
}
