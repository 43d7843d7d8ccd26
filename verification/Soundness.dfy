/**
 Soundness of the checker: when the analysis of a function leaves nothing unknown, every exception that
 a run raises explicitly and lets escape is among the reported escapes.
 */
module Soundness {
  import opened Wrappers
  import opened Linearization
  import opened Hierarchy
  import opened Program
  import opened Semantics
  import opened Flows

  // What functions that the interpreter calls let escape in runs below a height: no other explicitly raised
  // exceptions than these.
  datatype Promise = Promise(height: nat, exceptions: set<Name>)

  ghost predicate Covered(p: Promise, flow: Flow, out: Outcome) {
    out.Threw? && out.thrown.explicit ==> out.thrown.exception in flow.escapes + p.exceptions
  }

  lemma PlusComplete(a: Flow, b: Flow)
    ensures a.Plus(b).Complete() <==> a.Complete() && b.Complete()
  {
    if a.Plus(b).Complete() {
      assert a.unknowns <= a.Plus(b).unknowns && b.unknowns <= a.Plus(b).unknowns;
    }
  }

  ghost predicate Quiet(body: seq<Stmt>) {
    forall s :: s in Executed(body) ==> !s.Reraise?
  }

  ghost predicate HandlersQuiet(handlers: seq<Handler>) {
    forall s :: s in ExecutedByHandlers(handlers) ==> !s.Reraise?
  }

  // A bare raise is reported, or can only pass on an exception the checker knows to be handled here.
  ghost predicate ReraiseKnown(p: Promise, reraised: set<Name>, c: Frame) {
    reraised == {} || (c.handling.Some? && c.handling.value.explicit ==> c.handling.value.exception in reraised + p.exceptions)
  }

  ghost predicate VariablesKnown(p: Promise, env: Env, c: Frame) {
    forall v :: v in env ==>
      && v in c.variables
      && (c.variables[v].explicit && env[v].Some? ==>
            env[v].value == c.variables[v].exception || c.variables[v].exception in p.exceptions)
  }

  // ----- code that the interpreter calls

  // The function keeps the promise; a generator is iterated.
  ghost predicate Keeps(w: World, p: Promise, f: Name) {
    forall n: nat, c, thrown ::
      n < p.height && CallRuns(w, n, f, IsGenerator(w, f), c, Threw(thrown)) && thrown.explicit ==>
        thrown.exception in p.exceptions
  }

  // Whatever the statements run without a call keeps it.
  ghost predicate NodesClear(w: World, p: Promise, nodes: seq<Stmt>) {
    forall s, f :: s in nodes && f in ImplicitCalls(s) ==> Keeps(w, p, f)
  }

  ghost predicate StmtClear(w: World, p: Promise, s: Stmt) {
    NodesClear(w, p, [s] + Nested(s))
  }

  // The same for the bodies of functions.
  ghost predicate Clear(w: World, p: Promise, visited: set<Name>) {
    forall g :: g in visited && g in w.functions ==> NodesClear(w, p, Executed(w.functions[g].body))
  }

  lemma ImplicitKept(w: World, p: Promise, n: nat, s: Stmt, c: Frame, out: Outcome)
    requires n <= p.height && StmtClear(w, p, s)
    requires out.Threw? && ImplicitRuns(w, n, ImplicitCalls(s), c, out)
    ensures out.thrown.explicit ==> out.thrown.exception in p.exceptions
  {
    var f :| f in ImplicitCalls(s) && CallRuns(w, n - 1, f, IsGenerator(w, f), c, Threw(out.thrown));
    assert s in [s] + Nested(s) && Keeps(w, p, f);
  }

  // ----- functions

  lemma {:induction false} FunctionSound(
      w: World, p: Promise, n: nat, f: Name, iterated: bool, stack: set<Name>, c: Frame, out: Outcome)
    requires n <= p.height
    requires FunctionRuns(w, n, f, iterated, c, out)
    requires FunctionFlow(w, f, iterated, stack).Complete()
    requires Clear(w, p, FunctionFlow(w, f, iterated, stack).visited)
    ensures Covered(p, FunctionFlow(w, f, iterated, stack), out)
    decreases n
  {
    var flow := FunctionFlow(w, f, iterated, stack);
    if out.Threw? {
      var called := w.functions[f];
      var decorated := ReportIf(Opaque in called.decorators, UnresolvedDecorator, f);
      var body := BlockFlow(w, Scope(f, stack + {f}), called.body, {}, map[]);
      assert flow == decorated.Plus(Flow({}, {}, {f})).Plus(body);
      PlusComplete(decorated.Plus(Flow({}, {}, {f})), body);
      PlusComplete(decorated, Flow({}, {}, {f}));
      BlockSound(w, p, n - 1, Scope(f, stack + {f}), called.body, {}, map[], Frame(c.handling, map[]), out);
    }
  }

  lemma {:induction false} CallSound(
      w: World, p: Promise, n: nat, f: Name, iterated: bool, stack: set<Name>, c: Frame, out: Outcome)
    requires n <= p.height
    requires CallRuns(w, n, f, iterated, c, out)
    requires FunctionFlow(w, f, iterated, stack).Complete()
    requires Clear(w, p, FunctionFlow(w, f, iterated, stack).visited)
    ensures Covered(p, FunctionFlow(w, f, iterated, stack), out)
    decreases n
  {
    if out.Threw? { FunctionSound(w, p, n - 1, f, iterated, stack, c, out); }
  }

  // ----- expressions

  lemma {:induction false} ExprSound(
      w: World, p: Promise, n: nat, sc: Scope, e: Expr, awaited: bool, iterated: bool, c: Frame, out: Outcome)
    requires n <= p.height
    requires ExprRuns(w, n, e, awaited, iterated, c, out)
    requires ExprFlow(w, sc, e, awaited, iterated).Complete()
    requires Clear(w, p, ExprFlow(w, sc, e, awaited, iterated).visited)
    ensures Covered(p, ExprFlow(w, sc, e, awaited, iterated), out)
    decreases n
  {
    if Implicit(out) { return; }
    match e
    case Atom =>
    case Operands(parts) => ExprsSound(w, p, n - 1, sc, parts, c, out);
    case Yield(value) => ExprSound(w, p, n - 1, sc, value, false, false, c, out);
    case Await(value) => ExprSound(w, p, n - 1, sc, value, true, iterated, c, out);
    case Call(arguments, callee) =>
      PlusComplete(ExprsFlow(w, sc, arguments), CalleeFlow(w, sc, callee, awaited, iterated));
      if ExprsRun(w, n - 1, arguments, c, out) && out.Threw? {
        ExprsSound(w, p, n - 1, sc, arguments, c, out);
      } else {
        CalleeSound(w, p, n - 1, sc, callee, awaited, iterated, c, out);
      }
  }

  lemma {:induction false} ExprsSound(w: World, p: Promise, n: nat, sc: Scope, es: seq<Expr>, c: Frame, out: Outcome)
    requires n <= p.height
    requires ExprsRun(w, n, es, c, out)
    requires ExprsFlow(w, sc, es).Complete()
    requires Clear(w, p, ExprsFlow(w, sc, es).visited)
    ensures Covered(p, ExprsFlow(w, sc, es), out)
    decreases n
  {
    if es != [] {
      PlusComplete(ExprFlow(w, sc, es[0], false, false), ExprsFlow(w, sc, es[1..]));
      if ExprRuns(w, n - 1, es[0], false, false, c, out) && out.Threw? {
        ExprSound(w, p, n - 1, sc, es[0], false, false, c, out);
      } else {
        ExprsSound(w, p, n - 1, sc, es[1..], c, out);
      }
    }
  }

  lemma {:induction false} CalleeSound(
      w: World, p: Promise, n: nat, sc: Scope, callee: Callee, awaited: bool, iterated: bool, c: Frame, out: Outcome)
    requires n <= p.height
    requires CalleeRuns(w, n, callee, awaited, iterated, c, out)
    requires CalleeFlow(w, sc, callee, awaited, iterated).Complete()
    requires Clear(w, p, CalleeFlow(w, sc, callee, awaited, iterated).visited)
    ensures Covered(p, CalleeFlow(w, sc, callee, awaited, iterated), out)
    decreases n
  {
    match callee
    case BuiltinException =>
    case Definition(target, overridable) =>
      PlusComplete(ReportIf(overridable, OverridableDispatch, sc.owner), InvokedFlow(w, sc, target, awaited, iterated));
      InvokedSound(w, p, n - 1, sc, target, awaited, iterated, c, out);
    case Port(candidates) => PortSound(w, p, n, sc, candidates, awaited, iterated, c, out);
    case Construction(resolved, hooks) =>
      PlusComplete(ReportIf(!resolved, UnresolvedConstruction, sc.owner), EachFlow(w, sc, hooks, false));
      if !out.Normal? {
        var f :| f in hooks && CallRuns(w, n - 1, f, false, c, out);
        OneFlow(w, sc, hooks, false, f);
        CallSound(w, p, n - 1, f, false, sc.stack, c, out);
      }
    case Library(receiver, callbacks) => LibrarySound(w, p, n, sc, receiver, callbacks, c, out);
    case Unresolved =>
  }

  lemma {:induction false} PortSound(
      w: World, p: Promise, n: nat, sc: Scope, candidates: seq<Option<Name>>, awaited: bool, iterated: bool, c: Frame,
      out: Outcome)
    requires n <= p.height
    requires CalleeRuns(w, n, Port(candidates), awaited, iterated, c, out)
    requires CalleeFlow(w, sc, Port(candidates), awaited, iterated).Complete()
    requires Clear(w, p, CalleeFlow(w, sc, Port(candidates), awaited, iterated).visited)
    ensures Covered(p, CalleeFlow(w, sc, Port(candidates), awaited, iterated), out)
    decreases n, 0
  {
    PlusComplete(ReportIf(candidates == [], UnboundPort, sc.owner), CandidatesFlow(w, sc, candidates, awaited, iterated));
    CandidatesResolved(w, sc, candidates, awaited, iterated);
    var target :| Some(target) in candidates && Invoked(w, n - 1, target, awaited, iterated, c, out);
    CandidateFlow(w, sc, candidates, awaited, iterated, target);
    InvokedSound(w, p, n - 1, sc, target, awaited, iterated, c, out);
  }

  lemma {:induction false} LibrarySound(
      w: World, p: Promise, n: nat, sc: Scope, receiver: seq<Expr>, callbacks: seq<Name>, c: Frame, out: Outcome)
    requires n <= p.height
    requires CalleeRuns(w, n, Library(receiver, callbacks), false, false, c, out)
    requires CalleeFlow(w, sc, Library(receiver, callbacks), false, false).Complete()
    requires Clear(w, p, CalleeFlow(w, sc, Library(receiver, callbacks), false, false).visited)
    ensures Covered(p, CalleeFlow(w, sc, Library(receiver, callbacks), false, false), out)
    decreases n, 0
  {
    if ExprsRun(w, n - 1, receiver, c, out) && out.Threw? {
      LibraryParts(w, p, sc, receiver, callbacks);
      ExprsSound(w, p, n - 1, sc, receiver, c, out);
    } else if !out.Normal? {
      var f :| f in callbacks && CallRuns(w, n - 1, f, IsGenerator(w, f), c, out);
      OneOfLibrary(w, p, sc, receiver, callbacks, f);
      CallSound(w, p, n - 1, f, IsGenerator(w, f), sc.stack, c, out);
    }
  }

  lemma LibraryParts(w: World, p: Promise, sc: Scope, receiver: seq<Expr>, callbacks: seq<Name>)
    requires CalleeFlow(w, sc, Library(receiver, callbacks), false, false).Complete()
    requires Clear(w, p, CalleeFlow(w, sc, Library(receiver, callbacks), false, false).visited)
    ensures ExprsFlow(w, sc, receiver).Complete() && Clear(w, p, ExprsFlow(w, sc, receiver).visited)
    ensures ExprsFlow(w, sc, receiver).escapes <= CalleeFlow(w, sc, Library(receiver, callbacks), false, false).escapes
  {
    PlusComplete(ExprsFlow(w, sc, receiver), EachFlow(w, sc, callbacks, true));
  }

  lemma OneOfLibrary(w: World, p: Promise, sc: Scope, receiver: seq<Expr>, callbacks: seq<Name>, f: Name)
    requires CalleeFlow(w, sc, Library(receiver, callbacks), false, false).Complete() && f in callbacks
    requires Clear(w, p, CalleeFlow(w, sc, Library(receiver, callbacks), false, false).visited)
    ensures var one := FunctionFlow(w, f, IsGenerator(w, f), sc.stack);
            && one.Complete() && Clear(w, p, one.visited)
            && one.escapes <= CalleeFlow(w, sc, Library(receiver, callbacks), false, false).escapes
  {
    OneFlow(w, sc, callbacks, true, f);
    PlusComplete(ExprsFlow(w, sc, receiver), EachFlow(w, sc, callbacks, true));
    hide FunctionFlow, EachFlow, ExprsFlow, NodesClear;
  }

  lemma {:induction false} InvokedSound(
      w: World, p: Promise, n: nat, sc: Scope, f: Name, awaited: bool, iterated: bool, c: Frame, out: Outcome)
    requires n <= p.height
    requires Invoked(w, n, f, awaited, iterated, c, out)
    requires InvokedFlow(w, sc, f, awaited, iterated).Complete()
    requires Clear(w, p, InvokedFlow(w, sc, f, awaited, iterated).visited)
    ensures Covered(p, InvokedFlow(w, sc, f, awaited, iterated), out)
    decreases n
  {
    CallSound(w, p, n - 1, f, iterated && IsGenerator(w, f), sc.stack, c, out);
  }

  lemma {:induction false} CandidatesResolved(
      w: World, sc: Scope, candidates: seq<Option<Name>>, awaited: bool, iterated: bool)
    requires CandidatesFlow(w, sc, candidates, awaited, iterated).Complete()
    ensures None !in candidates
  {
    if candidates != [] {
      var first := match candidates[0]
                   case None => Report(UnresolvedImplementation, sc.owner)
                   case Some(f) => InvokedFlow(w, sc, f, awaited, iterated);
      PlusComplete(first, CandidatesFlow(w, sc, candidates[1..], awaited, iterated));
      CandidatesResolved(w, sc, candidates[1..], awaited, iterated);
    }
  }

  // Every candidate contributes to a dispatch.
  lemma {:induction false} CandidateFlow(
      w: World, sc: Scope, candidates: seq<Option<Name>>, awaited: bool, iterated: bool, f: Name)
    requires Some(f) in candidates
    ensures var all := CandidatesFlow(w, sc, candidates, awaited, iterated);
            var one := InvokedFlow(w, sc, f, awaited, iterated);
            one.escapes <= all.escapes && one.unknowns <= all.unknowns && one.visited <= all.visited
  {
    if candidates[0] != Some(f) {
      assert Some(f) in candidates[1..];
      CandidateFlow(w, sc, candidates[1..], awaited, iterated, f);
    }
  }

  lemma {:induction false} OneFlow(w: World, sc: Scope, fs: seq<Name>, callbacks: bool, f: Name)
    requires f in fs
    ensures var all := EachFlow(w, sc, fs, callbacks);
            var one := FunctionFlow(w, f, callbacks && IsGenerator(w, f), sc.stack);
            one.escapes <= all.escapes && one.unknowns <= all.unknowns && one.visited <= all.visited
  {
    if fs[0] != f {
      assert f in fs[1..];
      OneFlow(w, sc, fs[1..], callbacks, f);
    }
  }

  // ----- statements

  lemma {:induction false} BlockSound(
      w: World, p: Promise, n: nat, sc: Scope, body: seq<Stmt>, reraised: set<Name>, env: Env, c: Frame, out: Outcome)
    requires n <= p.height
    requires BlockRuns(w, n, body, c, out)
    requires BlockFlow(w, sc, body, reraised, env).Complete()
    requires Clear(w, p, BlockFlow(w, sc, body, reraised, env).visited)
    requires NodesClear(w, p, Executed(body))
    requires Quiet(body) || ReraiseKnown(p, reraised, c)
    requires VariablesKnown(p, env, c)
    ensures Covered(p, BlockFlow(w, sc, body, reraised, env), out)
    decreases n
  {
    if body != [] {
      var first := StmtFlow(w, sc, body[0], reraised, env);
      assert Executed(body) == [body[0]] + Nested(body[0]) + Executed(body[1..]);
      if StmtRuns(w, n - 1, body[0], c, out) && !out.Normal? {
        if !Ends(body[0]) { PlusComplete(first, BlockFlow(w, sc, body[1..], reraised, env)); }
        StmtSound(w, p, n - 1, sc, body[0], reraised, env, c, out);
      } else {
        assert !Ends(body[0]);
        PlusComplete(first, BlockFlow(w, sc, body[1..], reraised, env));
        BlockSound(w, p, n - 1, sc, body[1..], reraised, env, c, out);
      }
    }
  }

  ghost predicate StmtQuiet(s: Stmt) {
    !s.Reraise? && forall t :: t in Nested(s) ==> !t.Reraise?
  }

  lemma {:induction false} StmtSound(
      w: World, p: Promise, n: nat, sc: Scope, s: Stmt, reraised: set<Name>, env: Env, c: Frame, out: Outcome)
    requires n <= p.height
    requires StmtRuns(w, n, s, c, out)
    requires StmtFlow(w, sc, s, reraised, env).Complete()
    requires Clear(w, p, StmtFlow(w, sc, s, reraised, env).visited)
    requires StmtClear(w, p, s)
    requires StmtQuiet(s) || ReraiseKnown(p, reraised, c)
    requires VariablesKnown(p, env, c)
    ensures Covered(p, StmtFlow(w, sc, s, reraised, env), out)
    decreases n
  {
    if Implicit(out) || !out.Threw? { return; }
    match s
    case Evaluate(value) => ExprSound(w, p, n - 1, sc, value, false, false, c, out);
    case Pass =>
    case Break =>
    case Continue =>
    case Return(result) => ExprSound(w, p, n - 1, sc, result.value, false, false, c, out);
    case Raise(parts, raised, implicit) => RaiseSound(w, p, n, sc, parts, raised, implicit, c, out);
    case RaiseCaught(variable) =>
    case Reraise =>
    case If(test, body, orelse) => IfSound(w, p, n, sc, test, body, orelse, reraised, env, c, out);
    case Loop(head, each, body, orelse, implicit) =>
      LoopSound(w, p, n - 1, sc, head, each, body, orelse, implicit, reraised, env, c, out);
    case Try(body, handlers, orelse, finalbody) =>
      TrySound(w, p, n - 1, sc, s, reraised, env, c, out);
    case With(asynchronous, items, body) =>
      assert items == items[0..];
      WithSound(w, p, n - 1, sc, s, 0, reraised, env, c, out);
    case LocalFunction(evaluated) => ExprsSound(w, p, n - 1, sc, evaluated, c, out);
    case LocalClass(evaluated) => PlusComplete(ExprsFlow(w, sc, evaluated), Report(NestedClass, sc.owner));
    case Unsupported(body) =>
      PlusComplete(Report(UnsupportedStatement, sc.owner), Escaping(RaisedIn(w, Executed(body))));
  }

  lemma {:induction false} RaiseSound(
      w: World, p: Promise, n: nat, sc: Scope, parts: seq<Expr>, raised: Option<Name>, implicit: seq<Name>, c: Frame,
      out: Outcome)
    requires n <= p.height
    requires StmtRuns(w, n, Raise(parts, raised, implicit), c, out) && !Implicit(out) && out.Threw?
    requires StmtFlow(w, sc, Raise(parts, raised, implicit), {}, map[]).Complete()
    requires Clear(w, p, StmtFlow(w, sc, Raise(parts, raised, implicit), {}, map[]).visited)
    requires StmtClear(w, p, Raise(parts, raised, implicit))
    ensures Covered(p, StmtFlow(w, sc, Raise(parts, raised, implicit), {}, map[]), out)
    decreases n, 0
  {
    var named := if raised.Some? && IsException(w.classes, raised.value) then Escaping({raised.value})
                 else Report(UnresolvedRaise, sc.owner);
    PlusComplete(ExprsFlow(w, sc, parts), named);
    if ExprsRun(w, n - 1, parts, c, out) {
      ExprsSound(w, p, n - 1, sc, parts, c, out);
    } else if ImplicitRuns(w, n - 1, implicit, c, out) {
      ImplicitKept(w, p, n - 1, Raise(parts, raised, implicit), c, out);
    }
  }

  lemma {:induction false} IfSound(
      w: World, p: Promise, n: nat, sc: Scope, test: Expr, body: seq<Stmt>, orelse: seq<Stmt>, reraised: set<Name>,
      env: Env, c: Frame,
      out: Outcome)
    requires n <= p.height
    requires StmtRuns(w, n, If(test, body, orelse), c, out) && !Implicit(out) && out.Threw?
    requires StmtFlow(w, sc, If(test, body, orelse), reraised, env).Complete()
    requires Clear(w, p, StmtFlow(w, sc, If(test, body, orelse), reraised, env).visited)
    requires StmtClear(w, p, If(test, body, orelse))
    requires StmtQuiet(If(test, body, orelse)) || ReraiseKnown(p, reraised, c)
    requires VariablesKnown(p, env, c)
    ensures Covered(p, StmtFlow(w, sc, If(test, body, orelse), reraised, env), out)
    decreases n, 0
  {
    var tested := ExprFlow(w, sc, test, false, false);
    var first := BlockFlow(w, sc, body, reraised, env);
    PlusComplete(tested, first);
    PlusComplete(tested.Plus(first), BlockFlow(w, sc, orelse, reraised, env));
    assert Nested(If(test, body, orelse)) == Executed(body) + Executed(orelse);
    if ExprRuns(w, n - 1, test, false, false, c, out) {
      ExprSound(w, p, n - 1, sc, test, false, false, c, out);
    } else if BlockRuns(w, n - 1, body, c, out) {
      BlockSound(w, p, n - 1, sc, body, reraised, env, c, out);
    } else {
      BlockSound(w, p, n - 1, sc, orelse, reraised, env, c, out);
    }
  }

  lemma {:induction false} LoopSound(
      w: World, p: Promise, n: nat, sc: Scope, head: Expr, each: bool, body: seq<Stmt>, orelse: seq<Stmt>, implicit: seq<Name>,
      reraised: set<Name>, env: Env,
      c: Frame, out: Outcome)
    requires n <= p.height
    requires LoopRuns(w, n, head, each, body, orelse, implicit, c, out) && out.Threw?
    requires StmtFlow(w, sc, Loop(head, each, body, orelse, implicit), reraised, env).Complete()
    requires Clear(w, p, StmtFlow(w, sc, Loop(head, each, body, orelse, implicit), reraised, env).visited)
    requires StmtClear(w, p, Loop(head, each, body, orelse, implicit))
    requires StmtQuiet(Loop(head, each, body, orelse, implicit)) || ReraiseKnown(p, reraised, c)
    requires VariablesKnown(p, env, c)
    ensures Covered(p, StmtFlow(w, sc, Loop(head, each, body, orelse, implicit), reraised, env), out)
    decreases n
  {
    var advanced := ExprFlow(w, sc, head, false, each);
    var first := BlockFlow(w, sc, body, reraised, env);
    PlusComplete(advanced, first);
    PlusComplete(advanced.Plus(first), BlockFlow(w, sc, orelse, reraised, env));
    assert Nested(Loop(head, each, body, orelse, implicit)) == Executed(body) + Executed(orelse);
    if ExprRuns(w, n - 1, head, false, each, c, out) {
      ExprSound(w, p, n - 1, sc, head, false, each, c, out);
    } else if ImplicitRuns(w, n - 1, implicit, c, out) {
      ImplicitKept(w, p, n - 1, Loop(head, each, body, orelse, implicit), c, out);
    } else if BlockRuns(w, n - 1, orelse, c, out) {
      BlockSound(w, p, n - 1, sc, orelse, reraised, env, c, out);
    } else if BlockRuns(w, n - 1, body, c, out) {
      BlockSound(w, p, n - 1, sc, body, reraised, env, c, out);
    } else {
      LoopSound(w, p, n - 1, sc, head, each, body, orelse, implicit, reraised, env, c, out);
    }
  }

  // ----- try

  lemma TryParts(w: World, sc: Scope, s: Stmt, reraised: set<Name>, env: Env)
    requires s.Try? && StmtFlow(w, sc, s, reraised, env).Complete()
    ensures var flow := StmtFlow(w, sc, s, reraised, env);
            var attempted := BlockFlow(w, sc, s.body, reraised, env);
            var handled := HandlersFlow(w, sc, s.handlers, attempted.escapes, env);
            var rest := BlockFlow(w, sc, s.orelse, reraised, env);
            var final := BlockFlow(w, sc, s.finalbody, reraised, env);
            && attempted.Complete() && handled.Complete() && rest.Complete() && final.Complete()
            && !MayReplace(s.finalbody)
            && flow.escapes == handled.escapes + rest.escapes + final.escapes
            && flow.visited == attempted.visited + handled.visited + rest.visited + final.visited
  {
    var attempted := BlockFlow(w, sc, s.body, reraised, env);
    var a := attempted.(escapes := {});
    var b := HandlersFlow(w, sc, s.handlers, attempted.escapes, env);
    var c := BlockFlow(w, sc, s.orelse, reraised, env);
    var d := BlockFlow(w, sc, s.finalbody, reraised, env);
    var e := ReportIf(MayReplace(s.finalbody), FinallyMayReplace, sc.owner);
    PlusComplete(a, b);
    PlusComplete(a.Plus(b), c);
    PlusComplete(a.Plus(b).Plus(c), d);
    PlusComplete(a.Plus(b).Plus(c).Plus(d), e);
  }

  lemma TryNested(s: Stmt)
    requires s.Try?
    ensures StmtQuiet(s) ==> Quiet(s.body) && HandlersQuiet(s.handlers) && Quiet(s.orelse) && Quiet(s.finalbody)
    ensures !MayReplace(s.finalbody) ==> Quiet(s.finalbody)
  {
    assert Nested(s) ==
      Executed(s.body) + ExecutedByHandlers(s.handlers) + Executed(s.orelse) + Executed(s.finalbody);
    if !MayReplace(s.finalbody) {
      forall t | t in Executed(s.finalbody) ensures !t.Reraise? {
        assert !Ends(t);
      }
    }
  }

  lemma {:induction false} TrySound(
      w: World, p: Promise, n: nat, sc: Scope, s: Stmt, reraised: set<Name>, env: Env, c: Frame, out: Outcome)
    requires n <= p.height
    requires s.Try? && TryRuns(w, n, s.body, s.handlers, s.orelse, s.finalbody, c, out) && out.Threw?
    requires StmtFlow(w, sc, s, reraised, env).Complete()
    requires Clear(w, p, StmtFlow(w, sc, s, reraised, env).visited)
    requires StmtClear(w, p, s)
    requires StmtQuiet(s) || ReraiseKnown(p, reraised, c)
    requires VariablesKnown(p, env, c)
    ensures Covered(p, StmtFlow(w, sc, s, reraised, env), out)
    decreases n
  {
    TryParts(w, sc, s, reraised, env);
    TryNested(s);
    if GuardedRuns(w, n - 1, s.body, s.handlers, s.orelse, c, out) {
      GuardedSound(w, p, n - 1, sc, s, reraised, env, c, out);
    } else {
      var inner :|
        && GuardedRuns(w, n - 1, s.body, s.handlers, s.orelse, c, inner)
        && BlockRuns(w, n - 1, s.finalbody, Handling(c, inner), out);
      BlockSound(w, p, n - 1, sc, s.finalbody, reraised, env, Handling(c, inner), out);
    }
  }

  lemma {:induction false} GuardedSound(
      w: World, p: Promise, n: nat, sc: Scope, s: Stmt, reraised: set<Name>, env: Env, c: Frame, out: Outcome)
    requires n <= p.height
    requires s.Try? && GuardedRuns(w, n, s.body, s.handlers, s.orelse, c, out) && out.Threw?
    requires StmtFlow(w, sc, s, reraised, env).Complete()
    requires Clear(w, p, StmtFlow(w, sc, s, reraised, env).visited)
    requires StmtClear(w, p, s)
    requires StmtQuiet(s) || ReraiseKnown(p, reraised, c)
    requires VariablesKnown(p, env, c)
    ensures Covered(p, StmtFlow(w, sc, s, reraised, env), out)
    decreases n
  {
    TryParts(w, sc, s, reraised, env);
    TryNested(s);
    if BlockRuns(w, n - 1, s.body, c, Normal) && BlockRuns(w, n - 1, s.orelse, c, out) {
      BlockSound(w, p, n - 1, sc, s.orelse, reraised, env, c, out);
    } else {
      var thrown :| BlockRuns(w, n - 1, s.body, c, Threw(thrown)) && HandlersRun(w, n - 1, s.handlers, thrown, c, out);
      BlockSound(w, p, n - 1, sc, s.body, reraised, env, c, Threw(thrown));
      HandlersSound(w, p, n - 1, sc, s.handlers, BlockFlow(w, sc, s.body, reraised, env).escapes, env, thrown, c, out);
    }
  }

  lemma {:induction false} HandlersSound(
      w: World, p: Promise, n: nat, sc: Scope, handlers: seq<Handler>, remaining: set<Name>, env: Env, thrown: Thrown, c: Frame,
      out: Outcome)
    requires n <= p.height
    requires HandlersRun(w, n, handlers, thrown, c, out)
    requires HandlersFlow(w, sc, handlers, remaining, env).Complete()
    requires Clear(w, p, HandlersFlow(w, sc, handlers, remaining, env).visited)
    requires NodesClear(w, p, ExecutedByHandlers(handlers))
    requires thrown.explicit ==> thrown.exception in remaining + p.exceptions
    requires VariablesKnown(p, env, c)
    ensures Covered(p, HandlersFlow(w, sc, handlers, remaining, env), out)
    decreases n
  {
    if handlers != [] {
      var h := handlers[0];
      var caught := CaughtBy(w, h, remaining);
      var reported := ReportIf(UnresolvedHandler(w, h), UnknownHandler, sc.owner);
      var body := BlockFlow(w, sc, h.body, caught, HandlerEnv(h, env, caught));
      var rest := HandlersFlow(w, sc, handlers[1..], remaining - caught, env);
      PlusComplete(reported, body);
      PlusComplete(reported.Plus(body), rest);
      hide BlockFlow, BlockRuns;
      if MayMatch(w, h, thrown) && BlockRuns(w, n - 1, h.body, Bound(c, h, thrown), out) {
        assert thrown.explicit ==> thrown.exception in caught + p.exceptions;
        BlockSound(w, p, n - 1, sc, h.body, caught, HandlerEnv(h, env, caught), Bound(c, h, thrown), out);
      } else {
        HandlersSound(w, p, n - 1, sc, handlers[1..], remaining - caught, env, thrown, c, out);
      }
    }
  }

  // ----- with

  // Which values a run of a body can return, when the checker has settled it.
  lemma {:induction false} ReturnedFrom(w: World, n: nat, body: seq<Stmt>, c: Frame, truthy: bool) returns (r: Stmt)
    requires BlockRuns(w, n, body, c, Returned(truthy))
    ensures r in Executed(body) && r.Return? && ResultIs(r.result, truthy)
    decreases n
  {
    assert Executed(body) == [body[0]] + Nested(body[0]) + Executed(body[1..]);
    if StmtRuns(w, n - 1, body[0], c, Returned(truthy)) {
      r := StmtReturnedFrom(w, n - 1, body[0], c, truthy);
    } else {
      r := ReturnedFrom(w, n - 1, body[1..], c, truthy);
    }
  }

  lemma {:induction false} StmtReturnedFrom(w: World, n: nat, s: Stmt, c: Frame, truthy: bool) returns (r: Stmt)
    requires StmtRuns(w, n, s, c, Returned(truthy))
    ensures r == s || r in Nested(s)
    ensures r.Return? && ResultIs(r.result, truthy)
    decreases n
  {
    var out := Returned(truthy);
    match s
    case Evaluate(value) => EvaluatesOnly(w, n - 1, value, false, false, c, out); assert false;
    case LocalFunction(evaluated) => ExprsEvaluateOnly(w, n - 1, evaluated, c, out); assert false;
    case Return(_) => r := s;
    case If(_, body, orelse) =>
      if BlockRuns(w, n - 1, body, c, out) {
        r := ReturnedFrom(w, n - 1, body, c, truthy);
      } else {
        r := ReturnedFrom(w, n - 1, orelse, c, truthy);
      }
    case Loop(head, each, body, orelse, implicit) =>
      r := LoopReturnedFrom(w, n - 1, head, each, body, orelse, implicit, c, truthy);
    case Try(body, handlers, orelse, finalbody) =>
      if GuardedRuns(w, n - 2, body, handlers, orelse, c, out) {
        r := GuardedReturnedFrom(w, n - 2, body, handlers, orelse, c, truthy);
      } else {
        var inner :| BlockRuns(w, n - 2, finalbody, Handling(c, inner), out);
        r := ReturnedFrom(w, n - 2, finalbody, Handling(c, inner), truthy);
      }
    case With(asynchronous, items, body) =>
      r := WithReturnedFrom(w, n - 1, asynchronous, items, body, c, truthy);
    case Unsupported(body) => r :| r in Executed(body) && r.Return? && ResultIs(r.result, truthy);
  }

  lemma {:induction false} LoopReturnedFrom(
      w: World, n: nat, head: Expr, each: bool, body: seq<Stmt>, orelse: seq<Stmt>, implicit: seq<Name>, c: Frame, truthy: bool)
      returns (r: Stmt)
    requires LoopRuns(w, n, head, each, body, orelse, implicit, c, Returned(truthy))
    ensures r in Executed(body) + Executed(orelse) && r.Return? && ResultIs(r.result, truthy)
    decreases n
  {
    var out := Returned(truthy);
    if BlockRuns(w, n - 1, orelse, c, out) {
      r := ReturnedFrom(w, n - 1, orelse, c, truthy);
    } else if BlockRuns(w, n - 1, body, c, out) {
      r := ReturnedFrom(w, n - 1, body, c, truthy);
    } else {
      r := LoopReturnedFrom(w, n - 1, head, each, body, orelse, implicit, c, truthy);
    }
  }

  lemma {:induction false} GuardedReturnedFrom(
      w: World, n: nat, body: seq<Stmt>, handlers: seq<Handler>, orelse: seq<Stmt>, c: Frame, truthy: bool)
      returns (r: Stmt)
    requires GuardedRuns(w, n, body, handlers, orelse, c, Returned(truthy))
    ensures r in Executed(body) + ExecutedByHandlers(handlers) + Executed(orelse)
    ensures r.Return? && ResultIs(r.result, truthy)
    decreases n
  {
    var out := Returned(truthy);
    if BlockRuns(w, n - 1, body, c, out) {
      r := ReturnedFrom(w, n - 1, body, c, truthy);
    } else if BlockRuns(w, n - 1, orelse, c, out) {
      r := ReturnedFrom(w, n - 1, orelse, c, truthy);
    } else {
      var thrown :| HandlersRun(w, n - 1, handlers, thrown, c, out);
      r := HandlersReturnedFrom(w, n - 1, handlers, thrown, c, truthy);
    }
  }

  lemma {:induction false} HandlersReturnedFrom(
      w: World, n: nat, handlers: seq<Handler>, thrown: Thrown, c: Frame, truthy: bool) returns (r: Stmt)
    requires HandlersRun(w, n, handlers, thrown, c, Returned(truthy))
    ensures r in ExecutedByHandlers(handlers) && r.Return? && ResultIs(r.result, truthy)
    decreases n
  {
    if BlockRuns(w, n - 1, handlers[0].body, Bound(c, handlers[0], thrown), Returned(truthy)) {
      r := ReturnedFrom(w, n - 1, handlers[0].body, Bound(c, handlers[0], thrown), truthy);
    } else {
      r := HandlersReturnedFrom(w, n - 1, handlers[1..], thrown, c, truthy);
    }
  }

  lemma {:induction false} WithReturnedFrom(
      w: World, n: nat, asynchronous: bool, items: seq<Item>, body: seq<Stmt>, c: Frame, truthy: bool) returns (r: Stmt)
    requires WithRuns(w, n, asynchronous, items, body, c, Returned(truthy))
    ensures r in Executed(body) && r.Return? && ResultIs(r.result, truthy)
    decreases n
  {
    if items == [] {
      r := ReturnedFrom(w, n - 1, body, c, truthy);
    } else if !Supported(w, asynchronous, items[0]) {
      r := WithReturnedFrom(w, n - 1, asynchronous, items[1..], body, c, truthy);
    } else {
      var inner :|
        && WithRuns(w, n - 1, asynchronous, items[1..], body, c, inner)
        && ExitRuns(w, n - 1, items[0].exit.value, inner, Handling(c, inner), Returned(truthy));
      r := WithReturnedFrom(w, n - 1, asynchronous, items[1..], body, c, truthy);
    }
  }

  // Evaluating an expression never returns, breaks or continues.
  lemma {:induction false} EvaluatesOnly(
      w: World, n: nat, e: Expr, awaited: bool, iterated: bool, c: Frame, out: Outcome)
    requires ExprRuns(w, n, e, awaited, iterated, c, out)
    ensures Evaluated(out)
    decreases n
  {
    if !Evaluated(out) {
      match e
      case Operands(parts) => ExprsEvaluateOnly(w, n - 1, parts, c, out);
      case Yield(value) => EvaluatesOnly(w, n - 1, value, false, false, c, out);
      case Await(value) => EvaluatesOnly(w, n - 1, value, true, iterated, c, out);
      case Call(_, callee) => CalleeEvaluatesOnly(w, n - 1, callee, awaited, iterated, c, out);
    }
  }

  lemma CalleeEvaluatesOnly(
      w: World, n: nat, callee: Callee, awaited: bool, iterated: bool, c: Frame, out: Outcome)
    requires CalleeRuns(w, n, callee, awaited, iterated, c, out)
    ensures Evaluated(out)
  {
    match callee
    case Definition(target, overridable) =>
      if !overridable { InvokedEvaluatesOnly(w, n - 1, target, awaited, iterated, c, out); }
    case Port(candidates) =>
      if candidates != [] && None !in candidates {
        var target :| Some(target) in candidates && Invoked(w, n - 1, target, awaited, iterated, c, out);
        InvokedEvaluatesOnly(w, n - 1, target, awaited, iterated, c, out);
      }
    case _ =>
  }

  lemma InvokedEvaluatesOnly(w: World, n: nat, f: Name, awaited: bool, iterated: bool, c: Frame, out: Outcome)
    requires Invoked(w, n, f, awaited, iterated, c, out)
    ensures Evaluated(out)
  {
    assert Deferred(w, f, awaited, iterated) || CallRuns(w, n - 1, f, iterated && IsGenerator(w, f), c, out);
  }

  lemma {:induction false} ExprsEvaluateOnly(w: World, n: nat, es: seq<Expr>, c: Frame, out: Outcome)
    requires ExprsRun(w, n, es, c, out)
    ensures Evaluated(out)
    decreases n
  {
    if !Evaluated(out) && es != [] { ExprsEvaluateOnly(w, n - 1, es[1..], c, out); }
  }

  // A block with a return or raise of its own never runs to its end.
  lemma {:induction false} NeverPastEnd(w: World, n: nat, body: seq<Stmt>, c: Frame, s: Stmt)
    requires s in body && Ends(s)
    ensures !BlockRuns(w, n, body, c, Normal)
    decreases n
  {
    if BlockRuns(w, n, body, c, Normal) {
      assert StmtRuns(w, n - 1, body[0], c, Normal);
      assert !Ends(body[0]);
      assert s in body[1..];
      NeverPastEnd(w, n - 1, body[1..], c, s);
    }
  }

  lemma {:induction false} AlwaysRaisesSound(w: World, n: nat, body: seq<Stmt>, c: Frame, out: Outcome)
    requires AlwaysRaises(body) && BlockRuns(w, n, body, c, out)
    ensures out.Threw?
    decreases n
  {
    if StmtRuns(w, n - 1, body[0], c, out) && !out.Normal? {
      if body[0].Evaluate? && !Implicit(out) { EvaluatesOnly(w, n - 2, body[0].value, false, false, c, out); }
    } else {
      AlwaysRaisesSound(w, n - 1, body[1..], c, out);
    }
  }

  lemma {:induction false} SuppressionSound(w: World, n: nat, f: Name, c: Frame, truthy: bool)
    requires f in w.functions && w.functions[f].decorators == [] && !Generator(w.functions[f])
    requires FunctionRuns(w, n, f, false, c, Returned(truthy))
    ensures Suppression(w.functions[f].body) != Some(!truthy)
    ensures !AlwaysRaises(w.functions[f].body)
  {
    var body := w.functions[f].body;
    var inner := Frame(c.handling, map[]);
    if BlockRuns(w, n - 1, body, inner, Returned(truthy)) {
      var r := ReturnedFrom(w, n - 1, body, inner, truthy);
      assert r in Returns(Executed(body));
      if AlwaysRaises(body) { AlwaysRaisesSound(w, n - 1, body, inner, Returned(truthy)); }
    } else {
      if AlwaysRaises(body) { AlwaysRaisesSound(w, n - 1, body, inner, Normal); }
      if Returns(body) != [] {
        assert Returns(body)[0] in Returns(body);
        NeverPastEnd(w, n - 1, body, inner, Returns(body)[0]);
      }
    }
  }

  lemma {:induction false} WithSound(
      w: World, p: Promise, n: nat, sc: Scope, s: Stmt, index: nat, reraised: set<Name>, env: Env, c: Frame, out: Outcome)
    requires n <= p.height
    requires s.With? && index <= |s.items|
    requires WithRuns(w, n, s.asynchronous, s.items[index..], s.body, c, out) && out.Threw?
    requires ContextFlow(w, sc, s, index, reraised, env).Complete()
    requires Clear(w, p, ContextFlow(w, sc, s, index, reraised, env).visited)
    requires StmtClear(w, p, s)
    requires StmtQuiet(s) || ReraiseKnown(p, reraised, c)
    requires VariablesKnown(p, env, c)
    ensures Covered(p, ContextFlow(w, sc, s, index, reraised, env), out)
    decreases n
  {
    if index == |s.items| {
      BlockSound(w, p, n - 1, sc, s.body, reraised, env, c, out);
      return;
    }
    ContextParts(w, sc, s, index, reraised, env);
    var item := s.items[index];
    assert s.items[index..][0] == item && s.items[index..][1..] == s.items[index + 1..];
    if ExprRuns(w, n - 1, item.context, false, false, c, out) {
      ExprSound(w, p, n - 1, sc, item.context, false, false, c, out);
    } else if FunctionRuns(w, n - 1, item.enter.value, false, c, out) {
      FunctionSound(w, p, n - 1, item.enter.value, false, sc.stack, c, out);
    } else {
      EnteredSound(w, p, n, sc, s, index, reraised, env, c, out);
    }
  }

  lemma {:induction false} EnteredSound(
      w: World, p: Promise, n: nat, sc: Scope, s: Stmt, index: nat, reraised: set<Name>, env: Env, c: Frame, out: Outcome)
    requires n <= p.height
    requires s.With? && index < |s.items| && Supported(w, s.asynchronous, s.items[index])
    requires n > 0 && out.Threw? && CallRuns(w, n - 1, s.items[index].enter.value, false, c, Normal)
    requires exists inner ::
               && WithRuns(w, n - 1, s.asynchronous, s.items[index + 1..], s.body, c, inner)
               && ExitRuns(w, n - 1, s.items[index].exit.value, inner, Handling(c, inner), out)
    requires ContextFlow(w, sc, s, index, reraised, env).Complete()
    requires Clear(w, p, ContextFlow(w, sc, s, index, reraised, env).visited)
    requires StmtClear(w, p, s)
    requires StmtQuiet(s) || ReraiseKnown(p, reraised, c)
    requires VariablesKnown(p, env, c)
    ensures Covered(p, ContextFlow(w, sc, s, index, reraised, env), out)
    decreases n, 0
  {
    ContextParts(w, sc, s, index, reraised, env);
    var item := s.items[index];
    var truthy :| FunctionRuns(w, n - 2, item.enter.value, false, c, Returned(truthy));
    SuppressionSound(w, n - 2, item.enter.value, c, truthy);
    var inner :|
      && WithRuns(w, n - 1, s.asynchronous, s.items[index + 1..], s.body, c, inner)
      && ExitRuns(w, n - 1, item.exit.value, inner, Handling(c, inner), out);
    if FunctionRuns(w, n - 2, item.exit.value, false, Handling(c, inner), out) {
      FunctionSound(w, p, n - 2, item.exit.value, false, sc.stack, Handling(c, inner), out);
    } else {
      SuppressionSound(w, n - 2, item.exit.value, Handling(c, inner), false);
      WithSound(w, p, n - 1, sc, s, index + 1, reraised, env, c, inner);
    }
  }

  // What a complete flow of a managed block is made of.
  lemma ContextParts(w: World, sc: Scope, s: Stmt, index: nat, reraised: set<Name>, env: Env)
    requires s.With? && index < |s.items|
    requires ContextFlow(w, sc, s, index, reraised, env).Complete()
    ensures Supported(w, s.asynchronous, s.items[index])
    ensures var flow := ContextFlow(w, sc, s, index, reraised, env);
            var item := s.items[index];
            var managed := ExprFlow(w, sc, item.context, false, false);
            var entered := FunctionFlow(w, item.enter.value, false, sc.stack);
            && managed.Complete() && entered.Complete()
            && managed.escapes + entered.escapes <= flow.escapes
            && (if AlwaysRaises(w.functions[item.enter.value].body) then flow.visited == managed.visited + entered.visited
                else
                  var inner := ContextFlow(w, sc, s, index + 1, reraised, env);
                  var left := FunctionFlow(w, item.exit.value, false, sc.stack);
                  && inner.Complete() && left.Complete()
                  && left.escapes <= flow.escapes
                  && (Suppression(w.functions[item.exit.value].body) == Some(true)
                      || AlwaysRaises(w.functions[item.exit.value].body)
                      || inner.escapes <= flow.escapes)
                  && flow.visited == managed.visited + entered.visited + inner.visited + left.visited)
  {
    var item := s.items[index];
    var managed := ExprFlow(w, sc, item.context, false, false);
    if Supported(w, s.asynchronous, item) {
      var entered := FunctionFlow(w, item.enter.value, false, sc.stack);
      PlusComplete(managed, entered);
      if !AlwaysRaises(w.functions[item.enter.value].body) {
        var target := ReportIf(!item.simple, ContextTarget, sc.owner);
        var inner := ContextFlow(w, sc, s, index + 1, reraised, env);
        var passed := Left(w, sc, item.exit.value, inner);
        var left := FunctionFlow(w, item.exit.value, false, sc.stack);
        PlusComplete(managed.Plus(entered), target);
        PlusComplete(managed.Plus(entered).Plus(target), passed);
        PlusComplete(managed.Plus(entered).Plus(target).Plus(passed), left);
        LeftComplete(w, sc, item.exit.value, inner);
      }
    }
  }

  lemma LeftComplete(w: World, sc: Scope, exit: Name, inner: Flow)
    requires exit in w.functions && Left(w, sc, exit, inner).Complete()
    ensures inner.Complete() && Left(w, sc, exit, inner).visited == inner.visited
    ensures Suppression(w.functions[exit].body) == Some(true) || AlwaysRaises(w.functions[exit].body)
            || Left(w, sc, exit, inner).escapes == inner.escapes
  {
    var mode := Suppression(w.functions[exit].body);
    var passed := if mode == Some(true) || AlwaysRaises(w.functions[exit].body) then inner.(escapes := {}) else inner;
    PlusComplete(ReportIf(mode.None?, UnresolvedSuppression, sc.owner), passed);
  }

  // ----- what the report of a function promises

  // In no run does the function let another explicitly raised exception escape.
  ghost predicate Lets(w: World, f: Name, exceptions: set<Name>) {
    forall n: nat, c, thrown :: CallRuns(w, n, f, IsGenerator(w, f), c, Threw(thrown)) && thrown.explicit ==>
      thrown.exception in exceptions
  }

  // The body runs only these functions without a call.
  ghost predicate RunsOnly(body: seq<Stmt>, hooks: set<Name>) {
    forall s, f :: s in Executed(body) && f in ImplicitCalls(s) ==> f in hooks
  }

  // The same for the bodies of functions.
  ghost predicate RunsWithin(w: World, visited: set<Name>, hooks: set<Name>) {
    forall g :: g in visited && g in w.functions ==> RunsOnly(w.functions[g].body, hooks)
  }

  // The report for a function that the interpreter calls by itself.
  function HookFlow(w: World, f: Name): Flow {
    FunctionFlow(w, f, IsGenerator(w, f), {})
  }

  // The functions have complete reports of their own, and what their code runs without a call is among them.
  ghost predicate Followed(w: World, hooks: set<Name>) {
    forall f :: f in hooks ==> HookFlow(w, f).Complete() && RunsWithin(w, HookFlow(w, f).visited, hooks)
  }

  function HookEscapes(w: World, hooks: set<Name>): set<Name> {
    set f, x | f in hooks && x in HookFlow(w, f).escapes :: x
  }

  lemma WithinFewer(w: World, visited: set<Name>, fewer: set<Name>, hooks: set<Name>)
    requires RunsWithin(w, visited, hooks) && fewer <= visited
    ensures RunsWithin(w, fewer, hooks)
  {
  }

  lemma WithinClear(w: World, p: Promise, visited: set<Name>, hooks: set<Name>)
    requires RunsWithin(w, visited, hooks) && forall f :: f in hooks ==> Keeps(w, p, f)
    ensures Clear(w, p, visited)
  {
    hide Keeps;
    forall g | g in visited && g in w.functions ensures NodesClear(w, p, Executed(w.functions[g].body)) {
      assert RunsOnly(w.functions[g].body, hooks);
    }
  }

  // Runs of hooks are nested in one another to a height only, so that each may rely on the reports of those below.
  lemma {:induction false} FollowedKeep(w: World, hooks: set<Name>, height: nat)
    requires Followed(w, hooks)
    ensures forall f :: f in hooks ==> Keeps(w, Promise(height, HookEscapes(w, hooks)), f)
  {
    if height > 0 {
      var below := Promise(height - 1, HookEscapes(w, hooks));
      FollowedKeep(w, hooks, height - 1);
      forall f, n: nat, c, thrown | f in hooks && n < height && CallRuns(w, n, f, IsGenerator(w, f), c, Threw(thrown))
        ensures thrown.explicit ==> thrown.exception in below.exceptions
      {
        WithinClear(w, below, HookFlow(w, f).visited, hooks);
        CallSound(w, below, n, f, IsGenerator(w, f), {}, c, Threw(thrown));
        assert HookFlow(w, f).escapes <= below.exceptions;
      }
    }
  }

  /** What the checker reports for the functions that are run without a call holds of all their runs, also where
      they run one another, or themselves, by loops of their own. */
  lemma FollowedLet(w: World, hooks: set<Name>, f: Name)
    requires Followed(w, hooks) && f in hooks
    ensures Lets(w, f, HookEscapes(w, hooks))
  {
    forall n: nat, c, thrown | CallRuns(w, n, f, IsGenerator(w, f), c, Threw(thrown)) && thrown.explicit
      ensures thrown.exception in HookEscapes(w, hooks)
    {
      FollowedKeep(w, hooks, n + 1);
      assert Keeps(w, Promise(n + 1, HookEscapes(w, hooks)), f);
    }
  }

  /** Analysis soundness, for a call of any function that the checker summarizes on its own: what escapes is in its
      report, or in the report of something that it runs without a call. */
  lemma AnalysisSound(w: World, hooks: set<Name>, n: nat, f: Name, iterated: bool, c: Frame, thrown: Thrown)
    requires FunctionFlow(w, f, iterated, {}).Complete()
    requires RunsWithin(w, FunctionFlow(w, f, iterated, {}).visited, hooks) && Followed(w, hooks)
    requires FunctionRuns(w, n, f, iterated, c, Threw(thrown)) && thrown.explicit
    ensures thrown.exception in FunctionFlow(w, f, iterated, {}).escapes + HookEscapes(w, hooks)
  {
    var p := Promise(n, HookEscapes(w, hooks));
    FollowedKeep(w, hooks, n);
    WithinClear(w, p, FunctionFlow(w, f, iterated, {}).visited, hooks);
    FunctionSound(w, p, n, f, iterated, {}, c, Threw(thrown));
  }

  // If the report of the body is complete, it covers every run, up to these exceptions.
  ghost predicate BodySound(w: World, sc: Scope, body: seq<Stmt>, exceptions: set<Name>) {
    var flow := BlockFlow(w, sc, body, {}, map[]);
    flow.Complete() ==>
      forall n: nat, c, out :: BlockRuns(w, n, body, c, out) ==> Covered(Promise(n, exceptions), flow, out)
  }

  // A body that runs only these functions without a call, in its own code and in the functions that it calls.
  ghost predicate Over(w: World, sc: Scope, body: seq<Stmt>, hooks: set<Name>) {
    RunsOnly(body, hooks) && RunsWithin(w, BlockFlow(w, sc, body, {}, map[]).visited, hooks)
  }

  ghost predicate SoundWith(w: World, hooks: set<Name>, exceptions: set<Name>) {
    forall sc, body :: Over(w, sc, body, hooks) && Quiet(body) ==> BodySound(w, sc, body, exceptions)
  }

  lemma LoopExecuted(s: Stmt)
    requires s.Loop? && s.body == [Pass] && s.orelse == []
    ensures Executed([s]) == [s, Pass]
  {
    assert [s][1..] == [] && [Pass][1..] == [];
    assert Executed([s]) == [s] + Nested(s) + Executed([s][1..]);
    assert Executed([Pass]) == [Pass] + Nested(Pass) + Executed([Pass][1..]);
  }

  // for _ in xs: pass
  function Iterating(f: Name): Stmt {
    Loop(Atom, true, [Pass], [], [f])
  }

  /** The checker does not look at what loops and bare raises run without a call, so its reports are sound up to some
      exceptions, for every body that runs only these functions, exactly when these functions let no others
      escape. */
  lemma SoundExactly(w: World, hooks: set<Name>, exceptions: set<Name>)
    ensures SoundWith(w, hooks, exceptions) <==> forall f :: f in hooks ==> Lets(w, f, exceptions)
  {
    if forall f :: f in hooks ==> Lets(w, f, exceptions) {
      forall sc, body | Over(w, sc, body, hooks) && Quiet(body) ensures BodySound(w, sc, body, exceptions) {
        OverSound(w, sc, body, hooks, exceptions);
      }
    } else {
      var f :| f in hooks && !Lets(w, f, exceptions);
      LoudMissed(w, Scope(f, {}), f, exceptions);
      OnlyThese(w, Scope(f, {}), [Iterating(f)], {f}, hooks);
      assert !SoundWith(w, hooks, exceptions);
    }
  }

  lemma OverSound(w: World, sc: Scope, body: seq<Stmt>, hooks: set<Name>, exceptions: set<Name>)
    requires Over(w, sc, body, hooks) && Quiet(body) && forall f :: f in hooks ==> Lets(w, f, exceptions)
    ensures BodySound(w, sc, body, exceptions)
  {
    var flow := BlockFlow(w, sc, body, {}, map[]);
    forall n: nat, c, out | flow.Complete() && BlockRuns(w, n, body, c, out)
      ensures Covered(Promise(n, exceptions), flow, out) {
      var p := Promise(n, exceptions);
      forall f | f in hooks ensures Keeps(w, p, f) { assert Lets(w, f, exceptions); }
      WithinClear(w, p, flow.visited, hooks);
      BlockSound(w, p, n, sc, body, {}, map[], c, out);
    }
  }

  lemma OnlyThese(w: World, sc: Scope, body: seq<Stmt>, few: set<Name>, hooks: set<Name>)
    requires Over(w, sc, body, few) && few <= hooks
    ensures Over(w, sc, body, hooks)
  {
    var visited := BlockFlow(w, sc, body, {}, map[]).visited;
    OnlyMore(body, few, hooks);
    forall g | g in visited && g in w.functions ensures RunsOnly(w.functions[g].body, hooks) {
      OnlyMore(w.functions[g].body, few, hooks);
    }
  }

  lemma OnlyMore(body: seq<Stmt>, few: set<Name>, hooks: set<Name>)
    requires RunsOnly(body, few) && few <= hooks
    ensures RunsOnly(body, hooks)
  {
    forall s, f | s in Executed(body) && f in ImplicitCalls(s) ensures f in hooks {
      assert f in few;
    }
  }

  lemma LoudMissed(w: World, sc: Scope, f: Name, exceptions: set<Name>)
    requires !Lets(w, f, exceptions)
    ensures Quiet([Iterating(f)]) && Over(w, sc, [Iterating(f)], {f}) && !BodySound(w, sc, [Iterating(f)], exceptions)
  {
    var n: nat, c, thrown :| CallRuns(w, n, f, IsGenerator(w, f), c, Threw(thrown)) && thrown.explicit
                             && thrown.exception !in exceptions;
    var out := Threw(thrown);
    IterationMissed(w, sc, n, f, c, out);
    assert BlockRuns(w, n + 4, [Iterating(f)], c, out) && !Covered(Promise(n + 4, exceptions), Empty, out);
  }

  /** An exception that `__next__` raises escapes a loop whose report is complete and empty. */
  lemma IterationMissed(w: World, sc: Scope, n: nat, f: Name, c: Frame, out: Outcome)
    requires CallRuns(w, n, f, IsGenerator(w, f), c, out) && out.Threw?
    ensures BlockFlow(w, sc, [Iterating(f)], {}, map[]) == Empty
    ensures Quiet([Iterating(f)]) && RunsOnly([Iterating(f)], {f})
    ensures BlockRuns(w, n + 4, [Iterating(f)], c, out)
  {
    var s := Iterating(f);
    IteratingFlow(w, sc, f);
    LoopExecuted(s);
    assert f in [f] && ImplicitRuns(w, n + 1, [f], c, out);
    assert LoopRuns(w, n + 2, Atom, true, [Pass], [], [f], c, out);
    assert StmtRuns(w, n + 3, s, c, out);
  }

  lemma IteratingFlow(w: World, sc: Scope, f: Name)
    ensures BlockFlow(w, sc, [Iterating(f)], {}, map[]) == Empty
  {
    var s := Iterating(f);
    assert [s][1..] == [] && [Pass][1..] == [];
    assert BlockFlow(w, sc, [Pass], {}, map[]) == Empty.Plus(BlockFlow(w, sc, [Pass][1..], {}, map[]));
    assert StmtFlow(w, sc, s, {}, map[]) == Empty;
    assert BlockFlow(w, sc, [s], {}, map[]) == StmtFlow(w, sc, s, {}, map[]).Plus(BlockFlow(w, sc, [s][1..], {}, map[]));
  }

  /** The statement is about runs that exist: a function that only raises an exception reports it, and a run of
      the function lets it escape. */
  lemma RaiseEscapes(w: World, f: Name, c: Frame, exception: Name)
    requires f in w.functions && w.functions[f].decorators == []
    requires w.functions[f].body == [Raise([], Some(exception), [])] && IsException(w.classes, exception)
    ensures FunctionFlow(w, f, false, {}).Complete() && FunctionFlow(w, f, false, {}).escapes == {exception}
    ensures FunctionRuns(w, 4, f, false, c, Threw(Thrown(exception, true))) && !IsGenerator(w, f)
  {
    var s := Raise([], Some(exception), []);
    assert [s][1..] == [];
    assert Executed([s]) == [s] + Nested(s) + Executed([s][1..]);
    assert Nested(s) == [] && Executed([]) == [];
    assert Executed([s]) == [s] && !ExprsYield(s.parts) && !StmtYields(s);
    var inner := Frame(c.handling, map[]);
    assert ExprsRun(w, 1, [], inner, Normal);
    assert StmtRuns(w, 2, s, inner, Threw(Thrown(exception, true)));
    assert BlockRuns(w, 3, [s], inner, Threw(Thrown(exception, true)));
    RaiseFlow(w, Scope(f, {} + {f}), exception);
  }

  lemma RaiseFlow(w: World, sc: Scope, exception: Name)
    requires IsException(w.classes, exception)
    ensures BlockFlow(w, sc, [Raise([], Some(exception), [])], {}, map[]) == Escaping({exception})
  {
    var s := Raise([], Some(exception), []);
    assert ExprsFlow(w, sc, s.parts) == Empty;
    assert StmtFlow(w, sc, s, {}, map[]) == Empty.Plus(Escaping({exception}));
    assert [s][0] == s && Ends(s);
  }

  /** for _ in Rows(): pass, where `Rows.__next__` raises: the function's report is complete and empty, and the
      exception escapes. */
  lemma IteratorEscapes(w: World, f: Name, next: Name, c: Frame, exception: Name)
    requires f in w.functions && w.functions[f].decorators == [] && w.functions[f].body == [IteratingOver(next)]
    requires next in w.functions && w.functions[next].decorators == []
    requires w.functions[next].body == [Raise([], Some(exception), [])] && IsException(w.classes, exception)
    ensures FunctionFlow(w, f, false, {}).Complete() && FunctionFlow(w, f, false, {}).escapes == {}
    ensures FunctionRuns(w, 10, f, false, c, Threw(Thrown(exception, true)))
  {
    var s := IteratingOver(next);
    var out := Threw(Thrown(exception, true));
    var inner := Frame(c.handling, map[]);
    RaiseEscapes(w, next, inner, exception);
    assert CallRuns(w, 5, next, false, inner, out);
    assert next in [next] && ImplicitRuns(w, 6, [next], inner, out);
    assert LoopRuns(w, 7, s.head, true, [Pass], [], [next], inner, out);
    assert StmtRuns(w, 8, s, inner, out);
    assert BlockRuns(w, 9, [s], inner, out);
    IteratingOverFlow(w, Scope(f, {} + {f}), next);
    assert Generator(w.functions[f]) == false by { IteratingOverPlain(next); }
  }

  function IteratingOver(next: Name): Stmt {
    Loop(Call([], Construction(true, [])), true, [Pass], [], [next])
  }

  lemma IteratingOverPlain(next: Name)
    ensures forall s :: s in Executed([IteratingOver(next)]) ==> !StmtYields(s)
  {
    var s := IteratingOver(next);
    LoopExecuted(s);
  }

  lemma IteratingOverFlow(w: World, sc: Scope, next: Name)
    ensures BlockFlow(w, sc, [IteratingOver(next)], {}, map[]) == Empty
  {
    var s := IteratingOver(next);
    assert [s][1..] == [] && [Pass][1..] == [];
    assert BlockFlow(w, sc, [Pass], {}, map[]) == Empty.Plus(BlockFlow(w, sc, [Pass][1..], {}, map[]));
    assert EachFlow(w, sc, [], false) == Empty && ExprsFlow(w, sc, []) == Empty;
    assert CalleeFlow(w, sc, Construction(true, []), false, true) == Empty;
    assert ExprFlow(w, sc, s.head, false, true) == Empty;
    assert StmtFlow(w, sc, s, {}, map[]) == Empty;
    assert BlockFlow(w, sc, [s], {}, map[]) == StmtFlow(w, sc, s, {}, map[]).Plus(BlockFlow(w, sc, [s][1..], {}, map[]));
  }

  lemma IteratingOverRuns(next: Name)
    ensures RunsOnly([IteratingOver(next)], {next})
  {
    var s := IteratingOver(next);
    LoopExecuted(s);
  }

  // The report of a function that only loops over objects of a class.
  lemma IteratingOverReport(w: World, f: Name, next: Name)
    requires f in w.functions && w.functions[f].decorators == [] && w.functions[f].body == [IteratingOver(next)]
    ensures FunctionFlow(w, f, false, {}) == Flow({}, {}, {f}) && !IsGenerator(w, f)
    ensures RunsWithin(w, {f}, {next})
  {
    IteratingOverFlow(w, Scope(f, {} + {f}), next);
    IteratingOverPlain(next);
    IteratingOverRuns(next);
  }

  // yield 1
  const YIELDS := Evaluate(Yield(Atom))

  lemma YieldsReport(w: World, f: Name)
    requires f in w.functions && w.functions[f].decorators == [] && w.functions[f].body == [YIELDS]
    ensures IsGenerator(w, f) && HookFlow(w, f) == Flow({}, {}, {f}) && RunsOnly([YIELDS], {})
  {
    var sc := Scope(f, {} + {f});
    assert [YIELDS][1..] == [];
    assert Executed([YIELDS]) == [YIELDS] + Nested(YIELDS) + Executed([YIELDS][1..]) == [YIELDS];
    assert StmtYields(YIELDS) && YIELDS in Executed(w.functions[f].body);
    assert ExprFlow(w, sc, Atom, false, false) == Empty;
    assert StmtFlow(w, sc, YIELDS, {}, map[]) == Empty;
    assert BlockFlow(w, sc, [YIELDS], {}, map[])
            == StmtFlow(w, sc, YIELDS, {}, map[]).Plus(BlockFlow(w, sc, [YIELDS][1..], {}, map[]));
  }

  /** for _ in Rows(): pass, where `Rows.__iter__` is a generator that raises nothing: its own report settles that no
      explicitly raised exception escapes. */
  lemma GeneratorIterated(w: World, f: Name, iter: Name, n: nat, c: Frame, thrown: Thrown)
    requires f in w.functions && w.functions[f].decorators == [] && w.functions[f].body == [IteratingOver(iter)]
    requires iter in w.functions && w.functions[iter].decorators == [] && w.functions[iter].body == [YIELDS]
    ensures FunctionFlow(w, f, false, {}) == Flow({}, {}, {f}) && Followed(w, {iter})
    ensures FunctionRuns(w, n, f, false, c, Threw(thrown)) ==> !thrown.explicit
  {
    IteratingOverReport(w, f, iter);
    YieldsReport(w, iter);
    assert HookEscapes(w, {iter}) == {};
    if FunctionRuns(w, n, f, false, c, Threw(thrown)) && thrown.explicit {
      AnalysisSound(w, {iter}, n, f, false, c, thrown);
    }
  }

  /** The same where `__next__` loops over objects of its own class, as in a tree. */
  lemma TreeIterated(w: World, next: Name)
    requires next in w.functions && w.functions[next].decorators == [] && w.functions[next].body == [IteratingOver(next)]
    ensures Followed(w, {next}) && Lets(w, next, {})
  {
    IteratingOverReport(w, next, next);
    assert HookEscapes(w, {next}) == {};
    FollowedLet(w, {next}, next);
  }

  /** raise AppError, where `AppError.__init__` raises another exception: only the class that is named is reported. */
  lemma InitEscapes(w: World, sc: Scope, init: Name, c: Frame, named: Name, exception: Name)
    requires init in w.functions && w.functions[init].decorators == [] && IsException(w.classes, named)
    requires w.functions[init].body == [Raise([], Some(exception), [])] && IsException(w.classes, exception)
    ensures StmtFlow(w, sc, Raise([], Some(named), [init]), {}, map[]) == Escaping({named})
    ensures StmtRuns(w, 7, Raise([], Some(named), [init]), c, Threw(Thrown(exception, true)))
  {
    var s := Raise([], Some(named), [init]);
    RaiseEscapes(w, init, c, exception);
    assert CallRuns(w, 5, init, false, c, Threw(Thrown(exception, true)));
    assert init in [init] && ImplicitRuns(w, 6, [init], c, Threw(Thrown(exception, true)));
    assert ExprsFlow(w, sc, s.parts) == Empty;
  }
}
