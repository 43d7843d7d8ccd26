/**
 `_Analyzer` of `fastapi_canon/checks/analysis.py`: the analysis with its summary cache. Every method is
 proved against the flow function it computes, taken with nothing on the stack.
 */
module Analyzers {
  import opened Wrappers
  import opened Linearization
  import opened Hierarchy
  import opened Program
  import opened Flows
  import opened Soundness
  import opened Summaries

  function Open(sc: Scope): Scope {
    sc.(stack := {})
  }

  class Analyzer {
    const world: World
    var summaries: map<(Name, bool), Flow>

    // Entries agree with the analysis from scratch, and none was cut short by the stack it was made under.
    ghost predicate Valid()
      reads this
    {
      forall key :: key in summaries ==>
        && Agrees(summaries[key], FunctionFlow(world, key.0, key.1, {}))
        && !summaries[key].Cut()
    }

    constructor (world: World)
      ensures Valid() && this.world == world && summaries == map[]
    {
      this.world := world;
      summaries := map[];
    }

    method Function(f: Name, stack: set<Name>, iterated: bool) returns (flow: Flow)
      requires Valid() && Awaiting(world, stack, FunctionFlow(world, f, iterated, {}))
      modifies this`summaries
      ensures Valid()
      ensures Agrees(flow, FunctionFlow(world, f, iterated, {}))
      ensures Agrees(flow, FunctionFlow(world, f, iterated, stack))
      decreases world.functions.Keys - stack, 0, 0
    {
      StackAgrees(world, f, iterated, stack);
      if f in stack {
        CutIncomplete(world, f, iterated, stack);
        return Report(RecursiveCall, f);
      }
      if f !in world.functions {
        return Report(UnresolvedCall, f);
      }
      if (f, iterated) in summaries {
        return summaries[(f, iterated)];
      }
      flow := AnalyzeFunction(f, stack, iterated);
      if !flow.Cut() {
        summaries := summaries[(f, iterated) := flow];
      }
    }

    method AnalyzeFunction(f: Name, stack: set<Name>, iterated: bool) returns (flow: Flow)
      requires Valid() && Awaiting(world, stack, FunctionFlow(world, f, iterated, {}))
      requires f in world.functions && f !in stack
      modifies this`summaries
      ensures Valid()
      ensures Agrees(flow, FunctionFlow(world, f, iterated, {}))
      decreases world.functions.Keys - stack, 0, 0, 0
    {
      var definition := world.functions[f];
      if AbstractMethod in definition.decorators {
        return Report(AbstractImplementation, f);
      }
      flow := Empty;
      if Opaque in definition.decorators {
        flow := flow.Plus(Report(UnresolvedDecorator, f));
      }
      if !iterated && Generator(definition) {
        return flow.Plus(Report(DeferredGenerator, f));
      }
      flow := flow.Plus(Flow({}, {}, {f}));
      assert flow == Started(world, f);
      assert {} + {f} == {f};
      AwaitingBody(world, f, iterated, stack);
      var body := Block(Scope(f, stack + {f}), definition.body, {}, map[]);
      OpenBodyAgrees(world, f);
      PlusAgrees(flow, flow, body, BodyFlow(world, f));
      flow := flow.Plus(body);
    }

    method Expression(sc: Scope, e: Expr, awaited: bool, iterated: bool) returns (flow: Flow)
      requires Valid() && Awaiting(world, sc.stack, ExprFlow(world, Open(sc), e, awaited, iterated))
      modifies this`summaries
      ensures Valid()
      ensures Agrees(flow, ExprFlow(world, Open(sc), e, awaited, iterated))
      decreases world.functions.Keys - sc.stack, 1, e, 0, 0
    {
      match e
      case Atom => flow := Empty;
      case Operands(parts) => flow := Expressions(sc, parts);
      case Yield(value) => flow := Expression(sc, value, false, false);
      case Await(value) => flow := Expression(sc, value, true, iterated);
      case Call(arguments, callee) =>
        ghost var first := ExprsFlow(world, Open(sc), arguments);
        ghost var second := CalleeFlow(world, Open(sc), callee, awaited, iterated);
        PlusAwaiting(world, sc.stack, first, second);
        flow := Expressions(sc, arguments);
        var called := Callee(sc, callee, awaited, iterated);
        PlusAgrees(flow, first, called, second);
        flow := flow.Plus(called);
    }

    method Expressions(sc: Scope, es: seq<Expr>) returns (flow: Flow)
      requires Valid() && Awaiting(world, sc.stack, ExprsFlow(world, Open(sc), es))
      modifies this`summaries
      ensures Valid()
      ensures Agrees(flow, ExprsFlow(world, Open(sc), es))
      decreases world.functions.Keys - sc.stack, 1, es, 0, 0
    {
      flow := Empty;
      ghost var done := Empty;
      assert es[0..] == es;
      for i := 0 to |es|
        invariant Valid()
        invariant ExprsFlow(world, Open(sc), es) == done.Plus(ExprsFlow(world, Open(sc), es[i..]))
        invariant Agrees(flow, done)
      {
        ghost var first := ExprFlow(world, Open(sc), es[i], false, false);
        ghost var rest := ExprsFlow(world, Open(sc), es[i + 1..]);
        assert es[i..][1..] == es[i + 1..];
        PlusAwaiting(world, sc.stack, done, first.Plus(rest));
        PlusAwaiting(world, sc.stack, first, rest);
        var part := Expression(sc, es[i], false, false);
        PlusAgrees(flow, done, part, first);
        PlusAssociative(done, first, rest);
        flow := flow.Plus(part);
        done := done.Plus(first);
      }
      PlusAssociative(done, Empty, Empty);
    }

    method Callee(sc: Scope, callee: Callee, awaited: bool, iterated: bool) returns (flow: Flow)
      requires Valid() && Awaiting(world, sc.stack, CalleeFlow(world, Open(sc), callee, awaited, iterated))
      modifies this`summaries
      ensures Valid()
      ensures Agrees(flow, CalleeFlow(world, Open(sc), callee, awaited, iterated))
      decreases world.functions.Keys - sc.stack, 1, callee, 0, 0
    {
      var called: Flow;
      ghost var second: Flow;
      match callee {
        case BuiltinException => return Empty;
        case Unresolved => return Report(UnresolvedCall, sc.owner);
        case Definition(target, overridable) =>
          flow := ReportIf(overridable, OverridableDispatch, sc.owner);
          second := InvokedFlow(world, Open(sc), target, awaited, iterated);
          PlusAwaiting(world, sc.stack, flow, second);
          called := Invoke(sc, target, awaited, iterated);
        case Port(candidates) =>
          flow := ReportIf(candidates == [], UnboundPort, sc.owner);
          second := CandidatesFlow(world, Open(sc), candidates, awaited, iterated);
          PlusAwaiting(world, sc.stack, flow, second);
          called := Dispatch(sc, candidates, awaited, iterated);
        case Construction(resolved, hooks) =>
          flow := ReportIf(!resolved, UnresolvedConstruction, sc.owner);
          second := EachFlow(world, Open(sc), hooks, false);
          PlusAwaiting(world, sc.stack, flow, second);
          called := Each(sc, hooks, false);
        case Library(receiver, callbacks) =>
          ghost var first := ExprsFlow(world, Open(sc), receiver);
          second := EachFlow(world, Open(sc), callbacks, true);
          PlusAwaiting(world, sc.stack, first, second);
          flow := Expressions(sc, receiver);
          called := Each(sc, callbacks, true);
          PlusAgrees(flow, first, called, second);
          return flow.Plus(called);
      }
      PlusAgrees(flow, flow, called, second);
      flow := flow.Plus(called);
    }

    method Invoke(sc: Scope, f: Name, awaited: bool, iterated: bool) returns (flow: Flow)
      requires Valid() && Awaiting(world, sc.stack, InvokedFlow(world, Open(sc), f, awaited, iterated))
      modifies this`summaries
      ensures Valid()
      ensures Agrees(flow, InvokedFlow(world, Open(sc), f, awaited, iterated))
      decreases world.functions.Keys - sc.stack, 0, 1
    {
      if Deferred(world, f, awaited, iterated) {
        return Report(DeferredCoroutine, sc.owner);
      }
      flow := Function(f, sc.stack, iterated && IsGenerator(world, f));
    }

    method Dispatch(sc: Scope, candidates: seq<Option<Name>>, awaited: bool, iterated: bool) returns (flow: Flow)
      requires Valid() && Awaiting(world, sc.stack, CandidatesFlow(world, Open(sc), candidates, awaited, iterated))
      modifies this`summaries
      ensures Valid()
      ensures Agrees(flow, CandidatesFlow(world, Open(sc), candidates, awaited, iterated))
      decreases world.functions.Keys - sc.stack, 0, 2 + |candidates|
    {
      flow := Empty;
      ghost var done := Empty;
      assert candidates[0..] == candidates;
      for i := 0 to |candidates|
        invariant Valid()
        invariant CandidatesFlow(world, Open(sc), candidates, awaited, iterated) ==
                  done.Plus(CandidatesFlow(world, Open(sc), candidates[i..], awaited, iterated))
        invariant Agrees(flow, done)
      {
        ghost var first := match candidates[i]
                           case None => Report(UnresolvedImplementation, sc.owner)
                           case Some(f) => InvokedFlow(world, Open(sc), f, awaited, iterated);
        ghost var rest := CandidatesFlow(world, Open(sc), candidates[i + 1..], awaited, iterated);
        assert candidates[i..][1..] == candidates[i + 1..];
        PlusAwaiting(world, sc.stack, done, first.Plus(rest));
        PlusAwaiting(world, sc.stack, first, rest);
        var part := Report(UnresolvedImplementation, sc.owner);
        if candidates[i].Some? {
          part := Invoke(sc, candidates[i].value, awaited, iterated);
        }
        PlusAgrees(flow, done, part, first);
        PlusAssociative(done, first, rest);
        flow := flow.Plus(part);
        done := done.Plus(first);
      }
      PlusAssociative(done, Empty, Empty);
    }

    method Each(sc: Scope, fs: seq<Name>, callbacks: bool) returns (flow: Flow)
      requires Valid() && Awaiting(world, sc.stack, EachFlow(world, Open(sc), fs, callbacks))
      modifies this`summaries
      ensures Valid()
      ensures Agrees(flow, EachFlow(world, Open(sc), fs, callbacks))
      decreases world.functions.Keys - sc.stack, 0, 2 + |fs|
    {
      flow := Empty;
      ghost var done := Empty;
      assert fs[0..] == fs;
      for i := 0 to |fs|
        invariant Valid()
        invariant EachFlow(world, Open(sc), fs, callbacks) == done.Plus(EachFlow(world, Open(sc), fs[i..], callbacks))
        invariant Agrees(flow, done)
      {
        var iterated := callbacks && IsGenerator(world, fs[i]);
        ghost var first := FunctionFlow(world, fs[i], iterated, {});
        ghost var rest := EachFlow(world, Open(sc), fs[i + 1..], callbacks);
        assert fs[i..][1..] == fs[i + 1..];
        PlusAwaiting(world, sc.stack, done, first.Plus(rest));
        PlusAwaiting(world, sc.stack, first, rest);
        var part := Function(fs[i], sc.stack, iterated);
        PlusAgrees(flow, done, part, first);
        PlusAssociative(done, first, rest);
        flow := flow.Plus(part);
        done := done.Plus(first);
      }
      PlusAssociative(done, Empty, Empty);
    }

    method Block(sc: Scope, body: seq<Stmt>, reraised: set<Name>, env: Env) returns (flow: Flow)
      requires Valid() && Awaiting(world, sc.stack, BlockFlow(world, Open(sc), body, reraised, env))
      modifies this`summaries
      ensures Valid()
      ensures Agrees(flow, BlockFlow(world, Open(sc), body, reraised, env))
      decreases world.functions.Keys - sc.stack, 1, body, 0, 0
    {
      flow := Empty;
      ghost var done := Empty;
      assert body[0..] == body;
      for i := 0 to |body|
        invariant Valid()
        invariant BlockFlow(world, Open(sc), body, reraised, env) ==
                  done.Plus(BlockFlow(world, Open(sc), body[i..], reraised, env))
        invariant Agrees(flow, done)
      {
        ghost var first := StmtFlow(world, Open(sc), body[i], reraised, env);
        ghost var rest := BlockFlow(world, Open(sc), body[i + 1..], reraised, env);
        assert body[i..][1..] == body[i + 1..];
        PlusAwaiting(world, sc.stack, done, if Ends(body[i]) then first else first.Plus(rest));
        if !Ends(body[i]) { PlusAwaiting(world, sc.stack, first, rest); }
        var part := Statement(sc, body[i], reraised, env);
        PlusAgrees(flow, done, part, first);
        PlusAssociative(done, first, rest);
        flow := flow.Plus(part);
        if Ends(body[i]) {
          return;
        }
        done := done.Plus(first);
      }
      PlusAssociative(done, Empty, Empty);
    }

    method Statement(sc: Scope, s: Stmt, reraised: set<Name>, env: Env) returns (flow: Flow)
      requires Valid() && Awaiting(world, sc.stack, StmtFlow(world, Open(sc), s, reraised, env))
      modifies this`summaries
      ensures Valid()
      ensures Agrees(flow, StmtFlow(world, Open(sc), s, reraised, env))
      decreases world.functions.Keys - sc.stack, 1, s, 1, 0
    {
      match s
      case Evaluate(value) => flow := Expression(sc, value, false, false);
      case Pass => flow := Empty;
      case Break => flow := Empty;
      case Continue => flow := Empty;
      case Return(result) =>
        flow := Empty;
        if result.Computed? { flow := Expression(sc, result.value, false, false); }
      case Raise(parts, raised, _) =>
        ghost var first := ExprsFlow(world, Open(sc), parts);
        var named := if raised.Some? && IsException(world.classes, raised.value) then Escaping({raised.value})
                     else Report(UnresolvedRaise, sc.owner);
        PlusAwaiting(world, sc.stack, first, named);
        flow := Expressions(sc, parts);
        PlusAgrees(flow, first, named, named);
        flow := flow.Plus(named);
      case RaiseCaught(variable) => flow := CaughtFlow(world, sc, variable, env);
      case Reraise => flow := if reraised != {} then Escaping(reraised) else Report(UnresolvedReraise, sc.owner);
      case If(test, body, orelse) => flow := Branches(sc, s, test, false, reraised, env);
      case Loop(head, each, body, orelse, _) => flow := Branches(sc, s, head, each, reraised, env);
      case Try(_, _, _, _) => flow := Guarded(sc, s, reraised, env);
      case With(_, _, _) => flow := ContextManager(sc, s, 0, reraised, env);
      case LocalFunction(evaluated) => flow := Expressions(sc, evaluated);
      case LocalClass(evaluated) =>
        ghost var first := ExprsFlow(world, Open(sc), evaluated);
        PlusAwaiting(world, sc.stack, first, Report(NestedClass, sc.owner));
        flow := Expressions(sc, evaluated);
        PlusAgrees(flow, first, Report(NestedClass, sc.owner), Report(NestedClass, sc.owner));
        flow := flow.Plus(Report(NestedClass, sc.owner));
      case Unsupported(body) =>
        flow := Report(UnsupportedStatement, sc.owner).Plus(Escaping(RaisedIn(world, Executed(body))));
    }

    // Both arms of a branch, or a loop taken as zero or more independent rounds.
    method Branches(sc: Scope, s: Stmt, head: Expr, each: bool, reraised: set<Name>, env: Env) returns (flow: Flow)
      requires (s.If? && s.test == head && !each) || (s.Loop? && s.head == head && s.each == each)
      requires Valid() && Awaiting(world, sc.stack, StmtFlow(world, Open(sc), s, reraised, env))
      modifies this`summaries
      ensures Valid()
      ensures Agrees(flow, StmtFlow(world, Open(sc), s, reraised, env))
      decreases world.functions.Keys - sc.stack, 1, s, 0, 0
    {
      ghost var tested := ExprFlow(world, Open(sc), head, false, each);
      ghost var first := BlockFlow(world, Open(sc), s.body, reraised, env);
      ghost var second := BlockFlow(world, Open(sc), s.orelse, reraised, env);
      PlusAwaiting(world, sc.stack, tested.Plus(first), second);
      PlusAwaiting(world, sc.stack, tested, first);
      flow := Expression(sc, head, false, each);
      var body := Block(sc, s.body, reraised, env);
      PlusAgrees(flow, tested, body, first);
      flow := flow.Plus(body);
      var orelse := Block(sc, s.orelse, reraised, env);
      PlusAgrees(flow, tested.Plus(first), orelse, second);
      flow := flow.Plus(orelse);
    }

    method Guarded(sc: Scope, s: Stmt, reraised: set<Name>, env: Env) returns (flow: Flow)
      requires s.Try?
      requires Valid() && Awaiting(world, sc.stack, StmtFlow(world, Open(sc), s, reraised, env))
      modifies this`summaries
      ensures Valid()
      ensures Agrees(flow, StmtFlow(world, Open(sc), s, reraised, env))
      decreases world.functions.Keys - sc.stack, 1, s, 0, 0
    {
      TryAwaiting(world, sc, s, reraised, env);
      var attempted := Block(sc, s.body, reraised, env);
      TryHandlersAwaiting(world, sc, s, reraised, env, attempted);
      flow := attempted.(escapes := {});
      var handled := Handlers(sc, s.handlers, attempted.escapes, env);
      flow := flow.Plus(handled);
      var orelse := Block(sc, s.orelse, reraised, env);
      flow := flow.Plus(orelse);
      var finalbody := Block(sc, s.finalbody, reraised, env);
      flow := flow.Plus(finalbody);
      flow := flow.Plus(ReportIf(MayReplace(s.finalbody), FinallyMayReplace, sc.owner));
      TryAgrees(world, sc, s, reraised, env, attempted, handled, orelse, finalbody);
    }

    method Handlers(sc: Scope, handlers: seq<Handler>, escapes: set<Name>, env: Env) returns (flow: Flow)
      requires Valid() && Awaiting(world, sc.stack, HandlersFlow(world, Open(sc), handlers, escapes, env))
      modifies this`summaries
      ensures Valid()
      ensures Agrees(flow, HandlersFlow(world, Open(sc), handlers, escapes, env))
      decreases world.functions.Keys - sc.stack, 1, handlers, 0, 0
    {
      flow := Empty;
      var remaining := escapes;
      ghost var done := Empty;
      assert handlers[0..] == handlers;
      for i := 0 to |handlers|
        invariant Valid()
        invariant HandlersFlow(world, Open(sc), handlers, escapes, env) ==
                  done.Plus(HandlersFlow(world, Open(sc), handlers[i..], remaining, env))
        invariant Agrees(flow, done)
      {
        var h := handlers[i];
        var caught := CaughtBy(world, h, remaining);
        var bound := HandlerEnv(h, env, caught);
        var reported := ReportIf(UnresolvedHandler(world, h), UnknownHandler, sc.owner);
        ghost var body := BlockFlow(world, Open(sc), h.body, caught, bound);
        ghost var rest := HandlersFlow(world, Open(sc), handlers[i + 1..], remaining - caught, env);
        assert handlers[i..][1..] == handlers[i + 1..];
        PlusAwaiting(world, sc.stack, done, reported.Plus(body).Plus(rest));
        PlusAwaiting(world, sc.stack, reported.Plus(body), rest);
        PlusAwaiting(world, sc.stack, reported, body);
        var part := Block(sc, h.body, caught, bound);
        PlusAgrees(reported, reported, part, body);
        PlusAgrees(flow, done, reported.Plus(part), reported.Plus(body));
        PlusAssociative(done, reported.Plus(body), rest);
        flow := flow.Plus(reported.Plus(part));
        done := done.Plus(reported.Plus(body));
        remaining := remaining - caught;
      }
      PlusAgrees(flow, done, Escaping(remaining), Escaping(remaining));
      flow := flow.Plus(Escaping(remaining));
    }

    method ContextManager(sc: Scope, s: Stmt, index: nat, reraised: set<Name>, env: Env) returns (flow: Flow)
      requires s.With? && index <= |s.items|
      requires Valid() && Awaiting(world, sc.stack, ContextFlow(world, Open(sc), s, index, reraised, env))
      modifies this`summaries
      ensures Valid()
      ensures Agrees(flow, ContextFlow(world, Open(sc), s, index, reraised, env))
      decreases world.functions.Keys - sc.stack, 1, s, 0, |s.items| - index
    {
      if index == |s.items| {
        flow := Block(sc, s.body, reraised, env);
        return;
      }
      var item := s.items[index];
      ghost var managed := ExprFlow(world, Open(sc), item.context, false, false);
      ghost var inside := ContextFlow(world, Open(sc), s, index + 1, reraised, env);
      var target := ReportIf(!item.simple, ContextTarget, sc.owner);
      if !Supported(world, s.asynchronous, item) {
        var unsupported := Report(ContextProtocol, sc.owner);
        PlusAwaiting(world, sc.stack, managed.Plus(unsupported).Plus(target), inside);
        PlusAwaiting(world, sc.stack, managed.Plus(unsupported), target);
        PlusAwaiting(world, sc.stack, managed, unsupported);
        flow := Expression(sc, item.context, false, false);
        PlusAgrees(flow, managed, unsupported, unsupported);
        flow := flow.Plus(unsupported).Plus(target);
        PlusAgrees(flow, managed.Plus(unsupported).Plus(target), target, target);
        var inner := ContextManager(sc, s, index + 1, reraised, env);
        PlusAgrees(flow, managed.Plus(unsupported).Plus(target), inner, inside);
        flow := flow.Plus(inner);
        return;
      }
      ghost var entering := FunctionFlow(world, item.enter.value, false, {});
      if AlwaysRaises(world.functions[item.enter.value].body) {
        PlusAwaiting(world, sc.stack, managed, entering);
        flow := Expression(sc, item.context, false, false);
        var entered := Function(item.enter.value, sc.stack, false);
        PlusAgrees(flow, managed, entered, entering);
        flow := flow.Plus(entered);
        return;
      }
      ghost var leaving := FunctionFlow(world, item.exit.value, false, {});
      ghost var passing := Left(world, Open(sc), item.exit.value, inside);
      PlusAwaiting(world, sc.stack, managed.Plus(entering).Plus(target).Plus(passing), leaving);
      PlusAwaiting(world, sc.stack, managed.Plus(entering).Plus(target), passing);
      PlusAwaiting(world, sc.stack, managed.Plus(entering), target);
      PlusAwaiting(world, sc.stack, managed, entering);
      LeftAwaiting(world, sc, item.exit.value, inside);
      flow := Expression(sc, item.context, false, false);
      var entered := Function(item.enter.value, sc.stack, false);
      PlusAgrees(flow, managed, entered, entering);
      flow := flow.Plus(entered);
      PlusAgrees(flow, managed.Plus(entering), target, target);
      flow := flow.Plus(target);
      var inner := ContextManager(sc, s, index + 1, reraised, env);
      LeftAgrees(world, Open(sc), item.exit.value, inner, inside);
      PlusAgrees(flow, managed.Plus(entering).Plus(target), Left(world, Open(sc), item.exit.value, inner), passing);
      flow := flow.Plus(Left(world, Open(sc), item.exit.value, inner));
      var exited := Function(item.exit.value, sc.stack, false);
      PlusAgrees(flow, managed.Plus(entering).Plus(target).Plus(passing), exited, leaving);
      flow := flow.Plus(exited);
    }
  }

  lemma LeftAwaiting(w: World, sc: Scope, exit: Name, inner: Flow)
    requires exit in w.functions && Awaiting(w, sc.stack, Left(w, Open(sc), exit, inner))
    ensures Awaiting(w, sc.stack, inner)
  {
    if Left(w, Open(sc), exit, inner).Complete() { LeftComplete(w, Open(sc), exit, inner); }
  }

  lemma LeftAgrees(w: World, sc: Scope, exit: Name, inner: Flow, inside: Flow)
    requires exit in w.functions && Agrees(inner, inside)
    ensures Agrees(Left(w, sc, exit, inner), Left(w, sc, exit, inside))
  {
    if Left(w, sc, exit, inner).Complete() { LeftComplete(w, sc, exit, inner); }
    if Left(w, sc, exit, inside).Complete() { LeftComplete(w, sc, exit, inside); }
    var mode := Suppression(w.functions[exit].body);
    var reported := ReportIf(mode.None?, UnresolvedSuppression, sc.owner);
    if mode == Some(true) || AlwaysRaises(w.functions[exit].body) {
      PlusAgrees(reported, reported, inner.(escapes := {}), inside.(escapes := {}));
    } else {
      PlusAgrees(reported, reported, inner, inside);
    }
  }

  lemma TryAwaiting(w: World, sc: Scope, s: Stmt, reraised: set<Name>, env: Env)
    requires s.Try? && Awaiting(w, sc.stack, StmtFlow(w, Open(sc), s, reraised, env))
    ensures Awaiting(w, sc.stack, BlockFlow(w, Open(sc), s.body, reraised, env))
    ensures Awaiting(w, sc.stack, BlockFlow(w, Open(sc), s.orelse, reraised, env))
    ensures Awaiting(w, sc.stack, BlockFlow(w, Open(sc), s.finalbody, reraised, env))
  {
    if StmtFlow(w, Open(sc), s, reraised, env).Complete() { TryParts(w, Open(sc), s, reraised, env); }
  }

  // Handlers work on what the cached analysis of the body reported, which is exact when it matters.
  lemma TryHandlersAwaiting(w: World, sc: Scope, s: Stmt, reraised: set<Name>, env: Env, attempted: Flow)
    requires s.Try? && Awaiting(w, sc.stack, StmtFlow(w, Open(sc), s, reraised, env))
    requires Agrees(attempted, BlockFlow(w, Open(sc), s.body, reraised, env))
    ensures Awaiting(w, sc.stack, HandlersFlow(w, Open(sc), s.handlers, attempted.escapes, env))
  {
    if StmtFlow(w, Open(sc), s, reraised, env).Complete() { TryParts(w, Open(sc), s, reraised, env); }
  }

  lemma TryAgrees(
      w: World, sc: Scope, s: Stmt, reraised: set<Name>, env: Env, attempted: Flow, handled: Flow, orelse: Flow,
      finalbody: Flow)
    requires s.Try?
    requires Agrees(attempted, BlockFlow(w, Open(sc), s.body, reraised, env))
    requires Agrees(handled, HandlersFlow(w, Open(sc), s.handlers, attempted.escapes, env))
    requires Agrees(orelse, BlockFlow(w, Open(sc), s.orelse, reraised, env))
    requires Agrees(finalbody, BlockFlow(w, Open(sc), s.finalbody, reraised, env))
    ensures Agrees(attempted.(escapes := {}).Plus(handled).Plus(orelse).Plus(finalbody)
                   .Plus(ReportIf(MayReplace(s.finalbody), FinallyMayReplace, sc.owner)),
                   StmtFlow(w, Open(sc), s, reraised, env))
  {
    var a := BlockFlow(w, Open(sc), s.body, reraised, env);
    var b := HandlersFlow(w, Open(sc), s.handlers, a.escapes, env);
    var c := BlockFlow(w, Open(sc), s.orelse, reraised, env);
    var d := BlockFlow(w, Open(sc), s.finalbody, reraised, env);
    var e := ReportIf(MayReplace(s.finalbody), FinallyMayReplace, sc.owner);
    if a.Complete() {
      PlusAgrees(attempted.(escapes := {}), a.(escapes := {}), handled, b);
      PlusAgrees(attempted.(escapes := {}).Plus(handled), a.(escapes := {}).Plus(b), orelse, c);
      PlusAgrees(attempted.(escapes := {}).Plus(handled).Plus(orelse), a.(escapes := {}).Plus(b).Plus(c), finalbody, d);
      PlusAgrees(attempted.(escapes := {}).Plus(handled).Plus(orelse).Plus(finalbody),
                 a.(escapes := {}).Plus(b).Plus(c).Plus(d), e, e);
    } else {
      StaysIncomplete(attempted, handled, orelse, finalbody, e);
      StaysIncomplete(a, b, c, d, e);
    }
  }

  lemma StaysIncomplete(a: Flow, b: Flow, c: Flow, d: Flow, e: Flow)
    requires !a.Complete()
    ensures !a.(escapes := {}).Plus(b).Plus(c).Plus(d).Plus(e).Complete()
  {
    PlusComplete(a.(escapes := {}), b);
    PlusComplete(a.(escapes := {}).Plus(b), c);
    PlusComplete(a.(escapes := {}).Plus(b).Plus(c), d);
    PlusComplete(a.(escapes := {}).Plus(b).Plus(c).Plus(d), e);
  }
}
