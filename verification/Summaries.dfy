/**
 Why summaries may be reused: a flow with nothing unknown does not depend on the functions that were
 under analysis when it was computed, so an entry made under one stack answers under another.
 */
module Summaries {
  import opened Wrappers
  import opened Linearization
  import opened Hierarchy
  import opened Program
  import opened Flows
  import opened Soundness

  // The body of a function, analysed with nothing but itself on the stack.
  function BodyFlow(w: World, f: Name): Flow
    requires f in w.functions
  {
    BlockFlow(w, Scope(f, {f}), w.functions[f].body, {}, map[])
  }

  // Every visited function has a complete body that visits nothing else.
  ghost predicate Grounded(w: World, visited: set<Name>) {
    forall g :: g in visited ==> g in w.functions && BodyFlow(w, g).Complete() && BodyFlow(w, g).visited <= visited
  }

  // What a complete flow found under `stack` promises about the flow of the same code under `other`.
  ghost predicate Independent(w: World, flow: Flow, stack: set<Name>, under: Flow, other: set<Name>) {
    flow.Complete() ==>
      && flow.visited !! stack
      && (flow.visited !! other ==> under == flow)
      && Grounded(w, flow.visited)
  }

  lemma PlusIndependent(
      w: World, a: Flow, b: Flow, stack: set<Name>, a': Flow, b': Flow, other: set<Name>)
    requires Independent(w, a, stack, a', other) && Independent(w, b, stack, b', other)
    ensures Independent(w, a.Plus(b), stack, a'.Plus(b'), other)
  {
    PlusComplete(a, b);
  }

  // ----- independence, piece by piece

  lemma {:induction false} FunctionIndependent(w: World, f: Name, iterated: bool, stack: set<Name>, other: set<Name>)
    ensures Independent(w, FunctionFlow(w, f, iterated, stack), stack, FunctionFlow(w, f, iterated, other), other)
    decreases w.functions.Keys - stack, 0, 0
  {
    var flow := FunctionFlow(w, f, iterated, stack);
    if flow.Complete() {
      var function_ := w.functions[f];
      var decorated := ReportIf(Opaque in function_.decorators, UnresolvedDecorator, f);
      var start := decorated.Plus(Flow({}, {}, {f}));
      var body := BlockFlow(w, Scope(f, stack + {f}), function_.body, {}, map[]);
      PlusComplete(start, body);
      PlusComplete(decorated, Flow({}, {}, {f}));
      BlockIndependent(w, Scope(f, stack + {f}), function_.body, {}, map[], {f});
      BlockIndependent(w, Scope(f, stack + {f}), function_.body, {}, map[], other + {f});
      assert flow.visited == {f} + body.visited;
      assert BodyFlow(w, f) == body;
    }
  }

  lemma {:induction false} ExprIndependent(
      w: World, sc: Scope, e: Expr, awaited: bool, iterated: bool, other: set<Name>)
    ensures Independent(w, ExprFlow(w, sc, e, awaited, iterated), sc.stack,
                        ExprFlow(w, sc.(stack := other), e, awaited, iterated), other)
    decreases w.functions.Keys - sc.stack, 1, e, 0, 0
  {
    match e
    case Atom =>
    case Operands(parts) => ExprsIndependent(w, sc, parts, other);
    case Yield(value) => ExprIndependent(w, sc, value, false, false, other);
    case Await(value) => ExprIndependent(w, sc, value, true, iterated, other);
    case Call(arguments, callee) =>
      ExprsIndependent(w, sc, arguments, other);
      CalleeIndependent(w, sc, callee, awaited, iterated, other);
      PlusIndependent(w, ExprsFlow(w, sc, arguments), CalleeFlow(w, sc, callee, awaited, iterated), sc.stack,
                      ExprsFlow(w, sc.(stack := other), arguments),
                      CalleeFlow(w, sc.(stack := other), callee, awaited, iterated), other);
  }

  lemma {:induction false} ExprsIndependent(w: World, sc: Scope, es: seq<Expr>, other: set<Name>)
    ensures Independent(w, ExprsFlow(w, sc, es), sc.stack, ExprsFlow(w, sc.(stack := other), es), other)
    decreases w.functions.Keys - sc.stack, 1, es, 0, 0
  {
    if es != [] {
      ExprIndependent(w, sc, es[0], false, false, other);
      ExprsIndependent(w, sc, es[1..], other);
      PlusIndependent(w, ExprFlow(w, sc, es[0], false, false), ExprsFlow(w, sc, es[1..]), sc.stack,
                      ExprFlow(w, sc.(stack := other), es[0], false, false),
                      ExprsFlow(w, sc.(stack := other), es[1..]), other);
    }
  }

  lemma {:induction false} CalleeIndependent(
      w: World, sc: Scope, callee: Callee, awaited: bool, iterated: bool, other: set<Name>)
    ensures Independent(w, CalleeFlow(w, sc, callee, awaited, iterated), sc.stack,
                        CalleeFlow(w, sc.(stack := other), callee, awaited, iterated), other)
    decreases w.functions.Keys - sc.stack, 1, callee, 0, 0
  {
    var sc' := sc.(stack := other);
    match callee
    case BuiltinException =>
    case Definition(target, overridable) =>
      InvokedIndependent(w, sc, target, awaited, iterated, other);
      var reported := ReportIf(overridable, OverridableDispatch, sc.owner);
      PlusIndependent(w, reported, InvokedFlow(w, sc, target, awaited, iterated), sc.stack,
                      reported, InvokedFlow(w, sc', target, awaited, iterated), other);
    case Port(candidates) =>
      CandidatesIndependent(w, sc, candidates, awaited, iterated, other);
      var reported := ReportIf(candidates == [], UnboundPort, sc.owner);
      PlusIndependent(w, reported, CandidatesFlow(w, sc, candidates, awaited, iterated), sc.stack,
                      reported, CandidatesFlow(w, sc', candidates, awaited, iterated), other);
    case Construction(resolved, hooks) =>
      EachIndependent(w, sc, hooks, false, other);
      var reported := ReportIf(!resolved, UnresolvedConstruction, sc.owner);
      PlusIndependent(w, reported, EachFlow(w, sc, hooks, false), sc.stack,
                      reported, EachFlow(w, sc', hooks, false), other);
    case Library(receiver, callbacks) =>
      ExprsIndependent(w, sc, receiver, other);
      EachIndependent(w, sc, callbacks, true, other);
      PlusIndependent(w, ExprsFlow(w, sc, receiver), EachFlow(w, sc, callbacks, true), sc.stack,
                      ExprsFlow(w, sc', receiver), EachFlow(w, sc', callbacks, true), other);
    case Unresolved =>
  }

  lemma {:induction false} InvokedIndependent(
      w: World, sc: Scope, f: Name, awaited: bool, iterated: bool, other: set<Name>)
    ensures Independent(w, InvokedFlow(w, sc, f, awaited, iterated), sc.stack,
                        InvokedFlow(w, sc.(stack := other), f, awaited, iterated), other)
    decreases w.functions.Keys - sc.stack, 0, 1
  {
    if !Deferred(w, f, awaited, iterated) {
      FunctionIndependent(w, f, iterated && IsGenerator(w, f), sc.stack, other);
    }
  }

  lemma {:induction false} CandidatesIndependent(
      w: World, sc: Scope, candidates: seq<Option<Name>>, awaited: bool, iterated: bool, other: set<Name>)
    ensures Independent(w, CandidatesFlow(w, sc, candidates, awaited, iterated), sc.stack,
                        CandidatesFlow(w, sc.(stack := other), candidates, awaited, iterated), other)
    decreases w.functions.Keys - sc.stack, 0, 2 + |candidates|
  {
    if candidates != [] {
      var sc' := sc.(stack := other);
      CandidatesIndependent(w, sc, candidates[1..], awaited, iterated, other);
      var rest := CandidatesFlow(w, sc, candidates[1..], awaited, iterated);
      var rest' := CandidatesFlow(w, sc', candidates[1..], awaited, iterated);
      match candidates[0]
      case None =>
        var reported := Report(UnresolvedImplementation, sc.owner);
        PlusIndependent(w, reported, rest, sc.stack, reported, rest', other);
      case Some(f) =>
        InvokedIndependent(w, sc, f, awaited, iterated, other);
        PlusIndependent(w, InvokedFlow(w, sc, f, awaited, iterated), rest, sc.stack,
                        InvokedFlow(w, sc', f, awaited, iterated), rest', other);
    }
  }

  lemma {:induction false} EachIndependent(w: World, sc: Scope, fs: seq<Name>, callbacks: bool, other: set<Name>)
    ensures Independent(w, EachFlow(w, sc, fs, callbacks), sc.stack,
                        EachFlow(w, sc.(stack := other), fs, callbacks), other)
    decreases w.functions.Keys - sc.stack, 0, 2 + |fs|
  {
    if fs != [] {
      var sc' := sc.(stack := other);
      var iterated := callbacks && IsGenerator(w, fs[0]);
      FunctionIndependent(w, fs[0], iterated, sc.stack, other);
      EachIndependent(w, sc, fs[1..], callbacks, other);
      PlusIndependent(w, FunctionFlow(w, fs[0], iterated, sc.stack), EachFlow(w, sc, fs[1..], callbacks), sc.stack,
                      FunctionFlow(w, fs[0], iterated, other), EachFlow(w, sc', fs[1..], callbacks), other);
    }
  }

  lemma {:induction false} BlockIndependent(
      w: World, sc: Scope, body: seq<Stmt>, reraised: set<Name>, env: Env, other: set<Name>)
    ensures Independent(w, BlockFlow(w, sc, body, reraised, env), sc.stack,
                        BlockFlow(w, sc.(stack := other), body, reraised, env), other)
    decreases w.functions.Keys - sc.stack, 1, body, 0, 0
  {
    if body != [] {
      StmtIndependent(w, sc, body[0], reraised, env, other);
      if !Ends(body[0]) {
        BlockIndependent(w, sc, body[1..], reraised, env, other);
        PlusIndependent(w, StmtFlow(w, sc, body[0], reraised, env), BlockFlow(w, sc, body[1..], reraised, env), sc.stack,
                        StmtFlow(w, sc.(stack := other), body[0], reraised, env),
                        BlockFlow(w, sc.(stack := other), body[1..], reraised, env), other);
      }
    }
  }

  lemma {:induction false} StmtIndependent(
      w: World, sc: Scope, s: Stmt, reraised: set<Name>, env: Env, other: set<Name>)
    ensures Independent(w, StmtFlow(w, sc, s, reraised, env), sc.stack,
                        StmtFlow(w, sc.(stack := other), s, reraised, env), other)
    decreases w.functions.Keys - sc.stack, 1, s, 1, 0
  {
    var sc' := sc.(stack := other);
    match s
    case Evaluate(value) => ExprIndependent(w, sc, value, false, false, other);
    case Pass =>
    case Break =>
    case Continue =>
    case Return(result) => if result.Computed? { ExprIndependent(w, sc, result.value, false, false, other); }
    case Raise(parts, raised, _) =>
      ExprsIndependent(w, sc, parts, other);
      var named := if raised.Some? && IsException(w.classes, raised.value) then Escaping({raised.value})
                   else Report(UnresolvedRaise, sc.owner);
      PlusIndependent(w, ExprsFlow(w, sc, parts), named, sc.stack, ExprsFlow(w, sc', parts), named, other);
    case RaiseCaught(_) =>
    case Reraise =>
    case If(test, body, orelse) =>
      ExprIndependent(w, sc, test, false, false, other);
      ThreeIndependent(w, sc, ExprFlow(w, sc, test, false, false), ExprFlow(w, sc', test, false, false),
                       s, reraised, env, other);
    case Loop(head, each, body, orelse, _) =>
      ExprIndependent(w, sc, head, false, each, other);
      ThreeIndependent(w, sc, ExprFlow(w, sc, head, false, each), ExprFlow(w, sc', head, false, each),
                       s, reraised, env, other);
    case Try(_, _, _, _) => TryIndependent(w, sc, s, reraised, env, other);
    case With(_, _, _) => ContextIndependent(w, sc, s, 0, reraised, env, other);
    case LocalFunction(evaluated) => ExprsIndependent(w, sc, evaluated, other);
    case LocalClass(evaluated) => PlusComplete(ExprsFlow(w, sc, evaluated), Report(NestedClass, sc.owner));
    case Unsupported(body) =>
      PlusComplete(Report(UnsupportedStatement, sc.owner), Escaping(RaisedIn(w, Executed(body))));
  }

  lemma {:induction false} ThreeIndependent(
      w: World, sc: Scope, head: Flow, head': Flow, s: Stmt, reraised: set<Name>, env: Env, other: set<Name>)
    requires Independent(w, head, sc.stack, head', other)
    requires s.If? || s.Loop?
    ensures Independent(
      w, head.Plus(BlockFlow(w, sc, s.body, reraised, env)).Plus(BlockFlow(w, sc, s.orelse, reraised, env)), sc.stack,
      head'.Plus(BlockFlow(w, sc.(stack := other), s.body, reraised, env))
      .Plus(BlockFlow(w, sc.(stack := other), s.orelse, reraised, env)), other)
    decreases w.functions.Keys - sc.stack, 1, s, 0, 0
  {
    var sc' := sc.(stack := other);
    BlockIndependent(w, sc, s.body, reraised, env, other);
    BlockIndependent(w, sc, s.orelse, reraised, env, other);
    var first, first' := BlockFlow(w, sc, s.body, reraised, env), BlockFlow(w, sc', s.body, reraised, env);
    PlusIndependent(w, head, first, sc.stack, head', first', other);
    PlusIndependent(w, head.Plus(first), BlockFlow(w, sc, s.orelse, reraised, env), sc.stack,
                    head'.Plus(first'), BlockFlow(w, sc', s.orelse, reraised, env), other);
  }

  lemma {:induction false} TryIndependent(
      w: World, sc: Scope, s: Stmt, reraised: set<Name>, env: Env, other: set<Name>)
    requires s.Try?
    ensures Independent(w, StmtFlow(w, sc, s, reraised, env), sc.stack,
                        StmtFlow(w, sc.(stack := other), s, reraised, env), other)
    decreases w.functions.Keys - sc.stack, 1, s, 0, 0
  {
    hide BlockFlow, HandlersFlow;
    if StmtFlow(w, sc, s, reraised, env).Complete() {
      TryParts(w, sc, s, reraised, env);
      var attempted := BlockFlow(w, sc, s.body, reraised, env);
      BlockIndependent(w, sc, s.body, reraised, env, other);
      HandlersIndependent(w, sc, s.handlers, attempted.escapes, env, other);
      BlockIndependent(w, sc, s.orelse, reraised, env, other);
      BlockIndependent(w, sc, s.finalbody, reraised, env, other);
    }
  }

  lemma {:induction false} HandlersIndependent(
      w: World, sc: Scope, handlers: seq<Handler>, remaining: set<Name>, env: Env, other: set<Name>)
    ensures Independent(w, HandlersFlow(w, sc, handlers, remaining, env), sc.stack,
                        HandlersFlow(w, sc.(stack := other), handlers, remaining, env), other)
    decreases w.functions.Keys - sc.stack, 1, handlers, 0, 0
  {
    if handlers != [] {
      var sc' := sc.(stack := other);
      var h := handlers[0];
      var caught := CaughtBy(w, h, remaining);
      var bound := HandlerEnv(h, env, caught);
      var reported := ReportIf(UnresolvedHandler(w, h), UnknownHandler, sc.owner);
      BlockIndependent(w, sc, h.body, caught, bound, other);
      HandlersIndependent(w, sc, handlers[1..], remaining - caught, env, other);
      var body, body' := BlockFlow(w, sc, h.body, caught, bound), BlockFlow(w, sc', h.body, caught, bound);
      PlusIndependent(w, reported, body, sc.stack, reported, body', other);
      PlusIndependent(w, reported.Plus(body), HandlersFlow(w, sc, handlers[1..], remaining - caught, env), sc.stack,
                      reported.Plus(body'), HandlersFlow(w, sc', handlers[1..], remaining - caught, env), other);
    }
  }

  lemma {:induction false} ContextIndependent(
      w: World, sc: Scope, s: Stmt, index: nat, reraised: set<Name>, env: Env, other: set<Name>)
    requires s.With? && index <= |s.items|
    ensures Independent(w, ContextFlow(w, sc, s, index, reraised, env), sc.stack,
                        ContextFlow(w, sc.(stack := other), s, index, reraised, env), other)
    decreases w.functions.Keys - sc.stack, 1, s, 0, |s.items| - index
  {
    var sc' := sc.(stack := other);
    if index == |s.items| {
      BlockIndependent(w, sc, s.body, reraised, env, other);
      return;
    }
    var item := s.items[index];
    if Supported(w, s.asynchronous, item) {
      var managed, managed' := ExprFlow(w, sc, item.context, false, false), ExprFlow(w, sc', item.context, false, false);
      var enter, exit := item.enter.value, item.exit.value;
      ExprIndependent(w, sc, item.context, false, false, other);
      FunctionIndependent(w, enter, false, sc.stack, other);
      PlusIndependent(w, managed, FunctionFlow(w, enter, false, sc.stack), sc.stack,
                      managed', FunctionFlow(w, enter, false, other), other);
      if !AlwaysRaises(w.functions[enter].body) {
        ContextIndependent(w, sc, s, index + 1, reraised, env, other);
        FunctionIndependent(w, exit, false, sc.stack, other);
        LeavingIndependent(w, sc, item, other,
                           managed.Plus(FunctionFlow(w, enter, false, sc.stack)),
                           managed'.Plus(FunctionFlow(w, enter, false, other)),
                           ContextFlow(w, sc, s, index + 1, reraised, env),
                           ContextFlow(w, sc', s, index + 1, reraised, env));
      }
    } else if ContextFlow(w, sc, s, index, reraised, env).Complete() {
      ContextParts(w, sc, s, index, reraised, env);
    }
  }

  lemma LeavingIndependent(
      w: World, sc: Scope, item: Item, other: set<Name>, entered: Flow, entered': Flow, inner: Flow, inner': Flow)
    requires item.exit.Some? && item.exit.value in w.functions
    requires Independent(w, entered, sc.stack, entered', other) && Independent(w, inner, sc.stack, inner', other)
    requires Independent(w, FunctionFlow(w, item.exit.value, false, sc.stack), sc.stack,
                         FunctionFlow(w, item.exit.value, false, other), other)
    ensures var exit := item.exit.value;
            var target := ReportIf(!item.simple, ContextTarget, sc.owner);
            Independent(w, entered.Plus(target).Plus(Left(w, sc, exit, inner)).Plus(FunctionFlow(w, exit, false, sc.stack)),
                        sc.stack,
                        entered'.Plus(target).Plus(Left(w, sc.(stack := other), exit, inner'))
                        .Plus(FunctionFlow(w, exit, false, other)), other)
  {
    var exit := item.exit.value;
    var target := ReportIf(!item.simple, ContextTarget, sc.owner);
    var left, left' := Left(w, sc, exit, inner), Left(w, sc.(stack := other), exit, inner');
    if left.Complete() { LeftComplete(w, sc, exit, inner); }
    PlusIndependent(w, entered, target, sc.stack, entered', target, other);
    PlusIndependent(w, entered.Plus(target), left, sc.stack, entered'.Plus(target), left', other);
    PlusIndependent(w, entered.Plus(target).Plus(left), FunctionFlow(w, exit, false, sc.stack), sc.stack,
                    entered'.Plus(target).Plus(left'), FunctionFlow(w, exit, false, other), other);
  }

  // ----- agreement of a cached flow with the flow computed from scratch

  // Both decide the same question: with nothing unknown they are the same flow.
  ghost predicate Agrees(cached: Flow, fresh_: Flow) {
    && (cached.Complete() <==> fresh_.Complete())
    && (fresh_.Complete() ==> cached == fresh_)
  }

  // A function under analysis can only be complete if the code reached from it is, and visits no more.
  ghost predicate Awaiting(w: World, stack: set<Name>, flow: Flow) {
    forall s :: s in stack && s in w.functions && BodyFlow(w, s).Complete() ==>
      flow.Complete() && flow.visited <= BodyFlow(w, s).visited
  }

  lemma BodyVisits(w: World, f: Name)
    requires f in w.functions && BodyFlow(w, f).Complete()
    ensures f !in BodyFlow(w, f).visited
  {
    BlockIndependent(w, Scope(f, {f}), w.functions[f].body, {}, map[], {});
  }

  // What awaits a complete flow is not visited by it.
  lemma AwaitingDisjoint(w: World, stack: set<Name>, flow: Flow)
    requires Awaiting(w, stack, flow) && flow.Complete() && Grounded(w, flow.visited)
    ensures flow.visited !! stack
  {
    if g :| g in flow.visited && g in stack {
      BodyVisits(w, g);
      assert false;
    }
  }

  /** The analysis under the real call stack agrees with the analysis under an empty one. */
  lemma StackAgrees(w: World, f: Name, iterated: bool, stack: set<Name>)
    requires Awaiting(w, stack, FunctionFlow(w, f, iterated, {}))
    ensures Agrees(FunctionFlow(w, f, iterated, stack), FunctionFlow(w, f, iterated, {}))
  {
    FunctionIndependent(w, f, iterated, {}, stack);
    FunctionIndependent(w, f, iterated, stack, {});
    if FunctionFlow(w, f, iterated, {}).Complete() {
      AwaitingDisjoint(w, stack, FunctionFlow(w, f, iterated, {}));
    }
  }

  // The body of a function, analysed with nothing on the stack.
  function OpenBody(w: World, f: Name): Flow
    requires f in w.functions
  {
    BlockFlow(w, Scope(f, {}), w.functions[f].body, {}, map[])
  }

  lemma OpenBodyAgrees(w: World, f: Name)
    requires f in w.functions
    ensures Agrees(OpenBody(w, f), BodyFlow(w, f))
  {
    BlockIndependent(w, Scope(f, {}), w.functions[f].body, {}, map[], {f});
    BlockIndependent(w, Scope(f, {f}), w.functions[f].body, {}, map[], {});
  }

  lemma FunctionParts(w: World, f: Name, iterated: bool, stack: set<Name>)
    requires FunctionFlow(w, f, iterated, stack).Complete()
    ensures f in w.functions && f !in stack
    ensures f in FunctionFlow(w, f, iterated, stack).visited
  {
  }

  // A function on the stack cannot be complete when it is reached again.
  lemma CutIncomplete(w: World, f: Name, iterated: bool, stack: set<Name>)
    requires f in stack && Awaiting(w, stack, FunctionFlow(w, f, iterated, {}))
    ensures !FunctionFlow(w, f, iterated, {}).Complete()
  {
    if FunctionFlow(w, f, iterated, {}).Complete() {
      FunctionParts(w, f, iterated, {});
      FunctionIndependent(w, f, iterated, {}, {});
      AwaitingDisjoint(w, stack, FunctionFlow(w, f, iterated, {}));
    }
  }

  function Started(w: World, f: Name): Flow
    requires f in w.functions
  {
    ReportIf(Opaque in w.functions[f].decorators, UnresolvedDecorator, f).Plus(Flow({}, {}, {f}))
  }

  // Following a body: the functions that wait for the call now wait for its body, as does the function itself.
  lemma AwaitingBody(w: World, f: Name, iterated: bool, stack: set<Name>)
    requires Awaiting(w, stack, FunctionFlow(w, f, iterated, {}))
    requires f in w.functions
    requires FunctionFlow(w, f, iterated, {}) == Started(w, f).Plus(BodyFlow(w, f))
    ensures Awaiting(w, stack + {f}, OpenBody(w, f))
  {
    OpenBodyAgrees(w, f);
    PlusComplete(Started(w, f), BodyFlow(w, f));
  }

  lemma PlusAgrees(a: Flow, a': Flow, b: Flow, b': Flow)
    requires Agrees(a, a') && Agrees(b, b')
    ensures Agrees(a.Plus(b), a'.Plus(b'))
  {
    PlusComplete(a, b);
    PlusComplete(a', b');
  }

  lemma PlusAwaiting(w: World, stack: set<Name>, a: Flow, b: Flow)
    requires Awaiting(w, stack, a.Plus(b))
    ensures Awaiting(w, stack, a) && Awaiting(w, stack, b)
  {
    PlusComplete(a, b);
  }

  lemma PlusAssociative(a: Flow, b: Flow, c: Flow)
    ensures a.Plus(b).Plus(c) == a.Plus(b.Plus(c))
    ensures Empty.Plus(a) == a == a.Plus(Empty)
  {
  }
}
