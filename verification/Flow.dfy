/**
 What the checker computes for a piece of code, as functions without the summary cache.

 A flow is a set of exceptions and of things it could not decide; order, duplicates and traces of the
 source's lists are dropped. `visited` refines the modules that the source records as touched to the
 functions whose bodies were followed.
 */
module Flows {
  import opened Wrappers
  import opened Linearization
  import opened Hierarchy
  import opened Program

  datatype Problem =
    | RecursiveCall | AbstractImplementation | UnresolvedDecorator | DeferredGenerator | DeferredCoroutine
    | OverridableDispatch | UnresolvedImplementation | UnboundPort | UnresolvedConstruction | UnresolvedCall
    | UnresolvedReraise | UnresolvedRaise | UnknownHandler | FinallyMayReplace | ContextProtocol
    | ContextTarget | UnresolvedSuppression | NestedClass | UnsupportedStatement
    | RecursiveDependency | UnresolvedDependency

  datatype Unknown = Unknown(problem: Problem, owner: Name)

  datatype Flow = Flow(escapes: set<Name>, unknowns: set<Unknown>, visited: set<Name>) {
    // `_Flow.extend`
    function Plus(other: Flow): Flow {
      Flow(escapes + other.escapes, unknowns + other.unknowns, visited + other.visited)
    }

    predicate Complete() {
      unknowns == {}
    }

    predicate Cut() {
      exists u :: u in unknowns && u.problem.RecursiveCall?
    }
  }

  const Empty := Flow({}, {}, {})

  function Report(problem: Problem, f: Name): Flow {
    Flow({}, {Unknown(problem, f)}, {})
  }

  function ReportIf(condition: bool, problem: Problem, f: Name): Flow {
    if condition then Report(problem, f) else Empty
  }

  function Escaping(exceptions: set<Name>): Flow {
    Flow(exceptions, {}, {})
  }

  // The function being analysed and the functions whose bodies are under analysis.
  datatype Scope = Scope(owner: Name, stack: set<Name>)

  // Variables bound by handlers, with the one class they hold when that is known.
  type Env = map<string, Option<Name>>

  function Sole(exceptions: set<Name>): Option<Name> {
    if x :| x in exceptions && exceptions == {x} then Some(x) else None
  }

  function CaughtBy(w: World, h: Handler, remaining: set<Name>): set<Name> {
    set x | x in remaining && Catches(w, h, x)
  }

  function HandlerEnv(h: Handler, env: Env, caught: set<Name>): Env {
    if h.variable.Some? then env[h.variable.value := Sole(caught)] else env
  }

  function RaisedIn(w: World, nodes: seq<Stmt>): set<Name> {
    set s | s in nodes && s.Raise? && s.raised.Some? && IsException(w.classes, s.raised.value) :: s.raised.value
  }

  // `_Analyzer.function` without the cache.
  function FunctionFlow(w: World, f: Name, iterated: bool, stack: set<Name>): Flow
    decreases w.functions.Keys - stack, 0, 0
  {
    if f in stack then Report(RecursiveCall, f)
    else if f !in w.functions then Report(UnresolvedCall, f)
    else
      var definition := w.functions[f];
      if AbstractMethod in definition.decorators then Report(AbstractImplementation, f)
      else
        var decorated := ReportIf(Opaque in definition.decorators, UnresolvedDecorator, f);
        if !iterated && Generator(definition) then decorated.Plus(Report(DeferredGenerator, f))
        else
          decorated.Plus(Flow({}, {}, {f})).Plus(BlockFlow(w, Scope(f, stack + {f}), definition.body, {}, map[]))
  }

  function ExprFlow(w: World, sc: Scope, e: Expr, awaited: bool, iterated: bool): Flow
    decreases w.functions.Keys - sc.stack, 1, e, 0, 0
  {
    match e
    case Atom => Empty
    case Operands(parts) => ExprsFlow(w, sc, parts)
    case Yield(value) => ExprFlow(w, sc, value, false, false)
    case Await(value) => ExprFlow(w, sc, value, true, iterated)
    case Call(arguments, callee) =>
      ExprsFlow(w, sc, arguments).Plus(CalleeFlow(w, sc, callee, awaited, iterated))
  }

  function ExprsFlow(w: World, sc: Scope, es: seq<Expr>): Flow
    decreases w.functions.Keys - sc.stack, 1, es, 0, 0
  {
    if es == [] then Empty else ExprFlow(w, sc, es[0], false, false).Plus(ExprsFlow(w, sc, es[1..]))
  }

  function CalleeFlow(w: World, sc: Scope, callee: Callee, awaited: bool, iterated: bool): Flow
    decreases w.functions.Keys - sc.stack, 1, callee, 0, 0
  {
    match callee
    case BuiltinException => Empty
    case Definition(target, overridable) =>
      ReportIf(overridable, OverridableDispatch, sc.owner).Plus(InvokedFlow(w, sc, target, awaited, iterated))
    case Port(candidates) =>
      ReportIf(candidates == [], UnboundPort, sc.owner).Plus(CandidatesFlow(w, sc, candidates, awaited, iterated))
    case Construction(resolved, hooks) =>
      ReportIf(!resolved, UnresolvedConstruction, sc.owner).Plus(EachFlow(w, sc, hooks, false))
    case Library(receiver, callbacks) => ExprsFlow(w, sc, receiver).Plus(EachFlow(w, sc, callbacks, true))
    case Unresolved => Report(UnresolvedCall, sc.owner)
  }

  // `_call`
  function InvokedFlow(w: World, sc: Scope, f: Name, awaited: bool, iterated: bool): Flow
    decreases w.functions.Keys - sc.stack, 0, 1
  {
    if Deferred(w, f, awaited, iterated) then Report(DeferredCoroutine, sc.owner)
    else FunctionFlow(w, f, iterated && IsGenerator(w, f), sc.stack)
  }

  // `_dispatch`: the union over all candidates.
  function CandidatesFlow(w: World, sc: Scope, candidates: seq<Option<Name>>, awaited: bool, iterated: bool): Flow
    decreases w.functions.Keys - sc.stack, 0, 2 + |candidates|
  {
    if candidates == [] then Empty
    else
      (match candidates[0]
       case None => Report(UnresolvedImplementation, sc.owner)
       case Some(f) => InvokedFlow(w, sc, f, awaited, iterated))
      .Plus(CandidatesFlow(w, sc, candidates[1..], awaited, iterated))
  }

  // Constructor hooks, or callables handed to a library, which may iterate generators.
  function EachFlow(w: World, sc: Scope, fs: seq<Name>, callbacks: bool): Flow
    decreases w.functions.Keys - sc.stack, 0, 2 + |fs|
  {
    if fs == [] then Empty
    else
      FunctionFlow(w, fs[0], callbacks && IsGenerator(w, fs[0]), sc.stack).Plus(EachFlow(w, sc, fs[1..], callbacks))
  }

  // `_Analyzer.block`
  function BlockFlow(w: World, sc: Scope, body: seq<Stmt>, reraised: set<Name>, env: Env): Flow
    decreases w.functions.Keys - sc.stack, 1, body, 0, 0
  {
    if body == [] then Empty
    else if Ends(body[0]) then StmtFlow(w, sc, body[0], reraised, env)
    else StmtFlow(w, sc, body[0], reraised, env).Plus(BlockFlow(w, sc, body[1..], reraised, env))
  }

  function StmtFlow(w: World, sc: Scope, s: Stmt, reraised: set<Name>, env: Env): Flow
    decreases w.functions.Keys - sc.stack, 1, s, 1, 0
  {
    match s
    case Evaluate(value) => ExprFlow(w, sc, value, false, false)
    case Pass => Empty
    case Break => Empty
    case Continue => Empty
    case Return(result) => if result.Computed? then ExprFlow(w, sc, result.value, false, false) else Empty
    case Raise(parts, raised, _) =>
      ExprsFlow(w, sc, parts).Plus(
        if raised.Some? && IsException(w.classes, raised.value) then Escaping({raised.value})
        else Report(UnresolvedRaise, sc.owner))
    case RaiseCaught(variable) => CaughtFlow(w, sc, variable, env)
    case Reraise => if reraised != {} then Escaping(reraised) else Report(UnresolvedReraise, sc.owner)
    case If(test, body, orelse) =>
      ExprFlow(w, sc, test, false, false)
      .Plus(BlockFlow(w, sc, body, reraised, env)).Plus(BlockFlow(w, sc, orelse, reraised, env))
    case Loop(head, each, body, orelse, _) =>
      ExprFlow(w, sc, head, false, each)
      .Plus(BlockFlow(w, sc, body, reraised, env)).Plus(BlockFlow(w, sc, orelse, reraised, env))
    case Try(body, handlers, orelse, finalbody) =>
      var attempted := BlockFlow(w, sc, body, reraised, env);
      attempted.(escapes := {})
      .Plus(HandlersFlow(w, sc, handlers, attempted.escapes, env))
      .Plus(BlockFlow(w, sc, orelse, reraised, env))
      .Plus(BlockFlow(w, sc, finalbody, reraised, env))
      .Plus(ReportIf(MayReplace(finalbody), FinallyMayReplace, sc.owner))
    case With(_, _, _) => ContextFlow(w, sc, s, 0, reraised, env)
    case LocalFunction(evaluated) => ExprsFlow(w, sc, evaluated)
    case LocalClass(evaluated) => ExprsFlow(w, sc, evaluated).Plus(Report(NestedClass, sc.owner))
    case Unsupported(body) => Report(UnsupportedStatement, sc.owner).Plus(Escaping(RaisedIn(w, Executed(body))))
  }

  function CaughtFlow(w: World, sc: Scope, variable: string, env: Env): Flow {
    if variable in env && env[variable].Some? && IsException(w.classes, env[variable].value)
    then Escaping({env[variable].value})
    else Report(UnresolvedRaise, sc.owner)
  }

  // What handlers leave of `remaining` escapes, with whatever their own bodies raise.
  function HandlersFlow(w: World, sc: Scope, handlers: seq<Handler>, remaining: set<Name>, env: Env): Flow
    decreases w.functions.Keys - sc.stack, 1, handlers, 0, 0
  {
    if handlers == [] then Escaping(remaining)
    else
      var h := handlers[0];
      var caught := CaughtBy(w, h, remaining);
      ReportIf(UnresolvedHandler(w, h), UnknownHandler, sc.owner)
      .Plus(BlockFlow(w, sc, h.body, caught, HandlerEnv(h, env, caught)))
      .Plus(HandlersFlow(w, sc, handlers[1..], remaining - caught, env))
  }

  // `_context_manager`: the items from `index` on, then the body.
  function ContextFlow(w: World, sc: Scope, s: Stmt, index: nat, reraised: set<Name>, env: Env): Flow
    requires s.With? && index <= |s.items|
    decreases w.functions.Keys - sc.stack, 1, s, 0, |s.items| - index
  {
    if index == |s.items| then BlockFlow(w, sc, s.body, reraised, env)
    else
      var item := s.items[index];
      var managed := ExprFlow(w, sc, item.context, false, false);
      if !Supported(w, s.asynchronous, item) then
        managed.Plus(Report(ContextProtocol, sc.owner)).Plus(ReportIf(!item.simple, ContextTarget, sc.owner))
        .Plus(ContextFlow(w, sc, s, index + 1, reraised, env))
      else
        var entered := managed.Plus(FunctionFlow(w, item.enter.value, false, sc.stack));
        if AlwaysRaises(w.functions[item.enter.value].body) then entered
        else
          entered.Plus(ReportIf(!item.simple, ContextTarget, sc.owner))
          .Plus(Left(w, sc, item.exit.value, ContextFlow(w, sc, s, index + 1, reraised, env)))
          .Plus(FunctionFlow(w, item.exit.value, false, sc.stack))
  }

  // What passes an exit method: nothing when it always suppresses or always raises itself.
  function Left(w: World, sc: Scope, exit: Name, inner: Flow): Flow
    requires exit in w.functions
  {
    var mode := Suppression(w.functions[exit].body);
    ReportIf(mode.None?, UnresolvedSuppression, sc.owner)
    .Plus(if mode == Some(true) || AlwaysRaises(w.functions[exit].body) then inner.(escapes := {}) else inner)
  }
}
