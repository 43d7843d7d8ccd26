/**
 How programs run. Data is not tracked, so a run may take either branch, repeat a loop any number of
 times, dispatch to any candidate, and fail implicitly (an `int(value)` that does not parse, a
 cancelled task) at any point. `n` bounds the height of a run; every run has some height.

 A run that reaches code the checker reports as unknown may end in any way that the code can syntactically end.
 */
module Semantics {
  import opened Wrappers
  import opened Linearization
  import opened Program

  // `explicit`: the value was created by a raise statement of the program that named its class.
  datatype Thrown = Thrown(exception: Name, explicit: bool)

  datatype Outcome = Normal | Returned(truthy: bool) | Broke | Continued | Threw(thrown: Thrown)

  // The exception being handled, if any, and the values that handlers bound to variables.
  datatype Frame = Frame(handling: Option<Thrown>, variables: map<string, Thrown>)

  ghost predicate Implicit(out: Outcome) {
    out.Threw? && !out.thrown.explicit
  }

  ghost predicate Evaluated(out: Outcome) {
    out.Normal? || out.Threw?
  }

  ghost predicate ExprRuns(w: World, n: nat, e: Expr, awaited: bool, iterated: bool, c: Frame, out: Outcome)
    decreases n
  {
    n > 0 && (
      || Implicit(out)
      || match e
         case Atom => out.Normal?
         case Operands(parts) => ExprsRun(w, n - 1, parts, c, out)
         case Yield(value) => ExprRuns(w, n - 1, value, false, false, c, out)
         case Await(value) => ExprRuns(w, n - 1, value, true, iterated, c, out)
         case Call(arguments, callee) =>
           || (ExprsRun(w, n - 1, arguments, c, out) && out.Threw?)
           || (ExprsRun(w, n - 1, arguments, c, Normal) && CalleeRuns(w, n - 1, callee, awaited, iterated, c, out))
    )
  }

  // Expressions in order, up to the first that throws.
  ghost predicate ExprsRun(w: World, n: nat, es: seq<Expr>, c: Frame, out: Outcome)
    decreases n
  {
    n > 0 &&
    if es == [] then out.Normal?
    else
      || (ExprRuns(w, n - 1, es[0], false, false, c, out) && out.Threw?)
      || (ExprRuns(w, n - 1, es[0], false, false, c, Normal) && ExprsRun(w, n - 1, es[1..], c, out))
  }

  ghost predicate CalleeRuns(w: World, n: nat, callee: Callee, awaited: bool, iterated: bool, c: Frame, out: Outcome)
    decreases n
  {
    n > 0 &&
    match callee
    case BuiltinException => out.Normal?
    case Definition(target, overridable) =>
      if overridable then Evaluated(out) else Invoked(w, n - 1, target, awaited, iterated, c, out)
    case Port(candidates) =>
      if candidates == [] || None in candidates then Evaluated(out)
      else exists target :: Some(target) in candidates && Invoked(w, n - 1, target, awaited, iterated, c, out)
    case Construction(resolved, hooks) =>
      if !resolved then Evaluated(out)
      else out.Normal? || exists f :: f in hooks && CallRuns(w, n - 1, f, false, c, out)
    case Library(receiver, callbacks) =>
      || (ExprsRun(w, n - 1, receiver, c, out) && out.Threw?)
      || out.Normal?
      || exists f :: f in callbacks && CallRuns(w, n - 1, f, IsGenerator(w, f), c, out)
    case Unresolved => Evaluated(out)
  }

  ghost predicate Invoked(w: World, n: nat, f: Name, awaited: bool, iterated: bool, c: Frame, out: Outcome)
    decreases n
  {
    n > 0 &&
    if Deferred(w, f, awaited, iterated) then Evaluated(out)
    else CallRuns(w, n - 1, f, iterated && IsGenerator(w, f), c, out)
  }

  // A call as an expression: what it returns is not tracked.
  ghost predicate CallRuns(w: World, n: nat, f: Name, iterated: bool, c: Frame, out: Outcome)
    decreases n
  {
    n > 0 && (
      || (out.Threw? && FunctionRuns(w, n - 1, f, iterated, c, out))
      || (out.Normal? && exists truthy :: FunctionRuns(w, n - 1, f, iterated, c, Returned(truthy)))
    )
  }

  // A function of the program; an exception being handled by the caller stays visible to the callee.
  ghost predicate FunctionRuns(w: World, n: nat, f: Name, iterated: bool, c: Frame, out: Outcome)
    decreases n
  {
    n > 0 &&
    if f !in w.functions then out.Threw? || out.Returned?
    else
      var called := w.functions[f];
      if AbstractMethod in called.decorators || Opaque in called.decorators then out.Threw? || out.Returned?
      else if Generator(called) && !iterated then out.Threw? || out.Returned?
      else
        var inner := Frame(c.handling, map[]);
        || (out.Threw? && BlockRuns(w, n - 1, called.body, inner, out))
        || (out.Returned? && BlockRuns(w, n - 1, called.body, inner, out))
        || (out == Returned(false) && BlockRuns(w, n - 1, called.body, inner, Normal))
        || (out == Returned(false) && Generator(called))  // a consumer may stop early
  }

  ghost predicate BlockRuns(w: World, n: nat, body: seq<Stmt>, c: Frame, out: Outcome)
    decreases n
  {
    n > 0 &&
    if body == [] then out.Normal?
    else
      || (StmtRuns(w, n - 1, body[0], c, out) && !out.Normal?)
      || (StmtRuns(w, n - 1, body[0], c, Normal) && BlockRuns(w, n - 1, body[1..], c, out))
  }

  ghost predicate ResultIs(result: Result, truthy: bool) {
    match result
    case TrueValue => truthy
    case Computed(_) => true
    case _ => !truthy
  }

  ghost predicate StmtRuns(w: World, n: nat, s: Stmt, c: Frame, out: Outcome)
    decreases n
  {
    n > 0 && (
      || Implicit(out)
      || match s
         case Evaluate(value) => ExprRuns(w, n - 1, value, false, false, c, out)
         case Pass => out.Normal?
         case Break => out.Broke?
         case Continue => out.Continued?
         case Return(result) =>
           || (out.Returned? && ResultIs(result, out.truthy)
               && (result.Computed? ==> ExprRuns(w, n - 1, result.value, false, false, c, Normal)))
           || (out.Threw? && result.Computed? && ExprRuns(w, n - 1, result.value, false, false, c, out))
         case Raise(parts, raised, implicit) =>
           || (out.Threw? && ExprsRun(w, n - 1, parts, c, out))
           || (out.Threw? && ImplicitRuns(w, n - 1, implicit, c, out))
           || (out.Threw? && ExprsRun(w, n - 1, parts, c, Normal)
               && (raised.Some? ==> out.thrown == Thrown(raised.value, true)))
         case RaiseCaught(variable) =>
           out.Threw? && (variable in c.variables ==> out.thrown == c.variables[variable])
         case Reraise => out.Threw? && c.handling == Some(out.thrown)
         case If(test, body, orelse) =>
           || (out.Threw? && ExprRuns(w, n - 1, test, false, false, c, out))
           || BlockRuns(w, n - 1, body, c, out)
           || BlockRuns(w, n - 1, orelse, c, out)
         case Loop(head, each, body, orelse, implicit) => LoopRuns(w, n - 1, head, each, body, orelse, implicit, c, out)
         case Try(body, handlers, orelse, finalbody) => TryRuns(w, n - 1, body, handlers, orelse, finalbody, c, out)
         case With(asynchronous, items, body) => WithRuns(w, n - 1, asynchronous, items, body, c, out)
         case LocalFunction(evaluated) => ExprsRun(w, n - 1, evaluated, c, out)
         case LocalClass(evaluated) => Evaluated(out)
         case Unsupported(body) =>
           out.Returned? ==> exists r :: r in Executed(body) && r.Return? && ResultIs(r.result, out.truthy)
    )
  }

  // A method that the interpreter calls throws; a generator among them runs as it is iterated.
  ghost predicate ImplicitRuns(w: World, n: nat, implicit: seq<Name>, c: Frame, out: Outcome)
    decreases n
  {
    n > 0 && exists f :: f in implicit && CallRuns(w, n - 1, f, IsGenerator(w, f), c, out)
  }

  // Each round advances the iterator or evaluates the test, then runs the body or leaves through `orelse`.
  ghost predicate LoopRuns(
      w: World, n: nat, head: Expr, each: bool, body: seq<Stmt>, orelse: seq<Stmt>, implicit: seq<Name>, c: Frame,
      out: Outcome)
    decreases n
  {
    n > 0 && (
      || (out.Threw? && ExprRuns(w, n - 1, head, false, each, c, out))
      || (out.Threw? && ImplicitRuns(w, n - 1, implicit, c, out))
      || BlockRuns(w, n - 1, orelse, c, out)
      || (out.Normal? && BlockRuns(w, n - 1, body, c, Broke))
      || ((out.Returned? || out.Threw?) && BlockRuns(w, n - 1, body, c, out))
      || ((BlockRuns(w, n - 1, body, c, Normal) || BlockRuns(w, n - 1, body, c, Continued))
          && LoopRuns(w, n - 1, head, each, body, orelse, implicit, c, out))
    )
  }

  function Handling(c: Frame, out: Outcome): Frame {
    if out.Threw? then c.(handling := Some(out.thrown)) else c
  }

  // The statements up to `finally`, then `finally`, which replaces their outcome unless it ends normally.
  ghost predicate TryRuns(
      w: World, n: nat, body: seq<Stmt>, handlers: seq<Handler>, orelse: seq<Stmt>, finalbody: seq<Stmt>, c: Frame,
      out: Outcome)
    decreases n
  {
    n > 0 && (
      || (GuardedRuns(w, n - 1, body, handlers, orelse, c, out)
          && BlockRuns(w, n - 1, finalbody, Handling(c, out), Normal))
      || (!out.Normal? && exists inner ::
            && GuardedRuns(w, n - 1, body, handlers, orelse, c, inner)
            && BlockRuns(w, n - 1, finalbody, Handling(c, inner), out))
    )
  }

  ghost predicate GuardedRuns(
      w: World, n: nat, body: seq<Stmt>, handlers: seq<Handler>, orelse: seq<Stmt>, c: Frame, out: Outcome)
    decreases n
  {
    n > 0 && (
      || (BlockRuns(w, n - 1, body, c, out) && !out.Normal? && !out.Threw?)
      || (BlockRuns(w, n - 1, body, c, Normal) && BlockRuns(w, n - 1, orelse, c, out))
      || exists thrown ::
           && BlockRuns(w, n - 1, body, c, Threw(thrown))
           && HandlersRun(w, n - 1, handlers, thrown, c, out)
    )
  }

  // An explicitly raised exception meets a resolved handler by class; otherwise either may happen.
  ghost predicate MayMatch(w: World, h: Handler, thrown: Thrown) {
    thrown.explicit && !UnresolvedHandler(w, h) ==> Catches(w, h, thrown.exception)
  }

  ghost predicate MayMiss(w: World, h: Handler, thrown: Thrown) {
    !h.catchAll && (thrown.explicit && !UnresolvedHandler(w, h) ==> !Catches(w, h, thrown.exception))
  }

  function Bound(c: Frame, h: Handler, thrown: Thrown): Frame {
    Frame(Some(thrown), if h.variable.Some? then c.variables[h.variable.value := thrown] else c.variables)
  }

  // The first handler that matches takes the exception.
  ghost predicate HandlersRun(w: World, n: nat, handlers: seq<Handler>, thrown: Thrown, c: Frame, out: Outcome)
    decreases n
  {
    n > 0 &&
    if handlers == [] then out == Threw(thrown)
    else
      || (MayMatch(w, handlers[0], thrown) && BlockRuns(w, n - 1, handlers[0].body, Bound(c, handlers[0], thrown), out))
      || (MayMiss(w, handlers[0], thrown) && HandlersRun(w, n - 1, handlers[1..], thrown, c, out))
  }

  ghost predicate WithRuns(
      w: World, n: nat, asynchronous: bool, items: seq<Item>, body: seq<Stmt>, c: Frame, out: Outcome)
    decreases n
  {
    n > 0 &&
    if items == [] then BlockRuns(w, n - 1, body, c, out)
    else
      || (out.Threw? && ExprRuns(w, n - 1, items[0].context, false, false, c, out))
      || (if !Supported(w, asynchronous, items[0]) then
            Evaluated(out) || WithRuns(w, n - 1, asynchronous, items[1..], body, c, out)
          else
            || (out.Threw? && FunctionRuns(w, n - 1, items[0].enter.value, false, c, out))
            || (CallRuns(w, n - 1, items[0].enter.value, false, c, Normal) && exists inner ::
                  && WithRuns(w, n - 1, asynchronous, items[1..], body, c, inner)
                  && ExitRuns(w, n - 1, items[0].exit.value, inner, Handling(c, inner), out)))
  }

  // The exit method always runs: it may throw, or return a true value to suppress an exception.
  ghost predicate ExitRuns(w: World, n: nat, exit: Name, inner: Outcome, c: Frame, out: Outcome)
    decreases n
  {
    n > 0 && (
      || (out.Threw? && FunctionRuns(w, n - 1, exit, false, c, out))
      || (inner.Threw? && out.Normal? && FunctionRuns(w, n - 1, exit, false, c, Returned(true)))
      || (inner.Threw? && out == inner && FunctionRuns(w, n - 1, exit, false, c, Returned(false)))
      || (!inner.Threw? && out == inner && CallRuns(w, n - 1, exit, false, c, Normal))
    )
  }
}
