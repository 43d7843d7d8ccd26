/**
 Code that control can pass: which expressions, statements and functions have a run that ends normally, whatever
 the data, and that a run of some height is one of every greater height.
 */
module Passing {
  import opened Wrappers
  import opened Linearization
  import opened Program
  import opened Semantics

  // ----- a run of some height is one of every greater height

  lemma {:induction false} ExprMore(
      w: World, n: nat, m: nat, e: Expr, awaited: bool, iterated: bool, c: Frame, out: Outcome)
    requires n <= m && ExprRuns(w, n, e, awaited, iterated, c, out)
    ensures ExprRuns(w, m, e, awaited, iterated, c, out)
    decreases n
  {
    if Implicit(out) { return; }
    match e
    case Atom =>
    case Operands(parts) => ExprsMore(w, n - 1, m - 1, parts, c, out);
    case Yield(value) => ExprMore(w, n - 1, m - 1, value, false, false, c, out);
    case Await(value) => ExprMore(w, n - 1, m - 1, value, true, iterated, c, out);
    case Call(arguments, callee) =>
      if ExprsRun(w, n - 1, arguments, c, out) && out.Threw? {
        ExprsMore(w, n - 1, m - 1, arguments, c, out);
      } else {
        ExprsMore(w, n - 1, m - 1, arguments, c, Normal);
        CalleeMore(w, n - 1, m - 1, callee, awaited, iterated, c, out);
      }
  }

  lemma {:induction false} ExprsMore(w: World, n: nat, m: nat, es: seq<Expr>, c: Frame, out: Outcome)
    requires n <= m && ExprsRun(w, n, es, c, out)
    ensures ExprsRun(w, m, es, c, out)
    decreases n
  {
    if es != [] {
      if ExprRuns(w, n - 1, es[0], false, false, c, out) && out.Threw? {
        ExprMore(w, n - 1, m - 1, es[0], false, false, c, out);
      } else {
        ExprMore(w, n - 1, m - 1, es[0], false, false, c, Normal);
        ExprsMore(w, n - 1, m - 1, es[1..], c, out);
      }
    }
  }

  lemma {:induction false} CalleeMore(
      w: World, n: nat, m: nat, callee: Callee, awaited: bool, iterated: bool, c: Frame, out: Outcome)
    requires n <= m && CalleeRuns(w, n, callee, awaited, iterated, c, out)
    ensures CalleeRuns(w, m, callee, awaited, iterated, c, out)
    decreases n
  {
    match callee
    case Definition(target, overridable) =>
      if !overridable { InvokedMore(w, n - 1, m - 1, target, awaited, iterated, c, out); }
    case Port(candidates) =>
      if candidates != [] && None !in candidates {
        var target :| Some(target) in candidates && Invoked(w, n - 1, target, awaited, iterated, c, out);
        InvokedMore(w, n - 1, m - 1, target, awaited, iterated, c, out);
      }
    case Construction(resolved, hooks) =>
      if resolved && !out.Normal? {
        var f :| f in hooks && CallRuns(w, n - 1, f, false, c, out);
        CallMore(w, n - 1, m - 1, f, false, c, out);
      }
    case Library(receiver, callbacks) =>
      if ExprsRun(w, n - 1, receiver, c, out) && out.Threw? {
        ExprsMore(w, n - 1, m - 1, receiver, c, out);
      } else if !out.Normal? {
        var f :| f in callbacks && CallRuns(w, n - 1, f, IsGenerator(w, f), c, out);
        CallMore(w, n - 1, m - 1, f, IsGenerator(w, f), c, out);
      }
    case _ =>
  }

  lemma {:induction false} InvokedMore(
      w: World, n: nat, m: nat, f: Name, awaited: bool, iterated: bool, c: Frame, out: Outcome)
    requires n <= m && Invoked(w, n, f, awaited, iterated, c, out)
    ensures Invoked(w, m, f, awaited, iterated, c, out)
    decreases n
  {
    if !Deferred(w, f, awaited, iterated) { CallMore(w, n - 1, m - 1, f, iterated && IsGenerator(w, f), c, out); }
  }

  lemma {:induction false} CallMore(w: World, n: nat, m: nat, f: Name, iterated: bool, c: Frame, out: Outcome)
    requires n <= m && CallRuns(w, n, f, iterated, c, out)
    ensures CallRuns(w, m, f, iterated, c, out)
    decreases n
  {
    if out.Threw? {
      FunctionMore(w, n - 1, m - 1, f, iterated, c, out);
    } else {
      var truthy :| FunctionRuns(w, n - 1, f, iterated, c, Returned(truthy));
      FunctionMore(w, n - 1, m - 1, f, iterated, c, Returned(truthy));
    }
  }

  lemma {:induction false} FunctionMore(w: World, n: nat, m: nat, f: Name, iterated: bool, c: Frame, out: Outcome)
    requires n <= m && FunctionRuns(w, n, f, iterated, c, out)
    ensures FunctionRuns(w, m, f, iterated, c, out)
    decreases n
  {
    if f in w.functions {
      var body, inner := w.functions[f].body, Frame(c.handling, map[]);
      if BlockRuns(w, n - 1, body, inner, out) { BlockMore(w, n - 1, m - 1, body, inner, out); }
      if BlockRuns(w, n - 1, body, inner, Normal) { BlockMore(w, n - 1, m - 1, body, inner, Normal); }
    }
  }

  lemma {:induction false} BlockMore(w: World, n: nat, m: nat, body: seq<Stmt>, c: Frame, out: Outcome)
    requires n <= m && BlockRuns(w, n, body, c, out)
    ensures BlockRuns(w, m, body, c, out)
    decreases n
  {
    if body != [] {
      if StmtRuns(w, n - 1, body[0], c, out) && !out.Normal? {
        StmtMore(w, n - 1, m - 1, body[0], c, out);
      } else {
        StmtMore(w, n - 1, m - 1, body[0], c, Normal);
        BlockMore(w, n - 1, m - 1, body[1..], c, out);
      }
    }
  }

  lemma {:induction false} StmtMore(w: World, n: nat, m: nat, s: Stmt, c: Frame, out: Outcome)
    requires n <= m && StmtRuns(w, n, s, c, out)
    ensures StmtRuns(w, m, s, c, out)
    decreases n
  {
    if Implicit(out) { return; }
    match s
    case Evaluate(value) => ExprMore(w, n - 1, m - 1, value, false, false, c, out);
    case Return(result) =>
      if out.Threw? {
        ExprMore(w, n - 1, m - 1, result.value, false, false, c, out);
      } else if result.Computed? {
        ExprMore(w, n - 1, m - 1, result.value, false, false, c, Normal);
      }
    case Raise(parts, raised, implicit) => RaiseMore(w, n, m, parts, raised, implicit, c, out);
    case If(test, body, orelse) =>
      if out.Threw? && ExprRuns(w, n - 1, test, false, false, c, out) {
        ExprMore(w, n - 1, m - 1, test, false, false, c, out);
      } else if BlockRuns(w, n - 1, body, c, out) {
        BlockMore(w, n - 1, m - 1, body, c, out);
      } else {
        BlockMore(w, n - 1, m - 1, orelse, c, out);
      }
    case Loop(head, each, body, orelse, implicit) =>
      LoopMore(w, n - 1, m - 1, head, each, body, orelse, implicit, c, out);
    case Try(body, handlers, orelse, finalbody) =>
      TryMore(w, n - 1, m - 1, body, handlers, orelse, finalbody, c, out);
    case With(asynchronous, items, body) => WithMore(w, n - 1, m - 1, asynchronous, items, body, c, out);
    case LocalFunction(evaluated) => ExprsMore(w, n - 1, m - 1, evaluated, c, out);
    case _ =>
  }

  lemma {:induction false} RaiseMore(
      w: World, n: nat, m: nat, parts: seq<Expr>, raised: Option<Name>, implicit: seq<Name>, c: Frame, out: Outcome)
    requires n <= m && StmtRuns(w, n, Raise(parts, raised, implicit), c, out) && !Implicit(out)
    ensures StmtRuns(w, m, Raise(parts, raised, implicit), c, out)
    decreases n, 0
  {
    if ExprsRun(w, n - 1, parts, c, out) {
      ExprsMore(w, n - 1, m - 1, parts, c, out);
    } else if ImplicitRuns(w, n - 1, implicit, c, out) {
      ImplicitMore(w, n - 1, m - 1, implicit, c, out);
    } else {
      ExprsMore(w, n - 1, m - 1, parts, c, Normal);
    }
  }

  lemma {:induction false} ImplicitMore(w: World, n: nat, m: nat, implicit: seq<Name>, c: Frame, out: Outcome)
    requires n <= m && ImplicitRuns(w, n, implicit, c, out)
    ensures ImplicitRuns(w, m, implicit, c, out)
    decreases n
  {
    var f :| f in implicit && CallRuns(w, n - 1, f, IsGenerator(w, f), c, out);
    CallMore(w, n - 1, m - 1, f, IsGenerator(w, f), c, out);
  }

  lemma {:induction false} LoopMore(
      w: World, n: nat, m: nat, head: Expr, each: bool, body: seq<Stmt>, orelse: seq<Stmt>, implicit: seq<Name>,
      c: Frame, out: Outcome)
    requires n <= m && LoopRuns(w, n, head, each, body, orelse, implicit, c, out)
    ensures LoopRuns(w, m, head, each, body, orelse, implicit, c, out)
    decreases n
  {
    if out.Threw? && ExprRuns(w, n - 1, head, false, each, c, out) {
      ExprMore(w, n - 1, m - 1, head, false, each, c, out);
    } else if out.Threw? && ImplicitRuns(w, n - 1, implicit, c, out) {
      ImplicitMore(w, n - 1, m - 1, implicit, c, out);
    } else if BlockRuns(w, n - 1, orelse, c, out) {
      BlockMore(w, n - 1, m - 1, orelse, c, out);
    } else if out.Normal? && BlockRuns(w, n - 1, body, c, Broke) {
      BlockMore(w, n - 1, m - 1, body, c, Broke);
    } else if (out.Returned? || out.Threw?) && BlockRuns(w, n - 1, body, c, out) {
      BlockMore(w, n - 1, m - 1, body, c, out);
    } else {
      LoopMore(w, n - 1, m - 1, head, each, body, orelse, implicit, c, out);
      if BlockRuns(w, n - 1, body, c, Normal) {
        BlockMore(w, n - 1, m - 1, body, c, Normal);
      } else {
        BlockMore(w, n - 1, m - 1, body, c, Continued);
      }
    }
  }

  lemma {:induction false} TryMore(
      w: World, n: nat, m: nat, body: seq<Stmt>, handlers: seq<Handler>, orelse: seq<Stmt>, finalbody: seq<Stmt>,
      c: Frame, out: Outcome)
    requires n <= m && TryRuns(w, n, body, handlers, orelse, finalbody, c, out)
    ensures TryRuns(w, m, body, handlers, orelse, finalbody, c, out)
    decreases n
  {
    if GuardedRuns(w, n - 1, body, handlers, orelse, c, out) && BlockRuns(w, n - 1, finalbody, Handling(c, out), Normal) {
      GuardedMore(w, n - 1, m - 1, body, handlers, orelse, c, out);
      BlockMore(w, n - 1, m - 1, finalbody, Handling(c, out), Normal);
    } else {
      var inner :|
        && GuardedRuns(w, n - 1, body, handlers, orelse, c, inner)
        && BlockRuns(w, n - 1, finalbody, Handling(c, inner), out);
      GuardedMore(w, n - 1, m - 1, body, handlers, orelse, c, inner);
      BlockMore(w, n - 1, m - 1, finalbody, Handling(c, inner), out);
    }
  }

  lemma {:induction false} GuardedMore(
      w: World, n: nat, m: nat, body: seq<Stmt>, handlers: seq<Handler>, orelse: seq<Stmt>, c: Frame, out: Outcome)
    requires n <= m && GuardedRuns(w, n, body, handlers, orelse, c, out)
    ensures GuardedRuns(w, m, body, handlers, orelse, c, out)
    decreases n
  {
    if BlockRuns(w, n - 1, body, c, out) && !out.Normal? && !out.Threw? {
      BlockMore(w, n - 1, m - 1, body, c, out);
    } else if BlockRuns(w, n - 1, body, c, Normal) && BlockRuns(w, n - 1, orelse, c, out) {
      BlockMore(w, n - 1, m - 1, body, c, Normal);
      BlockMore(w, n - 1, m - 1, orelse, c, out);
    } else {
      var thrown :| BlockRuns(w, n - 1, body, c, Threw(thrown)) && HandlersRun(w, n - 1, handlers, thrown, c, out);
      BlockMore(w, n - 1, m - 1, body, c, Threw(thrown));
      HandlersMore(w, n - 1, m - 1, handlers, thrown, c, out);
    }
  }

  lemma {:induction false} HandlersMore(
      w: World, n: nat, m: nat, handlers: seq<Handler>, thrown: Thrown, c: Frame, out: Outcome)
    requires n <= m && HandlersRun(w, n, handlers, thrown, c, out)
    ensures HandlersRun(w, m, handlers, thrown, c, out)
    decreases n
  {
    if handlers != [] {
      var h := handlers[0];
      if MayMatch(w, h, thrown) && BlockRuns(w, n - 1, h.body, Bound(c, h, thrown), out) {
        BlockMore(w, n - 1, m - 1, h.body, Bound(c, h, thrown), out);
      } else {
        HandlersMore(w, n - 1, m - 1, handlers[1..], thrown, c, out);
      }
    }
  }

  lemma {:induction false} WithMore(
      w: World, n: nat, m: nat, asynchronous: bool, items: seq<Item>, body: seq<Stmt>, c: Frame, out: Outcome)
    requires n <= m && WithRuns(w, n, asynchronous, items, body, c, out)
    ensures WithRuns(w, m, asynchronous, items, body, c, out)
    decreases n
  {
    if items == [] {
      BlockMore(w, n - 1, m - 1, body, c, out);
    } else if out.Threw? && ExprRuns(w, n - 1, items[0].context, false, false, c, out) {
      ExprMore(w, n - 1, m - 1, items[0].context, false, false, c, out);
    } else if !Supported(w, asynchronous, items[0]) {
      if !Evaluated(out) { WithMore(w, n - 1, m - 1, asynchronous, items[1..], body, c, out); }
    } else if out.Threw? && FunctionRuns(w, n - 1, items[0].enter.value, false, c, out) {
      FunctionMore(w, n - 1, m - 1, items[0].enter.value, false, c, out);
    } else {
      var inner :|
        && WithRuns(w, n - 1, asynchronous, items[1..], body, c, inner)
        && ExitRuns(w, n - 1, items[0].exit.value, inner, Handling(c, inner), out);
      CallMore(w, n - 1, m - 1, items[0].enter.value, false, c, Normal);
      WithMore(w, n - 1, m - 1, asynchronous, items[1..], body, c, inner);
      ExitMore(w, n - 1, m - 1, items[0].exit.value, inner, Handling(c, inner), out);
    }
  }

  lemma {:induction false} ExitMore(w: World, n: nat, m: nat, exit: Name, inner: Outcome, c: Frame, out: Outcome)
    requires n <= m && ExitRuns(w, n, exit, inner, c, out)
    ensures ExitRuns(w, m, exit, inner, c, out)
    decreases n
  {
    if out.Threw? && FunctionRuns(w, n - 1, exit, false, c, out) {
      FunctionMore(w, n - 1, m - 1, exit, false, c, out);
    } else if inner.Threw? && out.Normal? {
      FunctionMore(w, n - 1, m - 1, exit, false, c, Returned(true));
    } else if inner.Threw? {
      FunctionMore(w, n - 1, m - 1, exit, false, c, Returned(false));
    } else {
      CallMore(w, n - 1, m - 1, exit, false, c, Normal);
    }
  }

  // ----- code that can end normally

  // Whether the code of a function can return: not when it always raises, nor through its own recursion.
  predicate PassesFunction(w: World, f: Name, iterated: bool, stack: set<Name>)
    decreases w.functions.Keys - stack, 0, 0
  {
    f in w.functions ==>
      var called := w.functions[f];
      || AbstractMethod in called.decorators || Opaque in called.decorators || Generator(called)
      || (f !in stack && PassesBody(w, stack + {f}, called.body))
  }

  predicate PassesInvoked(w: World, f: Name, awaited: bool, iterated: bool, stack: set<Name>)
    decreases w.functions.Keys - stack, 0, 1
  {
    Deferred(w, f, awaited, iterated) || PassesFunction(w, f, iterated && IsGenerator(w, f), stack)
  }

  predicate PassesSome(w: World, stack: set<Name>, candidates: seq<Option<Name>>, awaited: bool, iterated: bool)
    decreases w.functions.Keys - stack, 0, 2 + |candidates|
  {
    candidates != [] &&
    (|| (candidates[0].Some? && PassesInvoked(w, candidates[0].value, awaited, iterated, stack))
     || PassesSome(w, stack, candidates[1..], awaited, iterated))
  }

  predicate PassesExpr(w: World, stack: set<Name>, e: Expr, awaited: bool, iterated: bool)
    decreases w.functions.Keys - stack, 1, e, 0, 0
  {
    match e
    case Atom => true
    case Operands(parts) => PassesExprs(w, stack, parts)
    case Yield(value) => PassesExpr(w, stack, value, false, false)
    case Await(value) => PassesExpr(w, stack, value, true, iterated)
    case Call(arguments, callee) =>
      PassesExprs(w, stack, arguments) && PassesCallee(w, stack, callee, awaited, iterated)
  }

  predicate PassesExprs(w: World, stack: set<Name>, es: seq<Expr>)
    decreases w.functions.Keys - stack, 1, es, 0, 0
  {
    es == [] || (PassesExpr(w, stack, es[0], false, false) && PassesExprs(w, stack, es[1..]))
  }

  predicate PassesCallee(w: World, stack: set<Name>, callee: Callee, awaited: bool, iterated: bool)
    decreases w.functions.Keys - stack, 1, callee, 0, 0
  {
    match callee
    case Definition(target, overridable) => overridable || PassesInvoked(w, target, awaited, iterated, stack)
    case Port(candidates) =>
      candidates == [] || None in candidates || PassesSome(w, stack, candidates, awaited, iterated)
    case _ => true
  }

  predicate PassesBody(w: World, stack: set<Name>, body: seq<Stmt>)
    decreases w.functions.Keys - stack, 1, body, 1, 0
  {
    EndsBlock(w, stack, body) || ReturnsBlock(w, stack, body)
  }

  // Whether control can reach the end of a block.
  predicate EndsBlock(w: World, stack: set<Name>, body: seq<Stmt>)
    decreases w.functions.Keys - stack, 1, body, 0, 0
  {
    body == [] || (EndsStmt(w, stack, body[0]) && EndsBlock(w, stack, body[1..]))
  }

  predicate EndsStmt(w: World, stack: set<Name>, s: Stmt)
    decreases w.functions.Keys - stack, 1, s, 1, 0
  {
    match s
    case Evaluate(value) => PassesExpr(w, stack, value, false, false)
    case Pass => true
    case If(_, body, orelse) => EndsBlock(w, stack, body) || EndsBlock(w, stack, orelse)
    case Loop(_, _, _, orelse, _) => EndsBlock(w, stack, orelse)
    case Try(body, handlers, orelse, finalbody) =>
      && EndsBlock(w, stack, finalbody)
      && (|| (EndsBlock(w, stack, body) && EndsBlock(w, stack, orelse))
          || (body != [] && EndsHandlers(w, stack, handlers)))
    case With(_, _, _) => EndsItems(w, stack, s, 0)
    case LocalFunction(evaluated) => PassesExprs(w, stack, evaluated)
    case LocalClass(_) => true
    case Unsupported(_) => true
    case _ => false
  }

  // Some handler that an implicit exception can reach ends normally.
  predicate EndsHandlers(w: World, stack: set<Name>, handlers: seq<Handler>)
    decreases w.functions.Keys - stack, 1, handlers, 0, 0
  {
    handlers != [] &&
    (EndsBlock(w, stack, handlers[0].body) || (!handlers[0].catchAll && EndsHandlers(w, stack, handlers[1..])))
  }

  predicate EndsItems(w: World, stack: set<Name>, s: Stmt, index: nat)
    requires s.With? && index <= |s.items|
    decreases w.functions.Keys - stack, 1, s, 0, |s.items| - index
  {
    if index == |s.items| then EndsBlock(w, stack, s.body)
    else
      || !Supported(w, s.asynchronous, s.items[index])
      || (&& PassesFunction(w, s.items[index].enter.value, false, stack)
          && PassesFunction(w, s.items[index].exit.value, false, stack)
          && EndsItems(w, stack, s, index + 1))
  }

  // Whether control can reach a return statement.
  predicate ReturnsBlock(w: World, stack: set<Name>, body: seq<Stmt>)
    decreases w.functions.Keys - stack, 1, body, 0, 0
  {
    body != [] &&
    (ReturnsStmt(w, stack, body[0]) || (EndsStmt(w, stack, body[0]) && ReturnsBlock(w, stack, body[1..])))
  }

  predicate ReturnsStmt(w: World, stack: set<Name>, s: Stmt)
    decreases w.functions.Keys - stack, 1, s, 1, 0
  {
    match s
    case Return(result) => result.Computed? ==> PassesExpr(w, stack, result.value, false, false)
    case If(_, body, orelse) => ReturnsBlock(w, stack, body) || ReturnsBlock(w, stack, orelse)
    case Loop(_, _, body, orelse, _) => ReturnsBlock(w, stack, body) || ReturnsBlock(w, stack, orelse)
    case Try(body, _, orelse, finalbody) =>
      && EndsBlock(w, stack, finalbody)
      && (ReturnsBlock(w, stack, body) || (EndsBlock(w, stack, body) && ReturnsBlock(w, stack, orelse)))
    case _ => false
  }

  // ----- such code has runs that end so

  function Max(a: nat, b: nat): nat {
    if a < b then b else a
  }

  lemma {:induction false} FunctionPasses(w: World, f: Name, iterated: bool, stack: set<Name>, c: Frame)
      returns (n: nat, truthy: bool)
    requires PassesFunction(w, f, iterated, stack)
    ensures FunctionRuns(w, n, f, iterated, c, Returned(truthy))
    decreases w.functions.Keys - stack, 0, 0
  {
    n, truthy := 1, false;
    if f in w.functions {
      var called := w.functions[f];
      if !(AbstractMethod in called.decorators || Opaque in called.decorators || Generator(called)) {
        var inner := Frame(c.handling, map[]);
        if EndsBlock(w, stack + {f}, called.body) {
          n := BlockEnds(w, stack + {f}, called.body, inner);
        } else {
          n, truthy := BlockReturns(w, stack + {f}, called.body, inner);
        }
        n := n + 1;
      }
    }
  }

  lemma {:induction false} CallPasses(w: World, f: Name, iterated: bool, stack: set<Name>, c: Frame) returns (n: nat)
    requires PassesFunction(w, f, iterated, stack)
    ensures CallRuns(w, n, f, iterated, c, Normal)
    decreases w.functions.Keys - stack, 0, 1
  {
    var truthy;
    n, truthy := FunctionPasses(w, f, iterated, stack, c);
    n := n + 1;
  }

  lemma {:induction false} InvokedPasses(w: World, f: Name, awaited: bool, iterated: bool, stack: set<Name>, c: Frame)
      returns (n: nat)
    requires PassesInvoked(w, f, awaited, iterated, stack)
    ensures Invoked(w, n, f, awaited, iterated, c, Normal)
    decreases w.functions.Keys - stack, 0, 2
  {
    n := 1;
    if !Deferred(w, f, awaited, iterated) {
      n := CallPasses(w, f, iterated && IsGenerator(w, f), stack, c);
      n := n + 1;
    }
  }

  lemma {:induction false} SomePasses(
      w: World, stack: set<Name>, candidates: seq<Option<Name>>, awaited: bool, iterated: bool, c: Frame)
      returns (target: Name, n: nat)
    requires PassesSome(w, stack, candidates, awaited, iterated)
    ensures Some(target) in candidates && Invoked(w, n, target, awaited, iterated, c, Normal)
    decreases w.functions.Keys - stack, 0, 3 + |candidates|
  {
    if candidates[0].Some? && PassesInvoked(w, candidates[0].value, awaited, iterated, stack) {
      target := candidates[0].value;
      n := InvokedPasses(w, target, awaited, iterated, stack, c);
    } else {
      target, n := SomePasses(w, stack, candidates[1..], awaited, iterated, c);
    }
  }

  lemma {:induction false} CalleePasses(
      w: World, stack: set<Name>, callee: Callee, awaited: bool, iterated: bool, c: Frame) returns (n: nat)
    requires PassesCallee(w, stack, callee, awaited, iterated)
    ensures CalleeRuns(w, n, callee, awaited, iterated, c, Normal)
    decreases w.functions.Keys - stack, 1, callee, 0, 0
  {
    n := 1;
    match callee
    case Definition(target, overridable) =>
      if !overridable {
        n := InvokedPasses(w, target, awaited, iterated, stack, c);
        n := n + 1;
      }
    case Port(candidates) =>
      if candidates != [] && None !in candidates {
        var target;
        target, n := SomePasses(w, stack, candidates, awaited, iterated, c);
        n := n + 1;
      }
    case _ =>
  }

  lemma {:induction false} ExprPasses(
      w: World, stack: set<Name>, e: Expr, awaited: bool, iterated: bool, c: Frame) returns (n: nat)
    requires PassesExpr(w, stack, e, awaited, iterated)
    ensures ExprRuns(w, n, e, awaited, iterated, c, Normal)
    decreases w.functions.Keys - stack, 1, e, 0, 0
  {
    n := 0;
    match e {
      case Atom =>
      case Operands(parts) => n := ExprsPass(w, stack, parts, c);
      case Yield(value) => n := ExprPasses(w, stack, value, false, false, c);
      case Await(value) => n := ExprPasses(w, stack, value, true, iterated, c);
      case Call(arguments, callee) =>
        var a := ExprsPass(w, stack, arguments, c);
        var b := CalleePasses(w, stack, callee, awaited, iterated, c);
        n := Max(a, b);
        ExprsMore(w, a, n, arguments, c, Normal);
        CalleeMore(w, b, n, callee, awaited, iterated, c, Normal);
    }
    n := n + 1;
  }

  lemma {:induction false} ExprsPass(w: World, stack: set<Name>, es: seq<Expr>, c: Frame) returns (n: nat)
    requires PassesExprs(w, stack, es)
    ensures ExprsRun(w, n, es, c, Normal)
    decreases w.functions.Keys - stack, 1, es, 0, 0
  {
    n := 0;
    if es != [] {
      var a := ExprPasses(w, stack, es[0], false, false, c);
      var b := ExprsPass(w, stack, es[1..], c);
      n := Max(a, b);
      ExprMore(w, a, n, es[0], false, false, c, Normal);
      ExprsMore(w, b, n, es[1..], c, Normal);
    }
    n := n + 1;
  }

  lemma {:induction false} BlockEnds(w: World, stack: set<Name>, body: seq<Stmt>, c: Frame) returns (n: nat)
    requires EndsBlock(w, stack, body)
    ensures BlockRuns(w, n, body, c, Normal)
    decreases w.functions.Keys - stack, 1, body, 0, 0
  {
    n := 0;
    if body != [] {
      var a := StmtEnds(w, stack, body[0], c);
      var b := BlockEnds(w, stack, body[1..], c);
      n := Max(a, b);
      StmtMore(w, a, n, body[0], c, Normal);
      BlockMore(w, b, n, body[1..], c, Normal);
    }
    n := n + 1;
  }

  lemma {:induction false} StmtEnds(w: World, stack: set<Name>, s: Stmt, c: Frame) returns (n: nat)
    requires EndsStmt(w, stack, s)
    ensures StmtRuns(w, n, s, c, Normal)
    decreases w.functions.Keys - stack, 1, s, 1, 0
  {
    n := 0;
    match s {
      case Evaluate(value) => n := ExprPasses(w, stack, value, false, false, c);
      case If(_, body, orelse) =>
        if EndsBlock(w, stack, body) {
          n := BlockEnds(w, stack, body, c);
        } else {
          n := BlockEnds(w, stack, orelse, c);
        }
      case Loop(_, _, _, orelse, _) =>
        n := BlockEnds(w, stack, orelse, c);
        n := n + 1;
      case Try(body, handlers, orelse, finalbody) => n := TryEnds(w, stack, s, c);
      case With(_, _, _) =>
        n := ItemsEnd(w, stack, s, 0, c);
        assert s.items[0..] == s.items;
      case LocalFunction(evaluated) => n := ExprsPass(w, stack, evaluated, c);
      case _ =>
    }
    n := n + 1;
  }

  // An exception that nobody raised explicitly.
  const IMPLICIT := Thrown(Name("builtins.Exception"), false)

  lemma ImplicitLeaves(w: World, n: nat, body: seq<Stmt>, c: Frame)
    requires body != [] && n > 1
    ensures BlockRuns(w, n, body, c, Threw(IMPLICIT))
  {
    assert StmtRuns(w, n - 1, body[0], c, Threw(IMPLICIT));
  }

  lemma {:induction false} TryEnds(w: World, stack: set<Name>, s: Stmt, c: Frame) returns (n: nat)
    requires s.Try? && EndsStmt(w, stack, s)
    ensures TryRuns(w, n, s.body, s.handlers, s.orelse, s.finalbody, c, Normal)
    decreases w.functions.Keys - stack, 1, s, 0, 0
  {
    var a;
    if EndsBlock(w, stack, s.body) && EndsBlock(w, stack, s.orelse) {
      var first := BlockEnds(w, stack, s.body, c);
      var second := BlockEnds(w, stack, s.orelse, c);
      a := Max(first, second);
      BlockMore(w, first, a, s.body, c, Normal);
      BlockMore(w, second, a, s.orelse, c, Normal);
    } else {
      var handled := HandlersEnd(w, stack, s.handlers, c);
      a := handled + 2;
      HandlersMore(w, handled, a, s.handlers, IMPLICIT, c, Normal);
      ImplicitLeaves(w, a, s.body, c);
    }
    assert GuardedRuns(w, a + 1, s.body, s.handlers, s.orelse, c, Normal);
    var b := BlockEnds(w, stack, s.finalbody, c);
    n := Max(a + 1, b);
    GuardedMore(w, a + 1, n, s.body, s.handlers, s.orelse, c, Normal);
    BlockMore(w, b, n, s.finalbody, c, Normal);
    n := n + 1;
  }

  lemma {:induction false} HandlersEnd(w: World, stack: set<Name>, handlers: seq<Handler>, c: Frame) returns (n: nat)
    requires EndsHandlers(w, stack, handlers)
    ensures HandlersRun(w, n, handlers, IMPLICIT, c, Normal)
    decreases w.functions.Keys - stack, 1, handlers, 0, 0
  {
    if EndsBlock(w, stack, handlers[0].body) {
      n := BlockEnds(w, stack, handlers[0].body, Bound(c, handlers[0], IMPLICIT));
    } else {
      n := HandlersEnd(w, stack, handlers[1..], c);
    }
    n := n + 1;
  }

  lemma {:induction false} ItemsEnd(w: World, stack: set<Name>, s: Stmt, index: nat, c: Frame) returns (n: nat)
    requires s.With? && index <= |s.items| && EndsItems(w, stack, s, index)
    ensures WithRuns(w, n, s.asynchronous, s.items[index..], s.body, c, Normal)
    decreases w.functions.Keys - stack, 1, s, 0, |s.items| - index
  {
    n := 0;
    if index == |s.items| {
      n := BlockEnds(w, stack, s.body, c);
    } else {
      var item, rest := s.items[index], s.items[index + 1..];
      assert s.items[index..][0] == item && s.items[index..][1..] == rest;
      if Supported(w, s.asynchronous, item) {
        var entered := CallPasses(w, item.enter.value, false, stack, c);
        var inner := ItemsEnd(w, stack, s, index + 1, c);
        var left := CallPasses(w, item.exit.value, false, stack, c);
        n := Max(entered, Max(inner, left + 1));
        CallMore(w, entered, n, item.enter.value, false, c, Normal);
        WithMore(w, inner, n, s.asynchronous, rest, s.body, c, Normal);
        assert ExitRuns(w, left + 1, item.exit.value, Normal, c, Normal);
        ExitMore(w, left + 1, n, item.exit.value, Normal, c, Normal);
        assert WithRuns(w, n, s.asynchronous, rest, s.body, c, Normal)
               && ExitRuns(w, n, item.exit.value, Normal, Handling(c, Normal), Normal);
      }
    }
    n := n + 1;
  }

  lemma {:induction false} BlockReturns(w: World, stack: set<Name>, body: seq<Stmt>, c: Frame)
      returns (n: nat, truthy: bool)
    requires ReturnsBlock(w, stack, body)
    ensures BlockRuns(w, n, body, c, Returned(truthy))
    decreases w.functions.Keys - stack, 1, body, 0, 0
  {
    if ReturnsStmt(w, stack, body[0]) {
      n, truthy := StmtReturns(w, stack, body[0], c);
    } else {
      var a := StmtEnds(w, stack, body[0], c);
      var b;
      b, truthy := BlockReturns(w, stack, body[1..], c);
      n := Max(a, b);
      StmtMore(w, a, n, body[0], c, Normal);
      BlockMore(w, b, n, body[1..], c, Returned(truthy));
    }
    n := n + 1;
  }

  lemma {:induction false} StmtReturns(w: World, stack: set<Name>, s: Stmt, c: Frame) returns (n: nat, truthy: bool)
    requires ReturnsStmt(w, stack, s)
    ensures StmtRuns(w, n, s, c, Returned(truthy))
    decreases w.functions.Keys - stack, 1, s, 1, 0
  {
    n, truthy := 0, false;
    match s {
      case Return(result) =>
        truthy := result.TrueValue?;
        if result.Computed? { n := ExprPasses(w, stack, result.value, false, false, c); }
      case If(_, body, orelse) =>
        if ReturnsBlock(w, stack, body) {
          n, truthy := BlockReturns(w, stack, body, c);
        } else {
          n, truthy := BlockReturns(w, stack, orelse, c);
        }
      case Loop(_, _, body, orelse, _) =>
        if ReturnsBlock(w, stack, body) {
          n, truthy := BlockReturns(w, stack, body, c);
        } else {
          n, truthy := BlockReturns(w, stack, orelse, c);
        }
        n := n + 1;
      case Try(_, _, _, _) => n, truthy := TryReturns(w, stack, s, c);
    }
    n := n + 1;
  }

  lemma {:induction false} TryReturns(w: World, stack: set<Name>, s: Stmt, c: Frame) returns (n: nat, truthy: bool)
    requires s.Try? && ReturnsStmt(w, stack, s)
    ensures TryRuns(w, n, s.body, s.handlers, s.orelse, s.finalbody, c, Returned(truthy))
    decreases w.functions.Keys - stack, 1, s, 0, 0
  {
    var a;
    if ReturnsBlock(w, stack, s.body) {
      a, truthy := BlockReturns(w, stack, s.body, c);
    } else {
      var first := BlockEnds(w, stack, s.body, c);
      var second;
      second, truthy := BlockReturns(w, stack, s.orelse, c);
      a := Max(first, second);
      BlockMore(w, first, a, s.body, c, Normal);
      BlockMore(w, second, a, s.orelse, c, Returned(truthy));
    }
    assert GuardedRuns(w, a + 1, s.body, s.handlers, s.orelse, c, Returned(truthy));
    var b := BlockEnds(w, stack, s.finalbody, c);
    n := Max(a + 1, b);
    GuardedMore(w, a + 1, n, s.body, s.handlers, s.orelse, c, Returned(truthy));
    BlockMore(w, b, n, s.finalbody, c, Normal);
    n := n + 1;
  }
}
