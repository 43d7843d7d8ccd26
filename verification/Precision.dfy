/**
 Why the checker's reports say no more than they should, `fastapi_canon/checks/analysis.py`: in code whose
 statements can be reached, every exception that is reported is one that some run raises and lets escape.
 */
module Precision {
  import opened Wrappers
  import opened Linearization
  import opened Hierarchy
  import opened Program
  import opened Semantics
  import opened Flows
  import opened Soundness
  import opened Passing

  // ----- code whose statements can be reached

  predicate LiveFunction(w: World, f: Name, iterated: bool, stack: set<Name>)
    decreases w.functions.Keys - stack, 0, 0
  {
    f in w.functions && f !in stack ==>
      var called := w.functions[f];
      || AbstractMethod in called.decorators || Opaque in called.decorators || (Generator(called) && !iterated)
      || LiveBlock(w, stack + {f}, called.body)
  }

  predicate LiveInvoked(w: World, f: Name, awaited: bool, iterated: bool, stack: set<Name>)
    decreases w.functions.Keys - stack, 0, 1
  {
    Deferred(w, f, awaited, iterated) || LiveFunction(w, f, iterated && IsGenerator(w, f), stack)
  }

  predicate LiveCandidates(w: World, stack: set<Name>, candidates: seq<Option<Name>>, awaited: bool, iterated: bool)
    decreases w.functions.Keys - stack, 0, 2 + |candidates|
  {
    candidates == [] ||
    (&& (candidates[0].Some? ==> LiveInvoked(w, candidates[0].value, awaited, iterated, stack))
     && LiveCandidates(w, stack, candidates[1..], awaited, iterated))
  }

  predicate LiveEach(w: World, stack: set<Name>, fs: seq<Name>, callbacks: bool)
    decreases w.functions.Keys - stack, 0, 2 + |fs|
  {
    fs == [] ||
    (LiveFunction(w, fs[0], callbacks && IsGenerator(w, fs[0]), stack) && LiveEach(w, stack, fs[1..], callbacks))
  }

  predicate LiveExpr(w: World, stack: set<Name>, e: Expr, awaited: bool, iterated: bool)
    decreases w.functions.Keys - stack, 1, e, 0, 0
  {
    match e
    case Atom => true
    case Operands(parts) => LiveExprs(w, stack, parts)
    case Yield(value) => LiveExpr(w, stack, value, false, false)
    case Await(value) => LiveExpr(w, stack, value, true, iterated)
    case Call(arguments, callee) =>
      && LiveExprs(w, stack, arguments) && PassesExprs(w, stack, arguments)
      && LiveCallee(w, stack, callee, awaited, iterated)
  }

  predicate LiveExprs(w: World, stack: set<Name>, es: seq<Expr>)
    decreases w.functions.Keys - stack, 1, es, 0, 0
  {
    es == [] ||
    (&& LiveExpr(w, stack, es[0], false, false) && LiveExprs(w, stack, es[1..])
     && (es[1..] == [] || PassesExpr(w, stack, es[0], false, false)))
  }

  predicate LiveCallee(w: World, stack: set<Name>, callee: Callee, awaited: bool, iterated: bool)
    decreases w.functions.Keys - stack, 1, callee, 0, 0
  {
    match callee
    case Definition(target, overridable) => overridable || LiveInvoked(w, target, awaited, iterated, stack)
    case Port(candidates) => None in candidates || LiveCandidates(w, stack, candidates, awaited, iterated)
    case Construction(resolved, hooks) => !resolved || LiveEach(w, stack, hooks, false)
    case Library(receiver, callbacks) => LiveExprs(w, stack, receiver) && LiveEach(w, stack, callbacks, true)
    case _ => true
  }

  // Every statement of the block can be reached, up to one that ends it.
  predicate LiveBlock(w: World, stack: set<Name>, body: seq<Stmt>)
    decreases w.functions.Keys - stack, 1, body, 0, 0
  {
    body == [] ||
    (&& LiveStmt(w, stack, body[0])
     && (Ends(body[0]) || body[1..] == [] || (EndsStmt(w, stack, body[0]) && LiveBlock(w, stack, body[1..]))))
  }

  predicate LiveStmt(w: World, stack: set<Name>, s: Stmt)
    decreases w.functions.Keys - stack, 1, s, 1, 0
  {
    match s
    case Evaluate(value) => LiveExpr(w, stack, value, false, false)
    case Return(result) => result.Computed? ==> LiveExpr(w, stack, result.value, false, false)
    case Raise(parts, _, _) => LiveExprs(w, stack, parts) && PassesExprs(w, stack, parts)
    case If(test, body, orelse) =>
      LiveExpr(w, stack, test, false, false) && LiveBlock(w, stack, body) && LiveBlock(w, stack, orelse)
    case Loop(head, each, body, orelse, _) =>
      LiveExpr(w, stack, head, false, each) && LiveBlock(w, stack, body) && LiveBlock(w, stack, orelse)
    case Try(body, handlers, orelse, finalbody) =>
      && LiveBlock(w, stack, body) && LiveHandlers(w, stack, handlers) && (handlers == [] || body != [])
      && LiveBlock(w, stack, orelse) && (orelse == [] || EndsBlock(w, stack, body))
      && LiveBlock(w, stack, finalbody) && EndsBlock(w, stack, finalbody)
      && (finalbody == [] || Finishes(w, stack, s))
    case With(_, _, _) => LiveItems(w, stack, s, 0)
    case LocalFunction(evaluated) => LiveExprs(w, stack, evaluated)
    case _ => true
  }

  // What is guarded can end without an exception.
  predicate Finishes(w: World, stack: set<Name>, s: Stmt)
    requires s.Try?
    decreases w.functions.Keys - stack, 1, s, 0, 0
  {
    || (EndsBlock(w, stack, s.body) && EndsBlock(w, stack, s.orelse))
    || ReturnsBlock(w, stack, s.body)
    || (s.body != [] && EndsHandlers(w, stack, s.handlers))
  }

  // Only the last handler may take everything.
  predicate LiveHandlers(w: World, stack: set<Name>, handlers: seq<Handler>)
    decreases w.functions.Keys - stack, 1, handlers, 0, 0
  {
    handlers == [] ||
    (&& LiveBlock(w, stack, handlers[0].body) && LiveHandlers(w, stack, handlers[1..])
     && (handlers[1..] == [] || !handlers[0].catchAll))
  }

  predicate LiveItems(w: World, stack: set<Name>, s: Stmt, index: nat)
    requires s.With? && index <= |s.items|
    decreases w.functions.Keys - stack, 1, s, 0, |s.items| - index
  {
    if index == |s.items| then LiveBlock(w, stack, s.body)
    else
      var item := s.items[index];
      Supported(w, s.asynchronous, item) ==>
        && LiveExpr(w, stack, item.context, false, false) && LiveFunction(w, item.enter.value, false, stack)
        && (|| AlwaysRaises(w.functions[item.enter.value].body)
            || (&& LiveItems(w, stack, s, index + 1) && LiveFunction(w, item.exit.value, false, stack)
                && PassesFunction(w, item.enter.value, false, stack)
                && (Swallows(w, item.exit.value) || Declines(w, item.exit.value, stack))))
  }

  // No exception of the body passes the exit method.
  predicate Swallows(w: World, exit: Name)
    requires exit in w.functions
  {
    Suppression(w.functions[exit].body) == Some(true) || AlwaysRaises(w.functions[exit].body)
  }

  // The exit method can return, and never a true value.
  predicate Declines(w: World, exit: Name, stack: set<Name>)
    requires exit in w.functions
  {
    Suppression(w.functions[exit].body) == Some(false) && PassesFunction(w, exit, false, stack)
  }

  // ----- runs that raise

  function Raised(x: Name): Outcome {
    Threw(Thrown(x, true))
  }

  // The frame holds what the analysis knows of the variables that handlers bound.
  ghost predicate Fits(env: Env, c: Frame) {
    forall v :: v in env && env[v].Some? ==> v in c.variables && c.variables[v] == Thrown(env[v].value, true)
  }

  // The exception that has to be handled in a frame, if any.
  ghost predicate Meets(handled: Option<Name>, c: Frame) {
    handled.Some? ==> c.handling == Some(Thrown(handled.value, true))
  }

  ghost predicate BlockCan(w: World, body: seq<Stmt>, c: Frame, out: Outcome) {
    exists n: nat :: BlockRuns(w, n, body, c, out)
  }

  ghost predicate StmtCan(w: World, s: Stmt, c: Frame, out: Outcome) {
    exists n: nat :: StmtRuns(w, n, s, c, out)
  }

  ghost predicate HandlersCan(w: World, handlers: seq<Handler>, thrown: Thrown, c: Frame, out: Outcome) {
    exists n: nat :: HandlersRun(w, n, handlers, thrown, c, out)
  }

  ghost predicate GuardedCan(w: World, s: Stmt, c: Frame, out: Outcome)
    requires s.Try?
  {
    exists n: nat :: GuardedRuns(w, n, s.body, s.handlers, s.orelse, c, out)
  }

  ghost predicate ItemsCan(w: World, s: Stmt, index: nat, c: Frame, out: Outcome)
    requires s.With? && index <= |s.items|
  {
    exists n: nat :: WithRuns(w, n, s.asynchronous, s.items[index..], s.body, c, out)
  }

  // From every such frame the exception can leave.
  ghost predicate BlockRaises(w: World, body: seq<Stmt>, env: Env, handled: Option<Name>, x: Name) {
    forall c :: Fits(env, c) && Meets(handled, c) ==> BlockCan(w, body, c, Raised(x))
  }

  ghost predicate ItemsRaise(w: World, s: Stmt, index: nat, env: Env, handled: Option<Name>, x: Name)
    requires s.With? && index <= |s.items|
  {
    forall c :: Fits(env, c) && Meets(handled, c) ==> ItemsCan(w, s, index, c, Raised(x))
  }

  ghost predicate StmtRaises(w: World, s: Stmt, env: Env, handled: Option<Name>, x: Name) {
    forall c :: Fits(env, c) && Meets(handled, c) ==> StmtCan(w, s, c, Raised(x))
  }

  ghost predicate Handled(reraised: set<Name>, handled: Option<Name>) {
    handled.Some? ==> handled.value in reraised
  }

  // ----- functions and expressions

  lemma {:induction false} FunctionReal(w: World, f: Name, iterated: bool, stack: set<Name>, x: Name, c: Frame)
      returns (n: nat)
    requires LiveFunction(w, f, iterated, stack) && x in FunctionFlow(w, f, iterated, stack).escapes
    ensures FunctionRuns(w, n, f, iterated, c, Raised(x))
    decreases w.functions.Keys - stack, 0, 0
  {
    var called := w.functions[f];
    if Opaque in called.decorators {
      n := 1;
    } else {
      var inner := Frame(c.handling, map[]);
      var handled := BlockReal(w, Scope(f, stack + {f}), called.body, {}, map[], x);
      assert Fits(map[], inner) && Meets(handled, inner);
      assert BlockCan(w, called.body, inner, Raised(x));
      n :| BlockRuns(w, n, called.body, inner, Raised(x));
      n := n + 1;
    }
  }

  lemma {:induction false} CallReal(w: World, f: Name, iterated: bool, stack: set<Name>, x: Name, c: Frame)
      returns (n: nat)
    requires LiveFunction(w, f, iterated, stack) && x in FunctionFlow(w, f, iterated, stack).escapes
    ensures CallRuns(w, n, f, iterated, c, Raised(x))
    decreases w.functions.Keys - stack, 0, 1
  {
    n := FunctionReal(w, f, iterated, stack, x, c);
    n := n + 1;
  }

  lemma {:induction false} InvokedReal(
      w: World, sc: Scope, f: Name, awaited: bool, iterated: bool, x: Name, c: Frame) returns (n: nat)
    requires LiveInvoked(w, f, awaited, iterated, sc.stack) && x in InvokedFlow(w, sc, f, awaited, iterated).escapes
    ensures Invoked(w, n, f, awaited, iterated, c, Raised(x))
    decreases w.functions.Keys - sc.stack, 0, 2
  {
    n := CallReal(w, f, iterated && IsGenerator(w, f), sc.stack, x, c);
    n := n + 1;
  }

  lemma {:induction false} CandidatesReal(
      w: World, sc: Scope, candidates: seq<Option<Name>>, awaited: bool, iterated: bool, x: Name, c: Frame)
      returns (target: Name, n: nat)
    requires LiveCandidates(w, sc.stack, candidates, awaited, iterated) && None !in candidates
    requires x in CandidatesFlow(w, sc, candidates, awaited, iterated).escapes
    ensures Some(target) in candidates && Invoked(w, n, target, awaited, iterated, c, Raised(x))
    decreases w.functions.Keys - sc.stack, 0, 3 + |candidates|
  {
    if x in InvokedFlow(w, sc, candidates[0].value, awaited, iterated).escapes {
      target := candidates[0].value;
      n := InvokedReal(w, sc, target, awaited, iterated, x, c);
    } else {
      target, n := CandidatesReal(w, sc, candidates[1..], awaited, iterated, x, c);
    }
  }

  lemma {:induction false} EachReal(w: World, sc: Scope, fs: seq<Name>, callbacks: bool, x: Name, c: Frame)
      returns (f: Name, n: nat)
    requires LiveEach(w, sc.stack, fs, callbacks) && x in EachFlow(w, sc, fs, callbacks).escapes
    ensures f in fs && CallRuns(w, n, f, callbacks && IsGenerator(w, f), c, Raised(x))
    decreases w.functions.Keys - sc.stack, 0, 3 + |fs|
  {
    if x in FunctionFlow(w, fs[0], callbacks && IsGenerator(w, fs[0]), sc.stack).escapes {
      f := fs[0];
      n := CallReal(w, f, callbacks && IsGenerator(w, f), sc.stack, x, c);
    } else {
      f, n := EachReal(w, sc, fs[1..], callbacks, x, c);
    }
  }

  lemma {:induction false} CalleeReal(
      w: World, sc: Scope, callee: Callee, awaited: bool, iterated: bool, x: Name, c: Frame) returns (n: nat)
    requires LiveCallee(w, sc.stack, callee, awaited, iterated)
    requires x in CalleeFlow(w, sc, callee, awaited, iterated).escapes
    ensures CalleeRuns(w, n, callee, awaited, iterated, c, Raised(x))
    decreases w.functions.Keys - sc.stack, 1, callee, 0, 0
  {
    n := 0;
    match callee {
      case Definition(target, overridable) =>
        if !overridable { n := InvokedReal(w, sc, target, awaited, iterated, x, c); }
      case Port(candidates) =>
        if None !in candidates {
          var target;
          target, n := CandidatesReal(w, sc, candidates, awaited, iterated, x, c);
        }
      case Construction(resolved, hooks) =>
        if resolved {
          var f;
          f, n := EachReal(w, sc, hooks, false, x, c);
        }
      case Library(receiver, callbacks) =>
        if x in ExprsFlow(w, sc, receiver).escapes {
          n := ExprsReal(w, sc, receiver, x, c);
        } else {
          var f;
          f, n := EachReal(w, sc, callbacks, true, x, c);
        }
    }
    n := n + 1;
  }

  lemma {:induction false} ExprReal(
      w: World, sc: Scope, e: Expr, awaited: bool, iterated: bool, x: Name, c: Frame) returns (n: nat)
    requires LiveExpr(w, sc.stack, e, awaited, iterated) && x in ExprFlow(w, sc, e, awaited, iterated).escapes
    ensures ExprRuns(w, n, e, awaited, iterated, c, Raised(x))
    decreases w.functions.Keys - sc.stack, 1, e, 0, 0
  {
    match e {
      case Operands(parts) => n := ExprsReal(w, sc, parts, x, c);
      case Yield(value) => n := ExprReal(w, sc, value, false, false, x, c);
      case Await(value) => n := ExprReal(w, sc, value, true, iterated, x, c);
      case Call(arguments, callee) =>
        if x in ExprsFlow(w, sc, arguments).escapes {
          n := ExprsReal(w, sc, arguments, x, c);
        } else {
          var a := ExprsPass(w, sc.stack, arguments, c);
          var b := CalleeReal(w, sc, callee, awaited, iterated, x, c);
          n := Max(a, b);
          ExprsMore(w, a, n, arguments, c, Normal);
          CalleeMore(w, b, n, callee, awaited, iterated, c, Raised(x));
        }
    }
    n := n + 1;
  }

  lemma {:induction false} ExprsReal(w: World, sc: Scope, es: seq<Expr>, x: Name, c: Frame) returns (n: nat)
    requires LiveExprs(w, sc.stack, es) && x in ExprsFlow(w, sc, es).escapes
    ensures ExprsRun(w, n, es, c, Raised(x))
    decreases w.functions.Keys - sc.stack, 1, es, 0, 0
  {
    if x in ExprFlow(w, sc, es[0], false, false).escapes {
      n := ExprReal(w, sc, es[0], false, false, x, c);
    } else {
      var a := ExprPasses(w, sc.stack, es[0], false, false, c);
      var b := ExprsReal(w, sc, es[1..], x, c);
      n := Max(a, b);
      ExprMore(w, a, n, es[0], false, false, c, Normal);
      ExprsMore(w, b, n, es[1..], c, Raised(x));
    }
    n := n + 1;
  }

  // ----- statements

  lemma {:induction false} BlockReal(
      w: World, sc: Scope, body: seq<Stmt>, reraised: set<Name>, env: Env, x: Name) returns (handled: Option<Name>)
    requires LiveBlock(w, sc.stack, body) && x in BlockFlow(w, sc, body, reraised, env).escapes
    ensures Handled(reraised, handled) && BlockRaises(w, body, env, handled, x)
    decreases w.functions.Keys - sc.stack, 1, body, 0, 0
  {
    if x in StmtFlow(w, sc, body[0], reraised, env).escapes {
      handled := StmtReal(w, sc, body[0], reraised, env, x);
      forall c | Fits(env, c) && Meets(handled, c) ensures BlockCan(w, body, c, Raised(x)) {
        assert StmtCan(w, body[0], c, Raised(x));
        var n: nat :| StmtRuns(w, n, body[0], c, Raised(x));
        assert BlockRuns(w, n + 1, body, c, Raised(x));
      }
    } else {
      handled := BlockReal(w, sc, body[1..], reraised, env, x);
      forall c | Fits(env, c) && Meets(handled, c) ensures BlockCan(w, body, c, Raised(x)) {
        assert BlockCan(w, body[1..], c, Raised(x));
        var b: nat :| BlockRuns(w, b, body[1..], c, Raised(x));
        var a := StmtEnds(w, sc.stack, body[0], c);
        var n := Max(a, b);
        StmtMore(w, a, n, body[0], c, Normal);
        BlockMore(w, b, n, body[1..], c, Raised(x));
        assert BlockRuns(w, n + 1, body, c, Raised(x));
      }
    }
  }

  lemma {:induction false} StmtReal(
      w: World, sc: Scope, s: Stmt, reraised: set<Name>, env: Env, x: Name) returns (handled: Option<Name>)
    requires LiveStmt(w, sc.stack, s) && x in StmtFlow(w, sc, s, reraised, env).escapes
    ensures Handled(reraised, handled) && StmtRaises(w, s, env, handled, x)
    decreases w.functions.Keys - sc.stack, 1, s, 1, 0
  {
    handled := None;
    match s {
      case Evaluate(value) => ValueReal(w, sc, s, value, reraised, env, x);
      case Return(result) => ValueReal(w, sc, s, result.value, reraised, env, x);
      case Raise(parts, raised, implicit) => RaiseReal(w, sc, parts, raised, implicit, env, x);
      case RaiseCaught(variable) =>
        forall c | Fits(env, c) && Meets(handled, c) ensures StmtCan(w, s, c, Raised(x)) {
          assert StmtRuns(w, 1, s, c, Raised(x));
        }
      case Reraise =>
        handled := Some(x);
        forall c | Fits(env, c) && Meets(handled, c) ensures StmtCan(w, s, c, Raised(x)) {
          assert StmtRuns(w, 1, s, c, Raised(x));
        }
      case If(_, _, _) => handled := IfReal(w, sc, s, reraised, env, x);
      case Loop(_, _, _, _, _) => handled := LoopReal(w, sc, s, reraised, env, x);
      case Try(_, _, _, _) => handled := TryReal(w, sc, s, reraised, env, x);
      case With(_, _, _) =>
        handled := ItemsReal(w, sc, s, 0, reraised, env, x);
        assert s.items[0..] == s.items;
        forall c | Fits(env, c) && Meets(handled, c) ensures StmtCan(w, s, c, Raised(x)) {
          assert ItemsCan(w, s, 0, c, Raised(x));
          var n: nat :| WithRuns(w, n, s.asynchronous, s.items[0..], s.body, c, Raised(x));
          assert StmtRuns(w, n + 1, s, c, Raised(x));
        }
      case LocalFunction(evaluated) =>
        forall c | Fits(env, c) && Meets(handled, c) ensures StmtCan(w, s, c, Raised(x)) {
          var n := ExprsReal(w, sc, evaluated, x, c);
          assert StmtRuns(w, n + 1, s, c, Raised(x));
        }
      case LocalClass(_) => Anything(w, s, env, x);
      case Unsupported(_) => Anything(w, s, env, x);
    }
  }

  lemma Anything(w: World, s: Stmt, env: Env, x: Name)
    requires s.LocalClass? || s.Unsupported?
    ensures StmtRaises(w, s, env, None, x)
  {
    forall c ensures StmtCan(w, s, c, Raised(x)) {
      assert StmtRuns(w, 1, s, c, Raised(x));
    }
  }

  lemma {:induction false} ValueReal(
      w: World, sc: Scope, s: Stmt, value: Expr, reraised: set<Name>, env: Env, x: Name)
    requires s == Evaluate(value) || s == Return(Computed(value))
    requires LiveExpr(w, sc.stack, value, false, false) && x in ExprFlow(w, sc, value, false, false).escapes
    ensures StmtRaises(w, s, env, None, x)
    decreases w.functions.Keys - sc.stack, 1, s, 0, 0
  {
    forall c | Fits(env, c) ensures StmtCan(w, s, c, Raised(x)) {
      var n := ExprReal(w, sc, value, false, false, x, c);
      assert StmtRuns(w, n + 1, s, c, Raised(x));
    }
  }

  lemma {:induction false} RaiseReal(
      w: World, sc: Scope, parts: seq<Expr>, raised: Option<Name>, implicit: seq<Name>, env: Env, x: Name)
    requires LiveExprs(w, sc.stack, parts) && PassesExprs(w, sc.stack, parts)
    requires x in ExprsFlow(w, sc, parts).escapes || raised == Some(x)
    ensures StmtRaises(w, Raise(parts, raised, implicit), env, None, x)
    decreases w.functions.Keys - sc.stack, 1, Raise(parts, raised, implicit), 0, 0
  {
    var s := Raise(parts, raised, implicit);
    forall c | Fits(env, c) ensures StmtCan(w, s, c, Raised(x)) {
      if x in ExprsFlow(w, sc, parts).escapes {
        var n := ExprsReal(w, sc, parts, x, c);
        assert StmtRuns(w, n + 1, s, c, Raised(x));
      } else {
        var n := ExprsPass(w, sc.stack, parts, c);
        assert StmtRuns(w, n + 1, s, c, Raised(x));
      }
    }
  }

  lemma {:induction false} IfReal(
      w: World, sc: Scope, s: Stmt, reraised: set<Name>, env: Env, x: Name) returns (handled: Option<Name>)
    requires s.If? && LiveStmt(w, sc.stack, s) && x in StmtFlow(w, sc, s, reraised, env).escapes
    ensures Handled(reraised, handled) && StmtRaises(w, s, env, handled, x)
    decreases w.functions.Keys - sc.stack, 1, s, 0, 0
  {
    handled := None;
    if x in ExprFlow(w, sc, s.test, false, false).escapes {
      forall c | Fits(env, c) && Meets(handled, c) ensures StmtCan(w, s, c, Raised(x)) {
        var n := ExprReal(w, sc, s.test, false, false, x, c);
        assert StmtRuns(w, n + 1, s, c, Raised(x));
      }
    } else {
      var branch := if x in BlockFlow(w, sc, s.body, reraised, env).escapes then s.body else s.orelse;
      handled := BlockReal(w, sc, branch, reraised, env, x);
      forall c | Fits(env, c) && Meets(handled, c) ensures StmtCan(w, s, c, Raised(x)) {
        assert BlockCan(w, branch, c, Raised(x));
        var n: nat :| BlockRuns(w, n, branch, c, Raised(x));
        assert StmtRuns(w, n + 1, s, c, Raised(x));
      }
    }
  }

  lemma {:induction false} LoopReal(
      w: World, sc: Scope, s: Stmt, reraised: set<Name>, env: Env, x: Name) returns (handled: Option<Name>)
    requires s.Loop? && LiveStmt(w, sc.stack, s) && x in StmtFlow(w, sc, s, reraised, env).escapes
    ensures Handled(reraised, handled) && StmtRaises(w, s, env, handled, x)
    decreases w.functions.Keys - sc.stack, 1, s, 0, 0
  {
    handled := None;
    if x in ExprFlow(w, sc, s.head, false, s.each).escapes {
      forall c | Fits(env, c) && Meets(handled, c) ensures StmtCan(w, s, c, Raised(x)) {
        var n := ExprReal(w, sc, s.head, false, s.each, x, c);
        assert LoopRuns(w, n + 1, s.head, s.each, s.body, s.orelse, s.implicit, c, Raised(x));
        assert StmtRuns(w, n + 2, s, c, Raised(x));
      }
    } else {
      var branch := if x in BlockFlow(w, sc, s.body, reraised, env).escapes then s.body else s.orelse;
      handled := BlockReal(w, sc, branch, reraised, env, x);
      forall c | Fits(env, c) && Meets(handled, c) ensures StmtCan(w, s, c, Raised(x)) {
        assert BlockCan(w, branch, c, Raised(x));
        var n: nat :| BlockRuns(w, n, branch, c, Raised(x));
        assert LoopRuns(w, n + 1, s.head, s.each, s.body, s.orelse, s.implicit, c, Raised(x));
        assert StmtRuns(w, n + 2, s, c, Raised(x));
      }
    }
  }

  // ----- guarded statements

  lemma {:induction false} TryReal(
      w: World, sc: Scope, s: Stmt, reraised: set<Name>, env: Env, x: Name) returns (handled: Option<Name>)
    requires s.Try? && LiveStmt(w, sc.stack, s) && x in StmtFlow(w, sc, s, reraised, env).escapes
    ensures Handled(reraised, handled) && StmtRaises(w, s, env, handled, x)
    decreases w.functions.Keys - sc.stack, 1, s, 0, 2
  {
    if x in BlockFlow(w, sc, s.finalbody, reraised, env).escapes {
      handled := BlockReal(w, sc, s.finalbody, reraised, env, x);
      forall c | Fits(env, c) && Meets(handled, c) ensures StmtCan(w, s, c, Raised(x)) {
        assert BlockCan(w, s.finalbody, c, Raised(x));
        FinallyLeaves(w, sc.stack, s, c, Raised(x));
      }
    } else {
      handled := GuardedReal(w, sc, s, reraised, env, x);
      forall c | Fits(env, c) && Meets(handled, c) ensures StmtCan(w, s, c, Raised(x)) {
        assert GuardedCan(w, s, c, Raised(x));
        FinallyPasses(w, sc.stack, s, c, Raised(x));
      }
    }
  }

  // `finally` ends normally, so that what was thrown goes on.
  lemma FinallyPasses(w: World, stack: set<Name>, s: Stmt, c: Frame, out: Outcome)
    requires s.Try? && EndsBlock(w, stack, s.finalbody) && GuardedCan(w, s, c, out)
    ensures StmtCan(w, s, c, out)
  {
    var a: nat :| GuardedRuns(w, a, s.body, s.handlers, s.orelse, c, out);
    var b := BlockEnds(w, stack, s.finalbody, Handling(c, out));
    var n := Max(a, b);
    GuardedMore(w, a, n, s.body, s.handlers, s.orelse, c, out);
    BlockMore(w, b, n, s.finalbody, Handling(c, out), Normal);
    assert TryRuns(w, n + 1, s.body, s.handlers, s.orelse, s.finalbody, c, out);
    assert StmtRuns(w, n + 2, s, c, out);
  }

  // What is guarded ends without an exception, and `finally` throws.
  lemma FinallyLeaves(w: World, stack: set<Name>, s: Stmt, c: Frame, out: Outcome)
    requires s.Try? && Finishes(w, stack, s) && BlockCan(w, s.finalbody, c, out) && out.Threw?
    ensures StmtCan(w, s, c, out)
  {
    var a, inner := GuardedFinishes(w, stack, s, c);
    var b: nat :| BlockRuns(w, b, s.finalbody, c, out);
    var n := Max(a, b);
    GuardedMore(w, a, n, s.body, s.handlers, s.orelse, c, inner);
    BlockMore(w, b, n, s.finalbody, c, out);
    assert GuardedRuns(w, n, s.body, s.handlers, s.orelse, c, inner)
           && BlockRuns(w, n, s.finalbody, Handling(c, inner), out);
    assert TryRuns(w, n + 1, s.body, s.handlers, s.orelse, s.finalbody, c, out);
    assert StmtRuns(w, n + 2, s, c, out);
  }

  lemma GuardedFinishes(w: World, stack: set<Name>, s: Stmt, c: Frame) returns (n: nat, out: Outcome)
    requires s.Try? && Finishes(w, stack, s)
    ensures GuardedRuns(w, n, s.body, s.handlers, s.orelse, c, out) && !out.Threw?
  {
    if EndsBlock(w, stack, s.body) && EndsBlock(w, stack, s.orelse) {
      var a := BlockEnds(w, stack, s.body, c);
      var b := BlockEnds(w, stack, s.orelse, c);
      n, out := Max(a, b), Normal;
      BlockMore(w, a, n, s.body, c, Normal);
      BlockMore(w, b, n, s.orelse, c, Normal);
    } else if ReturnsBlock(w, stack, s.body) {
      var truthy;
      n, truthy := BlockReturns(w, stack, s.body, c);
      out := Returned(truthy);
    } else {
      var a := HandlersEnd(w, stack, s.handlers, c);
      n, out := a + 2, Normal;
      HandlersMore(w, a, n, s.handlers, IMPLICIT, c, Normal);
      ImplicitLeaves(w, n, s.body, c);
    }
    n := n + 1;
  }

  // The body throws what the handlers leave or answer, or ends so that `else` throws.
  lemma {:induction false} GuardedReal(
      w: World, sc: Scope, s: Stmt, reraised: set<Name>, env: Env, x: Name) returns (handled: Option<Name>)
    requires s.Try? && LiveStmt(w, sc.stack, s) && x in StmtFlow(w, sc, s, reraised, env).escapes
    requires x !in BlockFlow(w, sc, s.finalbody, reraised, env).escapes
    ensures Handled(reraised, handled)
    ensures forall c :: Fits(env, c) && Meets(handled, c) ==> GuardedCan(w, s, c, Raised(x))
    decreases w.functions.Keys - sc.stack, 1, s, 0, 1
  {
    if x in BlockFlow(w, sc, s.orelse, reraised, env).escapes {
      handled := BlockReal(w, sc, s.orelse, reraised, env, x);
      forall c | Fits(env, c) && Meets(handled, c) ensures GuardedCan(w, s, c, Raised(x)) {
        assert BlockCan(w, s.orelse, c, Raised(x));
        var b: nat :| BlockRuns(w, b, s.orelse, c, Raised(x));
        var a := BlockEnds(w, sc.stack, s.body, c);
        var n := Max(a, b);
        BlockMore(w, a, n, s.body, c, Normal);
        BlockMore(w, b, n, s.orelse, c, Raised(x));
        assert GuardedRuns(w, n + 1, s.body, s.handlers, s.orelse, c, Raised(x));
      }
    } else {
      var attempted := BlockFlow(w, sc, s.body, reraised, env).escapes;
      var thrown := HandlersReal(w, sc, s.handlers, attempted, env, x);
      handled := None;
      if thrown.explicit { handled := BlockReal(w, sc, s.body, reraised, env, thrown.exception); }
      forall c | Fits(env, c) && Meets(handled, c) ensures GuardedCan(w, s, c, Raised(x)) {
        assert HandlersCan(w, s.handlers, thrown, c, Raised(x));
        BodyThrows(w, s, thrown, c, Raised(x));
      }
    }
  }

  lemma BodyThrows(w: World, s: Stmt, thrown: Thrown, c: Frame, out: Outcome)
    requires s.Try? && HandlersCan(w, s.handlers, thrown, c, out)
    requires BlockCan(w, s.body, c, Threw(thrown)) || (thrown == IMPLICIT && s.body != [])
    ensures GuardedCan(w, s, c, out)
  {
    var b: nat :| HandlersRun(w, b, s.handlers, thrown, c, out);
    var a: nat := 2;
    if BlockCan(w, s.body, c, Threw(thrown)) {
      a :| BlockRuns(w, a, s.body, c, Threw(thrown));
    } else {
      ImplicitLeaves(w, a, s.body, c);
    }
    var n := Max(a, b);
    BlockMore(w, a, n, s.body, c, Threw(thrown));
    HandlersMore(w, b, n, s.handlers, thrown, c, out);
    assert GuardedRuns(w, n + 1, s.body, s.handlers, s.orelse, c, out);
  }

  // Some exception of those left makes the handlers throw, or an implicit one does.
  lemma {:induction false} HandlersReal(
      w: World, sc: Scope, handlers: seq<Handler>, remaining: set<Name>, env: Env, x: Name) returns (thrown: Thrown)
    requires LiveHandlers(w, sc.stack, handlers) && x in HandlersFlow(w, sc, handlers, remaining, env).escapes
    ensures if thrown.explicit then thrown.exception in remaining else thrown == IMPLICIT && handlers != []
    ensures forall c :: Fits(env, c) ==> HandlersCan(w, handlers, thrown, c, Raised(x))
    decreases w.functions.Keys - sc.stack, 1, handlers, 0, 0
  {
    if handlers == [] {
      thrown := Thrown(x, true);
      forall c ensures HandlersCan(w, handlers, thrown, c, Raised(x)) {
        assert HandlersRun(w, 1, handlers, thrown, c, Raised(x));
      }
    } else {
      var h := handlers[0];
      var caught := CaughtBy(w, h, remaining);
      if x in BlockFlow(w, sc, h.body, caught, HandlerEnv(h, env, caught)).escapes {
        var handled := BlockReal(w, sc, h.body, caught, HandlerEnv(h, env, caught), x);
        thrown := Answered(caught, handled);
        forall c | Fits(env, c) ensures HandlersCan(w, handlers, thrown, c, Raised(x)) {
          BoundFits(h, env, caught, thrown, c);
          assert Meets(handled, Bound(c, h, thrown));
          assert BlockCan(w, h.body, Bound(c, h, thrown), Raised(x));
          var n: nat :| BlockRuns(w, n, h.body, Bound(c, h, thrown), Raised(x));
          assert HandlersRun(w, n + 1, handlers, thrown, c, Raised(x));
        }
      } else {
        thrown := HandlersReal(w, sc, handlers[1..], remaining - caught, env, x);
        forall c | Fits(env, c) ensures HandlersCan(w, handlers, thrown, c, Raised(x)) {
          assert HandlersCan(w, handlers[1..], thrown, c, Raised(x));
          var n: nat :| HandlersRun(w, n, handlers[1..], thrown, c, Raised(x));
          assert MayMiss(w, h, thrown);
          assert HandlersRun(w, n + 1, handlers, thrown, c, Raised(x));
        }
      }
    }
  }

  // An exception that the handler takes: the one its body needs, any of those caught, or else an implicit one.
  ghost function Answered(caught: set<Name>, handled: Option<Name>): (r: Thrown)
    requires Handled(caught, handled)
    ensures if r.explicit then r.exception in caught else r == IMPLICIT && caught == {}
    ensures handled.Some? ==> r == Thrown(handled.value, true)
  {
    if handled.Some? then Thrown(handled.value, true)
    else if caught == {} then IMPLICIT
    else var y :| y in caught; Thrown(y, true)
  }

  lemma BoundFits(h: Handler, env: Env, caught: set<Name>, thrown: Thrown, c: Frame)
    requires Fits(env, c) && (caught != {} ==> thrown.explicit && thrown.exception in caught)
    ensures Fits(HandlerEnv(h, env, caught), Bound(c, h, thrown))
  {
  }

  // ----- context managers

  lemma {:induction false} ItemsReal(
      w: World, sc: Scope, s: Stmt, index: nat, reraised: set<Name>, env: Env, x: Name) returns (handled: Option<Name>)
    requires s.With? && index <= |s.items| && LiveItems(w, sc.stack, s, index)
    requires x in ContextFlow(w, sc, s, index, reraised, env).escapes
    ensures Handled(reraised, handled) && ItemsRaise(w, s, index, env, handled, x)
    decreases w.functions.Keys - sc.stack, 1, s, 0, |s.items| - index
  {
    handled := None;
    if index == |s.items| {
      handled := BlockReal(w, sc, s.body, reraised, env, x);
      forall c | Fits(env, c) && Meets(handled, c) ensures ItemsCan(w, s, index, c, Raised(x)) {
        assert BlockCan(w, s.body, c, Raised(x));
        var n: nat :| BlockRuns(w, n, s.body, c, Raised(x));
        assert WithRuns(w, n + 1, s.asynchronous, s.items[index..], s.body, c, Raised(x));
      }
    } else if !Supported(w, s.asynchronous, s.items[index]) {
      forall c ensures ItemsCan(w, s, index, c, Raised(x)) {
        assert WithRuns(w, 1, s.asynchronous, s.items[index..], s.body, c, Raised(x));
      }
    } else if FromItem(w, sc, s.items[index], x) {
      forall c ensures ItemsCan(w, s, index, c, Raised(x)) { ItemReal(w, sc, s, index, x, c); }
    } else {
      handled := ItemsReal(w, sc, s, index + 1, reraised, env, x);
      forall c | Fits(env, c) && Meets(handled, c) ensures ItemsCan(w, s, index, c, Raised(x)) {
        assert ItemsCan(w, s, index + 1, c, Raised(x));
        ExitPasses(w, sc.stack, s, index, c, x);
      }
    }
  }

  // The exception comes from making the manager, entering it, or leaving it.
  predicate FromItem(w: World, sc: Scope, item: Item, x: Name)
    requires item.enter.Some? && item.enter.value in w.functions && item.exit.Some?
  {
    || x in ExprFlow(w, sc, item.context, false, false).escapes
    || x in FunctionFlow(w, item.enter.value, false, sc.stack).escapes
    || (!AlwaysRaises(w.functions[item.enter.value].body)
        && x in FunctionFlow(w, item.exit.value, false, sc.stack).escapes)
  }

  lemma {:induction false} ItemReal(w: World, sc: Scope, s: Stmt, index: nat, x: Name, c: Frame)
    requires s.With? && index < |s.items| && LiveItems(w, sc.stack, s, index)
    requires Supported(w, s.asynchronous, s.items[index]) && FromItem(w, sc, s.items[index], x)
    ensures ItemsCan(w, s, index, c, Raised(x))
    decreases w.functions.Keys - sc.stack, 1, s, 0, 0
  {
    var item, rest := s.items[index], s.items[index + 1..];
    assert s.items[index..][0] == item && s.items[index..][1..] == rest;
    var n: nat;
    if x in ExprFlow(w, sc, item.context, false, false).escapes {
      n := ExprReal(w, sc, item.context, false, false, x, c);
    } else if x in FunctionFlow(w, item.enter.value, false, sc.stack).escapes {
      n := FunctionReal(w, item.enter.value, false, sc.stack, x, c);
    } else {
      var a := CallPasses(w, item.enter.value, false, sc.stack, c);
      var b, inner := SomeOutcome(w, s.asynchronous, rest, s.body, c);
      var d := FunctionReal(w, item.exit.value, false, sc.stack, x, Handling(c, inner));
      n := Max(a, Max(b, d + 1));
      CallMore(w, a, n, item.enter.value, false, c, Normal);
      WithMore(w, b, n, s.asynchronous, rest, s.body, c, inner);
      assert ExitRuns(w, d + 1, item.exit.value, inner, Handling(c, inner), Raised(x));
      ExitMore(w, d + 1, n, item.exit.value, inner, Handling(c, inner), Raised(x));
    }
    assert WithRuns(w, n + 1, s.asynchronous, s.items[index..], s.body, c, Raised(x));
  }

  lemma SomeOutcome(w: World, asynchronous: bool, items: seq<Item>, body: seq<Stmt>, c: Frame)
      returns (n: nat, out: Outcome)
    ensures WithRuns(w, n, asynchronous, items, body, c, out)
  {
    n, out := 3, Threw(IMPLICIT);
    if items != [] {
      assert ExprRuns(w, 2, items[0].context, false, false, c, out);
    } else if body == [] {
      out := Normal;
    } else {
      ImplicitLeaves(w, 2, body, c);
    }
  }

  // The exit method returns a false value, so that what was thrown goes on.
  lemma ExitPasses(w: World, stack: set<Name>, s: Stmt, index: nat, c: Frame, x: Name)
    requires s.With? && index < |s.items| && Supported(w, s.asynchronous, s.items[index])
    requires PassesFunction(w, s.items[index].enter.value, false, stack)
    requires Declines(w, s.items[index].exit.value, stack) && ItemsCan(w, s, index + 1, c, Raised(x))
    ensures ItemsCan(w, s, index, c, Raised(x))
  {
    var item, rest := s.items[index], s.items[index + 1..];
    assert s.items[index..][0] == item && s.items[index..][1..] == rest;
    var thrown := Raised(x);
    var a := CallPasses(w, item.enter.value, false, stack, c);
    var b: nat :| WithRuns(w, b, s.asynchronous, rest, s.body, c, thrown);
    var d, truthy := FunctionPasses(w, item.exit.value, false, stack, Handling(c, thrown));
    SuppressionSound(w, d, item.exit.value, Handling(c, thrown), truthy);
    var n := Max(a, Max(b, d + 1));
    CallMore(w, a, n, item.enter.value, false, c, Normal);
    WithMore(w, b, n, s.asynchronous, rest, s.body, c, thrown);
    assert ExitRuns(w, d + 1, item.exit.value, thrown, Handling(c, thrown), thrown);
    ExitMore(w, d + 1, n, item.exit.value, thrown, Handling(c, thrown), thrown);
    assert WithRuns(w, n + 1, s.asynchronous, s.items[index..], s.body, c, thrown);
  }

  // ----- reports of functions

  /** Nothing is reported that cannot happen: in code that can be reached, every exception of a report, complete or
      not, is raised and leaves the function in some run, whatever is being handled where it is called. */
  lemma ReportReal(w: World, f: Name, iterated: bool, x: Name, c: Frame)
    requires LiveFunction(w, f, iterated, {}) && x in FunctionFlow(w, f, iterated, {}).escapes
    ensures exists n: nat :: FunctionRuns(w, n, f, iterated, c, Raised(x))
  {
    var n := FunctionReal(w, f, iterated, {}, x, c);
  }

  /** A complete report of such a function that runs nothing without a call lists exactly what escapes. */
  lemma ReportExact(w: World, f: Name, iterated: bool, x: Name)
    requires LiveFunction(w, f, iterated, {}) && FunctionFlow(w, f, iterated, {}).Complete()
    requires RunsWithin(w, FunctionFlow(w, f, iterated, {}).visited, {})
    ensures x in FunctionFlow(w, f, iterated, {}).escapes <==>
            exists n: nat, c :: FunctionRuns(w, n, f, iterated, c, Raised(x))
  {
    if x in FunctionFlow(w, f, iterated, {}).escapes {
      ReportReal(w, f, iterated, x, Frame(None, map[]));
    }
    forall n: nat, c | FunctionRuns(w, n, f, iterated, c, Raised(x)) ensures x in FunctionFlow(w, f, iterated, {}).escapes {
      AnalysisSound(w, {}, n, f, iterated, c, Thrown(x, true));
    }
  }

  // A run of a block whose two branches both raise never gets past them.
  lemma NeverNormal(w: World, n: nat, x: Name, c: Frame)
    ensures !BlockRuns(w, n, [Raise([], Some(x), [])], c, Normal)
  {
    assert [Raise([], Some(x), [])][0] == Raise([], Some(x), []);
  }

  // if ...: raise A() else: raise B(); raise C()
  function DeadBody(a: Name, b: Name, x: Name): seq<Stmt> {
    [If(Atom, [Raise([], Some(a), [])], [Raise([], Some(b), [])]), Raise([], Some(x), [])]
  }

  /** A statement that no run reaches is reported all the same. */
  lemma DeadReported(w: World, f: Name, a: Name, b: Name, x: Name)
    requires f in w.functions && w.functions[f] == Function(false, [], "", DeadBody(a, b, x)) && x != a && x != b
    requires IsException(w.classes, x)
    ensures x in FunctionFlow(w, f, true, {}).escapes
    ensures forall n: nat, c :: !FunctionRuns(w, n, f, true, c, Raised(x))
  {
    var body, sc := DeadBody(a, b, x), Scope(f, {} + {f});
    assert body[1..] == [Raise([], Some(x), [])];
    assert x in StmtFlow(w, sc, body[1..][0], {}, map[]).escapes;
    assert x in BlockFlow(w, sc, body[1..], {}, map[]).escapes;
    assert x in BlockFlow(w, sc, body, {}, map[]).escapes;
    forall n: nat, c ensures !FunctionRuns(w, n, f, true, c, Raised(x)) {
      if n > 0 { DeadRuns(w, n - 1, a, b, x, Frame(c.handling, map[])); }
    }
  }

  lemma DeadRuns(w: World, n: nat, a: Name, b: Name, x: Name, c: Frame)
    requires x != a && x != b
    ensures !BlockRuns(w, n, DeadBody(a, b, x), c, Raised(x))
  {
    var s := DeadBody(a, b, x)[0];
    if n > 1 {
      assert !ExprRuns(w, n - 2, Atom, false, false, c, Raised(x));
      NeverNormal(w, n - 2, a, c);
      NeverNormal(w, n - 2, b, c);
      OnlyRaises(w, n - 2, a, x, c);
      OnlyRaises(w, n - 2, b, x, c);
      assert !StmtRuns(w, n - 1, s, c, Normal) && !StmtRuns(w, n - 1, s, c, Raised(x));
    }
  }

  lemma OnlyRaises(w: World, n: nat, a: Name, x: Name, c: Frame)
    requires x != a
    ensures !BlockRuns(w, n, [Raise([], Some(a), [])], c, Raised(x))
  {
    assert [Raise([], Some(a), [])][0] == Raise([], Some(a), []) && [Raise([], Some(a), [])][1..] == [];
    if n > 1 {
      assert !ExprsRun(w, n - 2, [], c, Raised(x)) && !ImplicitRuns(w, n - 2, [], c, Raised(x));
      assert !BlockRuns(w, n - 1, [], c, Raised(x));
    }
  }

  // ----- which handler takes an exception

  // No handler of these takes the exception.
  predicate Untaken(w: World, handlers: seq<Handler>, x: Name) {
    forall h :: h in handlers ==> !Catches(w, h, x)
  }

  // The exceptions that the handler takes, as the first one to catch them.
  function TakenBy(w: World, handlers: seq<Handler>, i: nat, thrown: set<Name>): set<Name>
    requires i < |handlers|
  {
    set x | x in thrown && Catches(w, handlers[i], x) && Untaken(w, handlers[..i], x)
  }

  // What the body of a handler does with the exceptions that it takes.
  function Answer(w: World, sc: Scope, handlers: seq<Handler>, i: nat, thrown: set<Name>, env: Env): Flow
    requires i < |handlers|
  {
    var taken := TakenBy(w, handlers, i, thrown);
    BlockFlow(w, sc, handlers[i].body, taken, HandlerEnv(handlers[i], env, taken))
  }

  ghost predicate SomeAnswer(w: World, sc: Scope, handlers: seq<Handler>, thrown: set<Name>, env: Env, x: Name) {
    exists i :: 0 <= i < |handlers| && x in Answer(w, sc, handlers, i, thrown, env).escapes
  }

  lemma LaterAnswer(w: World, sc: Scope, handlers: seq<Handler>, i: nat, thrown: set<Name>, env: Env)
    requires i + 1 < |handlers|
    ensures Answer(w, sc, handlers, i + 1, thrown, env) ==
            Answer(w, sc, handlers[1..], i, thrown - CaughtBy(w, handlers[0], thrown), env)
  {
    hide BlockFlow, HandlerEnv;
    assert handlers[..i + 1] == [handlers[0]] + handlers[1..][..i];
    assert TakenBy(w, handlers, i + 1, thrown)
           == TakenBy(w, handlers[1..], i, thrown - CaughtBy(w, handlers[0], thrown));
  }

  lemma AnswersStep(w: World, sc: Scope, handlers: seq<Handler>, thrown: set<Name>, env: Env, x: Name)
    requires handlers != []
    ensures SomeAnswer(w, sc, handlers, thrown, env, x) <==>
            || x in Answer(w, sc, handlers, 0, thrown, env).escapes
            || SomeAnswer(w, sc, handlers[1..], thrown - CaughtBy(w, handlers[0], thrown), env, x)
  {
    hide Answer;
    var left := thrown - CaughtBy(w, handlers[0], thrown);
    if i :| 0 <= i < |handlers| && x in Answer(w, sc, handlers, i, thrown, env).escapes {
      if i > 0 {
        LaterAnswer(w, sc, handlers, i - 1, thrown, env);
        assert x in Answer(w, sc, handlers[1..], i - 1, left, env).escapes;
      }
    }
    if i :| 0 <= i < |handlers[1..]| && x in Answer(w, sc, handlers[1..], i, left, env).escapes {
      LaterAnswer(w, sc, handlers, i, thrown, env);
      assert x in Answer(w, sc, handlers, i + 1, thrown, env).escapes;
    }
  }

  /** Handlers take exceptions away: what escapes was taken by none of them, or escapes the body of a handler that
      re-raises and binds nothing but the exceptions that it is the first to catch. */
  lemma {:induction false} HandlersExactly(
      w: World, sc: Scope, handlers: seq<Handler>, thrown: set<Name>, env: Env, x: Name)
    ensures x in HandlersFlow(w, sc, handlers, thrown, env).escapes <==>
            (x in thrown && Untaken(w, handlers, x)) || SomeAnswer(w, sc, handlers, thrown, env, x)
  {
    hide Answer, SomeAnswer, BlockFlow;
    if handlers == [] {
      NoAnswer(w, sc, thrown, env, x);
    } else {
      var h, rest := handlers[0], handlers[1..];
      HandlersExactly(w, sc, rest, thrown - CaughtBy(w, h, thrown), env, x);
      AnswersStep(w, sc, handlers, thrown, env, x);
      FirstAnswer(w, sc, handlers, thrown, env);
      assert handlers == [h] + rest;
      assert Untaken(w, handlers, x) <==> !Catches(w, h, x) && Untaken(w, rest, x);
    }
  }

  lemma NoAnswer(w: World, sc: Scope, thrown: set<Name>, env: Env, x: Name)
    ensures !SomeAnswer(w, sc, [], thrown, env, x)
  {
  }

  lemma FirstAnswer(w: World, sc: Scope, handlers: seq<Handler>, thrown: set<Name>, env: Env)
    requires handlers != []
    ensures var caught := CaughtBy(w, handlers[0], thrown);
      Answer(w, sc, handlers, 0, thrown, env)
      == BlockFlow(w, sc, handlers[0].body, caught, HandlerEnv(handlers[0], env, caught))
  {
    hide BlockFlow, HandlerEnv;
    assert TakenBy(w, handlers, 0, thrown) == CaughtBy(w, handlers[0], thrown);
  }

  /** What escapes a `try`: what escapes its body and no handler takes, or what escapes a handler, `else`
      or `finally`. */
  lemma TryExactly(w: World, sc: Scope, s: Stmt, reraised: set<Name>, env: Env, x: Name)
    requires s.Try?
    ensures x in StmtFlow(w, sc, s, reraised, env).escapes <==>
            var thrown := BlockFlow(w, sc, s.body, reraised, env).escapes;
            || (x in thrown && Untaken(w, s.handlers, x))
            || SomeAnswer(w, sc, s.handlers, thrown, env, x)
            || x in BlockFlow(w, sc, s.orelse, reraised, env).escapes
            || x in BlockFlow(w, sc, s.finalbody, reraised, env).escapes
  {
    HandlersExactly(w, sc, s.handlers, BlockFlow(w, sc, s.body, reraised, env).escapes, env, x);
  }

  // A handler that raises what it takes: by a bare raise, or by the name of the one exception it can hold.
  predicate Rethrows(w: World, h: Handler, caught: set<Name>) {
    || (h.body == [Reraise] && caught != {})
    || (h.variable.Some? && h.body == [RaiseCaught(h.variable.value)]
        && exists x :: x in caught && caught == {x} && IsException(w.classes, x))
  }

  /** A handler that takes exceptions only to raise them again changes nothing: the `try` has the flow of its body. */
  lemma RethrowKeeps(w: World, sc: Scope, body: seq<Stmt>, h: Handler, reraised: set<Name>, env: Env)
    requires !UnresolvedHandler(w, h)
    requires Rethrows(w, h, CaughtBy(w, h, BlockFlow(w, sc, body, reraised, env).escapes))
    ensures StmtFlow(w, sc, Try(body, [h], [], []), reraised, env) == BlockFlow(w, sc, body, reraised, env)
  {
    hide BlockFlow;
    var flow := BlockFlow(w, sc, body, reraised, env);
    var caught := CaughtBy(w, h, flow.escapes);
    RethrownFlow(w, sc, h, caught, env);
    LoneHandler(w, sc, h, flow.escapes, env);
    NothingFollowed(w, sc, reraised, env);
    hide HandlersFlow, Rethrows, UnresolvedHandler, MayReplace, CaughtBy;
    assert Escaping(caught).Plus(Escaping(flow.escapes - caught)) == Escaping(flow.escapes);
  }

  lemma LoneHandler(w: World, sc: Scope, h: Handler, thrown: set<Name>, env: Env)
    requires !UnresolvedHandler(w, h)
    ensures var caught := CaughtBy(w, h, thrown);
      HandlersFlow(w, sc, [h], thrown, env)
      == BlockFlow(w, sc, h.body, caught, HandlerEnv(h, env, caught)).Plus(Escaping(thrown - caught))
  {
    hide BlockFlow;
    assert HandlersFlow(w, sc, [h][1..], thrown - CaughtBy(w, h, thrown), env)
           == Escaping(thrown - CaughtBy(w, h, thrown));
  }

  lemma RethrownFlow(w: World, sc: Scope, h: Handler, caught: set<Name>, env: Env)
    requires Rethrows(w, h, caught)
    ensures BlockFlow(w, sc, h.body, caught, HandlerEnv(h, env, caught)) == Escaping(caught)
  {
    var bound := HandlerEnv(h, env, caught);
    assert BlockFlow(w, sc, h.body, caught, bound) == StmtFlow(w, sc, h.body[0], caught, bound);
  }

  lemma NothingFollowed(w: World, sc: Scope, reraised: set<Name>, env: Env)
    ensures BlockFlow(w, sc, [], reraised, env) == Empty && !MayReplace([])
  {
  }
}
