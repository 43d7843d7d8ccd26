/**
 Why the checker calls a report incomplete, `fastapi_canon/checks/analysis.py`: each thing that it could not decide
 is there in the code that it followed. What a construct is about is said statement by statement and expression by
 expression, without following calls.
 */
module Reasons {
  import opened Wrappers
  import opened Linearization
  import opened Hierarchy
  import opened Program
  import opened Flows

  // An order of functions, in which code that does not recurse names only smaller ones.
  type Rank = map<Name, nat>

  function Level(rank: Rank, f: Name): nat {
    if f in rank then rank[f] else 0
  }

  predicate Below(rank: Rank, f: Name, owner: Name) {
    Level(rank, f) < Level(rank, owner)
  }

  // ----- code that gives a reason

  function Named(callee: Callee): set<Name> {
    match callee
    case Definition(target, _) => {target}
    case Port(candidates) => set candidate | candidate in candidates && candidate.Some? :: candidate.value
    case Construction(_, hooks) => set f | f in hooks
    case Library(_, callbacks) => set f | f in callbacks
    case _ => {}
  }

  predicate CalleeHas(w: World, rank: Rank, u: Unknown, callee: Callee, awaited: bool, iterated: bool) {
    || (callee.Library? && ExprsHave(w, rank, u, callee.receiver))
    || match u.problem
       case RecursiveCall => exists f :: f in Named(callee) && !Below(rank, f, u.owner)
       case DeferredCoroutine =>
         (callee.Definition? || callee.Port?) && exists f :: f in Named(callee) && Deferred(w, f, awaited, iterated)
       case OverridableDispatch => callee.Definition? && callee.overridable
       case UnresolvedImplementation => callee.Port? && None in callee.candidates
       case UnboundPort => callee == Port([])
       case UnresolvedConstruction => callee.Construction? && !callee.resolved
       case UnresolvedCall => callee.Unresolved?
       case _ => false
  }

  predicate ExprHas(w: World, rank: Rank, u: Unknown, e: Expr, awaited: bool, iterated: bool) {
    match e
    case Atom => false
    case Operands(parts) => ExprsHave(w, rank, u, parts)
    case Yield(value) => ExprHas(w, rank, u, value, false, false)
    case Await(value) => ExprHas(w, rank, u, value, true, iterated)
    case Call(arguments, callee) =>
      ExprsHave(w, rank, u, arguments) || CalleeHas(w, rank, u, callee, awaited, iterated)
  }

  predicate ExprsHave(w: World, rank: Rank, u: Unknown, es: seq<Expr>) {
    es != [] && (ExprHas(w, rank, u, es[0], false, false) || ExprsHave(w, rank, u, es[1..]))
  }

  // Statements after one that ends the block are not followed.
  predicate BlockHas(w: World, rank: Rank, u: Unknown, body: seq<Stmt>) {
    body != [] && (StmtHas(w, rank, u, body[0]) || (!Ends(body[0]) && BlockHas(w, rank, u, body[1..])))
  }

  predicate StmtHas(w: World, rank: Rank, u: Unknown, s: Stmt) {
    match s
    case Evaluate(value) => ExprHas(w, rank, u, value, false, false)
    case Return(result) => result.Computed? && ExprHas(w, rank, u, result.value, false, false)
    case Raise(parts, raised, _) =>
      || ExprsHave(w, rank, u, parts)
      || (u.problem.UnresolvedRaise? && (raised.None? || !IsException(w.classes, raised.value)))
    case RaiseCaught(_) => u.problem.UnresolvedRaise?
    case Reraise => u.problem.UnresolvedReraise?
    case If(test, body, orelse) =>
      ExprHas(w, rank, u, test, false, false) || BlockHas(w, rank, u, body) || BlockHas(w, rank, u, orelse)
    case Loop(head, each, body, orelse, _) =>
      ExprHas(w, rank, u, head, false, each) || BlockHas(w, rank, u, body) || BlockHas(w, rank, u, orelse)
    case Try(body, handlers, orelse, finalbody) =>
      || BlockHas(w, rank, u, body) || HandlersHave(w, rank, u, handlers)
      || BlockHas(w, rank, u, orelse) || BlockHas(w, rank, u, finalbody)
      || (u.problem.FinallyMayReplace? && MayReplace(finalbody))
    case With(asynchronous, items, body) =>
      (exists i :: 0 <= i < |items| && ItemHas(w, rank, u, asynchronous, items[i])) || BlockHas(w, rank, u, body)
    case LocalFunction(evaluated) => ExprsHave(w, rank, u, evaluated)
    case LocalClass(evaluated) => u.problem.NestedClass? || ExprsHave(w, rank, u, evaluated)
    case Unsupported(_) => u.problem.UnsupportedStatement?
    case _ => false
  }

  predicate HandlersHave(w: World, rank: Rank, u: Unknown, handlers: seq<Handler>) {
    handlers != [] &&
    (|| (u.problem.UnknownHandler? && UnresolvedHandler(w, handlers[0]))
     || BlockHas(w, rank, u, handlers[0].body) || HandlersHave(w, rank, u, handlers[1..]))
  }

  predicate ItemHas(w: World, rank: Rank, u: Unknown, asynchronous: bool, item: Item) {
    || ExprHas(w, rank, u, item.context, false, false)
    || match u.problem
       case ContextProtocol => !Supported(w, asynchronous, item)
       case ContextTarget => !item.simple
       case UnresolvedSuppression =>
         Supported(w, asynchronous, item) && Suppression(w.functions[item.exit.value].body).None?
       case RecursiveCall =>
         && Supported(w, asynchronous, item)
         && !(Below(rank, item.enter.value, u.owner) && Below(rank, item.exit.value, u.owner))
       case _ => false
  }

  predicate BodyHas(w: World, rank: Rank, followed: set<Name>, u: Unknown) {
    u.owner in followed && u.owner in w.functions && BlockHas(w, rank, u, w.functions[u.owner].body)
  }

  // What is unknown is there in the code of a followed function, or in how the function itself is defined. A call is
  // only recursive where some followed function names one that is not below it, whatever the order.
  ghost predicate Reason(w: World, rank: Rank, followed: set<Name>, u: Unknown) {
    match u.problem
    case RecursiveCall => exists f :: f in followed && BodyHas(w, rank, followed, Unknown(RecursiveCall, f))
    case AbstractImplementation => u.owner in w.functions && AbstractMethod in w.functions[u.owner].decorators
    case UnresolvedDecorator => u.owner in w.functions && Opaque in w.functions[u.owner].decorators
    case DeferredGenerator => IsGenerator(w, u.owner)
    case UnresolvedCall => u.owner !in w.functions || BodyHas(w, rank, followed, u)
    case _ => BodyHas(w, rank, followed, u)
  }

  // ----- every report has its reason

  // What is asked: a recursion is only to be explained where all functions under analysis are above.
  predicate Asked(rank: Rank, sc: Scope, u: Unknown) {
    u.problem.RecursiveCall? ==> forall f :: f in sc.stack ==> !Below(rank, f, sc.owner)
  }

  // The reason lies in another function, or in this code of the owner.
  ghost predicate Explained(w: World, rank: Rank, followed: set<Name>, sc: Scope, u: Unknown, here: bool) {
    Reason(w, rank, followed, u) || (here && InBody(u.problem) && (u.owner == sc.owner || u.problem.RecursiveCall?))
  }

  // Things that the statements of a body leave open, not the way a function is defined.
  predicate InBody(problem: Problem) {
    !problem.AbstractImplementation? && !problem.UnresolvedDecorator? && !problem.DeferredGenerator?
  }

  function Here(sc: Scope, u: Unknown): Unknown {
    Unknown(u.problem, sc.owner)
  }

  lemma {:induction false} FunctionExplained(
      w: World, rank: Rank, followed: set<Name>, f: Name, iterated: bool, stack: set<Name>, u: Unknown)
    requires u in FunctionFlow(w, f, iterated, stack).unknowns
    requires FunctionFlow(w, f, iterated, stack).visited <= followed
    requires u.problem.RecursiveCall? ==> forall g :: g in stack ==> Below(rank, f, g)
    ensures Reason(w, rank, followed, u)
    decreases w.functions.Keys - stack, 0, 0
  {
    if f !in stack && f in w.functions {
      var definition := w.functions[f];
      var sc := Scope(f, stack + {f});
      if AbstractMethod !in definition.decorators && (iterated || !Generator(definition)) {
        var flow := BlockFlow(w, sc, definition.body, {}, map[]);
        assert flow.visited + {f} <= FunctionFlow(w, f, iterated, stack).visited;
        if u in flow.unknowns { BlockExplained(w, rank, followed, sc, definition.body, {}, map[], u); }
      }
    }
  }

  lemma {:induction false} InvokedExplained(
      w: World, rank: Rank, followed: set<Name>, sc: Scope, f: Name, awaited: bool, iterated: bool, u: Unknown)
    requires u in InvokedFlow(w, sc, f, awaited, iterated).unknowns && Asked(rank, sc, u)
    requires InvokedFlow(w, sc, f, awaited, iterated).visited <= followed
    ensures || Reason(w, rank, followed, u) || (u.problem.RecursiveCall? && !Below(rank, f, sc.owner))
            || (u == Unknown(DeferredCoroutine, sc.owner) && Deferred(w, f, awaited, iterated))
    decreases w.functions.Keys - sc.stack, 0, 1
  {
    if !Deferred(w, f, awaited, iterated) && (u.problem.RecursiveCall? ==> Below(rank, f, sc.owner)) {
      FunctionExplained(w, rank, followed, f, iterated && IsGenerator(w, f), sc.stack, u);
    }
  }

  lemma {:induction false} CandidatesExplained(
      w: World, rank: Rank, followed: set<Name>, sc: Scope, candidates: seq<Option<Name>>, awaited: bool,
      iterated: bool, u: Unknown)
    requires u in CandidatesFlow(w, sc, candidates, awaited, iterated).unknowns && Asked(rank, sc, u)
    requires CandidatesFlow(w, sc, candidates, awaited, iterated).visited <= followed
    ensures Explained(w, rank, followed, sc, u,
                      CalleeHas(w, rank, Here(sc, u), Port(candidates), awaited, iterated))
    decreases w.functions.Keys - sc.stack, 0, 2 + |candidates|
  {
    var first, rest := candidates[0], candidates[1..];
    if u in CandidatesFlow(w, sc, rest, awaited, iterated).unknowns {
      CandidatesExplained(w, rank, followed, sc, rest, awaited, iterated, u);
      assert Named(Port(rest)) <= Named(Port(candidates));
    } else if first.Some? {
      InvokedExplained(w, rank, followed, sc, first.value, awaited, iterated, u);
      assert first.value in Named(Port(candidates));
    }
  }

  lemma {:induction false} EachExplained(
      w: World, rank: Rank, followed: set<Name>, sc: Scope, fs: seq<Name>, callbacks: bool, u: Unknown)
    requires u in EachFlow(w, sc, fs, callbacks).unknowns && Asked(rank, sc, u)
    requires EachFlow(w, sc, fs, callbacks).visited <= followed
    ensures || Reason(w, rank, followed, u)
            || (u.problem.RecursiveCall? && exists f :: f in fs && !Below(rank, f, sc.owner))
    decreases w.functions.Keys - sc.stack, 0, 2 + |fs|
  {
    if u in EachFlow(w, sc, fs[1..], callbacks).unknowns {
      EachExplained(w, rank, followed, sc, fs[1..], callbacks, u);
    } else if u.problem.RecursiveCall? ==> Below(rank, fs[0], sc.owner) {
      FunctionExplained(w, rank, followed, fs[0], callbacks && IsGenerator(w, fs[0]), sc.stack, u);
    }
  }

  lemma {:induction false} CalleeExplained(
      w: World, rank: Rank, followed: set<Name>, sc: Scope, callee: Callee, awaited: bool, iterated: bool, u: Unknown)
    requires u in CalleeFlow(w, sc, callee, awaited, iterated).unknowns && Asked(rank, sc, u)
    requires CalleeFlow(w, sc, callee, awaited, iterated).visited <= followed
    ensures Explained(w, rank, followed, sc, u, CalleeHas(w, rank, Here(sc, u), callee, awaited, iterated))
    decreases w.functions.Keys - sc.stack, 1, callee, 0, 0
  {
    match callee {
      case Definition(target, overridable) =>
        assert target in Named(callee);
        if u in InvokedFlow(w, sc, target, awaited, iterated).unknowns {
          InvokedExplained(w, rank, followed, sc, target, awaited, iterated, u);
        }
      case Port(candidates) =>
        if u in CandidatesFlow(w, sc, candidates, awaited, iterated).unknowns {
          CandidatesExplained(w, rank, followed, sc, candidates, awaited, iterated, u);
        }
      case Construction(resolved, hooks) =>
        if u in EachFlow(w, sc, hooks, false).unknowns {
          EachExplained(w, rank, followed, sc, hooks, false, u);
          assert forall f :: f in hooks ==> f in Named(callee);
        }
      case Library(receiver, callbacks) =>
        if u in ExprsFlow(w, sc, receiver).unknowns {
          ExprsExplained(w, rank, followed, sc, receiver, u);
        } else {
          EachExplained(w, rank, followed, sc, callbacks, true, u);
          assert forall f :: f in callbacks ==> f in Named(callee);
        }
      case Unresolved =>
    }
  }

  lemma {:induction false} ExprExplained(
      w: World, rank: Rank, followed: set<Name>, sc: Scope, e: Expr, awaited: bool, iterated: bool, u: Unknown)
    requires u in ExprFlow(w, sc, e, awaited, iterated).unknowns && Asked(rank, sc, u)
    requires ExprFlow(w, sc, e, awaited, iterated).visited <= followed
    ensures Explained(w, rank, followed, sc, u, ExprHas(w, rank, Here(sc, u), e, awaited, iterated))
    decreases w.functions.Keys - sc.stack, 1, e, 0, 0
  {
    match e {
      case Operands(parts) => ExprsExplained(w, rank, followed, sc, parts, u);
      case Yield(value) => ExprExplained(w, rank, followed, sc, value, false, false, u);
      case Await(value) => ExprExplained(w, rank, followed, sc, value, true, iterated, u);
      case Call(arguments, callee) =>
        if u in ExprsFlow(w, sc, arguments).unknowns {
          ExprsExplained(w, rank, followed, sc, arguments, u);
        } else {
          CalleeExplained(w, rank, followed, sc, callee, awaited, iterated, u);
        }
    }
  }

  lemma {:induction false} ExprsExplained(
      w: World, rank: Rank, followed: set<Name>, sc: Scope, es: seq<Expr>, u: Unknown)
    requires u in ExprsFlow(w, sc, es).unknowns && Asked(rank, sc, u)
    requires ExprsFlow(w, sc, es).visited <= followed
    ensures Explained(w, rank, followed, sc, u, ExprsHave(w, rank, Here(sc, u), es))
    decreases w.functions.Keys - sc.stack, 1, es, 0, 0
  {
    if u in ExprFlow(w, sc, es[0], false, false).unknowns {
      ExprExplained(w, rank, followed, sc, es[0], false, false, u);
    } else {
      ExprsExplained(w, rank, followed, sc, es[1..], u);
    }
  }

  lemma {:induction false} BlockExplained(
      w: World, rank: Rank, followed: set<Name>, sc: Scope, body: seq<Stmt>, reraised: set<Name>, env: Env, u: Unknown)
    requires u in BlockFlow(w, sc, body, reraised, env).unknowns && Asked(rank, sc, u)
    requires BlockFlow(w, sc, body, reraised, env).visited <= followed
    ensures Explained(w, rank, followed, sc, u, BlockHas(w, rank, Here(sc, u), body))
    decreases w.functions.Keys - sc.stack, 1, body, 0, 0
  {
    if u in StmtFlow(w, sc, body[0], reraised, env).unknowns {
      StmtExplained(w, rank, followed, sc, body[0], reraised, env, u);
    } else {
      BlockExplained(w, rank, followed, sc, body[1..], reraised, env, u);
    }
  }

  lemma {:induction false} StmtExplained(
      w: World, rank: Rank, followed: set<Name>, sc: Scope, s: Stmt, reraised: set<Name>, env: Env, u: Unknown)
    requires u in StmtFlow(w, sc, s, reraised, env).unknowns && Asked(rank, sc, u)
    requires StmtFlow(w, sc, s, reraised, env).visited <= followed
    ensures Explained(w, rank, followed, sc, u, StmtHas(w, rank, Here(sc, u), s))
    decreases w.functions.Keys - sc.stack, 1, s, 1, 0
  {
    match s {
      case Evaluate(value) => ExprExplained(w, rank, followed, sc, value, false, false, u);
      case Return(result) => ExprExplained(w, rank, followed, sc, result.value, false, false, u);
      case Raise(parts, _, _) =>
        if u in ExprsFlow(w, sc, parts).unknowns { ExprsExplained(w, rank, followed, sc, parts, u); }
      case If(test, body, orelse) => BranchesExplained(w, rank, followed, sc, s, test, false, reraised, env, u);
      case Loop(head, each, body, orelse, _) =>
        BranchesExplained(w, rank, followed, sc, s, head, each, reraised, env, u);
      case Try(_, _, _, _) => TryExplained(w, rank, followed, sc, s, reraised, env, u);
      case With(_, _, _) => ContextExplained(w, rank, followed, sc, s, 0, reraised, env, u);
      case LocalFunction(evaluated) => ExprsExplained(w, rank, followed, sc, evaluated, u);
      case LocalClass(evaluated) =>
        if u in ExprsFlow(w, sc, evaluated).unknowns { ExprsExplained(w, rank, followed, sc, evaluated, u); }
      case _ =>
    }
  }

  lemma {:induction false} BranchesExplained(
      w: World, rank: Rank, followed: set<Name>, sc: Scope, s: Stmt, head: Expr, each: bool, reraised: set<Name>,
      env: Env, u: Unknown)
    requires (s.If? && s.test == head && !each) || (s.Loop? && s.head == head && s.each == each)
    requires u in StmtFlow(w, sc, s, reraised, env).unknowns && Asked(rank, sc, u)
    requires StmtFlow(w, sc, s, reraised, env).visited <= followed
    ensures Explained(w, rank, followed, sc, u, StmtHas(w, rank, Here(sc, u), s))
    decreases w.functions.Keys - sc.stack, 1, s, 0, 0
  {
    if u in ExprFlow(w, sc, head, false, each).unknowns {
      ExprExplained(w, rank, followed, sc, head, false, each, u);
    } else if u in BlockFlow(w, sc, s.body, reraised, env).unknowns {
      BlockExplained(w, rank, followed, sc, s.body, reraised, env, u);
    } else {
      BlockExplained(w, rank, followed, sc, s.orelse, reraised, env, u);
    }
  }

  lemma {:induction false} TryExplained(
      w: World, rank: Rank, followed: set<Name>, sc: Scope, s: Stmt, reraised: set<Name>, env: Env, u: Unknown)
    requires s.Try? && u in StmtFlow(w, sc, s, reraised, env).unknowns && Asked(rank, sc, u)
    requires StmtFlow(w, sc, s, reraised, env).visited <= followed
    ensures Explained(w, rank, followed, sc, u, StmtHas(w, rank, Here(sc, u), s))
    decreases w.functions.Keys - sc.stack, 1, s, 0, 0
  {
    var attempted := BlockFlow(w, sc, s.body, reraised, env);
    if u in attempted.unknowns {
      BlockExplained(w, rank, followed, sc, s.body, reraised, env, u);
    } else if u in HandlersFlow(w, sc, s.handlers, attempted.escapes, env).unknowns {
      HandlersExplained(w, rank, followed, sc, s.handlers, attempted.escapes, env, u);
    } else if u in BlockFlow(w, sc, s.orelse, reraised, env).unknowns {
      BlockExplained(w, rank, followed, sc, s.orelse, reraised, env, u);
    } else if u in BlockFlow(w, sc, s.finalbody, reraised, env).unknowns {
      BlockExplained(w, rank, followed, sc, s.finalbody, reraised, env, u);
    }
  }

  lemma {:induction false} HandlersExplained(
      w: World, rank: Rank, followed: set<Name>, sc: Scope, handlers: seq<Handler>, remaining: set<Name>, env: Env,
      u: Unknown)
    requires u in HandlersFlow(w, sc, handlers, remaining, env).unknowns && Asked(rank, sc, u)
    requires HandlersFlow(w, sc, handlers, remaining, env).visited <= followed
    ensures Explained(w, rank, followed, sc, u, HandlersHave(w, rank, Here(sc, u), handlers))
    decreases w.functions.Keys - sc.stack, 1, handlers, 0, 0
  {
    var h := handlers[0];
    var caught := CaughtBy(w, h, remaining);
    if u in BlockFlow(w, sc, h.body, caught, HandlerEnv(h, env, caught)).unknowns {
      BlockExplained(w, rank, followed, sc, h.body, caught, HandlerEnv(h, env, caught), u);
    } else if u in HandlersFlow(w, sc, handlers[1..], remaining - caught, env).unknowns {
      HandlersExplained(w, rank, followed, sc, handlers[1..], remaining - caught, env, u);
    }
  }

  // What follows the item is reached: its enter method does not always raise.
  predicate Enters(w: World, s: Stmt, index: nat)
    requires s.With? && index < |s.items|
  {
    Supported(w, s.asynchronous, s.items[index]) ==> !AlwaysRaises(w.functions[s.items[index].enter.value].body)
  }

  lemma EnteredVisits(w: World, sc: Scope, s: Stmt, index: nat, reraised: set<Name>, env: Env)
    requires s.With? && index < |s.items| && Enters(w, s, index)
    ensures ContextFlow(w, sc, s, index + 1, reraised, env).visited
            <= ContextFlow(w, sc, s, index, reraised, env).visited
  {
  }

  lemma ItemInStmt(w: World, rank: Rank, u: Unknown, s: Stmt, index: nat)
    requires s.With? && index < |s.items|
    ensures ItemHas(w, rank, u, s.asynchronous, s.items[index]) ==> StmtHas(w, rank, u, s)
  {
  }

  lemma BodyInStmt(w: World, rank: Rank, u: Unknown, s: Stmt)
    requires s.With?
    ensures BlockHas(w, rank, u, s.body) ==> StmtHas(w, rank, u, s)
  {
  }

  lemma {:induction false} ContextExplained(
      w: World, rank: Rank, followed: set<Name>, sc: Scope, s: Stmt, index: nat, reraised: set<Name>, env: Env,
      u: Unknown)
    requires s.With? && index <= |s.items|
    requires u in ContextFlow(w, sc, s, index, reraised, env).unknowns && Asked(rank, sc, u)
    requires ContextFlow(w, sc, s, index, reraised, env).visited <= followed
    ensures Explained(w, rank, followed, sc, u, StmtHas(w, rank, Here(sc, u), s))
    decreases w.functions.Keys - sc.stack, 1, s, 0, |s.items| - index
  {
    hide Reason, StmtHas, ItemHas, Left, Supported, AlwaysRaises, FunctionFlow, ExprFlow, Asked;
    if index == |s.items| {
      BlockExplained(w, rank, followed, sc, s.body, reraised, env, u);
      BodyInStmt(w, rank, Here(sc, u), s);
    } else if Enters(w, s, index) && u in ContextFlow(w, sc, s, index + 1, reraised, env).unknowns {
      EnteredVisits(w, sc, s, index, reraised, env);
      ContextExplained(w, rank, followed, sc, s, index + 1, reraised, env, u);
    } else {
      ItemExplained(w, rank, followed, sc, s, index, reraised, env, u);
      ItemInStmt(w, rank, Here(sc, u), s, index);
    }
  }

  lemma {:induction false} ItemExplained(
      w: World, rank: Rank, followed: set<Name>, sc: Scope, s: Stmt, index: nat, reraised: set<Name>, env: Env,
      u: Unknown)
    requires s.With? && index < |s.items|
    requires u in ContextFlow(w, sc, s, index, reraised, env).unknowns && Asked(rank, sc, u)
    requires ContextFlow(w, sc, s, index, reraised, env).visited <= followed
    requires Enters(w, s, index) ==> u !in ContextFlow(w, sc, s, index + 1, reraised, env).unknowns
    ensures Explained(w, rank, followed, sc, u, ItemHas(w, rank, Here(sc, u), s.asynchronous, s.items[index]))
    decreases w.functions.Keys - sc.stack, 1, s, 0, 0
  {
    hide Reason, ExprHas, BlockHas, BlockFlow, ExprFlow;
    var item := s.items[index];
    if u in ExprFlow(w, sc, item.context, false, false).unknowns {
      ExprExplained(w, rank, followed, sc, item.context, false, false, u);
    } else if Supported(w, s.asynchronous, item) {
      var enter, exit := item.enter.value, item.exit.value;
      if u.problem.RecursiveCall? && !(Below(rank, enter, sc.owner) && Below(rank, exit, sc.owner)) {
        return;
      }
      if u in FunctionFlow(w, enter, false, sc.stack).unknowns {
        FunctionExplained(w, rank, followed, enter, false, sc.stack, u);
      } else if !AlwaysRaises(w.functions[enter].body) && u in FunctionFlow(w, exit, false, sc.stack).unknowns {
        FunctionExplained(w, rank, followed, exit, false, sc.stack, u);
      }
    }
  }

  /** A report is only incomplete for a reason that is there in a followed function: nothing decidable is reported
      as unknown. No call is called recursive where the functions can be put in an order in which their code names
      only smaller ones. */
  lemma UnknownExplained(w: World, rank: Rank, f: Name, iterated: bool, u: Unknown)
    requires u in FunctionFlow(w, f, iterated, {}).unknowns
    ensures Reason(w, rank, FunctionFlow(w, f, iterated, {}).visited, u)
  {
    FunctionExplained(w, rank, FunctionFlow(w, f, iterated, {}).visited, f, iterated, {}, u);
  }
}
