/**
 Programs as the exception checker sees them: statements and expressions whose call targets, exception
 names and handler types are already resolved to qualified names, or marked as unresolved.
 */
module Program {
  import opened Wrappers
  import opened Linearization
  import opened Hierarchy

  datatype Callee =
    | BuiltinException                                  // constructing a built-in exception
    | Definition(target: Name, overridable: bool)       // a function; overridable when inherited through a receiver
    | Port(candidates: seq<Option<Name>>)               // an abstract method; unresolved implementations are None
    | Construction(resolved: bool, hooks: seq<Name>)    // a class, with the application hooks its construction runs
    | Library(receiver: seq<Expr>, callbacks: seq<Name>)
    | Unresolved

  datatype Expr =
    | Atom                          // names, constants, lambdas: evaluating them runs no followed code
    | Operands(parts: seq<Expr>)
    | Yield(value: Expr)
    | Await(value: Expr)
    | Call(arguments: seq<Expr>, callee: Callee)

  datatype Result = Nothing | NoneValue | FalseValue | TrueValue | Computed(value: Expr)

  // `implicit`: application methods whose code the statement runs without a call: `__iter__` and `__next__` of what
  // a loop iterates over, and `__init__` of a class that is raised without being called. An `__iter__` that is a
  // generator runs as the loop iterates it.
  datatype Stmt =
    | Evaluate(value: Expr)         // expression statements and assignments
    | Pass
    | Break
    | Continue
    | Return(result: Result)
    | Raise(parts: seq<Expr>, raised: Option<Name>, implicit: seq<Name>)
    | RaiseCaught(variable: string) // raise e, where a handler bound e
    | Reraise
    | If(test: Expr, body: seq<Stmt>, orelse: seq<Stmt>)
    | Loop(head: Expr, each: bool, body: seq<Stmt>, orelse: seq<Stmt>, implicit: seq<Name>)  // each: a for loop over head
    | Try(body: seq<Stmt>, handlers: seq<Handler>, orelse: seq<Stmt>, finalbody: seq<Stmt>)
    | With(asynchronous: bool, items: seq<Item>, body: seq<Stmt>)
    | LocalFunction(evaluated: seq<Expr>)
    | LocalClass(evaluated: seq<Expr>)
    | Unsupported(body: seq<Stmt>)

  datatype Handler = Handler(catchAll: bool, types: seq<Option<Name>>, variable: Option<string>, body: seq<Stmt>)

  // `own`: the manager's class defines both methods itself; `simple`: the value is bound to a name, if at all.
  datatype Item = Item(context: Expr, enter: Option<Name>, exit: Option<Name>, own: bool, simple: bool)

  datatype Decorator = AbstractMethod | Transparent | Opaque

  datatype Function = Function(asynchronous: bool, decorators: seq<Decorator>, scope: string, body: seq<Stmt>)

  datatype World = World(functions: map<Name, Function>, classes: Classes)

  // ----- nodes executed as part of a body, nested definitions excluded

  function Executed(body: seq<Stmt>): seq<Stmt> {
    if body == [] then [] else [body[0]] + Nested(body[0]) + Executed(body[1..])
  }

  function Nested(s: Stmt): seq<Stmt> {
    match s
    case If(_, body, orelse) => Executed(body) + Executed(orelse)
    case Loop(_, _, body, orelse, _) => Executed(body) + Executed(orelse)
    case Try(body, handlers, orelse, finalbody) =>
      Executed(body) + ExecutedByHandlers(handlers) + Executed(orelse) + Executed(finalbody)
    case With(_, _, body) => Executed(body)
    case Unsupported(body) => Executed(body)
    case _ => []
  }

  function ExecutedByHandlers(handlers: seq<Handler>): seq<Stmt> {
    if handlers == [] then [] else Executed(handlers[0].body) + ExecutedByHandlers(handlers[1..])
  }

  function ImplicitCalls(s: Stmt): seq<Name> {
    if s.Loop? || s.Raise? then s.implicit else []
  }

  predicate IsRaise(s: Stmt) {
    s.Raise? || s.RaiseCaught? || s.Reraise?
  }

  // A return or raise statement ends the block it stands in.
  predicate Ends(s: Stmt) {
    s.Return? || IsRaise(s)
  }

  predicate MayReplace(finalbody: seq<Stmt>) {
    exists s :: s in Executed(finalbody) && Ends(s)
  }

  function Returns(nodes: seq<Stmt>): (r: seq<Stmt>)
    ensures forall s :: s in r <==> s in nodes && s.Return?
  {
    if nodes == [] then []
    else if nodes[0].Return? then [nodes[0]] + Returns(nodes[1..])
    else Returns(nodes[1..])
  }

  predicate ExprYields(e: Expr) {
    match e
    case Atom => false
    case Operands(parts) => ExprsYield(parts)
    case Yield(_) => true
    case Await(value) => ExprYields(value)
    case Call(arguments, callee) => ExprsYield(arguments) || (callee.Library? && ExprsYield(callee.receiver))
  }

  predicate ExprsYield(es: seq<Expr>) {
    es != [] && (ExprYields(es[0]) || ExprsYield(es[1..]))
  }

  predicate StmtYields(s: Stmt) {
    match s
    case Evaluate(value) => ExprYields(value)
    case Return(result) => result.Computed? && ExprYields(result.value)
    case Raise(parts, _, _) => ExprsYield(parts)
    case If(test, _, _) => ExprYields(test)
    case Loop(head, _, _, _, _) => ExprYields(head)
    case With(_, items, _) => exists i :: 0 <= i < |items| && ExprYields(items[i].context)
    case _ => false
  }

  // `_generator`: the function's own code yields.
  predicate Generator(f: Function) {
    exists s :: s in Executed(f.body) && StmtYields(s)
  }

  predicate IsGenerator(w: World, f: Name) {
    f in w.functions && Generator(w.functions[f])
  }

  // A coroutine that is not awaited where it is called runs later, in ways the call does not show.
  predicate Deferred(w: World, f: Name, awaited: bool, iterated: bool) {
    f in w.functions && w.functions[f].asynchronous && !awaited && !(iterated && Generator(w.functions[f]))
  }

  // `_always_raises`: a plain prefix ends in a raise.
  predicate AlwaysRaises(body: seq<Stmt>) {
    body != [] &&
    match body[0]
    case Evaluate(_) => AlwaysRaises(body[1..])
    case Pass => AlwaysRaises(body[1..])
    case s => IsRaise(s)
  }

  // `_suppression`: whether an exit method suppresses, when its return values settle that.
  function Suppression(body: seq<Stmt>): Option<bool> {
    var exits := Returns(Executed(body));
    if exits == [] then Some(false)
    else if |exits| != 1 || Returns(body) == [] then None
    else
      match exits[0].result
      case TrueValue => Some(true)
      case Computed(_) => None
      case _ => Some(false)
  }

  predicate PlainMethod(w: World, name: Name, asynchronous: bool) {
    && name in w.functions
    && w.functions[name].asynchronous == asynchronous
    && !Generator(w.functions[name])
    && w.functions[name].decorators == []
  }

  // Whether the checker follows the manager's enter and exit methods.
  predicate Supported(w: World, asynchronous: bool, item: Item) {
    && item.enter.Some? && item.exit.Some? && item.own
    && PlainMethod(w, item.enter.value, asynchronous)
    && PlainMethod(w, item.exit.value, asynchronous)
  }

  // ----- matching exceptions against handlers

  function OrderOf(w: World, exception: Name): seq<Name> {
    match Order(w.classes, exception)
    case Some(order) => order
    case None => []
  }

  predicate UnresolvedHandler(w: World, h: Handler) {
    !h.catchAll && (h.types == [] || exists t :: t in h.types && (t.None? || Order(w.classes, t.value).None?))
  }

  predicate Catches(w: World, h: Handler, exception: Name) {
    h.catchAll || exists t :: t in h.types && t.Some? && t.value in OrderOf(w, exception)
  }
}
