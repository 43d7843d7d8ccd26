/**
 The provider-factory interpreter of `fastapi_canon/checks/source.py`: which classes the objects that a
 factory returns or yields can have, `None` standing for a class that is not known.
 */
module Factories {
  import opened Wrappers
  import opened Linearization

  datatype Expr =
    | Variable(name: string)
    | Await(value: Expr)
    | Call(parts: seq<Expr>, local: Option<string>, constructed: Option<Name>)
      // what is evaluated, the callee's bare name, and the class it resolves to
    | Choose(test: Expr, body: Expr, orelse: Expr)
    | Bind(name: string, value: Expr)   // name := value
    | YieldValue(result: Option<Expr>)  // a yield inside an expression
    | Other(parts: seq<Expr>)

  datatype Stmt =
    | Assign(targets: seq<Option<string>>, value: Expr)  // a target that is no plain name is None
    | Annotate(name: string, initial: Option<Expr>)
    | Return(result: Option<Expr>)
    | Yield(result: Option<Expr>)
    | If(test: Expr, body: seq<Stmt>, orelse: seq<Stmt>)
    | Raise(parts: seq<Expr>)
    | Define(name: string, parts: seq<Expr>, rebinds: set<string>)
      // a nested definition: its decorators and defaults, and the factory's variables that its code assigns
    | Pass
    | Evaluate(value: Expr)
    | Unmodelled(yielding: bool)                           // loops, handlers, and all other statements

  datatype Factory = Factory(parameters: set<string>, body: seq<Stmt>)

  type Classes = set<Option<Name>>
  type Env = map<string, Classes>

  // ----- what expressions contain

  datatype Kind = Binding | Yielding | Awaiting | Constructing(classes: set<Name>)

  predicate Is(k: Kind, e: Expr) {
    match k
    case Binding => e.Bind?
    case Yielding => e.YieldValue?
    case Awaiting => e.Await?
    case Constructing(classes) => e.Call? && e.constructed.Some? && e.constructed.value in classes
  }

  // `any(isinstance(node, ...) for node in ast.walk(e))`
  predicate Has(k: Kind, e: Expr)
    decreases e, 0
  {
    Is(k, e) ||
    match e
    case Variable(_) => false
    case Await(value) => Has(k, value)
    case Call(parts, _, _) => AnyHas(k, parts)
    case Choose(test, body, orelse) => Has(k, test) || Has(k, body) || Has(k, orelse)
    case Bind(_, value) => Has(k, value)
    case YieldValue(result) => result.Some? && Has(k, result.value)
    case Other(parts) => AnyHas(k, parts)
  }

  predicate AnyHas(k: Kind, es: seq<Expr>)
    decreases es, 0
  {
    es != [] && (Has(k, es[0]) || AnyHas(k, es[1..]))
  }

  // What a statement of the factory's own scope evaluates; a nested definition's parts only if asked for.
  function Parts(s: Stmt, definitions: bool): seq<Expr> {
    match s
    case Assign(_, value) => [value]
    case Annotate(_, initial) => if initial.Some? then [initial.value] else []
    case Return(result) => if result.Some? then [result.value] else []
    case Yield(result) => if result.Some? then [result.value] else []
    case If(test, _, _) => [test]
    case Raise(parts) => parts
    case Define(_, parts, _) => if definitions then parts else []
    case Evaluate(value) => [value]
    case _ => []
  }

  predicate BlockYields(body: seq<Stmt>, definitions: bool) {
    body != [] && (StmtYields(body[0], definitions) || BlockYields(body[1..], definitions))
  }

  predicate StmtYields(s: Stmt, definitions: bool) {
    || s.Yield? || (s.Unmodelled? && s.yielding) || AnyHas(Yielding, Parts(s, definitions))
    || (s.If? && (BlockYields(s.body, definitions) || BlockYields(s.orelse, definitions)))
  }

  // ----- the interpreter

  function ValueClasses(e: Expr, env: Env): Classes {
    match e
    case Variable(x) => if x in env then env[x] else {None}
    case Await(value) => ValueClasses(value, env)
    case Call(_, local, constructed) => if local.Some? && local.value in env then {None} else {constructed}
    case Choose(_, body, orelse) => ValueClasses(body, env) + ValueClasses(orelse, env)
    case _ => {None}
  }

  function OptionalClasses(e: Option<Expr>, env: Env): Classes {
    if e.Some? then ValueClasses(e.value, env) else {None}
  }

  function AssignAll(targets: seq<Option<string>>, classes: Classes, env: Env): Option<Env> {
    if targets == [] then Some(env)
    else if targets[0].None? then None
    else AssignAll(targets[1..], classes, env[targets[0].value := classes])
  }

  function At(env: Env, x: string): Classes {
    if x in env then env[x] else {None}
  }

  function Join(left: Env, right: Env): (env: Env)
    ensures env.Keys == left.Keys + right.Keys
    ensures forall x :: x in env ==> env[x] == At(left, x) + At(right, x)
  {
    map x | x in left.Keys + right.Keys :: At(left, x) + At(right, x)
  }

  // What a block provides, and the environment after it unless every path has ended.
  datatype Analysis = Analysis(provided: Classes, after: Option<Env>)

  function After(first: Classes, rest: Analysis): Analysis {
    rest.(provided := first + rest.provided)
  }

  function AfterBranches(left: Analysis, right: Analysis): Option<Env> {
    if left.after.None? then right.after
    else if right.after.None? then left.after
    else Some(Join(left.after.value, right.after.value))
  }

  // One statement, from an environment.
  function Analyze(s: Stmt, env: Env): Analysis
    decreases s, 0
  {
    match s
    case Assign(targets, value) =>
      var bound := AssignAll(targets, ValueClasses(value, env), env);
      if bound.None? then Analysis({None}, None) else Analysis({}, bound)
    case Annotate(name, value) =>
      Analysis({}, Some(if value.Some? then env[name := ValueClasses(value.value, env)] else env))
    case Return(value) => Analysis(OptionalClasses(value, env), None)
    case Yield(value) => Analysis(OptionalClasses(value, env), Some(env))
    case If(test, body, orelse) =>
      if Has(Binding, test) then Analysis({None}, None)
      else
        var left := AnalyzeBlock(body, env);
        var right := AnalyzeBlock(orelse, env);
        Analysis(left.provided + right.provided, AfterBranches(left, right))
    case Raise(_) => Analysis({}, None)
    case Define(name, _, _) => Analysis({}, Some(env[name := {None}]))
    case Pass => Analysis({}, Some(env))
    case Evaluate(value) =>
      if Has(Binding, value) || Has(Yielding, value) then Analysis({None}, None) else Analysis({}, Some(env))
    case Unmodelled(_) => Analysis({None}, None)
  }

  function AnalyzeBlock(body: seq<Stmt>, env: Env): Analysis
    decreases body, 0
  {
    if body == [] then Analysis({}, Some(env))
    else
      var first := Analyze(body[0], env);
      if first.after.None? then first
      else After(first.provided, AnalyzeBlock(body[1..], first.after.value))
  }

  function Parameters(f: Factory): Env {
    map x | x in f.parameters :: {None}
  }

  // `_constructed`
  function Constructed(f: Factory): Classes {
    var block := AnalyzeBlock(f.body, Parameters(f));
    var provided := block.provided + if block.after.Some? && !BlockYields(f.body, false) then {None} else {};
    if provided == {} then {None} else provided
  }

  /** `_factory_block`, with its loop and its local copies */
  method FactoryBlock(statements: seq<Stmt>, initial: Env) returns (provided: Classes, after: Option<Env>)
    ensures Analysis(provided, after) == AnalyzeBlock(statements, initial)
    decreases statements
  {
    var bound := initial;
    provided := {};
    assert statements[0..] == statements;
    for i := 0 to |statements|
      invariant AnalyzeBlock(statements, initial) == After(provided, AnalyzeBlock(statements[i..], bound))
    {
      assert statements[i..][1..] == statements[i + 1..];
      ghost var here := Analyze(statements[i], bound);
      ghost var rest := if here.after.Some? then AnalyzeBlock(statements[i + 1..], here.after.value) else here;
      assert here.after.Some? ==> After(provided, After(here.provided, rest)) == After(provided + here.provided, rest);
      match statements[i] {
        case Assign(targets, value) =>
          var next := AssignAll(targets, ValueClasses(value, bound), bound);
          if next.None? {
            return provided + {None}, None;
          }
          bound := next.value;
        case Annotate(name, value) =>
          if value.Some? {
            bound := bound[name := ValueClasses(value.value, bound)];
          }
        case Return(value) => return provided + OptionalClasses(value, bound), None;
        case Yield(value) => provided := provided + OptionalClasses(value, bound);
        case If(test, body, orelse) =>
          if Has(Binding, test) {
            return provided + {None}, None;
          }
          var first, left := FactoryBlock(body, bound);
          var second, right := FactoryBlock(orelse, bound);
          provided := provided + (first + second);
          if left.None? && right.None? {
            return provided, None;
          }
          if left.None? || right.None? {
            bound := if left.Some? then left.value else right.value;
          } else {
            bound := Join(left.value, right.value);
          }
        case Raise(_) => return provided, None;
        case Define(name, _, _) => bound := bound[name := {None}];
        case Pass =>
        case Evaluate(value) =>
          if Has(Binding, value) || Has(Yielding, value) {
            return provided + {None}, None;
          }
        case Unmodelled(_) => return provided + {None}, None;
      }
    }
    after := Some(bound);
  }

  // ----- running a factory

  // What a run cannot know in advance: which branch is taken, what an unmodelled value is, what a nested
  // definition that is called assigns, and whether it fails.
  datatype Choice = Branch(taken: bool) | Value(instance: Name) | Rebind(name: string, to: Name) | Failure

  // Objects are known by their class. `awaited` gives the class that awaiting an instance yields, for classes that
  // can be awaited; `created` that of the object which calling a class gives, where it is not an instance of it.
  datatype World = World(awaited: map<Name, Name>, created: map<Name, Name>)

  function Created(w: World, c: Name): Name {
    if c in w.created then w.created[c] else c
  }

  // `shared`: variables that nested definitions assign; `provided`: the classes of the objects provided so far.
  datatype Machine = Machine(env: map<string, Name>, shared: set<string>, choices: seq<Choice>, provided: seq<Name>)

  // A run that needs a choice it was not given stops.
  datatype Evaluated = Gives(instance: Name, next: Machine) | Stops(next: Machine)

  const NONE_TYPE := Name("types.NoneType")

  function AnyValue(m: Machine): Evaluated {
    if m.choices == [] || !m.choices[0].Value? then Stops(m)
    else Gives(m.choices[0].instance, m.(choices := m.choices[1..]))
  }

  // Other code runs, which may call nested definitions.
  function Disturbed(m: Machine): Machine
    decreases |m.choices|
  {
    if m.choices == [] || !m.choices[0].Rebind? || m.choices[0].name !in m.shared then m
    else Disturbed(m.(env := m.env[m.choices[0].name := m.choices[0].to], choices := m.choices[1..]))
  }

  function Evaluates(w: World, e: Expr, m: Machine): Evaluated
    decreases e, 0
  {
    if m.choices != [] && m.choices[0].Failure? then Stops(m)
    else
      match e
      case Variable(x) => if x in m.env then Gives(m.env[x], m) else AnyValue(m)
      case Await(value) =>
        (match Evaluates(w, value, m)
         case Stops(n) => Stops(n)
         case Gives(c, n) => if c in w.awaited then Gives(w.awaited[c], Disturbed(n)) else Stops(n))
      case Call(parts, local, constructed) =>
        (match EvaluatesAll(w, parts, false, m)
         case Stops(n) => Stops(n)
         case Gives(_, n) =>
           if (local.Some? && local.value in m.env) || constructed.None? then AnyValue(Disturbed(n))
           else Gives(Created(w, constructed.value), Disturbed(n)))
      case Choose(test, body, orelse) =>
        (match Evaluates(w, test, m)
         case Stops(n) => Stops(n)
         case Gives(_, n) =>
           if n.choices == [] || !n.choices[0].Branch? then Stops(n)
           else Evaluates(w, if n.choices[0].taken then body else orelse, n.(choices := n.choices[1..])))
      case Bind(name, value) =>
        (match Evaluates(w, value, m)
         case Stops(n) => Stops(n)
         case Gives(c, n) => Gives(c, n.(env := n.env[name := c])))
      case YieldValue(result) =>
        (match if result.Some? then Evaluates(w, result.value, m) else Gives(NONE_TYPE, m)
         case Stops(n) => Stops(n)
         case Gives(c, n) => AnyValue(Disturbed(n.(provided := n.provided + [c]))))
      case Other(parts) =>
        (match EvaluatesAll(w, parts, true, m)
         case Stops(n) => Stops(n)
         case Gives(_, n) => AnyValue(Disturbed(n)))
  }

  // Parts in order; `optional` ones may be left out, as by a short circuit.
  function EvaluatesAll(w: World, es: seq<Expr>, optional: bool, m: Machine): Evaluated
    decreases es, 0
  {
    if es == [] then Gives(NONE_TYPE, m)
    else if optional && (m.choices == [] || !m.choices[0].Branch?) then Stops(m)
    else
      var n := if optional then m.(choices := m.choices[1..]) else m;
      if optional && !m.choices[0].taken then EvaluatesAll(w, es[1..], optional, n)
      else
        match Evaluates(w, es[0], n)
        case Stops(last) => Stops(last)
        case Gives(_, next) => EvaluatesAll(w, es[1..], optional, next)
  }

  function EvaluatesOptional(w: World, e: Option<Expr>, m: Machine): Evaluated {
    if e.Some? then Evaluates(w, e.value, m) else Gives(NONE_TYPE, m)
  }

  datatype Run = Continues(next: Machine) | Ended(next: Machine) | BeyondModel(next: Machine)

  function Providing(m: Machine, c: Name): Machine {
    m.(provided := m.provided + [c])
  }

  function Store(targets: seq<Option<string>>, c: Name, env: map<string, Name>): map<string, Name> {
    if targets == [] then env
    else Store(targets[1..], c, if targets[0].Some? then env[targets[0].value := c] else env)
  }

  function RunStmt(w: World, s: Stmt, m: Machine): Run
    decreases s, 0
  {
    match s
    case Assign(targets, value) =>
      (match Evaluates(w, value, m)
       case Stops(n) => Ended(n)
       case Gives(c, n) => Continues(n.(env := Store(targets, c, n.env))))
    case Annotate(name, initial) =>
      if initial.None? then Continues(m)
      else
        (match Evaluates(w, initial.value, m)
         case Stops(n) => Ended(n)
         case Gives(c, n) => Continues(n.(env := n.env[name := c])))
    case Return(result) =>
      (match EvaluatesOptional(w, result, m)
       case Stops(n) => Ended(n)
       case Gives(c, n) => Ended(Providing(n, c)))
    case Yield(result) =>
      (match EvaluatesOptional(w, result, m)
       case Stops(n) => Ended(n)
       case Gives(c, n) => Continues(Disturbed(Providing(n, c))))
    case If(test, body, orelse) =>
      (match Evaluates(w, test, m)
       case Stops(n) => Ended(n)
       case Gives(_, n) =>
         if n.choices == [] || !n.choices[0].Branch? then Ended(n)
         else RunBlock(w, if n.choices[0].taken then body else orelse, n.(choices := n.choices[1..])))
    case Raise(parts) => Ended(EvaluatesAll(w, parts, false, m).next)
    case Define(name, parts, rebinds) =>
      (match EvaluatesAll(w, parts, false, m)
       case Stops(n) => Ended(n)
       case Gives(_, n) =>
         match AnyValue(Disturbed(n.(shared := n.shared + rebinds)))
         case Stops(k) => Ended(k)
         case Gives(c, k) => Continues(k.(env := k.env[name := c])))
    case Pass => Continues(m)
    case Evaluate(value) =>
      (match Evaluates(w, value, m)
       case Stops(n) => Ended(n)
       case Gives(_, n) => Continues(n))
    case Unmodelled(_) => BeyondModel(m)
  }

  function RunBlock(w: World, body: seq<Stmt>, m: Machine): Run
    decreases body, 0
  {
    if body == [] then Continues(m)
    else
      var first := RunStmt(w, body[0], m);
      if first.Continues? then RunBlock(w, body[1..], first.next) else first
  }

  // A factory starts from arguments of any class; falling off its end returns None, unless it yields.
  function RunFactory(w: World, f: Factory, arguments: map<string, Name>, choices: seq<Choice>): Run
    requires arguments.Keys == f.parameters
  {
    var run := RunBlock(w, f.body, Machine(arguments, {}, choices, []));
    if run.Continues? && !BlockYields(f.body, true) then Ended(Providing(run.next, NONE_TYPE)) else run
  }

  // ----- the condition on factories

  // What factories may do that the interpreter does not look for: assign in the middle of a value, yield there or in
  // a test, or assign from a nested definition.
  datatype Forms = Forms(binding: bool, yielding: bool, rebinding: bool)

  const NO_FORMS := Forms(false, false, false)

  predicate PartsWithin(forms: Forms, es: seq<Expr>) {
    (forms.binding || !AnyHas(Binding, es)) && (forms.yielding || !AnyHas(Yielding, es))
  }

  // Tests may bind, and bare expressions may bind and yield, because the interpreter looks for that.
  predicate StmtWithin(forms: Forms, s: Stmt) {
    match s
    case If(test, body, orelse) =>
      (forms.yielding || !Has(Yielding, test)) && Within(forms, body) && Within(forms, orelse)
    case Define(_, parts, rebinds) => PartsWithin(forms, parts) && (forms.rebinding || rebinds == {})
    case Evaluate(_) => true
    case _ => PartsWithin(forms, Parts(s, true))
  }

  predicate Within(forms: Forms, body: seq<Stmt>) {
    body == [] || (StmtWithin(forms, body[0]) && Within(forms, body[1..]))
  }

  // A factory that does none of that.
  predicate Quiet(body: seq<Stmt>) {
    Within(NO_FORMS, body)
  }

  // Evaluating it assigns no variable of the factory and yields nothing.
  predicate Plain(e: Expr) {
    !Has(Binding, e) && !Has(Yielding, e)
  }

  predicate AllPlain(es: seq<Expr>) {
    !AnyHas(Binding, es) && !AnyHas(Yielding, es)
  }

  // ----- the condition on classes

  // Awaiting an instance yields an instance of the same class.
  ghost predicate AwaitsKeepClass(w: World) {
    forall c :: c in w.awaited ==> w.awaited[c] == c
  }

  // Classes whose call gives something else.
  function Changed(w: World): set<Name> {
    set c | c in w.created && w.created[c] != c
  }

  ghost predicate KeepsClass(w: World) {
    AwaitsKeepClass(w) && Changed(w) == {}
  }

  // The same as far as a value can tell.
  ghost predicate Keeps(w: World, e: Expr) {
    && (Has(Awaiting, e) ==> AwaitsKeepClass(w))
    && (Changed(w) == {} || !Has(Constructing(Changed(w)), e))
  }

  predicate BlockHas(k: Kind, body: seq<Stmt>) {
    body != [] && (StmtHas(k, body[0]) || BlockHas(k, body[1..]))
  }

  predicate StmtHas(k: Kind, s: Stmt) {
    AnyHas(k, Parts(s, true)) || (s.If? && (BlockHas(k, s.body) || BlockHas(k, s.orelse)))
  }

  ghost predicate StmtKeeps(w: World, s: Stmt) {
    && (StmtHas(Awaiting, s) ==> AwaitsKeepClass(w))
    && (Changed(w) == {} || !StmtHas(Constructing(Changed(w)), s))
  }

  ghost predicate BlockKeeps(w: World, body: seq<Stmt>) {
    && (BlockHas(Awaiting, body) ==> AwaitsKeepClass(w))
    && (Changed(w) == {} || !BlockHas(Constructing(Changed(w)), body))
  }

  // ----- soundness

  ghost predicate Covers(classes: Classes, c: Name) {
    None in classes || Some(c) in classes
  }

  // A variable that is bound on some paths only may hold anything.
  ghost predicate EnvCovers(env: Env, actual: map<string, Name>) {
    && (forall x :: x in actual ==> x in env && Covers(env[x], actual[x]))
    && (forall x :: x in env && x !in actual ==> None in env[x])
  }

  // Only choices are used up.
  ghost predicate Untouched(m: Machine, n: Machine) {
    n == m.(choices := n.choices)
  }

  lemma {:induction false} PlainUntouched(w: World, e: Expr, m: Machine)
    requires Plain(e) && m.shared == {}
    ensures Untouched(m, Evaluates(w, e, m).next)
    decreases e, 0
  {
    if m.choices != [] && m.choices[0].Failure? { return; }
    match e
    case Variable(_) =>
    case Await(value) => PlainUntouched(w, value, m);
    case Call(parts, _, _) => AllUntouched(w, parts, false, m);
    case Choose(test, body, orelse) =>
      PlainUntouched(w, test, m);
      var n := Evaluates(w, test, m).next;
      if n.choices != [] {
        PlainUntouched(w, body, n.(choices := n.choices[1..]));
        PlainUntouched(w, orelse, n.(choices := n.choices[1..]));
      }
    case Other(parts) => AllUntouched(w, parts, true, m);
  }

  lemma {:induction false} AllUntouched(w: World, es: seq<Expr>, optional: bool, m: Machine)
    requires AllPlain(es) && m.shared == {}
    ensures Untouched(m, EvaluatesAll(w, es, optional, m).next)
    decreases es, 0
  {
    if es == [] || (optional && (m.choices == [] || !m.choices[0].Branch?)) { return; }
    var n := if optional then m.(choices := m.choices[1..]) else m;
    PlainUntouched(w, es[0], n);
    AllUntouched(w, es[1..], optional, n);
    if Evaluates(w, es[0], n).Gives? { AllUntouched(w, es[1..], optional, Evaluates(w, es[0], n).next); }
  }

  lemma {:induction false} ValueSound(w: World, e: Expr, env: Env, m: Machine)
    requires Plain(e) && Keeps(w, e) && m.shared == {} && EnvCovers(env, m.env) && Evaluates(w, e, m).Gives?
    ensures Covers(ValueClasses(e, env), Evaluates(w, e, m).instance)
  {
    match e
    case Await(value) => ValueSound(w, value, env, m);
    case Choose(test, body, orelse) =>
      PlainUntouched(w, test, m);
      var n := Evaluates(w, test, m).next;
      ValueSound(w, if n.choices[0].taken then body else orelse, env, n.(choices := n.choices[1..]));
    case Call(_, _, constructed) =>
      if constructed.Some? {
        assert Is(Constructing(Changed(w)), e) <==> constructed.value in Changed(w);
        assert Created(w, constructed.value) == constructed.value;
      }
    case _ =>
  }

  lemma {:induction false} StoreSound(
      targets: seq<Option<string>>, classes: Classes, c: Name, env: Env, actual: map<string, Name>)
    requires Covers(classes, c) && EnvCovers(env, actual) && AssignAll(targets, classes, env).Some?
    ensures EnvCovers(AssignAll(targets, classes, env).value, Store(targets, c, actual))
  {
    if targets != [] {
      StoreSound(targets[1..], classes, c, env[targets[0].value := classes], actual[targets[0].value := c]);
    }
  }

  ghost predicate Listed(classes: Classes, provided: seq<Name>) {
    forall c :: c in provided ==> Some(c) in classes
  }

  // The analysis, after what was listed before, accounts for all that a run has provided and for where it goes on.
  ghost predicate Accounts(before: Classes, a: Analysis, run: Run) {
    None in before + a.provided || (
      && !run.BeyondModel?
      && Listed(before + a.provided, run.next.provided)
      && (run.Continues? ==> a.after.Some? && EnvCovers(a.after.value, run.next.env) && run.next.shared == {})
    )
  }

  // A machine that the analysis has kept up with.
  ghost predicate Tracked(before: Classes, env: Env, m: Machine) {
    m.shared == {} && EnvCovers(env, m.env) && Listed(before, m.provided)
  }

  lemma BranchesAccount(before: Classes, left: Analysis, right: Analysis, run: Run, taken: bool)
    requires Accounts(before, if taken then left else right, run)
    ensures Accounts(before, Analysis(left.provided + right.provided, AfterBranches(left, right)), run)
  {
    if run.Continues? && left.after.Some? && right.after.Some? {
      var joined := Join(left.after.value, right.after.value);
      var here := if taken then left.after.value else right.after.value;
      if None !in before + left.provided + right.provided {
        forall x | x in run.next.env ensures x in joined && Covers(joined[x], run.next.env[x]) {
          assert x in here && Covers(At(here, x), run.next.env[x]);
        }
        forall x | x in joined && x !in run.next.env ensures None in joined[x] {
          assert None in At(here, x);
        }
      }
    }
  }

  // A value of a quiet statement.
  lemma PartSound(w: World, e: Expr, env: Env, before: Classes, m: Machine)
    requires Plain(e) && Keeps(w, e) && Tracked(before, env, m)
    ensures var r := Evaluates(w, e, m);
            Tracked(before, env, r.next) && (r.Gives? ==> Covers(ValueClasses(e, env), r.instance))
  {
    PlainUntouched(w, e, m);
    if Evaluates(w, e, m).Gives? { ValueSound(w, e, env, m); }
  }

  lemma OnePart(w: World, s: Stmt, e: Expr)
    requires StmtWithin(NO_FORMS, s) && StmtKeeps(w, s) && Parts(s, true) != [] && Parts(s, true)[0] == e
    ensures Keeps(w, e) && (!s.If? && !s.Evaluate? ==> Plain(e))
  {
  }

  lemma {:induction false} StmtSound(w: World, s: Stmt, env: Env, before: Classes, m: Machine)
    requires StmtWithin(NO_FORMS, s) && StmtKeeps(w, s) && Tracked(before, env, m)
    ensures Accounts(before, Analyze(s, env), RunStmt(w, s, m))
    decreases s, 1
  {
    if Parts(s, true) != [] { OnePart(w, s, Parts(s, true)[0]); }
    hide Evaluates, EvaluatesAll, Has, AnyHas, ValueClasses;
    match s
    case Assign(_, _) => AssignSound(w, s, env, before, m);
    case Annotate(_, initial) => if initial.Some? { PartSound(w, initial.value, env, before, m); }
    case Return(result) => if result.Some? { PartSound(w, result.value, env, before, m); }
    case Yield(result) => if result.Some? { PartSound(w, result.value, env, before, m); }
    case If(_, _, _) => IfSound(w, s, env, before, m);
    case Raise(parts) => AllUntouched(w, parts, false, m);
    case Define(_, parts, _) => AllUntouched(w, parts, false, m);
    case Evaluate(value) => if Plain(value) { PlainUntouched(w, value, m); }
    case _ =>
  }

  lemma AssignSound(w: World, s: Stmt, env: Env, before: Classes, m: Machine)
    requires s.Assign? && StmtWithin(NO_FORMS, s) && StmtKeeps(w, s) && Tracked(before, env, m)
    ensures Accounts(before, Analyze(s, env), RunStmt(w, s, m))
  {
    OnePart(w, s, s.value);
    PartSound(w, s.value, env, before, m);
    var r := Evaluates(w, s.value, m);
    if r.Gives? && AssignAll(s.targets, ValueClasses(s.value, env), env).Some? {
      StoreSound(s.targets, ValueClasses(s.value, env), r.instance, env, r.next.env);
    }
  }

  lemma {:induction false} IfSound(w: World, s: Stmt, env: Env, before: Classes, m: Machine)
    requires s.If? && StmtWithin(NO_FORMS, s) && StmtKeeps(w, s) && Tracked(before, env, m)
    ensures Accounts(before, Analyze(s, env), RunStmt(w, s, m))
    decreases s, 0
  {
    if !Has(Binding, s.test) {
      PlainUntouched(w, s.test, m);
      var n := Evaluates(w, s.test, m).next;
      if Evaluates(w, s.test, m).Gives? && n.choices != [] && n.choices[0].Branch? {
        var taken := n.choices[0].taken;
        BlockSound(w, if taken then s.body else s.orelse, env, before, n.(choices := n.choices[1..]));
        BranchesAccount(before, AnalyzeBlock(s.body, env), AnalyzeBlock(s.orelse, env), RunStmt(w, s, m), taken);
      }
    }
  }

  lemma {:induction false} BlockSound(w: World, body: seq<Stmt>, env: Env, before: Classes, m: Machine)
    requires Quiet(body) && BlockKeeps(w, body) && Tracked(before, env, m)
    ensures Accounts(before, AnalyzeBlock(body, env), RunBlock(w, body, m))
    decreases body, 0
  {
    if body != [] {
      StmtSound(w, body[0], env, before, m);
      var first := RunStmt(w, body[0], m);
      var seen := Analyze(body[0], env);
      if None !in before + seen.provided && first.Continues? {
        BlockSound(w, body[1..], seen.after.value, before + seen.provided, first.next);
        var rest := AnalyzeBlock(body[1..], seen.after.value);
        assert before + seen.provided + rest.provided == before + (seen.provided + rest.provided);
      }
    }
  }

  ghost predicate FactorySound(w: World, f: Factory) {
    forall arguments: map<string, Name>, choices: seq<Choice> :: arguments.Keys == f.parameters ==>
      Provides(Constructed(f), RunFactory(w, f, arguments, choices))
  }

  ghost predicate Provides(classes: Classes, run: Run) {
    None in classes || (!run.BeyondModel? && Listed(classes, run.next.provided))
  }

  // A yield that the source's own search finds is one.
  lemma {:induction false} YieldsFound(body: seq<Stmt>)
    requires BlockYields(body, false)
    ensures BlockYields(body, true)
  {
    if StmtYields(body[0], false) {
      if body[0].If? && BlockYields(body[0].body, false) { YieldsFound(body[0].body); }
      if body[0].If? && BlockYields(body[0].orelse, false) { YieldsFound(body[0].orelse); }
    } else {
      YieldsFound(body[1..]);
    }
  }

  /** Factory soundness: the class of every object that a run of a quiet factory returns or yields is listed, or
      the list says that it does not know. */
  lemma ConstructedSound(w: World, f: Factory, arguments: map<string, Name>, choices: seq<Choice>)
    requires Quiet(f.body) && BlockKeeps(w, f.body) && arguments.Keys == f.parameters
    ensures Provides(Constructed(f), RunFactory(w, f, arguments, choices))
  {
    BlockSound(w, f.body, Parameters(f), {}, Machine(arguments, {}, choices, []));
    if BlockYields(f.body, false) { YieldsFound(f.body); }
  }

  lemma QuietSound(w: World, f: Factory)
    requires Quiet(f.body) && BlockKeeps(w, f.body)
    ensures FactorySound(w, f)
  {
    forall arguments: map<string, Name>, choices: seq<Choice> | arguments.Keys == f.parameters
      ensures Provides(Constructed(f), RunFactory(w, f, arguments, choices))
    {
      ConstructedSound(w, f, arguments, choices);
    }
  }

  /** A quiet factory that awaits nothing is analysed soundly whatever awaiting does. */
  lemma AwaitFreeSound(w: World, f: Factory)
    requires Quiet(f.body) && !BlockHas(Awaiting, f.body) && !BlockHas(Constructing(Changed(w)), f.body)
    ensures FactorySound(w, f)
  {
    QuietSound(w, f);
  }

  function Constructs(c: Name): Expr {
    Call([], None, Some(c))
  }

  // def provide(): return C()
  function CreatingFactory(c: Name): Factory {
    Factory({}, [Return(Some(Constructs(c)))])
  }

  // async def provide(): return await C()
  function AwaitingFactory(c: Name): Factory {
    Factory({}, [Return(Some(Await(Constructs(c))))])
  }

  lemma AnalyzeStep(s: Stmt, rest: seq<Stmt>, env: Env)
    ensures AnalyzeBlock([s] + rest, env) ==
            var first := Analyze(s, env);
            if first.after.None? then first else After(first.provided, AnalyzeBlock(rest, first.after.value))
  {
    assert ([s] + rest)[0] == s && ([s] + rest)[1..] == rest;
  }

  lemma RunStep(w: World, s: Stmt, rest: seq<Stmt>, m: Machine)
    ensures RunBlock(w, [s] + rest, m) ==
            var first := RunStmt(w, s, m);
            if first.Continues? then RunBlock(w, rest, first.next) else first
  {
    assert ([s] + rest)[0] == s && ([s] + rest)[1..] == rest;
  }

  lemma AssignsOne(w: World, x: string, value: Expr, env: Env, m: Machine)
    ensures Analyze(Assign([Some(x)], value), env) == Analysis({}, Some(env[x := ValueClasses(value, env)]))
    ensures var r := Evaluates(w, value, m);
            r.Gives? ==> RunStmt(w, Assign([Some(x)], value), m) == Continues(r.next.(env := r.next.env[x := r.instance]))
  {
    var targets, classes := [Some(x)], ValueClasses(value, env);
    assert targets[0] == Some(x) && targets[1..] == [];
    assert AssignAll(targets, classes, env) == AssignAll(targets[1..], classes, env[x := classes]);
    var r := Evaluates(w, value, m);
    if r.Gives? {
      assert Store(targets, r.instance, r.next.env) == Store(targets[1..], r.instance, r.next.env[x := r.instance]);
    }
  }

  // A run without arguments that provides an object of a class that is not listed.
  lemma Missed(w: World, f: Factory, choices: seq<Choice>, c: Name)
    requires f.parameters == {} && None !in Constructed(f) && Some(c) !in Constructed(f)
    requires c in RunBlock(w, f.body, Machine(map[], {}, choices, [])).next.provided
    ensures !FactorySound(w, f)
  {
    var none: map<string, Name> := map[];
    var run := RunFactory(w, f, none, choices);
    assert c in run.next.provided;
    assert !Provides(Constructed(f), run);
  }

  // A single return statement that lists one class and provides another.
  lemma ReturnMissed(w: World, e: Expr, c: Name)
    requires Plain(e) && ValueClasses(e, map[]) == {Some(c)}
    requires var r := Evaluates(w, e, Machine(map[], {}, [], [])); r.Gives? && r.instance != c
    ensures (forall forms :: Within(forms, [Return(Some(e))])) && Constructed(Factory({}, [Return(Some(e))])) == {Some(c)}
    ensures !FactorySound(w, Factory({}, [Return(Some(e))]))
  {
    var f := Factory({}, [Return(Some(e))]);
    var m := Machine(map[], {}, [], []);
    assert [e][1..] == [] && f.body[1..] == [] && f.body == [f.body[0]] + [];
    assert !AnyHas(Binding, [e][1..]) && !AnyHas(Yielding, [e][1..]);
    assert AllPlain(Parts(f.body[0], true)) && forall forms :: StmtWithin(forms, f.body[0]);
    assert Parameters(f) == map[];
    AnalyzeStep(f.body[0], [], map[]);
    RunStep(w, f.body[0], [], m);
    var r := Evaluates(w, e, m);
    assert RunBlock(w, f.body, m).next.provided == r.next.provided + [r.instance];
    Missed(w, f, [], r.instance);
  }

  lemma CallHas(k: Kind, variable: Option<string>, c: Option<Name>)
    requires k == Binding || k == Yielding
    ensures !Has(k, Call([], variable, c))
  {
    assert !AnyHas(k, []);
  }

  lemma CreatedClassMissed(w: World, c: Name)
    requires c in Changed(w)
    ensures (forall forms :: Within(forms, CreatingFactory(c).body)) && Constructed(CreatingFactory(c)) == {Some(c)}
    ensures !FactorySound(w, CreatingFactory(c))
  {
    ReturnMissed(w, Constructs(c), c);
  }

  lemma AwaitedClassMissed(w: World, c: Name)
    requires Changed(w) == {} && c in w.awaited && w.awaited[c] != c
    ensures (forall forms :: Within(forms, AwaitingFactory(c).body)) && Constructed(AwaitingFactory(c)) == {Some(c)}
    ensures !FactorySound(w, AwaitingFactory(c))
  {
    assert c !in Changed(w) && Created(w, c) == c;
    var m := Machine(map[], {}, [], []);
    CallHas(Binding, None, Some(c));
    CallHas(Yielding, None, Some(c));
    assert Evaluates(w, Constructs(c), m) == Gives(c, m);
    ReturnMissed(w, Await(Constructs(c)), c);
  }

  // ----- factories that are not quiet

  // y = A(); x = B(y := C()); return y
  function BindingFactory(a: Name, b: Name, c: Name): Factory {
    Factory({}, [Assign([Some("y")], Constructs(a)),
                 Assign([Some("x")], Call([Bind("y", Constructs(c))], None, Some(b))),
                 Return(Some(Variable("y")))])
  }

  // x = yield A(); return C()
  function YieldingFactory(a: Name, c: Name): Factory {
    Factory({}, [Assign([Some("x")], YieldValue(Some(Constructs(a)))), Return(Some(Constructs(c)))])
  }

  // x = A(); def g(): nonlocal x; x = C(); g(); return x
  function RebindingFactory(a: Name): Factory {
    Factory({}, [Assign([Some("x")], Constructs(a)), Define("g", [], {"x"}),
                 Evaluate(Call([], Some("g"), None)), Return(Some(Variable("x")))])
  }

  lemma ConstructsGives(w: World, c: Name, m: Machine)
    requires Changed(w) == {} && (m.choices == [] || (!m.choices[0].Failure? && !m.choices[0].Rebind?))
    ensures Evaluates(w, Constructs(c), m) == Gives(c, m)
  {
    assert c !in Changed(w) && Created(w, c) == c;
  }

  lemma BindingListed(w: World, a: Name, b: Name, c: Name)
    ensures Constructed(BindingFactory(a, b, c)) == {Some(a)}
  {
    var f := BindingFactory(a, b, c);
    var s0, s1, s2 := f.body[0], f.body[1], f.body[2];
    assert f.body == [s0] + ([s1] + ([s2] + [])) && Parameters(f) == map[];
    var env0: Env := map["y" := {Some(a)}];
    var env1: Env := env0["x" := {Some(b)}];
    AssignsOne(w, "y", s0.value, map[], Machine(map[], {}, [], []));
    AssignsOne(w, "x", s1.value, env0, Machine(map[], {}, [], []));
    assert Analyze(s0, map[]) == Analysis({}, Some(env0)) && Analyze(s1, env0) == Analysis({}, Some(env1));
    assert Analyze(s2, env1) == Analysis({Some(a)}, None);
    hide Analyze;
    AnalyzeStep(s0, [s1] + ([s2] + []), map[]);
    AnalyzeStep(s1, [s2] + [], env0);
    AnalyzeStep(s2, [], env1);
  }

  lemma BindingCalls(w: World, b: Name, c: Name, m: Machine)
    requires Changed(w) == {} && m.choices == []
    ensures Evaluates(w, Call([Bind("y", Constructs(c))], None, Some(b)), m) == Gives(b, m.(env := m.env["y" := c]))
  {
    var bind := Bind("y", Constructs(c));
    var next := m.(env := m.env["y" := c]);
    ConstructsGives(w, c, m);
    assert [bind][1..] == [];
    assert Evaluates(w, bind, m) == Gives(c, next);
    assert EvaluatesAll(w, [bind], false, m).Gives? && EvaluatesAll(w, [bind], false, m).next == next;
    assert b !in Changed(w) && Created(w, b) == b;
  }

  lemma BindingRuns(w: World, a: Name, b: Name, c: Name)
    requires Changed(w) == {}
    ensures c in RunBlock(w, BindingFactory(a, b, c).body, Machine(map[], {}, [], [])).next.provided
  {
    var f := BindingFactory(a, b, c);
    var s0, s1, s2 := f.body[0], f.body[1], f.body[2];
    assert f.body == [s0] + ([s1] + ([s2] + []));
    var m := Machine(map[], {}, [], []);
    var m0 := m.(env := map["y" := a]);
    var m1 := m.(env := map["y" := c, "x" := b]);
    ConstructsGives(w, a, m);
    BindingCalls(w, b, c, m0);
    AssignsOne(w, "y", s0.value, map[], m);
    AssignsOne(w, "x", s1.value, map[], m0);
    assert m0.env["y" := c]["x" := b] == m1.env;
    assert RunStmt(w, s2, m1) == Ended(Providing(m1, c));
    hide RunStmt, Evaluates;
    RunStep(w, s0, [s1] + ([s2] + []), m);
    RunStep(w, s1, [s2] + [], m0);
    RunStep(w, s2, [], m1);
  }

  /** An assignment expression inside an assigned value goes unseen. */
  lemma BindingMissed(w: World, a: Name, b: Name, c: Name)
    requires a != c && Changed(w) == {}
    ensures Constructed(BindingFactory(a, b, c)) == {Some(a)} && !FactorySound(w, BindingFactory(a, b, c))
  {
    BindingListed(w, a, b, c);
    BindingRuns(w, a, b, c);
    hide Constructed, RunBlock;
    Missed(w, BindingFactory(a, b, c), [], c);
  }

  lemma YieldingListed(w: World, a: Name, c: Name)
    ensures Constructed(YieldingFactory(a, c)) == {Some(c)}
  {
    var f := YieldingFactory(a, c);
    var s0, s1 := f.body[0], f.body[1];
    assert f.body == [s0] + ([s1] + []) && Parameters(f) == map[];
    var env0: Env := map["x" := {None}];
    AssignsOne(w, "x", s0.value, map[], Machine(map[], {}, [], []));
    assert Analyze(s0, map[]) == Analysis({}, Some(env0)) && Analyze(s1, env0) == Analysis({Some(c)}, None);
    hide Analyze;
    AnalyzeStep(s0, [s1] + [], map[]);
    AnalyzeStep(s1, [], env0);
  }

  /** So does a yield there. */
  lemma YieldingMissed(w: World, a: Name, c: Name)
    requires a != c && Changed(w) == {}
    ensures Constructed(YieldingFactory(a, c)) == {Some(c)} && !FactorySound(w, YieldingFactory(a, c))
  {
    YieldingListed(w, a, c);
    YieldingRuns(w, a, c);
    hide Constructed, RunBlock;
    Missed(w, YieldingFactory(a, c), [Value(c)], a);
  }

  lemma YieldingRuns(w: World, a: Name, c: Name)
    requires Changed(w) == {}
    ensures a in RunBlock(w, YieldingFactory(a, c).body, Machine(map[], {}, [Value(c)], [])).next.provided
  {
    var f := YieldingFactory(a, c);
    var s0, s1 := f.body[0], f.body[1];
    assert f.body == [s0] + ([s1] + []);
    var m := Machine(map[], {}, [Value(c)], []);
    var m0 := Machine(map["x" := c], {}, [], [a]);
    ConstructsGives(w, a, m);
    ConstructsGives(w, c, m0);
    assert [Value(c)][1..] == [];
    assert Evaluates(w, s0.value, m) == Gives(c, Machine(map[], {}, [], [a]));
    AssignsOne(w, "x", s0.value, map[], m);
    assert RunStmt(w, s1, m0) == Ended(Providing(m0, c));
    assert Providing(m0, c).provided[0] == a;
    hide RunStmt, Evaluates;
    RunStep(w, s0, [s1] + [], m);
    RunStep(w, s1, [], m0);
  }

  lemma RebindingListed(w: World, a: Name)
    ensures Constructed(RebindingFactory(a)) == {Some(a)}
  {
    var f := RebindingFactory(a);
    var s0, s1, s2, s3 := f.body[0], f.body[1], f.body[2], f.body[3];
    assert f.body == [s0] + ([s1] + ([s2] + ([s3] + []))) && Parameters(f) == map[];
    var env0: Env := map["x" := {Some(a)}];
    var env1: Env := env0["g" := {None}];
    AnalyzeStep(s0, [s1] + ([s2] + ([s3] + [])), map[]);
    AnalyzeStep(s1, [s2] + ([s3] + []), env0);
    AnalyzeStep(s2, [s3] + [], env1);
    AnalyzeStep(s3, [], env1);
    AssignsOne(w, "x", s0.value, map[], Machine(map[], {}, [], []));
    assert Analyze(s1, env0) == Analysis({}, Some(env1));
    CallHas(Binding, Some("g"), None);
    CallHas(Yielding, Some("g"), None);
    hide Has;
    assert Analyze(s2, env1) == Analysis({}, Some(env1)) && Analyze(s3, env1) == Analysis({Some(a)}, None);
  }

  lemma RebindingRuns(w: World, a: Name, c: Name)
    requires Changed(w) == {}
    ensures var choices := [Value(a), Rebind("x", c), Value(a)];
            c in RunBlock(w, RebindingFactory(a).body, Machine(map[], {}, choices, [])).next.provided
  {
    var f := RebindingFactory(a);
    var s0, s1, s2, s3 := f.body[0], f.body[1], f.body[2], f.body[3];
    assert f.body == [s0] + ([s1] + ([s2] + ([s3] + [])));
    var choices := [Value(a), Rebind("x", c), Value(a)];
    var calls := choices[1..];
    var m := Machine(map[], {}, choices, []);
    var m0 := m.(env := map["x" := a]);
    var m1 := Machine(map["x" := a, "g" := a], {"x"}, calls, []);
    var m2 := Machine(map["x" := c, "g" := a], {"x"}, [], []);
    RunStep(w, s0, [s1] + ([s2] + ([s3] + [])), m);
    RunStep(w, s1, [s2] + ([s3] + []), m0);
    RunStep(w, s2, [s3] + [], m1);
    RunStep(w, s3, [], m2);
    ConstructsGives(w, a, m);
    AssignsOne(w, "x", s0.value, map[], m);
    RebindingDefines(w, s1, m0, m1);
    RebindingCalls(w, s2, a, c, m1, m2);
    assert RunStmt(w, s3, m2) == Ended(Providing(m2, c));
  }

  lemma RebindingDefines(w: World, s: Stmt, m: Machine, n: Machine)
    requires s == Define("g", [], {"x"}) && m.choices != [] && m.choices[0].Value? && m.shared == {}
    requires n == m.(env := m.env["g" := m.choices[0].instance], shared := {"x"}, choices := m.choices[1..])
    ensures RunStmt(w, s, m) == Continues(n)
  {
  }

  lemma RebindingCalls(w: World, s: Stmt, a: Name, c: Name, m: Machine, n: Machine)
    requires s == Evaluate(Call([], Some("g"), None)) && m.choices == [Rebind("x", c), Value(a)] && m.shared == {"x"}
    requires n == m.(env := m.env["x" := c], choices := [])
    ensures RunStmt(w, s, m) == Continues(n)
  {
    var late := m.(env := m.env["x" := c], choices := m.choices[1..]);
    assert m.choices[1..] == [Value(a)] && [Value(a)][1..] == [];
    assert Disturbed(m) == Disturbed(late) == late;
    assert Evaluates(w, s.value, m) == AnyValue(late);
  }

  /** So does an assignment by a nested definition. */
  lemma RebindingMissed(w: World, a: Name, c: Name)
    requires a != c && Changed(w) == {}
    ensures Constructed(RebindingFactory(a)) == {Some(a)} && !FactorySound(w, RebindingFactory(a))
  {
    RebindingListed(w, a);
    RebindingRuns(w, a, c);
    Missed(w, RebindingFactory(a), [Value(a), Rebind("x", c), Value(a)], c);
  }

  lemma FormsNeeded(w: World, forms: Forms, a: Name, b: Name)
    requires forms != NO_FORMS && a != b && Changed(w) == {}
    ensures exists f: Factory :: Within(forms, f.body) && !FactorySound(w, f)
  {
    if forms.binding {
      BindingMissed(w, a, a, b);
      BindingWithin(forms, a, a, b);
    } else if forms.yielding {
      YieldingMissed(w, a, b);
      YieldingWithin(forms, a, b);
    } else {
      RebindingMissed(w, a, b);
      RebindingWithin(forms, a);
    }
  }

  lemma WithinStep(forms: Forms, s: Stmt, rest: seq<Stmt>)
    ensures Within(forms, [s] + rest) <==> StmtWithin(forms, s) && Within(forms, rest)
  {
    assert ([s] + rest)[0] == s && ([s] + rest)[1..] == rest;
  }

  lemma OneWithin(forms: Forms, e: Expr)
    ensures PartsWithin(forms, [e]) <==> (forms.binding || !Has(Binding, e)) && (forms.yielding || !Has(Yielding, e))
  {
    assert [e][0] == e && [e][1..] == [];
    assert AnyHas(Binding, [e]) <==> Has(Binding, e) || AnyHas(Binding, [e][1..]);
    assert AnyHas(Yielding, [e]) <==> Has(Yielding, e) || AnyHas(Yielding, [e][1..]);
  }

  lemma BindingWithin(forms: Forms, a: Name, b: Name, c: Name)
    requires forms.binding
    ensures Within(forms, BindingFactory(a, b, c).body)
  {
    var body := BindingFactory(a, b, c).body;
    assert body == [body[0]] + ([body[1]] + ([body[2]] + []));
    WithinStep(forms, body[0], [body[1]] + ([body[2]] + []));
    WithinStep(forms, body[1], [body[2]] + []);
    WithinStep(forms, body[2], []);
    OneWithin(forms, body[0].value);
    OneWithin(forms, body[1].value);
    OneWithin(forms, body[2].result.value);
    var bind := Bind("y", Constructs(c));
    assert !Has(Yielding, bind.value);
    OneWithin(forms, bind);
  }

  lemma YieldingWithin(forms: Forms, a: Name, c: Name)
    requires forms.yielding
    ensures Within(forms, YieldingFactory(a, c).body)
  {
    var body := YieldingFactory(a, c).body;
    assert body == [body[0]] + ([body[1]] + []);
    WithinStep(forms, body[0], [body[1]] + []);
    WithinStep(forms, body[1], []);
    OneWithin(forms, body[0].value);
    OneWithin(forms, body[1].result.value);
    assert !Has(Binding, Constructs(a));
  }

  lemma RebindingWithin(forms: Forms, a: Name)
    requires forms.rebinding
    ensures Within(forms, RebindingFactory(a).body)
  {
    var body := RebindingFactory(a).body;
    assert body == [body[0]] + ([body[1]] + ([body[2]] + ([body[3]] + [])));
    WithinStep(forms, body[0], [body[1]] + ([body[2]] + ([body[3]] + [])));
    WithinStep(forms, body[1], [body[2]] + ([body[3]] + []));
    WithinStep(forms, body[2], [body[3]] + []);
    WithinStep(forms, body[3], []);
    OneWithin(forms, body[0].value);
    OneWithin(forms, body[3].result.value);
  }

  ghost predicate AllSound(w: World, forms: Forms) {
    forall f: Factory :: Within(forms, f.body) ==> FactorySound(w, f)
  }

  /** All factories of these forms are analysed soundly exactly when neither awaiting an instance nor calling a
      class gives another class, and no form is allowed that the interpreter does not look for. */
  lemma SoundExactly(w: World, forms: Forms)
    ensures AllSound(w, forms) <==> KeepsClass(w) && forms == NO_FORMS
  {
    if KeepsClass(w) && forms == NO_FORMS {
      forall f: Factory | Within(forms, f.body) ensures FactorySound(w, f) { QuietSound(w, f); }
    } else if c :| c in Changed(w) {
      CreatedClassMissed(w, c);
      assert Within(forms, CreatingFactory(c).body) && !FactorySound(w, CreatingFactory(c));
    } else if c :| c in w.awaited && w.awaited[c] != c {
      AwaitedClassMissed(w, c);
      assert Within(forms, AwaitingFactory(c).body) && !FactorySound(w, AwaitingFactory(c));
    } else {
      FormsNeeded(w, forms, Name("A"), Name("B"));
    }
  }
}
