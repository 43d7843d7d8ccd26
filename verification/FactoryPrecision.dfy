/**
 Why the provider-factory interpreter of `fastapi_canon/checks/source.py` lists no more than it should: in a factory
 whose statements it follows, every class that it lists is one that some run provides.
 */
module FactoryPrecision {
  import opened Wrappers
  import opened Linearization
  import opened Factories

  // ----- factories that are followed to their end

  // The interpreter does not give up on the statement.
  predicate StmtFollowed(s: Stmt) {
    match s
    case Assign(targets, _) => None !in targets
    case If(test, body, orelse) => !Has(Binding, test) && Followed(body) && Followed(orelse)
    case Evaluate(value) => Plain(value)
    case Unmodelled(_) => false
    case _ => true
  }

  predicate Followed(body: seq<Stmt>) {
    body == [] || (StmtFollowed(body[0]) && Followed(body[1..]))
  }

  predicate Plainly(body: seq<Stmt>) {
    Quiet(body) && Followed(body)
  }

  predicate StmtPlainly(s: Stmt) {
    StmtWithin(NO_FORMS, s) && StmtFollowed(s)
  }

  // The classes that are called.
  function Mentioned(e: Expr): set<Name>
    decreases e, 0
  {
    match e
    case Variable(_) => {}
    case Await(value) => Mentioned(value)
    case Call(parts, _, constructed) => AllMentioned(parts) + if constructed.Some? then {constructed.value} else {}
    case Choose(test, body, orelse) => Mentioned(test) + Mentioned(body) + Mentioned(orelse)
    case Bind(_, value) => Mentioned(value)
    case YieldValue(result) => if result.Some? then Mentioned(result.value) else {}
    case Other(parts) => AllMentioned(parts)
  }

  function AllMentioned(es: seq<Expr>): set<Name>
    decreases es, 0
  {
    if es == [] then {} else Mentioned(es[0]) + AllMentioned(es[1..])
  }

  function StmtMentions(s: Stmt): set<Name> {
    AllMentioned(Parts(s, true)) + if s.If? then BlockMentions(s.body) + BlockMentions(s.orelse) else {}
  }

  function BlockMentions(body: seq<Stmt>): set<Name> {
    if body == [] then {} else StmtMentions(body[0]) + BlockMentions(body[1..])
  }

  // ----- machines that can go on

  // A world where calling a class gives its instances and all of these can be awaited, which gives them back.
  ghost predicate Hosts(w: World, names: set<Name>) {
    w.created == map[] && AwaitsKeepClass(w) && names <= w.awaited.Keys
  }

  // No evaluation fails.
  ghost predicate Calm(choices: seq<Choice>) {
    forall i :: 0 <= i < |choices| ==> !choices[i].Failure?
  }

  ghost predicate Good(w: World, env: Env, m: Machine) {
    m.shared == {} && m.choices == [] && m.env.Keys <= env.Keys && forall x :: x in m.env ==> m.env[x] in w.awaited
  }

  function With(m: Machine, choices: seq<Choice>): Machine {
    m.(choices := choices)
  }

  // What a machine must be like for a class to be provided: nothing special, a variable that gives an object of the
  // class when it is read, or a variable that is bound.
  datatype Want = Anything | Ready(name: string) | Bound(name: string)

  // The class is listed, or it is that of the object None and the list says that it does not know.
  predicate Wanted(classes: Classes, k: Name) {
    Some(k) in classes || (None in classes && k == NONE_TYPE)
  }

  predicate Possible(env: Env, want: Want, k: Name) {
    match want
    case Anything => true
    case Ready(x) => x in env ==> Wanted(env[x], k)
    case Bound(x) => x in env
  }

  ghost predicate Meets(m: Machine, want: Want, k: Name) {
    match want
    case Anything => true
    case Ready(x) => x in m.env ==> m.env[x] == k
    case Bound(x) => x in m.env
  }

  // ----- values

  lemma NoneCalm()
    ensures Calm([])
  {
  }

  lemma CalmOne(choice: Choice)
    requires !choice.Failure?
    ensures Calm([choice])
  {
  }

  lemma CalmJoined(a: seq<Choice>, b: seq<Choice>)
    requires Calm(a) && Calm(b)
    ensures Calm(a + b)
  {
  }

  lemma NotFailing(choices: seq<Choice>)
    requires Calm(choices)
    ensures choices != [] ==> !choices[0].Failure?
  {
  }

  // With these choices the expression gives an object of the class, and the machine is as before.
  ghost predicate Gave(w: World, e: Expr, m: Machine, choices: seq<Choice>, c: Name) {
    && Calm(choices)
    && forall rest :: Calm(rest) ==> Evaluates(w, e, With(m, choices + rest)) == Gives(c, With(m, rest))
  }

  ghost predicate GaveAll(w: World, es: seq<Expr>, optional: bool, m: Machine, choices: seq<Choice>) {
    && Calm(choices)
    && forall rest ::
         Calm(rest) ==> EvaluatesAll(w, es, optional, With(m, choices + rest)) == Gives(NONE_TYPE, With(m, rest))
  }

  ghost predicate CanGive(w: World, e: Expr, m: Machine, c: Name) {
    exists choices :: Gave(w, e, m, choices, c)
  }

  lemma GaveOnce(w: World, e: Expr, m: Machine, choices: seq<Choice>, c: Name, rest: seq<Choice>)
    requires Gave(w, e, m, choices, c) && Calm(rest)
    ensures Calm(choices + rest) && (choices + rest != [] ==> !(choices + rest)[0].Failure?)
    ensures Evaluates(w, e, With(m, choices + rest)) == Gives(c, With(m, rest))
  {
    hide Evaluates, Calm;
    CalmJoined(choices, rest);
    NotFailing(choices + rest);
  }

  lemma GaveAllOnce(w: World, es: seq<Expr>, optional: bool, m: Machine, choices: seq<Choice>, rest: seq<Choice>)
    requires GaveAll(w, es, optional, m, choices) && Calm(rest)
    ensures Calm(choices + rest) && (choices + rest != [] ==> !(choices + rest)[0].Failure?)
    ensures EvaluatesAll(w, es, optional, With(m, choices + rest)) == Gives(NONE_TYPE, With(m, rest))
  {
    hide EvaluatesAll, Calm;
    CalmJoined(choices, rest);
    NotFailing(choices + rest);
  }

  lemma {:induction false} ValuePasses(w: World, k: Name, e: Expr, env: Env, m: Machine)
      returns (choices: seq<Choice>, c: Name)
    requires Hosts(w, Mentioned(e) + {k}) && Plain(e) && Good(w, env, m)
    ensures Gave(w, e, m, choices, c) && c in w.awaited
    decreases e, 0
  {
    hide Gave, GaveAll, Calm;
    match e {
      case Variable(x) => choices, c := VariableGave(w, k, x, m);
      case Await(value) =>
        choices, c := ValuePasses(w, k, value, env, m);
        AwaitGave(w, value, m, choices, c);
      case Call(parts, local, constructed) =>
        choices := AllPass(w, k, parts, env, m);
        choices, c := Called(w, k, e, m, choices);
      case Choose(test, body, orelse) =>
        var first, a := ValuePasses(w, k, test, env, m);
        var second;
        second, c := ValuePasses(w, k, body, env, m);
        choices := Chosen(w, e, m, first, a, true, second, c);
      case Other(parts) =>
        choices := OtherGave(w, k, parts, m);
        c := k;
    }
  }

  // A variable that is not bound may be any object.
  lemma VariableGave(w: World, k: Name, x: string, m: Machine) returns (choices: seq<Choice>, c: Name)
    ensures Gave(w, Variable(x), m, choices, c) && c == if x in m.env then m.env[x] else k
  {
    if x in m.env { choices, c := [], m.env[x]; } else { choices, c := [Value(k)], k; }
    assert Calm(choices);
    forall rest | Calm(rest) ensures Evaluates(w, Variable(x), With(m, choices + rest)) == Gives(c, With(m, rest)) {
      CalmJoined(choices, rest);
      NotFailing(choices + rest);
      hide Calm;
      assert x in m.env ==> choices + rest == rest;
      assert x !in m.env ==> (choices + rest)[1..] == rest;
    }
  }

  lemma AwaitGave(w: World, value: Expr, m: Machine, choices: seq<Choice>, c: Name)
    requires Gave(w, value, m, choices, c) && AwaitsKeepClass(w) && c in w.awaited && m.shared == {}
    ensures Gave(w, Await(value), m, choices, c)
  {
    assert Calm(choices);
    hide Gave, Calm;
    forall rest | Calm(rest) ensures Evaluates(w, Await(value), With(m, choices + rest)) == Gives(c, With(m, rest)) {
      GaveOnce(w, value, m, choices, c, rest);
    }
    GaveBy(w, Await(value), m, choices, c);
  }

  lemma GaveBy(w: World, e: Expr, m: Machine, choices: seq<Choice>, c: Name)
    requires Calm(choices)
    requires forall rest :: Calm(rest) ==> Evaluates(w, e, With(m, choices + rest)) == Gives(c, With(m, rest))
    ensures Gave(w, e, m, choices, c)
  {
    hide Calm, Evaluates;
  }

  // After the parts a value is chosen.
  lemma Then(w: World, parts: seq<Expr>, optional: bool, m: Machine, choices: seq<Choice>, k: Name)
      returns (all: seq<Choice>)
    requires GaveAll(w, parts, optional, m, choices)
    ensures Calm(all) && forall rest :: Calm(rest) ==>
              EvaluatesAll(w, parts, optional, With(m, all + rest)) == Gives(NONE_TYPE, With(m, [Value(k)] + rest))
  {
    CalmOne(Value(k));
    all := choices + [Value(k)];
    CalmJoined(choices, [Value(k)]);
    hide GaveAll, Calm, EvaluatesAll;
    forall rest | Calm(rest)
      ensures EvaluatesAll(w, parts, optional, With(m, all + rest)) == Gives(NONE_TYPE, With(m, [Value(k)] + rest))
    {
      CalmJoined([Value(k)], rest);
      GaveAllOnce(w, parts, optional, m, choices, [Value(k)] + rest);
      assert all + rest == choices + ([Value(k)] + rest);
    }
  }

  lemma OtherGave(w: World, k: Name, parts: seq<Expr>, m: Machine) returns (choices: seq<Choice>)
    requires m.shared == {}
    ensures Gave(w, Other(parts), m, choices, k)
  {
    choices := AllSkipped(w, parts, m);
    choices := Then(w, parts, true, m, choices, k);
    hide GaveAll, Calm, Gave;
    forall rest | Calm(rest) ensures Evaluates(w, Other(parts), With(m, choices + rest)) == Gives(k, With(m, rest)) {
      CalmJoined(choices, rest);
      NotFailing(choices + rest);
      assert ([Value(k)] + rest)[1..] == rest;
    }
    GaveBy(w, Other(parts), m, choices, k);
  }

  lemma Called(w: World, k: Name, e: Expr, m: Machine, parts: seq<Choice>) returns (choices: seq<Choice>, c: Name)
    requires e.Call? && w.created == map[] && m.shared == {} && GaveAll(w, e.parts, false, m, parts)
    ensures Gave(w, e, m, choices, c)
    ensures c == if (e.local.Some? && e.local.value in m.env) || e.constructed.None? then k else e.constructed.value
  {
    assert Calm(parts);
    hide Calm, Gave, GaveAll;
    if (e.local.Some? && e.local.value in m.env) || e.constructed.None? {
      choices := Then(w, e.parts, false, m, parts, k);
      c := k;
      forall rest | Calm(rest) ensures Evaluates(w, e, With(m, choices + rest)) == Gives(c, With(m, rest)) {
        CalmJoined(choices, rest);
        NotFailing(choices + rest);
        assert ([Value(k)] + rest)[1..] == rest;
      }
    } else {
      choices, c := parts, e.constructed.value;
      forall rest | Calm(rest) ensures Evaluates(w, e, With(m, choices + rest)) == Gives(c, With(m, rest)) {
        GaveAllOnce(w, e.parts, false, m, parts, rest);
      }
    }
    GaveBy(w, e, m, choices, c);
  }

  // A test and then one branch of a conditional expression.
  lemma Chosen(
      w: World, e: Expr, m: Machine, first: seq<Choice>, a: Name, taken: bool, second: seq<Choice>, c: Name)
      returns (choices: seq<Choice>)
    requires e.Choose? && Gave(w, e.test, m, first, a) && Gave(w, if taken then e.body else e.orelse, m, second, c)
    ensures Gave(w, e, m, choices, c)
  {
    hide Evaluates;
    choices := first + ([Branch(taken)] + second);
    CalmOne(Branch(taken));
    hide Calm;
    CalmJoined([Branch(taken)], second);
    CalmJoined(first, [Branch(taken)] + second);
    hide Gave;
    forall rest | Calm(rest) ensures Evaluates(w, e, With(m, choices + rest)) == Gives(c, With(m, rest)) {
      ChosenOnce(w, e, m, first, a, taken, second, c, rest);
    }
    GaveBy(w, e, m, choices, c);
  }

  lemma ChosenOnce(
      w: World, e: Expr, m: Machine, first: seq<Choice>, a: Name, taken: bool, second: seq<Choice>, c: Name,
      rest: seq<Choice>)
    requires e.Choose? && Gave(w, e.test, m, first, a) && Gave(w, if taken then e.body else e.orelse, m, second, c)
    requires Calm(rest)
    ensures Evaluates(w, e, With(m, first + ([Branch(taken)] + second) + rest)) == Gives(c, With(m, rest))
  {
    CalmOne(Branch(taken));
    hide Evaluates, Gave, Calm;
    var after := [Branch(taken)] + (second + rest);
    Regrouped(first, Branch(taken), second, rest);
    GaveOnce(w, if taken then e.body else e.orelse, m, second, c, rest);
    CalmJoined([Branch(taken)], second + rest);
    GaveOnce(w, e.test, m, first, a, after);
    ChooseStep(w, e, With(m, first + after), With(m, after), a, taken);
  }

  lemma Regrouped(first: seq<Choice>, choice: Choice, second: seq<Choice>, rest: seq<Choice>)
    ensures first + ([choice] + second) + rest == first + ([choice] + (second + rest))
    ensures ([choice] + (second + rest))[1..] == second + rest
  {
  }

  lemma ChooseStep(w: World, e: Expr, m: Machine, n: Machine, a: Name, taken: bool)
    requires e.Choose? && Calm(m.choices) && Evaluates(w, e.test, m) == Gives(a, n)
    requires n.choices != [] && n.choices[0] == Branch(taken)
    ensures Evaluates(w, e, m) == Evaluates(w, if taken then e.body else e.orelse, With(n, n.choices[1..]))
  {
  }

  lemma {:induction false} AllPass(w: World, k: Name, es: seq<Expr>, env: Env, m: Machine) returns (choices: seq<Choice>)
    requires Hosts(w, AllMentioned(es) + {k}) && AllPlain(es) && Good(w, env, m)
    ensures GaveAll(w, es, false, m, choices)
    decreases es, 0
  {
    hide Gave, GaveAll, Calm;
    if es == [] {
      choices := [];
      NothingGave(w, false, m);
    } else {
      var first, c := ValuePasses(w, k, es[0], env, m);
      var second := AllPass(w, k, es[1..], env, m);
      choices := first + second;
      OneMore(w, es, m, first, c, second);
    }
  }

  lemma NothingGave(w: World, optional: bool, m: Machine)
    ensures GaveAll(w, [], optional, m, [])
  {
    NoneCalm();
    hide Calm;
    forall rest | Calm(rest) ensures EvaluatesAll(w, [], optional, With(m, [] + rest)) == Gives(NONE_TYPE, With(m, rest)) {
      assert [] + rest == rest;
    }
  }

  lemma OneMore(w: World, es: seq<Expr>, m: Machine, first: seq<Choice>, c: Name, second: seq<Choice>)
    requires es != [] && Gave(w, es[0], m, first, c) && GaveAll(w, es[1..], false, m, second)
    ensures GaveAll(w, es, false, m, first + second)
  {
    hide Evaluates, Calm;
    CalmJoined(first, second);
    forall rest | Calm(rest)
      ensures EvaluatesAll(w, es, false, With(m, first + second + rest)) == Gives(NONE_TYPE, With(m, rest))
    {
      OneMoreOnce(w, es, m, first, c, second, rest);
    }
  }

  lemma OneMoreOnce(
      w: World, es: seq<Expr>, m: Machine, first: seq<Choice>, c: Name, second: seq<Choice>, rest: seq<Choice>)
    requires es != [] && Gave(w, es[0], m, first, c) && GaveAll(w, es[1..], false, m, second) && Calm(rest)
    ensures EvaluatesAll(w, es, false, With(m, first + second + rest)) == Gives(NONE_TYPE, With(m, rest))
  {
    hide Evaluates, Calm, Gave, GaveAll;
    GaveAllOnce(w, es[1..], false, m, second, rest);
    GaveOnce(w, es[0], m, first, c, second + rest);
    assert first + second + rest == first + (second + rest);
  }

  lemma {:induction false} AllSkipped(w: World, es: seq<Expr>, m: Machine) returns (choices: seq<Choice>)
    ensures GaveAll(w, es, true, m, choices)
    decreases es, 0
  {
    if es == [] {
      choices := [];
      NothingGave(w, true, m);
    } else {
      var others := AllSkipped(w, es[1..], m);
      choices := [Branch(false)] + others;
      CalmOne(Branch(false));
      CalmJoined([Branch(false)], others);
      hide Calm, Evaluates;
      forall rest | Calm(rest)
        ensures EvaluatesAll(w, es, true, With(m, choices + rest)) == Gives(NONE_TYPE, With(m, rest))
      {
        assert choices + rest == [Branch(false)] + (others + rest);
        assert ([Branch(false)] + (others + rest))[1..] == others + rest;
      }
    }
  }

  // From every good machine that meets what is wanted, the expression can give an object of the class.
  lemma {:induction false} ValueReal(w: World, k: Name, e: Expr, env: Env) returns (want: Want)
    requires Hosts(w, Mentioned(e) + {k}) && Plain(e) && Wanted(ValueClasses(e, env), k)
    ensures Possible(env, want, k)
    ensures forall m :: Good(w, env, m) && Meets(m, want, k) ==> CanGive(w, e, m, k)
    decreases e
  {
    hide Calm, Gave, GaveAll;
    want := Anything;
    match e {
      case Variable(x) =>
        want := Ready(x);
        forall m | Good(w, env, m) && Meets(m, want, k) ensures CanGive(w, e, m, k) {
          var choices, c := VariableGave(w, k, x, m);
        }
      case Await(value) =>
        want := ValueReal(w, k, value, env);
        forall m | Good(w, env, m) && Meets(m, want, k) ensures CanGive(w, e, m, k) {
          var choices :| Gave(w, value, m, choices, k);
          AwaitGave(w, value, m, choices, k);
        }
      case Call(_, local, _) =>
        if local.Some? && local.value in env { want := Bound(local.value); }
        forall m | Good(w, env, m) && Meets(m, want, k) ensures CanGive(w, e, m, k) { CallReal(w, k, e, env, m); }
      case Choose(test, body, orelse) =>
        var taken := Wanted(ValueClasses(body, env), k);
        want := ValueReal(w, k, if taken then body else orelse, env);
        forall m | Good(w, env, m) && Meets(m, want, k) ensures CanGive(w, e, m, k) {
          var first, a := ValuePasses(w, k, test, env, m);
          var second :| Gave(w, if taken then body else orelse, m, second, k);
          var choices := Chosen(w, e, m, first, a, taken, second, k);
        }
      case Other(parts) =>
        forall m | Good(w, env, m) ensures CanGive(w, e, m, k) { var choices := OtherGave(w, k, parts, m); }
    }
  }

  lemma CallReal(w: World, k: Name, e: Expr, env: Env, m: Machine)
    requires e.Call? && Hosts(w, Mentioned(e) + {k}) && Plain(e) && Wanted(ValueClasses(e, env), k) && Good(w, env, m)
    requires e.local.Some? && e.local.value in env ==> e.local.value in m.env
    ensures CanGive(w, e, m, k)
  {
    hide Calm, Gave, GaveAll;
    var choices := AllPass(w, k, e.parts, env, m);
    var c;
    choices, c := Called(w, k, e, m, choices);
  }

  // ----- statements that go on

  ghost predicate Reached(w: World, s: Stmt, m: Machine, choices: seq<Choice>, n: Machine) {
    Calm(choices) && forall rest :: Calm(rest) ==> RunStmt(w, s, With(m, choices + rest)) == Continues(With(n, rest))
  }

  ghost predicate BlockReached(w: World, body: seq<Stmt>, m: Machine, choices: seq<Choice>, n: Machine) {
    && Calm(choices)
    && forall rest :: Calm(rest) ==> RunBlock(w, body, With(m, choices + rest)) == Continues(With(n, rest))
  }

  ghost predicate CanReach(w: World, s: Stmt, m: Machine, env: Env, want: Want, k: Name) {
    exists choices, n :: Reached(w, s, m, choices, n) && Good(w, env, n) && Meets(n, want, k)
  }

  ghost predicate BlockCanReach(w: World, body: seq<Stmt>, m: Machine, env: Env, want: Want, k: Name) {
    exists choices, n :: BlockReached(w, body, m, choices, n) && Good(w, env, n) && Meets(n, want, k)
  }

  // The one value of a statement, if any.
  function ValueOf(s: Stmt): Option<Expr> {
    match s
    case Assign(_, value) => Some(value)
    case Annotate(_, initial) => initial
    case Yield(result) => result
    case Evaluate(value) => Some(value)
    case _ => None
  }

  // What the statement does with the value, where it goes on.
  function Continued(s: Stmt, m: Machine, c: Name): Machine {
    match s
    case Assign(targets, _) => m.(env := Store(targets, c, m.env))
    case Annotate(name, _) => m.(env := m.env[name := c])
    case Yield(_) => Providing(m, c)
    case _ => m
  }

  lemma ValueReached(w: World, s: Stmt, m: Machine, choices: seq<Choice>, c: Name)
    requires ValueOf(s).Some? && Gave(w, ValueOf(s).value, m, choices, c) && m.shared == {}
    ensures Reached(w, s, m, choices, Continued(s, m, c))
  {
    assert Calm(choices);
    hide Gave, Calm, Evaluates;
    forall rest | Calm(rest)
      ensures RunStmt(w, s, With(m, choices + rest)) == Continues(With(Continued(s, m, c), rest))
    {
      GaveOnce(w, ValueOf(s).value, m, choices, c, rest);
    }
  }

  lemma StayReached(w: World, s: Stmt, m: Machine)
    requires s.Pass? || (s.Annotate? && s.initial.None?)
    ensures Reached(w, s, m, [], m)
  {
    NoneCalm();
    hide Calm;
    forall rest | Calm(rest) ensures RunStmt(w, s, With(m, [] + rest)) == Continues(With(m, rest)) {
      assert [] + rest == rest;
    }
  }

  lemma BareYieldReached(w: World, m: Machine)
    requires m.shared == {}
    ensures Reached(w, Yield(None), m, [], Providing(m, NONE_TYPE))
  {
    NoneCalm();
    hide Calm;
    forall rest | Calm(rest)
      ensures RunStmt(w, Yield(None), With(m, [] + rest)) == Continues(With(Providing(m, NONE_TYPE), rest))
    {
      assert [] + rest == rest;
    }
  }

  lemma {:induction false} StoredAt(targets: seq<Option<string>>, c: Name, env: map<string, Name>, x: string)
    ensures x in Store(targets, c, env) <==> x in env || Some(x) in targets
    ensures x in Store(targets, c, env) ==> Store(targets, c, env)[x] == if Some(x) in targets then c else env[x]
  {
    if targets != [] {
      StoredAt(targets[1..], c, if targets[0].Some? then env[targets[0].value := c] else env, x);
      assert targets == [targets[0]] + targets[1..];
    }
  }

  lemma {:induction false} AssignedAt(targets: seq<Option<string>>, classes: Classes, env: Env, x: string)
    requires None !in targets
    ensures AssignAll(targets, classes, env).Some?
    ensures var after := AssignAll(targets, classes, env).value;
            && (x in after <==> x in env || Some(x) in targets)
            && (x in after ==> after[x] == if Some(x) in targets then classes else env[x])
  {
    if targets != [] {
      AssignedAt(targets[1..], classes, env[targets[0].value := classes], x);
      assert targets == [targets[0]] + targets[1..];
    }
  }

  // The variables that the statement binds to its value.
  predicate Stores(s: Stmt, x: string) {
    (s.Assign? && Some(x) in s.targets) || (s.Annotate? && s.initial.Some? && s.name == x)
  }

  lemma StoresAt(s: Stmt, m: Machine, c: Name, x: string)
    requires ValueOf(s).Some?
    ensures var next := Continued(s, m, c).env;
            && (x in next <==> x in m.env || Stores(s, x))
            && (x in next ==> next[x] == if Stores(s, x) then c else m.env[x])
  {
    if s.Assign? {
      StoredAt(s.targets, c, m.env, x);
    }
  }

  lemma ListedAt(s: Stmt, env: Env, x: string)
    requires ValueOf(s).Some? && StmtFollowed(s) && Analyze(s, env).after.Some?
    ensures var after := Analyze(s, env).after.value;
            && (x in after <==> x in env || Stores(s, x))
            && (x in after ==> after[x] == if Stores(s, x) then ValueClasses(ValueOf(s).value, env) else env[x])
  {
    if s.Assign? { AssignedAt(s.targets, ValueClasses(s.value, env), env, x); }
  }

  lemma StoresGood(w: World, s: Stmt, env: Env, m: Machine, c: Name)
    requires ValueOf(s).Some? && StmtFollowed(s) && Analyze(s, env).after.Some? && Good(w, env, m) && c in w.awaited
    ensures Good(w, Analyze(s, env).after.value, Continued(s, m, c))
  {
    forall x | x in Continued(s, m, c).env
      ensures x in Analyze(s, env).after.value && Continued(s, m, c).env[x] in w.awaited
    {
      StoresAt(s, m, c, x);
      ListedAt(s, env, x);
    }
  }

  lemma {:induction false} StoreReal(w: World, k: Name, s: Stmt, env: Env, want: Want) returns (before: Want)
    requires ValueOf(s).Some? && StmtPlainly(s) && Hosts(w, StmtMentions(s) + {k})
    requires Analyze(s, env).after.Some? && Possible(Analyze(s, env).after.value, want, k)
    ensures Possible(env, before, k)
    ensures forall m :: Good(w, env, m) && Meets(m, before, k) ==>
              CanReach(w, s, m, Analyze(s, env).after.value, want, k)
  {
    var value := ValueOf(s).value;
    OnlyPart(s, value);
    var stored := !want.Anything? && Stores(s, want.name);
    if !want.Anything? { ListedAt(s, env, want.name); }
    before := if stored then Anything else want;
    if stored && want.Ready? { before := ValueReal(w, k, value, env); }
    forall m | Good(w, env, m) && Meets(m, before, k) ensures CanReach(w, s, m, Analyze(s, env).after.value, want, k) {
      StoreMeets(w, k, s, env, want, m);
    }
  }

  lemma StoreMeets(w: World, k: Name, s: Stmt, env: Env, want: Want, m: Machine)
    requires ValueOf(s).Some? && StmtPlainly(s) && Hosts(w, StmtMentions(s) + {k})
    requires Analyze(s, env).after.Some? && Good(w, env, m)
    requires if !want.Anything? && Stores(s, want.name) then want.Ready? ==> CanGive(w, ValueOf(s).value, m, k)
             else Meets(m, want, k)
    ensures CanReach(w, s, m, Analyze(s, env).after.value, want, k)
  {
    var value := ValueOf(s).value;
    OnlyPart(s, value);
    hide Gave, Calm, Reached, Analyze, StmtPlainly, Plain;
    var choices, c := ValuePasses(w, k, value, env, m);
    if want.Ready? && Stores(s, want.name) {
      c := k;
      choices :| Gave(w, value, m, choices, c);
    }
    ValueReached(w, s, m, choices, c);
    StoresGood(w, s, env, m, c);
    if !want.Anything? { StoresAt(s, m, c, want.name); }
    assert Meets(Continued(s, m, c), want, k);
  }

  lemma OnlyPart(s: Stmt, e: Expr)
    requires StmtWithin(NO_FORMS, s) && StmtFollowed(s) && Parts(s, true) == [e]
    ensures Plain(e) && Mentioned(e) <= StmtMentions(s)
  {
  }

  // A nested definition, which may be any object.
  lemma {:induction false} DefineReal(w: World, k: Name, s: Stmt, env: Env, want: Want) returns (before: Want)
    requires s.Define? && StmtPlainly(s) && Hosts(w, StmtMentions(s) + {k})
    requires Possible(Analyze(s, env).after.value, want, k)
    ensures Possible(env, before, k)
    ensures forall m :: Good(w, env, m) && Meets(m, before, k) ==>
              CanReach(w, s, m, Analyze(s, env).after.value, want, k)
  {
    before := if !want.Anything? && want.name == s.name then Anything else want;
    hide Gave, GaveAll, Calm, Reached;
    forall m | Good(w, env, m) && Meets(m, before, k) ensures CanReach(w, s, m, Analyze(s, env).after.value, want, k) {
      var choices := DefineReached(w, k, s, env, m);
    }
  }

  lemma DefineReached(w: World, k: Name, s: Stmt, env: Env, m: Machine) returns (choices: seq<Choice>)
    requires s.Define? && StmtPlainly(s) && Hosts(w, StmtMentions(s) + {k}) && Good(w, env, m)
    ensures Reached(w, s, m, choices, m.(env := m.env[s.name := k]))
  {
    choices := AllPass(w, k, s.parts, env, m);
    choices := Then(w, s.parts, false, m, choices, k);
    var n := m.(env := m.env[s.name := k]);
    hide Calm, RunStmt, EvaluatesAll, GaveAll;
    forall rest | Calm(rest) ensures RunStmt(w, s, With(m, choices + rest)) == Continues(With(n, rest)) {
      DefineOnce(w, s, k, With(m, choices + rest), m, rest);
    }
  }

  lemma DefineOnce(w: World, s: Stmt, k: Name, start: Machine, m: Machine, rest: seq<Choice>)
    requires s.Define? && s.rebinds == {} && m.shared == {}
    requires EvaluatesAll(w, s.parts, false, start) == Gives(NONE_TYPE, With(m, [Value(k)] + rest))
    ensures RunStmt(w, s, start) == Continues(With(m.(env := m.env[s.name := k]), rest))
  {
    var n := With(m, [Value(k)] + rest);
    assert n.(shared := n.shared + s.rebinds) == n;
    assert Disturbed(n) == n && n.choices[1..] == rest;
  }

  lemma {:induction false} StmtReal(w: World, k: Name, s: Stmt, env: Env, want: Want) returns (before: Want)
    requires StmtPlainly(s) && Hosts(w, StmtMentions(s) + {k})
    requires Analyze(s, env).after.Some? && Possible(Analyze(s, env).after.value, want, k)
    ensures Possible(env, before, k)
    ensures forall m :: Good(w, env, m) && Meets(m, before, k) ==>
              CanReach(w, s, m, Analyze(s, env).after.value, want, k)
    decreases s, 1
  {
    before := want;
    hide Calm, Meets, Hosts, Plain, StmtWithin, StmtFollowed, StmtMentions, Reached;
    if ValueOf(s).Some? {
      before := StoreReal(w, k, s, env, want);
    } else if s.If? {
      before := IfReal(w, k, s, env, want);
    } else if s.Define? {
      before := DefineReal(w, k, s, env, want);
    } else {
      forall m | Good(w, env, m) && Meets(m, want, k) ensures CanReach(w, s, m, env, want, k) {
        if s.Yield? { YieldReached(w, k, env, want, m); } else { StayReached(w, s, m); }
      }
    }
  }

  lemma YieldReached(w: World, k: Name, env: Env, want: Want, m: Machine)
    requires Good(w, env, m) && Meets(m, want, k)
    ensures CanReach(w, Yield(None), m, env, want, k)
  {
    hide Calm, Reached;
    BareYieldReached(w, m);
    assert Good(w, env, Providing(m, NONE_TYPE)) && Meets(Providing(m, NONE_TYPE), want, k);
  }

  // ----- branches and blocks that go on

  // The test passes and the branch is taken.
  lemma Taken(w: World, s: Stmt, m: Machine, first: seq<Choice>, a: Name, taken: bool, later: seq<Choice>)
    requires s.If? && Gave(w, s.test, m, first, a) && Calm(later)
    ensures RunStmt(w, s, With(m, first + ([Branch(taken)] + later)))
            == RunBlock(w, if taken then s.body else s.orelse, With(m, later))
  {
    var after := [Branch(taken)] + later;
    CalmJoined([Branch(taken)], later);
    assert Evaluates(w, s.test, With(m, first + after)) == Gives(a, With(m, after));
    hide Evaluates, Calm;
    assert after[1..] == later;
  }

  lemma {:induction false} IfReal(w: World, k: Name, s: Stmt, env: Env, want: Want) returns (before: Want)
    requires s.If? && StmtPlainly(s) && Hosts(w, StmtMentions(s) + {k})
    requires Analyze(s, env).after.Some? && Possible(Analyze(s, env).after.value, want, k)
    ensures Possible(env, before, k)
    ensures forall m :: Good(w, env, m) && Meets(m, before, k) ==>
              CanReach(w, s, m, Analyze(s, env).after.value, want, k)
    decreases s, 0
  {
    hide StmtPlainly, Plainly, Plain, Hosts, Analyze, Meets, Good, Calm, AnalyzeBlock, BlockReached, Reached, Gave;
    TestPlain(w, k, s);
    var left, right, after := AnalyzeBlock(s.body, env).after, AnalyzeBlock(s.orelse, env).after, Analyze(s, env).after;
    var taken := left.Some? && (right.None? || Possible(left.value, want, k));
    SideReached(w, s, env, want, k, taken);
    hide Possible;
    var branch := if taken then s.body else s.orelse;
    var here := AnalyzeBlock(branch, env).after.value;
    before := BlockReal(w, k, branch, env, want);
    forall m | Good(w, env, m) && Meets(m, before, k) ensures CanReach(w, s, m, after.value, want, k) {
      var first, a := ValuePasses(w, k, s.test, env, m);
      assert BlockCanReach(w, branch, m, here, want, k);
      var second, n :| BlockReached(w, branch, m, second, n) && Good(w, here, n) && Meets(n, want, k);
      BranchReached(w, s, m, first, a, taken, second, n);
    }
  }

  lemma TestPlain(w: World, k: Name, s: Stmt)
    requires s.If? && StmtPlainly(s) && Hosts(w, StmtMentions(s) + {k})
    ensures Plain(s.test) && Plainly(s.body) && Plainly(s.orelse) && Hosts(w, Mentioned(s.test) + {k})
    ensures Hosts(w, BlockMentions(s.body) + {k}) && Hosts(w, BlockMentions(s.orelse) + {k})
  {
  }

  // What holds after one of the branches is possible after both.
  lemma SideReached(w: World, s: Stmt, env: Env, want: Want, k: Name, taken: bool)
    requires s.If? && Analyze(s, env).after.Some? && Possible(Analyze(s, env).after.value, want, k)
    requires var left, right := AnalyzeBlock(s.body, env), AnalyzeBlock(s.orelse, env);
             taken == (left.after.Some? && (right.after.None? || Possible(left.after.value, want, k)))
    ensures var side := AnalyzeBlock(if taken then s.body else s.orelse, env).after;
            && side.Some? && Possible(side.value, want, k)
            && (forall n :: Good(w, side.value, n) ==> Good(w, Analyze(s, env).after.value, n))
  {
    hide AnalyzeBlock;
  }

  lemma BranchReached(
      w: World, s: Stmt, m: Machine, first: seq<Choice>, a: Name, taken: bool, second: seq<Choice>, n: Machine)
    requires s.If? && Gave(w, s.test, m, first, a)
    requires BlockReached(w, if taken then s.body else s.orelse, m, second, n)
    ensures Reached(w, s, m, first + ([Branch(taken)] + second), n)
  {
    assert Calm([Branch(taken)]);
    hide Calm, RunStmt, RunBlock, Evaluates;
    CalmJoined([Branch(taken)], second);
    CalmJoined(first, [Branch(taken)] + second);
    forall rest | Calm(rest)
      ensures RunStmt(w, s, With(m, first + ([Branch(taken)] + second) + rest)) == Continues(With(n, rest))
    {
      BranchOnce(w, s, m, first, a, taken, second, n, rest);
    }
  }

  lemma BranchOnce(
      w: World, s: Stmt, m: Machine, first: seq<Choice>, a: Name, taken: bool, second: seq<Choice>, n: Machine,
      rest: seq<Choice>)
    requires s.If? && Gave(w, s.test, m, first, a) && Calm(rest)
    requires BlockReached(w, if taken then s.body else s.orelse, m, second, n)
    ensures RunStmt(w, s, With(m, first + ([Branch(taken)] + second) + rest)) == Continues(With(n, rest))
  {
    hide RunStmt, RunBlock, Gave, BlockReached, Calm;
    BlockReachedOnce(w, if taken then s.body else s.orelse, m, second, n, rest);
    Taken(w, s, m, first, a, taken, second + rest);
    assert first + ([Branch(taken)] + second) + rest == first + ([Branch(taken)] + (second + rest));
  }

  lemma BlockReachedOnce(w: World, body: seq<Stmt>, m: Machine, choices: seq<Choice>, n: Machine, rest: seq<Choice>)
    requires BlockReached(w, body, m, choices, n) && Calm(rest)
    ensures Calm(choices + rest) && RunBlock(w, body, With(m, choices + rest)) == Continues(With(n, rest))
  {
    CalmJoined(choices, rest);
  }

  lemma {:induction false} BlockReal(w: World, k: Name, body: seq<Stmt>, env: Env, want: Want) returns (before: Want)
    requires Plainly(body) && Hosts(w, BlockMentions(body) + {k})
    requires AnalyzeBlock(body, env).after.Some? && Possible(AnalyzeBlock(body, env).after.value, want, k)
    ensures Possible(env, before, k)
    ensures forall m :: Good(w, env, m) && Meets(m, before, k) ==>
              BlockCanReach(w, body, m, AnalyzeBlock(body, env).after.value, want, k)
    decreases body, 0
  {
    var after := AnalyzeBlock(body, env).after.value;
    if body == [] {
      before := want;
      forall m | Good(w, env, m) && Meets(m, before, k) ensures BlockCanReach(w, body, m, after, want, k) {
        EndReached(w, m);
      }
    } else {
      var between := Analyze(body[0], env).after.value;
      FirstAndRest(w, k, body);
      hide Calm, Good, Meets, Hosts, Analyze, Plainly, StmtPlainly, Reached, BlockReached;
      var middle := BlockReal(w, k, body[1..], between, want);
      before := StmtReal(w, k, body[0], env, middle);
      forall m | Good(w, env, m) && Meets(m, before, k) ensures BlockCanReach(w, body, m, after, want, k) {
        assert CanReach(w, body[0], m, between, middle, k);
        var first, n :| Reached(w, body[0], m, first, n) && Good(w, between, n) && Meets(n, middle, k);
        assert BlockCanReach(w, body[1..], n, after, want, k);
        var second, last :| BlockReached(w, body[1..], n, second, last) && Good(w, after, last) && Meets(last, want, k);
        Onwards(w, body, m, first, n, second, last);
      }
    }
  }

  lemma EndReached(w: World, m: Machine)
    ensures BlockReached(w, [], m, [], m)
  {
    forall rest: seq<Choice> ensures [] + rest == rest {}
  }

  lemma FirstAndRest(w: World, k: Name, body: seq<Stmt>)
    requires body != [] && Plainly(body) && Hosts(w, BlockMentions(body) + {k})
    ensures StmtPlainly(body[0]) && Hosts(w, StmtMentions(body[0]) + {k})
    ensures Plainly(body[1..]) && Hosts(w, BlockMentions(body[1..]) + {k})
  {
  }

  lemma Onwards(
      w: World, body: seq<Stmt>, m: Machine, first: seq<Choice>, n: Machine, second: seq<Choice>, last: Machine)
    requires body != [] && Reached(w, body[0], m, first, n) && BlockReached(w, body[1..], n, second, last)
    ensures BlockReached(w, body, m, first + second, last)
  {
    hide Calm, RunStmt;
    CalmJoined(first, second);
    forall rest | Calm(rest) ensures RunBlock(w, body, With(m, first + second + rest)) == Continues(With(last, rest)) {
      CalmJoined(second, rest);
      assert first + second + rest == first + (second + rest);
    }
  }

  // ----- statements that provide

  ghost predicate CanProvide(w: World, s: Stmt, m: Machine, k: Name) {
    exists choices :: Calm(choices) && k in RunStmt(w, s, With(m, choices)).next.provided
  }

  ghost predicate BlockCanProvide(w: World, body: seq<Stmt>, m: Machine, k: Name) {
    exists choices :: Calm(choices) && k in RunBlock(w, body, With(m, choices)).next.provided
  }

  lemma {:induction false} StmtProvides(w: World, k: Name, s: Stmt, env: Env) returns (want: Want)
    requires StmtPlainly(s) && Hosts(w, StmtMentions(s) + {k}) && Wanted(Analyze(s, env).provided, k)
    ensures Possible(env, want, k)
    ensures forall m :: Good(w, env, m) && Meets(m, want, k) ==> CanProvide(w, s, m, k)
    decreases s, 1
  {
    want := Anything;
    match s {
      case Return(result) => want := ResultProvides(w, k, s, result, env);
      case Yield(result) => want := ResultProvides(w, k, s, result, env);
      case If(_, _, _) =>
        var taken := Wanted(AnalyzeBlock(s.body, env).provided, k);
        var branch := if taken then s.body else s.orelse;
        TestPlain(w, k, s);
        want := BlockProvides(w, k, branch, env);
        forall m | Good(w, env, m) && Meets(m, want, k) ensures CanProvide(w, s, m, k) {
          var first, a := ValuePasses(w, k, s.test, env, m);
          assert BlockCanProvide(w, branch, m, k);
          var second :| Calm(second) && k in RunBlock(w, branch, With(m, second)).next.provided;
          Taken(w, s, m, first, a, taken, second);
          CalmJoined([Branch(taken)], second);
          CalmJoined(first, [Branch(taken)] + second);
        }
      case Assign(targets, value) => AssignedAt(targets, ValueClasses(value, env), env, "");
      case _ =>
    }
  }

  lemma {:induction false} ResultProvides(w: World, k: Name, s: Stmt, result: Option<Expr>, env: Env)
      returns (want: Want)
    requires (s == Return(result) || s == Yield(result)) && StmtPlainly(s) && Hosts(w, StmtMentions(s) + {k})
    requires Wanted(OptionalClasses(result, env), k)
    ensures Possible(env, want, k)
    ensures forall m :: Good(w, env, m) && Meets(m, want, k) ==> CanProvide(w, s, m, k)
  {
    want := Anything;
    if result.Some? {
      OnlyPart(s, result.value);
      want := ValueReal(w, k, result.value, env);
    }
    forall m | Good(w, env, m) && Meets(m, want, k) ensures CanProvide(w, s, m, k) {
      var choices := [];
      if result.Some? {
        choices :| Gave(w, result.value, m, choices, k);
        assert Evaluates(w, result.value, With(m, choices + [])) == Gives(k, With(m, []));
      }
      assert choices + [] == choices;
      assert k in RunStmt(w, s, With(m, choices)).next.provided;
    }
  }

  lemma {:induction false} BlockProvides(w: World, k: Name, body: seq<Stmt>, env: Env) returns (want: Want)
    requires Plainly(body) && Hosts(w, BlockMentions(body) + {k}) && Wanted(AnalyzeBlock(body, env).provided, k)
    ensures Possible(env, want, k)
    ensures forall m :: Good(w, env, m) && Meets(m, want, k) ==> BlockCanProvide(w, body, m, k)
    decreases body, 0
  {
    var first := Analyze(body[0], env);
    FirstAndRest(w, k, body);
    hide Calm, Good, Meets, Hosts, Analyze, Plainly, StmtPlainly, Reached, RunStmt;
    if Wanted(first.provided, k) {
      want := StmtProvides(w, k, body[0], env);
      forall m | Good(w, env, m) && Meets(m, want, k) ensures BlockCanProvide(w, body, m, k) {
        assert CanProvide(w, body[0], m, k);
        var choices :| Calm(choices) && k in RunStmt(w, body[0], With(m, choices)).next.provided;
        BlockKeepsProvided(w, body[1..], RunStmt(w, body[0], With(m, choices)).next, k);
      }
    } else {
      var middle := BlockProvides(w, k, body[1..], first.after.value);
      want := StmtReal(w, k, body[0], env, middle);
      forall m | Good(w, env, m) && Meets(m, want, k) ensures BlockCanProvide(w, body, m, k) {
        assert CanReach(w, body[0], m, first.after.value, middle, k);
        var before, n :| Reached(w, body[0], m, before, n) && Good(w, first.after.value, n) && Meets(n, middle, k);
        assert BlockCanProvide(w, body[1..], n, k);
        var choices :| Calm(choices) && k in RunBlock(w, body[1..], With(n, choices)).next.provided;
        ReachedOnce(w, body[0], m, before, n, choices);
      }
    }
  }

  lemma ReachedOnce(w: World, s: Stmt, m: Machine, choices: seq<Choice>, n: Machine, rest: seq<Choice>)
    requires Reached(w, s, m, choices, n) && Calm(rest)
    ensures Calm(choices + rest) && RunStmt(w, s, With(m, choices + rest)) == Continues(With(n, rest))
  {
    CalmJoined(choices, rest);
  }

  // ----- what has been provided stays provided

  lemma {:induction false} DisturbedProvided(m: Machine)
    ensures Disturbed(m).provided == m.provided
    decreases |m.choices|
  {
    if m.choices != [] && m.choices[0].Rebind? && m.choices[0].name in m.shared {
      DisturbedProvided(m.(env := m.env[m.choices[0].name := m.choices[0].to], choices := m.choices[1..]));
    }
  }

  lemma {:induction false} ValueKeepsProvided(w: World, e: Expr, m: Machine, k: Name)
    requires k in m.provided
    ensures k in Evaluates(w, e, m).next.provided
    decreases e, 0
  {
    if m.choices != [] && m.choices[0].Failure? { return; }
    match e {
      case Variable(_) =>
      case Await(value) =>
        ValueKeepsProvided(w, value, m, k);
        DisturbedProvided(Evaluates(w, value, m).next);
      case Call(parts, _, _) =>
        AllKeepProvided(w, parts, false, m, k);
        DisturbedProvided(EvaluatesAll(w, parts, false, m).next);
      case Choose(test, body, orelse) =>
        ValueKeepsProvided(w, test, m, k);
        var n := Evaluates(w, test, m).next;
        if n.choices != [] {
          ValueKeepsProvided(w, body, n.(choices := n.choices[1..]), k);
          ValueKeepsProvided(w, orelse, n.(choices := n.choices[1..]), k);
        }
      case Bind(_, value) => ValueKeepsProvided(w, value, m, k);
      case YieldValue(result) =>
        if result.Some? { ValueKeepsProvided(w, result.value, m, k); }
        var r := if result.Some? then Evaluates(w, result.value, m) else Gives(NONE_TYPE, m);
        if r.Gives? { DisturbedProvided(Providing(r.next, r.instance)); }
      case Other(parts) =>
        AllKeepProvided(w, parts, true, m, k);
        DisturbedProvided(EvaluatesAll(w, parts, true, m).next);
    }
  }

  lemma {:induction false} AllKeepProvided(w: World, es: seq<Expr>, optional: bool, m: Machine, k: Name)
    requires k in m.provided
    ensures k in EvaluatesAll(w, es, optional, m).next.provided
    decreases es, 0
  {
    if es == [] || (optional && (m.choices == [] || !m.choices[0].Branch?)) { return; }
    var n := if optional then m.(choices := m.choices[1..]) else m;
    ValueKeepsProvided(w, es[0], n, k);
    AllKeepProvided(w, es[1..], optional, n, k);
    if Evaluates(w, es[0], n).Gives? { AllKeepProvided(w, es[1..], optional, Evaluates(w, es[0], n).next, k); }
  }

  lemma {:induction false} StmtKeepsProvided(w: World, s: Stmt, m: Machine, k: Name)
    requires k in m.provided
    ensures k in RunStmt(w, s, m).next.provided
    decreases s, 0
  {
    hide Evaluates, EvaluatesAll;
    match s {
      case Assign(_, value) => ValueKeepsProvided(w, value, m, k);
      case Annotate(_, initial) => if initial.Some? { ValueKeepsProvided(w, initial.value, m, k); }
      case Return(result) => if result.Some? { ValueKeepsProvided(w, result.value, m, k); }
      case Yield(result) =>
        if result.Some? { ValueKeepsProvided(w, result.value, m, k); }
        var r := EvaluatesOptional(w, result, m);
        if r.Gives? { DisturbedProvided(Providing(r.next, r.instance)); }
      case If(test, body, orelse) =>
        ValueKeepsProvided(w, test, m, k);
        var n := Evaluates(w, test, m).next;
        if n.choices != [] {
          BlockKeepsProvided(w, body, n.(choices := n.choices[1..]), k);
          BlockKeepsProvided(w, orelse, n.(choices := n.choices[1..]), k);
        }
      case Raise(parts) => AllKeepProvided(w, parts, false, m, k);
      case Define(_, parts, rebinds) =>
        AllKeepProvided(w, parts, false, m, k);
        var n := EvaluatesAll(w, parts, false, m).next;
        DisturbedProvided(n.(shared := n.shared + rebinds));
      case Evaluate(value) => ValueKeepsProvided(w, value, m, k);
      case _ =>
    }
  }

  lemma {:induction false} BlockKeepsProvided(w: World, body: seq<Stmt>, m: Machine, k: Name)
    requires k in m.provided
    ensures k in RunBlock(w, body, m).next.provided
    decreases body, 0
  {
    if body != [] {
      StmtKeepsProvided(w, body[0], m, k);
      BlockKeepsProvided(w, body[1..], RunStmt(w, body[0], m).next, k);
    }
  }

  // ----- factories

  // Some run provides an object of the class, in a world where calling or awaiting does not change classes.
  ghost predicate CanBeProvided(f: Factory, c: Name) {
    exists w, arguments: map<string, Name>, choices: seq<Choice> ::
      && KeepsClass(w) && arguments.Keys == f.parameters
      && c in RunFactory(w, f, arguments, choices).next.provided
  }

  ghost predicate NothingProvided(f: Factory) {
    forall w, arguments: map<string, Name>, choices: seq<Choice> ::
      KeepsClass(w) && arguments.Keys == f.parameters ==> RunFactory(w, f, arguments, choices).next.provided == []
  }

  // Without a yield in what a nested definition evaluates, the two searches find the same.
  lemma {:induction false} YieldsShown(body: seq<Stmt>)
    requires Quiet(body) && BlockYields(body, true)
    ensures BlockYields(body, false)
  {
    assert StmtWithin(NO_FORMS, body[0]);
    if StmtYields(body[0], true) {
      if body[0].If? && BlockYields(body[0].body, true) { YieldsShown(body[0].body); }
      if body[0].If? && BlockYields(body[0].orelse, true) { YieldsShown(body[0].orelse); }
    } else {
      YieldsShown(body[1..]);
    }
  }

  // A world and arguments from which everything wanted is there.
  lemma Beginning(f: Factory, c: Name) returns (w: World, arguments: map<string, Name>)
    ensures KeepsClass(w) && Hosts(w, BlockMentions(f.body) + {c}) && arguments.Keys == f.parameters
    ensures var m := Machine(arguments, {}, [], []);
            Good(w, Parameters(f), m) && forall want :: Possible(Parameters(f), want, c) ==> Meets(m, want, c)
  {
    w := World(map x | x in BlockMentions(f.body) + {c} :: x, map[]);
    arguments := map x | x in f.parameters :: c;
  }

  lemma ListedBlock(f: Factory, c: Name)
    requires Plainly(f.body) && Wanted(AnalyzeBlock(f.body, Parameters(f)).provided, c)
    ensures CanBeProvided(f, c)
  {
    var w, arguments := Beginning(f, c);
    var m := Machine(arguments, {}, [], []);
    var want := BlockProvides(w, c, f.body, Parameters(f));
    assert BlockCanProvide(w, f.body, m, c);
    var choices :| Calm(choices) && c in RunBlock(w, f.body, With(m, choices)).next.provided;
    assert c in RunFactory(w, f, arguments, choices).next.provided;
  }

  lemma FallingOff(f: Factory)
    requires Plainly(f.body) && AnalyzeBlock(f.body, Parameters(f)).after.Some? && !BlockYields(f.body, false)
    ensures CanBeProvided(f, NONE_TYPE)
  {
    var w, arguments := Beginning(f, NONE_TYPE);
    var m := Machine(arguments, {}, [], []);
    hide Good, Meets, BlockReached, RunBlock, AnalyzeBlock, Calm, Hosts, BlockYields, Followed, Parameters;
    var want := BlockReal(w, NONE_TYPE, f.body, Parameters(f), Anything);
    var after := AnalyzeBlock(f.body, Parameters(f)).after.value;
    assert BlockCanReach(w, f.body, m, after, Anything, NONE_TYPE);
    var choices, n :| BlockReached(w, f.body, m, choices, n) && Good(w, after, n) && Meets(n, Anything, NONE_TYPE);
    Beyond(w, f.body, m, choices, n);
    assert With(m, choices) == Machine(arguments, {}, choices, []);
    FallsOff(w, f, arguments, choices, With(n, []));
  }

  lemma FallsOff(w: World, f: Factory, arguments: map<string, Name>, choices: seq<Choice>, n: Machine)
    requires Quiet(f.body) && !BlockYields(f.body, false) && arguments.Keys == f.parameters
    requires RunBlock(w, f.body, Machine(arguments, {}, choices, [])) == Continues(n)
    ensures NONE_TYPE in RunFactory(w, f, arguments, choices).next.provided
  {
    if BlockYields(f.body, true) { YieldsShown(f.body); }
  }

  // The block ends with no choice left over.
  lemma Beyond(w: World, body: seq<Stmt>, m: Machine, choices: seq<Choice>, n: Machine)
    requires BlockReached(w, body, m, choices, n) && m.choices == []
    ensures RunBlock(w, body, With(m, choices)) == Continues(With(n, []))
  {
    BlockReachedOnce(w, body, m, choices, n, []);
    assert choices + [] == choices;
  }

  lemma NothingListed(f: Factory)
    requires Plainly(f.body)
    requires var block := AnalyzeBlock(f.body, Parameters(f));
             block.provided == {} && (block.after.Some? ==> BlockYields(f.body, false))
    ensures NothingProvided(f)
  {
    forall w, arguments: map<string, Name>, choices: seq<Choice> | KeepsClass(w) && arguments.Keys == f.parameters
      ensures RunFactory(w, f, arguments, choices).next.provided == []
    {
      BlockSound(w, f.body, Parameters(f), {}, Machine(arguments, {}, choices, []));
      if BlockYields(f.body, false) { YieldsFound(f.body); }
      var provided := RunBlock(w, f.body, Machine(arguments, {}, choices, [])).next.provided;
      if provided != [] { SomeListed({}, provided); }
    }
  }

  lemma SomeListed(classes: Classes, provided: seq<Name>)
    requires provided != [] && Factories.Listed(classes, provided)
    ensures classes != {}
  {
    assert provided[0] in provided;
    assert Some(provided[0]) in classes;
  }

  /** Nothing is listed that cannot be: a listed class is provided by some run; and where the list says that it does
      not know, some run provides the object None, or no run provides anything. */
  lemma ListedProvided(f: Factory, c: Name)
    requires Plainly(f.body) && Wanted(Constructed(f), c)
    ensures CanBeProvided(f, c) || (Constructed(f) == {None} && NothingProvided(f))
  {
    var block := AnalyzeBlock(f.body, Parameters(f));
    if Wanted(block.provided, c) {
      ListedBlock(f, c);
    } else if block.after.Some? && !BlockYields(f.body, false) {
      FallingOff(f);
    } else {
      NothingListed(f);
    }
  }

  /** With nothing unknown, the list holds exactly the classes that runs provide. */
  lemma ProvidedExactly(f: Factory, c: Name)
    requires Plainly(f.body) && None !in Constructed(f)
    ensures Some(c) in Constructed(f) <==> CanBeProvided(f, c)
  {
    if Some(c) in Constructed(f) { ListedProvided(f, c); }
    forall w, arguments: map<string, Name>, choices: seq<Choice> |
      && KeepsClass(w) && arguments.Keys == f.parameters
      && c in RunFactory(w, f, arguments, choices).next.provided
      ensures Some(c) in Constructed(f)
    {
      ConstructedSound(w, f, arguments, choices);
    }
  }
}
