/**
 `_Checker` of `fastapi_canon/checks/contracts.py`: comparing what an operation and its dependencies can
 raise with the errors it declares, and what a clean report means at run time.
 */
module Contracts {
  import opened Wrappers
  import opened Linearization
  import opened Program
  import opened Semantics
  import opened Flows
  import opened Soundness
  import opened Summaries
  import opened Analyzers
  import opened Registry

  // CAN001: mapped but missing from raises; CAN002: not mapped at all; CAN003: the check is incomplete.
  datatype Code = CAN001 | CAN002 | CAN003

  datatype Subject =
    | Undeclared(exception: Name)
    | Undecided(unknown: Unknown)
    | Unreadable(message: Name)
    | Uncertain(scope: string, message: Name)

  datatype Diagnostic = Diagnostic(code: Code, subject: Subject)

  // The analysed source: each function's resolved dependencies, and what is uncertain about each module.
  datatype Service = Service(
    world: World, dependencies: map<Name, seq<Option<Name>>>, uncertain: map<string, seq<Name>>)

  // What the declarations of an operation say, with whatever could not be read from them.
  datatype Contract = Contract(problems: seq<Name>, application: map<Name, Name>, declared: map<Name, Name>) {
    // `catalog.update(declared)`
    function Catalog(): map<Name, Name> {
      application + declared
    }
  }

  datatype Route = Route(
    handler: Name, streaming: bool, scopes: set<string>, dependencies: seq<Option<Name>>, contract: Contract)

  // ----- what a request can run

  // `_dependencies`
  function DependencyFlow(service: Service, f: Name, seen: set<Name>): Flow
    decreases service.dependencies.Keys - seen, 0
  {
    if f in seen then Report(RecursiveDependency, f)
    else if f !in service.dependencies then Empty
    else DependenciesFlow(service, f, service.dependencies[f], seen + {f})
  }

  function DependenciesFlow(service: Service, f: Name, list: seq<Option<Name>>, seen: set<Name>): Flow
    decreases service.dependencies.Keys - seen, |list|
  {
    if list == [] then Empty
    else
      (match list[0]
       case None => Report(UnresolvedDependency, f)
       case Some(d) => FunctionFlow(service.world, d, false, {}).Plus(DependencyFlow(service, d, seen)))
      .Plus(DependenciesFlow(service, f, list[1..], seen))
  }

  function RouteFlow(service: Service, route: Route): Flow {
    FunctionFlow(service.world, route.handler, route.streaming, {})
    .Plus(DependencyFlow(service, route.handler, {}))
    .Plus(DependenciesFlow(service, route.handler, route.dependencies, {}))
  }

  // `g` is a dependency of something in `list`, at most `n` steps away.
  ghost predicate Needs(service: Service, n: nat, list: seq<Option<Name>>, g: Name)
    decreases n
  {
    n > 0 && (
      || Some(g) in list
      || exists d :: Some(d) in list && d in service.dependencies && Needs(service, n - 1, service.dependencies[d], g)
    )
  }

  // The functions that a request to `route` runs, with how they run.
  ghost predicate Serves(service: Service, route: Route, f: Name, iterated: bool) {
    || (f == route.handler && iterated == route.streaming)
    || (!iterated && exists n :: Needs(service, n, route.dependencies, f))
    || (!iterated && route.handler in service.dependencies
        && exists n :: Needs(service, n, service.dependencies[route.handler], f))
  }

  lemma {:induction false} DependencyCovered(
      service: Service, n: nat, f: Name, list: seq<Option<Name>>, seen: set<Name>, g: Name)
    requires DependenciesFlow(service, f, list, seen).Complete() && Needs(service, n, list, g)
    ensures FunctionFlow(service.world, g, false, {}).Complete()
    ensures FunctionFlow(service.world, g, false, {}).escapes <= DependenciesFlow(service, f, list, seen).escapes
    ensures FunctionFlow(service.world, g, false, {}).visited <= DependenciesFlow(service, f, list, seen).visited
    decreases n, |list|
  {
    if list != [] {
      var first := match list[0]
                   case None => Report(UnresolvedDependency, f)
                   case Some(d) => FunctionFlow(service.world, d, false, {}).Plus(DependencyFlow(service, d, seen));
      var rest := DependenciesFlow(service, f, list[1..], seen);
      PlusComplete(first, rest);
      assert list[0].Some?;
      var d := list[0].value;
      PlusComplete(FunctionFlow(service.world, d, false, {}), DependencyFlow(service, d, seen));
      if d == g {
      } else if d in service.dependencies && Needs(service, n - 1, service.dependencies[d], g) {
        DependencyCovered(service, n - 1, d, service.dependencies[d], seen + {d}, g);
      } else {
        assert Needs(service, n, list[1..], g) by {
          assert forall x :: x in list <==> x == list[0] || x in list[1..];
        }
        DependencyCovered(service, n, f, list[1..], seen, g);
      }
    }
  }

  /** A complete route analysis covers the handler and every dependency a request runs. */
  lemma ServedCovered(service: Service, route: Route, f: Name, iterated: bool)
    requires RouteFlow(service, route).Complete() && Serves(service, route, f, iterated)
    ensures FunctionFlow(service.world, f, iterated, {}).Complete()
    ensures FunctionFlow(service.world, f, iterated, {}).escapes <= RouteFlow(service, route).escapes
    ensures FunctionFlow(service.world, f, iterated, {}).visited <= RouteFlow(service, route).visited
  {
    var handled := FunctionFlow(service.world, route.handler, route.streaming, {});
    var own := DependencyFlow(service, route.handler, {});
    var listed := DependenciesFlow(service, route.handler, route.dependencies, {});
    PlusComplete(handled.Plus(own), listed);
    PlusComplete(handled, own);
    if f == route.handler && iterated == route.streaming {
    } else if n :| Needs(service, n, route.dependencies, f) {
      DependencyCovered(service, n, route.handler, route.dependencies, {}, f);
    } else {
      var n :| Needs(service, n, service.dependencies[route.handler], f);
      DependencyCovered(service, n, route.handler, service.dependencies[route.handler], {} + {route.handler}, f);
    }
  }

  // The exceptions of a flow, or the functions that it followed.
  function Part(flow: Flow, followed: bool): set<Name> {
    if followed then flow.visited else flow.escapes
  }

  lemma {:induction false} DependencySource(
      service: Service, f: Name, list: seq<Option<Name>>, seen: set<Name>, followed: bool, x: Name) returns (n: nat, d: Name)
    requires x in Part(DependenciesFlow(service, f, list, seen), followed)
    ensures Needs(service, n, list, d) && x in Part(FunctionFlow(service.world, d, false, {}), followed)
    decreases service.dependencies.Keys - seen, |list|
  {
    if x in Part(DependenciesFlow(service, f, list[1..], seen), followed) {
      n, d := DependencySource(service, f, list[1..], seen, followed, x);
      NeedsMore(service, n, list, d);
    } else {
      d := list[0].value;
      if x in Part(FunctionFlow(service.world, d, false, {}), followed) {
        n := 1;
      } else {
        n, d := DependencySource(service, d, service.dependencies[d], seen + {d}, followed, x);
        n := n + 1;
      }
    }
  }

  lemma NeedsMore(service: Service, n: nat, list: seq<Option<Name>>, g: Name)
    requires list != [] && Needs(service, n, list[1..], g)
    ensures Needs(service, n, list, g)
  {
    assert forall d :: d in list[1..] ==> d in list;
  }

  /** A route reports nothing else: every exception in its flow is one of a function that a request runs, and so is every
      function that it followed. */
  lemma RouteSource(service: Service, route: Route, followed: bool, x: Name) returns (f: Name, iterated: bool)
    requires x in Part(RouteFlow(service, route), followed)
    ensures Serves(service, route, f, iterated) && x in Part(FunctionFlow(service.world, f, iterated, {}), followed)
  {
    var n: nat;
    f, iterated := route.handler, route.streaming;
    if x !in Part(FunctionFlow(service.world, f, iterated, {}), followed) {
      iterated := false;
      if x in Part(DependencyFlow(service, route.handler, {}), followed) {
        n, f := DependencySource(service, f, service.dependencies[f], {} + {f}, followed, x);
      } else {
        n, f := DependencySource(service, f, route.dependencies, {}, followed, x);
      }
    }
  }

  // ----- the comparison

  predicate IsBuiltin(exception: Name) {
    "builtins." <= exception.text
  }

  // The error of the first class in the exception's order that the catalog maps.
  function MappedIn(catalog: map<Name, Name>, order: seq<Name>): Option<Name> {
    if order == [] then None
    else if order[0] in catalog then Some(catalog[order[0]])
    else MappedIn(catalog, order[1..])
  }

  function Gap(service: Service, contract: Contract, exception: Name): Option<Diagnostic> {
    if IsBuiltin(exception) then None
    else
      match MappedIn(contract.Catalog(), OrderOf(service.world, exception))
      case None => Some(Diagnostic(CAN002, Undeclared(exception)))
      case Some(error) =>
        if error in contract.declared.Values then None else Some(Diagnostic(CAN001, Undeclared(exception)))
  }

  function Touched(service: Service, route: Route, flow: Flow): set<string> {
    route.scopes + set g | g in flow.visited && g in service.world.functions :: service.world.functions[g].scope
  }

  function Uncertainty(service: Service, scope: string): seq<Name> {
    if scope in service.uncertain then service.uncertain[scope] else []
  }

  predicate ContractsKnown(service: Service, route: Route, flow: Flow) {
    && route.contract.problems == []
    && forall scope :: scope in Touched(service, route, flow) ==> Uncertainty(service, scope) == []
  }

  ghost function Gaps(service: Service, contract: Contract, escapes: set<Name>): set<Diagnostic> {
    set x | x in escapes && Gap(service, contract, x).Some? :: Gap(service, contract, x).value
  }

  // What `_compare` adds for a flow.
  ghost function Compared(service: Service, route: Route, flow: Flow, known: bool): set<Diagnostic> {
    (if known then Gaps(service, route.contract, flow.escapes) else {})
    + (set u | u in flow.unknowns :: Diagnostic(CAN003, Undecided(u)))
  }

  // Everything `_operation` reports for a flow.
  ghost function Findings(service: Service, route: Route, flow: Flow): set<Diagnostic> {
    (set m | m in route.contract.problems :: Diagnostic(CAN003, Unreadable(m)))
    + Compared(service, route, flow, ContractsKnown(service, route, flow))
    + (set scope, m | scope in Touched(service, route, flow) && m in Uncertainty(service, scope) ::
         Diagnostic(CAN003, Uncertain(scope, m)))
  }

  ghost predicate Complete(found: set<Diagnostic>) {
    forall d :: d in found ==> !d.code.CAN003?
  }

  lemma FindingsComplete(service: Service, route: Route, flow: Flow)
    ensures Complete(Findings(service, route, flow)) <==> flow.Complete() && ContractsKnown(service, route, flow)
  {
    var found := Findings(service, route, flow);
    if u :| u in flow.unknowns {
      assert Diagnostic(CAN003, Undecided(u)) in found;
    } else if route.contract.problems != [] {
      assert Diagnostic(CAN003, Unreadable(route.contract.problems[0])) in found;
    } else if scope :| scope in Touched(service, route, flow) && Uncertainty(service, scope) != [] {
      assert Diagnostic(CAN003, Uncertain(scope, Uncertainty(service, scope)[0])) in found;
    }
  }

  /** A comparison skipped because the contracts were not known is always reported incomplete. */
  lemma SkippedIsIncomplete(service: Service, route: Route, flow: Flow)
    requires !ContractsKnown(service, route, flow)
    ensures exists d :: d in Findings(service, route, flow) && d.code.CAN003?
  {
    FindingsComplete(service, route, flow);
  }

  // ----- what is reported

  // An error is declared for the class by the operation, or else known for it in the application.
  predicate Mapped(contract: Contract, class_: Name) {
    class_ in contract.declared || class_ in contract.application
  }

  function ErrorOf(contract: Contract, class_: Name): Name
    requires Mapped(contract, class_)
  {
    if class_ in contract.declared then contract.declared[class_] else contract.application[class_]
  }

  // The class at position `k` is the first in the order for which there is an error.
  ghost predicate FirstMapped(contract: Contract, order: seq<Name>, k: int) {
    0 <= k < |order| && Mapped(contract, order[k]) && forall j :: 0 <= j < k ==> !Mapped(contract, order[j])
  }

  lemma {:induction false} MappedInExactly(contract: Contract, order: seq<Name>)
    ensures MappedIn(contract.Catalog(), order).None? <==> forall k :: 0 <= k < |order| ==> !Mapped(contract, order[k])
    ensures forall k :: FirstMapped(contract, order, k) ==>
              MappedIn(contract.Catalog(), order) == Some(ErrorOf(contract, order[k]))
    ensures MappedIn(contract.Catalog(), order).Some? ==> exists k :: FirstMapped(contract, order, k)
  {
    if order != [] {
      var rest := order[1..];
      MappedInExactly(contract, rest);
      if Mapped(contract, order[0]) {
        assert FirstMapped(contract, order, 0);
      } else {
        forall k | FirstMapped(contract, order, k) ensures FirstMapped(contract, rest, k - 1) {}
        if k :| FirstMapped(contract, rest, k) {
          assert FirstMapped(contract, order, k + 1);
        }
        if forall k :: 0 <= k < |rest| ==> !Mapped(contract, rest[k]) {
          assert forall k :: 0 < k < |order| ==> order[k] == rest[k - 1];
        }
      }
    }
  }

  // The application's exception escapes, and no class of its order has an error.
  ghost predicate Unmapped(service: Service, contract: Contract, x: Name) {
    var order := OrderOf(service.world, x);
    !IsBuiltin(x) && forall k :: 0 <= k < |order| ==> !Mapped(contract, order[k])
  }

  // The first class of its order that has an error has one that the operation declares, or one that it does not.
  ghost predicate DeclaredFor(service: Service, contract: Contract, x: Name) {
    var order := OrderOf(service.world, x);
    exists k :: FirstMapped(contract, order, k) && ErrorOf(contract, order[k]) in contract.declared.Values
  }

  ghost predicate Undeclares(service: Service, contract: Contract, x: Name) {
    var order := OrderOf(service.world, x);
    !IsBuiltin(x) && exists k :: FirstMapped(contract, order, k) && ErrorOf(contract, order[k]) !in contract.declared.Values
  }

  lemma GapExactly(service: Service, contract: Contract, x: Name)
    ensures Gap(service, contract, x) ==
            if Unmapped(service, contract, x) then Some(Diagnostic(CAN002, Undeclared(x)))
            else if Undeclares(service, contract, x) then Some(Diagnostic(CAN001, Undeclared(x))) else None
  {
    MappedInExactly(contract, OrderOf(service.world, x));
  }

  /** The findings, one by one: an escaping exception of the application without any error, one with an error that is
      not declared, and whatever could not be decided or read. */
  lemma FindingsExactly(service: Service, route: Route, flow: Flow, d: Diagnostic)
    ensures d in Findings(service, route, flow) <==>
            match d.subject
            case Undeclared(x) =>
              && ContractsKnown(service, route, flow) && x in flow.escapes
              && ((d.code.CAN002? && Unmapped(service, route.contract, x))
                  || (d.code.CAN001? && Undeclares(service, route.contract, x)))
            case Undecided(u) => d.code.CAN003? && u in flow.unknowns
            case Unreadable(m) => d.code.CAN003? && m in route.contract.problems
            case Uncertain(scope, m) =>
              d.code.CAN003? && scope in Touched(service, route, flow) && m in Uncertainty(service, scope)
  {
    if d.subject.Undeclared? {
      var x := d.subject.exception;
      GapExactly(service, route.contract, x);
      OneOfThree(service, route.contract, x);
      GapsExactly(service, route.contract, flow.escapes, d);
    } else {
      forall x ensures Gap(service, route.contract, x) != Some(d) {}
    }
    hide Gap, Touched, Uncertainty, Unmapped, Undeclares;
  }

  lemma OneOfThree(service: Service, contract: Contract, x: Name)
    ensures !(Unmapped(service, contract, x) && Undeclares(service, contract, x))
    ensures !IsBuiltin(x) ==>
              (DeclaredFor(service, contract, x) <==> !Unmapped(service, contract, x) && !Undeclares(service, contract, x))
  {
    var order := OrderOf(service.world, x);
    MappedInExactly(contract, order);
    forall k | FirstMapped(contract, order, k) ensures 0 <= k < |order| && Mapped(contract, order[k]) {}
  }

  lemma GapsExactly(service: Service, contract: Contract, escapes: set<Name>, d: Diagnostic)
    requires d.subject.Undeclared?
    ensures d in Gaps(service, contract, escapes) <==>
            d.subject.exception in escapes && Gap(service, contract, d.subject.exception) == Some(d)
  {
  }

  // The error of every application exception that escapes is declared.
  ghost predicate AllDeclared(service: Service, contract: Contract, escapes: set<Name>) {
    forall x :: x in escapes && !IsBuiltin(x) ==> DeclaredFor(service, contract, x)
  }

  /** A report is clean exactly when nothing is unknown and every application exception that escapes has, for the first
      class of its order that has one, an error which the operation declares. */
  lemma CleanExactly(service: Service, route: Route, flow: Flow)
    ensures Findings(service, route, flow) == {} <==>
            && flow.Complete() && ContractsKnown(service, route, flow)
            && AllDeclared(service, route.contract, flow.escapes)
  {
    FindingsComplete(service, route, flow);
    forall d ensures d in Findings(service, route, flow) && !d.code.CAN003? ==>
                       d.subject.Undeclared? && d.subject.exception in flow.escapes
                       && !IsBuiltin(d.subject.exception) && !DeclaredFor(service, route.contract, d.subject.exception)
    {
      FindingsExactly(service, route, flow, d);
      if d.subject.Undeclared? { OneOfThree(service, route.contract, d.subject.exception); }
    }
    forall x | x in flow.escapes && !IsBuiltin(x) && ContractsKnown(service, route, flow)
      ensures DeclaredFor(service, route.contract, x)
              || Diagnostic(CAN002, Undeclared(x)) in Findings(service, route, flow)
              || Diagnostic(CAN001, Undeclared(x)) in Findings(service, route, flow)
    {
      FindingsExactly(service, route, flow, Diagnostic(CAN002, Undeclared(x)));
      FindingsExactly(service, route, flow, Diagnostic(CAN001, Undeclared(x)));
      OneOfThree(service, route.contract, x);
    }
    hide Findings, DeclaredFor, ContractsKnown;
  }

  // ----- what a clean report means

  // The running registry maps the same exceptions to the objects that the catalog names.
  ghost predicate RuntimeAgrees(byException: map<Name, Entry>, catalog: map<Name, Name>, errors: map<Name, Error>) {
    && byException.Keys == catalog.Keys
    && forall k :: k in catalog ==> catalog[k] in errors && byException[k].error == errors[catalog[k]]
  }

  lemma {:induction false} LookupAgrees(
      byException: map<Name, Entry>, catalog: map<Name, Name>, errors: map<Name, Error>, order: seq<Name>)
    requires RuntimeAgrees(byException, catalog, errors)
    ensures MappedIn(catalog, order).Some? ==> MappedIn(catalog, order).value in errors
    ensures MappedIn(catalog, order).Some? ==> Lookup(byException, order) == Some(errors[MappedIn(catalog, order).value])
    ensures MappedIn(catalog, order).None? ==> Lookup(byException, order) == None
  {
    if order != [] { LookupAgrees(byException, catalog, errors, order[1..]); }
  }

  lemma GapReported(service: Service, route: Route, flow: Flow, x: Name)
    requires x in flow.escapes && Gap(service, route.contract, x).Some?
    ensures Gap(service, route.contract, x).value in Compared(service, route, flow, true)
  {
    assert Gaps(service, route.contract, flow.escapes) <= Compared(service, route, flow, true);
  }

  /** End to end: with no findings, whatever application exception a request raises and lets escape, the
      runtime lookup maps it to an error that the operation declares, unless it comes from one of the `hooks` that
      the interpreter calls by itself, and is then in a report of these. */
  lemma CleanMeansDeclared(
      service: Service, route: Route, hooks: set<Name>, byException: map<Name, Entry>, errors: map<Name, Error>, f: Name,
      iterated: bool, n: nat, c: Frame, thrown: Thrown)
    requires Findings(service, route, RouteFlow(service, route)) == {}
    requires Followed(service.world, hooks) && RunsWithin(service.world, RouteFlow(service, route).visited, hooks)
    requires RuntimeAgrees(byException, route.contract.Catalog(), errors)
    requires Serves(service, route, f, iterated)
    requires FunctionRuns(service.world, n, f, iterated, c, Threw(thrown))
    requires thrown.explicit && !IsBuiltin(thrown.exception)
    ensures var found := Lookup(byException, OrderOf(service.world, thrown.exception));
            || thrown.exception in HookEscapes(service.world, hooks)
            || (found.Some?
                && exists name :: name in route.contract.declared.Values && name in errors && found.value == errors[name])
  {
    var flow := RouteFlow(service, route);
    FindingsComplete(service, route, flow);
    ServedCovered(service, route, f, iterated);
    WithinFewer(service.world, flow.visited, FunctionFlow(service.world, f, iterated, {}).visited, hooks);
    AnalysisSound(service.world, hooks, n, f, iterated, c, thrown);
    var x := thrown.exception;
    if x in HookEscapes(service.world, hooks) { return; }
    if Gap(service, route.contract, x).Some? {
      GapReported(service, route, flow, x);
    }
    LookupAgrees(byException, route.contract.Catalog(), errors, OrderOf(service.world, x));
    var name := MappedIn(route.contract.Catalog(), OrderOf(service.world, x)).value;
    assert name in route.contract.declared.Values;
  }

  // ----- the checker

  function Reported(diagnostics: seq<Diagnostic>): set<Diagnostic> {
    set d | d in diagnostics
  }

  lemma ReportedAppend(diagnostics: seq<Diagnostic>, d: Diagnostic)
    ensures Reported(diagnostics + [d]) == Reported(diagnostics) + {d}
  {
  }

  class Operation {
    var diagnostics: seq<Diagnostic>

    constructor ()
      ensures diagnostics == []
    {
      diagnostics := [];
    }

    // `complete`
    predicate IsComplete()
      reads this
    {
      forall d :: d in diagnostics ==> !d.code.CAN003?
    }
  }

  // A cached flow leads to the same findings when it is complete, and to an incomplete report otherwise.
  ghost predicate SameVerdict(found: set<Diagnostic>, expected: set<Diagnostic>) {
    && (Complete(found) <==> Complete(expected))
    && (Complete(expected) ==> found == expected)
  }

  lemma AgreeingFindings(service: Service, route: Route, flow: Flow, expected: Flow)
    requires Agrees(flow, expected)
    ensures SameVerdict(Findings(service, route, flow), Findings(service, route, expected))
  {
    FindingsComplete(service, route, flow);
    FindingsComplete(service, route, expected);
  }

  class Checker {
    const service: Service
    const analyzer: Analyzer

    constructor (service: Service)
      ensures this.service == service && fresh(analyzer) && analyzer.Valid() && analyzer.world == service.world
    {
      this.service := service;
      analyzer := new Analyzer(service.world);
    }

    ghost predicate Valid()
      reads analyzer
    {
      analyzer.Valid() && analyzer.world == service.world
    }

    method Dependency(f: Name, seen: set<Name>) returns (flow: Flow)
      requires Valid()
      modifies analyzer
      ensures Valid() && Agrees(flow, DependencyFlow(service, f, seen))
      decreases service.dependencies.Keys - seen, 0
    {
      if f in seen {
        return Report(RecursiveDependency, f);
      }
      flow := Empty;
      if f in service.dependencies {
        flow := Dependencies(f, service.dependencies[f], seen + {f});
      }
    }

    method Dependencies(f: Name, list: seq<Option<Name>>, seen: set<Name>) returns (flow: Flow)
      requires Valid()
      modifies analyzer
      ensures Valid() && Agrees(flow, DependenciesFlow(service, f, list, seen))
      decreases service.dependencies.Keys - seen, |list|
    {
      flow := Empty;
      ghost var done := Empty;
      assert list[0..] == list;
      for i := 0 to |list|
        invariant Valid()
        invariant DependenciesFlow(service, f, list, seen) == done.Plus(DependenciesFlow(service, f, list[i..], seen))
        invariant Agrees(flow, done)
      {
        ghost var first := match list[i]
                           case None => Report(UnresolvedDependency, f)
                           case Some(d) =>
                             FunctionFlow(service.world, d, false, {}).Plus(DependencyFlow(service, d, seen));
        ghost var rest := DependenciesFlow(service, f, list[i + 1..], seen);
        assert list[i..][1..] == list[i + 1..];
        var part := Report(UnresolvedDependency, f);
        if list[i].Some? {
          part := analyzer.Function(list[i].value, {}, false);
          var nested := Dependency(list[i].value, seen);
          PlusAgrees(part, FunctionFlow(service.world, list[i].value, false, {}),
                     nested, DependencyFlow(service, list[i].value, seen));
          part := part.Plus(nested);
        }
        PlusAgrees(flow, done, part, first);
        PlusAssociative(done, first, rest);
        flow := flow.Plus(part);
        done := done.Plus(first);
      }
      PlusAssociative(done, Empty, Empty);
    }

    /** `_compare` */
    method Compare(operation: Operation, route: Route, flow: Flow, known: bool)
      modifies operation
      ensures Reported(operation.diagnostics) == old(Reported(operation.diagnostics)) + Compared(service, route, flow, known)
    {
      var escapes := flow.escapes;
      ghost var before := Reported(operation.diagnostics);
      while known && escapes != {}
        invariant escapes <= flow.escapes
        invariant Reported(operation.diagnostics) ==
                  before + if known then Gaps(service, route.contract, flow.escapes - escapes) else {}
        decreases escapes
      {
        var x :| x in escapes;
        var gap := Gap(service, route.contract, x);
        if gap.Some? { ReportedAppend(operation.diagnostics, gap.value); }
        if gap.Some? && gap.value !in operation.diagnostics {
          operation.diagnostics := operation.diagnostics + [gap.value];
        }
        assert flow.escapes - (escapes - {x}) == (flow.escapes - escapes) + {x};
        escapes := escapes - {x};
      }
      ghost var gaps := if known then Gaps(service, route.contract, flow.escapes) else {};
      assert known ==> flow.escapes - escapes == flow.escapes;
      assert Reported(operation.diagnostics) == before + gaps;
      var unknowns := flow.unknowns;
      while unknowns != {}
        invariant unknowns <= flow.unknowns
        invariant Reported(operation.diagnostics) == before + gaps +
                    set u | u in flow.unknowns - unknowns :: Diagnostic(CAN003, Undecided(u))
        decreases unknowns
      {
        var u :| u in unknowns;
        var diagnostic := Diagnostic(CAN003, Undecided(u));
        ReportedAppend(operation.diagnostics, diagnostic);
        if diagnostic !in operation.diagnostics {
          operation.diagnostics := operation.diagnostics + [diagnostic];
        }
        assert flow.unknowns - (unknowns - {u}) == (flow.unknowns - unknowns) + {u};
        unknowns := unknowns - {u};
      }
      assert flow.unknowns - {} == flow.unknowns;
    }

    /** `_operation`, from the declarations already read */
    method CheckOperation(operation: Operation, route: Route)
      requires Valid() && operation.diagnostics == []
      modifies operation, analyzer
      ensures Valid()
      ensures SameVerdict(Reported(operation.diagnostics), Findings(service, route, RouteFlow(service, route)))
      ensures operation.IsComplete() <==> Complete(Findings(service, route, RouteFlow(service, route)))
    {
      operation.diagnostics :=
        seq(|route.contract.problems|, i requires 0 <= i < |route.contract.problems| =>
          Diagnostic(CAN003, Unreadable(route.contract.problems[i])));
      ghost var unreadable := set m | m in route.contract.problems :: Diagnostic(CAN003, Unreadable(m));
      assert Reported(operation.diagnostics) == unreadable by {
        forall i | 0 <= i < |route.contract.problems| ensures operation.diagnostics[i] in unreadable {
          assert route.contract.problems[i] in route.contract.problems;
        }
        forall d | d in unreadable ensures d in Reported(operation.diagnostics) {
          var m :| m in route.contract.problems && d == Diagnostic(CAN003, Unreadable(m));
          var i :| 0 <= i < |route.contract.problems| && route.contract.problems[i] == m;
          assert operation.diagnostics[i] == d;
        }
      }
      var flow := analyzer.Function(route.handler, {}, route.streaming);
      var own := Dependency(route.handler, {});
      PlusAgrees(flow, FunctionFlow(service.world, route.handler, route.streaming, {}),
                 own, DependencyFlow(service, route.handler, {}));
      flow := flow.Plus(own);
      var listed := Dependencies(route.handler, route.dependencies, {});
      PlusAgrees(flow, FunctionFlow(service.world, route.handler, route.streaming, {})
                       .Plus(DependencyFlow(service, route.handler, {})),
                 listed, DependenciesFlow(service, route.handler, route.dependencies, {}));
      flow := flow.Plus(listed);
      Compare(operation, route, flow, ContractsKnown(service, route, flow));
      AppendUncertainty(operation, Touched(service, route, flow));
      AgreeingFindings(service, route, flow, RouteFlow(service, route));
      assert Reported(operation.diagnostics) == Findings(service, route, flow);
    }

    method AppendUncertainty(operation: Operation, touched: set<string>)
      modifies operation
      ensures Reported(operation.diagnostics) == old(Reported(operation.diagnostics)) +
                set scope, m | scope in touched && m in Uncertainty(service, scope) :: Diagnostic(CAN003, Uncertain(scope, m))
    {
      var scopes := touched;
      ghost var before := Reported(operation.diagnostics);
      while scopes != {}
        invariant scopes <= touched
        invariant Reported(operation.diagnostics) == before +
                    set scope, m | scope in touched - scopes && m in Uncertainty(service, scope) ::
                      Diagnostic(CAN003, Uncertain(scope, m))
        decreases scopes
      {
        var scope :| scope in scopes;
        var messages := Uncertainty(service, scope);
        ghost var start := Reported(operation.diagnostics);
        for i := 0 to |messages|
          invariant Reported(operation.diagnostics) == start +
                      set m | m in messages[..i] :: Diagnostic(CAN003, Uncertain(scope, m))
        {
          assert forall m :: m in messages[..i + 1] <==> m in messages[..i] || m == messages[i];
          ReportedAppend(operation.diagnostics, Diagnostic(CAN003, Uncertain(scope, messages[i])));
          operation.diagnostics := operation.diagnostics + [Diagnostic(CAN003, Uncertain(scope, messages[i]))];
        }
        assert messages[..|messages|] == messages;
        assert touched - (scopes - {scope}) == (touched - scopes) + {scope};
        scopes := scopes - {scope};
      }
      assert touched - {} == touched;
    }
  }
}
