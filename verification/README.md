# fastapi-canon: a verified model

This project models the parts of fastapi-canon whose correctness is hardest to see, and proves properties of
them. Function, line and file names below are those of the Python sources.

**The exception checker** (`fastapi_canon/checks`). `Program.dfy` is the statement and expression language that
the checker reads, with call targets, class bases and handler types already resolved or marked as unresolved.
`Semantics.dfy` says how such programs run: any branch, any number of rounds, any dispatch candidate, an implicit
failure at any point, and the code that the interpreter itself calls for a loop (`__iter__`, `__next__`) and for
raising a bare class (its constructor). `Flow.dfy` is the abstract interpreter as functions without a cache, and
`Soundness.dfy` proves that a complete report lists every explicitly raised exception that can leave a function,
through `try`/`else`/`finally`, bare and named re-raises, loops, dispatch and nested `with` blocks whose exits
suppress or replace; what escapes from the code that the interpreter calls by itself is in the checker's reports
for that code, also where it runs itself. `Precision.dfy`, with the runs that `Passing.dfy` finds, proves the converse:
where the statements of a function can be reached, every exception that is reported is raised by some run and leaves
it, so that a complete report of code that runs nothing without a call lists exactly what escapes; and it says which
handler takes an exception. `Reasons.dfy` proves that a report is only incomplete for something undecidable in the code
that was followed. `Summaries.dfy` and `Analyzer.dfy` prove the class with its summary cache equal, in verdict and in
exceptions, to the cache-free analysis, although summaries are stored under one call stack and reused under
another. `Hierarchy.dfy` is the C3 linearization: sound, complete, the one order that the rule of C3 allows, and right
when cached on inheritance cycles. `Factory.dfy` is the second interpreter, for provider factories, against runs in which
values may assign variables, yield, await, and construct objects of other classes; `FactoryPrecision.dfy` proves that it
lists no class that no run provides. `Contracts.dfy` joins the checker with the run-time registry: a report without
findings means that every application exception that escapes a request is mapped by the registry to an error that the
operation declares, or is reported for code that the interpreter calls by itself, and each finding is there for the
reason that it states.

**The error registry** (`fastapi_canon/error/registry.py`). `Registry.dfy` gives the merge an independent
specification (lists of entries, joined) and proves the dictionary-updating methods equal to it, then the algebra:
when a merge fails, associativity and commutativity including failure, idempotence, that declaring errors together
is declaring them apart and merging, and that exception class, code, type URI and schema name each identify one
error.

**The generated client** (`codegen/templates/client.py`). `Runtime.dfy` is a state machine over the atomic steps
between awaits, with an invariant over every interleaving; each method of the class is one of its steps.

**The code generator** (`fastapi_canon/codegen`). `Schemas.dfy`, `SchemaScopes.dfy`, `SchemaNames.dfy` and
`SchemaRegistry.dfy` are the model registry with its mutually recursive claim, compile and rewrite steps;
`SchemaIdentity.dfy` says what a document and its configuration make the identity and the name of a model;
`SchemaAssembly.dfy` puts documents together again and proves that their references lead to their definitions,
`SchemaPlan.dfy` builds all documents of a client and says when each definition that is referred to is a compiled one,
and `SchemaDocuments.dfy` is a document that cannot be assembled. `Pointer.dfy` prints and follows JSON
Pointers (sections 3 and 4 of RFC 6901). `Selection.dfy` selects operations and prunes models, `Planner.dfy` checks
names under both spellings and builds the nested object of the TypeScript emitter, `Generate.dfy` plans and performs
writes with tracked ownership, and `Repeat.dfy` proves exactly when generating twice changes nothing.

**The skill installer** (`fastapi_canon/cli.py`). `SkillInstall.dfy` replaces directories and rolls back, and
`SkillStaging.dfy` proves when that works for the directories that the installer stages.

Code that updates state is written as methods that are proved equal to specification functions or to steps of a
state machine; the properties are proved about those. Where the order of a Python set or of sorted names only
decides which of several equal choices comes first, methods take any order, so what is proved holds for the
order that Python takes.

Some properties hold of the code only under a condition. The condition is stated as an equivalence, but for the precision
of reports and of listed classes, where it is a sufficient one:

- `Pointers.ReadsBackExactly`: every printed problem address can be followed exactly when the document itself is
  no problem schema (`#` is read as a member with an empty key).
- `Soundness.SoundExactly`: the checker does not follow what the interpreter calls by itself. Its reports are sound up
  to some exceptions, for all code that runs only given functions in this way, exactly when these functions let
  no other explicitly raised exception escape. `Soundness.FollowedLet` reads that off the checker's own reports:
  functions whose reports are complete let only escape what these list, however they run one another.
  `Soundness.IteratorEscapes` is a loop over rows whose `__next__` raises an application error, reported as
  complete and raising nothing; `Soundness.GeneratorIterated` and `Soundness.TreeIterated` are harmless iterators,
  a generator and one that loops over its own class.
- `Precision.ReportReal`: what is reported can happen where the statements can be reached (`LiveFunction`, computed from
  the code: what follows a statement follows one that can end, an exit method lets exceptions pass or swallows them).
  `Precision.DeadReported` is `if ...: raise A() else: raise B()` followed by `raise C()`, reported as raising `C`.
- `FactoryPrecision.ProvidedExactly`: a factory whose statements are all followed, without unknown classes, provides
  objects of exactly the classes that are listed.
- `Factories.SoundExactly`: provider factories are analysed soundly exactly when awaiting an instance and calling a
  class keep the class, and no factory assigns in the middle of a value, yields there, or assigns its variables from
  a nested function. `Factories.BindingMissed` is `y = A(); x = B(y := C()); return y`, listed as `A`.
- `Repeating.IdempotentExactly`: a check after a run finds nothing exactly when no needed saved contract is read
  from a path that a needed live contract is exported to. `load_config` does not reject that.
- `SchemaRegistries.UnknownExactly` with `SchemaRegistry.Document`: assembling a document meets an unknown model
  exactly when a definition that it needs copies the name of one from a `default` or an example, or has it as the name
  of a property. `SchemaRegistries.NeverUnknown`: where no document names a model in such a place this never
  happens, and `SchemaDocuments.Unassembled` is a document, all of whose schemas compile, for which it does.
- `SchemaPlans.SchemaCompiled`: the definition of a model is empty exactly when no reference to it was compiled. That
  can be so for a problem schema that is met while another schema is rewritten and is hidden in a `default` or an
  example; `SchemaPlans.BuildDocuments` has no such definition where the documents hide none.
- `SkillStaging.InstallsExactly`: for distinct destinations, which is all that the installer checks, a run without
  a failing rename installs every copy exactly when no destination lies inside another one. The command line passes one
  destination or two that lie apart; `SkillStaging.NestedStuck` and `SkillStaging.NestedExample` say what becomes of
  nested ones.

## Model

| member | source | states |
|---|---|---|
| Linearization.MergeSound | fastapi_canon/checks/source.py:616-639 | a merge that succeeds lists exactly the listed classes, each once, and keeps the order of every list |
| Linearization.MergeStuck | fastapi_canon/checks/source.py:624-630 | when no head can be picked, the blocked heads form a circle of precedences of the given lists |
| Linearization.CycleHasNoOrder | fastapi_canon/checks/source.py:624-630 | no total order respects lists whose precedences run in a circle |
| Linearization.MergeComplete | fastapi_canon/checks/source.py:616-639 | the merge succeeds exactly when some duplicate-free order respects every list |
| Linearization.PopShrinks | fastapi_canon/checks/source.py:631-638 | picking a head lowers the total remaining length, so the merge ends |
| Linearization.PopHeads | fastapi_canon/checks/source.py:633-638 | the inner loop drops the candidate from the head of every list and leaves all else |
| Linearization.MergeInto | fastapi_canon/checks/source.py:616-639 | the loop computes the class followed by the merge of its lists, which is their C3 order, or fails when the merge is stuck |
| Linearization.MergeIsC3 | fastapi_canon/checks/source.py:616-639 | the merge gives an order exactly when each of its classes, in turn, is the head of the first list whose head is in no tail, once the classes before it are gone from every list, and nothing is left at the end |
| Linearization.C3Unique | fastapi_canon/checks/source.py:622-632 | only one order satisfies that rule |
| Hierarchy.OrderFromBases | fastapi_canon/checks/source.py:596-615 | an order comes from the bases' own complete orders, each of them shorter |
| Hierarchy.OrderCorrect | fastapi_canon/checks/source.py:596-639 | a resolution order starts with the class, has no duplicates, holds exactly the class and its bases' orders, keeps each base's order and the declared base order, and after the class is the C3 order of these lists |
| Hierarchy.OrderComplete | fastapi_canon/checks/source.py:596-639 | with resolvable bases, a class has an order exactly when some order respects its bases' orders and the base list |
| Hierarchy.OrderMembers | fastapi_canon/checks/source.py:596-639 | every class in an order has a strictly shorter order of its own, so inheritance below a resolved class is not cyclic |
| Hierarchy.WaitingAgrees | fastapi_canon/checks/source.py:574-614 | resolving while other classes wait gives what resolving from scratch gives, also on inheritance cycles |
| Hierarchy.ClassIndex.Resolve | fastapi_canon/checks/source.py:574-594 | a cached query answers with the cache-free order, under any chain of waiting classes, and keeps the cache right |
| Hierarchy.ClassIndex.Compute | fastapi_canon/checks/source.py:596-639 | computing an order through cached bases gives the cache-free order |
| Soundness.FunctionSound | fastapi_canon/checks/analysis.py:51-126 | if the flow of a function is complete, every outcome of a run is covered by it, under any call stack |
| Soundness.ExprSound | fastapi_canon/checks/analysis.py:128-248 | the same for expressions, awaited or iterated |
| Soundness.CalleeSound | fastapi_canon/checks/analysis.py:604-701 | the same for calls: definitions, constructions, ports and library calls with callbacks |
| Soundness.PortSound | fastapi_canon/checks/analysis.py:637-701 | the same for dispatch to any candidate of an abstract method |
| Soundness.BlockSound | fastapi_canon/checks/analysis.py:703-916 | the same for blocks, in handlers and outside them |
| Soundness.StmtSound | fastapi_canon/checks/analysis.py:703-941 | the same for every statement form |
| Soundness.LoopSound | fastapi_canon/checks/analysis.py:847-863 | the same for any number of rounds of a loop analysed once, up to what its iterator lets escape |
| Soundness.TrySound | fastapi_canon/checks/analysis.py:760-832 | the same for `try` with `else` and `finally`, when the final block cannot replace the outcome |
| Soundness.HandlersSound | fastapi_canon/checks/analysis.py:763-813 | exceptions left over by earlier handlers, re-raised or raised by name in a handler stay covered |
| Soundness.WithSound | fastapi_canon/checks/analysis.py:342-433 | the same for nested managers whose exits suppress, pass on or replace an exception |
| Soundness.AlwaysRaisesSound | fastapi_canon/checks/analysis.py:968-980 | a body that is said to always raise ends every run with an exception |
| Soundness.SuppressionSound | fastapi_canon/checks/analysis.py:982-1001 | an exit method whose suppression is settled never returns the other truth value |
| Soundness.NeverPastEnd | fastapi_canon/checks/analysis.py:703-916 | no run passes a return or raise statement of its own block, so statements after it may be dropped |
| Soundness.AnalysisSound | fastapi_canon/checks/analysis.py:51-126 | an explicitly raised exception that escapes a function analysed without unknowns is in its report, or in the report of a function that is run without a call, when these have complete reports too |
| Soundness.FollowedLet | fastapi_canon/checks/analysis.py:51-126 | functions that the interpreter calls by itself, with complete reports and running only one another in this way, let only escape what their reports list, in any run |
| Soundness.SoundExactly | fastapi_canon/checks/analysis.py:703-863 | all code that runs only given functions without a call is analysed soundly up to given exceptions exactly when these functions let no others escape |
| Soundness.IterationMissed | fastapi_canon/checks/analysis.py:847-863 | whatever an iterator raises leaves a loop over it, and the flow of the loop is complete and empty |
| Soundness.IteratorEscapes | fastapi_canon/checks/analysis.py:847-863 | a function that loops over rows whose `__next__` raises an application error is reported as complete and raising nothing |
| Soundness.GeneratorIterated | fastapi_canon/checks/analysis.py:847-863 | a function that loops over rows whose `__iter__` is a generator raising nothing is covered: no explicit exception leaves it |
| Soundness.TreeIterated | fastapi_canon/checks/analysis.py:847-863 | an iterator that loops over its own class lets nothing escape when its report lists nothing |
| Soundness.InitEscapes | fastapi_canon/checks/analysis.py:731-759 | raising a class without calling it runs its constructor, whose exception is not reported |
| Soundness.RaiseEscapes | fastapi_canon/checks/analysis.py:731-759 | runs exist: a function that only raises an exception reports exactly it, and a run lets it escape |
| Precision.ReportReal | fastapi_canon/checks/analysis.py:51-126 | every exception that a report lists, complete or not, is raised by some run and leaves the function, where its statements can be reached |
| Precision.ReportExact | fastapi_canon/checks/analysis.py:51-126 | a complete report of such a function that runs nothing without a call lists exactly the exceptions that leave it in some run |
| Precision.ExprReal | fastapi_canon/checks/analysis.py:128-248 | the same for expressions: their exceptions are reached past the parts before them |
| Precision.CalleeReal | fastapi_canon/checks/analysis.py:604-701 | the same for calls, of some candidate, constructor hook or callback |
| Precision.BlockReal | fastapi_canon/checks/analysis.py:703-916 | from every frame that holds what the analysis knows, and handles what is re-raised, some run of the block lets the exception leave |
| Precision.TryReal | fastapi_canon/checks/analysis.py:760-832 | an exception reported for a `try` leaves it in some run: past its handlers, out of one, or out of `else` or `finally` |
| Precision.HandlersReal | fastapi_canon/checks/analysis.py:763-813 | for each exception reported for handlers there is one, of those that reach them or an implicit one, with which they let it leave |
| Precision.ItemsReal | fastapi_canon/checks/analysis.py:342-433 | an exception reported for a `with` statement leaves it in some run: past all exit methods, or out of a manager's own methods |
| Precision.HandlersExactly | fastapi_canon/checks/analysis.py:763-813 | what escapes handlers is what none of them catches, or escapes the body of one that re-raises and binds exactly the exceptions that it is the first to catch |
| Precision.TryExactly | fastapi_canon/checks/analysis.py:760-832 | what escapes a `try` is what escapes its body and no handler catches, or what escapes a handler, `else` or `finally` |
| Precision.RethrowKeeps | fastapi_canon/checks/analysis.py:714-813 | a handler that only raises again what it takes, bare or by name, leaves the flow of the guarded body as it is |
| Precision.DeadReported | fastapi_canon/checks/analysis.py:838-846 | a statement after two branches that both raise is reported, and no run gets there |
| Passing.BlockEnds | fastapi_canon/checks/analysis.py:703-916 | a block that control can pass has a run that ends normally, from every frame |
| Passing.TryReturns | fastapi_canon/checks/analysis.py:760-832 | a `try` whose body or `else` can return has a run that returns |
| Passing.ItemsEnd | fastapi_canon/checks/analysis.py:342-433 | nested managers whose methods can return have a run that ends normally |
| Reasons.UnknownExplained | fastapi_canon/checks/analysis.py:51-126 | whatever makes a report incomplete is there in the code of a followed function or in how a function is defined, and no call is reported as recursive when the functions can be ordered so that code names only smaller ones |
| Reasons.StmtExplained | fastapi_canon/checks/analysis.py:703-941 | an unknown in the flow of a statement comes from a construct in the statement or from a function that it calls |
| Reasons.CalleeExplained | fastapi_canon/checks/analysis.py:604-701 | the same for calls: an overridable or unbound target, an unresolved construction, a coroutine that is not awaited |
| Summaries.FunctionIndependent | fastapi_canon/checks/analysis.py:59-90 | a complete flow is the same under every call stack that it does not run into, and a flow cut by the stack is incomplete |
| Summaries.StackAgrees | fastapi_canon/checks/analysis.py:59-90 | for a function that is awaited by the stack, the real stack and the empty one give the same verdict and, if complete, the same exceptions |
| Summaries.CutIncomplete | fastapi_canon/checks/analysis.py:59-64 | a function that is reached again while it is analysed has no complete flow under an empty stack either |
| Analyzers.Analyzer.Function | fastapi_canon/checks/analysis.py:51-90 | the cached analysis agrees with the cache-free one under the empty and under the real stack, for any earlier queries, and keeps every summary right |
| Analyzers.Analyzer.AnalyzeFunction | fastapi_canon/checks/analysis.py:92-126 | analysing a body through cached calls agrees with the cache-free flow |
| Analyzers.Analyzer.Expression | fastapi_canon/checks/analysis.py:128-248 | the same for expressions |
| Analyzers.Analyzer.Callee | fastapi_canon/checks/analysis.py:604-636 | the same for calls |
| Analyzers.Analyzer.Dispatch | fastapi_canon/checks/analysis.py:637-701 | the same for all candidates of a dispatch |
| Analyzers.Analyzer.Block | fastapi_canon/checks/analysis.py:703-916 | the same for blocks, up to a statement that ends them |
| Analyzers.Analyzer.Statement | fastapi_canon/checks/analysis.py:703-941 | the same for statements |
| Analyzers.Analyzer.Guarded | fastapi_canon/checks/analysis.py:760-832 | the same for `try` statements |
| Analyzers.Analyzer.Handlers | fastapi_canon/checks/analysis.py:763-813 | the same for handlers, each with the exceptions that earlier ones leave: by `Precision.HandlersExactly`, those that it is the first to catch |
| Analyzers.Analyzer.ContextManager | fastapi_canon/checks/analysis.py:342-433 | the same for nested managers |
| Factories.FactoryBlock | fastapi_canon/checks/source.py:894-957 | the loop over statements with its local copies computes the specification: classes provided, and the variables after the block or that it has ended |
| Factories.BlockSound | fastapi_canon/checks/source.py:894-957 | for every run of a block, what it yields and returns is listed and the variables it leaves are covered, across branches that end early |
| Factories.ConstructedSound | fastapi_canon/checks/source.py:870-892 | the class of each object that a run of a quiet factory returns or yields is listed, or the list says that it does not know, when what the factory awaits and calls keeps its class |
| Factories.AwaitFreeSound | fastapi_canon/checks/source.py:870-892 | a quiet factory without `await` and without classes that give other objects is analysed soundly whatever awaiting does |
| Factories.SoundExactly | fastapi_canon/checks/source.py:870-981 | factories of the permitted forms are all analysed soundly exactly when awaiting and calling keep classes and the forms allow no assignment expression or yield inside values and no rebinding by nested functions |
| Factories.BindingMissed | fastapi_canon/checks/source.py:901-906 | an assignment expression inside an assigned value gives the returned variable another class than the one listed |
| Factories.YieldingMissed | fastapi_canon/checks/source.py:901-906 | a yield inside an assigned value provides an object whose class is not listed |
| Factories.RebindingMissed | fastapi_canon/checks/source.py:894-957 | a nested function that assigns a variable of the factory goes unnoticed |
| Factories.CreatedClassMissed | fastapi_canon/checks/source.py:959-981 | a class whose call gives an object of another class is listed under its own name |
| Factories.AwaitedClassMissed | fastapi_canon/checks/source.py:959-981 | a factory that awaits an instance whose awaited value has another class is listed with the wrong class |
| FactoryPrecision.ListedProvided | fastapi_canon/checks/source.py:870-892 | in a factory whose statements are followed, each listed class is that of an object that some run provides, and an unknown class is listed only if some run provides None or none provides anything |
| FactoryPrecision.ProvidedExactly | fastapi_canon/checks/source.py:870-892 | with nothing unknown, exactly the classes of the objects that runs provide are listed |
| FactoryPrecision.ValueReal | fastapi_canon/checks/source.py:959-981 | a listed class of a value is given by some evaluation, from every state in which one variable has that class or is bound |
| FactoryPrecision.BlockReal | fastapi_canon/checks/source.py:894-957 | a class that is listed for a variable after a block is one that it holds after some run of the block |
| FactoryPrecision.BlockProvides | fastapi_canon/checks/source.py:894-957 | a class that is listed as provided by a block is provided by some run of it |
| Contracts.DependencyCovered | fastapi_canon/checks/contracts.py:300-356 | a complete dependency analysis covers every dependency reachable from an operation, at any depth |
| Contracts.ServedCovered | fastapi_canon/checks/contracts.py:388-459 | a complete route covers the handler and everything a request runs before it |
| Contracts.RouteSource | fastapi_canon/checks/contracts.py:388-459 | conversely, an exception or followed function in the flow of a route is one of a function that a request runs |
| Contracts.FindingsComplete | fastapi_canon/checks/contracts.py:50-61 | an operation is complete exactly when its flow is and its declarations could be read |
| Contracts.SkippedIsIncomplete | fastapi_canon/checks/contracts.py:388-517 | when the comparison is skipped because the contracts are not known, the operation is reported incomplete |
| Contracts.LookupAgrees | fastapi_canon/checks/contracts.py:461-517 | the static lookup along the class order and the run-time one find the same error, or none |
| Contracts.FindingsExactly | fastapi_canon/checks/contracts.py:461-517 | each finding is there exactly for its reason: CAN002 for an escaping application exception of whose classes none is mapped, CAN001 for one whose first mapped class has an error that is not declared, CAN003 for what was not decided or not read |
| Contracts.CleanExactly | fastapi_canon/checks/contracts.py:388-517 | there are no findings exactly when nothing is unknown and the first mapped class of every escaping application exception has a declared error |
| Contracts.CleanMeansDeclared | fastapi_canon/checks/contracts.py:388-517 | end to end: without findings, every application exception that escapes a request is resolved at run time to an error declared by the operation, or is in the report of code that is run without a call |
| Contracts.AgreeingFindings | fastapi_canon/checks/contracts.py:388-459 | flows that agree give the same verdict, so the report does not depend on the cache |
| Contracts.Checker.Dependencies | fastapi_canon/checks/contracts.py:300-356 | following dependencies through the cached analyzer agrees with the specification |
| Contracts.Checker.Compare | fastapi_canon/checks/contracts.py:461-517 | the diagnostics added are exactly the gaps of escaping exceptions, or nothing when contracts are not known |
| Contracts.Checker.CheckOperation | fastapi_canon/checks/contracts.py:388-459 | the diagnostics of an operation have the same verdict as the specification's findings, and the operation is complete exactly when these are |
| Contracts.Checker.AppendUncertainty | fastapi_canon/checks/contracts.py:440-459 | uncertainties are reported for exactly the modules that the analysis touched |
| Registry.MergeExact | fastapi_canon/error/registry.py:70-119 | a merge fails exactly when two entries disagree on the URI of a shared error or two errors share a key |
| Registry.MergeAssociative | fastapi_canon/error/registry.py:70-119 | merging without a type base is associative, in its result and in failing |
| Registry.MergeCommutative | fastapi_canon/error/registry.py:70-119 | merging in either order fails alike and otherwise holds the same errors with the same URIs |
| Registry.MergeIdempotent | fastapi_canon/error/registry.py:70-119 | a registry merged with itself, or alone, is itself |
| Registry.IndexEntry | fastapi_canon/error/registry.py:244-271 | indexing one entry by one key finds a collision or extends the index |
| Registry.ValidateCollisions | fastapi_canon/error/registry.py:244-271 | validation succeeds exactly when exception class, code, resolved URI and schema name each identify at most one error, and then indexes every entry by exception |
| Registry.JoinEntries | fastapi_canon/error/registry.py:70-104 | the loops over registries compute the join of all entries, or fail exactly when two of them disagree |
| Registry.MergeRegistries | fastapi_canon/error/registry.py:70-119 | the whole merge: when it succeeds, its entries, that they are well formed, and, without a base, that it is the algebra's merge |
| Registry.Construct | fastapi_canon/error/registry.py:39-62 | a registry is rejected exactly when two of its errors share a key, counts repeated errors once, is well formed and is what merging its declarations gives |
| Registry.ResolvedUris | fastapi_canon/error/registry.py:236-241 | an explicit URI is kept under every base; otherwise the URI is the base, a slash and the code, and two are the same exactly when the codes are |
| Registry.DeclaredTogether | fastapi_canon/error/registry.py:39-119 | declaring errors together gives what declaring them apart and merging gives, or fails with it |
| Registry.LookupFirst | fastapi_canon/error/registry.py:126-132 | the error resolved is that of the least class in the order that is mapped, and there is none only if no class is mapped |
| Registry.Resolve | fastapi_canon/error/registry.py:126-132 | resolving finds the error of the first class in the exception's order that has one |
| Registry.MembershipByException | fastapi_canon/error/registry.py:134-145 | membership by definition and the URI of a member can be read off the exception index |
| Lifecycle.StepInv | fastapi_canon/codegen/templates/client.py:127-149 | every step of opening, waiting, failing and closing keeps the invariant |
| Lifecycle.ReachableInv | fastapi_canon/codegen/templates/client.py:413-449 | the invariant holds in every state of every interleaving |
| Lifecycle.SingleFlight | fastapi_canon/codegen/templates/client.py:131-142 | at most one open is in flight for a name, and only while nothing is stored there |
| Lifecycle.StoredOnce | fastapi_canon/codegen/templates/client.py:134-140 | at most one client is ever stored under a name, and it stays |
| Lifecycle.FailureKeepsNewer | fastapi_canon/codegen/templates/client.py:143-147 | no event takes away a name's attempt while it is in flight |
| Lifecycle.NothingReturnedOnceClosed | fastapi_canon/codegen/templates/client.py:127-149 | no client is handed out once closing has begun |
| Lifecycle.ReturnsStored | fastapi_canon/codegen/templates/client.py:127-149 | a client that is returned is the one stored under the name that the caller entered with |
| Lifecycle.OpenAnswers | fastapi_canon/codegen/templates/client.py:127-149 | while open, a name with a client is answered at once with it, one without waits for the open in flight or starts one, and a caller whose open succeeded gets the client stored under its name |
| Lifecycle.FailureDropped | fastapi_canon/codegen/templates/client.py:143-147 | a caller that met a failed open raises and that open is pending no longer, so that the next caller starts a new one |
| Lifecycle.AwaitsUntilAnswered | fastapi_canon/codegen/templates/client.py:131-149 | a caller that is suspended waits for the name that it entered with until its own wait ends |
| Lifecycle.ClosedRaises | fastapi_canon/codegen/templates/client.py:127-149 | once closing has begun, entering and resuming raise |
| Lifecycle.ClosedExactly | fastapi_canon/codegen/templates/client.py:419-449 | when closing is done, the owned stored clients had exactly one close attempt each, no other client had any, and nothing is in flight |
| Lifecycle.CallsEndFirst | fastapi_canon/codegen/templates/client.py:419-449 | when clients are being closed every tracked call has ended, but for one from which the client itself is closed |
| Lifecycle.TrackedThroughout | fastapi_canon/codegen/templates/client.py:92-125 | a call is tracked from the step that enters `binding`, whether it waits there or not, until it fails or ends |
| Lifecycle.NothingStoredAfterwards | fastapi_canon/codegen/templates/client.py:419-449 | once clients are being closed no event stores one or changes a binding, and after closing none is attempted again |
| Lifecycle.CloseCanFinish | fastapi_canon/codegen/templates/client.py:419-449 | from every reachable state in which closing has begun there is a continuation that ends it: closing cannot deadlock |
| Clients.Runtime.Register | fastapi_canon/codegen/templates/client.py:69-72 | registering gives the initial state of the registered bindings |
| Clients.Runtime.Bind | fastapi_canon/codegen/templates/client.py:103-142 | entering `binding`, and `call` before it, is exactly that step of the state machine |
| Clients.Runtime.OpenSucceeded | fastapi_canon/codegen/templates/client.py:134-140 | an open that ends stores its client, as that step |
| Clients.Runtime.OpenFailed | fastapi_canon/codegen/templates/client.py:134-147 | an open that fails ends without storing a client, as that step |
| Clients.Runtime.Resumed | fastapi_canon/codegen/templates/client.py:143-149 | a waiter that resumes or is interrupted takes that step, drops only its own ended attempt, and ends its call if it fails |
| Clients.Runtime.CallEnded | fastapi_canon/codegen/templates/client.py:124-125 | a call whose method returns or raises is no longer tracked |
| Clients.Runtime.TaskEnded | fastapi_canon/codegen/templates/client.py:419-423 | a caller whose task ends is done for the closing that waits for it |
| Clients.Runtime.Aclose | fastapi_canon/codegen/templates/client.py:413-417 | closing starts once, whoever calls it, and remembers the caller that is not cancelled |
| Clients.Runtime.CancelActive | fastapi_canon/codegen/templates/client.py:419-430 | every tracked call but the closer is cancelled and awaited |
| Clients.Runtime.CancelPending | fastapi_canon/codegen/templates/client.py:430-434 | every pending open is cancelled and awaited |
| Clients.Runtime.ClearPending | fastapi_canon/codegen/templates/client.py:433-435 | when all pending opens have ended they are forgotten, and clients are closed next |
| Clients.Runtime.CloseClient | fastapi_canon/codegen/templates/client.py:440-449 | each round attempts to close the next owned client, once |
| Pointers.Unescaped | fastapi_canon/codegen/schema.py:344-352 | unescaping undoes escaping, and escaped keys hold no slash |
| Pointers.EscapeCodes | fastapi_canon/codegen/schema.py:351-352 | the two replacements encode each character by itself: `~0` for a tilde and `~1` for a slash |
| Pointers.UnescapeDecodes | fastapi_canon/codegen/schema.py:344 | the two replacements back, in their order, decode every text from the left |
| Pointers.DecimalParses | fastapi_canon/codegen/schema.py:342-343 | an index that was printed is parsed back |
| Pointers.Dereference | fastapi_canon/codegen/schema.py:337-348 | the loop over reference tokens follows them from the document, or fails where one cannot be followed |
| Pointers.PrintedAddresses | fastapi_canon/codegen/schema.py:382-397 | only addresses of problem schemas that the search can reach are printed |
| Pointers.AddressPrinted | fastapi_canon/codegen/schema.py:382-397 | the address of every such problem schema is printed |
| Pointers.PointerRoundTrip | fastapi_canon/codegen/schema.py:337-397 | following a printed address below the root leads to exactly the schema it was printed for |
| Pointers.ReadsBackExactly | fastapi_canon/codegen/schema.py:337-397 | all printed addresses lead back exactly when the document itself is no problem schema |
| Pointers.RootNotRead | fastapi_canon/codegen/schema.py:337-348 | the bare root address never leads back to the root |
| Schemas.SameNameSameIdentity | fastapi_canon/codegen/schema.py:160-230 | claimed references have the same public name exactly when they have the same identity, in any order of claims |
| SchemaIdentities.SharedExactly | fastapi_canon/codegen/schema.py:160-230 | claimed references share a name exactly when documents and configurations give them one identity |
| SchemaIdentities.HeadIdentifies | fastapi_canon/codegen/schema.py:160-190 | that identity: the problem type, the generic problem, or else what is mapped to the address, else to its last part, else a truthy `x-canon-model-id`, else `$id`, else the source with the address |
| SchemaIdentities.ProblemsShared | fastapi_canon/codegen/schema.py:160-190 | problem schemas of one type share their model, whatever identity is written down for them |
| SchemaIdentities.HeadRefused | fastapi_canon/codegen/schema.py:160-190 | exactly which documents and configurations make a claim fail before any name is chosen |
| SchemaIdentities.ModelNamed | fastapi_canon/codegen/schema.py:191-226 | the name of a model comes from the reference that claimed it first: the name asked for in its configuration or schema, else the title of one with an identity of its own, else the last part of the reference, in Pascal case and with the ending of problem types |
| Schemas.RewrittenMore | fastapi_canon/codegen/schema.py:103-158 | later claims and compilations never change how a schema was rewritten |
| Schemas.PlainKept | fastapi_canon/codegen/schema.py:103-158 | rewriting changes nothing but references, definitions, identities and embedded problem schemas |
| Schemas.ProblemSchemaAllowsStatus | fastapi_canon/codegen/schema.py:286-300 | a problem schema allows any status and requires none, loses its marker and examples, and keeps every other member |
| Schemas.MetDone | fastapi_canon/codegen/schema.py:128-144 | a schema is rewritten only when every reference that it follows is compiled or being compiled |
| Schemas.MeaningExactly | fastapi_canon/codegen/schema.py:303-334 | two schemas have the same normal form exactly when they differ, at any depth, only in the order of members and of required names and in documentation |
| Schemas.PlainExactly | fastapi_canon/codegen/schema.py:303-334 | data under `default`, `const` or `enum` has the same normal form exactly when it differs only in the order of members |
| Schemas.MeaningTells | fastapi_canon/codegen/schema.py:303-334 | equal normal forms have the same members up to documentation, with equal normal forms |
| SchemaScopes.MetFromText | fastapi_canon/codegen/schema.py:128-144 | every reference that a schema follows comes from a text in it and from the scope it is read in |
| SchemaScopes.UniverseExists | fastapi_canon/codegen/schema.py:240-247 | from any finite set of references compiling only ever follows finitely many, so cyclic references end |
| SchemaRegistries.RegisteredKeeps | fastapi_canon/codegen/schema.py:191-226 | registering a claim keeps names and identities in one-to-one correspondence and disturbs no earlier claim |
| SchemaRegistries.ChildSmaller | fastapi_canon/codegen/schema.py:227-229 | a schema's own definitions are found inside it, so claiming them ends |
| SchemaRegistries.SchemaRegistry.Claim | fastapi_canon/codegen/schema.py:160-230 | claiming keeps the correspondence and everything claimed before, claims all `$defs` below, and fails only with an error that the tables justify |
| SchemaRegistries.SchemaRegistry.Compile | fastapi_canon/codegen/schema.py:232-263 | compiling ends on cyclic references, keeps all meanings, leaves the reference compiled or being compiled, and fails only for a stated reason |
| SchemaRegistries.SchemaRegistry.Store | fastapi_canon/codegen/schema.py:248-261 | a schema is stored only when it means what the model's schema means, and an incompatible one is refused |
| SchemaRegistries.SchemaRegistry.Rewrite | fastapi_canon/codegen/schema.py:103-158 | rewriting gives the schema with each reference replaced by the name that the final tables give it |
| SchemaRegistries.SchemaRegistry.RewriteReference | fastapi_canon/codegen/schema.py:128-146 | a reference becomes the name of its compiled model, stays as it is when it is none to a model, and fails when it is external or has no scope |
| SchemaRegistries.Compiles | fastapi_canon/codegen/schema.py:254-261 | after a compilation every compiled reference still agrees with its model, and every model's schema is that of a compiled reference |
| SchemaRegistries.SettledMeaning | fastapi_canon/codegen/schema.py:232-263 | compiled references with one identity have one name and one normal form, and all that they refer to is compiled |
| SchemaRegistries.SchemaRegistry.AddSources | fastapi_canon/codegen/schema.py:49-71 | afterwards every declared schema and every problem schema of every source is compiled and the invariant holds |
| SchemaRegistries.SchemaRegistry.Close | fastapi_canon/codegen/schema.py:80-95 | the worklist finds the least set of definitions closed under references, or fails exactly when an unknown one is reached |
| SchemaRegistries.SchemaRegistry.Document | fastapi_canon/codegen/schema.py:73-101 | the document put together from its rewriting and exactly the reachable definitions; every schema reference in it leads to the definition of the model that it names; otherwise a stated failure, an unknown model only where a needed definition copies its name |
| SchemaRegistries.ReachedExactly | fastapi_canon/codegen/schema.py:80-95 | the definitions included are exactly those reachable from the source's names |
| SchemaNames.RewrittenReferences | fastapi_canon/codegen/schema.py:103-158 | rewriting places only names of references that it meets, beside the names that it copies |
| SchemaNames.FinishedReferences | fastapi_canon/codegen/schema.py:244-253 | turning a rewritten schema into a model's schema adds no reference |
| SchemaNames.AllCollected | fastapi_canon/codegen/schema.py:355-366 | every reference that stands where a schema may refer to another is collected |
| SchemaNames.CopiesNothing | fastapi_canon/codegen/schema.py:147-148 | where no default or example names a model, rewriting copies no name, from whichever value it starts |
| SchemaRegistries.ModelReferences | fastapi_canon/codegen/schema.py:232-263 | the schema of a model only refers to models that exist, and any other name it holds was copied from a reference of its own |
| SchemaRegistries.UnknownExactly | fastapi_canon/codegen/schema.py:80-95 | an unknown model is reached exactly when a needed definition copies the name of one |
| SchemaRegistries.NeverUnknown | fastapi_canon/codegen/schema.py:80-95 | documents that name no model in defaults, examples or property names never meet an unknown model |
| SchemaAssembly.AssemblyResolves | fastapi_canon/codegen/schema.py:92-101 | following any schema reference of the assembled document leads to the definition of the model that it names, under either root |
| SchemaAssembly.RtcReferences | fastapi_canon/codegen/schema.py:369-379 | renaming the references of a WebRTC document turns each into one to the definition of the same name and leaves none to models |
| SchemaAssembly.PascalLike | fastapi_canon/codegen/names.py:18-42 | names of models are alphanumeric and start with no lower-case letter, so they stand in pointers as they are |
| SchemaPlans.SchemaCompiled | fastapi_canon/codegen/schema.py:225-261 | a model has a schema exactly when a reference of its name was compiled |
| SchemaPlans.EmbeddedAt | fastapi_canon/codegen/schema.py:118-119 | a reference that rewriting meets is followed, or is the address of a problem schema inside the value |
| SchemaPlans.DocumentDefined | fastapi_canon/codegen/schema.py:49-101 | in documents that hide no problem schema, every reference of an assembled document leads to a compiled schema |
| SchemaPlans.BuildDocuments | fastapi_canon/codegen/planner.py:14-20 | all documents of a client: each resolves its references, to compiled schemas if none hides a problem schema, and a model is defined alike in all of them; or a stated failure |
| SchemaDocuments.Unassembled | fastapi_canon/codegen/schema.py:73-95 | a document with a reference to a missing model in a default: every schema in it is claimed and compiled, and assembling it fails |
| Selection.Deselect | fastapi_canon/codegen/selection.py:60-101 | removing operations by equality deletes exactly the unselected ones, because IDs are unique |
| Selection.SelectOperations | fastapi_canon/codegen/selection.py:22-101 | without a selection the contract is returned unread; otherwise it is rejected for unknown, conflicting or duplicate IDs or filtered in every list |
| Selection.SelectionExact | fastapi_canon/codegen/selection.py:22-101 | an accepted selection keeps exactly the operations that were included and not excluded |
| Selection.PruneModels | fastapi_canon/codegen/selection.py:104-117 | the worklist keeps a closed set of models, each reachable from the rest of the document, unchanged |
| Selection.PruningLeast | fastapi_canon/codegen/selection.py:104-117 | the kept models are exactly the reachable ones, and no closed set is smaller |
| Spelling.CamelOfSnake | fastapi_canon/codegen/names.py:18-42 | spelling a name in snake case first, with its suffixes, does not change its camel case |
| Spelling.WordsExactly | fastapi_canon/codegen/names.py:18-21 | the words of a name end where its letters and digits end, before a capital after a small letter or digit, and before the last capital of a run when a small letter follows |
| Planning.CheckConflicts | fastapi_canon/codegen/planner.py:27-42 | the pairwise check accepts exactly the prefix-free sets of converted names |
| Planning.PlanNames | fastapi_canon/codegen/planner.py:27-48 | names are planned exactly when they are prefix-free under both spellings |
| Planning.EmittedNames | fastapi_canon/codegen/render.py:720 | the names that the emitter groups by are those that the planner checked |
| Planning.InsertAdds | fastapi_canon/codegen/render.py:1046-1052 | inserting a path that leads neither to a method nor past one adds exactly that method |
| Planning.BuiltHolds | fastapi_canon/codegen/render.py:1046-1052 | for prefix-free paths the tree is built without overwriting, and flattening it gives back the method map |
| Planning.BuildTree | fastapi_canon/codegen/render.py:1046-1052 | the loop groups the methods one after another, or fails where that runs into a method |
| Planning.AcceptedBuildsLossless | fastapi_canon/codegen/planner.py:27-48 | names that the planner accepts build a tree that, flattened, holds each operation once under the name that was checked |
| Generation.CheckPaths | fastapi_canon/codegen/config.py:212-233 | the index loop accepts exactly the configurations whose outputs are apart, whose contracts lie outside them and whose live outputs are distinct |
| Generation.LoadSources | fastapi_canon/codegen/generate.py:78-127 | the loop over sources plans exactly the documents, writes and deletions of the needed ones, or fails |
| Generation.PlanTargets | fastapi_canon/codegen/generate.py:128-193 | the loop over targets extends the plan target by target, or fails |
| Generation.PlanDisjoint | fastapi_canon/codegen/generate.py:169-193 | what a run writes and what it deletes are disjoint |
| Generation.Generate | fastapi_canon/codegen/generate.py:56-232 | a run that fails or only checks leaves all files as they are, another one carries out its plan, and it reports a change exactly when there is one |
| Generation.Apply | fastapi_canon/codegen/generate.py:194-225 | writing only the changed paths has the effect of the whole plan |
| Generation.RunKeepsForeign | fastapi_canon/codegen/generate.py:169-225 | files below a target that its manifest does not list are never changed |
| Generation.RunKeepsUnselected | fastapi_canon/codegen/generate.py:67-71 | nothing below a target that was not selected is changed |
| Generation.ChosenExactly | fastapi_canon/codegen/generate.py:67-69 | a run is for the targets that are named, or for all when none is, each as often as it is configured |
| Generation.RunLeavesTarget | fastapi_canon/codegen/generate.py:128-225 | what is at each path below a target afterwards: the manifest of the rendered names, the rendered file, nothing for one that only an earlier run rendered, and else what was there |
| Generation.RunLeavesContract | fastapi_canon/codegen/generate.py:94-109 | where a live contract is exported to there is that contract, or nothing for an optional one that is not registered |
| Generation.RunLeavesRest | fastapi_canon/codegen/generate.py:194-225 | every other path is as before |
| Generation.RunIdempotent | fastapi_canon/codegen/generate.py:128-232 | a check after a run on the same inputs succeeds and finds nothing to change |
| Repeating.IdempotentExactly | fastapi_canon/codegen/generate.py:82-109 | generating is idempotent, for all files, contracts and tools, exactly when no needed saved contract is read from where a needed live one is exported to |
| Repeating.ClashShows | fastapi_canon/codegen/generate.py:82-109 | for every configuration with such a clash there are files and contracts after which a check finds a change |
| SkillInstall.RenameBack | fastapi_canon/cli.py:163-174 | renaming back restores every file |
| SkillInstall.RestoredUndoes | fastapi_canon/cli.py:169-174 | one round of the rollback undoes whatever was done for its entry: nothing, the backup, or the replacement |
| SkillInstall.Replace | fastapi_canon/cli.py:150-175 | the renames and the rollback leave exactly the files and the outcome of the specification for any entries, and with entries that lie apart a failure at any single rename leaves every file as before |
| SkillInstall.RollBack | fastapi_canon/cli.py:168-175 | the reverse pass renames back what the specification says, or stops at the rename that fails |
| SkillInstall.RestoreEachSafe | fastapi_canon/cli.py:168-175 | wherever a single failure happened, the rollback restores the initial files |
| SkillStaging.InstallsExactly | fastapi_canon/cli.py:136-167 | for distinct destinations with a copy staged beside each, a run without a failing rename installs every copy exactly when no destination lies inside another |
| SkillStaging.InstallsOrRestores | fastapi_canon/cli.py:136-175 | for destinations that lie apart, a failure at any single rename leaves all files as they were staged, and without one every destination holds its copy |
| SkillStaging.NestedStuck | fastapi_canon/cli.py:163-175 | a second destination inside the first: its rename fails, the rollback fails too, and the first destination keeps the new copy while its previous tree stays in the temporary directory |
| SkillStaging.NestedExample | fastapi_canon/cli.py:136-175 | such files exist, and a file of the outer destination is gone from its place afterwards |

## Left out

- Reading Python, resolving names, aliases and types, and the library's own behaviour: targets, bases and handler types come resolved or marked as unresolved, and calls into libraries only run the callbacks they are given.
- Local variables other than those that handlers bind, comprehensions, lambdas, property access, decorated constructors, and overriding of concrete methods beyond marking such calls as overridable.
- `Precision.ReportReal`: the condition is sufficient. It takes a call to end when the called code can, without calling a function that is already being called, so it does not cover statements that are only reached after a recursive call.
- `FactoryPrecision.ListedProvided`: a factory with a statement at which the interpreter gives up (a loop, a handler, a target that is no name, an assignment expression or yield in a test or a bare expression) lists an unknown class whatever the statement does.
- `Reasons.UnknownExplained`: the reason for an undecided re-raise is that the code contains one, and for an undecided `raise e` that it raises a variable; that no handler before it settles what is raised is not part of the reason.
- Trace contents, line numbers, and order and duplicates in the checker's lists: flows are sets.
- The modules that an analysis touches are refined to the functions whose bodies it follows; how reading provider bindings adds to them is not modelled.
- Special methods that Python calls other than for loops and bare raises: operators, comparisons, `__bool__`, `__getattr__`, descriptors and conversions raise nothing in the semantics. In factories, variables are not rebound by anything else than their own statements, assignment expressions and nested functions.
- The registry's dropping of repeated registry objects before a merge, which `Registry.MergeIdempotent` makes unobservable for registries that were validated, and the validation of names, type bases and argument types.
- `Clients.Runtime.Register`: `register` is called only before the client is used, as generated clients do.
- The contents of requests, sessions and streams, the tracking of tasks by `request` and `iterating` (a task that does both loses its tracking when the first ends), cancellation of the closing task itself, and resources lost inside a cancelled factory.
- `Pointers.Dereference`: index tokens in forms that `int` accepts besides an optional sign and ASCII digits; documents whose `properties` is no object, for which `_problem_type` raises another exception.
- `SchemaRegistries.SchemaRegistry.AddSources`: sources and schema names are taken in any order instead of sorted, so the order in which first claims choose names is not fixed; a registry is filled once.
- `SchemaRegistries.SchemaRegistry.Document`: the definitions are listed in any order instead of sorted.
- The strings of a discriminator's `mapping` name models too, but `_rewrite` never renames them and `_references` never collects them; nothing is proved about where they lead.
- Malformed members of problem schemas (`required`, `properties` or `code` of another type) end a compilation; numbers in schemas are integers.
- Selecting operations of OpenAPI documents, where an operation is deleted from its path item; the list-shaped contracts are modelled.
- Names outside ASCII, the reserved operation names, and rendering the tree as text; the tree is a value rather than nested dictionaries changed in place.
- Directories, links, file modes and line endings; paths are canonical sequences of names, `_safe`'s rules about single names are one predicate, and a write or deletion does not fail half way.
- Reading, exporting, rendering and printing documents in `_generate` are functions given to it; the report and the diff are left out.
- `SkillInstall.Replace`: at most one rename fails by itself, beside those that cannot succeed in the state of the files; the earlier checks on links and on the project directory, copying the bundled directory, and removing the temporary directories are left out.
- Rendering, the framework adapters, OpenAPI assembly, logging, database sessions and command-line parsing.
