/**
 The binding cache and shutdown of the generated client, `fastapi_canon/codegen/templates/client.py`, as
 atomic steps: each event is what one asyncio task does between two awaits. Any task may run next, an
 open may end in a client or a failure at any time, and a waiting caller may be cancelled at any time.
 */
module Lifecycle {
  import opened Wrappers

  datatype Key = Key(text: string)
  datatype Client = Client(id: nat)
  datatype Caller = Caller(id: nat)

  // `self.bindings[name]` without its factory.
  datatype Binding = Binding(client: Option<Client>, owned: bool)

  datatype Status = Running | Succeeded(client: Client) | Failed

  // What a suspended caller waits for, and whether it waits inside `call`.
  datatype Wait = Wait(task: nat, tracked: bool)

  // An `open_binding` task.
  datatype Opening = Opening(name: Key, status: Status)

  datatype Phase =
    | Open
    | Starting                                // aclose has created the closing task
    | AwaitingCalls(active: set<Caller>)      // cancelled, being gathered
    | AwaitingOpens(opens: set<nat>)          // cancelled, being gathered
    | ClosingClients(next: nat)               // the loop over the bindings, at this position
    | Done

  datatype State = State(
    closed: bool,
    order: seq<Key>,                   // the bindings in registration order
    bindings: map<Key, Binding>,
    pending: map<Key, nat>,
    opens: seq<Opening>,               // every open ever started; its index is the task
    waiters: map<Caller, Wait>,        // callers suspended in `binding`
    tasks: set<Caller>,                // callers inside `call`, from its start to its end
    finished: set<Caller>,
    closer: Option<Caller>,            // the caller of the aclose that began closing
    phase: Phase,
    attempts: seq<(Key, Client)>,      // close attempts on clients, in order
    stored: seq<(Key, Client)>)        // every client ever put into a binding

  datatype Event =
    | Enter(caller: Caller, name: Key, tracked: bool)  // call binding; `call` also tracks its task
    | CallEnds(caller: Caller)                         // the method that a tracked call runs has ended
    | OpenSucceeds(task: nat, client: Client)
    | OpenFails(task: nat)
    | Resume(caller: Caller)                           // the awaited open has ended
    | Interrupt(caller: Caller)                        // the waiting caller is cancelled
    | Finish(caller: Caller)                           // the caller's task ends
    | StartClose(closer: Option<Caller>)               // aclose
    | CancelCalls                                      // _close, up to the first gather
    | CallsGathered
    | OpensGathered
    | CloseNext                                        // one round of the loop over the bindings
    | EndClose

  datatype Response = Silent | Suspended | Returned(client: Client) | Raised

  // ----- single events; `None` when the event cannot happen

  function StartOpen(s: State, name: Key): State {
    s.(pending := s.pending[name := |s.opens|], opens := s.opens + [Opening(name, Running)])
  }

  function Track(s: State, caller: Caller, tracked: bool): State {
    if tracked then s.(tasks := s.tasks + {caller}) else s
  }

  // A call that ends, in whichever way, is no longer tracked.
  function Untrack(s: State, caller: Caller, tracked: bool): State {
    if tracked then s.(tasks := s.tasks - {caller}) else s
  }

  function EnterBinding(s: State, caller: Caller, name: Key, tracked: bool): Option<(State, Response)> {
    if caller in s.waiters || caller in s.finished || name !in s.bindings then None
    else if s.closed then Some((Untrack(s, caller, tracked), Raised))
    else if s.bindings[name].client.Some?
    then Some((Track(s, caller, tracked), Returned(s.bindings[name].client.value)))
    else
      var started := Track(if name in s.pending then s else StartOpen(s, name), caller, tracked);
      Some((started.(waiters := started.waiters[caller := Wait(started.pending[name], tracked)]), Suspended))
  }

  function EndOpen(s: State, task: nat, status: Status): State
    requires task < |s.opens|
  {
    s.(opens := s.opens[task := s.opens[task].(status := status)])
  }

  function OpenSuccess(s: State, task: nat, client: Client): Option<(State, Response)> {
    if task >= |s.opens| || !s.opens[task].status.Running? || s.opens[task].name !in s.bindings then None
    else
      var name := s.opens[task].name;
      Some((EndOpen(s, task, Succeeded(client)).(
              bindings := s.bindings[name := s.bindings[name].(client := Some(client))],
              stored := s.stored + [(name, client)]),
            Silent))
  }

  // The exception path of `binding`: drop the attempt if it has ended and is still the current one.
  function Drop(s: State, task: nat): State
    requires task < |s.opens|
  {
    var name := s.opens[task].name;
    if !s.opens[task].status.Running? && name in s.pending && s.pending[name] == task
    then s.(pending := s.pending - {name})
    else s
  }

  function Leave(s: State, caller: Caller): State {
    s.(waiters := s.waiters - {caller})
  }

  function ResumeWaiter(s: State, caller: Caller): Option<(State, Response)> {
    if caller !in s.waiters || s.waiters[caller].task >= |s.opens| then None
    else
      var wait := s.waiters[caller];
      match s.opens[wait.task].status
      case Running => None
      case Succeeded(client) =>
        Some(if s.closed then (Untrack(Leave(s, caller), caller, wait.tracked), Raised)
             else (Leave(s, caller), Returned(client)))
      case Failed => Some((Untrack(Leave(Drop(s, wait.task), caller), caller, wait.tracked), Raised))
  }

  function InterruptWaiter(s: State, caller: Caller): Option<(State, Response)> {
    if caller !in s.waiters || s.waiters[caller].task >= |s.opens| then None
    else
      var wait := s.waiters[caller];
      Some((Untrack(Leave(Drop(s, wait.task), caller), caller, wait.tracked), Raised))
  }

  function CloseOne(s: State): Option<(State, Response)>
    requires s.phase.ClosingClients? && s.phase.next < |s.order|
  {
    var name := s.order[s.phase.next];
    var next := s.(phase := ClosingClients(s.phase.next + 1));
    if name in s.bindings && s.bindings[name].owned && s.bindings[name].client.Some?
    then Some((next.(attempts := s.attempts + [(name, s.bindings[name].client.value)]), Silent))
    else Some((next, Silent))
  }

  // The tracked calls but that of the closer itself.
  function Others(s: State): set<Caller> {
    set c | c in s.tasks && Some(c) != s.closer
  }

  function Step(s: State, e: Event): Option<(State, Response)> {
    match e
    case Enter(caller, name, tracked) => EnterBinding(s, caller, name, tracked)
    case OpenSucceeds(task, client) => OpenSuccess(s, task, client)
    case OpenFails(task) =>
      if task < |s.opens| && s.opens[task].status.Running? then Some((EndOpen(s, task, Failed), Silent)) else None
    case Resume(caller) => ResumeWaiter(s, caller)
    case Interrupt(caller) => InterruptWaiter(s, caller)
    case CallEnds(caller) =>
      if caller in s.waiters || caller !in s.tasks then None else Some((Untrack(s, caller, true), Silent))
    case Finish(caller) =>
      if caller in s.waiters then None else Some((Untrack(s, caller, true).(finished := s.finished + {caller}), Silent))
    case StartClose(closer) =>
      if s.phase.Open? then Some((s.(closed := true, closer := closer, phase := Starting), Silent)) else Some((s, Silent))
    case CancelCalls =>
      if !s.phase.Starting? then None else Some((s.(phase := AwaitingCalls(Others(s))), Silent))
    case CallsGathered =>
      if !s.phase.AwaitingCalls? || !(s.phase.active <= s.finished) then None
      else Some((s.(phase := AwaitingOpens(set n | n in s.pending :: s.pending[n])), Silent))
    case OpensGathered =>
      if !s.phase.AwaitingOpens? || exists t :: t in s.phase.opens && t < |s.opens| && s.opens[t].status.Running?
      then None
      else Some((s.(pending := map[], phase := ClosingClients(0)), Silent))
    case CloseNext => if !s.phase.ClosingClients? || s.phase.next >= |s.order| then None else CloseOne(s)
    case EndClose =>
      if s.phase != ClosingClients(|s.order|) then None else Some((s.(phase := Done), Silent))
  }

  // ----- runs

  // `register`, called once for each binding before the client is used.
  datatype Registration = Registration(name: Key, client: Option<Client>, owned: bool)

  function Registered(registrations: seq<Registration>): State {
    if registrations == [] then State(false, [], map[], map[], [], map[], {}, {}, None, Open, [], [])
    else
      var r := registrations[|registrations| - 1];
      var s := Registered(registrations[..|registrations| - 1]);
      s.(order := if r.name in s.bindings then s.order else s.order + [r.name],
         bindings := s.bindings[r.name := Binding(r.client, r.owned)])
  }

  ghost predicate Reaches(s: State, events: seq<Event>, t: State)
    decreases |events|
  {
    if events == [] then s == t
    else
      var last := |events| - 1;
      exists m :: Reaches(s, events[..last], m) && Step(m, events[last]).Some? && Step(m, events[last]).value.0 == t
  }

  // ----- the invariant

  // An open in flight is the current attempt for its name, and nothing is stored under that name yet.
  ghost predicate OpensSound(s: State) {
    && (forall t :: 0 <= t < |s.opens| ==> s.opens[t].name in s.bindings)
    && (forall t :: 0 <= t < |s.opens| && s.opens[t].status.Running? ==>
          && s.opens[t].name in s.pending && s.pending[s.opens[t].name] == t
          && s.bindings[s.opens[t].name].client.None?)
    && (forall n :: n in s.pending ==> s.pending[n] < |s.opens| && s.opens[s.pending[n]].name == n)
    && (forall c :: c in s.waiters ==> s.waiters[c].task < |s.opens|)
  }

  // The clients stored by opens are where they were put, one for each name.
  ghost predicate StoredSound(s: State) {
    && (forall i :: 0 <= i < |s.stored| ==>
          s.stored[i].0 in s.bindings && s.bindings[s.stored[i].0].client == Some(s.stored[i].1))
    && (forall i, j :: 0 <= i < j < |s.stored| ==> s.stored[i].0 != s.stored[j].0)
  }

  ghost predicate OrderSound(s: State) {
    && (forall n :: n in s.bindings <==> n in s.order)
    && (forall i, j :: 0 <= i < j < |s.order| ==> s.order[i] != s.order[j])
  }

  // The owned clients of the bindings, in order: what closing has to attempt.
  function Owned(bindings: map<Key, Binding>, names: seq<Key>): seq<(Key, Client)> {
    if names == [] then []
    else
      Owned(bindings, names[..|names| - 1]) +
      var n := names[|names| - 1];
      if n in bindings && bindings[n].owned && bindings[n].client.Some? then [(n, bindings[n].client.value)] else []
  }

  ghost predicate NothingRunning(s: State) {
    forall t :: 0 <= t < |s.opens| ==> !s.opens[t].status.Running?
  }

  ghost predicate CloseSound(s: State) {
    && (s.closed <==> !s.phase.Open?)
    && match s.phase
       case AwaitingOpens(ts) =>
         s.attempts == [] && forall t :: 0 <= t < |s.opens| && s.opens[t].status.Running? ==> t in ts
       case ClosingClients(next) =>
         NothingRunning(s) && next <= |s.order| && s.attempts == Owned(s.bindings, s.order[..next])
       case Done => NothingRunning(s) && s.attempts == Owned(s.bindings, s.order)
       case _ => s.attempts == []
  }

  // Once closing has begun no call begins, and those that are gathered are all that was left.
  ghost predicate CallsSound(s: State) {
    && s.tasks !! s.finished
    && match s.phase
       case Open => true
       case Starting => true
       case AwaitingCalls(active) => Others(s) <= active
       case _ => Others(s) == {}
  }

  // An open that has succeeded has left its client under its name.
  ghost predicate AnswersSound(s: State) {
    forall t :: 0 <= t < |s.opens| && s.opens[t].status.Succeeded? ==>
      s.opens[t].name in s.bindings && s.bindings[s.opens[t].name].client == Some(s.opens[t].status.client)
  }

  ghost predicate Inv(s: State) {
    OpensSound(s) && StoredSound(s) && OrderSound(s) && CloseSound(s) && CallsSound(s) && AnswersSound(s)
  }

  lemma {:induction false} RegisteredInv(registrations: seq<Registration>)
    ensures Inv(Registered(registrations))
  {
    if registrations != [] { RegisteredInv(registrations[..|registrations| - 1]); }
    RegisteredIdle(registrations);
  }

  lemma {:induction false} RegisteredIdle(registrations: seq<Registration>)
    ensures var s := Registered(registrations);
            && s.opens == [] && s.pending == map[] && s.waiters == map[] && s.stored == [] && s.attempts == []
            && s.phase.Open? && s.tasks == {} && s.finished == {}
  {
    if registrations != [] { RegisteredIdle(registrations[..|registrations| - 1]); }
  }

  // Only who waits for what has changed.
  lemma SidelineInv(s: State, s': State)
    requires Inv(s)
    requires s' == s.(waiters := s'.waiters, tasks := s'.tasks, finished := s'.finished)
    requires forall c :: c in s'.waiters ==> s'.waiters[c].task < |s.opens|
    requires CallsSound(s')
    ensures Inv(s')
  {
  }

  lemma StartOpenInv(s: State, name: Key)
    requires Inv(s) && !s.closed
    requires name in s.bindings && s.bindings[name].client.None? && name !in s.pending
    ensures Inv(StartOpen(s, name))
  {
    var s' := StartOpen(s, name);
    assert forall t :: 0 <= t < |s.opens| ==> s'.opens[t] == s.opens[t];
    assert OpensSound(s');
  }

  lemma WaitersKnown(s: State)
    requires Inv(s)
    ensures forall c :: c in s.waiters ==> s.waiters[c].task < |s.opens|
    ensures forall n :: n in s.pending ==> s.pending[n] < |s.opens|
    ensures s.phase.Open? <==> !s.closed
  {
  }

  lemma EnterInv(s: State, caller: Caller, name: Key, tracked: bool)
    requires Inv(s) && EnterBinding(s, caller, name, tracked).Some?
    ensures Inv(EnterBinding(s, caller, name, tracked).value.0)
  {
    hide OpensSound, StoredSound, OrderSound, AnswersSound;
    var s' := EnterBinding(s, caller, name, tracked).value.0;
    WaitersKnown(s);
    if s.closed || s.bindings[name].client.Some? {
      SidelineInv(s, s');
    } else {
      var started := if name in s.pending then s else StartOpen(s, name);
      if name !in s.pending { StartOpenInv(s, name); }
      WaitersKnown(started);
      hide StartOpen;
      SidelineInv(started, s');
    }
  }

  lemma EndOpenSound(s: State, task: nat, status: Status)
    requires OpensSound(s) && task < |s.opens| && !status.Running?
    ensures OpensSound(EndOpen(s, task, status))
  {
  }

  lemma EndOpenInv(s: State, task: nat)
    requires Inv(s) && task < |s.opens|
    ensures Inv(EndOpen(s, task, Failed))
  {
    EndOpenSound(s, task, Failed);
  }

  // The parts of the invariant after an open has stored its client.
  lemma OpenSuccessOpens(s: State, task: nat, client: Client)
    requires OpensSound(s) && OpenSuccess(s, task, client).Some?
    ensures OpensSound(OpenSuccess(s, task, client).value.0)
  {
    var name := s.opens[task].name;
    forall t | 0 <= t < |s.opens| && t != task && s.opens[t].status.Running? ensures s.opens[t].name != name {
      assert s.pending[s.opens[t].name] == t && s.pending[name] == task;
    }
  }

  lemma OpenSuccessAnswers(s: State, task: nat, client: Client)
    requires OpensSound(s) && AnswersSound(s) && OpenSuccess(s, task, client).Some?
    ensures AnswersSound(OpenSuccess(s, task, client).value.0)
  {
  }

  lemma OpenSuccessInv(s: State, task: nat, client: Client)
    requires Inv(s) && OpenSuccess(s, task, client).Some?
    ensures Inv(OpenSuccess(s, task, client).value.0)
  {
    OpenSuccessOpens(s, task, client);
    OpenSuccessAnswers(s, task, client);
    StoreSound(EndOpen(s, task, Succeeded(client)), s.opens[task].name, client);
    assert !s.phase.ClosingClients? && !s.phase.Done?;
    hide OpensSound, StoredSound, AnswersSound;
  }

  // Storing the first client under a name.
  lemma StoreSound(s: State, name: Key, client: Client)
    requires StoredSound(s) && name in s.bindings && s.bindings[name].client.None?
    ensures StoredSound(s.(bindings := s.bindings[name := s.bindings[name].(client := Some(client))],
                           stored := s.stored + [(name, client)]))
  {
    forall i | 0 <= i < |s.stored| ensures s.stored[i].0 != name {
      assert s.bindings[s.stored[i].0].client.Some?;
    }
  }

  lemma DropInv(s: State, task: nat)
    requires Inv(s) && task < |s.opens|
    ensures Inv(Drop(s, task))
  {
    assert OpensSound(Drop(s, task));
  }

  lemma LeaveInv(s: State, caller: Caller)
    requires Inv(s) && caller in s.waiters
    ensures var wait := s.waiters[caller];
            && Inv(Leave(s, caller)) && Inv(Untrack(Leave(s, caller), caller, wait.tracked))
            && Inv(Untrack(Leave(Drop(s, wait.task), caller), caller, wait.tracked))
  {
    var wait := s.waiters[caller];
    SidelineInv(s, Leave(s, caller));
    SidelineInv(s, Untrack(Leave(s, caller), caller, wait.tracked));
    DropInv(s, wait.task);
    SidelineInv(Drop(s, wait.task), Untrack(Leave(Drop(s, wait.task), caller), caller, wait.tracked));
  }

  lemma OwnedStep(bindings: map<Key, Binding>, order: seq<Key>, k: nat)
    requires k < |order|
    ensures Owned(bindings, order[..k + 1]) == Owned(bindings, order[..k]) +
              if order[k] in bindings && bindings[order[k]].owned && bindings[order[k]].client.Some?
              then [(order[k], bindings[order[k]].client.value)] else []
  {
    assert order[..k + 1][..k] == order[..k];
  }

  // Only the phase of closing has changed.
  lemma PhaseInv(s: State, s': State)
    requires Inv(s) && s' == s.(closed := s'.closed, closer := s'.closer, phase := s'.phase, attempts := s'.attempts)
    requires CloseSound(s') && CallsSound(s')
    ensures Inv(s')
  {
  }

  lemma CloseOneInv(s: State)
    requires Inv(s) && s.phase.ClosingClients? && s.phase.next < |s.order|
    ensures Inv(CloseOne(s).value.0)
  {
    OwnedStep(s.bindings, s.order, s.phase.next);
    PhaseInv(s, CloseOne(s).value.0);
  }

  lemma OpensGatheredInv(s: State)
    requires Inv(s) && Step(s, OpensGathered).Some?
    ensures Inv(Step(s, OpensGathered).value.0)
  {
    var s' := Step(s, OpensGathered).value.0;
    assert NothingRunning(s);
    assert OpensSound(s');
    assert s'.order[..0] == [];
  }

  lemma CallsGatheredInv(s: State)
    requires Inv(s) && Step(s, CallsGathered).Some?
    ensures Inv(Step(s, CallsGathered).value.0)
  {
    var s' := Step(s, CallsGathered).value.0;
    forall t | 0 <= t < |s.opens| && s.opens[t].status.Running? ensures t in s'.phase.opens {
      assert s.opens[t].name in s.pending;
    }
    PhaseInv(s, s');
  }

  // Events that only concern tracked calls.
  lemma CallsInv(s: State, e: Event)
    requires Inv(s) && Step(s, e).Some? && (e.CallEnds? || e.Finish?)
    ensures Inv(Step(s, e).value.0)
  {
    SidelineInv(s, Step(s, e).value.0);
  }

  // Events that only move closing on.
  lemma ClosingInv(s: State, e: Event)
    requires Inv(s) && Step(s, e).Some? && (e.StartClose? || e.CancelCalls? || e.EndClose?)
    ensures Inv(Step(s, e).value.0)
  {
    hide OpensSound, StoredSound, OrderSound, AnswersSound;
    assert s.order[..|s.order|] == s.order;
    PhaseInv(s, Step(s, e).value.0);
  }

  /** Every event, in any state, keeps the invariant. */
  lemma StepInv(s: State, e: Event)
    requires Inv(s) && Step(s, e).Some?
    ensures Inv(Step(s, e).value.0)
  {
    hide OpensSound, StoredSound, OrderSound, CloseSound, CallsSound, AnswersSound, EnterBinding, OpenSuccess, Drop, CloseOne;
    match e
    case Enter(caller, name, tracked) => EnterInv(s, caller, name, tracked);
    case OpenSucceeds(task, client) => OpenSuccessInv(s, task, client);
    case OpenFails(task) => EndOpenInv(s, task);
    case Resume(caller) => LeaveInv(s, caller);
    case Interrupt(caller) => LeaveInv(s, caller);
    case CallEnds(_) => CallsInv(s, e);
    case Finish(_) => CallsInv(s, e);
    case StartClose(_) => ClosingInv(s, e);
    case CancelCalls => ClosingInv(s, e);
    case CallsGathered => CallsGatheredInv(s);
    case OpensGathered => OpensGatheredInv(s);
    case CloseNext => CloseOneInv(s);
    case EndClose => ClosingInv(s, e);
  }

  /** The invariant holds in every state of every interleaving. */
  lemma {:induction false} ReachableInv(registrations: seq<Registration>, events: seq<Event>, t: State)
    requires Reaches(Registered(registrations), events, t)
    ensures Inv(t)
    decreases |events|
  {
    if events == [] {
      RegisteredInv(registrations);
    } else {
      var last := |events| - 1;
      var m :| Reaches(Registered(registrations), events[..last], m)
               && Step(m, events[last]).Some? && Step(m, events[last]).value.0 == t;
      ReachableInv(registrations, events[..last], m);
      StepInv(m, events[last]);
    }
  }

  // ----- what the invariant means

  /** At most one open is in flight for a name, and none while a client is stored there. */
  lemma SingleFlight(registrations: seq<Registration>, events: seq<Event>, s: State, t: nat, u: nat)
    requires Reaches(Registered(registrations), events, s)
    requires t < |s.opens| && u < |s.opens| && s.opens[t].status.Running? && s.opens[t].name == s.opens[u].name
    ensures s.opens[u].status.Running? ==> t == u
    ensures s.opens[t].name in s.bindings && s.bindings[s.opens[t].name].client.None?
  {
    ReachableInv(registrations, events, s);
  }

  /** At most one client is ever stored under a name, and it stays. */
  lemma StoredOnce(registrations: seq<Registration>, events: seq<Event>, s: State, i: nat, j: nat)
    requires Reaches(Registered(registrations), events, s)
    requires i < |s.stored| && j < |s.stored| && s.stored[i].0 == s.stored[j].0
    ensures i == j
    ensures s.stored[i].0 in s.bindings && s.bindings[s.stored[i].0].client == Some(s.stored[i].1)
  {
    ReachableInv(registrations, events, s);
  }

  ghost predicate InFlight(s: State, name: Key) {
    name in s.pending && s.pending[name] < |s.opens| && s.opens[s.pending[name]].status.Running?
  }

  /** No caller's failure evicts an attempt in flight: it stays the current one until it ends itself. */
  lemma FailureKeepsNewer(registrations: seq<Registration>, events: seq<Event>, s: State, e: Event, name: Key)
    requires Reaches(Registered(registrations), events, s)
    requires Step(s, e).Some? && InFlight(s, name)
    ensures var s' := Step(s, e).value.0; name in s'.pending && s'.pending[name] == s.pending[name]
  {
    hide Reaches, Registered, StoredSound, OrderSound, Drop, NothingRunning;
    ReachableInv(registrations, events, s);
    match e
    case Enter(_, _, _) =>
    case OpenSucceeds(_, _) =>
    case Resume(caller) => DropKeeps(s, s.waiters[caller].task, name);
    case Interrupt(caller) => DropKeeps(s, s.waiters[caller].task, name);
    case _ =>
  }

  lemma DropKeeps(s: State, task: nat, name: Key)
    requires task < |s.opens| && InFlight(s, name)
    ensures var s' := Drop(s, task); name in s'.pending && s'.pending[name] == s.pending[name]
  {
  }

  /** `binding` never returns a client once closing has begun. */
  lemma NothingReturnedOnceClosed(registrations: seq<Registration>, events: seq<Event>, s: State, e: Event)
    requires Reaches(Registered(registrations), events, s) && Step(s, e).Some?
    ensures Step(s, e).value.1.Returned? ==> !s.closed && s.phase.Open?
  {
    ReachableInv(registrations, events, s);
  }

  lemma {:induction false} OwnedMember(bindings: map<Key, Binding>, names: seq<Key>, n: Key, c: Client)
    ensures (n, c) in Owned(bindings, names) <==> n in names && n in bindings && bindings[n] == Binding(Some(c), true)
  {
    if names != [] {
      OwnedMember(bindings, names[..|names| - 1], n, c);
      assert forall x :: x in names <==> x in names[..|names| - 1] || x == names[|names| - 1];
    }
  }

  ghost predicate OnePerName(attempts: seq<(Key, Client)>) {
    forall i, j :: 0 <= i < j < |attempts| ==> attempts[i].0 != attempts[j].0
  }

  lemma {:induction false} OwnedDistinct(bindings: map<Key, Binding>, names: seq<Key>)
    requires forall i, j :: 0 <= i < j < |names| ==> names[i] != names[j]
    ensures OnePerName(Owned(bindings, names))
  {
    if names != [] {
      var init := names[..|names| - 1];
      OwnedDistinct(bindings, init);
      forall k | 0 <= k < |Owned(bindings, init)| ensures Owned(bindings, init)[k].0 != names[|names| - 1] {
        var a := Owned(bindings, init)[k];
        assert a in Owned(bindings, init);
        OwnedMember(bindings, init, a.0, a.1);
        var i :| 0 <= i < |init| && init[i] == a.0;
        assert names[i] == a.0;
      }
    }
  }

  /** When closing is done, every owned client that is stored had exactly one close attempt, and no other
      client had any; nothing is in flight. */
  lemma ClosedExactly(registrations: seq<Registration>, events: seq<Event>, s: State)
    requires Reaches(Registered(registrations), events, s) && s.phase.Done?
    ensures NothingRunning(s)
    ensures forall n, c :: (n, c) in s.attempts <==> n in s.bindings && s.bindings[n] == Binding(Some(c), true)
    ensures OnePerName(s.attempts)
  {
    ReachableInv(registrations, events, s);
    forall n, c ensures (n, c) in s.attempts <==> n in s.bindings && s.bindings[n] == Binding(Some(c), true) {
      OwnedMember(s.bindings, s.order, n, c);
    }
    OwnedDistinct(s.bindings, s.order);
  }

  // ----- what `binding` answers

  // The name that a suspended caller entered with.
  function Awaited(s: State, caller: Caller): Option<Key> {
    if caller in s.waiters && s.waiters[caller].task < |s.opens| then Some(s.opens[s.waiters[caller].task].name) else None
  }

  // Opens keep their names.
  lemma OpensStay(s: State, e: Event)
    requires Step(s, e).Some?
    ensures var s' := Step(s, e).value.0;
            |s.opens| <= |s'.opens| && forall t :: 0 <= t < |s.opens| ==> s'.opens[t].name == s.opens[t].name
  {
  }

  lemma WaitsStay(s: State, e: Event, caller: Caller)
    requires Step(s, e).Some? && !((e.Resume? || e.Interrupt?) && e.caller == caller)
    requires !(e.Enter? && e.caller == caller && Step(s, e).value.1.Suspended?)
    ensures var s' := Step(s, e).value.0;
            (caller in s'.waiters <==> caller in s.waiters) && (caller in s.waiters ==> s'.waiters[caller] == s.waiters[caller])
  {
  }

  // A caller waits for the name it entered with until its own wait ends.
  lemma AwaitsUntilAnswered(registrations: seq<Registration>, events: seq<Event>, s: State, e: Event, caller: Caller)
    requires Reaches(Registered(registrations), events, s) && Step(s, e).Some?
    ensures var s' := Step(s, e).value.0;
            if e.Enter? && e.caller == caller && Step(s, e).value.1.Suspended? then Awaited(s', caller) == Some(e.name)
            else if (e.Resume? || e.Interrupt?) && e.caller == caller then Awaited(s', caller).None?
            else Awaited(s', caller) == Awaited(s, caller)
  {
    ReachableInv(registrations, events, s);
    WaitersKnown(s);
    OpensStay(s, e);
    hide Step, Inv, Reaches, Registered;
    if e.Enter? && e.caller == caller && Step(s, e).value.1.Suspended? {
      EntersWait(s, caller, e.name, e.tracked);
    } else if (e.Resume? || e.Interrupt?) && e.caller == caller {
      LeavesWait(s, e);
    } else {
      WaitsStay(s, e, caller);
    }
  }

  lemma EntersWait(s: State, caller: Caller, name: Key, tracked: bool)
    requires Inv(s) && Step(s, Enter(caller, name, tracked)).Some?
    requires Step(s, Enter(caller, name, tracked)).value.1.Suspended?
    ensures Awaited(Step(s, Enter(caller, name, tracked)).value.0, caller) == Some(name)
  {
    hide StoredSound, OrderSound, CloseSound, CallsSound, AnswersSound;
  }

  lemma LeavesWait(s: State, e: Event)
    requires (e.Resume? || e.Interrupt?) && Step(s, e).Some?
    ensures e.caller !in Step(s, e).value.0.waiters
  {
    hide Drop;
  }

  /** A client that is returned is the one stored under the name that the caller entered with. */
  lemma ReturnsStored(registrations: seq<Registration>, events: seq<Event>, s: State, e: Event)
    requires Reaches(Registered(registrations), events, s) && Step(s, e).Some? && Step(s, e).value.1.Returned?
    ensures e.Enter? || e.Resume?
    ensures var name := if e.Enter? then Some(e.name) else Awaited(s, e.caller);
            && name.Some? && name.value in s.bindings
            && s.bindings[name.value].client == Some(Step(s, e).value.1.client)
            && name.value in Step(s, e).value.0.bindings && Step(s, e).value.0.bindings[name.value] == s.bindings[name.value]
  {
    ReachableInv(registrations, events, s);
    hide Reaches, Registered, StoredSound, OrderSound, CloseSound, CallsSound;
  }

  /** While the client is open, entering a binding that has a client returns it at once, one without a client waits for
      the open in flight or starts one, and a caller whose open succeeded gets the client that it stored. */
  lemma OpenAnswers(registrations: seq<Registration>, events: seq<Event>, s: State, caller: Caller, name: Key, tracked: bool)
    requires Reaches(Registered(registrations), events, s) && !s.closed
    ensures name in s.bindings && caller !in s.waiters && caller !in s.finished ==>
              var step := Step(s, Enter(caller, name, tracked));
              && step.Some?
              && (s.bindings[name].client.Some? ==> step.value.1 == Returned(s.bindings[name].client.value))
              && (s.bindings[name].client.None? ==>
                    step.value.1.Suspended? && name in step.value.0.pending && caller in step.value.0.waiters
                    && step.value.0.waiters[caller] == Wait(step.value.0.pending[name], tracked))
              && (name in s.pending ==> step.value.0.opens == s.opens)
              && (s.bindings[name].client.None? && name !in s.pending ==>
                    step.value.0.opens == s.opens + [Opening(name, Running)] && step.value.0.pending[name] == |s.opens|)
    ensures Awaited(s, caller) == Some(name) && s.opens[s.waiters[caller].task].status.Succeeded? ==>
              var step := Step(s, Resume(caller));
              && step.Some? && name in s.bindings && s.bindings[name].client.Some?
              && step.value.1 == Returned(s.bindings[name].client.value)
  {
    ReachableInv(registrations, events, s);
    hide Reaches, Registered, StoredSound, OrderSound, CloseSound, CallsSound;
  }

  /** A caller that has met a failed open raises, and that open is no longer pending: whoever enters next does not
      wait for it. */
  lemma FailureDropped(registrations: seq<Registration>, events: seq<Event>, s: State, caller: Caller)
    requires Reaches(Registered(registrations), events, s) && caller in s.waiters
    requires s.waiters[caller].task < |s.opens| && s.opens[s.waiters[caller].task].status.Failed?
    ensures var task := s.waiters[caller].task;
            var step := Step(s, Resume(caller));
            && step.Some? && step.value.1.Raised?
            && (forall name :: name in step.value.0.pending ==> step.value.0.pending[name] != task)
            && step.value.0.opens == s.opens
  {
    ReachableInv(registrations, events, s);
    hide Reaches, Registered, StoredSound, OrderSound, CloseSound, CallsSound, AnswersSound;
    DropKeepsRest(s, s.waiters[caller].task);
  }

  /** A closed client answers no one: entering raises, and so does resuming. */
  lemma ClosedRaises(s: State, caller: Caller, name: Key, tracked: bool)
    requires s.closed
    ensures var step := Step(s, Enter(caller, name, tracked)); step.Some? ==> step.value.1.Raised?
    ensures var step := Step(s, Resume(caller)); step.Some? ==> step.value.1.Raised?
    ensures var step := Step(s, Interrupt(caller)); step.Some? ==> step.value.1.Raised?
  {
  }

  /** Clients are closed only after every call that got one has ended, but for a call from which the client itself is
      closed: calls are tracked from their start, and none begins once closing has begun. */
  lemma CallsEndFirst(registrations: seq<Registration>, events: seq<Event>, s: State)
    requires Reaches(Registered(registrations), events, s)
    ensures s.phase.ClosingClients? || s.phase.Done? ==> forall c :: c in s.tasks ==> Some(c) == s.closer
    ensures s.attempts != [] ==> forall c :: c in s.tasks ==> Some(c) == s.closer
  {
    ReachableInv(registrations, events, s);
    forall c | c in s.tasks ensures Some(c) == s.closer || c in Others(s) {}
  }

  /** A call is tracked while it waits for its client and while it uses it: from the step that enters `binding` to the
      one that reports its end. */
  lemma TrackedThroughout(s: State, e: Event, caller: Caller)
    requires Step(s, e).Some?
    ensures var response := Step(s, e).value.1;
            e.Enter? && e.caller == caller && e.tracked && (response.Suspended? || response.Returned?) ==>
              caller in Step(s, e).value.0.tasks
    ensures caller in s.tasks && caller !in Step(s, e).value.0.tasks ==>
              || e == CallEnds(caller) || e == Finish(caller)
              || (Step(s, e).value.1.Raised?
                  && (e.Enter? || e.Resume? || e.Interrupt?) && e.caller == caller)
  {
  }

  /** Once the clients are being closed, no event stores another one or changes a binding. */
  lemma NothingStoredAfterwards(registrations: seq<Registration>, events: seq<Event>, s: State, e: Event)
    requires Reaches(Registered(registrations), events, s) && (s.phase.Done? || s.phase.ClosingClients?)
    requires Step(s, e).Some?
    ensures var s' := Step(s, e).value.0;
            && s'.bindings == s.bindings && s'.stored == s.stored && s'.opens == s.opens
            && (s'.phase.Done? || s'.phase.ClosingClients?)
            && (s.phase.Done? ==> s'.attempts == s.attempts)
  {
    hide Reaches, Registered, StoredSound, OrderSound, Owned, Drop;
    ReachableInv(registrations, events, s);
    if e.Resume? || e.Interrupt? { DropKeepsRest(s, s.waiters[e.caller].task); }
  }

  // A caller that leaves only drops an attempt.
  lemma DropKeepsRest(s: State, task: nat)
    requires task < |s.opens|
    ensures Drop(s, task) == s.(pending := Drop(s, task).pending)
  {
  }

  // ----- closing can always end

  ghost predicate Continues(s: State, events: seq<Event>, t: State)
    decreases |events|
  {
    if events == [] then s == t
    else Step(s, events[0]).Some? && Continues(Step(s, events[0]).value.0, events[1..], t)
  }

  function RunningIn(s: State, ts: set<nat>): set<nat> {
    set t | t in ts && t < |s.opens| && s.opens[t].status.Running?
  }

  function PhaseRank(s: State): nat {
    match s.phase
    case Open => 5
    case Starting => 4
    case AwaitingCalls(_) => 3
    case AwaitingOpens(_) => 2
    case ClosingClients(_) => 1
    case Done => 0
  }

  function Work(s: State): nat {
    match s.phase
    case AwaitingCalls(active) => |active - s.finished|
    case AwaitingOpens(ts) => |RunningIn(s, ts)|
    case ClosingClients(next) => if next <= |s.order| then |s.order| - next else 0
    case _ => 0
  }

  ghost predicate Nearer(s: State, s': State) {
    || PhaseRank(s') < PhaseRank(s)
    || (PhaseRank(s') == PhaseRank(s) && Work(s') < Work(s))
    || (PhaseRank(s') == PhaseRank(s) && Work(s') == Work(s) && s'.waiters.Keys < s.waiters.Keys)
  }

  // A cancelled call leaves its wait, if it is in one, and ends.
  lemma CallsNearer(s: State) returns (e: Event)
    requires Inv(s) && s.phase.AwaitingCalls? && !(s.phase.active <= s.finished)
    ensures Step(s, e).Some? && Nearer(s, Step(s, e).value.0)
  {
    var active := s.phase.active;
    var c :| c in active && c !in s.finished;
    if c in s.waiters {
      e := Interrupt(c);
      assert c !in Step(s, e).value.0.waiters;
    } else {
      e := Finish(c);
      assert active - (s.finished + {c}) == (active - s.finished) - {c};
    }
  }

  // A cancelled open ends.
  lemma OpensNearer(s: State, t: nat)
    requires Inv(s) && s.phase.AwaitingOpens? && t in RunningIn(s, s.phase.opens)
    ensures Step(s, OpenFails(t)).Some? && Nearer(s, Step(s, OpenFails(t)).value.0)
  {
    var s' := Step(s, OpenFails(t)).value.0;
    assert RunningIn(s', s.phase.opens) == RunningIn(s, s.phase.opens) - {t};
  }

  // An event that brings a closing client nearer to the end.
  lemma NextToClose(s: State) returns (e: Event)
    requires Inv(s) && s.closed && !s.phase.Done?
    ensures Step(s, e).Some? && Nearer(s, Step(s, e).value.0)
  {
    hide OpensSound, StoredSound, OrderSound, Drop, EnterBinding, OpenSuccess;
    match s.phase
    case Starting => e := CancelCalls;
    case AwaitingCalls(active) =>
      if active <= s.finished {
        e := CallsGathered;
      } else {
        e := CallsNearer(s);
      }
    case AwaitingOpens(ts) =>
      if t :| t in RunningIn(s, ts) {
        OpensNearer(s, t);
        e := OpenFails(t);
      } else {
        e := OpensGathered;
        assert forall t :: t in ts && t < |s.opens| && s.opens[t].status.Running? ==> t in RunningIn(s, ts);
      }
    case ClosingClients(next) =>
      e := if next < |s.order| then CloseNext else EndClose;
  }

  /** From every state in which closing has begun, closing can still run to its end. */
  lemma {:induction false} CloseCanFinish(s: State) returns (events: seq<Event>, t: State)
    requires Inv(s) && s.closed
    ensures Continues(s, events, t) && t.phase.Done? && Inv(t)
    decreases PhaseRank(s), Work(s), s.waiters.Keys
  {
    if s.phase.Done? {
      return [], s;
    }
    var e := NextToClose(s);
    StepInv(s, e);
    var rest: seq<Event>;
    rest, t := CloseCanFinish(Step(s, e).value.0);
    events := [e] + rest;
  }
}

/** The client's object: each method is one atomic step of `Lifecycle`. */
module Clients {
  import opened Wrappers
  import opened Lifecycle

  class Runtime {
    var closed: bool
    var order: seq<Key>
    var bindings: map<Key, Binding>
    var pending: map<Key, nat>
    var opens: seq<Opening>
    var waiters: map<Caller, Wait>
    var tasks: set<Caller>
    var finished: set<Caller>
    var closer: Option<Caller>
    var phase: Phase
    ghost var attempts: seq<(Key, Client)>
    ghost var stored: seq<(Key, Client)>

    ghost function Abs(): State
      reads this
    {
      State(closed, order, bindings, pending, opens, waiters, tasks, finished, closer, phase, attempts, stored)
    }

    constructor ()
      ensures Abs() == Registered([]) && Inv(Abs())
    {
      closed, order, bindings, pending, opens, waiters := false, [], map[], map[], [], map[];
      tasks, finished, closer, phase, attempts, stored := {}, {}, None, Open, [], [];
      new;
      RegisteredInv([]);
    }

    method Register(name: Key, client: Option<Client>, owned: bool, ghost before: seq<Registration>)
      requires Abs() == Registered(before)
      modifies this
      ensures Abs() == Registered(before + [Registration(name, client, owned)]) && Inv(Abs())
    {
      ghost var after := before + [Registration(name, client, owned)];
      assert after[..|after| - 1] == before;
      if name !in bindings {
        order := order + [name];
      }
      bindings := bindings[name := Binding(client, owned)];
      RegisteredInv(after);
    }

    /** `binding`, up to its await */
    method Bind(caller: Caller, name: Key, tracked: bool) returns (response: Response)
      requires Inv(Abs()) && caller !in waiters && caller !in finished && name in bindings
      modifies this
      ensures Step(old(Abs()), Enter(caller, name, tracked)) == Some((Abs(), response)) && Inv(Abs())
    {
      hide Inv;
      StepInv(Abs(), Enter(caller, name, tracked));
      if closed {
        if tracked {
          tasks := tasks - {caller};
        }
        return Raised;
      }
      if tracked {
        tasks := tasks + {caller};
      }
      if bindings[name].client.Some? {
        return Returned(bindings[name].client.value);
      }
      if name !in pending {
        pending := pending[name := |opens|];
        opens := opens + [Opening(name, Running)];
      }
      waiters := waiters[caller := Wait(pending[name], tracked)];
      return Suspended;
    }

    /** The end of `open_binding` */
    method OpenSucceeded(task: nat, client: Client)
      requires Inv(Abs()) && task < |opens| && opens[task].status.Running?
      modifies this
      ensures Step(old(Abs()), OpenSucceeds(task, client)) == Some((Abs(), Silent)) && Inv(Abs())
    {
      StepInv(Abs(), OpenSucceeds(task, client));
      var name := opens[task].name;
      opens := opens[task := opens[task].(status := Succeeded(client))];
      bindings := bindings[name := bindings[name].(client := Some(client))];
      stored := stored + [(name, client)];
    }

    method OpenFailed(task: nat)
      requires Inv(Abs()) && task < |opens| && opens[task].status.Running?
      modifies this
      ensures Step(old(Abs()), OpenFails(task)) == Some((Abs(), Silent)) && Inv(Abs())
    {
      StepInv(Abs(), OpenFails(task));
      opens := opens[task := opens[task].(status := Failed)];
    }

    // The exception path of `binding`
    method DropAttempt(task: nat)
      requires task < |opens|
      modifies this`pending
      ensures Abs() == Drop(old(Abs()), task)
    {
      var opening := opens[task];
      if !opening.status.Running? && opening.name in pending && pending[opening.name] == task {
        pending := pending - {opening.name};
      }
    }

    /** `binding`, after its await; `interrupted` when the caller itself was cancelled there */
    method Resumed(caller: Caller, interrupted: bool) returns (response: Response)
      requires Inv(Abs()) && caller in waiters
      requires !interrupted ==> !opens[waiters[caller].task].status.Running?
      modifies this
      ensures Step(old(Abs()), if interrupted then Interrupt(caller) else Resume(caller)) == Some((Abs(), response))
      ensures Inv(Abs())
    {
      ghost var s, e := Abs(), if interrupted then Interrupt(caller) else Resume(caller);
      StepInv(s, e);
      var wait := waiters[caller];
      assert wait.task < |opens| && Step(s, e) == if interrupted then InterruptWaiter(s, caller) else ResumeWaiter(s, caller);
      hide Inv, Step, Drop;
      var status := opens[wait.task].status;
      if interrupted || status.Failed? {
        DropAttempt(wait.task);
        response := Raised;
      } else {
        response := if closed then Raised else Returned(status.client);
      }
      waiters := waiters - {caller};
      if response.Raised? && wait.tracked {
        tasks := tasks - {caller};
      }
    }

    /** The end of `call`, when the method it ran has returned or raised */
    method CallEnded(caller: Caller)
      requires Inv(Abs()) && caller !in waiters && caller in tasks
      modifies this
      ensures Step(old(Abs()), CallEnds(caller)) == Some((Abs(), Silent)) && Inv(Abs())
    {
      StepInv(Abs(), CallEnds(caller));
      tasks := tasks - {caller};
    }

    method TaskEnded(caller: Caller)
      requires Inv(Abs()) && caller !in waiters
      modifies this
      ensures Step(old(Abs()), Finish(caller)) == Some((Abs(), Silent)) && Inv(Abs())
    {
      StepInv(Abs(), Finish(caller));
      finished := finished + {caller};
      tasks := tasks - {caller};
    }

    /** `aclose`, up to its await */
    method Aclose(caller: Option<Caller>)
      requires Inv(Abs())
      modifies this
      ensures Step(old(Abs()), StartClose(caller)) == Some((Abs(), Silent)) && Inv(Abs())
    {
      StepInv(Abs(), StartClose(caller));
      if phase.Open? {
        closed := true;
        closer := caller;
        phase := Starting;
      }
    }

    /** The stretches of `_close` between its awaits */
    method CancelActive()
      requires Inv(Abs()) && phase.Starting?
      modifies this
      ensures Step(old(Abs()), CancelCalls) == Some((Abs(), Silent)) && Inv(Abs())
    {
      StepInv(Abs(), CancelCalls);
      phase := AwaitingCalls(set c | c in tasks && Some(c) != closer);
    }

    method CancelPending()
      requires Inv(Abs()) && phase.AwaitingCalls? && phase.active <= finished
      modifies this
      ensures Step(old(Abs()), CallsGathered) == Some((Abs(), Silent)) && Inv(Abs())
    {
      StepInv(Abs(), CallsGathered);
      phase := AwaitingOpens(set n | n in pending :: pending[n]);
    }

    method ClearPending()
      requires Inv(Abs()) && phase.AwaitingOpens?
      requires forall t :: t in phase.opens && t < |opens| ==> !opens[t].status.Running?
      modifies this
      ensures Step(old(Abs()), OpensGathered) == Some((Abs(), Silent)) && Inv(Abs())
    {
      StepInv(Abs(), OpensGathered);
      pending := map[];
      phase := ClosingClients(0);
    }

    method CloseClient() returns (client: Option<Client>)
      requires Inv(Abs()) && phase.ClosingClients? && phase.next < |order|
      modifies this
      ensures Step(old(Abs()), CloseNext) == Some((Abs(), Silent)) && Inv(Abs())
      ensures attempts == old(attempts) + if client.Some? then [(order[old(phase).next], client.value)] else []
    {
      StepInv(Abs(), CloseNext);
      var name := order[phase.next];
      assert name in bindings && Step(Abs(), CloseNext) == CloseOne(Abs());
      hide Inv, Step;
      client := None;
      if bindings[name].owned && bindings[name].client.Some? {
        client := bindings[name].client;
        attempts := attempts + [(name, client.value)];
      }
      phase := ClosingClients(phase.next + 1);
    }

    method Finished()
      requires Inv(Abs()) && phase == ClosingClients(|order|)
      modifies this
      ensures Step(old(Abs()), EndClose) == Some((Abs(), Silent)) && Inv(Abs())
    {
      StepInv(Abs(), EndClose);
      phase := Done;
    }
  }
}
