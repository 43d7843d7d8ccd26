/**
 When generating twice changes nothing: the condition of `Generation.RunIdempotent` is exact. A run that reads
 a saved contract from where it exports a live one can produce output that the next check rejects.
 */
module Repeating {
  import opened Wrappers
  import opened Paths
  import opened Generation

  // The names select targets, and every selected target has a source.
  ghost predicate Selects(config: Config, names: set<Part>) {
    var selected := Chosen(config.targets, names);
    && selected != [] && names - (set t | t in selected :: t.name) == {}
    && forall t :: t in selected ==> HasSource(config.sources, t)
  }

  ghost predicate HasSource(sources: seq<Source>, target: Target) {
    exists s :: s in sources && s.name in target.sources
  }

  // ----- what a run reads and writes, for any tools

  ghost predicate DistinctNames(sources: seq<Source>) {
    forall i, j :: 0 <= i < j < |sources| ==> sources[i].name != sources[j].name
  }

  ghost predicate DistinctOutputs(sources: seq<Source>) {
    forall i, j :: 0 <= i < j < |sources| && sources[i].output.Some? ==> sources[i].output != sources[j].output
  }

  lemma {:induction false} DocumentRead(
      tools: Tools, inputs: Inputs, files: Files, sources: seq<Source>, needed: set<Part>, i: nat)
    requires DistinctNames(sources) && i < |sources| && sources[i].name in needed
    requires sources[i].input.Some? && sources[i].input.value in files
    requires AddSources(tools, inputs, files, sources, needed).Some?
    ensures var documents := AddSources(tools, inputs, files, sources, needed).value.documents;
            sources[i].name in documents && Some(documents[sources[i].name]) == tools.parse(files[sources[i].input.value])
  {
    if i < |sources| - 1 { DocumentRead(tools, inputs, files, sources[..|sources| - 1], needed, i); }
  }

  lemma {:induction false} ExportWritten(
      tools: Tools, inputs: Inputs, files: Files, sources: seq<Source>, needed: set<Part>, i: nat, document: Document)
    requires DistinctOutputs(sources) && i < |sources| && sources[i].name in needed && !inputs.offline
    requires sources[i].input.None? && sources[i].output.Some?
    requires sources[i].name in inputs.exports && inputs.exports[sources[i].name] == Exported(document)
    requires AddSources(tools, inputs, files, sources, needed).Some?
    ensures var writes := AddSources(tools, inputs, files, sources, needed).value.writes;
            sources[i].output.value in writes && writes[sources[i].output.value] == tools.dump(document)
  {
    if i < |sources| - 1 { ExportWritten(tools, inputs, files, sources[..|sources| - 1], needed, i, document); }
  }

  lemma {:induction false} InputsOf(
      sources: seq<Source>, target: Target, documents: map<Part, Document>, s: Source, d: Document)
    ensures (s, d) in TargetInputs(sources, target, documents) <==>
            s in sources && s.name in target.sources && s.name in documents && documents[s.name] == d
  {
    if sources != [] { InputsOf(sources[1..], target, documents, s, d); }
  }

  // What a run renders for its `k`-th target is what it plans to write there.
  lemma {:induction false} RenderedWritten(
      tools: Tools, files: Files, sources: seq<Source>, targets: seq<Target>, plan: Plan, k: nat, name: Path)
    requires TargetsApart(targets)
    requires OutsideTargets(plan, targets) && plan.writes.Keys !! plan.deletes && k < |targets|
    requires AddTargets(tools, files, sources, targets, plan).Some?
    requires Rendered(tools, sources, targets[k], plan.documents).Some?
    requires name in Rendered(tools, sources, targets[k], plan.documents).value
    ensures var writes := AddTargets(tools, files, sources, targets, plan).value.writes;
            targets[k].output + name in writes
            && writes[targets[k].output + name] == Rendered(tools, sources, targets[k], plan.documents).value[name]
    decreases |targets|
  {
    var last := |targets| - 1;
    var p := targets[k].output + name;
    assert p[..|targets[k].output|] == targets[k].output && p[|targets[k].output|..] == name;
    OutsideFewer(plan, targets);
    hide OutsideTargets, BelowSome, Owned, Placed, Stale, TargetsApart, Nested, AddTarget, Rendered;
    TargetsDisjoint(tools, files, sources, targets[..last], plan);
    var before := AddTargets(tools, files, sources, targets[..last], plan).value;
    if k == last {
      RenderedByTarget(tools, files, sources, targets[last], before, name);
    } else {
      RenderedWritten(tools, files, sources, targets[..last], plan, k, name);
      BelowAt(targets[..last], k, p);
      NotBelowLast(targets, p);
      TargetTouches(tools, files, sources, targets[last], before, p);
    }
  }

  lemma RenderedByTarget(tools: Tools, files: Files, sources: seq<Source>, target: Target, plan: Plan, name: Path)
    requires AddTarget(tools, files, sources, target, plan).Some?
    requires Rendered(tools, sources, target, plan.documents).Some?
    requires name in Rendered(tools, sources, target, plan.documents).value
    ensures var writes := AddTarget(tools, files, sources, target, plan).value.writes;
            target.output + name in writes
            && writes[target.output + name] == Rendered(tools, sources, target, plan.documents).value[name]
  {
    var p := target.output + name;
    assert p[..|target.output|] == target.output && p[|target.output|..] == name;
    PlacedAt(target, Rendered(tools, sources, target, plan.documents).value, p);
    ManifestAt(target);
    hide Placed, Stale, Owned, TargetInputs, ManifestPath;
  }

  // ----- a run that cannot be repeated

  const OLD := "old"
  const NEW := "new"
  const FILE: Path := [Part("f")]

  predicate ReadsNew(inputs: seq<(Source, Document)>, s: Source) {
    (s, Document(NEW)) in inputs
  }

  // Tools whose output tells whether `s` was read before or after it was overwritten.
  function Telling(s: Source): Tools {
    Tools(
      (c: Content) => if c.Text? then Some(Document(c.text)) else None,
      (d: Document) => Text(d.text),
      (inputs: seq<(Source, Document)>, target: Target) => Some(map[FILE := Text(if ReadsNew(inputs, s) then NEW else OLD)]),
      (inputs: seq<(Source, Document)>, target: Target, names: set<Path>) => Manifest(names, ""),
      (c: Content) => if c.Manifest? then Some(c.names) else None,
      (p: Path) => true)
  }

  function SavedPaths(config: Config): set<Path> {
    set s | s in config.sources && s.input.Some? :: s.input.value
  }

  function Saved(config: Config): Files {
    map p | p in SavedPaths(config) :: Text(OLD)
  }

  function SourceNames(config: Config): set<Part> {
    set s | s in config.sources :: s.name
  }

  function AllExported(config: Config): Inputs {
    Inputs(map n | n in SourceNames(config) :: Exported(Document(NEW)), false)
  }

  lemma {:induction false} SourcesLoad(s: Source, config: Config, sources: seq<Source>, needed: set<Part>)
    requires forall x :: x in sources ==> x in config.sources && (x.input.Some? <==> x.output.None?)
    ensures var plan := AddSources(Telling(s), AllExported(config), Saved(config), sources, needed);
            && plan.Some? && plan.value.deletes == {}
            && forall x :: x in sources && x.name in needed ==> x.name in plan.value.documents
  {
    if sources != [] {
      var last := |sources| - 1;
      SourcesLoad(s, config, sources[..last], needed);
      var x := sources[last];
      assert x in sources;
      if x.input.Some? { assert x.input.value in Saved(config); }
    }
  }

  // Nothing is saved below a target.
  ghost predicate NothingBelow(files: Files, targets: seq<Target>) {
    forall p :: p in files ==> !BelowSome(targets, p)
  }

  lemma {:induction false} TargetsRun(s: Source, config: Config, targets: seq<Target>, plan: Plan)
    requires NothingBelow(Saved(config), targets)
    requires forall t :: t in targets ==> TargetInputs(config.sources, t, plan.documents) != []
    ensures var next := AddTargets(Telling(s), Saved(config), config.sources, targets, plan);
            next.Some? && next.value.documents == plan.documents && next.value.deletes == plan.deletes
    decreases |targets|
  {
    if targets != [] {
      var last := |targets| - 1;
      forall p ensures BelowSome(targets[..last], p) ==> BelowSome(targets, p) { BelowMore(targets, p); }
      TargetsRun(s, config, targets[..last], plan);
      var before := AddTargets(Telling(s), Saved(config), config.sources, targets[..last], plan).value;
      TargetRuns(s, config, targets[last], before);
    }
  }

  lemma TargetRuns(s: Source, config: Config, target: Target, plan: Plan)
    requires forall p :: p in Saved(config) ==> !Under(p, target.output)
    requires TargetInputs(config.sources, target, plan.documents) != []
    ensures var next := AddTarget(Telling(s), Saved(config), config.sources, target, plan);
            next.Some? && next.value.documents == plan.documents && next.value.deletes == plan.deletes
  {
    ManifestAt(target);
    var p := target.output + FILE;
    assert p[..|target.output|] == target.output;
    assert Part("f") != MANIFEST;
    assert Owned(Telling(s), Saved(config), target) == Some({});
  }

  // The two sources whose paths meet, and what a run does with them.
  ghost predicate Clash(config: Config, names: set<Part>, s: Source, t: Source) {
    && s in config.sources && t in config.sources && Shares(s, t, NeededBy(Chosen(config.targets, names)))
    && s.input == t.output
  }

  lemma FirstRun(config: Config, names: set<Part>, s: Source) returns (sources: Plan, all: Plan)
    requires Separated(config) && Named(config) && Selects(config, names)
    ensures var selected := Chosen(config.targets, names);
            && AddSources(Telling(s), AllExported(config), Saved(config), config.sources, NeededBy(selected)) == Some(sources)
            && AddTargets(Telling(s), Saved(config), config.sources, selected, sources) == Some(all)
            && MakePlan(Telling(s), AllExported(config), config, names, Saved(config)) == Some(all)
            && all.deletes == {} && sources.deletes == {}
  {
    var selected := Chosen(config.targets, names);
    ChosenFrom(config.targets, names);
    SourcesLoad(s, config, config.sources, NeededBy(selected));
    sources := AddSources(Telling(s), AllExported(config), Saved(config), config.sources, NeededBy(selected)).value;
    SavedElsewhere(config, selected);
    forall t | t in selected ensures TargetInputs(config.sources, t, sources.documents) != [] {
      assert HasSource(config.sources, t);
      var x :| x in config.sources && x.name in t.sources;
      InputsOf(config.sources, t, sources.documents, x, sources.documents[x.name]);
    }
    TargetsRun(s, config, selected, sources);
    all := AddTargets(Telling(s), Saved(config), config.sources, selected, sources).value;
  }

  lemma SavedElsewhere(config: Config, selected: seq<Target>)
    requires Separated(config) && forall t :: t in selected ==> t in config.targets
    requires forall s :: s in config.sources ==> (s.input.Some? <==> s.output.None?)
    ensures NothingBelow(Saved(config), selected)
  {
    forall p | p in Saved(config) ensures !BelowSome(selected, p) {
      var s :| s in config.sources && s.input == Some(p);
      assert ContractPath(s) == Some(p);
    }
  }

  lemma {:induction false} WritesKept(
      tools: Tools, files: Files, sources: seq<Source>, targets: seq<Target>, plan: Plan, p: Path)
    requires p in plan.writes && !BelowSome(targets, p) && AddTargets(tools, files, sources, targets, plan).Some?
    ensures var writes := AddTargets(tools, files, sources, targets, plan).value.writes;
            p in writes && writes[p] == plan.writes[p]
    decreases |targets|
  {
    if targets != [] {
      var last := |targets| - 1;
      BelowMore(targets, p);
      WritesKept(tools, files, sources, targets[..last], plan, p);
      TargetParts(tools, files, sources, targets[last], AddTargets(tools, files, sources, targets[..last], plan).value);
    }
  }

  lemma ReadTells(config: Config, s: Source, files: Files, needed: set<Part>, target: Target, read: string)
    requires Named(config) && s in config.sources && s.input.Some? && s.name in needed && s.name in target.sources
    requires s.input.value in files && files[s.input.value] == Text(read)
    requires AddSources(Telling(s), AllExported(config), files, config.sources, needed).Some?
    ensures var documents := AddSources(Telling(s), AllExported(config), files, config.sources, needed).value.documents;
            Rendered(Telling(s), config.sources, target, documents) == Some(map[FILE := Text(if read == NEW then NEW else OLD)])
  {
    var i :| 0 <= i < |config.sources| && config.sources[i] == s;
    DocumentRead(Telling(s), AllExported(config), files, config.sources, needed, i);
    var documents := AddSources(Telling(s), AllExported(config), files, config.sources, needed).value.documents;
    InputsOf(config.sources, target, documents, s, Document(NEW));
  }

  // What a run plans for the output of a target that reads `s` tells what it read.
  lemma PlannedOutput(config: Config, names: set<Part>, s: Source, k: nat, files: Files, read: string) returns (all: Plan)
    requires Separated(config) && Named(config) && s in config.sources && s.input.Some?
    requires s.input.value in files && files[s.input.value] == Text(read)
    requires k < |Chosen(config.targets, names)| && s.name in Chosen(config.targets, names)[k].sources
    requires MakePlan(Telling(s), AllExported(config), config, names, files).Some?
    ensures Some(all) == MakePlan(Telling(s), AllExported(config), config, names, files)
    ensures var p := Chosen(config.targets, names)[k].output + FILE;
            p in all.writes && all.writes[p] == Text(if read == NEW then NEW else OLD)
  {
    var selected := Chosen(config.targets, names);
    var needed := NeededBy(selected);
    ChosenFrom(config.targets, names);
    var plan := AddSources(Telling(s), AllExported(config), files, config.sources, needed).value;
    all := AddTargets(Telling(s), files, config.sources, selected, plan).value;
    SourcesTouchOutputs(Telling(s), AllExported(config), files, config.sources, needed);
    SourcesOutside(config, selected, plan);
    assert selected[k] in selected;
    ReadTells(config, s, files, needed, selected[k], read);
    RenderedWritten(Telling(s), files, config.sources, selected, plan, k, FILE);
  }

  lemma ExportNew(config: Config, names: set<Part>, s: Source, t: Source)
    requires Separated(config) && Named(config) && Clash(config, names, s, t)
    requires var needed := NeededBy(Chosen(config.targets, names));
             AddSources(Telling(s), AllExported(config), Saved(config), config.sources, needed).Some?
    ensures var needed := NeededBy(Chosen(config.targets, names));
            var writes := AddSources(Telling(s), AllExported(config), Saved(config), config.sources, needed).value.writes;
            s.input.value in writes && writes[s.input.value] == Text(NEW)
  {
    var needed := NeededBy(Chosen(config.targets, names));
    var j :| 0 <= j < |config.sources| && config.sources[j] == t;
    ExportWritten(Telling(s), AllExported(config), Saved(config), config.sources, needed, j, Document(NEW));
  }

  // What a run leaves where `t` is exported to.
  lemma Overwritten(config: Config, names: set<Part>, s: Source, t: Source)
    requires Separated(config) && Named(config) && Selects(config, names) && Clash(config, names, s, t)
    ensures MakePlan(Telling(s), AllExported(config), config, names, Saved(config)).Some?
    ensures var all := MakePlan(Telling(s), AllExported(config), config, names, Saved(config)).value;
            all.deletes == {} && s.input.value in all.writes && all.writes[s.input.value] == Text(NEW)
  {
    var selected := Chosen(config.targets, names);
    var plan, all := FirstRun(config, names, s);
    ChosenFrom(config.targets, names);
    SourcesTouchOutputs(Telling(s), AllExported(config), Saved(config), config.sources, NeededBy(selected));
    SourcesOutside(config, selected, plan);
    ExportNew(config, names, s, t);
    hide AddSources, AddTargets, Telling, Saved, AllExported, ContractOutput;
    assert !BelowSome(selected, s.input.value);
    WritesKept(Telling(s), Saved(config), config.sources, selected, plan, s.input.value);
  }

  lemma ClashShows(config: Config, names: set<Part>, s: Source, t: Source)
    requires Separated(config) && Named(config) && Selects(config, names) && Clash(config, names, s, t)
    ensures !Idempotent(Telling(s), AllExported(config), config, names, Saved(config))
  {
    var selected := Chosen(config.targets, names);
    var k :| 0 <= k < |selected| && s.name in selected[k].sources;
    var p := selected[k].output + FILE;
    Overwritten(config, names, s, t);
    assert s.input.value in SavedPaths(config);
    var all := PlannedOutput(config, names, s, k, Saved(config), OLD);
    var after := Applied(all, Saved(config));
    assert after[s.input.value] == Text(NEW) && after[p] == Text(OLD);
    if MakePlan(Telling(s), AllExported(config), config, names, after).Some? {
      var again := PlannedOutput(config, names, s, k, after, NEW);
      assert p in Changed(again, after);
    }
  }

  // Every successful run of these targets can be repeated without changes.
  ghost predicate AlwaysIdempotent(config: Config, names: set<Part>, offline: bool) {
    forall tools: Tools, inputs: Inputs, files: Files ::
      Readable(tools) && inputs.offline == offline ==> Idempotent(tools, inputs, config, names, files)
  }

  /** Generating again changes nothing, whatever the files, contracts and tools, exactly when no saved contract
      that is needed is read from where a needed live one is exported to, or nothing is exported at all. */
  lemma IdempotentExactly(config: Config, names: set<Part>, offline: bool)
    requires Separated(config) && Named(config) && Selects(config, names)
    ensures AlwaysIdempotent(config, names, offline) <==> Repeatable(config, names, offline)
  {
    if Repeatable(config, names, offline) {
      forall tools: Tools, inputs: Inputs, files: Files | Readable(tools) && inputs.offline == offline
        ensures Idempotent(tools, inputs, config, names, files)
      {
        RunIdempotent(tools, inputs, config, names, files);
      }
    } else {
      var s, t :| s in config.sources && t in config.sources
                  && Shares(s, t, NeededBy(Chosen(config.targets, names))) && s.input == t.output;
      ClashShows(config, names, s, t);
      assert Readable(Telling(s));
      assert AllExported(config).offline == offline;
    }
  }
}
