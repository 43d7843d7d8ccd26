/**
 Writing generated files with tracked ownership: the path checks of `fastapi_canon/codegen/config.py` and
 the run of `fastapi_canon/codegen/generate.py`. The file system is a map from paths to contents.
 */
module Generation {
  import opened Wrappers
  import opened Paths

  // The content of a file: a manifest with the names that it lists, or any other text.
  datatype Content = Text(text: string) | Manifest(names: set<Path>, rest: string)
  datatype Document = Document(text: string)
  type Files = map<Path, Content>

  const MANIFEST := Part(".canon-codegen.json")

  // Exactly one of `input` (a saved contract) and `output` (where a live one is exported to) is given.
  datatype Source = Source(name: Part, input: Option<Path>, output: Option<Path>, optional: bool)

  datatype Target = Target(name: Part, sources: set<Part>, output: Path)

  datatype Config = Config(sources: seq<Source>, targets: seq<Target>)

  // ----- path separation

  function ContractPath(s: Source): Option<Path> {
    if s.output.Some? then s.output else s.input
  }

  predicate Nested(a: Path, b: Path) {
    Under(a, b) || Under(b, a)
  }

  ghost predicate TargetsApart(targets: seq<Target>) {
    forall i, j :: 0 <= i < j < |targets| ==> !Nested(targets[i].output, targets[j].output)
  }

  ghost predicate Separated(config: Config) {
    && TargetsApart(config.targets)
    && (forall t, s :: t in config.targets && s in config.sources && ContractPath(s).Some? ==>
          !Under(ContractPath(s).value, t.output))
    && (forall i, j :: 0 <= i < j < |config.sources| && config.sources[i].output.Some? ==>
          config.sources[i].output != config.sources[j].output)
  }

  // The table keys that name sources are distinct.
  ghost predicate Named(config: Config) {
    && (forall i, j :: 0 <= i < j < |config.sources| ==> config.sources[i].name != config.sources[j].name)
    && (forall s :: s in config.sources ==> (s.input.Some? <==> s.output.None?))
  }

  /** The path checks of `load_config` */
  method CheckPaths(config: Config) returns (ok: bool)
    ensures ok <==> Separated(config)
  {
    for index := 0 to |config.targets|
      invariant forall i, j :: 0 <= i < index && i < j < |config.targets| ==>
                  !Nested(config.targets[i].output, config.targets[j].output)
      invariant forall i, s :: 0 <= i < index && s in config.sources && ContractPath(s).Some? ==>
                  !Under(ContractPath(s).value, config.targets[i].output)
    {
      var output := config.targets[index].output;
      if exists j :: index < j < |config.targets| && Nested(output, config.targets[j].output) {
        return false;
      }
      if exists s :: s in config.sources && ContractPath(s).Some? && Under(ContractPath(s).value, output) {
        ghost var s :| s in config.sources && ContractPath(s).Some? && Under(ContractPath(s).value, output);
        assert config.targets[index] in config.targets;
        return false;
      }
    }
    assert forall t, s :: t in config.targets && s in config.sources && ContractPath(s).Some? ==>
             !Under(ContractPath(s).value, t.output) by {
      forall t, s | t in config.targets && s in config.sources && ContractPath(s).Some?
        ensures !Under(ContractPath(s).value, t.output)
      {
        var i :| 0 <= i < |config.targets| && config.targets[i] == t;
      }
    }
    ok := !exists i, j :: 0 <= i < j < |config.sources| && config.sources[i].output.Some?
                          && config.sources[i].output == config.sources[j].output;
  }

  // ----- what a run plans

  datatype Export = Exported(document: Document) | NotRegistered | Failed

  // The reading, printing and rendering that a run relies on, all functions of their arguments.
  datatype Tools = Tools(
    parse: Content -> Option<Document>,
    dump: Document -> Content,
    render: (seq<(Source, Document)>, Target) -> Option<map<Path, Content>>,
    manifest: (seq<(Source, Document)>, Target, set<Path>) -> Content,
    owned: Content -> Option<set<Path>>,
    acceptable: Path -> bool)

  // A manifest that was written lists the files it was written for.
  ghost predicate Readable(tools: Tools) {
    forall inputs, target, names :: tools.owned(tools.manifest(inputs, target, names)) == Some(names)
  }

  // `_safe`; `acceptable` stands for its rules about the parts of a name.
  predicate Safe(tools: Tools, name: Path) {
    name != [] && name != [MANIFEST] && tools.acceptable(name)
  }

  // Which contracts can be exported, and whether to export at all.
  datatype Inputs = Inputs(exports: map<Part, Export>, offline: bool)

  datatype Loaded = Loaded(document: Document, write: Option<Path>) | Skipped(delete: Option<Path>) | Unusable

  function Load(tools: Tools, inputs: Inputs, files: Files, s: Source): Loaded {
    if s.input.Some? || inputs.offline then
      var path := if s.input.Some? then s.input else s.output;
      if path.None? then Unusable
      else if path.value !in files then (if s.optional then Skipped(None) else Unusable)
      else
        match tools.parse(files[path.value])
        case None => Unusable
        case Some(document) => Loaded(document, None)
    else if s.output.None? || s.name !in inputs.exports then Unusable
    else
      match inputs.exports[s.name]
      case Exported(document) => Loaded(document, s.output)
      case NotRegistered => if s.optional then Skipped(s.output) else Unusable
      case Failed => Unusable
  }

  // What has been decided so far: documents read, files to write, files to delete.
  datatype Plan = Plan(documents: map<Part, Document>, writes: Files, deletes: set<Path>)

  function AddSource(tools: Tools, inputs: Inputs, files: Files, s: Source, plan: Plan): Option<Plan> {
    match Load(tools, inputs, files, s)
    case Unusable => None
    case Skipped(delete) =>
      Some(plan.(deletes := plan.deletes + if delete.Some? then {delete.value} else {}))
    case Loaded(document, write) =>
      Some(plan.(documents := plan.documents[s.name := document],
                 writes := if write.Some? then plan.writes[write.value := tools.dump(document)] else plan.writes))
  }

  function AddSources(tools: Tools, inputs: Inputs, files: Files, sources: seq<Source>, needed: set<Part>): Option<Plan> {
    if sources == [] then Some(Plan(map[], map[], {}))
    else
      var last := |sources| - 1;
      match AddSources(tools, inputs, files, sources[..last], needed)
      case None => None
      case Some(plan) =>
        if sources[last].name in needed then AddSource(tools, inputs, files, sources[last], plan) else Some(plan)
  }

  function TargetInputs(sources: seq<Source>, target: Target, documents: map<Part, Document>): seq<(Source, Document)> {
    if sources == [] then []
    else
      (if sources[0].name in target.sources && sources[0].name in documents
       then [(sources[0], documents[sources[0].name])] else [])
      + TargetInputs(sources[1..], target, documents)
  }

  function ManifestPath(target: Target): Path {
    target.output + [MANIFEST]
  }

  // The files that the target's manifest lists; `None` for a manifest that cannot be trusted.
  function Owned(tools: Tools, files: Files, target: Target): Option<set<Path>> {
    if ManifestPath(target) !in files then Some({})
    else
      match tools.owned(files[ManifestPath(target)])
      case None => None
      case Some(names) => if forall name :: name in names ==> Safe(tools, name) then Some(names) else None
  }

  function Placed(target: Target, rendered: map<Path, Content>): Files {
    map p | p in (set name | name in rendered :: target.output + name) && |target.output| <= |p|
            && p[|target.output|..] in rendered :: rendered[p[|target.output|..]]
  }

  function Stale(target: Target, owned: set<Path>, rendered: map<Path, Content>): set<Path> {
    set name | name in owned - rendered.Keys :: target.output + name
  }

  function AddTarget(tools: Tools, files: Files, sources: seq<Source>, target: Target, plan: Plan): Option<Plan> {
    var inputs := TargetInputs(sources, target, plan.documents);
    if inputs == [] then None
    else
      match tools.render(inputs, target)
      case None => None
      case Some(rendered) =>
        match Owned(tools, files, target)
        case None => None
        case Some(owned) =>
          if exists name :: name in rendered && (!Safe(tools, name) || (target.output + name in files && name !in owned))
          then None
          else
            Some(plan.(
              writes := (plan.writes + Placed(target, rendered))
                        [ManifestPath(target) := tools.manifest(inputs, target, rendered.Keys)],
              deletes := plan.deletes + Stale(target, owned, rendered)))
  }

  function AddTargets(tools: Tools, files: Files, sources: seq<Source>, targets: seq<Target>, plan: Plan): Option<Plan> {
    if targets == [] then Some(plan)
    else
      var last := |targets| - 1;
      match AddTargets(tools, files, sources, targets[..last], plan)
      case None => None
      case Some(next) => AddTarget(tools, files, sources, targets[last], next)
  }

  function Chosen(targets: seq<Target>, names: set<Part>): seq<Target> {
    if targets == [] then []
    else
      Chosen(targets[..|targets| - 1], names) +
      if names == {} || targets[|targets| - 1].name in names then [targets[|targets| - 1]] else []
  }

  function NeededBy(targets: seq<Target>): set<Part> {
    set t, s | t in targets && s in t.sources :: s
  }

  // Everything up to the comparison with the file system.
  function MakePlan(tools: Tools, inputs: Inputs, config: Config, names: set<Part>, files: Files): Option<Plan> {
    var selected := Chosen(config.targets, names);
    if selected == [] || names - (set t | t in selected :: t.name) != {} then None
    else
      match AddSources(tools, inputs, files, config.sources, NeededBy(selected))
      case None => None
      case Some(plan) => AddTargets(tools, files, config.sources, selected, plan)
  }

  function Changed(plan: Plan, files: Files): set<Path> {
    (set p | p in plan.writes && (p !in files || files[p] != plan.writes[p]))
    + (set p | p in plan.deletes && p in files)
  }

  function Applied(plan: Plan, files: Files): Files {
    (files + plan.writes) - plan.deletes
  }

  // ----- the run

  datatype Result = Done(changed: bool) | Rejected

  class Disk {
    var files: Files

    constructor (files: Files)
      ensures this.files == files
    {
      this.files := files;
    }
  }

  method LoadSources(tools: Tools, inputs: Inputs, files: Files, sources: seq<Source>, needed: set<Part>)
      returns (plan: Option<Plan>)
    ensures plan == AddSources(tools, inputs, files, sources, needed)
  {
    var documents: map<Part, Document>, writes: Files, deletes: set<Path> := map[], map[], {};
    for i := 0 to |sources|
      invariant AddSources(tools, inputs, files, sources[..i], needed) == Some(Plan(documents, writes, deletes))
    {
      var s := sources[i];
      assert sources[..i + 1][..i] == sources[..i];
      if s.name in needed {
        var loaded := Load(tools, inputs, files, s);
        match loaded {
          case Unusable =>
            FailsLater(tools, inputs, files, sources, needed, i + 1);
            return None;
          case Skipped(delete) =>
            if delete.Some? {
              deletes := deletes + {delete.value};
            } else {
              assert deletes + {} == deletes;
            }
          case Loaded(document, write) =>
            documents := documents[s.name := document];
            if write.Some? {
              writes := writes[write.value := tools.dump(document)];
            }
        }
      }
    }
    assert sources[..|sources|] == sources;
    return Some(Plan(documents, writes, deletes));
  }

  lemma {:induction false} FailsLater(
      tools: Tools, inputs: Inputs, files: Files, sources: seq<Source>, needed: set<Part>, i: nat)
    requires i <= |sources| && AddSources(tools, inputs, files, sources[..i], needed).None?
    ensures AddSources(tools, inputs, files, sources, needed).None?
    decreases |sources| - i
  {
    if i < |sources| {
      assert sources[..i + 1][..i] == sources[..i];
      FailsLater(tools, inputs, files, sources, needed, i + 1);
    } else {
      assert sources[..i] == sources;
    }
  }

  method PlanTargets(tools: Tools, files: Files, sources: seq<Source>, targets: seq<Target>, start: Plan)
      returns (plan: Option<Plan>)
    ensures plan == AddTargets(tools, files, sources, targets, start)
  {
    hide AddTarget;
    plan := Some(start);
    for i := 0 to |targets|
      invariant plan == AddTargets(tools, files, sources, targets[..i], start)
    {
      assert targets[..i + 1][..i] == targets[..i];
      if plan.Some? {
        plan := AddTarget(tools, files, sources, targets[i], plan.value);
      }
    }
    assert targets[..|targets|] == targets;
  }

  /** `_generate` */
  method Generate(tools: Tools, inputs: Inputs, config: Config, names: set<Part>, disk: Disk, check: bool)
      returns (r: Result)
    requires Separated(config) && Named(config) && Readable(tools)
    modifies disk
    ensures match MakePlan(tools, inputs, config, names, old(disk.files))
            case None => r == Rejected && disk.files == old(disk.files)
            case Some(plan) =>
              && r == Done(Changed(plan, old(disk.files)) != {})
              && disk.files == if check then old(disk.files) else Applied(plan, old(disk.files))
  {
    var selected := Chosen(config.targets, names);
    if selected == [] || names - (set t | t in selected :: t.name) != {} {
      return Rejected;
    }
    var loaded := LoadSources(tools, inputs, disk.files, config.sources, NeededBy(selected));
    if loaded.None? {
      return Rejected;
    }
    var plan := PlanTargets(tools, disk.files, config.sources, selected, loaded.value);
    if plan.None? {
      return Rejected;
    }
    PlanDisjoint(tools, inputs, config, names, disk.files);
    var changed := Changed(plan.value, disk.files);
    if !check {
      Apply(plan.value, changed, disk);
    }
    return Done(changed != {});
  }

  /** The writing part of a run: delete or write every changed path. */
  method Apply(plan: Plan, changed: set<Path>, disk: Disk)
    requires plan.writes.Keys !! plan.deletes && changed == Changed(plan, disk.files)
    modifies disk
    ensures disk.files == Applied(plan, old(disk.files))
  {
    ghost var before := disk.files;
    var left := changed;
    while left != {}
      invariant left <= changed
      invariant forall p :: p in left || p !in changed ==>
                  (p in disk.files <==> p in before) && (p in before ==> disk.files[p] == before[p])
      invariant forall p :: p in changed - left ==>
                  if p in plan.deletes then p !in disk.files else p in disk.files && disk.files[p] == plan.writes[p]
      decreases left
    {
      var p :| p in left;
      if p in plan.deletes {
        disk.files := disk.files - {p};
      } else {
        disk.files := disk.files[p := plan.writes[p]];
      }
      left := left - {p};
    }
    AppliedChanges(plan, before, disk.files);
  }

  lemma AppliedChanges(plan: Plan, before: Files, after: Files)
    requires plan.writes.Keys !! plan.deletes
    requires forall p :: p !in Changed(plan, before) ==>
            (p in after <==> p in before) && (p in before ==> after[p] == before[p])
    requires forall p :: p in Changed(plan, before) ==>
               if p in plan.deletes then p !in after else p in plan.writes && p in after && after[p] == plan.writes[p]
    ensures after == Applied(plan, before)
  {
    forall p
      ensures p in after <==> p in Applied(plan, before)
      ensures p in after ==> after[p] == Applied(plan, before)[p]
    {
      if p !in Changed(plan, before) {
        assert p in plan.writes ==> p in before && before[p] == plan.writes[p];
      }
    }
  }

  // ----- where a plan writes and deletes

  // A path that a plan may touch on behalf of a source or a target.
  ghost predicate ContractOutput(sources: seq<Source>, needed: set<Part>, p: Path) {
    exists s :: s in sources && s.name in needed && s.output == Some(p)
  }

  lemma PlacedAt(target: Target, rendered: map<Path, Content>, p: Path)
    ensures p in Placed(target, rendered) <==> Under(p, target.output) && p[|target.output|..] in rendered
    ensures p in Placed(target, rendered) ==> Placed(target, rendered)[p] == rendered[p[|target.output|..]]
  {
    if Under(p, target.output) && p[|target.output|..] in rendered {
      assert target.output + p[|target.output|..] == p;
    }
    if name :| name in rendered && p == target.output + name {
      assert p[..|target.output|] == target.output && p[|target.output|..] == name;
    }
  }

  lemma StaleAt(target: Target, owned: set<Path>, rendered: map<Path, Content>, p: Path)
    ensures p in Stale(target, owned, rendered) <==>
            Under(p, target.output) && p[|target.output|..] in owned && p[|target.output|..] !in rendered
  {
    if Under(p, target.output) && p[|target.output|..] in owned - rendered.Keys {
      assert target.output + p[|target.output|..] == p;
    }
    if name :| name in owned - rendered.Keys && p == target.output + name {
      assert p[..|target.output|] == target.output && p[|target.output|..] == name;
    }
  }

  lemma ManifestAt(target: Target)
    ensures Under(ManifestPath(target), target.output) && ManifestPath(target)[|target.output|..] == [MANIFEST]
  {
    assert ManifestPath(target)[..|target.output|] == target.output;
  }

  // What `AddTarget` adds lies below the target, and no path is both written and deleted by it.
  lemma TargetParts(tools: Tools, files: Files, sources: seq<Source>, target: Target, plan: Plan)
    requires AddTarget(tools, files, sources, target, plan).Some?
    ensures var inputs := TargetInputs(sources, target, plan.documents);
            var next := AddTarget(tools, files, sources, target, plan).value;
            var rendered := tools.render(inputs, target).value;
            var owned := Owned(tools, files, target).value;
            && next.documents == plan.documents
            && (forall p :: p in next.writes <==>
                    p in plan.writes || p == ManifestPath(target) || p in Placed(target, rendered))
            && (forall p :: p in next.deletes <==> p in plan.deletes || p in Stale(target, owned, rendered))
            && (forall p :: p in next.writes && p !in plan.writes ==> Under(p, target.output))
            && (forall p :: p in next.deletes && p !in plan.deletes ==> Under(p, target.output))
            && (forall p :: p in Stale(target, owned, rendered) ==> p != ManifestPath(target) && p !in Placed(target, rendered))
            && (forall p :: p in next.writes && !Under(p, target.output) ==>
                    p in plan.writes && next.writes[p] == plan.writes[p])
  {
    var inputs := TargetInputs(sources, target, plan.documents);
    var rendered := tools.render(inputs, target).value;
    var owned := Owned(tools, files, target).value;
    ManifestAt(target);
    forall p
      ensures p in Placed(target, rendered) ==> Under(p, target.output)
      ensures p in Stale(target, owned, rendered) ==>
                Under(p, target.output) && p != ManifestPath(target) && p !in Placed(target, rendered)
    {
      PlacedAt(target, rendered, p);
      StaleAt(target, owned, rendered, p);
      if p in Stale(target, owned, rendered) { assert Safe(tools, p[|target.output|..]); }
    }
  }

  ghost predicate BelowSome(targets: seq<Target>, p: Path) {
    exists t :: t in targets && Under(p, t.output)
  }

  lemma {:induction false} SourcesTouchOutputs(
      tools: Tools, inputs: Inputs, files: Files, sources: seq<Source>, needed: set<Part>)
    requires AddSources(tools, inputs, files, sources, needed).Some?
    requires forall i, j :: 0 <= i < j < |sources| && sources[i].output.Some? ==> sources[i].output != sources[j].output
    ensures var plan := AddSources(tools, inputs, files, sources, needed).value;
            && (forall p :: p in plan.writes || p in plan.deletes ==> ContractOutput(sources, needed, p))
            && plan.writes.Keys !! plan.deletes
            && (inputs.offline ==> plan.writes == map[] && plan.deletes == {})
  {
    if sources != [] {
      var last := |sources| - 1;
      SourcesTouchOutputs(tools, inputs, files, sources[..last], needed);
      var before := AddSources(tools, inputs, files, sources[..last], needed).value;
      forall p ensures ContractOutput(sources[..last], needed, p) ==>
                         ContractOutput(sources, needed, p) && sources[last].output != Some(p)
      {
        OutputOfLast(sources, needed, p);
      }
      assert sources[last].output.Some? && sources[last].name in needed ==>
               ContractOutput(sources, needed, sources[last].output.value) by {
        assert sources[last] in sources;
      }
      hide ContractOutput, AddSource;
      if sources[last].name in needed { SourceTouches(tools, inputs, files, sources[last], before); }
    }
  }

  // A source only touches its own output, and in one way.
  lemma SourceTouches(tools: Tools, inputs: Inputs, files: Files, s: Source, plan: Plan)
    requires AddSource(tools, inputs, files, s, plan).Some?
    ensures var next := AddSource(tools, inputs, files, s, plan).value;
            && (forall p :: p in next.writes && p !in plan.writes ==> s.output == Some(p))
            && (forall p :: p in next.deletes && p !in plan.deletes ==> s.output == Some(p))
            && (next.writes.Keys == plan.writes.Keys || next.deletes == plan.deletes)
            && (inputs.offline ==> next.writes == plan.writes && next.deletes == plan.deletes)
  {
  }

  // No earlier source writes where the last one does.
  lemma OutputOfLast(sources: seq<Source>, needed: set<Part>, p: Path)
    requires sources != []
    requires forall i, j :: 0 <= i < j < |sources| && sources[i].output.Some? ==> sources[i].output != sources[j].output
    ensures var last := |sources| - 1;
            ContractOutput(sources[..last], needed, p) ==>
              ContractOutput(sources, needed, p) && sources[last].output != Some(p)
  {
    if s :| s in sources[..|sources| - 1] && s.name in needed && s.output == Some(p) {
      assert s in sources;
    }
  }

  lemma {:induction false} ChosenFrom(targets: seq<Target>, names: set<Part>)
    ensures forall t :: t in Chosen(targets, names) ==> t in targets && (names == {} || t.name in names)
    ensures TargetsApart(targets) ==> TargetsApart(Chosen(targets, names))
  {
    if targets != [] {
      ChosenFrom(targets[..|targets| - 1], names);
    }
  }

  lemma BelowAt(targets: seq<Target>, k: nat, p: Path)
    requires k < |targets| && Under(p, targets[k].output)
    ensures BelowSome(targets, p)
  {
    assert targets[k] in targets;
  }

  ghost predicate OutsideTargets(plan: Plan, targets: seq<Target>) {
    forall p :: p in plan.writes || p in plan.deletes ==> !BelowSome(targets, p)
  }

  // Targets that come later do not reach what lies below an earlier one, or outside them all.
  lemma NotBelowLast(targets: seq<Target>, p: Path)
    requires TargetsApart(targets)
    requires targets != [] && (!BelowSome(targets, p) || BelowSome(targets[..|targets| - 1], p))
    ensures !Under(p, targets[|targets| - 1].output)
  {
    var last := |targets| - 1;
    assert targets[last] in targets;
    if t :| t in targets[..last] && Under(p, t.output) {
      var i :| 0 <= i < last && targets[i] == t;
      if Under(p, targets[last].output) { UnderBoth(p, targets[i].output, targets[last].output); }
    }
  }

  lemma BelowMore(targets: seq<Target>, p: Path)
    requires targets != []
    ensures BelowSome(targets, p) <==> BelowSome(targets[..|targets| - 1], p) || Under(p, targets[|targets| - 1].output)
  {
    var last := |targets| - 1;
    assert targets[last] in targets;
    assert forall t :: t in targets <==> t in targets[..last] || t == targets[last];
  }

  lemma {:induction false} TargetsDisjoint(
      tools: Tools, files: Files, sources: seq<Source>, targets: seq<Target>, plan: Plan)
    requires TargetsApart(targets)
    requires OutsideTargets(plan, targets) && plan.writes.Keys !! plan.deletes
    requires AddTargets(tools, files, sources, targets, plan).Some?
    ensures var next := AddTargets(tools, files, sources, targets, plan).value;
            && next.documents == plan.documents
            && next.writes.Keys !! next.deletes
            && (forall p :: p in next.writes && p !in plan.writes ==> BelowSome(targets, p))
            && (forall p :: p in next.deletes && p !in plan.deletes ==> BelowSome(targets, p))
    decreases |targets|
  {
    if targets != [] {
      var last := |targets| - 1;
      forall p ensures BelowSome(targets, p) <==> BelowSome(targets[..last], p) || Under(p, targets[last].output) {
        BelowMore(targets, p);
      }
      TargetsDisjoint(tools, files, sources, targets[..last], plan);
      var before := AddTargets(tools, files, sources, targets[..last], plan).value;
      TargetParts(tools, files, sources, targets[last], before);
      forall p | p in before.writes || p in before.deletes ensures !Under(p, targets[last].output) {
        NotBelowLast(targets, p);
      }
    }
  }

  /** What a run writes and what it deletes are disjoint. */
  lemma PlanDisjoint(tools: Tools, inputs: Inputs, config: Config, names: set<Part>, files: Files)
    requires Separated(config) && Named(config) && MakePlan(tools, inputs, config, names, files).Some?
    ensures var plan := MakePlan(tools, inputs, config, names, files).value; plan.writes.Keys !! plan.deletes
  {
    var selected := Chosen(config.targets, names);
    ChosenFrom(config.targets, names);
    SourcesTouchOutputs(tools, inputs, files, config.sources, NeededBy(selected));
    var plan := AddSources(tools, inputs, files, config.sources, NeededBy(selected)).value;
    SourcesOutside(config, selected, plan);
    TargetsDisjoint(tools, files, config.sources, selected, plan);
  }

  lemma SourcesOutside(config: Config, selected: seq<Target>, plan: Plan)
    requires Separated(config) && forall t :: t in selected ==> t in config.targets
    requires forall p :: p in plan.writes || p in plan.deletes ==> exists s :: s in config.sources && s.output == Some(p)
    ensures OutsideTargets(plan, selected)
  {
    forall p | p in plan.writes || p in plan.deletes ensures !BelowSome(selected, p) {
      var s :| s in config.sources && s.output == Some(p);
      assert ContractPath(s) == Some(p);
    }
  }

  // ----- what a run leaves alone

  // A file of the target's directory that neither its manifest nor the run itself accounts for.
  ghost predicate Foreign(tools: Tools, files: Files, target: Target, p: Path) {
    && Under(p, target.output) && p in files && p != ManifestPath(target)
    && Owned(tools, files, target).Some? && p[|target.output|..] !in Owned(tools, files, target).value
  }

  lemma ForeignKeptOnce(
      tools: Tools, files: Files, sources: seq<Source>, current: Target, plan: Plan, target: Target, p: Path)
    requires current == target || !Nested(current.output, target.output)
    requires Foreign(tools, files, target, p) && p !in plan.writes && p !in plan.deletes
    requires AddTarget(tools, files, sources, current, plan).Some?
    ensures var next := AddTarget(tools, files, sources, current, plan).value; p !in next.writes && p !in next.deletes
  {
    TargetTouches(tools, files, sources, current, plan, p);
    hide AddTarget, Owned, ManifestPath;
    if Under(p, current.output) { UnderBoth(p, current.output, target.output); }
  }

  lemma TargetTouches(tools: Tools, files: Files, sources: seq<Source>, target: Target, plan: Plan, p: Path)
    requires AddTarget(tools, files, sources, target, plan).Some?
    ensures var next := AddTarget(tools, files, sources, target, plan).value;
            && (!Under(p, target.output) && p in next.writes ==> p in plan.writes && next.writes[p] == plan.writes[p])
            && (!Under(p, target.output) && p in plan.writes ==> p in next.writes)
            && (!Under(p, target.output) && p in next.deletes ==> p in plan.deletes)
            && (Foreign(tools, files, target, p) && p !in plan.writes && p !in plan.deletes ==>
                  p !in next.writes && p !in next.deletes)
  {
    var rendered := tools.render(TargetInputs(sources, target, plan.documents), target).value;
    RenderedOwned(tools, files, sources, target, plan, p);
    PlacedAt(target, rendered, p);
    StaleAt(target, Owned(tools, files, target).value, rendered, p);
    TargetParts(tools, files, sources, target, plan);
    hide Placed, Stale, Owned, TargetInputs, ManifestPath, AddTarget;
  }

  // What is rendered over a file that exists was rendered before.
  lemma RenderedOwned(tools: Tools, files: Files, sources: seq<Source>, target: Target, plan: Plan, p: Path)
    requires AddTarget(tools, files, sources, target, plan).Some?
    ensures var rendered := tools.render(TargetInputs(sources, target, plan.documents), target).value;
            Under(p, target.output) && p in files && p[|target.output|..] in rendered ==>
              p[|target.output|..] in Owned(tools, files, target).value
  {
    hide Placed, Stale, Owned, TargetInputs, ManifestPath, Safe;
    if Under(p, target.output) { assert target.output + p[|target.output|..] == p; }
  }

  lemma {:induction false} ForeignKept(
      tools: Tools, files: Files, sources: seq<Source>, targets: seq<Target>, plan: Plan, target: Target, p: Path)
    requires forall t :: t in targets && t != target ==> !Nested(t.output, target.output)
    requires Foreign(tools, files, target, p) && p !in plan.writes && p !in plan.deletes
    requires AddTargets(tools, files, sources, targets, plan).Some?
    ensures var next := AddTargets(tools, files, sources, targets, plan).value; p !in next.writes && p !in next.deletes
    decreases |targets|
  {
    if targets != [] {
      var last := |targets| - 1;
      ForeignKept(tools, files, sources, targets[..last], plan, target, p);
      var before := AddTargets(tools, files, sources, targets[..last], plan).value;
      assert targets[last] in targets;
      ForeignKeptOnce(tools, files, sources, targets[last], before, target, p);
    }
  }

  /** Files below a target that its manifest does not list stay as they are. */
  lemma RunKeepsForeign(tools: Tools, inputs: Inputs, config: Config, names: set<Part>, files: Files, target: Target, p: Path)
    requires Separated(config) && Named(config) && MakePlan(tools, inputs, config, names, files).Some?
    requires target in config.targets && Foreign(tools, files, target, p)
    ensures var after := Applied(MakePlan(tools, inputs, config, names, files).value, files);
            p in after && after[p] == files[p]
  {
    var selected := Chosen(config.targets, names);
    ChosenFrom(config.targets, names);
    SourcesTouchOutputs(tools, inputs, files, config.sources, NeededBy(selected));
    var plan := AddSources(tools, inputs, files, config.sources, NeededBy(selected)).value;
    SourcesOutside(config, config.targets, plan);
    assert BelowSome(config.targets, p);
    OthersApart(config, selected, target);
    ForeignKept(tools, files, config.sources, selected, plan, target, p);
  }

  lemma OthersApart(config: Config, selected: seq<Target>, target: Target)
    requires Separated(config) && target in config.targets && forall t :: t in selected ==> t in config.targets
    ensures forall t :: t in selected && t != target ==> !Nested(t.output, target.output)
  {
    forall t | t in selected && t != target ensures !Nested(t.output, target.output) {
      var i :| 0 <= i < |config.targets| && config.targets[i] == t;
      var j :| 0 <= j < |config.targets| && config.targets[j] == target;
    }
  }

  /** Everything below a target that was not selected stays as it is. */
  lemma RunKeepsUnselected(
      tools: Tools, inputs: Inputs, config: Config, names: set<Part>, files: Files, target: Target, p: Path)
    requires Separated(config) && Named(config) && MakePlan(tools, inputs, config, names, files).Some?
    requires target in config.targets && target !in Chosen(config.targets, names) && Under(p, target.output)
    ensures var after := Applied(MakePlan(tools, inputs, config, names, files).value, files);
            (p in after <==> p in files) && (p in files ==> after[p] == files[p])
  {
    var selected := Chosen(config.targets, names);
    ChosenFrom(config.targets, names);
    SourcesTouchOutputs(tools, inputs, files, config.sources, NeededBy(selected));
    var plan := AddSources(tools, inputs, files, config.sources, NeededBy(selected)).value;
    SourcesOutside(config, config.targets, plan);
    SourcesOutside(config, selected, plan);
    assert BelowSome(config.targets, p);
    OthersApart(config, selected, target);
    TargetsDisjoint(tools, files, config.sources, selected, plan);
    if t :| t in selected && Under(p, t.output) {
      UnderBoth(p, t.output, target.output);
    }
  }

  // ----- what a run leaves

  /** The targets that a run is for: those named, or all of them when none is named, each as often as configured. */
  lemma {:induction false} ChosenExactly(targets: seq<Target>, names: set<Part>, t: Target)
    ensures multiset(Chosen(targets, names))[t] == if names == {} || t.name in names then multiset(targets)[t] else 0
  {
    if targets != [] {
      var last := |targets| - 1;
      ChosenExactly(targets[..last], names, t);
      assert targets == targets[..last] + [targets[last]];
    }
  }

  function At(files: Files, p: Path): Option<Content> {
    if p in files then Some(files[p]) else None
  }

  // What is to be at a path below a target: the manifest of what was rendered, the rendered file, nothing where an
  // earlier run put a file that is no longer rendered, and else what was there.
  function LeftAt(
      tools: Tools, files: Files, sources: seq<Source>, target: Target, documents: map<Part, Document>,
      p: Path): Option<Content>
    requires Under(p, target.output)
  {
    match (Rendered(tools, sources, target, documents), Owned(tools, files, target))
    case (Some(rendered), Some(owned)) =>
      var name := p[|target.output|..];
      if name == [MANIFEST] then
        Some(tools.manifest(TargetInputs(sources, target, documents), target, rendered.Keys))
      else if name in rendered then Some(rendered[name])
      else if name in owned then None
      else At(files, p)
    case _ => None
  }

  // What carrying out a plan leaves at a path.
  function PlannedAt(plan: Plan, files: Files, p: Path): Option<Content> {
    if p in plan.deletes then None else if p in plan.writes then Some(plan.writes[p]) else At(files, p)
  }

  lemma TargetLeaves(tools: Tools, files: Files, sources: seq<Source>, target: Target, plan: Plan, p: Path)
    requires AddTarget(tools, files, sources, target, plan).Some?
    requires Under(p, target.output) && p !in plan.writes && p !in plan.deletes
    ensures PlannedAt(AddTarget(tools, files, sources, target, plan).value, files, p)
            == LeftAt(tools, files, sources, target, plan.documents, p)
  {
    var rendered := tools.render(TargetInputs(sources, target, plan.documents), target).value;
    var owned := Owned(tools, files, target).value;
    PlacedAt(target, rendered, p);
    StaleAt(target, owned, rendered, p);
    hide Placed, Stale, Owned, TargetInputs, Safe;
    var next := AddTarget(tools, files, sources, target, plan).value;
    var name := p[|target.output|..];
    assert p == target.output + name;
    assert p == ManifestPath(target) <==> name == [MANIFEST];
    SafeNames(tools, files, target, rendered, owned);
    assert p in next.deletes <==> p in Stale(target, owned, rendered);
    if p != ManifestPath(target) && p in Placed(target, rendered) {
      assert next.writes[p] == Placed(target, rendered)[p];
    }
  }

  // Neither rendered files nor those of a manifest are manifests.
  lemma SafeNames(tools: Tools, files: Files, target: Target, rendered: map<Path, Content>, owned: set<Path>)
    requires Owned(tools, files, target) == Some(owned) && forall name :: name in rendered ==> Safe(tools, name)
    ensures [MANIFEST] !in rendered && [MANIFEST] !in owned
  {
  }

  // A later target, in another place, changes nothing at the path.
  lemma TargetPasses(tools: Tools, files: Files, sources: seq<Source>, target: Target, plan: Plan, p: Path)
    requires AddTarget(tools, files, sources, target, plan).Some? && !Under(p, target.output)
    ensures PlannedAt(AddTarget(tools, files, sources, target, plan).value, files, p) == PlannedAt(plan, files, p)
  {
    TargetTouches(tools, files, sources, target, plan, p);
    TargetParts(tools, files, sources, target, plan);
    hide AddTarget, Placed, Stale, Owned, TargetInputs, Foreign, ManifestPath;
  }

  lemma {:induction false} TargetsLeave(
      tools: Tools, files: Files, sources: seq<Source>, targets: seq<Target>, plan: Plan, k: nat, p: Path)
    requires TargetsApart(targets) && OutsideTargets(plan, targets) && plan.writes.Keys !! plan.deletes
    requires k < |targets| && Under(p, targets[k].output) && AddTargets(tools, files, sources, targets, plan).Some?
    ensures PlannedAt(AddTargets(tools, files, sources, targets, plan).value, files, p)
            == LeftAt(tools, files, sources, targets[k], plan.documents, p)
    decreases |targets|
  {
    var last := |targets| - 1;
    var earlier, target := targets[..last], targets[last];
    OutsideFewer(plan, targets);
    var before := LastTarget(tools, files, sources, targets, plan);
    TargetsDisjoint(tools, files, sources, earlier, plan);
    BelowAt(targets, k, p);
    hide AddTargets, AddTarget, LeftAt, PlannedAt, TargetsApart;
    if k == last {
      if BelowSome(earlier, p) { NotBelowLast(targets, p); }
      TargetLeaves(tools, files, sources, target, before, p);
    } else {
      TargetsLeave(tools, files, sources, earlier, plan, k, p);
      BelowAt(earlier, k, p);
      NotBelowLast(targets, p);
      TargetPasses(tools, files, sources, target, before, p);
    }
  }

  // What is read for the sources that a run needs.
  function Read(tools: Tools, inputs: Inputs, config: Config, names: set<Part>, files: Files): map<Part, Document> {
    match AddSources(tools, inputs, files, config.sources, NeededBy(Chosen(config.targets, names)))
    case Some(plan) => plan.documents
    case None => map[]
  }

  /** What a run leaves below a target that it is for. */
  lemma RunLeavesTarget(
      tools: Tools, inputs: Inputs, config: Config, names: set<Part>, files: Files, target: Target, p: Path)
    requires Separated(config) && Named(config) && MakePlan(tools, inputs, config, names, files).Some?
    requires target in config.targets && (names == {} || target.name in names) && Under(p, target.output)
    ensures At(Applied(MakePlan(tools, inputs, config, names, files).value, files), p)
            == LeftAt(tools, files, config.sources, target, Read(tools, inputs, config, names, files), p)
  {
    var selected := Chosen(config.targets, names);
    var plan := SourcesFirst(tools, inputs, config, names, files);
    var k := ChosenAt(config.targets, names, target);
    var all := MakePlan(tools, inputs, config, names, files).value;
    AppliedAt(all, files, p);
    hide Chosen, LeftAt, AddSources, AddTargets, MakePlan, OutsideTargets, TargetsApart, Separated, Named, Read;
    hide Applied, PlannedAt, At, Under, NeededBy;
    TargetsLeave(tools, files, config.sources, selected, plan, k, p);
  }

  lemma AppliedAt(plan: Plan, files: Files, p: Path)
    ensures At(Applied(plan, files), p) == PlannedAt(plan, files, p)
  {
  }

  lemma ChosenAt(targets: seq<Target>, names: set<Part>, target: Target) returns (k: nat)
    requires target in targets && (names == {} || target.name in names)
    ensures k < |Chosen(targets, names)| && Chosen(targets, names)[k] == target
  {
    ChosenExactly(targets, names, target);
    assert target in multiset(targets);
    assert target in multiset(Chosen(targets, names));
    assert target in Chosen(targets, names);
    k :| k < |Chosen(targets, names)| && Chosen(targets, names)[k] == target;
  }

  // A run first deals with the sources, which does not touch what lies below its targets.
  lemma SourcesFirst(tools: Tools, inputs: Inputs, config: Config, names: set<Part>, files: Files) returns (plan: Plan)
    requires Separated(config) && Named(config) && MakePlan(tools, inputs, config, names, files).Some?
    ensures var selected := Chosen(config.targets, names);
            && AddSources(tools, inputs, files, config.sources, NeededBy(selected)) == Some(plan)
            && MakePlan(tools, inputs, config, names, files) == AddTargets(tools, files, config.sources, selected, plan)
            && TargetsApart(selected) && OutsideTargets(plan, selected) && plan.writes.Keys !! plan.deletes
            && plan.documents == Read(tools, inputs, config, names, files)
            && (forall t :: t in selected ==> t in config.targets)
  {
    var selected := Chosen(config.targets, names);
    ChosenFrom(config.targets, names);
    SourcesTouchOutputs(tools, inputs, files, config.sources, NeededBy(selected));
    plan := AddSources(tools, inputs, files, config.sources, NeededBy(selected)).value;
    SourcesOutside(config, selected, plan);
  }

  // What the source contributes to a plan.
  ghost predicate Contributes(tools: Tools, inputs: Inputs, files: Files, s: Source, plan: Plan) {
    match Load(tools, inputs, files, s)
    case Loaded(document, write) =>
      && s.name in plan.documents && plan.documents[s.name] == document
      && (write.Some? ==> write.value in plan.writes && plan.writes[write.value] == tools.dump(document))
    case Skipped(delete) => s.name !in plan.documents && (delete.Some? ==> delete.value in plan.deletes)
    case Unusable => false
  }

  lemma {:induction false} SourcesContribute(
      tools: Tools, inputs: Inputs, files: Files, sources: seq<Source>, needed: set<Part>, k: nat)
    requires AddSources(tools, inputs, files, sources, needed).Some? && k < |sources|
    requires forall i, j :: 0 <= i < j < |sources| ==> sources[i].name != sources[j].name
    requires forall i, j :: 0 <= i < j < |sources| && sources[i].output.Some? ==> sources[i].output != sources[j].output
    ensures var plan := AddSources(tools, inputs, files, sources, needed).value;
            if sources[k].name in needed then Contributes(tools, inputs, files, sources[k], plan)
            else sources[k].name !in plan.documents
    decreases |sources|
  {
    var last := |sources| - 1;
    if k < last {
      SourcesContribute(tools, inputs, files, sources[..last], needed, k);
    } else {
      SourcesNamed(tools, inputs, files, sources[..last], needed, sources[last].name);
    }
  }

  lemma {:induction false} SourcesNamed(
      tools: Tools, inputs: Inputs, files: Files, sources: seq<Source>, needed: set<Part>, name: Part)
    requires AddSources(tools, inputs, files, sources, needed).Some?
    requires forall s :: s in sources ==> s.name != name
    ensures name !in AddSources(tools, inputs, files, sources, needed).value.documents
  {
    if sources != [] { SourcesNamed(tools, inputs, files, sources[..|sources| - 1], needed, name); }
  }

  /** What a run that is not offline leaves where a needed source is exported to: the contract as it is exported, or
      nothing for an optional source that the application does not register; and it fails without either. */
  lemma RunLeavesContract(tools: Tools, inputs: Inputs, config: Config, names: set<Part>, files: Files, s: Source)
    requires Separated(config) && Named(config) && MakePlan(tools, inputs, config, names, files).Some?
    requires !inputs.offline && s in config.sources && s.output.Some?
    requires s.name in NeededBy(Chosen(config.targets, names))
    ensures s.name in inputs.exports
    ensures var left := At(Applied(MakePlan(tools, inputs, config, names, files).value, files), s.output.value);
            match inputs.exports[s.name]
            case Exported(document) => left == Some(tools.dump(document))
            case NotRegistered => s.optional && left == None
            case Failed => false
  {
    var selected, p := Chosen(config.targets, names), s.output.value;
    var plan := SourcesFirst(tools, inputs, config, names, files);
    ContractPlanned(tools, inputs, config, files, s, NeededBy(selected), plan);
    assert ContractPath(s) == Some(p);
    assert forall t :: t in selected ==> t in config.targets && !Under(p, t.output);
    TargetsPass(tools, files, config.sources, selected, plan, p);
    hide Chosen, AddSources, AddTargets, OutsideTargets, TargetsApart, Separated, Named, NeededBy, MakePlan;
  }

  lemma ContractPlanned(
      tools: Tools, inputs: Inputs, config: Config, files: Files, s: Source, needed: set<Part>, plan: Plan)
    requires Separated(config) && Named(config) && !inputs.offline
    requires AddSources(tools, inputs, files, config.sources, needed) == Some(plan) && plan.writes.Keys !! plan.deletes
    requires s in config.sources && s.output.Some? && s.name in needed
    ensures s.name in inputs.exports
    ensures match inputs.exports[s.name]
            case Exported(document) => PlannedAt(plan, files, s.output.value) == Some(tools.dump(document))
            case NotRegistered => s.optional && PlannedAt(plan, files, s.output.value) == None
            case Failed => false
  {
    var k :| 0 <= k < |config.sources| && config.sources[k] == s;
    SourcesContribute(tools, inputs, files, config.sources, needed, k);
  }

  lemma {:induction false} TargetsPass(
      tools: Tools, files: Files, sources: seq<Source>, targets: seq<Target>, plan: Plan, p: Path)
    requires AddTargets(tools, files, sources, targets, plan).Some? && forall t :: t in targets ==> !Under(p, t.output)
    ensures PlannedAt(AddTargets(tools, files, sources, targets, plan).value, files, p) == PlannedAt(plan, files, p)
    decreases |targets|
  {
    if targets != [] {
      var last := |targets| - 1;
      var before := LastTarget(tools, files, sources, targets, plan);
      TargetsPass(tools, files, sources, targets[..last], plan, p);
      assert targets[last] in targets;
      TargetPasses(tools, files, sources, targets[last], before, p);
    }
  }

  /** Everywhere else a run leaves what was there. */
  lemma RunLeavesRest(tools: Tools, inputs: Inputs, config: Config, names: set<Part>, files: Files, p: Path)
    requires Separated(config) && Named(config) && MakePlan(tools, inputs, config, names, files).Some?
    requires !BelowSome(Chosen(config.targets, names), p)
    requires inputs.offline || !ContractOutput(config.sources, NeededBy(Chosen(config.targets, names)), p)
    ensures At(Applied(MakePlan(tools, inputs, config, names, files).value, files), p) == At(files, p)
  {
    var selected := Chosen(config.targets, names);
    var plan := SourcesFirst(tools, inputs, config, names, files);
    SourcesTouchOutputs(tools, inputs, files, config.sources, NeededBy(selected));
    TargetsPass(tools, files, config.sources, selected, plan, p);
  }

  // ----- idempotence

  predicate Shares(s: Source, t: Source, needed: set<Part>) {
    s.name in needed && t.name in needed && s.input.Some? && t.output.Some?
  }

  // No saved contract that the run needs is read from where it exports a live one to.
  ghost predicate InputsApart(config: Config, needed: set<Part>) {
    forall s, t :: s in config.sources && t in config.sources && Shares(s, t, needed) ==> s.input != t.output
  }

  // The condition under which a run is idempotent, whatever the files and the contracts are.
  ghost predicate Repeatable(config: Config, names: set<Part>, offline: bool) {
    offline || InputsApart(config, NeededBy(Chosen(config.targets, names)))
  }

  ghost predicate SameContracts(inputs: Inputs, sources: seq<Source>, needed: set<Part>, files: Files, after: Files) {
    forall s :: s in sources && s.name in needed && (s.input.Some? || inputs.offline) && ContractPath(s).Some? ==>
      var p := ContractPath(s).value;
      (p in after <==> p in files) && (p in files ==> after[p] == files[p])
  }

  lemma {:induction false} SourcesAgain(
      tools: Tools, inputs: Inputs, files: Files, after: Files, sources: seq<Source>, needed: set<Part>)
    requires SameContracts(inputs, sources, needed, files, after)
    requires forall s :: s in sources ==> (s.input.Some? <==> s.output.None?)
    ensures AddSources(tools, inputs, after, sources, needed) == AddSources(tools, inputs, files, sources, needed)
  {
    if sources != [] {
      var last := |sources| - 1;
      SourcesAgain(tools, inputs, files, after, sources[..last], needed);
      assert sources[last] in sources;
      if sources[last].name in needed {
        assert Load(tools, inputs, after, sources[last]) == Load(tools, inputs, files, sources[last]);
      }
    }
  }

  // The manifest and the names that a plan writes for a target.
  function Rendered(
      tools: Tools, sources: seq<Source>, target: Target, documents: map<Part, Document>): Option<map<Path, Content>> {
    tools.render(TargetInputs(sources, target, documents), target)
  }

  ghost predicate ManifestOf(tools: Tools, sources: seq<Source>, target: Target, documents: map<Part, Document>, files: Files) {
    && Rendered(tools, sources, target, documents).Some?
    && ManifestPath(target) in files
    && files[ManifestPath(target)] ==
       tools.manifest(TargetInputs(sources, target, documents), target, Rendered(tools, sources, target, documents).value.Keys)
  }

  lemma OutsideFewer(plan: Plan, targets: seq<Target>)
    requires targets != [] && TargetsApart(targets) && OutsideTargets(plan, targets)
    ensures TargetsApart(targets[..|targets| - 1]) && OutsideTargets(plan, targets[..|targets| - 1])
  {
    forall p ensures BelowSome(targets[..|targets| - 1], p) ==> BelowSome(targets, p) { BelowMore(targets, p); }
  }

  lemma LastTarget(tools: Tools, files: Files, sources: seq<Source>, targets: seq<Target>, plan: Plan) returns (before: Plan)
    requires targets != [] && AddTargets(tools, files, sources, targets, plan).Some?
    ensures var last := |targets| - 1;
            && AddTargets(tools, files, sources, targets[..last], plan) == Some(before)
            && AddTarget(tools, files, sources, targets[last], before) == AddTargets(tools, files, sources, targets, plan)
  {
    hide AddTarget;
    before := AddTargets(tools, files, sources, targets[..|targets| - 1], plan).value;
  }

  lemma ManifestElsewhere(targets: seq<Target>, k: nat)
    requires TargetsApart(targets) && k < |targets| - 1
    ensures !Under(ManifestPath(targets[..|targets| - 1][k]), targets[|targets| - 1].output)
  {
    var earlier := targets[..|targets| - 1];
    ManifestAt(earlier[k]);
    BelowAt(earlier, k, ManifestPath(earlier[k]));
    NotBelowLast(targets, ManifestPath(earlier[k]));
  }

  lemma {:induction false} ManifestsWritten(
      tools: Tools, files: Files, sources: seq<Source>, targets: seq<Target>, plan: Plan, k: nat)
    requires TargetsApart(targets)
    requires OutsideTargets(plan, targets) && plan.writes.Keys !! plan.deletes && k < |targets|
    requires AddTargets(tools, files, sources, targets, plan).Some?
    ensures ManifestOf(tools, sources, targets[k], plan.documents,
                       AddTargets(tools, files, sources, targets, plan).value.writes)
    decreases |targets|
  {
    var last := |targets| - 1;
    var earlier, target := targets[..last], targets[last];
    OutsideFewer(plan, targets);
    var before := LastTarget(tools, files, sources, targets, plan);
    hide AddTargets, AddTarget, ManifestOf, TargetsApart, OutsideTargets, Under, ManifestPath;
    TargetsDisjoint(tools, files, sources, earlier, plan);
    if k == last {
      ManifestWritten(tools, files, sources, target, before);
    } else {
      ManifestsWritten(tools, files, sources, earlier, plan, k);
      ManifestElsewhere(targets, k);
      ManifestCarried(tools, files, sources, target, before, earlier[k]);
    }
  }

  lemma ManifestWritten(tools: Tools, files: Files, sources: seq<Source>, target: Target, plan: Plan)
    requires AddTarget(tools, files, sources, target, plan).Some?
    ensures ManifestOf(tools, sources, target, plan.documents, AddTarget(tools, files, sources, target, plan).value.writes)
  {
    hide Owned, Placed, Stale;
  }

  lemma ManifestCarried(tools: Tools, files: Files, sources: seq<Source>, target: Target, plan: Plan, earlier: Target)
    requires AddTarget(tools, files, sources, target, plan).Some? && !Under(ManifestPath(earlier), target.output)
    requires ManifestOf(tools, sources, earlier, plan.documents, plan.writes)
    ensures ManifestOf(tools, sources, earlier, plan.documents, AddTarget(tools, files, sources, target, plan).value.writes)
  {
    TargetParts(tools, files, sources, target, plan);
    hide AddTarget, Owned, Placed, Stale;
  }

  lemma TargetAgain(
      tools: Tools, files: Files, after: Files, sources: seq<Source>, target: Target, plan: Plan, deletes: set<Path>)
    requires Readable(tools) && AddTarget(tools, files, sources, target, plan).Some?
    requires ManifestOf(tools, sources, target, plan.documents, after)
    ensures AddTarget(tools, after, sources, target, plan.(deletes := deletes)) ==
            Some(AddTarget(tools, files, sources, target, plan).value.(deletes := deletes))
  {
    var rendered := Rendered(tools, sources, target, plan.documents).value;
    assert Owned(tools, after, target) == Some(rendered.Keys);
    assert Stale(target, rendered.Keys, rendered) == {};
    assert deletes + {} == deletes;
  }

  lemma {:induction false} TargetsAgain(
      tools: Tools, files: Files, after: Files, sources: seq<Source>, targets: seq<Target>, plan: Plan)
    requires Readable(tools) && AddTargets(tools, files, sources, targets, plan).Some?
    requires forall k :: 0 <= k < |targets| ==> ManifestOf(tools, sources, targets[k], plan.documents, after)
    ensures AddTargets(tools, files, sources, targets, plan).value.documents == plan.documents
    ensures AddTargets(tools, after, sources, targets, plan) ==
            Some(AddTargets(tools, files, sources, targets, plan).value.(deletes := plan.deletes))
    decreases |targets|
  {
    if targets != [] {
      var last := |targets| - 1;
      forall k | 0 <= k < last ensures ManifestOf(tools, sources, targets[..last][k], plan.documents, after) {
        assert targets[..last][k] == targets[k];
      }
      TargetsAgain(tools, files, after, sources, targets[..last], plan);
      var before := AddTargets(tools, files, sources, targets[..last], plan).value;
      TargetAgain(tools, files, after, sources, targets[last], before, plan.deletes);
    } else {
      assert plan.(deletes := plan.deletes) == plan;
    }
  }

  // The contracts that a run reads are not among the files that it writes or deletes.
  lemma ContractsKept(tools: Tools, inputs: Inputs, config: Config, names: set<Part>, files: Files)
    requires Separated(config) && Named(config) && Repeatable(config, names, inputs.offline)
    requires MakePlan(tools, inputs, config, names, files).Some?
    ensures SameContracts(inputs, config.sources, NeededBy(Chosen(config.targets, names)), files,
                          Applied(MakePlan(tools, inputs, config, names, files).value, files))
  {
    var selected := Chosen(config.targets, names);
    ChosenFrom(config.targets, names);
    SourcesTouchOutputs(tools, inputs, files, config.sources, NeededBy(selected));
    var plan := AddSources(tools, inputs, files, config.sources, NeededBy(selected)).value;
    SourcesOutside(config, selected, plan);
    TargetsDisjoint(tools, files, config.sources, selected, plan);
    var all := MakePlan(tools, inputs, config, names, files).value;
    forall s | s in config.sources && s.name in NeededBy(selected) && (s.input.Some? || inputs.offline) && ContractPath(s).Some?
      ensures ContractPath(s).value !in all.writes && ContractPath(s).value !in all.deletes
    {
      ContractElsewhere(config, selected, inputs.offline, all, s);
    }
  }

  lemma ContractElsewhere(config: Config, selected: seq<Target>, offline: bool, plan: Plan, s: Source)
    requires Separated(config) && (forall t :: t in selected ==> t in config.targets)
    requires forall p :: p in plan.writes || p in plan.deletes ==>
               BelowSome(selected, p) || (!offline && ContractOutput(config.sources, NeededBy(selected), p))
    requires s in config.sources && s.name in NeededBy(selected) && ContractPath(s).Some?
    requires offline || (s.input.Some? && s.output.None? && InputsApart(config, NeededBy(selected)))
    ensures ContractPath(s).value !in plan.writes && ContractPath(s).value !in plan.deletes
  {
    var p := ContractPath(s).value;
    assert forall t :: t in selected ==> t in config.targets && !Under(p, t.output);
    if !offline {
      assert forall t :: t in config.sources && Shares(s, t, NeededBy(selected)) ==> t.output != s.input;
    }
  }

  // If the run succeeds, a check of its result succeeds and finds nothing to change.
  ghost predicate Idempotent(tools: Tools, inputs: Inputs, config: Config, names: set<Part>, files: Files) {
    MakePlan(tools, inputs, config, names, files).Some? ==>
      var after := Applied(MakePlan(tools, inputs, config, names, files).value, files);
      && MakePlan(tools, inputs, config, names, after).Some?
      && Changed(MakePlan(tools, inputs, config, names, after).value, after) == {}
  }

  /** Idempotence: after a successful run, a check on the same inputs finds nothing to change. */
  lemma RunIdempotent(tools: Tools, inputs: Inputs, config: Config, names: set<Part>, files: Files)
    requires Separated(config) && Named(config) && Repeatable(config, names, inputs.offline) && Readable(tools)
    ensures Idempotent(tools, inputs, config, names, files)
  {
    if MakePlan(tools, inputs, config, names, files).Some? {
      var all := MakePlan(tools, inputs, config, names, files).value;
      var after := Applied(all, files);
      ContractsKept(tools, inputs, config, names, files);
      PlanDisjoint(tools, inputs, config, names, files);
      ManifestsKept(tools, inputs, config, names, files, after);
      var again := PlanAgain(tools, inputs, config, names, files, after);
      NothingLeft(all, files, again);
    }
  }

  lemma PlanAgain(tools: Tools, inputs: Inputs, config: Config, names: set<Part>, files: Files, after: Files)
      returns (deletes: set<Path>)
    requires Named(config) && Readable(tools) && MakePlan(tools, inputs, config, names, files).Some?
    requires SameContracts(inputs, config.sources, NeededBy(Chosen(config.targets, names)), files, after)
    requires ManifestsIn(tools, inputs, config, names, files, after)
    ensures var plan := MakePlan(tools, inputs, config, names, files).value;
            deletes <= plan.deletes && MakePlan(tools, inputs, config, names, after) == Some(plan.(deletes := deletes))
  {
    var selected := Chosen(config.targets, names);
    SourcesAgain(tools, inputs, files, after, config.sources, NeededBy(selected));
    var plan := AddSources(tools, inputs, files, config.sources, NeededBy(selected)).value;
    TargetsAgain(tools, files, after, config.sources, selected, plan);
    TargetsDeleteMore(tools, files, config.sources, selected, plan);
    deletes := plan.deletes;
  }

  ghost predicate ManifestsIn(
      tools: Tools, inputs: Inputs, config: Config, names: set<Part>, files: Files, after: Files)
    requires MakePlan(tools, inputs, config, names, files).Some?
  {
    var selected := Chosen(config.targets, names);
    var plan := AddSources(tools, inputs, files, config.sources, NeededBy(selected)).value;
    forall k :: 0 <= k < |selected| ==> ManifestOf(tools, config.sources, selected[k], plan.documents, after)
  }

  // After a plan was carried out, the same plan has nothing more to do.
  lemma NothingLeft(plan: Plan, files: Files, deletes: set<Path>)
    requires plan.writes.Keys !! plan.deletes && deletes <= plan.deletes
    ensures Changed(plan.(deletes := deletes), Applied(plan, files)) == {}
  {
  }

  lemma ManifestsKept(tools: Tools, inputs: Inputs, config: Config, names: set<Part>, files: Files, after: Files)
    requires Separated(config) && Named(config) && MakePlan(tools, inputs, config, names, files).Some?
    requires after == Applied(MakePlan(tools, inputs, config, names, files).value, files)
    ensures ManifestsIn(tools, inputs, config, names, files, after)
  {
    var selected := Chosen(config.targets, names);
    ChosenFrom(config.targets, names);
    SourcesTouchOutputs(tools, inputs, files, config.sources, NeededBy(selected));
    var plan := AddSources(tools, inputs, files, config.sources, NeededBy(selected)).value;
    SourcesOutside(config, selected, plan);
    PlanDisjoint(tools, inputs, config, names, files);
    forall k | 0 <= k < |selected| ensures ManifestOf(tools, config.sources, selected[k], plan.documents, after) {
      ManifestsWritten(tools, files, config.sources, selected, plan, k);
    }
  }

  lemma {:induction false} TargetsDeleteMore(
      tools: Tools, files: Files, sources: seq<Source>, targets: seq<Target>, plan: Plan)
    requires AddTargets(tools, files, sources, targets, plan).Some?
    ensures plan.deletes <= AddTargets(tools, files, sources, targets, plan).value.deletes
    decreases |targets|
  {
    if targets != [] { TargetsDeleteMore(tools, files, sources, targets[..|targets| - 1], plan); }
  }
}
