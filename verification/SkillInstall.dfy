/**
 Replacing skill directories all or nothing, `_install_skill` of `fastapi_canon/cli.py`: every copy is
 staged first, directories are renamed into place one after another, and a failure renames them back.
 */
module SkillInstall {
  import opened Wrappers
  import opened Paths

  datatype Node = Directory | File(content: string)
  type Files = map<Path, Node>

  // Neither path is the other or lies below it.
  predicate Apart(a: Path, b: Path) {
    !Under(a, b) && !Under(b, a)
  }

  ghost predicate Absent(files: Files, top: Path) {
    forall p :: p in files ==> !Under(p, top)
  }

  // A path that does not exist has nothing below it.
  ghost predicate Tidy(files: Files, p: Path) {
    p in files || Absent(files, p)
  }

  function Moved(p: Path, from: Path, to: Path): Path
    requires Under(p, from)
  {
    to + p[|from|..]
  }

  // Renaming a directory takes everything below it along.
  function Rename(files: Files, from: Path, to: Path): Files {
    (map p | p in files && !Under(p, from) :: files[p])
    + (map q | q in (set p | p in files && Under(p, from) :: Moved(p, from, to)) && Under(q, to)
                 && Moved(q, to, from) in files :: files[Moved(q, to, from)])
  }

  // The tree at a path, by the paths relative to it.
  ghost function Tree(files: Files, top: Path): map<Path, Node> {
    map r | r in (set p | p in files && Under(p, top) :: p[|top|..]) && top + r in files :: files[top + r]
  }

  // ----- one rename

  lemma MovedBack(p: Path, from: Path, to: Path)
    requires Under(p, from)
    ensures Under(Moved(p, from, to), to) && Moved(Moved(p, from, to), to, from) == p
  {
    assert Moved(p, from, to)[..|to|] == to;
    assert Moved(p, from, to)[|to|..] == p[|from|..];
    assert from + p[|from|..] == p;
  }

  lemma RenameAt(files: Files, from: Path, to: Path, p: Path)
    requires Apart(from, to) && Absent(files, to)
    ensures p in Rename(files, from, to) <==>
              if Under(p, to) then Moved(p, to, from) in files else p in files && !Under(p, from)
    ensures p in Rename(files, from, to) ==>
              Rename(files, from, to)[p] == (if Under(p, to) then files[Moved(p, to, from)] else files[p])
  {
    if Under(p, to) {
      MovedBack(p, to, from);
      if Under(p, from) { UnderBoth(p, from, to); }
      if Moved(p, to, from) in files {
        assert p in (set q | q in files && Under(q, from) :: Moved(q, from, to));
      }
    }
  }

  /** Renaming back restores every file. */
  lemma RenameBack(files: Files, from: Path, to: Path)
    requires Apart(from, to) && Absent(files, to)
    ensures Absent(Rename(files, from, to), from)
    ensures Rename(Rename(files, from, to), to, from) == files
  {
    var there := Rename(files, from, to);
    forall p | p in there ensures !Under(p, from) {
      RenameAt(files, from, to, p);
      if Under(p, from) && Under(p, to) { UnderBoth(p, from, to); }
    }
    var back := Rename(there, to, from);
    forall p
      ensures p in back <==> p in files
      ensures p in files ==> back[p] == files[p]
    {
      RenameAt(there, to, from, p);
      if Under(p, from) {
        MovedBack(p, from, to);
        RenameAt(files, from, to, Moved(p, from, to));
      } else {
        RenameAt(files, from, to, p);
      }
    }
  }

  // A path apart from both ends of a rename is not touched by it.
  lemma RenameElsewhere(files: Files, from: Path, to: Path, p: Path)
    requires Apart(from, to) && Absent(files, to) && Apart(p, from) && Apart(p, to)
    ensures p in Rename(files, from, to) <==> p in files
    ensures Absent(Rename(files, from, to), p) <==> Absent(files, p)
    ensures Tree(Rename(files, from, to), p) == Tree(files, p)
  {
    var there := Rename(files, from, to);
    forall q | Under(q, p)
      ensures q in there <==> q in files
      ensures q in files ==> there[q] == files[q]
    {
      RenameAt(files, from, to, q);
      if Under(q, from) { UnderBoth(q, p, from); }
      if Under(q, to) { UnderBoth(q, p, to); }
    }
    assert p[..|p|] == p;
    SameTree(files, there, p);
  }

  lemma TreeAt(files: Files, top: Path, r: Path)
    ensures r in Tree(files, top) <==> top + r in files
    ensures r in Tree(files, top) ==> Tree(files, top)[r] == files[top + r]
  {
    assert (top + r)[..|top|] == top && (top + r)[|top|..] == r;
    if top + r in files {
      assert Under(top + r, top);
      assert r in (set p | p in files && Under(p, top) :: p[|top|..]);
    }
  }

  lemma SameTree(files: Files, there: Files, p: Path)
    requires forall q :: Under(q, p) ==> (q in there <==> q in files) && (q in files ==> there[q] == files[q])
    ensures Tree(there, p) == Tree(files, p)
  {
    forall r
      ensures r in Tree(there, p) <==> r in Tree(files, p)
      ensures r in Tree(files, p) ==> Tree(there, p)[r] == Tree(files, p)[r]
    {
      TreeAt(files, p, r);
      TreeAt(there, p, r);
      assert (p + r)[..|p|] == p;
      assert Under(p + r, p);
    }
  }

  lemma TreeMoves(files: Files, from: Path, to: Path)
    requires Apart(from, to) && Absent(files, to)
    ensures Tree(Rename(files, from, to), to) == Tree(files, from)
    ensures to in Rename(files, from, to) <==> from in files
  {
    var there := Rename(files, from, to);
    forall r
      ensures r in Tree(there, to) <==> r in Tree(files, from)
      ensures r in Tree(files, from) ==> Tree(there, to)[r] == Tree(files, from)[r]
    {
      TreeAt(there, to, r);
      TreeAt(files, from, r);
      assert (to + r)[..|to|] == to && (to + r)[|to|..] == r;
      RenameAt(files, from, to, to + r);
    }
    RenameAt(files, from, to, to);
    assert to[..|to|] == to && to[|to|..] == [] && from + [] == from;
  }

  // ----- replacing

  datatype Prepared = Prepared(destination: Path, staged: Path, backup: Path)

  predicate OwnApart(p: Prepared) {
    Apart(p.destination, p.staged) && Apart(p.destination, p.backup) && Apart(p.staged, p.backup)
  }

  predicate AllApart(p: Prepared, q: Prepared) {
    && Apart(p.destination, q.destination) && Apart(p.destination, q.staged) && Apart(p.destination, q.backup)
    && Apart(p.staged, q.destination) && Apart(p.staged, q.staged) && Apart(p.staged, q.backup)
    && Apart(p.backup, q.destination) && Apart(p.backup, q.staged) && Apart(p.backup, q.backup)
  }

  // No directory that the installation renames lies in another one.
  ghost predicate Disjoint(prepared: seq<Prepared>) {
    && (forall i :: 0 <= i < |prepared| ==> OwnApart(prepared[i]))
    && (forall i, j :: 0 <= i < j < |prepared| ==> AllApart(prepared[i], prepared[j]))
  }

  function Parent(p: Path): Path
    requires p != []
  {
    p[..|p| - 1]
  }

  predicate IsDirectory(files: Files, p: Path) {
    p in files && files[p].Directory?
  }

  // A path whose parent is a directory.
  predicate Placeable(files: Files, p: Path) {
    p != [] && IsDirectory(files, Parent(p))
  }

  // A staged copy, no backup yet, and a destination that exists or has nothing in its place.
  ghost predicate Ready(files: Files, p: Prepared) {
    && p.staged in files && Absent(files, p.backup) && Tidy(files, p.destination)
    && Placeable(files, p.destination) && Placeable(files, p.staged) && Placeable(files, p.backup)
  }

  ghost predicate AllReady(files: Files, prepared: seq<Prepared>) {
    forall i :: 0 <= i < |prepared| ==> Ready(files, prepared[i])
  }

  function BackedUp(files: Files, p: Prepared): Files {
    if p.destination in files then Rename(files, p.destination, p.backup) else files
  }

  function Replaced(files: Files, p: Prepared): Files {
    Rename(BackedUp(files, p), p.staged, p.destination)
  }

  function ReplaceAll(files: Files, prepared: seq<Prepared>): Files {
    if prepared == [] then files
    else Replaced(ReplaceAll(files, prepared[..|prepared| - 1]), prepared[|prepared| - 1])
  }

  // One round of the rollback loop.
  function Restored(files: Files, p: Prepared): Files {
    var unstaged := if p.staged in files then files else Rename(files, p.destination, p.staged);
    if p.backup in unstaged then Rename(unstaged, p.backup, p.destination) else unstaged
  }

  // What lies neither below the source nor below the target of a rename stays.
  lemma RenameKeeps(files: Files, from: Path, to: Path, at: Path)
    requires Apart(from, to) && Absent(files, to) && !Under(at, from) && !Under(at, to)
    ensures at in Rename(files, from, to) <==> at in files
    ensures at in files ==> Rename(files, from, to)[at] == files[at]
  {
    RenameAt(files, from, to, at);
  }

  lemma UnderParent(p: Path, top: Path)
    requires p != []
    ensures Under(Parent(p), top) ==> Under(p, top)
  {
    if Under(Parent(p), top) { assert p[..|top|] == Parent(p)[..|top|]; }
  }

  lemma RenamePlaceable(files: Files, from: Path, to: Path, p: Path)
    requires Apart(from, to) && Absent(files, to) && !Under(p, from) && !Under(p, to) && Placeable(files, p)
    ensures Placeable(Rename(files, from, to), p)
  {
    UnderParent(p, from);
    UnderParent(p, to);
    RenameKeeps(files, from, to, Parent(p));
  }

  // The ends of a rename stay placeable themselves.
  lemma RenameEnds(files: Files, from: Path, to: Path)
    requires Apart(from, to) && Absent(files, to) && Placeable(files, from) && Placeable(files, to)
    ensures Placeable(Rename(files, from, to), from) && Placeable(Rename(files, from, to), to)
  {
    UnderParent(from, to);
    UnderParent(to, from);
    RenameKeeps(files, from, to, Parent(from));
    RenameKeeps(files, from, to, Parent(to));
  }

  lemma BackedUpReady(files: Files, p: Prepared)
    requires OwnApart(p) && Ready(files, p)
    ensures var b := BackedUp(files, p);
            && p.staged in b && Absent(b, p.destination) && Tree(b, p.staged) == Tree(files, p.staged)
            && (p.backup in b <==> p.destination in files)
            && (p.destination !in files ==> Absent(b, p.backup))
            && Placeable(b, p.destination) && Placeable(b, p.staged) && Placeable(b, p.backup)
  {
    if p.destination in files {
      RenameEnds(files, p.destination, p.backup);
      RenamePlaceable(files, p.destination, p.backup, p.staged);
      RenameBack(files, p.destination, p.backup);
      RenameElsewhere(files, p.destination, p.backup, p.staged);
      TreeMoves(files, p.destination, p.backup);
    }
    assert p.backup[..|p.backup|] == p.backup;
  }

  /** Rolling back an entry undoes whatever was done for it: nothing, its backup, or its replacement. */
  lemma RestoredUndoes(files: Files, p: Prepared)
    requires OwnApart(p) && Ready(files, p)
    ensures Restored(files, p) == files
    ensures Restored(BackedUp(files, p), p) == files
    ensures Restored(Replaced(files, p), p) == files
    ensures p.staged !in Replaced(files, p)
  {
    BackedUpReady(files, p);
    assert p.backup[..|p.backup|] == p.backup && p.staged[..|p.staged|] == p.staged;
    if p.destination in files { RenameBack(files, p.destination, p.backup); }
    RenameBack(BackedUp(files, p), p.staged, p.destination);
  }

  lemma ReplacedElsewhere(files: Files, p: Prepared, at: Path)
    requires OwnApart(p) && Ready(files, p)
    requires Apart(at, p.destination) && Apart(at, p.staged) && Apart(at, p.backup)
    ensures at in Replaced(files, p) <==> at in files
    ensures Absent(Replaced(files, p), at) <==> Absent(files, at)
    ensures Tree(Replaced(files, p), at) == Tree(files, at)
    ensures at in BackedUp(files, p) <==> at in files
    ensures Absent(BackedUp(files, p), at) <==> Absent(files, at)
    ensures Placeable(files, at) ==> Placeable(BackedUp(files, p), at) && Placeable(Replaced(files, p), at)
  {
    BackedUpReady(files, p);
    if p.destination in files { RenameElsewhere(files, p.destination, p.backup, at); }
    RenameElsewhere(BackedUp(files, p), p.staged, p.destination, at);
    if Placeable(files, at) {
      if p.destination in files { RenamePlaceable(files, p.destination, p.backup, at); }
      RenamePlaceable(BackedUp(files, p), p.staged, p.destination, at);
    }
  }

  lemma ReplacedKeepsReady(files: Files, p: Prepared, q: Prepared)
    requires OwnApart(p) && Ready(files, p) && Ready(files, q) && (AllApart(p, q) || AllApart(q, p))
    ensures Ready(Replaced(files, p), q) && Ready(BackedUp(files, p), q)
    ensures Tree(Replaced(files, p), q.staged) == Tree(files, q.staged)
  {
    ReplacedElsewhere(files, p, q.destination);
    ReplacedElsewhere(files, p, q.staged);
    ReplacedElsewhere(files, p, q.backup);
  }

  lemma {:induction false} ReplaceAllKeepsReady(files: Files, prepared: seq<Prepared>, k: nat, j: nat)
    requires Disjoint(prepared) && k <= j < |prepared|
    requires AllReady(files, prepared)
    ensures Ready(ReplaceAll(files, prepared[..k]), prepared[j])
    ensures Tree(ReplaceAll(files, prepared[..k]), prepared[j].staged) == Tree(files, prepared[j].staged)
    decreases k
  {
    if k > 0 {
      assert prepared[..k][..k - 1] == prepared[..k - 1];
      ReplaceAllKeepsReady(files, prepared, k - 1, k - 1);
      ReplaceAllKeepsReady(files, prepared, k - 1, j);
      ReplacedKeepsReady(ReplaceAll(files, prepared[..k - 1]), prepared[k - 1], prepared[j]);
    }
  }

  /** With no failure every destination holds the copy that was staged for it. */
  lemma {:induction false} ReplaceAllInstalls(files: Files, prepared: seq<Prepared>, k: nat, j: nat)
    requires Disjoint(prepared) && j < k <= |prepared|
    requires AllReady(files, prepared)
    ensures Tree(ReplaceAll(files, prepared[..k]), prepared[j].destination) == Tree(files, prepared[j].staged)
    decreases k
  {
    hide Tree, Rename, Apart, OwnApart, Tidy, Absent, Placeable, Ready, Replaced, BackedUp;
    var before := ReplaceAll(files, prepared[..k - 1]);
    assert prepared[..k][..k - 1] == prepared[..k - 1];
    ReplaceAllKeepsReady(files, prepared, k - 1, k - 1);
    if j == k - 1 {
      InstalledHere(before, prepared[j]);
    } else {
      ReplaceAllInstalls(files, prepared, k - 1, j);
      assert AllApart(prepared[j], prepared[k - 1]);
      ReplacedElsewhere(before, prepared[k - 1], prepared[j].destination);
    }
  }

  lemma InstalledHere(files: Files, p: Prepared)
    requires OwnApart(p) && Ready(files, p)
    ensures Tree(Replaced(files, p), p.destination) == Tree(files, p.staged)
  {
    BackedUpReady(files, p);
    TreeMoves(BackedUp(files, p), p.staged, p.destination);
  }

  // ----- a run

  // `from` is there, and nothing is in the place that it moves to. (A directory can also be moved onto an empty one,
  // which never happens here.)
  ghost predicate CanRename(files: Files, from: Path, to: Path) {
    from in files && Placeable(files, to) && Apart(from, to) && Absent(files, to)
  }

  datatype State = State(files: Files, renames: nat)

  datatype Step = Step(state: State, ok: bool)

  // The rename with number `fault`, if any, fails, as does one that cannot be carried out.
  ghost function TryRename(fault: Option<nat>, s: State, from: Path, to: Path): Step {
    var ok := CanRename(s.files, from, to) && fault != Some(s.renames);
    Step(State(if ok then Rename(s.files, from, to) else s.files, s.renames + 1), ok)
  }

  // One round of the loop over destinations.
  ghost function ReplaceOne(fault: Option<nat>, s: State, p: Prepared): Step {
    var backed := if p.destination in s.files then TryRename(fault, s, p.destination, p.backup) else Step(s, true);
    if backed.ok then TryRename(fault, backed.state, p.staged, p.destination) else backed
  }

  ghost function ReplaceEach(fault: Option<nat>, s: State, prepared: seq<Prepared>): Step {
    if prepared == [] then Step(s, true)
    else
      var before := ReplaceEach(fault, s, prepared[..|prepared| - 1]);
      if before.ok then ReplaceOne(fault, before.state, prepared[|prepared| - 1]) else before
  }

  // One round of the rollback loop.
  ghost function RestoreOne(fault: Option<nat>, s: State, p: Prepared): Step {
    var unstaged := if p.staged in s.files then Step(s, true) else TryRename(fault, s, p.destination, p.staged);
    if unstaged.ok && p.backup in unstaged.state.files then TryRename(fault, unstaged.state, p.backup, p.destination)
    else unstaged
  }

  ghost function RestoreEach(fault: Option<nat>, s: State, prepared: seq<Prepared>): Step
    decreases |prepared|
  {
    if prepared == [] then Step(s, true)
    else
      var last := RestoreOne(fault, s, prepared[|prepared| - 1]);
      if last.ok then RestoreEach(fault, last.state, prepared[..|prepared| - 1]) else last
  }

  // `Stuck`: the rollback failed itself, and its error is the one that is raised.
  datatype Outcome = Installed | RolledBack | Stuck

  datatype End = End(state: State, outcome: Outcome)

  ghost function Run(fault: Option<nat>, s: State, prepared: seq<Prepared>): End {
    var replaced := ReplaceEach(fault, s, prepared);
    if replaced.ok then End(replaced.state, Installed)
    else
      var restored := RestoreEach(fault, replaced.state, prepared);
      End(restored.state, if restored.ok then RolledBack else Stuck)
  }

  class Disk {
    var files: Files
    var renames: nat
    const fault: Option<nat>

    constructor (files: Files, fault: Option<nat>)
      ensures this.files == files && renames == 0 && this.fault == fault
    {
      this.files := files;
      renames := 0;
      this.fault := fault;
    }

    ghost function Now(): State
      reads this
    {
      State(files, renames)
    }

    method Move(from: Path, to: Path) returns (ok: bool)
      modifies this
      ensures Step(Now(), ok) == TryRename(fault, old(Now()), from, to)
    {
      ok := from in files && to != [] && IsDirectory(files, Parent(to)) && Apart(from, to)
            && (forall p :: p in files ==> !Under(p, to)) && fault != Some(renames);
      if ok {
        files := Rename(files, from, to);
      }
      renames := renames + 1;
    }
  }

  /** `_install_skill`, once every copy is staged. */
  method Replace(disk: Disk, prepared: seq<Prepared>) returns (outcome: Outcome)
    modifies disk
    ensures End(disk.Now(), outcome) == Run(disk.fault, old(disk.Now()), prepared)
    ensures old(disk.renames) == 0 && Disjoint(prepared) && AllReady(old(disk.files), prepared) ==>
              Safe(disk.fault, old(disk.files), prepared, End(disk.Now(), outcome))
  {
    hide TryRename, RestoreEach, Safe, Disjoint, AllReady;
    ghost var start := disk.Now();
    if start.renames == 0 && Disjoint(prepared) && AllReady(start.files, prepared) {
      RunSafe(disk.fault, start.files, prepared);
    }
    var k, ok := 0, true;
    while k < |prepared| && ok
      invariant 0 <= k <= |prepared|
      invariant ok ==> Step(disk.Now(), true) == ReplaceEach(disk.fault, start, prepared[..k])
      invariant !ok ==> Step(disk.Now(), false) == ReplaceEach(disk.fault, start, prepared)
      decreases |prepared| - k, ok
    {
      var p := prepared[k];
      assert prepared[..k + 1][..k] == prepared[..k];
      if p.destination in disk.files {
        ok := disk.Move(p.destination, p.backup);
      }
      if ok {
        ok := disk.Move(p.staged, p.destination);
      }
      if ok {
        k := k + 1;
      } else {
        ReplaceStops(disk.fault, start, prepared, k + 1);
      }
    }
    assert prepared[..|prepared|] == prepared;
    if ok {
      return Installed;
    }
    ok := RollBack(disk, prepared);
    return if ok then RolledBack else Stuck;
  }

  lemma {:induction false} ReplaceStops(fault: Option<nat>, s: State, prepared: seq<Prepared>, k: nat)
    requires k <= |prepared| && !ReplaceEach(fault, s, prepared[..k]).ok
    ensures ReplaceEach(fault, s, prepared) == ReplaceEach(fault, s, prepared[..k])
    decreases |prepared| - k
  {
    if k < |prepared| {
      assert prepared[..k + 1][..k] == prepared[..k];
      ReplaceStops(fault, s, prepared, k + 1);
    } else {
      assert prepared[..k] == prepared;
    }
  }

  /** The rollback loop */
  method RollBack(disk: Disk, prepared: seq<Prepared>) returns (ok: bool)
    modifies disk
    ensures Step(disk.Now(), ok) == RestoreEach(disk.fault, old(disk.Now()), prepared)
  {
    hide TryRename;
    ghost var start := disk.Now();
    var i := |prepared|;
    assert prepared[..i] == prepared;
    while i > 0
      invariant 0 <= i <= |prepared|
      invariant RestoreEach(disk.fault, start, prepared) == RestoreEach(disk.fault, disk.Now(), prepared[..i])
    {
      i := i - 1;
      assert prepared[..i + 1][..i] == prepared[..i];
      var p := prepared[i];
      ok := true;
      if p.staged !in disk.files {
        ok := disk.Move(p.destination, p.staged);
      }
      if ok && p.backup in disk.files {
        ok := disk.Move(p.backup, p.destination);
      }
      if !ok {
        return false;
      }
    }
    return true;
  }

  // ----- with directories apart

  // Everything or nothing.
  ghost predicate Safe(fault: Option<nat>, files: Files, prepared: seq<Prepared>, end: End) {
    && !end.outcome.Stuck? && (fault.None? ==> end.outcome.Installed?)
    && (end.outcome.Installed? ==>
          && end.state.files == ReplaceAll(files, prepared)
          && forall i :: 0 <= i < |prepared| ==>
               Tree(end.state.files, prepared[i].destination) == Tree(files, prepared[i].staged))
    && (end.outcome.RolledBack? ==> end.state.files == files)
  }

  // Where a failure while entry `k` is being replaced leaves the files.
  ghost predicate Interrupted(files: Files, prepared: seq<Prepared>, k: nat, now: Files)
    requires k < |prepared|
  {
    var before := ReplaceAll(files, prepared[..k]);
    now == before || now == BackedUp(before, prepared[k])
  }

  ghost predicate Over(fault: Option<nat>, s: State) {
    fault.Some? && fault.value < s.renames
  }

  ghost predicate Ahead(fault: Option<nat>, s: State) {
    fault.Some? ==> s.renames <= fault.value
  }

  lemma ReplaceOneSafe(fault: Option<nat>, s: State, p: Prepared)
    requires OwnApart(p) && Ready(s.files, p) && Ahead(fault, s)
    ensures var r := ReplaceOne(fault, s, p);
            && (r.ok ==> r.state.files == Replaced(s.files, p) && Ahead(fault, r.state))
            && (!r.ok ==> Over(fault, r.state) && (r.state.files == s.files || r.state.files == BackedUp(s.files, p)))
  {
    hide Rename, Tree, Absent, Placeable, Tidy, Under;
    BackedUpReady(s.files, p);
  }

  lemma {:induction false} ReplaceEachSafe(fault: Option<nat>, files: Files, prepared: seq<Prepared>, k: nat) returns (j: nat)
    requires Disjoint(prepared) && AllReady(files, prepared) && k <= |prepared|
    ensures var r := ReplaceEach(fault, State(files, 0), prepared[..k]);
            && (r.ok ==> r.state.files == ReplaceAll(files, prepared[..k]) && Ahead(fault, r.state))
            && (!r.ok ==> j < k && Over(fault, r.state) && Interrupted(files, prepared, j, r.state.files))
    decreases k
  {
    hide OwnApart, AllApart, Ready, AllReady, ReplaceOne, Replaced, BackedUp;
    j := 0;
    if k > 0 {
      assert prepared[..k][..k - 1] == prepared[..k - 1];
      j := ReplaceEachSafe(fault, files, prepared, k - 1);
      var before := ReplaceEach(fault, State(files, 0), prepared[..k - 1]);
      if before.ok {
        ReplaceAllKeepsReady(files, prepared, k - 1, k - 1);
        ReplaceOneSafe(fault, before.state, prepared[k - 1]);
        j := k - 1;
      }
    }
  }

  // The fault has happened already, so the rollback cannot fail.
  lemma RestoreOneSafe(fault: Option<nat>, s: State, p: Prepared, start: Files)
    requires Undoes(s.files, p, start) && Over(fault, s)
    ensures var r := RestoreOne(fault, s, p); r.ok && r.state.files == start && Over(fault, r.state)
  {
    hide Rename, Apart, Absent, Placeable;
  }

  lemma {:induction false} RestoreEachSafe(
      fault: Option<nat>, s: State, files: Files, prepared: seq<Prepared>, k: nat, i: nat)
    requires Disjoint(prepared) && AllReady(files, prepared) && k < |prepared| && i <= |prepared| && Over(fault, s)
    requires if i > k then Interrupted(files, prepared, k, s.files) else s.files == ReplaceAll(files, prepared[..i])
    ensures var r := RestoreEach(fault, s, prepared[..i]); r.ok && r.state.files == files
    decreases i
  {
    hide RestoreOne, Undoes, Disjoint, AllReady;
    if i > 0 {
      assert prepared[..i][..i - 1] == prepared[..i - 1];
      UndoStep(files, prepared, k, i - 1, s.files);
      var start := if i - 1 > k then s.files else ReplaceAll(files, prepared[..i - 1]);
      RestoreOneSafe(fault, s, prepared[i - 1], start);
      RestoreEachSafe(fault, RestoreOne(fault, s, prepared[i - 1]).state, files, prepared, k, i - 1);
    } else {
      assert prepared[..0] == [];
    }
  }

  /** All or nothing: with directories that lie apart, a failure of any single rename leaves every file as it was,
      and without one every destination holds the copy staged for it. */
  lemma RunSafe(fault: Option<nat>, files: Files, prepared: seq<Prepared>)
    requires Disjoint(prepared) && AllReady(files, prepared)
    ensures Safe(fault, files, prepared, Run(fault, State(files, 0), prepared))
  {
    assert prepared[..|prepared|] == prepared;
    var k := ReplaceEachSafe(fault, files, prepared, |prepared|);
    var replaced := ReplaceEach(fault, State(files, 0), prepared);
    if replaced.ok {
      forall i | 0 <= i < |prepared|
        ensures Tree(replaced.state.files, prepared[i].destination) == Tree(files, prepared[i].staged)
      {
        ReplaceAllInstalls(files, prepared, |prepared|, i);
      }
    } else {
      RestoreEachSafe(fault, replaced.state, files, prepared, k, |prepared|);
    }
  }

  // What one round of the rollback can do, and that it leads back to `start`.
  ghost predicate Undoes(files: Files, p: Prepared, start: Files) {
    && Restored(files, p) == start
    && (p.staged !in files ==> CanRename(files, p.destination, p.staged))
    && var unstaged := if p.staged in files then files else Rename(files, p.destination, p.staged);
       (p.backup in unstaged ==> CanRename(unstaged, p.backup, p.destination))
  }

  lemma UndoOne(files: Files, p: Prepared, start: Files)
    requires OwnApart(p) && Ready(start, p)
    requires files == start || files == BackedUp(start, p) || files == Replaced(start, p)
    ensures Undoes(files, p, start)
  {
    RestoredUndoes(start, p);
    BackedUpReady(start, p);
    ReplacedShape(start, p);
    RenameEnds(BackedUp(start, p), p.staged, p.destination);
    assert p.backup[..|p.backup|] == p.backup;
    hide Rename, Placeable, Tidy;
  }

  // The state before entry `i` was touched, as the rollback finds it when it reaches that entry.
  lemma UndoStep(initial: Files, prepared: seq<Prepared>, k: nat, i: nat, files: Files)
    requires Disjoint(prepared) && k < |prepared| && i < |prepared|
    requires AllReady(initial, prepared)
    requires if i >= k then Interrupted(initial, prepared, k, files) else files == ReplaceAll(initial, prepared[..i + 1])
    ensures Undoes(files, prepared[i], if i > k then files else ReplaceAll(initial, prepared[..i]))
  {
    ReplaceAllKeepsReady(initial, prepared, if i < k then i else k, i);
    if i > k {
      ReplaceAllKeepsReady(initial, prepared, k, k);
      assert AllApart(prepared[k], prepared[i]);
      ReplacedKeepsReady(ReplaceAll(initial, prepared[..k]), prepared[k], prepared[i]);
      UndoOne(files, prepared[i], files);
    } else {
      assert prepared[..i + 1][..i] == prepared[..i];
      UndoOne(files, prepared[i], ReplaceAll(initial, prepared[..i]));
    }
  }

  lemma ReplacedShape(files: Files, p: Prepared)
    requires OwnApart(p) && Ready(files, p)
    ensures p.destination in Replaced(files, p) && Absent(Replaced(files, p), p.staged)
    ensures Rename(Replaced(files, p), p.destination, p.staged) == BackedUp(files, p)
  {
    BackedUpReady(files, p);
    RenameBack(BackedUp(files, p), p.staged, p.destination);
    TreeMoves(BackedUp(files, p), p.staged, p.destination);
  }
}
