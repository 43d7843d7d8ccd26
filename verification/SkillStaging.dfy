/**
 When installing the skill works, `_install_skill` of `fastapi_canon/cli.py`: for distinct destinations, each
 with a copy staged in a fresh temporary directory beside it.
 */
module SkillStaging {
  import opened Wrappers
  import opened Paths
  import opened SkillInstall

  const SKILL := Part("skill")
  const PREVIOUS := Part("previous")

  function Temporary(destination: Path, name: Part): Path
    requires destination != []
  {
    Parent(destination) + [name]
  }

  function Prepare(destination: Path, name: Part): Prepared
    requires destination != []
  {
    var temporary := Temporary(destination, name);
    Prepared(destination, temporary + [SKILL], temporary + [PREVIOUS])
  }

  predicate NoneEmpty(destinations: seq<Path>) {
    forall i :: 0 <= i < |destinations| ==> destinations[i] != []
  }

  function PrepareAll(destinations: seq<Path>, names: seq<Part>): seq<Prepared>
    requires |names| == |destinations| && NoneEmpty(destinations)
  {
    seq(|names|, i requires 0 <= i < |names| => Prepare(destinations[i], names[i]))
  }

  // Everything lies in a directory.
  ghost predicate WellFormed(files: Files) {
    forall p :: p in files && p != [] ==> IsDirectory(files, Parent(p))
  }

  // A copy of the bundled directory is staged in the temporary directory, which holds nothing else.
  ghost predicate StagedIn(files: Files, temporary: Path, copy: map<Path, Node>) {
    && IsDirectory(files, temporary) && Tree(files, temporary + [SKILL]) == copy
    && Absent(files, temporary + [PREVIOUS])
  }

  // Temporary directories are new, so no destination lies in one.
  ghost predicate Fresh(destinations: seq<Path>, names: seq<Part>)
    requires |names| == |destinations| && NoneEmpty(destinations)
  {
    && (forall i, j :: 0 <= i < |names| && 0 <= j < |names| ==> !Under(destinations[j], Temporary(destinations[i], names[i])))
    && (forall i, j :: 0 <= i < j < |names| ==> Temporary(destinations[i], names[i]) != Temporary(destinations[j], names[j]))
  }

  // The files once every copy is staged.
  ghost predicate Staged(files: Files, destinations: seq<Path>, names: seq<Part>, copy: map<Path, Node>) {
    && |names| == |destinations| && NoneEmpty(destinations)
    && (forall i, j :: 0 <= i < j < |destinations| ==> destinations[i] != destinations[j])
    && WellFormed(files) && [] in copy && Fresh(destinations, names)
    && (forall i :: 0 <= i < |names| ==> StagedIn(files, Temporary(destinations[i], names[i]), copy))
  }

  ghost predicate AllHold(files: Files, destinations: seq<Path>, copy: map<Path, Node>) {
    forall i :: 0 <= i < |destinations| ==> Tree(files, destinations[i]) == copy
  }

  ghost predicate PairwiseApart(destinations: seq<Path>) {
    forall i, j :: 0 <= i < j < |destinations| ==> Apart(destinations[i], destinations[j])
  }

  // ----- apart destinations have disjoint directories

  lemma UnderChain(q: Path, p: Path, top: Path)
    ensures Under(q, p) && Under(p, top) ==> Under(q, top)
    ensures Under(p, p)
  {
    if Under(q, p) && Under(p, top) { assert q[..|p|][..|top|] == q[..|top|]; }
    assert p[..|p|] == p;
  }

  // What lies above a path with a name appended is that path, or lies above the shorter one.
  lemma AboveAppended(p: Path, last: Part, top: Path)
    ensures Under(p + [last], top) <==> top == p + [last] || Under(p, top)
  {
    var longer := p + [last];
    assert longer[..|longer|] == longer;
    if |top| <= |p| { assert longer[..|top|] == p[..|top|]; }
  }

  // A destination and a directory staged for one that it does not lie above.
  lemma DestinationApart(destinations: seq<Path>, names: seq<Part>, i: nat, j: nat, last: Part)
    requires |names| == |destinations| && NoneEmpty(destinations) && Fresh(destinations, names)
    requires i < |names| && j < |names| && (i == j || Apart(destinations[i], destinations[j]))
    ensures Apart(destinations[i], Temporary(destinations[j], names[j]) + [last])
  {
    var d, t := destinations[i], Temporary(destinations[j], names[j]);
    var inside := t + [last];
    AboveAppended(t, last, t);
    UnderChain(d, inside, t);
    UnderChain(d, t, t);
    UnderChain(inside, inside, t);
    AboveAppended(t, last, d);
    AboveAppended(Parent(destinations[j]), names[j], d);
    UnderParent(destinations[j], d);
  }

  lemma TemporariesApart(destinations: seq<Path>, names: seq<Part>, i: nat, j: nat)
    requires |names| == |destinations| && NoneEmpty(destinations) && Fresh(destinations, names)
    requires i < |names| && j < |names| && i != j
    ensures Apart(Temporary(destinations[i], names[i]), Temporary(destinations[j], names[j]))
  {
    var a, b := Temporary(destinations[i], names[i]), Temporary(destinations[j], names[j]);
    AboveAppended(Parent(destinations[i]), names[i], b);
    AboveAppended(Parent(destinations[j]), names[j], a);
    UnderParent(destinations[i], b);
    UnderParent(destinations[j], a);
  }

  lemma NotBoth(p: Path, a: Path, b: Path)
    ensures Apart(a, b) ==> !Under(p, a) || !Under(p, b)
  {
    if Under(p, a) && Under(p, b) { UnderBoth(p, a, b); }
  }

  lemma InsideApart(a: Path, b: Path, x: Part, y: Part)
    requires Apart(a, b) || (a == b && x != y)
    ensures Apart(a + [x], b + [y])
  {
    var p, q := a + [x], b + [y];
    assert p[|a|] == x && q[|b|] == y;
    AboveAppended(a, x, q);
    AboveAppended(b, y, p);
    AboveAppended(a, x, a);
    AboveAppended(b, y, b);
    UnderChain(a, q, b);
    UnderChain(b, p, a);
    NotBoth(q, a, b);
    UnderChain(a, a, a);
    UnderChain(b, b, b);
  }

  lemma ApartDisjoint(destinations: seq<Path>, names: seq<Part>)
    requires |names| == |destinations| && NoneEmpty(destinations) && Fresh(destinations, names)
    requires PairwiseApart(destinations)
    ensures Disjoint(PrepareAll(destinations, names))
  {
    var prepared := PrepareAll(destinations, names);
    forall i | 0 <= i < |prepared| ensures OwnApart(prepared[i]) {
      DestinationApart(destinations, names, i, i, SKILL);
      DestinationApart(destinations, names, i, i, PREVIOUS);
      InsideApart(Temporary(destinations[i], names[i]), Temporary(destinations[i], names[i]), SKILL, PREVIOUS);
    }
    forall i, j | 0 <= i < j < |prepared| ensures AllApart(prepared[i], prepared[j]) {
      var a, b := Temporary(destinations[i], names[i]), Temporary(destinations[j], names[j]);
      DestinationApart(destinations, names, i, j, SKILL);
      DestinationApart(destinations, names, i, j, PREVIOUS);
      DestinationApart(destinations, names, j, i, SKILL);
      DestinationApart(destinations, names, j, i, PREVIOUS);
      TemporariesApart(destinations, names, i, j);
      InsideApart(a, b, SKILL, SKILL);
      InsideApart(a, b, SKILL, PREVIOUS);
      InsideApart(a, b, PREVIOUS, SKILL);
      InsideApart(a, b, PREVIOUS, PREVIOUS);
      hide Under, Temporary;
    }
  }

  lemma {:induction false} NothingBelowMissing(files: Files, top: Path, p: Path)
    requires WellFormed(files) && p in files && Under(p, top)
    ensures top in files
    decreases |p|
  {
    if |p| > |top| {
      assert Parent(p)[..|top|] == p[..|top|];
      NothingBelowMissing(files, top, Parent(p));
    } else {
      assert p[..|top|] == p;
    }
  }

  lemma StagedReady(files: Files, destinations: seq<Path>, names: seq<Part>, copy: map<Path, Node>, i: nat)
    requires Staged(files, destinations, names, copy) && i < |names|
    ensures Ready(files, Prepare(destinations[i], names[i]))
  {
    var t := Temporary(destinations[i], names[i]);
    TreeAt(files, t + [SKILL], []);
    assert t + [SKILL] + [] == t + [SKILL];
    assert Parent(t + [SKILL]) == t && Parent(t + [PREVIOUS]) == t && Parent(t) == Parent(destinations[i]);
    if destinations[i] !in files {
      forall p | p in files ensures !Under(p, destinations[i]) {
        if Under(p, destinations[i]) { NothingBelowMissing(files, destinations[i], p); }
      }
    }
  }

  // ----- nested destinations cannot all hold the copy

  lemma {:induction false} LongestPath(paths: set<Path>) returns (longest: Path)
    requires paths != {}
    ensures longest in paths && forall p :: p in paths ==> |p| <= |longest|
    decreases paths
  {
    var first :| first in paths;
    var rest := paths - {first};
    longest := first;
    if rest != {} {
      var other := LongestPath(rest);
      longest := if |other| > |first| then other else first;
    }
    assert forall p :: p in paths <==> p in rest || p == first;
  }

  // No tree is its own subtree.
  lemma NotWithinItself(files: Files, outer: Path, inner: Path)
    requires Under(inner, outer) && inner != outer && [] in Tree(files, outer)
    ensures Tree(files, inner) != Tree(files, outer)
  {
    var r := inner[|outer|..];
    assert outer + r == inner;
    var longest := LongestPath(Tree(files, outer).Keys);
    assert r + longest !in Tree(files, outer);
    TreeAt(files, outer, r + longest);
    TreeAt(files, inner, longest);
    assert inner + longest == outer + (r + longest);
  }

  /** Without a fault, the installer leaves its copy in every destination exactly when no destination lies in
      another one; that they differ is all that it checks. */
  lemma InstallsExactly(files: Files, destinations: seq<Path>, names: seq<Part>, copy: map<Path, Node>)
    requires Staged(files, destinations, names, copy)
    ensures var end := Run(None, State(files, 0), PrepareAll(destinations, names));
            end.outcome.Installed? && AllHold(end.state.files, destinations, copy) <==> PairwiseApart(destinations)
  {
    hide Run, Tree, Temporary;
    var end := Run(None, State(files, 0), PrepareAll(destinations, names));
    if PairwiseApart(destinations) {
      ApartInstalls(files, destinations, names, copy);
    } else {
      var i, j :| 0 <= i < j < |destinations| && !Apart(destinations[i], destinations[j]);
      NestedMissed(end.state.files, destinations, copy, i, j);
    }
  }

  lemma ApartInstalls(files: Files, destinations: seq<Path>, names: seq<Part>, copy: map<Path, Node>)
    requires Staged(files, destinations, names, copy) && PairwiseApart(destinations)
    ensures var end := Run(None, State(files, 0), PrepareAll(destinations, names));
            end.outcome.Installed? && AllHold(end.state.files, destinations, copy)
  {
    var prepared := PrepareAll(destinations, names);
    InstallsOrRestores(None, files, destinations, names, copy);
    hide Run, Tree, Temporary;
    var end := Run(None, State(files, 0), prepared);
    forall i | 0 <= i < |destinations| ensures Tree(end.state.files, destinations[i]) == copy {
      assert Tree(end.state.files, prepared[i].destination) == Tree(files, prepared[i].staged);
    }
  }

  lemma NestedMissed(files: Files, destinations: seq<Path>, copy: map<Path, Node>, i: nat, j: nat)
    requires i < |destinations| && j < |destinations| && [] in copy
    requires destinations[i] != destinations[j] && !Apart(destinations[i], destinations[j])
    ensures !AllHold(files, destinations, copy)
  {
    if AllHold(files, destinations, copy) {
      assert Tree(files, destinations[i]) == copy && Tree(files, destinations[j]) == copy;
      if Under(destinations[j], destinations[i]) {
        NotWithinItself(files, destinations[i], destinations[j]);
      } else {
        NotWithinItself(files, destinations[j], destinations[i]);
      }
    }
  }

  /** What every run keeps, when destinations lie apart: a failure at any single rename leaves all files as they
      were staged. */
  lemma InstallsOrRestores(
      fault: Option<nat>, files: Files, destinations: seq<Path>, names: seq<Part>, copy: map<Path, Node>)
    requires Staged(files, destinations, names, copy) && PairwiseApart(destinations)
    ensures Safe(fault, files, PrepareAll(destinations, names), Run(fault, State(files, 0), PrepareAll(destinations, names)))
  {
    var prepared := PrepareAll(destinations, names);
    ApartDisjoint(destinations, names);
    forall i | 0 <= i < |prepared| ensures Ready(files, prepared[i]) {
      StagedReady(files, destinations, names, copy, i);
    }
    RunSafe(fault, files, prepared);
  }

  // ----- what happens to nested destinations

  // After the outer destination was replaced, the inner one's temporary directory is gone.
  lemma StagedCopyGone(files: Files, destinations: seq<Path>, names: seq<Part>, copy: map<Path, Node>)
    requires Staged(files, destinations, names, copy) && |names| == 2 && Under(destinations[1], destinations[0])
    requires Temporary(destinations[1], names[1])[|destinations[0]|..] !in copy
    ensures var p, q := Prepare(destinations[0], names[0]), Prepare(destinations[1], names[1]);
            var now := Replaced(files, p);
            && destinations[0] in files && OwnApart(p) && Ready(files, p)
            && Tree(now, p.destination) == copy && Tree(now, p.backup) == Tree(files, p.destination)
            && Parent(q.staged) !in now && Parent(q.backup) !in now && q.staged !in now
  {
    var a, b := destinations[0], destinations[1];
    var p := Prepare(a, names[0]);
    OuterReady(files, destinations, names, copy);
    InnerBelow(a, b, names[1]);
    NothingBelowMissing(files, a, Temporary(b, names[1]));
    OuterReplaced(files, p);
    InnerGone(Replaced(files, p), files, p, b, names[1]);
  }

  lemma OuterReady(files: Files, destinations: seq<Path>, names: seq<Part>, copy: map<Path, Node>)
    requires Staged(files, destinations, names, copy) && |names| == 2
    ensures OwnApart(Prepare(destinations[0], names[0])) && Ready(files, Prepare(destinations[0], names[0]))
  {
    DestinationApart(destinations, names, 0, 0, SKILL);
    DestinationApart(destinations, names, 0, 0, PREVIOUS);
    InsideApart(Temporary(destinations[0], names[0]), Temporary(destinations[0], names[0]), SKILL, PREVIOUS);
    StagedReady(files, destinations, names, copy, 0);
  }

  lemma OuterReplaced(files: Files, p: Prepared)
    requires OwnApart(p) && Ready(files, p) && p.destination in files
    ensures Tree(Replaced(files, p), p.destination) == Tree(files, p.staged)
    ensures Tree(Replaced(files, p), p.backup) == Tree(files, p.destination)
  {
    BackedUpReady(files, p);
    InstalledHere(files, p);
    TreeMoves(files, p.destination, p.backup);
    RenameElsewhere(BackedUp(files, p), p.staged, p.destination, p.backup);
  }

  lemma InnerGone(now: Files, files: Files, p: Prepared, b: Path, name: Part)
    requires WellFormed(files) && b != [] && Under(Temporary(b, name), p.destination)
    requires Tree(now, p.destination) == Tree(files, p.staged)
    requires Temporary(b, name)[|p.destination|..] !in Tree(files, p.staged)
    ensures Temporary(b, name) !in now && Temporary(b, name) + [SKILL] !in now
  {
    hide WellFormed, Tree, Temporary;
    var a, t := p.destination, Temporary(b, name);
    var r := t[|a|..];
    assert a + r == t && a + (r + [SKILL]) == t + [SKILL];
    CopyWellFormed(files, p.staged, r);
    TreeAt(now, a, r);
    TreeAt(now, a, r + [SKILL]);
  }

  lemma InnerBelow(a: Path, b: Path, name: Part)
    requires a != [] && b != [] && a != b && Under(b, a)
    ensures Under(Temporary(b, name), a)
  {
    assert b[..|b|] == b && |b| > |a|;
    assert Temporary(b, name)[..|a|] == b[..|a|];
  }

  lemma CopyWellFormed(files: Files, top: Path, r: Path)
    requires WellFormed(files) && r !in Tree(files, top)
    ensures r + [SKILL] !in Tree(files, top)
  {
    TreeAt(files, top, r);
    TreeAt(files, top, r + [SKILL]);
    assert Parent(top + (r + [SKILL])) == top + r;
  }

  /** A destination inside an earlier one: the run fails although no rename is faulty, the rollback fails too, and
      the outer destination keeps the new copy while its previous tree stays in the temporary directory. */
  lemma NestedStuck(files: Files, destinations: seq<Path>, names: seq<Part>, copy: map<Path, Node>)
    requires Staged(files, destinations, names, copy) && |names| == 2 && Under(destinations[1], destinations[0])
    requires Temporary(destinations[1], names[1])[|destinations[0]|..] !in copy
    ensures var prepared := PrepareAll(destinations, names);
            var end := Run(None, State(files, 0), prepared);
            && end.outcome.Stuck?
            && Tree(end.state.files, destinations[0]) == copy
            && Tree(end.state.files, prepared[0].backup) == Tree(files, destinations[0])
  {
    var prepared := PrepareAll(destinations, names);
    var p, q := prepared[0], prepared[1];
    assert prepared == [p, q] && [p, q][..1] == [p] && [p][..0] == [];
    var s := State(files, 0);
    StagedCopyGone(files, destinations, names, copy);
    ReplaceOneSafe(None, s, p);
    hide Staged, Tree, Temporary, ReplaceOne, RestoreOne, PrepareAll;
    var now := ReplaceOne(None, s, p).state;
    assert ReplaceEach(None, s, [p]) == ReplaceOne(None, s, p);
    CannotReplace(now, q);
    assert ReplaceEach(None, s, [p, q]) == ReplaceOne(None, now, q);
    CannotRestore(ReplaceOne(None, now, q).state, q);
  }

  lemma CannotReplace(s: State, q: Prepared)
    requires q.staged != [] && q.backup != [] && q.staged !in s.files && Parent(q.backup) !in s.files
    ensures !ReplaceOne(None, s, q).ok && ReplaceOne(None, s, q).state.files == s.files
  {
  }

  lemma CannotRestore(s: State, q: Prepared)
    requires q.staged != [] && q.staged !in s.files && Parent(q.staged) !in s.files
    ensures !RestoreOne(None, s, q).ok && RestoreOne(None, s, q).state.files == s.files
  {
  }

  const A: Path := [Part("a")]
  const B: Path := [Part("a"), Part("b")]
  const KEPT: Path := [Part("a"), Part("old")]
  const T: Path := [Part("t")]
  const T_SKILL: Path := [Part("t"), SKILL]
  const U: Path := [Part("a"), Part("u")]
  const U_SKILL: Path := [Part("a"), Part("u"), SKILL]

  const NESTED: set<Path> := {[], A, KEPT, T, T_SKILL, U, U_SKILL}

  // a holds a file; the copies for a and for a/b are staged in t and in a/u.
  function NestedFiles(): Files {
    map p | p in NESTED :: if p == KEPT then File("kept") else Directory
  }

  /** Such destinations exist: installing into a and a/b loses what a held from its place. */
  lemma NestedExample()
    ensures Staged(NestedFiles(), [A, B], [Part("t"), Part("u")], map[[] := Directory])
    ensures var end := Run(None, State(NestedFiles(), 0), PrepareAll([A, B], [Part("t"), Part("u")]));
            end.outcome.Stuck? && KEPT in NestedFiles() && KEPT !in end.state.files
  {
    hide Run, Staged, Tree, Temporary, PrepareAll;
    NestedStaged();
    NestedInside();
    NestedStuck(NestedFiles(), [A, B], [Part("t"), Part("u")], map[[] := Directory]);
    KeptGone(Run(None, State(NestedFiles(), 0), PrepareAll([A, B], [Part("t"), Part("u")])).state.files);
  }

  lemma NestedInside()
    ensures Under(B, A) && Temporary(B, Part("u"))[|A|..] == [Part("u")]
  {
    assert Temporary(B, Part("u")) == U && B[..|A|] == A;
  }

  lemma KeptGone(files: Files)
    requires Tree(files, A) == map[[] := Directory]
    ensures KEPT !in files
  {
    assert A + [Part("old")] == KEPT;
    TreeAt(files, A, [Part("old")]);
  }

  lemma TwoStaged(files: Files, a: Path, b: Path, t: Part, u: Part, copy: map<Path, Node>)
    requires a != [] && b != [] && a != b && WellFormed(files) && [] in copy && Fresh([a, b], [t, u])
    requires StagedIn(files, Temporary(a, t), copy) && StagedIn(files, Temporary(b, u), copy)
    ensures Staged(files, [a, b], [t, u], copy)
  {
    hide StagedIn, Temporary, WellFormed, Fresh;
  }

  lemma NestedStaged()
    ensures Staged(NestedFiles(), [A, B], [Part("t"), Part("u")], map[[] := Directory])
  {
    NestedFresh();
    NestedWellFormed();
    NestedCopies();
    hide Fresh, WellFormed, StagedIn;
    TwoStaged(NestedFiles(), A, B, Part("t"), Part("u"), map[[] := Directory]);
  }

  lemma NestedCopies()
    ensures StagedIn(NestedFiles(), Temporary(A, Part("t")), map[[] := Directory])
    ensures StagedIn(NestedFiles(), Temporary(B, Part("u")), map[[] := Directory])
  {
    assert Temporary(A, Part("t")) == T && Temporary(B, Part("u")) == U;
    assert T + [SKILL] == T_SKILL && U + [SKILL] == U_SKILL;
    NestedPlaces();
    SingleTree(NestedFiles(), T_SKILL);
    SingleTree(NestedFiles(), U_SKILL);
    hide Tree, Under, Temporary;
  }

  lemma NestedPlaces()
    ensures forall p :: p in NestedFiles() ==>
              && (Under(p, T_SKILL) ==> p == T_SKILL) && (Under(p, U_SKILL) ==> p == U_SKILL)
              && !Under(p, T + [PREVIOUS]) && !Under(p, U + [PREVIOUS])
  {
    DifferentParts();
    hide SKILL, PREVIOUS;
    forall p | p in NestedFiles()
      ensures Under(p, T_SKILL) ==> p == T_SKILL
      ensures Under(p, U_SKILL) ==> p == U_SKILL
      ensures !Under(p, T + [PREVIOUS]) && !Under(p, U + [PREVIOUS])
    {
      if |p| >= 2 { assert p[..2][0] == p[0] && p[..2][1] == p[1]; }
      if |p| >= 3 { assert p[..3][2] == p[2]; }
    }
  }

  lemma DifferentParts()
    ensures Part("a") != Part("t") && Part("b") != Part("u") && Part("a") != Part("u") && SKILL != PREVIOUS
    ensures Part("old") != PREVIOUS && Part("u") != PREVIOUS && Part("u") != SKILL && Part("old") != SKILL
  {
    assert "a"[0] != "t"[0] && "b"[0] != "u"[0] && "a"[0] != "u"[0] && "skill"[0] != "previous"[0];
    assert "old"[0] != "previous"[0] && "u"[0] != "previous"[0] && "u"[0] != "skill"[0] && "old"[0] != "skill"[0];
  }

  lemma NestedFresh()
    ensures Fresh([A, B], [Part("t"), Part("u")]) && A != B
  {
    DifferentParts();
    assert Temporary(A, Part("t")) == T && Temporary(B, Part("u")) == U;
    assert A[..1][0] == A[0] && B[..1][0] == B[0] && B[..2][1] == B[1];
  }

  lemma NestedWellFormed()
    ensures WellFormed(NestedFiles())
  {
    var files := NestedFiles();
    forall p | p in files && p != [] ensures IsDirectory(files, Parent(p)) {
      if |p| == 1 { assert Parent(p) == []; }
      if |p| == 2 { assert Parent(p) == [p[0]]; }
      if |p| == 3 { assert Parent(p) == [p[0], p[1]]; }
    }
  }

  lemma SingleTree(files: Files, top: Path)
    requires top in files && files[top].Directory? && forall p :: p in files && Under(p, top) ==> p == top
    ensures Tree(files, top) == map[[] := Directory]
  {
    TreeAt(files, top, []);
    assert top + [] == top;
    forall r ensures r in Tree(files, top) <==> r == [] {
      TreeAt(files, top, r);
      assert (top + r)[..|top|] == top && (top + r)[|top|..] == r;
    }
  }
}
