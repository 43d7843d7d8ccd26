/**
 Public names of generated operations: spelling (`fastapi_canon/codegen/names.py`), the planner's conflict
 check (`planner.py`) and the nested object that the TypeScript emitter builds from them (`render.py`).
 */
module Spelling {
  import opened Wrappers

  predicate Upper(c: char) { 'A' <= c <= 'Z' }
  predicate Lower(c: char) { 'a' <= c <= 'z' }
  predicate DigitChar(c: char) { '0' <= c <= '9' }
  predicate Alnum(c: char) { Upper(c) || Lower(c) || DigitChar(c) }

  function ToLower(c: char): char {
    if Upper(c) then 'a' + (c - 'A') else c
  }

  function ToUpper(c: char): char {
    if Lower(c) then 'A' + (c - 'a') else c
  }

  function LowerAll(s: string): (r: string)
    ensures |r| == |s| && forall i :: 0 <= i < |s| ==> r[i] == ToLower(s[i])
  {
    seq(|s|, i requires 0 <= i < |s| => ToLower(s[i]))
  }

  // re.sub(r"([A-Z]+)([A-Z][a-z])", r"\1 \2", s): a space before the last capital of a run that a word starts with.
  function SplitRuns(s: string): string {
    if s == "" then ""
    else if |s| >= 3 && Upper(s[0]) && Upper(s[1]) && Lower(s[2]) then [s[0], ' '] + SplitRuns(s[1..])
    else [s[0]] + SplitRuns(s[1..])
  }

  // re.sub(r"([a-z0-9])([A-Z])", r"\1 \2", s)
  function SplitHumps(s: string): string {
    if s == "" then ""
    else if |s| >= 2 && (Lower(s[0]) || DigitChar(s[0])) && Upper(s[1]) then [s[0], ' '] + SplitHumps(s[1..])
    else [s[0]] + SplitHumps(s[1..])
  }

  // re.findall(r"[A-Za-z0-9]+", s), with `word` being read.
  function Runs(s: string, word: string): seq<string> {
    if s == "" then (if word == "" then [] else [word])
    else if Alnum(s[0]) then Runs(s[1..], word + [s[0]])
    else (if word == "" then [] else [word]) + Runs(s[1..], "")
  }

  /** `_words` */
  function Words(s: string): seq<string> {
    Runs(SplitHumps(SplitRuns(s)), "")
  }

  function Capitalized(w: string): string {
    if w == "" then "" else [ToUpper(w[0])] + LowerAll(w[1..])
  }

  function CapitalizedAll(ws: seq<string>): string {
    if ws == [] then "" else Capitalized(ws[0]) + CapitalizedAll(ws[1..])
  }

  /** `camel`; `None` when there are no words. */
  function Camel(s: string): Option<string> {
    CamelWords(Words(s))
  }

  function CamelWords(ws: seq<string>): Option<string> {
    if ws == [] then None else Some(LowerAll(ws[0]) + CapitalizedAll(ws[1..]))
  }

  function Joined(ws: seq<string>): string {
    if ws == [] then ""
    else if |ws| == 1 then LowerAll(ws[0])
    else LowerAll(ws[0]) + "_" + Joined(ws[1..])
  }

  /** `snake`; `keywords` are those of the Python version that runs. */
  function Snake(s: string, keywords: set<string>): string {
    var joined := Joined(Words(s));
    var prefixed := if joined != "" && DigitChar(joined[0]) then "value_" + joined else joined;
    if prefixed in keywords then prefixed + "_" else prefixed
  }

  // ----- where words begin and end

  // Between two characters of a name: at a hump, or before the last capital of a run that a word starts with.
  predicate Cut(s: string, k: nat)
    requires 0 < k < |s|
  {
    || ((Lower(s[k - 1]) || DigitChar(s[k - 1])) && Upper(s[k]))
    || (Upper(s[k - 1]) && Upper(s[k]) && k + 1 < |s| && Lower(s[k + 1]))
  }

  // A word that has reached this position ends here.
  predicate Boundary(s: string, k: nat)
    requires 0 < k <= |s|
  {
    k == |s| || !Alnum(s[k]) || Cut(s, k)
  }

  function NextBoundary(s: string, k: nat): (end: nat)
    requires 0 < k <= |s|
    ensures k <= end <= |s| && Boundary(s, end)
    ensures forall j :: k <= j < end ==> !Boundary(s, j)
    decreases |s| - k
  {
    if Boundary(s, k) then k else NextBoundary(s, k + 1)
  }

  // The words from a position on: each starts at the next letter or digit and goes on up to the next boundary.
  function WordsFrom(s: string, i: nat): seq<string>
    requires i <= |s|
    decreases |s| - i
  {
    if i == |s| then []
    else if !Alnum(s[i]) then WordsFrom(s, i + 1)
    else
      var end := NextBoundary(s, i + 1);
      [s[i..end]] + WordsFrom(s, end)
  }

  // The text with its two kinds of spaces put in.
  function Spaced(s: string): string {
    SplitHumps(SplitRuns(s))
  }

  function SpaceAt(s: string, k: nat): string
    requires 0 < k <= |s|
  {
    if k < |s| && Cut(s, k) then " " else ""
  }

  lemma SpacedStep(s: string, i: nat)
    requires i < |s|
    ensures Spaced(s[i..]) == [s[i]] + SpaceAt(s, i + 1) + Spaced(s[i + 1..])
  {
    var t, rest := s[i..], SplitRuns(s[i + 1..]);
    assert t[1..] == s[i + 1..];
    if |t| >= 3 && Upper(t[0]) && Upper(t[1]) && Lower(t[2]) {
      assert SplitRuns(t) == [t[0]] + ([' '] + rest);
      assert SplitRuns(t)[1..] == [' '] + rest && ([' '] + rest)[1..] == rest;
      assert SplitHumps([' '] + rest) == [' '] + SplitHumps(rest);
    } else {
      assert SplitRuns(t)[1..] == rest;
      assert t[1..] != "" ==> rest != "" && rest[0] == t[1];
    }
  }

  /** The two substitutions and the search find the words of a name where its letters and digits end, at humps, and
      before the last capital of a run that a word starts with. */
  lemma WordsExactly(s: string)
    ensures Words(s) == WordsFrom(s, 0)
  {
    assert s[0..] == s;
    RunsBetween(s, 0);
  }

  lemma {:induction false} RunsBetween(s: string, i: nat)
    requires i <= |s|
    ensures Runs(Spaced(s[i..]), "") == WordsFrom(s, i)
    decreases |s| - i, 0
  {
    if i < |s| {
      SpacedStep(s, i);
      var rest := SpaceAt(s, i + 1) + Spaced(s[i + 1..]);
      assert Spaced(s[i..]) == [s[i]] + rest && ([s[i]] + rest)[1..] == rest;
      if Alnum(s[i]) {
        assert "" + [s[i]] == s[i..i + 1];
        RunsWithin(s, i, i + 1);
      } else {
        assert rest == Spaced(s[i + 1..]);
        RunsBetween(s, i + 1);
      }
    }
  }

  lemma {:induction false} RunsWithin(s: string, i: nat, j: nat)
    requires i < j <= |s|
    ensures var end := NextBoundary(s, j);
            Runs(SpaceAt(s, j) + Spaced(s[j..]), s[i..j]) == [s[i..end]] + WordsFrom(s, end)
    decreases |s| - j, 1
  {
    hide Spaced, Runs, SpaceAt, Cut, Alnum;
    if j == |s| {
      RunsEnd(s, s[i..j]);
    } else {
      RunsStep(s, j, s[i..j]);
      if Cut(s, j) {
        RunsBetween(s, j);
      } else if Alnum(s[j]) {
        assert s[i..j] + [s[j]] == s[i..j + 1];
        RunsWithin(s, i, j + 1);
      } else {
        RunsBetween(s, j + 1);
      }
    }
  }

  lemma RunsEnd(s: string, word: string)
    requires s != "" && word != ""
    ensures Runs(SpaceAt(s, |s|) + Spaced(s[|s|..]), word) == [word]
  {
    assert SpaceAt(s, |s|) + Spaced(s[|s|..]) == "";
  }

  lemma RunsStep(s: string, j: nat, word: string)
    requires 0 < j < |s| && word != ""
    ensures Runs(SpaceAt(s, j) + Spaced(s[j..]), word)
            == if Cut(s, j) then [word] + Runs(Spaced(s[j..]), "")
               else if Alnum(s[j]) then Runs(SpaceAt(s, j + 1) + Spaced(s[j + 1..]), word + [s[j]])
               else [word] + Runs(Spaced(s[j + 1..]), "")
  {
    hide Spaced, Cut, Runs;
    if Cut(s, j) {
      RunsAfter(' ', Spaced(s[j..]), word);
    } else {
      SpacedStep(s, j);
      var after := SpaceAt(s, j + 1) + Spaced(s[j + 1..]);
      assert SpaceAt(s, j) + Spaced(s[j..]) == [s[j]] + after;
      RunsAfter(s[j], after, word);
      if !Alnum(s[j]) { NotCut(s, j); }
    }
  }

  // One character more, in the middle of a word.
  lemma RunsAfter(c: char, rest: string, word: string)
    requires word != ""
    ensures Runs([c] + rest, word) == if Alnum(c) then Runs(rest, word + [c]) else [word] + Runs(rest, "")
  {
    assert ([c] + rest)[1..] == rest;
  }

  lemma NotCut(s: string, j: nat)
    requires j < |s| && !Alnum(s[j])
    ensures SpaceAt(s, j + 1) + Spaced(s[j + 1..]) == Spaced(s[j + 1..])
  {
    hide Spaced;
  }

  // ----- spelling a snake name again

  predicate WordLike(w: string) {
    w != "" && forall i :: 0 <= i < |w| ==> Alnum(w[i])
  }

  lemma {:induction false} RunsAreWords(s: string, word: string)
    requires word == "" || WordLike(word)
    ensures forall i :: 0 <= i < |Runs(s, word)| ==> WordLike(Runs(s, word)[i])
  {
    if s != "" {
      if Alnum(s[0]) {
        assert WordLike(word + [s[0]]);
        RunsAreWords(s[1..], word + [s[0]]);
      } else {
        RunsAreWords(s[1..], "");
      }
    }
  }

  // Without capitals nothing is split.
  predicate NoCapitals(s: string) {
    forall i :: 0 <= i < |s| ==> !Upper(s[i])
  }

  lemma {:induction false} NothingToSplit(s: string)
    requires NoCapitals(s)
    ensures SplitRuns(s) == s && SplitHumps(s) == s
  {
    if s != "" {
      assert NoCapitals(s[1..]) by {
        forall i | 0 <= i < |s[1..]| ensures !Upper(s[1..][i]) { assert s[1..][i] == s[i + 1]; }
      }
      NothingToSplit(s[1..]);
      assert [s[0]] + s[1..] == s;
    }
  }

  function LowerEach(ws: seq<string>): (r: seq<string>)
    ensures |r| == |ws| && forall i :: 0 <= i < |ws| ==> r[i] == LowerAll(ws[i])
  {
    seq(|ws|, i requires 0 <= i < |ws| => LowerAll(ws[i]))
  }

  lemma {:induction false} RunsOfWord(w: string, rest: string, word: string)
    requires forall i :: 0 <= i < |w| ==> Alnum(w[i])
    ensures Runs(w + rest, word) == Runs(rest, word + w)
    decreases |w|
  {
    if w == "" {
      assert w + rest == rest && word + w == word;
    } else {
      assert (w + rest)[1..] == w[1..] + rest && (w + rest)[0] == w[0];
      RunsOfWord(w[1..], rest, word + [w[0]]);
      assert word + [w[0]] + w[1..] == word + w;
    }
  }

  lemma LowerWord(w: string)
    requires WordLike(w)
    ensures WordLike(LowerAll(w)) && NoCapitals(LowerAll(w))
  {
  }

  lemma {:induction false} JoinedPlain(ws: seq<string>)
    requires forall i :: 0 <= i < |ws| ==> WordLike(ws[i])
    ensures NoCapitals(Joined(ws))
  {
    if ws != [] {
      LowerWord(ws[0]);
      JoinedPlain(ws[1..]);
    }
  }

  // Reading the joined words again gives them back in lower case, whatever underscores follow.
  lemma {:induction false} RunsOfJoined(ws: seq<string>, tail: string)
    requires forall i :: 0 <= i < |ws| ==> WordLike(ws[i])
    requires ws != [] && (tail == "" || tail == "_")
    ensures Runs(Joined(ws) + tail, "") == LowerEach(ws)
  {
    var first := LowerAll(ws[0]);
    LowerWord(ws[0]);
    hide LowerAll, Runs;
    JoinedStep(ws, tail);
    LowerStep(ws);
    hide Joined, WordLike, LowerEach;
    if |ws| == 1 {
      RunsOfLast(first, tail);
    } else {
      RunsOfFirst(first, Joined(ws[1..]) + tail);
      RunsOfJoined(ws[1..], tail);
    }
  }

  lemma LowerStep(ws: seq<string>)
    requires ws != []
    ensures LowerEach(ws) == [LowerAll(ws[0])] + LowerEach(ws[1..])
    ensures |ws| == 1 ==> LowerEach(ws) == [LowerAll(ws[0])]
  {
    hide LowerAll;
  }

  lemma JoinedStep(ws: seq<string>, tail: string)
    requires ws != []
    ensures Joined(ws) + tail == LowerAll(ws[0]) + if |ws| == 1 then tail else "_" + (Joined(ws[1..]) + tail)
  {
    hide LowerAll;
  }

  lemma RunsOfLast(w: string, tail: string)
    requires WordLike(w) && (tail == "" || tail == "_")
    ensures Runs(w + tail, "") == [w]
  {
    assert "" + w == w;
    RunsOfWord(w, tail, "");
    assert tail == "_" ==> tail[1..] == "" && Runs(tail, w) == [w] + Runs("", "");
  }

  lemma RunsOfFirst(w: string, rest: string)
    requires WordLike(w)
    ensures Runs(w + ("_" + rest), "") == [w] + Runs(rest, "")
  {
    assert "" + w == w;
    RunsOfWord(w, "_" + rest, "");
    assert ("_" + rest)[1..] == rest;
  }

  lemma {:induction false} CapitalizedLower(ws: seq<string>)
    ensures CapitalizedAll(LowerEach(ws)) == CapitalizedAll(ws)
  {
    if ws != [] {
      assert LowerEach(ws)[1..] == LowerEach(ws[1..]);
      CapitalizedLower(ws[1..]);
      CapitalizedOnce(ws[0]);
    }
  }

  lemma CapitalizedOnce(w: string)
    ensures Capitalized(LowerAll(w)) == Capitalized(w)
  {
    if w != "" {
      assert LowerAll(LowerAll(w)[1..]) == LowerAll(w[1..]);
    }
  }

  lemma {:induction false} FirstWord(s: string, word: string)
    requires (word == "" && s != "" && Alnum(s[0])) || WordLike(word)
    ensures Runs(s, word) != [] && Runs(s, word)[0] != ""
    ensures Runs(s, word)[0][0] == if word == "" then s[0] else word[0]
  {
    if s != "" && Alnum(s[0]) { FirstWord(s[1..], word + [s[0]]); }
  }

  // An ASCII identifier that starts with a letter.
  predicate NamePart(s: string) {
    s != "" && (Upper(s[0]) || Lower(s[0])) && forall i :: 0 <= i < |s| ==> Alnum(s[i]) || s[i] == '_'
  }

  lemma StartKept(s: string)
    requires s != ""
    ensures SplitRuns(s) != "" && SplitRuns(s)[0] == s[0]
    ensures SplitHumps(s) != "" && SplitHumps(s)[0] == s[0]
  {
  }

  lemma WordsOfPart(s: string)
    requires NamePart(s)
    ensures Words(s) != [] && (forall i :: 0 <= i < |Words(s)| ==> WordLike(Words(s)[i]))
    ensures Joined(Words(s)) != "" && !DigitChar(Joined(Words(s))[0])
  {
    StartKept(s);
    StartKept(SplitRuns(s));
    RunsAreWords(SplitHumps(SplitRuns(s)), "");
    FirstWord(SplitHumps(SplitRuns(s)), "");
    var first := Words(s)[0];
    assert LowerAll(first)[0] == ToLower(s[0]);
    assert Joined(Words(s))[0] == LowerAll(first)[0];
  }

  /** Spelling a name in snake case first does not change its camel case. */
  lemma CamelOfSnake(s: string, keywords: set<string>)
    requires NamePart(s)
    ensures Camel(s).Some? && Camel(Snake(s, keywords)) == Camel(s)
  {
    var ws := Words(s);
    WordsOfPart(s);
    var tail := if Joined(ws) in keywords then "_" else "";
    assert Snake(s, keywords) == Joined(ws) + tail;
    JoinedPlain(ws);
    NothingToSplit(Snake(s, keywords));
    RunsOfJoined(ws, tail);
    assert Words(Snake(s, keywords)) == LowerEach(ws);
    assert LowerEach(ws)[1..] == LowerEach(ws[1..]);
    CapitalizedLower(ws[1..]);
    assert LowerAll(LowerAll(ws[0])) == LowerAll(ws[0]);
  }
}

module Planning {
  import opened Wrappers
  import opened Spelling

  datatype Part = Part(text: string)
  type Path = seq<Part>

  predicate Prefix(p: Path, q: Path) {
    |p| <= |q| && q[..|p|] == p
  }

  predicate Conflict(p: Path, q: Path) {
    p == q || Prefix(p, q) || Prefix(q, p)
  }

  ghost predicate PrefixFree(paths: seq<Path>) {
    forall i, j :: 0 <= i < j < |paths| ==> !Conflict(paths[i], paths[j])
  }

  datatype Case = SnakeCase | CamelCase

  function Convert(convert: Case, part: Part, keywords: set<string>): Part {
    match convert
    case SnakeCase => Part(Snake(part.text, keywords))
    case CamelCase => match Camel(part.text) case Some(text) => Part(text) case None => Part("")
  }

  function ConvertPath(convert: Case, path: Path, keywords: set<string>): (r: Path)
    ensures |r| == |path| && forall i :: 0 <= i < |path| ==> r[i] == Convert(convert, path[i], keywords)
  {
    seq(|path|, i requires 0 <= i < |path| => Convert(convert, path[i], keywords))
  }

  function ConvertAll(convert: Case, paths: seq<Path>, keywords: set<string>): (r: seq<Path>)
    ensures |r| == |paths| && forall i :: 0 <= i < |paths| ==> r[i] == ConvertPath(convert, paths[i], keywords)
  {
    seq(|paths|, i requires 0 <= i < |paths| => ConvertPath(convert, paths[i], keywords))
  }

  ghost predicate PublicPath(path: Path) {
    path != [] && forall i :: 0 <= i < |path| ==> NamePart(path[i].text)
  }

  predicate Clashes(names: set<Path>, name: Path) {
    exists other :: other in names && Conflict(other, name)
  }

  /** The conflict check of `build_plan` under one spelling. */
  method CheckConflicts(convert: Case, operations: seq<Path>, keywords: set<string>) returns (ok: bool)
    ensures ok <==> PrefixFree(ConvertAll(convert, operations, keywords))
  {
    hide Conflict;
    var names: set<Path> := {};
    ghost var converted := ConvertAll(convert, operations, keywords);
    for i := 0 to |operations|
      invariant PrefixFree(converted[..i])
      invariant names == Members(converted[..i])
    {
      var name := ConvertPath(convert, operations[i], keywords);
      PrefixFreeNext(converted, i);
      if Clashes(names, name) {
        return false;
      }
      names := names + {name};
    }
    assert converted[..|operations|] == converted;
    return true;
  }

  function Members(paths: seq<Path>): set<Path> {
    set p | p in paths
  }

  // One more name leaves names prefix-free exactly when it conflicts with none of them.
  lemma PrefixFreeNext(paths: seq<Path>, i: nat)
    requires i < |paths| && PrefixFree(paths[..i])
    ensures Members(paths[..i + 1]) == Members(paths[..i]) + {paths[i]}
    ensures if Clashes(Members(paths[..i]), paths[i]) then !PrefixFree(paths) else PrefixFree(paths[..i + 1])
  {
    hide Conflict;
    assert paths[..i + 1] == paths[..i] + [paths[i]];
    if Clashes(Members(paths[..i]), paths[i]) {
      var other :| other in Members(paths[..i]) && Conflict(other, paths[i]);
      var j :| 0 <= j < i && paths[..i][j] == other;
      assert Conflict(paths[j], paths[i]);
    } else {
      forall j | 0 <= j < i ensures !Conflict(paths[j], paths[i]) { assert paths[..i][j] in Members(paths[..i]); }
    }
  }

  // What the planner accepts: no name is another one, or leads to another one, in either spelling.
  ghost predicate Accepted(operations: seq<Path>, keywords: set<string>) {
    PrefixFree(ConvertAll(SnakeCase, operations, keywords)) && PrefixFree(ConvertAll(CamelCase, operations, keywords))
  }

  /** `build_plan`, from the names the readers produced: the names the emitters get. */
  method PlanNames(operations: seq<Path>, keywords: set<string>) returns (planned: Option<seq<Path>>)
    ensures planned.Some? <==> Accepted(operations, keywords)
    ensures planned.Some? ==> planned.value == ConvertAll(SnakeCase, operations, keywords)
  {
    var snake := CheckConflicts(SnakeCase, operations, keywords);
    if !snake {
      return None;
    }
    var camel := CheckConflicts(CamelCase, operations, keywords);
    if !camel {
      return None;
    }
    return Some(ConvertAll(SnakeCase, operations, keywords));
  }

  /** The names that the TypeScript emitter groups by are those the planner checked. */
  lemma EmittedNames(operations: seq<Path>, keywords: set<string>)
    requires forall i :: 0 <= i < |operations| ==> PublicPath(operations[i])
    ensures ConvertAll(CamelCase, ConvertAll(SnakeCase, operations, keywords), keywords) ==
            ConvertAll(CamelCase, operations, keywords)
  {
    var snake := ConvertAll(SnakeCase, operations, keywords);
    forall i | 0 <= i < |operations|
      ensures ConvertPath(CamelCase, snake[i], keywords) == ConvertPath(CamelCase, operations[i], keywords)
    {
      forall k | 0 <= k < |operations[i]|
        ensures Convert(CamelCase, snake[i][k], keywords) == Convert(CamelCase, operations[i][k], keywords)
      {
        CamelOfSnake(operations[i][k].text, keywords);
      }
    }
  }

  // ----- the nested object

  datatype Node = Leaf(method_: string) | Branch(children: seq<Entry>)

  datatype Entry = Entry(key: Part, node: Node)

  function Position(entries: seq<Entry>, key: Part): (k: nat)
    ensures k <= |entries|
    ensures k < |entries| ==> entries[k].key == key
    ensures k == |entries| ==> forall e :: e in entries ==> e.key != key
  {
    if entries == [] then 0 else if entries[0].key == key then 0 else 1 + Position(entries[1..], key)
  }

  function Put(entries: seq<Entry>, key: Part, node: Node): seq<Entry> {
    var k := Position(entries, key);
    if k < |entries| then entries[k := Entry(key, node)] else entries + [Entry(key, node)]
  }

  // Descend with `setdefault`, then assign; `None` when that runs into a method or has no key.
  function Insert(entries: seq<Entry>, path: Path, text: string): Option<seq<Entry>>
    decreases |path|
  {
    if path == [] then None
    else if |path| == 1 then Some(Put(entries, path[0], Leaf(text)))
    else
      var k := Position(entries, path[0]);
      if k < |entries| && entries[k].node.Leaf? then None
      else
        match Insert(if k < |entries| then entries[k].node.children else [], path[1..], text)
        case None => None
        case Some(children) => Some(Put(entries, path[0], Branch(children)))
  }

  type Methods = set<(Path, string)>

  function Below(key: Part, methods: Methods): Methods {
    set m | m in methods :: ([key] + m.0, m.1)
  }

  function FlattenEntry(e: Entry): Methods
    decreases e, 0
  {
    match e.node
    case Leaf(text) => {([e.key], text)}
    case Branch(children) => Below(e.key, Flatten(children))
  }

  // Every method of the object with the path to it.
  function Flatten(entries: seq<Entry>): Methods
    decreases entries, 0
  {
    if entries == [] then {} else FlattenEntry(entries[0]) + Flatten(entries[1..])
  }

  lemma {:induction false} FlattenAppend(entries: seq<Entry>, e: Entry)
    ensures Flatten(entries + [e]) == Flatten(entries) + FlattenEntry(e)
  {
    if entries == [] {
      assert [] + [e] == [e] && [e][1..] == [];
    } else {
      assert (entries + [e])[1..] == entries[1..] + [e];
      FlattenAppend(entries[1..], e);
    }
  }

  lemma {:induction false} FlattenUpdate(entries: seq<Entry>, k: nat, node: Node, added: Methods)
    requires k < |entries|
    requires FlattenEntry(Entry(entries[k].key, node)) == FlattenEntry(entries[k]) + added
    ensures Flatten(entries[k := Entry(entries[k].key, node)]) == Flatten(entries) + added
  {
    var updated := entries[k := Entry(entries[k].key, node)];
    if k == 0 {
      assert updated[1..] == entries[1..];
    } else {
      assert updated[1..] == entries[1..][k - 1 := Entry(entries[k].key, node)];
      FlattenUpdate(entries[1..], k - 1, node, added);
    }
  }

  lemma {:induction false} FlattenAt(entries: seq<Entry>, k: nat)
    requires k < |entries|
    ensures FlattenEntry(entries[k]) <= Flatten(entries)
  {
    if k > 0 { FlattenAt(entries[1..], k - 1); }
  }

  ghost predicate Fresh(methods: Methods, path: Path) {
    forall m :: m in methods ==> !Conflict(m.0, path)
  }

  lemma ConflictBelow(key: Part, p: Path, q: Path)
    ensures Conflict([key] + p, [key] + q) <==> Conflict(p, q)
  {
    if Prefix(p, q) { assert ([key] + q)[..|[key] + p|] == [key] + q[..|p|]; }
    if Prefix(q, p) { assert ([key] + p)[..|[key] + q|] == [key] + p[..|q|]; }
    if Prefix([key] + p, [key] + q) {
      assert ([key] + q)[..|[key] + p|][1..] == q[..|p|];
      assert ([key] + p)[1..] == p;
    }
    if Prefix([key] + q, [key] + p) {
      assert ([key] + p)[..|[key] + q|][1..] == p[..|q|];
      assert ([key] + q)[1..] == q;
    }
  }

  lemma FreshBelow(key: Part, methods: Methods, path: Path)
    requires Fresh(Below(key, methods), [key] + path)
    ensures Fresh(methods, path)
  {
    forall m | m in methods ensures !Conflict(m.0, path) {
      assert ([key] + m.0, m.1) in Below(key, methods);
      ConflictBelow(key, m.0, path);
    }
  }

  /** Inserting a path that neither leads to a method nor past one adds exactly that method. */
  lemma {:induction false} InsertAdds(entries: seq<Entry>, path: Path, text: string)
    requires path != [] && Fresh(Flatten(entries), path)
    ensures Insert(entries, path, text).Some?
    ensures Flatten(Insert(entries, path, text).value) == Flatten(entries) + {(path, text)}
    decreases |path|
  {
    var key := path[0];
    var k := Position(entries, key);
    if k < |entries| { FlattenAt(entries, k); }
    if |path| == 1 {
      assert path == [key];
      if k < |entries| {
        NothingBelow(entries[k], path, Flatten(entries));
        FlattenUpdate(entries, k, Leaf(text), {(path, text)});
      } else {
        FlattenAppend(entries, Entry(key, Leaf(text)));
      }
    } else {
      assert path == [key] + path[1..];
      if k < |entries| {
        assert entries[k].node.Branch? by {
          assert path[..1] == [key] && Conflict([key], path);
        }
        var children := entries[k].node.children;
        FreshBelow(key, Flatten(children), path[1..]);
        InsertAdds(children, path[1..], text);
        BelowPlus(key, Flatten(children), path[1..], text);
        FlattenUpdate(entries, k, Branch(Insert(children, path[1..], text).value), {(path, text)});
      } else {
        InsertAdds([], path[1..], text);
        BelowPlus(key, {}, path[1..], text);
        FlattenAppend(entries, Entry(key, Branch(Insert([], path[1..], text).value)));
      }
    }
  }

  lemma BelowPlus(key: Part, methods: Methods, path: Path, text: string)
    ensures Below(key, methods + {(path, text)}) == Below(key, methods) + {([key] + path, text)}
  {
  }

  // An entry whose key is a fresh path holds nothing yet.
  lemma NothingBelow(e: Entry, path: Path, methods: Methods)
    requires path == [e.key] && Fresh(methods, path) && FlattenEntry(e) <= methods
    ensures FlattenEntry(e) == {}
  {
    match e.node
    case Leaf(_) => assert Conflict([e.key], path);
    case Branch(children) =>
      forall m | m in Flatten(children) ensures ([e.key] + m.0, m.1) in FlattenEntry(e) && Conflict([e.key] + m.0, path) {
        assert ([e.key] + m.0)[..1] == path;
      }
      assert Flatten(children) == {};
  }

  // The methods grouped one after another.
  function Built(paths: seq<Path>, texts: seq<string>): Option<seq<Entry>>
    requires |paths| == |texts|
  {
    if paths == [] then Some([])
    else
      var last := |paths| - 1;
      match Built(paths[..last], texts[..last])
      case None => None
      case Some(entries) => Insert(entries, paths[last], texts[last])
  }

  lemma {:induction false} BuiltFails(paths: seq<Path>, texts: seq<string>, i: nat)
    requires |paths| == |texts| && i <= |paths| && Built(paths[..i], texts[..i]).None?
    ensures Built(paths, texts).None?
  {
    var last := |paths| - 1;
    if i < |paths| {
      assert paths[..last][..i] == paths[..i] && texts[..last][..i] == texts[..i];
      BuiltFails(paths[..last], texts[..last], i);
    } else {
      assert paths[..i] == paths && texts[..i] == texts;
    }
  }

  /** `_tree_ts`, up to rendering */
  method BuildTree(paths: seq<Path>, texts: seq<string>) returns (tree: Option<seq<Entry>>)
    requires |paths| == |texts|
    ensures tree == Built(paths, texts)
  {
    var entries: seq<Entry> := [];
    for i := 0 to |paths|
      invariant Built(paths[..i], texts[..i]) == Some(entries)
    {
      assert paths[..i + 1][..i] == paths[..i] && texts[..i + 1][..i] == texts[..i];
      var next := Insert(entries, paths[i], texts[i]);
      if next.None? {
        BuiltFails(paths, texts, i + 1);
        return None;
      }
      entries := next.value;
    }
    assert paths[..|paths|] == paths && texts[..|paths|] == texts;
    return Some(entries);
  }

  // Every method under its own path.
  function MethodsOf(paths: seq<Path>, texts: seq<string>): Methods
    requires |paths| == |texts|
  {
    set i | 0 <= i < |paths| :: (paths[i], texts[i])
  }

  /** Prefix-free paths are grouped without overwriting any: the object holds exactly their methods. */
  lemma {:induction false} BuiltHolds(paths: seq<Path>, texts: seq<string>)
    requires |paths| == |texts| && PrefixFree(paths) && forall i :: 0 <= i < |paths| ==> paths[i] != []
    ensures Built(paths, texts).Some? && Flatten(Built(paths, texts).value) == MethodsOf(paths, texts)
  {
    if paths != [] {
      var last := |paths| - 1;
      BuiltHolds(paths[..last], texts[..last]);
      MethodsNext(paths, texts);
      hide MethodsOf, Insert, Flatten, Fresh, PrefixFree;
      InsertAdds(Built(paths[..last], texts[..last]).value, paths[last], texts[last]);
    }
  }

  lemma MethodsNext(paths: seq<Path>, texts: seq<string>)
    requires |paths| == |texts| > 0 && PrefixFree(paths)
    ensures var last := |paths| - 1;
            && MethodsOf(paths, texts) == MethodsOf(paths[..last], texts[..last]) + {(paths[last], texts[last])}
            && Fresh(MethodsOf(paths[..last], texts[..last]), paths[last])
  {
    hide Conflict;
  }

  /** Names that the planner accepts build an object that holds exactly the methods of the client: each
      operation under the converted name that was checked, and no two in one place. */
  lemma AcceptedBuildsLossless(operations: seq<Path>, texts: seq<string>, keywords: set<string>)
    requires |operations| == |texts| && forall i :: 0 <= i < |operations| ==> PublicPath(operations[i])
    requires Accepted(operations, keywords)
    ensures var emitted := ConvertAll(CamelCase, ConvertAll(SnakeCase, operations, keywords), keywords);
            && emitted == ConvertAll(CamelCase, operations, keywords) && PrefixFree(emitted)
            && Built(emitted, texts).Some? && Flatten(Built(emitted, texts).value) == MethodsOf(emitted, texts)
            && |MethodsOf(emitted, texts)| == |operations|
  {
    EmittedNames(operations, keywords);
    var emitted := ConvertAll(CamelCase, operations, keywords);
    BuiltHolds(emitted, texts);
    MethodsCounted(emitted, texts);
  }

  lemma {:induction false} MethodsCounted(paths: seq<Path>, texts: seq<string>)
    requires |paths| == |texts| && PrefixFree(paths)
    ensures |MethodsOf(paths, texts)| == |paths|
  {
    if paths != [] {
      var last := |paths| - 1;
      MethodsCounted(paths[..last], texts[..last]);
      MethodsNext(paths, texts);
      assert Conflict(paths[last], paths[last]);
    }
  }
}
