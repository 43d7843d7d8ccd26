/**
 A document whose default names a model that does not exist, so that `SchemaRegistry.document` in
 `fastapi_canon/codegen/schema.py` cannot assemble it, although every schema in it compiles.
 */
module SchemaDocuments {
  import opened Wrappers
  import opened Json
  import opened Pointers
  import opened Schemas
  import opened SchemaNames
  import opened SchemaRegistries

  // ----- a document that cannot be assembled

  const SOURCE := "api"
  const KEY := Reference(SOURCE, MODELS + "A")
  const LINK := Member("$ref", Text(MODELS + "Gone"))
  const SCHEMA := Object([Member("default", Object([LINK]))])
  const LISTED := Object([Member("A", SCHEMA)])
  const COMPONENTS := Object([Member("schemas", LISTED)])
  const DOCUMENT := Object([Member("components", COMPONENTS)])
  const INPUT := Input(map[SOURCE := DOCUMENT], map[SOURCE := Config(map[], map[], false)])
  const CLAIM := Claim(SCHEMA, Identity(SOURCE + (MODELS + "A")), None, "A", false)

  lemma SoleMember(m: Member)
    ensures Find([m], m.key) == Some(m.value)
    ensures forall key :: key != m.key ==> Find([m], key).None?
  {
    assert [m][1..] == [];
  }

  lemma PlainLast(base: string, name: string, ref: string)
    requires PlainText(name) && ref == base + "/" + name
    ensures Last(ref) == name
  {
    PlainUnescaped(name);
    SplitAppend(base, name);
  }

  lemma KeyFound()
    ensures Pointer(DOCUMENT, KEY.ref) == Some(SCHEMA) && RawOf(INPUT, KEY) == SCHEMA && Last(KEY.ref) == "A"
  {
    KeyLeads();
    hide Pointer, Last;
    PlainLast("#/components/schemas", "A", KEY.ref);
  }

  lemma Parts()
    ensures Get(DOCUMENT, "components") == Some(COMPONENTS) && Get(COMPONENTS, "schemas") == Some(LISTED)
    ensures Get(LISTED, "A") == Some(SCHEMA)
  {
    SoleMember(DOCUMENT.members[0]);
    SoleMember(COMPONENTS.members[0]);
    SoleMember(LISTED.members[0]);
    hide Find;
  }

  lemma KeyLeads()
    ensures LeadsTo(DOCUMENT, KEY.ref, SCHEMA)
  {
    Parts();
    hide Get, LeadsTo;
    Deep(DOCUMENT, "components", COMPONENTS, "schemas", LISTED, "A", SCHEMA);
    assert "#/" + "components" + "/" + "schemas" + "/" + "A" == KEY.ref;
  }

  lemma KeyDeclares()
    ensures DeclaredIdentity(INPUT.configs[SOURCE], KEY.ref, SCHEMA) == None
    ensures RequestedName(INPUT.configs[SOURCE], KEY.ref, SCHEMA) == None
    ensures ProblemType(SCHEMA) == None && Defs(SCHEMA) == Ok([]) && Get(SCHEMA, "title") == None
  {
    SoleMember(SCHEMA.members[0]);
    hide Last, Find;
  }

  lemma KeyClaim()
    ensures Head(INPUT, KEY) == Ok(CLAIM)
  {
    KeyFound();
    KeyDeclares();
    hide Last, Find, Pointer, DeclaredIdentity, RequestedName, ProblemType, MODELS;
  }

  lemma KeyNamed()
    ensures FreshName(KEY, CLAIM) == Ok(Label("A"))
  {
    KeyDeclares();
    LetterWord();
    hide Find, Pascal;
  }

  lemma LetterWord()
    ensures Pascal(Text("A")) == Ok(Label("A"))
  {
    assert Spelling.SplitRuns("A") == "A" && Spelling.SplitHumps("A") == "A";
    assert "A"[1..] == "" && "" + ["A"[0]] == "A";
    assert Spelling.Runs("A", "") == Spelling.Runs("", "A") == ["A"];
    assert Spelling.LowerAll("A") == "a" && Spelling.CapitalizedAll(["A"][1..]) == "";
  }

  // ----- what is asked for

  lemma {:induction false} SoleReferences(m: Member, container: bool, all: bool)
    ensures MemberReferences(MODELS, [m], container, all) == MemberReference(MODELS, m, container, all)
  {
    assert [m][..0] == [];
    assert MemberReferences(MODELS, [m][..0], container, all) == {};
  }

  lemma SoleMet(m: Member, at: Place, embedded: bool)
    ensures MetMembers([m], at, embedded) == MetMember(m, at, embedded)
  {
    assert [m][..0] == [];
    assert MetMembers([m][..0], at, embedded) == {};
  }

  lemma SoleProblems(m: Member, address: string)
    ensures InMembers([m], address) == InMember(m, address)
  {
    assert [m][1..] == [];
  }

  lemma SolePlain(m: Member, at: Place)
    requires PlainlyMember(m, at)
    ensures PlainlyMembers([m], at)
  {
    assert [m][..0] == [];
  }

  lemma NoProblem(m: Member)
    requires m.key != "description" && m.key != "x-canon-problem"
    ensures ProblemType(Object([m])) == None
  {
    SoleMember(m);
    hide Find;
  }

  lemma NoProblemsBelow(m: Member, address: string)
    requires m.key != "description" && m.key != "x-canon-problem"
    requires Skipped(m.key) || InlineProblems(m.value, address + "/" + Escape(m.key)) == []
    ensures InlineProblems(Object([m]), address) == []
  {
    NoProblem(m);
    SoleProblems(m, address);
  }

  lemma NoProblems()
    ensures InlineProblems(DOCUMENT, "#") == []
  {
    var a, b, c, d := DOCUMENT.members[0], COMPONENTS.members[0], LISTED.members[0], SCHEMA.members[0];
    hide Escape, ProblemType, InlineProblems;
    var first := "#" + "/" + Escape(a.key);
    var second := first + "/" + Escape(b.key);
    NoProblemsBelow(d, second + "/" + Escape(c.key));
    NoProblemsBelow(c, second);
    NoProblemsBelow(b, first);
    NoProblemsBelow(a, "#");
  }

  const REST := Object([Member("components", EMPTY)])

  lemma SoleListed(m: Member, root: string)
    ensures Keys(Some(Object([m])), root) == Ok([root + Escape(m.key)])
  {
    assert Keys(Some(Object([m])), root).value == [root + Escape(m.key)];
  }

  lemma SolePut(m: Member, value: Value)
    ensures Put([m], m.key, value) == [Member(m.key, value)] && Without([m], m.key) == []
  {
    assert [m][1..] == [];
  }

  lemma Declares()
    ensures Section(INPUT, SOURCE) == Ok([KEY.ref]) && Stripped(INPUT, SOURCE) == Ok(REST)
    ensures Starts(INPUT, SOURCE) == {KEY}
  {
    var a, b := DOCUMENT.members[0], COMPONENTS.members[0];
    NoProblems();
    SoleMember(a);
    SoleMember(b);
    SoleListed(LISTED.members[0], MODELS);
    SolePut(b, EMPTY);
    SolePut(a, EMPTY);
    assert Escape("A") == "A";
    hide Find, InlineProblems, Keys, Put, Without, Escape;
    assert INPUT.documents[SOURCE] == Object([a]) && a.value == Object([b]) && b.value == LISTED;
    assert Find([a], "components") == Some(Object([b])) && Find([b], "schemas") == Some(LISTED);
  }

  // A value with one empty member.
  lemma SoleEmpty(m: Member, at: Place)
    requires m.value == EMPTY && !at.container && m.key != "$ref" && m.key != "$defs" && m.key != "$id"
    requires m.key != "description" && m.key != "x-canon-problem"
    ensures Plainly(Object([m]), at) && Met(Object([m]), at, true) == {}
  {
    NoProblem(m);
    SoleMember(m);
    hide Find, Escape;
    var scoped := Scoped(at, Object([m]));
    assert ProblemType(EMPTY) == None;
    SolePlain(m, scoped);
    SoleMet(m, scoped, true);
  }

  lemma RestPlain()
    ensures Plainly(REST, TopPlace(SOURCE)) && Met(REST, TopPlace(SOURCE), true) == {}
  {
    hide Plainly, Met;
    SoleEmpty(REST.members[0], TopPlace(SOURCE));
  }

  lemma SchemaPlain()
    ensures Plainly(SCHEMA, DeclarationPlace(KEY)) && Met(SCHEMA, DeclarationPlace(KEY), true) == {}
  {
    var m, at := SCHEMA.members[0], DeclarationPlace(KEY);
    SoleMember(m);
    hide ScopeOf, Find;
    SolePlain(m, at);
    SoleMet(m, at, true);
  }

  lemma OnlyKey()
    ensures Closed(INPUT, iset{KEY})
  {
    KeyFound();
    KeyDeclares();
    SchemaPlain();
    hide Pointer, Met, Defs, RawOf;
  }

  // ----- why it cannot be assembled

  ghost predicate Only(t: Tables) {
    Consistent(INPUT, t) && t.refs.Keys <= {KEY}
  }

  lemma OnlyName(t: Tables)
    requires Only(t)
    ensures t.names.Keys <= {Label("A")} && (KEY !in t.refs ==> t.models == map[] && t.names == map[])
    ensures KEY in t.refs ==> HasModel(t, KEY) && t.refs[KEY] == Label("A") && !ModelOf(t, KEY).problem
  {
    KeyClaim();
    KeyNamed();
    hide Head, FreshName, RequestsKept;
    forall id | id in t.models ensures t.models[id].origin == KEY && t.models[id].name == Label("A") {
      assert t.models[id].origin in t.refs;
    }
    forall name | name in t.names ensures name == Label("A") {
      assert t.models[t.names[name]].name == name;
    }
  }

  const FINISHED := Titled(SCHEMA, Label("A"))

  lemma KeyCompiled(t: Tables, done: set<Reference>)
    requires HasModel(t, KEY) && t.refs[KEY] == Label("A") && !ModelOf(t, KEY).problem
    ensures CompiledAs(INPUT, t, done, KEY) == Ok(FINISHED)
  {
    KeyFound();
    SchemaPlain();
    PlainKept(t.refs, done, SCHEMA, DeclarationPlace(KEY));
    hide Pointer, Rewritten, Titled;
  }

  lemma KeyClaimable(t: Tables, f: Failure)
    requires Only(t) && f.key == KEY
    ensures !ClaimFails(INPUT, t, f)
  {
    OnlyName(t);
    KeyClaim();
    KeyNamed();
    KeyDeclares();
    hide Head, FreshName, Defs, Only;
  }

  // A reference does not disagree with itself.
  lemma SoleCompilable(input: Input, t: Tables, f: Failure)
    requires input.Has(f.key.source) && t.refs.Keys <= {f.key}
    requires HasModel(t, f.key) ==> CompiledAs(input, t, t.refs.Keys, f.key).Ok?
    ensures !CompileFails(input, t, f)
  {
    hide CompiledAs, Meaning;
  }

  lemma KeyCompilable(t: Tables, f: Failure)
    requires Only(t) && f.key == KEY
    ensures !CompileFails(INPUT, t, f)
  {
    OnlyName(t);
    hide Consistent, CompiledAs, CompileFails;
    if KEY in t.refs { KeyCompiled(t, t.refs.Keys); }
    SoleCompilable(INPUT, t, f);
  }

  // Nothing is wrong with the only reference.
  lemma KeyAccepted(t: Tables, f: Failure)
    requires Only(t)
    ensures Justified(INPUT, t, f) ==> f.key != KEY
  {
    hide Only, ClaimFails, CompileFails;
    if f.key == KEY {
      KeyClaimable(t, f);
      KeyCompilable(t, f);
    }
  }

  lemma GoneLinked(all: bool)
    ensures References(MODELS, SCHEMA, false, all) == if all then {Label("Gone")} else {}
  {
    var m := SCHEMA.members[0];
    SoleReferences(LINK, false, true);
    SoleReferences(m, false, all);
    assert (MODELS + "Gone")[|MODELS|..] == "Gone";
    assert References(MODELS, Object([LINK]), false, true) == {Label("Gone")} + References(MODELS, LINK.value, false, true);
    assert References(MODELS, LINK.value, false, true) == {};
  }

  lemma GoneCollected()
    ensures Label("Gone") in Collected(FINISHED) && SchemaReferences(FINISHED, false) == {}
  {
    var m := SCHEMA.members[0];
    GoneLinked(false);
    GoneLinked(true);
    SoleReferences(m, false, true);
    TitledReferences(MODELS, SCHEMA, Label("A"), false);
    assert m == FINISHED.members[0];
    ReferenceOf(MODELS, FINISHED.members, false, true, Label("Gone"));
  }

  lemma SourceOwns(t: Tables)
    requires KEY in t.refs && t.refs[KEY] == Label("A")
    ensures Label("A") in OwnNames(t, SOURCE)
  {
  }

  lemma CopyFound(t: Tables, start: set<Label>, name: Label, child: Label)
    requires name in start && CopiesUnknown(t, name, child)
    ensures CopiedUnknown(t, start)
  {
    ReachedFirst(t, start, name);
  }

  lemma GoneCopied(t: Tables, compiled: set<Reference>)
    requires Settling(INPUT, t, compiled, {}) && Only(t) && KEY in compiled
    ensures CopiedUnknown(t, OwnNames(t, SOURCE))
  {
    KeyStored(t, compiled);
    GoneCollected();
    OnlyName(t);
    hide Settling, Only, Collected, SchemaReferences, FINISHED;
    SourceOwns(t);
    CopyFound(t, OwnNames(t, SOURCE), Label("A"), Label("Gone"));
  }

  // The only reference is where its model got its schema from.
  lemma SoleStored(input: Input, t: Tables, compiled: set<Reference>, key: Reference)
    requires Settling(input, t, compiled, {}) && key in compiled && t.refs.Keys <= {key}
    ensures key in t.refs && input.Has(key.source) && HasModel(t, key) && HasSchema(t, t.refs[key])
    ensures CompiledAs(input, t, compiled, key) == Ok(SchemaOf(t, t.refs[key]))
  {
    SettlingParts(input, t, compiled, {});
    hide Consistent, CompiledAs, Meaning, DefsClaimed, Founded;
    assert compiled + {} == compiled;
    assert Agrees(input, t, compiled, key);
    var other := SchemaFrom(input, t, compiled, t.refs[key]);
  }

  lemma KeyStored(t: Tables, compiled: set<Reference>)
    requires Settling(INPUT, t, compiled, {}) && Only(t) && KEY in compiled
    ensures HasSchema(t, Label("A")) && SchemaOf(t, Label("A")) == FINISHED && KEY in t.refs
  {
    SoleStored(INPUT, t, compiled, KEY);
    OnlyName(t);
    hide Settling, Only, CompiledAs;
    KeyCompiled(t, compiled);
  }

  lemma BoundedOnly(t: Tables, within: iset<Reference>)
    requires Consistent(INPUT, t) && AllWithin(t.refs.Keys, within) && within == iset{KEY}
    ensures Only(t)
  {
    hide Consistent;
    forall key | key in t.refs ensures key == KEY { assert key in t.refs.Keys; }
  }

  lemma AddAccepted(t: Tables, f: Failure)
    requires Only(t)
    ensures !(Justified(INPUT, t, f) && f.key == KEY)
    ensures INPUT.Has(f.key.source) ==> Section(INPUT, f.key.source).Ok?
  {
    KeyAccepted(t, f);
    Declares();
    hide Only, Justified, Section;
  }

  lemma DocumentAccepted(t: Tables, f: Failure)
    requires Only(t)
    ensures !(Justified(INPUT, t, f) && f.key == KEY)
    ensures Stripped(INPUT, SOURCE).Ok?
    ensures Rewritten(t.refs, t.refs.Keys, Stripped(INPUT, SOURCE).value, TopPlace(SOURCE)).Ok?
  {
    hide Only, Justified, Stripped, Plainly, Rewritten;
    KeyAccepted(t, f);
    Declares();
    RestPlain();
    PlainKept(t.refs, t.refs.Keys, REST, TopPlace(SOURCE));
  }

  ghost predicate Loaded(registry: SchemaRegistry)
    reads registry
  {
    && registry.input == INPUT && registry.within == iset{KEY}
    && registry.Valid() && registry.Bounded() && registry.compiling == {} && KEY in registry.compiled
  }

  // Every schema of the document is claimed and compiled.
  method Load() returns (registry: SchemaRegistry)
    ensures fresh(registry) && Loaded(registry)
  {
    OnlyKey();
    Declares();
    assert AllWithin({KEY}, iset{KEY}) && INPUT.Has(SOURCE);
    hide Closed, Justified, Consistent, Settling, Starts, Section, Only, AllWithin;
    registry := new SchemaRegistry(INPUT, iset{KEY});
    var added := registry.AddSources([SOURCE]);
    if added.Some? {
      BoundedOnly(registry.Now(), registry.within);
      AddAccepted(registry.Now(), added.value);
    }
  }

  /** Every schema of the document is claimed and compiled, but the document cannot be assembled. */
  method Unassembled() returns (r: Result<Value>)
    ensures r.Failed? && r.failure.error == UnknownModel
  {
    hide Closed, Justified, Consistent, Settling, CopiedUnknown, Met, Plainly, Stripped, Only, AllWithin;
    hide Rewritten, ClosedOver, Puts;
    var registry := Load();
    Rest();
    ghost var plain, found;
    r, plain, found := registry.Document(SOURCE);
    if r.Done? {
      SettlingParts(INPUT, registry.Now(), registry.compiled, {});
      BoundedOnly(registry.Now(), registry.within);
      GoneCopied(registry.Now(), registry.compiled);
    } else {
      BoundedOnly(registry.Now(), registry.within);
      DocumentAccepted(registry.Now(), r.failure);
    }
  }

  lemma Rest()
    ensures Stripped(INPUT, SOURCE).Ok? && AllWithin(Met(Stripped(INPUT, SOURCE).value, TopPlace(SOURCE), true), iset{KEY})
  {
    Declares();
    RestPlain();
    hide Stripped, Met, Plainly;
  }
}
