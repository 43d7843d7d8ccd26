/**
 The documents of one client, the beginning of `build_plan` in `fastapi_canon/codegen/planner.py`: when every
 model that they refer to is a compiled one.
 */
module SchemaPlans {
  import opened Wrappers
  import opened Json
  import opened Pointers
  import opened Schemas
  import opened SchemaNames
  import opened SchemaAssembly
  import opened SchemaRegistries

  // ----- models with a schema

  // Some compiled reference has the name.
  ghost predicate CompiledName(t: Tables, compiled: set<Reference>, name: Label) {
    exists key :: key in compiled && key in t.refs && t.refs[key] == name
  }

  /** A model has a schema exactly when one of its references was compiled; a model that was only claimed is left with
      an empty one. */
  lemma SchemaCompiled(input: Input, t: Tables, compiled: set<Reference>, name: Label)
    requires Settling(input, t, compiled, {}) && HasSchema(t, name)
    ensures SchemaOf(t, name) != EMPTY <==> CompiledName(t, compiled, name)
  {
    if SchemaOf(t, name) != EMPTY {
      var key := SchemaFrom(input, t, compiled, name);
    }
    if key :| key in compiled && key in t.refs && t.refs[key] == name {
      hide Consistent, DefsClaimed, Founded, CompiledAs, Meaning;
      assert Agrees(input, t, compiled + {}, key);
    }
  }

  // ----- where embedded problem schemas are

  function Address(base: string, names: seq<string>): string
    decreases |names|
  {
    if names == [] then base else Address(base + "/" + names[0], names[1..])
  }

  predicate Segments(names: seq<string>) {
    forall i :: 0 <= i < |names| ==> '/' !in names[i]
  }

  // `key` is the address of a problem schema below `v`.
  ghost predicate Embeds(v: Value, at: Place, key: Reference, names: seq<string>) {
    && Segments(names) && key == Reference(at.source, Address(at.address, names))
    && Follow(v, names).Some? && ProblemType(Follow(v, names).value).Some?
  }

  lemma EmbedsBelow(v: Value, name: string, child: Value, at: Place, below: Place, key: Reference, names: seq<string>)
    requires Descend(v, name) == Some(child) && '/' !in name && Embeds(child, below, key, names)
    requires below.source == at.source && below.address == at.address + "/" + name
    ensures Embeds(v, at, key, [name] + names)
  {
    assert ([name] + names)[1..] == names;
  }

  lemma {:induction false} MetItemIn(items: seq<Value>, at: Place, key: Reference) returns (i: nat)
    requires key in MetItems(items, at, true)
    ensures i < |items| && key in Met(items[i], ItemPlace(at, i), true)
  {
    var last := |items| - 1;
    if key in MetItems(items[..last], at, true) {
      i := MetItemIn(items[..last], at, key);
    } else {
      i := last;
    }
  }

  lemma {:induction false} MetMemberIn(members: seq<Member>, at: Place, key: Reference) returns (i: nat)
    requires key in MetMembers(members, at, true)
    ensures i < |members| && key in MetMember(members[i], at, true)
  {
    var last := |members| - 1;
    if key in MetMembers(members[..last], at, true) {
      i := MetMemberIn(members[..last], at, key);
    } else {
      i := last;
    }
  }

  /** A reference that a rewriting meets is followed, or the address of a problem schema inside the value. */
  lemma {:induction false} EmbeddedAt(v: Value, at: Place, key: Reference) returns (names: seq<string>)
    requires WellFormed(v) && key in Met(v, at, true) && key !in Met(v, at, false)
    ensures Embeds(v, at, key, names) && (names == [] ==> Replaced(v, at))
    decreases v
  {
    match v
    case Array(items) =>
      var i := MetItemIn(items, at, key);
      MetItemsAt(items, at, i, false);
      DecimalParses(i);
      var rest := EmbeddedAt(items[i], ItemPlace(at, i), key);
      EmbedsBelow(v, Decimal(i), items[i], at, ItemPlace(at, i), key, rest);
      names := [Decimal(i)] + rest;
    case Object(members) =>
      if Replaced(v, at) {
        names := [];
      } else {
        var inside := Scoped(at, v);
        var i := MetMemberIn(members, inside, key);
        var m := members[i];
        MetMembersAt(members, inside, i, false);
        FindAt(members, i);
        Unescaped(m.key);
        var rest := EmbeddedAt(m.value, MemberPlace(inside, m.key), key);
        EmbedsBelow(v, Escape(m.key), m.value, at, MemberPlace(inside, m.key), key, rest);
        names := [Escape(m.key)] + rest;
      }
  }

  lemma {:induction false} AddressNames(base: string, names: seq<string>)
    requires Segments(names) && |base| >= 2
    ensures Names(Address(base, names)) == Names(base) + names
    decreases |names|
  {
    if names != [] {
      var next := base + "/" + names[0];
      assert next[2..] == base[2..] + "/" + names[0];
      SplitAppend(base[2..], names[0]);
      AddressNames(next, names[1..]);
      assert Names(base) + [names[0]] + names[1..] == Names(base) + names;
    } else {
      assert Names(base) + [] == Names(base);
    }
  }

  // Below a reference that leads to `v`, and below the root, addresses lead to what is inside.
  lemma AddressLeads(document: Value, base: string, v: Value, names: seq<string>)
    requires Segments(names)
    requires if base == "#" then v == document && names != [] else |base| >= 2 && Pointer(document, base) == Some(v)
    ensures Pointer(document, Address(base, names)) == Follow(v, names)
  {
    if base == "#" {
      var next := "#/" + names[0];
      assert base + "/" + names[0] == next && next[2..] == names[0];
      SplitSlashFree(names[0]);
      AddressNames(next, names[1..]);
      assert [names[0]] + names[1..] == names;
    } else {
      AddressNames(base, names);
      FollowFurther(document, Names(base), names);
    }
  }

  // ----- documents whose problem schemas are all found

  // No problem schema is anywhere in the value.
  ghost predicate Harmless(v: Value) {
    ProblemType(v).None? &&
    match v
    case Array(items) => forall i :: 0 <= i < |items| ==> Harmless(items[i])
    case Object(members) => forall i :: 0 <= i < |members| ==> Harmless(members[i].value)
    case _ => true
  }

  // Problem schemas have a type that is not empty, and none is inside a default or an example.
  ghost predicate Exposed(v: Value) {
    ProblemType(v) != Some("") &&
    match v
    case Array(items) => forall i :: 0 <= i < |items| ==> Exposed(items[i])
    case Object(members) =>
      forall i :: 0 <= i < |members| ==>
        Exposed(members[i].value) && (Skipped(members[i].key) ==> Harmless(members[i].value))
    case _ => true
  }

  lemma {:induction false} HarmlessBelow(v: Value, names: seq<string>)
    requires Harmless(v) && Follow(v, names).Some?
    ensures ProblemType(Follow(v, names).value).None?
  {
    if names != [] {
      var child := Descend(v, names[0]).value;
      if v.Array? {
        var i :| 0 <= i < |v.items| && v.items[i] == child;
      } else {
        var i :| 0 <= i < |v.members| && v.members[i].value == child;
      }
      HarmlessBelow(child, names[1..]);
    }
  }

  // A pointer to a problem schema takes the steps that the search for problem schemas takes.
  lemma {:induction false} StepsTo(v: Value, names: seq<string>) returns (path: seq<Step>)
    requires Exposed(v) && Follow(v, names).Some? && ProblemType(Follow(v, names).value).Some?
    ensures Sub(v, path) == Follow(v, names) && |path| == |names|
    ensures ProblemType(Follow(v, names).value) != Some("")
  {
    if names == [] {
      path := [];
    } else {
      var child := Descend(v, names[0]).value;
      var step;
      if v.Array? {
        var i :| 0 <= i < |v.items| && v.items[i] == child;
        step := Item(i);
      } else {
        var key := Unescape(names[0]);
        var i :| 0 <= i < |v.members| && v.members[i] == Member(key, child);
        if Skipped(key) { HarmlessBelow(child, names[1..]); }
        step := Key(key);
      }
      var rest := StepsTo(child, names[1..]);
      path := [step] + rest;
      assert path[1..] == rest;
    }
  }

  // The address is that of a problem schema which the search finds.
  lemma AddressFound(document: Value, names: seq<string>) returns (ref: string)
    requires WellFormed(document) && Exposed(document) && names != []
    requires Follow(document, names).Some? && ProblemType(Follow(document, names).value).Some?
    ensures ref in InlineProblems(document, "#") && Pointer(document, ref) == Follow(document, names)
    ensures ProblemType(Follow(document, names).value) != Some("")
  {
    var path := StepsTo(document, names);
    ref := Print("#", path);
    AddressPrinted(document, "#", path);
    PointerRoundTrip(document, path);
  }

  // All references to a problem schema have the identity of its type.
  lemma ProblemIdentity(input: Input, key: Reference, raw: Value)
    requires input.Has(key.source) && Pointer(input.documents[key.source], key.ref) == Some(raw) && Head(input, key).Ok?
    requires ProblemType(raw).Some? && ProblemType(raw) != Some("")
    ensures Head(input, key).value.identity == Identity("problem:" + ProblemType(raw).value)
  {
    hide Pointer, ProblemType, DeclaredIdentity, RequestedName, GenericProblem, Last;
  }

  // What the registry has compiled when every problem schema of its documents was found.
  ghost predicate Thorough(input: Input, t: Tables, compiled: set<Reference>, source: string) {
    && input.Has(source) && WellFormed(input.documents[source]) && Exposed(input.documents[source])
    && Starts(input, source) <= compiled
  }

  lemma AddressCompiled(input: Input, t: Tables, compiled: set<Reference>, key: Reference, names: seq<string>)
    requires Settling(input, t, compiled, {}) && key in t.refs && Thorough(input, t, compiled, key.source) && names != []
    requires var document := input.documents[key.source];
             && Pointer(document, key.ref) == Follow(document, names) && Follow(document, names).Some?
             && ProblemType(Follow(document, names).value).Some?
    ensures CompiledName(t, compiled, t.refs[key])
  {
    var document := input.documents[key.source];
    var ref := AddressFound(document, names);
    var other := Reference(key.source, ref);
    assert other in Starts(input, key.source);
    hide Starts, InlineProblems, Pointer, Follow, ProblemType, WellFormed, Exposed, Consistent, Settling, Head;
    SettlingParts(input, t, compiled, {});
    NamedModel(input, t, key);
    NamedModel(input, t, other);
    ProblemIdentity(input, key, Follow(document, names).value);
    ProblemIdentity(input, other, Follow(document, names).value);
    SameNameSameIdentity(input, t, key, other);
  }

  // ----- the document without its schemas

  // The member does not make the object a problem schema.
  predicate Indifferent(key: string) {
    key != "x-canon-problem" && key != "description" && key != PROPERTIES
  }

  // Problem schemas inside the one value are problem schemas in the same places of the other.
  ghost predicate Keeps(v: Value, whole: Value) {
    forall names :: Follow(v, names).Some? && ProblemType(Follow(v, names).value).Some? ==>
      Follow(whole, names).Some? && ProblemType(Follow(whole, names).value) == ProblemType(Follow(v, names).value)
  }

  lemma SameProblemType(a: seq<Member>, b: seq<Member>)
    requires Find(a, "x-canon-problem") == Find(b, "x-canon-problem") && Find(a, "description") == Find(b, "description")
    requires Find(a, PROPERTIES) == Find(b, PROPERTIES)
    ensures ProblemType(Object(a)) == ProblemType(Object(b))
  {
    hide Find;
  }

  // Members that agree but for one that is absent or keeps problem schemas.
  lemma KeepsMembers(a: seq<Member>, b: seq<Member>, key: string)
    requires Indifferent(key) && forall k :: k != key ==> Find(a, k) == Find(b, k)
    requires Find(a, key).Some? ==> Find(b, key).Some? && Keeps(Find(a, key).value, Find(b, key).value)
    ensures Keeps(Object(a), Object(b))
  {
    SameProblemType(a, b);
    hide Find, ProblemType, Unescape, Follow;
    forall names | Follow(Object(a), names).Some? && ProblemType(Follow(Object(a), names).value).Some?
      ensures Follow(Object(b), names).Some?
              && ProblemType(Follow(Object(b), names).value) == ProblemType(Follow(Object(a), names).value)
    {
      FollowMember(a, names);
      FollowMember(b, names);
    }
  }

  lemma FollowMember(members: seq<Member>, names: seq<string>)
    ensures Follow(Object(members), names) ==
            if names == [] then Some(Object(members))
            else
              match Find(members, Unescape(names[0]))
              case None => None
              case Some(child) => Follow(child, names[1..])
  {
  }

  lemma WithoutKeeps(members: seq<Member>, key: string)
    requires Indifferent(key)
    ensures Keeps(Object(Without(members, key)), Object(members))
  {
    forall k ensures Find(Without(members, key), k) == if k == key then None else Find(members, k) {
      FindWithout(members, key, k);
    }
    hide Find, Without;
    KeepsMembers(Without(members, key), members, key);
  }

  lemma StrippedKeeps(input: Input, source: string)
    requires input.Has(source) && Stripped(input, source).Ok?
    ensures Keeps(Stripped(input, source).value, input.documents[source])
  {
    var members := input.documents[source].members;
    if input.configs[source].rtc {
      WithoutKeeps(members, "definitions");
    } else {
      match Find(members, "components")
      case Some(Object(components)) =>
        var rest := Object(Without(components, "schemas"));
        WithoutKeeps(components, "schemas");
        forall k
          ensures Find(Put(members, "components", rest), k) == if k == "components" then Some(rest) else Find(members, k)
        {
          FindPut(members, "components", rest, k);
        }
        hide Find, Put, Keeps;
        KeepsMembers(Put(members, "components", rest), members, "components");
      case _ =>
    }
  }

  lemma {:induction false} WithoutDistinct(members: seq<Member>, key: string)
    requires DistinctKeys(members)
    ensures DistinctKeys(Without(members, key))
  {
    if members != [] {
      var rest := Without(members[1..], key);
      WithoutDistinct(members[1..], key);
      forall j | 0 <= j < |rest| ensures rest[j].key != members[0].key {
        WithoutMember(members[1..], key, rest[j]);
        var i :| 0 <= i < |members[1..]| && members[1..][i] == rest[j];
        assert members[i + 1] == rest[j];
      }
    }
  }

  lemma WithoutFormed(members: seq<Member>, key: string)
    requires WellFormed(Object(members))
    ensures WellFormed(Object(Without(members, key)))
  {
    WithoutDistinct(members, key);
    var rest := Without(members, key);
    forall j | 0 <= j < |rest| ensures WellFormed(rest[j].value) {
      WithoutMember(members, key, rest[j]);
      var i :| 0 <= i < |members| && members[i] == rest[j];
    }
  }

  lemma {:induction false} PutInPlace(members: seq<Member>, i: nat, value: Value)
    requires DistinctKeys(members) && i < |members|
    ensures Put(members, members[i].key, value) == members[i := Member(members[i].key, value)]
  {
    var m, rest := Member(members[i].key, value), members[1..];
    if i > 0 {
      assert members[0].key != members[i].key && rest[i - 1] == members[i];
      PutInPlace(rest, i - 1, value);
      hide DistinctKeys;
      assert [members[0]] + rest[i - 1 := m] == members[i := m];
    } else {
      hide DistinctKeys;
      assert [m] + rest == members[0 := m];
    }
  }

  lemma StrippedFormed(input: Input, source: string)
    requires input.Has(source) && Stripped(input, source).Ok? && WellFormed(input.documents[source])
    ensures WellFormed(Stripped(input, source).value)
  {
    var members := input.documents[source].members;
    if input.configs[source].rtc {
      WithoutFormed(members, "definitions");
    } else {
      match Find(members, "components")
      case Some(Object(components)) =>
        var i :| 0 <= i < |members| && members[i] == Member("components", Object(components));
        WithoutFormed(components, "schemas");
        PutInPlace(members, i, Object(Without(components, "schemas")));
      case _ =>
    }
  }

  lemma {:induction false} FollowFormed(v: Value, names: seq<string>)
    requires WellFormed(v) && Follow(v, names).Some?
    ensures WellFormed(Follow(v, names).value)
  {
    if names != [] {
      var child := Descend(v, names[0]).value;
      if v.Array? {
        var i :| 0 <= i < |v.items| && v.items[i] == child;
      } else {
        var i :| 0 <= i < |v.members| && v.members[i].value == child;
      }
      FollowFormed(child, names[1..]);
    }
  }

  // ----- what compiled schemas and documents refer to

  // Whatever a compiled reference's own schema meets has a compiled model.
  lemma RawCompiled(input: Input, t: Tables, compiled: set<Reference>, key: Reference, met: Reference)
    requires Settling(input, t, compiled, {}) && key in compiled && Thorough(input, t, compiled, key.source) && |key.ref| >= 2
    requires met in Met(RawOf(input, key), DeclarationPlace(key), true) && met in t.refs
    ensures CompiledName(t, compiled, t.refs[met])
  {
    SettlingParts(input, t, compiled, {});
    NamedModel(input, t, key);
    SettledMeaning(input, t, compiled, key, key);
    var raw, at := RawOf(input, key), DeclarationPlace(key);
    if met !in Met(raw, at, false) {
      var document := input.documents[key.source];
      FollowFormed(document, Names(key.ref));
      var names := EmbeddedAt(raw, at, met);
      AddressLeads(document, key.ref, raw, names);
      FollowFurther(document, Names(key.ref), names);
      hide Settling, Consistent, Thorough, Met, RawOf, Head;
      AddressCompiled(input, t, compiled, met, Names(key.ref) + names);
    }
  }

  // Whatever the document without its schemas meets has a compiled model.
  lemma TopCompiled(input: Input, t: Tables, compiled: set<Reference>, source: string, met: Reference)
    requires Settling(input, t, compiled, {}) && Thorough(input, t, compiled, source) && Stripped(input, source).Ok?
    requires Rewritten(t.refs, compiled, Stripped(input, source).value, TopPlace(source)).Ok?
    requires ProblemType(input.documents[source]).None?
    requires met in Met(Stripped(input, source).value, TopPlace(source), true) && met in t.refs
    ensures CompiledName(t, compiled, t.refs[met])
  {
    var raw, at, document := Stripped(input, source).value, TopPlace(source), input.documents[source];
    MetDone(t.refs, compiled, raw, at);
    if met !in Met(raw, at, false) {
      StrippedKeeps(input, source);
      StrippedFormed(input, source);
      var names := EmbeddedAt(raw, at, met);
      TopAddress(document, raw, names, at);
      hide Settling, Thorough, Met, Stripped, Rewritten;
      AddressCompiled(input, t, compiled, met, names);
    }
  }

  lemma TopAddress(document: Value, raw: Value, names: seq<string>, at: Place)
    requires Keeps(raw, document) && ProblemType(document).None? && Segments(names) && at.address == "#"
    requires Follow(raw, names).Some? && ProblemType(Follow(raw, names).value).Some?
    ensures names != [] && Pointer(document, Address("#", names)) == Follow(document, names)
    ensures Follow(document, names).Some? && ProblemType(Follow(document, names).value).Some?
  {
    assert Follow(document, []) == Some(document);
    hide ProblemType;
    AddressLeads(document, "#", document, names);
  }

  // Every claimed reference is one of a source whose problem schemas were all found.
  ghost predicate AllThorough(input: Input, t: Tables, compiled: set<Reference>) {
    forall key :: key in t.refs ==> |key.ref| >= 2 && Thorough(input, t, compiled, key.source)
  }

  lemma ModelRefers(input: Input, t: Tables, compiled: set<Reference>, name: Label, child: Label)
    requires Settling(input, t, compiled, {}) && AllThorough(input, t, compiled) && HasSchema(t, name)
    requires child in References(MODELS, SchemaOf(t, name), false, false)
    ensures CompiledName(t, compiled, child)
  {
    hide Settling, Consistent, Thorough, References, RawOf, Met, CompiledAs;
    if SchemaOf(t, name) == EMPTY {
      EmptyReferences();
    } else {
      SettlingParts(input, t, compiled, {});
      var key := SchemaFrom(input, t, compiled, name);
      GivenReferences(MODELS, input, t, compiled, key, false);
      var met :| met in Met(RawOf(input, key), DeclarationPlace(key), true) && met in t.refs && t.refs[met] == child;
      RawCompiled(input, t, compiled, key, met);
    }
  }

  lemma TopRefers(input: Input, t: Tables, compiled: set<Reference>, source: string, plain: Value, child: Label)
    requires Settling(input, t, compiled, {}) && Thorough(input, t, compiled, source) && Stripped(input, source).Ok?
    requires Rewritten(t.refs, compiled, Stripped(input, source).value, TopPlace(source)) == Ok(plain)
    requires ProblemType(input.documents[source]).None? && child in References(MODELS, plain, false, false)
    ensures CompiledName(t, compiled, child)
  {
    assert input.Has(source);
    hide Settling, Thorough, References, Stripped, Rewritten, Met, ProblemType;
    var raw, at := Stripped(input, source).value, TopPlace(source);
    RewrittenReferences(MODELS, t, compiled, raw, at, false);
    var met :| met in Met(raw, at, true) && met in t.refs && t.refs[met] == child;
    TopCompiled(input, t, compiled, source, met);
  }

  function Defined(found: map<Label, Value>): set<Label> {
    set name | name in found && found[name] != EMPTY
  }

  lemma CompiledDefined(
      input: Input, t: Tables, compiled: set<Reference>, start: set<Label>, found: map<Label, Value>, name: Label)
    requires Settling(input, t, compiled, {}) && ClosedOver(t, start, found) && name in found
    requires CompiledName(t, compiled, name)
    ensures name in Defined(found)
  {
    hide Settling, CompiledName, Reached;
    SchemaCompiled(input, t, compiled, name);
  }

  /** Where the documents hide no problem schema, whatever a document refers to is defined by a compiled schema. */
  lemma DocumentDefined(
      input: Input, t: Tables, compiled: set<Reference>, source: string, plain: Value, found: map<Label, Value>, whole: Value)
    requires Settling(input, t, compiled, {}) && AllThorough(input, t, compiled)
    requires Thorough(input, t, compiled, source) && ProblemType(input.documents[source]).None?
    requires Stripped(input, source).Ok?
    requires Rewritten(t.refs, compiled, Stripped(input, source).value, TopPlace(source)) == Ok(plain)
    requires ClosedOver(t, OwnNames(t, source), found) && Puts(input.configs[source].rtc, plain, found, whole)
    ensures Resolves(input.configs[source].rtc, whole, found, Defined(found))
  {
    var rtc := input.configs[source].rtc;
    hide Settling, AllThorough, Thorough, ClosedOver, Stripped, Rewritten, Resolves, Assembled, Lists;
    hide CompiledName, ProblemType;
    DocumentSupported(input, t, compiled, source, plain, found);
    var definitions :| Lists(definitions, found) && Assembled(rtc, plain, definitions) == Ok(whole);
    AllDefined(input, t, compiled, source, plain, found);
    AssemblyResolves(rtc, plain, definitions, found, whole, Defined(found));
  }

  lemma AllDefined(
      input: Input, t: Tables, compiled: set<Reference>, source: string, plain: Value, found: map<Label, Value>)
    requires Settling(input, t, compiled, {}) && AllThorough(input, t, compiled)
    requires Thorough(input, t, compiled, source) && ProblemType(input.documents[source]).None?
    requires Stripped(input, source).Ok? && Supported(plain, found, found.Keys)
    requires Rewritten(t.refs, compiled, Stripped(input, source).value, TopPlace(source)) == Ok(plain)
    requires ClosedOver(t, OwnNames(t, source), found)
    ensures Supported(plain, found, Defined(found))
  {
    hide Settling, AllThorough, Thorough, Stripped, Rewritten, CompiledName, ProblemType, References, NameLike, Reached;
    var start := OwnNames(t, source);
    forall child | child in References(MODELS, plain, false, false) ensures child in Defined(found) {
      TopRefers(input, t, compiled, source, plain, child);
      CompiledDefined(input, t, compiled, start, found, child);
    }
    forall name, child | name in found && child in References(MODELS, found[name], false, false)
      ensures child in Defined(found) {
      ModelRefers(input, t, compiled, name, child);
      CompiledDefined(input, t, compiled, start, found, child);
    }
  }

  // ----- the documents of a client

  // References to a source that address something below its root.
  ghost function Below(sources: seq<string>): iset<Reference> {
    iset source: string, ref: string | source in sources && |ref| >= 2 :: Reference(source, ref)
  }

  lemma BelowHas(sources: seq<string>, key: Reference)
    ensures key in Below(sources) <==> key.source in sources && |key.ref| >= 2
  {
    assert key == Reference(key.source, key.ref);
  }

  lemma BelowClosed(input: Input, sources: seq<string>)
    ensures Closed(input, Below(sources))
  {
    forall key | key in Below(sources)
      ensures AllWithin(Met(RawOf(input, key), DeclarationPlace(key), true), Below(sources))
      ensures ChildrenWithin(key, RawOf(input, key), Below(sources))
    {
      BelowHas(sources, key);
      forall met | met in Met(RawOf(input, key), DeclarationPlace(key), true) ensures met in Below(sources) {
        MetHere(RawOf(input, key), DeclarationPlace(key), true, met);
        BelowHas(sources, met);
      }
      forall name ensures ChildRef(key, name) in Below(sources) { BelowHas(sources, ChildRef(key, name)); }
    }
  }

  // No document is a problem schema itself or hides one.
  ghost predicate AllFound(input: Input, sources: seq<string>) {
    forall s :: s in sources ==>
      && input.Has(s) && WellFormed(input.documents[s]) && Exposed(input.documents[s])
      && ProblemType(input.documents[s]).None?
  }

  ghost predicate Asked(input: Input, source: string, within: iset<Reference>)
    requires input.Has(source)
  {
    && AllWithin(Starts(input, source), within)
    && (Stripped(input, source).Ok? ==> AllWithin(Met(Stripped(input, source).value, TopPlace(source), true), within))
  }

  lemma SectionLong(input: Input, source: string)
    requires input.Has(source) && Section(input, source).Ok?
    ensures forall ref :: ref in Section(input, source).value ==> |ref| >= 2
  {
    hide Find, Escape;
  }

  lemma FoundBelow(input: Input, sources: seq<string>, source: string)
    requires AllFound(input, sources) && source in sources
    ensures Asked(input, source, Below(sources))
  {
    var document := input.documents[source];
    forall key | key in Starts(input, source) ensures key in Below(sources) {
      if Section(input, source).Ok? { SectionLong(input, source); }
      if key.ref in InlineProblems(document, "#") {
        var path := PrintedAddresses(document, "#", key.ref);
        PrintLonger("#", path);
      }
      BelowHas(sources, key);
    }
    if Stripped(input, source).Ok? {
      StrippedKeeps(input, source);
      RestBelow(input, sources, source);
    }
  }

  lemma RestBelow(input: Input, sources: seq<string>, source: string)
    requires input.Has(source) && source in sources && Stripped(input, source).Ok?
    requires Keeps(Stripped(input, source).value, input.documents[source]) && ProblemType(input.documents[source]).None?
    ensures AllWithin(Met(Stripped(input, source).value, TopPlace(source), true), Below(sources))
  {
    var raw := Stripped(input, source).value;
    assert Follow(raw, []) == Some(raw) && Follow(input.documents[source], []) == Some(input.documents[source]);
    hide Stripped, ProblemType;
    forall met | met in Met(raw, TopPlace(source), true) ensures met in Below(sources) {
      MetHere(raw, TopPlace(source), true, met);
      BelowHas(sources, met);
    }
  }

  // The references that building the documents asks for.
  lemma AskedFor(input: Input, sources: seq<string>) returns (within: iset<Reference>)
    requires forall s :: s in sources ==> input.Has(s)
    ensures Closed(input, within) && forall s :: s in sources ==> Asked(input, s, within)
    ensures AllFound(input, sources) ==> within == Below(sources)
  {
    if AllFound(input, sources) {
      within := Below(sources);
      BelowClosed(input, sources);
      forall s | s in sources ensures Asked(input, s, within) { FoundBelow(input, sources, s); }
    } else {
      within := AllClosed(input);
    }
  }

  // The definitions still mean what the models do.
  ghost predicate StillMeans(t: Tables, found: map<Label, Value>) {
    forall name :: name in found && found[name] != EMPTY ==>
      && HasSchema(t, name) && SchemaOf(t, name) != EMPTY
      && Meaning(SchemaOf(t, name), false) == Meaning(found[name], false)
  }

  lemma ClosedMeans(t: Tables, start: set<Label>, found: map<Label, Value>)
    requires ClosedOver(t, start, found)
    ensures StillMeans(t, found)
  {
    hide Meaning, Reached;
  }

  lemma MeansLater(t: Tables, next: Tables, found: map<Label, Value>)
    requires Grown(t, next) && StillMeans(t, found)
    ensures StillMeans(next, found)
  {
    hide Meaning;
    forall name | name in found && found[name] != EMPTY
      ensures HasSchema(next, name) && SchemaOf(next, name) != EMPTY
      ensures Meaning(SchemaOf(next, name), false) == Meaning(found[name], false)
    {
      assert Evolved(t.models[t.names[name]], next.models[next.names[name]]);
    }
  }

  // A model is defined alike wherever it is defined.
  ghost predicate OneDefinition(founds: seq<map<Label, Value>>) {
    forall i, j, name :: 0 <= i < |founds| && 0 <= j < |founds| && name in Defined(founds[i]) && name in Defined(founds[j]) ==>
      Meaning(founds[i][name], false) == Meaning(founds[j][name], false)
  }

  ghost predicate DocumentFails(input: Input, t: Tables, source: string, f: Failure)
    requires input.Has(source)
  {
    || Section(input, source) == Fails(f.error)
    || Stripped(input, source) == Fails(f.error)
    || (Stripped(input, source).Ok?
        && Rewritten(t.refs, t.refs.Keys, Stripped(input, source).value, TopPlace(source)) == Fails(f.error))
    || (f.error == UnknownModel && CopiedUnknown(t, OwnNames(t, source)))
  }

  // Which models a document may refer to.
  ghost function Known(input: Input, sources: seq<string>, found: map<Label, Value>): set<Label> {
    if AllFound(input, sources) then Defined(found) else found.Keys
  }

  // The documents of the first sources.
  ghost predicate Built(input: Input, sources: seq<string>, documents: seq<Value>, founds: seq<map<Label, Value>>) {
    && |documents| == |founds| <= |sources|
    && forall i :: 0 <= i < |documents| ==>
         && sources[i] in input.configs
         && Resolves(input.configs[sources[i]].rtc, documents[i], founds[i], Known(input, sources, founds[i]))
  }

  ghost predicate AllMean(t: Tables, founds: seq<map<Label, Value>>) {
    forall i :: 0 <= i < |founds| ==> StillMeans(t, founds[i])
  }

  lemma AllMeanLater(t: Tables, next: Tables, founds: seq<map<Label, Value>>)
    requires Grown(t, next) && AllMean(t, founds)
    ensures AllMean(next, founds)
  {
    hide Grown, StillMeans;
    forall i | 0 <= i < |founds| ensures StillMeans(next, founds[i]) { MeansLater(t, next, founds[i]); }
  }

  lemma MeansOnce(t: Tables, founds: seq<map<Label, Value>>)
    requires AllMean(t, founds)
    ensures OneDefinition(founds)
  {
    hide Meaning;
    forall i, j, name | 0 <= i < |founds| && 0 <= j < |founds| && name in Defined(founds[i]) && name in Defined(founds[j])
      ensures Meaning(founds[i][name], false) == Meaning(founds[j][name], false)
    {
      assert StillMeans(t, founds[i]) && StillMeans(t, founds[j]);
    }
  }

  ghost predicate Loaded(registry: SchemaRegistry, input: Input, sources: seq<string>)
    reads registry
  {
    && registry.input == input && registry.Valid() && registry.Bounded() && registry.compiling == {}
    && (forall s :: s in sources ==>
          input.Has(s) && Asked(input, s, registry.within) && Starts(input, s) <= registry.compiled)
    && (AllFound(input, sources) ==> registry.within == Below(sources))
  }

  lemma LoadedThorough(input: Input, t: Tables, compiled: set<Reference>, sources: seq<string>)
    requires AllFound(input, sources) && AllWithin(t.refs.Keys, Below(sources))
    requires forall s :: s in sources ==> input.Has(s) && Starts(input, s) <= compiled
    ensures AllThorough(input, t, compiled) && forall s :: s in sources ==> Thorough(input, t, compiled, s)
  {
    forall key | key in t.refs ensures key.source in sources && |key.ref| >= 2 {
      assert key in t.refs.Keys;
      BelowHas(sources, key);
    }
    hide Starts, WellFormed, Exposed, ProblemType;
  }

  lemma DocumentKnown(
      input: Input, sources: seq<string>, t: Tables, compiled: set<Reference>, source: string, plain: Value,
      found: map<Label, Value>, whole: Value)
    requires Settling(input, t, compiled, {}) && source in sources && input.Has(source) && Stripped(input, source).Ok?
    requires AllFound(input, sources) ==> AllWithin(t.refs.Keys, Below(sources))
    requires forall s :: s in sources ==> input.Has(s) && Starts(input, s) <= compiled
    requires Rewritten(t.refs, compiled, Stripped(input, source).value, TopPlace(source)) == Ok(plain)
    requires ClosedOver(t, OwnNames(t, source), found) && Puts(input.configs[source].rtc, plain, found, whole)
    requires Resolves(input.configs[source].rtc, whole, found, found.Keys)
    ensures Resolves(input.configs[source].rtc, whole, found, Known(input, sources, found))
  {
    hide Settling, ClosedOver, Puts, Resolves, Stripped, Rewritten, Starts, AllThorough, Thorough;
    if AllFound(input, sources) {
      LoadedThorough(input, t, compiled, sources);
      assert ProblemType(input.documents[source]).None?;
      hide AllFound, ProblemType, WellFormed, Exposed;
      DocumentDefined(input, t, compiled, source, plain, found, whole);
    }
  }

  // One more document.
  method BuildDocument(registry: SchemaRegistry, ghost input: Input, ghost sources: seq<string>, source: string)
      returns (r: Result<Value>, ghost found: map<Label, Value>)
    requires Loaded(registry, input, sources) && source in sources
    modifies registry
    ensures Grown(old(registry.Now()), registry.Now())
    ensures match r
            case Done(whole) =>
              && Loaded(registry, input, sources) && StillMeans(registry.Now(), found)
              && Resolves(input.configs[source].rtc, whole, found, Known(input, sources, found))
            case Failed(f) =>
              && Consistent(input, registry.Now())
              && (Justified(input, registry.Now(), f) || DocumentFails(input, registry.Now(), source, f))
  {
    hide Settling, Consistent, Justified, Closed, Starts, Stripped, Rewritten, Met, Section, CopiedUnknown, Resolves;
    hide ClosedOver, Puts, AllFound, Grown, StillMeans, Known;
    ghost var plain;
    r, plain, found := registry.Document(source);
    if r.Done? {
      DocumentKnown(input, sources, registry.Now(), registry.compiled, source, plain, found, r.value);
      ClosedMeans(registry.Now(), OwnNames(registry.Now(), source), found);
    }
  }

  method LoadSources(input: Input, sources: seq<string>) returns (registry: SchemaRegistry, added: Option<Failure>)
    requires forall s :: s in sources ==> input.Has(s)
    ensures fresh(registry)
    ensures match added
            case None => Loaded(registry, input, sources)
            case Some(f) =>
              && Consistent(input, registry.Now())
              && (Justified(input, registry.Now(), f)
                  || (input.Has(f.key.source) && DocumentFails(input, registry.Now(), f.key.source, f)))
  {
    ghost var within := AskedFor(input, sources);
    hide Settling, Consistent, Justified, Closed, Starts, Stripped, Rewritten, Met, Section, CopiedUnknown, AllFound;
    registry := new SchemaRegistry(input, within);
    added := registry.AddSources(sources);
  }

  // Every reference of a document leads to its model's definition, and a model is defined alike in all documents.
  ghost predicate Delivers(input: Input, sources: seq<string>, documents: seq<Value>) {
    |documents| == |sources|
    && exists founds :: Built(input, sources, documents, founds) && OneDefinition(founds)
  }

  ghost predicate StopsIn(input: Input, t: Tables, f: Failure) {
    && Consistent(input, t)
    && (Justified(input, t, f) || exists s :: s in input.documents && input.Has(s) && DocumentFails(input, t, s, f))
  }

  /** `build_plan` up to reading the documents: every reference of a document leads to its model's definition, a model
      is defined alike in all of them, and, unless a problem schema is hidden in a default or an example, every
      definition that is referred to is that of a compiled schema. */
  method BuildDocuments(input: Input, sources: seq<string>) returns (r: Result<seq<Value>>)
    requires forall s :: s in sources ==> input.Has(s)
    ensures match r
            case Done(documents) => Delivers(input, sources, documents)
            case Failed(f) => exists t :: StopsIn(input, t, f)
  {
    hide Consistent, Justified, Resolves, Grown, StillMeans, Known, OneDefinition, Loaded, Asked, DocumentFails;
    var registry, added := LoadSources(input, sources);
    if added.Some? {
      assert StopsIn(input, registry.Now(), added.value);
      return Failed(added.value);
    }
    var documents: seq<Value> := [];
    ghost var founds: seq<map<Label, Value>> := [];
    for i := 0 to |sources|
      invariant Loaded(registry, input, sources)
      invariant |documents| == i && Built(input, sources, documents, founds) && AllMean(registry.Now(), founds)
    {
      ghost var before := registry.Now();
      var next;
      ghost var found;
      next, found := BuildDocument(registry, input, sources, sources[i]);
      if next.Failed? {
        assert StopsIn(input, registry.Now(), next.failure);
        return Failed(next.failure);
      }
      AllMeanLater(before, registry.Now(), founds);
      documents := documents + [next.value];
      founds := founds + [found];
    }
    MeansOnce(registry.Now(), founds);
    return Done(documents);
  }
}
