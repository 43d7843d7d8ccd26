/**
 Which models schemas refer to, `fastapi_canon/codegen/schema.py`: the references that `_references` collects,
 those that stand where one schema may refer to another, and what rewriting and compiling do to them.
 */
module SchemaNames {
  import opened Json
  import opened Pointers
  import opened Schemas

  // ----- references of a finished schema

  // The model that a `$ref` names, with models kept under `root`.
  function Named(root: string, v: Value): set<Label> {
    if v.Text? && root <= v.text then {Label(v.text[|root|..])} else {}
  }

  predicate Inside(container: bool, key: string) {
    !container && (key == PROPERTIES || key == "patternProperties")
  }

  // The models that `$ref`s in the value name: all of them, or those that stand where a schema may refer to
  // another, which is neither in defaults and examples nor as the name of a property.
  function References(root: string, v: Value, container: bool, all: bool): set<Label>
    decreases v, 0
  {
    match v
    case Array(items) => ItemReferences(root, items, all)
    case Object(members) => MemberReferences(root, members, container, all)
    case _ => {}
  }

  function ItemReferences(root: string, items: seq<Value>, all: bool): set<Label>
    decreases items, 0
  {
    if items == [] then {}
    else ItemReferences(root, items[..|items| - 1], all) + References(root, items[|items| - 1], false, all)
  }

  function MemberReference(root: string, m: Member, container: bool, all: bool): set<Label>
    decreases m, 0
  {
    (if m.key == "$ref" && (all || !container) then Named(root, m.value) else {})
    + if !all && !container && (m.key == "$ref" || Skipped(m.key)) then {}
      else References(root, m.value, Inside(container, m.key), all)
  }

  function MemberReferences(root: string, members: seq<Member>, container: bool, all: bool): set<Label>
    decreases members, 0
  {
    if members == [] then {}
    else
      MemberReferences(root, members[..|members| - 1], container, all)
      + MemberReference(root, members[|members| - 1], container, all)
  }

  function SchemaReferences(v: Value, container: bool): set<Label> {
    References(MODELS, v, container, false)
  }

  /** `_references` */
  function Collected(v: Value): set<Label> {
    References(MODELS, v, false, true)
  }

  lemma {:induction false} ReferenceOf(root: string, members: seq<Member>, container: bool, all: bool, name: Label)
    ensures name in MemberReferences(root, members, container, all)
            <==> exists m :: m in members && name in MemberReference(root, m, container, all)
  {
    if members != [] {
      var last := |members| - 1;
      ReferenceOf(root, members[..last], container, all, name);
      assert members == members[..last] + [members[last]];
      if name in MemberReferences(root, members[..last], container, all) {
        var m :| m in members[..last] && name in MemberReference(root, m, container, all);
        assert m in members;
      } else if name in MemberReference(root, members[last], container, all) {
        assert members[last] in members;
      }
    }
  }

  // ----- what rewriting copies

  // The models that are named where `_rewrite` only copies: in defaults and examples, and as property names.
  function Copied(v: Value, container: bool): set<Label>
    decreases v, 0
  {
    match v
    case Array(items) => CopiedItems(items)
    case Object(members) => CopiedMembers(members, container)
    case _ => {}
  }

  function CopiedItems(items: seq<Value>): set<Label>
    decreases items, 0
  {
    if items == [] then {} else CopiedItems(items[..|items| - 1]) + Copied(items[|items| - 1], false)
  }

  function CopiedMember(m: Member, container: bool): set<Label>
    decreases m, 0
  {
    if !container && m.key == "$ref" then {}
    else if !container && Skipped(m.key) then Collected(m.value)
    else if !container && (m.key == "$defs" || m.key == "$id") then {}
    else (if m.key == "$ref" then Named(MODELS, m.value) else {}) + Copied(m.value, Inside(container, m.key))
  }

  function CopiedMembers(members: seq<Member>, container: bool): set<Label>
    decreases members, 0
  {
    if members == [] then {}
    else CopiedMembers(members[..|members| - 1], container) + CopiedMember(members[|members| - 1], container)
  }

  ghost predicate NoPropertyNames(v: Value) {
    v.Object? ==> forall m :: m in v.members && m.key == "$ref" ==> Named(MODELS, m.value) == {}
  }

  ghost predicate CopyFreeMember(m: Member) {
    && (Skipped(m.key) ==> Collected(m.value) == {})
    && (Inside(false, m.key) ==> NoPropertyNames(m.value))
  }

  // No default or example names a model, and neither does a property called `$ref`.
  ghost predicate CopyFree(v: Value) {
    match v
    case Array(items) => forall i :: 0 <= i < |items| ==> CopyFree(items[i])
    case Object(members) => forall i :: 0 <= i < |members| ==> CopyFreeMember(members[i]) && CopyFree(members[i].value)
    case _ => true
  }

  lemma {:induction false} CopyFreeBelow(v: Value, names: seq<string>)
    requires CopyFree(v) && Follow(v, names).Some?
    ensures CopyFree(Follow(v, names).value)
  {
    if names != [] {
      var child := Descend(v, names[0]).value;
      if v.Array? {
        var i :| 0 <= i < |v.items| && v.items[i] == child;
      } else {
        var i :| 0 <= i < |v.members| && v.members[i].value == child;
      }
      CopyFreeBelow(child, names[1..]);
    }
  }

  /** Where no default or example names a model, rewriting copies no name, wherever it starts to read. */
  lemma {:induction false} CopiesNothing(v: Value, container: bool)
    requires CopyFree(v) && (container ==> NoPropertyNames(v))
    ensures Copied(v, container) == {}
    decreases v, 0
  {
    match v
    case Array(items) => ItemsCopyNothing(items);
    case Object(members) => MembersCopyNothing(members, container);
    case _ =>
  }

  lemma {:induction false} ItemsCopyNothing(items: seq<Value>)
    requires forall i :: 0 <= i < |items| ==> CopyFree(items[i])
    ensures CopiedItems(items) == {}
    decreases items, 0
  {
    if items != [] {
      ItemsCopyNothing(items[..|items| - 1]);
      CopiesNothing(items[|items| - 1], false);
    }
  }

  lemma {:induction false} MembersCopyNothing(members: seq<Member>, container: bool)
    requires forall i :: 0 <= i < |members| ==> CopyFreeMember(members[i]) && CopyFree(members[i].value)
    requires container ==> NoPropertyNames(Object(members))
    ensures CopiedMembers(members, container) == {}
    decreases members, 0
  {
    if members != [] {
      var last := |members| - 1;
      var m := members[last];
      assert forall other :: other in members[..last] ==> other in members;
      MembersCopyNothing(members[..last], container);
      assert m in members && CopyFreeMember(m);
      CopiesNothing(m.value, Inside(container, m.key));
    }
  }

  // The names that a source's references have.
  function OwnNames(t: Tables, source: string): set<Label> {
    set key | key in t.refs && key.source == source :: t.refs[key]
  }

  // The names of references.
  function NamesOf(t: Tables, keys: set<Reference>): set<Label> {
    set key | key in keys && key in t.refs :: t.refs[key]
  }

  // Rewriting places names under one root only.
  function Placed(root: string, t: Tables, keys: set<Reference>): set<Label> {
    if root == MODELS then NamesOf(t, keys) else {}
  }

  predicate Rooted(root: string, all: bool) {
    root == MODELS || (root == DEFINITIONS && !all)
  }

  function CopiedIf(v: Value, container: bool, all: bool): set<Label> {
    if all then Copied(v, container) else {}
  }

  /** Rewriting only places names of references that it meets, beside what it copies. */
  lemma {:induction false} RewrittenReferences(root: string, t: Tables, done: set<Reference>, v: Value, at: Place, all: bool)
    requires Rooted(root, all) && Rewritten(t.refs, done, v, at).Ok?
    ensures References(root, Rewritten(t.refs, done, v, at).value, at.container, all)
            <= Placed(root, t, Met(v, at, true)) + CopiedIf(v, at.container, all)
    decreases v, 0
  {
    match v
    case Array(items) => RewrittenItemReferences(root, t, done, items, at, all);
    case Object(members) =>
      if Replaced(v, at) {
        NamingReference(root, t, Reference(at.source, at.address), all);
      } else {
        RewrittenMemberReferences(root, t, done, members, Scoped(at, v), all);
      }
    case _ =>
  }

  lemma NamedBack(root: string, t: Tables, key: Reference)
    requires key in t.refs && (root == MODELS || root == DEFINITIONS)
    ensures Named(root, Naming(t.refs[key])) <= Placed(root, t, {key})
  {
    var text := MODELS + t.refs[key].text;
    assert text[|MODELS|..] == t.refs[key].text;
    assert text[2] == 'c' && DEFINITIONS[2] == 'd';
  }

  lemma NamingReference(root: string, t: Tables, key: Reference, all: bool)
    requires key in t.refs && Rooted(root, all)
    ensures References(root, Object([Member("$ref", Naming(t.refs[key]))]), false, all) <= Placed(root, t, {key})
  {
    var m := Member("$ref", Naming(t.refs[key]));
    NamedBack(root, t, key);
    assert MemberReferences(root, [m], false, all)
            == MemberReferences(root, [m][..0], false, all) + MemberReference(root, m, false, all);
    assert [m][..0] == [] && MemberReferences(root, [], false, all) == {};
  }

  lemma {:induction false} RewrittenItemReferences(
      root: string, t: Tables, done: set<Reference>, items: seq<Value>, at: Place, all: bool)
    requires Rooted(root, all) && RewrittenItems(t.refs, done, items, at).Ok?
    ensures ItemReferences(root, RewrittenItems(t.refs, done, items, at).value, all)
            <= Placed(root, t, MetItems(items, at, true)) + if all then CopiedItems(items) else {}
    decreases items, 0
  {
    if items != [] {
      var last := |items| - 1;
      RewrittenItemReferences(root, t, done, items[..last], at, all);
      RewrittenReferences(root, t, done, items[last], ItemPlace(at, last), all);
      var result := RewrittenItems(t.refs, done, items, at).value;
      assert result[..|result| - 1] == RewrittenItems(t.refs, done, items[..last], at).value;
    }
  }

  lemma {:induction false} RewrittenMemberReferences(
      root: string, t: Tables, done: set<Reference>, members: seq<Member>, at: Place, all: bool)
    requires Rooted(root, all) && RewrittenMembers(t.refs, done, members, at).Ok?
    ensures MemberReferences(root, RewrittenMembers(t.refs, done, members, at).value, at.container, all)
            <= Placed(root, t, MetMembers(members, at, true)) + if all then CopiedMembers(members, at.container) else {}
    decreases members, 0
  {
    if members != [] {
      var last := |members| - 1;
      RewrittenMemberReferences(root, t, done, members[..last], at, all);
      RewrittenMemberReference(root, t, done, members[last], at, all);
      var before := RewrittenMembers(t.refs, done, members[..last], at).value;
      var result := RewrittenMembers(t.refs, done, members, at).value;
      if RewrittenMember(t.refs, done, members[last], at).value == [] {
        assert result == before;
      } else {
        assert result[..|result| - 1] == before;
      }
    }
  }

  lemma {:induction false} RewrittenMemberReference(
      root: string, t: Tables, done: set<Reference>, m: Member, at: Place, all: bool)
    requires Rooted(root, all) && RewrittenMember(t.refs, done, m, at).Ok?
    ensures var r := RewrittenMember(t.refs, done, m, at).value;
            |r| <= 1 && (r != [] ==>
              MemberReference(root, r[0], at.container, all)
              <= Placed(root, t, MetMember(m, at, true)) + if all then CopiedMember(m, at.container) else {})
    decreases m, 0
  {
    if !at.container && m.key == "$ref" {
      var target := Target(m.value, at.scope).value;
      if target.Some? { NamedBack(root, t, Reference(at.source, target.value)); }
    } else if at.container || (!Skipped(m.key) && m.key != "$defs" && m.key != "$id") {
      RewrittenReferences(root, t, done, m.value, MemberPlace(at, m.key), all);
    }
  }

  // ----- what compiling adds

  lemma {:induction false} PutMember(members: seq<Member>, key: string, value: Value, m: Member)
    requires m in Put(members, key, value)
    ensures m in members || m == Member(key, value)
  {
    if members != [] && members[0].key != key && m != members[0] { PutMember(members[1..], key, value, m); }
  }

  lemma {:induction false} WithoutMember(members: seq<Member>, key: string, m: Member)
    requires m in Without(members, key)
    ensures m in members
  {
    if members != [] && m in Without(members[1..], key) { WithoutMember(members[1..], key, m); }
  }

  lemma PutReferences(root: string, members: seq<Member>, key: string, value: Value, container: bool, all: bool)
    ensures MemberReferences(root, Put(members, key, value), container, all)
            <= MemberReferences(root, members, container, all) + MemberReference(root, Member(key, value), container, all)
  {
    var next := Put(members, key, value);
    hide MemberReferences, MemberReference;
    forall name | name in MemberReferences(root, next, container, all)
      ensures name in MemberReferences(root, members, container, all)
              + MemberReference(root, Member(key, value), container, all)
    {
      ReferenceOf(root, next, container, all, name);
      ReferenceOf(root, members, container, all, name);
      var m :| m in next && name in MemberReference(root, m, container, all);
      PutMember(members, key, value, m);
    }
  }

  lemma WithoutReferences(root: string, members: seq<Member>, key: string, container: bool, all: bool)
    ensures MemberReferences(root, Without(members, key), container, all) <= MemberReferences(root, members, container, all)
  {
    var next := Without(members, key);
    hide MemberReferences, MemberReference;
    forall name | name in MemberReferences(root, next, container, all)
      ensures name in MemberReferences(root, members, container, all) {
      ReferenceOf(root, next, container, all, name);
      ReferenceOf(root, members, container, all, name);
      var m :| m in next && name in MemberReference(root, m, container, all);
      WithoutMember(members, key, m);
    }
  }

  lemma FindReferences(root: string, members: seq<Member>, key: string, container: bool, all: bool)
    requires Find(members, key).Some?
    ensures MemberReference(root, Member(key, Find(members, key).value), container, all)
            <= MemberReferences(root, members, container, all)
  {
    var m := Member(key, Find(members, key).value);
    hide MemberReferences, MemberReference;
    forall name | name in MemberReference(root, m, container, all)
      ensures name in MemberReferences(root, members, container, all) {
      ReferenceOf(root, members, container, all, name);
    }
  }

  lemma {:induction false} NoStatusReferences(root: string, items: seq<Value>, all: bool)
    ensures forall name :: name in ItemReferences(root, NoStatus(items), all) ==> name in ItemReferences(root, items, all)
  {
    forall name | name in ItemReferences(root, NoStatus(items), all) ensures name in ItemReferences(root, items, all) {
      ItemReferenceOf(root, NoStatus(items), all, name);
      ItemReferenceOf(root, items, all, name);
      var item :| item in NoStatus(items) && name in References(root, item, false, all);
      NoStatusRequired(items, item);
    }
  }

  lemma {:induction false} ItemReferenceOf(root: string, items: seq<Value>, all: bool, name: Label)
    ensures name in ItemReferences(root, items, all) <==>
            exists item :: item in items && name in References(root, item, false, all)
  {
    if items != [] {
      var last := |items| - 1;
      ItemReferenceOf(root, items[..last], all, name);
      assert items == items[..last] + [items[last]];
      if name in ItemReferences(root, items[..last], all) {
        var item :| item in items[..last] && name in References(root, item, false, all);
        assert item in items;
      } else if name in References(root, items[last], false, all) {
        assert items[last] in items;
      }
    }
  }

  lemma StatusReferences(root: string, all: bool)
    ensures References(root, STATUS, false, all) == {}
  {
    var m := STATUS.members;
    assert m[..2][..1] == m[..1] && m[..1][..0] == [];
    assert MemberReference(root, m[0], false, all) == {} && MemberReference(root, m[1], false, all) == {};
    assert MemberReference(root, m[2], false, all) == {};
    assert MemberReferences(root, m[..1], false, all)
            == MemberReferences(root, m[..1][..0], false, all) + MemberReference(root, m[..1][0], false, all);
    assert MemberReferences(root, m[..2], false, all)
            == MemberReferences(root, m[..2][..1], false, all) + MemberReference(root, m[..2][1], false, all);
  }

  // The properties of a problem schema.
  lemma FixedReferences(root: string, given: seq<Member>, code: seq<Member>, all: bool)
    requires ObjectAt(Object(Put(given, "status", STATUS)), "code") == Ok(code)
    ensures MemberReferences(root, FixedCode(Put(given, "status", STATUS), code), true, all)
            <= MemberReferences(root, given, true, all)
  {
    var properties := Put(given, "status", STATUS);
    PutReferences(root, given, "status", STATUS, true, all);
    StatusReferences(root, all);
    assert MemberReference(root, Member("status", STATUS), true, all) == {};
    if Find(code, "const").Some? {
      var fixed := Without(code, "pattern");
      PutReferences(root, properties, "code", Object(fixed), true, all);
      WithoutReferences(root, code, "pattern", false, all);
      FindReferences(root, properties, "code", true, all);
      assert MemberReference(root, Member("code", Object(fixed)), true, all)
              <= MemberReference(root, Member("code", Object(code)), true, all);
    }
  }

  lemma PropertiesReferences(root: string, members: seq<Member>, all: bool)
    requires ObjectAt(Object(members), PROPERTIES).Ok?
    ensures MemberReferences(root, ObjectAt(Object(members), PROPERTIES).value, true, all)
            <= MemberReferences(root, members, false, all)
  {
    if Find(members, PROPERTIES).Some? {
      var given := ObjectAt(Object(members), PROPERTIES).value;
      FindReferences(root, members, PROPERTIES, false, all);
      assert MemberReference(root, Member(PROPERTIES, Object(given)), false, all) == MemberReferences(root, given, true, all);
    }
  }

  lemma RequiredReferences(root: string, members: seq<Member>, all: bool)
    requires RequiredAt(Object(members)).Ok?
    ensures ItemReferences(root, RequiredAt(Object(members)).value, all) <= MemberReferences(root, members, false, all)
  {
    if Find(members, "required").Some? {
      var items := Find(members, "required").value.items;
      FindReferences(root, members, "required", false, all);
      NoStatusReferences(root, items, all);
      assert MemberReference(root, Member("required", Array(items)), false, all) == ItemReferences(root, items, all);
    }
  }

  lemma ProblemMemberReferences(root: string, members: seq<Member>, properties: seq<Member>, required: seq<Value>, all: bool)
    requires MemberReferences(root, properties, true, all) <= MemberReferences(root, members, false, all)
    requires ItemReferences(root, required, all) <= MemberReferences(root, members, false, all)
    ensures MemberReferences(root, ProblemMembers(members, properties, required), false, all)
            <= MemberReferences(root, members, false, all)
  {
    var first := Put(members, PROPERTIES, Object(properties));
    var second := Put(first, "required", Array(required));
    assert MemberReference(root, Member(PROPERTIES, Object(properties)), false, all)
            == MemberReferences(root, properties, true, all);
    assert MemberReference(root, Member("required", Array(required)), false, all) == ItemReferences(root, required, all);
    PutReferences(root, members, PROPERTIES, Object(properties), false, all);
    PutReferences(root, first, "required", Array(required), false, all);
    WithoutReferences(root, second, "x-canon-problem", false, all);
    WithoutReferences(root, Without(second, "x-canon-problem"), "examples", false, all);
  }

  lemma ProblemReferences(root: string, schema: Value, all: bool)
    requires ProblemSchema(schema).Ok?
    ensures References(root, ProblemSchema(schema).value, false, all) <= References(root, schema, false, all)
  {
    var members := schema.members;
    var given := ObjectAt(schema, PROPERTIES).value;
    var required := RequiredAt(schema).value;
    var code := ObjectAt(Object(Put(given, "status", STATUS)), "code").value;
    var properties := FixedCode(Put(given, "status", STATUS), code);
    hide ObjectAt, RequiredAt, FixedCode, Put, ProblemMembers, MemberReferences, ItemReferences;
    PropertiesReferences(root, members, all);
    RequiredReferences(root, members, all);
    FixedReferences(root, given, code, all);
    ProblemMemberReferences(root, members, properties, required, all);
  }

  lemma TitledReferences(root: string, schema: Value, name: Label, all: bool)
    ensures References(root, Titled(schema, name), false, all) <= References(root, schema, false, all)
  {
    var title := Member("title", Text(name.text));
    assert MemberReference(root, title, false, all) == {};
    if schema.Object? {
      PutReferences(root, schema.members, "title", Text(name.text), false, all);
    } else {
      var no := Member("not", EMPTY);
      assert MemberReference(root, no, false, all) == {} && [no][..0] == [];
      assert MemberReferences(root, [no], false, all)
              == MemberReferences(root, [no][..0], false, all) + MemberReference(root, no, false, all);
      PutReferences(root, [no], "title", Text(name.text), false, all);
      PutReferences(root, [], "title", Text(name.text), false, all);
    }
  }

  /** Finishing a schema adds no reference. */
  lemma FinishedReferences(root: string, plain: Value, problem: bool, name: Label, all: bool)
    requires Finished(Ok(plain), problem, name).Ok?
    ensures References(root, Finished(Ok(plain), problem, name).value, false, all) <= References(root, plain, false, all)
  {
    if problem {
      ProblemReferences(root, plain, all);
      TitledReferences(root, ProblemSchema(plain).value, name, all);
    } else {
      TitledReferences(root, plain, name, all);
    }
  }

  // ----- what is collected

  /** Every reference that stands where a schema may refer to another is collected. */
  lemma {:induction false} AllCollected(v: Value, container: bool, outer: bool)
    ensures References(MODELS, v, container, false) <= References(MODELS, v, outer, true)
    decreases v, 0
  {
    match v
    case Array(items) => ItemsCollected(items);
    case Object(members) => MembersCollected(members, container, outer);
    case _ =>
  }

  lemma {:induction false} ItemsCollected(items: seq<Value>)
    ensures ItemReferences(MODELS, items, false) <= ItemReferences(MODELS, items, true)
    decreases items, 0
  {
    if items != [] {
      ItemsCollected(items[..|items| - 1]);
      AllCollected(items[|items| - 1], false, false);
    }
  }

  lemma {:induction false} MembersCollected(members: seq<Member>, container: bool, outer: bool)
    ensures MemberReferences(MODELS, members, container, false) <= MemberReferences(MODELS, members, outer, true)
    decreases members, 0
  {
    if members != [] {
      var m := members[|members| - 1];
      MembersCollected(members[..|members| - 1], container, outer);
      AllCollected(m.value, Inside(container, m.key), Inside(outer, m.key));
    }
  }
}
