/**
 Models of contract schemas, `fastapi_canon/codegen/schema.py`: what identity and public name a reference
 has, what a schema looks like once its references name models, and when two such schemas mean the same.
 */
module Schemas {
  import opened Wrappers
  import opened Json
  import opened Pointers
  import Spelling

  datatype Reference = Reference(source: string, ref: string)
  datatype Identity = Identity(id: string)
  datatype Label = Label(text: string)

  // A source's mappings, and whether it keeps its schemas under `definitions`.
  datatype Config = Config(identities: map<string, string>, names: map<string, string>, rtc: bool)

  datatype Input = Input(documents: map<string, Value>, configs: map<string, Config>) {
    predicate Has(source: string) { source in documents && source in configs }
  }

  // `problem` tells whether the model is that of a problem type.
  datatype Model = Model(name: Label, identity: Identity, schema: Value, origin: Reference, problem: bool)

  datatype Error =
    | Unresolved | NotSchema | IdentityNotText | Malformed | NoName | ConflictingNames | ReservedName | NameCollision
    | ExternalReference | UnscopedReference | Unclaimed | Incompatible | UnknownModel

  datatype Outcome<T> = Ok(value: T) | Fails(error: Error)

  const EMPTY := Object([])
  const MODELS := "#/components/schemas/"
  const DEFINITIONS := "#/definitions/"
  const LOCAL := "#/$defs/"
  const DEFS := "/$defs/"

  const RESERVED := {
    "Problem", "ProblemError", "ProtocolError", "TransportError", "ApiClient", "ClientOptions", "RequestOptions",
    "CallOptions", "HttpOptions", "StreamOptions", "OperationResult", "Options", "HttpError", "JsonValue" }

  // ----- identities and names

  // What a reference declares about its model.
  datatype Claim = Claim(raw: Value, identity: Identity, requested: Option<Value>, last: string, problem: bool)

  function Last(ref: string): string {
    var parts := Split(ref);
    Unescape(parts[|parts| - 1])
  }

  function Mapped(table: map<string, string>, ref: string): Option<Value> {
    if ref in table then Some(Text(table[ref]))
    else if Last(ref) in table then Some(Text(table[Last(ref)]))
    else None
  }

  function DeclaredIdentity(config: Config, ref: string, raw: Value): Option<Value> {
    if Mapped(config.identities, ref).Some? then Mapped(config.identities, ref)
    else if Truthy(Get(raw, "x-canon-model-id")) then Get(raw, "x-canon-model-id")
    else Get(raw, "$id")
  }

  function RequestedName(config: Config, ref: string, raw: Value): Option<Value> {
    if Mapped(config.names, ref).Some? then Mapped(config.names, ref) else Get(raw, "x-canon-model-name")
  }

  // The schema of problems in general rather than of one problem type.
  function GenericProblem(last: string, raw: Value): Outcome<bool> {
    if last != "Problem" || !raw.Object? then Ok(false)
    else
      match Get(raw, PROPERTIES)
      case None => Ok(false)
      case Some(Object(members)) =>
        Ok(Find(members, "type").Some? && Find(members, "title").Some?
           && Find(members, "code").Some? && Find(members, "status").Some?)
      case _ => Fails(Malformed)
  }

  function Declared(key: Reference, problem: Option<string>, identity: Option<Value>): Outcome<Identity> {
    if problem.Some? then Ok(Identity("problem:" + problem.value))
    else if !Truthy(identity) then Ok(Identity(key.source + key.ref))
    else if !identity.value.Text? then Fails(IdentityNotText)
    else Ok(Identity(identity.value.text))
  }

  // The first half of `_claim`.
  function Head(input: Input, key: Reference): Outcome<Claim>
    requires input.Has(key.source)
  {
    match Pointer(input.documents[key.source], key.ref)
    case None => Fails(Unresolved)
    case Some(raw) =>
      if !raw.Object? && !raw.Bool? then Fails(NotSchema)
      else
        var config := input.configs[key.source];
        var problem := ProblemType(raw);
        var named := problem.Some? && problem.value != "";
        match Declared(key, problem, DeclaredIdentity(config, key.ref, raw))
        case Fails(error) => Fails(error)
        case Ok(identity) =>
          match GenericProblem(Last(key.ref), raw)
          case Fails(error) => Fails(error)
          case Ok(generic) =>
            if generic && !named then
              Ok(Claim(raw, Identity("canon:generic-problem"), Some(Text("ProblemDetails")), Last(key.ref), named))
            else
              Ok(Claim(raw, identity, RequestedName(config, key.ref, raw), Last(key.ref), named))
  }

  function Pascal(v: Value): Outcome<Label> {
    if !v.Text? then Fails(Malformed)
    else
      match Spelling.Camel(v.text)
      case None => Fails(NoName)
      case Some(name) => Ok(Label(if name == "" then "" else [Spelling.ToUpper(name[0])] + name[1..]))
  }

  predicate EndsWith(s: string, end: string) {
    |end| <= |s| && s[|s| - |end|..] == end
  }

  predicate Untitled(title: Option<Value>) {
    title.None? || title.value.Null? || title.value == Text("Problem")
  }

  // The title of a schema; a problem type without one is titled after its code.
  function Title(claim: Claim): Outcome<Option<Value>> {
    var title := Get(claim.raw, "title");
    if !claim.problem || !Untitled(title) then Ok(title)
    else
      match Get(claim.raw, PROPERTIES)
      case None => Fails(Malformed)
      case Some(properties) =>
        match Get(properties, "code")
        case None => Fails(Malformed)
        case Some(code) =>
          match Get(code, "const")
          case None => Fails(Malformed)
          case Some(value) =>
            match Pascal(value)
            case Fails(error) => Fails(error)
            case Ok(name) => Ok(Some(Text(name.text + "Problem")))
  }

  // The name of a model that is claimed for the first time.
  function FreshName(key: Reference, claim: Claim): Outcome<Label> {
    match Title(claim)
    case Fails(error) => Fails(error)
    case Ok(title) =>
      var base :=
        if Truthy(claim.requested) then claim.requested.value
        else if claim.identity != Identity(key.source + key.ref) && !Untitled(title) && Truthy(title) then title.value
        else Text(claim.last);
      match Pascal(base)
      case Fails(error) => Fails(error)
      case Ok(name) =>
        var short := if claim.problem && EndsWith(name.text, "Embedded") then name.text[..|name.text| - 8] else name.text;
        var full := if claim.problem && EndsWith(short, "Error") then short + "Problem" else short;
        if full in RESERVED then Fails(ReservedName) else Ok(Label(full))
  }

  // ----- the tables

  datatype Tables = Tables(models: map<Identity, Model>, names: map<Label, Identity>, refs: map<Reference, Label>)

  // The name that a claim gets, given the tables so far.
  function PublicName(t: Tables, key: Reference, claim: Claim): Outcome<Label> {
    if claim.identity in t.models then
      var name := t.models[claim.identity].name;
      if !Truthy(claim.requested) then Ok(name)
      else
        match Pascal(claim.requested.value)
        case Fails(error) => Fails(error)
        case Ok(requested) => if requested == name then Ok(name) else Fails(ConflictingNames)
    else
      match FreshName(key, claim)
      case Fails(error) => Fails(error)
      case Ok(name) =>
        if name in t.names && t.names[name] != claim.identity then Fails(NameCollision) else Ok(name)
  }

  // Names and identities correspond one to one.
  ghost predicate OneToOne(t: Tables) {
    && (forall id :: id in t.models ==>
          t.models[id].identity == id && t.models[id].name in t.names && t.names[t.models[id].name] == id)
    && (forall name :: name in t.names ==> t.names[name] in t.models && t.models[t.names[name]].name == name)
  }

  // Every claimed reference has the name of its own identity.
  ghost predicate RefsNamed(input: Input, t: Tables) {
    forall key :: key in t.refs ==>
      && input.Has(key.source) && Head(input, key).Ok?
      && t.refs[key] in t.names && t.names[t.refs[key]] == Head(input, key).value.identity
  }

  // Every model is named by the reference that claimed it first.
  ghost predicate ModelsNamed(input: Input, t: Tables) {
    forall id :: id in t.models ==>
      var m := t.models[id];
      && m.origin in t.refs && input.Has(m.origin.source) && Head(input, m.origin).Ok?
      && Head(input, m.origin).value.identity == id
      && FreshName(m.origin, Head(input, m.origin).value) == Ok(m.name)
      && m.problem == Head(input, m.origin).value.problem
  }

  // A name that a later reference asks for is the one its model has.
  ghost predicate RequestsKept(input: Input, t: Tables) {
    forall key :: key in t.refs && input.Has(key.source) && Head(input, key).Ok? ==>
      var claim := Head(input, key).value;
      Truthy(claim.requested) && claim.identity in t.models && t.models[claim.identity].origin != key ==>
        Pascal(claim.requested.value) == Ok(t.refs[key])
  }

  ghost predicate Consistent(input: Input, t: Tables) {
    OneToOne(t) && RefsNamed(input, t) && ModelsNamed(input, t) && RequestsKept(input, t)
  }

  /** References share a public name exactly when they share an identity, whatever the order of claims. */
  lemma SameNameSameIdentity(input: Input, t: Tables, a: Reference, b: Reference)
    requires Consistent(input, t) && a in t.refs && b in t.refs
    ensures t.refs[a] == t.refs[b] <==> Head(input, a).value.identity == Head(input, b).value.identity
  {
    assert t.models[t.names[t.refs[a]]].name == t.refs[a] && t.models[t.names[t.refs[b]]].name == t.refs[b];
  }

  // ----- schemas whose references name models

  // Where a value stands: the scope of `$defs` references, its address, and what it is read as.
  datatype Place = Place(source: string, scope: Option<string>, address: string, container: bool, declaration: bool)

  function ItemPlace(at: Place, index: nat): Place {
    Place(at.source, at.scope, at.address + "/" + Decimal(index), false, false)
  }

  function MemberPlace(at: Place, key: string): Place {
    Place(at.source, at.scope, at.address + "/" + Escape(key),
          !at.container && (key == PROPERTIES || key == "patternProperties"), false)
  }

  function Scoped(at: Place, v: Value): Place {
    if !at.container && Get(v, "$defs").Some? && at.scope.None? then at.(scope := Some(at.address)) else at
  }

  // What a reference refers to: a model's schema, or something that is not rewritten.
  function Target(item: Value, scope: Option<string>): Outcome<Option<string>> {
    if !item.Text? || !("#/" <= item.text) then Fails(ExternalReference)
    else if LOCAL <= item.text then
      if scope.None? then Fails(UnscopedReference) else Ok(Some(scope.value + DEFS + item.text[|LOCAL|..]))
    else if MODELS <= item.text || DEFINITIONS <= item.text then Ok(Some(item.text))
    else Ok(None)
  }

  type Refs = map<Reference, Label>

  function Naming(name: Label): Value {
    Text(MODELS + name.text)
  }

  function RewrittenRef(refs: Refs, done: set<Reference>, item: Value, at: Place): Outcome<Value> {
    match Target(item, at.scope)
    case Fails(error) => Fails(error)
    case Ok(None) => Ok(item)
    case Ok(Some(ref)) =>
      var key := Reference(at.source, ref);
      if key in refs && key in done then Ok(Naming(refs[key])) else Fails(Unclaimed)
  }

  predicate Replaced(v: Value, at: Place) {
    !at.container && !at.declaration && ProblemType(v).Some?
  }

  // The schema that `_rewrite` arrives at once every reference it meets has a name, and once those that it
  // follows are `done`.
  function Rewritten(refs: Refs, done: set<Reference>, v: Value, at: Place): Outcome<Value>
    decreases v, 0
  {
    match v
    case Array(items) =>
      (match RewrittenItems(refs, done, items, at)
       case Fails(error) => Fails(error)
       case Ok(r) => Ok(Array(r)))
    case Object(members) =>
      if Replaced(v, at) then
        var key := Reference(at.source, at.address);
        if key in refs then Ok(Object([Member("$ref", Naming(refs[key]))])) else Fails(Unclaimed)
      else
        (match RewrittenMembers(refs, done, members, Scoped(at, v))
         case Fails(error) => Fails(error)
         case Ok(r) => Ok(Object(r)))
    case _ => Ok(v)
  }

  function RewrittenItems(refs: Refs, done: set<Reference>, items: seq<Value>, at: Place): Outcome<seq<Value>>
    decreases items, 0
  {
    if items == [] then Ok([])
    else
      var last := |items| - 1;
      match RewrittenItems(refs, done, items[..last], at)
      case Fails(error) => Fails(error)
      case Ok(before) =>
        match Rewritten(refs, done, items[last], ItemPlace(at, last))
        case Fails(error) => Fails(error)
        case Ok(item) => Ok(before + [item])
  }

  // One member: none when it is dropped.
  function RewrittenMember(refs: Refs, done: set<Reference>, m: Member, at: Place): Outcome<seq<Member>>
    decreases m, 0
  {
    if !at.container && m.key == "$ref" then
      match RewrittenRef(refs, done, m.value, at)
      case Fails(error) => Fails(error)
      case Ok(item) => Ok([Member(m.key, item)])
    else if !at.container && Skipped(m.key) then Ok([m])
    else if at.container || (m.key != "$defs" && m.key != "$id") then
      match Rewritten(refs, done, m.value, MemberPlace(at, m.key))
      case Fails(error) => Fails(error)
      case Ok(item) => Ok([Member(m.key, item)])
    else Ok([])
  }

  function RewrittenMembers(refs: Refs, done: set<Reference>, members: seq<Member>, at: Place): Outcome<seq<Member>>
    decreases members, 0
  {
    if members == [] then Ok([])
    else
      var last := |members| - 1;
      match RewrittenMembers(refs, done, members[..last], at)
      case Fails(error) => Fails(error)
      case Ok(before) =>
        match RewrittenMember(refs, done, members[last], at)
        case Fails(error) => Fails(error)
        case Ok(member) => Ok(before + member)
  }

  // Nothing in the value is a reference, a definition, an identity or an embedded problem schema.
  predicate Plainly(v: Value, at: Place)
    decreases v, 0
  {
    match v
    case Array(items) => PlainlyItems(items, at)
    case Object(members) => !Replaced(v, at) && PlainlyMembers(members, Scoped(at, v))
    case _ => true
  }

  predicate PlainlyItems(items: seq<Value>, at: Place)
    decreases items, 0
  {
    items == [] || (PlainlyItems(items[..|items| - 1], at) && Plainly(items[|items| - 1], ItemPlace(at, |items| - 1)))
  }

  predicate PlainlyMember(m: Member, at: Place)
    decreases m, 0
  {
    if at.container then Plainly(m.value, MemberPlace(at, m.key))
    else m.key != "$ref" && m.key != "$defs" && m.key != "$id"
         && (Skipped(m.key) || Plainly(m.value, MemberPlace(at, m.key)))
  }

  predicate PlainlyMembers(members: seq<Member>, at: Place)
    decreases members, 0
  {
    members == [] || (PlainlyMembers(members[..|members| - 1], at) && PlainlyMember(members[|members| - 1], at))
  }

  /** Rewriting only concerns references: a value without any comes out as it went in. */
  lemma {:induction false} PlainKept(refs: Refs, done: set<Reference>, v: Value, at: Place)
    requires Plainly(v, at)
    ensures Rewritten(refs, done, v, at) == Ok(v)
    decreases v, 0
  {
    match v
    case Array(items) => PlainItemsKept(refs, done, items, at);
    case Object(members) => PlainMembersKept(refs, done, members, Scoped(at, v));
    case _ =>
  }

  lemma {:induction false} PlainItemsKept(refs: Refs, done: set<Reference>, items: seq<Value>, at: Place)
    requires PlainlyItems(items, at)
    ensures RewrittenItems(refs, done, items, at) == Ok(items)
    decreases items, 0
  {
    if items != [] {
      var last := |items| - 1;
      PlainItemsKept(refs, done, items[..last], at);
      PlainKept(refs, done, items[last], ItemPlace(at, last));
      assert items[..last] + [items[last]] == items;
    }
  }

  lemma {:induction false} PlainMembersKept(refs: Refs, done: set<Reference>, members: seq<Member>, at: Place)
    requires PlainlyMembers(members, at)
    ensures RewrittenMembers(refs, done, members, at) == Ok(members)
    decreases members, 0
  {
    if members != [] {
      var last := |members| - 1;
      var m := members[last];
      PlainMembersKept(refs, done, members[..last], at);
      if at.container || !Skipped(m.key) { PlainKept(refs, done, m.value, MemberPlace(at, m.key)); }
      assert RewrittenMember(refs, done, m, at) == Ok([m]);
      assert members[..last] + [m] == members;
    }
  }

  // More names and more finished references change nothing that was settled.
  ghost predicate Settled<T>(before: Outcome<T>, after: Outcome<T>) {
    before == Fails(Unclaimed) || before == after
  }

  ghost predicate MoreRefs(refs: Refs, more: Refs) {
    forall key :: key in refs ==> key in more && more[key] == refs[key]
  }

  lemma {:induction false} RewrittenMore(
      refs: Refs, done: set<Reference>, more: Refs, later: set<Reference>, v: Value, at: Place)
    requires MoreRefs(refs, more) && done <= later
    ensures Settled(Rewritten(refs, done, v, at), Rewritten(more, later, v, at))
    decreases v, 0
  {
    match v
    case Array(items) => ItemsMore(refs, done, more, later, items, at);
    case Object(members) => MembersMore(refs, done, more, later, members, Scoped(at, v));
    case _ =>
  }

  lemma {:induction false} ItemsMore(
      refs: Refs, done: set<Reference>, more: Refs, later: set<Reference>, items: seq<Value>, at: Place)
    requires MoreRefs(refs, more) && done <= later
    ensures Settled(RewrittenItems(refs, done, items, at), RewrittenItems(more, later, items, at))
    decreases items, 0
  {
    if items != [] {
      var last := |items| - 1;
      ItemsMore(refs, done, more, later, items[..last], at);
      RewrittenMore(refs, done, more, later, items[last], ItemPlace(at, last));
    }
  }

  lemma {:induction false} MembersMore(
      refs: Refs, done: set<Reference>, more: Refs, later: set<Reference>, members: seq<Member>, at: Place)
    requires MoreRefs(refs, more) && done <= later
    ensures Settled(RewrittenMembers(refs, done, members, at), RewrittenMembers(more, later, members, at))
    decreases members, 0
  {
    if members != [] {
      var last := |members| - 1;
      MembersMore(refs, done, more, later, members[..last], at);
      RewrittenMore(refs, done, more, later, members[last].value, MemberPlace(at, members[last].key));
    }
  }

  // ----- compiled schemas

  function Put(members: seq<Member>, key: string, value: Value): seq<Member> {
    if members == [] then [Member(key, value)]
    else if members[0].key == key then [Member(key, value)] + members[1..]
    else [members[0]] + Put(members[1..], key, value)
  }

  function Without(members: seq<Member>, key: string): seq<Member> {
    if members == [] then []
    else (if members[0].key == key then [] else [members[0]]) + Without(members[1..], key)
  }

  function NoStatus(items: seq<Value>): seq<Value> {
    if items == [] then [] else (if items[0] == Text("status") then [] else [items[0]]) + NoStatus(items[1..])
  }

  const STATUS := Object([
    Member("type", Text("integer")), Member("minimum", Number(100)), Member("maximum", Number(599))])

  function ObjectAt(v: Value, key: string): Outcome<seq<Member>> {
    match Get(v, key)
    case None => Ok([])
    case Some(Object(members)) => Ok(members)
    case _ => Fails(Malformed)
  }

  function RequiredAt(v: Value): Outcome<seq<Value>> {
    match Get(v, "required")
    case None => Ok([])
    case Some(Array(items)) => Ok(NoStatus(items))
    case _ => Fails(Malformed)
  }

  /** `_problem_schema` */
  function ProblemSchema(schema: Value): Outcome<Value> {
    if !schema.Object? then Fails(Malformed)
    else
      match ObjectAt(schema, PROPERTIES)
      case Fails(error) => Fails(error)
      case Ok(given) =>
        match RequiredAt(schema)
        case Fails(error) => Fails(error)
        case Ok(required) =>
          var properties := Put(given, "status", STATUS);
          match ObjectAt(Object(properties), "code")
          case Fails(error) => Fails(error)
          case Ok(code) =>
            Ok(Object(ProblemMembers(schema.members, FixedCode(properties, code), required)))
  }

  // A code that is fixed needs no pattern.
  function FixedCode(properties: seq<Member>, code: seq<Member>): seq<Member> {
    if Find(code, "const").Some? then Put(properties, "code", Object(Without(code, "pattern"))) else properties
  }

  function ProblemMembers(members: seq<Member>, properties: seq<Member>, required: seq<Value>): seq<Member> {
    var first := Put(Put(members, PROPERTIES, Object(properties)), "required", Array(required));
    Without(Without(first, "x-canon-problem"), "examples")
  }

  lemma {:induction false} FindPut(members: seq<Member>, key: string, value: Value, k: string)
    ensures Find(Put(members, key, value), k) == if k == key then Some(value) else Find(members, k)
  {
    if members != [] && members[0].key != key {
      FindPut(members[1..], key, value, k);
      assert Put(members, key, value)[1..] == Put(members[1..], key, value);
    }
  }

  lemma FindFirst(m: Member, rest: seq<Member>, k: string)
    ensures Find([m] + rest, k) == if m.key == k then Some(m.value) else Find(rest, k)
  {
    assert ([m] + rest)[0] == m && ([m] + rest)[1..] == rest;
  }

  lemma {:induction false} FindWithout(members: seq<Member>, key: string, k: string)
    ensures Find(Without(members, key), k) == if k == key then None else Find(members, k)
  {
    if members != [] {
      var m, rest := members[0], Without(members[1..], key);
      FindWithout(members[1..], key, k);
      FindFirst(m, rest, k);
      FindFirst(m, members[1..], k);
      hide Find;
      assert members == [m] + members[1..];
      assert Without(members, key) == if m.key == key then rest else [m] + rest;
    }
  }

  lemma {:induction false} NoStatusRequired(items: seq<Value>, item: Value)
    ensures item in NoStatus(items) <==> item in items && item != Text("status")
  {
    if items != [] { NoStatusRequired(items[1..], item); }
  }

  lemma StatusNotRequired(schema: Value)
    requires RequiredAt(schema).Ok?
    ensures Text("status") !in RequiredAt(schema).value
  {
    if Get(schema, "required").Some? { NoStatusRequired(Get(schema, "required").value.items, Text("status")); }
  }

  // The members of a problem schema that are set or dropped.
  predicate Adjusted(key: string) {
    key == PROPERTIES || key == "required" || key == "x-canon-problem" || key == "examples"
  }

  /** A problem schema allows any status, requires none, and otherwise says what it said. */
  lemma ProblemSchemaAllowsStatus(schema: Value, k: string)
    requires ProblemSchema(schema).Ok?
    ensures var r := ProblemSchema(schema).value;
            && r.Object? && Get(r, PROPERTIES).Some? && Get(Get(r, PROPERTIES).value, "status") == Some(STATUS)
            && Get(r, "required") == Some(Array(RequiredAt(schema).value)) && Text("status") !in RequiredAt(schema).value
            && Get(r, "x-canon-problem").None? && Get(r, "examples").None?
            && (!Adjusted(k) ==> Get(r, k) == Get(schema, k))
  {
    var required := RequiredAt(schema).value;
    var properties := Put(ObjectAt(schema, PROPERTIES).value, "status", STATUS);
    var code := ObjectAt(Object(properties), "code").value;
    var fixed := FixedCode(properties, code);
    StatusNotRequired(schema);
    FindPut(ObjectAt(schema, PROPERTIES).value, "status", STATUS, "status");
    FindPut(properties, "code", Object(Without(code, "pattern")), "status");
    ProblemMemberFound(schema.members, fixed, required, PROPERTIES);
    ProblemMemberFound(schema.members, fixed, required, "required");
    ProblemMemberFound(schema.members, fixed, required, "x-canon-problem");
    ProblemMemberFound(schema.members, fixed, required, "examples");
    ProblemMemberFound(schema.members, fixed, required, k);
    hide Find, Put, ProblemMembers, RequiredAt, Without;
    assert ProblemSchema(schema).value == Object(ProblemMembers(schema.members, fixed, required));
  }

  function ProblemMember(schema: Value, properties: seq<Member>, required: seq<Value>, key: string): Option<Value> {
    if key == PROPERTIES then Some(Object(properties))
    else if key == "required" then Some(Array(required))
    else if Adjusted(key) then None
    else Get(schema, key)
  }

  lemma ProblemMemberFound(members: seq<Member>, properties: seq<Member>, required: seq<Value>, key: string)
    ensures Find(ProblemMembers(members, properties, required), key) ==
            ProblemMember(Object(members), properties, required, key)
  {
    var first := Put(members, PROPERTIES, Object(properties));
    var all := Put(first, "required", Array(required));
    FindPut(members, PROPERTIES, Object(properties), key);
    FindPut(first, "required", Array(required), key);
    FindWithout(all, "x-canon-problem", key);
    FindWithout(Without(all, "x-canon-problem"), "examples", key);
    hide Find, Put, Without;
  }

  // `ref.split("/$defs/", 1)[0]`
  function ScopeOf(ref: string): string {
    if ref == "" || DEFS <= ref then "" else [ref[0]] + ScopeOf(ref[1..])
  }

  function DeclarationPlace(key: Reference): Place {
    Place(key.source, Some(ScopeOf(key.ref)), key.ref, false, true)
  }

  function Titled(schema: Value, name: Label): Value {
    var members :=
      if schema.Object? then schema.members
      else if Truthy(Some(schema)) then []
      else [Member("not", EMPTY)];
    Object(Put(members, "title", Text(name.text)))
  }

  function Finished(schema: Outcome<Value>, problem: bool, name: Label): Outcome<Value> {
    match schema
    case Fails(error) => Fails(error)
    case Ok(plain) =>
      match if problem then ProblemSchema(plain) else Ok(plain)
      case Fails(error) => Fails(error)
      case Ok(r) => Ok(Titled(r, name))
  }

  // What `_compile` makes of a claimed reference.
  function Compiled(input: Input, refs: Refs, done: set<Reference>, problem: bool, key: Reference): Outcome<Value>
    requires input.Has(key.source) && key in refs
  {
    match Pointer(input.documents[key.source], key.ref)
    case None => Fails(Unresolved)
    case Some(raw) => Finished(Rewritten(refs, done, raw, DeclarationPlace(key)), problem, refs[key])
  }

  lemma CompiledMore(
      input: Input, refs: Refs, done: set<Reference>, more: Refs, later: set<Reference>, problem: bool, key: Reference)
    requires input.Has(key.source) && key in refs && MoreRefs(refs, more) && done <= later
    ensures Settled(Compiled(input, refs, done, problem, key), Compiled(input, more, later, problem, key))
  {
    match Pointer(input.documents[key.source], key.ref) {
      case None =>
      case Some(raw) => RewrittenMore(refs, done, more, later, raw, DeclarationPlace(key));
    }
  }

  // ----- meaning

  // A schema without what only documents it, and without the order of members and of required names.
  datatype Normal =
    | Atom(value: Value)
    | List(items: seq<Normal>)
    | Bag(elements: multiset<Normal>)
    | Table(members: map<string, Normal>)

  function Plain(v: Value): Normal
    decreases v, 0
  {
    match v
    case Array(items) => List(PlainItems(items))
    case Object(members) => Table(PlainMembers(members))
    case _ => Atom(v)
  }

  function PlainItems(items: seq<Value>): (r: seq<Normal>)
    ensures |r| == |items|
    decreases items, 0
  {
    if items == [] then [] else [Plain(items[0])] + PlainItems(items[1..])
  }

  function PlainMembers(members: seq<Member>): map<string, Normal>
    decreases members, 0
  {
    if members == [] then map[] else PlainMembers(members[1..])[members[0].key := Plain(members[0].value)]
  }

  predicate Documentation(key: string) {
    key == "title" || key == "description" || key == "examples" || key == "$comment" || "x-" <= key
  }

  predicate NamesMembers(key: string) {
    key == PROPERTIES || key == "patternProperties" || key == "dependentSchemas" || key == "mapping"
  }

  /** `_semantic` */
  function Meaning(v: Value, container: bool): Normal
    decreases v, 0
  {
    match v
    case Array(items) => List(MeaningItems(items))
    case Object(members) => Table(MeaningMembers(members, container))
    case _ => Atom(v)
  }

  function MeaningItems(items: seq<Value>): (r: seq<Normal>)
    ensures |r| == |items|
    decreases items, 0
  {
    if items == [] then [] else [Meaning(items[0], false)] + MeaningItems(items[1..])
  }

  // A member that only documents is dropped, unless its key is a name that the user chose.
  predicate Kept(m: Member, container: bool) {
    container || !Documentation(m.key)
  }

  function MemberMeaning(m: Member, container: bool): Normal
    decreases m, 0
  {
    if !container && (m.key == "default" || m.key == "const" || m.key == "enum") then Plain(m.value)
    else if !container && m.key == "required" && m.value.Array? then Bag(multiset(PlainItems(m.value.items)))
    else Meaning(m.value, !container && NamesMembers(m.key))
  }

  function MeaningMembers(members: seq<Member>, container: bool): map<string, Normal>
    decreases members, 0
  {
    if members == [] then map[]
    else
      var rest := MeaningMembers(members[1..], container);
      if Kept(members[0], container) then rest[members[0].key := MemberMeaning(members[0], container)] else rest
  }

  lemma {:induction false} MeaningOfMember(members: seq<Member>, container: bool, key: string)
    requires DistinctKeys(members)
    ensures key in MeaningMembers(members, container) <==> exists m :: m in members && m.key == key && Kept(m, container)
    ensures forall m :: m in members && m.key == key && Kept(m, container) ==>
              MeaningMembers(members, container)[key] == MemberMeaning(m, container)
  {
    if members != [] {
      MeaningOfMember(members[1..], container, key);
      forall m | m in members[1..] ensures m.key != members[0].key {
        var i :| 0 <= i < |members[1..]| && members[1..][i] == m;
        assert members[i + 1] == m;
      }
      assert forall m :: m in members <==> m == members[0] || m in members[1..];
    }
  }

  /** Schemas that mean the same have the same members, up to documentation, and these mean the same. */
  lemma MeaningTells(a: seq<Member>, b: seq<Member>, container: bool, m: Member) returns (other: Member)
    requires DistinctKeys(a) && DistinctKeys(b) && Meaning(Object(a), container) == Meaning(Object(b), container)
    requires m in a && Kept(m, container)
    ensures other in b && other.key == m.key && MemberMeaning(other, container) == MemberMeaning(m, container)
  {
    MeaningOfMember(a, container, m.key);
    MeaningOfMember(b, container, m.key);
    other :| other in b && other.key == m.key && Kept(other, container);
  }

  // Data that differs only in the order of members, at any depth.
  ghost predicate PlainAlike(a: Value, b: Value) {
    match a
    case Array(items) =>
      b.Array? && |items| == |b.items| && forall i :: 0 <= i < |items| ==> PlainAlike(items[i], b.items[i])
    case Object(members) =>
      && b.Object? && (forall j :: 0 <= j < |b.members| ==> Find(members, b.members[j].key).Some?)
      && (forall i :: 0 <= i < |members| ==> PlainFinds(members[i], b.members))
    case _ => a == b
  }

  ghost predicate PlainFinds(m: Member, others: seq<Member>) {
    Find(others, m.key).Some? && PlainAlike(m.value, Find(others, m.key).value)
  }

  // Schemas that differ, at any depth, only in the order of members and of required names and in what
  // documents them.
  ghost predicate Alike(a: Value, b: Value, container: bool)
    decreases a, 0
  {
    match a
    case Array(items) =>
      b.Array? && |items| == |b.items| && forall i :: 0 <= i < |items| ==> Alike(items[i], b.items[i], false)
    case Object(members) =>
      && b.Object?
      && (forall j :: 0 <= j < |b.members| && Kept(b.members[j], container) ==> Find(members, b.members[j].key).Some?)
      && (forall i :: 0 <= i < |members| && Kept(members[i], container) ==> Finds(members[i], b.members, container))
    case _ => a == b
  }

  ghost predicate Finds(m: Member, others: seq<Member>, container: bool)
    decreases m, 0
  {
    && Find(others, m.key).Some?
    && var other := Find(others, m.key).value;
       if !container && (m.key == "default" || m.key == "const" || m.key == "enum") then PlainAlike(m.value, other)
       else if !container && m.key == "required" && (m.value.Array? || other.Array?) then
         m.value.Array? && other.Array? && multiset(PlainItems(m.value.items)) == multiset(PlainItems(other.items))
       else Alike(m.value, other, !container && NamesMembers(m.key))
  }

  lemma {:induction false} PlainItemsAt(items: seq<Value>, i: nat)
    requires i < |items|
    ensures PlainItems(items)[i] == Plain(items[i])
  {
    if i > 0 { PlainItemsAt(items[1..], i - 1); }
  }

  lemma {:induction false} MeaningItemsAt(items: seq<Value>, i: nat)
    requires i < |items|
    ensures MeaningItems(items)[i] == Meaning(items[i], false)
  {
    if i > 0 { MeaningItemsAt(items[1..], i - 1); }
  }

  lemma {:induction false} PlainFound(members: seq<Member>, key: string)
    ensures key in PlainMembers(members) <==> Find(members, key).Some?
    ensures key in PlainMembers(members) ==> PlainMembers(members)[key] == Plain(Find(members, key).value)
  {
    if members != [] { PlainFound(members[1..], key); }
  }

  lemma {:induction false} MeaningFound(members: seq<Member>, container: bool, key: string)
    ensures key in MeaningMembers(members, container) <==> (container || !Documentation(key)) && Find(members, key).Some?
    ensures key in MeaningMembers(members, container) ==>
              MeaningMembers(members, container)[key] == MemberMeaning(Member(key, Find(members, key).value), container)
  {
    if members != [] { MeaningFound(members[1..], container, key); }
  }

  /** Data has one normal form exactly when it differs in the order of members only. */
  lemma {:induction false} PlainExactly(a: Value, b: Value)
    requires WellFormed(a) && WellFormed(b)
    ensures PlainAlike(a, b) <==> Plain(a) == Plain(b)
    decreases a, 0
  {
    match a {
      case Array(items) => if b.Array? && |items| == |b.items| { PlainItemsExactly(items, b.items); }
      case Object(members) => if b.Object? { PlainMembersExactly(members, b.members); }
      case _ =>
    }
  }

  lemma {:induction false} PlainItemsExactly(a: seq<Value>, b: seq<Value>)
    requires |a| == |b| && forall i :: 0 <= i < |a| ==> WellFormed(a[i]) && WellFormed(b[i])
    ensures (forall i :: 0 <= i < |a| ==> PlainAlike(a[i], b[i])) <==> PlainItems(a) == PlainItems(b)
    decreases a, 0
  {
    forall i | 0 <= i < |a| ensures PlainAlike(a[i], b[i]) <==> PlainItems(a)[i] == PlainItems(b)[i] {
      PlainExactly(a[i], b[i]);
      PlainItemsAt(a, i);
      PlainItemsAt(b, i);
    }
    hide PlainAlike, PlainItems;
    if forall i :: 0 <= i < |a| ==> PlainAlike(a[i], b[i]) {
      assert forall i :: 0 <= i < |a| ==> PlainItems(a)[i] == PlainItems(b)[i];
    }
  }

  lemma {:induction false} PlainMemberExactly(m: Member, others: seq<Member>)
    requires WellFormed(m.value) && WellFormed(Object(others))
    ensures PlainFinds(m, others)
            <==> m.key in PlainMembers(others) && PlainMembers(others)[m.key] == Plain(m.value)
    decreases m, 0
  {
    PlainFound(others, m.key);
    if Find(others, m.key).Some? {
      FoundFormed(others, m.key);
      PlainExactly(m.value, Find(others, m.key).value);
    }
  }

  lemma FoundFormed(members: seq<Member>, key: string)
    requires WellFormed(Object(members)) && Find(members, key).Some?
    ensures WellFormed(Find(members, key).value)
  {
    var i :| 0 <= i < |members| && members[i] == Member(key, Find(members, key).value);
  }

  lemma {:induction false} PlainMembersExactly(a: seq<Member>, b: seq<Member>)
    requires WellFormed(Object(a)) && WellFormed(Object(b))
    ensures PlainAlike(Object(a), Object(b)) <==> PlainMembers(a) == PlainMembers(b)
    decreases a, 0
  {
    forall i | 0 <= i < |a|
      ensures PlainFinds(a[i], b) <==> a[i].key in PlainMembers(b) && PlainMembers(b)[a[i].key] == Plain(a[i].value)
      ensures a[i].key in PlainMembers(a) && PlainMembers(a)[a[i].key] == Plain(a[i].value)
    {
      PlainMemberExactly(a[i], b);
      PlainFound(a, a[i].key);
      FindAt(a, i);
    }
    forall j | 0 <= j < |b|
      ensures Find(a, b[j].key).Some? <==> b[j].key in PlainMembers(a)
      ensures b[j].key in PlainMembers(b)
    {
      PlainFound(a, b[j].key);
      PlainFound(b, b[j].key);
    }
    if PlainAlike(Object(a), Object(b)) {
      PlainSame(a, b);
    }
  }

  lemma PlainSame(a: seq<Member>, b: seq<Member>)
    requires forall i :: 0 <= i < |a| ==>
               && a[i].key in PlainMembers(a) && a[i].key in PlainMembers(b)
               && PlainMembers(a)[a[i].key] == PlainMembers(b)[a[i].key]
    requires forall j :: 0 <= j < |b| ==> b[j].key in PlainMembers(a)
    ensures PlainMembers(a) == PlainMembers(b)
  {
    forall key ensures key in PlainMembers(a) <==> key in PlainMembers(b)
      ensures key in PlainMembers(a) ==> PlainMembers(a)[key] == PlainMembers(b)[key]
    {
      PlainFound(a, key);
      PlainFound(b, key);
      if Find(a, key).Some? {
        var i :| 0 <= i < |a| && a[i] == Member(key, Find(a, key).value);
      }
    }
  }

  /** Schemas mean the same exactly when they differ, at any depth, only in the order of members and of
      required names and in what documents them. */
  lemma {:induction false} MeaningExactly(a: Value, b: Value, container: bool)
    requires WellFormed(a) && WellFormed(b)
    ensures Alike(a, b, container) <==> Meaning(a, container) == Meaning(b, container)
    decreases a, 0
  {
    match a {
      case Array(items) => if b.Array? && |items| == |b.items| { MeaningItemsExactly(items, b.items); }
      case Object(members) => if b.Object? { MeaningMembersExactly(members, b.members, container); }
      case _ =>
    }
  }

  lemma {:induction false} MeaningItemsExactly(a: seq<Value>, b: seq<Value>)
    requires |a| == |b| && forall i :: 0 <= i < |a| ==> WellFormed(a[i]) && WellFormed(b[i])
    ensures (forall i :: 0 <= i < |a| ==> Alike(a[i], b[i], false)) <==> MeaningItems(a) == MeaningItems(b)
    decreases a, 0
  {
    forall i | 0 <= i < |a| ensures Alike(a[i], b[i], false) <==> MeaningItems(a)[i] == MeaningItems(b)[i] {
      MeaningExactly(a[i], b[i], false);
      MeaningItemsAt(a, i);
      MeaningItemsAt(b, i);
    }
    hide Alike, MeaningItems;
    if forall i :: 0 <= i < |a| ==> Alike(a[i], b[i], false) {
      assert forall i :: 0 <= i < |a| ==> MeaningItems(a)[i] == MeaningItems(b)[i];
    }
  }

  lemma {:induction false} MeaningMemberExactly(m: Member, others: seq<Member>, container: bool)
    requires WellFormed(m.value) && WellFormed(Object(others)) && Kept(m, container)
    ensures Finds(m, others, container) <==>
            && m.key in MeaningMembers(others, container)
            && MeaningMembers(others, container)[m.key] == MemberMeaning(m, container)
    decreases m, 0
  {
    MeaningFound(others, container, m.key);
    if Find(others, m.key).Some? {
      FoundFormed(others, m.key);
      var other := Find(others, m.key).value;
      PlainExactly(m.value, other);
      hide WellFormed, PlainAlike, Find, MeaningMembers;
      MeaningExactly(m.value, other, !container && NamesMembers(m.key));
    }
  }

  lemma {:induction false} MeaningMembersExactly(a: seq<Member>, b: seq<Member>, container: bool)
    requires WellFormed(Object(a)) && WellFormed(Object(b))
    ensures Alike(Object(a), Object(b), container) <==> MeaningMembers(a, container) == MeaningMembers(b, container)
    decreases a, 0
  {
    var left, right := MeaningMembers(a, container), MeaningMembers(b, container);
    forall i | 0 <= i < |a| && Kept(a[i], container)
      ensures Finds(a[i], b, container) <==> a[i].key in right && right[a[i].key] == MemberMeaning(a[i], container)
      ensures a[i].key in left && left[a[i].key] == MemberMeaning(a[i], container)
    {
      MeaningMemberExactly(a[i], b, container);
      MeaningFound(a, container, a[i].key);
      FindAt(a, i);
    }
    forall j | 0 <= j < |b| && Kept(b[j], container)
      ensures (Find(a, b[j].key).Some? <==> b[j].key in left) && b[j].key in right
    {
      MeaningFound(a, container, b[j].key);
      MeaningFound(b, container, b[j].key);
    }
    if Alike(Object(a), Object(b), container) {
      MeaningSame(a, b, container);
    }
  }

  ghost predicate Covers(a: seq<Member>, left: map<string, Normal>, right: map<string, Normal>, container: bool) {
    forall i :: 0 <= i < |a| && Kept(a[i], container) ==>
      a[i].key in left && a[i].key in right && left[a[i].key] == right[a[i].key]
  }

  lemma MeaningCovered(a: seq<Member>, right: map<string, Normal>, container: bool, key: string)
    requires Covers(a, MeaningMembers(a, container), right, container) && key in MeaningMembers(a, container)
    ensures key in right && right[key] == MeaningMembers(a, container)[key]
  {
    MeaningFound(a, container, key);
    hide MeaningMembers, MemberMeaning, Documentation, Find;
    var i :| 0 <= i < |a| && a[i] == Member(key, Find(a, key).value);
  }

  lemma MeaningListed(b: seq<Member>, left: map<string, Normal>, container: bool, key: string)
    requires forall j :: 0 <= j < |b| && Kept(b[j], container) ==> b[j].key in left
    requires key in MeaningMembers(b, container)
    ensures key in left
  {
    MeaningFound(b, container, key);
    hide MeaningMembers, MemberMeaning, Documentation, Find;
    var j :| 0 <= j < |b| && b[j] == Member(key, Find(b, key).value);
  }

  lemma MeaningSame(a: seq<Member>, b: seq<Member>, container: bool)
    requires Covers(a, MeaningMembers(a, container), MeaningMembers(b, container), container)
    requires forall j :: 0 <= j < |b| && Kept(b[j], container) ==> b[j].key in MeaningMembers(a, container)
    ensures MeaningMembers(a, container) == MeaningMembers(b, container)
  {
    hide MeaningMembers, MemberMeaning, Covers, Kept;
    var left, right := MeaningMembers(a, container), MeaningMembers(b, container);
    forall key | key in left ensures key in right && left[key] == right[key] { MeaningCovered(a, right, container, key); }
    forall key | key in right ensures key in left { MeaningListed(b, left, container, key); }
  }

  // ----- the references that a schema follows

  // Those that are followed and, if asked for, the addresses of embedded problem schemas, which are only claimed.
  function Met(v: Value, at: Place, embedded: bool): set<Reference>
    decreases v, 0
  {
    match v
    case Array(items) => MetItems(items, at, embedded)
    case Object(members) =>
      if !Replaced(v, at) then MetMembers(members, Scoped(at, v), embedded)
      else if embedded then {Reference(at.source, at.address)} else {}
    case _ => {}
  }

  function MetItems(items: seq<Value>, at: Place, embedded: bool): set<Reference>
    decreases items, 0
  {
    if items == [] then {}
    else
      var last := |items| - 1;
      MetItems(items[..last], at, embedded) + Met(items[last], ItemPlace(at, last), embedded)
  }

  function MetMember(m: Member, at: Place, embedded: bool): set<Reference>
    decreases m, 0
  {
    if !at.container && m.key == "$ref" then
      match Target(m.value, at.scope)
      case Ok(Some(ref)) => {Reference(at.source, ref)}
      case _ => {}
    else if !at.container && (Skipped(m.key) || m.key == "$defs" || m.key == "$id") then {}
    else Met(m.value, MemberPlace(at, m.key), embedded)
  }

  function MetMembers(members: seq<Member>, at: Place, embedded: bool): set<Reference>
    decreases members, 0
  {
    if members == [] then {}
    else
      var last := |members| - 1;
      MetMembers(members[..last], at, embedded) + MetMember(members[last], at, embedded)
  }

  // A rewritten schema follows only finished references.
  lemma {:induction false} MetDone(refs: Refs, done: set<Reference>, v: Value, at: Place)
    requires Rewritten(refs, done, v, at).Ok?
    ensures Met(v, at, false) <= done
    decreases v, 0
  {
    match v
    case Array(items) => MetItemsDone(refs, done, items, at);
    case Object(members) => if !Replaced(v, at) { MetMembersDone(refs, done, members, Scoped(at, v)); }
    case _ =>
  }

  lemma {:induction false} MetItemsDone(refs: Refs, done: set<Reference>, items: seq<Value>, at: Place)
    requires RewrittenItems(refs, done, items, at).Ok?
    ensures MetItems(items, at, false) <= done
    decreases items, 0
  {
    if items != [] {
      var last := |items| - 1;
      MetItemsDone(refs, done, items[..last], at);
      MetDone(refs, done, items[last], ItemPlace(at, last));
    }
  }

  lemma {:induction false} MetMembersDone(refs: Refs, done: set<Reference>, members: seq<Member>, at: Place)
    requires RewrittenMembers(refs, done, members, at).Ok?
    ensures MetMembers(members, at, false) <= done
    decreases members, 0
  {
    if members != [] {
      var last := |members| - 1;
      var m := members[last];
      MetMembersDone(refs, done, members[..last], at);
      if at.container || (m.key != "$ref" && !Skipped(m.key) && m.key != "$defs" && m.key != "$id") {
        MetDone(refs, done, m.value, MemberPlace(at, m.key));
      }
    }
  }

  // A reference met in a value is one of its source, and below the value's address if it is one there at all.
  ghost predicate Here(at: Place, key: Reference) {
    key.source == at.source && (at.address != "" ==> |key.ref| >= 2)
  }

  lemma {:induction false} MetHere(v: Value, at: Place, embedded: bool, key: Reference)
    requires key in Met(v, at, embedded)
    ensures Here(at, key) || (Replaced(v, at) && key == Reference(at.source, at.address))
    decreases v, 0
  {
    match v
    case Array(items) => MetItemHere(items, at, embedded, key);
    case Object(members) => if !Replaced(v, at) { MetMemberHere(members, Scoped(at, v), embedded, key); }
  }

  lemma {:induction false} MetItemHere(items: seq<Value>, at: Place, embedded: bool, key: Reference)
    requires key in MetItems(items, at, embedded)
    ensures Here(at, key)
    decreases items, 0
  {
    var last := |items| - 1;
    if key in MetItems(items[..last], at, embedded) {
      MetItemHere(items[..last], at, embedded, key);
    } else {
      MetHere(items[last], ItemPlace(at, last), embedded, key);
    }
  }

  lemma {:induction false} MetMemberHere(members: seq<Member>, at: Place, embedded: bool, key: Reference)
    requires key in MetMembers(members, at, embedded)
    ensures Here(at, key)
    decreases members, 0
  {
    var last := |members| - 1;
    var m := members[last];
    if key in MetMembers(members[..last], at, embedded) {
      MetMemberHere(members[..last], at, embedded, key);
    } else if at.container || m.key != "$ref" {
      MetHere(m.value, MemberPlace(at, m.key), embedded, key);
    }
  }
}
