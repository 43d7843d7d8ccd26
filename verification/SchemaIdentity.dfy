/**
 Which references are one model, `SchemaRegistry._claim` of `fastapi_canon/codegen/schema.py`, read off the
 documents and the configurations alone.
 */
module SchemaIdentities {
  import opened Wrappers
  import opened Json
  import opened Pointers
  import opened Schemas
  import opened SchemaRegistries

  // ----- what a document says about a reference

  // `last` is what the part of the reference after its last slash stands for.
  ghost predicate EndsIn(ref: string, last: string) {
    exists k :: LastSlash(ref, k) && last == Unescape(ref[k + 1..])
  }

  ghost predicate LastSlash(ref: string, k: int) {
    -1 <= k < |ref| && (k >= 0 ==> ref[k] == '/') && forall i :: k < i < |ref| ==> ref[i] != '/'
  }

  // A table names the address itself, or else its last part.
  function Entry(table: map<string, string>, ref: string, last: string): Option<string> {
    if ref in table then Some(table[ref]) else if last in table then Some(table[last]) else None
  }

  // The member at `key`, unless it is missing, null, empty, zero or false.
  function Present(raw: Value, key: string): Option<Value> {
    if raw.Object? && Truthy(Find(raw.members, key)) then Find(raw.members, key) else None
  }

  predicate HasAll(members: seq<Member>) {
    Find(members, "type").Some? && Find(members, "title").Some? && Find(members, "code").Some?
    && Find(members, "status").Some?
  }

  // The schema of problems in general: it is called Problem, has the members of one, and no type of its own.
  ghost predicate Generic(last: string, raw: Value) {
    && last == "Problem" && (ProblemType(raw).None? || ProblemType(raw) == Some(""))
    && raw.Object? && Find(raw.members, PROPERTIES).Some? && Find(raw.members, PROPERTIES).value.Object?
    && HasAll(Find(raw.members, PROPERTIES).value.members)
  }

  // The identity that is written down for a schema which is no problem: in the configuration, or in the schema.
  function Written(config: Config, ref: string, last: string, raw: Value): Option<Value> {
    var entry := Entry(config.identities, ref, last);
    if entry.Some? then (if entry.value == "" then None else Some(Text(entry.value)))
    else if Present(raw, "x-canon-model-id").Some? then Present(raw, "x-canon-model-id")
    else Present(raw, "$id")
  }

  // `id` is the identity of a reference: that of its problem type, of problems in general, the one written down for
  // it, or else its own source and address.
  ghost predicate Identifies(input: Input, key: Reference, last: string, raw: Value, id: string)
    requires input.Has(key.source)
  {
    if Generic(last, raw) then id == "canon:generic-problem"
    else if ProblemType(raw).Some? then id == "problem:" + ProblemType(raw).value
    else
      match Written(input.configs[key.source], key.ref, last, raw)
      case Some(value) => value == Text(id)
      case None => id == key.source + key.ref
  }

  lemma {:induction false} SplitLast(ref: string, k: int)
    requires LastSlash(ref, k)
    ensures Last(ref) == Unescape(ref[k + 1..])
  {
    if k < 0 {
      assert ref[0..] == ref;
      SplitSlashFree(ref);
    } else {
      assert ref == ref[..k] + "/" + ref[k + 1..];
      SplitAppend(ref[..k], ref[k + 1..]);
    }
  }

  lemma {:induction false} LastSlashFound(ref: string) returns (k: int)
    ensures LastSlash(ref, k)
  {
    if ref == "" {
      k := -1;
    } else if ref[|ref| - 1] == '/' {
      k := |ref| - 1;
    } else {
      var init := ref[..|ref| - 1];
      k := LastSlashFound(init);
    }
  }

  // Every reference ends in one part.
  lemma EndsOnce(ref: string, last: string)
    ensures EndsIn(ref, last) <==> last == Last(ref)
  {
    if k :| LastSlash(ref, k) && last == Unescape(ref[k + 1..]) {
      SplitLast(ref, k);
    }
    var k := LastSlashFound(ref);
    SplitLast(ref, k);
  }

  lemma WrittenExactly(config: Config, ref: string, raw: Value)
    ensures var declared := DeclaredIdentity(config, ref, raw);
            Written(config, ref, Last(ref), raw) == if Truthy(declared) then declared else None
  {
    hide Last, Find;
  }

  /** A claim has the identity that its document and configuration give it. */
  lemma HeadIdentifies(input: Input, key: Reference, last: string, raw: Value)
    requires input.Has(key.source) && Head(input, key).Ok? && EndsIn(key.ref, last)
    requires Pointer(input.documents[key.source], key.ref) == Some(raw)
    ensures Identifies(input, key, last, raw, Head(input, key).value.identity.id)
  {
    EndsOnce(key.ref, last);
    HeadParts(input, key, raw);
    GenericExactly(last, raw);
    DeclaredExactly(input, key, raw);
    hide Head, Pointer, Last, ProblemType, EndsIn, DeclaredIdentity, Declared, Written, Generic, GenericProblem;
  }

  // What the first half of a claim is made of.
  lemma HeadParts(input: Input, key: Reference, raw: Value)
    requires input.Has(key.source) && Head(input, key).Ok?
    requires Pointer(input.documents[key.source], key.ref) == Some(raw)
    ensures var problem := ProblemType(raw);
            var declared := Declared(key, problem, DeclaredIdentity(input.configs[key.source], key.ref, raw));
            var generic := GenericProblem(Last(key.ref), raw);
            && declared.Ok? && generic.Ok?
            && Head(input, key).value.identity ==
               if generic.value && (problem.None? || problem == Some("")) then Identity("canon:generic-problem")
               else declared.value
  {
    hide Pointer, Last, ProblemType, DeclaredIdentity, Declared, RequestedName, GenericProblem;
  }

  lemma DeclaredExactly(input: Input, key: Reference, raw: Value)
    requires input.Has(key.source)
    requires Declared(key, ProblemType(raw), DeclaredIdentity(input.configs[key.source], key.ref, raw)).Ok?
    ensures var problem := ProblemType(raw);
            var written := Written(input.configs[key.source], key.ref, Last(key.ref), raw);
            var id := Declared(key, problem, DeclaredIdentity(input.configs[key.source], key.ref, raw)).value.id;
            if problem.Some? then id == "problem:" + problem.value
            else
              match written
              case Some(value) => value == Text(id)
              case None => id == key.source + key.ref
  {
    WrittenExactly(input.configs[key.source], key.ref, raw);
    hide Last, ProblemType, DeclaredIdentity, Written;
  }

  lemma GenericExactly(last: string, raw: Value)
    requires GenericProblem(last, raw).Ok?
    ensures Generic(last, raw) <==>
            GenericProblem(last, raw).value && (ProblemType(raw).None? || ProblemType(raw) == Some(""))
  {
    hide Find, ProblemType;
  }

  // The identity of a reference, according to its document and configuration.
  ghost predicate Stands(input: Input, key: Reference, id: string) {
    && input.Has(key.source) && Pointer(input.documents[key.source], key.ref).Some?
    && exists last :: EndsIn(key.ref, last)
                      && Identifies(input, key, last, Pointer(input.documents[key.source], key.ref).value, id)
  }

  lemma HeadStands(input: Input, key: Reference, id: string)
    requires input.Has(key.source) && Head(input, key).Ok?
    ensures Stands(input, key, id) <==> id == Head(input, key).value.identity.id
  {
    var raw := Pointer(input.documents[key.source], key.ref).value;
    EndsOnce(key.ref, Last(key.ref));
    HeadIdentifies(input, key, Last(key.ref), raw);
    forall last | EndsIn(key.ref, last) ensures last == Last(key.ref) { EndsOnce(key.ref, last); }
    hide Head, EndsIn, Pointer, Last, Generic, ProblemType, Written;
    if last :| EndsIn(key.ref, last) && Identifies(input, key, last, raw, id) {
      assert Identifies(input, key, last, raw, Head(input, key).value.identity.id);
    }
  }

  /** Claimed references share a name exactly when their documents and configurations give them one identity. */
  lemma SharedExactly(input: Input, t: Tables, a: Reference, b: Reference)
    requires Consistent(input, t) && a in t.refs && b in t.refs
    ensures t.refs[a] == t.refs[b] <==> exists id :: Stands(input, a, id) && Stands(input, b, id)
  {
    SameNameSameIdentity(input, t, a, b);
    hide Consistent, Head, Stands;
    var x, y := Head(input, a).value.identity, Head(input, b).value.identity;
    assert x == Identity(x.id) && y == Identity(y.id);
    HeadStands(input, a, x.id);
    HeadStands(input, b, x.id);
    if id :| Stands(input, a, id) && Stands(input, b, id) {
      HeadStands(input, a, id);
      HeadStands(input, b, id);
    }
  }

  /** Problem schemas of one type are one model, whatever is written down for them. */
  lemma ProblemsShared(input: Input, t: Tables, a: Reference, b: Reference)
    requires Consistent(input, t) && a in t.refs && b in t.refs && input.Has(a.source) && input.Has(b.source)
    requires Pointer(input.documents[a.source], a.ref).Some? && Pointer(input.documents[b.source], b.ref).Some?
    requires var problem := ProblemType(Pointer(input.documents[a.source], a.ref).value);
             && problem.Some? && problem != Some("")
             && ProblemType(Pointer(input.documents[b.source], b.ref).value) == problem
    ensures t.refs[a] == t.refs[b]
  {
    var problem := ProblemType(Pointer(input.documents[a.source], a.ref).value).value;
    EndsOnce(a.ref, Last(a.ref));
    EndsOnce(b.ref, Last(b.ref));
    hide Consistent, EndsIn, Pointer, Last, ProblemType, Written;
    assert Stands(input, a, "problem:" + problem) && Stands(input, b, "problem:" + problem);
    SharedExactly(input, t, a, b);
  }

  /** A reference is refused for what its document or configuration says exactly when it leads to no schema, its
      identity is written down as something else than text, or the properties of a schema called Problem are no object. */
  lemma HeadRefused(input: Input, key: Reference)
    requires input.Has(key.source)
    ensures Head(input, key).Fails? <==>
            match Pointer(input.documents[key.source], key.ref)
            case None => true
            case Some(raw) =>
              var written := Written(input.configs[key.source], key.ref, Last(key.ref), raw);
              || (!raw.Object? && !raw.Bool?)
              || (ProblemType(raw).None? && written.Some? && !written.value.Text?)
              || (Last(key.ref) == "Problem" && raw.Object? && Find(raw.members, PROPERTIES).Some?
                  && !Find(raw.members, PROPERTIES).value.Object?)
  {
    match Pointer(input.documents[key.source], key.ref) {
      case None =>
      case Some(raw) =>
        WrittenExactly(input.configs[key.source], key.ref, raw);
        hide Pointer, Last, Find, ProblemType, DeclaredIdentity, Written, RequestedName;
    }
  }

  // ----- the name of a model

  // A name that is asked for: in the configuration, or in the schema.
  ghost predicate Asks(config: Config, ref: string, last: string, raw: Value, basis: Value) {
    if Generic(last, raw) then basis == Text("ProblemDetails")
    else
      match Entry(config.names, ref, last)
      case Some(name) => name != "" && basis == Text(name)
      case None => Present(raw, "x-canon-model-name") == Some(basis)
  }

  predicate NoTitle(title: Option<Value>) {
    title.None? || title.value.Null? || title.value == Text("Problem")
  }

  // What a problem type without a title of its own is called after.
  function CodeOf(raw: Value): Option<Value> {
    match Get(raw, PROPERTIES)
    case None => None
    case Some(properties) =>
      match Get(properties, "code")
      case None => None
      case Some(code) => Get(code, "const")
  }

  // The title a schema is known by.
  ghost predicate Entitles(raw: Value, problem: bool, basis: Value) {
    var title := Get(raw, "title");
    if problem && NoTitle(title) then
      CodeOf(raw).Some? && Pascal(CodeOf(raw).value).Ok?
      && basis == Text(Pascal(CodeOf(raw).value).value.text + "Problem") && basis != Text("Problem")
    else !NoTitle(title) && Truthy(title) && basis == title.value
  }

  // A model is named after the name that is asked for, after the title if it has an identity of its own, or after
  // the last part of its reference.
  ghost predicate NamedAfter(input: Input, key: Reference, last: string, raw: Value, id: string, basis: Value)
    requires input.Has(key.source)
  {
    var config, problem := input.configs[key.source], ProblemType(raw).Some? && ProblemType(raw) != Some("");
    if exists asked :: Asks(config, key.ref, last, raw, asked) then Asks(config, key.ref, last, raw, basis)
    else if id != key.source + key.ref && exists title :: Entitles(raw, problem, title) then Entitles(raw, problem, basis)
    else basis == Text(last)
  }

  // Names of problem types do not end in Embedded, and end in Problem instead of Error.
  ghost predicate Finishes(problem: bool, plain: string, name: string) {
    if !problem then name == plain
    else
      exists stem ::
        && (if EndsWith(plain, "Embedded") then stem + "Embedded" == plain else stem == plain)
        && name == if EndsWith(stem, "Error") then stem + "Problem" else stem
  }

  lemma RequestedExactly(config: Config, ref: string, last: string, raw: Value, basis: Value)
    requires last == Last(ref)
    ensures var requested := RequestedName(config, ref, raw);
            !Generic(last, raw) ==> (Asks(config, ref, last, raw, basis) <==> Truthy(requested) && basis == requested.value)
  {
    hide Last, Find, Generic;
  }

  lemma TitleExactly(claim: Claim, basis: Value)
    requires Title(claim).Ok?
    ensures var title := Title(claim).value;
            Entitles(claim.raw, claim.problem, basis) <==> !Untitled(title) && Truthy(title) && basis == title.value
  {
    hide Find, Pascal;
  }

  lemma ClaimParts(input: Input, key: Reference, raw: Value)
    requires input.Has(key.source) && Head(input, key).Ok?
    requires Pointer(input.documents[key.source], key.ref) == Some(raw)
    ensures var claim := Head(input, key).value;
            && claim.raw == raw && claim.last == Last(key.ref)
            && (claim.problem <==> ProblemType(raw).Some? && ProblemType(raw) != Some(""))
            && claim.requested ==
               if GenericProblem(Last(key.ref), raw).Ok? && GenericProblem(Last(key.ref), raw).value && !claim.problem
               then Some(Text("ProblemDetails"))
               else RequestedName(input.configs[key.source], key.ref, raw)
  {
    hide Pointer, Last, ProblemType, DeclaredIdentity, Declared, RequestedName, GenericProblem;
  }

  lemma ClaimAsks(input: Input, key: Reference, raw: Value, basis: Value)
    requires input.Has(key.source) && Head(input, key).Ok?
    requires Pointer(input.documents[key.source], key.ref) == Some(raw)
    ensures var requested := Head(input, key).value.requested;
            Asks(input.configs[key.source], key.ref, Last(key.ref), raw, basis)
            <==> Truthy(requested) && basis == requested.value
  {
    HeadParts(input, key, raw);
    ClaimParts(input, key, raw);
    GenericExactly(Last(key.ref), raw);
    RequestedExactly(input.configs[key.source], key.ref, Last(key.ref), raw, basis);
    hide Head, Pointer, Last, ProblemType, Generic, GenericProblem, RequestedName, Find;
  }

  // What a new model is named after.
  function Basis(key: Reference, claim: Claim, title: Option<Value>): Value {
    if Truthy(claim.requested) then claim.requested.value
    else if claim.identity != Identity(key.source + key.ref) && !Untitled(title) && Truthy(title) then title.value
    else Text(claim.last)
  }

  lemma BasisNamed(input: Input, key: Reference, raw: Value)
    requires input.Has(key.source) && Head(input, key).Ok? && Title(Head(input, key).value).Ok?
    requires Pointer(input.documents[key.source], key.ref) == Some(raw)
    ensures var claim := Head(input, key).value;
            NamedAfter(input, key, Last(key.ref), raw, claim.identity.id, Basis(key, claim, Title(claim).value))
  {
    var claim := Head(input, key).value;
    var title := Title(claim).value;
    ClaimParts(input, key, raw);
    forall basis
      ensures Asks(input.configs[key.source], key.ref, Last(key.ref), raw, basis)
              <==> Truthy(claim.requested) && basis == claim.requested.value
      ensures Entitles(raw, claim.problem, basis) <==> !Untitled(title) && Truthy(title) && basis == title.value
    {
      ClaimAsks(input, key, raw, basis);
      TitleExactly(claim, basis);
    }
    assert claim.identity == Identity(claim.identity.id);
    hide Head, Pointer, Last, ProblemType, Asks, Entitles, Title, Untitled, Truthy;
  }

  lemma FreshParts(key: Reference, claim: Claim)
    requires FreshName(key, claim).Ok?
    ensures Title(claim).Ok? && Pascal(Basis(key, claim, Title(claim).value)).Ok?
    ensures var plain := Pascal(Basis(key, claim, Title(claim).value)).value.text;
            var short := if claim.problem && EndsWith(plain, "Embedded") then plain[..|plain| - 8] else plain;
            FreshName(key, claim).value ==
            Label(if claim.problem && EndsWith(short, "Error") then short + "Problem" else short)
  {
    hide Title, Pascal, EndsWith, Untitled, Truthy;
  }

  lemma FinishesShort(problem: bool, plain: string)
    ensures var short := if problem && EndsWith(plain, "Embedded") then plain[..|plain| - 8] else plain;
            Finishes(problem, plain, if problem && EndsWith(short, "Error") then short + "Problem" else short)
  {
    if problem && EndsWith(plain, "Embedded") {
      var stem := plain[..|plain| - 8];
      assert plain == stem + plain[|plain| - 8..];
      assert stem + "Embedded" == plain;
    }
  }

  /** How the name of a model is found: from the first reference that claimed it. */
  lemma ModelNamed(input: Input, t: Tables, id: Identity) returns (key: Reference, basis: Value, plain: string)
    requires Consistent(input, t) && id in t.models
    ensures key == t.models[id].origin && input.Has(key.source) && Stands(input, key, id.id)
    ensures Pointer(input.documents[key.source], key.ref).Some?
    ensures var raw := Pointer(input.documents[key.source], key.ref).value;
            && NamedAfter(input, key, Last(key.ref), raw, id.id, basis) && Pascal(basis) == Ok(Label(plain))
            && Finishes(ProblemType(raw).Some? && ProblemType(raw) != Some(""), plain, t.models[id].name.text)
  {
    key := t.models[id].origin;
    var claim := Head(input, key).value;
    NamedModel(input, t, key);
    var raw := Pointer(input.documents[key.source], key.ref).value;
    HeadStands(input, key, id.id);
    FreshParts(key, claim);
    BasisNamed(input, key, raw);
    ClaimParts(input, key, raw);
    basis := Basis(key, claim, Title(claim).value);
    plain := Pascal(basis).value.text;
    FinishesShort(claim.problem, plain);
    hide Head, Pointer, Last, NamedAfter, Pascal, Title, EndsWith, ProblemType, Stands, Finishes, Basis;
  }
}
