/**
 The registry of models, `fastapi_canon/codegen/schema.py`: claiming names, compiling schemas with cyclic
 references, and assembling the document of one source.
 */
module SchemaRegistries {
  import opened Wrappers
  import opened Json
  import opened Pointers
  import opened Schemas
  import opened SchemaScopes
  import opened SchemaNames
  import opened SchemaAssembly

  // ----- invariants

  // The names of the schemas that a schema defines.
  function Defs(raw: Value): Outcome<seq<Member>> {
    match Get(raw, "$defs")
    case None => Ok([])
    case Some(Object(members)) => Ok(members)
    case Some(Array(items)) => if items == [] then Ok([]) else Fails(Malformed)
    case Some(Text(text)) => if text == "" then Ok([]) else Fails(Malformed)
    case _ => Fails(Malformed)
  }

  function ChildRef(key: Reference, name: string): Reference {
    Reference(key.source, key.ref + DEFS + Escape(name))
  }

  ghost predicate ChildrenClaimed(refs: Refs, key: Reference, raw: Value, n: nat) {
    Defs(raw).Ok? && n <= |Defs(raw).value| && forall i :: 0 <= i < n ==> ChildRef(key, Defs(raw).value[i].key) in refs
  }

  function RawOf(input: Input, key: Reference): Value {
    if !input.Has(key.source) then Null
    else
      match Pointer(input.documents[key.source], key.ref)
      case None => Null
      case Some(raw) => raw
  }

  // The schemas that a claimed schema defines are claimed too, but for those still being claimed.
  ghost predicate DefsClaimed(input: Input, refs: Refs, open: set<Reference>) {
    forall key :: key in refs && key !in open ==>
      var raw := RawOf(input, key);
      Defs(raw).Ok? && ChildrenClaimed(refs, key, raw, |Defs(raw).value|)
  }

  ghost predicate Evolved(m: Model, next: Model) {
    && next.name == m.name && next.identity == m.identity && next.origin == m.origin && next.problem == m.problem
    && (m.schema != EMPTY ==> next.schema != EMPTY && Meaning(next.schema, false) == Meaning(m.schema, false))
  }

  // Names, references and models only accumulate, and a model that has a schema keeps its meaning.
  ghost predicate Grown(t: Tables, next: Tables) {
    && MoreRefs(t.refs, next.refs)
    && (forall name :: name in t.names ==> name in next.names && next.names[name] == t.names[name])
    && (forall id :: id in t.models ==> id in next.models && Evolved(t.models[id], next.models[id]))
  }

  // Claiming leaves models as they are and adds models without a schema.
  ghost predicate OnlyClaims(t: Tables, next: Tables) {
    && Grown(t, next)
    && (forall id :: id in t.models ==> next.models[id] == t.models[id])
    && (forall id :: id in next.models && id !in t.models ==> next.models[id].schema == EMPTY)
  }

  ghost predicate HasModel(t: Tables, key: Reference) {
    key in t.refs && t.refs[key] in t.names && t.names[t.refs[key]] in t.models
  }

  function ModelOf(t: Tables, key: Reference): Model
    requires HasModel(t, key)
  {
    t.models[t.names[t.refs[key]]]
  }

  function CompiledAs(input: Input, t: Tables, done: set<Reference>, key: Reference): Outcome<Value>
    requires input.Has(key.source) && HasModel(t, key)
  {
    Compiled(input, t.refs, done, ModelOf(t, key).problem, key)
  }

  // The model of a compiled reference means what the reference's own schema means.
  ghost predicate Agrees(input: Input, t: Tables, done: set<Reference>, key: Reference) {
    && input.Has(key.source) && HasModel(t, key)
    && ModelOf(t, key).schema != EMPTY
    && CompiledAs(input, t, done, key).Ok?
    && Meaning(ModelOf(t, key).schema, false) == Meaning(CompiledAs(input, t, done, key).value, false)
  }

  ghost predicate Agreeing(input: Input, t: Tables, compiled: set<Reference>, done: set<Reference>) {
    forall key :: key in compiled ==> Agrees(input, t, done, key)
  }

  // `key` is where the model got its schema from.
  ghost predicate Gives(input: Input, t: Tables, done: set<Reference>, key: Reference, id: Identity) {
    && input.Has(key.source) && HasModel(t, key) && t.names[t.refs[key]] == id
    && CompiledAs(input, t, done, key) == Ok(ModelOf(t, key).schema)
  }

  ghost predicate Given(input: Input, t: Tables, compiled: set<Reference>, done: set<Reference>, id: Identity) {
    exists key :: key in compiled && Gives(input, t, done, key, id)
  }

  // A model has no schema yet, or that of a compiled reference.
  ghost predicate Founded(input: Input, t: Tables, compiled: set<Reference>, done: set<Reference>) {
    forall id :: id in t.models && t.models[id].schema != EMPTY ==> Given(input, t, compiled, done, id)
  }

  ghost predicate Settling(input: Input, t: Tables, compiled: set<Reference>, compiling: set<Reference>) {
    && Consistent(input, t)
    && DefsClaimed(input, t.refs, {})
    && compiling <= t.refs.Keys
    && Agreeing(input, t, compiled, compiled + compiling)
    && Founded(input, t, compiled, compiled + compiling)
  }

  // ----- what the invariants survive

  lemma GrownTwice(a: Tables, b: Tables, c: Tables)
    requires Grown(a, b) && Grown(b, c)
    ensures Grown(a, c)
  {
    forall id | id in a.models ensures id in c.models && Evolved(a.models[id], c.models[id]) {
      assert Evolved(a.models[id], b.models[id]) && Evolved(b.models[id], c.models[id]);
    }
  }

  lemma AgreesLater(input: Input, t: Tables, next: Tables, done: set<Reference>, later: set<Reference>, key: Reference)
    requires Grown(t, next) && done <= later && Agrees(input, t, done, key)
    ensures Agrees(input, next, later, key)
    ensures CompiledAs(input, next, later, key) == CompiledAs(input, t, done, key)
  {
    CompiledMore(input, t.refs, done, next.refs, later, ModelOf(t, key).problem, key);
    assert Evolved(ModelOf(t, key), ModelOf(next, key));
  }

  lemma AgreeingLater(
      input: Input, t: Tables, next: Tables, compiled: set<Reference>, done: set<Reference>, later: set<Reference>)
    requires Grown(t, next) && done <= later && Agreeing(input, t, compiled, done)
    ensures Agreeing(input, next, compiled, later)
  {
    forall key | key in compiled ensures Agrees(input, next, later, key) {
      AgreesLater(input, t, next, done, later, key);
    }
  }

  lemma GivesLater(
      input: Input, t: Tables, next: Tables, done: set<Reference>, later: set<Reference>, key: Reference, id: Identity)
    requires Grown(t, next) && done <= later && Gives(input, t, done, key, id)
    requires next.models[id].schema == t.models[id].schema
    ensures Gives(input, next, later, key, id)
  {
    CompiledMore(input, t.refs, done, next.refs, later, ModelOf(t, key).problem, key);
    assert Evolved(ModelOf(t, key), ModelOf(next, key));
  }

  lemma FoundedLater(
      input: Input, t: Tables, next: Tables, compiled: set<Reference>, done: set<Reference>, later: set<Reference>)
    requires OnlyClaims(t, next) && done <= later && Founded(input, t, compiled, done)
    ensures Founded(input, next, compiled, later)
  {
    forall id | id in next.models && next.models[id].schema != EMPTY ensures Given(input, next, compiled, later, id) {
      assert Given(input, t, compiled, done, id);
      var key :| key in compiled && Gives(input, t, done, key, id);
      GivesLater(input, t, next, done, later, key, id);
    }
  }

  // ----- one claim

  function Registered(t: Tables, key: Reference, claim: Claim, name: Label): Tables {
    Tables(
      if claim.identity in t.models then t.models
      else t.models[claim.identity := Model(name, claim.identity, EMPTY, key, claim.problem)],
      if claim.identity in t.models then t.names else t.names[name := claim.identity],
      t.refs[key := name])
  }

  // The name is that of the identity's model, or the name and the identity are both new.
  ghost predicate Fits(t: Tables, identity: Identity, name: Label) {
    if identity in t.models then t.models[identity].name == name else name !in t.names
  }

  lemma FitsNamed(t: Tables, key: Reference, claim: Claim, name: Label)
    requires OneToOne(t) && PublicName(t, key, claim) == Ok(name)
    ensures Fits(t, claim.identity, name)
  {
  }

  lemma RegisteredOneToOne(t: Tables, key: Reference, claim: Claim, name: Label)
    requires OneToOne(t) && Fits(t, claim.identity, name)
    ensures OneToOne(Registered(t, key, claim, name))
  {
  }

  lemma RegisteredClaims(t: Tables, key: Reference, claim: Claim, name: Label)
    requires key !in t.refs && Fits(t, claim.identity, name)
    ensures OnlyClaims(t, Registered(t, key, claim, name))
  {
  }

  lemma RegisteredRefs(input: Input, t: Tables, key: Reference, claim: Claim, name: Label)
    requires RefsNamed(input, t) && key !in t.refs && Fits(t, claim.identity, name)
    requires claim.identity in t.models ==> name in t.names && t.names[name] == claim.identity
    requires input.Has(key.source) && Head(input, key) == Ok(claim)
    ensures RefsNamed(input, Registered(t, key, claim, name))
  {
  }

  lemma RegisteredModels(input: Input, t: Tables, key: Reference, claim: Claim, name: Label)
    requires ModelsNamed(input, t) && key !in t.refs && Fits(t, claim.identity, name)
    requires input.Has(key.source) && Head(input, key) == Ok(claim)
    requires claim.identity !in t.models ==> FreshName(key, claim) == Ok(name)
    ensures ModelsNamed(input, Registered(t, key, claim, name))
  {
  }

  lemma RegisteredRequests(input: Input, t: Tables, key: Reference, claim: Claim, name: Label)
    requires RefsNamed(input, t) && OneToOne(t) && RequestsKept(input, t) && key !in t.refs && Fits(t, claim.identity, name)
    requires input.Has(key.source) && Head(input, key) == Ok(claim)
    requires claim.identity in t.models && Truthy(claim.requested) ==> Pascal(claim.requested.value) == Ok(name)
    ensures RequestsKept(input, Registered(t, key, claim, name))
  {
    hide Head, Pascal, Truthy;
  }

  /** Registering a claim keeps names and identities in correspondence, and disturbs no earlier claim. */
  lemma RegisteredKeeps(input: Input, t: Tables, key: Reference, claim: Claim, name: Label)
    requires Consistent(input, t) && key !in t.refs && input.Has(key.source)
    requires Head(input, key) == Ok(claim) && PublicName(t, key, claim) == Ok(name)
    ensures Consistent(input, Registered(t, key, claim, name))
    ensures OnlyClaims(t, Registered(t, key, claim, name))
  {
    hide Head, FreshName;
    FitsNamed(t, key, claim, name);
    RegisteredOneToOne(t, key, claim, name);
    RegisteredClaims(t, key, claim, name);
    RegisteredRefs(input, t, key, claim, name);
    RegisteredModels(input, t, key, claim, name);
    RegisteredRequests(input, t, key, claim, name);
  }

  // ----- failures

  datatype Failure = Failure(error: Error, key: Reference)

  datatype Result<T> = Done(value: T) | Failed(failure: Failure)

  // The claim cannot be made in these tables.
  ghost predicate ClaimFails(input: Input, t: Tables, f: Failure)
    requires input.Has(f.key.source)
  {
    match Head(input, f.key)
    case Fails(error) => error == f.error
    case Ok(claim) =>
      if f.key in t.refs then Defs(claim.raw) == Fails(f.error) else PublicName(t, f.key, claim) == Fails(f.error)
  }

  // The two references have one identity, and their schemas do not mean the same.
  ghost predicate Disagree(input: Input, t: Tables, done: set<Reference>, a: Reference, b: Reference) {
    && input.Has(a.source) && input.Has(b.source) && HasModel(t, a) && HasModel(t, b) && t.refs[a] == t.refs[b]
    && CompiledAs(input, t, done, a).Ok? && CompiledAs(input, t, done, b).Ok?
    && Meaning(CompiledAs(input, t, done, a).value, false) != Meaning(CompiledAs(input, t, done, b).value, false)
  }

  // The schema cannot be compiled, or it does not agree with another one of its identity.
  ghost predicate CompileFails(input: Input, t: Tables, f: Failure)
    requires input.Has(f.key.source)
  {
    HasModel(t, f.key) &&
    match CompiledAs(input, t, t.refs.Keys, f.key)
    case Fails(error) => error == f.error
    case Ok(_) => f.error == Incompatible && exists other :: Disagree(input, t, t.refs.Keys, other, f.key)
  }

  ghost predicate Justified(input: Input, t: Tables, f: Failure) {
    input.Has(f.key.source) && (ClaimFails(input, t, f) || CompileFails(input, t, f))
  }

  // ----- the references that are asked for

  ghost predicate AllWithin(keys: set<Reference>, within: iset<Reference>) {
    forall key :: key in keys ==> key in within
  }

  ghost predicate ChildrenWithin(key: Reference, raw: Value, within: iset<Reference>) {
    Defs(raw).Ok? ==> forall i :: 0 <= i < |Defs(raw).value| ==> ChildRef(key, Defs(raw).value[i].key) in within
  }

  // Claiming and compiling a reference only asks for references within the same ones.
  ghost predicate Closed(input: Input, within: iset<Reference>) {
    forall key :: key in within && input.Has(key.source) && Pointer(input.documents[key.source], key.ref).Some? ==>
      && AllWithin(Met(RawOf(input, key), DeclarationPlace(key), true), within)
      && ChildrenWithin(key, RawOf(input, key), within)
  }

  // Allowing every reference restricts nothing.
  lemma AllClosed(input: Input) returns (within: iset<Reference>)
    ensures Closed(input, within) && forall key: Reference :: key in within
  {
    within := iset source: string, ref: string | true :: Reference(source, ref);
    forall key: Reference ensures key in within { assert key == Reference(key.source, key.ref); }
  }

  // ----- the registry

  class SchemaRegistry {
    const input: Input
    // The references that may be asked for; all of them, where nothing more is known.
    ghost const within: iset<Reference>
    var models: map<Identity, Model>
    var names: map<Label, Identity>
    var refs: map<Reference, Label>
    // Schemas being compiled, all of one source, and compiled ones.
    var compiling: set<Reference>
    var compiled: set<Reference>

    // What holds between steps: names are consistent and compiled schemas agree with their models.
    ghost predicate Valid()
      reads this
    {
      Settling(input, Now(), compiled, compiling)
    }

    // Only references within the given ones were asked for.
    ghost predicate Bounded()
      reads this
    {
      Closed(input, within) && AllWithin(refs.Keys, within)
    }

    ghost predicate Refuses(f: Failure)
      reads this
    {
      Justified(input, Now(), f) && f.key in within
    }

    ghost function Known(): set<Reference>
      reads this
    {
      compiled + compiling
    }

    // The references of `universe` are all that can be followed; those not being compiled are `left`.
    ghost predicate Ready(source: string, universe: set<Reference>, left: set<Reference>)
      reads this
    {
      && Valid() && Bounded() && input.Has(source) && Whole(input.documents[source], source, universe)
      && universe <= compiling + left
    }

    constructor (input: Input, ghost within: iset<Reference>)
      requires Closed(input, within)
      ensures this.input == input && this.within == within
      ensures Settling(input, Now(), compiled, compiling) && Bounded() && compiling == {} && refs == map[]
    {
      this.input, this.within := input, within;
      models, names, refs, compiling, compiled := map[], map[], map[], {}, {};
    }

    function Now(): Tables
      reads this
    {
      Tables(models, names, refs)
    }

    /** `_claim` */
    method Claim(source: string, ref: string, ghost open: set<Reference>) returns (r: Result<Label>)
      requires input.Has(source) && Consistent(input, Now()) && DefsClaimed(input, refs, open)
      requires Bounded() && Reference(source, ref) in within
      modifies this`models, this`names, this`refs
      ensures Consistent(input, Now()) && OnlyClaims(old(Now()), Now()) && Bounded()
      ensures match r
              case Done(name) => ClaimedAs(refs, Reference(source, ref), name) && DefsClaimed(input, refs, open)
              case Failed(f) => Refuses(f)
      decreases if |ref| < 2 then 1 else 0, RawOf(input, Reference(source, ref))
    {
      hide Head, PublicName, Defs, RawOf, Consistent, OnlyClaims, DefsClaimed, ChildrenClaimed, Justified, Closed;
      var key := Reference(source, ref);
      OnlyClaimsNothing(Now());
      if key in refs {
        return Done(refs[key]);
      }
      var head := Head(input, key);
      if head.Fails? {
        ClaimRefused(input, Now(), key, head.error);
        return Failed(Failure(head.error, key));
      }
      var claim := head.value;
      var public := PublicName(Now(), key, claim);
      if public.Fails? {
        ClaimRefused(input, Now(), key, public.error);
        return Failed(Failure(public.error, key));
      }
      var name := public.value;
      RegisteredKeeps(input, Now(), key, claim, name);
      Registering(input, Now(), key, claim, name, open);
      if claim.identity !in models {
        names := names[name := claim.identity];
        models := models[claim.identity := Model(name, claim.identity, EMPTY, key, claim.problem)];
      }
      refs := refs[key := name];
      assert Now() == Registered(old(Now()), key, claim, name);
      var defs := Defs(claim.raw);
      if defs.Fails? {
        ClaimRefused(input, Now(), key, defs.error);
        return Failed(Failure(defs.error, key));
      }
      ChildrenAsked(input, within, key, claim);
      for i := 0 to |defs.value|
        invariant Consistent(input, Now()) && OnlyClaims(old(Now()), Now()) && ClaimedAs(refs, key, name) && Bounded()
        invariant DefsClaimed(input, refs, open + {key}) && ChildrenClaimed(refs, key, claim.raw, i)
      {
        ghost var before := Now();
        ChildSmaller(input, key, i);
        var child := Claim(source, ChildRef(key, defs.value[i].key).ref, open + {key});
        OnlyClaimsTwice(old(Now()), before, Now());
        if child.Failed? {
          return Failed(child.failure);
        }
        NextChildClaimed(before, Now(), key, claim.raw, i, name);
      }
      AllChildrenClaimed(input, refs, key, open);
      return Done(name);
    }

    /** `_compile` */
    method Compile(key: Reference, ghost universe: set<Reference>, ghost left: set<Reference>) returns (r: Result<Label>)
      requires Ready(key.source, universe, left) && key in universe && key in within
      modifies this
      ensures Grown(old(Now()), Now()) && compiling == old(compiling) && old(compiled) <= compiled && Bounded()
      ensures match r
              case Done(name) => Valid() && key in Known() && ClaimedAs(refs, key, name)
              case Failed(f) => Consistent(input, Now()) && Refuses(f)
      decreases left, 0
    {
      hide Settling, Consistent, Justified, Grown, OnlyClaims, DefsClaimed, Whole, Meaning, Rewritten, Finished, RawOf, Closed;
      SettlingParts(input, Now(), compiled, compiling);
      r := Claim(key.source, key.ref, {});
      OnlyGrows(old(Now()), Now());
      if r.Failed? {
        return;
      }
      ClaimSettles(input, old(Now()), Now(), compiled, compiling);
      if key in compiling || key in compiled {
        return;
      }
      var name := r.value;
      ghost var start := Now();
      CompilingOpens(input, start, compiled, compiling, key, universe, within);
      compiling := compiling + {key};
      var raw := RawOf(input, key);
      var rewritten := Rewrite(raw, DeclarationPlace(key), key, universe, left - {key});
      compiling := compiling - {key};
      ghost var now, open := Now(), compiling + {key};
      GrownTwice(old(Now()), start, now);
      ModelKept(start, now, key);
      if rewritten.Failed? {
        CompileStops(input, now, key, rewritten.failure);
        return Failed(rewritten.failure);
      }
      assert Now() == now;
      r := Store(key, name, rewritten.value, open);
      GrownTwice(old(Now()), now, Now());
    }

    // The second half of `_compile`: the rewritten schema becomes that of the model, unless they disagree.
    method Store(key: Reference, name: Label, plain: Value, ghost open: set<Reference>) returns (r: Result<Label>)
      requires Settling(input, Now(), compiled, open) && key in open && compiling == open - {key}
      requires ClaimedAs(refs, key, name) && Bounded()
      requires Rewritten(refs, compiled + open, RawOf(input, key), DeclarationPlace(key)) == Ok(plain)
      modifies this`models, this`compiled
      ensures Grown(old(Now()), Now()) && old(compiled) <= compiled && Bounded()
      ensures match r
              case Done(n) => n == name && Valid() && key in Known()
              case Failed(f) => Consistent(input, Now()) && Refuses(f)
    {
      hide Settling, Consistent, Justified, Grown, DefsClaimed, Meaning, Rewritten, Finished, RawOf, CompiledAs, Closed;
      SettlingParts(input, Now(), compiled, open);
      NamedModel(input, Now(), key);
      GrownNothing(Now());
      var identity := names[name];
      var model := models[identity];
      var finished := Finished(Ok(plain), model.problem, name);
      CompileEnds(input, Now(), compiled, open, key, plain);
      if finished.Fails? {
        CompileWrong(input, Now(), key, finished.error);
        return Failed(Failure(finished.error, key));
      }
      var schema := finished.value;
      TitledSome(Ok(plain), model.problem, name);
      if model.schema != EMPTY && Meaning(model.schema, false) != Meaning(schema, false) {
        CompileDisagrees(input, Now(), compiled, open, key, schema);
        return Failed(Failure(Incompatible, key));
      }
      Compiles(input, Now(), compiled, open, key, schema);
      models := models[identity := model.(schema := schema)];
      assert Now() == WithSchema(old(Now()), key, schema);
      compiled := compiled + {key};
      return Done(name);
    }

    /** `_rewrite`; `owner` is the schema that a failure is reported for. */
    method Rewrite(v: Value, at: Place, owner: Reference, ghost universe: set<Reference>, ghost left: set<Reference>)
        returns (r: Result<Value>)
      requires Ready(at.source, universe, left) && Met(v, at, false) <= universe
      requires AllWithin(Met(v, at, true), within)
      modifies this
      ensures Grown(old(Now()), Now()) && compiling == old(compiling) && old(compiled) <= compiled && Bounded()
      ensures match r
              case Done(u) => Valid() && Rewritten(refs, Known(), v, at) == Ok(u)
              case Failed(f) =>
                && Consistent(input, Now())
                && (Refuses(f) || (f.key == owner && Rewritten(refs, refs.Keys, v, at) == Fails(f.error)))
      decreases left, 1, v, 0
    {
      hide Settling, Consistent, Justified, Grown, OnlyClaims, DefsClaimed, Whole, Meaning, Closed;
      GrownNothing(Now());
      SettlingParts(input, Now(), compiled, compiling);
      match v {
        case Array(items) =>
          var rewritten := RewriteItems(items, at, owner, universe, left);
          return if rewritten.Done? then Done(Array(rewritten.value)) else Failed(rewritten.failure);
        case Object(members) =>
          if Replaced(v, at) {
            var name := Claim(at.source, at.address, {});
            OnlyGrows(old(Now()), Now());
            if name.Failed? {
              return Failed(name.failure);
            }
            ClaimSettles(input, old(Now()), Now(), compiled, compiling);
            return Done(Object([Member("$ref", Naming(name.value))]));
          }
          var rewritten := RewriteMembers(members, Scoped(at, v), owner, universe, left);
          return if rewritten.Done? then Done(Object(rewritten.value)) else Failed(rewritten.failure);
        case _ => return Done(v);
      }
    }

    method RewriteItems(
        items: seq<Value>, at: Place, owner: Reference, ghost universe: set<Reference>, ghost left: set<Reference>)
        returns (r: Result<seq<Value>>)
      requires Ready(at.source, universe, left) && MetItems(items, at, false) <= universe
      requires AllWithin(MetItems(items, at, true), within)
      modifies this
      ensures Grown(old(Now()), Now()) && compiling == old(compiling) && old(compiled) <= compiled && Bounded()
      ensures match r
              case Done(u) => Valid() && RewrittenItems(refs, Known(), items, at) == Ok(u)
              case Failed(f) =>
                && Consistent(input, Now())
                && (Refuses(f) || (f.key == owner && RewrittenItems(refs, refs.Keys, items, at) == Fails(f.error)))
      decreases left, 1, items, 0
    {
      hide Settling, Consistent, Justified, Grown, OnlyClaims, DefsClaimed, Whole, Meaning, Closed;
      GrownNothing(Now());
      var result := [];
      for i := 0 to |items|
        invariant Grown(old(Now()), Now()) && compiling == old(compiling) && old(compiled) <= compiled && Valid() && Bounded()
        invariant RewrittenItems(refs, Known(), items[..i], at) == Ok(result)
      {
        ghost var before, known := Now(), Known();
        MetItemsAt(items, at, i, false);
        MetItemsAt(items, at, i, true);
        KnownClaimed(input, before, compiled, compiling);
        var item := Rewrite(items[i], ItemPlace(at, i), owner, universe, left);
        GrownTwice(old(Now()), before, Now());
        GrownRefs(before, Now());
        if item.Failed? {
          ItemsStop(before.refs, known, refs, items, at, i);
          return Failed(item.failure);
        }
        ItemsMore(before.refs, known, refs, Known(), items[..i], at);
        assert items[..i + 1][..i] == items[..i];
        result := result + [item.value];
      }
      assert items[..|items|] == items;
      return Done(result);
    }

    method RewriteMembers(
        members: seq<Member>, at: Place, owner: Reference, ghost universe: set<Reference>, ghost left: set<Reference>)
        returns (r: Result<seq<Member>>)
      requires Ready(at.source, universe, left) && MetMembers(members, at, false) <= universe
      requires AllWithin(MetMembers(members, at, true), within)
      modifies this
      ensures Grown(old(Now()), Now()) && compiling == old(compiling) && old(compiled) <= compiled && Bounded()
      ensures match r
              case Done(u) => Valid() && RewrittenMembers(refs, Known(), members, at) == Ok(u)
              case Failed(f) =>
                && Consistent(input, Now())
                && (Refuses(f) || (f.key == owner && RewrittenMembers(refs, refs.Keys, members, at) == Fails(f.error)))
      decreases left, 1, members, 0
    {
      hide Settling, Consistent, Justified, Grown, OnlyClaims, DefsClaimed, Whole, Meaning, Closed;
      GrownNothing(Now());
      var result := [];
      for i := 0 to |members|
        invariant Grown(old(Now()), Now()) && compiling == old(compiling) && old(compiled) <= compiled && Valid() && Bounded()
        invariant RewrittenMembers(refs, Known(), members[..i], at) == Ok(result)
      {
        ghost var before, known := Now(), Known();
        MetMembersAt(members, at, i, false);
        MetMembersAt(members, at, i, true);
        KnownClaimed(input, before, compiled, compiling);
        var member := RewriteMember(members[i], at, owner, universe, left);
        GrownTwice(old(Now()), before, Now());
        GrownRefs(before, Now());
        if member.Failed? {
          MembersStop(before.refs, known, refs, members, at, i);
          return Failed(member.failure);
        }
        MembersMore(before.refs, known, refs, Known(), members[..i], at);
        assert members[..i + 1][..i] == members[..i];
        result := result + member.value;
      }
      assert members[..|members|] == members;
      return Done(result);
    }

    method RewriteMember(
        m: Member, at: Place, owner: Reference, ghost universe: set<Reference>, ghost left: set<Reference>)
        returns (r: Result<seq<Member>>)
      requires Ready(at.source, universe, left) && MetMember(m, at, false) <= universe
      requires AllWithin(MetMember(m, at, true), within)
      modifies this
      ensures Grown(old(Now()), Now()) && compiling == old(compiling) && old(compiled) <= compiled && Bounded()
      ensures match r
              case Done(u) => Valid() && RewrittenMember(refs, Known(), m, at) == Ok(u)
              case Failed(f) =>
                && Consistent(input, Now())
                && (Refuses(f) || (f.key == owner && RewrittenMember(refs, refs.Keys, m, at) == Fails(f.error)))
      decreases left, 1, m, 0
    {
      hide Settling, Consistent, Justified, Grown, OnlyClaims, DefsClaimed, Whole, Meaning, Rewritten, RewrittenRef, Closed;
      GrownNothing(Now());
      SettlingParts(input, Now(), compiled, compiling);
      var item;
      if !at.container && m.key == "$ref" {
        item := RewriteReference(m.value, at, owner, universe, left);
      } else if !at.container && Skipped(m.key) {
        item := Done(m.value);
      } else if at.container || (m.key != "$defs" && m.key != "$id") {
        item := Rewrite(m.value, MemberPlace(at, m.key), owner, universe, left);
      } else {
        return Done([]);
      }
      return if item.Done? then Done([Member(m.key, item.value)]) else Failed(item.failure);
    }

    method RewriteReference(
        item: Value, at: Place, owner: Reference, ghost universe: set<Reference>, ghost left: set<Reference>)
        returns (r: Result<Value>)
      requires Ready(at.source, universe, left)
      requires Target(item, at.scope).Ok? && Target(item, at.scope).value.Some? ==>
                 var key := Reference(at.source, Target(item, at.scope).value.value); key in universe && key in within
      modifies this
      ensures Grown(old(Now()), Now()) && compiling == old(compiling) && old(compiled) <= compiled && Bounded()
      ensures match r
              case Done(u) => Valid() && RewrittenRef(refs, Known(), item, at) == Ok(u)
              case Failed(f) =>
                && Consistent(input, Now())
                && (Refuses(f) || (f.key == owner && RewrittenRef(refs, refs.Keys, item, at) == Fails(f.error)))
      decreases left, 1, item, 0
    {
      hide Settling, Consistent, Justified, Grown, OnlyClaims, DefsClaimed, Whole, Meaning, Target, Closed;
      GrownNothing(Now());
      SettlingParts(input, Now(), compiled, compiling);
      var target := Target(item, at.scope);
      if target.Fails? {
        return Failed(Failure(target.error, owner));
      }
      if target.value.None? {
        return Done(item);
      }
      var name := Compile(Reference(at.source, target.value.value), universe, left);
      return if name.Done? then Done(Naming(name.value)) else Failed(name.failure);
    }

    // Claims references in any order.
    method ClaimAll(keys: set<Reference>) returns (r: Option<Failure>)
      requires Valid() && Bounded() && AllWithin(keys, within) && forall key :: key in keys ==> input.Has(key.source)
      modifies this`models, this`names, this`refs
      ensures OnlyClaims(old(Now()), Now()) && Bounded()
      ensures match r
              case None => Valid() && keys <= refs.Keys
              case Some(f) => Consistent(input, Now()) && Refuses(f)
    {
      hide Settling, Consistent, Justified, OnlyClaims, DefsClaimed, Closed;
      OnlyClaimsNothing(Now());
      var todo := keys;
      while todo != {}
        invariant Valid() && Bounded() && OnlyClaims(old(Now()), Now()) && todo <= keys && keys - todo <= refs.Keys
      {
        var key :| key in todo;
        ghost var before := Now();
        SettlingParts(input, before, compiled, compiling);
        var name := Claim(key.source, key.ref, {});
        OnlyClaimsTwice(old(Now()), before, Now());
        if name.Failed? {
          return Some(name.failure);
        }
        ClaimSettles(input, before, Now(), compiled, compiling);
        OnlyGrows(before, Now());
        GrownRefs(before, Now());
        todo := todo - {key};
      }
      return None;
    }

    // Compiles references of one source in any order.
    method CompileAll(source: string, keys: set<Reference>) returns (r: Option<Failure>)
      requires Valid() && Bounded() && AllWithin(keys, within)
      requires compiling == {} && input.Has(source) && forall key :: key in keys ==> key.source == source
      modifies this
      ensures Grown(old(Now()), Now()) && compiling == {} && old(compiled) <= compiled && Bounded()
      ensures match r
              case None => Valid() && keys <= compiled
              case Some(f) => Consistent(input, Now()) && Refuses(f)
    {
      hide Settling, Consistent, Justified, Grown, DefsClaimed, Whole, Closed;
      GrownNothing(Now());
      var todo := keys;
      while todo != {}
        invariant Valid() && Bounded() && Grown(old(Now()), Now()) && compiling == {} && old(compiled) <= compiled
        invariant todo <= keys && keys - todo <= compiled
      {
        var key :| key in todo;
        ghost var before := Now();
        ghost var universe := UniverseExists(input.documents[source], source, {key});
        var name := Compile(key, universe, universe);
        GrownTwice(old(Now()), before, Now());
        if name.Failed? {
          return Some(name.failure);
        }
        todo := todo - {key};
      }
      return None;
    }

    /** `add_sources` for a registry without models; sources and schemas are taken in any order where the
        program takes them by name. */
    method AddSources(sources: seq<string>) returns (r: Option<Failure>)
      requires Valid() && Bounded() && compiling == {}
      requires forall s :: s in sources ==> input.Has(s) && AllWithin(Starts(input, s), within)
      modifies this
      ensures compiling == {} && Bounded()
      ensures match r
              case None => Valid() && forall s :: s in sources ==> Starts(input, s) <= compiled
              case Some(f) =>
                && Consistent(input, Now())
                && (Refuses(f) || (input.Has(f.key.source) && Section(input, f.key.source) == Fails(f.error)))
    {
      hide Settling, Consistent, Justified, OnlyClaims, Grown, Section, InlineProblems, Closed;
      SettlingParts(input, Now(), compiled, compiling);
      for i := 0 to |sources|
        invariant Valid() && Bounded() && compiling == {}
        invariant forall j :: 0 <= j < i ==> Starts(input, sources[j]) <= refs.Keys
      {
        var source := sources[i];
        var section := Section(input, source);
        SettlingParts(input, Now(), compiled, compiling);
        if section.Fails? {
          return Some(Failure(section.error, Reference(source, "#")));
        }
        ghost var before := Now();
        r := ClaimAll(set ref | ref in section.value :: Reference(source, ref));
        OnlyGrows(before, Now());
        GrownRefs(before, Now());
        if r.Some? {
          return;
        }
        ghost var between := Now();
        r := ClaimAll(set ref | ref in InlineProblems(input.documents[source], "#") :: Reference(source, ref));
        OnlyGrows(between, Now());
        GrownRefs(between, Now());
        if r.Some? {
          return;
        }
      }
      for i := 0 to |sources|
        invariant Valid() && Bounded() && compiling == {}
        invariant forall j :: 0 <= j < |sources| ==> Starts(input, sources[j]) <= refs.Keys
        invariant forall j :: 0 <= j < i ==> Starts(input, sources[j]) <= compiled
      {
        ghost var before := Now();
        r := CompileAll(sources[i], set key | key in refs && key.source == sources[i]);
        GrownRefs(before, Now());
        if r.Some? {
          return;
        }
      }
      return None;
    }

    // The models reachable from `start` by references, found with a worklist.
    method Close(start: set<Label>) returns (r: Option<map<Label, Value>>)
      requires Consistent(input, Now())
      ensures match r
              case Some(found) => ClosedOver(Now(), start, found)
              case None => exists name :: Reached(Now(), start, name) && name !in names
    {
      hide Reached, RefsNamed, ModelsNamed, RequestsKept;
      ghost var all := start + set m, name | m in names && name in Children(Now(), m) :: name;
      var seen, queue := start, start;
      forall name | name in start ensures Reached(Now(), start, name) { ReachedFirst(Now(), start, name); }
      while queue != {}
        invariant start <= seen <= all && queue <= seen && seen - queue <= names.Keys
        invariant forall name :: name in seen ==> Reached(Now(), start, name)
        invariant forall m :: m in seen - queue ==> Children(Now(), m) <= seen
        decreases all - seen, queue
      {
        var name :| name in queue;
        queue := queue - {name};
        if name !in names {
          return None;
        }
        var children := Children(Now(), name);
        forall child | child in children ensures Reached(Now(), start, child) {
          ReachedNext(Now(), start, name, child);
        }
        queue := queue + (children - seen);
        seen := seen + children;
      }
      var found := map name | name in seen && name in names :: SchemaOf(Now(), name);
      assert found.Keys == seen;
      assert forall name :: name in found ==> Collected(found[name]) == Children(Now(), name);
      return Some(found);
    }

    /** `document`; `plain` is the document with its references renamed, and `found` the definitions it needs. */
    method Document(source: string) returns (r: Result<Value>, ghost plain: Value, ghost found: map<Label, Value>)
      requires Valid() && Bounded() && compiling == {} && input.Has(source)
      requires Stripped(input, source).Ok? ==> AllWithin(Met(Stripped(input, source).value, TopPlace(source), true), within)
      modifies this
      ensures Grown(old(Now()), Now()) && compiling == {} && old(compiled) <= compiled && Bounded()
      ensures match r
              case Done(whole) =>
                && Valid() && Stripped(input, source).Ok?
                && Rewritten(refs, compiled, Stripped(input, source).value, TopPlace(source)) == Ok(plain)
                && ClosedOver(Now(), OwnNames(Now(), source), found)
                && Puts(input.configs[source].rtc, plain, found, whole)
                && Resolves(input.configs[source].rtc, whole, found, found.Keys)
                && !CopiedUnknown(Now(), OwnNames(Now(), source))
              case Failed(f) =>
                && Consistent(input, Now())
                && (|| Refuses(f)
                    || Stripped(input, source) == Fails(f.error)
                    || (Stripped(input, source).Ok?
                        && Rewritten(refs, refs.Keys, Stripped(input, source).value, TopPlace(source)) == Fails(f.error))
                    || (f.error == UnknownModel && CopiedUnknown(Now(), OwnNames(Now(), source))))
    {
      hide Settling, Consistent, Justified, Grown, Whole, Met, Rewritten, Stripped, Reached, Closed, Resolves, Assembled;
      GrownNothing(Now());
      SettlingParts(input, Now(), compiled, compiling);
      plain, found := Null, map[];
      var stripped := Stripped(input, source);
      if stripped.Fails? {
        return Failed(Failure(stripped.error, Reference(source, "#"))), plain, found;
      }
      var raw := stripped.value;
      MetSource(raw, TopPlace(source));
      ghost var universe := UniverseExists(input.documents[source], source, Met(raw, TopPlace(source), false));
      var document := Rewrite(raw, TopPlace(source), Reference(source, "#"), universe, universe);
      if document.Failed? {
        return Failed(document.failure), plain, found;
      }
      plain := document.value;
      UnknownExactly(input, Now(), compiled, source);
      hide CopiedUnknown;
      SettlingParts(input, Now(), compiled, {});
      var own := OwnNames(Now(), source);
      var closed := Close(own);
      if closed.None? {
        return Failed(Failure(UnknownModel, Reference(source, "#"))), plain, found;
      }
      found := closed.value;
      var definitions := ListDefinitions(closed.value);
      assert Known() == compiled;
      DocumentCloses(input, Now(), compiled, source, plain, found, definitions);
      var whole := Assembled(input.configs[source].rtc, document.value, definitions);
      return Done(whole.value), plain, found;
    }
  }

  /** Between calls, references with one identity have one name and one meaning, whichever was compiled first,
      and whatever a compiled schema refers to is compiled. */
  lemma SettledMeaning(input: Input, t: Tables, compiled: set<Reference>, a: Reference, b: Reference)
    requires Settling(input, t, compiled, {}) && a in compiled && b in compiled
    ensures Agrees(input, t, compiled, a) && Agrees(input, t, compiled, b) && Head(input, a).Ok? && Head(input, b).Ok?
    ensures t.refs[a] == t.refs[b] <==> Head(input, a).value.identity == Head(input, b).value.identity
    ensures t.refs[a] == t.refs[b] ==>
              Meaning(CompiledAs(input, t, compiled, a).value, false) == Meaning(CompiledAs(input, t, compiled, b).value, false)
    ensures Met(RawOf(input, a), DeclarationPlace(a), false) <= compiled
  {
    hide Consistent, DefsClaimed, Founded, Head, CompiledAs, Met, Meaning, RawOf;
    assert compiled + {} == compiled;
    assert Agrees(input, t, compiled, a) && Agrees(input, t, compiled, b);
    NamedModel(input, t, a);
    NamedModel(input, t, b);
    SameNameSameIdentity(input, t, a, b);
    CompilesTo(input, t, compiled, a);
    MetDone(t.refs, compiled, RawOf(input, a), DeclarationPlace(a));
  }

  // ----- what a source declares

  // Where the schemas of a source are, and the references to them.
  function Section(input: Input, source: string): Outcome<seq<string>>
    requires input.Has(source)
  {
    var document := input.documents[source];
    if input.configs[source].rtc then Keys(Get(document, "definitions"), DEFINITIONS)
    else
      match Get(document, "components")
      case None => Ok([])
      case Some(Object(members)) => Keys(Find(members, "schemas"), MODELS)
      case _ => Fails(Malformed)
  }

  function Keys(schemas: Option<Value>, root: string): Outcome<seq<string>> {
    match schemas
    case None => Ok([])
    case Some(Object(members)) => Ok(seq(|members|, i requires 0 <= i < |members| => root + Escape(members[i].key)))
    case Some(Array(items)) => if items == [] then Ok([]) else Fails(Malformed)
    case Some(Text(text)) => if text == "" then Ok([]) else Fails(Malformed)
    case _ => Fails(Malformed)
  }

  // The references that a source's own declarations make: its schemas and its problem schemas.
  function Starts(input: Input, source: string): set<Reference>
    requires input.Has(source)
  {
    (set ref | Section(input, source).Ok? && ref in Section(input, source).value :: Reference(source, ref))
    + set ref | ref in InlineProblems(input.documents[source], "#") :: Reference(source, ref)
  }

  // The document without its own schemas.
  function Stripped(input: Input, source: string): Outcome<Value>
    requires input.Has(source)
  {
    match input.documents[source]
    case Object(members) =>
      if input.configs[source].rtc then Ok(Object(Without(members, "definitions")))
      else
        (match Find(members, "components")
         case None => Ok(Object(members))
         case Some(Object(components)) => Ok(Object(Put(members, "components", Object(Without(components, "schemas")))))
         case _ => Fails(Malformed))
    case _ => Fails(Malformed)
  }

  function TopPlace(source: string): Place {
    Place(source, None, "#", false, false)
  }

  lemma MetSource(v: Value, at: Place)
    ensures forall key :: key in Met(v, at, false) ==> key.source == at.source
  {
    forall key | key in Met(v, at, false) ensures key.source == at.source { MetHere(v, at, false, key); }
  }

  // ----- the definitions of a document

  ghost predicate HasSchema(t: Tables, name: Label) {
    name in t.names && t.names[name] in t.models
  }

  function SchemaOf(t: Tables, name: Label): Value
    requires HasSchema(t, name)
  {
    t.models[t.names[name]].schema
  }

  function Children(t: Tables, name: Label): set<Label> {
    if name in t.names && t.names[name] in t.models then Collected(t.models[t.names[name]].schema) else {}
  }

  // `name` is at most `n` references away from `start`.
  ghost predicate Within(t: Tables, start: set<Label>, n: nat, name: Label) {
    name in start || (n > 0 && exists m :: Within(t, start, n - 1, m) && name in Children(t, m))
  }

  ghost predicate Reached(t: Tables, start: set<Label>, name: Label) {
    exists n: nat :: Within(t, start, n, name)
  }

  lemma ReachedFirst(t: Tables, start: set<Label>, name: Label)
    requires name in start
    ensures Reached(t, start, name)
  {
    assert Within(t, start, 0, name);
  }

  lemma ReachedNext(t: Tables, start: set<Label>, m: Label, name: Label)
    requires Reached(t, start, m) && name in Children(t, m)
    ensures Reached(t, start, name)
  {
    var n: nat :| Within(t, start, n, m);
    assert Within(t, start, n + 1, name);
  }

  lemma {:induction false} WithinFound(t: Tables, start: set<Label>, found: map<Label, Value>, n: nat, name: Label)
    requires ClosedOver(t, start, found) && Within(t, start, n, name)
    ensures name in found
  {
    if name !in start {
      var m :| Within(t, start, n - 1, m) && name in Children(t, m);
      WithinFound(t, start, found, n - 1, m);
    }
  }

  /** The definitions of a document are exactly those reachable from its source's names, and all of them are
      known: with an unknown one the document cannot be assembled. */
  lemma ReachedExactly(t: Tables, start: set<Label>, found: map<Label, Value>, name: Label)
    requires ClosedOver(t, start, found)
    ensures name in found <==> Reached(t, start, name)
    ensures Reached(t, start, name) ==> HasSchema(t, name)
  {
    if Reached(t, start, name) {
      var n: nat :| Within(t, start, n, name);
      WithinFound(t, start, found, n, name);
    }
  }

  // A definition that is needed copies the name of a model that does not exist.
  ghost predicate CopiesUnknown(t: Tables, name: Label, child: Label) {
    && HasSchema(t, name) && child !in t.names
    && child in Collected(SchemaOf(t, name)) && child !in SchemaReferences(SchemaOf(t, name), false)
  }

  ghost predicate CopiedUnknown(t: Tables, start: set<Label>) {
    exists name, child :: Reached(t, start, name) && CopiesUnknown(t, name, child)
  }

  // A claimed reference of the name copies `child` from a default or an example, or has it as a property name.
  ghost predicate CopiesFor(input: Input, t: Tables, name: Label, child: Label) {
    exists key :: key in t.refs && t.refs[key] == name && child in Copied(RawOf(input, key), false)
  }

  lemma MetOwned(t: Tables, v: Value, at: Place)
    ensures NamesOf(t, Met(v, at, true)) <= OwnNames(t, at.source)
  {
    forall key | key in Met(v, at, true) ensures key.source == at.source { MetHere(v, at, true, key); }
    hide Met;
  }

  lemma OwnKnown(input: Input, t: Tables, source: string)
    requires Consistent(input, t)
    ensures OwnNames(t, source) <= t.names.Keys
  {
    hide Head, ModelsNamed, RequestsKept;
  }

  lemma GivenReferences(root: string, input: Input, t: Tables, done: set<Reference>, key: Reference, all: bool)
    requires Consistent(input, t) && key in t.refs && input.Has(key.source) && HasModel(t, key)
    requires CompiledAs(input, t, done, key).Ok? && Rooted(root, all)
    ensures References(root, CompiledAs(input, t, done, key).value, false, all)
            <= Placed(root, t, Met(RawOf(input, key), DeclarationPlace(key), true)) + CopiedIf(RawOf(input, key), false, all)
  {
    NamedModel(input, t, key);
    CompilesTo(input, t, done, key);
    hide Consistent, RawOf, CompiledAs, References, Rewritten, CopiedIf, Met;
    var raw := RawOf(input, key);
    RewrittenReferences(root, t, done, raw, DeclarationPlace(key), all);
    var plain := Rewritten(t.refs, done, raw, DeclarationPlace(key)).value;
    FinishedReferences(root, plain, ModelOf(t, key).problem, t.refs[key], all);
  }

  // A model that has a schema got it from a compiled reference of its name.
  lemma SchemaFrom(input: Input, t: Tables, compiled: set<Reference>, name: Label) returns (key: Reference)
    requires Settling(input, t, compiled, {}) && HasSchema(t, name) && SchemaOf(t, name) != EMPTY
    ensures key in compiled && key in t.refs && t.refs[key] == name && input.Has(key.source) && HasModel(t, key)
    ensures CompiledAs(input, t, compiled, key) == Ok(SchemaOf(t, name))
  {
    hide Agreeing, DefsClaimed, CompiledAs, RefsNamed, ModelsNamed, RequestsKept;
    assert compiled + {} == compiled;
    var id := t.names[name];
    assert Given(input, t, compiled, compiled, id);
    key :| key in compiled && Gives(input, t, compiled, key, id);
    assert t.models[id].name == name == t.refs[key];
  }

  lemma EmptyReferences()
    ensures forall root, all :: References(root, EMPTY, false, all) == {}
  {
  }

  /** Where a schema may refer to another, the schema of a model only refers to models that exist. Whatever
      else it names was copied from a default or an example, or is the name of a property. */
  lemma ModelReferences(input: Input, t: Tables, compiled: set<Reference>, name: Label)
    requires Settling(input, t, compiled, {}) && HasSchema(t, name)
    ensures SchemaReferences(SchemaOf(t, name), false) <= t.names.Keys
    ensures References(DEFINITIONS, SchemaOf(t, name), false, false) == {}
    ensures forall child :: child in Collected(SchemaOf(t, name)) && child !in t.names ==> CopiesFor(input, t, name, child)
  {
    hide Settling, Consistent, References, Copied, RawOf, CompiledAs;
    var schema := SchemaOf(t, name);
    if schema == EMPTY {
      EmptyReferences();
    } else {
      SettlingParts(input, t, compiled, {});
      var key := SchemaFrom(input, t, compiled, name);
      GivenReferences(MODELS, input, t, compiled, key, false);
      GivenReferences(MODELS, input, t, compiled, key, true);
      GivenReferences(DEFINITIONS, input, t, compiled, key, false);
      MetOwned(t, RawOf(input, key), DeclarationPlace(key));
      OwnKnown(input, t, key.source);
      hide Met;
    }
  }

  lemma {:induction false} UnknownCopied(
      input: Input, t: Tables, compiled: set<Reference>, source: string, n: nat, name: Label)
    requires Settling(input, t, compiled, {}) && Within(t, OwnNames(t, source), n, name) && name !in t.names
    ensures CopiedUnknown(t, OwnNames(t, source))
  {
    SettlingParts(input, t, compiled, {});
    OwnKnown(input, t, source);
    var m :| Within(t, OwnNames(t, source), n - 1, m) && name in Children(t, m);
    ModelReferences(input, t, compiled, m);
    assert Reached(t, OwnNames(t, source), m) && CopiesUnknown(t, m, name);
  }

  /** Assembly meets an unknown model exactly when a definition that is needed copies the name of one. */
  lemma UnknownExactly(input: Input, t: Tables, compiled: set<Reference>, source: string)
    requires Settling(input, t, compiled, {})
    ensures (exists name :: Reached(t, OwnNames(t, source), name) && name !in t.names) <==>
            CopiedUnknown(t, OwnNames(t, source))
  {
    hide Settling, Children, CopiedUnknown;
    var start := OwnNames(t, source);
    if name :| Reached(t, start, name) && name !in t.names {
      var n: nat :| Within(t, start, n, name);
      UnknownCopied(input, t, compiled, source, n, name);
    }
    if CopiedUnknown(t, start) {
      CopiedReached(t, start);
    }
  }

  lemma NoneUnknown(t: Tables, start: set<Label>, found: map<Label, Value>)
    requires ClosedOver(t, start, found)
    ensures !CopiedUnknown(t, start)
  {
    if CopiedUnknown(t, start) {
      CopiedReached(t, start);
      var name :| Reached(t, start, name) && name !in t.names;
      ReachedExactly(t, start, found, name);
    }
  }

  lemma CopiedReached(t: Tables, start: set<Label>)
    requires CopiedUnknown(t, start)
    ensures exists name :: Reached(t, start, name) && name !in t.names
  {
    var name, child :| Reached(t, start, name) && CopiesUnknown(t, name, child);
    ReachedNext(t, start, name, child);
  }

  /** A registry whose documents name no model in defaults and examples never meets an unknown one. */
  lemma NeverUnknown(input: Input, t: Tables, compiled: set<Reference>, start: set<Label>)
    requires Settling(input, t, compiled, {})
    requires forall s :: s in input.documents ==> CopyFree(input.documents[s])
    ensures !CopiedUnknown(t, start)
  {
    if name, child :| Reached(t, start, name) && CopiesUnknown(t, name, child) {
      ModelReferences(input, t, compiled, name);
      var key :| key in t.refs && t.refs[key] == name && child in Copied(RawOf(input, key), false);
      RawCopiesNothing(input, key);
      assert false;
    }
  }

  lemma RawCopiesNothing(input: Input, key: Reference)
    requires forall s :: s in input.documents ==> CopyFree(input.documents[s])
    ensures Copied(RawOf(input, key), false) == {}
  {
    if input.Has(key.source) && Pointer(input.documents[key.source], key.ref).Some? {
      CopyFreeBelow(input.documents[key.source], Names(key.ref));
      CopiesNothing(RawOf(input, key), false);
    }
  }

  // `found` holds the definitions reachable from `start`, and nothing else.
  ghost predicate ClosedOver(t: Tables, start: set<Label>, found: map<Label, Value>) {
    && start <= found.Keys
    && (forall name :: name in found ==> HasSchema(t, name) && found[name] == SchemaOf(t, name))
    && (forall name :: name in found ==> Collected(found[name]) <= found.Keys)
    && (forall name :: name in found ==> Reached(t, start, name))
  }

  // The document with the definitions found, in some order.
  ghost predicate Puts(rtc: bool, document: Value, found: map<Label, Value>, whole: Value) {
    exists definitions :: Lists(definitions, found) && Assembled(rtc, document, definitions) == Ok(whole)
  }

  lemma NamesLike(input: Input, t: Tables)
    requires Consistent(input, t)
    ensures forall name :: name in t.names ==> NameLike(name.text)
  {
    hide Head, FreshName, RequestsKept, NameLike;
    forall name | name in t.names ensures NameLike(name.text) {
      var m := t.models[t.names[name]];
      FreshLike(m.origin, Head(input, m.origin).value);
    }
  }

  lemma {:induction false} FindAppend(members: seq<Member>, m: Member, key: string)
    ensures Find(members + [m], key) ==
            if Find(members, key).Some? then Find(members, key) else if m.key == key then Some(m.value) else None
  {
    if members == [] {
      assert [] + [m] == [m] && [m][1..] == [];
    } else {
      assert (members + [m])[1..] == members[1..] + [m];
      FindAppend(members[1..], m, key);
    }
  }

  predicate Ordinary(key: string) {
    key != "$ref" && key != "$defs" && key != "$id" && !Skipped(key)
  }

  lemma OneRewritten(refs: Refs, done: set<Reference>, m: Member, at: Place)
    requires RewrittenMember(refs, done, m, at).Ok? && !at.container
    ensures var r := RewrittenMember(refs, done, m, at).value;
            && (|r| == 0 || (|r| == 1 && r[0].key == m.key))
            && (Ordinary(m.key) ==> |r| == 1 && Rewritten(refs, done, m.value, MemberPlace(at, m.key)) == Ok(r[0].value))
  {
    hide Rewritten, RewrittenRef, MemberPlace;
  }

  // Rewriting keeps members where they are.
  lemma {:induction false} RewrittenFind(refs: Refs, done: set<Reference>, members: seq<Member>, at: Place, key: string)
    requires RewrittenMembers(refs, done, members, at).Ok? && !at.container && Ordinary(key)
    ensures var r := Find(RewrittenMembers(refs, done, members, at).value, key);
            match Find(members, key)
            case None => r.None?
            case Some(v) => r.Some? && Rewritten(refs, done, v, MemberPlace(at, key)) == Ok(r.value)
  {
    if members != [] {
      var last := |members| - 1;
      var m := members[last];
      RewrittenFind(refs, done, members[..last], at, key);
      assert members == members[..last] + [m];
      FindAppend(members[..last], m, key);
      var before := RewrittenMembers(refs, done, members[..last], at).value;
      var next := RewrittenMember(refs, done, m, at).value;
      OneRewritten(refs, done, m, at);
      assert RewrittenMembers(refs, done, members, at).value == before + next;
      hide Find, Rewritten, RewrittenMembers, RewrittenMember, Ordinary, MemberPlace;
      if next == [] {
        assert before + next == before;
      } else {
        assert next == [next[0]];
        FindAppend(before, next[0], key);
      }
    }
  }

  lemma ObjectRewritten(refs: Refs, done: set<Reference>, members: seq<Member>, at: Place)
    requires Rewritten(refs, done, Object(members), at).Ok?
    ensures Rewritten(refs, done, Object(members), at).value.Object?
  {
    hide RewrittenMembers, Replaced;
  }

  lemma ReplacedHas(refs: Refs, done: set<Reference>, v: Value, at: Place, key: string)
    requires v.Object? && Replaced(v, at) && Rewritten(refs, done, v, at).Ok? && key != "$ref"
    ensures Get(Rewritten(refs, done, v, at).value, key).None?
  {
    hide Replaced, RewrittenMembers;
    var r := Rewritten(refs, done, v, at).value;
    assert r.members[1..] == [];
  }

  lemma InsideRewritten(refs: Refs, done: set<Reference>, members: seq<Member>, at: Place, key: string)
    requires RewrittenMembers(refs, done, members, at).Ok? && !at.container && Ordinary(key)
    requires ObjectAt(Object(members), key).Ok?
    ensures ObjectAt(Object(RewrittenMembers(refs, done, members, at).value), key).Ok?
  {
    RewrittenFind(refs, done, members, at, key);
    hide Rewritten, RewrittenMembers, Find, MemberPlace, Ordinary;
    match Find(members, key)
    case Some(Object(inner)) => ObjectRewritten(refs, done, inner, MemberPlace(at, key));
    case _ =>
  }

  // Rewriting a document leaves its components an object.
  lemma ComponentsRewritten(refs: Refs, done: set<Reference>, members: seq<Member>, at: Place)
    requires !at.container && Rewritten(refs, done, Object(members), at).Ok? && ObjectAt(Object(members), "components").Ok?
    ensures ObjectAt(Rewritten(refs, done, Object(members), at).value, "components").Ok?
  {
    hide RewrittenMembers, Replaced, Find;
    if Replaced(Object(members), at) {
      ReplacedHas(refs, done, Object(members), at, "components");
    } else {
      InsideRewritten(refs, done, members, Scoped(at, Object(members)), "components");
    }
  }

  lemma TopRewritten(input: Input, refs: Refs, done: set<Reference>, source: string, definitions: seq<Member>)
    requires input.Has(source) && Stripped(input, source).Ok?
    requires Rewritten(refs, done, Stripped(input, source).value, TopPlace(source)).Ok?
    ensures Assembled(input.configs[source].rtc, Rewritten(refs, done, Stripped(input, source).value, TopPlace(source)).value,
                      definitions).Ok?
  {
    hide Stripped, Rewritten, ObjectAt, Put, RtcRefs;
    var raw := Stripped(input, source).value;
    StrippedComponents(input, source);
    ObjectRewritten(refs, done, raw.members, TopPlace(source));
    if !input.configs[source].rtc { ComponentsRewritten(refs, done, raw.members, TopPlace(source)); }
  }

  // What is left of the components is an object.
  lemma StrippedComponents(input: Input, source: string)
    requires input.Has(source) && Stripped(input, source).Ok?
    ensures var raw := Stripped(input, source).value;
            raw.Object? && (!input.configs[source].rtc ==> ObjectAt(raw, "components").Ok?)
  {
    if !input.configs[source].rtc {
      var members := input.documents[source].members;
      match Find(members, "components")
      case Some(Object(components)) =>
        FindPut(members, "components", Object(Without(components, "schemas")), "components");
      case _ =>
    }
  }

  lemma FoundReferences(
      input: Input, t: Tables, compiled: set<Reference>, start: set<Label>, found: map<Label, Value>, name: Label)
    requires Settling(input, t, compiled, {}) && ClosedOver(t, start, found) && name in found
    ensures References(MODELS, found[name], false, false) <= found.Keys
    ensures References(DEFINITIONS, found[name], false, false) == {}
  {
    hide Settling, Reached, References;
    ModelReferences(input, t, compiled, name);
    AllCollected(found[name], false, false);
  }

  lemma DocumentSupported(
      input: Input, t: Tables, compiled: set<Reference>, source: string, plain: Value, found: map<Label, Value>)
    requires Settling(input, t, compiled, {}) && input.Has(source) && Stripped(input, source).Ok?
    requires Rewritten(t.refs, compiled, Stripped(input, source).value, TopPlace(source)) == Ok(plain)
    requires ClosedOver(t, OwnNames(t, source), found)
    ensures Supported(plain, found, found.Keys)
  {
    hide Settling, Consistent, Reached, References, Rewritten, Stripped, NameLike;
    SettlingParts(input, t, compiled, {});
    NamesLike(input, t);
    RewrittenReferences(MODELS, t, compiled, Stripped(input, source).value, TopPlace(source), false);
    RewrittenReferences(DEFINITIONS, t, compiled, Stripped(input, source).value, TopPlace(source), false);
    MetOwned(t, Stripped(input, source).value, TopPlace(source));
    hide Met;
    forall name | name in found
      ensures References(MODELS, found[name], false, false) <= found.Keys
      ensures References(DEFINITIONS, found[name], false, false) == {}
    {
      FoundReferences(input, t, compiled, OwnNames(t, source), found, name);
    }
  }

  lemma DocumentCloses(
      input: Input, t: Tables, compiled: set<Reference>, source: string, plain: Value, found: map<Label, Value>,
      definitions: seq<Member>)
    requires Settling(input, t, compiled, {}) && input.Has(source) && Stripped(input, source).Ok?
    requires Rewritten(t.refs, compiled, Stripped(input, source).value, TopPlace(source)) == Ok(plain)
    requires ClosedOver(t, OwnNames(t, source), found) && Lists(definitions, found)
    ensures !CopiedUnknown(t, OwnNames(t, source))
    ensures var whole := Assembled(input.configs[source].rtc, plain, definitions);
            whole.Ok? && Resolves(input.configs[source].rtc, whole.value, found, found.Keys)
  {
    hide Settling, ClosedOver, CopiedUnknown, Lists, Supported, Assembled, Resolves, Stripped, Rewritten;
    NoneUnknown(t, OwnNames(t, source), found);
    DocumentSupported(input, t, compiled, source, plain, found);
    TopRewritten(input, t.refs, compiled, source, definitions);
    var whole := Assembled(input.configs[source].rtc, plain, definitions).value;
    AssemblyResolves(input.configs[source].rtc, plain, definitions, found, whole, found.Keys);
  }

  lemma GrownRefs(t: Tables, next: Tables)
    requires Grown(t, next)
    ensures MoreRefs(t.refs, next.refs)
  {
  }

  lemma KnownClaimed(input: Input, t: Tables, compiled: set<Reference>, compiling: set<Reference>)
    requires Settling(input, t, compiled, compiling)
    ensures compiled + compiling <= t.refs.Keys
  {
    SettlingParts(input, t, compiled, compiling);
  }

  lemma {:induction false} MetItemsAt(items: seq<Value>, at: Place, i: nat, embedded: bool)
    requires i < |items|
    ensures Met(items[i], ItemPlace(at, i), embedded) <= MetItems(items, at, embedded)
  {
    if i < |items| - 1 { MetItemsAt(items[..|items| - 1], at, i, embedded); }
  }

  lemma {:induction false} MetMembersAt(members: seq<Member>, at: Place, i: nat, embedded: bool)
    requires i < |members|
    ensures MetMember(members[i], at, embedded) <= MetMembers(members, at, embedded)
  {
    if i < |members| - 1 { MetMembersAt(members[..|members| - 1], at, i, embedded); }
  }

  lemma {:induction false} ItemsFail(refs: Refs, done: set<Reference>, items: seq<Value>, at: Place, i: nat)
    requires i <= |items| && RewrittenItems(refs, done, items[..i], at).Fails?
    ensures RewrittenItems(refs, done, items, at) == RewrittenItems(refs, done, items[..i], at)
  {
    if i < |items| {
      assert items[..|items| - 1][..i] == items[..i];
      ItemsFail(refs, done, items[..|items| - 1], at, i);
    } else {
      assert items[..i] == items;
    }
  }

  lemma {:induction false} MembersFail(refs: Refs, done: set<Reference>, members: seq<Member>, at: Place, i: nat)
    requires i <= |members| && RewrittenMembers(refs, done, members[..i], at).Fails?
    ensures RewrittenMembers(refs, done, members, at) == RewrittenMembers(refs, done, members[..i], at)
  {
    if i < |members| {
      assert members[..|members| - 1][..i] == members[..i];
      MembersFail(refs, done, members[..|members| - 1], at, i);
    } else {
      assert members[..i] == members;
    }
  }

  lemma ItemsStop(before: Refs, known: set<Reference>, refs: Refs, items: seq<Value>, at: Place, i: nat)
    requires MoreRefs(before, refs) && known <= before.Keys && i < |items|
    requires RewrittenItems(before, known, items[..i], at).Ok?
    ensures var item := Rewritten(refs, refs.Keys, items[i], ItemPlace(at, i));
            item.Fails? ==> RewrittenItems(refs, refs.Keys, items, at) == Fails(item.error)
  {
    ItemsMore(before, known, refs, refs.Keys, items[..i], at);
    assert items[..i + 1][..i] == items[..i];
    if Rewritten(refs, refs.Keys, items[i], ItemPlace(at, i)).Fails? { ItemsFail(refs, refs.Keys, items, at, i + 1); }
  }

  lemma MembersStop(before: Refs, known: set<Reference>, refs: Refs, members: seq<Member>, at: Place, i: nat)
    requires MoreRefs(before, refs) && known <= before.Keys && i < |members|
    requires RewrittenMembers(before, known, members[..i], at).Ok?
    ensures var member := RewrittenMember(refs, refs.Keys, members[i], at);
            member.Fails? ==> RewrittenMembers(refs, refs.Keys, members, at) == Fails(member.error)
  {
    MembersMore(before, known, refs, refs.Keys, members[..i], at);
    assert members[..i + 1][..i] == members[..i];
    if RewrittenMember(refs, refs.Keys, members[i], at).Fails? { MembersFail(refs, refs.Keys, members, at, i + 1); }
  }

  lemma SettlingParts(input: Input, t: Tables, compiled: set<Reference>, compiling: set<Reference>)
    requires Settling(input, t, compiled, compiling)
    ensures Consistent(input, t) && DefsClaimed(input, t.refs, {}) && compiled + compiling <= t.refs.Keys
  {
    hide Consistent, DefsClaimed, Founded, CompiledAs, Meaning;
    forall key | key in compiled ensures key in t.refs { assert Agrees(input, t, compiled + compiling, key); }
  }

  lemma GrownNothing(t: Tables)
    ensures Grown(t, t)
  {
    OnlyClaimsNothing(t);
  }

  lemma OnlyGrows(t: Tables, next: Tables)
    requires OnlyClaims(t, next)
    ensures Grown(t, next)
  {
  }

  lemma ClaimSettles(input: Input, t: Tables, next: Tables, compiled: set<Reference>, compiling: set<Reference>)
    requires Settling(input, t, compiled, compiling) && OnlyClaims(t, next)
    requires Consistent(input, next) && DefsClaimed(input, next.refs, {})
    ensures Settling(input, next, compiled, compiling)
  {
    hide Consistent, DefsClaimed, Agreeing, Founded, Evolved;
    OnlyGrows(t, next);
    AgreeingLater(input, t, next, compiled, compiled + compiling, compiled + compiling);
    FoundedLater(input, t, next, compiled, compiled + compiling, compiled + compiling);
  }

  // A claimed reference whose compiling begins.
  lemma CompilingOpens(
      input: Input, t: Tables, compiled: set<Reference>, compiling: set<Reference>, key: Reference,
      universe: set<Reference>, within: iset<Reference>)
    requires Settling(input, t, compiled, compiling) && key in t.refs && key in universe && key in within
    requires input.Has(key.source) && Whole(input.documents[key.source], key.source, universe) && Closed(input, within)
    ensures Settling(input, t, compiled, compiling + {key}) && HasModel(t, key)
    ensures Met(RawOf(input, key), DeclarationPlace(key), false) <= universe
    ensures AllWithin(Met(RawOf(input, key), DeclarationPlace(key), true), within)
  {
    hide Settling, Consistent, Closed, Whole, RawOf, AllWithin, Met;
    SettlingParts(input, t, compiled, compiling);
    NamedModel(input, t, key);
    MetInside(input, t, key, universe);
    MetAsked(input, t, within, key);
    CompilingSettles(input, t, compiled, compiling, key);
  }

  lemma CompilingSettles(input: Input, t: Tables, compiled: set<Reference>, compiling: set<Reference>, key: Reference)
    requires Settling(input, t, compiled, compiling) && key in t.refs
    ensures Settling(input, t, compiled, compiling + {key})
  {
    hide Consistent, DefsClaimed, Agreeing, Founded, Evolved;
    var done := compiled + compiling;
    OnlyClaimsNothing(t);
    OnlyGrows(t, t);
    AgreeingLater(input, t, t, compiled, done, compiled + (compiling + {key}));
    FoundedLater(input, t, t, compiled, done, compiled + (compiling + {key}));
  }

  lemma NamedModel(input: Input, t: Tables, key: Reference)
    requires Consistent(input, t) && key in t.refs
    ensures HasModel(t, key) && input.Has(key.source) && Head(input, key).Ok?
    ensures Pointer(input.documents[key.source], key.ref) == Some(RawOf(input, key))
  {
    hide ModelsNamed, RequestsKept, Head;
    HeadRaw(input, key);
  }

  lemma ChildrenAsked(input: Input, within: iset<Reference>, key: Reference, claim: Claim)
    requires Closed(input, within) && key in within && input.Has(key.source) && Head(input, key) == Ok(claim)
    ensures ChildrenWithin(key, claim.raw, within)
  {
    HeadRaw(input, key);
    hide Head, Met, Defs, RawOf;
  }

  lemma MetAsked(input: Input, t: Tables, within: iset<Reference>, key: Reference)
    requires Consistent(input, t) && key in t.refs && key in within && Closed(input, within)
    ensures AllWithin(Met(RawOf(input, key), DeclarationPlace(key), true), within)
  {
    NamedModel(input, t, key);
    hide Consistent, Head, Met, Defs, RawOf;
  }

  lemma MetInside(input: Input, t: Tables, key: Reference, universe: set<Reference>)
    requires Consistent(input, t) && key in t.refs && key in universe
    requires input.Has(key.source) && Whole(input.documents[key.source], key.source, universe)
    ensures Met(RawOf(input, key), DeclarationPlace(key), false) <= universe
  {
    NamedModel(input, t, key);
    hide Consistent, Head, Met;
  }

  lemma ModelKept(t: Tables, next: Tables, key: Reference)
    requires Grown(t, next) && HasModel(t, key)
    ensures HasModel(next, key) && next.refs[key] == t.refs[key] && next.names[next.refs[key]] == t.names[t.refs[key]]
  {
    hide Evolved;
  }

  // Compiling a reference is finishing what its schema is rewritten to.
  lemma CompilesTo(input: Input, t: Tables, done: set<Reference>, key: Reference)
    requires input.Has(key.source) && HasModel(t, key)
    requires Pointer(input.documents[key.source], key.ref) == Some(RawOf(input, key))
    ensures CompiledAs(input, t, done, key) ==
            Finished(Rewritten(t.refs, done, RawOf(input, key), DeclarationPlace(key)), ModelOf(t, key).problem, t.refs[key])
  {
    hide RawOf, Rewritten, Finished;
  }

  lemma CompileRefused(input: Input, t: Tables, f: Failure)
    requires input.Has(f.key.source) && CompileFails(input, t, f)
    ensures Justified(input, t, f)
  {
    hide CompileFails, ClaimFails;
  }

  lemma CompileStops(input: Input, t: Tables, key: Reference, f: Failure)
    requires Consistent(input, t) && key in t.refs
    requires Justified(input, t, f)
             || (f.key == key && Rewritten(t.refs, t.refs.Keys, RawOf(input, key), DeclarationPlace(key)) == Fails(f.error))
    ensures Justified(input, t, f)
  {
    hide Consistent, Justified, Rewritten, Head, RawOf, CompiledAs, Meaning;
    if !Justified(input, t, f) {
      NamedModel(input, t, key);
      CompilesTo(input, t, t.refs.Keys, key);
      CompileRefused(input, t, f);
    }
  }

  // What compiling arrives at is the schema that the reference is compiled as.
  lemma CompileEnds(
      input: Input, t: Tables, compiled: set<Reference>, compiling: set<Reference>, key: Reference, plain: Value)
    requires Settling(input, t, compiled, compiling) && key in compiling
    requires Rewritten(t.refs, compiled + compiling, RawOf(input, key), DeclarationPlace(key)) == Ok(plain)
    ensures HasModel(t, key) && input.Has(key.source)
    ensures var schema := Finished(Ok(plain), ModelOf(t, key).problem, t.refs[key]);
            && CompiledAs(input, t, compiled + compiling, key) == schema
            && CompiledAs(input, t, t.refs.Keys, key) == schema
  {
    hide Settling, Consistent, DefsClaimed, Rewritten, Head, RawOf, Finished, CompiledAs;
    SettlingParts(input, t, compiled, compiling);
    NamedModel(input, t, key);
    CompilesTo(input, t, compiled + compiling, key);
    CompilesTo(input, t, t.refs.Keys, key);
    RewrittenMore(t.refs, compiled + compiling, t.refs, t.refs.Keys, RawOf(input, key), DeclarationPlace(key));
  }

  lemma CompileWrong(input: Input, t: Tables, key: Reference, error: Error)
    requires HasModel(t, key) && input.Has(key.source) && CompiledAs(input, t, t.refs.Keys, key) == Fails(error)
    ensures Justified(input, t, Failure(error, key))
  {
    hide CompiledAs, Justified;
    CompileRefused(input, t, Failure(error, key));
  }

  // The model has a schema of another meaning, and that is the schema of another reference.
  lemma CompileDisagrees(
      input: Input, t: Tables, compiled: set<Reference>, open: set<Reference>, key: Reference, schema: Value)
    requires Settling(input, t, compiled, open) && HasModel(t, key) && input.Has(key.source)
    requires CompiledAs(input, t, t.refs.Keys, key) == Ok(schema)
    requires ModelOf(t, key).schema != EMPTY && Meaning(ModelOf(t, key).schema, false) != Meaning(schema, false)
    ensures Justified(input, t, Failure(Incompatible, key))
  {
    hide Agreeing, Meaning, DefsClaimed, CompiledAs, Justified, RefsNamed, ModelsNamed, RequestsKept;
    SettlingParts(input, t, compiled, open);
    var id := t.names[t.refs[key]];
    assert Given(input, t, compiled, compiled + open, id);
    var other :| other in compiled && Gives(input, t, compiled + open, other, id);
    SchemaStays(input, t, compiled + open, other);
    assert t.refs[other] == t.models[id].name == t.refs[key];
    assert Disagree(input, t, t.refs.Keys, other, key);
    CompileRefused(input, t, Failure(Incompatible, key));
  }

  lemma SchemaStays(input: Input, t: Tables, done: set<Reference>, key: Reference)
    requires input.Has(key.source) && HasModel(t, key) && done <= t.refs.Keys && CompiledAs(input, t, done, key).Ok?
    ensures CompiledAs(input, t, t.refs.Keys, key) == CompiledAs(input, t, done, key)
  {
    CompiledMore(input, t.refs, done, t.refs, t.refs.Keys, ModelOf(t, key).problem, key);
  }

  function WithSchema(t: Tables, key: Reference, schema: Value): Tables
    requires HasModel(t, key)
  {
    t.(models := t.models[t.names[t.refs[key]] := ModelOf(t, key).(schema := schema)])
  }

  lemma TitledSome(r: Outcome<Value>, problem: bool, name: Label)
    requires Finished(r, problem, name).Ok?
    ensures Finished(r, problem, name).value != EMPTY
  {
    hide ProblemSchema;
  }

  lemma WithSchemaGrows(t: Tables, key: Reference, schema: Value)
    requires HasModel(t, key) && schema != EMPTY
    requires var m := ModelOf(t, key); m.schema != EMPTY ==> Meaning(m.schema, false) == Meaning(schema, false)
    ensures Grown(t, WithSchema(t, key, schema))
  {
    hide Meaning;
  }

  lemma WithSchemaNamed(input: Input, t: Tables, key: Reference, schema: Value)
    requires HasModel(t, key) && OneToOne(t) && RefsNamed(input, t)
    ensures OneToOne(WithSchema(t, key, schema)) && RefsNamed(input, WithSchema(t, key, schema))
  {
    hide Head;
  }

  lemma WithSchemaModels(input: Input, t: Tables, key: Reference, schema: Value)
    requires HasModel(t, key) && ModelsNamed(input, t)
    ensures ModelsNamed(input, WithSchema(t, key, schema))
  {
    hide Head, FreshName;
  }

  lemma WithSchemaRequests(input: Input, t: Tables, key: Reference, schema: Value)
    requires HasModel(t, key) && RequestsKept(input, t)
    ensures RequestsKept(input, WithSchema(t, key, schema))
  {
    hide Head, Pascal, Truthy;
  }

  lemma WithSchemaConsistent(input: Input, t: Tables, key: Reference, schema: Value)
    requires HasModel(t, key) && Consistent(input, t)
    ensures Consistent(input, WithSchema(t, key, schema))
  {
    hide OneToOne, RefsNamed, ModelsNamed, RequestsKept, WithSchema;
    WithSchemaNamed(input, t, key, schema);
    WithSchemaModels(input, t, key, schema);
    WithSchemaRequests(input, t, key, schema);
  }

  /** Compiling settles one more reference: its model has its meaning, and models keep theirs. */
  lemma Compiles(
      input: Input, t: Tables, compiled: set<Reference>, compiling: set<Reference>, key: Reference, schema: Value)
    requires Settling(input, t, compiled, compiling) && key in compiling
    requires HasModel(t, key) && input.Has(key.source) && schema != EMPTY
    requires CompiledAs(input, t, compiled + compiling, key) == Ok(schema)
    requires var m := ModelOf(t, key); m.schema != EMPTY ==> Meaning(m.schema, false) == Meaning(schema, false)
    ensures Settling(input, WithSchema(t, key, schema), compiled + {key}, compiling - {key})
    ensures Grown(t, WithSchema(t, key, schema))
  {
    hide Consistent, DefsClaimed, Agreeing, Founded, Evolved, CompiledAs, Meaning;
    var next := WithSchema(t, key, schema);
    var done := compiled + compiling;
    WithSchemaGrows(t, key, schema);
    WithSchemaConsistent(input, t, key, schema);
    assert compiled + {key} + (compiling - {key}) == done;
    CompiledAgrees(input, t, compiled, done, key, schema);
    CompiledFounded(input, t, compiled, done, key, schema);
  }

  lemma CompiledAgrees(
      input: Input, t: Tables, compiled: set<Reference>, done: set<Reference>, key: Reference, schema: Value)
    requires Agreeing(input, t, compiled, done) && HasModel(t, key) && input.Has(key.source) && schema != EMPTY
    requires CompiledAs(input, t, done, key) == Ok(schema) && Grown(t, WithSchema(t, key, schema))
    ensures Agreeing(input, WithSchema(t, key, schema), compiled + {key}, done)
  {
    AgreeingLater(input, t, WithSchema(t, key, schema), compiled, done, done);
    hide Grown, Meaning, Compiled;
    assert Agrees(input, WithSchema(t, key, schema), done, key);
  }

  lemma CompiledFounded(
      input: Input, t: Tables, compiled: set<Reference>, done: set<Reference>, key: Reference, schema: Value)
    requires Founded(input, t, compiled, done) && HasModel(t, key) && input.Has(key.source)
    requires CompiledAs(input, t, done, key) == Ok(schema) && Grown(t, WithSchema(t, key, schema))
    ensures Founded(input, WithSchema(t, key, schema), compiled + {key}, done)
  {
    var next := WithSchema(t, key, schema);
    hide Meaning, Compiled;
    forall id | id in next.models && next.models[id].schema != EMPTY ensures Given(input, next, compiled + {key}, done, id) {
      if id == t.names[t.refs[key]] {
        assert Gives(input, next, done, key, id);
      } else {
        assert Given(input, t, compiled, done, id);
        var other :| other in compiled && Gives(input, t, done, other, id);
        GivesLater(input, t, next, done, done, other, id);
      }
    }
  }

  ghost predicate ClaimedAs(refs: Refs, key: Reference, name: Label) {
    key in refs && refs[key] == name
  }

  lemma OnlyClaimsNothing(t: Tables)
    ensures OnlyClaims(t, t)
  {
  }

  lemma ClaimRefused(input: Input, t: Tables, key: Reference, error: Error)
    requires input.Has(key.source)
    requires match Head(input, key)
             case Fails(e) => e == error
             case Ok(claim) =>
               if key in t.refs then Defs(claim.raw) == Fails(error) else PublicName(t, key, claim) == Fails(error)
    ensures Justified(input, t, Failure(error, key))
  {
    hide PublicName, Defs, CompileFails;
  }

  lemma HeadRaw(input: Input, key: Reference)
    requires input.Has(key.source) && Head(input, key).Ok?
    ensures Pointer(input.documents[key.source], key.ref) == Some(RawOf(input, key))
    ensures Head(input, key).value.raw == RawOf(input, key)
  {
  }

  // A claim under way has none of its children claimed yet, as far as is known.
  lemma Registering(input: Input, t: Tables, key: Reference, claim: Claim, name: Label, open: set<Reference>)
    requires input.Has(key.source) && Head(input, key) == Ok(claim) && key !in t.refs && DefsClaimed(input, t.refs, open)
    ensures Pointer(input.documents[key.source], key.ref) == Some(claim.raw) && claim.raw == RawOf(input, key)
    ensures DefsClaimed(input, Registered(t, key, claim, name).refs, open + {key})
    ensures Defs(claim.raw).Ok? ==> ChildrenClaimed(Registered(t, key, claim, name).refs, key, claim.raw, 0)
  {
    HeadRaw(input, key);
    hide Head, Defs, RawOf;
  }

  lemma NextChildClaimed(before: Tables, now: Tables, key: Reference, raw: Value, i: nat, name: Label)
    requires OnlyClaims(before, now) && ChildrenClaimed(before.refs, key, raw, i) && ClaimedAs(before.refs, key, name)
    requires i < |Defs(raw).value| && ChildRef(key, Defs(raw).value[i].key) in now.refs
    ensures ChildrenClaimed(now.refs, key, raw, i + 1) && ClaimedAs(now.refs, key, name)
  {
    hide Defs;
  }

  lemma AllChildrenClaimed(input: Input, refs: Refs, key: Reference, open: set<Reference>)
    requires DefsClaimed(input, refs, open + {key})
    requires Defs(RawOf(input, key)).Ok? && ChildrenClaimed(refs, key, RawOf(input, key), |Defs(RawOf(input, key)).value|)
    ensures DefsClaimed(input, refs, open)
  {
    hide Defs, RawOf;
  }

  lemma OnlyClaimsTwice(a: Tables, b: Tables, c: Tables)
    requires OnlyClaims(a, b) && OnlyClaims(b, c)
    ensures OnlyClaims(a, c)
  {
    GrownTwice(a, b, c);
  }

  lemma {:induction false} FollowFurther(v: Value, names: seq<string>, more: seq<string>)
    ensures Follow(v, names + more) == match Follow(v, names) case None => None case Some(u) => Follow(u, more)
  {
    if names == [] {
      assert [] + more == more;
    } else {
      assert (names + more)[1..] == names[1..] + more;
      if Descend(v, names[0]).Some? { FollowFurther(Descend(v, names[0]).value, names[1..], more); }
    }
  }

  lemma DefsSpelled(base: string, end: string)
    ensures base + "/" + "$defs" + "/" + end == base + DEFS + end
  {
    assert "/" + "$defs" + "/" == DEFS;
    assert base + "/" + "$defs" + "/" == base + DEFS;
  }

  lemma SplitTwo(base: string, middle: string, end: string)
    requires '/' !in middle && '/' !in end
    ensures Split(base + "/" + middle + "/" + end) == Split(base) + [middle, end]
  {
    SplitAppend(base, middle);
    SplitAppend(base + "/" + middle, end);
    assert Split(base) + [middle] + [end] == Split(base) + [middle, end];
  }

  lemma ChildNames(key: Reference, name: string)
    ensures |key.ref| >= 2 ==> Names(ChildRef(key, name).ref) == Names(key.ref) + ["$defs", Escape(name)]
  {
    Unescaped(name);
    hide Split, Escape, DEFS;
    if |key.ref| >= 2 {
      var base, end := key.ref[2..], Escape(name);
      SplitTwo(base, "$defs", end);
      DefsSpelled(base, end);
      assert key.ref == key.ref[..2] + base;
      assert (key.ref + DEFS + end)[2..] == base + DEFS + end;
    }
  }

  // A schema's own definitions lie inside it.
  lemma ChildSmaller(input: Input, key: Reference, i: nat)
    requires input.Has(key.source) && Pointer(input.documents[key.source], key.ref).Some?
    requires Defs(RawOf(input, key)).Ok? && i < |Defs(RawOf(input, key)).value|
    ensures var child := ChildRef(key, Defs(RawOf(input, key)).value[i].key);
            |child.ref| >= 2 && (|key.ref| >= 2 ==> RawOf(input, child) < RawOf(input, key))
  {
    var raw := RawOf(input, key);
    var name := Defs(raw).value[i].key;
    if |key.ref| >= 2 {
      ChildNames(key, name);
      FollowFurther(input.documents[key.source], Names(key.ref), ["$defs", Escape(name)]);
      DefFollowed(raw, name);
    }
  }

  lemma DefFollowed(raw: Value, name: string)
    requires Defs(raw).Ok? && exists m :: m in Defs(raw).value && m.key == name
    ensures var child := Follow(raw, ["$defs", Escape(name)]); child.Some? && child.value < raw
  {
    DefBelow(raw, name);
    Unescaped(name);
    PlainName();
    hide Escape, Unescape;
    FollowTwo(raw, Object(Defs(raw).value), "$defs", Escape(name));
  }

  lemma PlainName()
    ensures Unescape("$defs") == "$defs"
  {
    hide Unescape;
    PlainUnescaped("$defs");
  }

  lemma FollowTwo(v: Value, inner: Value, a: string, b: string)
    requires Descend(v, a) == Some(inner)
    ensures Follow(v, [a, b]) == Descend(inner, b)
  {
    var two, one := [a, b], [b];
    assert two[0] == a && two[1..] == one && one[1..] == [];
    assert Follow(v, two) == Follow(inner, one);
    if Descend(inner, b).Some? { assert Follow(Descend(inner, b).value, one[1..]) == Descend(inner, b); }
  }

  lemma DefBelow(raw: Value, name: string)
    requires Defs(raw).Ok? && exists m :: m in Defs(raw).value && m.key == name
    ensures Get(raw, "$defs").Some? && Get(raw, "$defs").value.Object?
    ensures Find(Defs(raw).value, name).Some? && Find(Defs(raw).value, name).value < raw
  {
    var members := Defs(raw).value;
    var child := Find(members, name).value;
    var i :| 0 <= i < |members| && members[i] == Member(name, child);
    var j :| 0 <= j < |raw.members| && raw.members[j] == Member("$defs", Object(members));
    assert child < members[i] && members[i] < Object(members) && raw.members[j].value < raw;
  }
}
