/**
 Selecting operations and pruning models before planning, `fastapi_canon/codegen/selection.py`.
 */
module Selection {
  import opened Wrappers
  import opened Json
  import opened Pointers

  // ----- selecting operations from the lists of an RPC or session contract

  datatype Id = Id(text: string)

  datatype Operation = Operation(id: Id, body: Value)

  datatype Failure = DuplicateIds | UnknownIds | IncludedAndExcluded | NothingLeft

  datatype Choice = Choice(included: Option<set<Id>>, excluded: set<Id>, configured: set<Id>)

  function Ids(groups: seq<seq<Operation>>): seq<Id> {
    if groups == [] then [] else GroupIds(groups[0]) + Ids(groups[1..])
  }

  function GroupIds(group: seq<Operation>): (r: seq<Id>)
    ensures |r| == |group| && forall i :: 0 <= i < |group| ==> r[i] == group[i].id
  {
    seq(|group|, i requires 0 <= i < |group| => group[i].id)
  }

  predicate Unique(ids: seq<Id>) {
    forall i, j :: 0 <= i < j < |ids| ==> ids[i] != ids[j]
  }

  function Kept(choice: Choice, known: set<Id>): set<Id> {
    (if choice.included.Some? then choice.included.value else known) - choice.excluded
  }

  // Nothing is selected: the contract is not even read.
  predicate Everything(choice: Choice) {
    choice.included.None? && choice.excluded == {}
  }

  // Why a selection is rejected, in the order of the checks.
  function Rejected(choice: Choice, groups: seq<seq<Operation>>): Option<Failure> {
    var ids := Ids(groups);
    var known := set id | id in ids;
    var wanted := if choice.included.Some? then choice.included.value else known;
    if Everything(choice) then None
    else if Id("") in ids || !Unique(ids) then Some(DuplicateIds)
    else if (wanted + choice.excluded + choice.configured) - known != {} then Some(UnknownIds)
    else if choice.included.Some? && wanted * choice.excluded != {} then Some(IncludedAndExcluded)
    else if Kept(choice, known) == {} then Some(NothingLeft)
    else None
  }

  // The operations whose IDs are kept, in order.
  function Filtered(group: seq<Operation>, keep: set<Id>): seq<Operation> {
    if group == [] then []
    else (if group[0].id in keep then [group[0]] else []) + Filtered(group[1..], keep)
  }

  // `list.remove`: the first element equal to `x`.
  function RemoveFirst(xs: seq<Operation>, x: Operation): seq<Operation> {
    if xs == [] then [] else if xs[0] == x then xs[1..] else [xs[0]] + RemoveFirst(xs[1..], x)
  }

  lemma {:induction false} RemoveAfter(xs: seq<Operation>, x: Operation, ys: seq<Operation>)
    requires x !in xs
    ensures RemoveFirst(xs + [x] + ys, x) == xs + ys
  {
    if xs == [] {
      assert [] + [x] + ys == [x] + ys && ([x] + ys)[1..] == ys;
    } else {
      assert (xs + [x] + ys)[1..] == xs[1..] + [x] + ys;
      RemoveAfter(xs[1..], x, ys);
      assert [xs[0]] + (xs[1..] + ys) == xs + ys;
    }
  }

  lemma {:induction false} FilteredMember(group: seq<Operation>, keep: set<Id>, x: Operation)
    ensures x in Filtered(group, keep) <==> x in group && x.id in keep
  {
    if group != [] { FilteredMember(group[1..], keep, x); }
  }

  lemma {:induction false} FilteredAppend(group: seq<Operation>, x: Operation, keep: set<Id>)
    ensures Filtered(group + [x], keep) == Filtered(group, keep) + if x.id in keep then [x] else []
  {
    if group == [] {
      assert [] + [x] == [x];
    } else {
      var rest := group[1..];
      FilteredAppend(rest, x, keep);
      assert group + [x] == [group[0]] + (rest + [x]);
      FilteredHead(group[0], rest, keep);
      FilteredHead(group[0], rest + [x], keep);
      assert [group[0]] + rest == group;
    }
  }

  lemma FilteredHead(x: Operation, rest: seq<Operation>, keep: set<Id>)
    ensures Filtered([x] + rest, keep) == (if x.id in keep then [x] else []) + Filtered(rest, keep)
  {
    assert ([x] + rest)[0] == x && ([x] + rest)[1..] == rest;
  }

  lemma NotYetSeen(group: seq<Operation>, i: nat)
    requires Unique(GroupIds(group)) && i < |group|
    ensures group[i] !in group[..i]
  {
    forall j | 0 <= j < i ensures group[j] != group[i] {
      assert GroupIds(group)[j] != GroupIds(group)[i];
    }
  }

  // The list after the first `i` operations have been decided.
  function Decided(group: seq<Operation>, keep: set<Id>, i: nat): seq<Operation>
    requires i <= |group|
  {
    Filtered(group[..i], keep) + group[i..]
  }

  lemma DecideNext(group: seq<Operation>, keep: set<Id>, i: nat)
    requires i < |group| && Unique(GroupIds(group))
    ensures Decided(group, keep, i + 1) ==
            if group[i].id in keep then Decided(group, keep, i) else RemoveFirst(Decided(group, keep, i), group[i])
  {
    var before, x, after := Filtered(group[..i], keep), group[i], group[i + 1..];
    assert group[..i + 1] == group[..i] + [x] && group[i..] == [x] + after;
    FilteredAppend(group[..i], x, keep);
    FilteredMember(group[..i], keep, x);
    NotYetSeen(group, i);
    RemoveAfter(before, x, after);
    assert before + ([x] + after) == before + [x] + after;
    assert before + [] == before;
  }

  /** Removing the unselected operations of one list by equality deletes exactly those IDs. */
  method Deselect(group: seq<Operation>, keep: set<Id>) returns (owner: seq<Operation>)
    requires Unique(GroupIds(group))
    ensures owner == Filtered(group, keep)
  {
    owner := group;
    assert Decided(group, keep, 0) == group;
    for i := 0 to |group|
      invariant owner == Decided(group, keep, i)
    {
      DecideNext(group, keep, i);
      if group[i].id !in keep {
        owner := RemoveFirst(owner, group[i]);
      }
    }
    assert group[..|group|] == group && group[|group|..] == [];
    assert Filtered(group, keep) + [] == Filtered(group, keep);
  }

  lemma UniqueParts(groups: seq<seq<Operation>>)
    requires groups != [] && Unique(Ids(groups))
    ensures Unique(GroupIds(groups[0])) && Unique(Ids(groups[1..]))
  {
    assert Ids(groups) == GroupIds(groups[0]) + Ids(groups[1..]);
    UniqueHalves(GroupIds(groups[0]), Ids(groups[1..]));
  }

  lemma UniqueHalves(first: seq<Id>, rest: seq<Id>)
    requires Unique(first + rest)
    ensures Unique(first) && Unique(rest)
  {
    var all := first + rest;
    forall i, j | 0 <= i < j < |first| ensures first[i] != first[j] {
      assert all[i] == first[i] && all[j] == first[j];
    }
    forall i, j | 0 <= i < j < |rest| ensures rest[i] != rest[j] {
      assert all[|first| + i] == rest[i] && all[|first| + j] == rest[j];
    }
  }

  function FilteredAll(groups: seq<seq<Operation>>, keep: set<Id>): seq<seq<Operation>> {
    if groups == [] then [] else [Filtered(groups[0], keep)] + FilteredAll(groups[1..], keep)
  }

  method DeselectAll(groups: seq<seq<Operation>>, keep: set<Id>) returns (r: seq<seq<Operation>>)
    requires Unique(Ids(groups))
    ensures r == FilteredAll(groups, keep)
  {
    if groups == [] {
      return [];
    }
    UniqueParts(groups);
    var first := Deselect(groups[0], keep);
    var rest := DeselectAll(groups[1..], keep);
    return [first] + rest;
  }

  function Chosen(choice: Choice, groups: seq<seq<Operation>>): seq<seq<Operation>> {
    if Everything(choice) then groups else FilteredAll(groups, Kept(choice, set id | id in Ids(groups)))
  }

  datatype Outcome = Selected(groups: seq<seq<Operation>>) | Failed(failure: Failure)

  /** `select_operations`, for contracts whose operations are listed */
  method SelectOperations(choice: Choice, groups: seq<seq<Operation>>) returns (r: Outcome)
    ensures match Rejected(choice, groups)
            case Some(failure) => r == Failed(failure)
            case None => r == Selected(Chosen(choice, groups))
  {
    if Everything(choice) {
      return Selected(groups);
    }
    var rejected := Rejected(choice, groups);
    if rejected.Some? {
      return Failed(rejected.value);
    }
    var known := set id | id in Ids(groups);
    var left := DeselectAll(groups, Kept(choice, known));
    return Selected(left);
  }

  lemma {:induction false} IdOf(groups: seq<seq<Operation>>, g: nat, x: Operation)
    requires g < |groups| && x in groups[g]
    ensures x.id in Ids(groups)
  {
    if g > 0 {
      IdOf(groups[1..], g - 1, x);
    } else {
      var i :| 0 <= i < |groups[0]| && groups[0][i] == x;
      assert GroupIds(groups[0])[i] == x.id;
    }
  }

  lemma {:induction false} FilteredAllAt(groups: seq<seq<Operation>>, keep: set<Id>, g: nat)
    requires g < |groups|
    ensures |FilteredAll(groups, keep)| == |groups| && FilteredAll(groups, keep)[g] == Filtered(groups[g], keep)
  {
    if g > 0 { FilteredAllAt(groups[1..], keep, g - 1); }
    else if |groups| > 1 { FilteredAllAt(groups[1..], keep, 0); }
  }

  /** An accepted selection keeps, in each list, exactly the operations that were asked for. */
  lemma SelectionExact(choice: Choice, groups: seq<seq<Operation>>, g: nat, x: Operation)
    requires Rejected(choice, groups).None? && g < |groups|
    ensures var r := Chosen(choice, groups);
            |r| == |groups| &&
            (x in r[g] <==>
               && x in groups[g]
               && (choice.included.Some? ==> x.id in choice.included.value)
               && x.id !in choice.excluded)
  {
    var keep := Kept(choice, set id | id in Ids(groups));
    FilteredAllAt(groups, keep, g);
    FilteredMember(groups[g], keep, x);
    if x in groups[g] { IdOf(groups, g, x); }
  }

  // ----- pruning models

  predicate Data(key: string) {
    key == "default" || key == "example" || key == "examples" || key == "const" || key == "enum"
  }

  // Keys whose members are named by the user, so no key below them has a meaning of its own.
  const CONTAINERS := {
    "components", "schemas", "definitions", "$defs", "properties", "patternProperties", "dependentSchemas", "paths",
    "responses", "parameters", "headers", "requestBodies", "callbacks", "pathItems", "links", "content", "encoding",
    "mapping" }

  // The model that a reference below `prefix` names.
  function Target(reference: string, prefix: string): string
    requires prefix <= reference
  {
    Unescape(Split(reference[|prefix|..])[0])
  }

  function OwnReference(members: seq<Member>, prefix: string): set<string> {
    match Find(members, "$ref")
    case Some(Text(reference)) => if prefix <= reference then {Target(reference, prefix)} else {}
    case _ => {}
  }

  /** `_references` */
  function References(v: Value, prefix: string, container: bool): set<string>
    decreases v, 0
  {
    match v
    case Array(items) => InItems(items, prefix)
    case Object(members) => OwnReference(members, prefix) + InMembers(members, prefix, container)
    case _ => {}
  }

  function InItems(items: seq<Value>, prefix: string): set<string>
    decreases items, 0
  {
    if items == [] then {} else References(items[0], prefix, false) + InItems(items[1..], prefix)
  }

  function InMembers(members: seq<Member>, prefix: string, container: bool): set<string>
    decreases members, 0
  {
    if members == [] then {}
    else
      (if container || !Data(members[0].key)
       then References(members[0].value, prefix, !container && members[0].key in CONTAINERS) else {})
      + InMembers(members[1..], prefix, container)
  }

  type Models = map<string, Value>

  // `name` is a model at most `n` references away from `roots`.
  ghost predicate Reachable(models: Models, roots: set<string>, prefix: string, n: nat, name: string) {
    && name in models
    && (|| name in roots
        || (n > 0 && exists m :: Reachable(models, roots, prefix, n - 1, m) && name in References(models[m], prefix, false)))
  }

  ghost predicate Closed(models: Models, roots: set<string>, prefix: string, keep: set<string>) {
    && (forall name :: name in roots && name in models ==> name in keep)
    && (forall m, name :: m in keep && m in models && name in References(models[m], prefix, false) && name in models ==>
          name in keep)
  }

  ghost predicate Reached(models: Models, roots: set<string>, prefix: string, name: string) {
    exists n: nat :: Reachable(models, roots, prefix, n, name)
  }

  ghost predicate Justified(models: Models, roots: set<string>, prefix: string, keep: set<string>) {
    forall name :: name in keep ==> Reached(models, roots, prefix, name)
  }

  lemma ReachedStep(models: Models, roots: set<string>, prefix: string, m: string, name: string)
    requires Reached(models, roots, prefix, m) && m in models
    requires name in models && name in References(models[m], prefix, false)
    ensures Reached(models, roots, prefix, name)
  {
    var n: nat :| Reachable(models, roots, prefix, n, m);
    assert Reachable(models, roots, prefix, n + 1, name);
  }

  lemma ReachedRoot(models: Models, roots: set<string>, prefix: string, name: string)
    requires name in roots && name in models
    ensures Reached(models, roots, prefix, name)
  {
    assert Reachable(models, roots, prefix, 0, name);
  }

  /** `_prune_models`: the models reachable from the rest of the document, found with a worklist. */
  method PruneModels(rest: Value, models: Models, prefix: string) returns (kept: Models)
    ensures kept.Keys <= models.Keys && forall name :: name in kept ==> kept[name] == models[name]
    ensures Closed(models, References(rest, prefix, false), prefix, kept.Keys)
    ensures Justified(models, References(rest, prefix, false), prefix, kept.Keys)
  {
    var roots := References(rest, prefix, false);
    var pending := roots;
    var keep: set<string> := {};
    forall name | name in roots * models.Keys ensures Reached(models, roots, prefix, name) {
      ReachedRoot(models, roots, prefix, name);
    }
    while pending != {}
      invariant keep <= models.Keys
      invariant forall name :: name in keep || name in pending * models.Keys ==> Reached(models, roots, prefix, name)
      invariant roots * models.Keys <= keep + pending
      invariant forall m :: m in keep ==> References(models[m], prefix, false) * models.Keys <= keep + pending
      decreases models.Keys - keep, pending
    {
      var name :| name in pending;
      pending := pending - {name};
      if name !in keep && name in models {
        var found := References(models[name], prefix, false);
        forall other | other in found * models.Keys ensures Reached(models, roots, prefix, other) {
          ReachedStep(models, roots, prefix, name, other);
        }
        keep := keep + {name};
        pending := pending + found;
      }
    }
    kept := map name | name in keep && name in models :: models[name];
    assert kept.Keys == keep;
  }

  lemma {:induction false} ReachableKept(
      models: Models, roots: set<string>, prefix: string, keep: set<string>, n: nat, name: string)
    requires Closed(models, roots, prefix, keep) && Reachable(models, roots, prefix, n, name)
    ensures name in keep
  {
    if name !in roots {
      var m :| Reachable(models, roots, prefix, n - 1, m) && name in References(models[m], prefix, false);
      ReachableKept(models, roots, prefix, keep, n - 1, m);
    }
  }

  /** Pruning keeps exactly the reachable models, which is the least closed set: no closed set is smaller,
      and a reference that is left to an existing model leads to a kept one. */
  lemma PruningLeast(models: Models, roots: set<string>, prefix: string, keep: set<string>, other: set<string>)
    requires keep <= models.Keys && Closed(models, roots, prefix, keep) && Justified(models, roots, prefix, keep)
    requires Closed(models, roots, prefix, other)
    ensures keep <= other
    ensures forall name :: name in keep <==> Reached(models, roots, prefix, name)
  {
    forall name | Reached(models, roots, prefix, name) ensures name in other && name in keep {
      var n: nat :| Reachable(models, roots, prefix, n, name);
      ReachableKept(models, roots, prefix, other, n, name);
      ReachableKept(models, roots, prefix, keep, n, name);
    }
  }
}
