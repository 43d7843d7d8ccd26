/**
 How a document gets its definitions back, the end of `SchemaRegistry.document` in
 `fastapi_canon/codegen/schema.py`, and why its references then lead to them.
 */
module SchemaAssembly {
  import opened Wrappers
  import opened Json
  import opened Pointers
  import opened Schemas
  import opened SchemaNames
  import opened Spelling

  // ----- assembly

  // `text.replace("#/components/schemas/", "#/definitions/")`
  function Swapped(text: string): string {
    if text == "" then ""
    else if MODELS <= text then DEFINITIONS + Swapped(text[|MODELS|..])
    else [text[0]] + Swapped(text[1..])
  }

  /** `_rtc_refs` */
  function RtcRefs(v: Value): Value
    decreases v, 0
  {
    match v
    case Array(items) => Array(RtcItems(items))
    case Object(members) => Object(RtcMembers(members))
    case _ => v
  }

  function RtcItems(items: seq<Value>): (r: seq<Value>)
    ensures |r| == |items|
    decreases items, 0
  {
    if items == [] then [] else RtcItems(items[..|items| - 1]) + [RtcRefs(items[|items| - 1])]
  }

  function RtcMember(m: Member): Member
    decreases m, 0
  {
    Member(m.key, if m.key == "$ref" && m.value.Text? then Text(Swapped(m.value.text)) else RtcRefs(m.value))
  }

  function RtcMembers(members: seq<Member>): (r: seq<Member>)
    ensures |r| == |members|
    decreases members, 0
  {
    if members == [] then [] else RtcMembers(members[..|members| - 1]) + [RtcMember(members[|members| - 1])]
  }

  // The end of `document`.
  function Assembled(rtc: bool, document: Value, definitions: seq<Member>): Outcome<Value> {
    if !document.Object? then Fails(Malformed)
    else if rtc then Ok(RtcRefs(Object(Put(document.members, "definitions", RtcRefs(Object(definitions))))))
    else
      match ObjectAt(document, "components")
      case Fails(error) => Fails(error)
      case Ok(components) =>
        Ok(Object(Put(document.members, "components", Object(Put(components, "schemas", Object(definitions))))))
  }

  // `definitions` lists the schemas found, in any order.
  ghost predicate Lists(definitions: seq<Member>, found: map<Label, Value>) {
    && DistinctKeys(definitions)
    && (forall m :: m in definitions ==> Label(m.key) in found && found[Label(m.key)] == m.value)
    && (forall name :: name in found ==> Member(name.text, found[name]) in definitions)
  }

  method ListDefinitions(found: map<Label, Value>) returns (definitions: seq<Member>)
    ensures Lists(definitions, found)
  {
    definitions := [];
    var todo := found.Keys;
    while todo != {}
      invariant todo <= found.Keys && DistinctKeys(definitions)
      invariant forall m :: m in definitions ==> Label(m.key) in found.Keys - todo && found[Label(m.key)] == m.value
      invariant forall name :: name in found.Keys - todo ==> Member(name.text, found[name]) in definitions
    {
      var name :| name in todo;
      assert forall m :: m in definitions ==> m.key != name.text;
      definitions := definitions + [Member(name.text, found[name])];
      todo := todo - {name};
    }
  }

  // ----- names

  // What names of models look like.
  predicate NameLike(name: string) {
    (forall i :: 0 <= i < |name| ==> Alnum(name[i])) && (name != "" ==> !Lower(name[0]))
  }

  // Where a schema is looked for under its name, no other meaning is attached to it.
  lemma NameLikePlain(name: string)
    requires NameLike(name)
    ensures '/' !in name && '~' !in name && '#' !in name && name != "$ref"
    ensures !Skipped(name) && !Inside(false, name)
  {
    assert "$ref"[0] == '$' && PROPERTIES[0] == 'p' && "patternProperties"[0] == 'p';
    assert "default"[0] == 'd' && "example"[0] == 'e' && "examples"[0] == 'e';
  }

  lemma CapitalizedAlnum(w: string)
    requires WordLike(w)
    ensures forall i :: 0 <= i < |Capitalized(w)| ==> Alnum(Capitalized(w)[i])
  {
  }

  lemma {:induction false} AllAlnum(words: seq<string>)
    requires forall i :: 0 <= i < |words| ==> WordLike(words[i])
    ensures forall i :: 0 <= i < |CapitalizedAll(words)| ==> Alnum(CapitalizedAll(words)[i])
  {
    if words != [] {
      CapitalizedAlnum(words[0]);
      AllAlnum(words[1..]);
    }
  }

  lemma PascalLike(v: Value)
    requires Pascal(v).Ok?
    ensures NameLike(Pascal(v).value.text)
  {
    var words := Words(v.text);
    RunsAreWords(SplitHumps(SplitRuns(v.text)), "");
    AllAlnum(words[1..]);
    hide Words, CapitalizedAll;
    var camel := Camel(v.text).value;
    assert camel == LowerAll(words[0]) + CapitalizedAll(words[1..]);
    assert WordLike(words[0]);
    assert forall i :: 0 <= i < |camel| ==> Alnum(camel[i]);
  }

  lemma PrefixLike(name: string, n: nat)
    requires NameLike(name) && n <= |name|
    ensures NameLike(name[..n])
  {
  }

  lemma SuffixedLike(name: string)
    requires NameLike(name) && name != ""
    ensures NameLike(name + "Problem")
  {
    var end := "Problem";
    assert forall i :: 0 <= i < |end| ==> Alnum(end[i]);
  }

  lemma ProblemLike(name: string, problem: bool)
    requires NameLike(name)
    ensures var short := if problem && EndsWith(name, "Embedded") then name[..|name| - 8] else name;
            NameLike(if problem && EndsWith(short, "Error") then short + "Problem" else short)
  {
    hide NameLike;
    var short := if problem && EndsWith(name, "Embedded") then name[..|name| - 8] else name;
    PrefixLike(name, |short|);
    assert name[..|name|] == name;
    if problem && EndsWith(short, "Error") { SuffixedLike(short); }
  }

  lemma FreshLike(key: Reference, claim: Claim)
    requires FreshName(key, claim).Ok?
    ensures NameLike(FreshName(key, claim).value.text)
  {
    var base :=
      if Truthy(claim.requested) then claim.requested.value
      else if claim.identity != Identity(key.source + key.ref) && !Untitled(Title(claim).value) && Truthy(Title(claim).value)
      then Title(claim).value.value
      else Text(claim.last);
    PascalLike(base);
    ProblemLike(Pascal(base).value.text, claim.problem);
    hide Pascal, Title, NameLike, EndsWith, Untitled, Truthy;
  }

  // ----- references after renaming

  lemma {:induction false} SwappedStart(p: string, s: string)
    requires '#' !in p && p <= Swapped(s)
    ensures p <= s && Swapped(s) == p + Swapped(s[|p|..])
  {
    if p != "" {
      assert p[0] in p;
      assert p[1..] <= Swapped(s[1..]);
      SwappedStart(p[1..], s[1..]);
      assert s == [s[0]] + s[1..];
      assert s[1..][|p| - 1..] == s[|p|..];
      assert p == [p[0]] + p[1..];
    } else {
      assert s[0..] == s;
    }
  }

  lemma {:induction false} SwappedPlain(s: string)
    requires '#' !in s
    ensures Swapped(s) == s
  {
    if s != "" {
      SwappedPlain(s[1..]);
      assert s == [s[0]] + s[1..];
    }
  }

  // A text that starts with one of the roots after its first character.
  lemma SwappedRoot(root: string, text: string)
    requires !(MODELS <= text) && root != "" && '#' !in root[1..] && root <= Swapped(text)
    ensures root <= text && Swapped(text) == root + Swapped(text[|root|..])
  {
    var tail := root[1..];
    assert Swapped(text) == [text[0]] + Swapped(text[1..]);
    assert Swapped(text)[1..] == Swapped(text[1..]);
    SwappedStart(tail, text[1..]);
    assert root == [root[0]] + tail && text == [text[0]] + text[1..];
    assert text[1..][|tail|..] == text[|root|..];
    hide Swapped;
    calc {
      Swapped(text);
      [text[0]] + Swapped(text[1..]);
      [text[0]] + (tail + Swapped(text[|root|..]));
      ([text[0]] + tail) + Swapped(text[|root|..]);
    }
  }

  // A renamed reference is no longer one to a model.
  lemma SwappedAway(text: string)
    ensures !(MODELS <= Swapped(text))
  {
    if MODELS <= text {
      assert Swapped(text)[..|DEFINITIONS|] == DEFINITIONS;
      assert MODELS[2] == 'c' && DEFINITIONS[2] == 'd';
    } else if MODELS <= Swapped(text) {
      SwappedRoot(MODELS, text);
    }
  }

  // It is one to the definition that it named before, as a model or as a definition.
  lemma SwappedTo(text: string, name: string)
    requires DEFINITIONS <= Swapped(text) && Swapped(text)[|DEFINITIONS|..] == name
    requires MODELS <= text ==> '#' !in text[|MODELS|..]
    requires DEFINITIONS <= text ==> '#' !in text[|DEFINITIONS|..]
    ensures text == MODELS + name || text == DEFINITIONS + name
  {
    if MODELS <= text {
      SwappedPlain(text[|MODELS|..]);
    } else {
      SwappedRoot(DEFINITIONS, text);
      SwappedPlain(text[|DEFINITIONS|..]);
    }
  }

  ghost predicate HashFree(names: set<Label>) {
    forall name :: name in names ==> '#' !in name.text
  }

  function Both(v: Value, container: bool): set<Label> {
    References(MODELS, v, container, false) + References(DEFINITIONS, v, container, false)
  }

  lemma RtcNamed(v: Value)
    requires HashFree(Named(MODELS, v) + Named(DEFINITIONS, v)) && v.Text?
    ensures Named(MODELS, Text(Swapped(v.text))) == {}
    ensures Named(DEFINITIONS, Text(Swapped(v.text))) <= Named(MODELS, v) + Named(DEFINITIONS, v)
  {
    var text := v.text;
    SwappedAway(text);
    if MODELS <= text { assert Label(text[|MODELS|..]) in Named(MODELS, v); }
    if DEFINITIONS <= text { assert Label(text[|DEFINITIONS|..]) in Named(DEFINITIONS, v); }
    if DEFINITIONS <= Swapped(text) {
      var name := Swapped(text)[|DEFINITIONS|..];
      SwappedTo(text, name);
      assert (MODELS + name)[|MODELS|..] == name && (DEFINITIONS + name)[|DEFINITIONS|..] == name;
    }
  }

  /** Renaming turns every reference to a model into one to the definition of the same name. */
  lemma {:induction false} RtcReferences(v: Value, container: bool)
    requires HashFree(Both(v, container))
    ensures References(MODELS, RtcRefs(v), container, false) == {}
    ensures References(DEFINITIONS, RtcRefs(v), container, false) <= Both(v, container)
    decreases v, 0
  {
    match v
    case Array(items) => RtcItemReferences(items);
    case Object(members) => RtcMemberReferences(members, container);
    case _ =>
  }

  lemma {:induction false} RtcItemReferences(items: seq<Value>)
    requires HashFree(ItemReferences(MODELS, items, false) + ItemReferences(DEFINITIONS, items, false))
    ensures ItemReferences(MODELS, RtcItems(items), false) == {}
    ensures ItemReferences(DEFINITIONS, RtcItems(items), false)
            <= ItemReferences(MODELS, items, false) + ItemReferences(DEFINITIONS, items, false)
    decreases items, 0
  {
    if items != [] {
      var last := |items| - 1;
      RtcItemReferences(items[..last]);
      RtcReferences(items[last], false);
      assert RtcItems(items)[..last] == RtcItems(items[..last]);
    }
  }

  lemma {:induction false} RtcMemberReference(m: Member, container: bool)
    requires HashFree(MemberReference(MODELS, m, container, false) + MemberReference(DEFINITIONS, m, container, false))
    ensures MemberReference(MODELS, RtcMember(m), container, false) == {}
    ensures MemberReference(DEFINITIONS, RtcMember(m), container, false)
            <= MemberReference(MODELS, m, container, false) + MemberReference(DEFINITIONS, m, container, false)
    decreases m, 0
  {
    if !container && m.key == "$ref" {
      if m.value.Text? { RtcNamed(m.value); }
    } else if container || !Skipped(m.key) {
      RtcReferences(m.value, Inside(container, m.key));
    }
  }

  lemma {:induction false} RtcMemberReferences(members: seq<Member>, container: bool)
    requires HashFree(MemberReferences(MODELS, members, container, false)
            + MemberReferences(DEFINITIONS, members, container, false))
    ensures MemberReferences(MODELS, RtcMembers(members), container, false) == {}
    ensures MemberReferences(DEFINITIONS, RtcMembers(members), container, false)
            <= MemberReferences(MODELS, members, container, false) + MemberReferences(DEFINITIONS, members, container, false)
    decreases members, 0
  {
    if members != [] {
      var last := |members| - 1;
      RtcMemberReferences(members[..last], container);
      RtcMemberReference(members[last], container);
      assert RtcMembers(members)[..last] == RtcMembers(members[..last]);
    }
  }

  // ----- where definitions are found

  lemma {:induction false} RtcMembersAt(members: seq<Member>, i: nat)
    requires i < |members|
    ensures RtcMembers(members)[i] == RtcMember(members[i])
  {
    if i < |members| - 1 { RtcMembersAt(members[..|members| - 1], i); }
  }

  lemma RtcTail(members: seq<Member>)
    requires members != []
    ensures RtcMembers(members)[0] == RtcMember(members[0]) && RtcMembers(members)[1..] == RtcMembers(members[1..])
  {
    RtcMembersAt(members, 0);
    forall i | 0 <= i < |members| - 1 ensures RtcMembers(members)[1..][i] == RtcMembers(members[1..])[i] {
      RtcMembersAt(members, i + 1);
      RtcMembersAt(members[1..], i);
    }
  }

  lemma {:induction false} RtcFind(members: seq<Member>, key: string)
    requires key != "$ref"
    ensures Find(RtcMembers(members), key) == match Find(members, key) case None => None case Some(v) => Some(RtcRefs(v))
  {
    if members != [] {
      RtcTail(members);
      RtcFind(members[1..], key);
    }
  }

  lemma RtcGet(v: Value, key: string)
    requires key != "$ref" && Get(v, key).Some?
    ensures Get(RtcRefs(v), key) == Some(RtcRefs(Get(v, key).value))
  {
    RtcFind(v.members, key);
  }

  lemma DefinitionFound(definitions: seq<Member>, found: map<Label, Value>, name: Label)
    requires Lists(definitions, found) && name in found
    ensures Find(definitions, name.text) == Some(found[name])
  {
    var m := Member(name.text, found[name]);
    var i :| 0 <= i < |definitions| && definitions[i] == m;
    FindAt(definitions, i);
  }

  lemma DefinitionReferences(root: string, definitions: seq<Member>, found: map<Label, Value>, known: set<Label>)
    requires Lists(definitions, found)
    requires forall name :: name in found ==> NameLike(name.text) && References(root, found[name], false, false) <= known
    ensures References(root, Object(definitions), false, false) <= known
  {
    forall child | child in MemberReferences(root, definitions, false, false) ensures child in known {
      ReferenceOf(root, definitions, false, false, child);
      var m :| m in definitions && child in MemberReference(root, m, false, false);
      NameLikePlain(m.key);
    }
  }

  // What the parts of a document refer to before they are put together: only models that are `known`.
  ghost predicate Supported(document: Value, found: map<Label, Value>, known: set<Label>) {
    && known <= found.Keys
    && References(MODELS, document, false, false) <= known && References(DEFINITIONS, document, false, false) == {}
    && forall name :: name in found ==>
         && NameLike(name.text) && References(MODELS, found[name], false, false) <= known
         && References(DEFINITIONS, found[name], false, false) == {}
  }

  // Every reference of the whole document names a known model and leads to its definition.
  ghost predicate Resolves(rtc: bool, whole: Value, found: map<Label, Value>, known: set<Label>) {
    if rtc then
      && References(MODELS, whole, false, false) == {}
      && References(DEFINITIONS, whole, false, false) <= known
      && forall name :: name in found ==> Pointer(whole, DEFINITIONS + name.text) == Some(RtcRefs(RtcRefs(found[name])))
    else
      && References(DEFINITIONS, whole, false, false) == {}
      && References(MODELS, whole, false, false) <= known
      && forall name :: name in found ==> Pointer(whole, MODELS + name.text) == Some(found[name])
  }

  // Setting a member whose key has no other meaning.
  lemma SetReferences(root: string, members: seq<Member>, key: string, value: Value, known: set<Label>)
    requires key != "$ref" && !Skipped(key) && !Inside(false, key)
    requires MemberReferences(root, members, false, false) <= known && References(root, value, false, false) <= known
    ensures MemberReferences(root, Put(members, key, value), false, false) <= known
  {
    PutReferences(root, members, key, value, false, false);
    assert MemberReference(root, Member(key, value), false, false) == References(root, value, false, false);
  }

  lemma ComponentReferences(root: string, document: Value, key: string, known: set<Label>)
    requires document.Object? && ObjectAt(document, key).Ok? && References(root, document, false, false) <= known
    requires key != "$ref" && !Skipped(key) && !Inside(false, key)
    ensures MemberReferences(root, ObjectAt(document, key).value, false, false) <= known
  {
    var members := ObjectAt(document, key).value;
    if Find(document.members, key).Some? {
      FindReferences(root, document.members, key, false, false);
      assert MemberReference(root, Member(key, Object(members)), false, false) == MemberReferences(root, members, false, false);
    }
  }

  lemma ServiceReferences(
      root: string, document: Value, definitions: seq<Member>, found: map<Label, Value>, whole: Value, known: set<Label>)
    requires Lists(definitions, found) && Assembled(false, document, definitions) == Ok(whole)
    requires References(root, document, false, false) <= known
    requires forall name :: name in found ==> NameLike(name.text) && References(root, found[name], false, false) <= known
    ensures References(root, whole, false, false) <= known
  {
    var components := ObjectAt(document, "components").value;
    DefinitionReferences(root, definitions, found, known);
    ComponentReferences(root, document, "components", known);
    SetReferences(root, components, "schemas", Object(definitions), known);
    SetReferences(root, document.members, "components", Object(Put(components, "schemas", Object(definitions))), known);
  }

  lemma RootsSpelled(name: string)
    ensures "#/" + "components" + "/" + "schemas" + "/" + name == MODELS + name
    ensures "#/" + "definitions" + "/" + name == DEFINITIONS + name
  {
    assert "#/" + "components" + "/" + "schemas" + "/" == MODELS;
    assert "#/" + "definitions" + "/" == DEFINITIONS;
  }

  lemma ServiceParts(document: Value, definitions: seq<Member>, whole: Value) returns (components: Value)
    requires Assembled(false, document, definitions) == Ok(whole)
    ensures Get(whole, "components") == Some(components) && Get(components, "schemas") == Some(Object(definitions))
  {
    var given := ObjectAt(document, "components").value;
    components := Object(Put(given, "schemas", Object(definitions)));
    FindPut(document.members, "components", components, "components");
    FindPut(given, "schemas", Object(definitions), "schemas");
    hide Find, Put;
  }

  lemma DefinitionThrough(
      whole: Value, a: string, first: Value, b: string, definitions: seq<Member>, found: map<Label, Value>, name: Label)
    requires PlainText(a) && PlainText(b) && Get(whole, a) == Some(first) && Get(first, b) == Some(Object(definitions))
    requires Lists(definitions, found) && name in found && NameLike(name.text)
    ensures LeadsTo(whole, "#/" + a + "/" + b + "/" + name.text, found[name])
  {
    NameLikePlain(name.text);
    DefinitionFound(definitions, found, name);
    hide LeadsTo, Find, Lists;
    Deep(whole, a, first, b, Object(definitions), name.text, found[name]);
  }

  lemma ServicePointer(document: Value, definitions: seq<Member>, found: map<Label, Value>, whole: Value, name: Label)
    requires Lists(definitions, found) && Assembled(false, document, definitions) == Ok(whole)
    requires name in found && NameLike(name.text)
    ensures Pointer(whole, MODELS + name.text) == Some(found[name])
  {
    var components := ServiceParts(document, definitions, whole);
    hide Assembled, Lists, NameLike, Pointer, Get;
    DefinitionThrough(whole, "components", components, "schemas", definitions, found, name);
    RootsSpelled(name.text);
  }

  lemma RtcWholeReferences(
      document: Value, definitions: seq<Member>, found: map<Label, Value>, whole: Value, known: set<Label>)
    requires Lists(definitions, found) && Supported(document, found, known)
    requires Assembled(true, document, definitions) == Ok(whole)
    ensures References(MODELS, whole, false, false) == {} && References(DEFINITIONS, whole, false, false) <= known
  {
    forall name | name in found ensures '#' !in name.text { NameLikePlain(name.text); }
    var renamed := RtcRefs(Object(definitions));
    var before := Object(Put(document.members, "definitions", renamed));
    DefinitionReferences(MODELS, definitions, found, known);
    DefinitionReferences(DEFINITIONS, definitions, found, {});
    RtcReferences(Object(definitions), false);
    SetReferences(MODELS, document.members, "definitions", renamed, known);
    SetReferences(DEFINITIONS, document.members, "definitions", renamed, known);
    RtcReferences(before, false);
  }

  lemma RtcParts(document: Value, definitions: seq<Member>, whole: Value)
    requires Assembled(true, document, definitions) == Ok(whole)
    ensures Get(whole, "definitions") == Some(RtcRefs(RtcRefs(Object(definitions))))
  {
    var once := RtcRefs(Object(definitions));
    FindPut(document.members, "definitions", once, "definitions");
    hide Find, Put, RtcRefs;
    RtcGet(Object(Put(document.members, "definitions", once)), "definitions");
  }

  lemma RtcDefinition(definitions: seq<Member>, found: map<Label, Value>, name: Label)
    requires Lists(definitions, found) && name in found && NameLike(name.text)
    ensures Get(RtcRefs(RtcRefs(Object(definitions))), name.text) == Some(RtcRefs(RtcRefs(found[name])))
  {
    NameLikePlain(name.text);
    DefinitionFound(definitions, found, name);
    hide Find, RtcRefs, Lists;
    RtcGet(Object(definitions), name.text);
    RtcGet(RtcRefs(Object(definitions)), name.text);
  }

  lemma RtcPointer(document: Value, definitions: seq<Member>, found: map<Label, Value>, whole: Value, name: Label)
    requires Lists(definitions, found) && Assembled(true, document, definitions) == Ok(whole)
    requires name in found && NameLike(name.text)
    ensures Pointer(whole, DEFINITIONS + name.text) == Some(RtcRefs(RtcRefs(found[name])))
  {
    RtcParts(document, definitions, whole);
    RtcDefinition(definitions, found, name);
    NameLikePlain(name.text);
    hide Get, Pointer, RtcRefs, NameLike, Lists, Assembled;
    TwoDeep(whole, "definitions", RtcRefs(RtcRefs(Object(definitions))), name.text, RtcRefs(RtcRefs(found[name])));
    RootsSpelled(name.text);
  }

  /** In the document put together, every reference leads to the definition of the model that it names. */
  lemma AssemblyResolves(
      rtc: bool, document: Value, definitions: seq<Member>, found: map<Label, Value>, whole: Value, known: set<Label>)
    requires Lists(definitions, found) && Supported(document, found, known)
    requires Assembled(rtc, document, definitions) == Ok(whole)
    ensures Resolves(rtc, whole, found, known)
  {
    hide References, Assembled, Lists, Pointer, RtcRefs, NameLike;
    if rtc {
      RtcWholeReferences(document, definitions, found, whole, known);
      forall name | name in found ensures Pointer(whole, DEFINITIONS + name.text) == Some(RtcRefs(RtcRefs(found[name]))) {
        RtcPointer(document, definitions, found, whole, name);
      }
    } else {
      ServiceReferences(MODELS, document, definitions, found, whole, known);
      ServiceReferences(DEFINITIONS, document, definitions, found, whole, {});
      forall name | name in found ensures Pointer(whole, MODELS + name.text) == Some(found[name]) {
        ServicePointer(document, definitions, found, whole, name);
      }
    }
  }
}
