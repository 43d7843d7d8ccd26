/**
 Why compiling schemas ends, `fastapi_canon/codegen/schema.py`: although references are built from scopes
 and `$defs` names while schemas are being rewritten, from any finite set of references only finitely many
 others can ever be followed.
 */
module SchemaScopes {
  import opened Wrappers
  import opened Json
  import opened Pointers
  import opened Schemas

  datatype Word = Word(text: string)

  // Every text that occurs in a value.
  function Texts(v: Value): set<Word>
    decreases v, 0
  {
    match v
    case Text(text) => {Word(text)}
    case Array(items) => ItemTexts(items)
    case Object(members) => MemberTexts(members)
    case _ => {}
  }

  function ItemTexts(items: seq<Value>): set<Word>
    decreases items, 0
  {
    if items == [] then {} else ItemTexts(items[..|items| - 1]) + Texts(items[|items| - 1])
  }

  function MemberTexts(members: seq<Member>): set<Word>
    decreases members, 0
  {
    if members == [] then {} else MemberTexts(members[..|members| - 1]) + Texts(members[|members| - 1].value)
  }

  lemma {:induction false} ItemTextsAt(items: seq<Value>, i: nat)
    requires i < |items|
    ensures Texts(items[i]) <= ItemTexts(items)
  {
    if i < |items| - 1 { ItemTextsAt(items[..|items| - 1], i); }
  }

  lemma {:induction false} MemberTextsAt(members: seq<Member>, i: nat)
    requires i < |members|
    ensures Texts(members[i].value) <= MemberTexts(members)
  {
    if i < |members| - 1 { MemberTextsAt(members[..|members| - 1], i); }
  }

  lemma {:induction false} TextsBelow(v: Value, names: seq<string>)
    requires Follow(v, names).Some?
    ensures Texts(Follow(v, names).value) <= Texts(v)
  {
    if names != [] {
      var child := Descend(v, names[0]).value;
      TextsBelow(child, names[1..]);
      if v.Array? {
        var i :| 0 <= i < |v.items| && v.items[i] == child;
        ItemTextsAt(v.items, i);
      } else {
        var i :| 0 <= i < |v.members| && v.members[i].value == child;
        MemberTextsAt(v.members, i);
      }
    }
  }

  // The reference that a text stands for in a scope.
  function Followed(text: Word, scope: Word): Option<string> {
    match Target(Text(text.text), Some(scope.text))
    case Ok(ref) => ref
    case _ => None
  }

  // The reference belongs to the place's source, and in a known scope it comes from one of the texts.
  ghost predicate FromText(key: Reference, at: Place, texts: set<Word>) {
    key.source == at.source &&
    (at.scope.Some? ==> exists t :: t in texts && Followed(t, Word(at.scope.value)) == Some(key.ref))
  }

  lemma {:induction false} MetFromText(v: Value, at: Place, key: Reference)
    requires key in Met(v, at, false)
    ensures FromText(key, at, Texts(v))
    decreases v, 0
  {
    match v
    case Array(items) => MetItemFromText(items, at, key);
    case Object(members) => MetMemberFromText(members, Scoped(at, v), key);
  }

  lemma {:induction false} MetItemFromText(items: seq<Value>, at: Place, key: Reference)
    requires key in MetItems(items, at, false)
    ensures FromText(key, at, ItemTexts(items))
    decreases items, 0
  {
    var last := |items| - 1;
    if key in MetItems(items[..last], at, false) {
      MetItemFromText(items[..last], at, key);
    } else {
      MetFromText(items[last], ItemPlace(at, last), key);
    }
  }

  lemma {:induction false} MetMemberFromText(members: seq<Member>, at: Place, key: Reference)
    requires key in MetMembers(members, at, false)
    ensures FromText(key, at, MemberTexts(members))
    decreases members, 0
  {
    var last := |members| - 1;
    var m := members[last];
    if key in MetMembers(members[..last], at, false) {
      MetMemberFromText(members[..last], at, key);
    } else if !at.container && m.key == "$ref" {
      assert Word(m.value.text) in Texts(m.value) && Word(m.value.text) in MemberTexts(members);
      if at.scope.Some? { assert Followed(Word(m.value.text), Word(at.scope.value)) == Some(key.ref); }
    } else {
      MetFromText(m.value, MemberPlace(at, m.key), key);
    }
  }

  // ----- scopes

  lemma {:induction false} ScopeIsPrefix(ref: string)
    ensures ScopeOf(ref) <= ref
  {
    if ref != "" && !(DEFS <= ref) { ScopeIsPrefix(ref[1..]); }
  }

  // A scope with a `$defs` name appended has a scope no longer than itself.
  lemma {:induction false} ScopeOfLocal(scope: string, rest: string)
    ensures ScopeOf(scope + DEFS + rest) <= scope
  {
    var ref := scope + DEFS + rest;
    if scope == "" {
      assert ref == DEFS + rest;
      assert DEFS <= ref;
    } else if !(DEFS <= ref) {
      assert ref[0] == scope[0] && ref[1..] == scope[1..] + DEFS + rest;
      ScopeOfLocal(scope[1..], rest);
    }
  }

  function Prefixes(words: set<Word>): set<Word> {
    set w, i | w in words && 0 <= i <= |w.text| :: Word(w.text[..i])
  }

  lemma PrefixIn(words: set<Word>, w: Word, p: string)
    requires w in words && p <= w.text
    ensures Word(p) in Prefixes(words)
  {
    assert w.text[..|p|] == p;
  }

  function AllFollowed(source: string, texts: set<Word>, scopes: set<Word>): set<Reference> {
    set t, s | t in texts && s in scopes && Followed(t, s).Some? :: Reference(source, Followed(t, s).value)
  }

  // The universe holds every reference that compiling one of its references follows.
  ghost predicate Whole(document: Value, source: string, universe: set<Reference>) {
    forall key :: key in universe ==>
      key.source == source &&
      (Pointer(document, key.ref).Some? ==> Met(Pointer(document, key.ref).value, DeclarationPlace(key), false) <= universe)
  }

  lemma ScopeKnown(source: string, texts: set<Word>, words: set<Word>, key: Reference)
    requires texts <= words && key in AllFollowed(source, texts, Prefixes(words))
    ensures Word(ScopeOf(key.ref)) in Prefixes(words)
  {
    var t, s :| t in texts && s in Prefixes(words) && Followed(t, s) == Some(key.ref);
    if LOCAL <= t.text {
      ScopeOfLocal(s.text, t.text[|LOCAL|..]);
      var w, i :| w in words && 0 <= i <= |w.text| && s.text == w.text[..i];
      PrefixIn(words, w, ScopeOf(key.ref));
    } else {
      ScopeIsPrefix(key.ref);
      PrefixIn(words, t, ScopeOf(key.ref));
    }
  }

  /** Any finite set of references lies in a finite one that compiling does not leave. */
  lemma UniverseExists(document: Value, source: string, start: set<Reference>) returns (universe: set<Reference>)
    requires forall key :: key in start ==> key.source == source
    ensures start <= universe && Whole(document, source, universe)
  {
    var texts := Texts(document);
    var words := texts + set key | key in start :: Word(key.ref);
    var scopes := Prefixes(words);
    universe := start + AllFollowed(source, texts, scopes);
    forall key, met | key in universe && Pointer(document, key.ref).Some?
                      && met in Met(Pointer(document, key.ref).value, DeclarationPlace(key), false)
      ensures met in universe
    {
      var raw := Pointer(document, key.ref).value;
      TextsBelow(document, Names(key.ref));
      MetFromText(raw, DeclarationPlace(key), met);
      if key in start {
        ScopeIsPrefix(key.ref);
        PrefixIn(words, Word(key.ref), ScopeOf(key.ref));
      } else {
        ScopeKnown(source, texts, words, key);
      }
      var t :| t in Texts(raw) && Followed(t, Word(ScopeOf(key.ref))) == Some(met.ref);
    }
  }
}
