/**
 `ErrorRegistry` of `fastapi_canon/error/registry.py`: composing registries, rejecting collisions, and
 finding the error for an exception.
 */
module Registry {
  import opened Wrappers
  import opened Linearization

  // A definition. `id` tells apart distinct objects with equal fields, so `==` is object identity.
  datatype Error = Error(id: nat, exception: Name, code: Name, typeUri: Option<Name>, schema: Name)

  datatype Entry = Entry(error: Error, typeUri: Option<Name>, source: Name)

  // ----- what a list of entries says about an error

  function UriOf(xs: seq<Entry>, e: Error): Option<Name> {
    if xs == [] then None
    else if xs[0].error == e && xs[0].typeUri.Some? then xs[0].typeUri
    else UriOf(xs[1..], e)
  }

  function SourceOf(xs: seq<Entry>, e: Error): Option<Name> {
    if xs == [] then None
    else if xs[0].error == e then Some(xs[0].source)
    else SourceOf(xs[1..], e)
  }

  predicate Holds(xs: seq<Entry>, e: Error) {
    exists x :: x in xs && x.error == e
  }

  // The errors in order of first occurrence, leaving out those in `skip`.
  function Errors(xs: seq<Entry>, skip: set<Error>): seq<Error> {
    if xs == [] then []
    else if xs[0].error in skip then Errors(xs[1..], skip)
    else [xs[0].error] + Errors(xs[1..], skip + {xs[0].error})
  }

  predicate Conflict(x: Entry, y: Entry) {
    x.error == y.error && x.typeUri.Some? && y.typeUri.Some? && x.typeUri != y.typeUri
  }

  // The keys under which an entry is indexed; a missing type URI is no key.
  datatype Dimension = ByException | ByCode | ByUri | BySchema

  function KeyOf(d: Dimension, x: Entry): Option<Name> {
    match d
    case ByException => Some(x.error.exception)
    case ByCode => Some(x.error.code)
    case ByUri => x.typeUri
    case BySchema => Some(x.error.schema)
  }

  // Two different errors that one key would identify.
  predicate CollideOn(d: Dimension, x: Entry, y: Entry) {
    x.error != y.error && KeyOf(d, x).Some? && KeyOf(d, x) == KeyOf(d, y)
  }

  predicate Collide(x: Entry, y: Entry) {
    CollideOn(ByException, x, y) || CollideOn(ByCode, x, y) || CollideOn(ByUri, x, y) || CollideOn(BySchema, x, y)
  }

  ghost predicate Consistent(xs: seq<Entry>) {
    forall x, y :: x in xs && y in xs ==> !Conflict(x, y)
  }

  ghost predicate Identifying(xs: seq<Entry>) {
    forall x, y :: x in xs && y in xs ==> !Collide(x, y)
  }

  ghost predicate Compatible(xs: seq<Entry>) {
    Consistent(xs) && Identifying(xs)
  }

  // One entry for each error, as the merged dictionary lists them.
  function Joined(xs: seq<Entry>): seq<Entry> {
    Listing(xs, Errors(xs, {}))
  }

  function Listing(xs: seq<Entry>, errors: seq<Error>): (r: seq<Entry>)
    ensures |r| == |errors|
    ensures forall i :: 0 <= i < |r| ==> r[i] == EntryOf(xs, errors[i])
  {
    seq(|errors|, i requires 0 <= i < |errors| => EntryOf(xs, errors[i]))
  }

  function EntryOf(xs: seq<Entry>, e: Error): Entry {
    Entry(e, UriOf(xs, e), match SourceOf(xs, e) case Some(s) => s case None => Name(""))
  }

  function Concat(registries: seq<seq<Entry>>): seq<Entry> {
    if registries == [] then [] else registries[0] + Concat(registries[1..])
  }

  /** `merge` without a type base: the joined entries, or `None` for a rejected configuration. */
  ghost function Merge(registries: seq<seq<Entry>>): Option<seq<Entry>> {
    var xs := Concat(registries);
    if Consistent(xs) && Identifying(Joined(xs)) then Some(Joined(xs)) else None
  }

  // Merging a failure fails.
  ghost function MergeWith(a: Option<seq<Entry>>, b: Option<seq<Entry>>): Option<seq<Entry>> {
    if a.Some? && b.Some? then Merge([a.value, b.value]) else None
  }

  // What every registry satisfies: no error twice, and every key identifies at most one error.
  ghost predicate WellFormed(xs: seq<Entry>) {
    (forall i, j :: 0 <= i < j < |xs| ==> xs[i].error != xs[j].error) && Identifying(xs)
  }

  // ----- properties of the listings

  lemma UriFrom(xs: seq<Entry>, e: Error)
    ensures UriOf(xs, e).Some? ==> exists x :: x in xs && x.error == e && x.typeUri == UriOf(xs, e)
    ensures UriOf(xs, e).None? ==> forall x :: x in xs && x.error == e ==> x.typeUri.None?
  {
    if xs != [] {
      if xs[0].error == e && xs[0].typeUri.Some? {
      } else {
        UriFrom(xs[1..], e);
        forall x | x in xs && x.error == e ensures UriOf(xs, e).None? ==> x.typeUri.None? {
          assert x == xs[0] || x in xs[1..];
        }
      }
    }
  }

  lemma UriOfConsistent(xs: seq<Entry>, x: Entry)
    requires Consistent(xs) && x in xs && x.typeUri.Some?
    ensures UriOf(xs, x.error) == x.typeUri
  {
    UriFrom(xs, x.error);
  }

  lemma {:induction false} ErrorsListed(xs: seq<Entry>, skip: set<Error>)
    ensures forall e :: e in Errors(xs, skip) <==> Holds(xs, e) && e !in skip
    ensures forall i, j :: 0 <= i < j < |Errors(xs, skip)| ==> Errors(xs, skip)[i] != Errors(xs, skip)[j]
  {
    if xs != [] {
      var rest := if xs[0].error in skip then skip else skip + {xs[0].error};
      ErrorsListed(xs[1..], rest);
      forall e ensures Holds(xs, e) <==> e == xs[0].error || Holds(xs[1..], e) {
        if x :| x in xs && x.error == e {
          assert x == xs[0] || x in xs[1..];
        }
      }
    }
  }

  lemma {:induction false} ErrorsConcat(xs: seq<Entry>, ys: seq<Entry>, skip: set<Error>)
    ensures Errors(xs + ys, skip) == Errors(xs, skip) + Errors(ys, skip + (set x | x in xs :: x.error))
  {
    if xs == [] {
      assert xs + ys == ys;
      assert skip + (set x | x in xs :: x.error) == skip;
    } else {
      assert (xs + ys)[1..] == xs[1..] + ys;
      var rest := if xs[0].error in skip then skip else skip + {xs[0].error};
      ErrorsConcat(xs[1..], ys, rest);
      assert skip + (set x | x in xs :: x.error) == rest + (set x | x in xs[1..] :: x.error) by {
        assert xs == [xs[0]] + xs[1..];
      }
    }
  }

  lemma {:induction false} OfConcat(xs: seq<Entry>, ys: seq<Entry>, e: Error)
    ensures UriOf(xs + ys, e) == if UriOf(xs, e).Some? then UriOf(xs, e) else UriOf(ys, e)
    ensures SourceOf(xs + ys, e) == if SourceOf(xs, e).Some? then SourceOf(xs, e) else SourceOf(ys, e)
  {
    if xs == [] {
      assert xs + ys == ys;
    } else {
      assert (xs + ys)[1..] == xs[1..] + ys;
      OfConcat(xs[1..], ys, e);
    }
  }

  lemma {:induction false} SourceHolds(xs: seq<Entry>, e: Error)
    ensures SourceOf(xs, e).Some? <==> Holds(xs, e)
  {
    if xs != [] {
      SourceHolds(xs[1..], e);
      if x :| x in xs && x.error == e {
        assert x == xs[0] || x in xs[1..];
      }
    }
  }

  // A list with one entry for each of `errors` says exactly that about them.
  lemma {:induction false} OfListing(xs: seq<Entry>, errors: seq<Error>, e: Error)
    requires forall i, j :: 0 <= i < j < |errors| ==> errors[i] != errors[j]
    ensures e in errors ==>
              UriOf(Listing(xs, errors), e) == UriOf(xs, e) && SourceOf(Listing(xs, errors), e) == Some(EntryOf(xs, e).source)
    ensures e !in errors ==> UriOf(Listing(xs, errors), e).None? && SourceOf(Listing(xs, errors), e).None?
  {
    if errors != [] {
      assert Listing(xs, errors)[1..] == Listing(xs, errors[1..]);
      OfListing(xs, errors[1..], e);
      if e == errors[0] { assert e !in errors[1..]; }
    }
  }

  lemma {:induction false} ErrorsOfListing(xs: seq<Entry>, errors: seq<Error>, skip: set<Error>)
    requires forall i, j :: 0 <= i < j < |errors| ==> errors[i] != errors[j]
    requires forall e :: e in errors ==> e !in skip
    ensures Errors(Listing(xs, errors), skip) == errors
  {
    if errors != [] {
      assert Listing(xs, errors)[1..] == Listing(xs, errors[1..]);
      assert errors[0] !in errors[1..];
      ErrorsOfListing(xs, errors[1..], skip + {errors[0]});
    }
  }

  // Joining changes nothing that is asked of a list.
  lemma JoinedSays(xs: seq<Entry>, e: Error)
    ensures UriOf(Joined(xs), e) == UriOf(xs, e)
    ensures SourceOf(Joined(xs), e) == SourceOf(xs, e)
    ensures Errors(Joined(xs), {}) == Errors(xs, {})
    ensures Holds(Joined(xs), e) <==> Holds(xs, e)
  {
    ErrorsListed(xs, {});
    OfListing(xs, Errors(xs, {}), e);
    ErrorsOfListing(xs, Errors(xs, {}), {});
    SourceHolds(xs, e);
    SourceHolds(Joined(xs), e);
    UriFrom(xs, e);
  }

  lemma JoinedAlike(xs: seq<Entry>, ys: seq<Entry>)
    requires Errors(xs, {}) == Errors(ys, {})
    requires forall e :: UriOf(xs, e) == UriOf(ys, e) && SourceOf(xs, e) == SourceOf(ys, e)
    ensures Joined(xs) == Joined(ys)
  {
    forall i | 0 <= i < |Joined(xs)| ensures Joined(xs)[i] == Joined(ys)[i] {
      var e := Errors(xs, {})[i];
      assert UriOf(xs, e) == UriOf(ys, e) && SourceOf(xs, e) == SourceOf(ys, e);
    }
  }

  lemma ErrorsSkip(xs: seq<Entry>, ys: seq<Entry>, skip: set<Error>)
    requires Errors(xs, {}) == Errors(ys, {})
    ensures Errors(xs, skip) == Errors(ys, skip)
  {
    assert {} + skip == skip;
    ErrorsFiltered(xs, {}, skip);
    ErrorsFiltered(ys, {}, skip);
  }

  function Without(errors: seq<Error>, skip: set<Error>): seq<Error> {
    if errors == [] then []
    else (if errors[0] in skip then [] else [errors[0]]) + Without(errors[1..], skip)
  }

  lemma {:induction false} ErrorsFiltered(xs: seq<Entry>, less: set<Error>, skip: set<Error>)
    ensures Errors(xs, less + skip) == Without(Errors(xs, less), skip)
  {
    if xs != [] {
      if xs[0].error in less {
        ErrorsFiltered(xs[1..], less, skip);
      } else {
        ErrorsFiltered(xs[1..], less + {xs[0].error}, skip);
        if xs[0].error in skip {
          assert less + {xs[0].error} + skip == less + skip;
        } else {
          assert less + {xs[0].error} + skip == less + skip + {xs[0].error};
        }
      }
    }
  }

  // Joining the right or left part of a list first does not change the join.
  lemma JoinedParts(xs: seq<Entry>, ys: seq<Entry>)
    ensures Joined(Joined(xs) + ys) == Joined(xs + ys) == Joined(xs + Joined(ys))
  {
    var none := EntryOf([], Error(0, Name(""), Name(""), None, Name(""))).error;
    JoinedSays(xs, none);
    JoinedSays(ys, none);
    var held := set x | x in xs :: x.error;
    assert held == set x | x in Joined(xs) :: x.error by {
      forall e ensures e in held <==> e in (set x | x in Joined(xs) :: x.error) {
        JoinedSays(xs, e);
        assert e in held <==> Holds(xs, e);
        assert e in (set x | x in Joined(xs) :: x.error) <==> Holds(Joined(xs), e);
      }
    }
    ErrorsConcat(xs, ys, {});
    ErrorsConcat(Joined(xs), ys, {});
    ErrorsConcat(xs, Joined(ys), {});
    ErrorsSkip(ys, Joined(ys), held);
    assert {} + held == held;
    forall e
      ensures UriOf(Joined(xs) + ys, e) == UriOf(xs + ys, e) == UriOf(xs + Joined(ys), e)
      ensures SourceOf(Joined(xs) + ys, e) == SourceOf(xs + ys, e) == SourceOf(xs + Joined(ys), e)
    {
      JoinedSays(xs, e);
      JoinedSays(ys, e);
      OfConcat(xs, ys, e);
      OfConcat(Joined(xs), ys, e);
      OfConcat(xs, Joined(ys), e);
    }
    JoinedAlike(Joined(xs) + ys, xs + ys);
    JoinedAlike(xs + Joined(ys), xs + ys);
  }

  // Every joined entry stands for entries of the list, and every entry is covered by its joined one.
  lemma JoinedStandsFor(xs: seq<Entry>, j: Entry)
    requires j in Joined(xs)
    ensures Holds(xs, j.error) && j.typeUri == UriOf(xs, j.error)
  {
    var i :| 0 <= i < |Joined(xs)| && Joined(xs)[i] == j;
    assert Errors(xs, {})[i] == j.error;
    ErrorsListed(xs, {});
  }

  lemma JoinedCovers(xs: seq<Entry>, x: Entry) returns (j: Entry)
    requires Consistent(xs) && x in xs
    ensures j in Joined(xs) && j.error == x.error && (x.typeUri.Some? ==> j.typeUri == x.typeUri)
  {
    ErrorsListed(xs, {});
    assert Holds(xs, x.error);
    var i :| 0 <= i < |Errors(xs, {})| && Errors(xs, {})[i] == x.error;
    j := Joined(xs)[i];
    if x.typeUri.Some? { UriOfConsistent(xs, x); }
  }

  lemma JoinedIdentifying(xs: seq<Entry>)
    requires Consistent(xs)
    ensures Identifying(Joined(xs)) <==> Identifying(xs)
  {
    if Identifying(Joined(xs)) {
      forall x, y | x in xs && y in xs ensures !Collide(x, y) {
        var j := JoinedCovers(xs, x);
        var k := JoinedCovers(xs, y);
        assert !Collide(j, k);
      }
    }
    if Identifying(xs) {
      forall j, k | j in Joined(xs) && k in Joined(xs) ensures !Collide(j, k) {
        if Collide(j, k) {
          JoinedStandsFor(xs, j);
          JoinedStandsFor(xs, k);
          UriFrom(xs, j.error);
          UriFrom(xs, k.error);
          var x :| x in xs && x.error == j.error && (j.typeUri.Some? ==> x.typeUri == j.typeUri);
          var y :| y in xs && y.error == k.error && (k.typeUri.Some? ==> y.typeUri == k.typeUri);
          assert Collide(x, y);
        }
      }
    }
  }

  // ----- the algebra of merging

  /** A merge fails exactly when two entries disagree on a shared error or two errors share a key. */
  lemma MergeExact(registries: seq<seq<Entry>>)
    ensures Merge(registries).Some? <==> Compatible(Concat(registries))
  {
    if Consistent(Concat(registries)) { JoinedIdentifying(Concat(registries)); }
  }

  lemma PairConcat(a: seq<Entry>, b: seq<Entry>)
    ensures Concat([a, b]) == a + b
  {
    assert Concat([a, b]) == a + Concat([b]) && Concat([b]) == b + [];
    assert b + [] == b;
  }

  lemma TripleConcat(a: seq<Entry>, b: seq<Entry>, c: seq<Entry>)
    ensures Concat([a, b, c]) == a + b + c
  {
    PairConcat(b, c);
    assert [a, b, c][1..] == [b, c];
  }

  lemma CompatibleJoined(xs: seq<Entry>, ys: seq<Entry>)
    requires Compatible(xs)
    ensures Compatible(Joined(xs) + ys) <==> Compatible(xs + ys)
    ensures Compatible(ys + Joined(xs)) <==> Compatible(ys + xs)
  {
    JoinedIdentifying(xs);
    forall x, y | x in Joined(xs) && y in xs ensures !Conflict(x, y) && !Conflict(y, x) {
      JoinedStandsFor(xs, x);
      if y.typeUri.Some? { UriOfConsistent(xs, y); }
    }
    forall x, y | x in Joined(xs) && y in Joined(xs) ensures !Conflict(x, y) {
      JoinedStandsFor(xs, x);
      JoinedStandsFor(xs, y);
    }
    Interchangeable(xs, ys);
  }

  ghost predicate Clash(x: Entry, y: Entry) {
    Conflict(x, y) || Collide(x, y)
  }

  // Entries and joined entries clash with the same others.
  lemma Interchangeable(xs: seq<Entry>, ys: seq<Entry>)
    requires Compatible(xs) && Compatible(Joined(xs))
    ensures Compatible(Joined(xs) + ys) <==> Compatible(xs + ys)
    ensures Compatible(ys + Joined(xs)) <==> Compatible(ys + xs)
  {
    if x, y :| x in xs && y in ys && Clash(x, y) {
      var j := JoinedCovers(xs, x);
      assert Clash(j, y);
      assert j in Joined(xs) + ys && y in Joined(xs) + ys && j in ys + Joined(xs) && y in ys + Joined(xs);
      assert x in xs + ys && y in xs + ys && x in ys + xs && y in ys + xs;
    } else if j, y :| j in Joined(xs) && y in ys && Clash(j, y) {
      JoinedStandsFor(xs, j);
      UriFrom(xs, j.error);
      var x :| x in xs && x.error == j.error && (j.typeUri.Some? ==> x.typeUri == j.typeUri);
      assert Clash(x, y);
      assert false;
    } else {
      Apart(xs, ys);
      Apart(Joined(xs), ys);
    }
  }

  lemma Apart(xs: seq<Entry>, ys: seq<Entry>)
    requires Compatible(xs) && forall x, y :: x in xs && y in ys ==> !Clash(x, y)
    ensures Compatible(xs + ys) <==> Compatible(ys)
    ensures Compatible(ys + xs) <==> Compatible(ys)
  {
    assert forall x :: x in xs + ys <==> x in xs || x in ys;
    assert forall x :: x in ys + xs <==> x in xs || x in ys;
    if Compatible(ys) {
      forall x, y | x in xs + ys && y in xs + ys ensures !Conflict(x, y) && !Collide(x, y) {
        assert x in xs && y in ys ==> !Clash(x, y);
        assert y in xs && x in ys ==> !Clash(y, x);
      }
    }
  }

  lemma CompatiblePrefix(xs: seq<Entry>, ys: seq<Entry>)
    requires Compatible(xs + ys)
    ensures Compatible(xs) && Compatible(ys)
  {
    assert forall x :: x in xs ==> x in xs + ys;
    assert forall y :: y in ys ==> y in xs + ys;
  }

  /** Merging is associative, in the registry it yields and in the configurations it rejects. */
  lemma MergeAssociative(a: seq<Entry>, b: seq<Entry>, c: seq<Entry>)
    ensures MergeWith(Merge([a, b]), Some(c)) == Merge([a, b, c]) == MergeWith(Some(a), Merge([b, c]))
  {
    PairConcat(a, b);
    PairConcat(b, c);
    TripleConcat(a, b, c);
    assert a + b + c == a + (b + c);
    MergeExact([a, b]);
    MergeExact([b, c]);
    MergeExact([a, b, c]);
    if Compatible(a + b) {
      CompatibleJoined(a + b, c);
      PairConcat(Joined(a + b), c);
      MergeExact([Joined(a + b), c]);
      JoinedParts(a + b, c);
    } else if Compatible(a + b + c) {
      CompatiblePrefix(a + b, c);
    }
    if Compatible(b + c) {
      CompatibleJoined(b + c, a);
      PairConcat(a, Joined(b + c));
      MergeExact([a, Joined(b + c)]);
      JoinedParts(a, b + c);
    } else if Compatible(a + (b + c)) {
      CompatiblePrefix(a, b + c);
    }
  }

  /** Merging in either order fails alike, and succeeds with the same errors and type URIs. */
  lemma MergeCommutative(a: seq<Entry>, b: seq<Entry>)
    ensures Merge([a, b]).Some? <==> Merge([b, a]).Some?
    ensures Merge([a, b]).Some? ==>
              forall e :: Holds(Merge([a, b]).value, e) == Holds(Merge([b, a]).value, e)
                          && UriOf(Merge([a, b]).value, e) == UriOf(Merge([b, a]).value, e)
  {
    PairConcat(a, b);
    PairConcat(b, a);
    MergeExact([a, b]);
    MergeExact([b, a]);
    assert forall x :: x in a + b <==> x in b + a;
    if Compatible(a + b) {
      forall e
        ensures Holds(Joined(a + b), e) == Holds(Joined(b + a), e)
        ensures UriOf(Joined(a + b), e) == UriOf(Joined(b + a), e)
      {
        JoinedSays(a + b, e);
        JoinedSays(b + a, e);
        UriFrom(a + b, e);
        UriFrom(b + a, e);
        if UriOf(b + a, e).Some? {
          var x :| x in b + a && x.error == e && x.typeUri == UriOf(b + a, e);
          UriOfConsistent(a + b, x);
        }
      }
    }
  }

  lemma {:induction false} JoinedDistinct(xs: seq<Entry>, skip: set<Error>)
    requires forall i, j :: 0 <= i < j < |xs| ==> xs[i].error != xs[j].error
    requires forall x :: x in xs ==> x.error !in skip
    ensures Errors(xs, skip) == seq(|xs|, i requires 0 <= i < |xs| => xs[i].error)
  {
    if xs != [] {
      JoinedDistinct(xs[1..], skip + {xs[0].error});
    }
  }

  lemma {:induction false} EntryInDistinct(xs: seq<Entry>, i: nat)
    requires forall i, j :: 0 <= i < j < |xs| ==> xs[i].error != xs[j].error
    requires i < |xs|
    ensures EntryOf(xs, xs[i].error) == xs[i]
  {
    UriFrom(xs, xs[i].error);
    if i > 0 {
      assert xs[i] == xs[1..][i - 1];
      EntryInDistinct(xs[1..], i - 1);
    }
  }

  lemma SomeMember(errors: seq<Error>)
    ensures errors != [] ==> exists e :: e in errors
  {
    if errors != [] { assert errors[0] in errors; }
  }

  lemma NothingNew(a: seq<Entry>)
    ensures Errors(a + a, {}) == Errors(a, {})
  {
    var held := set x | x in a :: x.error;
    ErrorsConcat(a, a, {});
    assert {} + held == held;
    ErrorsListed(a, held);
    SomeMember(Errors(a, held));
  }

  /** A registry merged with itself, or alone, is itself. */
  lemma MergeIdempotent(a: seq<Entry>)
    requires WellFormed(a)
    ensures Merge([a]) == Some(a) == Merge([a, a])
  {
    JoinedDistinct(a, {});
    forall i | 0 <= i < |a| ensures Joined(a)[i] == a[i] { EntryInDistinct(a, i); }
    assert Joined(a) == a;
    assert Concat([a]) == a + [] == a;
    forall x, y | x in a && y in a ensures !Conflict(x, y) {
      var i :| 0 <= i < |a| && a[i] == x;
      var j :| 0 <= j < |a| && a[j] == y;
    }
    PairConcat(a, a);
    MergeExact([a]);
    MergeExact([a, a]);
    assert forall x :: x in a + a <==> x in a;
    NothingNew(a);
    assert Errors(a + a, {}) == Errors(a, {});
    forall e ensures UriOf(a + a, e) == UriOf(a, e) && SourceOf(a + a, e) == SourceOf(a, e) { OfConcat(a, a, e); }
    JoinedAlike(a + a, a);
  }

  // ----- building registries

  // `_resolve_type_uri`
  function ResolveUri(e: Error, base: Option<Name>): Option<Name> {
    if e.typeUri.Some? then e.typeUri
    else if base.None? then None
    else Some(Name(base.value.text + "/" + e.code.text))
  }

  /** With a base every error has a URI: its own, which no base changes, or else the base, a slash and its code, so
      that two of these are the same exactly when the codes are. */
  lemma ResolvedUris(e: Error, f: Error, base: Name)
    ensures e.typeUri.Some? ==> ResolveUri(e, Some(base)) == ResolveUri(e, None) == e.typeUri
    ensures e.typeUri.None? ==>
              var uri, n := ResolveUri(e, Some(base)), |base.text|;
              && ResolveUri(e, None) == None && uri.Some? && n < |uri.value.text|
              && uri.value.text[..n] == base.text && uri.value.text[n] == '/' && uri.value.text[n + 1..] == e.code.text
    ensures e.typeUri.None? && f.typeUri.None? ==>
              (ResolveUri(e, Some(base)) == ResolveUri(f, Some(base)) <==> e.code == f.code)
  {
    var first, second := base.text + "/" + e.code.text, base.text + "/" + f.code.text;
    assert first[|base.text| + 1..] == e.code.text && second[|base.text| + 1..] == f.code.text;
  }

  function Completed(xs: seq<Entry>, base: Option<Name>): (r: seq<Entry>)
    ensures |r| == |xs|
    ensures forall i :: 0 <= i < |xs| ==> (
              r[i] == if xs[i].typeUri.Some? || base.None? then xs[i] else xs[i].(typeUri := ResolveUri(xs[i].error, base)))
  {
    seq(|xs|, i requires 0 <= i < |xs| =>
      if xs[i].typeUri.Some? || base.None? then xs[i] else xs[i].(typeUri := ResolveUri(xs[i].error, base)))
  }

  // `seen` holds one entry of `xs` for every key that occurs in this dimension.
  ghost predicate Indexes(d: Dimension, seen: map<Name, Entry>, xs: seq<Entry>) {
    && (forall k :: k in seen ==> seen[k] in xs && KeyOf(d, seen[k]) == Some(k))
    && (forall x :: x in xs && KeyOf(d, x).Some? ==> KeyOf(d, x).value in seen)
    && (forall x, y :: x in xs && y in xs ==> !CollideOn(d, x, y))
  }

  /** One dimension of `_validate_collisions` for one entry. */
  method IndexEntry(d: Dimension, seen: map<Name, Entry>, ghost xs: seq<Entry>, entry: Entry)
      returns (r: Option<map<Name, Entry>>)
    requires Indexes(d, seen, xs)
    ensures r.None? ==> exists x :: x in xs && CollideOn(d, x, entry)
    ensures r.Some? ==> Indexes(d, r.value, xs + [entry])
  {
    assert forall x :: x in xs + [entry] <==> x in xs || x == entry;
    var key := KeyOf(d, entry);
    if key.None? {
      return Some(seen);
    }
    if key.value in seen && seen[key.value].error != entry.error {
      return None;
    }
    forall x | x in xs ensures !CollideOn(d, x, entry) && !CollideOn(d, entry, x) {
      if KeyOf(d, x) == key {
        assert !CollideOn(d, x, seen[key.value]);
      }
    }
    return Some(seen[key.value := entry]);
  }

  // A registry maps each exception class of its entries to the entry that defines it.
  ghost predicate Maps(byException: map<Name, Entry>, xs: seq<Entry>) {
    Indexes(ByException, byException, xs)
  }

  datatype Index = Index(
    exceptions: map<Name, Entry>, codes: map<Name, Entry>, uris: map<Name, Entry>, schemas: map<Name, Entry>)

  ghost predicate AllIndexed(index: Index, xs: seq<Entry>) {
    && Indexes(ByException, index.exceptions, xs)
    && Indexes(ByCode, index.codes, xs)
    && Indexes(ByUri, index.uris, xs)
    && Indexes(BySchema, index.schemas, xs)
  }

  /** All dimensions of `_validate_collisions` for one entry, up to the first collision. */
  method IndexAll(index: Index, ghost xs: seq<Entry>, entry: Entry) returns (r: Option<Index>)
    requires AllIndexed(index, xs)
    ensures r.None? ==> exists x :: x in xs && Collide(x, entry)
    ensures r.Some? ==> AllIndexed(r.value, xs + [entry])
  {
    var exceptions := IndexEntry(ByException, index.exceptions, xs, entry);
    if exceptions.None? { return None; }
    var codes := IndexEntry(ByCode, index.codes, xs, entry);
    if codes.None? { return None; }
    var uris := IndexEntry(ByUri, index.uris, xs, entry);
    if uris.None? { return None; }
    var schemas := IndexEntry(BySchema, index.schemas, xs, entry);
    if schemas.None? { return None; }
    return Some(Index(exceptions.value, codes.value, uris.value, schemas.value));
  }

  lemma IndexedIdentifying(index: Index, xs: seq<Entry>)
    requires AllIndexed(index, xs)
    ensures Identifying(xs)
  {
  }

  /** `_validate_collisions`: index the entries by every key, or find two errors with the same one. */
  method ValidateCollisions(entries: seq<Entry>) returns (byException: Option<map<Name, Entry>>)
    ensures byException.Some? <==> Identifying(entries)
    ensures byException.Some? ==> Maps(byException.value, entries)
  {
    var index := Index(map[], map[], map[], map[]);
    for i := 0 to |entries|
      invariant AllIndexed(index, entries[..i])
    {
      assert entries[..i + 1] == entries[..i] + [entries[i]];
      var next := IndexAll(index, entries[..i], entries[i]);
      if next.None? {
        ghost var x :| x in entries[..i] && Collide(x, entries[i]);
        assert x in entries && entries[i] in entries;
        return None;
      }
      index := next.value;
    }
    assert entries[..|entries|] == entries;
    IndexedIdentifying(index, entries);
    return Some(index.exceptions);
  }

  // The merged dictionary after the entries `xs`: insertion order and contents.
  ghost predicate Merged(xs: seq<Entry>, order: seq<Error>, merged: map<Error, Entry>) {
    && Consistent(xs)
    && order == Errors(xs, {})
    && (forall e :: e in merged <==> Holds(xs, e))
    && (forall e :: e in merged ==> merged[e] == EntryOf(xs, e))
  }

  // What the dictionary holds for an error after one more entry for it.
  function Absorbed(merged: map<Error, Entry>, entry: Entry): Entry {
    if entry.error !in merged then entry
    else if merged[entry.error].typeUri.None? then merged[entry.error].(typeUri := entry.typeUri)
    else merged[entry.error]
  }

  lemma StaysConsistent(xs: seq<Entry>, entry: Entry)
    requires Consistent(xs)
    requires UriOf(xs, entry.error).Some? && entry.typeUri.Some? ==> UriOf(xs, entry.error) == entry.typeUri
    ensures Consistent(xs + [entry])
  {
    assert forall x :: x in xs + [entry] <==> x in xs || x == entry;
    forall x | x in xs ensures !Conflict(x, entry) && !Conflict(entry, x) {
      if x.typeUri.Some? { UriOfConsistent(xs, x); }
    }
  }

  lemma MergedStep(xs: seq<Entry>, order: seq<Error>, merged: map<Error, Entry>, entry: Entry)
    requires Merged(xs, order, merged)
    requires entry.error in merged && merged[entry.error].typeUri.Some? && entry.typeUri.Some? ==>
               merged[entry.error].typeUri == entry.typeUri
    ensures var order' := if entry.error in merged then order else order + [entry.error];
            Merged(xs + [entry], order', merged[entry.error := Absorbed(merged, entry)])
  {
    var ys := xs + [entry];
    UriFrom(xs, entry.error);
    StaysConsistent(xs, entry);
    ErrorsConcat(xs, [entry], {});
    forall e
      ensures UriOf(ys, e) == if UriOf(xs, e).Some? then UriOf(xs, e) else UriOf([entry], e)
      ensures SourceOf(ys, e) == if SourceOf(xs, e).Some? then SourceOf(xs, e) else SourceOf([entry], e)
      ensures SourceOf(xs, e).Some? <==> Holds(xs, e)
      ensures Holds(ys, e) <==> Holds(xs, e) || e == entry.error
    {
      OfConcat(xs, [entry], e);
      SourceHolds(xs, e);
      assert forall x :: x in ys <==> x in xs || x == entry;
    }
    assert entry.error in (set x | x in xs :: x.error) <==> Holds(xs, entry.error);
    assert Errors([entry], (set x | x in xs :: x.error)) == if Holds(xs, entry.error) then [] else [entry.error];
    assert {} + (set x | x in xs :: x.error) == set x | x in xs :: x.error;
    var order' := if entry.error in merged then order else order + [entry.error];
    assert order' == Errors(ys, {});
    assert [entry][1..] == [];
    if x :| x in xs && x.error == entry.error {
      assert Holds(xs, entry.error);
    } else {
      assert UriOf(xs, entry.error).None?;
    }
    assert UriOf([entry], entry.error) == entry.typeUri;
    assert EntryOf(ys, entry.error) == Absorbed(merged, entry);
    forall e | e in merged && e != entry.error ensures merged[e] == EntryOf(ys, e) {
      assert UriOf([entry], e).None?;
    }
  }

  lemma ConcatSplit(registries: seq<seq<Entry>>, i: nat)
    requires i < |registries|
    ensures Concat(registries[..i + 1]) == Concat(registries[..i]) + registries[i]
  {
    if i == 0 {
      assert registries[..1] == [registries[0]];
      assert Concat([registries[0]]) == registries[0] + [];
    } else {
      assert registries[..i + 1][1..] == registries[1..][..i];
      assert registries[..i][1..] == registries[1..][..i - 1];
      ConcatSplit(registries[1..], i - 1);
    }
  }

  lemma {:induction false} ConcatHolds(registries: seq<seq<Entry>>, i: nat, x: Entry)
    requires i < |registries| && x in registries[i]
    ensures x in Concat(registries)
  {
    if i > 0 { ConcatHolds(registries[1..], i - 1, x); }
  }

  lemma ConflictFound(registries: seq<seq<Entry>>, i: nat, j: nat)
    requires i < |registries| && j < |registries[i]|
    requires var xs := Concat(registries[..i]) + registries[i][..j];
             var entry := registries[i][j];
             UriOf(xs, entry.error).Some? && entry.typeUri.Some? && UriOf(xs, entry.error) != entry.typeUri
    ensures !Consistent(Concat(registries))
  {
    var xs := Concat(registries[..i]) + registries[i][..j];
    var entry := registries[i][j];
    UriFrom(xs, entry.error);
    var x :| x in xs && x.error == entry.error && x.typeUri == UriOf(xs, entry.error);
    PrefixHolds(registries, i, j, x);
    ConcatHolds(registries, i, entry);
    assert Conflict(x, entry);
  }

  /** The loops of `merge`: fold all entries into one dictionary that remembers insertion order. */
  method JoinEntries(registries: seq<seq<Entry>>) returns (joined: Option<seq<Entry>>)
    ensures joined == if Consistent(Concat(registries)) then Some(Joined(Concat(registries))) else None
  {
    var order: seq<Error>, merged: map<Error, Entry> := [], map[];
    for i := 0 to |registries|
      invariant Merged(Concat(registries[..i]), order, merged)
    {
      ghost var before := Concat(registries[..i]);
      assert before + registries[i][..0] == before;
      for j := 0 to |registries[i]|
        invariant Merged(before + registries[i][..j], order, merged)
      {
        var entry := registries[i][j];
        if entry.error in merged && merged[entry.error].typeUri.Some? && entry.typeUri.Some?
           && merged[entry.error].typeUri != entry.typeUri
        {
          ConflictFound(registries, i, j);
          return None;
        }
        MergedStep(before + registries[i][..j], order, merged, entry);
        assert before + registries[i][..j + 1] == before + registries[i][..j] + [entry];
        if entry.error !in merged {
          order := order + [entry.error];
        }
        merged := merged[entry.error := Absorbed(merged, entry)];
      }
      assert registries[i][..|registries[i]|] == registries[i];
      ConcatSplit(registries, i);
    }
    assert registries[..|registries|] == registries;
    ErrorsListed(Concat(registries), {});
    joined := Some(seq(|order|, k requires 0 <= k < |order| && order[k] in merged => merged[order[k]]));
    assert joined.value == Joined(Concat(registries));
  }

  /** `merge`: join, resolve open URIs against the base, validate. */
  method MergeRegistries(registries: seq<seq<Entry>>, base: Option<Name>)
      returns (entries: seq<Entry>, byException: Option<map<Name, Entry>>)
    ensures byException.Some? <==>
              Consistent(Concat(registries)) && Identifying(Completed(Joined(Concat(registries)), base))
    ensures byException.Some? ==>
              && entries == Completed(Joined(Concat(registries)), base)
              && WellFormed(entries) && Maps(byException.value, entries)
    ensures base.None? ==> (byException.Some? <==> Merge(registries).Some?)
    ensures base.None? && byException.Some? ==> Merge(registries) == Some(entries)
  {
    var joined := JoinEntries(registries);
    if joined.None? {
      return [], None;
    }
    entries := Completed(joined.value, base);
    byException := ValidateCollisions(entries);
    ErrorsListed(Concat(registries), {});
    assert base.None? ==> entries == joined.value;
  }

  lemma PrefixHolds(registries: seq<seq<Entry>>, i: nat, j: nat, x: Entry)
    requires i < |registries| && j <= |registries[i]|
    requires x in Concat(registries[..i]) + registries[i][..j]
    ensures x in Concat(registries)
  {
    if x in registries[i][..j] {
      ConcatHolds(registries, i, x);
    } else {
      PrefixConcat(registries, i, x);
    }
  }

  lemma {:induction false} PrefixConcat(registries: seq<seq<Entry>>, i: nat, x: Entry)
    requires i <= |registries| && x in Concat(registries[..i])
    ensures x in Concat(registries)
  {
    if i > 0 {
      assert registries[..i][1..] == registries[1..][..i - 1];
      if x !in registries[0] { PrefixConcat(registries[1..], i - 1, x); }
    }
  }

  // ----- declaring errors

  // An entry for every error that is passed, repeated ones included.
  function Declared(errors: seq<Error>, source: Name, base: Option<Name>): (r: seq<Entry>)
    ensures |r| == |errors|
    ensures forall i :: 0 <= i < |r| ==> r[i] == Entry(errors[i], ResolveUri(errors[i], base), source)
  {
    seq(|errors|, i requires 0 <= i < |errors| => Entry(errors[i], ResolveUri(errors[i], base), source))
  }

  lemma {:induction false} DeclaredSays(errors: seq<Error>, source: Name, base: Option<Name>, e: Error)
    ensures UriOf(Declared(errors, source, base), e) == if e in errors then ResolveUri(e, base) else None
    ensures SourceOf(Declared(errors, source, base), e) == if e in errors then Some(source) else None
  {
    if errors != [] {
      assert Declared(errors, source, base)[1..] == Declared(errors[1..], source, base);
      DeclaredSays(errors[1..], source, base, e);
    }
  }

  lemma DeclaredJoined(errors: seq<Error>, source: Name, base: Option<Name>)
    ensures Consistent(Declared(errors, source, base))
    ensures var xs := Declared(errors, source, base);
            Joined(xs) == Declared(Errors(xs, {}), source, base) && forall e :: e in Errors(xs, {}) <==> e in errors
  {
    var xs := Declared(errors, source, base);
    ErrorsListed(xs, {});
    forall e ensures Holds(xs, e) <==> e in errors {
      if e in errors {
        var i :| 0 <= i < |errors| && errors[i] == e;
        assert xs[i].error == e;
      }
    }
    forall e | e in errors ensures EntryOf(xs, e) == Entry(e, ResolveUri(e, base), source) {
      DeclaredSays(errors, source, base, e);
    }
    assert forall i :: 0 <= i < |Joined(xs)| ==> Joined(xs)[i] == EntryOf(xs, Errors(xs, {})[i]);
  }

  /** `__init__`: a registry is rejected exactly when two of its errors share a key, repeated ones count once,
      and it is what merging their entries gives. */
  method Construct(errors: seq<Error>, source: Name, base: Option<Name>)
      returns (entries: seq<Entry>, byException: Option<map<Name, Entry>>)
    ensures byException.Some? <==> Identifying(Declared(errors, source, base))
    ensures byException.Some? ==>
              && Merge([Declared(errors, source, base)]) == Some(entries)
              && WellFormed(entries) && Maps(byException.value, entries)
  {
    ghost var declared := Declared(errors, source, base);
    entries := [];
    var seen: set<Error> := {};
    for i := 0 to |errors|
      invariant seen == set x | x in declared[..i] :: x.error
      invariant entries == Declared(Errors(declared[..i], {}), source, base)
    {
      assert declared[..i + 1] == declared[..i] + [declared[i]];
      ErrorsConcat(declared[..i], [declared[i]], {});
      assert {} + seen == seen;
      if errors[i] !in seen {
        seen := seen + {errors[i]};
        entries := entries + [Entry(errors[i], ResolveUri(errors[i], base), source)];
      }
    }
    assert declared[..|errors|] == declared;
    DeclaredJoined(errors, source, base);
    JoinedIdentifying(declared);
    ErrorsListed(declared, {});
    ConcatOne(declared);
    byException := ValidateCollisions(entries);
  }

  /** Declaring errors together is declaring them apart and merging. */
  lemma DeclaredTogether(a: seq<Error>, b: seq<Error>, source: Name, base: Option<Name>)
    ensures Merge([Declared(a + b, source, base)]) ==
            MergeWith(Merge([Declared(a, source, base)]), Merge([Declared(b, source, base)]))
  {
    var xs, ys := Declared(a, source, base), Declared(b, source, base);
    assert Declared(a + b, source, base) == xs + ys;
    MergedApart(xs, ys);
  }

  lemma ConcatOne(xs: seq<Entry>)
    ensures Concat([xs]) == xs
  {
    assert [xs][1..] == [];
    assert xs + Concat([]) == xs;
  }

  lemma MergedApart(xs: seq<Entry>, ys: seq<Entry>)
    ensures Merge([xs + ys]) == MergeWith(Merge([xs]), Merge([ys]))
  {
    ConcatOne(xs + ys);
    ConcatOne(xs);
    ConcatOne(ys);
    MergeExact([xs + ys]);
    MergeExact([xs]);
    MergeExact([ys]);
    if Compatible(xs) && Compatible(ys) {
      CompatibleJoined(xs, Joined(ys));
      CompatibleJoined(ys, xs);
      PairConcat(Joined(xs), Joined(ys));
      MergeExact([Joined(xs), Joined(ys)]);
      JoinedParts(xs, Joined(ys));
      JoinedParts(xs, ys);
    } else if Compatible(xs + ys) {
      CompatiblePrefix(xs, ys);
    }
  }

  // ----- using a registry

  /** `resolve`: the error of the first class in the exception's own order that has one. */
  function Lookup(byException: map<Name, Entry>, order: seq<Name>): Option<Error> {
    if order == [] then None
    else if order[0] in byException then Some(byException[order[0]].error)
    else Lookup(byException, order[1..])
  }

  /** The error found is that of the first class that has one. */
  lemma {:induction false} LookupFirst(byException: map<Name, Entry>, order: seq<Name>) returns (i: nat)
    ensures i <= |order| && forall j :: 0 <= j < i ==> order[j] !in byException
    ensures match Lookup(byException, order)
            case None => i == |order|
            case Some(e) => i < |order| && order[i] in byException && byException[order[i]].error == e
  {
    if order == [] || order[0] in byException {
      i := 0;
    } else {
      i := LookupFirst(byException, order[1..]);
      i := i + 1;
    }
  }

  method Resolve(byException: map<Name, Entry>, order: seq<Name>) returns (error: Option<Error>)
    ensures error == Lookup(byException, order)
  {
    assert order[0..] == order;
    for i := 0 to |order|
      invariant Lookup(byException, order) == Lookup(byException, order[i..])
    {
      assert order[i..][1..] == order[i + 1..];
      if order[i] in byException {
        return Some(byException[order[i]].error);
      }
    }
    return None;
  }

  /** Membership by definition identity, and the URI of a member, are read off the exception index. */
  lemma MembershipByException(xs: seq<Entry>, byException: map<Name, Entry>, e: Error)
    requires WellFormed(xs) && Maps(byException, xs)
    ensures Holds(xs, e) <==> e.exception in byException && byException[e.exception].error == e
    ensures Holds(xs, e) ==> byException[e.exception].typeUri == UriOf(xs, e)
  {
    if x :| x in xs && x.error == e {
      var y := byException[e.exception];
      assert !Collide(x, y);
      var i :| 0 <= i < |xs| && xs[i] == y;
      EntryInDistinct(xs, i);
    }
  }
}
