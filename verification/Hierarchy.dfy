/**
 The C3 merge of `fastapi_canon/checks/source.py`: its specification `Merge`, the loop that pops the
 lists in place, and the proof that the merge finds an order exactly when one exists.
 */
module Linearization {
  import opened Wrappers

  // A fully qualified name, such as `builtins.Exception`.
  datatype Name = Name(text: string)

  ghost predicate Distinct(order: seq<Name>) {
    forall i, j :: 0 <= i < j < |order| ==> order[i] != order[j]
  }

  ghost predicate Listed(seqs: seq<seq<Name>>, x: Name) {
    exists s :: s in seqs && x in s
  }

  // The least position of `x`, or the length when `x` is absent.
  ghost function Index(order: seq<Name>, x: Name): (k: nat)
    ensures x in order <==> k < |order|
  {
    if order == [] || order[0] == x then 0 else 1 + Index(order[1..], x)
  }

  // `x` stands at some position of `s` and `y` at a later one.
  ghost predicate Before(s: seq<Name>, x: Name, y: Name) {
    exists i, j :: 0 <= i < j < |s| && s[i] == x && s[j] == y
  }

  // `order` lists everything in `s`, each entry of `s` strictly after the ones before it.
  ghost predicate Respects(order: seq<Name>, s: seq<Name>) {
    && (forall x :: x in s ==> x in order)
    && (forall x, y :: Before(s, x, y) ==> Index(order, x) < Index(order, y))
  }

  ghost predicate Linearizes(order: seq<Name>, seqs: seq<seq<Name>>) {
    Distinct(order) && forall s :: s in seqs ==> Respects(order, s)
  }

  // `x` comes before `y` in one of the lists.
  ghost predicate Precedes(seqs: seq<seq<Name>>, x: Name, y: Name) {
    exists s :: s in seqs && Before(s, x, y)
  }

  ghost predicate HasPredecessor(seqs: seq<seq<Name>>, circle: set<Name>, y: Name) {
    exists x :: x in circle && Precedes(seqs, x, y)
  }

  // A non-empty set in which every class has a predecessor, so precedence runs in a circle.
  ghost predicate Cyclic(seqs: seq<seq<Name>>, circle: set<Name>) {
    circle != {} && forall y :: y in circle ==> HasPredecessor(seqs, circle, y)
  }

  predicate Exhausted(seqs: seq<seq<Name>>) {
    forall s :: s in seqs ==> s == []
  }

  predicate Blocked(seqs: seq<seq<Name>>, c: Name) {
    exists s :: s in seqs && s != [] && c in s[1..]
  }

  predicate Free(seqs: seq<seq<Name>>, i: nat)
    requires i < |seqs|
  {
    seqs[i] != [] && !Blocked(seqs, seqs[i][0])
  }

  // The first list, from `i` on, whose head is in no tail.
  function FreeFrom(seqs: seq<seq<Name>>, i: nat): (r: Option<nat>)
    requires i <= |seqs|
    ensures r.Some? ==> i <= r.value < |seqs| && Free(seqs, r.value)
    ensures r.Some? ==> forall k :: i <= k < r.value ==> !Free(seqs, k)
    ensures r.None? ==> forall k :: i <= k < |seqs| ==> !Free(seqs, k)
    decreases |seqs| - i
  {
    if i == |seqs| then None
    else if Free(seqs, i) then Some(i)
    else FreeFrom(seqs, i + 1)
  }

  function Pop(s: seq<Name>, c: Name): seq<Name> {
    if s != [] && s[0] == c then s[1..] else s
  }

  function PopAll(seqs: seq<seq<Name>>, c: Name): (r: seq<seq<Name>>)
    ensures |r| == |seqs| && forall i :: 0 <= i < |seqs| ==> r[i] == Pop(seqs[i], c)
  {
    seq(|seqs|, i requires 0 <= i < |seqs| => Pop(seqs[i], c))
  }

  function Size(seqs: seq<seq<Name>>): nat {
    if seqs == [] then 0 else |seqs[0]| + Size(seqs[1..])
  }

  lemma PopShrinks(seqs: seq<seq<Name>>, c: Name)
    ensures Size(PopAll(seqs, c)) <= Size(seqs)
    ensures (exists s :: s in seqs && s != [] && s[0] == c) ==> Size(PopAll(seqs, c)) < Size(seqs)
  {
    if seqs != [] {
      assert PopAll(seqs, c)[1..] == PopAll(seqs[1..], c);
      PopShrinks(seqs[1..], c);
      if s :| s in seqs && s != [] && s[0] == c {
        assert s == seqs[0] || s in seqs[1..];
      }
    }
  }

  /** What the merge yields after the class itself; `None` when no head can be picked. */
  function Merge(seqs: seq<seq<Name>>): Option<seq<Name>>
    decreases Size(seqs)
  {
    if Exhausted(seqs) then Some([])
    else
      match FreeFrom(seqs, 0)
      case None => None
      case Some(i) =>
        PopShrinks(seqs, seqs[i][0]);
        Prefixed([seqs[i][0]], Merge(PopAll(seqs, seqs[i][0])))
  }

  function Prefixed(first: seq<Name>, rest: Option<seq<Name>>): Option<seq<Name>> {
    match rest
    case None => None
    case Some(r) => Some(first + r)
  }

  // Anything that stands before `y` is `c` itself, or stands before `y` once `c` is popped.
  lemma BeforePopped(s: seq<Name>, c: Name, x: Name, y: Name)
    requires Before(s, x, y)
    ensures Before(Pop(s, c), x, y) || (s != Pop(s, c) && x == c && y in Pop(s, c))
  {
    var i, j :| 0 <= i < j < |s| && s[i] == x && s[j] == y;
    if s[0] == c {
      assert s[1..][j - 1] == y;
      if i > 0 { assert s[1..][i - 1] == x; }
    }
  }

  lemma RespectsExtended(c: Name, rest: seq<Name>, s: seq<Name>)
    requires c !in Pop(s, c) && Respects(rest, Pop(s, c))
    ensures Respects([c] + rest, s)
  {
    assert ([c] + rest)[1..] == rest;
    forall x, y | Before(s, x, y) ensures Index([c] + rest, x) < Index([c] + rest, y) {
      BeforePopped(s, c, x, y);
      var i, j :| 0 <= i < j < |s| && s[i] == x && s[j] == y;
    }
  }

  // A free head is gone from every list once it is popped.
  lemma FreePopped(seqs: seq<seq<Name>>, c: Name, s: seq<Name>)
    requires !Blocked(seqs, c) && s in seqs
    ensures c !in Pop(s, c) && Pop(s, c) in PopAll(seqs, c)
  {
    var k :| 0 <= k < |seqs| && seqs[k] == s;
    assert PopAll(seqs, c)[k] == Pop(s, c);
  }

  lemma PoppedFrom(seqs: seq<seq<Name>>, c: Name, p: seq<Name>) returns (s: seq<Name>)
    requires p in PopAll(seqs, c)
    ensures s in seqs && p == Pop(s, c)
  {
    var k :| 0 <= k < |seqs| && PopAll(seqs, c)[k] == p;
    s := seqs[k];
  }

  lemma ListedPopped(seqs: seq<seq<Name>>, c: Name, x: Name)
    requires !Blocked(seqs, c) && Listed(seqs, c)
    ensures Listed(seqs, x) <==> x == c || Listed(PopAll(seqs, c), x)
    ensures !Listed(PopAll(seqs, c), c)
  {
    if s :| s in seqs && x in s {
      FreePopped(seqs, c, s);
    }
    if p :| p in PopAll(seqs, c) && x in p {
      var s := PoppedFrom(seqs, c, p);
    }
    if p :| p in PopAll(seqs, c) && c in p {
      var s := PoppedFrom(seqs, c, p);
      FreePopped(seqs, c, s);
    }
  }

  /** A merge that succeeds lists every class once and keeps every list's order. */
  lemma {:induction false} MergeSound(seqs: seq<seq<Name>>)
    requires Merge(seqs).Some?
    ensures Linearizes(Merge(seqs).value, seqs)
    ensures forall x :: x in Merge(seqs).value <==> Listed(seqs, x)
    decreases Size(seqs)
  {
    if !Exhausted(seqs) {
      var i := FreeFrom(seqs, 0).value;
      var c := seqs[i][0];
      PopShrinks(seqs, c);
      MergeSound(PopAll(seqs, c));
      var rest := Merge(PopAll(seqs, c)).value;
      assert c in seqs[i];
      forall x ensures x in [c] + rest <==> Listed(seqs, x) { ListedPopped(seqs, c, x); }
      ListedPopped(seqs, c, c);
      forall s | s in seqs ensures Respects([c] + rest, s) {
        FreePopped(seqs, c, s);
        RespectsExtended(c, rest, s);
      }
    }
  }

  // Popping keeps a suffix of each list, so its precedences were there before.
  lemma PrecedesBefore(seqs: seq<seq<Name>>, c: Name, x: Name, y: Name)
    requires Precedes(PopAll(seqs, c), x, y)
    ensures Precedes(seqs, x, y)
  {
    var p :| p in PopAll(seqs, c) && Before(p, x, y);
    var s := PoppedFrom(seqs, c, p);
    var i, j :| 0 <= i < j < |p| && p[i] == x && p[j] == y;
    var shift := |s| - |p|;
    assert s[i + shift] == x && s[j + shift] == y;
    assert Before(s, x, y);
  }

  lemma BlockedHasPredecessor(seqs: seq<seq<Name>>, y: Name) returns (head: Name)
    requires Blocked(seqs, y)
    ensures Precedes(seqs, head, y) && exists s :: s in seqs && s != [] && s[0] == head
  {
    var s :| s in seqs && s != [] && y in s[1..];
    var j :| 0 <= j < |s[1..]| && s[1..][j] == y;
    head := s[0];
    assert s[0] == head && s[j + 1] == y;
    assert Before(s, head, y);
  }

  /** A merge that gets stuck leaves blocked heads whose precedences run in a circle. */
  lemma {:induction false} MergeStuck(seqs: seq<seq<Name>>) returns (circle: set<Name>)
    requires Merge(seqs).None?
    ensures Cyclic(seqs, circle)
    decreases Size(seqs)
  {
    match FreeFrom(seqs, 0)
    case Some(i) =>
      PopShrinks(seqs, seqs[i][0]);
      circle := MergeStuck(PopAll(seqs, seqs[i][0]));
      forall y | y in circle ensures HasPredecessor(seqs, circle, y) {
        assert HasPredecessor(PopAll(seqs, seqs[i][0]), circle, y);
        var x :| x in circle && Precedes(PopAll(seqs, seqs[i][0]), x, y);
        PrecedesBefore(seqs, seqs[i][0], x, y);
      }
    case None =>
      circle := set s | s in seqs && s != [] :: s[0];
      var nonEmpty :| nonEmpty in seqs && nonEmpty != [];
      assert nonEmpty[0] in circle;
      forall y | y in circle ensures HasPredecessor(seqs, circle, y) {
        var s :| s in seqs && s != [] && s[0] == y;
        var i :| 0 <= i < |seqs| && seqs[i] == s;
        assert !Free(seqs, i);
        var x := BlockedHasPredecessor(seqs, y);
        assert x in circle;
      }
  }

  /** No order respects lists whose precedences run in a circle. */
  lemma CycleHasNoOrder(seqs: seq<seq<Name>>, circle: set<Name>, order: seq<Name>)
    requires Cyclic(seqs, circle)
    ensures !Linearizes(order, seqs)
  {
    if Linearizes(order, seqs) {
      var y :| y in circle;
      NoFirstMember(seqs, circle, order, y);
    }
  }

  lemma EarlierMember(seqs: seq<seq<Name>>, circle: set<Name>, order: seq<Name>, y: Name) returns (x: Name)
    requires HasPredecessor(seqs, circle, y) && Linearizes(order, seqs)
    ensures x in circle && Index(order, x) < Index(order, y)
  {
    x :| x in circle && Precedes(seqs, x, y);
    var s :| s in seqs && Before(s, x, y);
    assert Respects(order, s);
  }

  // Every member of a circle has an earlier one in `order`, without end.
  lemma {:induction false} NoFirstMember(seqs: seq<seq<Name>>, circle: set<Name>, order: seq<Name>, y: Name)
    requires Cyclic(seqs, circle) && Linearizes(order, seqs) && y in circle
    ensures false
    decreases Index(order, y)
  {
    var x := EarlierMember(seqs, circle, order, y);
    NoFirstMember(seqs, circle, order, x);
  }

  /** C3 completeness: the merge succeeds exactly when some total order respects every list. */
  lemma MergeComplete(seqs: seq<seq<Name>>)
    ensures Merge(seqs).Some? <==> exists order :: Linearizes(order, seqs)
  {
    if Merge(seqs).Some? {
      MergeSound(seqs);
    } else {
      var circle := MergeStuck(seqs);
      forall order ensures !Linearizes(order, seqs) { CycleHasNoOrder(seqs, circle, order); }
    }
  }

  // ----- which order it is

  // A list without the classes that are already ordered.
  function Rest(s: seq<Name>, done: set<Name>): seq<Name> {
    if s == [] then [] else (if s[0] in done then [] else [s[0]]) + Rest(s[1..], done)
  }

  function Rests(seqs: seq<seq<Name>>, done: set<Name>): (r: seq<seq<Name>>)
    ensures |r| == |seqs| && forall i :: 0 <= i < |seqs| ==> r[i] == Rest(seqs[i], done)
  {
    seq(|seqs|, i requires 0 <= i < |seqs| => Rest(seqs[i], done))
  }

  ghost predicate InTail(seqs: seq<seq<Name>>, x: Name) {
    exists s, k :: s in seqs && 0 < k < |s| && s[k] == x
  }

  // `x` heads the list at `i` and is in no tail, while the head of each earlier list is in one.
  ghost predicate HeadsAt(seqs: seq<seq<Name>>, x: Name, i: nat) {
    && i < |seqs| && seqs[i] != [] && seqs[i][0] == x && !InTail(seqs, x)
    && forall k :: 0 <= k < i && seqs[k] != [] ==> InTail(seqs, seqs[k][0])
  }

  ghost predicate FirstHead(seqs: seq<seq<Name>>, x: Name) {
    exists i :: HeadsAt(seqs, x, i)
  }

  function Names(order: seq<Name>): set<Name> {
    set x | x in order
  }

  // The C3 order: each entry is the first head that is in no tail once all entries before it are removed, and in the
  // end nothing is left.
  ghost predicate C3(order: seq<Name>, seqs: seq<seq<Name>>) {
    && (forall k :: 0 <= k < |order| ==> FirstHead(Rests(seqs, Names(order[..k])), order[k]))
    && (forall s :: s in seqs ==> Rest(s, Names(order)) == [])
  }

  lemma {:induction false} RestNothing(s: seq<Name>)
    ensures Rest(s, {}) == s
  {
    if s != [] {
      RestNothing(s[1..]);
      assert [s[0]] + s[1..] == s;
    }
  }

  lemma {:induction false} RestAbsent(s: seq<Name>, c: Name)
    requires c !in s
    ensures Rest(s, {c}) == s
  {
    if s != [] {
      RestAbsent(s[1..], c);
      assert [s[0]] + s[1..] == s;
    }
  }

  lemma {:induction false} RestTwice(s: seq<Name>, first: set<Name>, more: set<Name>)
    ensures Rest(Rest(s, first), more) == Rest(s, first + more)
  {
    if s != [] {
      RestTwice(s[1..], first, more);
      var rest := Rest(s[1..], first);
      if s[0] in first {
        assert [] + rest == rest;
      } else {
        assert ([s[0]] + rest)[0] == s[0] && ([s[0]] + rest)[1..] == rest;
        assert Rest([s[0]] + rest, more) == (if s[0] in more then [] else [s[0]]) + Rest(rest, more);
      }
    }
  }

  // A free head stands at the head only, so popping it is removing it.
  lemma PopRemoves(seqs: seq<seq<Name>>, c: Name)
    requires !Blocked(seqs, c)
    ensures PopAll(seqs, c) == Rests(seqs, {c})
  {
    forall i | 0 <= i < |seqs| ensures Pop(seqs[i], c) == Rest(seqs[i], {c}) {
      var s := seqs[i];
      assert s in seqs;
      if s != [] {
        assert c !in s[1..];
        RestAbsent(s[1..], c);
        if s[0] != c { RestAbsent(s, c); }
      }
    }
  }

  lemma RestsNothing(seqs: seq<seq<Name>>)
    ensures Rests(seqs, {}) == seqs
  {
    forall i | 0 <= i < |seqs| ensures Rests(seqs, {})[i] == seqs[i] { RestNothing(seqs[i]); }
  }

  lemma RestsTwice(seqs: seq<seq<Name>>, first: set<Name>, more: set<Name>)
    ensures Rests(Rests(seqs, first), more) == Rests(seqs, first + more)
  {
    forall i | 0 <= i < |seqs| ensures Rest(Rest(seqs[i], first), more) == Rest(seqs[i], first + more) {
      RestTwice(seqs[i], first, more);
    }
  }

  lemma BlockedInTail(seqs: seq<seq<Name>>, x: Name)
    ensures Blocked(seqs, x) <==> InTail(seqs, x)
  {
    if s :| s in seqs && s != [] && x in s[1..] {
      var j :| 0 <= j < |s[1..]| && s[1..][j] == x;
      assert s[j + 1] == x;
    }
    if s, k :| s in seqs && 0 < k < |s| && s[k] == x {
      assert s[1..][k - 1] == x;
    }
  }

  lemma PickedFirst(seqs: seq<seq<Name>>, x: Name)
    ensures FirstHead(seqs, x) <==> FreeFrom(seqs, 0).Some? && seqs[FreeFrom(seqs, 0).value][0] == x
  {
    forall y ensures Blocked(seqs, y) <==> InTail(seqs, y) { BlockedInTail(seqs, y); }
    if FreeFrom(seqs, 0).Some? {
      forall k | 0 <= k < FreeFrom(seqs, 0).value && seqs[k] != [] ensures Blocked(seqs, seqs[k][0]) {
        assert !Free(seqs, k);
      }
      assert HeadsAt(seqs, seqs[FreeFrom(seqs, 0).value][0], FreeFrom(seqs, 0).value);
    }
    if i :| HeadsAt(seqs, x, i) {
      assert Free(seqs, i);
    }
  }

  // Removing one class first does not change what is left after removing it with others.
  lemma C3Step(c: Name, rest: seq<Name>, seqs: seq<seq<Name>>)
    requires !Blocked(seqs, c)
    ensures C3([c] + rest, seqs) <==> FirstHead(seqs, c) && C3(rest, PopAll(seqs, c))
  {
    var order := [c] + rest;
    PopRemoves(seqs, c);
    RestsNothing(seqs);
    assert Names(order[..0]) == {};
    forall k | 0 <= k <= |rest| ensures Rests(PopAll(seqs, c), Names(rest[..k])) == Rests(seqs, Names(order[..k + 1])) {
      assert order[..k + 1] == [c] + rest[..k];
      assert Names(order[..k + 1]) == {c} + Names(rest[..k]);
      RestsTwice(seqs, {c}, Names(rest[..k]));
    }
    assert rest[..|rest|] == rest && order[..|order|] == order;
    C3Shifted(order, rest, seqs, PopAll(seqs, c));
  }

  lemma C3Shifted(order: seq<Name>, rest: seq<Name>, seqs: seq<seq<Name>>, popped: seq<seq<Name>>)
    requires |order| == |rest| + 1 && order[1..] == rest && |popped| == |seqs|
    requires Rests(seqs, Names(order[..0])) == seqs
    requires forall k :: 0 <= k <= |rest| ==> Rests(popped, Names(rest[..k])) == Rests(seqs, Names(order[..k + 1]))
    ensures C3(order, seqs) <==> FirstHead(seqs, order[0]) && C3(rest, popped)
  {
    hide FirstHead;
    assert rest[..|rest|] == rest && order[..|order|] == order;
    assert Rests(popped, Names(rest)) == Rests(seqs, Names(order));
    forall i | 0 <= i < |seqs| ensures Rest(popped[i], Names(rest)) == Rest(seqs[i], Names(order)) {
      assert Rests(popped, Names(rest))[i] == Rests(seqs, Names(order))[i];
    }
    if C3(order, seqs) {
      forall k | 0 <= k < |rest| ensures FirstHead(Rests(popped, Names(rest[..k])), rest[k]) {
        assert order[k + 1] == rest[k];
      }
      forall s | s in popped ensures Rest(s, Names(rest)) == [] {
        var i :| 0 <= i < |popped| && popped[i] == s;
        assert seqs[i] in seqs;
      }
    }
    if FirstHead(seqs, order[0]) && C3(rest, popped) {
      forall k | 0 <= k < |order| ensures FirstHead(Rests(seqs, Names(order[..k])), order[k]) {
        if k > 0 { assert order[k] == rest[k - 1] && order[..(k - 1) + 1] == order[..k]; }
      }
      forall s | s in seqs ensures Rest(s, Names(order)) == [] {
        var i :| 0 <= i < |seqs| && seqs[i] == s;
        assert popped[i] in popped;
      }
    }
  }

  /** The merge yields the C3 order and no other one. */
  lemma {:induction false} MergeIsC3(seqs: seq<seq<Name>>, order: seq<Name>)
    ensures Merge(seqs) == Some(order) <==> C3(order, seqs)
    decreases Size(seqs)
  {
    RestsNothing(seqs);
    if order == [] {
      assert Names([]) == {};
      NothingLeft(seqs);
    } else {
      var c, rest := order[0], order[1..];
      assert order == [c] + rest && order[..0] == [] && Names([]) == {};
      PickedFirst(seqs, c);
      if FirstHead(seqs, c) {
        var i := FreeFrom(seqs, 0).value;
        PopShrinks(seqs, c);
        MergeIsC3(PopAll(seqs, c), rest);
        C3Step(c, rest, seqs);
        PrefixedExactly(c, rest, Merge(PopAll(seqs, c)));
      }
    }
  }

  lemma PrefixedExactly(c: Name, rest: seq<Name>, merged: Option<seq<Name>>)
    ensures Prefixed([c], merged) == Some([c] + rest) <==> merged == Some(rest)
  {
    if merged.Some? {
      assert ([c] + merged.value)[1..] == merged.value && ([c] + rest)[1..] == rest;
    }
  }

  lemma NothingLeft(seqs: seq<seq<Name>>)
    ensures Merge(seqs) == Some([]) <==> Exhausted(seqs)
    ensures C3([], seqs) <==> Exhausted(seqs)
  {
    assert Names([]) == {};
    forall s ensures Rest(s, {}) == s { RestNothing(s); }
  }

  /** No two orders satisfy the rule. */
  lemma C3Unique(seqs: seq<seq<Name>>, a: seq<Name>, b: seq<Name>)
    requires C3(a, seqs) && C3(b, seqs)
    ensures a == b
  {
    MergeIsC3(seqs, a);
    MergeIsC3(seqs, b);
  }

  lemma PrefixedStep(first: seq<Name>, c: Name, rest: Option<seq<Name>>)
    ensures Prefixed(first, Prefixed([c], rest)) == Prefixed(first + [c], rest)
  {
    if rest.Some? {
      assert first + ([c] + rest.value) == first + [c] + rest.value;
    }
  }

  /** The inner loop of `_mro`: pop the candidate off every list it heads. */
  method PopHeads(initial: seq<seq<Name>>, candidate: Name) returns (sequences: seq<seq<Name>>)
    ensures sequences == PopAll(initial, candidate)
  {
    sequences := initial;
    for i := 0 to |sequences|
      invariant |sequences| == |initial|
      invariant forall k :: 0 <= k < i ==> sequences[k] == Pop(initial[k], candidate)
      invariant forall k :: i <= k < |initial| ==> sequences[k] == initial[k]
    {
      if sequences[i] != [] && sequences[i][0] == candidate {
        sequences := sequences[i := sequences[i][1..]];
      }
    }
  }

  /** The loop of `_mro`: pick the first free head, append it, pop it off every list it heads. */
  method MergeInto(name: Name, initial: seq<seq<Name>>) returns (order: Option<seq<Name>>)
    ensures order == Prefixed([name], Merge(initial))
  {
    var sequences := initial;
    var result := [name];
    while !Exhausted(sequences)
      invariant Prefixed([name], Merge(initial)) == Prefixed(result, Merge(sequences))
      decreases Size(sequences)
    {
      var found := FreeFrom(sequences, 0);
      if found.None? {
        return None;
      }
      var candidate := sequences[found.value][0];
      PopShrinks(sequences, candidate);
      var popped := PopHeads(sequences, candidate);
      PrefixedStep(result, candidate, Merge(popped));
      result := result + [candidate];
      sequences := popped;
    }
    order := Some(result);
    assert result + [] == result;
  }
}

/**
 Method resolution orders: `_mro` computes the order of a class from its bases' orders, `mro` keeps
 every result, including those reached while other classes were still being resolved.
 */
module Hierarchy {
  import opened Wrappers
  import opened Linearization

  const OBJECT := Name("builtins.object")
  const EXCEPTION := Name("builtins.Exception")

  // `leaves` holds the built-in types and marker bases with their fixed orders, `scanned` each class
  // of the source with its bases in order; a base that could not be resolved is `None`.
  datatype Classes = Classes(leaves: map<Name, seq<Name>>, scanned: map<Name, seq<Option<Name>>>)

  // The interpreter's own orders list each type once, and only types it knows.
  ghost predicate WellFormed(t: Classes) {
    forall n :: n in t.leaves ==> Distinct(t.leaves[n]) && forall e :: e in t.leaves[n] ==> e in t.leaves
  }

  function Bases(t: Classes, name: Name): (bases: seq<Option<Name>>)
    requires name in t.scanned
    ensures bases != []
  {
    if t.scanned[name] == [] then [Some(OBJECT)] else t.scanned[name]
  }

  // The lists that `_mro` merges: the order of each base, then the bases themselves.
  function BaseLists(t: Classes, bases: seq<Option<Name>>, seen: set<Name>): (r: Option<(seq<seq<Name>>, seq<Name>)>)
    ensures r.Some? ==> |r.value.0| == |r.value.1| == |bases|
    ensures r.Some? ==> forall i :: 0 <= i < |bases| ==> bases[i] == Some(r.value.1[i])
    decreases t.scanned.Keys - seen, |bases|
  {
    if bases == [] then Some(([], []))
    else if bases[0].None? then None
    else
      match Mro(t, bases[0].value, seen)
      case None => None
      case Some(order) =>
        match BaseLists(t, bases[1..], seen)
        case None => None
        case Some(rest) => Some(([order] + rest.0, [bases[0].value] + rest.1))
  }

  /** `mro` without its cache: the order of `name`, resolving it on behalf of the classes in `seen`. */
  function Mro(t: Classes, name: Name, seen: set<Name>): Option<seq<Name>>
    decreases t.scanned.Keys - seen, 0
  {
    if name in seen then None
    else if name in t.leaves then Some(t.leaves[name])
    else if name !in t.scanned then None
    else
      match BaseLists(t, Bases(t, name), seen + {name})
      case None => None
      case Some(lists) => Prefixed([name], Merge(lists.0 + [lists.1]))
  }

  function Order(t: Classes, name: Name): Option<seq<Name>> {
    Mro(t, name, {})
  }

  predicate IsException(t: Classes, name: Name) {
    Order(t, name).Some? && EXCEPTION in Order(t, name).value
  }

  // ----- the chain of classes being resolved does not change an order that exists

  lemma {:induction false} MroForgets(t: Classes, name: Name, seen: set<Name>, fewer: set<Name>)
    requires Mro(t, name, seen).Some? && fewer <= seen
    ensures Mro(t, name, fewer) == Mro(t, name, seen)
    decreases t.scanned.Keys - seen, 0
  {
    if name !in t.leaves {
      BaseListsForget(t, Bases(t, name), seen + {name}, fewer + {name});
    }
  }

  lemma {:induction false} BaseListsForget(t: Classes, bases: seq<Option<Name>>, seen: set<Name>, fewer: set<Name>)
    requires BaseLists(t, bases, seen).Some? && fewer <= seen
    ensures BaseLists(t, bases, fewer) == BaseLists(t, bases, seen)
    decreases t.scanned.Keys - seen, |bases|
  {
    if bases != [] {
      MroForgets(t, bases[0].value, seen, fewer);
      BaseListsForget(t, bases[1..], seen, fewer);
    }
  }

  // The entries of `BaseLists` are the orders of the single bases.
  lemma {:induction false} BaseListsAt(t: Classes, bases: seq<Option<Name>>, seen: set<Name>, i: nat)
    requires BaseLists(t, bases, seen).Some? && i < |bases|
    ensures Mro(t, bases[i].value, seen) == Some(BaseLists(t, bases, seen).value.0[i])
  {
    if i > 0 { BaseListsAt(t, bases[1..], seen, i - 1); }
  }

  lemma {:induction false} LongerThanRespected(order: seq<Name>, s: seq<Name>, i: nat)
    requires Respects(order, s) && i < |s|
    ensures i <= Index(order, s[i]) < |order|
  {
    if i > 0 {
      LongerThanRespected(order, s, i - 1);
      assert Before(s, s[i - 1], s[i]);
    }
    assert s[i] in s;
  }

  /** The order of a class comes from its bases' own orders, each of them shorter. */
  lemma OrderFromBases(t: Classes, name: Name) returns (lists: seq<seq<Name>>, names: seq<Name>)
    requires Order(t, name).Some? && name !in t.leaves
    ensures name in t.scanned
    ensures |lists| == |names| == |Bases(t, name)|
    ensures BaseLists(t, Bases(t, name), {name}) == Some((lists, names))
    ensures Order(t, name) == Prefixed([name], Merge(lists + [names])) && Merge(lists + [names]).Some?
    ensures forall i :: 0 <= i < |names| ==>
              && Bases(t, name)[i] == Some(names[i])
              && Order(t, names[i]) == Some(lists[i])
              && |lists[i]| < |Order(t, name).value|
  {
    var pair := BaseLists(t, Bases(t, name), {name});
    assert {} + {name} == {name};
    lists, names := pair.value.0, pair.value.1;
    var all := lists + [names];
    MergeSound(all);
    forall i | 0 <= i < |names|
      ensures Order(t, names[i]) == Some(lists[i]) && |lists[i]| < |Order(t, name).value|
    {
      BaseListsAt(t, Bases(t, name), {name}, i);
      MroForgets(t, names[i], {name}, {});
      assert lists[i] == all[i];
      assert Respects(Merge(all).value, lists[i]);
      if lists[i] != [] { LongerThanRespected(Merge(all).value, lists[i], |lists[i]| - 1); }
    }
  }

  // A class waiting in the chain resolves only after `name`, to a longer order.
  ghost predicate Waiting(t: Classes, seen: set<Name>, name: Name) {
    forall s :: s in seen && Order(t, s).Some? ==>
      Order(t, name).Some? && |Order(t, name).value| < |Order(t, s).value|
  }

  lemma WaitingStep(t: Classes, seen: set<Name>, name: Name, base: Name)
    requires Waiting(t, seen, name) && name !in t.leaves && name in t.scanned && Some(base) in Bases(t, name)
    ensures Waiting(t, seen + {name}, base)
  {
    forall s | s in seen + {name} && Order(t, s).Some?
      ensures Order(t, base).Some? && |Order(t, base).value| < |Order(t, s).value|
    {
      var lists, names := OrderFromBases(t, name);
      var i :| 0 <= i < |Bases(t, name)| && Bases(t, name)[i] == Some(base);
      assert names[i] == base;
    }
  }

  lemma {:induction false} MroRemembers(t: Classes, name: Name, seen: set<Name>)
    requires Order(t, name).Some? && Waiting(t, seen, name)
    ensures Mro(t, name, seen) == Order(t, name)
    decreases t.scanned.Keys - seen
  {
    assert name !in seen;
    if name !in t.leaves {
      var lists, names := OrderFromBases(t, name);
      forall i | 0 <= i < |names| ensures Mro(t, names[i], seen + {name}) == Some(lists[i]) {
        assert Bases(t, name)[i] in Bases(t, name);
        WaitingStep(t, seen, name, names[i]);
        MroRemembers(t, names[i], seen + {name});
      }
      BaseListsOf(t, Bases(t, name), names, lists, seen + {name});
    }
  }

  /** Resolving on behalf of waiting classes gives what resolving from scratch gives. */
  lemma WaitingAgrees(t: Classes, seen: set<Name>, name: Name)
    requires Waiting(t, seen, name)
    ensures Mro(t, name, seen) == Order(t, name)
  {
    if Order(t, name).Some? {
      MroRemembers(t, name, seen);
    } else if Mro(t, name, seen).Some? {
      MroForgets(t, name, seen, {});
    }
  }

  // ----- what a successful order lists

  // Everything in an order is fixed, the class itself, or a class with a strictly shorter order.
  lemma {:induction false} OrderMembers(t: Classes, name: Name, e: Name)
    requires WellFormed(t) && Order(t, name).Some? && e in Order(t, name).value
    ensures e in t.leaves || e == name
            || (Order(t, e).Some? && |Order(t, e).value| < |Order(t, name).value|)
    decreases |Order(t, name).value|
  {
    if name !in t.leaves && e != name {
      var lists, names := OrderFromBases(t, name);
      hide Mro, Merge, Bases, WellFormed;
      assert e in Merge(lists + [names]).value;
      var i := MergedFrom(lists, names, e);
      if e !in names { OrderMembers(t, names[i], e); }
    }
  }

  // A class of a merge is in one of the orders, or a base itself.
  lemma MergedFrom(lists: seq<seq<Name>>, names: seq<Name>, e: Name) returns (i: nat)
    requires |lists| == |names| && Merge(lists + [names]).Some? && e in Merge(lists + [names]).value
    ensures i < |names| && if e in names then names[i] == e else e in lists[i]
  {
    MergeSound(lists + [names]);
    hide Merge, Linearizes;
    assert Listed(lists + [names], e);
    if e in names {
      i :| i < |names| && names[i] == e;
    } else {
      var k :| 0 <= k < |lists + [names]| && e in (lists + [names])[k];
      i := k;
    }
  }

  /** C3 correctness: the class comes first, nothing is listed twice, nothing is added or lost, the order of every
      base and of the base list itself is kept, and of all such orders it is the one that takes the first head
      that is in no tail. */
  lemma OrderCorrect(t: Classes, name: Name) returns (lists: seq<seq<Name>>, names: seq<Name>)
    requires WellFormed(t) && Order(t, name).Some? && name !in t.leaves
    ensures name in t.scanned && |lists| == |names| == |Bases(t, name)|
    ensures forall i :: 0 <= i < |names| ==> Bases(t, name)[i] == Some(names[i]) && Order(t, names[i]) == Some(lists[i])
    ensures var order := Order(t, name).value;
            && order[0] == name
            && Linearizes(order, lists + [names]) && C3(order[1..], lists + [names])
            && (forall x :: x in order <==> x == name || Listed(lists + [names], x))
  {
    hide C3, Merge, Mro, WellFormed, Linearizes, Listed;
    lists, names := OrderFromBases(t, name);
    var all := lists + [names];
    var rest := Merge(all).value;
    MergeSound(all);
    MergeIsC3(all, rest);
    NotAmongBases(t, name, lists, names);
    HeadLinearizes(name, rest, all);
    assert ([name] + rest)[1..] == rest;
  }

  // A class is in none of the lists that its order is merged from.
  lemma NotAmongBases(t: Classes, name: Name, lists: seq<seq<Name>>, names: seq<Name>)
    requires WellFormed(t) && Order(t, name).Some? && name !in t.leaves && |lists| == |names|
    requires forall i :: 0 <= i < |names| ==>
               Order(t, names[i]) == Some(lists[i]) && |lists[i]| < |Order(t, name).value|
    ensures !Listed(lists + [names], name)
  {
    if s :| s in lists + [names] && name in s {
      assert forall i :: 0 <= i < |names| ==> names[i] != name;
      if name !in names {
        var i :| 0 <= i < |lists| && lists[i] == s;
        OrderMembers(t, names[i], name);
      }
    }
  }

  lemma HeadLinearizes(name: Name, rest: seq<Name>, all: seq<seq<Name>>)
    requires Linearizes(rest, all) && !Listed(all, name) && forall x :: x in rest <==> Listed(all, x)
    ensures Linearizes([name] + rest, all)
  {
    forall s | s in all ensures Respects([name] + rest, s) {
      assert Respects(rest, s) && name !in s;
      RespectsExtended(name, rest, s);
    }
  }

  /** C3 completeness: with resolvable bases, only bases that no order can respect leave a class without one. */
  lemma OrderComplete(t: Classes, name: Name, names: seq<Name>, lists: seq<seq<Name>>)
    requires name in t.scanned && name !in t.leaves
    requires |names| == |lists| == |Bases(t, name)|
    requires forall i :: 0 <= i < |names| ==> Bases(t, name)[i] == Some(names[i]) && Mro(t, names[i], {name}) == Some(lists[i])
    ensures Order(t, name).Some? <==> exists order :: Linearizes(order, lists + [names])
  {
    BaseListsOf(t, Bases(t, name), names, lists, {name});
    assert {} + {name} == {name};
    MergeComplete(lists + [names]);
  }

  lemma {:induction false} BaseListsOf(
      t: Classes, bases: seq<Option<Name>>, names: seq<Name>, lists: seq<seq<Name>>, seen: set<Name>)
    requires |bases| == |names| == |lists|
    requires forall i :: 0 <= i < |bases| ==> bases[i] == Some(names[i]) && Mro(t, names[i], seen) == Some(lists[i])
    ensures BaseLists(t, bases, seen) == Some((lists, names))
  {
    if bases != [] {
      BaseListsOf(t, bases[1..], names[1..], lists[1..], seen);
      assert lists == [lists[0]] + lists[1..] && names == [names[0]] + names[1..];
    }
  }

  /** The part of `_Source` that answers order queries and remembers the answers. */
  class ClassIndex {
    const table: Classes
    var mros: map<Name, Option<seq<Name>>>

    // Whatever chain was active when an entry was made, it holds the order found from scratch.
    ghost predicate Valid()
      reads this
    {
      forall n :: n in mros ==> mros[n] == Order(table, n)
    }

    constructor (table: Classes)
      ensures Valid() && this.table == table && mros == map[]
    {
      this.table := table;
      mros := map[];
    }

    method Resolve(name: Name, seen: set<Name>) returns (order: Option<seq<Name>>)
      requires Valid() && Waiting(table, seen, name)
      modifies this`mros
      ensures Valid() && mros.Keys >= old(mros.Keys)
      ensures order == Order(table, name) == Mro(table, name, seen)
      decreases table.scanned.Keys - seen, 1
    {
      WaitingAgrees(table, seen, name);
      if name in seen {
        return None;
      }
      if name in mros {
        return mros[name];
      }
      order := Compute(name, seen);
      mros := mros[name := order];
    }

    method Compute(name: Name, seen: set<Name>) returns (order: Option<seq<Name>>)
      requires Valid() && Waiting(table, seen, name) && name !in seen
      modifies this`mros
      ensures Valid() && mros.Keys >= old(mros.Keys)
      ensures order == Order(table, name)
      decreases table.scanned.Keys - seen, 0
    {
      WaitingAgrees(table, seen, name);
      MroUnfolds(table, name, seen);
      hide Mro, Waiting, BaseLists, Merge, FirstBases;
      if name in table.leaves {
        return Some(table.leaves[name]);
      }
      if name !in table.scanned {
        return None;
      }
      var bases := Bases(table, name);
      var sequences, names := [], [];
      NoBases(table, bases, seen + {name});
      for i := 0 to |bases|
        invariant Valid() && mros.Keys >= old(mros.Keys)
        invariant FirstBases(table, bases, i, names, sequences, seen + {name})
      {
        if bases[i].None? {
          BaseListsFail(table, bases, seen + {name}, i);
          return None;
        }
        assert bases[i] in bases;
        WaitingStep(table, seen, name, bases[i].value);
        var base := Resolve(bases[i].value, seen + {name});
        if base.None? {
          BaseListsFail(table, bases, seen + {name}, i);
          return None;
        }
        NextBase(table, bases, i, names, sequences, seen + {name}, base.value);
        sequences, names := sequences + [base.value], names + [bases[i].value];
      }
      AllBases(table, bases, names, sequences, seen + {name});
      order := MergeInto(name, sequences + [names]);
    }
  }

  // The orders of the first `n` bases.
  ghost predicate FirstBases(
      t: Classes, bases: seq<Option<Name>>, n: nat, names: seq<Name>, lists: seq<seq<Name>>, seen: set<Name>)
  {
    n == |names| == |lists| <= |bases|
    && forall k :: 0 <= k < n ==> bases[k] == Some(names[k]) && Mro(t, names[k], seen) == Some(lists[k])
  }

  lemma NoBases(t: Classes, bases: seq<Option<Name>>, seen: set<Name>)
    ensures FirstBases(t, bases, 0, [], [], seen)
  {
  }

  lemma NextBase(
      t: Classes, bases: seq<Option<Name>>, n: nat, names: seq<Name>, lists: seq<seq<Name>>, seen: set<Name>, list: seq<Name>)
    requires FirstBases(t, bases, n, names, lists, seen) && n < |bases| && bases[n].Some?
    requires Mro(t, bases[n].value, seen) == Some(list)
    ensures FirstBases(t, bases, n + 1, names + [bases[n].value], lists + [list], seen)
  {
    hide Mro;
  }

  lemma AllBases(t: Classes, bases: seq<Option<Name>>, names: seq<Name>, lists: seq<seq<Name>>, seen: set<Name>)
    requires FirstBases(t, bases, |bases|, names, lists, seen)
    ensures BaseLists(t, bases, seen) == Some((lists, names))
  {
    BaseListsOf(t, bases, names, lists, seen);
  }

  lemma MroUnfolds(t: Classes, name: Name, seen: set<Name>)
    requires name !in seen
    ensures name in t.leaves ==> Mro(t, name, seen) == Some(t.leaves[name])
    ensures name !in t.leaves && name !in t.scanned ==> Mro(t, name, seen) == None
    ensures name !in t.leaves && name in t.scanned ==>
              Mro(t, name, seen) ==
              match BaseLists(t, Bases(t, name), seen + {name})
              case None => None
              case Some(lists) => Prefixed([name], Merge(lists.0 + [lists.1]))
  {
  }

  lemma {:induction false} BaseListsFail(t: Classes, bases: seq<Option<Name>>, seen: set<Name>, i: nat)
    requires i < |bases| && (bases[i].None? || Mro(t, bases[i].value, seen).None?)
    ensures BaseLists(t, bases, seen).None?
  {
    if i > 0 { BaseListsFail(t, bases[1..], seen, i - 1); }
  }
}
