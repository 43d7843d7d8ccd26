/**
 Addresses of problem schemas in a contract, `fastapi_canon/codegen/schema.py`: `_inline_problems` prints
 them, `_pointer` dereferences them. The text format is that of sections 3 and 4 of RFC 6901.
 */
module Pointers {
  import opened Wrappers
  import opened Json

  // ----- text

  // `s.replace(c, by)` for a single character.
  function ReplaceChar(s: string, c: char, text: string): string {
    if s == "" then "" else (if s[0] == c then text else [s[0]]) + ReplaceChar(s[1..], c, text)
  }

  // `s.replace(a + b, c)`: the leftmost occurrences, not overlapping.
  function ReplacePair(s: string, a: char, b: char, c: char): string {
    if s == "" then ""
    else if |s| >= 2 && s[0] == a && s[1] == b then [c] + ReplacePair(s[2..], a, b, c)
    else [s[0]] + ReplacePair(s[1..], a, b, c)
  }

  function Escape(key: string): string {
    ReplaceChar(ReplaceChar(key, '~', "~0"), '/', "~1")
  }

  function Unescape(name: string): string {
    ReplacePair(ReplacePair(name, '~', '1', '/'), '~', '0', '~')
  }

  function Split(s: string): (parts: seq<string>)
    ensures parts != []
  {
    if s == "" then [""]
    else
      var rest := Split(s[1..]);
      if s[0] == '/' then [""] + rest else [[s[0]] + rest[0]] + rest[1..]
  }

  // `str(index)`
  function Digit(d: nat): char
    requires d < 10
  {
    '0' + d as char
  }

  function Decimal(n: nat): (s: string)
    ensures s != ""
  {
    if n < 10 then [Digit(n)] else Decimal(n / 10) + [Digit(n % 10)]
  }

  // `int(name)`: an optional sign and digits, leading zeros allowed.
  function Digits(s: string): Option<nat> {
    if s == "" then None
    else
      var last := s[|s| - 1];
      if !('0' <= last <= '9') then None
      else if |s| == 1 then Some((last - '0') as nat)
      else
        match Digits(s[..|s| - 1])
        case None => None
        case Some(n) => Some(10 * n + (last - '0') as nat)
  }

  function Integer(s: string): (r: Option<int>) {
    if s != "" && (s[0] == '-' || s[0] == '+') then
      match Digits(s[1..])
      case None => None
      case Some(n) => Some(if s[0] == '-' then 0 - (n as int) else n as int)
    else
      match Digits(s)
      case None => None
      case Some(n) => Some(n)
  }

  // ----- dereferencing

  // `value[int(name)]` or `value[unescaped name]`; every failure is reported the same way.
  function Descend(v: Value, name: string): Option<Value> {
    match v
    case Array(items) =>
      (match Integer(name)
       case None => None
       case Some(i) =>
         if 0 <= i < |items| then Some(items[i])
         else if -|items| <= i < 0 then Some(items[|items| + i])
         else None)
    case Object(members) => Find(members, Unescape(name))
    case _ => None
  }

  function Follow(v: Value, names: seq<string>): Option<Value> {
    if names == [] then Some(v)
    else
      match Descend(v, names[0])
      case None => None
      case Some(child) => Follow(child, names[1..])
  }

  function Names(reference: string): seq<string> {
    Split(if |reference| >= 2 then reference[2..] else "")
  }

  /** `_pointer` as a function */
  function Pointer(document: Value, reference: string): Option<Value> {
    Follow(document, Names(reference))
  }

  /** `_pointer`, with its loop */
  method Dereference(document: Value, reference: string) returns (r: Option<Value>)
    ensures r == Pointer(document, reference)
  {
    var value := document;
    var names := Names(reference);
    assert names[0..] == names;
    for i := 0 to |names|
      invariant Follow(document, names) == Follow(value, names[i..])
    {
      assert names[i..][1..] == names[i + 1..];
      var child := Descend(value, names[i]);
      if child.None? {
        return None;
      }
      value := child.value;
    }
    return Some(value);
  }

  // ----- text round trips

  lemma {:induction false} Unescaped(key: string)
    ensures Unescape(Escape(key)) == key
    ensures '/' !in Escape(key)
  {
    SlashesBack(key);
    TildesBack(key);
    NoSlash(ReplaceChar(key, '~', "~0"));
  }

  // The text that stands for a character of a name: section 3 of RFC 6901.
  function Code(c: char): string {
    if c == '~' then "~0" else if c == '/' then "~1" else [c]
  }

  function Coded(key: string): string {
    if key == "" then "" else Code(key[0]) + Coded(key[1..])
  }

  // Reading such a text from the left; a `~` that begins no code stands for itself.
  function Decoded(text: string): string {
    if text == "" then ""
    else if |text| >= 2 && text[0] == '~' && text[1] == '0' then ['~'] + Decoded(text[2..])
    else if |text| >= 2 && text[0] == '~' && text[1] == '1' then ['/'] + Decoded(text[2..])
    else [text[0]] + Decoded(text[1..])
  }

  /** The two replacements, one after the other, encode each character by itself. */
  lemma {:induction false} EscapeCodes(key: string)
    ensures Escape(key) == Coded(key)
  {
    if key != "" {
      EscapeCodes(key[1..]);
      var rest := ReplaceChar(key[1..], '~', "~0");
      if key[0] == '~' {
        assert (['~', '0'] + rest)[1..] == ['0'] + rest && (['0'] + rest)[1..] == rest;
        assert ReplaceChar(['0'] + rest, '/', "~1") == ['0'] + ReplaceChar(rest, '/', "~1");
      } else {
        assert ([key[0]] + rest)[1..] == rest;
      }
    }
  }

  /** The two replacements back, in their order, read every text as codes from the left. */
  lemma {:induction false} UnescapeDecodes(text: string)
    ensures Unescape(text) == Decoded(text)
  {
    if text != "" {
      UnescapeDecodes(text[1..]);
      if |text| >= 2 && text[0] == '~' && (text[1] == '0' || text[1] == '1') {
        UnescapeDecodes(text[2..]);
        var rest := ReplacePair(text[2..], '~', '1', '/');
        if text[1] == '1' {
          assert (['/'] + rest)[1..] == rest;
        } else {
          assert text[1..][1..] == text[2..];
          assert ReplacePair(text[1..], '~', '1', '/') == ['0'] + rest;
          assert (['~'] + (['0'] + rest))[2..] == rest;
        }
      } else {
        var rest := ReplacePair(text[1..], '~', '1', '/');
        assert ReplacePair(text, '~', '1', '/') == [text[0]] + rest;
        assert ([text[0]] + rest)[1..] == rest;
      }
    }
  }

  lemma {:induction false} NoSlash(s: string)
    ensures '/' !in ReplaceChar(s, '/', "~1")
  {
    if s != "" { NoSlash(s[1..]); }
  }

  lemma {:induction false} SlashesBack(key: string)
    ensures var e := ReplaceChar(key, '~', "~0"); ReplacePair(ReplaceChar(e, '/', "~1"), '~', '1', '/') == e
  {
    if key != "" {
      SlashesBack(key[1..]);
      var rest := ReplaceChar(key[1..], '~', "~0");
      var e := ReplaceChar(key, '~', "~0");
      var r := ReplaceChar(rest, '/', "~1");
      if key[0] == '~' {
        assert e == "~0" + rest && e[1..] == "0" + rest && e[1..][1..] == rest;
        assert ReplaceChar(e[1..], '/', "~1") == "0" + r;
        assert ReplaceChar(e, '/', "~1") == "~" + ("0" + r);
        assert ("~" + ("0" + r))[1..] == "0" + r && ("0" + r)[1..] == r;
        assert ReplacePair("0" + r, '~', '1', '/') == "0" + rest;
        assert ReplacePair("~" + ("0" + r), '~', '1', '/') == "~" + ("0" + rest);
      } else if key[0] == '/' {
        assert e == "/" + rest && e[1..] == rest;
        assert ReplaceChar(e, '/', "~1") == "~1" + r;
        assert ("~1" + r)[2..] == r;
      } else {
        assert e == [key[0]] + rest && e[1..] == rest;
        assert ReplaceChar(e, '/', "~1") == [key[0]] + r;
        assert ([key[0]] + r)[1..] == r;
      }
    }
  }

  lemma {:induction false} TildesBack(key: string)
    ensures ReplacePair(ReplaceChar(key, '~', "~0"), '~', '0', '~') == key
  {
    if key != "" {
      TildesBack(key[1..]);
      var rest := ReplaceChar(key[1..], '~', "~0");
      if key[0] == '~' {
        assert ("~0" + rest)[2..] == rest;
      } else {
        assert ([key[0]] + rest)[1..] == rest;
      }
    }
  }

  lemma {:induction false} DecimalParses(n: nat)
    ensures Digits(Decimal(n)) == Some(n)
    ensures '/' !in Decimal(n) && Decimal(n)[0] != '-' && Decimal(n)[0] != '+'
  {
    if n >= 10 {
      DecimalParses(n / 10);
      assert Decimal(n)[..|Decimal(n)| - 1] == Decimal(n / 10);
    }
  }

  lemma {:induction false} SplitSlashFree(s: string)
    requires '/' !in s
    ensures Split(s) == [s]
  {
    if s != "" {
      SplitSlashFree(s[1..]);
      assert [s[0]] + s[1..] == s;
    }
  }

  lemma {:induction false} SplitAppend(s: string, name: string)
    requires '/' !in name
    ensures Split(s + "/" + name) == Split(s) + [name]
  {
    if s == "" {
      assert s + "/" + name == "/" + name && ("/" + name)[1..] == name;
      SplitSlashFree(name);
    } else {
      assert (s + "/" + name)[1..] == s[1..] + "/" + name;
      SplitAppend(s[1..], name);
    }
  }

  lemma {:induction false} FollowAppend(v: Value, names: seq<string>, name: string)
    ensures Follow(v, names + [name]) ==
            match Follow(v, names) case None => None case Some(u) => Descend(u, name)
  {
    if names == [] {
      assert [] + [name] == [name] && [name][1..] == [];
    } else {
      assert (names + [name])[1..] == names[1..] + [name];
      if Descend(v, names[0]).Some? { FollowAppend(Descend(v, names[0]).value, names[1..], name); }
    }
  }

  // `address` is the root or an address below it, and leads to `v`.
  ghost predicate LeadsTo(document: Value, address: string, v: Value) {
    if address == "#" then v == document
    else |address| >= 2 && address[..2] == "#/" && Pointer(document, address) == Some(v)
  }

  lemma AddressStep(document: Value, address: string, v: Value, name: string, child: Value)
    requires LeadsTo(document, address, v) && '/' !in name && Descend(v, name) == Some(child)
    ensures LeadsTo(document, address + "/" + name, child)
  {
    var next := address + "/" + name;
    if address == "#" {
      assert next[2..] == name;
      SplitSlashFree(name);
      assert Names(next) == [name] && [name][1..] == [];
      assert Follow(child, []) == Some(child);
    } else {
      assert next[..2] == "#/" && next[2..] == address[2..] + "/" + name;
      SplitAppend(address[2..], name);
      FollowAppend(document, Names(address), name);
    }
  }

  // ----- addresses whose names are read as they stand

  predicate PlainText(name: string) {
    forall i :: 0 <= i < |name| ==> name[i] != '~' && name[i] != '/'
  }

  lemma {:induction false} NothingReplaced(s: string, b: char, c: char)
    requires forall i :: 0 <= i < |s| ==> s[i] != '~'
    ensures ReplacePair(s, '~', b, c) == s
  {
    if s != "" { NothingReplaced(s[1..], b, c); }
  }

  lemma PlainUnescaped(name: string)
    requires PlainText(name)
    ensures Unescape(name) == name && '/' !in name
  {
    NothingReplaced(name, '1', '/');
    NothingReplaced(name, '0', '~');
  }

  lemma ChildAt(document: Value, address: string, v: Value, name: string, child: Value, next: string)
    requires LeadsTo(document, address, v) && Get(v, name) == Some(child) && PlainText(name)
    requires next == address + "/" + name
    ensures LeadsTo(document, next, child)
  {
    PlainUnescaped(name);
    AddressStep(document, address, v, name, child);
  }

  lemma Root(document: Value)
    ensures LeadsTo(document, "#", document)
  {
  }

  // The address of a value three members deep.
  lemma Deep(document: Value, a: string, first: Value, b: string, second: Value, c: string, third: Value)
    requires PlainText(a) && PlainText(b) && PlainText(c)
    requires Get(document, a) == Some(first) && Get(first, b) == Some(second) && Get(second, c) == Some(third)
    ensures LeadsTo(document, "#/" + a + "/" + b + "/" + c, third)
  {
    hide LeadsTo, Get, PlainText;
    assert "#" + "/" == "#/";
    Root(document);
    ChildAt(document, "#", document, a, first, "#/" + a);
    ChildAt(document, "#/" + a, first, b, second, "#/" + a + "/" + b);
    ChildAt(document, "#/" + a + "/" + b, second, c, third, "#/" + a + "/" + b + "/" + c);
  }

  lemma TwoDeep(document: Value, a: string, first: Value, b: string, second: Value)
    requires PlainText(a) && PlainText(b) && Get(document, a) == Some(first) && Get(first, b) == Some(second)
    ensures LeadsTo(document, "#/" + a + "/" + b, second)
  {
    hide LeadsTo, Get, PlainText;
    assert "#" + "/" == "#/";
    Root(document);
    ChildAt(document, "#", document, a, first, "#/" + a);
    ChildAt(document, "#/" + a, first, b, second, "#/" + a + "/" + b);
  }

  // ----- problem schemas

  const PROPERTIES := "properties"
  const PREFIX := "RFC 9457"

  predicate Truthy(v: Option<Value>) {
    v.Some? &&
    match v.value
    case Null => false
    case Bool(flag) => flag
    case Number(n) => n != 0
    case Text(s) => s != ""
    case Array(items) => items != []
    case Object(members) => members != []
  }

  /** `_problem_type` */
  function ProblemType(schema: Value): Option<string> {
    if !schema.Object? then None
    else
      var description := Get(schema, "description");
      if !Truthy(Get(schema, "x-canon-problem"))
         && !(description.Some? && description.value.Text? && PREFIX <= description.value.text) then None
      else
        match Get(schema, PROPERTIES)
        case None => None
        case Some(properties) =>
          var constant := match Get(properties, "type") case None => None case Some(t) => Get(t, "const");
          if constant.Some? && constant.value.Text? && constant.value.text != "about:blank"
             && Get(properties, "code").Some? && Get(properties, "title").Some?
          then Some(constant.value.text) else None
  }

  predicate Skipped(key: string) {
    key == "default" || key == "examples" || key == "example"
  }

  function Own(v: Value, address: string): seq<string> {
    if ProblemType(v).Some? then [address] else []
  }

  /** `_inline_problems` */
  function InlineProblems(v: Value, address: string): seq<string>
    decreases v, 0
  {
    match v
    case Array(items) => InItems(items, address, 0)
    case Object(members) => Own(v, address) + InMembers(members, address)
    case _ => []
  }

  function InItems(items: seq<Value>, address: string, index: nat): seq<string>
    decreases items, 0
  {
    if items == [] then []
    else InlineProblems(items[0], address + "/" + Decimal(index)) + InItems(items[1..], address, index + 1)
  }

  function InMember(m: Member, address: string): seq<string>
    decreases m, 0
  {
    if Skipped(m.key) then [] else InlineProblems(m.value, address + "/" + Escape(m.key))
  }

  function InMembers(members: seq<Member>, address: string): seq<string>
    decreases members, 0
  {
    if members == [] then [] else InMember(members[0], address) + InMembers(members[1..], address)
  }

  // ----- the round trip

  // A step that the search takes: into an item, or into a member it does not skip.
  datatype Step = Item(index: nat) | Key(key: string)

  // The value that a path of such steps leads to.
  function Sub(v: Value, path: seq<Step>): Option<Value> {
    if path == [] then Some(v)
    else
      match path[0]
      case Item(i) => if v.Array? && i < |v.items| then Sub(v.items[i], path[1..]) else None
      case Key(k) =>
        if v.Object? && !Skipped(k) && Find(v.members, k).Some? then Sub(Find(v.members, k).value, path[1..]) else None
  }

  function Segment(step: Step): string {
    match step
    case Item(i) => Decimal(i)
    case Key(k) => Escape(k)
  }

  function Print(address: string, path: seq<Step>): string
    decreases |path|
  {
    if path == [] then address else Print(address + "/" + Segment(path[0]), path[1..])
  }

  // `ref` is the printed address of a problem schema below `v`.
  ghost predicate Addresses(v: Value, address: string, ref: string, path: seq<Step>) {
    ref == Print(address, path) && Sub(v, path).Some? && ProblemType(Sub(v, path).value).Some?
  }

  /** Only addresses of problem schemas are printed. */
  lemma {:induction false} PrintedAddresses(v: Value, address: string, ref: string) returns (path: seq<Step>)
    requires WellFormed(v) && ref in InlineProblems(v, address)
    ensures Addresses(v, address, ref, path)
    decreases v, 0
  {
    match v
    case Array(items) =>
      assert items[0..] == items;
      path := PrintedInItems(v, 0, address, ref);
    case Object(members) =>
      if ref in Own(v, address) {
        path := [];
      } else {
        assert members[0..] == members;
        path := PrintedInMembers(v, 0, address, ref);
      }
  }

  lemma {:induction false} PrintedInItems(v: Value, i: nat, address: string, ref: string) returns (path: seq<Step>)
    requires v.Array? && i <= |v.items| && WellFormed(v)
    requires ref in InItems(v.items[i..], address, i)
    ensures Addresses(v, address, ref, path)
    decreases v, 0, |v.items| - i
  {
    assert v.items[i..][1..] == v.items[i + 1..];
    if ref in InlineProblems(v.items[i], address + "/" + Decimal(i)) {
      var rest := PrintedAddresses(v.items[i], address + "/" + Decimal(i), ref);
      path := [Item(i)] + rest;
      assert path[1..] == rest;
    } else {
      path := PrintedInItems(v, i + 1, address, ref);
    }
  }

  lemma {:induction false} PrintedInMembers(v: Value, i: nat, address: string, ref: string) returns (path: seq<Step>)
    requires v.Object? && i <= |v.members| && WellFormed(v)
    requires ref in InMembers(v.members[i..], address)
    ensures Addresses(v, address, ref, path)
    decreases v, 0, |v.members| - i
  {
    assert v.members[i..][1..] == v.members[i + 1..];
    var m := v.members[i];
    if ref in InMember(m, address) {
      var rest := PrintedAddresses(m.value, address + "/" + Escape(m.key), ref);
      FindAt(v.members, i);
      path := [Key(m.key)] + rest;
      assert path[1..] == rest;
    } else {
      path := PrintedInMembers(v, i + 1, address, ref);
    }
  }

  /** The address of every problem schema that the search can reach is printed. */
  lemma {:induction false} AddressPrinted(v: Value, address: string, path: seq<Step>)
    requires WellFormed(v) && Sub(v, path).Some? && ProblemType(Sub(v, path).value).Some?
    ensures Print(address, path) in InlineProblems(v, address)
    decreases |path|
  {
    if path == [] {
      assert Own(v, address) == [address];
    } else {
      match path[0]
      case Item(i) =>
        AddressPrinted(v.items[i], address + "/" + Decimal(i), path[1..]);
        assert v.items[0..] == v.items;
        InItemsAt(v.items, address, 0, i, Print(address, path));
      case Key(k) =>
        var child := Find(v.members, k).value;
        var j :| 0 <= j < |v.members| && v.members[j] == Member(k, child);
        AddressPrinted(child, address + "/" + Escape(k), path[1..]);
        InMembersAt(v.members, address, j, Print(address, path));
    }
  }

  lemma {:induction false} InItemsAt(items: seq<Value>, address: string, index: nat, i: nat, ref: string)
    requires i < |items| && ref in InlineProblems(items[i], address + "/" + Decimal(index + i))
    ensures ref in InItems(items, address, index)
  {
    if i > 0 { InItemsAt(items[1..], address, index + 1, i - 1, ref); }
  }

  lemma {:induction false} InMembersAt(members: seq<Member>, address: string, i: nat, ref: string)
    requires i < |members| && ref in InMember(members[i], address)
    ensures ref in InMembers(members, address)
  {
    if i > 0 { InMembersAt(members[1..], address, i - 1, ref); }
  }

  // Printing a path below an address that leads to `v` gives an address that leads to the path's end.
  lemma {:induction false} PrintLeadsTo(document: Value, address: string, v: Value, path: seq<Step>)
    requires LeadsTo(document, address, v) && Sub(v, path).Some?
    ensures LeadsTo(document, Print(address, path), Sub(v, path).value)
    decreases |path|
  {
    if path != [] {
      match path[0]
      case Item(i) =>
        DecimalParses(i);
        AddressStep(document, address, v, Decimal(i), v.items[i]);
        PrintLeadsTo(document, address + "/" + Decimal(i), v.items[i], path[1..]);
      case Key(k) =>
        Unescaped(k);
        AddressStep(document, address, v, Escape(k), Find(v.members, k).value);
        PrintLeadsTo(document, address + "/" + Escape(k), Find(v.members, k).value, path[1..]);
    }
  }

  lemma {:induction false} PrintLonger(address: string, path: seq<Step>)
    ensures |Print(address, path)| >= |address| + |path|
    decreases |path|
  {
    if path != [] {
      PrintLonger(address + "/" + Segment(path[0]), path[1..]);
    }
  }

  /** The round trip below the root: every printed address dereferences to exactly the problem schema it
      was printed for. */
  lemma PointerRoundTrip(document: Value, path: seq<Step>)
    requires path != [] && Sub(document, path).Some?
    ensures Pointer(document, Print("#", path)) == Sub(document, path)
  {
    PrintLeadsTo(document, "#", document, path);
    PrintLonger("#", path);
  }

  // A printed address fails when it does not lead back to a problem schema printed under it.
  ghost predicate ReadsBack(document: Value, ref: string) {
    exists path :: Addresses(document, "#", ref, path) && Pointer(document, ref) == Sub(document, path)
  }

  lemma {:induction false} InsideSmaller(v: Value, name: string)
    ensures Descend(v, name) != Some(v)
  {
    if v.Object? && Find(v.members, Unescape(name)).Some? {
      var child := Find(v.members, Unescape(name)).value;
      var i :| 0 <= i < |v.members| && v.members[i] == Member(Unescape(name), child);
    }
  }

  // The bare root address is read as the member with an empty key.
  lemma RootNotRead(document: Value)
    requires WellFormed(document)
    ensures !ReadsBack(document, "#")
  {
    assert Names("#") == [""] && [""][1..] == [];
    InsideSmaller(document, "");
    assert Follow(document, [""]) == Descend(document, "");
    if path :| Addresses(document, "#", "#", path) && Pointer(document, "#") == Sub(document, path) {
      PrintLonger("#", path);
    }
  }

  lemma BelowRootRead(document: Value, ref: string)
    requires WellFormed(document) && ProblemType(document).None? && ref in InlineProblems(document, "#")
    ensures ReadsBack(document, ref)
  {
    var path := PrintedAddresses(document, "#", ref);
    PointerRoundTrip(document, path);
  }

  /** All printed addresses read back exactly when the document itself is no problem schema: the bare
      root address cannot be dereferenced. */
  lemma ReadsBackExactly(document: Value)
    requires WellFormed(document)
    ensures (forall ref :: ref in InlineProblems(document, "#") ==> ReadsBack(document, ref))
            <==> ProblemType(document).None?
  {
    if ProblemType(document).None? {
      forall ref | ref in InlineProblems(document, "#") ensures ReadsBack(document, ref) {
        BelowRootRead(document, ref);
      }
    } else {
      AddressPrinted(document, "#", []);
      assert Print("#", []) == "#";
      RootNotRead(document);
    }
  }
}
