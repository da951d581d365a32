/**
 Runtime class routes: comma-separated class=engine pairs, parsed into a map and printed back.
*/
module Routes {
  import opened Strings

  type Routes = map<string, string>

  datatype Error = EmptyElement | NotAPair | EmptyEngine | InvalidClass | TwoEngines

  datatype Result = Ok(routes: Routes) | Err(error: Error)

  datatype Element = Route(class_: string, engine: string) | Bad(error: Error)

  // ----- Splitting and joining -----

  function IndexOf(s: string, c: char): (i: nat)
    ensures i <= |s|
    ensures i < |s| ==> s[i] == c
    ensures forall k :: 0 <= k < i ==> s[k] != c
    ensures i == |s| <==> c !in s
  {
    if s == "" then 0 else if s[0] == c then 0 else 1 + IndexOf(s[1..], c)
  }

  function Split(s: string, c: char): (parts: seq<string>)
    ensures parts != []
    ensures forall p :: p in parts ==> c !in p && forall x :: x in p ==> x in s
    decreases |s|
  {
    var i := IndexOf(s, c);
    if i == |s| then [s] else [s[..i]] + Split(s[i + 1..], c)
  }

  function Join(parts: seq<string>, c: char): string {
    if parts == [] then ""
    else if |parts| == 1 then parts[0]
    else parts[0] + [c] + Join(parts[1..], c)
  }

  lemma IndexOfUnique(s: string, c: char, i: nat)
    requires i < |s| && s[i] == c && c !in s[..i]
    ensures IndexOf(s, c) == i
  {
  }

  lemma {:induction false} SplitUndoesJoin(parts: seq<string>, c: char)
    requires parts != [] && forall p :: p in parts ==> c !in p
    ensures Split(Join(parts, c), c) == parts
    decreases |parts|
  {
    if |parts| > 1 {
      var rest := Join(parts[1..], c);
      var s := parts[0] + [c] + rest;
      IndexOfSplit(parts[0], c, rest);
      SplitUndoesJoin(parts[1..], c);
      assert Split(s, c) == [parts[0]] + Split(rest, c);
    } else {
      assert parts == [parts[0]];
    }
  }

  lemma IndexOfSplit(a: string, c: char, b: string)
    requires c !in a
    ensures IndexOf(a + [c] + b, c) == |a|
    ensures (a + [c] + b)[..|a|] == a && (a + [c] + b)[|a| + 1..] == b
  {
    var s := a + [c] + b;
    assert s[..|a|] == a;
    IndexOfUnique(s, c, |a|);
  }

  // ----- Classes: a DNS-1123 subdomain (section 2.1 of RFC 1123), or the token for no class -----

  const DEFAULT_TOKEN := "@default"

  predicate Alnum(c: char) {
    'a' <= c <= 'z' || '0' <= c <= '9'
  }

  predicate ValidLabel(l: string) {
    l != "" && Alnum(l[0]) && Alnum(l[|l| - 1]) && forall c :: c in l ==> Alnum(c) || c == '-'
  }

  predicate ValidSubdomain(s: string) {
    |s| <= 253 && forall l :: l in Split(s, '.') ==> ValidLabel(l)
  }

  /** A letter, a digit, a hyphen, or a dot between letters or digits. */
  predicate PlaceOk(s: string, i: nat)
    requires i < |s|
  {
    || 'a' <= s[i] <= 'z' || '0' <= s[i] <= '9' || s[i] == '-'
    || (s[i] == '.' && 0 < i < |s| - 1 && Alnum(s[i - 1]) && Alnum(s[i + 1]))
  }

  /** A subdomain by position: every place is as it may be, and both ends are letters or digits. */
  predicate Dotted(s: string) {
    s != "" && Alnum(s[0]) && Alnum(s[|s| - 1]) && forall i :: 0 <= i < |s| ==> PlaceOk(s, i)
  }

  lemma OneLabel(s: string)
    requires '.' !in s
    ensures ValidLabel(s) <==> Dotted(s)
  {
    if Dotted(s) {
      forall c | c in s ensures Alnum(c) || c == '-' {
        var i :| 0 <= i < |s| && s[i] == c;
        assert PlaceOk(s, i);
      }
    }
    if ValidLabel(s) {
      forall i | 0 <= i < |s| ensures PlaceOk(s, i) {
        assert s[i] in s;
      }
    }
  }

  lemma PlacesSplit(s: string, i: nat, k: nat)
    requires 0 < i < |s| - 1 && s[i] == '.' && Alnum(s[i - 1]) && Alnum(s[i + 1]) && k < |s|
    ensures k < i ==> (PlaceOk(s, k) <==> PlaceOk(s[..i], k))
    ensures k > i ==> (PlaceOk(s, k) <==> PlaceOk(s[i + 1..], k - i - 1))
    ensures k == i ==> PlaceOk(s, k)
  {
  }

  lemma FirstLabel(s: string, i: nat)
    requires i < |s| && s[i] == '.'
    ensures Dotted(s) <==> Dotted(s[..i]) && Dotted(s[i + 1..])
  {
    hide PlaceOk;
    var a, b := s[..i], s[i + 1..];
    if 0 < i < |s| - 1 && Alnum(s[i - 1]) && Alnum(s[i + 1]) {
      if Dotted(s) {
        forall k | 0 <= k < |a| ensures PlaceOk(a, k) { PlacesSplit(s, i, k); }
        forall k | 0 <= k < |b| ensures PlaceOk(b, k) { PlacesSplit(s, i, i + 1 + k); }
      }
      if Dotted(a) && Dotted(b) {
        forall k | 0 <= k < |s| ensures PlaceOk(s, k) { PlacesSplit(s, i, k); }
      }
    } else if Dotted(s) {
      DotNeedsNeighbours(s, i);
    }
  }

  lemma DotNeedsNeighbours(s: string, i: nat)
    requires i < |s| && s[i] == '.' && PlaceOk(s, i)
    ensures 0 < i < |s| - 1 && Alnum(s[i - 1]) && Alnum(s[i + 1])
  {
  }

  lemma {:induction false} LabelsMeanDotted(s: string)
    ensures (forall l :: l in Split(s, '.') ==> ValidLabel(l)) <==> Dotted(s)
    decreases |s|
  {
    var i := IndexOf(s, '.');
    if i < |s| {
      FirstLabel(s, i);
      OneLabel(s[..i]);
      LabelsMeanDotted(s[i + 1..]);
      assert Split(s, '.') == [s[..i]] + Split(s[i + 1..], '.');
    } else {
      OneLabel(s);
      assert Split(s, '.') == [s];
    }
  }

  /** Which classes are accepted. */
  lemma ClassMeans(s: string)
    ensures ValidClass(s) <==> s == "@default" || (|s| <= 253 && Dotted(s))
  {
    LabelsMeanDotted(s);
  }

  predicate ValidClass(s: string) {
    s == DEFAULT_TOKEN || ValidSubdomain(s)
  }

  predicate Plain(c: char) {
    Alnum(c) || c == '-' || c == '.' || c == '@'
  }

  lemma {:induction false} SplitCovers(s: string, c: char, x: char)
    requires x in s && x != c
    ensures exists p :: p in Split(s, c) && x in p
    decreases |s|
  {
    var i := IndexOf(s, c);
    if i < |s| {
      assert s == s[..i] + [c] + s[i + 1..];
      if x in s[..i] {
        assert s[..i] in Split(s, c);
      } else {
        assert x in s[i + 1..];
        SplitCovers(s[i + 1..], c, x);
        var p :| p in Split(s[i + 1..], c) && x in p;
        assert p in Split(s, c);
      }
    } else {
      assert s in Split(s, c);
    }
  }

  /** A class consists of letters, digits, and a few signs that mean nothing to the syntax. */
  lemma ClassIsPlain(s: string)
    requires ValidClass(s)
    ensures s != "" && forall c :: c in s ==> Plain(c)
  {
    if s != DEFAULT_TOKEN {
      var first := Split(s, '.')[0];
      assert ValidLabel(first) && first[0] in s;
      forall c | c in s ensures Plain(c) {
        if c != '.' {
          SplitCovers(s, '.', c);
        }
      }
    }
  }

  // ----- Parsing -----

  /** One element of the list, as a class and an engine. */
  function ParsePair(elem: string): Element {
    var pair := Trim(elem);
    if pair == "" then Bad(EmptyElement)
    else
      var i := IndexOf(pair, '=');
      if i == |pair| then Bad(NotAPair)
      else
        var class_, name := Trim(pair[..i]), Trim(pair[i + 1..]);
        if '=' in name then Bad(NotAPair)
        else if name == "" then Bad(EmptyEngine)
        else if !ValidClass(class_) then Bad(InvalidClass)
        else Route(class_, name)
  }

  function ParseElems(elems: seq<string>, routes: Routes): Result
    decreases |elems|
  {
    if elems == [] then Ok(routes)
    else
      match ParsePair(elems[0])
      case Bad(e) => Err(e)
      case Route(c, name) =>
        if c in routes && routes[c] != name then Err(TwoEngines) else ParseElems(elems[1..], routes[c := name])
  }

  function Parse(raw: string): Result {
    if Trim(raw) == "" then Ok(map[]) else ParseElems(Split(raw, ','), map[])
  }

  /** The loop over the elements, with its early errors. */
  method ParseRoutes(raw: string) returns (r: Result)
    ensures r == Parse(raw)
  {
    var routes: Routes := map[];
    if Trim(raw) == "" {
      return Ok(routes);
    }
    var elems := Split(raw, ',');
    for n := 0 to |elems|
      invariant ParseElems(elems, map[]) == ParseElems(elems[n..], routes)
    {
      var pair := Trim(elems[n]);
      if pair == "" {
        return Err(EmptyElement);
      }
      var i := IndexOf(pair, '=');
      if i == |pair| {
        return Err(NotAPair);
      }
      var class_, name := Trim(pair[..i]), Trim(pair[i + 1..]);
      if '=' in name {
        return Err(NotAPair);
      }
      if name == "" {
        return Err(EmptyEngine);
      }
      if !ValidClass(class_) {
        return Err(InvalidClass);
      }
      assert ParsePair(elems[n]) == Route(class_, name);
      if class_ in routes && routes[class_] != name {
        return Err(TwoEngines);
      }
      routes := routes[class_ := name];
    }
    return Ok(routes);
  }

  // ----- Printing -----

  predicate Sorted(s: seq<string>) {
    forall i, k :: 0 <= i < k < |s| ==> Less(s[i], s[k])
  }

  /** The classes of a map, in order. */
  ghost predicate ClassesOf(classes: seq<string>, routes: Routes) {
    Sorted(classes) && forall c :: c in classes <==> c in routes
  }

  /** There is only one sorted listing of the same classes. */
  lemma {:induction false} SortedUnique(a: seq<string>, b: seq<string>)
    requires Sorted(a) && Sorted(b) && forall c :: c in a <==> c in b
    ensures a == b
    decreases |a|
  {
    NonemptyTogether(a, b);
    NonemptyTogether(b, a);
    if a != [] {
      FirstIsLeast(a, b);
      FirstIsLeast(b, a);
      if a[0] != b[0] {
        LessTransitive(a[0], b[0], a[0]);
        LessIrreflexive(a[0]);
      }
      RestSame(a, b);
      RestSame(b, a);
      SortedUnique(a[1..], b[1..]);
      assert a == [a[0]] + a[1..] && b == [b[0]] + b[1..];
    }
  }

  lemma NonemptyTogether(a: seq<string>, b: seq<string>)
    requires forall c :: c in a ==> c in b
    ensures a != [] ==> b != []
  {
    if a != [] {
      assert a[0] in b;
    }
  }

  lemma FirstIsLeast(a: seq<string>, b: seq<string>)
    requires Sorted(a) && a != [] && b != [] && forall c :: c in b ==> c in a
    ensures a[0] == b[0] || Less(a[0], b[0])
  {
    assert b[0] in a;
    var k :| 0 <= k < |a| && a[k] == b[0];
  }

  lemma RestSame(a: seq<string>, b: seq<string>)
    requires Sorted(a) && a != [] && b != [] && a[0] == b[0] && forall c :: c in a ==> c in b
    ensures forall c :: c in a[1..] ==> c in b[1..]
  {
    forall c | c in a[1..] ensures c in b[1..] {
      LessIrreflexive(c);
      var k :| 0 < k < |a| && a[k] == c;
      assert c in b;
      assert b == [b[0]] + b[1..];
    }
  }

  function Pair(c: string, routes: Routes): string
    requires c in routes
  {
    c + "=" + routes[c]
  }

  function Pairs(classes: seq<string>, routes: Routes): seq<string>
    requires forall c :: c in classes ==> c in routes
  {
    seq(|classes|, i requires 0 <= i < |classes| => Pair(classes[i], routes))
  }

  /** The printed form, given the sorted classes. */
  function Print(classes: seq<string>, routes: Routes): string
    requires forall c :: c in classes ==> c in routes
  {
    Join(Pairs(classes, routes), ',')
  }

  /** Collects the classes in whatever order the map yields them, and sorts them. */
  method SortedClasses(routes: Routes) returns (classes: seq<string>)
    ensures ClassesOf(classes, routes)
  {
    classes := [];
    var todo := routes.Keys;
    while todo != {}
      invariant todo <= routes.Keys && Sorted(classes)
      invariant forall c :: c in classes <==> c in routes && c !in todo
      decreases |todo|
    {
      var c :| c in todo;
      todo := todo - {c};
      classes := Insert(classes, c);
    }
  }

  method Insert(classes: seq<string>, c: string) returns (r: seq<string>)
    requires Sorted(classes) && c !in classes
    ensures Sorted(r) && forall d :: d in r <==> d in classes || d == c
  {
    var k := 0;
    while k < |classes| && Less(classes[k], c)
      invariant k <= |classes| && forall i :: 0 <= i < k ==> Less(classes[i], c)
    {
      k := k + 1;
    }
    r := classes[..k] + [c] + classes[k..];
    assert classes == classes[..k] + classes[k..];
    forall i | k <= i < |classes| ensures Less(c, classes[i]) {
      LessTotal(c, classes[k]);
      if i > k {
        LessTransitive(c, classes[k], classes[i]);
      }
    }
  }

  /** Prints routes: the result depends on the map alone, not on the order it yields its classes. */
  method String(routes: Routes) returns (s: string)
    ensures forall classes :: ClassesOf(classes, routes) ==> s == Print(classes, routes)
  {
    var classes := SortedClasses(routes);
    s := Print(classes, routes);
    forall other | ClassesOf(other, routes) ensures s == Print(other, routes) {
      SortedUnique(classes, other);
    }
  }

  // ----- The round trip -----

  /** What a parsed route looks like. */
  predicate GoodRoute(c: string, name: string) {
    ValidClass(c) && name != "" && Trimmed(name) && '=' !in name && ',' !in name
  }

  predicate Producible(routes: Routes) {
    forall c :: c in routes ==> GoodRoute(c, routes[c])
  }

  /** Class, equals sign and engine, with white space around the names. */
  predicate Spells(elem: string, a: string, c: string, b: string, d: string, name: string, e: string) {
    elem == a + c + b + "=" + d + name + e && Blank(a) && Blank(b) && Blank(d) && Blank(e)
  }

  /** What is spelled like that is accepted as that route. */
  lemma SpelledIsParsed(elem: string, a: string, c: string, b: string, d: string, name: string, e: string)
    requires Spells(elem, a, c, b, d, name, e)
    requires ValidClass(c) && name != "" && Trimmed(name) && '=' !in name
    ensures ParsePair(elem) == Route(c, name)
  {
    hide ValidClass, Trim;
    ClassIsPlain(c);
    forall x | x in c ensures !Space(x) && x != '=' {
      PlainIsHarmless(x);
    }
    assert c[0] in c && c[|c| - 1] in c;
    var left, right := c + b, d + name;
    var pair := left + "=" + right;
    assert pair[0] == c[0] && pair[|pair| - 1] == name[|name| - 1];
    assert elem == a + pair + e;
    TrimAround(a, pair, e);
    forall x | x in left ensures x != '=' {
      if x in b {
        var i :| 0 <= i < |b| && b[i] == x;
      }
    }
    IndexOfSplit(left, '=', right);
    assert "" + c + b == left && d + name + "" == right;
    TrimAround("", c, b);
    TrimAround(d, name, "");
  }

  /** And nothing else is. */
  lemma ParsedIsSpelled(elem: string) returns (a: string, b: string, d: string, e: string)
    requires ParsePair(elem).Route?
    ensures Spells(elem, a, ParsePair(elem).class_, b, d, ParsePair(elem).engine, e)
    ensures ValidClass(ParsePair(elem).class_) && ParsePair(elem).engine != ""
    ensures Trimmed(ParsePair(elem).engine) && '=' !in ParsePair(elem).engine
  {
    hide ValidClass, Blank, Trim;
    var a1, e2 := TrimSplits(elem);
    var pair := Trim(elem);
    var i := IndexOf(pair, '=');
    var left, right := pair[..i], pair[i + 1..];
    assert pair == left + "=" + right;
    var a2, e1;
    a2, b := TrimSplits(left);
    d, e1 := TrimSplits(right);
    a, e := a1 + a2, e1 + e2;
    BlankConcat(a1, a2);
    BlankConcat(e1, e2);
    Respell(a1, a2, Trim(left), b, d, Trim(right), e1, e2);
  }

  lemma BlankConcat(a: string, b: string)
    requires Blank(a) && Blank(b)
    ensures Blank(a + b)
  {
  }

  lemma Respell(a1: string, a2: string, c: string, b: string, d: string, name: string, e1: string, e2: string)
    ensures a1 + ((a2 + c + b) + "=" + (d + name + e1)) + e2 == (a1 + a2) + c + b + "=" + d + name + (e1 + e2)
  {
  }

  lemma ParsePairIsGood(elem: string)
    requires ParsePair(elem).Route? && ',' !in elem
    ensures GoodRoute(ParsePair(elem).class_, ParsePair(elem).engine)
  {
  }

  lemma {:induction false} ParseElemsIsGood(elems: seq<string>, routes: Routes)
    requires Producible(routes) && (forall e :: e in elems ==> ',' !in e) && ParseElems(elems, routes).Ok?
    ensures Producible(ParseElems(elems, routes).routes)
    decreases |elems|
  {
    hide ParsePair, GoodRoute;
    if elems != [] {
      ParsePairIsGood(elems[0]);
      ParseElemsIsGood(elems[1..], routes[ParsePair(elems[0]).class_ := ParsePair(elems[0]).engine]);
    }
  }

  /** Every map that parsing yields has good routes. */
  lemma ParseYieldsGood(raw: string)
    requires Parse(raw).Ok?
    ensures Producible(Parse(raw).routes)
  {
    if Trim(raw) != "" {
      ParseElemsIsGood(Split(raw, ','), map[]);
    }
  }

  lemma PlainIsHarmless(c: char)
    requires Plain(c)
    ensures !Space(c) && c != '=' && c != ','
  {
  }

  /** A class and an engine put together are split again where they were joined. */
  lemma PairSplits(c: string, name: string)
    requires GoodRoute(c, name)
    ensures var pair := c + "=" + name;
      && ',' !in pair && pair != "" && Trim(pair) == pair && Trimmed(c)
      && IndexOf(pair, '=') == |c| && pair[..|c|] == c && pair[|c| + 1..] == name
  {
    hide Plain, Space, ValidClass;
    ClassIsPlain(c);
    forall x | x in c ensures !Space(x) && x != '=' && x != ',' {
      PlainIsHarmless(x);
    }
    assert c[0] in c && c[|c| - 1] in c;
    var pair := c + "=" + name;
    assert pair == c + ['='] + name;
    IndexOfSplit(c, '=', name);
    assert pair[0] == c[0] && pair[|pair| - 1] == name[|name| - 1];
  }

  /** A printed pair parses back to its route. */
  lemma PairParses(c: string, routes: Routes)
    requires c in routes && GoodRoute(c, routes[c])
    ensures ParsePair(Pair(c, routes)) == Route(c, routes[c])
    ensures ',' !in Pair(c, routes)
  {
    hide Space, ValidClass;
    PairSplits(c, routes[c]);
    assert Trim(c) == c && Trim(routes[c]) == routes[c];
  }

  lemma {:induction false} PairsParse(classes: seq<string>, routes: Routes, seen: Routes)
    requires Producible(routes) && forall c :: c in classes ==> c in routes
    requires forall c :: c in seen ==> c in routes && seen[c] == routes[c]
    ensures ParseElems(Pairs(classes, routes), seen)
         == Ok(map c | c in routes && (c in seen || c in classes) :: routes[c])
    decreases |classes|
  {
    hide ParsePair, GoodRoute, Pair;
    if classes == [] {
      assert seen == map c | c in routes && (c in seen || c in classes) :: routes[c];
    } else {
      var c := classes[0];
      PairParses(c, routes);
      assert Pairs(classes, routes)[1..] == Pairs(classes[1..], routes);
      PairsParse(classes[1..], routes, seen[c := routes[c]]);
      assert forall d :: d in classes <==> d == c || d in classes[1..];
      assert (map d | d in routes && (d in seen[c := routes[c]] || d in classes[1..]) :: routes[d])
          == (map d | d in routes && (d in seen || d in classes) :: routes[d]);
    }
  }

  /** Parsing the printed form of any producible map gives the map back. */
  lemma PrintParses(classes: seq<string>, routes: Routes)
    requires Producible(routes) && ClassesOf(classes, routes)
    ensures Parse(Print(classes, routes)) == Ok(routes)
  {
    if classes == [] {
      assert routes == map[] by {
        assert forall c :: c in routes ==> c in classes;
      }
    } else {
      var pairs := Pairs(classes, routes);
      forall p | p in pairs ensures ',' !in p {
        var i :| 0 <= i < |pairs| && pairs[i] == p;
        PairParses(classes[i], routes);
      }
      SplitUndoesJoin(pairs, ',');
      var none: Routes := map[];
      PairsParse(classes, routes, none);
      assert routes == map c | c in routes && (c in none || c in classes) :: routes[c];
      NotBlank(classes, routes);
    }
  }

  lemma NotBlank(classes: seq<string>, routes: Routes)
    requires classes != [] && Producible(routes) && forall c :: c in classes ==> c in routes
    ensures Trim(Print(classes, routes)) != ""
  {
    var s := Print(classes, routes);
    var c := classes[0];
    ClassIsPlain(c);
    assert Pairs(classes, routes)[0] == Pair(c, routes);
    assert s[0] == c[0];
    assert Plain(c[0]);
    FirstStays(s);
  }

  lemma {:induction false} FirstStays(s: string)
    requires s != "" && !Space(s[0])
    ensures Trim(s) != ""
    decreases |s|
  {
    if Space(s[|s| - 1]) {
      FirstStays(s[..|s| - 1]);
    }
  }

  /** The round trip, for every input that parses: printing and parsing again changes nothing. */
  lemma RoundTrip(raw: string, classes: seq<string>)
    requires Parse(raw).Ok? && ClassesOf(classes, Parse(raw).routes)
    ensures Parse(Print(classes, Parse(raw).routes)) == Parse(raw)
  {
    ParseYieldsGood(raw);
    PrintParses(classes, Parse(raw).routes);
  }

  // ----- Order and repeats do not matter -----

  /** The elements, or the routes so far, send class c to the engine. */
  predicate Claims(elems: seq<string>, routes: Routes, c: string, engine: string) {
    (c in routes && routes[c] == engine) || exists e :: e in elems && ParsePair(e) == Route(c, engine)
  }

  /** Every element is a route, and no class goes to two engines. */
  ghost predicate Coherent(elems: seq<string>, routes: Routes) {
    && (forall e :: e in elems ==> ParsePair(e).Route?)
    && (forall c, a, b :: Claims(elems, routes, c, a) && Claims(elems, routes, c, b) ==> a == b)
  }

  lemma ClaimsStep(elems: seq<string>, routes: Routes, c: string, engine: string)
    requires elems != [] && ParsePair(elems[0]).Route?
    requires var r := ParsePair(elems[0]); r.class_ in routes ==> routes[r.class_] == r.engine
    ensures var r := ParsePair(elems[0]);
      Claims(elems, routes, c, engine) <==> Claims(elems[1..], routes[r.class_ := r.engine], c, engine)
  {
  }

  lemma CoherentStep(elems: seq<string>, routes: Routes)
    requires elems != [] && ParsePair(elems[0]).Route?
    requires var r := ParsePair(elems[0]); r.class_ in routes ==> routes[r.class_] == r.engine
    ensures var r := ParsePair(elems[0]); var next := routes[r.class_ := r.engine];
      && (Coherent(elems, routes) <==> Coherent(elems[1..], next))
      && forall c, engine :: Claims(elems, routes, c, engine) <==> Claims(elems[1..], next, c, engine)
  {
    var r := ParsePair(elems[0]);
    var next := routes[r.class_ := r.engine];
    forall c, engine ensures Claims(elems, routes, c, engine) <==> Claims(elems[1..], next, c, engine) {
      ClaimsStep(elems, routes, c, engine);
    }
    hide ParsePair, Claims;
    assert forall e :: e in elems <==> e == elems[0] || e in elems[1..];
  }

  /** What parsing accepts, and what it yields, without any order. */
  lemma {:induction false} ParseMeans(elems: seq<string>, routes: Routes)
    ensures ParseElems(elems, routes).Ok? <==> Coherent(elems, routes)
    ensures ParseElems(elems, routes).Ok? ==>
      forall c, engine :: Yields(ParseElems(elems, routes).routes, c, engine) <==> Claims(elems, routes, c, engine)
    decreases |elems|
  {
    hide ParsePair;
    if elems != [] {
      assert elems[0] in elems;
      match ParsePair(elems[0])
      case Bad(_) =>
      case Route(c, name) =>
        assert Claims(elems, routes, c, name);
        if c in routes && routes[c] != name {
          assert Claims(elems, routes, c, routes[c]);
        } else {
          CoherentStep(elems, routes);
          ParseMeans(elems[1..], routes[c := name]);
        }
    }
  }

  predicate Yields(routes: Routes, c: string, engine: string) {
    c in routes && routes[c] == engine
  }

  /** Two lists with the same elements, in any order and with any repeats, parse to the same routes. */
  lemma OrderAndRepeatsIrrelevant(a: seq<string>, b: seq<string>)
    requires forall e :: e in a <==> e in b
    ensures ParseElems(a, map[]).Ok? <==> ParseElems(b, map[]).Ok?
    ensures ParseElems(a, map[]).Ok? ==> ParseElems(a, map[]) == ParseElems(b, map[])
  {
    hide ParsePair, ParseElems;
    var none: Routes := map[];
    ParseMeans(a, none);
    ParseMeans(b, none);
    assert forall c, engine :: Claims(a, none, c, engine) <==> Claims(b, none, c, engine);
    if ParseElems(a, none).Ok? {
      var p, q := ParseElems(a, none).routes, ParseElems(b, none).routes;
      forall c ensures c in p <==> c in q {
        assert c in p ==> Yields(p, c, p[c]);
        assert c in q ==> Yields(q, c, q[c]);
      }
      forall c | c in p ensures p[c] == q[c] {
        assert Yields(p, c, p[c]);
      }
      assert p == q;
    }
  }

  /** Of the raw strings: the order of the pairs, and repeating them, changes nothing. */
  lemma RawOrderAndRepeatsIrrelevant(a: string, b: string)
    requires (Trim(a) == "" <==> Trim(b) == "") && forall e :: e in Split(a, ',') <==> e in Split(b, ',')
    ensures Parse(a).Ok? <==> Parse(b).Ok?
    ensures Parse(a).Ok? ==> Parse(a) == Parse(b)
  {
    hide Split, ParseElems;
    OrderAndRepeatsIrrelevant(Split(a, ','), Split(b, ','));
  }
}
