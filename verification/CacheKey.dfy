/**
  The cache key of a candidate: hat name, tool name and the JSON text of its parameter
  shape, a dictionary from parameter name to the name of the value's type with sorted keys.
  */
module CacheKey {
  import opened Core

  function TypeName(value: Value): string {
    match value
    case Null => "NoneType"
    case Text(_) => "str"
    case Integer(_) => "int"
    case Number(_) => "float"
    case Boolean(_) => "bool"
    case Array(_) => "list"
    case Object(_) => "dict"
  }

  /** Parameter names with type names, in the order of the dictionary. */
  function Types(parameters: seq<(string, Value)>): (r: seq<(string, string)>)
    ensures |r| == |parameters|
    ensures forall i :: 0 <= i < |r| ==> r[i] == (parameters[i].0, TypeName(parameters[i].1))
  {
    seq(|parameters|, i requires 0 <= i < |parameters| => (parameters[i].0, TypeName(parameters[i].1)))
  }

  /** The shape as the graph of a map from names to type names. */
  function Shape(parameters: seq<(string, Value)>): set<(string, string)> {
    set p | p in Types(parameters)
  }

  /*** Sorting by name ***/

  /** The order of strings by code points. */
  predicate Less(a: string, b: string) {
    b != [] && (a == [] || a[0] < b[0] || (a[0] == b[0] && Less(a[1..], b[1..])))
  }

  lemma {:induction false} LessIrreflexive(a: string)
    ensures !Less(a, a)
  {
    if a != [] {
      LessIrreflexive(a[1..]);
    }
  }

  lemma {:induction false} LessTransitive(a: string, b: string, c: string)
    requires Less(a, b) && Less(b, c)
    ensures Less(a, c)
  {
    if a != [] && a[0] == b[0] == c[0] {
      LessTransitive(a[1..], b[1..], c[1..]);
    }
  }

  lemma {:induction false} LessTotal(a: string, b: string)
    ensures a == b || Less(a, b) || Less(b, a)
  {
    if a != [] && b != [] && a[0] == b[0] {
      LessTotal(a[1..], b[1..]);
      assert a == [a[0]] + a[1..] && b == [b[0]] + b[1..];
    }
  }

  predicate Sorted(s: seq<(string, string)>) {
    forall i, j :: 0 <= i < j < |s| ==> Less(s[i].0, s[j].0)
  }

  function Insert(x: (string, string), s: seq<(string, string)>): seq<(string, string)> {
    if s == [] || Less(x.0, s[0].0) then [x] + s else [s[0]] + Insert(x, s[1..])
  }

  function Sort(s: seq<(string, string)>): seq<(string, string)> {
    if s == [] then [] else Insert(s[0], Sort(s[1..]))
  }

  lemma {:induction false} InsertMember(x: (string, string), s: seq<(string, string)>, y: (string, string))
    ensures y in Insert(x, s) <==> y == x || y in s
  {
    if s != [] && !Less(x.0, s[0].0) {
      InsertMember(x, s[1..], y);
    }
  }

  lemma {:induction false} InsertSorted(x: (string, string), s: seq<(string, string)>)
    requires Sorted(s) && forall y :: y in s ==> y.0 != x.0
    ensures Sorted(Insert(x, s))
  {
    if s != [] {
      if Less(x.0, s[0].0) {
        forall j | 0 <= j < |s| ensures Less(x.0, s[j].0) {
          if j > 0 {
            LessTransitive(x.0, s[0].0, s[j].0);
          }
        }
      } else {
        LessTotal(x.0, s[0].0);
        assert s[0] in s;
        InsertSorted(x, s[1..]);
        forall y | y in Insert(x, s[1..]) ensures Less(s[0].0, y.0) {
          InsertMember(x, s[1..], y);
        }
      }
    }
  }

  predicate DistinctFirst(s: seq<(string, string)>) {
    forall i, j :: 0 <= i < j < |s| ==> s[i].0 != s[j].0
  }

  lemma {:induction false} SortMeaning(s: seq<(string, string)>)
    requires DistinctFirst(s)
    ensures Sorted(Sort(s)) && forall y :: y in Sort(s) <==> y in s
  {
    if s != [] {
      SortMeaning(s[1..]);
      forall y | y in Sort(s[1..]) ensures y.0 != s[0].0 {
        assert y in s[1..];
        var i :| 0 <= i < |s[1..]| && s[1..][i] == y;
        assert s[i + 1] == y;
      }
      InsertSorted(s[0], Sort(s[1..]));
      forall y ensures y in Sort(s) <==> y in s {
        InsertMember(s[0], Sort(s[1..]), y);
      }
    }
  }

  lemma {:induction false} SortedUnique(s: seq<(string, string)>, t: seq<(string, string)>)
    requires Sorted(s) && Sorted(t) && forall y :: y in s <==> y in t
    ensures s == t
  {
    assert t != [] ==> t[0] in t;
    if s != [] {
      assert s[0] in t;
      assert t[0] in s;
      LessIrreflexive(s[0].0);
      if s[0] != t[0] {
        assert Less(t[0].0, s[0].0) && Less(s[0].0, t[0].0);
        LessTransitive(t[0].0, s[0].0, t[0].0);
        LessIrreflexive(t[0].0);
        assert false;
      }
      forall y ensures y in s[1..] <==> y in t[1..] {
        TailMember(s, y);
        TailMember(t, y);
      }
      SortedUnique(s[1..], t[1..]);
    }
  }

  lemma TailMember(s: seq<(string, string)>, y: (string, string))
    requires s != [] && Sorted(s)
    ensures y in s[1..] <==> y in s && y != s[0]
  {
    LessIrreflexive(s[0].0);
    if y in s[1..] {
      var i :| 0 <= i < |s[1..]| && s[1..][i] == y;
      assert s[i + 1] == y && Less(s[0].0, y.0);
    }
  }

  /** The sorted shape depends on the map from names to types only, not on insertion order. */
  lemma SortCanonical(p: Dict, q: Dict)
    ensures Sort(Types(p)) == Sort(Types(q)) <==> Shape(p) == Shape(q)
  {
    SortMeaning(Types(p));
    SortMeaning(Types(q));
    if Shape(p) == Shape(q) {
      forall y ensures y in Sort(Types(p)) <==> y in Sort(Types(q)) {
        assert y in Types(p) <==> y in Shape(p);
        assert y in Types(q) <==> y in Shape(q);
      }
      SortedUnique(Sort(Types(p)), Sort(Types(q)));
    } else {
      assert !(forall y :: y in Shape(p) <==> y in Shape(q));
      var y :| y in Shape(p) <==> y !in Shape(q);
      assert y in Sort(Types(p)) <==> y !in Sort(Types(q));
    }
  }

  /*** JSON text ***/

  function HexDigit(d: nat): char
    requires d < 16
  {
    if d < 10 then ('0' as int + d) as char else ('a' as int + (d - 10)) as char
  }

  function Hex4(n: nat): string
    requires n < 0x10000
  {
    [HexDigit(n / 16 / 16 / 16), HexDigit(n / 16 / 16 % 16), HexDigit(n / 16 % 16), HexDigit(n % 16)]
  }

  function Unicode(n: nat): string
    requires n < 0x10000
  {
    ['\\', 'u'] + Hex4(n)
  }

  predicate Printable(c: char) {
    ' ' <= c <= '~' && c != '"' && c != '\\'
  }

  /** The letter of a two-character escape. */
  function Short(c: char): Option<char> {
    if c == '"' then Some('"')
    else if c == '\\' then Some('\\')
    else if c == '\n' then Some('n')
    else if c == '\r' then Some('r')
    else if c == '\t' then Some('t')
    else if c == '\U{8}' then Some('b')
    else if c == '\U{C}' then Some('f')
    else None
  }

  predicate Long(c: char) {
    !Printable(c) && Short(c).None?
  }

  /** The code units of a long escape: one in the basic plane, otherwise a surrogate pair. */
  function FirstUnit(c: char): nat
    requires Long(c)
  {
    if c as int < 0x10000 then c as int else 0xd800 + (c as int - 0x10000) / 1024
  }

  function SecondUnit(c: char): string
    requires Long(c)
  {
    if c as int < 0x10000 then [] else Unicode(0xdc00 + (c as int - 0x10000) % 1024)
  }

  function Escape(c: char): string {
    if Printable(c) then [c]
    else if Short(c).Some? then ['\\', Short(c).value]
    else Unicode(FirstUnit(c)) + SecondUnit(c)
  }

  /** The escaped text, its closing quote, and what follows. */
  function Quoted(s: string, rest: string): string {
    if s == [] then ['"'] + rest else Escape(s[0]) + Quoted(s[1..], rest)
  }

  const SEPARATOR := [':', ' ', '"']

  /** One name and type, and what follows. */
  function Entry(p: (string, string), rest: string): string {
    ['"'] + Quoted(p.0, SEPARATOR + Quoted(p.1, rest))
  }

  /** The text of a dictionary after its opening brace. */
  function Body(shape: seq<(string, string)>): string {
    if shape == [] then ['}'] else Entry(shape[0], Tail(shape[1..]))
  }

  /** The text of a dictionary after an entry. */
  function Tail(shape: seq<(string, string)>): string {
    if shape == [] then ['}'] else [',', ' '] + Entry(shape[0], Tail(shape[1..]))
  }

  function Dumps(shape: seq<(string, string)>): string {
    ['{'] + Body(shape)
  }

  function Key(hat: string, tool: string, shape: seq<(string, string)>): string {
    hat + ([':'] + (tool + ([':'] + Dumps(shape))))
  }

  function KeyOf(hat: string, c: Candidate): string {
    Key(hat, c.toolName, Sort(Types(c.parameters)))
  }

  /*** Reading escapes back ***/

  lemma Hex4Injective(m: nat, n: nat)
    requires m < 0x10000 && n < 0x10000 && Hex4(m) == Hex4(n)
    ensures m == n
  {
    assert Hex4(m)[0] == Hex4(n)[0] && Hex4(m)[1] == Hex4(n)[1] && Hex4(m)[2] == Hex4(n)[2] && Hex4(m)[3] == Hex4(n)[3];
    HexDigitInjective(m / 16 / 16 / 16, n / 16 / 16 / 16);
    HexDigitInjective(m / 16 / 16 % 16, n / 16 / 16 % 16);
    HexDigitInjective(m / 16 % 16, n / 16 % 16);
    HexDigitInjective(m % 16, n % 16);
    SameDigits(m / 16 / 16, n / 16 / 16);
    SameDigits(m / 16, n / 16);
    SameDigits(m, n);
  }

  lemma SameDigits(m: nat, n: nat)
    requires m / 16 == n / 16 && m % 16 == n % 16
    ensures m == n
  {
  }

  lemma HexDigitInjective(d: nat, e: nat)
    requires d < 16 && e < 16 && HexDigit(d) == HexDigit(e)
    ensures d == e
  {
  }

  lemma DropLeft(a: string, b: string, k: nat)
    requires |a| <= k <= |a| + |b|
    ensures (a + b)[k..] == b[k - |a|..]
  {
  }

  /** A unit in front of any text: equal texts have equal units. */
  lemma UnitsInjective(m: nat, n: nat, s: string, t: string)
    requires m < 0x10000 && n < 0x10000 && Unicode(m) + s == Unicode(n) + t
    ensures m == n && s == t
  {
    var u := Unicode(m) + s;
    assert u[2..6] == Hex4(m);
    assert (Unicode(n) + t)[2..6] == Hex4(n);
    Hex4Injective(m, n);
    assert s == u[6..] && t == (Unicode(n) + t)[6..];
  }

  lemma CodeUnits(c: char, d: char)
    requires Long(c) && Long(d) && FirstUnit(c) == FirstUnit(d)
    ensures c as int < 0x10000 ==> c == d
    ensures c as int >= 0x10000 ==>
              d as int >= 0x10000 && (c as int - 0x10000) / 1024 == (d as int - 0x10000) / 1024
  {
  }

  lemma FirstUnitsAgree(c: char, d: char, s: string, t: string)
    requires Long(c) && Long(d) && Escape(c) + s == Escape(d) + t
    ensures FirstUnit(c) == FirstUnit(d) && SecondUnit(c) + s == SecondUnit(d) + t
  {
    Associative(Unicode(FirstUnit(c)), SecondUnit(c), s);
    Associative(Unicode(FirstUnit(d)), SecondUnit(d), t);
    UnitsInjective(FirstUnit(c), FirstUnit(d), SecondUnit(c) + s, SecondUnit(d) + t);
  }

  lemma SecondUnitsAgree(c: char, d: char, s: string, t: string)
    requires Long(c) && Long(d) && (c as int < 0x10000 <==> d as int < 0x10000)
    requires SecondUnit(c) + s == SecondUnit(d) + t
    ensures s == t
    ensures c as int >= 0x10000 ==> (c as int - 0x10000) % 1024 == (d as int - 0x10000) % 1024
  {
    if c as int < 0x10000 {
      assert [] + s == s && [] + t == t;
    } else {
      UnitsInjective(0xdc00 + (c as int - 0x10000) % 1024, 0xdc00 + (d as int - 0x10000) % 1024, s, t);
    }
  }

  lemma SameCodePoint(x: nat, y: nat)
    requires x / 1024 == y / 1024 && x % 1024 == y % 1024
    ensures x == y
  {
  }

  lemma LongEscapes(c: char, d: char, s: string, t: string)
    requires Long(c) && Long(d) && Escape(c) + s == Escape(d) + t
    ensures c == d && s == t
  {
    FirstUnitsAgree(c, d, s, t);
    CodeUnits(c, d);
    CodeUnits(d, c);
    SecondUnitsAgree(c, d, s, t);
    if c as int >= 0x10000 {
      SameCodePoint(c as int - 0x10000, d as int - 0x10000);
    }
  }

  /** No character's escape is a proper beginning of another's: text can be read back from the left. */
  lemma EscapePrefixFree(c: char, d: char, s: string, t: string)
    requires Escape(c) + s == Escape(d) + t
    ensures c == d && s == t
  {
    var u, v := Escape(c) + s, Escape(d) + t;
    assert u[0] == Escape(c)[0] && v[0] == Escape(d)[0];
    if Printable(c) || Printable(d) {
      assert s == u[1..] && t == v[1..];
    } else {
      assert u[1] == Escape(c)[1] && v[1] == Escape(d)[1];
      if Short(c).Some? || Short(d).Some? {
        assert s == u[2..] && t == v[2..];
      } else {
        LongEscapes(c, d, s, t);
      }
    }
  }

  /** An escaped character is never empty and never begins with the closing quote. */
  lemma EscapeOpens(c: char)
    ensures Escape(c) != [] && Escape(c)[0] != '"'
  {
  }

  /** Text up to the closing quote is determined. */
  lemma {:induction false} QuotedInjective(a: string, b: string, s: string, t: string)
    requires Quoted(a, s) == Quoted(b, t)
    ensures a == b && s == t
  {
    hide Escape;
    var u, v := Quoted(a, s), Quoted(b, t);
    if a != [] {
      EscapeOpens(a[0]);
    }
    if b != [] {
      EscapeOpens(b[0]);
    }
    assert u[0] == (if a == [] then '"' else Escape(a[0])[0]);
    assert v[0] == (if b == [] then '"' else Escape(b[0])[0]);
    if a == [] || b == [] {
      assert a == [] && b == [];
      assert u[1..] == s && v[1..] == t;
    } else {
      EscapePrefixFree(a[0], b[0], Quoted(a[1..], s), Quoted(b[1..], t));
      QuotedInjective(a[1..], b[1..], s, t);
      assert a == [a[0]] + a[1..] && b == [b[0]] + b[1..];
    }
  }

  lemma EntryInjective(p: (string, string), q: (string, string), s: string, t: string)
    requires Entry(p, s) == Entry(q, t)
    ensures p == q && s == t
  {
    var x, y := SEPARATOR + Quoted(p.1, s), SEPARATOR + Quoted(q.1, t);
    assert Entry(p, s)[1..] == Quoted(p.0, x) && Entry(q, t)[1..] == Quoted(q.0, y);
    QuotedInjective(p.0, q.0, x, y);
    assert x[3..] == Quoted(p.1, s) && y[3..] == Quoted(q.1, t);
    QuotedInjective(p.1, q.1, s, t);
  }

  lemma {:induction false} TailInjective(a: seq<(string, string)>, b: seq<(string, string)>)
    requires Tail(a) == Tail(b)
    ensures a == b
  {
    assert Tail(a)[0] == Tail(b)[0];
    if a != [] && b != [] {
      assert Tail(a)[2..] == Entry(a[0], Tail(a[1..]));
      assert Tail(b)[2..] == Entry(b[0], Tail(b[1..]));
      EntryInjective(a[0], b[0], Tail(a[1..]), Tail(b[1..]));
      TailInjective(a[1..], b[1..]);
      assert a == [a[0]] + a[1..] && b == [b[0]] + b[1..];
    }
  }

  /** The JSON text determines the dictionary. */
  lemma DumpsInjective(a: seq<(string, string)>, b: seq<(string, string)>)
    requires Dumps(a) == Dumps(b)
    ensures a == b
  {
    assert Dumps(a)[1..] == Body(a) && Dumps(b)[1..] == Body(b);
    assert Body(a)[0] == Body(b)[0];
    if a != [] && b != [] {
      EntryInjective(a[0], b[0], Tail(a[1..]), Tail(b[1..]));
      TailInjective(a[1..], b[1..]);
      assert a == [a[0]] + a[1..] && b == [b[0]] + b[1..];
    }
  }

  /*** The tool name can be told from the JSON text ***/

  /** A non-empty word of letters, as every type name is. */
  predicate Word(t: string) {
    t != [] && forall i :: 0 <= i < |t| ==> 'A' <= t[i] <= 'z' && t[i] != '\\'
  }

  predicate Typed(shape: seq<(string, string)>) {
    forall i :: 0 <= i < |shape| ==> Word(shape[i].1)
  }

  lemma TypeNameIsWord(value: Value)
    ensures Word(TypeName(value))
  {
  }

  lemma {:induction false} QuotedLonger(s: string, rest: string)
    ensures |Quoted(s, rest)| > |rest|
  {
    if s != [] {
      QuotedLonger(s[1..], rest);
    }
  }

  /** What follows a brace inside a name is not the body of a dictionary. */
  lemma NoBodyAfterBrace(name: string, typeName: string, rest: string, shape: seq<(string, string)>)
    requires Word(typeName)
    ensures Quoted(name, SEPARATOR + Quoted(typeName, rest)) != Body(shape)
  {
    var x := SEPARATOR + Quoted(typeName, rest);
    var u := Quoted(name, x);
    assert u[0] == (if name == [] then '"' else Escape(name[0])[0]);
    QuotedLonger(name, x);
    if shape != [] {
      var y := SEPARATOR + Quoted(shape[0].1, Tail(shape[1..]));
      assert Body(shape)[0] == '"' && Body(shape)[1..] == Quoted(shape[0].0, y);
      if name == [] {
        assert u[1..] == x;
        assert Quoted(typeName, rest)[0] == typeName[0] && y[0] == ':';
        ColonSpace(Quoted(typeName, rest));
        if x == Quoted(shape[0].0, y) {
          QuotedInjective([':', ' '], shape[0].0, Quoted(typeName, rest), y);
        }
      }
    }
  }

  lemma ColonSpace(rest: string)
    ensures Quoted([':', ' '], rest) == SEPARATOR + rest
  {
    assert [':', ' '][1..] == [' '] && [' '][1..] == [];
    assert Quoted([], rest) == ['"'] + rest;
    assert Quoted([' '], rest) == [' '] + (['"'] + rest);
    assert Quoted([':', ' '], rest) == [':'] + ([' '] + (['"'] + rest));
  }

  lemma EscapeBrace(c: char, q: nat)
    requires q < |Escape(c)| && Escape(c)[q] == '{'
    ensures q == 0 && |Escape(c)| == 1
  {
  }

  /** No dictionary's body begins after a brace of an entry and the entries after it. */
  lemma {:induction false} NoBodyInName(name: string, typeName: string, others: seq<(string, string)>, q: nat, shape: seq<(string, string)>)
    requires Word(typeName) && Typed(others)
    requires var u := Quoted(name, SEPARATOR + Quoted(typeName, Tail(others))); q < |u| && u[q] == '{'
    ensures Quoted(name, SEPARATOR + Quoted(typeName, Tail(others)))[q + 1..] != Body(shape)
    decreases |others|, 2, |name|
  {
    var x := SEPARATOR + Quoted(typeName, Tail(others));
    if name == [] {
      DropLeft(['"'], x, q + 1);
      DropLeft(SEPARATOR, Quoted(typeName, Tail(others)), q);
      NoBodyInType(typeName, others, q - 4, shape);
    } else {
      var n := |Escape(name[0])|;
      if q < n {
        EscapeBrace(name[0], q);
        DropLeft(Escape(name[0]), Quoted(name[1..], x), 1);
        NoBodyAfterBrace(name[1..], typeName, Tail(others), shape);
      } else {
        DropLeft(Escape(name[0]), Quoted(name[1..], x), q + 1);
        NoBodyInName(name[1..], typeName, others, q - n, shape);
      }
    }
  }

  lemma {:induction false} NoBodyInType(letters: string, others: seq<(string, string)>, q: nat, shape: seq<(string, string)>)
    requires Typed(others) && forall i :: 0 <= i < |letters| ==> 'A' <= letters[i] <= 'z' && letters[i] != '\\'
    requires q < |Quoted(letters, Tail(others))| && Quoted(letters, Tail(others))[q] == '{'
    ensures Quoted(letters, Tail(others))[q + 1..] != Body(shape)
    decreases |others|, 1, |letters|
  {
    if letters == [] {
      DropLeft(['"'], Tail(others), q + 1);
      NoBodyInTail(others, q - 1, shape);
    } else {
      assert Escape(letters[0]) == [letters[0]];
      DropLeft([letters[0]], Quoted(letters[1..], Tail(others)), q + 1);
      NoBodyInType(letters[1..], others, q - 1, shape);
    }
  }

  lemma {:induction false} NoBodyInTail(others: seq<(string, string)>, q: nat, shape: seq<(string, string)>)
    requires Typed(others) && q < |Tail(others)| && Tail(others)[q] == '{'
    ensures Tail(others)[q + 1..] != Body(shape)
    decreases |others|, 0, 0
  {
    var p := others[0];
    var x := Quoted(p.0, SEPARATOR + Quoted(p.1, Tail(others[1..])));
    DropLeft([',', ' '], ['"'] + x, q + 1);
    DropLeft(['"'], x, q - 1);
    NoBodyInName(p.0, p.1, others[1..], q - 3, shape);
  }

  lemma NoBodyInBody(own: seq<(string, string)>, q: nat, shape: seq<(string, string)>)
    requires Typed(own) && q < |Body(own)| && Body(own)[q] == '{'
    ensures Body(own)[q + 1..] != Body(shape)
  {
    var p := own[0];
    var x := Quoted(p.0, SEPARATOR + Quoted(p.1, Tail(own[1..])));
    DropLeft(['"'], x, q + 1);
    NoBodyInName(p.0, p.1, own[1..], q - 1, shape);
  }

  /** A shorter tool name cannot be made up for by a longer dictionary text. */
  lemma ToolNotLonger(s: string, t: string, a: seq<(string, string)>, b: seq<(string, string)>)
    requires Typed(a) && s + ([':'] + Dumps(a)) == t + ([':'] + Dumps(b))
    ensures |s| >= |t|
  {
    if |s| < |t| {
      var q := |t| - |s| - 1;
      BraceInside(s, t, Body(a), Body(b), q);
      NoBodyInBody(a, q, b);
    }
  }

  lemma BraceInside(s: string, t: string, x: string, y: string, q: nat)
    requires s + ([':'] + (['{'] + x)) == t + ([':'] + (['{'] + y)) && |t| == |s| + 1 + q
    ensures q < |x| && x[q] == '{' && x[q + 1..] == y
  {
    var u := s + ([':'] + (['{'] + x));
    assert u[|t| + 1] == '{';
    assert u[|s| + 2 + q] == x[q];
    assert u[|t| + 2..] == y;
    assert u[|s| + 2 + (q + 1)..] == x[q + 1..];
  }

  lemma TypesAreTyped(parameters: Dict)
    ensures Typed(Sort(Types(parameters)))
  {
    SortMeaning(Types(parameters));
    var sorted := Sort(Types(parameters));
    forall i | 0 <= i < |sorted| ensures Word(sorted[i].1) {
      assert sorted[i] in sorted;
      var j :| 0 <= j < |parameters| && Types(parameters)[j] == sorted[i];
      TypeNameIsWord(parameters[j].1);
    }
  }

  lemma SamePrefix(s: string, x: string, t: string, y: string)
    requires s + x == t + y && |s| == |t|
    ensures s == t && x == y
  {
    assert s == (s + x)[..|s|] && t == (t + y)[..|t|];
    DropLeft(s, x, |s|);
    DropLeft(t, y, |t|);
  }

  lemma KeyTextInjective(hat: string, s: string, t: string, a: seq<(string, string)>, b: seq<(string, string)>)
    requires Typed(a) && Typed(b) && Key(hat, s, a) == Key(hat, t, b)
    ensures s == t && a == b
  {
    var x, y := s + ([':'] + Dumps(a)), t + ([':'] + Dumps(b));
    SamePrefix(hat, [':'] + x, hat, [':'] + y);
    SamePrefix([':'], x, [':'], y);
    ToolNotLonger(s, t, a, b);
    ToolNotLonger(t, s, b, a);
    SamePrefix(s, [':'] + Dumps(a), t, [':'] + Dumps(b));
    SamePrefix([':'], Dumps(a), [':'], Dumps(b));
    DumpsInjective(a, b);
  }

  /** Within one engine two candidates share a key exactly when tool and parameter shape agree. */
  lemma KeyIff(hat: string, c: Candidate, d: Candidate)
    ensures KeyOf(hat, c) == KeyOf(hat, d) <==> c.toolName == d.toolName && Shape(c.parameters) == Shape(d.parameters)
  {
    SortCanonical(c.parameters, d.parameters);
    if KeyOf(hat, c) == KeyOf(hat, d) {
      TypesAreTyped(c.parameters);
      TypesAreTyped(d.parameters);
      KeyTextInjective(hat, c.toolName, d.toolName, Sort(Types(c.parameters)), Sort(Types(d.parameters)));
    }
  }

  /** Of the same JSON type. */
  predicate SameKind(v: Value, w: Value) {
    match v
    case Null => w.Null?
    case Text(_) => w.Text?
    case Integer(_) => w.Integer?
    case Number(_) => w.Number?
    case Boolean(_) => w.Boolean?
    case Array(_) => w.Array?
    case Object(_) => w.Object?
  }

  /** The same names, with values of the same types, in any order. */
  predicate SameKinds(p: seq<(string, Value)>, q: seq<(string, Value)>) {
    && (forall x :: x in p ==> exists y :: y in q && y.0 == x.0 && SameKind(x.1, y.1))
    && (forall y :: y in q ==> exists x :: x in p && x.0 == y.0 && SameKind(x.1, y.1))
  }

  lemma TypeNamesTell(v: Value, w: Value)
    ensures TypeName(v) == TypeName(w) <==> SameKind(v, w)
  {
    assert |"NoneType"| == 8 && |"float"| == 5 && |"int"| == |"str"| == 3 && |"bool"| == |"list"| == |"dict"| == 4;
    assert "int"[0] == 'i' && "str"[0] == 's' && "bool"[0] == 'b' && "list"[0] == 'l' && "dict"[0] == 'd';
  }

  lemma TypesCover(p: seq<(string, Value)>, q: seq<(string, Value)>)
    ensures Shape(p) <= Shape(q) <==> forall x :: x in p ==> exists y :: y in q && y.0 == x.0 && SameKind(x.1, y.1)
  {
    forall x, y ensures TypeName(x) == TypeName(y) <==> SameKind(x, y) {
      TypeNamesTell(x, y);
    }
    if Shape(p) <= Shape(q) {
      forall x | x in p ensures exists y :: y in q && y.0 == x.0 && SameKind(x.1, y.1) {
        var i :| 0 <= i < |p| && p[i] == x;
        assert Types(p)[i] in Shape(p);
        var j :| 0 <= j < |q| && Types(q)[j] == Types(p)[i];
        assert q[j] in q;
      }
    } else {
      var t :| t in Shape(p) && t !in Shape(q);
      var i :| 0 <= i < |p| && Types(p)[i] == t;
      assert p[i] in p;
      forall y | y in q ensures !(y.0 == p[i].0 && SameKind(p[i].1, y.1)) {
        var j :| 0 <= j < |q| && q[j] == y;
        assert Types(q)[j] in Shape(q);
      }
    }
  }

  /** Two candidates share a key exactly when they are for one tool with the same parameter names and types. */
  lemma KeyMeaning(hat: string, c: Candidate, d: Candidate)
    ensures KeyOf(hat, c) == KeyOf(hat, d) <==> c.toolName == d.toolName && SameKinds(c.parameters, d.parameters)
  {
    hide KeyOf, Shape;
    KeyIff(hat, c, d);
    TypesCover(c.parameters, d.parameters);
    TypesCover(d.parameters, c.parameters);
    forall x, y ensures SameKind(x, y) <==> SameKind(y, x) {
    }
  }
}
