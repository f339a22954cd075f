// JSON documents and the text of Python's json.dumps with sort_keys, which is unambiguous.
module JsonText {
  import opened TextOrder

  datatype Json =
    | Null
    | Bool(b: bool)
    | Num(n: int)
    | Str(s: string)
    | Arr(items: seq<Json>)
    | Obj(members: map<string, Json>)

  // ----- Characters

  function HexDigit(n: nat): (c: char)
    requires n < 16
    ensures HexValue(c) == n && ' ' < c <= '~' && c != '\\' && c != '"'
  {
    "0123456789abcdef"[n]
  }

  function HexValue(c: char): int {
    if c <= '9' then c as int - '0' as int else c as int - 'a' as int + 10
  }

  function Unit(n: nat): (s: string)
    requires n < 0x10000
    ensures |s| == 6 && s[0] == '\\' && s[1] == 'u'
    ensures n == HexValue(s[2]) * 4096 + HexValue(s[3]) * 256 + HexValue(s[4]) * 16 + HexValue(s[5])
  {
    var a := n / 16;
    var b := a / 16;
    ['\\', 'u', HexDigit(b / 16), HexDigit(b % 16), HexDigit(a % 16), HexDigit(n % 16)]
  }

  function ShortEscape(c: char): (e: char) {
    if c == '\n' then 'n' else if c == '\r' then 'r' else if c == '\t' then 't'
    else if c as int == 8 then 'b' else if c as int == 12 then 'f' else c
  }

  predicate Short(c: char) {
    c == '"' || c == '\\' || c == '\n' || c == '\r' || c == '\t' || c as int == 8 || c as int == 12
  }

  // The ASCII escapes; a character above U+FFFF becomes a surrogate pair.
  function Escape(c: char): (s: string)
    ensures s != [] && s[0] != '"'
  {
    if Short(c) then ['\\', ShortEscape(c)]
    else if ' ' <= c <= '~' then [c]
    else if c as int < 0x10000 then Unit(c as int)
    else Unit(0xD800 + (c as int - 0x10000) / 1024) + Unit(0xDC00 + (c as int - 0x10000) % 1024)
  }

  lemma UnitUnambiguous(m: nat, n: nat, x: string, y: string)
    requires m < 0x10000 && n < 0x10000 && Unit(m) + x == Unit(n) + y
    ensures m == n && x == y
  {
    var a, b := Unit(m) + x, Unit(n) + y;
    assert forall k :: 0 <= k < 6 ==> a[k] == Unit(m)[k] && b[k] == Unit(n)[k];
    assert a[6..] == x && b[6..] == y;
  }

  lemma EscapeUnambiguous(c: char, d: char, x: string, y: string)
    requires Escape(c) + x == Escape(d) + y
    ensures c == d && x == y
  {
    var a, b := Escape(c) + x, Escape(d) + y;
    assert a[0] == Escape(c)[0] && b[0] == Escape(d)[0];
    if a[0] != '\\' {
      assert a[1..] == x && b[1..] == y;
    } else if Short(c) || Short(d) {
      assert a[1] == Escape(c)[1] && b[1] == Escape(d)[1];
      assert a[2..] == b[2..];
      assert Short(c) ==> a[2..] == x;
      assert Short(d) ==> b[2..] == y;
    } else {
      LongUnambiguous(c, d, x, y);
    }
  }

  function LeadUnit(c: char): (n: nat)
    ensures n < 0x10000
  {
    if c as int < 0x10000 then c as int else 0xD800 + (c as int - 0x10000) / 1024
  }

  function TailUnits(c: char): string {
    if c as int < 0x10000 then [] else Unit(0xDC00 + (c as int - 0x10000) % 1024)
  }

  lemma LongUnambiguous(c: char, d: char, x: string, y: string)
    requires !Short(c) && !Short(d) && !(' ' <= c <= '~') && !(' ' <= d <= '~')
    requires Escape(c) + x == Escape(d) + y
    ensures c == d && x == y
  {
    hide Unit;
    assert Escape(c) + x == Unit(LeadUnit(c)) + (TailUnits(c) + x);
    assert Escape(d) + y == Unit(LeadUnit(d)) + (TailUnits(d) + y);
    UnitUnambiguous(LeadUnit(c), LeadUnit(d), TailUnits(c) + x, TailUnits(d) + y);
    if c as int >= 0x10000 && d as int >= 0x10000 {
      UnitUnambiguous(0xDC00 + (c as int - 0x10000) % 1024, 0xDC00 + (d as int - 0x10000) % 1024, x, y);
    } else {
      assert [] + x == x && [] + y == y;
    }
  }

  // ----- Strings

  function Escaped(s: string): string {
    if s == [] then ['"'] else Escape(s[0]) + Escaped(s[1..])
  }

  function Quote(s: string): (q: string)
    ensures q != [] && q[0] == '"'
  {
    ['"'] + Escaped(s)
  }

  lemma EscapedHead(s: string, x: string)
    ensures Escaped(s) + x != [] && ((Escaped(s) + x)[0] == '"' <==> s == [])
  {}

  lemma {:induction false} EscapedUnambiguous(s: string, t: string, x: string, y: string)
    requires Escaped(s) + x == Escaped(t) + y
    ensures s == t && x == y
  {
    hide Escape;
    var a, b := Escaped(s) + x, Escaped(t) + y;
    EscapedHead(s, x);
    EscapedHead(t, y);
    if s == [] {
      assert a[1..] == x && b[1..] == y;
    } else {
      assert a == Escape(s[0]) + (Escaped(s[1..]) + x);
      assert b == Escape(t[0]) + (Escaped(t[1..]) + y);
      EscapeUnambiguous(s[0], t[0], Escaped(s[1..]) + x, Escaped(t[1..]) + y);
      EscapedUnambiguous(s[1..], t[1..], x, y);
      assert s == [s[0]] + s[1..] && t == [t[0]] + t[1..];
    }
  }

  lemma QuoteUnambiguous(s: string, t: string, x: string, y: string)
    requires Quote(s) + x == Quote(t) + y
    ensures s == t && x == y
  {
    hide Escaped;
    assert (Quote(s) + x)[1..] == Escaped(s) + x;
    assert (Quote(t) + y)[1..] == Escaped(t) + y;
    EscapedUnambiguous(s, t, x, y);
  }

  // ----- Integers

  predicate Digit(c: char) { '0' <= c <= '9' }

  predicate Digits(s: string) { forall k :: 0 <= k < |s| ==> Digit(s[k]) }

  function Decimal(n: nat): (s: string)
    ensures s != [] && Digits(s)
  {
    if n < 10 then [HexDigit(n)] else Decimal(n / 10) + [HexDigit(n % 10)]
  }

  function Value(s: string): int {
    if s == [] then 0 else Value(s[..|s| - 1]) * 10 + HexValue(s[|s| - 1])
  }

  lemma {:induction false} DecimalValue(n: nat)
    ensures Value(Decimal(n)) == n
  {
    if n >= 10 {
      DecimalValue(n / 10);
      assert Decimal(n)[..|Decimal(n)| - 1] == Decimal(n / 10);
    } else {
      assert Decimal(n)[..0] == [];
    }
  }

  // What may follow a value inside a document.
  predicate Ends(x: string) { x == [] || x[0] in {',', ']', '}'} }

  function LeadingDigits(s: string): nat {
    if s == [] || !Digit(s[0]) then 0 else 1 + LeadingDigits(s[1..])
  }

  lemma {:induction false} DigitsThenEnd(s: string, x: string)
    requires Digits(s) && Ends(x)
    ensures LeadingDigits(s + x) == |s|
  {
    if s == [] {
      assert s + x == x;
    } else {
      assert (s + x)[1..] == s[1..] + x;
      DigitsThenEnd(s[1..], x);
    }
  }

  lemma DecimalUnambiguous(m: nat, n: nat, x: string, y: string)
    requires Decimal(m) + x == Decimal(n) + y && Ends(x) && Ends(y)
    ensures m == n && x == y
  {
    var s, t := Decimal(m), Decimal(n);
    var a, b := s + x, t + y;
    DigitsThenEnd(s, x);
    DigitsThenEnd(t, y);
    assert a[..|s|] == s && b[..|t|] == t && a[|s|..] == x && b[|t|..] == y;
    DecimalValue(m);
    DecimalValue(n);
  }

  function Integer(n: int): (s: string)
    ensures s != [] && (s[0] == '-' || Digit(s[0]))
  {
    if n < 0 then ['-'] + Decimal(-n) else Decimal(n)
  }

  lemma IntegerHead(n: int, x: string)
    ensures Integer(n) + x != [] && ((Integer(n) + x)[0] == '-' <==> n < 0)
    ensures if n < 0 then (Integer(n) + x)[1..] == Decimal(-n) + x else Integer(n) + x == Decimal(n) + x
  {
    hide Decimal;
    if n < 0 {
      assert ['-'] + Decimal(-n) + x == ['-'] + (Decimal(-n) + x);
    } else {
      var s := Decimal(n);
      assert Digit(s[0]) && (s + x)[0] == s[0];
    }
  }

  lemma IntegerUnambiguous(m: int, n: int, x: string, y: string)
    requires Integer(m) + x == Integer(n) + y && Ends(x) && Ends(y)
    ensures m == n && x == y
  {
    hide Decimal, Ends, Integer;
    IntegerHead(m, x);
    IntegerHead(n, y);
    if m < 0 {
      DecimalUnambiguous(-m, -n, x, y);
    } else {
      DecimalUnambiguous(m, n, x, y);
    }
  }

  // ----- Documents

  // The parts from i on, separated by ", ", and the closing bracket.
  function Listed(parts: seq<string>, i: nat, close: char): (s: string)
    requires i <= |parts|
    decreases |parts| - i
  {
    if i == |parts| then [close]
    else (if i > 0 then ", " else "") + (parts[i] + Listed(parts, i + 1, close))
  }

  // No part starts like a separator or a closing bracket.
  predicate Opened(parts: seq<string>) {
    forall k :: 0 <= k < |parts| ==> parts[k] != [] && parts[k][0] !in {',', ']', '}'}
  }

  ghost function Texts(j: Json): (r: seq<string>)
    requires j.Arr?
    ensures Opened(r)
    ensures |r| == |j.items| && forall i :: 0 <= i < |r| ==> r[i] == Text(j.items[i])
    decreases j, 0
  {
    seq(|j.items|, i requires 0 <= i < |j.items| => Text(j.items[i]))
  }

  // The i-th member in name order.
  ghost function Member(j: Json, i: nat): (r: (string, Json))
    requires j.Obj? && i < |j.members.Keys|
    ensures r.0 in j.members && r.1 == j.members[r.0]
  {
    var name := SortedNames(j.members.Keys)[i];
    assert name in j.members.Keys;
    (name, j.members[name])
  }

  ghost function Members(j: Json): (r: seq<string>)
    requires j.Obj?
    ensures |r| == |j.members.Keys|
    ensures Opened(r)
    ensures forall i :: 0 <= i < |r| ==> r[i] == Quote(Member(j, i).0) + (": " + Text(Member(j, i).1))
    decreases j, 0
  {
    seq(|j.members.Keys|, i requires 0 <= i < |j.members.Keys| =>
          var member := Member(j, i);
          Quote(member.0) + (": " + Text(j.members[member.0])))
  }

  // json.dumps(value, sort_keys=True)
  ghost function Text(j: Json): (s: string)
    ensures s != [] && s[0] !in {',', ']', '}'}
    decreases j, 1
  {
    match j
    case Null => "null"
    case Bool(b) => if b then "true" else "false"
    case Num(n) => Integer(n)
    case Str(s) => Quote(s)
    case Arr(_) => "[" + Listed(Texts(j), 0, ']')
    case Obj(_) => "{" + Listed(Members(j), 0, '}')
  }

  // The text of Python's json.dumps: its escapes, words and separators.
  lemma EscapeExamples()
    ensures Escape('"') == "\\\"" && Escape('\\') == "\\\\" && Escape('~') == "~"
    ensures Escape('\n') == "\\n" && Escape('\r') == "\\r" && Escape('\t') == "\\t"
    ensures Escape(8 as char) == "\\b" && Escape(12 as char) == "\\f" && Escape(0xE9 as char) == "\\u00e9"
  {
    hide Unit;
    UnitExample();
  }

  lemma UnitExample()
    ensures Unit(0xE9) == "\\u00e9"
  {
    assert HexDigit(14) == 'e' && HexDigit(9) == '9' && HexDigit(0) == '0';
  }

  lemma ScalarExamples()
    ensures Text(Null) == "null" && Text(Bool(true)) == "true" && Text(Bool(false)) == "false"
    ensures Text(Num(1)) == "1" && Text(Num(-12)) == "-12" && Text(Str("a")) == "\"a\""
  {
    assert Decimal(12) == Decimal(1) + [HexDigit(2)];
    assert Escaped("a"[1..]) == "\"";
  }

  lemma ListExamples()
    ensures Text(Arr([Num(1), Null])) == "[1, null]" && Text(Obj(map["a" := Num(1)])) == "{\"a\": 1}"
  {
    hide Integer, Quote, Listed, SortedNames;
    ScalarExamples();
    var list, table := Arr([Num(1), Null]), Obj(map["a" := Num(1)]);
    var texts := Texts(list);
    assert texts[0] == "1" && texts[1] == "null";
    assert texts == ["1", "null"];
    ListOfTwo("1", "null", ']');
    OneName(table);
    QuoteExample();
    assert Members(table)[0] == "\"a\": 1";
    assert Members(table) == ["\"a\": 1"];
    ListOfOne("\"a\": 1", '}');
  }

  lemma OneName(j: Json)
    requires j == Obj(map["a" := Num(1)])
    ensures |j.members.Keys| == 1 && Member(j, 0) == ("a", Num(1))
  {
    assert j.members.Keys == {"a"};
    hide SortedNames;
  }

  lemma QuoteExample()
    ensures Quote("a") + (": " + "1") == "\"a\": 1"
  {
    assert Escaped("a"[1..]) == "\"";
  }

  lemma ListOfOne(a: string, close: char)
    ensures Listed([a], 0, close) == a + [close]
  {
    assert Listed([a], 1, close) == [close];
  }

  lemma ListOfTwo(a: string, b: string, close: char)
    ensures Listed([a, b], 0, close) == a + (", " + (b + [close]))
  {
    assert Listed([a, b], 2, close) == [close];
  }

  function Lead(j: Json): (c: char) {
    match j
    case Null => 'n'
    case Bool(b) => if b then 't' else 'f'
    case Num(n) => '0'
    case Str(_) => '"'
    case Arr(_) => '['
    case Obj(_) => '{'
  }

  lemma TextParts(j: Json, x: string)
    ensures var s := Text(j) + x;
            && s != [] && Lead(j) == (if s[0] == '-' || Digit(s[0]) then '0' else s[0])
            && (j.Null? ==> s[4..] == x)
            && (j.Bool? ==> s[if j.b then 4 else 5..] == x)
            && (j.Num? ==> s == Integer(j.n) + x)
            && (j.Str? ==> s == Quote(j.s) + x)
            && (j.Arr? ==> s[1..] == Listed(Texts(j), 0, ']') + x)
            && (j.Obj? ==> s[1..] == Listed(Members(j), 0, '}') + x)
  {
    hide Listed, Integer, Escaped, Texts, Members;
  }

  // A value's text, followed by anything that may follow a value, determines the value.
  lemma {:induction false} TextUnambiguous(a: Json, b: Json, x: string, y: string)
    requires Text(a) + x == Text(b) + y && Ends(x) && Ends(y)
    ensures a == b && x == y
    decreases a, 1, 0
  {
    hide Listed, Ends, Digit, Integer, Quote, Texts, Members, Text;
    TextParts(a, x);
    TextParts(b, y);
    match a {
      case Null =>
      case Bool(_) =>
      case Num(_) => IntegerUnambiguous(a.n, b.n, x, y);
      case Str(_) => QuoteUnambiguous(a.s, b.s, x, y);
      case Arr(_) => ItemsUnambiguous(a, b, 0, x, y);
      case Obj(_) =>
        MembersUnambiguous(a, b, 0, x, y);
        SameMembers(a, b);
    }
  }

  // One separator or bracket ahead tells both lists whether they end.
  lemma ListedHead(parts: seq<string>, i: nat, close: char, x: string)
    requires i <= |parts| && close in {']', '}'}
    requires Opened(parts)
    ensures var s := Listed(parts, i, close) + x;
            && s != [] && Ends(s) == (i > 0 || i == |parts|) && (s[0] == close <==> i == |parts|)
            && (i == |parts| ==> s[1..] == x)
            && (i < |parts| ==> (if i == 0 then s else s[2..]) == parts[i] + (Listed(parts, i + 1, close) + x))
  {
    if i < |parts| {
      var rest := parts[i] + Listed(parts, i + 1, close);
      assert i > 0 ==> (", " + rest + x)[2..] == rest + x;
      assert rest + x == parts[i] + (Listed(parts, i + 1, close) + x);
    }
  }

  lemma {:induction false} ItemsUnambiguous(a: Json, b: Json, i: nat, x: string, y: string)
    requires a.Arr? && b.Arr? && i <= |a.items| && i <= |b.items|
    requires Listed(Texts(a), i, ']') + x == Listed(Texts(b), i, ']') + y
    ensures |a.items| == |b.items| && a.items[i..] == b.items[i..] && x == y
    decreases a, 0, |a.items| - i
  {
    hide Listed, Text, Opened;
    ListedHead(Texts(a), i, ']', x);
    ListedHead(Texts(b), i, ']', y);
    if i < |a.items| {
      var s, t := Listed(Texts(a), i + 1, ']') + x, Listed(Texts(b), i + 1, ']') + y;
      ListedHead(Texts(a), i + 1, ']', x);
      ListedHead(Texts(b), i + 1, ']', y);
      TextUnambiguous(a.items[i], b.items[i], s, t);
      ItemsUnambiguous(a, b, i + 1, x, y);
      FromIndex(a.items, i);
      FromIndex(b.items, i);
    }
  }

  lemma FromIndex(items: seq<Json>, i: nat)
    requires i < |items|
    ensures items[i..] == [items[i]] + items[i + 1..]
  {}

  lemma {:induction false} MembersUnambiguous(a: Json, b: Json, i: nat, x: string, y: string)
    requires a.Obj? && b.Obj? && i <= |a.members.Keys| && i <= |b.members.Keys|
    requires Listed(Members(a), i, '}') + x == Listed(Members(b), i, '}') + y
    ensures |a.members.Keys| == |b.members.Keys| && x == y
    ensures forall k :: i <= k < |a.members.Keys| ==> Member(a, k) == Member(b, k)
    decreases a, 0, |a.members.Keys| - i
  {
    hide Listed, Text, Members, Member, Quote, Opened;
    ListedHead(Members(a), i, '}', x);
    ListedHead(Members(b), i, '}', y);
    if i < |a.members.Keys| {
      var s, t := Listed(Members(a), i + 1, '}') + x, Listed(Members(b), i + 1, '}') + y;
      ListedHead(Members(a), i + 1, '}', x);
      ListedHead(Members(b), i + 1, '}', y);
      MemberUnambiguous(a, b, i, s, t);
      MembersUnambiguous(a, b, i + 1, x, y);
    }
  }

  lemma {:induction false} MemberUnambiguous(a: Json, b: Json, i: nat, s: string, t: string)
    requires a.Obj? && b.Obj? && i < |a.members.Keys| && i < |b.members.Keys| && Ends(s) && Ends(t)
    requires Members(a)[i] + s == Members(b)[i] + t
    ensures Member(a, i) == Member(b, i) && s == t
    decreases a, 0, 0
  {
    hide Text, Members, Quote, Ends;
    var m, n := Member(a, i), Member(b, i);
    PairParts(m.0, Text(m.1), n.0, Text(n.1), s, t);
    TextUnambiguous(m.1, n.1, s, t);
  }

  lemma PairParts(m: string, u: string, n: string, v: string, s: string, t: string)
    requires Quote(m) + (": " + u) + s == Quote(n) + (": " + v) + t
    ensures m == n && u + s == v + t
  {
    hide Quote;
    assert Quote(m) + (": " + u) + s == Quote(m) + (": " + u + s);
    assert Quote(n) + (": " + v) + t == Quote(n) + (": " + v + t);
    QuoteUnambiguous(m, n, ": " + u + s, ": " + v + t);
    assert (": " + u + s)[2..] == u + s && (": " + v + t)[2..] == v + t;
  }

  lemma EveryMember(j: Json, name: string)
    requires j.Obj? && name in j.members
    ensures exists k :: 0 <= k < |j.members.Keys| && Member(j, k).0 == name
  {
    var names := SortedNames(j.members.Keys);
    assert name in names;
    var k :| 0 <= k < |names| && names[k] == name;
    assert Member(j, k).0 == name;
  }

  lemma SameMembers(a: Json, b: Json)
    requires a.Obj? && b.Obj? && |a.members.Keys| == |b.members.Keys|
    requires forall k :: 0 <= k < |a.members.Keys| ==> Member(a, k) == Member(b, k)
    ensures a == b
  {
    hide Member;
    forall name | name in a.members ensures name in b.members && a.members[name] == b.members[name] {
      EveryMember(a, name);
    }
    forall name | name in b.members ensures name in a.members {
      EveryMember(b, name);
    }
    assert a.members == b.members;
  }

  // The sorted text is a faithful sort key.
  lemma TextInjective(a: Json, b: Json)
    requires Text(a) == Text(b)
    ensures a == b
  {
    assert Text(a) + [] == Text(a) && Text(b) + [] == Text(b);
    TextUnambiguous(a, b, [], []);
  }
}
