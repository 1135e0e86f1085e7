/** `json.loads`, and `json.dumps` for lists of texts, with the defaults of Python's `json`
    module (RFC 8259, plus NaN and the infinities). */
module Json {
  import opened Wrappers
  import opened PyText
  import opened Decimals

  /** Decoded text. File text holds no surrogates; `\uD800` in a JSON string makes one. */
  type Points = seq<CodePoint>

  /** Numbers keep their spelling; an object keeps its members in order. */
  datatype Json =
    | Null
    | Bool(value: bool)
    | Number(lexeme: string)
    | Text(points: Points)
    | Array(items: seq<Json>)
    | Object(members: seq<(Points, Json)>)

  // ----- Surrogates -----

  predicate High(p: CodePoint) {
    0xD800 <= p < 0xDC00
  }

  predicate Low(p: CodePoint) {
    0xDC00 <= p < 0xE000
  }

  function Pair(high: CodePoint, low: CodePoint): CodePoint
    requires High(high) && Low(low)
  {
    0x10000 + (high - 0xD800) * 0x400 + (low - 0xDC00)
  }

  /** Adjacent high and low surrogates become one code point, from the left. */
  function Join(units: Points): Points {
    if |units| < 2 then units
    else if High(units[0]) && Low(units[1]) then [Pair(units[0], units[1])] + Join(units[2..])
    else [units[0]] + Join(units[1..])
  }

  /** No high surrogate stands before a low one. */
  predicate Joined(p: Points) {
    forall i :: 0 < i < |p| ==> !(High(p[i - 1]) && Low(p[i]))
  }

  /** The 16-bit units of a code point. */
  function UnitsOf(p: CodePoint): Points {
    if p < 0x10000 then [p]
    else [0xD800 + (p - 0x10000) / 0x400, 0xDC00 + (p - 0x10000) % 0x400]
  }

  function Units(p: Points): Points {
    if p == [] then [] else UnitsOf(p[0]) + Units(p[1..])
  }

  lemma {:induction false} JoinMakesJoined(units: Points)
    ensures Joined(Join(units))
    ensures units != [] ==> Join(units) != [] && (Low(Join(units)[0]) ==> Join(units)[0] == units[0])
    decreases |units|
  {
    if |units| < 2 {
    } else if High(units[0]) && Low(units[1]) {
      JoinMakesJoined(units[2..]);
    } else {
      JoinMakesJoined(units[1..]);
    }
  }

  /** Joining changes nothing exactly when there is nothing to join. */
  lemma {:induction false} JoinIsIdentity(p: Points)
    ensures Join(p) == p <==> Joined(p)
  {
    JoinMakesJoined(p);
    if Joined(p) { JoinOfJoined(p); }
  }

  lemma {:induction false} JoinOfJoined(p: Points)
    requires Joined(p)
    ensures Join(p) == p
  {
    if |p| >= 2 {
      assert !(High(p[1 - 1]) && Low(p[1]));
      forall i | 0 < i < |p[1..]| ensures !(High(p[1..][i - 1]) && Low(p[1..][i])) {
        assert p[1..][i - 1] == p[i + 1 - 1] && p[1..][i] == p[i + 1];
      }
      JoinOfJoined(p[1..]);
    }
  }

  lemma UnitsPair(p: CodePoint)
    requires p >= 0x10000
    ensures var u := UnitsOf(p); High(u[0]) && Low(u[1]) && Pair(u[0], u[1]) == p
  {
  }

  /** Going through 16-bit units only joins what stood side by side. */
  lemma {:induction false} JoinOfUnits(p: Points)
    ensures Join(Units(p)) == Join(p)
  {
    if p == [] {
    } else if p[0] >= 0x10000 {
      UnitsPair(p[0]);
      JoinOfUnits(p[1..]);
      assert Units(p)[2..] == Units(p[1..]);
      assert Join(p) == [p[0]] + Join(p[1..]);
    } else {
      JoinOfUnits(p[1..]);
      assert Units(p) == [p[0]] + Units(p[1..]);
      assert Units(p)[1..] == Units(p[1..]);
      if |p| >= 2 {
        if p[1] >= 0x10000 {
          UnitsPair(p[1]);
          assert High(Units(p[1..])[0]);
        } else {
          assert Units(p[1..]) == [p[1]] + Units(p[2..]);
          assert p[1..][1..] == p[2..];
          if High(p[0]) && Low(p[1]) {
            JoinOfUnits(p[2..]);
            assert Units(p)[2..] == Units(p[2..]);
          }
        }
      }
    }
  }

  // ----- File text -----

  function ToPoints(s: string): Points {
    seq(|s|, i requires 0 <= i < |s| => s[i] as int)
  }

  function AllPoints(texts: seq<string>): seq<Points> {
    if texts == [] then [] else [ToPoints(texts[0])] + AllPoints(texts[1..])
  }

  predicate IsScalar(p: CodePoint) {
    !High(p) && !Low(p)
  }

  /** The characters, if there is no surrogate. */
  function FromPoints(p: Points): Option<string> {
    if forall i :: 0 <= i < |p| ==> IsScalar(p[i])
    then Some(seq(|p|, i requires 0 <= i < |p| => assert IsScalar(p[i]); p[i] as char))
    else None
  }

  lemma FileTextRoundTrip(s: string)
    ensures FromPoints(ToPoints(s)) == Some(s)
  {
    var p := ToPoints(s);
    forall i | 0 <= i < |p| ensures IsScalar(p[i]) {
      assert p[i] == s[i] as int;
    }
    assert FromPoints(p).value == s;
  }

  lemma FileTextIsJoined(s: string)
    ensures Joined(ToPoints(s))
  {
    var p := ToPoints(s);
    forall i | 0 <= i < |p| ensures !High(p[i]) {
      assert p[i] == s[i] as int;
    }
  }

  // ----- Reading -----

  predicate IsJsonBlank(c: char) {
    c == ' ' || c == '\t' || c == '\n' || c == '\r'
  }

  function SkipBlank(s: string): (r: string)
    ensures |r| <= |s|
  {
    if s != "" && IsJsonBlank(s[0]) then SkipBlank(s[1..]) else s
  }

  function HexValue(c: char): Option<nat> {
    if '0' <= c <= '9' then Some(c as int - '0' as int)
    else if 'a' <= c <= 'f' then Some(c as int - 'a' as int + 10)
    else if 'A' <= c <= 'F' then Some(c as int - 'A' as int + 10)
    else None
  }

  /** Four hexadecimal digits. */
  function ReadHex(s: string): (r: Option<CodePoint>)
    ensures r.Some? ==> |s| >= 4
  {
    if |s| < 4 then None
    else
      var a, b, c, d := HexValue(s[0]), HexValue(s[1]), HexValue(s[2]), HexValue(s[3]);
      if a.Some? && b.Some? && c.Some? && d.Some? && a.value < 16 && b.value < 16 && c.value < 16 && d.value < 16
      then Some(0x1000 * a.value + 0x100 * b.value + 0x10 * c.value + d.value)
      else None
  }

  /** The character a short escape stands for. */
  function ShortEscape(c: char): Option<CodePoint> {
    match c
    case '\"' => Some(0x22)
    case '\\' => Some(0x5C)
    case '/' => Some(0x2F)
    case 'b' => Some(0x08)
    case 'f' => Some(0x0C)
    case 'n' => Some(0x0A)
    case 'r' => Some(0x0D)
    case 't' => Some(0x09)
    case _ => None
  }

  /** One unit of a string, and the text after it; control characters are refused. */
  function ReadUnit(s: string): (r: Option<(CodePoint, string)>)
    ensures r.Some? ==> |r.value.1| < |s|
  {
    if s == "" || s[0] == '\"' || s[0] < ' ' then None
    else if s[0] != '\\' then Some((s[0] as int, s[1..]))
    else if |s| < 2 then None
    else if s[1] == 'u' then
      var unit := ReadHex(s[2..]);
      if unit.None? then None else Some((unit.value, s[6..]))
    else
      var unit := ShortEscape(s[1]);
      if unit.None? then None else Some((unit.value, s[2..]))
  }

  /** The units up to the closing quote, and the text after it. */
  function ReadUnits(s: string): (r: Option<(Points, string)>)
    ensures r.Some? ==> |r.value.1| < |s|
    decreases |s|
  {
    if s != "" && s[0] == '\"' then Some(([], s[1..]))
    else
      var first := ReadUnit(s);
      if first.None? then None
      else
        var rest := ReadUnits(first.value.1);
        if rest.None? then None else Some(([first.value.0] + rest.value.0, rest.value.1))
  }

  function ExponentPart(s: string): (r: string)
    ensures |r| <= |s|
  {
    var k := if |s| >= 2 && (s[1] == '+' || s[1] == '-') then 2 else 1;
    if |s| > k && (s[0] == 'e' || s[0] == 'E') && IsDigit(s[k])
    then s[..k + |DigitRun(s[k..])|]
    else ""
  }

  /** The longest number at the start of the text. */
  function ReadNumber(s: string): (r: Option<(Json, string)>)
    ensures r.Some? ==> |r.value.1| < |s|
  {
    var sign := if s != "" && s[0] == '-' then 1 else 0;
    if |s| <= sign || !IsDigit(s[sign]) then None
    else
      var whole := sign + if s[sign] == '0' then 1 else |DigitRun(s[sign..])|;
      var fraction :=
        if |s| > whole + 1 && s[whole] == '.' && IsDigit(s[whole + 1])
        then 1 + |DigitRun(s[whole + 1..])| else 0;
      var end := whole + fraction + |ExponentPart(s[whole + fraction..])|;
      Some((Number(s[..end]), s[end..]))
  }

  /** A fixed word, or else a number. */
  function ReadWord(s: string): (r: Option<(Json, string)>)
    ensures r.Some? ==> |r.value.1| < |s|
  {
    if "null" <= s then Some((Null, s[4..]))
    else if "true" <= s then Some((Bool(true), s[4..]))
    else if "false" <= s then Some((Bool(false), s[5..]))
    else if "NaN" <= s then Some((Number("NaN"), s[3..]))
    else if "Infinity" <= s then Some((Number("Infinity"), s[8..]))
    else if "-Infinity" <= s then Some((Number("-Infinity"), s[9..]))
    else ReadNumber(s)
  }

  function ReadValue(s: string): (r: Option<(Json, string)>)
    ensures r.Some? ==> |r.value.1| < |s|
    decreases |s|, 0
  {
    if s == "" then None
    else if s[0] == '\"' then
      var text := ReadUnits(s[1..]);
      if text.None? then None else Some((Text(Join(text.value.0)), text.value.1))
    else if s[0] == '[' then
      var inside := SkipBlank(s[1..]);
      if inside != "" && inside[0] == ']' then Some((Array([]), inside[1..]))
      else
        var items := ReadItems(inside);
        if items.None? then None else Some((Array(items.value.0), items.value.1))
    else if s[0] == '{' then
      var inside := SkipBlank(s[1..]);
      if inside != "" && inside[0] == '}' then Some((Object([]), inside[1..]))
      else
        var members := ReadMembers(inside);
        if members.None? then None else Some((Object(members.value.0), members.value.1))
    else ReadWord(s)
  }

  /** One or more items, up to the closing bracket. */
  function ReadItems(s: string): (r: Option<(seq<Json>, string)>)
    ensures r.Some? ==> |r.value.1| < |s|
    decreases |s|, 1
  {
    var first := ReadValue(s);
    if first.None? then None
    else
      var after := SkipBlank(first.value.1);
      if after == "" then None
      else if after[0] == ']' then Some(([first.value.0], after[1..]))
      else if after[0] != ',' then None
      else
        var rest := ReadItems(SkipBlank(after[1..]));
        if rest.None? then None else Some(([first.value.0] + rest.value.0, rest.value.1))
  }

  /** One or more members, up to the closing brace. */
  function ReadMembers(s: string): (r: Option<(seq<(Points, Json)>, string)>)
    ensures r.Some? ==> |r.value.1| < |s|
    decreases |s|, 1
  {
    if s == "" || s[0] != '\"' then None
    else
      var key := ReadUnits(s[1..]);
      if key.None? then None
      else
        var colon := SkipBlank(key.value.1);
        if colon == "" || colon[0] != ':' then None
        else
          var value := ReadValue(SkipBlank(colon[1..]));
          if value.None? then None
          else
            var member := (Join(key.value.0), value.value.0);
            var after := SkipBlank(value.value.1);
            if after == "" then None
            else if after[0] == '}' then Some(([member], after[1..]))
            else if after[0] != ',' then None
            else
              var rest := ReadMembers(SkipBlank(after[1..]));
              if rest.None? then None else Some(([member] + rest.value.0, rest.value.1))
  }

  /** `json.loads`; `None` for a `JSONDecodeError`. */
  function Loads(s: string): Option<Json> {
    var value := ReadValue(SkipBlank(s));
    if value.Some? && SkipBlank(value.value.1) == "" then Some(value.value.0) else None
  }

  // ----- Printing -----

  function HexDigit(n: nat): char
    requires n < 16
  {
    if n < 10 then ('0' as int + n) as char else ('a' as int + (n - 10)) as char
  }

  function HexEscape(unit: CodePoint): string
    requires unit < 0x10000
  {
    ['\\', 'u', HexDigit(unit / 0x1000), HexDigit(unit / 0x100 % 0x10), HexDigit(unit / 0x10 % 0x10),
      HexDigit(unit % 0x10)]
  }

  /** One 16-bit unit, as ASCII. */
  function EscapeUnit(unit: CodePoint): string
    requires unit < 0x10000
  {
    if unit == 0x22 then ['\\', '\"']
    else if unit == 0x5C then ['\\', '\\']
    else if unit == 0x0A then ['\\', 'n']
    else if unit == 0x0D then ['\\', 'r']
    else if unit == 0x09 then ['\\', 't']
    else if unit == 0x0C then ['\\', 'f']
    else if unit == 0x08 then ['\\', 'b']
    else if 0x20 <= unit <= 0x7E then [unit as char]
    else HexEscape(unit)
  }

  predicate AreUnits(units: Points) {
    forall i :: 0 <= i < |units| ==> units[i] < 0x10000
  }

  lemma {:induction false} UnitsAreUnits(p: Points)
    ensures AreUnits(Units(p))
  {
    if p == [] {
    } else {
      UnitsAreUnits(p[1..]);
    }
  }

  function EscapeAll(units: Points): string
    requires AreUnits(units)
  {
    if units == [] then "" else EscapeUnit(units[0]) + EscapeAll(units[1..])
  }

  /** `json.dumps` of one text. */
  function DumpText(p: Points): string {
    UnitsAreUnits(p);
    "\"" + EscapeAll(Units(p)) + "\""
  }

  /** The separators: `(",", ":")` as the deploy script asks for, or the default ones. */
  datatype Style = Compact | Spaced

  function Comma(style: Style): string {
    if style.Compact? then "," else ", "
  }

  function Colon(style: Style): string {
    if style.Compact? then ":" else ": "
  }

  function DumpItems(items: seq<Points>, style: Style): string {
    if items == [] then "]"
    else if |items| == 1 then DumpText(items[0]) + "]"
    else DumpText(items[0]) + (Comma(style) + DumpItems(items[1..], style))
  }

  /** `json.dumps` of a list of texts. */
  function Dumps(items: seq<Points>, style: Style): string {
    "[" + DumpItems(items, style)
  }

  type Members = seq<(Points, Option<Points>)>

  /** A text, or `null`. */
  function DumpScalar(v: Option<Points>): string {
    if v.None? then "null" else DumpText(v.value)
  }

  function DumpMembers(members: Members, style: Style): string {
    if members == [] then "}"
    else
      DumpText(members[0].0) + (Colon(style) + (DumpScalar(members[0].1)
        + if |members| == 1 then "}" else Comma(style) + DumpMembers(members[1..], style)))
  }

  /** `json.dumps` of a dictionary of texts and nulls. */
  function DumpObject(members: Members, style: Style): string {
    "{" + DumpMembers(members, style)
  }

  // ----- What is printed is read back -----

  lemma HexRoundTrip(n: nat)
    requires n < 16
    ensures HexValue(HexDigit(n)) == Some(n)
  {
  }

  lemma HexDigitsSum(unit: nat)
    requires unit < 0x10000
    ensures unit / 0x1000 < 0x10
    ensures 0x1000 * (unit / 0x1000) + 0x100 * (unit / 0x100 % 0x10) + 0x10 * (unit / 0x10 % 0x10) + unit % 0x10 == unit
  {
    var q, p := unit / 0x10, unit / 0x100;
    assert q / 0x10 == p && p / 0x10 == unit / 0x1000;
  }

  lemma ReadsHex(a: nat, b: nat, c: nat, d: nat, rest: string)
    requires a < 0x10 && b < 0x10 && c < 0x10 && d < 0x10
    ensures ReadHex([HexDigit(a), HexDigit(b), HexDigit(c), HexDigit(d)] + rest)
            == Some(0x1000 * a + 0x100 * b + 0x10 * c + d)
  {
    HexRoundTrip(a);
    HexRoundTrip(b);
    HexRoundTrip(c);
    HexRoundTrip(d);
  }

  lemma HexEscapeReadsBack(unit: CodePoint, rest: string)
    requires unit < 0x10000
    ensures ReadUnit(HexEscape(unit) + rest) == Some((unit, rest))
  {
    var s := HexEscape(unit) + rest;
    var digits := HexEscape(unit)[2..];
    HexDigitsSum(unit);
    ReadsHex(unit / 0x1000, unit / 0x100 % 0x10, unit / 0x10 % 0x10, unit % 0x10, rest);
    assert s[2..] == digits + rest && s[6..] == rest;
  }

  lemma UnitReadsBack(unit: CodePoint, rest: string)
    requires unit < 0x10000
    ensures ReadUnit(EscapeUnit(unit) + rest) == Some((unit, rest))
    ensures EscapeUnit(unit) != "" && EscapeUnit(unit)[0] != '\"'
  {
    var s := EscapeUnit(unit) + rest;
    if unit in {0x22, 0x5C, 0x0A, 0x0D, 0x09, 0x0C, 0x08} {
      assert s[2..] == rest;
    } else if 0x20 <= unit <= 0x7E {
      assert s[1..] == rest;
    } else {
      HexEscapeReadsBack(unit, rest);
    }
  }

  lemma {:induction false} UnitsReadBack(units: Points, rest: string)
    requires AreUnits(units)
    ensures ReadUnits(EscapeAll(units) + ("\"" + rest)) == Some((units, rest))
  {
    hide EscapeUnit, ReadUnit;
    if units == [] {
      assert EscapeAll(units) + ("\"" + rest) == "\"" + rest;
      assert ("\"" + rest)[1..] == rest;
    } else {
      var tail := EscapeAll(units[1..]) + ("\"" + rest);
      UnitReadsBack(units[0], tail);
      UnitsReadBack(units[1..], rest);
      assert EscapeAll(units) + ("\"" + rest) == EscapeUnit(units[0]) + tail;
      assert [units[0]] + units[1..] == units;
    }
  }

  lemma TextReadsBack(p: Points, rest: string)
    ensures ReadValue(DumpText(p) + rest) == Some((Text(Join(p)), rest))
  {
    UnitsAreUnits(p);
    var s := DumpText(p) + rest;
    assert s[1..] == EscapeAll(Units(p)) + ("\"" + rest);
    UnitsReadBack(Units(p), rest);
    JoinOfUnits(p);
  }

  function Texts(items: seq<Points>): seq<Json> {
    if items == [] then [] else [Text(Join(items[0]))] + Texts(items[1..])
  }

  lemma AfterComma(style: Style, tail: string)
    requires tail != "" && !IsJsonBlank(tail[0])
    ensures var s := Comma(style) + tail;
            SkipBlank(s) == s && s[0] == ',' && SkipBlank(s[1..]) == tail
  {
    var s := Comma(style) + tail;
    if style.Compact? {
      assert s[1..] == tail;
    } else {
      assert s[1..] == " " + tail && s[1..][1..] == tail;
    }
  }

  lemma AfterColon(style: Style, tail: string)
    requires tail != "" && !IsJsonBlank(tail[0])
    ensures var s := Colon(style) + tail;
            SkipBlank(s) == s && s[0] == ':' && SkipBlank(s[1..]) == tail
  {
    var s := Colon(style) + tail;
    if style.Compact? {
      assert s[1..] == tail;
    } else {
      assert s[1..] == " " + tail && s[1..][1..] == tail;
    }
  }

  lemma {:induction false} ItemsReadBack(items: seq<Points>, style: Style)
    requires items != []
    ensures ReadItems(DumpItems(items, style)) == Some((Texts(items), ""))
  {
    hide ReadUnits, EscapeAll, ReadWord, Join;
    if |items| == 1 {
      TextReadsBack(items[0], "]");
      assert SkipBlank("]") == "]";
      assert Texts(items) == [Text(Join(items[0]))];
    } else {
      var tail := DumpItems(items[1..], style);
      TextReadsBack(items[0], Comma(style) + tail);
      ItemsReadBack(items[1..], style);
      assert tail[0] == '\"';
      AfterComma(style, tail);
    }
  }

  /** Printing a list of texts and reading it gives the list back, up to surrogates that
      stood side by side: JSON has no way to keep them apart. */
  lemma DumpsReadsBack(items: seq<Points>, style: Style)
    ensures Loads(Dumps(items, style)) == Some(Array(Texts(items)))
  {
    hide ReadUnits, EscapeAll, ReadWord, Join;
    var s := Dumps(items, style);
    assert SkipBlank(s) == s && s[1..] == DumpItems(items, style);
    if items == [] {
      assert SkipBlank("]") == "]";
      assert ("]")[1..] == "";
    } else {
      ItemsReadBack(items, style);
      assert DumpItems(items, style)[0] == '\"';
      assert SkipBlank(DumpItems(items, style)) == DumpItems(items, style);
    }
  }

  function ScalarOf(v: Option<Points>): Json {
    if v.None? then Null else Text(Join(v.value))
  }

  function MembersOf(members: Members): seq<(Points, Json)> {
    if members == [] then []
    else [(Join(members[0].0), ScalarOf(members[0].1))] + MembersOf(members[1..])
  }

  lemma ScalarReadsBack(v: Option<Points>, rest: string)
    ensures ReadValue(DumpScalar(v) + rest) == Some((ScalarOf(v), rest))
    ensures !IsJsonBlank((DumpScalar(v) + rest)[0])
  {
    if v.Some? {
      TextReadsBack(v.value, rest);
    } else {
      var s := "null" + rest;
      assert s[4..] == rest && s[..4] == "null";
    }
  }

  lemma {:induction false} MembersReadBack(members: Members, style: Style)
    requires members != []
    ensures ReadMembers(DumpMembers(members, style)) == Some((MembersOf(members), ""))
  {
    hide ReadUnits, EscapeAll, ReadValue, Join, Comma, Colon;
    var key, value := members[0].0, members[0].1;
    var tail := if |members| == 1 then "}" else Comma(style) + DumpMembers(members[1..], style);
    var after := DumpScalar(value) + tail;
    KeyReadsBack(key, Colon(style) + after);
    ScalarReadsBack(value, tail);
    AfterColon(style, after);
    assert DumpMembers(members, style) == DumpText(key) + (Colon(style) + after);
    if |members| == 1 {
      assert SkipBlank(tail) == tail && tail[1..] == "";
      assert MembersOf(members) == [(Join(key), ScalarOf(value))];
    } else {
      MembersReadBack(members[1..], style);
      assert DumpMembers(members[1..], style)[0] == '\"';
      AfterComma(style, DumpMembers(members[1..], style));
    }
  }

  lemma KeyReadsBack(p: Points, rest: string)
    ensures var s := DumpText(p) + rest;
            && s[0] == '\"'
            && ReadUnits(s[1..]).Some? && Join(ReadUnits(s[1..]).value.0) == Join(p)
            && ReadUnits(s[1..]).value.1 == rest
  {
    UnitsAreUnits(p);
    var s := DumpText(p) + rest;
    assert s[1..] == EscapeAll(Units(p)) + ("\"" + rest);
    UnitsReadBack(Units(p), rest);
    JoinOfUnits(p);
  }

  /** The same for a dictionary of texts and nulls. */
  lemma ObjectReadsBack(members: Members, style: Style)
    ensures Loads(DumpObject(members, style)) == Some(Object(MembersOf(members)))
  {
    hide ReadUnits, EscapeAll, ReadWord, Join, ReadMembers, ReadItems;
    var s := DumpObject(members, style);
    assert SkipBlank(s) == s && s[1..] == DumpMembers(members, style);
    if members == [] {
      assert SkipBlank("}") == "}";
      assert ("}")[1..] == "";
    } else {
      MembersReadBack(members, style);
      assert DumpMembers(members, style)[0] == '\"';
      assert SkipBlank(DumpMembers(members, style)) == DumpMembers(members, style);
    }
  }

  lemma NullReadsBack()
    ensures Loads("null") == Some(Null)
  {
    ScalarReadsBack(None, "");
    assert "null" + "" == "null";
    assert SkipBlank("null") == "null";
  }

  lemma {:induction false} TextsAre(items: seq<Points>)
    ensures |Texts(items)| == |items|
    ensures forall i :: 0 <= i < |items| ==> Texts(items)[i] == Text(Join(items[i]))
  {
    if items == [] {
    } else {
      TextsAre(items[1..]);
    }
  }

  /** The round trip is the identity exactly on texts without side-by-side surrogates. */
  lemma DumpsRoundTrip(items: seq<Points>, style: Style)
    ensures Loads(Dumps(items, style)) == Some(Array(seq(|items|, i requires 0 <= i < |items| => Text(items[i]))))
            <==> forall i :: 0 <= i < |items| ==> Joined(items[i])
  {
    DumpsReadsBack(items, style);
    TextsAre(items);
    var plain := seq(|items|, i requires 0 <= i < |items| => Text(items[i]));
    forall i | 0 <= i < |items| ensures Texts(items)[i] == plain[i] <==> Joined(items[i]) {
      JoinIsIdentity(items[i]);
    }
    if forall i :: 0 <= i < |items| ==> Joined(items[i]) {
      assert Texts(items) == plain;
    }
    if Texts(items) == plain {
      forall i | 0 <= i < |items| ensures Joined(items[i]) { assert Texts(items)[i] == plain[i]; }
    }
  }

  // ----- The printed form is plain -----

  predicate Plain(s: string) {
    forall i :: 0 <= i < |s| ==> ' ' <= s[i] <= '~'
  }

  lemma {:induction false} EscapesArePlain(units: Points)
    requires AreUnits(units)
    ensures Plain(EscapeAll(units))
  {
    if units == [] {
    } else {
      assert Plain(EscapeUnit(units[0]));
      EscapesArePlain(units[1..]);
    }
  }

  lemma TextIsPlain(p: Points)
    ensures Plain(DumpText(p)) && DumpText(p) != ""
  {
    UnitsAreUnits(p);
    EscapesArePlain(Units(p));
  }

  lemma ConcatIsPlain(a: string, b: string)
    requires Plain(a) && Plain(b) && b != "" && b[|b| - 1] == ']'
    ensures Plain(a + b) && a + b != "" && (a + b)[|a + b| - 1] == ']'
  {
  }

  lemma {:induction false} ItemsArePlain(items: seq<Points>, style: Style)
    ensures var s := DumpItems(items, style); Plain(s) && s != "" && s[|s| - 1] == ']'
  {
    if items == [] {
    } else {
      TextIsPlain(items[0]);
      hide DumpText;
      if |items| == 1 {
        ConcatIsPlain(DumpText(items[0]), "]");
      } else {
        var rest := DumpItems(items[1..], style);
        ItemsArePlain(items[1..], style);
        ConcatIsPlain(Comma(style), rest);
        ConcatIsPlain(DumpText(items[0]), Comma(style) + rest);
      }
    }
  }

  /** One line of printable ASCII between brackets. */
  lemma DumpsIsPlain(items: seq<Points>, style: Style)
    ensures var s := Dumps(items, style); Plain(s) && |s| >= 2 && s[0] == '[' && s[|s| - 1] == ']'
  {
    ItemsArePlain(items, style);
  }

  /** Texts in what was read never have side-by-side surrogates. */
  lemma ReadTextsAreJoined(s: string)
    ensures var r := ReadValue(s); r.Some? && r.value.0.Text? ==> Joined(r.value.0.points)
  {
    if s != "" && s[0] == '\"' {
      var text := ReadUnits(s[1..]);
      if text.Some? { JoinMakesJoined(text.value.0); }
    }
  }

  lemma {:induction false} ReadItemsAreJoined(s: string)
    ensures var r := ReadItems(s);
            r.Some? ==> forall i :: 0 <= i < |r.value.0| ==> r.value.0[i].Text? ==> Joined(r.value.0[i].points)
    decreases |s|
  {
    var first := ReadValue(s);
    if first.Some? {
      ReadTextsAreJoined(s);
      var after := SkipBlank(first.value.1);
      if after != "" && after[0] == ',' { ReadItemsAreJoined(SkipBlank(after[1..])); }
    }
  }

  lemma LoadedTextsAreJoined(s: string)
    ensures var r := Loads(s);
            r.Some? && r.value.Array? ==>
              forall i :: 0 <= i < |r.value.items| ==> r.value.items[i].Text? ==> Joined(r.value.items[i].points)
  {
    var t := SkipBlank(s);
    if t != "" && t[0] == '[' { ReadItemsAreJoined(SkipBlank(t[1..])); }
  }

  // ----- Plain texts -----

  /** Printable ASCII without quotation marks and backslashes. */
  predicate NeedsNoEscape(s: string) {
    forall i :: 0 <= i < |s| ==> ' ' <= s[i] <= '~' && s[i] != '\"' && s[i] != '\\'
  }

  lemma PlainUnit(c: char)
    requires ' ' <= c <= '~' && c != '\"' && c != '\\'
    ensures UnitsOf(c as int) == [c as int] && EscapeUnit(c as int) == [c]
  {
  }

  lemma {:induction false} PlainUnits(s: string)
    requires NeedsNoEscape(s)
    ensures Units(ToPoints(s)) == ToPoints(s) && AreUnits(ToPoints(s)) && EscapeAll(ToPoints(s)) == s
  {
    var p := ToPoints(s);
    if s == "" {
    } else {
      var rest := ToPoints(s[1..]);
      assert p[1..] == rest && p[0] == s[0] as int;
      assert NeedsNoEscape(s[1..]);
      PlainUnits(s[1..]);
      PlainUnit(s[0]);
      hide UnitsOf, EscapeUnit, NeedsNoEscape;
      assert Units(p) == [p[0]] + rest;
      assert p == [p[0]] + rest && s == [s[0]] + s[1..];
      forall i | 0 <= i < |p| ensures p[i] < 0x10000 { if i > 0 { assert p[i] == rest[i - 1]; } }
    }
  }

  /** Such a text is printed between quotation marks as it is. */
  lemma PlainTextIsQuoted(s: string)
    requires NeedsNoEscape(s)
    ensures DumpText(ToPoints(s)) == Quoted(s)
  {
    PlainUnits(s);
  }

  predicate AllPlain(items: seq<string>) {
    forall i :: 0 <= i < |items| ==> NeedsNoEscape(items[i])
  }

  function Quoted(s: string): string {
    "\"" + s + "\""
  }

  /** Quoted items with a separator between them. */
  function Listed(items: seq<string>, separator: string): string {
    if items == [] then ""
    else if |items| == 1 then Quoted(items[0])
    else Quoted(items[0]) + (separator + Listed(items[1..], separator))
  }

  /** Plain items are written as they are, in quotation marks, between commas and brackets. */
  lemma PlainListsAreWrittenPlainly(items: seq<string>)
    requires AllPlain(items)
    ensures Dumps(AllPoints(items), Compact) == "[" + (Listed(items, ",") + "]")
    ensures Dumps(AllPoints(items), Spaced) == "[" + (Listed(items, ", ") + "]")
  {
    PlainItems(items, Compact);
    PlainItems(items, Spaced);
  }

  lemma {:induction false} PlainItems(items: seq<string>, style: Style)
    requires AllPlain(items)
    ensures DumpItems(AllPoints(items), style) == Listed(items, if style.Compact? then "," else ", ") + "]"
  {
    var points, separator := AllPoints(items), if style.Compact? then "," else ", ";
    if items == [] {
    } else {
      assert NeedsNoEscape(items[0]);
      PlainTextIsQuoted(items[0]);
      hide DumpText, Quoted;
      if |items| == 1 {
        assert items[1..] == [];
      } else {
        forall i | 0 <= i < |items[1..]| ensures NeedsNoEscape(items[1..][i]) { assert NeedsNoEscape(items[i + 1]); }
        PlainItems(items[1..], style);
        assert points[1..] == AllPoints(items[1..]);
        assert |points| > 1;
        var first, rest := Quoted(items[0]), Listed(items[1..], separator);
        assert first + (separator + (rest + "]")) == (first + (separator + rest)) + "]";
      }
    }
  }

  /** An object is written member by member, in order. */
  lemma PlainObjectIsWritten(names: seq<string>, values: seq<string>)
    requires |names| == |values| == 3 && AllPlain(names) && AllPlain(values)
    ensures var ms := [(ToPoints(names[0]), Some(ToPoints(values[0]))), (ToPoints(names[1]), Some(ToPoints(values[1]))),
      (ToPoints(names[2]), Some(ToPoints(values[2])))];
            DumpObject(ms, Spaced)
            == "{" + (Quoted(names[0]) + (": " + (Quoted(values[0]) + (", "
               + (Quoted(names[1]) + (": " + (Quoted(values[1]) + (", "
               + (Quoted(names[2]) + (": " + (Quoted(values[2]) + "}")))))))))))
  {
    forall i | 0 <= i < 3 ensures DumpText(ToPoints(names[i])) == Quoted(names[i]) {
      assert NeedsNoEscape(names[i]);
      PlainTextIsQuoted(names[i]);
    }
    forall i | 0 <= i < 3 ensures DumpText(ToPoints(values[i])) == Quoted(values[i]) {
      assert NeedsNoEscape(values[i]);
      PlainTextIsQuoted(values[i]);
    }
    var ms := [(ToPoints(names[0]), Some(ToPoints(values[0]))), (ToPoints(names[1]), Some(ToPoints(values[1]))),
      (ToPoints(names[2]), Some(ToPoints(values[2])))];
    hide DumpText, Quoted, ToPoints;
    var two := ms[1..];
    var one := two[1..];
    assert |two| == 2 && |one| == 1 && two[0] == ms[1] && one[0] == ms[2];
    assert DumpMembers(one, Spaced) == Quoted(names[2]) + (": " + (Quoted(values[2]) + "}"));
    assert DumpMembers(two, Spaced)
           == Quoted(names[1]) + (": " + (Quoted(values[1]) + (", " + DumpMembers(one, Spaced))));
    assert DumpMembers(ms, Spaced)
           == Quoted(names[0]) + (": " + (Quoted(values[0]) + (", " + DumpMembers(two, Spaced))));
  }

  /** The characters that are written with a backslash and one letter, either way. */
  lemma ShortEscapesAre(rest: string)
    ensures ReadUnit("\\n" + rest) == Some((10, rest)) && EscapeUnit(10) == "\\n"
    ensures ReadUnit("\\r" + rest) == Some((13, rest)) && EscapeUnit(13) == "\\r"
    ensures ReadUnit("\\t" + rest) == Some((9, rest)) && EscapeUnit(9) == "\\t"
    ensures ReadUnit("\\b" + rest) == Some((8, rest)) && EscapeUnit(8) == "\\b"
    ensures ReadUnit("\\f" + rest) == Some((12, rest)) && EscapeUnit(12) == "\\f"
    ensures ReadUnit("\\\"" + rest) == Some((34, rest)) && EscapeUnit(34) == "\\\""
    ensures ReadUnit("\\\\" + rest) == Some((92, rest)) && EscapeUnit(92) == "\\\\"
    ensures ReadUnit("\\/" + rest) == Some((47, rest)) && EscapeUnit(47) == "/"
  {
    Escaped('n', rest);
    Escaped('r', rest);
    Escaped('t', rest);
    Escaped('b', rest);
    Escaped('f', rest);
    Escaped('\"', rest);
    Escaped('\\', rest);
    Escaped('/', rest);
    hide ReadUnit;
  }

  lemma Escaped(c: char, rest: string)
    requires c != 'u'
    ensures ReadUnit(['\\', c] + rest) == if ShortEscape(c).Some? then Some((ShortEscape(c).value, rest)) else None
  {
    var s := ['\\', c] + rest;
    assert s[0] == '\\' && s[1] == c && s[2..] == rest;
    hide ShortEscape;
  }
}
