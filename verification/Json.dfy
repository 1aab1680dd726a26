/** JSON values, printed as `json.dumps` does and read as `json.loads` does (RFC 8259;
  src/cachau/disk.py).  A float is its text. */
module Json {
  import opened Bytes
  import opened JsonText
  import opened Wrappers

  datatype Value =
    | Null
    | Bool(b: bool)
    | Integer(n: int)
    | Float(text: Bytes)
    | String(chars: Text)
    | Array(items: seq<Value>)
    | Object(fields: seq<Field>)

  datatype Field = Field(name: Text, value: Value)

  const COMMA: Byte := 44
  const OPEN: Byte := 123
  const CLOSE: Byte := 125
  const FIRST: Byte := 91
  const LAST: Byte := 93
  const MINUS: Byte := 45

  predicate Space(c: Code) {
    c == 32 || c == 9 || c == 10 || c == 13
  }

  /** What ends a number or a name. */
  predicate Ends(c: Code) {
    Space(c) || c == COMMA || c == COLON || c == OPEN || c == CLOSE || c == QUOTE_MARK || c == FIRST || c == LAST
  }

  /** Printable ASCII. */
  predicate Plain(s: Text) {
    forall i :: 0 <= i < |s| ==> 32 <= s[i] < 127
  }

  /** The characters of a number or a name. */
  predicate Token(s: Text) {
    forall i :: 0 <= i < |s| ==> 32 <= s[i] < 127 && !Ends(s[i])
  }

  // --------------------------------------------------------------- numbers and names

  predicate Digit(c: Code) {
    48 <= c < 58
  }

  function DigitRun(s: Text): (n: nat)
    ensures n <= |s|
    ensures forall i :: 0 <= i < n ==> Digit(s[i])
  {
    if s == [] || !Digit(s[0]) then 0 else 1 + DigitRun(s[1..])
  }

  /** Digits without a superfluous leading zero. */
  predicate NaturalText(s: Text) {
    s != [] && DigitRun(s) == |s| && (|s| == 1 || s[0] != 48)
  }

  function Unsigned(s: Text): Text {
    if s != [] && s[0] == MINUS then s[1..] else s
  }

  predicate FractionText(s: Text) {
    |s| >= 2 && s[0] == 46 && DigitRun(s[1..]) == |s| - 1
  }

  predicate ExponentText(s: Text) {
    |s| >= 2 && (s[0] == 101 || s[0] == 69)
    && var t := if s[1] == 43 || s[1] == 45 then s[2..] else s[1..];
       t != [] && DigitRun(t) == |t|
  }

  /** What follows the whole part: a fraction, an exponent, or both. */
  predicate PartsText(s: Text) {
    FractionText(s) || ExponentText(s)
    || (|s| >= 2 && s[0] == 46
        && var n := DigitRun(s[1..]);
           n > 0 && ExponentText(s[1 + n..]))
  }

  predicate NamedFloat(s: Text) {
    s == Ascii("NaN") || s == Ascii("Infinity") || s == Ascii("-Infinity")
  }

  predicate DecimalFloat(s: Text) {
    var t := Unsigned(s);
    var n := DigitRun(t);
    NaturalText(t[..n]) && PartsText(t[n..])
  }

  predicate FloatText(s: Text) {
    NamedFloat(s) || DecimalFloat(s)
  }

  /** The value a bare token stands for. */
  function Bare(s: Text): Option<Value> {
    if s == Ascii("null") then Some(Null)
    else if s == Ascii("true") then Some(Bool(true))
    else if s == Ascii("false") then Some(Bool(false))
    else if NaturalText(Unsigned(s)) then
      Some(Integer(if s != Unsigned(s) then -Digits(Unsigned(s)) else Digits(s)))
    else if FloatText(s) then
      FloatToken(s);
      Some(Float(s))
    else None
  }

  // --------------------------------------------------------------------- printing

  function PrintInteger(n: int): (s: Bytes)
    ensures s != [] && (Digit(s[0]) || s[0] == MINUS)
  {
    if n < 0 then [MINUS] + Decimal(-n) else Decimal(n)
  }

  function Print(v: Value): Bytes
    decreases v, 0
  {
    match v
    case Null => Ascii("null")
    case Bool(b) => Ascii(if b then "true" else "false")
    case Integer(n) => PrintInteger(n)
    case Float(text) => text
    case String(chars) => Quoted(chars)
    case Array(items) => [FIRST] + (PrintItems(items) + [LAST])
    case Object(fields) => [OPEN] + (PrintFields(fields) + [CLOSE])
  }

  function PrintItems(items: seq<Value>): Bytes
    decreases items, 0
  {
    if items == [] then [] else Print(items[0]) + PrintMoreItems(items[1..])
  }

  function PrintMoreItems(items: seq<Value>): Bytes
    decreases items, 1
  {
    if items == [] then [] else [COMMA, 32] + PrintItems(items)
  }

  function PrintFields(fields: seq<Field>): Bytes
    decreases fields, 0
  {
    if fields == [] then []
    else
      Quoted(fields[0].name) + ([COLON, 32] + (Print(fields[0].value) + PrintMoreFields(fields[1..])))
  }

  function PrintMoreFields(fields: seq<Field>): Bytes
    decreases fields, 1
  {
    if fields == [] then [] else [COMMA, 32] + PrintFields(fields)
  }

  // ---------------------------------------------------------------------- reading

  datatype Parsed = Parsed(value: Value, rest: Text)

  datatype ParsedItems = ParsedItems(items: seq<Value>, rest: Text)

  datatype ParsedFields = ParsedFields(fields: seq<Field>, rest: Text)

  function SkipSpace(s: Text): (r: Text)
    ensures |r| <= |s|
  {
    if s != [] && Space(s[0]) then SkipSpace(s[1..]) else s
  }

  function TokenRun(s: Text): (n: nat)
    ensures n <= |s|
  {
    if s == [] || Ends(s[0]) then 0 else 1 + TokenRun(s[1..])
  }

  function Parse(s: Text): (r: Option<Parsed>)
    ensures r.Some? ==> |r.value.rest| < |s|
    decreases |s|, 0
  {
    if s == [] then None
    else if s[0] == QUOTE_MARK then
      var t := Scan(s[1..]);
      if t.None? then None else Some(Parsed(String(t.value.text), t.value.rest))
    else if s[0] == OPEN then
      var inside := SkipSpace(s[1..]);
      if inside != [] && inside[0] == CLOSE then Some(Parsed(Object([]), inside[1..]))
      else
        var fields := ParseFields(inside);
        if fields.None? then None else Some(Parsed(Object(fields.value.fields), fields.value.rest))
    else if s[0] == FIRST then
      var inside := SkipSpace(s[1..]);
      if inside != [] && inside[0] == LAST then Some(Parsed(Array([]), inside[1..]))
      else
        var items := ParseItems(inside);
        if items.None? then None else Some(Parsed(Array(items.value.items), items.value.rest))
    else
      var n := TokenRun(s);
      if n == 0 || Bare(s[..n]).None? then None else Some(Parsed(Bare(s[..n]).value, s[n..]))
  }

  /** Values up to the closing bracket, with a comma before more. */
  function ParseItems(s: Text): (r: Option<ParsedItems>)
    ensures r.Some? ==> |r.value.rest| < |s|
    decreases |s|, 1
  {
    var first := Parse(s);
    if first.None? then None
    else
      var next := SkipSpace(first.value.rest);
      if next != [] && next[0] == LAST then Some(ParsedItems([first.value.value], next[1..]))
      else if next == [] || next[0] != COMMA then None
      else
        var more := ParseItems(SkipSpace(next[1..]));
        if more.None? then None
        else Some(ParsedItems([first.value.value] + more.value.items, more.value.rest))
  }

  /** Fields up to the closing brace: name, colon, value, and a comma before more. */
  function ParseFields(s: Text): (r: Option<ParsedFields>)
    ensures r.Some? ==> |r.value.rest| < |s|
    decreases |s|, 1
  {
    if s == [] || s[0] != QUOTE_MARK then None
    else
      var name := Scan(s[1..]);
      if name.None? then None
      else
        var colon := SkipSpace(name.value.rest);
        if colon == [] || colon[0] != COLON then None
        else
          var value := Parse(SkipSpace(colon[1..]));
          if value.None? then None
          else
            var first := Field(name.value.text, value.value.value);
            var next := SkipSpace(value.value.rest);
            if next != [] && next[0] == CLOSE then Some(ParsedFields([first], next[1..]))
            else if next == [] || next[0] != COMMA then None
            else
              var more := ParseFields(SkipSpace(next[1..]));
              if more.None? then None else Some(ParsedFields([first] + more.value.fields, more.value.rest))
  }

  /** One value, with space around it and nothing else. */
  function ParseWhole(s: Text): Option<Value> {
    var parsed := Parse(SkipSpace(s));
    if parsed.Some? && SkipSpace(parsed.value.rest) == [] then Some(parsed.value.value) else None
  }

  /** The interpreter's side of it: how bytes are decoded, how many digits an integer
    converted from or to decimal may have, and how deep containers may nest. */
  datatype Interpreter = Interpreter(decode: Bytes -> Option<Text>, digits: Option<nat>, nesting: nat)

  /** Printable ASCII is decoded as itself, as in every encoding of RFC 8259. */
  ghost predicate Decodes(python: Interpreter) {
    forall s: Bytes :: Plain(s) ==> python.decode(s) == Some(s)
  }

  function DigitCount(n: int): nat {
    |Decimal(if n < 0 then -n else n)|
  }

  /** No integer is too long and no container too deep. */
  predicate Allowed(python: Interpreter, v: Value)
    decreases v, 0
  {
    match v
    case Integer(n) => python.digits.Some? ==> DigitCount(n) <= python.digits.value
    case Array(items) => python.nesting > 0 && AllowedItems(python.(nesting := python.nesting - 1), items)
    case Object(fields) => python.nesting > 0 && AllowedFields(python.(nesting := python.nesting - 1), fields)
    case _ => true
  }

  predicate AllowedItems(python: Interpreter, items: seq<Value>)
    decreases items, 0
  {
    items == [] || (Allowed(python, items[0]) && AllowedItems(python, items[1..]))
  }

  predicate AllowedFields(python: Interpreter, fields: seq<Field>)
    decreases fields, 0
  {
    fields == [] || (Allowed(python, fields[0].value) && AllowedFields(python, fields[1..]))
  }

  /** `json.loads`: bytes that cannot be decoded, bad syntax, an integer too long and
    containers too deep are all errors.  A literal has as many digits as its number,
    and a value nests as deep as its text. */
  function Loads(python: Interpreter, s: Bytes): Option<Value> {
    var text := python.decode(s);
    if text.None? then None
    else
      var v := ParseWhole(text.value);
      if v.Some? && Allowed(python, v.value) then v else None
  }

  // ----------------------------------------------------------------- the round trip

  predicate Printable(v: Value)
    decreases v, 0
  {
    match v
    case Float(text) => FloatText(text)
    case Array(items) => PrintableItems(items)
    case Object(fields) => PrintableFields(fields)
    case _ => true
  }

  predicate PrintableItems(items: seq<Value>)
    decreases items, 0
  {
    items == [] || (Printable(items[0]) && PrintableItems(items[1..]))
  }

  predicate PrintableFields(fields: seq<Field>)
    decreases fields, 0
  {
    fields == [] || (Printable(fields[0].value) && PrintableFields(fields[1..]))
  }

  /** The value with surrogate pairs merged in every string. */
  function Settled(v: Value): Value
    decreases v, 0
  {
    match v
    case String(chars) => String(Merged(chars))
    case Array(items) => Array(SettledItems(items))
    case Object(fields) => Object(SettledFields(fields))
    case _ => v
  }

  function SettledItems(items: seq<Value>): (r: seq<Value>)
    ensures |r| == |items|
    decreases items, 0
  {
    if items == [] then [] else [Settled(items[0])] + SettledItems(items[1..])
  }

  function SettledFields(fields: seq<Field>): (r: seq<Field>)
    ensures |r| == |fields|
    decreases fields, 0
  {
    if fields == [] then []
    else [Field(Merged(fields[0].name), Settled(fields[0].value))] + SettledFields(fields[1..])
  }

  predicate Stops(r: Text) {
    r == [] || Ends(r[0])
  }

  lemma {:induction false} RunOf(s: Text, r: Text)
    requires Token(s) && Stops(r)
    ensures TokenRun(s + r) == |s|
  {
    if s == [] {
      assert s + r == r;
    } else {
      assert (s + r)[1..] == s[1..] + r;
      RunOf(s[1..], r);
    }
  }

  /** A bare token is read whole. */
  lemma ParseBare(s: Text, r: Text)
    requires s != [] && Token(s) && Stops(r) && Bare(s).Some?
    ensures Parse(s + r) == Some(Parsed(Bare(s).value, r))
  {
    RunOf(s, r);
    var all := s + r;
    assert all[0] == s[0] && all[..|s|] == s && all[|s|..] == r;
  }

  lemma ExponentIsToken(s: Text)
    requires ExponentText(s)
    ensures Token(s) && !Digit(s[0])
  {
    var k := if s[1] == 43 || s[1] == 45 then 2 else 1;
    var t := s[k..];
    forall i | 0 <= i < |s| ensures 32 <= s[i] < 127 && !Ends(s[i]) {
      assert i >= k ==> s[i] == t[i - k];
    }
  }

  lemma PartsAreToken(s: Text)
    requires PartsText(s)
    ensures Token(s) && s != [] && !Digit(s[0])
  {
    if FractionText(s) {
      var t := s[1..];
      forall i | 0 <= i < |s| ensures 32 <= s[i] < 127 && !Ends(s[i]) {
        assert i >= 1 ==> s[i] == t[i - 1];
      }
    } else if ExponentText(s) {
      ExponentIsToken(s);
    } else {
      var n := DigitRun(s[1..]);
      ExponentIsToken(s[1 + n..]);
      forall i | 0 <= i < |s| ensures 32 <= s[i] < 127 && !Ends(s[i]) {
        if i > n {
          assert s[i] == s[1 + n..][i - 1 - n];
        } else if i > 0 {
          assert s[i] == s[1..][i - 1];
        }
      }
    }
  }

  lemma DecimalFloatToken(s: Text)
    requires DecimalFloat(s)
    ensures s != [] && Token(s) && (Digit(s[0]) || s[0] == MINUS) && !NaturalText(Unsigned(s))
  {
    var t := Unsigned(s);
    var n := DigitRun(t);
    PartsAreToken(t[n..]);
    assert t[n] == t[n..][0];
    forall i | 0 <= i < |t| ensures 32 <= t[i] < 127 && !Ends(t[i]) {
      assert i >= n ==> t[i] == t[n..][i - n];
    }
    forall i | 0 <= i < |s| ensures 32 <= s[i] < 127 && !Ends(s[i]) {
      assert s != t ==> (i > 0 ==> s[i] == t[i - 1]);
    }
    assert Digit(t[0]) by { assert t[..n][0] == t[0]; }
  }

  lemma NameTexts()
    ensures Ascii("null") == [110, 117, 108, 108] && Ascii("true") == [116, 114, 117, 101]
    ensures Ascii("false") == [102, 97, 108, 115, 101] && Ascii("NaN") == [78, 97, 78]
    ensures Ascii("Infinity") == [73, 110, 102, 105, 110, 105, 116, 121]
    ensures Ascii("-Infinity") == [45, 73, 110, 102, 105, 110, 105, 116, 121]
  {
  }

  lemma NamedFloatToken(s: Text)
    requires NamedFloat(s)
    ensures s != [] && Token(s) && !NaturalText(Unsigned(s))
    ensures s != Ascii("null") && s != Ascii("true") && s != Ascii("false")
  {
    NameTexts();
    assert Unsigned(Ascii("-Infinity")) == [73, 110, 102, 105, 110, 105, 116, 121];
  }

  /** A float's text is one token, and no other kind of one. */
  lemma FloatToken(s: Text)
    requires FloatText(s)
    ensures s != [] && Token(s) && !NaturalText(Unsigned(s))
    ensures s != Ascii("null") && s != Ascii("true") && s != Ascii("false")
  {
    if NamedFloat(s) {
      NamedFloatToken(s);
    } else {
      DecimalFloatToken(s);
      NotAName(s);
    }
  }

  lemma FloatReads(s: Bytes)
    requires FloatText(s)
    ensures s != [] && Token(s) && Bare(s) == Some(Float(s))
  {
    FloatToken(s);
  }

  lemma {:induction false} DigitsRun(s: Text)
    requires forall i :: 0 <= i < |s| ==> Digit(s[i])
    ensures DigitRun(s) == |s|
  {
    if s != [] {
      DigitsRun(s[1..]);
    }
  }

  lemma {:induction false} DecimalIsNatural(n: nat)
    ensures NaturalText(Decimal(n)) && (n > 0 ==> Decimal(n)[0] != 48)
  {
    DigitsRun(Decimal(n));
    if n >= 10 {
      DecimalIsNatural(n / 10);
      assert Decimal(n)[0] == Decimal(n / 10)[0];
    }
  }

  lemma NotAName(s: Text)
    requires s != [] && (Digit(s[0]) || s[0] == MINUS)
    ensures s != Ascii("null") && s != Ascii("true") && s != Ascii("false")
  {
    NameTexts();
  }

  lemma NaturalTextReads(t: Text)
    requires NaturalText(t)
    ensures Token(t) && Bare(t) == Some(Integer(Digits(t)))
  {
    assert Digit(t[0]);
    NotAName(t);
    assert Unsigned(t) == t;
  }

  lemma NegativeTextReads(t: Text)
    requires NaturalText(t)
    ensures Token([MINUS] + t) && Bare([MINUS] + t) == Some(Integer(-Digits(t)))
  {
    var s := [MINUS] + t;
    assert s[0] == MINUS && s[1..] == t && |s| == 1 + |t|;
    NotAName(s);
    assert Unsigned(s) == t;
    forall i | 0 <= i < |s| ensures 32 <= s[i] < 127 && !Ends(s[i]) {
      assert i > 0 ==> s[i] == t[i - 1];
    }
  }

  lemma IntegerReads(n: int)
    ensures var s := PrintInteger(n); s != [] && Token(s) && Bare(s) == Some(Integer(n))
  {
    var m := if n < 0 then -n else n;
    DecimalIsNatural(m);
    DecimalValue(m);
    if n < 0 {
      NegativeTextReads(Decimal(m));
    } else {
      NaturalTextReads(Decimal(m));
    }
  }

  lemma NamesRead(v: Value)
    requires v.Null? || v.Bool?
    ensures var s := Print(v); s != [] && Token(s) && Bare(s) == Some(v)
  {
    NameTexts();
  }

  lemma StringReads(t: Text, r: Text)
    ensures Quoted(t) + r == [QUOTE_MARK] + Ended(t, r)
    ensures Parse(Quoted(t) + r) == Some(Parsed(String(Merged(t)), r))
  {
    Nest([QUOTE_MARK], EscapedText(t), [QUOTE_MARK], r);
    var s := [QUOTE_MARK] + Ended(t, r);
    assert s[0] == QUOTE_MARK && s[1..] == Ended(t, r);
    ScanPrinted(t, r);
  }

  /** Reading a printed value back gives the value, strings merged, and what follows. */
  lemma {:induction false} PrintedReads(v: Value, r: Text)
    requires Printable(v) && Stops(r)
    ensures Parse(Print(v) + r) == Some(Parsed(Settled(v), r))
    decreases v, 1
  {
    match v {
      case String(chars) => StringReads(chars, r);
      case Array(items) => ArrayReads(items, r);
      case Object(fields) => ObjectReads(fields, r);
      case Integer(n) =>
        IntegerReads(n);
        ParseBare(Print(v), r);
      case Float(text) =>
        FloatReads(text);
        ParseBare(text, r);
      case _ =>
        NamesRead(v);
        ParseBare(Print(v), r);
    }
  }

  lemma QuoteIsNoSpace(s: Text)
    requires s != [] && !Space(s[0])
    ensures SkipSpace(s) == s
  {
  }

  lemma OneSpace(s: Text)
    requires s != [] && !Space(s[0])
    ensures SkipSpace([32] + s) == s
  {
    assert ([32] + s)[1..] == s;
  }

  /** A printed value does not begin with a space. */
  lemma PrintStarts(v: Value, r: Text)
    requires Printable(v)
    ensures Print(v) + r != [] && !Space((Print(v) + r)[0])
  {
    if v.Float? {
      FloatReads(v.text);
      assert !Ends(v.text[0]);
    } else if v.Null? || v.Bool? {
      NameTexts();
    }
    assert (Print(v) + r)[0] == Print(v)[0];
  }

  lemma OneObject(s: Text, inside: Text)
    requires s != [] && s[0] == OPEN && s[1..] == inside && SkipSpace(inside) == inside && inside != []
    ensures inside[0] == CLOSE ==> Parse(s) == Some(Parsed(Object([]), inside[1..]))
    ensures inside[0] != CLOSE && ParseFields(inside).Some? ==>
      Parse(s) == Some(Parsed(Object(ParseFields(inside).value.fields), ParseFields(inside).value.rest))
  {
  }

  lemma EmptyObjectReads(r: Text)
    ensures Parse(Print(Object([])) + r) == Some(Parsed(Object([]), r))
  {
    var inside := [CLOSE] + r;
    var s := [OPEN] + inside;
    assert Print(Object([])) + r == s;
    assert s[1..] == inside && inside[1..] == r;
    QuoteIsNoSpace(inside);
    OneObject(s, inside);
  }

  lemma ObjectIn(fields: seq<Field>, r: Text)
    ensures var inside := PrintFields(fields) + ([CLOSE] + r); var s := Print(Object(fields)) + r;
      s == [OPEN] + inside && s[0] == OPEN && s[1..] == inside
  {
    Nest([OPEN], PrintFields(fields), [CLOSE], r);
  }

  lemma {:induction false} ObjectReads(fields: seq<Field>, r: Text)
    requires PrintableFields(fields)
    ensures Parse(Print(Object(fields)) + r) == Some(Parsed(Object(SettledFields(fields)), r))
    decreases fields, 2
  {
    if fields == [] {
      EmptyObjectReads(r);
    } else {
      var inside := PrintFields(fields) + ([CLOSE] + r);
      ObjectIn(fields, r);
      FieldsRead(fields, r);
      QuoteIsNoSpace(inside);
      OneObject([OPEN] + inside, inside);
    }
  }

  /** The parts a list of printed fields comes apart into. */
  lemma FieldsPrinted(fields: seq<Field>, r: Text)
    requires fields != []
    ensures var value := Print(fields[0].value) + (PrintMoreFields(fields[1..]) + r);
      PrintFields(fields) + r == [QUOTE_MARK] + Ended(fields[0].name, [COLON] + ([32] + value))
  {
    var name, value, more := Quoted(fields[0].name), Print(fields[0].value), PrintMoreFields(fields[1..]);
    Nest(name, [COLON, 32], value + more, r);
    Associate(value, more, r);
    assert [COLON, 32] + (value + (more + r)) == [COLON] + ([32] + (value + (more + r)));
    StringReads(fields[0].name, [COLON] + ([32] + (value + (more + r))));
  }

  /** One field is read; then the brace closes, or a comma brings more. */
  lemma OneField(s: Text, name: Text, colon: Text, value: Text, v: Value, tail: Text)
    requires s != [] && s[0] == QUOTE_MARK && Scan(s[1..]) == Some(Scanned(name, colon))
    requires SkipSpace(colon) == colon && colon != [] && colon[0] == COLON && SkipSpace(colon[1..]) == value
    requires Parse(value) == Some(Parsed(v, tail)) && SkipSpace(tail) == tail && tail != []
    ensures tail[0] == CLOSE ==> ParseFields(s) == Some(ParsedFields([Field(name, v)], tail[1..]))
    ensures tail[0] == COMMA && ParseFields(SkipSpace(tail[1..])).Some? ==>
      var more := ParseFields(SkipSpace(tail[1..])).value;
      ParseFields(s) == Some(ParsedFields([Field(name, v)] + more.fields, more.rest))
  {
  }

  /** A list of printed fields starts with the first name, a colon and its value. */
  lemma FirstFieldScans(fields: seq<Field>, end: Text)
    requires fields != [] && PrintableFields(fields)
    ensures var value := Print(fields[0].value) + (PrintMoreFields(fields[1..]) + end);
      var colon, s := [COLON] + ([32] + value), PrintFields(fields) + end;
      && s != [] && s[0] == QUOTE_MARK && Scan(s[1..]) == Some(Scanned(Merged(fields[0].name), colon))
      && SkipSpace(colon) == colon && colon[0] == COLON && SkipSpace(colon[1..]) == value
  {
    var tail := PrintMoreFields(fields[1..]) + end;
    var value := Print(fields[0].value) + tail;
    var colon := [COLON] + ([32] + value);
    FieldsPrinted(fields, end);
    assert (PrintFields(fields) + end)[1..] == Ended(fields[0].name, colon);
    ScanPrinted(fields[0].name, colon);
    QuoteIsNoSpace(colon);
    assert colon[1..] == [32] + value;
    PrintStarts(fields[0].value, tail);
    OneSpace(value);
  }

  lemma {:induction false} FieldsRead(fields: seq<Field>, r: Text)
    requires fields != [] && PrintableFields(fields)
    ensures var s := PrintFields(fields) + ([CLOSE] + r);
      s != [] && s[0] == QUOTE_MARK && ParseFields(s) == Some(ParsedFields(SettledFields(fields), r))
    decreases fields, 1
  {
    var name, v, end := fields[0].name, fields[0].value, [CLOSE] + r;
    var tail := PrintMoreFields(fields[1..]) + end;
    FirstFieldScans(fields, end);
    MoreFieldsStart(fields[1..], end);
    PrintedReads(v, tail);
    MoreFieldsRead(fields[1..], r);
    OneField(PrintFields(fields) + end, Merged(name), [COLON] + ([32] + (Print(v) + tail)), Print(v) + tail, Settled(v),
             tail);
    SettledFirst(fields);
  }

  lemma SettledFirst(fields: seq<Field>)
    requires fields != []
    ensures var first := [Field(Merged(fields[0].name), Settled(fields[0].value))];
      SettledFields(fields) == first + SettledFields(fields[1..]) && first + [] == first
  {
  }

  lemma MoreFieldsStart(fields: seq<Field>, end: Text)
    requires end != [] && end[0] == CLOSE
    ensures var tail := PrintMoreFields(fields) + end; tail != [] && tail[0] == (if fields == [] then CLOSE else COMMA)
  {
  }

  lemma {:induction false} MoreFieldsRead(fields: seq<Field>, r: Text)
    requires PrintableFields(fields)
    ensures var tail := PrintMoreFields(fields) + ([CLOSE] + r);
      && SkipSpace(tail) == tail
      && (fields == [] ==> tail == [CLOSE] + r && tail[1..] == r)
      && (fields != [] ==> ParseFields(SkipSpace(tail[1..])) == Some(ParsedFields(SettledFields(fields), r)))
    decreases fields, 2
  {
    var end := [CLOSE] + r;
    var tail := PrintMoreFields(fields) + end;
    MoreFieldsStart(fields, end);
    QuoteIsNoSpace(tail);
    if fields == [] {
      assert tail == end;
      assert end[1..] == r;
    } else {
      FieldsRead(fields, r);
      var inside := PrintFields(fields) + end;
      Associate([COMMA, 32], PrintFields(fields), end);
      assert tail == [COMMA, 32] + inside;
      assert tail[1..] == [32] + inside;
      OneSpace(inside);
    }
  }

  lemma OneArray(s: Text, inside: Text)
    requires s != [] && s[0] == FIRST && s[1..] == inside && SkipSpace(inside) == inside && inside != []
    ensures inside[0] == LAST ==> Parse(s) == Some(Parsed(Array([]), inside[1..]))
    ensures inside[0] != LAST && ParseItems(inside).Some? ==>
      Parse(s) == Some(Parsed(Array(ParseItems(inside).value.items), ParseItems(inside).value.rest))
  {
  }

  lemma {:induction false} ArrayReads(items: seq<Value>, r: Text)
    requires PrintableItems(items)
    ensures Parse(Print(Array(items)) + r) == Some(Parsed(Array(SettledItems(items)), r))
    decreases items, 2
  {
    var inside := PrintItems(items) + ([LAST] + r);
    Nest([FIRST], PrintItems(items), [LAST], r);
    var s := [FIRST] + inside;
    assert s[0] == FIRST && s[1..] == inside;
    if items == [] {
      assert inside == [LAST] + r;
      assert inside[1..] == r;
    } else {
      ItemsRead(items, r);
    }
    QuoteIsNoSpace(inside);
    OneArray(s, inside);
  }

  /** One item is read; then the bracket closes, or a comma brings more. */
  lemma OneItem(s: Text, v: Value, tail: Text)
    requires Parse(s) == Some(Parsed(v, tail)) && SkipSpace(tail) == tail && tail != []
    ensures tail[0] == LAST ==> ParseItems(s) == Some(ParsedItems([v], tail[1..]))
    ensures tail[0] == COMMA && ParseItems(SkipSpace(tail[1..])).Some? ==>
      var more := ParseItems(SkipSpace(tail[1..])).value;
      ParseItems(s) == Some(ParsedItems([v] + more.items, more.rest))
  {
  }

  lemma {:induction false} ItemsRead(items: seq<Value>, r: Text)
    requires items != [] && PrintableItems(items)
    ensures var s := PrintItems(items) + ([LAST] + r);
      s != [] && !Space(s[0]) && s[0] != LAST && ParseItems(s) == Some(ParsedItems(SettledItems(items), r))
    decreases items, 1
  {
    var v, end := items[0], [LAST] + r;
    var tail := PrintMoreItems(items[1..]) + end;
    Associate(Print(v), PrintMoreItems(items[1..]), end);
    var s := Print(v) + tail;
    PrintStarts(v, tail);
    MoreItemsStart(items[1..], end);
    PrintedReads(v, tail);
    MoreItemsRead(items[1..], r);
    OneItem(s, Settled(v), tail);
    assert SettledItems(items) == [Settled(v)] + SettledItems(items[1..]);
    assert [Settled(v)] + [] == [Settled(v)];
  }

  lemma MoreItemsStart(items: seq<Value>, end: Text)
    requires end != [] && end[0] == LAST
    ensures var tail := PrintMoreItems(items) + end; tail != [] && tail[0] == (if items == [] then LAST else COMMA)
  {
  }

  lemma {:induction false} MoreItemsRead(items: seq<Value>, r: Text)
    requires PrintableItems(items)
    ensures var tail := PrintMoreItems(items) + ([LAST] + r);
      && SkipSpace(tail) == tail
      && (items == [] ==> tail == [LAST] + r && tail[1..] == r)
      && (items != [] ==> ParseItems(SkipSpace(tail[1..])) == Some(ParsedItems(SettledItems(items), r)))
    decreases items, 2
  {
    var end := [LAST] + r;
    var tail := PrintMoreItems(items) + end;
    MoreItemsStart(items, end);
    QuoteIsNoSpace(tail);
    if items == [] {
      assert tail == end;
      assert end[1..] == r;
    } else {
      ItemsRead(items, r);
      var inside := PrintItems(items) + end;
      Associate([COMMA, 32], PrintItems(items), end);
      assert tail == [COMMA, 32] + inside;
      assert tail[1..] == [32] + inside;
      OneSpace(inside);
    }
  }

  lemma {:induction false} ParsesDumped(v: Value)
    requires Printable(v)
    ensures ParseWhole(Print(v)) == Some(Settled(v))
  {
    PrintedReads(v, []);
    PrintStarts(v, []);
    assert Print(v) + [] == Print(v);
    QuoteIsNoSpace(Print(v));
  }

  /** Behind a value there may be space and nothing else. */
  lemma OnlySpaceMayFollow(v: Value, r: Text)
    requires Printable(v) && Stops(r)
    ensures ParseWhole(Print(v) + r) == if SkipSpace(r) == [] then Some(Settled(v)) else None
  {
    PrintedReads(v, r);
    PrintStarts(v, r);
    QuoteIsNoSpace(Print(v) + r);
  }

  /** Merging strings changes neither integers nor nesting. */
  lemma {:induction false} SettledAllowed(python: Interpreter, v: Value)
    ensures Allowed(python, Settled(v)) <==> Allowed(python, v)
    decreases v, 0
  {
    match v {
      case Array(items) =>
        if python.nesting > 0 {
          SettledItemsAllowed(python.(nesting := python.nesting - 1), items);
        }
      case Object(fields) =>
        if python.nesting > 0 {
          SettledFieldsAllowed(python.(nesting := python.nesting - 1), fields);
        }
      case _ =>
    }
  }

  lemma {:induction false} SettledItemsAllowed(python: Interpreter, items: seq<Value>)
    ensures AllowedItems(python, SettledItems(items)) <==> AllowedItems(python, items)
    decreases items, 0
  {
    if items != [] {
      SettledAllowed(python, items[0]);
      SettledItemsAllowed(python, items[1..]);
      assert SettledItems(items)[1..] == SettledItems(items[1..]);
    }
  }

  lemma {:induction false} SettledFieldsAllowed(python: Interpreter, fields: seq<Field>)
    ensures AllowedFields(python, SettledFields(fields)) <==> AllowedFields(python, fields)
    decreases fields, 0
  {
    if fields != [] {
      SettledAllowed(python, fields[0].value);
      SettledFieldsAllowed(python, fields[1..]);
      assert SettledFields(fields)[1..] == SettledFields(fields[1..]);
    }
  }

  // ------------------------------------------------------------ printed JSON is one line

  lemma PlainConcat(a: Text, b: Text)
    ensures Plain(a + b) <==> Plain(a) && Plain(b)
  {
    var s := a + b;
    assert forall i :: 0 <= i < |a| ==> s[i] == a[i];
    assert forall i :: 0 <= i < |b| ==> s[|a| + i] == b[i];
  }

  lemma QuotedIsPlain(t: Text)
    ensures Plain(Quoted(t))
  {
    PrintedIsAscii(t);
    PlainConcat(EscapedText(t), [QUOTE_MARK]);
    PlainConcat([QUOTE_MARK], EscapedText(t) + [QUOTE_MARK]);
  }

  lemma EnclosedIsPlain(open: Byte, inside: Bytes, close: Byte)
    requires 32 <= open < 127 && Plain(inside) && 32 <= close < 127
    ensures Plain([open] + (inside + [close]))
  {
    PlainConcat(inside, [close]);
    PlainConcat([open], inside + [close]);
  }

  /** Printed JSON is printable ASCII; in particular it is one line. */
  lemma {:induction false} PrintIsPlain(v: Value)
    requires Printable(v)
    ensures Plain(Print(v))
    decreases v, 1
  {
    match v {
      case String(chars) => QuotedIsPlain(chars);
      case Array(items) =>
        ItemsArePlain(items);
        EnclosedIsPlain(FIRST, PrintItems(items), LAST);
      case Object(fields) =>
        FieldsArePlain(fields);
        EnclosedIsPlain(OPEN, PrintFields(fields), CLOSE);
      case Integer(n) => IntegerReads(n);
      case Float(text) => FloatReads(text);
      case _ => NamesRead(v);
    }
  }

  lemma {:induction false} ItemsArePlain(items: seq<Value>)
    requires PrintableItems(items)
    ensures Plain(PrintItems(items)) && Plain(PrintMoreItems(items))
    decreases items, 0
  {
    if items != [] {
      PrintIsPlain(items[0]);
      ItemsArePlain(items[1..]);
      PlainConcat(Print(items[0]), PrintMoreItems(items[1..]));
      PlainConcat([COMMA, 32], PrintItems(items));
    }
  }

  lemma {:induction false} FieldsArePlain(fields: seq<Field>)
    requires PrintableFields(fields)
    ensures Plain(PrintFields(fields)) && Plain(PrintMoreFields(fields))
    decreases fields, 0
  {
    if fields != [] {
      var name, value, more := Quoted(fields[0].name), Print(fields[0].value), PrintMoreFields(fields[1..]);
      QuotedIsPlain(fields[0].name);
      PrintIsPlain(fields[0].value);
      FieldsArePlain(fields[1..]);
      PlainConcat(value, more);
      PlainConcat([COLON, 32], value + more);
      PlainConcat(name, [COLON, 32] + (value + more));
      PlainConcat([COMMA, 32], PrintFields(fields));
    }
  }

  /** `json.loads(json.dumps(v))` is `v` with its strings merged, unless an integer is
    too long or a container too deep. */
  lemma LoadsDumped(python: Interpreter, v: Value)
    requires Decodes(python) && Printable(v)
    ensures Loads(python, Print(v)) == if Allowed(python, v) then Some(Settled(v)) else None
  {
    PrintIsPlain(v);
    ParsesDumped(v);
    SettledAllowed(python, v);
  }
}
