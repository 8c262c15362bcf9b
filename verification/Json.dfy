/**
  The JSON texts (RFC 8259) that the two sides exchange: what the encoder prints, with its escapes,
  and a parser for those texts.
 */
module Json {
  import opened Options
  import opened Streams
  import opened Utf8

  datatype Json =
    | Null
    | Str(s: string)
    | Num(n: int)
    | Arr(elems: seq<Json>)
    | Obj(fields: seq<Field>)

  datatype Field = Field(key: string, value: Json)

  // ------------------------------------------------------------------------------------------
  // Strings
  // ------------------------------------------------------------------------------------------

  function HexDigit(d: int): char
    requires 0 <= d < 16
  {
    if d < 10 then (48 + d) as char else (87 + d) as char
  }

  function HexValue(c: char): (d: int)
    ensures -1 <= d < 16
  {
    if '0' <= c <= '9' then c as int - 48
    else if 'a' <= c <= 'f' then c as int - 87
    else if 'A' <= c <= 'F' then c as int - 55
    else -1
  }

  function Hex4(n: int): string
    requires 0 <= n < 0x10000
  {
    [HexDigit(n / 4096), HexDigit(n / 256 % 16), HexDigit(n / 16 % 16), HexDigit(n % 16)]
  }

  /** Quotes, backslashes, control characters, the HTML characters and the two line separators. */
  function Escape(c: char): (e: string)
    ensures |e| > 0 && e[0] != '\"' && e[0] >= ' '
  {
    if c == '\"' || c == '\\' then ['\\', c]
    else if c == '\n' then "\\n"
    else if c == '\r' then "\\r"
    else if c == '\t' then "\\t"
    else if c == 8 as char then "\\b"
    else if c == 12 as char then "\\f"
    else if c < ' ' || c == '<' || c == '>' || c == '&' || c == '\U{2028}' || c == '\U{2029}' then
      "\\u" + Hex4(c as int)
    else [c]
  }

  function EscapeAll(s: string): string {
    if s == "" then "" else Escape(s[0]) + EscapeAll(s[1..])
  }

  function ParseHex4(t: string): Option<char> {
    if |t| < 4 then None else
      var a, b, c, d := HexValue(t[0]), HexValue(t[1]), HexValue(t[2]), HexValue(t[3]);
      if a < 0 || b < 0 || c < 0 || d < 0 then None else
        var n := ((a * 16 + b) * 16 + c) * 16 + d;
        if n < 0xD800 || 0xE000 <= n then Some(n as char) else None
  }

  /** One character of a string literal, plain or escaped, and what follows it. */
  function ParseChar(t: string): (r: Option<(char, string)>)
    requires |t| > 0
    ensures r.Some? ==> |r.value.1| < |t|
  {
    if t[0] < ' ' then None
    else if t[0] != '\\' then Some((t[0], t[1..]))
    else if |t| < 2 then None
    else if t[1] == '\"' || t[1] == '\\' || t[1] == '/' then Some((t[1], t[2..]))
    else if t[1] == 'n' then Some(('\n', t[2..]))
    else if t[1] == 'r' then Some(('\r', t[2..]))
    else if t[1] == 't' then Some(('\t', t[2..]))
    else if t[1] == 'b' then Some((8 as char, t[2..]))
    else if t[1] == 'f' then Some((12 as char, t[2..]))
    else if t[1] == 'u' && ParseHex4(t[2..]).Some? then Some((ParseHex4(t[2..]).value, t[6..]))
    else None
  }

  /** The rest of a string literal, its closing quote included. */
  function ParseChars(t: string): (r: Option<(string, string)>)
    ensures r.Some? ==> |r.value.1| < |t|
    decreases |t|
  {
    if t == "" then None
    else if t[0] == '\"' then Some(("", t[1..]))
    else match ParseChar(t)
         case None => None
         case Some((c, u)) =>
           match ParseChars(u)
           case None => None
           case Some((s, rest)) => Some(([c] + s, rest))
  }

  lemma HexRoundTrip(d: int)
    requires 0 <= d < 16
    ensures HexValue(HexDigit(d)) == d
  {}

  lemma Nibbles(n: int)
    requires 0 <= n < 0x10000
    ensures n == ((n / 4096 * 16 + n / 256 % 16) * 16 + n / 16 % 16) * 16 + n % 16
  {
    var a := n / 16;
    var b := a / 16;
    assert b == n / 256 && b / 16 == n / 4096;
  }

  lemma Hex4RoundTrip(c: char, u: string)
    requires c as int < 0x10000
    ensures ParseHex4(Hex4(c as int) + u) == Some(c)
  {
    var n := c as int;
    Nibbles(n);
    var a, b, c, d := n / 4096, n / 256 % 16, n / 16 % 16, n % 16;
    HexRoundTrip(a);
    HexRoundTrip(b);
    HexRoundTrip(c);
    HexRoundTrip(d);
    var t := Hex4(n) + u;
    assert t[..4] == [HexDigit(a), HexDigit(b), HexDigit(c), HexDigit(d)];
    assert t[0] == t[..4][0] && t[1] == t[..4][1] && t[2] == t[..4][2] && t[3] == t[..4][3];
  }

  lemma CharRoundTrip(c: char, u: string)
    ensures ParseChar(Escape(c) + u) == Some((c, u))
  {
    var t := Escape(c) + u;
    if |Escape(c)| == 6 {
      var h := Hex4(c as int);
      assert Escape(c) == "\\u" + h;
      assert t[2..] == h + u && t[6..] == u;
      Hex4RoundTrip(c, u);
    } else if |Escape(c)| == 2 {
      assert t[2..] == u;
    } else {
      assert t[1..] == u;
    }
  }

  lemma {:induction false} CharsRoundTrip(s: string, u: string)
    ensures ParseChars(EscapeAll(s) + ("\"" + u)) == Some((s, u))
  {
    hide Escape, ParseChar;
    if s == "" {
      assert EscapeAll(s) + ("\"" + u) == "\"" + u;
    } else {
      var rest := EscapeAll(s[1..]) + ("\"" + u);
      assert EscapeAll(s) + ("\"" + u) == Escape(s[0]) + rest;
      CharRoundTrip(s[0], rest);
      CharsRoundTrip(s[1..], u);
      assert s == [s[0]] + s[1..];
    }
  }

  // ------------------------------------------------------------------------------------------
  // Numbers
  // ------------------------------------------------------------------------------------------

  function Digits(n: nat): (s: string)
    ensures |s| > 0 && forall i | 0 <= i < |s| :: '0' <= s[i] <= '9'
  {
    if n < 10 then [(48 + n) as char] else Digits(n / 10) + [(48 + n % 10) as char]
  }

  /** Reads digits as long as there are any. */
  function ParseDigits(t: string, acc: nat): (r: (nat, string))
    ensures |r.1| <= |t|
  {
    if t != "" && '0' <= t[0] <= '9' then ParseDigits(t[1..], 10 * acc + (t[0] as int - 48)) else (acc, t)
  }

  lemma {:induction false} DigitsRoundTrip(n: nat, u: string)
    ensures ParseDigits(Digits(n) + u, 0) == ParseDigits(u, n)
    decreases n
  {
    if n < 10 {
      assert (Digits(n) + u)[1..] == u;
    } else {
      var d := [(48 + n % 10) as char];
      assert Digits(n) + u == Digits(n / 10) + (d + u);
      DigitsRoundTrip(n / 10, d + u);
      assert (d + u)[1..] == u;
    }
  }

  function PrintNum(n: int): string {
    if n < 0 then "-" + Digits(-n) else Digits(n)
  }

  // ------------------------------------------------------------------------------------------
  // Values
  // ------------------------------------------------------------------------------------------

  function PrintStr(s: string): string {
    "\"" + (EscapeAll(s) + "\"")
  }

  function Print(j: Json): (t: string)
    ensures |t| > 0
    decreases j, 0
  {
    match j
    case Null => "null"
    case Str(s) => PrintStr(s)
    case Num(n) => PrintNum(n)
    case Arr(elems) => if elems == [] then "[]" else "[" + PrintElems(elems)
    case Obj(fields) => if fields == [] then "{}" else "{" + PrintFields(fields)
  }

  /** The elements and the closing bracket. */
  function PrintElems(elems: seq<Json>): string
    requires elems != []
    decreases elems, 1
  {
    Print(elems[0]) + (if |elems| == 1 then "]" else "," + PrintElems(elems[1..]))
  }

  /** The fields and the closing brace. */
  function PrintFields(fields: seq<Field>): string
    requires fields != []
    decreases fields, 1
  {
    PrintField(fields[0], if |fields| == 1 then "}" else "," + PrintFields(fields[1..]))
  }

  /** One field of an object and what follows it. */
  function PrintField(f: Field, tail: string): string
    decreases f, 0
  {
    PrintStr(f.key) + (":" + (Print(f.value) + tail))
  }

  function Parse(t: string): (r: Option<(Json, string)>)
    ensures r.Some? ==> |r.value.1| < |t|
    decreases |t|, 0
  {
    if t == "" then None
    else if t[0] == 'n' then if "null" <= t then Some((Null, t[4..])) else None
    else if t[0] == '\"' then
      (match ParseChars(t[1..])
       case None => None
       case Some((s, u)) => Some((Str(s), u)))
    else if t[0] == '-' then
      if |t| > 1 && '0' <= t[1] <= '9' then
        var r := ParseDigits(t[1..], 0);
        Some((Num(-(r.0 as int)), r.1))
      else None
    else if '0' <= t[0] <= '9' then
      var r := ParseDigits(t[1..], t[0] as int - 48);
      Some((Num(r.0), r.1))
    else if t[0] == '[' then
      if |t| > 1 && t[1] == ']' then Some((Arr([]), t[2..])) else
        (match ParseElems(t[1..])
         case None => None
         case Some((elems, u)) => Some((Arr(elems), u)))
    else if t[0] == '{' then
      if |t| > 1 && t[1] == '}' then Some((Obj([]), t[2..])) else
        (match ParseFields(t[1..])
         case None => None
         case Some((fields, u)) => Some((Obj(fields), u)))
    else None
  }

  function ParseElems(t: string): (r: Option<(seq<Json>, string)>)
    ensures r.Some? ==> |r.value.1| < |t|
    decreases |t|, 1
  {
    match Parse(t)
    case None => None
    case Some((j, u)) =>
      if u != "" && u[0] == ']' then Some(([j], u[1..]))
      else if u != "" && u[0] == ',' then
        (match ParseElems(u[1..])
         case None => None
         case Some((rest, v)) => Some(([j] + rest, v)))
      else None
  }

  function ParseFields(t: string): (r: Option<(seq<Field>, string)>)
    ensures r.Some? ==> |r.value.1| < |t|
    decreases |t|, 1
  {
    if t == "" || t[0] != '\"' then None else
      match ParseChars(t[1..])
      case None => None
      case Some((key, u)) =>
        if u == "" || u[0] != ':' then None else
          match Parse(u[1..])
          case None => None
          case Some((j, v)) =>
            if v != "" && v[0] == '}' then Some(([Field(key, j)], v[1..]))
            else if v != "" && v[0] == ',' then
              (match ParseFields(v[1..])
               case None => None
               case Some((rest, w)) => Some(([Field(key, j)] + rest, w)))
            else None
  }

  /** What may follow a printed value: nothing that would make a number longer. */
  predicate Stops(u: string) {
    u == "" || !('0' <= u[0] <= '9')
  }

  lemma StrRoundTrip(s: string, u: string)
    ensures PrintStr(s) + u == "\"" + (EscapeAll(s) + ("\"" + u))
    ensures (PrintStr(s) + u)[0] == '\"' && ParseChars((PrintStr(s) + u)[1..]) == Some((s, u))
  {
    CharsRoundTrip(s, u);
    assert PrintStr(s) + u == "\"" + (EscapeAll(s) + ("\"" + u));
  }

  lemma NumRoundTrip(n: int, u: string)
    requires Stops(u)
    ensures Parse(Print(Num(n)) + u) == Some((Num(n), u))
  {
    if n < 0 {
      DigitsRoundTrip(-n, u);
      assert PrintNum(n) + u == "-" + (Digits(-n) + u);
      ParseNegative(Digits(-n) + u);
    } else {
      DigitsRoundTrip(n, u);
      ParseNatural(Digits(n) + u);
    }
  }

  lemma ParseNegative(t: string)
    requires t != "" && '0' <= t[0] <= '9'
    ensures Parse("-" + t) == Some((Num(-(ParseDigits(t, 0).0 as int)), ParseDigits(t, 0).1))
  {
    assert ("-" + t)[1..] == t;
  }

  lemma ParseNatural(t: string)
    requires t != "" && '0' <= t[0] <= '9'
    ensures Parse(t) == Some((Num(ParseDigits(t, 0).0), ParseDigits(t, 0).1))
  {}

  lemma NullRoundTrip(u: string)
    ensures Parse(Print(Null) + u) == Some((Null, u))
  {
    var t := "null" + u;
    assert t[4..] == u;
  }

  lemma TextRoundTrip(s: string, u: string)
    ensures Parse(Print(Str(s)) + u) == Some((Str(s), u))
  {
    StrRoundTrip(s, u);
  }

  lemma ParseArr(t: string, elems: seq<Json>, u: string)
    requires t != "" && t[0] != ']' && ParseElems(t) == Some((elems, u))
    ensures Parse("[" + t) == Some((Arr(elems), u))
  {
    hide ParseElems, ParseFields, ParseChars, ParseDigits;
    assert ("[" + t)[1..] == t;
  }

  lemma ParseObj(t: string, fields: seq<Field>, u: string)
    requires t != "" && t[0] != '}' && ParseFields(t) == Some((fields, u))
    ensures Parse("{" + t) == Some((Obj(fields), u))
  {
    hide ParseElems, ParseFields, ParseChars, ParseDigits;
    assert ("{" + t)[1..] == t;
  }

  lemma PrintArr(elems: seq<Json>)
    requires elems != []
    ensures Print(Arr(elems)) == "[" + PrintElems(elems)
  {}

  lemma PrintObj(fields: seq<Field>)
    requires fields != []
    ensures Print(Obj(fields)) == "{" + PrintFields(fields)
  {}

  lemma EmptyRoundTrip(u: string)
    ensures Parse(Print(Arr([])) + u) == Some((Arr([]), u))
    ensures Parse(Print(Obj([])) + u) == Some((Obj([]), u))
  {
    assert ("[]" + u)[2..] == u;
    assert ("{}" + u)[2..] == u;
  }

  /** Parsing undoes printing, whatever follows. */
  lemma {:induction false} RoundTrip(j: Json, u: string)
    requires Stops(u)
    ensures Parse(Print(j) + u) == Some((j, u))
    decreases j, 0
  {
    hide Parse, ParseElems, ParseFields, Print, PrintElems, PrintFields;
    match j
    case Null => NullRoundTrip(u);
    case Str(s) => TextRoundTrip(s, u);
    case Num(n) => NumRoundTrip(n, u);
    case Arr(elems) =>
      if elems == [] {
        EmptyRoundTrip(u);
      } else {
        ElemsRoundTrip(elems, u);
        ElemsStart(elems, u);
        ParseArr(PrintElems(elems) + u, elems, u);
        PrintArr(elems);
        ConcatAssoc("[", PrintElems(elems), u);
      }
    case Obj(fields) =>
      if fields == [] {
        EmptyRoundTrip(u);
      } else {
        FieldsRoundTrip(fields, u);
        FieldsStart(fields, u);
        ParseObj(PrintFields(fields) + u, fields, u);
        PrintObj(fields);
        ConcatAssoc("{", PrintFields(fields), u);
      }
  }

  lemma ElemsStart(elems: seq<Json>, u: string)
    requires elems != []
    ensures (PrintElems(elems) + u)[0] != ']'
    ensures PrintElems(elems) + u ==
              Print(elems[0]) + (if |elems| == 1 then "]" + u else "," + (PrintElems(elems[1..]) + u))
  {
    hide Print;
    PrintStart(elems[0]);
    if |elems| == 1 {
      ConcatAssoc(Print(elems[0]), "]", u);
    } else {
      ConcatAssoc(Print(elems[0]), "," + PrintElems(elems[1..]), u);
      ConcatAssoc(",", PrintElems(elems[1..]), u);
    }
  }

  lemma PrintStart(j: Json)
    ensures Print(j)[0] != ']'
  {}

  lemma {:induction false} ElemsRoundTrip(elems: seq<Json>, u: string)
    requires elems != []
    ensures ParseElems(PrintElems(elems) + u) == Some((elems, u))
    decreases elems, 1
  {
    hide Parse, Print, PrintElems, ParseFields;
    ElemsStart(elems, u);
    if |elems| == 1 {
      RoundTrip(elems[0], "]" + u);
      assert ("]" + u)[1..] == u;
      assert elems == [elems[0]];
    } else {
      var t := PrintElems(elems[1..]) + u;
      RoundTrip(elems[0], "," + t);
      assert ("," + t)[1..] == t;
      ElemsRoundTrip(elems[1..], u);
      assert elems == [elems[0]] + elems[1..];
    }
  }

  lemma FieldRoundTrip(f: Field, tail: string)
    ensures var t := PrintField(f, tail);
            && t[0] == '\"'
            && ParseChars(t[1..]) == Some((f.key, ":" + (Print(f.value) + tail)))
            && (":" + (Print(f.value) + tail))[1..] == Print(f.value) + tail
  {
    StrRoundTrip(f.key, ":" + (Print(f.value) + tail));
    assert (":" + (Print(f.value) + tail))[1..] == Print(f.value) + tail;
  }

  lemma LastField(f: Field, u: string)
    requires Parse(Print(f.value) + ("}" + u)) == Some((f.value, "}" + u))
    ensures ParseFields(PrintField(f, "}" + u)) == Some(([f], u))
  {
    FieldRoundTrip(f, "}" + u);
    assert ("}" + u)[1..] == u;
  }

  lemma NextField(f: Field, t: string, rest: seq<Field>, u: string)
    requires Parse(Print(f.value) + ("," + t)) == Some((f.value, "," + t))
    requires ParseFields(t) == Some((rest, u))
    ensures ParseFields(PrintField(f, "," + t)) == Some(([f] + rest, u))
  {
    FieldRoundTrip(f, "," + t);
    assert ("," + t)[1..] == t;
  }

  lemma PrintFieldConcat(f: Field, tail: string, u: string)
    ensures PrintField(f, tail) + u == PrintField(f, tail + u)
  {
    var v := Print(f.value);
    assert (":" + (v + tail)) + u == ":" + (v + (tail + u));
  }

  lemma FieldsStart(fields: seq<Field>, u: string)
    requires fields != []
    ensures |PrintFields(fields)| > 0 && (PrintFields(fields) + u)[0] == '\"'
    ensures PrintFields(fields) + u ==
              PrintField(fields[0], if |fields| == 1 then "}" + u else "," + (PrintFields(fields[1..]) + u))
  {
    hide Print;
    var tail := if |fields| == 1 then "}" else "," + PrintFields(fields[1..]);
    PrintFieldConcat(fields[0], tail, u);
    assert |fields| > 1 ==> tail + u == "," + (PrintFields(fields[1..]) + u);
  }

  lemma {:induction false} FieldsRoundTrip(fields: seq<Field>, u: string)
    requires fields != []
    ensures ParseFields(PrintFields(fields) + u) == Some((fields, u))
    decreases fields, 1
  {
    hide Parse, Print, PrintFields, PrintField, ParseFields, ParseElems;
    var f := fields[0];
    FieldsStart(fields, u);
    if |fields| == 1 {
      RoundTrip(f.value, "}" + u);
      LastField(f, u);
      assert fields == [f];
    } else {
      var t := PrintFields(fields[1..]) + u;
      RoundTrip(f.value, "," + t);
      FieldsRoundTrip(fields[1..], u);
      NextField(f, t, fields[1..], u);
      assert fields == [f] + fields[1..];
    }
  }

  // ------------------------------------------------------------------------------------------
  // A value on the wire
  // ------------------------------------------------------------------------------------------

  ghost predicate NoNewline(s: string) {
    forall i | 0 <= i < |s| :: s[i] != '\n'
  }

  lemma NoNewlineConcat(a: string, b: string)
    requires NoNewline(a) && NoNewline(b)
    ensures NoNewline(a + b)
  {}

  lemma HexNoNewline(n: int)
    requires 0 <= n < 0x10000
    ensures NoNewline(Hex4(n))
  {}

  lemma EscapeNoNewline(c: char)
    ensures NoNewline(Escape(c))
  {
    if |Escape(c)| == 6 {
      HexNoNewline(c as int);
      NoNewlineConcat("\\u", Hex4(c as int));
    }
  }

  lemma {:induction false} StrNoNewline(s: string)
    ensures NoNewline(EscapeAll(s)) && NoNewline(PrintStr(s))
  {
    if s != "" {
      EscapeNoNewline(s[0]);
      StrNoNewline(s[1..]);
      NoNewlineConcat(Escape(s[0]), EscapeAll(s[1..]));
    }
    NoNewlineConcat(EscapeAll(s), "\"");
    NoNewlineConcat("\"", EscapeAll(s) + "\"");
  }

  lemma {:induction false} PrintNoNewline(j: Json)
    ensures NoNewline(Print(j))
    decreases j, 0
  {
    match j
    case Null =>
    case Str(s) => StrNoNewline(s);
    case Num(n) =>
    case Arr(elems) =>
      if elems != [] {
        ElemsNoNewline(elems);
        NoNewlineConcat("[", PrintElems(elems));
      }
    case Obj(fields) =>
      if fields != [] {
        FieldsNoNewline(fields);
        NoNewlineConcat("{", PrintFields(fields));
      }
  }

  lemma {:induction false} ElemsNoNewline(elems: seq<Json>)
    requires elems != []
    ensures NoNewline(PrintElems(elems))
    decreases elems, 1
  {
    PrintNoNewline(elems[0]);
    if |elems| > 1 {
      ElemsNoNewline(elems[1..]);
      NoNewlineConcat(",", PrintElems(elems[1..]));
    }
    NoNewlineConcat(Print(elems[0]), if |elems| == 1 then "]" else "," + PrintElems(elems[1..]));
  }

  lemma {:induction false} FieldsNoNewline(fields: seq<Field>)
    requires fields != []
    ensures NoNewline(PrintFields(fields))
    decreases fields, 1
  {
    var f := fields[0];
    var tail := if |fields| == 1 then "}" else "," + PrintFields(fields[1..]);
    StrNoNewline(f.key);
    PrintNoNewline(f.value);
    if |fields| > 1 {
      FieldsNoNewline(fields[1..]);
      NoNewlineConcat(",", PrintFields(fields[1..]));
    }
    NoNewlineConcat(Print(f.value), tail);
    NoNewlineConcat(":", Print(f.value) + tail);
    NoNewlineConcat(PrintStr(f.key), ":" + (Print(f.value) + tail));
  }

  function Text(j: Json): seq<byte> {
    Encode(Print(j))
  }

  predicate Blank(t: string) {
    forall i | 0 <= i < |t| :: t[i] in {' ', '\t', '\r', '\n'}
  }

  /** The value in a frame: its delimiter is white space after the text. */
  function FromFrame(frame: seq<byte>): Option<Json> {
    match Decode(frame)
    case None => None
    case Some(t) =>
      match Parse(t)
      case None => None
      case Some((j, rest)) => if Blank(rest) then Some(j) else None
  }

  /** Every printed value is one frame once the delimiter is appended, and reads back as itself. */
  lemma FrameRoundTrip(j: Json)
    ensures Plain(Text(j)) && FromFrame(Text(j) + [NL]) == Some(j)
  {
    PrintNoNewline(j);
    PlainIff(Print(j));
    EncodeConcat(Print(j), "\n");
    assert Encode("\n") == [NL];
    Utf8.RoundTrip(Print(j) + "\n");
    RoundTrip(j, "\n");
  }
}
