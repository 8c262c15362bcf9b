/**
  How a JSON text ends: never in a control character other than white space. This is shown for a grammar that
  takes in every text of RFC 8259, and more; and the parser of this project accepts only texts in it.
 */
module JsonEnds {
  import opened Options
  import opened Streams
  import opened Utf8
  import opened Json

  // ------------------------------------------------------------------------------------------
  // A generous grammar
  // ------------------------------------------------------------------------------------------

  predicate Space(c: char) {
    c in {' ', '\t', '\r', '\n'}
  }

  /** What literals and numbers are made of. */
  predicate WordChar(c: char) {
    '0' <= c <= '9' || 'a' <= c <= 'z' || 'A' <= c <= 'Z' || c in {'+', '-', '.'}
  }

  /** What is left of a text after a value: a string, an array or object, a literal or a number. */
  function AnyValue(t: string): (u: Option<string>)
    ensures u.Some? ==> |u.value| < |t|
    decreases |t|, 0
  {
    if t == "" then None
    else if t[0] == '\"' then AnyChars(t[1..])
    else if t[0] == '[' then AnyItems(t[1..], ']')
    else if t[0] == '{' then AnyItems(t[1..], '}')
    else if WordChar(t[0]) then Some(AnyWord(t[1..]))
    else None
  }

  /** ... after the rest of an array or object: values, with white space and punctuation anywhere between. */
  function AnyItems(t: string, close: char): (u: Option<string>)
    ensures u.Some? ==> |u.value| < |t|
    decreases |t|, 1
  {
    if t == "" then None
    else if t[0] == close then Some(t[1..])
    else if Space(t[0]) || t[0] == ',' || t[0] == ':' then AnyItems(t[1..], close)
    else
      match AnyValue(t)
      case None => None
      case Some(u) => AnyItems(u, close)
  }

  /** ... after the rest of a string, escapes of any kind included. */
  function AnyChars(t: string): (u: Option<string>)
    ensures u.Some? ==> |u.value| < |t|
    decreases |t|
  {
    if t == "" || t[0] < ' ' then None
    else if t[0] == '\"' then Some(t[1..])
    else if t[0] != '\\' then AnyChars(t[1..])
    else if |t| < 2 then None
    else AnyChars(t[2..])
  }

  function AnyWord(t: string): (u: string)
    ensures |u| <= |t|
  {
    if t != "" && WordChar(t[0]) then AnyWord(t[1..]) else t
  }

  /** A value with white space around it. */
  predicate AnyText(t: string) {
    if t != "" && Space(t[0]) then AnyText(t[1..])
    else AnyValue(t).Some? && Blank(AnyValue(t).value)
  }

  // ------------------------------------------------------------------------------------------
  // How it ends
  // ------------------------------------------------------------------------------------------

  /** u is what is left of t after something that does not end in a control character. */
  ghost predicate Leaves(t: string, u: string) {
    |u| < |t| && u == t[|t| - |u|..] && t[|t| - |u| - 1] >= ' '
  }

  lemma LeavesFurther(t: string, k: nat, u: string)
    requires k <= |t| && Leaves(t[k..], u)
    ensures Leaves(t, u)
  {
    var w := t[k..];
    assert w[|w| - |u| - 1] == t[|t| - |u| - 1];
  }

  lemma LeavesOnward(t: string, u: string, v: string)
    requires Leaves(t, u) && Leaves(u, v)
    ensures Leaves(t, v)
  {
    LeavesFurther(t, |t| - |u|, v);
  }

  lemma {:induction false} AnyCharsEnd(t: string)
    ensures AnyChars(t).Some? ==> Leaves(t, AnyChars(t).value)
    decreases |t|
  {
    if t != "" && t[0] != '\"' && AnyChars(t).Some? {
      var k := if t[0] == '\\' then 2 else 1;
      AnyCharsEnd(t[k..]);
      LeavesFurther(t, k, AnyChars(t).value);
    }
  }

  lemma {:induction false} AnyWordEnd(t: string, k: nat)
    requires 0 < k <= |t| && t[k - 1] >= ' '
    ensures Leaves(t, AnyWord(t[k..]))
    decreases |t| - k
  {
    if k < |t| && WordChar(t[k]) {
      AnyWordEnd(t, k + 1);
      assert t[k..][1..] == t[k + 1..];
    }
  }

  lemma {:induction false} AnyValueEnds(t: string)
    ensures AnyValue(t).Some? ==> Leaves(t, AnyValue(t).value)
    decreases |t|, 0
  {
    if AnyValue(t).Some? {
      if t[0] == '\"' {
        AnyCharsEnd(t[1..]);
        LeavesFurther(t, 1, AnyValue(t).value);
      } else if t[0] == '[' {
        AnyItemsEnd(t[1..], ']');
        LeavesFurther(t, 1, AnyValue(t).value);
      } else if t[0] == '{' {
        AnyItemsEnd(t[1..], '}');
        LeavesFurther(t, 1, AnyValue(t).value);
      } else {
        AnyWordEnd(t, 1);
      }
    }
  }

  lemma {:induction false} AnyItemsEnd(t: string, close: char)
    requires close >= ' '
    ensures AnyItems(t, close).Some? ==> Leaves(t, AnyItems(t, close).value)
    decreases |t|, 1
  {
    hide AnyChars, AnyWord, AnyValue;
    if AnyItems(t, close).Some? && t[0] != close {
      if Space(t[0]) || t[0] == ',' || t[0] == ':' {
        AnyItemsEnd(t[1..], close);
        LeavesFurther(t, 1, AnyItems(t, close).value);
      } else {
        AnyValueEnds(t);
        AnyItemsEnd(AnyValue(t).value, close);
        LeavesOnward(t, AnyValue(t).value, AnyItems(t, close).value);
      }
    }
  }

  /** What an accepted text has before the newline it ends in. */
  lemma {:induction false} AnyTextEnds(t: string)
    requires AnyText(t) && t != "" && t[|t| - 1] == '\n'
    ensures |t| >= 2 && (t[|t| - 2] >= ' ' || t[|t| - 2] in {'\t', '\r', '\n'})
    decreases |t|
  {
    hide AnyValue;
    if Space(t[0]) {
      assert |t| > 1;
      AnyTextEnds(t[1..]);
      assert t[1..][|t| - 3] == t[|t| - 2];
    } else {
      AnyValueEnds(t);
      BlankEnd(t, AnyValue(t).value);
    }
  }

  lemma BlankEnd(t: string, rest: string)
    requires Leaves(t, rest) && Blank(rest) && t[|t| - 1] == '\n'
    ensures |t| >= 2 && (t[|t| - 2] >= ' ' || t[|t| - 2] in {'\t', '\r', '\n'})
  {
    if |rest| >= 2 {
      assert rest[|rest| - 2] == t[|t| - 2];
    }
  }

  // ------------------------------------------------------------------------------------------
  // The parser accepts only such texts
  // ------------------------------------------------------------------------------------------

  lemma {:induction false} CharsInGrammar(t: string)
    ensures ParseChars(t).Some? ==> AnyChars(t) == Some(ParseChars(t).value.1)
    decreases |t|
  {
    hide ParseHex4;
    if t != "" && t[0] != '\"' && ParseChars(t).Some? {
      CharsInGrammar(ParseChar(t).value.1);
      if t[0] == '\\' && t[1] == 'u' {
        HexInGrammar(t[2..]);
        assert t[2..][4..] == t[6..];
      }
    }
  }

  lemma HexInGrammar(t: string)
    requires ParseHex4(t).Some?
    ensures |t| >= 4 && AnyChars(t) == AnyChars(t[4..])
  {
    HexChar(t[0]);
    HexChar(t[1]);
    HexChar(t[2]);
    HexChar(t[3]);
    assert t[1..][1..] == t[2..] && t[2..][1..] == t[3..] && t[3..][1..] == t[4..];
    assert AnyChars(t) == AnyChars(t[1..]) && AnyChars(t[1..]) == AnyChars(t[2..]);
    assert AnyChars(t[2..]) == AnyChars(t[3..]) && AnyChars(t[3..]) == AnyChars(t[4..]);
  }

  lemma HexChar(c: char)
    ensures HexValue(c) >= 0 ==> c >= ' ' && c != '\"' && c != '\\'
  {}

  /** What may follow a word: nothing that would make it longer. */
  predicate Ends(u: string) {
    u == "" || !WordChar(u[0])
  }

  lemma {:induction false} DigitsInGrammar(t: string, acc: nat)
    ensures Ends(ParseDigits(t, acc).1) ==> AnyWord(t) == ParseDigits(t, acc).1
    decreases |t|
  {
    if t != "" && '0' <= t[0] <= '9' {
      DigitsInGrammar(t[1..], 10 * acc + (t[0] as int - 48));
    }
  }

  lemma {:induction false} ValueInGrammar(t: string)
    ensures Parse(t).Some? && Ends(Parse(t).value.1) ==> AnyValue(t) == Some(Parse(t).value.1)
    decreases |t|, 0
  {
    hide ParseChars, AnyChars, ParseDigits, ParseElems, ParseFields, AnyItems;
    if Parse(t).Some? {
      if t[0] == 'n' {
        NullInGrammar(t);
      } else if t[0] == '\"' {
        CharsInGrammar(t[1..]);
      } else if t[0] == '-' {
        DigitsInGrammar(t[1..], 0);
      } else if '0' <= t[0] <= '9' {
        DigitsInGrammar(t[1..], t[0] as int - 48);
      } else if t[0] == '[' {
        ElemsInGrammar(t[1..]);
        Closed(t[1..], ']');
      } else {
        FieldsInGrammar(t[1..]);
        Closed(t[1..], '}');
      }
    }
  }

  lemma NullInGrammar(t: string)
    requires "null" <= t
    ensures Ends(t[4..]) ==> AnyWord(t[1..]) == t[4..]
  {
    assert t[1] == 'u' && t[2] == 'l' && t[3] == 'l';
    assert t[1..][1..] == t[2..] && t[2..][1..] == t[3..] && t[3..][1..] == t[4..];
    assert AnyWord(t[1..]) == AnyWord(t[2..]) && AnyWord(t[2..]) == AnyWord(t[3..]);
    assert AnyWord(t[3..]) == AnyWord(t[4..]);
  }

  lemma Closed(t: string, close: char)
    ensures t != "" && t[0] == close ==> AnyItems(t, close) == Some(t[1..])
  {}

  /** A value that is not the end of a list goes on with a character that starts none. */
  lemma ItemsAfter(t: string, u: string, close: char)
    requires AnyValue(t) == Some(u) && t[0] != close && !Space(t[0]) && t[0] != ',' && t[0] != ':' && u != ""
    ensures u[0] == close ==> AnyItems(t, close) == Some(u[1..])
    ensures close != ',' && u[0] == ',' ==> AnyItems(t, close) == AnyItems(u[1..], close)
    ensures close != ':' && u[0] == ':' ==> AnyItems(t, close) == AnyItems(u[1..], close)
  {
    hide AnyValue;
  }

  lemma StartsValue(t: string)
    ensures AnyValue(t).Some? ==> t != "" && !Space(t[0]) && t[0] != ',' && t[0] != ':' && t[0] != ']' && t[0] != '}'
  {
    hide AnyChars, AnyWord, AnyItems;
  }

  lemma {:induction false} ElemsInGrammar(t: string)
    ensures ParseElems(t).Some? ==> AnyItems(t, ']') == Some(ParseElems(t).value.1)
    decreases |t|, 1
  {
    hide AnyValue, AnyItems, Parse;
    if ParseElems(t).Some? {
      var u := Parse(t).value.1;
      ValueInGrammar(t);
      StartsValue(t);
      ItemsAfter(t, u, ']');
      if u[0] == ',' {
        ElemsInGrammar(u[1..]);
      }
    }
  }

  lemma {:induction false} FieldsInGrammar(t: string)
    ensures ParseFields(t).Some? ==> AnyItems(t, '}') == Some(ParseFields(t).value.1)
    decreases |t|, 1
  {
    hide AnyItems, AnyChars, AnyWord, Parse, ParseChars;
    if ParseFields(t).Some? {
      var u := ParseChars(t[1..]).value.1;
      CharsInGrammar(t[1..]);
      ItemsAfter(t, u, '}');
      var w := u[1..];
      var v := Parse(w).value.1;
      ValueInGrammar(w);
      StartsValue(w);
      ItemsAfter(w, v, '}');
      if v[0] == ',' {
        FieldsInGrammar(v[1..]);
      }
    }
  }

  lemma ParsedInGrammar(t: string)
    requires Parse(t).Some? && Blank(Parse(t).value.1)
    ensures AnyText(t)
  {
    hide Parse, AnyValue;
    var u := Parse(t).value.1;
    assert Ends(u);
    ValueInGrammar(t);
    StartsValue(t);
  }

  // ------------------------------------------------------------------------------------------
  // As bytes
  // ------------------------------------------------------------------------------------------

  lemma {:induction false} DecodedBack(bs: seq<byte>)
    ensures Decode(bs).Some? ==> Encode(Decode(bs).value) == bs && (bs != [] ==> Decode(bs).value != "")
  {
    hide EncodeChar, DecodeChar, Width, CodePoint;
    if Decode(bs).Some? && bs != [] {
      var w := Width(bs[0]);
      DecodedBack(bs[w..]);
      assert bs == bs[..w] + bs[w..];
    }
  }

  /** The last byte of a text is its last character, or no ASCII character at all. */
  lemma LastByte(t: string)
    requires t != ""
    ensures Encode(t) != []
    ensures var b, c := Encode(t)[|Encode(t)| - 1] as int, t[|t| - 1] as int; if c < 0x80 then b == c else b >= 0x80
  {
    var n := |t| - 1;
    assert t == t[..n] + [t[n]];
    EncodeConcat(t[..n], [t[n]]);
    var e := EncodeChar(t[n]);
    assert Encode([t[n]]) == e;
    assert Encode(t)[|Encode(t)| - 1] == e[|e| - 1];
  }

  /** The byte before the newline of a text is its last character but one, or no ASCII character at all. */
  lemma LastTwo(t: string)
    requires |t| >= 2 && t[|t| - 1] == '\n'
    ensures var n := |Encode(t)|;
            n >= 2 && var b, c := Encode(t)[n - 2] as int, t[|t| - 2] as int; if c < 0x80 then b == c else b >= 0x80
  {
    var head := t[..|t| - 1];
    assert t == head + "\n";
    EncodeConcat(head, "\n");
    assert Encode("\n") == [NL];
    hide Encode;
    LastByte(head);
  }

  lemma EndOf(frame: seq<byte>)
    requires IsFrame(frame)
    ensures frame != [] && frame[|frame| - 1] == NL
  {}

  /**
    The byte before the delimiter of a frame that holds a JSON text is no control character but white space;
    and what the parser accepts is such a frame.
   */
  lemma JsonFrameEnds(frame: seq<byte>)
    requires IsFrame(frame) && Decode(frame).Some?
    ensures FromFrame(frame).Some? ==> AnyText(Decode(frame).value)
    ensures AnyText(Decode(frame).value) ==>
              |frame| >= 2 && (frame[|frame| - 2] >= 0x20 || frame[|frame| - 2] in {9, 10, 13})
  {
    hide Decode, IsFrame, Encode, Blank, Parse, AnyText;
    var t := Decode(frame).value;
    DecodedBack(frame);
    if FromFrame(frame).Some? {
      ParsedInGrammar(t);
    }
    EndOf(frame);
    LastByte(t);
    if AnyText(t) {
      AnyTextEnds(t);
      LastTwo(t);
    }
  }

}
