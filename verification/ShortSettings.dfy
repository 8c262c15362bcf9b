/** A frame too short to hold an ID can only hold settings without one. */
module ShortSettings {
  import opened Options
  import opened Streams
  import opened Heartbeats
  import opened Utf8
  import opened Json
  import opened Settings

  /** The length of the longest string in a value, not counting those in lists. */
  function Longest(j: Json): nat
    decreases j, 0
  {
    match j
    case Str(s) => |s|
    case Obj(fields) => LongestOf(fields)
    case _ => 0
  }

  function LongestOf(fields: seq<Field>): nat
    decreases fields, 1
  {
    if fields == [] then 0 else
      var a, b := Longest(fields[0].value), LongestOf(fields[1..]);
      if a > b then a else b
  }

  lemma {:induction false} CharsFit(t: string)
    ensures ParseChars(t).Some? ==> |ParseChars(t).value.0| + |ParseChars(t).value.1| < |t|
    decreases |t|
  {
    hide ParseHex4;
    if t != "" && t[0] != '\"' && ParseChar(t).Some? {
      CharsFit(ParseChar(t).value.1);
    }
  }

  lemma {:induction false} ValueFits(t: string)
    ensures Parse(t).Some? ==> Longest(Parse(t).value.0) + |Parse(t).value.1| <= |t|
    decreases |t|, 0
  {
    hide ParseChars, ParseDigits, ParseElems, ParseFields, LongestOf;
    if t != "" && t[0] == '\"' {
      CharsFit(t[1..]);
    } else if t != "" && t[0] == '{' {
      FieldsFit(t[1..]);
      NoFields();
    }
  }

  lemma NoFields()
    ensures LongestOf([]) == 0
  {}

  lemma {:induction false} FieldsFit(t: string)
    ensures ParseFields(t).Some? ==> LongestOf(ParseFields(t).value.0) + |ParseFields(t).value.1| <= |t|
    decreases |t|, 1
  {
    hide ParseChars, Parse, Longest;
    if ParseFields(t).Some? {
      var u := ParseChars(t[1..]).value.1;
      ValueFits(u[1..]);
      var v := Parse(u[1..]).value.1;
      FieldsFit(v[1..]);
      FirstLongest(Field(ParseChars(t[1..]).value.0, Parse(u[1..]).value.0), v);
    }
  }

  lemma FirstLongest(f: Field, v: string)
    ensures LongestOf([f]) == Longest(f.value)
    ensures v != "" && ParseFields(v[1..]).Some? ==>
              var rest := ParseFields(v[1..]).value.0;
              var a, b := Longest(f.value), LongestOf(rest);
              LongestOf([f] + rest) == if a > b then a else b
  {
    hide Longest, ParseFields;
    if v != "" && ParseFields(v[1..]).Some? {
      var rest := ParseFields(v[1..]).value.0;
      assert ([f] + rest)[0] == f && ([f] + rest)[1..] == rest;
    }
  }

  lemma {:induction false} FoundFits(fields: seq<Field>, key: string)
    ensures FindIn(fields, key).Some? ==> Longest(FindIn(fields, key).value) <= LongestOf(fields)
  {
    hide Longest;
    if fields != [] {
      FoundFits(fields[1..], key);
    }
  }

  lemma {:induction false} DecodedFits(bs: seq<byte>)
    ensures Decode(bs).Some? ==> |Decode(bs).value| <= |bs|
  {
    hide DecodeChar;
    if bs != [] && Decode(bs).Some? {
      DecodedFits(bs[Width(bs[0])..]);
    }
  }

  /** An ID in settings is a string of 36 characters two objects deep. */
  lemma LongIds(j: Json)
    requires FromJson(j).Some? && Longest(j) < 36
    ensures FromJson(j).value.enclaveId == NIL
  {
    hide Longest, LongestOf, AsString, AsLevel, ParseId, FindIn;
    WatchdogFits(Find(j, "watchdog"), Longest(j));
    match j
    case Obj(fields) => FoundFits(fields, "watchdog"); ObjectLongest(fields);
    case _ =>
  }

  lemma ObjectLongest(fields: seq<Field>)
    ensures Longest(Obj(fields)) == LongestOf(fields)
  {}

  lemma WatchdogFits(w: Option<Json>, n: nat)
    ensures n < 36 && (w.Some? ==> Longest(w.value) <= n) && AsWatchdog(w).Some? ==> AsWatchdog(w).value.0 == NIL
  {
    hide LongestOf, Unhex;
    match w {
      case Some(Obj(fields)) => FoundFits(fields, "enclaveId");
      case _ =>
    }
  }

  lemma ShortFrameHasNoId(frame: seq<byte>)
    requires ParseConfig(frame).Some? && |frame| < 36
    ensures ParseConfig(frame).value.enclaveId == NIL
  {
    hide Decode, Parse, Longest, FromJson;
    var t := Decode(frame).value;
    DecodedFits(frame);
    ValueFits(t);
    LongIds(Parse(t).value.0);
  }
}
