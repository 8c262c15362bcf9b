/** The host environment the bridge hands to the enclave. */
module Environment {
  import opened Options
  import opened Streams
  import opened Utf8
  import opened Json

  /** The exclude pattern: none, one that does not compile, or one that matches certain keys. */
  datatype Pattern = NoPattern | Invalid | Matching(matches: string -> bool)

  predicate Excluded(p: Pattern, key: string) {
    p.Matching? && p.matches(key)
  }

  function FirstEq(s: string): (k: nat)
    ensures k <= |s| && (k < |s| ==> s[k] == '=') && forall i | 0 <= i < k :: s[i] != '='
  {
    if s == "" || s[0] == '=' then 0 else 1 + FirstEq(s[1..])
  }

  /** The key and value an entry sets, if it sets one. */
  function Setting(p: Pattern, entry: string): Option<(string, string)> {
    var k := FirstEq(entry);
    if k == |entry| || Excluded(p, entry[..k]) then None
    else Some((entry[..k], entry[k + 1..]))
  }

  /** What an entry does to the map. */
  function Put(p: Pattern, m: map<string, string>, entry: string): map<string, string> {
    match Setting(p, entry)
    case None => m
    case Some((key, value)) => m[key := value]
  }

  function EnvMap(p: Pattern, entries: seq<string>): map<string, string> {
    if entries == [] then map[] else
      Put(p, EnvMap(p, entries[..|entries| - 1]), entries[|entries| - 1])
  }

  /** The entry is this key, the first `=` in it, and this value. */
  predicate Assigns(entry: string, key: string, value: string) {
    entry == key + "=" + value && '=' !in key
  }

  /**
    Every entry with a `=` has one key and one value, split at the first; it sets that key to that value, and
    is skipped only if the pattern matches the key. Without a `=` it sets nothing.
   */
  lemma SplitIsAtFirst(p: Pattern, entry: string)
    ensures forall key, value | Assigns(entry, key, value) ::
              Setting(p, entry) == if p.Matching? && p.matches(key) then None else Some((key, value))
    ensures (exists key, value :: Assigns(entry, key, value)) <==> '=' in entry
    ensures '=' !in entry ==> Setting(p, entry) == None
  {
    forall key, value | Assigns(entry, key, value)
      ensures Setting(p, entry) == if p.Matching? && p.matches(key) then None else Some((key, value))
      ensures '=' in entry
    {
      FirstEqIs(key, value);
      assert entry[|key|] == '=';
    }
    var k := FirstEq(entry);
    if k < |entry| {
      assert Assigns(entry, entry[..k], entry[k + 1..]);
    }
  }

  lemma FirstEqIs(key: string, value: string)
    requires '=' !in key
    ensures var entry := key + "=" + value;
            FirstEq(entry) == |key| && entry[..|key|] == key && entry[|key| + 1..] == value
  {
    var entry := key + "=" + value;
    assert entry[|key|] == '=';
    assert forall i | 0 <= i < |key| :: entry[i] == key[i] && key[i] in key;
  }

  /** The entry is the last of the list that assigns to the key, and this is the value. */
  ghost predicate LastFor(entries: seq<string>, key: string, i: nat, value: string) {
    && i < |entries| && Assigns(entries[i], key, value)
    && forall j, other | i < j < |entries| :: !Assigns(entries[j], key, other)
  }

  /**
    The map holds exactly the keys that some entry assigns to and the pattern does not match, each with the
    value of the last entry for it; a value keeps any further `=`.
   */
  lemma {:induction false} LaterEntriesWin(p: Pattern, entries: seq<string>, key: string)
    ensures key in EnvMap(p, entries) <==>
              !(p.Matching? && p.matches(key)) && exists i: nat, value :: LastFor(entries, key, i, value)
    ensures forall i: nat, value | LastFor(entries, key, i, value) && key in EnvMap(p, entries) ::
              EnvMap(p, entries)[key] == value
  {
    if entries != [] {
      hide Setting, Assigns;
      var n := |entries| - 1;
      var init, last := entries[..n], entries[n];
      LaterEntriesWin(p, init, key);
      SplitIsAtFirst(p, last);
      if value :| Assigns(last, key, value) {
        assert LastFor(entries, key, n, value);
        forall i: nat, other | LastFor(entries, key, i, other) ensures i == n && other == value {
          if i == n {
            OneValue(last, key, value, other);
          }
        }
      } else {
        SetsOther(p, last, key);
        assert entries == init + [last];
        forall i: nat, value ensures LastFor(entries, key, i, value) <==> LastFor(init, key, i, value) {
          LastForInit(init, last, key, i, value);
        }
      }
    }
  }

  lemma OneValue(entry: string, key: string, value: string, other: string)
    requires Assigns(entry, key, value) && Assigns(entry, key, other)
    ensures value == other
  {
    assert value == entry[|key| + 1..] == other;
  }

  lemma SetsOther(p: Pattern, entry: string, key: string)
    requires forall value :: !Assigns(entry, key, value)
    ensures Setting(p, entry).Some? ==> Setting(p, entry).value.0 != key
  {
    hide Setting, Assigns;
    SplitIsAtFirst(p, entry);
    if '=' in entry {
      var k, value :| Assigns(entry, k, value);
    }
  }

  lemma LastForInit(init: seq<string>, last: string, key: string, i: nat, value: string)
    requires forall other :: !Assigns(last, key, other)
    ensures LastFor(init + [last], key, i, value) <==> LastFor(init, key, i, value)
  {
    hide Assigns;
    var entries := init + [last];
    assert forall j | 0 <= j < |init| :: init[j] == entries[j];
  }

  // ------------------------------------------------------------------------------------------
  // The map as a JSON text
  // ------------------------------------------------------------------------------------------

  /** The fields list the map, in whatever order. */
  ghost predicate Lists(fields: seq<Field>, m: map<string, string>) {
    && (forall i | 0 <= i < |fields| :: fields[i].key in m && fields[i].value == Str(m[fields[i].key]))
    && (forall key | key in m :: exists i :: 0 <= i < |fields| && fields[i].key == key)
  }

  /** What parsing into a map of strings makes of the fields: later ones win. */
  function MapOf(fields: seq<Field>): Option<map<string, string>> {
    if fields == [] then Some(map[]) else
      var n := |fields| - 1;
      match MapOf(fields[..n])
      case None => None
      case Some(m) =>
        if fields[n].value.Str? then Some(m[fields[n].key := fields[n].value.s])
        else if fields[n].value.Null? then Some(m[fields[n].key := ""])
        else None
  }

  function ParseEnv(frame: seq<byte>): Option<map<string, string>> {
    match FromFrame(frame)
    case None => None
    case Some(Obj(fields)) => MapOf(fields)
    case Some(Null) => Some(map[])
    case Some(_) => None
  }

  lemma {:induction false} MapOfListed(fields: seq<Field>, m: map<string, string>)
    requires forall i | 0 <= i < |fields| :: fields[i].key in m && fields[i].value == Str(m[fields[i].key])
    ensures MapOf(fields).Some?
    ensures var r := MapOf(fields).value;
            && (forall key | key in r :: key in m && r[key] == m[key])
            && (forall i | 0 <= i < |fields| :: fields[i].key in r)
  {
    if fields != [] {
      var n := |fields| - 1;
      MapOfListed(fields[..n], m);
      forall i | 0 <= i < |fields| ensures fields[i].key in MapOf(fields).value {
        if i < n {
          assert fields[..n][i] == fields[i];
        }
      }
    }
  }

  lemma ListedBack(fields: seq<Field>, m: map<string, string>)
    requires Lists(fields, m)
    ensures MapOf(fields) == Some(m)
  {
    MapOfListed(fields, m);
    var r := MapOf(fields).value;
    forall key | key in m ensures key in r {
      var i :| 0 <= i < |fields| && fields[i].key == key;
    }
    assert r == m;
  }

  /** Writes the map as an object. The encoder sorts the keys; any order will do here. */
  method Marshal(m: map<string, string>) returns (text: seq<byte>)
    ensures Plain(text) && ParseEnv(text + [NL]) == Some(m)
  {
    var fields: seq<Field> := [];
    var todo := m.Keys;
    while todo != {}
      invariant todo <= m.Keys
      invariant forall i | 0 <= i < |fields| :: fields[i].key in m && fields[i].value == Str(m[fields[i].key])
      invariant forall key | key in m :: key in todo || exists i :: 0 <= i < |fields| && fields[i].key == key
      decreases todo
    {
      var key :| key in todo;
      ghost var before := fields;
      fields := fields + [Field(key, Str(m[key]))];
      todo := todo - {key};
      forall k | k in m ensures k in todo || exists i :: 0 <= i < |fields| && fields[i].key == k {
        if k == key {
          assert fields[|before|].key == k;
        } else if k !in todo {
          var i :| 0 <= i < |before| && before[i].key == k;
          assert fields[i].key == k;
        }
      }
    }
    ListedBack(fields, m);
    FrameRoundTrip(Obj(fields));
    text := Text(Obj(fields));
  }

  /**
    The whole exchange: for every list of entries and every pattern that compiles, the text is one
    frame, and parsing that frame gives back the map of the entries.
   */
  method SerializeEnvironment(environ: seq<string>, pattern: Pattern) returns (text: Option<seq<byte>>)
    ensures text.None? <==> pattern.Invalid?
    ensures text.Some? ==> Plain(text.value) && ParseEnv(text.value + [NL]) == Some(EnvMap(pattern, environ))
  {
    if pattern.Invalid? {
      return None;
    }
    var envMap: map<string, string> := map[];
    for n := 0 to |environ|
      invariant envMap == EnvMap(pattern, environ[..n])
    {
      assert environ[..n + 1][..n] == environ[..n];
      var entry := environ[n];
      var k := FirstEq(entry);
      if k == |entry| {
        continue;
      }
      var key, value := entry[..k], entry[k + 1..];
      if Excluded(pattern, key) {
        continue;
      }
      envMap := envMap[key := value];
    }
    assert environ[..|environ|] == environ;
    var bytes := Marshal(envMap);
    return Some(bytes);
  }
}
