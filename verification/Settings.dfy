/** The bridge settings an enclave sends, as the JSON frame they travel in. */
module Settings {
  import opened Options
  import opened Streams
  import opened Utf8
  import opened Json
  import opened Heartbeats

  type uint32 = x: int | 0 <= x < 0x1_0000_0000
  type duration = x: int | -0x8000_0000_0000_0000 <= x < 0x8000_0000_0000_0000

  datatype Server = Server(enclaveCid: uint32, enclaveListenPort: uint32, bridgeTcpPort: uint32)

  datatype Client = Client(enclaveDialPort: uint32, requestTimeout: duration)

  datatype BridgeSettings = BridgeSettings(
    appName: string,
    enclaveId: Uuid,
    interval: duration,
    level: string,
    servers: seq<Server>,
    clients: seq<Client>)

  /** No level is set, or one that the logger of the bridge knows. */
  predicate KnownLevel(s: BridgeSettings, levels: set<string>) {
    s.level == "" || s.level in levels
  }

  /** What a watchdog needs: the nil ID is refused, and a ticker needs a period. */
  predicate CanWatch(s: BridgeSettings) {
    s.enclaveId != NIL && s.interval as int > 0
  }

  /** What its heartbeats need: a ticker of half that period. */
  predicate CanBeat(s: BridgeSettings) {
    s.interval as int >= 2
  }

  // ------------------------------------------------------------------------------------------
  // The textual form of an ID
  // ------------------------------------------------------------------------------------------

  function Hex(bs: seq<byte>): (t: string)
    ensures |t| == 2 * |bs|
  {
    if bs == [] then "" else
      [HexDigit(bs[0] as int / 16), HexDigit(bs[0] as int % 16)] + Hex(bs[1..])
  }

  function Unhex(t: string): Option<seq<byte>> {
    if t == "" then Some([])
    else if |t| == 1 || HexValue(t[0]) < 0 || HexValue(t[1]) < 0 then None
    else match Unhex(t[2..])
         case None => None
         case Some(bs) => Some([(16 * HexValue(t[0]) + HexValue(t[1])) as byte] + bs)
  }

  lemma {:induction false} HexBack(bs: seq<byte>)
    ensures Unhex(Hex(bs)) == Some(bs)
  {
    hide HexDigit, HexValue;
    if bs != [] {
      var n := bs[0] as int;
      HexRoundTrip(n / 16);
      HexRoundTrip(n % 16);
      HexBack(bs[1..]);
      assert Hex(bs)[0] == HexDigit(n / 16) && Hex(bs)[1] == HexDigit(n % 16);
      assert Hex(bs)[2..] == Hex(bs[1..]);
      assert bs == [bs[0]] + bs[1..];
    }
  }

  /** Groups of 4, 2, 2, 2 and 6 bytes in hexadecimal, with dashes between. */
  function IdText(id: Uuid): (t: string)
    ensures |t| == 36
  {
    Hex(id[..4]) + "-" + Hex(id[4..6]) + "-" + Hex(id[6..8]) + "-" + Hex(id[8..10]) + "-" + Hex(id[10..])
  }

  function ParseId(t: string): Option<Uuid> {
    if |t| != 36 || t[8] != '-' || t[13] != '-' || t[18] != '-' || t[23] != '-' then None else
      match Unhex(t[..8] + t[9..13] + t[14..18] + t[19..23] + t[24..])
      case None => None
      case Some(bs) => if |bs| == 16 then Some(bs) else None
  }

  lemma {:induction false} HexConcat(a: seq<byte>, b: seq<byte>)
    ensures Hex(a + b) == Hex(a) + Hex(b)
  {
    hide HexDigit;
    if a == [] {
      assert a + b == b;
    } else {
      HexConcat(a[1..], b);
      assert (a + b)[1..] == a[1..] + b;
      ConcatAssoc([HexDigit(a[0] as int / 16), HexDigit(a[0] as int % 16)], Hex(a[1..]), Hex(b));
    }
  }

  lemma IdRoundTrip(id: Uuid)
    ensures ParseId(IdText(id)) == Some(id)
  {
    hide Hex, Unhex;
    var t := IdText(id);
    var a, b, c, d, e := id[..4], id[4..6], id[6..8], id[8..10], id[10..];
    assert t[..8] == Hex(a) && t[9..13] == Hex(b) && t[14..18] == Hex(c);
    assert t[19..23] == Hex(d) && t[24..] == Hex(e);
    assert t[..8] + t[9..13] + t[14..18] + t[19..23] + t[24..] == Hex(a) + Hex(b) + Hex(c) + Hex(d) + Hex(e);
    IdGroups(id);
    HexBack(id);
  }

  lemma IdGroups(id: Uuid)
    ensures Hex(id) == Hex(id[..4]) + Hex(id[4..6]) + Hex(id[6..8]) + Hex(id[8..10]) + Hex(id[10..])
  {
    HexConcat(id[..4], id[4..6]);
    HexConcat(id[..6], id[6..8]);
    HexConcat(id[..8], id[8..10]);
    HexConcat(id[..10], id[10..]);
    assert id[..4] + id[4..6] == id[..6] && id[..6] + id[6..8] == id[..8];
    assert id[..8] + id[8..10] == id[..10] && id[..10] + id[10..] == id;
  }

  // ------------------------------------------------------------------------------------------
  // The settings as a JSON value
  // ------------------------------------------------------------------------------------------

  function ServerJson(s: Server): Json {
    Obj([Field("enclaveCid", Num(s.enclaveCid)), Field("enclaveListenPort", Num(s.enclaveListenPort)),
         Field("bridgeTcpPort", Num(s.bridgeTcpPort))])
  }

  function ClientJson(c: Client): Json {
    Obj([Field("enclaveDialPort", Num(c.enclaveDialPort)), Field("requestTimeout", Num(c.requestTimeout))])
  }

  /** An empty list is a nil slice, which is written as null. */
  function ListJson<T>(xs: seq<T>, f: T -> Json): Json {
    if xs == [] then Null else Arr(Each(xs, f))
  }

  function Each<T>(xs: seq<T>, f: T -> Json): seq<Json> {
    if xs == [] then [] else [f(xs[0])] + Each(xs[1..], f)
  }

  function WatchdogJson(id: Uuid, interval: duration): Json {
    Obj([Field("enclaveId", Str(IdText(id))), Field("interval", Num(interval))])
  }

  function LoggerJson(level: string): Json {
    Obj([Field("level", Str(level))])
  }

  function ToJson(s: BridgeSettings): Json {
    Obj([Field("appName", Str(s.appName)),
         Field("watchdog", WatchdogJson(s.enclaveId, s.interval)),
         Field("logger", LoggerJson(s.level)),
         Field("servers", ListJson(s.servers, ServerJson)),
         Field("clients", ListJson(s.clients, ClientJson))])
  }

  /** The last field of that name counts; an absent one leaves its zero value. */
  function Find(j: Json, key: string): Option<Json> {
    if j.Obj? then FindIn(j.fields, key) else None
  }

  function FindIn(fields: seq<Field>, key: string): Option<Json> {
    if fields == [] then None
    else if FindIn(fields[1..], key).Some? then FindIn(fields[1..], key)
    else if fields[0].key == key then Some(fields[0].value)
    else None
  }

  function AsString(j: Option<Json>): Option<string> {
    match j
    case None => Some("")
    case Some(Str(s)) => Some(s)
    case Some(Null) => Some("")
    case _ => None
  }

  function AsUint32(j: Option<Json>): Option<uint32> {
    match j
    case None => Some(0)
    case Some(Null) => Some(0)
    case Some(Num(n)) => if 0 <= n < 0x1_0000_0000 then Some(n) else None
    case _ => None
  }

  function AsDuration(j: Option<Json>): Option<duration> {
    match j
    case None => Some(0)
    case Some(Null) => Some(0)
    case Some(Num(n)) =>
      if -0x8000_0000_0000_0000 <= n < 0x8000_0000_0000_0000 then Some(n) else None
    case _ => None
  }

  function AsId(j: Option<Json>): Option<Uuid> {
    match j
    case None => Some(NIL)
    case Some(Null) => Some(NIL)
    case Some(Str(t)) => ParseId(t)
    case _ => None
  }

  /** An absent or null object is the zero one. */
  function AsObject(j: Option<Json>): Option<Json> {
    match j
    case None => Some(Obj([]))
    case Some(Null) => Some(Obj([]))
    case Some(Obj(fields)) => Some(Obj(fields))
    case _ => None
  }

  function AsServer(j: Json): Option<Server> {
    match (AsObject(Some(j)), AsUint32(Find(j, "enclaveCid")), AsUint32(Find(j, "enclaveListenPort")),
           AsUint32(Find(j, "bridgeTcpPort")))
    case (Some(_), Some(cid), Some(port), Some(tcp)) => Some(Server(cid, port, tcp))
    case _ => None
  }

  function AsClient(j: Json): Option<Client> {
    match (AsObject(Some(j)), AsUint32(Find(j, "enclaveDialPort")), AsDuration(Find(j, "requestTimeout")))
    case (Some(_), Some(port), Some(timeout)) => Some(Client(port, timeout))
    case _ => None
  }

  function AsList<T>(j: Option<Json>, f: Json -> Option<T>): Option<seq<T>> {
    match j
    case None => Some([])
    case Some(Null) => Some([])
    case Some(Arr(elems)) => EachAs(elems, f)
    case _ => None
  }

  function EachAs<T>(elems: seq<Json>, f: Json -> Option<T>): Option<seq<T>> {
    if elems == [] then Some([]) else
      match (f(elems[0]), EachAs(elems[1..], f))
      case (Some(x), Some(xs)) => Some([x] + xs)
      case _ => None
  }

  function FromJson(j: Json): Option<BridgeSettings> {
    if AsObject(Some(j)).None? then None else
      Build(Find(j, "appName"), Find(j, "watchdog"), Find(j, "logger"), Find(j, "servers"), Find(j, "clients"))
  }

  function Build(appName: Option<Json>, watchdog: Option<Json>, logger: Option<Json>,
                 servers: Option<Json>, clients: Option<Json>): Option<BridgeSettings>
  {
    match (AsString(appName), AsWatchdog(watchdog), AsLevel(logger), AsList(servers, AsServer),
           AsList(clients, AsClient))
    case (Some(name), Some((id, interval)), Some(level), Some(ss), Some(cs)) =>
      Some(BridgeSettings(name, id, interval, level, ss, cs))
    case _ => None
  }

  function AsWatchdog(j: Option<Json>): Option<(Uuid, duration)> {
    match AsObject(j)
    case None => None
    case Some(o) =>
      match (AsId(Find(o, "enclaveId")), AsDuration(Find(o, "interval")))
      case (Some(id), Some(interval)) => Some((id, interval))
      case _ => None
  }

  function AsLevel(j: Option<Json>): Option<string> {
    match AsObject(j)
    case None => None
    case Some(o) => AsString(Find(o, "level"))
  }

  ghost predicate Distinct(fields: seq<Field>) {
    forall i, j | 0 <= i < j < |fields| :: fields[i].key != fields[j].key
  }

  lemma {:induction false} FindAt(fields: seq<Field>, i: nat)
    requires Distinct(fields) && i < |fields|
    ensures FindIn(fields, fields[i].key) == Some(fields[i].value)
  {
    if i == 0 {
      FindAbsent(fields[1..], fields[0].key);
    } else {
      FindAt(fields[1..], i - 1);
    }
  }

  lemma {:induction false} FindAbsent(fields: seq<Field>, key: string)
    requires forall i | 0 <= i < |fields| :: fields[i].key != key
    ensures FindIn(fields, key) == None
  {
    if fields != [] {
      FindAbsent(fields[1..], key);
    }
  }

  lemma ServerBack(s: Server)
    ensures AsServer(ServerJson(s)) == Some(s)
  {
    var fs := ServerJson(s).fields;
    FindAt(fs, 0);
    FindAt(fs, 1);
    FindAt(fs, 2);
  }

  lemma ClientBack(c: Client)
    ensures AsClient(ClientJson(c)) == Some(c)
  {
    var fs := ClientJson(c).fields;
    FindAt(fs, 0);
    FindAt(fs, 1);
  }

  lemma {:induction false} ListBack<T>(xs: seq<T>, f: T -> Json, g: Json -> Option<T>)
    requires forall i | 0 <= i < |xs| :: g(f(xs[i])) == Some(xs[i])
    ensures EachAs(Each(xs, f), g) == Some(xs)
  {
    if xs != [] {
      assert g(f(xs[0])) == Some(xs[0]);
      forall i | 0 <= i < |xs[1..]| ensures g(f(xs[1..][i])) == Some(xs[1..][i]) {
        assert xs[1..][i] == xs[i + 1];
      }
      ListBack(xs[1..], f, g);
      assert xs == [xs[0]] + xs[1..];
    }
  }

  lemma WatchdogBack(id: Uuid, interval: duration)
    ensures AsWatchdog(Some(WatchdogJson(id, interval))) == Some((id, interval))
  {
    var fs := WatchdogJson(id, interval).fields;
    FindAt(fs, 0);
    FindAt(fs, 1);
    IdRoundTrip(id);
  }

  lemma LevelBack(level: string)
    ensures AsLevel(Some(LoggerJson(level))) == Some(level)
  {
    FindAt(LoggerJson(level).fields, 0);
  }

  /** What each top-level field is found to hold. */
  lemma FieldsFound(s: BridgeSettings)
    ensures var j := ToJson(s);
            && Find(j, "appName") == Some(j.fields[0].value)
            && Find(j, "watchdog") == Some(j.fields[1].value)
            && Find(j, "logger") == Some(j.fields[2].value)
            && Find(j, "servers") == Some(j.fields[3].value)
            && Find(j, "clients") == Some(j.fields[4].value)
  {
    var fs := ToJson(s).fields;
    FindAt(fs, 0);
    FindAt(fs, 1);
    FindAt(fs, 2);
    FindAt(fs, 3);
    FindAt(fs, 4);
  }

  lemma ListsBack(s: BridgeSettings)
    ensures AsList(Some(ListJson(s.servers, ServerJson)), AsServer) == Some(s.servers)
    ensures AsList(Some(ListJson(s.clients, ClientJson)), AsClient) == Some(s.clients)
  {
    forall i | 0 <= i < |s.servers| ensures AsServer(ServerJson(s.servers[i])) == Some(s.servers[i]) {
      ServerBack(s.servers[i]);
    }
    forall i | 0 <= i < |s.clients| ensures AsClient(ClientJson(s.clients[i])) == Some(s.clients[i]) {
      ClientBack(s.clients[i]);
    }
    ListBack(s.servers, ServerJson, AsServer);
    ListBack(s.clients, ClientJson, AsClient);
  }

  lemma JsonBack(s: BridgeSettings)
    ensures FromJson(ToJson(s)) == Some(s)
  {
    hide FindIn, AsList, AsWatchdog, AsLevel, WatchdogJson, LoggerJson, ListJson;
    FieldsFound(s);
    WatchdogBack(s.enclaveId, s.interval);
    LevelBack(s.level);
    ListsBack(s);
  }

  // ------------------------------------------------------------------------------------------
  // The settings on the wire
  // ------------------------------------------------------------------------------------------

  function ConfigText(s: BridgeSettings): seq<byte> {
    Text(ToJson(s))
  }

  function ParseConfig(frame: seq<byte>): Option<BridgeSettings> {
    match FromFrame(frame)
    case None => None
    case Some(j) => FromJson(j)
  }

  /** For all settings: one frame, from which the bridge gets the same settings back. */
  lemma ConfigRoundTrip(s: BridgeSettings)
    ensures IsFrame(ConfigText(s) + [NL]) && ParseConfig(ConfigText(s) + [NL]) == Some(s)
  {
    FrameRoundTrip(ToJson(s));
    JsonBack(s);
  }
}
