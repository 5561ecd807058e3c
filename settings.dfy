/**
 * The typed configuration of the ingestion service (src/settings.rs).
 *
 * A configuration source is a table of TOML-like values keyed by field name.
 * `Config` is decoded from such a table field by field; construction from a
 * file or from text received at runtime first layers the source over a fixed
 * table of defaults. The strict socket-address decoder and the peer-address
 * decoder (which maps the sentinel and the empty string to "no clustering")
 * are the two custom field decoders.
 *
 * Parsing of socket addresses, durations and TOML text, and the formatting of
 * addresses and durations, belong to libraries. They are the fields of a
 * `Codecs` value passed in by the caller, so everything proved here holds for
 * whatever those libraries accept.
 */
module Settings {
  import opened Wrappers

  // ---------------------------------------------------------------------
  // Integer widths of the Rust fields
  // ---------------------------------------------------------------------

  type I32 = x: int | -0x8000_0000 <= x < 0x8000_0000
  type U16 = x: int | 0 <= x < 0x1_0000
  type U32 = x: int | 0 <= x < 0x1_0000_0000
  type U64 = x: int | 0 <= x < 0x1_0000_0000_0000_0000

  // ---------------------------------------------------------------------
  // Defaults (src/settings.rs:11-20)
  // ---------------------------------------------------------------------

  const DefaultIngestSrvAddr: string := "[::]:38370"
  const DefaultPublishSrvAddr: string := "[::]:38371"
  const DefaultGraphqlSrvAddr: string := "[::]:8442"
  /** Reserved, never-routable peer address meaning "no clustering". */
  const DefaultInvalidAddrToPeers: string := "254.254.254.254:38383"
  const DefaultAckTransmission: U16 := 1024
  const DefaultRetention: string := "100d"
  const DefaultMaxOpenFiles: I32 := 8000
  const DefaultMaxMbOfLevelBase: U64 := 512
  const DefaultNumOfThread: I32 := 8
  const DefaultMaxSubCompactions: U32 := 2

  // Field names as they appear in a configuration source.
  const IngestSrvAddrKey: string := "ingest_srv_addr"
  const PublishSrvAddrKey: string := "publish_srv_addr"
  const DataDirKey: string := "data_dir"
  const RetentionKey: string := "retention"
  const GraphqlSrvAddrKey: string := "graphql_srv_addr"
  const LogDirKey: string := "log_dir"
  const ExportDirKey: string := "export_dir"
  const MaxOpenFilesKey: string := "max_open_files"
  const MaxMbOfLevelBaseKey: string := "max_mb_of_level_base"
  const NumOfThreadKey: string := "num_of_thread"
  const MaxSubCompactionsKey: string := "max_sub_compactions"
  const AddrToPeersKey: string := "addr_to_peers"
  const PeersKey: string := "peers"
  const AckTransmissionKey: string := "ack_transmission"
  // Fields of one entry of `peers`.
  const PeerAddrKey: string := "addr"
  const PeerHostnameKey: string := "hostname"

  /** The keys a configuration source must supply when no defaults are layered in. */
  const RequiredKeys: set<string> := {
    IngestSrvAddrKey, PublishSrvAddrKey, DataDirKey, RetentionKey,
    GraphqlSrvAddrKey, LogDirKey, ExportDirKey, MaxOpenFilesKey,
    MaxMbOfLevelBaseKey, NumOfThreadKey, MaxSubCompactionsKey, AckTransmissionKey
  }

  // ---------------------------------------------------------------------
  // Data model
  // ---------------------------------------------------------------------

  /** A value of a parsed configuration source. `Other` stands for floats and datetimes. */
  datatype Value =
    | Str(s: string)
    | Int(i: int)
    | Bool(b: bool)
    | Array(elems: seq<Value>)
    | Table(fields: map<string, Value>)
    | Other

  datatype IpAddr = V4(octets: seq<nat>) | V6(segments: seq<nat>)
  datatype SocketAddr = SocketAddr(ip: IpAddr, port: U16)
  datatype Duration = Duration(secs: nat, nanos: nat)

  /** A cluster peer: its address and host name. */
  datatype PeerIdentity = PeerIdentity(addr: SocketAddr, hostname: string)

  /** The libraries the configuration relies on, as opaque functions. */
  datatype Codecs = Codecs(
    parseAddr: string -> Option<SocketAddr>,
    parseDuration: string -> Option<Duration>,
    parseToml: string -> Option<map<string, Value>>,
    formatAddr: SocketAddr -> string,
    formatDuration: Duration -> string,
    pathComponents: string -> seq<string>)

  /**
   * The application configuration; `peers` is a set. The three directory
   * fields are paths: the configuration's equality is `SameConfig`, not the
   * equality of the raw strings.
   */
  datatype Config = Config(
    ingestSrvAddr: SocketAddr,
    publishSrvAddr: SocketAddr,
    dataDir: string,
    retention: Duration,
    graphqlSrvAddr: SocketAddr,
    logDir: string,
    exportDir: string,
    maxOpenFiles: I32,
    maxMbOfLevelBase: U64,
    numOfThread: I32,
    maxSubCompactions: U32,
    addrToPeers: Option<SocketAddr>,
    peers: Option<set<PeerIdentity>>,
    ackTransmission: U16)

  /**
   * The derived equality of two configurations. The directory fields are
   * compared as paths, component by component, so spellings such as "a/b",
   * "a/b/" and "a/./b" name the same path; every other field is compared as
   * it is.
   */
  predicate SameConfig(codecs: Codecs, a: Config, b: Config) {
    && a.(dataDir := "", logDir := "", exportDir := "") == b.(dataDir := "", logDir := "", exportDir := "")
    && codecs.pathComponents(a.dataDir) == codecs.pathComponents(b.dataDir)
    && codecs.pathComponents(a.logDir) == codecs.pathComponents(b.logDir)
    && codecs.pathComponents(a.exportDir) == codecs.pathComponents(b.exportDir)
  }

  /**
   * `SameConfig` is an equivalence that identical configurations satisfy and
   * that still tells apart every field other than the three paths.
   */
  lemma SameConfigIsEquivalence(codecs: Codecs, a: Config, b: Config, c: Config)
    ensures a == b ==> SameConfig(codecs, a, b)
    ensures SameConfig(codecs, a, b) ==> SameConfig(codecs, b, a)
    ensures SameConfig(codecs, a, b) && SameConfig(codecs, b, c) ==> SameConfig(codecs, a, c)
    ensures SameConfig(codecs, a, b) ==>
              a.ingestSrvAddr == b.ingestSrvAddr && a.publishSrvAddr == b.publishSrvAddr &&
              a.graphqlSrvAddr == b.graphqlSrvAddr && a.retention == b.retention &&
              a.maxOpenFiles == b.maxOpenFiles && a.maxMbOfLevelBase == b.maxMbOfLevelBase &&
              a.numOfThread == b.numOfThread && a.maxSubCompactions == b.maxSubCompactions &&
              a.addrToPeers == b.addrToPeers && a.peers == b.peers &&
              a.ackTransmission == b.ackTransmission
  {
    if SameConfig(codecs, a, b) {
      var a0 := a.(dataDir := "", logDir := "", exportDir := "");
      var b0 := b.(dataDir := "", logDir := "", exportDir := "");
      assert a0.ingestSrvAddr == b0.ingestSrvAddr;
    }
  }

  /** A configuration and the file it was loaded from, if any. */
  datatype Settings = Settings(config: Config, cfgPath: Option<string>)

  /** Command-line arguments; only the configuration path matters here. */
  datatype Args = Args(config: Option<string>, cert: string, key: string, caCerts: seq<string>, repair: bool)

  /** Platform data directories used for the three directory defaults. */
  datatype ProjectDirs = ProjectDirs(dbPath: string, logPath: string, exportPath: string)

  /** What `Settings::new` finds at the platform's default configuration path. */
  datatype DefaultFile =
    | Missing
    | NonUtf8Path
    | Present(path: string, source: Result<map<string, Value>, ConfigError>)

  datatype ConfigError =
    | MissingField(key: string)
    | InvalidType(key: string)
    | OutOfRange(key: string)
    | InvalidAddress(raw: string)      // rejected by deserialize_socket_addr or deserialize_peer_addr
    | InvalidSocketAddr(raw: string)   // a peer entry's address, rejected by the address parser
    | InvalidDuration(raw: string)
    | PathNotUtf8
    | TomlSyntax
    | FileError(reason: string)
  {
    /** The leading, model-visible part of the error text. */
    function Message(): string {
      match this
      case MissingField(key) => "missing field `" + key + "`"
      case InvalidType(key) => "invalid type for `" + key + "`"
      case OutOfRange(key) => "invalid value for `" + key + "`"
      case InvalidAddress(raw) => "invalid address \"" + raw + "\""
      case InvalidSocketAddr(raw) => "invalid socket address syntax: " + raw
      case InvalidDuration(raw) => "invalid duration: " + raw
      case PathNotUtf8 => "config path must be a valid UTF-8 string"
      case TomlSyntax => "TOML parse error"
      case FileError(reason) => reason
    }
  }

  /** Local mode: the process was started with a configuration file path. */
  function IsLocal(args: Args): (local: bool)
    ensures local <==> args.config.Some?
  {
    args.config.Some?
  }

  // ---------------------------------------------------------------------
  // Reference description: when does table t describe configuration c?
  // ---------------------------------------------------------------------

  ghost predicate AddrAt(codecs: Codecs, t: map<string, Value>, key: string, a: SocketAddr) {
    key in t && t[key].Str? && codecs.parseAddr(t[key].s) == Some(a)
  }

  ghost predicate StrAt(t: map<string, Value>, key: string, s: string) {
    key in t && t[key] == Str(s)
  }

  ghost predicate DurationAt(codecs: Codecs, t: map<string, Value>, key: string, d: Duration) {
    key in t && t[key].Str? && codecs.parseDuration(t[key].s) == Some(d)
  }

  ghost predicate IntAt(t: map<string, Value>, key: string, n: int) {
    key in t && t[key] == Int(n)
  }

  /** The peer endpoint: absent, the sentinel and "" mean None; anything else must parse. */
  ghost predicate PeerAddrAt(codecs: Codecs, t: map<string, Value>, a: Option<SocketAddr>) {
    if AddrToPeersKey !in t then a == None
    else
      t[AddrToPeersKey].Str? &&
      var s := t[AddrToPeersKey].s;
      if s == DefaultInvalidAddrToPeers || s == "" then a == None
      else a.Some? && codecs.parseAddr(s) == a
  }

  ghost predicate PeerAt(codecs: Codecs, v: Value, p: PeerIdentity) {
    v.Table? && AddrAt(codecs, v.fields, PeerAddrKey, p.addr) && StrAt(v.fields, PeerHostnameKey, p.hostname)
  }

  ghost predicate AllPeersDecode(codecs: Codecs, elems: seq<Value>) {
    forall v :: v in elems ==> DecodePeer(codecs, v).Success?
  }

  /** The set of peers listed in `elems`, in no order and without duplicates. */
  ghost function PeerSet(codecs: Codecs, elems: seq<Value>): set<PeerIdentity> {
    set v | v in elems && DecodePeer(codecs, v).Success? :: DecodePeer(codecs, v).value
  }

  ghost predicate PeersAt(codecs: Codecs, t: map<string, Value>, ps: Option<set<PeerIdentity>>) {
    if PeersKey !in t then ps == None
    else
      t[PeersKey].Array? && AllPeersDecode(codecs, t[PeersKey].elems) &&
      ps == Some(PeerSet(codecs, t[PeersKey].elems))
  }

  /** Table `t` describes configuration `c`, field by field. */
  ghost predicate Describes(codecs: Codecs, t: map<string, Value>, c: Config) {
    && AddrAt(codecs, t, IngestSrvAddrKey, c.ingestSrvAddr)
    && AddrAt(codecs, t, PublishSrvAddrKey, c.publishSrvAddr)
    && StrAt(t, DataDirKey, c.dataDir)
    && DurationAt(codecs, t, RetentionKey, c.retention)
    && AddrAt(codecs, t, GraphqlSrvAddrKey, c.graphqlSrvAddr)
    && StrAt(t, LogDirKey, c.logDir)
    && StrAt(t, ExportDirKey, c.exportDir)
    && IntAt(t, MaxOpenFilesKey, c.maxOpenFiles)
    && IntAt(t, MaxMbOfLevelBaseKey, c.maxMbOfLevelBase)
    && IntAt(t, NumOfThreadKey, c.numOfThread)
    && IntAt(t, MaxSubCompactionsKey, c.maxSubCompactions)
    && PeerAddrAt(codecs, t, c.addrToPeers)
    && PeersAt(codecs, t, c.peers)
    && IntAt(t, AckTransmissionKey, c.ackTransmission)
  }

  // ---------------------------------------------------------------------
  // Field decoders
  // ---------------------------------------------------------------------

  function Lookup(t: map<string, Value>, key: string): Option<Value> {
    if key in t then Some(t[key]) else None
  }

  function Required(t: map<string, Value>, key: string): (r: Result<Value, ConfigError>)
    ensures r.Success? <==> key in t
    ensures r.Success? ==> r.value == t[key]
    ensures r.Failure? ==> r.error == MissingField(key)
  {
    if key in t then Success(t[key]) else Failure(MissingField(key))
  }

  /**
   * deserialize_socket_addr: the value must be a string that parses as a
   * socket address; otherwise the error quotes the raw string. There is no
   * exemption for the sentinel or the empty string.
   */
  function DeserializeSocketAddr(codecs: Codecs, key: string, v: Value): (r: Result<SocketAddr, ConfigError>)
    ensures r.Success? <==> v.Str? && codecs.parseAddr(v.s).Some?
    ensures r.Success? ==> codecs.parseAddr(v.s) == Some(r.value)
    ensures v.Str? && codecs.parseAddr(v.s).None? ==> r == Failure(InvalidAddress(v.s))
  {
    match v
    case Str(s) =>
      (match codecs.parseAddr(s)
       case Some(a) => Success(a)
       case None => Failure(InvalidAddress(s)))
    case _ => Failure(InvalidType(key))
  }

  /**
   * deserialize_peer_addr: an absent key, the empty string and the sentinel
   * all give Ok(None); any other string must parse.
   */
  function DeserializePeerAddr(codecs: Codecs, v: Option<Value>): (r: Result<Option<SocketAddr>, ConfigError>)
    ensures v.None? ==> r == Success(None)
    ensures v == Some(Str(DefaultInvalidAddrToPeers)) || v == Some(Str("")) ==> r == Success(None)
    ensures v.Some? && v.value.Str? && v.value.s != DefaultInvalidAddrToPeers && v.value.s != "" ==>
              (r.Success? <==> codecs.parseAddr(v.value.s).Some?) &&
              (r.Success? ==> r.value == codecs.parseAddr(v.value.s)) &&
              (r.Failure? ==> r.error == InvalidAddress(v.value.s))
    ensures v.Some? && !v.value.Str? ==> r.Failure?
    ensures r.Success? && r.value.Some? ==>
              v.Some? && v.value.Str? && v.value.s != DefaultInvalidAddrToPeers && v.value.s != ""
  {
    match v
    case None => Success(None)
    case Some(Str(s)) =>
      if s == DefaultInvalidAddrToPeers || s == "" then Success(None)
      else
        (match codecs.parseAddr(s)
         case Some(a) => Success(Some(a))
         case None => Failure(InvalidAddress(s)))
    case Some(_) => Failure(InvalidType(AddrToPeersKey))
  }

  function DeserializeString(key: string, v: Value): (r: Result<string, ConfigError>)
    ensures r.Success? <==> v.Str?
    ensures r.Success? ==> v == Str(r.value)
  {
    if v.Str? then Success(v.s) else Failure(InvalidType(key))
  }

  function DeserializeDuration(codecs: Codecs, key: string, v: Value): (r: Result<Duration, ConfigError>)
    ensures r.Success? <==> v.Str? && codecs.parseDuration(v.s).Some?
    ensures r.Success? ==> codecs.parseDuration(v.s) == Some(r.value)
  {
    match v
    case Str(s) =>
      (match codecs.parseDuration(s)
       case Some(d) => Success(d)
       case None => Failure(InvalidDuration(s)))
    case _ => Failure(InvalidType(key))
  }

  /** An integer field of a Rust type whose range is lo..hi-1. */
  function DeserializeInt(key: string, v: Value, lo: int, hi: int): (r: Result<int, ConfigError>)
    ensures r.Success? <==> v.Int? && lo <= v.i < hi
    ensures r.Success? ==> v == Int(r.value)
  {
    match v
    case Int(i) => if lo <= i < hi then Success(i) else Failure(OutOfRange(key))
    case _ => Failure(InvalidType(key))
  }

  /** One entry of `peers`: a table with a parsable `addr` and a string `hostname`. */
  function DecodePeer(codecs: Codecs, v: Value): (r: Result<PeerIdentity, ConfigError>)
    ensures r.Success? ==> PeerAt(codecs, v, r.value)
    ensures forall p :: PeerAt(codecs, v, p) ==> r == Success(p)
  {
    if !v.Table? then Failure(InvalidType(PeersKey))
    else
      var a :- Required(v.fields, PeerAddrKey);
      var addr :- match a
        case Str(s) =>
          (match codecs.parseAddr(s)
           case Some(x) => Success(x)
           case None => Failure(InvalidSocketAddr(s)))
        case _ => Failure(InvalidType(PeerAddrKey));
      var h :- Required(v.fields, PeerHostnameKey);
      var hostname :- DeserializeString(PeerHostnameKey, h);
      Success(PeerIdentity(addr, hostname))
  }

  lemma PeerSetCons(codecs: Codecs, elems: seq<Value>)
    requires elems != [] && DecodePeer(codecs, elems[0]).Success?
    ensures PeerSet(codecs, elems) == {DecodePeer(codecs, elems[0]).value} + PeerSet(codecs, elems[1..])
  {
    assert forall v :: v in elems <==> v == elems[0] || v in elems[1..] by {
      assert elems == [elems[0]] + elems[1..];
    }
  }

  /** The peers array, entry by entry; the first bad entry fails the whole list. */
  function DecodePeerList(codecs: Codecs, elems: seq<Value>): (r: Result<set<PeerIdentity>, ConfigError>)
    ensures r.Success? <==> AllPeersDecode(codecs, elems)
    ensures r.Success? ==> r.value == PeerSet(codecs, elems)
  {
    if elems == [] then Success({})
    else
      var p :- DecodePeer(codecs, elems[0]);
      var rest :- DecodePeerList(codecs, elems[1..]);
      PeerSetCons(codecs, elems);
      Success({p} + rest)
  }

  function DeserializePeers(codecs: Codecs, v: Option<Value>): (r: Result<Option<set<PeerIdentity>>, ConfigError>)
    ensures v.None? ==> r == Success(None)
    ensures v.Some? ==> (r.Success? <==> v.value.Array? && AllPeersDecode(codecs, v.value.elems))
    ensures v.Some? && r.Success? ==> r.value == Some(PeerSet(codecs, v.value.elems))
  {
    match v
    case None => Success(None)
    case Some(Array(elems)) =>
      var ps :- DecodePeerList(codecs, elems);
      Success(Some(ps))
    case Some(_) => Failure(InvalidType(PeersKey))
  }

  /**
   * Deserializes a `Config` from a table, as the derived deserializer does:
   * every field without a default must be present, `addr_to_peers` and
   * `peers` may be absent, unknown keys are ignored. The result is exactly
   * the configuration the table describes, and there is one unless the table
   * describes none.
   */
  function DecodeConfig(codecs: Codecs, t: map<string, Value>): (r: Result<Config, ConfigError>)
    ensures r.Success? ==> Describes(codecs, t, r.value)
    ensures forall c :: Describes(codecs, t, c) ==> r == Success(c)
  {
    var v1 :- Required(t, IngestSrvAddrKey);
    var ingest :- DeserializeSocketAddr(codecs, IngestSrvAddrKey, v1);
    var v2 :- Required(t, PublishSrvAddrKey);
    var publish :- DeserializeSocketAddr(codecs, PublishSrvAddrKey, v2);
    var v3 :- Required(t, DataDirKey);
    var dataDir :- DeserializeString(DataDirKey, v3);
    var v4 :- Required(t, RetentionKey);
    var retention :- DeserializeDuration(codecs, RetentionKey, v4);
    var v5 :- Required(t, GraphqlSrvAddrKey);
    var graphql :- DeserializeSocketAddr(codecs, GraphqlSrvAddrKey, v5);
    var v6 :- Required(t, LogDirKey);
    var logDir :- DeserializeString(LogDirKey, v6);
    var v7 :- Required(t, ExportDirKey);
    var exportDir :- DeserializeString(ExportDirKey, v7);
    var v8 :- Required(t, MaxOpenFilesKey);
    var maxOpenFiles :- DeserializeInt(MaxOpenFilesKey, v8, -0x8000_0000, 0x8000_0000);
    var v9 :- Required(t, MaxMbOfLevelBaseKey);
    var maxMb :- DeserializeInt(MaxMbOfLevelBaseKey, v9, 0, 0x1_0000_0000_0000_0000);
    var v10 :- Required(t, NumOfThreadKey);
    var numOfThread :- DeserializeInt(NumOfThreadKey, v10, -0x8000_0000, 0x8000_0000);
    var v11 :- Required(t, MaxSubCompactionsKey);
    var maxSub :- DeserializeInt(MaxSubCompactionsKey, v11, 0, 0x1_0000_0000);
    var addrToPeers :- DeserializePeerAddr(codecs, Lookup(t, AddrToPeersKey));
    var peers :- DeserializePeers(codecs, Lookup(t, PeersKey));
    var v14 :- Required(t, AckTransmissionKey);
    var ack :- DeserializeInt(AckTransmissionKey, v14, 0, 0x1_0000);
    Success(Config(ingest, publish, dataDir, retention, graphql, logDir, exportDir,
                   maxOpenFiles, maxMb, numOfThread, maxSub, addrToPeers, peers, ack))
  }

  // ---------------------------------------------------------------------
  // Defaults and layered construction
  // ---------------------------------------------------------------------

  /** default_config_builder: every field except `peers` has a default. */
  function DefaultTable(dirs: ProjectDirs): (t: map<string, Value>)
    ensures t.Keys == RequiredKeys + {AddrToPeersKey}
    ensures PeersKey !in t
  {
    map[
      IngestSrvAddrKey := Str(DefaultIngestSrvAddr),
      PublishSrvAddrKey := Str(DefaultPublishSrvAddr),
      GraphqlSrvAddrKey := Str(DefaultGraphqlSrvAddr),
      DataDirKey := Str(dirs.dbPath),
      RetentionKey := Str(DefaultRetention),
      LogDirKey := Str(dirs.logPath),
      ExportDirKey := Str(dirs.exportPath),
      MaxOpenFilesKey := Int(DefaultMaxOpenFiles),
      MaxMbOfLevelBaseKey := Int(DefaultMaxMbOfLevelBase),
      NumOfThreadKey := Int(DefaultNumOfThread),
      MaxSubCompactionsKey := Int(DefaultMaxSubCompactions),
      AddrToPeersKey := Str(DefaultInvalidAddrToPeers),
      AckTransmissionKey := Int(DefaultAckTransmission)
    ]
  }

  /** Lookups in the default table, one per key. */
  lemma DefaultTableAt(dirs: ProjectDirs)
    ensures PeersKey !in DefaultTable(dirs)
    ensures DefaultTable(dirs)[IngestSrvAddrKey] == Str(DefaultIngestSrvAddr)
    ensures DefaultTable(dirs)[PublishSrvAddrKey] == Str(DefaultPublishSrvAddr)
    ensures DefaultTable(dirs)[GraphqlSrvAddrKey] == Str(DefaultGraphqlSrvAddr)
    ensures DefaultTable(dirs)[DataDirKey] == Str(dirs.dbPath)
    ensures DefaultTable(dirs)[RetentionKey] == Str(DefaultRetention)
    ensures DefaultTable(dirs)[LogDirKey] == Str(dirs.logPath)
    ensures DefaultTable(dirs)[ExportDirKey] == Str(dirs.exportPath)
    ensures DefaultTable(dirs)[MaxOpenFilesKey] == Int(DefaultMaxOpenFiles)
    ensures DefaultTable(dirs)[MaxMbOfLevelBaseKey] == Int(DefaultMaxMbOfLevelBase)
    ensures DefaultTable(dirs)[NumOfThreadKey] == Int(DefaultNumOfThread)
    ensures DefaultTable(dirs)[MaxSubCompactionsKey] == Int(DefaultMaxSubCompactions)
    ensures DefaultTable(dirs)[AddrToPeersKey] == Str(DefaultInvalidAddrToPeers)
    ensures DefaultTable(dirs)[AckTransmissionKey] == Int(DefaultAckTransmission)
  {
  }

  /** The source overlays the defaults key by key (the source wins). */
  function Layered(dirs: ProjectDirs, overlay: map<string, Value>): (t: map<string, Value>)
    ensures t.Keys == DefaultTable(dirs).Keys + overlay.Keys
    ensures forall k :: k in overlay ==> t[k] == overlay[k]
    ensures forall k :: k in DefaultTable(dirs) && k !in overlay ==> t[k] == DefaultTable(dirs)[k]
  {
    DefaultTable(dirs) + overlay
  }

  /** Settings::from_file: the file's table over the defaults, remembering the path. */
  function FromFile(codecs: Codecs, dirs: ProjectDirs, cfgPath: string,
                    source: Result<map<string, Value>, ConfigError>): (r: Result<Settings, ConfigError>)
    ensures source.Failure? ==> r == Failure(source.error)
    ensures source.Success? ==> (r.Success? <==> DecodeConfig(codecs, Layered(dirs, source.value)).Success?)
    ensures r.Success? ==> r.value.cfgPath == Some(cfgPath)
    ensures r.Success? ==> Describes(codecs, Layered(dirs, source.value), r.value.config)
  {
    var t :- source;
    var config :- DecodeConfig(codecs, Layered(dirs, t));
    Success(Settings(config, Some(cfgPath)))
  }

  /** Settings::from_server: TOML text received at runtime, over the defaults, with no path. */
  function FromServer(codecs: Codecs, dirs: ProjectDirs, tomlStr: string): (r: Result<Settings, ConfigError>)
    ensures codecs.parseToml(tomlStr).None? ==> r == Failure(TomlSyntax)
    ensures codecs.parseToml(tomlStr).Some? ==>
              (r.Success? <==> DecodeConfig(codecs, Layered(dirs, codecs.parseToml(tomlStr).value)).Success?)
    ensures r.Success? ==> r.value.cfgPath == None
    ensures r.Success? ==> Describes(codecs, Layered(dirs, codecs.parseToml(tomlStr).value), r.value.config)
  {
    match codecs.parseToml(tomlStr)
    case None => Failure(TomlSyntax)
    case Some(t) =>
      var config :- DecodeConfig(codecs, Layered(dirs, t));
      Success(Settings(config, None))
  }

  /** Settings::new: the default configuration file if there is one, else defaults only. */
  function New(codecs: Codecs, dirs: ProjectDirs, found: DefaultFile): (r: Result<Settings, ConfigError>)
    ensures found.NonUtf8Path? ==> r == Failure(PathNotUtf8)
    ensures found.Present? ==> r == FromFile(codecs, dirs, found.path, found.source)
    ensures found.Missing? ==> (r.Success? <==> DecodeConfig(codecs, DefaultTable(dirs)).Success?)
    ensures found.Missing? && r.Success? ==>
              r.value.cfgPath == None && Describes(codecs, DefaultTable(dirs), r.value.config)
  {
    match found
    case Missing =>
      var config :- DecodeConfig(codecs, DefaultTable(dirs));
      Success(Settings(config, None))
    case NonUtf8Path => Failure(PathNotUtf8)
    case Present(path, source) => FromFile(codecs, dirs, path, source)
  }

  // ---------------------------------------------------------------------
  // Properties
  // ---------------------------------------------------------------------

  ghost predicate DefaultsParse(codecs: Codecs) {
    && codecs.parseAddr(DefaultIngestSrvAddr).Some?
    && codecs.parseAddr(DefaultPublishSrvAddr).Some?
    && codecs.parseAddr(DefaultGraphqlSrvAddr).Some?
    && codecs.parseDuration(DefaultRetention).Some?
  }

  /** The configuration the defaults describe, when the default strings parse. */
  ghost function DefaultConfig(codecs: Codecs, dirs: ProjectDirs): Config
    requires DefaultsParse(codecs)
  {
    Config(
      codecs.parseAddr(DefaultIngestSrvAddr).value,
      codecs.parseAddr(DefaultPublishSrvAddr).value,
      dirs.dbPath,
      codecs.parseDuration(DefaultRetention).value,
      codecs.parseAddr(DefaultGraphqlSrvAddr).value,
      dirs.logPath,
      dirs.exportPath,
      8000, 512, 8, 2,
      None, None,
      1024)
  }

  /**
   * With no configuration file, construction succeeds exactly when the
   * default address and duration strings parse, and then yields the default
   * values: no peer endpoint (its default is the sentinel) and no peers (no
   * default at all).
   */
  lemma DefaultsOnly(codecs: Codecs, dirs: ProjectDirs)
    ensures New(codecs, dirs, Missing).Success? <==> DefaultsParse(codecs)
    ensures DefaultsParse(codecs) ==> New(codecs, dirs, Missing) == Success(Settings(DefaultConfig(codecs, dirs), None))
  {
    var t := DefaultTable(dirs);
    DefaultTableAt(dirs);
    if DefaultsParse(codecs) {
      var c := DefaultConfig(codecs, dirs);
      assert PeerAddrAt(codecs, t, c.addrToPeers);
      assert PeersAt(codecs, t, c.peers);
      assert Describes(codecs, t, c);
    } else if DecodeConfig(codecs, t).Success? {
      assert false;
    }
  }

  /**
   * In layered construction each field comes from the source when the
   * source has the key and from the defaults otherwise. A present optional
   * field is read from the source as the strict decoder reads it; an absent
   * one is None (the peer address defaults to the sentinel, `peers` has no
   * default).
   */
  lemma OverlayKeyByKey(codecs: Codecs, dirs: ProjectDirs, overlay: map<string, Value>, c: Config)
    requires DecodeConfig(codecs, Layered(dirs, overlay)) == Success(c)
    ensures IngestSrvAddrKey in overlay ==> AddrAt(codecs, overlay, IngestSrvAddrKey, c.ingestSrvAddr)
    ensures IngestSrvAddrKey !in overlay ==> codecs.parseAddr(DefaultIngestSrvAddr) == Some(c.ingestSrvAddr)
    ensures PublishSrvAddrKey in overlay ==> AddrAt(codecs, overlay, PublishSrvAddrKey, c.publishSrvAddr)
    ensures PublishSrvAddrKey !in overlay ==> codecs.parseAddr(DefaultPublishSrvAddr) == Some(c.publishSrvAddr)
    ensures DataDirKey in overlay ==> overlay[DataDirKey] == Str(c.dataDir)
    ensures DataDirKey !in overlay ==> c.dataDir == dirs.dbPath
    ensures RetentionKey in overlay ==> DurationAt(codecs, overlay, RetentionKey, c.retention)
    ensures RetentionKey !in overlay ==> codecs.parseDuration(DefaultRetention) == Some(c.retention)
    ensures GraphqlSrvAddrKey in overlay ==> AddrAt(codecs, overlay, GraphqlSrvAddrKey, c.graphqlSrvAddr)
    ensures GraphqlSrvAddrKey !in overlay ==> codecs.parseAddr(DefaultGraphqlSrvAddr) == Some(c.graphqlSrvAddr)
    ensures LogDirKey in overlay ==> overlay[LogDirKey] == Str(c.logDir)
    ensures LogDirKey !in overlay ==> c.logDir == dirs.logPath
    ensures ExportDirKey in overlay ==> overlay[ExportDirKey] == Str(c.exportDir)
    ensures ExportDirKey !in overlay ==> c.exportDir == dirs.exportPath
    ensures MaxOpenFilesKey in overlay ==> overlay[MaxOpenFilesKey] == Int(c.maxOpenFiles)
    ensures MaxOpenFilesKey !in overlay ==> c.maxOpenFiles == DefaultMaxOpenFiles
    ensures MaxMbOfLevelBaseKey in overlay ==> overlay[MaxMbOfLevelBaseKey] == Int(c.maxMbOfLevelBase)
    ensures MaxMbOfLevelBaseKey !in overlay ==> c.maxMbOfLevelBase == DefaultMaxMbOfLevelBase
    ensures NumOfThreadKey in overlay ==> overlay[NumOfThreadKey] == Int(c.numOfThread)
    ensures NumOfThreadKey !in overlay ==> c.numOfThread == DefaultNumOfThread
    ensures MaxSubCompactionsKey in overlay ==> overlay[MaxSubCompactionsKey] == Int(c.maxSubCompactions)
    ensures MaxSubCompactionsKey !in overlay ==> c.maxSubCompactions == DefaultMaxSubCompactions
    ensures AddrToPeersKey in overlay ==> PeerAddrAt(codecs, overlay, c.addrToPeers)
    ensures AddrToPeersKey !in overlay ==> c.addrToPeers == None
    ensures PeersKey in overlay ==> PeersAt(codecs, overlay, c.peers)
    ensures PeersKey !in overlay ==> c.peers == None
    ensures AckTransmissionKey in overlay ==> overlay[AckTransmissionKey] == Int(c.ackTransmission)
    ensures AckTransmissionKey !in overlay ==> c.ackTransmission == DefaultAckTransmission
  {
    var t := Layered(dirs, overlay);
    DefaultTableAt(dirs);
    assert Describes(codecs, t, c);
    if AddrToPeersKey in overlay {
      assert t[AddrToPeersKey] == overlay[AddrToPeersKey];
    }
    if PeersKey in overlay {
      assert t[PeersKey] == overlay[PeersKey];
    }
  }

  /**
   * A table that decodes on its own decodes to the same configuration once
   * layered over the defaults: it already supplies every key without an
   * optional meaning, a missing `addr_to_peers` means None either way (the
   * default is the sentinel), and `peers` has no default.
   */
  lemma StrictDecodeSurvivesDefaults(codecs: Codecs, dirs: ProjectDirs, t: map<string, Value>, c: Config)
    requires DecodeConfig(codecs, t) == Success(c)
    ensures DecodeConfig(codecs, Layered(dirs, t)) == Success(c)
  {
    var m := Layered(dirs, t);
    assert Describes(codecs, t, c);
    assert PeersKey !in DefaultTable(dirs);
    if AddrToPeersKey !in t {
      assert m[AddrToPeersKey] == Str(DefaultInvalidAddrToPeers);
    }
    assert PeerAddrAt(codecs, m, c.addrToPeers);
    assert PeersAt(codecs, m, c.peers);
    assert Describes(codecs, m, c);
  }

  /** Without defaults, every field other than `addr_to_peers` and `peers` is required. */
  lemma StrictDecodeNeedsRequiredKeys(codecs: Codecs, t: map<string, Value>)
    ensures DecodeConfig(codecs, t).Success? ==> RequiredKeys <= t.Keys
  {
  }

  /**
   * `peers` is a set: two arrays listing the same entries, in any order and
   * with any repetition, decode alike.
   */
  lemma PeerOrderIrrelevant(codecs: Codecs, xs: seq<Value>, ys: seq<Value>)
    requires forall v :: v in xs <==> v in ys
    ensures DecodePeerList(codecs, xs).Success? <==> DecodePeerList(codecs, ys).Success?
    ensures DecodePeerList(codecs, xs).Success? ==> DecodePeerList(codecs, xs) == DecodePeerList(codecs, ys)
  {
    assert AllPeersDecode(codecs, xs) <==> AllPeersDecode(codecs, ys);
    assert PeerSet(codecs, xs) == PeerSet(codecs, ys);
  }
}
