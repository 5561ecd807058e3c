/**
 * The administrative control plane (src/graphql/status.rs): the gated
 * `config` query and its field projections, the `set_config` reconfiguration
 * protocol, the three lifecycle signals, and the structure-preserving editor
 * of the persisted configuration document.
 *
 * Values the source pulls out of the request context (the local-mode flag,
 * the live settings, the reload channel and the notification handles) are
 * explicit parameters here.
 */
module Status {
  import opened Wrappers
  import opened Settings

  datatype ApiError =
    | ConfigIsLocal
    | DraftRejected(cause: ConfigError)
    | NoChanges
  {
    function Message(): string {
      match this
      case ConfigIsLocal => "Config is local"
      case DraftRejected(cause) => cause.Message()
      case NoChanges => "No changes"
    }
  }

  // ---------------------------------------------------------------------
  // Field projections of the `config` query (status.rs:46-114)
  // ---------------------------------------------------------------------

  function DigitChar(d: nat): char
    requires d < 10
  {
    ('0' as int + d) as char
  }

  /** The decimal text of a number, as a string-encoded integer is rendered. */
  function DecimalString(n: nat): string
    decreases n
  {
    if n < 10 then [DigitChar(n)] else DecimalString(n / 10) + [DigitChar(n % 10)]
  }

  function DigitValue(c: char): Option<nat> {
    if '0' <= c <= '9' then Some(c as int - '0' as int) else None
  }

  /** Reads a non-empty string of decimal digits back as a number. */
  function ParseDecimal(s: string): Option<nat>
    decreases |s|
  {
    if s == [] then None
    else
      match DigitValue(s[|s| - 1])
      case None => None
      case Some(d) =>
        if |s| == 1 then Some(d)
        else
          match ParseDecimal(s[..|s| - 1])
          case None => None
          case Some(m) => Some(m * 10 + d)
  }

  /** Reading back the decimal text of a number gives the number. */
  lemma {:induction false} DecimalRoundTrip(n: nat)
    ensures ParseDecimal(DecimalString(n)) == Some(n)
  {
    var s := DecimalString(n);
    if n >= 10 {
      DecimalRoundTrip(n / 10);
      assert s[..|s| - 1] == DecimalString(n / 10);
    }
  }

  /**
   * The decimal text of a number has no leading zero: it is "0" itself or
   * starts with a non-zero digit.
   */
  lemma {:induction false} DecimalNoLeadingZero(n: nat)
    ensures |DecimalString(n)| >= 1
    ensures n > 0 ==> DecimalString(n)[0] != '0'
  {
    if n >= 10 {
      DecimalNoLeadingZero(n / 10);
      assert DecimalString(n)[0] == DecimalString(n / 10)[0];
    }
  }

  /** What one peer of the `peers` field shows: its formatted address and host name. */
  datatype PeerView = PeerView(addr: string, hostname: string)

  /** The `config` query's fields, as the API renders them. */
  datatype ConfigView = ConfigView(
    ingestSrvAddr: string,
    publishSrvAddr: string,
    graphqlSrvAddr: string,
    retention: string,
    dataDir: string,
    logDir: string,
    exportDir: string,
    maxOpenFiles: I32,
    maxMbOfLevelBase: string,
    numOfThread: I32,
    maxSubCompactions: string,
    addrToPeers: Option<string>,
    peers: Option<set<PeerView>>,
    ackTransmission: U16)

  function ProjectPeer(codecs: Codecs, p: PeerIdentity): PeerView {
    PeerView(codecs.formatAddr(p.addr), p.hostname)
  }

  /**
   * Renders a configuration for the API: addresses and the retention through
   * the formatting libraries, the two wide unsigned tunables as decimal
   * strings that read back to the stored numbers, the other integers as they
   * are, and one view per configured peer.
   */
  function Project(codecs: Codecs, c: Config): (v: ConfigView)
    ensures v.maxOpenFiles == c.maxOpenFiles && v.numOfThread == c.numOfThread
    ensures v.ackTransmission == c.ackTransmission
    ensures ParseDecimal(v.maxMbOfLevelBase) == Some(c.maxMbOfLevelBase as nat)
    ensures ParseDecimal(v.maxSubCompactions) == Some(c.maxSubCompactions as nat)
    ensures |v.maxMbOfLevelBase| == 1 || v.maxMbOfLevelBase[0] != '0'
    ensures |v.maxSubCompactions| == 1 || v.maxSubCompactions[0] != '0'
    ensures v.dataDir == c.dataDir && v.logDir == c.logDir && v.exportDir == c.exportDir
    ensures v.ingestSrvAddr == codecs.formatAddr(c.ingestSrvAddr)
    ensures v.publishSrvAddr == codecs.formatAddr(c.publishSrvAddr)
    ensures v.graphqlSrvAddr == codecs.formatAddr(c.graphqlSrvAddr)
    ensures v.retention == codecs.formatDuration(c.retention)
    ensures v.addrToPeers.Some? <==> c.addrToPeers.Some?
    ensures c.addrToPeers.Some? ==> v.addrToPeers == Some(codecs.formatAddr(c.addrToPeers.value))
    ensures v.peers.Some? <==> c.peers.Some?
    ensures c.peers.Some? ==> forall p :: p in c.peers.value ==> ProjectPeer(codecs, p) in v.peers.value
    ensures c.peers.Some? ==> forall w :: w in v.peers.value ==> exists p :: p in c.peers.value && w == ProjectPeer(codecs, p)
  {
    DecimalRoundTrip(c.maxMbOfLevelBase);
    DecimalRoundTrip(c.maxSubCompactions);
    DecimalNoLeadingZero(c.maxMbOfLevelBase);
    DecimalNoLeadingZero(c.maxSubCompactions);
    ConfigView(
      codecs.formatAddr(c.ingestSrvAddr),
      codecs.formatAddr(c.publishSrvAddr),
      codecs.formatAddr(c.graphqlSrvAddr),
      codecs.formatDuration(c.retention),
      c.dataDir, c.logDir, c.exportDir,
      c.maxOpenFiles,
      DecimalString(c.maxMbOfLevelBase),
      c.numOfThread,
      DecimalString(c.maxSubCompactions),
      match c.addrToPeers
      case None => None
      case Some(a) => Some(codecs.formatAddr(a)),
      match c.peers
      case None => None
      case Some(ps) => Some(set p | p in ps :: ProjectPeer(codecs, p)),
      c.ackTransmission)
  }

  // ---------------------------------------------------------------------
  // The gated `config` query (status.rs:157-168)
  // ---------------------------------------------------------------------

  /** In local mode the query fails; otherwise it returns the live configuration unchanged. */
  function QueryConfig(isLocal: bool, live: Settings): (r: Result<Config, ApiError>)
    ensures r.Failure? <==> isLocal
    ensures r.Failure? ==> r.error == ConfigIsLocal && r.error.Message() == "Config is local"
    ensures r.Success? ==> r.value == live.config
  {
    if isLocal then Failure(ConfigIsLocal) else Success(live.config)
  }

  // ---------------------------------------------------------------------
  // Reconfiguration (status.rs:176-213)
  // ---------------------------------------------------------------------

  /**
   * The draft as `set_config` reads it: TOML text deserialized straight into
   * a `Config`, with no defaults layered in. A successful draft therefore
   * names every field except `addr_to_peers` and `peers`.
   */
  function ParseDraft(codecs: Codecs, draft: string): (r: Result<Config, ConfigError>)
    ensures codecs.parseToml(draft).None? ==> r == Failure(TomlSyntax)
    ensures r.Success? ==> codecs.parseToml(draft).Some?
    ensures r.Success? ==> RequiredKeys <= codecs.parseToml(draft).value.Keys
    ensures r.Success? ==> Describes(codecs, codecs.parseToml(draft).value, r.value)
    ensures codecs.parseToml(draft).Some? ==>
              forall c :: Describes(codecs, codecs.parseToml(draft).value, c) ==> r == Success(c)
  {
    match codecs.parseToml(draft)
    case None => Failure(TomlSyntax)
    case Some(t) =>
      StrictDecodeNeedsRequiredKeys(codecs, t);
      DecodeConfig(codecs, t)
  }

  /**
   * The one difference between a draft and runtime text: text that parses to
   * an empty table is a valid configuration for `Settings::from_server` when
   * the defaults parse, yet `set_config` rejects it as a draft.
   */
  lemma EmptyDraftNeedsFields(codecs: Codecs, dirs: ProjectDirs, text: string)
    requires codecs.parseToml(text) == Some(map[])
    requires DefaultsParse(codecs)
    ensures ParseDraft(codecs, text).Failure?
    ensures FromServer(codecs, dirs, text) == Success(Settings(DefaultConfig(codecs, dirs), None))
  {
    DefaultsOnly(codecs, dirs);
    assert Layered(dirs, map[]) == DefaultTable(dirs);
  }

  /** Resolves `set_config` reconfiguration requests; it owns the delivery queue. */
  class Coordinator {
    /** Drafts scheduled for delivery to the reload consumer, oldest first. */
    var outbox: seq<string>

    constructor()
      ensures outbox == []
    {
      outbox := [];
    }

    /**
     * set_config: local mode declines with false before looking at the draft;
     * an unreadable draft and a draft the same as the live configuration
     * (`SameConfig`, paths compared component by component) are
     * errors; any other draft is accepted and its raw text is scheduled for
     * delivery exactly once. The live settings are a value and stay as they are.
     */
    method SetConfig(codecs: Codecs, isLocal: bool, live: Settings, draft: string)
      returns (r: Result<bool, ApiError>)
      modifies this
      ensures isLocal ==> r == Success(false)
      ensures !isLocal && ParseDraft(codecs, draft).Failure? ==>
                r == Failure(DraftRejected(ParseDraft(codecs, draft).error))
      ensures !isLocal && ParseDraft(codecs, draft).Success? && SameConfig(codecs, live.config, ParseDraft(codecs, draft).value) ==>
                r == Failure(NoChanges) && r.error.Message() == "No changes"
      ensures !isLocal && ParseDraft(codecs, draft).Success? && !SameConfig(codecs, live.config, ParseDraft(codecs, draft).value) ==>
                r == Success(true)
      ensures outbox == if r == Success(true) then old(outbox) + [draft] else old(outbox)
    {
      if isLocal {
        return Success(false);
      }
      var parsed := ParseDraft(codecs, draft);
      if parsed.Failure? {
        return Failure(DraftRejected(parsed.error));
      }
      if SameConfig(codecs, live.config, parsed.value) {
        return Failure(NoChanges);
      }
      outbox := outbox + [draft];
      r := Success(true);
    }
  }

  /**
   * After an accepted draft has been applied by the reload consumer (which
   * builds the new settings from the same text), submitting that draft again
   * is rejected with "No changes" and schedules nothing.
   */
  method ReapplyIsNoChange(codecs: Codecs, dirs: ProjectDirs, live: Settings, draft: string)
    returns (first: Result<bool, ApiError>, second: Result<bool, ApiError>, deliveries: seq<string>)
    requires ParseDraft(codecs, draft).Success?
    ensures first == Success(true) <==> !SameConfig(codecs, live.config, ParseDraft(codecs, draft).value)
    ensures second == Failure(NoChanges)
    ensures deliveries == (if first == Success(true) then [draft] else [])
  {
    var coordinator := new Coordinator();
    first := coordinator.SetConfig(codecs, false, live, draft);
    var c := ParseDraft(codecs, draft).value;
    StrictDecodeSurvivesDefaults(codecs, dirs, codecs.parseToml(draft).value, c);
    var reloaded := FromServer(codecs, dirs, draft);
    assert reloaded == Success(Settings(c, None));
    second := coordinator.SetConfig(codecs, false, reloaded.value, draft);
    deliveries := coordinator.outbox;
  }

  /**
   * A draft that differs from the live configuration only in how its
   * directories are spelled (a trailing, doubled or `.` separator, say) is
   * the same configuration: "No changes", and nothing is scheduled.
   */
  method PathSpellingIsNoChange(codecs: Codecs, live: Settings, draft: string, dataDir: string, logDir: string, exportDir: string)
    returns (r: Result<bool, ApiError>, deliveries: seq<string>)
    requires ParseDraft(codecs, draft).Success?
    requires live.config == ParseDraft(codecs, draft).value.(dataDir := dataDir, logDir := logDir, exportDir := exportDir)
    requires codecs.pathComponents(dataDir) == codecs.pathComponents(ParseDraft(codecs, draft).value.dataDir)
    requires codecs.pathComponents(logDir) == codecs.pathComponents(ParseDraft(codecs, draft).value.logDir)
    requires codecs.pathComponents(exportDir) == codecs.pathComponents(ParseDraft(codecs, draft).value.exportDir)
    ensures r == Failure(NoChanges)
    ensures deliveries == []
  {
    var coordinator := new Coordinator();
    r := coordinator.SetConfig(codecs, false, live, draft);
    deliveries := coordinator.outbox;
  }

  /**
   * Local mode (status.rs:331-380): the query fails with "Config is local" and
   * any draft, valid or not, is declined with false and never scheduled.
   */
  method LocalModeScenario(codecs: Codecs, live: Settings, draft: string)
    returns (query: Result<Config, ApiError>, proposal: Result<bool, ApiError>, deliveries: seq<string>)
    ensures query.Failure? && query.error.Message() == "Config is local"
    ensures proposal == Success(false)
    ensures deliveries == []
  {
    query := QueryConfig(true, live);
    var coordinator := new Coordinator();
    proposal := coordinator.SetConfig(codecs, true, live, draft);
    deliveries := coordinator.outbox;
  }

  /**
   * Remote mode (status.rs:383-416): a configuration holding the default
   * tunables is shown with those exact values, the 64- and 32-bit unsigned
   * ones as decimal strings.
   */
  lemma RemoteConfigScenario(codecs: Codecs, live: Settings)
    requires live.config.ackTransmission == 1024 && live.config.maxOpenFiles == 8000
    requires live.config.maxMbOfLevelBase == 512 && live.config.numOfThread == 8
    requires live.config.maxSubCompactions == 2
    ensures QueryConfig(false, live).Success?
    ensures Project(codecs, QueryConfig(false, live).value).ackTransmission == 1024
    ensures Project(codecs, QueryConfig(false, live).value).maxOpenFiles == 8000
    ensures Project(codecs, QueryConfig(false, live).value).maxMbOfLevelBase == "512"
    ensures Project(codecs, QueryConfig(false, live).value).numOfThread == 8
    ensures Project(codecs, QueryConfig(false, live).value).maxSubCompactions == "2"
  {
    assert DecimalString(5) == "5";
    assert DecimalString(51) == "51";
    assert DecimalString(512) == "512";
  }

  // ---------------------------------------------------------------------
  // Lifecycle signals (status.rs:215-240)
  // ---------------------------------------------------------------------

  /** A single-permit wake-up: notifications not yet taken by the waiter coalesce. */
  class Notify {
    var permit: bool

    constructor()
      ensures !permit
    {
      permit := false;
    }

    method NotifyOne()
      modifies this
      ensures permit
    {
      permit := true;
    }
  }

  /** stop: wakes the terminate waiter and reports true, in either mode. */
  method Stop(terminate: Notify) returns (r: bool)
    modifies terminate
    ensures r && terminate.permit
  {
    terminate.NotifyOne();
    r := true;
  }

  /** reboot: wakes the reboot waiter and reports true, in either mode. */
  method Reboot(reboot: Notify) returns (r: bool)
    modifies reboot
    ensures r && reboot.permit
  {
    reboot.NotifyOne();
    r := true;
  }

  /** shutdown: wakes the power-off waiter and reports true, in either mode. */
  method Shutdown(powerOff: Notify) returns (r: bool)
    modifies powerOff
    ensures r && powerOff.permit
  {
    powerOff.NotifyOne();
    r := true;
  }

  // ---------------------------------------------------------------------
  // The configuration document editor (status.rs:256-292)
  // ---------------------------------------------------------------------

  /**
   * A top-level item of the document. `OtherItem` stands for every item that
   * is neither a string nor an array (numbers, booleans, datetimes, tables,
   * arrays of tables); formatting and comments are not modelled.
   */
  datatype Item =
    | StringItem(s: string)
    | ArrayItem(elems: seq<Item>)
    | InlineTableItem(entries: seq<(string, Item)>)
    | OtherItem

  /** A peer as the editor sees it: the results of its get_addr and get_hostname. */
  datatype TomlPeer = TomlPeer(addr: string, hostname: string)

  datatype EditError =
    | NotFound(key: string)
    | ParseFailed(key: string)
    | PeersNotFound
  {
    function Message(): string {
      match this
      case NotFound(key) => key + " not found."
      case ParseFailed(key) => "parse failed: " + key + "'s item format is not available."
      case PeersNotFound => "insert failed: peers option not found"
    }
  }

  /** The parsed configuration document, edited in place. */
  class Document {
    var items: map<string, Item>

    constructor(items: map<string, Item>)
      ensures this.items == items
    {
      this.items := items;
    }
  }

  /** The inline table the editor writes for one peer: `{addr = ..., hostname = ...}`. */
  function PeerTable(p: TomlPeer): Item {
    InlineTableItem([(PeerAddrKey, StringItem(p.addr)), (PeerHostnameKey, StringItem(p.hostname))])
  }

  function PeerTables(ps: seq<TomlPeer>): seq<Item> {
    if ps == [] then [] else [PeerTable(ps[0])] + PeerTables(ps[1..])
  }

  lemma {:induction false} PeerTablesSnoc(ps: seq<TomlPeer>, p: TomlPeer)
    ensures PeerTables(ps + [p]) == PeerTables(ps) + [PeerTable(p)]
  {
    if ps != [] {
      assert (ps + [p])[1..] == ps[1..] + [p];
      PeerTablesSnoc(ps[1..], p);
    } else {
      assert (ps + [p])[1..] == [];
    }
  }

  /** One inline table per peer, in input order. */
  lemma {:induction false} PeerTablesAt(ps: seq<TomlPeer>)
    ensures |PeerTables(ps)| == |ps|
    ensures forall i :: 0 <= i < |ps| ==> PeerTables(ps)[i] == PeerTable(ps[i])
  {
    if ps != [] {
      PeerTablesAt(ps[1..]);
    }
  }

  function EntryString(entries: seq<(string, Item)>, key: string): Option<string> {
    if entries == [] then None
    else if entries[0].0 == key then (if entries[0].1.StringItem? then Some(entries[0].1.s) else None)
    else EntryString(entries[1..], key)
  }

  /** Reads one peer back from an inline table with string `addr` and `hostname`. */
  function ReadPeer(item: Item): Option<TomlPeer> {
    if !item.InlineTableItem? then None
    else
      match (EntryString(item.entries, PeerAddrKey), EntryString(item.entries, PeerHostnameKey))
      case (Some(a), Some(h)) => Some(TomlPeer(a, h))
      case _ => None
  }

  function ReadPeers(elems: seq<Item>): Option<seq<TomlPeer>> {
    if elems == [] then Some([])
    else
      match (ReadPeer(elems[0]), ReadPeers(elems[1..]))
      case (Some(p), Some(rest)) => Some([p] + rest)
      case _ => None
  }

  lemma PeerTableReadsBack(p: TomlPeer)
    ensures ReadPeer(PeerTable(p)) == Some(p)
  {
    var entries := PeerTable(p).entries;
    assert |PeerAddrKey| != |PeerHostnameKey|;
    assert entries[1..] == [(PeerHostnameKey, StringItem(p.hostname))];
    assert EntryString(entries, PeerAddrKey) == Some(p.addr);
    assert EntryString(entries[1..], PeerHostnameKey) == Some(p.hostname);
  }

  /** The tables written for a peer list read back as that list. */
  lemma {:induction false} PeerTablesRoundTrip(ps: seq<TomlPeer>)
    ensures ReadPeers(PeerTables(ps)) == Some(ps)
  {
    if ps != [] {
      var tables := PeerTables(ps);
      assert tables[0] == PeerTable(ps[0]);
      assert tables[1..] == PeerTables(ps[1..]);
      PeerTablesRoundTrip(ps[1..]);
      PeerTableReadsBack(ps[0]);
      assert ReadPeers(tables) == Some([ps[0]] + ps[1..]);
      assert [ps[0]] + ps[1..] == ps;
    }
  }


  /**
   * parse_toml_element_to_string: a missing key is "not found", a value that
   * is not a string is "parse failed", a string is returned as it is.
   */
  function ParseTomlElementToString(key: string, doc: Document): (r: Result<string, EditError>)
    reads doc
    ensures r.Success? <==> key in doc.items && doc.items[key].StringItem?
    ensures r.Success? ==> doc.items[key] == StringItem(r.value)
    ensures key !in doc.items ==> r == Failure(NotFound(key)) && r.error.Message() == key + " not found."
    ensures key in doc.items && !doc.items[key].StringItem? ==> r == Failure(ParseFailed(key))
  {
    if key !in doc.items then Failure(NotFound(key))
    else if !doc.items[key].StringItem? then Failure(ParseFailed(key))
    else Success(doc.items[key].s)
  }

  predicate HasPeersArray(items: map<string, Item>) {
    PeersKey in items && items[PeersKey].ArrayItem?
  }

  /**
   * insert_toml_peers: None leaves the document alone; Some(list) needs an
   * existing `peers` array, checked before anything is cleared, and leaves it
   * holding exactly one inline table per peer, in input order. No other key
   * changes.
   */
  method InsertTomlPeers(doc: Document, input: Option<seq<TomlPeer>>) returns (r: Result<(), EditError>)
    modifies doc
    ensures input.None? ==> r == Success(()) && doc.items == old(doc.items)
    ensures input.Some? && !HasPeersArray(old(doc.items)) ==>
              r == Failure(PeersNotFound) && doc.items == old(doc.items)
    ensures input.Some? && HasPeersArray(old(doc.items)) ==>
              r == Success(()) && doc.items == old(doc.items)[PeersKey := ArrayItem(PeerTables(input.value))]
  {
    if input.Some? {
      var peerList := input.value;
      if !HasPeersArray(doc.items) {
        return Failure(PeersNotFound);
      }
      doc.items := doc.items[PeersKey := ArrayItem([])];
      for i := 0 to |peerList|
        invariant doc.items == old(doc.items)[PeersKey := ArrayItem(PeerTables(peerList[..i]))]
      {
        var table := PeerTable(peerList[i]);
        PeerTablesSnoc(peerList[..i], peerList[i]);
        assert peerList[..i + 1] == peerList[..i] + [peerList[i]];
        doc.items := doc.items[PeersKey := ArrayItem(doc.items[PeersKey].elems + [table])];
      }
      assert peerList[..|peerList|] == peerList;
    }
    r := Success(());
  }

  /**
   * Editing `peers` does not change what any other key reads as, and after a
   * successful insert the `peers` array reads back as the given list.
   */
  method InsertThenRead(items: map<string, Item>, input: Option<seq<TomlPeer>>, key: string)
    returns (before: Result<string, EditError>, after: Result<string, EditError>,
             outcome: Result<(), EditError>, peers: Option<seq<TomlPeer>>)
    requires key != PeersKey
    ensures before == after
    ensures outcome.Success? <==> input.None? || HasPeersArray(items)
    ensures input.Some? && HasPeersArray(items) ==> peers == input
  {
    var doc := new Document(items);
    before := ParseTomlElementToString(key, doc);
    outcome := InsertTomlPeers(doc, input);
    after := ParseTomlElementToString(key, doc);
    if HasPeersArray(doc.items) {
      peers := ReadPeers(doc.items[PeersKey].elems);
      if input.Some? {
        PeerTablesRoundTrip(input.value);
      }
    } else {
      peers := None;
    }
  }
}
