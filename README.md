# Configuration and administrative control plane of the ingestion service

This project is a Dafny model of two linked parts of the service's control plane.

- **Typed configuration** (`src/settings.rs`). `Config` is a 14-field record, and its `peers` field is a set. Its equality (`SameConfig`) compares the three directory fields as paths, component by component, and every other field as it is. It is decoded from a table of values, either on its own or layered over a fixed table of defaults. Two custom field decoders exist. The strict socket-address decoder parses or fails with an error that quotes the string. The peer-address decoder treats an absent key, the empty string and the sentinel `254.254.254.254:38383` as "no clustering".
- **Administrative control plane** (`src/graphql/status.rs`). The `config` query is gated by local mode, and its fields are rendered for the API. The `set_config` reconfiguration protocol schedules deliveries of accepted drafts to a reload consumer. The `stop`/`reboot`/`shutdown` signals are single-permit wake-ups. The structure-preserving TOML document editor offers `parse_toml_element_to_string` and `insert_toml_peers`.

Files:

- `wrappers.dfy`: `Option` and `Result`.
- `settings.dfy`: module `Settings`. This file is pure: datatypes and functions, with lemmas.
- `status.dfy`: module `Status`. Here `Coordinator` (with its `outbox` of scheduled deliveries), `Notify` and `Document` are classes updated in place. The queries, the draft parser and the projections are functions.

Library code is passed in as the fields of a `Codecs` value. This covers socket-address parsing and formatting, duration parsing and formatting, TOML text parsing, and the splitting of a path into the components that path equality compares. Every property therefore holds for any behaviour of those libraries. The platform data directories are a `ProjectDirs` parameter. The reading of a configuration file is a parameter holding its parsed table or its error. The local-mode flag, the live `Settings` and the notification handles are explicit parameters. In the source they come from the request context.

The decoder `Settings.DecodeConfig` is proved sound and complete against an independent, field-by-field relation `Settings.Describes`. A table yields exactly the configuration it describes, and it fails only when it describes none. The main cross-operation result is `Settings.StrictDecodeSurvivesDefaults`. A draft accepted by `set_config` decodes to the same configuration when it is layered over the defaults, as `Settings::from_server` does. So once the reload consumer has applied it, resubmitting the draft gives "No changes" (`Status.ReapplyIsNoChange`).

Two behaviours of the code a reader might not expect:

- The custom address error quotes the raw string (`invalid address "<addr>"`) but does not name the key.
- `set_config` deserializes the draft with no defaults layered in (src/graphql/status.rs:187). A draft must therefore name every field except `addr_to_peers` and `peers` (`Status.EmptyDraftNeedsFields`).

## Model

| member | source | states |
|---|---|---|
| `Settings.IsLocal` | src/settings.rs:46-50 | local mode holds exactly when a configuration path argument was given |
| `Settings.DeserializeSocketAddr` | src/settings.rs:196-203 | succeeds exactly when the value is a string that the address parser accepts, and returns the parsed address; an unparsable string fails with `InvalidAddress(raw)`, rendered `invalid address "raw"`, and the sentinel and "" get no exemption |
| `Settings.DeserializePeerAddr` | src/settings.rs:213-227 | an absent value, the sentinel `254.254.254.254:38383` and "" give `Ok(None)`, never an error; any other string gives `Some(addr)` when it parses and `InvalidAddress(raw)` when it does not; a non-string fails; `Some` only ever comes from a parsed non-sentinel, non-empty string |
| `Settings.DeserializeDuration` | src/settings.rs:60-61 | succeeds exactly when the value is a string the duration parser accepts, with that duration |
| `Settings.DeserializeInt` | src/settings.rs:68-71 | an integer field succeeds exactly when the value is an integer inside the Rust type's range, and returns it unchanged |
| `Settings.DeserializeString` | src/settings.rs:59 | a path field succeeds exactly when the value is a string, and returns it |
| `Settings.DecodePeer` | src/settings.rs:76 | a peer entry decodes exactly to the identity its table describes (parsable `addr`, string `hostname`) |
| `Settings.DecodePeerList` | src/settings.rs:76 | the peers array decodes exactly when every entry decodes, and then to the set of the decoded entries |
| `Settings.DeserializePeers` | src/settings.rs:76 | an absent `peers` is `None`; a present one must be an array whose entries all decode, giving `Some` of their set |
| `Settings.DecodeConfig` | src/settings.rs:53-80 | sound and complete for the relation `Describes`: a success describes its result, and any configuration the table describes is the result |
| `Settings.StrictDecodeNeedsRequiredKeys` | src/settings.rs:53-80 | without defaults, a successful decode needs every key except `addr_to_peers` and `peers` |
| `Settings.PeerOrderIrrelevant` | src/settings.rs:76 | two peers arrays with the same entries, in any order and with any repetition, decode alike, because `peers` is a set |
| `Settings.SameConfigIsEquivalence` | src/settings.rs:53-80 | configuration equality, with paths compared by their components, is reflexive, symmetric and transitive, and still separates configurations differing in any non-path field |
| `Settings.DefaultTableAt` | src/settings.rs:162-188 | the default table has the constant for each of the 13 defaulted keys and has no `peers` key |
| `Settings.DefaultsOnly` | src/settings.rs:105-112 | with no configuration file, construction succeeds exactly when the default address and duration strings parse; it then gives ack 1024, max open files 8000, level base 512 MB, 8 threads, 2 sub-compactions, retention "100d", the three `[::]` addresses, no peer address (its default is the sentinel), no peers and no path |
| `Settings.DefaultTable` | src/settings.rs:147-188 | the builder sets a default for every field except `peers`: exactly the twelve required keys plus `addr_to_peers` |
| `Settings.Layered` | src/settings.rs:117-119 | a source added over the defaults wins key by key: its keys keep its values, the other default keys keep theirs, and no other key appears |
| `Settings.OverlayKeyByKey` | src/settings.rs:117-121 | for each of the 14 fields of a layered decode: when the source has the key, the field is what the source's value decodes to (a present `addr_to_peers` or `peers` read as the strict decoder reads it); otherwise it is the default, and a missing `addr_to_peers` or `peers` gives `None` |
| `Settings.FromFile` | src/settings.rs:117-127 | a read failure is passed on; success holds exactly when the layered table decodes, describes the result and records `cfgPath = Some(path)` |
| `Settings.FromServer` | src/settings.rs:129-140 | text that is not TOML fails; otherwise success holds exactly when the layered table decodes, describes the result and records no path |
| `Settings.New` | src/settings.rs:93-113 | a non-UTF-8 default path fails; a present default file behaves as `FromFile`; otherwise defaults only, with no path |
| `Settings.StrictDecodeSurvivesDefaults` | src/settings.rs:129-140 | a table that decodes on its own decodes to the same configuration when layered over the defaults |
| `Status.DecimalRoundTrip` | src/graphql/status.rs:80-90 | the decimal string of a string-encoded number reads back as that number |
| `Status.DecimalNoLeadingZero` | src/graphql/status.rs:80-90 | the decimal string of a number is non-empty and, unless the number is 0, does not start with `0`, as `to_string` renders it |
| `Status.Project` | src/graphql/status.rs:46-114 | the query's fields: the 64- and 32-bit unsigned tunables become decimal strings with no leading zero that read back to the stored values, so the rendering is exactly `to_string`; the other integers and the directories are unchanged; addresses and retention go through the formatters; the peer address is present exactly when configured; every configured peer is shown and only those |
| `Status.QueryConfig` | src/graphql/status.rs:157-168 | fails with "Config is local" exactly in local mode; otherwise returns the live configuration unchanged |
| `Status.ParseDraft` | src/graphql/status.rs:187 | a draft that is not TOML fails; a successful draft names every required key and is decoded exactly as its table describes, with no defaults |
| `Status.EmptyDraftNeedsFields` | src/graphql/status.rs:187 | text that parses to an empty table is rejected as a draft, yet `FromServer` accepts it and yields the defaults |
| `Status.Coordinator.SetConfig` | src/graphql/status.rs:178-213 | local mode gives `false` before the draft is read; an unreadable draft gives its error; a draft the same as the live config (`SameConfig`, so paths spelled differently but with the same components are equal) gives "No changes"; any other draft gives `true`; the outbox gains the raw draft once on `true` and is unchanged otherwise |
| `Status.ReapplyIsNoChange` | src/graphql/status.rs:193-196 | once the reload consumer has rebuilt the settings from an accepted draft, submitting the same draft again gives "No changes"; exactly one delivery was scheduled, and only when the first call accepted |
| `Status.PathSpellingIsNoChange` | src/graphql/status.rs:193-196 | a draft differing from the live config only in how its directories are spelled, with the same path components, gets "No changes" and nothing is scheduled |
| `Status.LocalModeScenario` | src/graphql/status.rs:330-380 | in local mode the query fails with "Config is local", any draft is declined with `false`, and nothing is scheduled |
| `Status.RemoteConfigScenario` | src/graphql/status.rs:382-416 | in remote mode, a config holding the default tunables is shown as ack 1024, max open files 8000, level base "512", 8 threads and sub-compactions "2" |
| `Status.Notify.NotifyOne` | src/graphql/status.rs:219 | leaves a wake-up permit stored; repeated notifications coalesce |
| `Status.Stop` | src/graphql/status.rs:215-222 | wakes the terminate waiter and returns true, with no mode gate |
| `Status.Reboot` | src/graphql/status.rs:224-231 | wakes the reboot waiter and returns true, with no mode gate |
| `Status.Shutdown` | src/graphql/status.rs:233-240 | wakes the power-off waiter and returns true, with no mode gate |
| `Status.ParseTomlElementToString` | src/graphql/status.rs:256-264 | a missing key gives "<key> not found."; a non-string item gives "parse failed"; a string item is returned as it is |
| `Status.InsertTomlPeers` | src/graphql/status.rs:266-292 | `None` leaves the document unchanged; `Some(list)` without a `peers` array fails with "peers option not found" before anything is cleared; with one, it replaces the array's contents with one inline table per peer and changes no other key |
| `Status.PeerTablesSnoc` | src/graphql/status.rs:275-289 | pushing one more peer appends exactly its table, which is what each loop step relies on |
| `Status.PeerTablesAt` | src/graphql/status.rs:274-289 | there is exactly one inline table per peer, in input order, each `{addr, hostname}` of that peer; `Some([])` leaves an empty array |
| `Status.PeerTableReadsBack` | src/graphql/status.rs:276-282 | the inline table written for a peer reads back as that peer's address and host name |
| `Status.PeerTablesRoundTrip` | src/graphql/status.rs:274-289 | the tables written for a peer list read back as the same list |
| `Status.InsertThenRead` | src/graphql/status.rs:256-292 | editing `peers` never changes what another key reads as; the edit succeeds exactly when the input is `None` or a `peers` array exists; after a successful `Some(list)` the array reads back as `list` |

## Left out

- `write_toml_file` (file truncate and rewrite), `settings_to_doc` and `Settings::to_toml_string` are serializer round trips and file I/O. The editor works on an already-built document.
- `status` samples host resources and uses a floating-point CPU figure. `properties_cf` is a debug-only pass-through to the storage engine. `ping` only returns true.
- Coordinator.SetConfig: does not model the spawned task, its 100 ms delay or channel failure. An accepted draft is one entry appended to `outbox`, and delivery failure is only logged in the source.
- Notify.NotifyOne: only the stored permit is modelled. The waiting supervisor and the actions it takes are not part of this model.
- Argument parsing (`clap`) and the derivation of platform directories are not modelled. `Args` is a record, and `ProjectDirs` is a parameter.
- Socket-address, duration and TOML parsing and formatting, and the splitting of a path into components, are opaque `Codecs` functions. The address round trip (parse, format, parse) is a property of that library and is not modelled.
- DecodeConfig: when several fields are wrong, it reports the first one in declaration order. The derived deserializer reports in input order, and missing fields last. Success and the decoded value are exact.
- FromFile: type coercions of the layering library (a string "8000" accepted for an integer field, say) and its handling of key case are not modelled. Layered sources are decoded like strict ones. The same holds for `FromServer` and `New`.
- FromFile: the search for the file under several extensions and the reading itself are I/O. The file is given as its parsed table or an error.
- DecodePeer: src/peer.rs is not part of this model. A peer entry is decoded as a table with a socket-address `addr` and a string `hostname`, other keys ignored.
- Project: the peers list is returned in hash-set order in the source. The model gives the set of peer views, so list order is not captured.
- InsertTomlPeers: the error branch for a peer whose `addr` or `hostname` is not a value (src/graphql/status.rs:283-287) cannot be taken, because a string always yields a value, so the model has no such error. Comments, whitespace and other formatting of the document are not modelled. Neither is the empty placeholder that indexing a missing `peers` key inserts, which is invisible to reads and to rendering.
