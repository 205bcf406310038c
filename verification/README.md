# kiosk-server in Dafny

A model of the core of the kiosk management server (`kiosk-server/server.js`)
and of the copies of its ARP helpers in `kiosk-server/test-arp.js`. The server
drives browser kiosks on a LAN: kiosk pages fetch their configuration and
listen on a server-sent-event stream, shell agents check in periodically and
pick up queued commands, and the admin interface discovers devices on the LAN
and restarts or deploys to them over SSH.

The model keeps the server's in-memory components as classes whose methods
change their maps in place, each method tied by its `ensures` to a function
on values, and proves the properties of those functions as lemmas:

- `Config`: the global kiosk configuration (environment defaults, the
  six-key allow-list, the refusal of an invalid `kioskUrl`) and the per-address
  overrides, merged field by field and overlaid on the global record.
- `RateLimit`: the fixed one-minute window per client address behind agent
  check-ins, with the prune above 1000 entries and the periodic sweep.
- `Heartbeat`: the agent registry and command queues: check-in (rate limit,
  eviction under capacity pressure, partial upsert, configuration, drain of the
  queue), enqueue with its bound of 100, the listing with its online flag, and
  the sweep.
- `Push` and `EventStream`: the table of server-sent-event sessions (capped at
  100), broadcast, the per-address configuration push, `/api/register`, the
  device listing and the sweep of dead sessions; writes append messages to a
  session's outbox, and `EventStream` frames them as the server does and reads
  them back as section 9.2.6 of the WHATWG HTML Living Standard describes.
- `Server`: the handlers that combine them (`/api/config`, the per-address
  override, `/api/action`, the five-minute cleanup).
- `Address`, `Arp`, `Vendor`, `Discovery`: `normalizeIp` (the IPv4-mapped
  prefix of section 2.5.5.2 of RFC 4291), `normalizeMac`,
  `isValidDeviceAddress` (the IEEE 802 group bit, the multicast range of
  section 4 of RFC 1112, the loopback network of section 3.2.1.3 of RFC 1122),
  `parseArpTable` with both line layouts and its de-duplication,
  `cleanVendorName`, `getMacVendor` and both fallback tables,
  `mergeDeviceData`, `identifyDeviceType`, the vendor/name/type enrichment of
  a scan, the one-hour hostname cache and the choice of the resolved hostname,
  and the nmap flags of each scan mode.
- `Remote`: the target addresses of `/api/restart` and `/api/deploy`, the
  commands and configuration lines each sends, and the rules that decide each
  host's `ok`.

The clock, session ids, `JSON.stringify`, the URL and IP validators, the OUI
database, the corporate-suffix patterns of `cleanVendorName` and every SSH,
DNS or scan result are parameters. Request bodies are `Values.Json`, where
`JNull` stands both for `null` and for an absent property, with JavaScript's
truthiness, `||`, `??` and `String(...)`.

## Model

| member | source | states |
|---|---|---|
| Text.TrimIdempotent | kiosk-server/server.js:399 | a trimmed id neither starts nor ends with white space, and trimming it again changes nothing |
| Text.SplitJoin | kiosk-server/server.js:663 | splitting parts joined by a character they do not contain gives the parts back |
| Address.NormalizeIp | kiosk-server/server.js:478-485 | an address with the IPv4-mapped prefix loses exactly that prefix; any other address is unchanged |
| Address.NormalizeMac | kiosk-server/server.js:471-474 | normalising a MAC (lower case, then every '-' replaced by ':') keeps its length |
| Address.NormalizeMacPositions | kiosk-server/server.js:473 | the two passes combine position by position: ':' where the input had '-', the lower-cased character everywhere else |
| Address.NormalizeMacIdempotent | kiosk-server/test-arp.js:4-7 | a normalised MAC has no '-' and no upper-case letter, and normalising it again changes nothing |
| Address.DecimalRoundTrip | kiosk-server/server.js:663 | `Number` of the decimal text of n is n, and that text has no dot |
| Address.QuadParts | kiosk-server/server.js:663 | the dotted text of four numbers splits and converts back to those four numbers |
| Address.GroupBitOfHexPair | kiosk-server/server.js:659-660 | for a MAC starting with two hex digits, the group bit is the low bit of the second digit |
| Address.IsValidDeviceAddress | kiosk-server/server.js:652-679 | an accepted pair has an address of four dot-separated parts and a MAC without the group bit |
| Address.ValidDeviceAddressOnQuads | kiosk-server/test-arp.js:9-36 | on a dotted address and a MAC starting with two hex digits, the filter accepts iff the MAC is not broadcast and has an even first octet, all octets are at most 255, the last is neither 0 nor 255, and the first is outside 224..239 and not 127 |
| Address.GroupMacRejected | kiosk-server/server.js:652-660 | a MAC with the group bit set is never a device address, whatever the IP |
| Arp.QuadEndOf | kiosk-server/server.js:622 | `\d+\.\d+\.\d+\.\d+` matches greedily to the end of the fourth digit run |
| Arp.WindowsMacOf | kiosk-server/server.js:622 | after white space, a run of 11 to 17 MAC characters followed by white space and a word character is the captured MAC |
| Arp.WindowsAtShape | kiosk-server/server.js:622 | a line shaped like the Windows layout at q matches there, capturing its address and MAC |
| Arp.UnixMacOf | kiosk-server/server.js:634 | white space, "at", white space and 17 hex-or-colon characters capture those 17 characters |
| Arp.UnixAtShape | kiosk-server/server.js:634 | a line shaped like the Unix layout at q matches there, capturing the address between the parentheses and the MAC |
| Arp.LeftmostSkips | kiosk-server/server.js:622 | the leftmost match is the first position where the pattern matches |
| Arp.MatchStart | kiosk-server/server.js:622 | a Windows match starts at a digit and a Unix match at '(' |
| Arp.Lines | kiosk-server/server.js:619 | one line per '\n'-separated piece, each the piece itself or the piece without a trailing '\r'; the last piece is kept as it is |
| Arp.LineEntry | kiosk-server/server.js:620-644 | an entry a line yields is a valid device address whose MAC is a normalised form |
| Arp.WindowsLine | kiosk-server/server.js:622-632 | when the Windows pattern matches at the first digit, the line yields that address and normalised MAC iff they pass the device filter |
| Arp.UnixLine | kiosk-server/server.js:634-643 | when the Windows pattern matches nowhere and the Unix one at the first '(', the line yields that match iff it passes the filter |
| Arp.NoMatchNoEntry | kiosk-server/server.js:620-644 | where a pattern matches at no position, the line yields nothing for it |
| Arp.Candidates | kiosk-server/server.js:620-644 | at most one entry per line, each a valid device address |
| Arp.CollectEntries | kiosk-server/server.js:618-644 | the loop over the lines collects exactly the entries of the lines, in order |
| Arp.FillOk | kiosk-server/server.js:646-647 | the de-duplication map lists each address once, and holds exactly the addresses of its input |
| Arp.FillKeepsLast | kiosk-server/server.js:647 | an address's stored entry is that of its last occurrence |
| Arp.LastIsCandidate | kiosk-server/server.js:647 | each stored entry is one of the input entries |
| Arp.Dedup | kiosk-server/server.js:646-648 | no two entries of the de-duplicated list share an address |
| Arp.DedupEntries | kiosk-server/server.js:646-648 | the map loop yields the de-duplicated list |
| Arp.ParseArpTable | kiosk-server/server.js:617-649 | the result is the de-duplication of the entries of the lines split at `\r?\n` |
| Arp.CandidatesValid | kiosk-server/server.js:628-641 | every collected entry passes the device filter with a normalised MAC |
| Arp.DedupProperties | kiosk-server/server.js:646-648 | de-duplication keeps only input entries, at most one per address, and one for every input address |
| Arp.ParseArpTableProperties | kiosk-server/test-arp.js:38-78 | the parsed list holds only valid device addresses with normalised MACs, one per IP, and one for each IP of a valid line |
| Arp.DedupKeepsLast | kiosk-server/test-arp.js:74-77 | for a repeated IP, the entry kept is the last one parsed |
| Config.EnvDefaults | kiosk-server/server.js:82-89 | the defaults hold exactly the six allow-listed keys: each text is its variable when set and not empty, otherwise its fallback ("", "Kiosk Display", " 2025 Kiosk System", "UTC"); each flag is whether its variable, lower-cased, reads "true", and is true when the variable is unset |
| Config.FilterAllowed | kiosk-server/server.js:211-216 | the filtered update holds exactly the body's allow-listed keys, with the body's values |
| Config.Updated | kiosk-server/server.js:204-218 | an update carrying an invalid truthy `kioskUrl` leaves the record as it was; any other update adds exactly the body's allow-listed keys |
| Config.MergedOverride | kiosk-server/server.js:248-250 | every key of the body takes the body's value, every other key of the existing override is kept, and no other key appears |
| Config.ResolveFor | kiosk-server/server.js:186-193 | without an override the global record is served; with one, every key of the override wins and every other key is the global value |
| Config.ConfigStore.constructor | kiosk-server/server.js:91-92 | start-up state is the defaults overlaid by the persisted record, plus the persisted overrides |
| Config.ConfigStore.Resolve | kiosk-server/server.js:185-193 | the configuration served to an address is the one `Config.ResolveFor` describes for the current global record and overrides |
| Config.ConfigStore.Update | kiosk-server/server.js:204-221 | an invalid truthy `kioskUrl` refuses the update with no change; otherwise the allow-listed keys present are copied in and the overrides are untouched |
| Config.ConfigStore.SetOverride | kiosk-server/server.js:235-261 | an invalid address or URL changes nothing; otherwise the body is merged over the existing override for that address, and the global record is untouched |
| Config.UpdatesStayInAllowList | kiosk-server/server.js:212-218 | after any sequence of updates, no key outside the allow-list is added or changed, and no key is removed |
| Config.FromDefaultsOnlyAllowList | kiosk-server/server.js:212-218 | starting from the defaults, the global record always has exactly the six allow-listed keys |
| Config.UpdateEffect | kiosk-server/server.js:214-218 | an accepted update sets each allow-listed key it carries and leaves every other key unchanged |
| Config.OverrideMergesNotReplaces | kiosk-server/server.js:248-250 | two overrides for one address equal one carrying both bodies, the later winning; earlier fields are kept |
| Config.ResolveAfterOverride | kiosk-server/server.js:188-189 | after an override is stored, that address is served the override's value for each key the body set |
| Server.ConfigFor | kiosk-server/server.js:185-193 | the configuration a client fetches is resolved for its normalised address |
| Server.PostConfig | kiosk-server/server.js:204-221 | a refused update changes and pushes nothing; an accepted one is pushed as a `config` event to every session |
| Server.PostOverride | kiosk-server/server.js:242-261 | a stored override is pushed, merged over the global record, only to the sessions at that address; a refused one changes nothing |
| Server.PostAction | kiosk-server/server.js:326-330 | a falsy `type` is refused with no push; otherwise an `action` event with `value ?? true` goes to every session |
| Server.Cleanup | kiosk-server/server.js:1558-1589 | the cleanup removes dead sessions, agents silent for 30 minutes with their queues, and rate entries a window past their end |
| Server.OverridePushMatchesFetch | kiosk-server/server.js:253-257 | the configuration pushed after an override is exactly what that client then fetches |
| Server.BroadcastIgnoresOverride | kiosk-server/server.js:218-220 | where an override sets a key to another value, the global push differs from what that client fetches |
| RateLimit.Advance | kiosk-server/server.js:502-511 | a missing or expired entry starts a window of 60000 ms with count 1; otherwise the count grows by one in the same window |
| RateLimit.RateLimiter.constructor | kiosk-server/server.js:32 | the limiter starts empty |
| RateLimit.RateLimiter.Check | kiosk-server/server.js:502-523 | the caller's entry is advanced, the table is pruned above 1000 entries, and the call is allowed iff the new count is within the budget |
| RateLimit.RateLimiter.DropExpired | kiosk-server/server.js:516-520 | exactly the entries whose window ended before the cutoff are deleted |
| RateLimit.RateLimiter.Sweep | kiosk-server/server.js:1582-1586 | an entry survives the sweep iff it is at most one window past its end |
| RateLimit.WithinOneWindow | kiosk-server/server.js:509-522 | inside one window the i-th further call is allowed iff the running count stays within the budget |
| RateLimit.ExactBudgetPerWindow | kiosk-server/server.js:502-523 | within one window exactly the first `maxPerMinute` calls are allowed and every later one is refused |
| RateLimit.NewWindowAfterExpiry | kiosk-server/server.js:506-508 | after a window ends the next call opens a new one, exactly as for an unknown address, and is allowed |
| RateLimit.PruneSparesCaller | kiosk-server/server.js:513-520 | pruning never removes the caller's entry, and removes only expired ones |
| Heartbeat.AgentKey | kiosk-server/server.js:399 | the key is the address, or the trimmed, non-empty text of a truthy id; a falsy id always gives the address |
| Heartbeat.Upsert | kiosk-server/server.js:400-409 | the record takes the new address and time, keeps every optional property it had, and takes a truthy incoming id |
| Heartbeat.Online | kiosk-server/server.js:443-444 | an agent listed online is not stale for the ten-minute cutoff |
| Heartbeat.TruthyDetails | kiosk-server/server.js:403-408 | the optional properties taken from a body are exactly its truthy ones among the six |
| Heartbeat.Evict | kiosk-server/server.js:379-388 | eviction keeps exactly the agents that are not stale, and drops exactly the queues of the evicted agents |
| Heartbeat.Survivors | kiosk-server/server.js:379-388 | the capacity eviction keeps exactly the agents and queues whose agent is not evicted (table full and no check-in for ten minutes), with their values |
| Heartbeat.CheckInStep | kiosk-server/server.js:379-422 | the reply queue is the key's prior queue unless its own stale record was evicted, else empty; the key's queue is left empty; its record is the upsert of its surviving record; every other agent and queue survives, unchanged, exactly when it is not evicted |
| Heartbeat.EnqueueStep | kiosk-server/server.js:457-468 | a missing target or type and a full queue change nothing; the reply is Queued if and only if the target and type are given and the queue holds fewer than 100 commands, and then one command with `payload \|\| {}` is appended to the target's queue, the new length is returned and no other queue changes |
| Heartbeat.HeartbeatRegistry.constructor | kiosk-server/server.js:114-115 | start-up holds the restored records and no queued command |
| Heartbeat.HeartbeatRegistry.EvictOlderThan | kiosk-server/server.js:382-387 | the deletion loop leaves exactly `Evict` of the old state |
| Heartbeat.HeartbeatRegistry.CheckIn | kiosk-server/server.js:369-429 | a refused check-in leaves the registry unchanged and answers 60 seconds; an admitted one is `CheckInStep` and replies with the resolved configuration and the drained queue |
| Heartbeat.HeartbeatRegistry.Enqueue | kiosk-server/server.js:452-469 | the new state and the reply are those of `EnqueueStep` |
| Heartbeat.HeartbeatRegistry.List | kiosk-server/server.js:441-446 | one row per record, with its key, and online iff the last check-in is non-zero and under ten minutes old |
| Heartbeat.HeartbeatRegistry.Sweep | kiosk-server/server.js:1573-1579 | the sweep evicts the agents silent for 30 minutes, with their queues |
| Heartbeat.KeyIgnoresPaddingAndAddress | kiosk-server/server.js:399 | a string id with non-blank text gives the key of its trimmed text, from any address |
| Heartbeat.KeyFallsBackToAddress | kiosk-server/server.js:399 | a falsy id, or one whose text is blank, gives the client address as key |
| Heartbeat.NumericIdKey | kiosk-server/server.js:399 | a non-zero numeric id below 2^53 in magnitude is keyed by its decimal text |
| Heartbeat.UpsertFieldRule | kiosk-server/server.js:400-409 | `ip` and `lastSeen` are always set; a truthy incoming property replaces the stored one; a falsy or missing one keeps it; no other property appears |
| Heartbeat.UpsertNeverBlanks | kiosk-server/server.js:403-408 | a stored truthy property stays truthy through any check-in |
| Heartbeat.EmptyCheckIn | kiosk-server/server.js:400-409 | an empty body only refreshes the address and the time |
| Heartbeat.UpsertIdempotent | kiosk-server/server.js:400-409 | repeating a check-in with the same body at the same time changes nothing more |
| Heartbeat.UpsertAllKeepsLastTruthy | kiosk-server/server.js:403-408 | after any sequence of check-ins a property holds the last truthy value sent for it, or the stored one |
| Heartbeat.CheckInAdmitsAndDrains | kiosk-server/server.js:399-422 | the key is stored with the check-in time and its queue is left empty; the reply carries its prior queue whenever its record was not evicted, in particular below capacity, for a key with no record and for a fresh record; a key without a queue gets none |
| Heartbeat.SecondCheckInGetsNothing | kiosk-server/server.js:420-422 | an immediate second check-in receives no command |
| Heartbeat.EnqueueThenCheckIn | kiosk-server/server.js:461-467 | a queued command reaches the agent at its next check-in after the earlier ones, unless that check-in evicted the agent first |
| Heartbeat.QueuesStayBounded | kiosk-server/server.js:461-464 | check-in, enqueue and eviction keep every queue within 100 commands |
| Heartbeat.CapacityNeverRefuses | kiosk-server/server.js:379-388 | at capacity with no stale agent, a new key is still added and the table exceeds 200 |
| Heartbeat.OnlineAfterCheckIn | kiosk-server/server.js:441-445 | an agent that checked in at a non-zero time is listed online for the next ten minutes |
| Heartbeat.SweepRemovesOnlyOffline | kiosk-server/server.js:1573-1579 | the sweep removes only agents listed offline, and keeps every agent listed online |
| Push.Deliver | kiosk-server/server.js:175 | a write appends to a live session's outbox and is lost on a dead one, changing nothing else |
| Push.Broadcasted | kiosk-server/server.js:170-177 | every session is kept; each live one differs only by the message appended to its outbox, and each dead one is unchanged |
| Push.SentTo | kiosk-server/server.js:253-260 | every session is kept; each live session at the address differs only by the message appended; dead sessions there and sessions at other addresses are unchanged |
| Push.Registered | kiosk-server/server.js:1518-1528 | every session at the address gets a truthy page address and changes in nothing else; other sessions are unchanged |
| Push.Reaped | kiosk-server/server.js:1562-1570 | exactly the live sessions survive the sweep, each differing only by a ping appended to its outbox |
| Push.ActionPayload | kiosk-server/server.js:329 | the action payload carries the type, and the value or `true` when none was given |
| Push.SessionTable.constructor | kiosk-server/server.js:107 | the session table starts empty |
| Push.SessionTable.Open | kiosk-server/server.js:273-302 | the table after a stream request is `OpenStep`: refused at 100 sessions, otherwise a session seeded with the global configuration |
| Push.SessionTable.Close | kiosk-server/server.js:310-314 | closing removes the session and nothing else |
| Push.SessionTable.Drop | kiosk-server/server.js:175 | a dead connection marks its session so that later writes fail |
| Push.SessionTable.KeepAlive | kiosk-server/server.js:305-307 | the keep-alive writes a ping comment to its session only |
| Push.SessionTable.Broadcast | kiosk-server/server.js:170-177 | a broadcast delivers the event to every session, keeping the dead ones |
| Push.SessionTable.SendToIp | kiosk-server/server.js:253-260 | the event is delivered to the sessions at the address only |
| Push.SessionTable.Register | kiosk-server/server.js:1518-1528 | every session at the normalised address records the reported page, or "Unknown" |
| Push.SessionTable.Devices | kiosk-server/server.js:1497-1512 | one row per session with its id, address, user agent and connection time, and its page address or "Unknown" for an unset one |
| Push.SessionTable.Reap | kiosk-server/server.js:1562-1570 | the sweep pings every live session and removes exactly the dead ones |
| Push.OpenKeepsCap | kiosk-server/server.js:275-277 | opening a stream never takes the table past 100 sessions |
| Push.OpenSeedsGlobalConfig | kiosk-server/server.js:297-302 | a new session's first message is the global configuration, whatever its override; a refused one leaves the table unchanged |
| Push.BroadcastReachesAllLive | kiosk-server/server.js:174-176 | a broadcast reaches every live session, keeps every session, and leaves dead ones as they were |
| Push.SendReachesOnlyAddress | kiosk-server/server.js:253-260 | a per-address push reaches exactly the live sessions at that address |
| Push.BroadcastsKeepOrder | kiosk-server/server.js:170-177 | successive broadcasts arrive at each live session in the order they were sent |
| Push.SessionReadsBroadcasts | kiosk-server/server.js:297-302 | a browser reading a session's stream dispatches the initial configuration, then every broadcast event in order |
| Push.RegisteredShowsPage | kiosk-server/server.js:1521-1524 | after a registration, each session at the address shows the reported page, or "Unknown", never an empty value |
| Push.ReapRemovesOnlyDead | kiosk-server/server.js:1562-1570 | the sweep removes exactly the dead sessions and never grows the table |
| EventStream.EventFrame | kiosk-server/server.js:171-172 | an event frame makes an idle reader dispatch exactly that event and become idle again |
| EventStream.CommentFrame | kiosk-server/server.js:306 | a ping comment frame leaves an idle reader as it was |
| EventStream.FrameDispatches | kiosk-server/server.js:171-172 | any frame dispatches the event it carries, if any, and leaves the reader idle |
| EventStream.FeedWire | kiosk-server/server.js:171-172 | reading successive frames dispatches their events in order |
| EventStream.StreamRoundTrip | kiosk-server/server.js:171-172 | a client reading everything written on a stream dispatches exactly the server's events, in order |
| Vendor.FirstSegment | kiosk-server/server.js:531 | the first part is a prefix of the entry, holds no comma or line break, and ends at one or at the end |
| Vendor.CleanVendorName | kiosk-server/server.js:526-549 | the label has 1 to 30 characters; an empty entry gives "Unknown"; otherwise the label is "Unknown", a prefix of the entry's first part, or 27 of its characters followed by "..." |
| Vendor.CleanVendorNameNoBreak | kiosk-server/server.js:530-532 | a label holds no comma or line break |
| Vendor.CleanNameKept | kiosk-server/server.js:526-549 | a one-part name of at most 30 characters that needs no cleaning is kept as is |
| Vendor.CleanNameTruncated | kiosk-server/server.js:544-546 | a longer one-part name keeps its first 27 characters and gets "..." |
| Vendor.TableLookup | kiosk-server/server.js:568-614 | a known prefix gives its vendor, an unknown one "Unknown Vendor", and nothing else is returned |
| Vendor.GetMacVendor | kiosk-server/server.js:552-615 | an empty MAC gives "Unknown"; a name from the database is cleaned by `cleanVendorName`; when the database gives nothing, the fallback table decides; the result is never empty |
| Vendor.ScriptMacVendor | kiosk-server/test-arp.js:80-94 | an empty MAC gives "Unknown"; a MAC whose upper-cased first 8 characters are in the script's table gives that vendor; any other gives "Unknown Vendor" |
| Vendor.OuiKeyIgnoresCase | kiosk-server/server.js:568 | the lookup key of a MAC is the same in either case |
| Vendor.LookupIgnoresCase | kiosk-server/server.js:568 | a lower-case MAC finds the same vendor as its upper-case form |
| Vendor.TablesAgree | kiosk-server/test-arp.js:84-91 | where both tables know a prefix they agree; the script's own prefixes map to "Unknown (Local)" or "Unknown" |
| Vendor.ScriptAgreesWithServer | kiosk-server/test-arp.js:80-94 | for a prefix both tables know, the script names the vendor the server's fallback names |
| Discovery.FillEach | kiosk-server/server.js:982-990 | a field of the list takes the later value exactly when that value is truthy and the stored one is replaceable |
| Discovery.FillAll | kiosk-server/server.js:982-990 | merging one later report fills each field by the fill rule |
| Discovery.Reports | kiosk-server/server.js:974 | a source yields one report per device, in order, tagged with its method |
| Discovery.Add | kiosk-server/server.js:975-991 | the report's address has a record (appended to the order when it is new) whose sources end with the report's method; every other record is unchanged |
| Discovery.AddOk | kiosk-server/server.js:975-991 | adding a report keeps one record per address, each carrying its address |
| Discovery.MergeAllOk | kiosk-server/server.js:973-993 | the merge map of any report list is well formed |
| Discovery.AddDevice | kiosk-server/server.js:975-991 | the loop body adds one report to the merge map |
| Discovery.ListRecords | kiosk-server/server.js:995 | the listing loop returns the records in order of first report |
| Discovery.MergeDeviceData | kiosk-server/server.js:970-996 | the nested loops build the well-formed merge of all reports, source by source, and return its listing |
| Discovery.Winner | kiosk-server/server.js:982-990 | the winning value of a field is never a replaceable one |
| Discovery.MergeRecords | kiosk-server/server.js:975-981 | there is a record exactly for each reported address; its `sources` lists every reporting method in order; the fields that are never filled come from the first report |
| Discovery.MergeFills | kiosk-server/server.js:982-990 | a filled field holds the first reported value that is not replaceable, and a replaceable value when there is none |
| Discovery.ListingOnePerAddress | kiosk-server/server.js:970-996 | the listing holds one device per address, each with its reporting methods as `sources` |
| Discovery.ServiceTypes | kiosk-server/server.js:1209 | the lower-cased type of each service, in order; a TypeError exactly when some service has no string `type` |
| Discovery.Ports | kiosk-server/server.js:1218-1219 | the `port` of each entry and its lower-cased service name or "", in order; a TypeError exactly when some entry is null or has a service that is not a string |
| Discovery.IdentifyDeviceType | kiosk-server/server.js:1206-1250 | a label is always one of the known device types |
| Discovery.IdentifyWellTyped | kiosk-server/server.js:1206-1250 | a device with well-formed fields always gets a label, and it is "Unknown" iff no services, ports, system or vendor rule fires |
| Discovery.PrinterServiceWins | kiosk-server/server.js:1208-1210 | a device offering a printer service is a printer, whatever else it has |
| Discovery.RdpPortMeansWindows | kiosk-server/server.js:1217-1221 | an open port 3389 makes a Windows PC unless a services rule fired |
| Discovery.BareDeviceUnknown | kiosk-server/server.js:1249 | a device with no services, ports, system or vendor is "Unknown" |
| Discovery.WithVendor | kiosk-server/server.js:1171-1173 | a device with a MAC and no vendor gets `getMacVendor` of its MAC, which is non-empty; a device without a MAC or with a vendor is unchanged; only `vendor` changes; a non-string MAC is a TypeError |
| Discovery.WithName | kiosk-server/server.js:1174-1176 | a missing or "Unknown Vendor" name becomes the hostname, else the vendor, else "Unknown Device"; a real name is kept; only `name` changes |
| Discovery.WithType | kiosk-server/server.js:1178-1180 | a device without a type gets the name of the classified type, and a typed one is kept; only `deviceType` changes |
| Discovery.Enrich | kiosk-server/server.js:1169-1182 | an enriched device has a name and a type, and no field other than vendor, name and type changes; enrichment fails exactly when one of its steps throws |
| Discovery.EnrichFields | kiosk-server/server.js:1169-1182 | the enriched vendor is `getMacVendor` of the MAC, the name is the hostname, else the vendor, else "Unknown Device", and the type is the classification of the named device, each only where the field was missing; existing vendors, types and real names are kept |
| Discovery.EnrichIdempotent | kiosk-server/server.js:1169-1182 | enriching an enriched device changes nothing |
| Discovery.FirstAcceptable | kiosk-server/server.js:769 | the chosen hostname is the first result that is a non-empty string other than the address: every earlier result is unacceptable; none is chosen only when no result is acceptable |
| Discovery.HostnameCache.constructor | kiosk-server/server.js:682 | the cache starts empty, and so satisfies the invariant that every cached name is non-empty |
| Discovery.HostnameCache.Lookup | kiosk-server/server.js:690-696 | a hostname is served iff it was stored less than an hour ago, and under the invariant a served name is non-empty |
| Discovery.HostnameCache.Store | kiosk-server/server.js:684-688 | a non-empty hostname for a truthy address is stored with the time; anything else changes nothing; the invariant is kept |
| Discovery.HostnameCache.Resolve | kiosk-server/server.js:699-779 | a fresh cached name is returned with the cache unchanged; otherwise the first acceptable result is returned and cached for a truthy address; a returned name is never empty; the invariant is kept |
| Discovery.HostnameCache.FillHostname | kiosk-server/server.js:1147-1160 | a device with a hostname is unchanged; one without gets the fresh cached name, else the first acceptable result (cached for a truthy address), else stays without; no other field changes |
| Discovery.CacheExpiry | kiosk-server/server.js:690-695 | a stored hostname is served for one hour and not after |
| Discovery.ResolveKeepsSound | kiosk-server/server.js:769-773 | caching the chosen name keeps every cached name non-empty and different from its address |
| Discovery.ScanNeverPortScan | kiosk-server/server.js:1102-1121 | every scan mode gets the aggressive, OS-detection or ping flags, never the port-list flags |
| Discovery.NmapFlags | kiosk-server/server.js:817-827 | aggressive gives "-A --osscan-guess"; otherwise OS detection gives "-O --osscan-guess -sV"; otherwise a port list gives "-sV -p " and the list; only with no option the ping sweep "-sn -PR" |
| Discovery.ScanNmapFlags | kiosk-server/server.js:1102-1126 | nmap runs only in the fast, detailed and aggressive modes: fast (also the default) with "-sn -PR", detailed with "-O --osscan-guess -sV", aggressive with "-A --osscan-guess" |
| Remote.QuadNumbers | kiosk-server/server.js:1336 | an address matching the pattern has four numbers, each at most 999 |
| Remote.KeepTargets | kiosk-server/server.js:1332-1340 | the kept targets are the string candidates that pass the address filter as written, and only those; the filter throws exactly when a truthy non-string candidate matches the pattern |
| Remote.KeepTargetsSingle | kiosk-server/server.js:1332-1340 | one candidate is kept, dropped, or makes the filter throw |
| Remote.KeepTargetsAppend | kiosk-server/server.js:1332-1340 | filtering two lists in a row keeps the targets of the first, then those of the second, in order and with repetitions, and throws if either throws |
| Remote.QuadPatternOf | kiosk-server/server.js:1335-1336 | a dotted address with numbers below 1000 matches the pattern and reads back as its numbers |
| Remote.LanTargetAsWrittenOnQuads | kiosk-server/server.js:1335-1338 | as written, the filter accepts a dotted address with numbers below 1000 iff the first is below 224 and the last is neither 0 nor 255 |
| Remote.SingleTargetKept | kiosk-server/server.js:1311-1341 | a single host that passes the filter as written is the one target |
| Remote.LanFilterAcceptsBadOctet | kiosk-server/server.js:1335-1338 | as written, the filter accepts 10.0.0.300, which is not an IPv4 address, and `hosts: ["10.0.0.300"]` is kept as the one target |
| Remote.LanTargetOnQuads | kiosk-server/server.js:1332-1340 | the corrected filter accepts a dotted address iff all numbers are at most 255, the first is below 224, and the last is neither 0 nor 255 |
| Remote.LanTarget | kiosk-server/server.js:1335-1338 | the corrected filter accepts exactly the addresses the filter as written accepts whose four numbers are at most 255 |
| Remote.TargetIps | kiosk-server/server.js:1311-1341 | the targets are the filtered requested hosts when a non-empty array is given, otherwise the filtered scanned addresses; the filter throws exactly when one candidate makes it throw; every target is a candidate passing the filter as written |
| Remote.LanTargetIsUnicast | kiosk-server/server.js:1337-1338 | an accepted address outside 127.0.0.0/8 also passes the device filter of the ARP parser |
| Remote.RestartCommand | kiosk-server/server.js:1367-1369 | the restart command is the sudo prefix followed by `reboot` |
| Remote.SshEnabledRule | kiosk-server/server.js:1424-1425 | SSH is configured when `enable` is `true` or "true", or, when `enable` is absent, when a password is given |
| Remote.SshEnabled | kiosk-server/server.js:1424-1425 | without an `enable` setting SSH is enabled iff a password was given, and `enable: false` disables it |
| Remote.EscapeQuotes | kiosk-server/server.js:1437 | escaping never shortens the key |
| Remote.EscapedQuotes | kiosk-server/server.js:1437 | every quote of the escaped key is preceded by a backslash |
| Remote.EscapeRoundTrip | kiosk-server/server.js:1437 | `Remote.UnescapeQuotes` (a reader that removes the backslash before each quote) recovers the key, so the escaping loses no information |
| Remote.EscapeInjective | kiosk-server/server.js:1437 | two keys with the same escaped text are equal |
| Remote.ConfigLines | kiosk-server/server.js:1422-1441 | the first line sets SERVER_BASE; SSH lines follow iff SSH is enabled, starting with SSH_ENABLE and including the password; a truthy non-string key is a TypeError |
| Remote.DeployCommands | kiosk-server/server.js:1446-1459 | seven commands, plus setup and reboot when asked; the fifth writes the configuration; the setup runs after it; a reboot is last and is the restart command |
| Remote.RestartHost | kiosk-server/server.js:1357-1378 | a restart is ok iff the host was reached and the command was dispatched, whatever its exit code |
| Remote.DeployHost | kiosk-server/server.js:1404-1471 | a deploy is ok iff the host was reached, the command was built and ran, and the success rule holds |
| Remote.SetupCompleteRule | kiosk-server/server.js:1465 | without setup only exit code 0 succeeds; with setup, "Setup complete!" in the output succeeds whatever the code |
| Remote.DeploySucceeded | kiosk-server/server.js:1465 | exit code 0 always succeeds, and without setup only exit code 0 does |
| Remote.Restart | kiosk-server/server.js:1345-1382 | a missing username, a throwing filter and no targets are reported before any host; a username and a non-empty target list give one result per target, in order |
| Remote.RestartEach | kiosk-server/server.js:1357-1378 | one restart result per target, in the order of the targets |
| Remote.Deploy | kiosk-server/server.js:1386-1475 | a missing username, then a missing server base, a throwing filter, no targets and a missing script are each reported exactly when they occur first; a request passing all of them gives one result per target, in order |
| Remote.DeployEach | kiosk-server/server.js:1403-1472 | one deploy result per target, in the order of the targets |
| Remote.UnreachableFails | kiosk-server/server.js:1375-1377 | a host that cannot be reached fails with the connection error in both operations |

## Left out

- Express routing, CORS, HTTPS enforcement, the admin-token checks and body parsing: the model starts at the handler bodies.
- File persistence (`loadConfigFromDisk`, `saveHeartbeatToDisk`, `saveClientConfigsToDisk` and the rest): the start-up constructors take the restored state as a parameter, and saves are not modelled. Their failures are swallowed in the source anyway.
- Timers: the 25-second keep-alive is `Push.SessionTable.KeepAlive`, and the five-minute cleanup is `Server.Cleanup`, called with the time.
- The clock, session ids (`Math.random`), `JSON.stringify`, `isValidUrl` and `isValidIp` are parameters.
- Child processes and network I/O (`arp -a`, nmap, bonjour, `local-devices`, `dns.reverse`, nbtstat, ping, LLMNR, the `oui` library, NodeSSH) are parameters. Only the decisions taken around them are modelled.
- The scan orchestration of `/api/lan/scan` is not modelled: which sources run, their timeouts, and the concurrency of hostname resolution. Hostname resolution is modelled one device at a time, through `Discovery.HostnameCache.FillHostname`. Under `Promise.all` every cache read precedes every write, and merged addresses are distinct.
- The single-device scan (`/api/lan/scan/:ip`), the ARP debug and interfaces endpoints, the client-script template rewrite, and the browser UI and monitor scripts are not part of this model.
- Vendor.CleanVendorName: the regular expressions that strip corporate suffixes are a parameter giving the length of the suffix to remove. Only the first-segment and 30-character rules are proved.
- Text.Lower: case mapping covers ASCII letters only. Lengths are counted in characters, not UTF-16 code units.
- Address.DecimalNumber: `Number(part)` is modelled for digit strings and the empty string. Other numeric notations (white space, "0x", exponents) read as NaN.
- Maps lose JavaScript's insertion order. The agent, session and configuration listings are returned as maps. `parseArpTable` and `mergeDeviceData` keep the order of first occurrence explicitly.
- Map keys are compared by value. Object identity is not modelled, so a merge key that is an object or array compares by contents.
- Discovery: an absent `devices` list reads as empty, and devices are JSON objects. A `length` property that is not a number, on a non-array `ports` or `services`, is read as no items.
- Heartbeat: `lastSeen` is a number of milliseconds, or `None` for an unreadable stored date. The enqueue `target` is a string.
- Push: a session's `alive` flag stands for its connection. The online status of a session is not modelled.
- EventStream: the reader handles LF line endings only, which is what the server writes.
- Remote: shell quoting and injection through the request values are not analysed. Commands are compared as strings.
- Remote.DeployHost: where the exit code is not 0 and no setup was asked for, the source's `ok` is the falsy `runSetup` value itself (`undefined`, `0`, `""` or `null`, kiosk-server/server.js:1465); the model records `false`.
- Values.Json: numbers are unbounded integers written in plain decimal, where JavaScript numbers are doubles. Three things are not modelled: fractional numbers (an agent id of 1.5, which the source keys as "1.5", kiosk-server/server.js:399); integers beyond 2^53, which `JSON.parse` rounds (12345678901234567890 is keyed "12345678901234567000"); and the exponent form `String` gives from 1e21 on ("1e+21"). `Heartbeat.NumericIdKey` is stated only for ids below 2^53 in magnitude.
- Remote.ConfigLines: the contract fixes the server-base line, the SSH_ENABLE line, the password line and the error case. The order of the user, key and password-authentication lines is stated only by the definition.
- Arp.LineEntry: the contract says only that an entry is a valid device address with a normalised MAC. Which match a line yields is stated by `Arp.WindowsLine` and `Arp.UnixLine`, for lines whose match starts at the first digit or the first '('.
- Discovery.IdentifyDeviceType: the contract says only that a label is a known device type. The order of the rules is stated by `Discovery.IdentifyWellTyped`, `Discovery.PrinterServiceWins`, `Discovery.RdpPortMeansWindows` and `Discovery.BareDeviceUnknown`.
- Behaviour that differs from the intended design is modelled as the code does it, with lemmas:
  - `Heartbeat.CapacityNeverRefuses`: capacity eviction never refuses a new agent, so the table can grow past 200.
  - `RateLimit.Advance`: the counter grows on refused calls too.
  - `Config.MergedOverride`: the per-address override merges the whole body, with no allow-list.
  - `Push.BroadcastReachesAllLive`: a broadcast swallows write errors and keeps the session.
  - `Push.OpenSeedsGlobalConfig` and `Server.BroadcastIgnoresOverride`: a new session, and a global push, carry the global configuration rather than the override.

## Findings

| source | as written | input that shows it | evidently intended | confidence | as-written member | corrected member |
|---|---|---|---|---|---|---|
| kiosk-server/server.js:1335-1338 | the LAN target filter only limits each number of the address to three digits, so numbers from 256 to 999 pass | hosts `["10.0.0.300"]` (or "10.999.0.1") are kept and an SSH connection is attempted | keep only IPv4 addresses, with every number at most 255, as `isValidDeviceAddress` requires | medium, not executed | Remote.LanTargetAsWritten (shown by Remote.LanFilterAcceptsBadOctet and Remote.LanTargetAsWrittenOnQuads; used by Remote.TargetIps, as the handlers do) | Remote.LanTarget (characterised by Remote.LanTargetOnQuads and related to the filter as written by its own contract) |
