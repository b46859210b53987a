# node-sentinel notification decoder, in Dafny

A model of the core of `node-sentinel`, a Node.js client for Redis Sentinel. The client keeps one
connection for commands and one that pattern-subscribes to every channel. Sentinel publishes a
notification on a channel such as `+sdown` or `+switch-master`, with a space-separated payload. The
handler decodes the payload by token position and re-emits it under a stable application event
name such as `instance-sdown` or `failover-status`. The model covers:

- `tokens.dfy` (`Tokens`): JavaScript's `split(' ')`, its inverse `join(' ')`, and `indexOf`.
- `js_values.dfy` (`JsValues`): the JavaScript values the client handles. A plain object is a
  `map` from property name to value. A property assigned `undefined` stays a key of the object.
- `notifications.dfy` (`Notifications`): `_parseInstanceDetails` and `_parseSwitchMasterDetails`,
  with one lemma per marker branch and round trips from Sentinel's payload layouts.
- `payload_examples.dfy` (`PayloadExamples`): sample payloads in the layouts Sentinel publishes, given
  by their tokens, decoded.
- `channels.dfy` (`Channels`): the `switch(ch)` classifier (`Classify`), the channel table as a
  lookup (`Table`), and the proof that the two agree on every channel.
- `dispatch.dfy` (`Dispatch`): the handler as a method of a `Sentinel` class. `emit` appends to
  the `emitted` log. `Emissions` says what a stream of messages emits.
- `commands.dfy` (`Commands`): the string-argument guards of the command methods and the
  positional decoding of their replies.

Facts about the code that the model keeps:

- The parsers never fail. A missing token reads as `undefined`, even when `+switch-master`
  carries fewer than five tokens.
- The switch has 31 channels. Eleven of them map to `failover-status` and four to
  `slave-reconf-status`.
- The `#duplicate` marker adds the property `duplicateof`, spelled without a hyphen.

## Model

| member | source | states |
|---|---|---|
| JsValues.At | lib/sentinel.js:216 | `a[i]` on an array is element `i`, or `undefined` past the end |
| JsValues.TokenAt | lib/sentinel.js:40-43 | `aux[i]` on the tokens of a payload is token `i` as a string, or `undefined` past the end |
| Tokens.Split | lib/sentinel.js:38 | `split(' ')` always yields at least one token, and no token contains a space |
| Tokens.JoinSplit | lib/sentinel.js:38 | joining the split tokens with single spaces gives back the payload, including empty tokens from adjacent spaces |
| Tokens.SplitJoin | lib/sentinel.js:58 | splitting a join of one or more space-free tokens gives back exactly those tokens |
| Tokens.SplitLength | lib/sentinel.js:38 | a payload splits into one token more than it has spaces |
| Tokens.IndexOf | lib/sentinel.js:323 | `indexOf` returns the first position where the text occurs, or -1 when it occurs nowhere |
| Tokens.Contains | lib/sentinel.js:323 | `indexOf(...) !== -1` holds exactly when the text occurs at some position |
| Notifications.ParseInstanceDetails | lib/sentinel.js:37-55 | the decoded object always carries `type`, `name`, `ip` and `port` |
| Notifications.BaseFields | lib/sentinel.js:38-44 | `type`, `name`, `ip`, `port` are tokens 0-3, or `undefined` where the payload is shorter |
| Notifications.InstanceKeys | lib/sentinel.js:46-54 | the object's keys are the four base keys plus exactly the extras selected by the marker in token 4 |
| Notifications.ExtrasExclusive | lib/sentinel.js:46-53 | two markers that add a common property are the same marker, and no marker overwrites a base field |
| Notifications.AtMostOneExtension | lib/sentinel.js:46-54 | at most one marker branch fires: whichever extra property is present, the others are absent |
| Notifications.UnknownMarkerIsPlain | lib/sentinel.js:39-54 | an absent or unrecognised token 4 yields exactly the four base fields |
| Notifications.StartingMarker | lib/sentinel.js:46 | with `#starting`, the only extra is `starting-millis`, which is token 6 |
| Notifications.QuorumMarker | lib/sentinel.js:47 | with `#quorum`, the only extra is `quorum`, which is token 5 |
| Notifications.DuplicateMarker | lib/sentinel.js:48 | with `#duplicate`, the only extra is `duplicateof`, which is `{name: token 6, runid: token 8}` |
| Notifications.MasterMarker | lib/sentinel.js:49-53 | with `@`, the extras are `master-name`, `master-ip` and `master-port`, which are tokens 5, 6 and 7 |
| Notifications.ParseSwitchMasterDetails | lib/sentinel.js:57-68 | the switch-master object has exactly the keys `master-name`, `old-ip`, `old-port`, `new-ip`, `new-port` |
| Notifications.SwitchMasterFields | lib/sentinel.js:58-65 | the five switch-master fields are tokens 0-4, or `undefined` when a token is missing |
| Notifications.PlainRoundTrip | lib/sentinel.js:37-55 | `<type> <name> <ip> <port>` decodes to exactly those four strings |
| Notifications.QuorumRoundTrip | lib/sentinel.js:47 | `... #quorum <q>` decodes to the base fields plus `quorum = q` and nothing else |
| Notifications.StartingRoundTrip | lib/sentinel.js:46 | `... #starting <x> <millis>` decodes to the base fields plus `starting-millis = millis` |
| Notifications.DuplicateRoundTrip | lib/sentinel.js:48 | `... #duplicate <x> <name> <y> <runid>` decodes to the base fields plus `duplicateof = {name, runid}` |
| Notifications.MasterRoundTrip | lib/sentinel.js:49-53 | `... @ <master> <ip> <port>` decodes to the base fields plus the master's name, ip and port |
| Notifications.SwitchMasterRoundTrip | lib/sentinel.js:57-67 | `<master> <old-ip> <old-port> <new-ip> <new-port>` decodes field by field |
| Notifications.EmptyPayload | lib/sentinel.js:38-44 | an empty payload still decodes: `type` is the empty string and the other base fields are `undefined` |
| PayloadExamples.SlaveOfMasterExample | lib/sentinel.js:49-53 | the payload given by the tokens of `slave 127.0.0.1:6380 127.0.0.1 6380 @ mymaster 127.0.0.1 6379` gives master mymaster / 127.0.0.1 / 6379 |
| PayloadExamples.QuorumExample | lib/sentinel.js:47 | the payload given by the tokens of `master mymaster 127.0.0.1 6379 #quorum 2/2` gives the base fields and `quorum = "2/2"`, the raw token |
| PayloadExamples.SwitchMasterExample | lib/sentinel.js:57-67 | the payload given by the tokens of `mymaster 127.0.0.1 6379 127.0.0.1 6380` gives old port 6379 and new port 6380 |
| Channels.Classify | lib/sentinel.js:70-196 | every event carries `details`, and otherwise only `status` |
| Channels.ClassifyFollowsTable | lib/sentinel.js:70-196 | for every channel, the switch produces the event the channel table describes, and nothing for a channel the table lacks |
| Channels.KnownChannelsEmit | lib/sentinel.js:70-196 | a channel yields an event exactly when it is one of the 31 known channels; any other channel yields none |
| Channels.OnlySwitchMasterParsesSwitch | lib/sentinel.js:164-166 | among the known channels, `+switch-master` is the only one that uses the switch-master parser |
| Channels.StatusOnPhaseEvents | lib/sentinel.js:79-194 | a channel carries a status label exactly when its event is `failover-status` or `slave-reconf-status` |
| Channels.ClassifiedEvent | lib/sentinel.js:70-196 | for a known channel, the event has the table's name, has `status` exactly when the table gives a label, and has details from the parser the channel selects |
| Dispatch.EmittedBy | lib/sentinel.js:35-196 | one message emits at most one event, and emits one exactly when its channel is known |
| Dispatch.EmissionsAppend | lib/sentinel.js:35-196 | the handler keeps no state between messages: a stream's events are its parts' events, in delivery order |
| Dispatch.EmissionsCount | lib/sentinel.js:70-196 | a stream emits exactly one event per message on a known channel |
| Dispatch.Sentinel.constructor | lib/sentinel.js:5-13 | a new client records its host and port and has emitted nothing |
| Dispatch.Sentinel.Emit | lib/sentinel.js:73 | `emit` appends the event to the log and changes nothing else |
| Dispatch.Sentinel.Handle | lib/sentinel.js:35-196 | handling a message appends exactly the events that message emits, and the pattern plays no part |
| Commands.NamedRequest | lib/sentinel.js:234-238 | a command is sent exactly when the master name is a string, with the name as its argument; otherwise it is rejected with "master should be a string" |
| Commands.SlavesRequest | lib/sentinel.js:235-238 | `slaves` sends `slaves <master>` exactly when the master is a string, and otherwise is rejected with "master should be a string" |
| Commands.SentinelsRequest | lib/sentinel.js:263-266 | `sentinels` sends `sentinels <master>` exactly when the master is a string, and otherwise is rejected with "master should be a string" |
| Commands.GetMasterAddressRequest | lib/sentinel.js:296-299 | `getMasterAddress` sends `get-master-addr-by-name <master>` exactly when the master is a string, and otherwise is rejected with "master should be a string" |
| Commands.ResetRequest | lib/sentinel.js:306-309 | `reset` sends `reset <master>` exactly when the master is a string, and otherwise is rejected with "master should be a string" |
| Commands.NonStringNameSendsNothing | lib/sentinel.js:234-312 | `slaves`, `sentinels`, `getMasterAddress` and `reset` send nothing when the master is not a string |
| Commands.StringNameIsSent | lib/sentinel.js:234-312 | for a string name, each of the four sends its own subcommand with the name unchanged |
| Commands.IsMasterDownRequest | lib/sentinel.js:286-289 | a request is sent exactly when both host and port are strings, and it is `is-master-down-by-addr <host> <port>`; otherwise it is rejected with "host and port are mandatories" |
| Commands.IsLeaderRequest | lib/sentinel.js:315-319 | `isLeader` goes on exactly when both host and port are strings, and then sends the `is-master-down-by-addr <host> <port>` request of `isMasterDown`; otherwise it is rejected with "master should be a string" |
| Commands.AddressGuards | lib/sentinel.js:286-319 | a non-string host or port is rejected, with "host and port are mandatories" or, for `isLeader`, "master should be a string" |
| Commands.Interleave | lib/sentinel.js:214-228 | in the reply layout the client assumes, names sit at the even positions and values at the odd positions |
| Commands.DecodeMaster | lib/sentinel.js:214-228 | field `i` of a master record is the reply value at position `2i + 1`, or `undefined` past the end |
| Commands.DecodeSlave | lib/sentinel.js:241-256 | field `i` of a slave record is the reply value at position `2i + 1`, or `undefined` past the end |
| Commands.DecodeSentinel | lib/sentinel.js:269-280 | field `i` of a sentinel record is the reply value at position `2i + 1`, or `undefined` past the end |
| Commands.Masters | lib/sentinel.js:214-229 | one decoded record per reply entry, in reply order |
| Commands.Slaves | lib/sentinel.js:240-257 | one decoded record per reply entry, in reply order |
| Commands.Sentinels | lib/sentinel.js:268-281 | one decoded record per reply entry, in reply order |
| Commands.MasterReplyRoundTrip | lib/sentinel.js:214-228 | a master entry in the layout the client assumes decodes to its own 12 values under their own names |
| Commands.SlaveReplyRoundTrip | lib/sentinel.js:240-256 | a slave entry in the layout the client assumes decodes to its own 14 values under their own names |
| Commands.SentinelReplyRoundTrip | lib/sentinel.js:268-280 | a sentinel entry in the layout the client assumes decodes to its own 10 values under their own names |
| Commands.DecodedKeys | lib/sentinel.js:214-280 | every decoded entry has exactly the documented field names, whatever the reply holds |
| Commands.DecodeMasterDown | lib/sentinel.js:291 | `isDown` is true exactly when element 0 is the integer 1; `leaderSentinel` is element 1 or `undefined` |
| Commands.MasterDownRoundTrip | lib/sentinel.js:291 | the reply `[1 or 0, run id]` decodes to the down flag and the run id |
| Commands.MasterDownIsStrict | lib/sentinel.js:291 | under strict equality, any other first element, such as the string "1", reads as not down |
| Commands.DecodeMasterAddress | lib/sentinel.js:301 | the address record has exactly the keys `ip` and `port`, holding reply elements 0 and 1, or `undefined` past the end |
| Commands.MasterAddressRoundTrip | lib/sentinel.js:301 | `[ip, port]` decodes to those two strings, and an empty reply gives two `undefined` fields |
| Commands.ResetSucceeded | lib/sentinel.js:311 | `res === 1` is true only for the integer reply 1 |
| Commands.ResetCount | lib/sentinel.js:311 | `reset` reports success exactly when the reply is the integer 1 |
| Commands.ToJsString | lib/sentinel.js:323 | `'run_id:' + v` spells `undefined`, a string, a boolean and a plain object as JavaScript does, and an integer as the decimal digits that denote it, with no leading zero and a leading `-` when negative |
| Commands.Decimal | lib/sentinel.js:323 | a non-negative integer is written as one or more decimal digits with no leading zero except for 0 itself (their value is given by `DecimalValue`) |
| Commands.DecimalValue | lib/sentinel.js:323 | the decimal text that string conversion gives a non-negative integer denotes that integer |
| Commands.IsLeaderDecision | lib/sentinel.js:323 | the sentinel is leader exactly when `run_id:<leader>` occurs somewhere in the INFO text |

## Left out

- Client construction, the two Redis connections, `psubscribe('*')` and the `console.log` error
  handlers (lib/sentinel.js:15-26) are network I/O and logging. The constructor keeps only host and port.
- The `EventEmitter` inheritance and the order in which listeners run (lib/sentinel.js:10, 31)
  belong to Node's library. `emit` is modelled as appending to the `emitted` log.
- `ping` (lib/sentinel.js:200-207) only forwards the transport's answer, so nothing of it is modelled.
- `send_command`, `info` and the callback plumbing (`if(err) return callback(err)`) are a foreign
  transport. The model states which command is sent, or that none is, and how a given reply decodes.
- `isLeader` chains two asynchronous calls. Only its guard and its final substring test are modelled.
- Replies are typed as Redis delivers them: a list of flat entries for `masters`, `slaves` and
  `sentinels`, a flat list for `is-master-down-by-addr` and `get-master-addr-by-name`, and one value
  for `reset`. Other shapes are not modelled. A null reply throws where the code reads into it:
  `.map` and the entry reads of `masters`, `slaves` and `sentinels` (lib/sentinel.js:214, 240, 268),
  `masterDown[0]` in `isMasterDown` (lib/sentinel.js:291), `infoMaster[0]` in `getMasterAddress`
  (lib/sentinel.js:301), where Redis answers nil for an unknown master, and `info.indexOf` in
  `isLeader` (lib/sentinel.js:323). `reset` never throws: `res === 1` (lib/sentinel.js:311) is
  simply false for null or any other value. Elsewhere a string entry is indexed character by
  character, and a numeric entry gives `undefined` fields.
- JavaScript numbers appear only as Redis integer replies. They are modelled as `int`, with no floating point.
- `Emissions` and its lemmas are about the handler as a function on a message stream. No method
  delivers a stream; `Sentinel.Handle` appends `EmittedBy` of one message, and `Emissions` is the
  concatenation of those in delivery order, so the stream lemmas describe repeated calls only through
  that definition.
- Tokens.IndexOf: counts positions in Unicode scalar values, where JavaScript counts UTF-16 code
  units. Only the test `!== -1` (lib/sentinel.js:323) uses the result, so the decision is the same.
- The field order of `masters`, `slaves` and `sentinels` entries is the one the client assumes
  (lib/sentinel.js:216-279). Sentinel versions that send other fields at those positions get them
  under the wrong names; the model proves decoding only for the assumed layout.
- JavaScript objects keep their keys in insertion order (`type`, `name`, `ip`, `port`, then the
  extras), visible through `Object.keys` or `JSON.stringify`. A `map` has no order, so the model does
  not capture it; the client itself never relies on that order.
- ToJsString: the `Num` case writes an integer in decimal. Redis sends the leader's run id as a bulk
  string, so this case is there only for completeness.
- Channel table: `Classify` and `Table` are shown to agree. No lemma states that two channels never
  share both an event name and a status label, although the table has no such pair.
