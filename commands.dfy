/**
 * The command facade, reduced to what it computes itself: the argument
 * guards that decide whether a command is sent at all, and the positional
 * decoding of the reply the connection hands back.
 */
module Commands {
  import opened JsValues
  import opened Tokens

  /** What a command method does before the transport: refuse, or send a `SENTINEL` subcommand. */
  datatype Request = Rejected(reason: string) | Send(args: seq<string>)

  const MasterNotString := "master should be a string"

  /** The guard shared by `slaves`, `sentinels`, `getMasterAddress` and `reset`. */
  function NamedRequest(subcommand: string, master: Value): (r: Request)
    ensures r.Send? <==> master.Str?
    ensures r.Rejected? ==> r.reason == MasterNotString
    ensures r.Send? ==> |r.args| == 2 && r.args[0] == subcommand && r.args[1] == master.s
  {
    if !master.Str? then Rejected(MasterNotString) else Send([subcommand, master.s])
  }

  /** `slaves`: `SENTINEL slaves <master>`. */
  function SlavesRequest(master: Value): (r: Request)
    ensures r.Send? <==> master.Str?
    ensures r.Rejected? ==> r.reason == MasterNotString
    ensures r.Send? ==> r.args == ["slaves", master.s]
  {
    NamedRequest("slaves", master)
  }

  /** `sentinels`: `SENTINEL sentinels <master>`. */
  function SentinelsRequest(master: Value): (r: Request)
    ensures r.Send? <==> master.Str?
    ensures r.Rejected? ==> r.reason == MasterNotString
    ensures r.Send? ==> r.args == ["sentinels", master.s]
  {
    NamedRequest("sentinels", master)
  }

  /** `getMasterAddress`: `SENTINEL get-master-addr-by-name <master>`. */
  function GetMasterAddressRequest(master: Value): (r: Request)
    ensures r.Send? <==> master.Str?
    ensures r.Rejected? ==> r.reason == MasterNotString
    ensures r.Send? ==> r.args == ["get-master-addr-by-name", master.s]
  {
    NamedRequest("get-master-addr-by-name", master)
  }

  /** `reset`: `SENTINEL reset <master>`. */
  function ResetRequest(master: Value): (r: Request)
    ensures r.Send? <==> master.Str?
    ensures r.Rejected? ==> r.reason == MasterNotString
    ensures r.Send? ==> r.args == ["reset", master.s]
  {
    NamedRequest("reset", master)
  }

  /** `isMasterDown`: both host and port must be strings. */
  function IsMasterDownRequest(host: Value, port: Value): (r: Request)
    ensures r.Send? <==> host.Str? && port.Str?
    ensures r.Rejected? ==> r.reason == "host and port are mandatories"
    ensures r.Send? ==> r.args == ["is-master-down-by-addr", host.s, port.s]
  {
    if !host.Str? || !port.Str? then Rejected("host and port are mandatories")
    else Send(["is-master-down-by-addr", host.s, port.s])
  }

  /** `isLeader`: the same test under a different message, then the `isMasterDown` request. */
  function IsLeaderRequest(masterHost: Value, masterPort: Value): (r: Request)
    ensures r.Send? <==> masterHost.Str? && masterPort.Str?
    ensures r.Rejected? ==> r.reason == MasterNotString
    ensures r.Send? ==> r.args == ["is-master-down-by-addr", masterHost.s, masterPort.s]
  {
    if !masterHost.Str? || !masterPort.Str? then Rejected(MasterNotString)
    else IsMasterDownRequest(masterHost, masterPort)
  }

  /** A name that is not a string is refused before any command is sent, by all four named commands. */
  lemma NonStringNameSendsNothing(master: Value)
    requires !master.Str?
    ensures SlavesRequest(master) == Rejected(MasterNotString)
    ensures SentinelsRequest(master) == Rejected(MasterNotString)
    ensures GetMasterAddressRequest(master) == Rejected(MasterNotString)
    ensures ResetRequest(master) == Rejected(MasterNotString)
  {
  }

  /** A string name is sent unchanged as the subcommand's argument. */
  lemma StringNameIsSent(master: string)
    ensures SlavesRequest(Str(master)) == Send(["slaves", master])
    ensures SentinelsRequest(Str(master)) == Send(["sentinels", master])
    ensures GetMasterAddressRequest(Str(master)) == Send(["get-master-addr-by-name", master])
    ensures ResetRequest(Str(master)) == Send(["reset", master])
  {
  }

  /** A host or port that is not a string is refused; `isLeader` refuses the same inputs with its own message. */
  lemma AddressGuards(host: Value, port: Value)
    requires !host.Str? || !port.Str?
    ensures IsMasterDownRequest(host, port) == Rejected("host and port are mandatories")
    ensures IsLeaderRequest(host, port) == Rejected(MasterNotString)
  {
  }

  // Positional reply decoding.  Redis answers these commands with a flat list
  // of alternating field names and values; the client reads the values at the
  // odd positions and trusts the order.

  const MasterFields: seq<string> := ["name", "ip", "port", "runid", "flags", "pending-commands",
    "last-ok-ping-reply", "last-ping-reply", "info-refresh", "num-slaves", "num-other-sentinels", "quorum"]

  const SlaveFields: seq<string> := ["name", "ip", "port", "runid", "flags", "pending-commands",
    "last-ok-ping-reply", "last-ping-reply", "info-refresh", "master-link-down-time", "master-link-status",
    "master-host", "master-port", "slave-priority"]

  const SentinelFields: seq<string> := ["name", "ip", "port", "runid", "flags", "pending-commands",
    "last-ok-ping-reply", "last-ping-reply", "last-hello-message", "can-failover-its-master"]

  /** The reply layout: `[name0, value0, name1, value1, ...]`. */
  function Interleave(names: seq<string>, values: seq<Value>): (flat: seq<Value>)
    requires |names| == |values|
    ensures |flat| == 2 * |names|
    ensures forall i :: 0 <= i < |names| ==> At(flat, 2 * i) == Str(names[i])
    ensures forall i :: 0 <= i < |values| ==> At(flat, 2 * i + 1) == values[i]
  {
    if names == [] then []
    else
      var rest := Interleave(names[1..], values[1..]);
      assert forall i :: 1 <= i < |values| ==> rest[2 * (i - 1) + 1] == values[i];
      assert forall i :: 1 <= i < |names| ==> rest[2 * (i - 1)] == Str(names[i]);
      [Str(names[0]), values[0]] + rest
  }

  /** One entry of the `masters` reply: field `i` is the value at position `2i + 1`. */
  function DecodeMaster(master: seq<Value>): (r: Object)
    ensures forall i :: 0 <= i < |MasterFields| ==> MasterFields[i] in r && r[MasterFields[i]] == At(master, 2 * i + 1)
  {
    map["name" := At(master, 1), "ip" := At(master, 3), "port" := At(master, 5), "runid" := At(master, 7),
        "flags" := At(master, 9), "pending-commands" := At(master, 11), "last-ok-ping-reply" := At(master, 13),
        "last-ping-reply" := At(master, 15), "info-refresh" := At(master, 17), "num-slaves" := At(master, 19),
        "num-other-sentinels" := At(master, 21), "quorum" := At(master, 23)]
  }

  /** One entry of the `slaves` reply: field `i` is the value at position `2i + 1`. */
  function DecodeSlave(slave: seq<Value>): (r: Object)
    ensures forall i :: 0 <= i < |SlaveFields| ==> SlaveFields[i] in r && r[SlaveFields[i]] == At(slave, 2 * i + 1)
  {
    map["name" := At(slave, 1), "ip" := At(slave, 3), "port" := At(slave, 5), "runid" := At(slave, 7),
        "flags" := At(slave, 9), "pending-commands" := At(slave, 11), "last-ok-ping-reply" := At(slave, 13),
        "last-ping-reply" := At(slave, 15), "info-refresh" := At(slave, 17),
        "master-link-down-time" := At(slave, 19), "master-link-status" := At(slave, 21),
        "master-host" := At(slave, 23), "master-port" := At(slave, 25), "slave-priority" := At(slave, 27)]
  }

  /** One entry of the `sentinels` reply: field `i` is the value at position `2i + 1`. */
  function DecodeSentinel(sentinel: seq<Value>): (r: Object)
    ensures forall i :: 0 <= i < |SentinelFields| ==> SentinelFields[i] in r && r[SentinelFields[i]] == At(sentinel, 2 * i + 1)
  {
    map["name" := At(sentinel, 1), "ip" := At(sentinel, 3), "port" := At(sentinel, 5), "runid" := At(sentinel, 7),
        "flags" := At(sentinel, 9), "pending-commands" := At(sentinel, 11),
        "last-ok-ping-reply" := At(sentinel, 13), "last-ping-reply" := At(sentinel, 15),
        "last-hello-message" := At(sentinel, 17), "can-failover-its-master" := At(sentinel, 19)]
  }

  /** `infoMasters.map(...)`: one record per entry, in reply order. */
  function Masters(infoMasters: seq<seq<Value>>): (data: seq<Object>)
    ensures |data| == |infoMasters|
    ensures forall i :: 0 <= i < |data| ==> data[i] == DecodeMaster(infoMasters[i])
  {
    seq(|infoMasters|, i requires 0 <= i < |infoMasters| => DecodeMaster(infoMasters[i]))
  }

  /** `infoSlaves.map(...)`: one record per entry, in reply order. */
  function Slaves(infoSlaves: seq<seq<Value>>): (data: seq<Object>)
    ensures |data| == |infoSlaves|
    ensures forall i :: 0 <= i < |data| ==> data[i] == DecodeSlave(infoSlaves[i])
  {
    seq(|infoSlaves|, i requires 0 <= i < |infoSlaves| => DecodeSlave(infoSlaves[i]))
  }

  /** `infoSlaves.map(...)` in `sentinels`: one record per entry, in reply order. */
  function Sentinels(infoSentinels: seq<seq<Value>>): (data: seq<Object>)
    ensures |data| == |infoSentinels|
    ensures forall i :: 0 <= i < |data| ==> data[i] == DecodeSentinel(infoSentinels[i])
  {
    seq(|infoSentinels|, i requires 0 <= i < |infoSentinels| => DecodeSentinel(infoSentinels[i]))
  }

  /** A master entry in the layout the client assumes decodes to its own values, field by field. */
  lemma MasterReplyRoundTrip(values: seq<Value>)
    requires |values| == |MasterFields|
    ensures DecodeMaster(Interleave(MasterFields, values)) ==
      map["name" := values[0], "ip" := values[1], "port" := values[2], "runid" := values[3],
        "flags" := values[4], "pending-commands" := values[5], "last-ok-ping-reply" := values[6],
        "last-ping-reply" := values[7], "info-refresh" := values[8], "num-slaves" := values[9],
        "num-other-sentinels" := values[10], "quorum" := values[11]]
  {
  }

  /** A slave entry in the layout the client assumes decodes to its own values, field by field. */
  lemma SlaveReplyRoundTrip(values: seq<Value>)
    requires |values| == |SlaveFields|
    ensures DecodeSlave(Interleave(SlaveFields, values)) ==
      map["name" := values[0], "ip" := values[1], "port" := values[2], "runid" := values[3],
        "flags" := values[4], "pending-commands" := values[5], "last-ok-ping-reply" := values[6],
        "last-ping-reply" := values[7], "info-refresh" := values[8], "master-link-down-time" := values[9],
        "master-link-status" := values[10], "master-host" := values[11], "master-port" := values[12],
        "slave-priority" := values[13]]
  {
  }

  /** A sentinel entry in the layout the client assumes decodes to its own values, field by field. */
  lemma SentinelReplyRoundTrip(values: seq<Value>)
    requires |values| == |SentinelFields|
    ensures DecodeSentinel(Interleave(SentinelFields, values)) ==
      map["name" := values[0], "ip" := values[1], "port" := values[2], "runid" := values[3],
        "flags" := values[4], "pending-commands" := values[5], "last-ok-ping-reply" := values[6],
        "last-ping-reply" := values[7], "last-hello-message" := values[8],
        "can-failover-its-master" := values[9]]
  {
  }

  /** Every decoded entry carries exactly the documented field names, whatever the reply holds. */
  lemma DecodedKeys(entry: seq<Value>)
    ensures forall f :: f in DecodeMaster(entry) <==> f in MasterFields
    ensures forall f :: f in DecodeSlave(entry) <==> f in SlaveFields
    ensures forall f :: f in DecodeSentinel(entry) <==> f in SentinelFields
  {
  }

  /** The `is-master-down-by-addr` reply: down exactly when element 0 is the integer 1. */
  function DecodeMasterDown(masterDown: seq<Value>): (r: Object)
    ensures r.Keys == {"isDown", "leaderSentinel"}
    ensures r["isDown"] == Bool(|masterDown| > 0 && masterDown[0] == Num(1))
    ensures r["leaderSentinel"] == At(masterDown, 1)
  {
    map["isDown" := Bool(At(masterDown, 0) == Num(1)), "leaderSentinel" := At(masterDown, 1)]
  }

  /** The reply Redis sends, `[1 or 0, leader run id]`, decodes to the flag and the run id. */
  lemma MasterDownRoundTrip(down: bool, leader: string)
    ensures DecodeMasterDown([Num(if down then 1 else 0), Str(leader)]) ==
      map["isDown" := Bool(down), "leaderSentinel" := Str(leader)]
  {
  }

  /** The comparison is strict: a string "1", or any integer other than 1, reads as not down. */
  lemma MasterDownIsStrict(first: Value, rest: seq<Value>)
    requires first != Num(1)
    ensures DecodeMasterDown([first] + rest)["isDown"] == Bool(false)
  {
  }

  /** The `get-master-addr-by-name` reply: `[ip, port]`. */
  function DecodeMasterAddress(infoMaster: seq<Value>): (r: Object)
    ensures r.Keys == {"ip", "port"}
    ensures r["ip"] == At(infoMaster, 0) && r["port"] == At(infoMaster, 1)
  {
    map["ip" := At(infoMaster, 0), "port" := At(infoMaster, 1)]
  }

  /** An address reply decodes to its two strings; a shorter one leaves them `undefined`. */
  lemma MasterAddressRoundTrip(ip: string, port: string)
    ensures DecodeMasterAddress([Str(ip), Str(port)]) == map["ip" := Str(ip), "port" := Str(port)]
    ensures DecodeMasterAddress([]) == map["ip" := Undefined, "port" := Undefined]
  {
  }

  /** The `reset` reply: success exactly when the integer reply is 1. */
  function ResetSucceeded(res: Value): (ok: bool)
    ensures ok <==> res.Num? && res.n == 1
  {
    res == Num(1)
  }

  /** Redis answers `reset` with the number of masters it reset: only a count of exactly one reads as success. */
  lemma ResetCount(n: int)
    ensures ResetSucceeded(Num(n)) <==> n == 1
    ensures !ResetSucceeded(Str("1"))
  {
  }

  /** JavaScript's string conversion, as `'run_id:' + value` applies it. */
  function ToJsString(v: Value): (s: string)
    ensures v.Undefined? ==> s == "undefined"
    ensures v.Str? ==> s == v.s
    ensures v.Num? && v.n >= 0 ==> IsDecimal(s) && DigitsValue(s) == v.n
    ensures v.Num? && v.n < 0 ==> |s| >= 2 && s[0] == '-' && IsDecimal(s[1..]) && DigitsValue(s[1..]) == -v.n
    ensures v.Bool? ==> s == (if v.b then "true" else "false")
    ensures v.Obj? ==> s == "[object Object]"
  {
    match v
    case Undefined => "undefined"
    case Str(s) => s
    case Num(n) =>
      if n < 0 then DecimalValue(-n); assert ("-" + Decimal(-n))[1..] == Decimal(-n); "-" + Decimal(-n)
      else DecimalValue(n); Decimal(n)
    case Bool(b) => if b then "true" else "false"
    case Obj(_) => "[object Object]"
  }

  /** One or more decimal digits, with no leading zero unless the text is `"0"` itself. */
  predicate IsDecimal(d: string)
  {
    |d| >= 1 && (forall k :: 0 <= k < |d| ==> '0' <= d[k] <= '9') && (d[0] == '0' ==> |d| == 1)
  }

  /** The decimal digits of a natural number, as JavaScript writes them: no leading zero. */
  function Decimal(n: nat): (d: string)
    ensures IsDecimal(d)
    ensures n > 0 ==> d[0] != '0'
  {
    if n < 10 then [(n as char) + '0'] else Decimal(n / 10) + [((n % 10) as char) + '0']
  }

  /** The number a string of decimal digits denotes, read most significant digit first. */
  function DigitsValue(d: string): nat
  {
    if d == [] then 0
    else if '0' <= d[|d| - 1] <= '9' then DigitsValue(d[..|d| - 1]) * 10 + (d[|d| - 1] - '0') as int
    else DigitsValue(d[..|d| - 1]) * 10
  }

  /** `Decimal` writes exactly the number it is given. */
  lemma {:induction false} DecimalValue(n: nat)
    ensures DigitsValue(Decimal(n)) == n
    decreases n
  {
    if n >= 10 {
      var d := Decimal(n);
      assert d[..|d| - 1] == Decimal(n / 10);
      DecimalValue(n / 10);
    }
  }

  /** The last step of `isLeader`: whether the INFO text mentions the leader's run id. */
  function IsLeaderDecision(info: string, leaderSentinel: Value): (leader: bool)
    ensures leader <==> exists j :: 0 <= j <= |info| && OccursAt(info, "run_id:" + ToJsString(leaderSentinel), j)
  {
    Contains(info, "run_id:" + ToJsString(leaderSentinel));
    IndexOf(info, "run_id:" + ToJsString(leaderSentinel)) != -1
  }
}
