/**
 * Decoding of the free-text payload that Sentinel publishes with each
 * notification: a space-separated line whose tokens are copied into a
 * fresh object by fixed position.  Missing tokens read as `undefined`;
 * nothing here fails.
 */
module Notifications {
  import opened JsValues
  import opened Tokens

  /** The four properties every instance-details object carries. */
  const BaseKeys: set<string> := {"type", "name", "ip", "port"}

  /** The properties that the marker in token 4 adds, if it is one of the four known markers. */
  function ExtraKeys(marker: Value): set<string>
  {
    if marker == Str("#starting") then {"starting-millis"}
    else if marker == Str("#quorum") then {"quorum"}
    else if marker == Str("#duplicate") then {"duplicateof"}
    else if marker == Str("@") then {"master-name", "master-ip", "master-port"}
    else {}
  }

  /**
   * `_parseInstanceDetails`: tokens 0-3 become `type`, `name`, `ip`, `port`;
   * token 4 is a marker that may add properties read from later tokens.
   * The four marker tests are separate `if`s, applied one after another.
   */
  function ParseInstanceDetails(details: string): (ret: Object)
    ensures BaseKeys <= ret.Keys
  {
    var aux := Split(details);
    var base := map["type" := TokenAt(aux, 0), "name" := TokenAt(aux, 1),
                    "ip" := TokenAt(aux, 2), "port" := TokenAt(aux, 3)];
    var marker := TokenAt(aux, 4);
    var r1 := if marker == Str("#starting") then base["starting-millis" := TokenAt(aux, 6)] else base;
    var r2 := if marker == Str("#quorum") then r1["quorum" := TokenAt(aux, 5)] else r1;
    var r3 := if marker == Str("#duplicate")
      then r2["duplicateof" := Obj(map["name" := TokenAt(aux, 6), "runid" := TokenAt(aux, 8)])]
      else r2;
    var r4 := if marker == Str("@")
      then r3["master-name" := TokenAt(aux, 5)]["master-ip" := TokenAt(aux, 6)]["master-port" := TokenAt(aux, 7)]
      else r3;
    r4
  }

  /** `_parseSwitchMasterDetails`: tokens 0-4 become the old and new address of a master. */
  function ParseSwitchMasterDetails(details: string): (ret: Object)
    ensures ret.Keys == {"master-name", "old-ip", "old-port", "new-ip", "new-port"}
  {
    var aux := Split(details);
    map["master-name" := TokenAt(aux, 0), "old-ip" := TokenAt(aux, 1), "old-port" := TokenAt(aux, 2),
        "new-ip" := TokenAt(aux, 3), "new-port" := TokenAt(aux, 4)]
  }

  /** The base fields are tokens 0-3 of the split payload, `undefined` where the payload is too short. */
  lemma BaseFields(details: string)
    ensures var ret, aux := ParseInstanceDetails(details), Split(details);
      ret["type"] == TokenAt(aux, 0) && ret["name"] == TokenAt(aux, 1) &&
      ret["ip"] == TokenAt(aux, 2) && ret["port"] == TokenAt(aux, 3)
  {
  }

  /** The object holds the base fields plus exactly the extras its marker selects. */
  lemma InstanceKeys(details: string)
    ensures ParseInstanceDetails(details).Keys == BaseKeys + ExtraKeys(TokenAt(Split(details), 4))
  {
  }

  /** The four groups of extra properties are pairwise disjoint and never touch the base fields. */
  lemma ExtrasExclusive(m1: Value, m2: Value)
    requires ExtraKeys(m1) * ExtraKeys(m2) != {}
    ensures m1 == m2 && ExtraKeys(m1) * BaseKeys == {}
  {
  }

  /** At most one marker branch fires: whichever extra property is present, the others are absent. */
  lemma AtMostOneExtension(details: string)
    ensures var ret := ParseInstanceDetails(details);
      ("starting-millis" in ret ==> "quorum" !in ret && "duplicateof" !in ret && "master-name" !in ret) &&
      ("quorum" in ret ==> "duplicateof" !in ret && "master-name" !in ret) &&
      ("duplicateof" in ret ==> "master-name" !in ret)
  {
    InstanceKeys(details);
  }

  /** An absent or unrecognised marker leaves exactly the four base fields. */
  lemma UnknownMarkerIsPlain(details: string)
    requires TokenAt(Split(details), 4) !in {Str("#starting"), Str("#quorum"), Str("#duplicate"), Str("@")}
    ensures var aux := Split(details);
      ParseInstanceDetails(details) ==
        map["type" := TokenAt(aux, 0), "name" := TokenAt(aux, 1), "ip" := TokenAt(aux, 2), "port" := TokenAt(aux, 3)]
  {
  }

  /** `#starting` adds `starting-millis`, read from token 6 (token 5 is skipped). */
  lemma StartingMarker(details: string)
    requires TokenAt(Split(details), 4) == Str("#starting")
    ensures var ret := ParseInstanceDetails(details);
      ret.Keys == BaseKeys + {"starting-millis"} && ret["starting-millis"] == TokenAt(Split(details), 6)
  {
  }

  /** `#quorum` adds `quorum`, read from token 5. */
  lemma QuorumMarker(details: string)
    requires TokenAt(Split(details), 4) == Str("#quorum")
    ensures var ret := ParseInstanceDetails(details);
      ret.Keys == BaseKeys + {"quorum"} && ret["quorum"] == TokenAt(Split(details), 5)
  {
  }

  /** `#duplicate` adds `duplicateof`, an object of tokens 6 and 8. */
  lemma DuplicateMarker(details: string)
    requires TokenAt(Split(details), 4) == Str("#duplicate")
    ensures var ret, aux := ParseInstanceDetails(details), Split(details);
      ret.Keys == BaseKeys + {"duplicateof"} &&
      ret["duplicateof"] == Obj(map["name" := TokenAt(aux, 6), "runid" := TokenAt(aux, 8)])
  {
  }

  /** `@` adds the address of the instance's master, tokens 5-7. */
  lemma MasterMarker(details: string)
    requires TokenAt(Split(details), 4) == Str("@")
    ensures var ret, aux := ParseInstanceDetails(details), Split(details);
      ret.Keys == BaseKeys + {"master-name", "master-ip", "master-port"} &&
      ret["master-name"] == TokenAt(aux, 5) && ret["master-ip"] == TokenAt(aux, 6) &&
      ret["master-port"] == TokenAt(aux, 7)
  {
  }

  /** The switch-master fields are tokens 0-4 of the split payload. */
  lemma SwitchMasterFields(details: string)
    ensures var ret, aux := ParseSwitchMasterDetails(details), Split(details);
      ret["master-name"] == TokenAt(aux, 0) && ret["old-ip"] == TokenAt(aux, 1) &&
      ret["old-port"] == TokenAt(aux, 2) && ret["new-ip"] == TokenAt(aux, 3) &&
      ret["new-port"] == TokenAt(aux, 4)
  {
  }

  // Round trips: a payload laid out the way Sentinel formats it decodes to its own tokens.

  /** `<type> <name> <ip> <port>` decodes to exactly the four base fields. */
  lemma PlainRoundTrip(ty: string, name: string, ip: string, port: string)
    requires AllWords([ty, name, ip, port])
    ensures ParseInstanceDetails(Join([ty, name, ip, port])) ==
      map["type" := Str(ty), "name" := Str(name), "ip" := Str(ip), "port" := Str(port)]
  {
    SplitJoin([ty, name, ip, port]);
  }

  /** `<type> <name> <ip> <port> #quorum <q>` decodes to the base fields and `quorum`. */
  lemma QuorumRoundTrip(ty: string, name: string, ip: string, port: string, q: string)
    requires AllWords([ty, name, ip, port, q])
    ensures ParseInstanceDetails(Join([ty, name, ip, port, "#quorum", q])) ==
      map["type" := Str(ty), "name" := Str(name), "ip" := Str(ip), "port" := Str(port), "quorum" := Str(q)]
  {
    var ws, ts := [ty, name, ip, port, q], [ty, name, ip, port, "#quorum", q];
    assert IsWord(ws[0]) && IsWord(ws[1]) && IsWord(ws[2]) && IsWord(ws[3]) && IsWord(ws[4]);
    assert IsWord("#quorum");
    SplitJoin(ts);
  }

  /** `<type> <name> <ip> <port> #starting <x> <millis>` decodes to the base fields and `starting-millis`. */
  lemma StartingRoundTrip(ty: string, name: string, ip: string, port: string, x: string, millis: string)
    requires AllWords([ty, name, ip, port, x, millis])
    ensures ParseInstanceDetails(Join([ty, name, ip, port, "#starting", x, millis])) ==
      map["type" := Str(ty), "name" := Str(name), "ip" := Str(ip), "port" := Str(port),
          "starting-millis" := Str(millis)]
  {
    var ws, ts := [ty, name, ip, port, x, millis], [ty, name, ip, port, "#starting", x, millis];
    assert IsWord(ws[0]) && IsWord(ws[1]) && IsWord(ws[2]) && IsWord(ws[3]) && IsWord(ws[4]) && IsWord(ws[5]);
    assert IsWord("#starting");
    SplitJoin(ts);
  }

  /** `<type> <name> <ip> <port> #duplicate <x> <dupName> <y> <runid>` decodes to the base fields and `duplicateof`. */
  lemma DuplicateRoundTrip(ty: string, name: string, ip: string, port: string,
                           x: string, dupName: string, y: string, runid: string)
    requires AllWords([ty, name, ip, port, x, dupName, y, runid])
    ensures ParseInstanceDetails(Join([ty, name, ip, port, "#duplicate", x, dupName, y, runid])) ==
      map["type" := Str(ty), "name" := Str(name), "ip" := Str(ip), "port" := Str(port),
          "duplicateof" := Obj(map["name" := Str(dupName), "runid" := Str(runid)])]
  {
    var ws, ts := [ty, name, ip, port, x, dupName, y, runid], [ty, name, ip, port, "#duplicate", x, dupName, y, runid];
    assert IsWord(ws[0]) && IsWord(ws[1]) && IsWord(ws[2]) && IsWord(ws[3]);
    assert IsWord(ws[4]) && IsWord(ws[5]) && IsWord(ws[6]) && IsWord(ws[7]);
    assert IsWord("#duplicate");
    SplitJoin(ts);
  }

  /** `<type> <name> <ip> <port> @ <master> <mip> <mport>` decodes to the base fields and the master's address. */
  lemma MasterRoundTrip(ty: string, name: string, ip: string, port: string,
                        master: string, mip: string, mport: string)
    requires AllWords([ty, name, ip, port, master, mip, mport])
    ensures ParseInstanceDetails(Join([ty, name, ip, port, "@", master, mip, mport])) ==
      map["type" := Str(ty), "name" := Str(name), "ip" := Str(ip), "port" := Str(port),
          "master-name" := Str(master), "master-ip" := Str(mip), "master-port" := Str(mport)]
  {
    var ws, ts := [ty, name, ip, port, master, mip, mport], [ty, name, ip, port, "@", master, mip, mport];
    assert IsWord(ws[0]) && IsWord(ws[1]) && IsWord(ws[2]) && IsWord(ws[3]);
    assert IsWord(ws[4]) && IsWord(ws[5]) && IsWord(ws[6]);
    assert IsWord("@");
    SplitJoin(ts);
  }

  /** `<master> <old-ip> <old-port> <new-ip> <new-port>` decodes field by field. */
  lemma SwitchMasterRoundTrip(master: string, oldIp: string, oldPort: string, newIp: string, newPort: string)
    requires AllWords([master, oldIp, oldPort, newIp, newPort])
    ensures ParseSwitchMasterDetails(Join([master, oldIp, oldPort, newIp, newPort])) ==
      map["master-name" := Str(master), "old-ip" := Str(oldIp), "old-port" := Str(oldPort),
          "new-ip" := Str(newIp), "new-port" := Str(newPort)]
  {
    SplitJoin([master, oldIp, oldPort, newIp, newPort]);
  }

  /** An empty payload still yields the four base fields, all `undefined` except an empty `type`. */
  lemma EmptyPayload()
    ensures ParseInstanceDetails("") ==
      map["type" := Str(""), "name" := Undefined, "ip" := Undefined, "port" := Undefined]
  {
  }
}
