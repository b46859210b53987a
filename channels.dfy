/**
 * The channel classifier: the `switch(ch)` inside the notification handler
 * that turns a Sentinel channel name into at most one named application
 * event, and the table it implements.
 */
module Channels {
  import opened Wrappers
  import opened JsValues
  import opened Notifications

  /** One call `self.emit(name, arg)`: the event name and the object passed to the listeners. */
  datatype Event = Event(name: string, arg: Object)

  /** `{details: details}`. */
  function Plain(name: string, details: Object): Event
  {
    Event(name, map["details" := Obj(details)])
  }

  /** `{status: status, details: details}`. */
  function WithStatus(name: string, status: string, details: Object): Event
  {
    Event(name, map["status" := Str(status), "details" := Obj(details)])
  }

  /**
   * The switch over the channel name, one case per known channel, in the
   * order the handler lists them.  An unknown channel matches no case and
   * emits nothing.
   */
  function Classify(ch: string, msg: string): (e: Option<Event>)
    ensures e.Some? ==> "details" in e.value.arg && e.value.arg.Keys <= {"status", "details"}
  {
    match ch
    case "+reset-master" => Some(Plain("reset-master", ParseInstanceDetails(msg)))
    case "+slave" => Some(Plain("new-slave", ParseInstanceDetails(msg)))
    case "+failover-state-reconf-slaves" => Some(WithStatus("failover-status", "reconfigure-slaves", ParseInstanceDetails(msg)))
    case "+failover-detected" => Some(Plain("failover-detected", ParseInstanceDetails(msg)))
    case "+slave-reconf-sent" => Some(WithStatus("slave-reconf-status", "started", ParseInstanceDetails(msg)))
    case "+slave-reconf-inprog" => Some(WithStatus("slave-reconf-status", "in-progress", ParseInstanceDetails(msg)))
    case "+slave-reconf-done" => Some(WithStatus("slave-reconf-status", "done", ParseInstanceDetails(msg)))
    case "-slave-reconf-undo" => Some(WithStatus("slave-reconf-status", "aborted", ParseInstanceDetails(msg)))
    case "-dup-sentinel" => Some(Plain("dup-sentinel-removed", ParseInstanceDetails(msg)))
    case "+sentinel" => Some(Plain("new-sentinel", ParseInstanceDetails(msg)))
    case "+sdown" => Some(Plain("instance-sdown", ParseInstanceDetails(msg)))
    case "-sdown" => Some(Plain("instance-sdown-recover", ParseInstanceDetails(msg)))
    case "+odown" => Some(Plain("instance-odown", ParseInstanceDetails(msg)))
    case "-odown" => Some(Plain("instance-odown-recover", ParseInstanceDetails(msg)))
    case "+failover-takedown" => Some(Plain("failover-takedown", ParseInstanceDetails(msg)))
    case "+failover-triggered" => Some(Plain("failover-triggered", ParseInstanceDetails(msg)))
    case "+failover-state-wait-start" => Some(WithStatus("failover-status", "wait-start", ParseInstanceDetails(msg)))
    case "+failover-state-select-slave" => Some(WithStatus("failover-status", "selecting-slave", ParseInstanceDetails(msg)))
    case "-failover-abort-no-good-slave" => Some(WithStatus("failover-status", "abort-no-good-slave-found", ParseInstanceDetails(msg)))
    case "+selected-slave" => Some(WithStatus("failover-status", "slave-selected", ParseInstanceDetails(msg)))
    case "+failover-state-send-slaveof-noone" => Some(WithStatus("failover-status", "sent-slaveof-noone", ParseInstanceDetails(msg)))
    case "+failover-end-for-timeout" => Some(WithStatus("failover-status", "timeout", ParseInstanceDetails(msg)))
    case "+failover-end" => Some(WithStatus("failover-status", "succeeded", ParseInstanceDetails(msg)))
    case "+switch-master" => Some(Plain("switch-master", ParseSwitchMasterDetails(msg)))
    case "+demote-old-slave" => Some(Plain("demote-old-slave", ParseInstanceDetails(msg)))
    case "-failover-abort-x-sdown" => Some(WithStatus("failover-status", "abort-x-sdown", ParseInstanceDetails(msg)))
    case "+tilt" => Some(Plain("tilt-mode-entered", ParseInstanceDetails(msg)))
    case "-tilt" => Some(Plain("tilt-mode-exited", ParseInstanceDetails(msg)))
    case "-failover-abort-master-is-back" => Some(WithStatus("failover-status", "abort-master-is-back", ParseInstanceDetails(msg)))
    case "+failover-state-wait-promotion" => Some(WithStatus("failover-status", "wait-promotion", ParseInstanceDetails(msg)))
    case "+promoted-slave" => Some(Plain("promoted-slave", ParseInstanceDetails(msg)))
    case _ => None
  }

  /** Which of the two payload parsers a channel's details come from. */
  datatype PayloadKind = Instance | SwitchMaster

  /** One row of the channel table: the event name, the status label if any, and the payload kind. */
  datatype Route = Route(event: string, status: Option<string>, kind: PayloadKind)

  /** The channel table: channel name to the event it is re-published as, or nothing for an unknown channel. */
  function Table(ch: string): Option<Route>
  {
    match ch
    case "+reset-master" => Some(Route("reset-master", None, Instance))
    case "+slave" => Some(Route("new-slave", None, Instance))
    case "+failover-state-reconf-slaves" => Some(Route("failover-status", Some("reconfigure-slaves"), Instance))
    case "+failover-detected" => Some(Route("failover-detected", None, Instance))
    case "+slave-reconf-sent" => Some(Route("slave-reconf-status", Some("started"), Instance))
    case "+slave-reconf-inprog" => Some(Route("slave-reconf-status", Some("in-progress"), Instance))
    case "+slave-reconf-done" => Some(Route("slave-reconf-status", Some("done"), Instance))
    case "-slave-reconf-undo" => Some(Route("slave-reconf-status", Some("aborted"), Instance))
    case "-dup-sentinel" => Some(Route("dup-sentinel-removed", None, Instance))
    case "+sentinel" => Some(Route("new-sentinel", None, Instance))
    case "+sdown" => Some(Route("instance-sdown", None, Instance))
    case "-sdown" => Some(Route("instance-sdown-recover", None, Instance))
    case "+odown" => Some(Route("instance-odown", None, Instance))
    case "-odown" => Some(Route("instance-odown-recover", None, Instance))
    case "+failover-takedown" => Some(Route("failover-takedown", None, Instance))
    case "+failover-triggered" => Some(Route("failover-triggered", None, Instance))
    case "+failover-state-wait-start" => Some(Route("failover-status", Some("wait-start"), Instance))
    case "+failover-state-select-slave" => Some(Route("failover-status", Some("selecting-slave"), Instance))
    case "-failover-abort-no-good-slave" => Some(Route("failover-status", Some("abort-no-good-slave-found"), Instance))
    case "+selected-slave" => Some(Route("failover-status", Some("slave-selected"), Instance))
    case "+failover-state-send-slaveof-noone" => Some(Route("failover-status", Some("sent-slaveof-noone"), Instance))
    case "+failover-end-for-timeout" => Some(Route("failover-status", Some("timeout"), Instance))
    case "+failover-end" => Some(Route("failover-status", Some("succeeded"), Instance))
    case "+switch-master" => Some(Route("switch-master", None, SwitchMaster))
    case "+demote-old-slave" => Some(Route("demote-old-slave", None, Instance))
    case "-failover-abort-x-sdown" => Some(Route("failover-status", Some("abort-x-sdown"), Instance))
    case "+tilt" => Some(Route("tilt-mode-entered", None, Instance))
    case "-tilt" => Some(Route("tilt-mode-exited", None, Instance))
    case "-failover-abort-master-is-back" => Some(Route("failover-status", Some("abort-master-is-back"), Instance))
    case "+failover-state-wait-promotion" => Some(Route("failover-status", Some("wait-promotion"), Instance))
    case "+promoted-slave" => Some(Route("promoted-slave", None, Instance))
    case _ => None
  }

  /** The 31 channel names the handler knows. */
  const KnownChannels: set<string> := {
    "+reset-master", "+slave", "+failover-state-reconf-slaves",
    "+failover-detected", "+slave-reconf-sent", "+slave-reconf-inprog",
    "+slave-reconf-done", "-slave-reconf-undo", "-dup-sentinel",
    "+sentinel", "+sdown", "-sdown",
    "+odown", "-odown", "+failover-takedown",
    "+failover-triggered", "+failover-state-wait-start", "+failover-state-select-slave",
    "-failover-abort-no-good-slave", "+selected-slave", "+failover-state-send-slaveof-noone",
    "+failover-end-for-timeout", "+failover-end", "+switch-master",
    "+demote-old-slave", "-failover-abort-x-sdown", "+tilt",
    "-tilt", "-failover-abort-master-is-back", "+failover-state-wait-promotion",
    "+promoted-slave"
  }

  /** The event a table row describes for a given payload. */
  function EventOf(r: Route, msg: string): Event
  {
    var details := if r.kind == SwitchMaster then ParseSwitchMasterDetails(msg) else ParseInstanceDetails(msg);
    match r.status
    case None => Plain(r.event, details)
    case Some(status) => WithStatus(r.event, status, details)
  }

  /** The switch and the table agree on every channel, known or not. */
  lemma ClassifyFollowsTable(ch: string, msg: string)
    ensures Classify(ch, msg) == if Table(ch).Some? then Some(EventOf(Table(ch).value, msg)) else None
  {
  }

  /** The table knows exactly the 31 channels; every other channel produces no event. */
  lemma KnownChannelsEmit(ch: string, msg: string)
    ensures Classify(ch, msg).Some? <==> ch in KnownChannels
  {
    ClassifyFollowsTable(ch, msg);
  }

  /** `+switch-master` is the one channel whose details come from the switch-master parser. */
  lemma OnlySwitchMasterParsesSwitch(ch: string)
    requires Table(ch).Some?
    ensures Table(ch).value.kind == SwitchMaster <==> ch == "+switch-master"
  {
  }

  /** A status label appears exactly on the two event streams with sub-states. */
  lemma StatusOnPhaseEvents(ch: string)
    requires Table(ch).Some?
    ensures Table(ch).value.status.Some? <==> Table(ch).value.event in {"failover-status", "slave-reconf-status"}
  {
  }

  /**
   * What a listener receives for a known channel: the table's event name,
   * a `status` property exactly when the table gives a label, and details
   * from the switch-master parser for `+switch-master` and from the
   * instance parser for every other channel.
   */
  lemma ClassifiedEvent(ch: string, msg: string)
    requires ch in KnownChannels
    ensures Classify(ch, msg).Some?
    ensures var e, r := Classify(ch, msg).value, Table(ch).value;
      e.name == r.event &&
      ("status" in e.arg <==> r.status.Some?) &&
      (r.status.Some? ==> e.arg["status"] == Str(r.status.value)) &&
      e.arg["details"] == Obj(if ch == "+switch-master" then ParseSwitchMasterDetails(msg) else ParseInstanceDetails(msg))
  {
    KnownChannelsEmit(ch, msg);
    ClassifyFollowsTable(ch, msg);
    OnlySwitchMasterParsesSwitch(ch);
  }
}
