/**
 * The notification handler installed on the subscribing connection: each
 * `(pattern, channel, payload)` message is classified and, for a known
 * channel, emitted once to the listeners.  Emitting is modelled as appending
 * to the `emitted` log of the client object.
 */
module Dispatch {
  import opened Wrappers
  import opened JsValues
  import opened Channels

  /** One message delivered by the catch-all pattern subscription. */
  datatype Message = Message(pattern: string, channel: string, payload: string)

  /** The events one message emits: one for a known channel, none otherwise. */
  function EmittedBy(m: Message): (es: seq<Event>)
    ensures |es| <= 1
    ensures |es| == 1 <==> m.channel in KnownChannels
  {
    KnownChannelsEmit(m.channel, m.payload);
    match Classify(m.channel, m.payload)
    case None => []
    case Some(e) => [e]
  }

  /** The events a stream of messages emits, each message's in delivery order. */
  function Emissions(msgs: seq<Message>): seq<Event>
  {
    if msgs == [] then [] else Emissions(msgs[..|msgs| - 1]) + EmittedBy(msgs[|msgs| - 1])
  }

  /** Handling is stateless per message: a stream's events are its parts' events, in order. */
  lemma {:induction false} EmissionsAppend(a: seq<Message>, b: seq<Message>)
    ensures Emissions(a + b) == Emissions(a) + Emissions(b)
    decreases |b|
  {
    if b == [] {
      assert a + b == a;
    } else {
      var n := |b| - 1;
      assert (a + b)[..|a + b| - 1] == a + b[..n];
      assert (a + b)[|a + b| - 1] == b[n];
      EmissionsAppend(a, b[..n]);
    }
  }

  /** The number of messages on a known channel in a stream. */
  function KnownCount(msgs: seq<Message>): nat
  {
    if msgs == [] then 0
    else KnownCount(msgs[..|msgs| - 1]) + (if msgs[|msgs| - 1].channel in KnownChannels then 1 else 0)
  }

  /** A stream emits exactly one event per message on a known channel, and nothing for the rest. */
  lemma {:induction false} EmissionsCount(msgs: seq<Message>)
    ensures |Emissions(msgs)| == KnownCount(msgs)
    decreases |msgs|
  {
    if msgs != [] {
      EmissionsCount(msgs[..|msgs| - 1]);
    }
  }

  /** The client object as far as notifications go: its address and what it has emitted. */
  class Sentinel {
    var host: Value
    var port: Value
    var emitted: seq<Event>

    constructor (host: Value, port: Value)
      ensures this.host == host && this.port == port && emitted == []
    {
      this.host := host;
      this.port := port;
      emitted := [];
    }

    /** `self.emit(name, arg)`. */
    method Emit(e: Event)
      modifies this`emitted
      ensures emitted == old(emitted) + [e]
    {
      emitted := emitted + [e];
    }

    /** The handler: the pattern is ignored, the channel selects the event, the payload its details. */
    method Handle(p: string, ch: string, msg: string)
      modifies this`emitted
      ensures emitted == old(emitted) + EmittedBy(Message(p, ch, msg))
    {
      var e := Classify(ch, msg);
      if e.Some? {
        Emit(e.value);
      }
    }
  }
}
