/**
 * The Phoenix socket and channel objects the connection orchestrator drives,
 * reduced to what it can observe of them: the endpoint URL of a socket and
 * whether it was opened or disconnected; the topic, join parameters, join
 * request and outbound pushes of a channel. The real transport (OkHttp,
 * heartbeats, buffering, replies) sits behind these objects and is not modelled.
 */
module Transport {

  /** An arbitrary JSON-like value of a payload or of join parameters. */
  datatype Json = Str(s: string) | Num(n: int) | Obj(fields: map<string, Json>)

  /** A channel payload: the `Map<String, Any?>` handed over the wire. */
  type Payload = map<string, Json>

  /** A frame received on a channel: its event name and payload. */
  datatype Message = Message(event: string, payload: Payload)

  /** An outbound push recorded on a channel. */
  datatype Outbound = Outbound(event: string, payload: Payload)

  /** Created: built, not yet opened; Opening: `connect()` was called; Disconnected: `disconnect()` was called. */
  datatype SocketState = Created | Opening | Disconnected

  class Socket {
    const url: string
    var state: SocketState

    constructor (url: string)
      ensures this.url == url && state == Created
    {
      this.url := url;
      state := Created;
    }

    /** Starts opening the connection; progress is reported later through callbacks. */
    method Connect()
      modifies this
      ensures state == Opening
    {
      state := Opening;
    }

    method Disconnect()
      modifies this
      ensures state == Disconnected
    {
      state := Disconnected;
    }

    /** The channel factory: a fresh channel on `topic` bound to this socket, not yet joined. */
    method Channel(topic: string, params: Payload) returns (c: Channel)
      ensures fresh(c)
      ensures c.socket == this && c.topic == topic && c.params == params
      ensures !c.joinRequested && c.pushes == []
    {
      c := new Channel(this, topic, params);
    }
  }

  class Channel {
    const socket: Socket
    const topic: string
    const params: Payload
    var joinRequested: bool
    var pushes: seq<Outbound>

    constructor (socket: Socket, topic: string, params: Payload)
      ensures this.socket == socket && this.topic == topic && this.params == params
      ensures !joinRequested && pushes == []
    {
      this.socket := socket;
      this.topic := topic;
      this.params := params;
      joinRequested := false;
      pushes := [];
    }

    /** Sends the join request carrying `params`; the outcome arrives later as a reply. */
    method Join()
      modifies this
      ensures joinRequested && pushes == old(pushes)
    {
      joinRequested := true;
    }

    method Push(event: string, payload: Payload)
      modifies this
      ensures pushes == old(pushes) + [Outbound(event, payload)]
      ensures joinRequested == old(joinRequested)
    {
      pushes := pushes + [Outbound(event, payload)];
    }
  }
}
