/**
 * The connection orchestrator of the LiveView client: it owns the application
 * socket/channel pair and the live-reload socket/channel pair, builds the wire
 * format of the connection (query string, URLs, topics, join parameters),
 * classifies inbound frames, synthesises the fallback screen on transport
 * errors and forwards outbound actions.
 *
 * The transport's callbacks are methods of `SocketManager` that a caller
 * invokes with the data the transport would deliver. The payload mapper is a
 * collaborator whose answers are arguments of those methods; each call made
 * to it is logged in `mapperCalls`. Parsing fallback markup is modelled by the
 * document constructor `ParsedMarkup`.
 */
module SocketManager {
  import opened Wrappers
  import opened Transport

  /** The tokens scraped from the LiveView page that a connection attempt needs. */
  datatype PhoenixLiveViewPayload =
    PhoenixLiveViewPayload(dataPhxSession: string, dataPhxStatic: string, phxId: string, csrfToken: string)

  /** An outbound user action: an event name and its payload. */
  datatype PhxAction = PhxAction(event: string, payload: Payload)

  /** A document handed to the document listener: parsed fallback markup, or a tree built by the payload mapper. */
  datatype Document = ParsedMarkup(markup: string) | MapperDocument(id: nat)

  /** A call made to the payload mapper. */
  datatype MapperCall =
    | MapRawPayloadToDom(payload: Payload)
    | ParseDiff(message: Message)
    | ExtractDiff(payload: Payload)

  /** A request made to the transport, in the order the orchestrator makes them. */
  datatype TransportOp =
    | DisconnectSocket(socket: Socket)
    | NewSocket(socket: Socket)
    | NewChannel(channel: Channel)
    | JoinChannel(channel: Channel)
    | ConnectSocket(socket: Socket)

  const Platform: string := "android"
  const LiveSocketPath: string := "/live/websocket"
  const LiveReloadSocketPath: string := "/phoenix/live_reload/socket"
  const LiveReloadTopic: string := "phoenix:live_reload"
  const AssetsChangeEvent: string := "assets_change"
  const ConnectGuidance: string :=
    "This probably means your localhost server isn't running...\nPlease start your server in the terminal using iex -S mix phx.server and rerun the android application"

  // ---------------------------------------------------------------------------
  // Wire format
  // ---------------------------------------------------------------------------

  /** The socket parameters in their fixed order, each value as the string template renders it. */
  function SocketParams(csrfToken: string, clientId: string): seq<(string, string)>
  {
    [("_csrf_token", csrfToken), ("_mounts", "0"), ("client_id", clientId), ("_platform", Platform)]
  }

  /** One `key=value&` entry of the query string. */
  function QueryEntry(entry: (string, string)): string
  {
    entry.0 + "=" + entry.1 + "&"
  }

  /** The query string as the concatenation of its entries, first entry first. */
  function ConcatEntries(entries: seq<(string, string)>): string
  {
    if entries == [] then "" else QueryEntry(entries[0]) + ConcatEntries(entries[1..])
  }

  lemma {:induction false} ConcatEntriesSnoc(entries: seq<(string, string)>, e: (string, string))
    ensures ConcatEntries(entries + [e]) == ConcatEntries(entries) + QueryEntry(e)
  {
    if entries == [] {
      assert entries + [e] == [e];
    } else {
      assert (entries + [e])[1..] == entries[1..] + [e];
      ConcatEntriesSnoc(entries[1..], e);
    }
  }

  /** The fold `entries.fold("") { acc, entry -> acc + "key=value&" }` that builds the socket query. */
  method FoldQuery(entries: seq<(string, string)>) returns (query: string)
    ensures query == ConcatEntries(entries)
  {
    query := "";
    var i := 0;
    while i < |entries|
      invariant 0 <= i <= |entries|
      invariant query == ConcatEntries(entries[..i])
    {
      ConcatEntriesSnoc(entries[..i], entries[i]);
      assert entries[..i + 1] == entries[..i] + [entries[i]];
      query := query + QueryEntry(entries[i]);
      i := i + 1;
    }
    assert entries[..i] == entries;
  }

  /** The query of the application socket, with every entry (the last one too) ending in `&`. */
  lemma SocketQueryLiteral(csrfToken: string, clientId: string)
    ensures ConcatEntries(SocketParams(csrfToken, clientId))
         == "_csrf_token=" + csrfToken + "&" + "_mounts=0&" + "client_id=" + clientId + "&" + "_platform=android&"
  {
    var ps := SocketParams(csrfToken, clientId);
    assert ps[3..][1..] == [];
    assert ps[2..][1..] == ps[3..];
    assert ps[1..][1..] == ps[2..];
    assert ConcatEntries(ps[3..]) == "_platform=android&";
    assert ConcatEntries(ps[2..]) == "client_id=" + clientId + "&" + "_platform=android&";
    assert ConcatEntries(ps[1..]) == "_mounts=0&" + ConcatEntries(ps[2..]);
  }

  function PrimaryUrl(baseSocketUrl: string, csrfToken: string, clientId: string): string
  {
    baseSocketUrl + LiveSocketPath + "?" + ConcatEntries(SocketParams(csrfToken, clientId))
  }

  lemma PrimaryUrlLiteral(baseSocketUrl: string, csrfToken: string, clientId: string)
    ensures PrimaryUrl(baseSocketUrl, csrfToken, clientId)
         == baseSocketUrl + "/live/websocket?" + "_csrf_token=" + csrfToken + "&"
            + "_mounts=0&" + "client_id=" + clientId + "&" + "_platform=android&"
  {
    SocketQueryLiteral(csrfToken, clientId);
  }

  function LiveReloadUrl(baseSocketUrl: string): string
  {
    baseSocketUrl + LiveReloadSocketPath
  }

  function AppTopic(phxId: string): string
  {
    "lv:" + phxId
  }

  /** The nested `params` entry of the application join. */
  function MountParams(csrfToken: string, clientId: string): map<string, Json>
  {
    map["_mounts" := Num(0), "_csrf_token" := Str(csrfToken), "_platform" := Str(Platform), "client_id" := Str(clientId)]
  }

  /** The join parameters of the application channel. */
  function JoinParams(p: PhoenixLiveViewPayload, baseUrl: string, clientId: string): (r: Payload)
    ensures r.Keys == {"session", "static", "url", "params"}
    ensures r["session"] == Str(p.dataPhxSession) && r["static"] == Str(p.dataPhxStatic)
    ensures r["url"] == Str(baseUrl)
    ensures r["params"].Obj? && r["params"].fields.Keys == {"_mounts", "_csrf_token", "_platform", "client_id"}
    ensures r["params"].fields["_mounts"] == Num(0)
    ensures r["params"].fields["_csrf_token"] == Str(p.csrfToken)
    ensures r["params"].fields["_platform"] == Str("android")
    ensures ClientIdOf(r) == Some(clientId)
  {
    map["session" := Str(p.dataPhxSession), "static" := Str(p.dataPhxStatic), "url" := Str(baseUrl),
        "params" := Obj(MountParams(p.csrfToken, clientId))]
  }

  /** The client id that join parameters carry under `params.client_id`, if any. */
  function ClientIdOf(params: Payload): Option<string>
  {
    if "params" in params && params["params"].Obj? && "client_id" in params["params"].fields
       && params["params"].fields["client_id"].Str?
    then Some(params["params"].fields["client_id"].s)
    else None
  }

  /** One full-width text block of the fallback screen. */
  function TextBlock(text: string): string
  {
    "<text width=fill padding=16>" + text + "</text>"
  }

  /** The fallback markup for a transport error: the message, then guidance when the endpoint was unreachable. */
  function ErrorMarkup(isConnectException: bool, message: string): string
  {
    if isConnectException then "<column>" + TextBlock(message) + TextBlock(ConnectGuidance) + "</column>"
    else "<column>" + TextBlock(message) + "</column>"
  }

  /** The text `throwable.message.toString()` gives: a missing message renders as `null`. */
  function MessageText(message: Option<string>): string
  {
    match message
    case Some(s) => s
    case None => "null"
  }

  /** A column opened before a first text block reads as one merged opening tag pair, whatever follows it. */
  lemma ColumnLayout(message: string, blocks: string, close: string)
    ensures "<column>" + TextBlock(message) + blocks + close
         == "<column><text width=fill padding=16>" + message + "</text>" + blocks + close
  {
    var open, block := "<column>", "<text width=fill padding=16>";
    assert open + block == "<column><text width=fill padding=16>";
    calc {
      open + TextBlock(message) + blocks + close;
      open + (block + message + "</text>") + blocks + close;
      (open + block) + message + "</text>" + blocks + close;
    }
  }

  /**
   * The fallback screen is one column whose first block holds the raw message;
   * exactly when the endpoint was unreachable a second block with the guidance follows.
   */
  lemma ErrorMarkupLayout(isConnectException: bool, message: string)
    ensures ErrorMarkup(isConnectException, message)
         == "<column><text width=fill padding=16>" + message + "</text>"
            + (if isConnectException then "<text width=fill padding=16>" + ConnectGuidance + "</text>" else "")
            + "</column>"
  {
    if isConnectException {
      ColumnLayout(message, TextBlock(ConnectGuidance), "</column>");
    } else {
      var head := "<column><text width=fill padding=16>" + message + "</text>";
      ColumnLayout(message, "", "</column>");
      assert head + "" == head;
    }
  }

  /** Any other transport error with message "boom": a single block holding the message. */
  lemma ErrorMarkupGeneric()
    ensures ErrorMarkup(false, "boom") == "<column><text width=fill padding=16>" + "boom</text></column>"
  {
    ErrorMarkupLayout(false, "boom");
    RegroupTail("<column><text width=fill padding=16>", "boom", "</text>", "", "</column>");
    assert "boom" + "</text>" + "" + "</column>" == "boom</text></column>";
  }

  lemma RegroupTail(a: string, b: string, c: string, d: string, e: string)
    ensures a + b + c + d + e == a + (b + c + d + e)
  {
  }

  /** The disconnect requests a new connection makes, live-reload socket first. */
  function DisconnectOps(liveReloadSocket: Socket?, phxSocket: Socket?): seq<TransportOp>
  {
    (if liveReloadSocket != null then [DisconnectSocket(liveReloadSocket)] else [])
    + (if phxSocket != null then [DisconnectSocket(phxSocket)] else [])
  }

  /** The requests that build, join and open the two fresh pairs, in the order they are made. */
  function OpenOps(phxSocket: Socket, liveReloadSocket: Socket, channel: Channel, liveReloadChannel: Channel): seq<TransportOp>
  {
    [NewSocket(phxSocket), NewSocket(liveReloadSocket),
     NewChannel(channel), NewChannel(liveReloadChannel),
     JoinChannel(channel), JoinChannel(liveReloadChannel),
     ConnectSocket(phxSocket), ConnectSocket(liveReloadSocket)]
  }

  // ---------------------------------------------------------------------------
  // The orchestrator
  // ---------------------------------------------------------------------------

  class SocketManager {
    var phxSocket: Socket?
    var channel: Channel?
    /** The client id, fixed for the lifetime of the object. */
    const uuid: string
    var liveReloadChannel: Channel?
    var liveReloadSocket: Socket?

    /** Whether the `lateinit` document listener has been assigned. */
    var domParsedListenerSet: bool
    /** Whether a live-reload listener is set (it is nullable). */
    var liveReloadListenerSet: bool

    /** Every document handed to the document listener, in order. */
    var documents: seq<Document>
    /** How many times the live-reload listener was invoked. */
    var liveReloads: nat
    /** Every call made to the payload mapper, in order. */
    var mapperCalls: seq<MapperCall>

    /** Every transport request made, in order. */
    ghost var trace: seq<TransportOp>
    /** Sockets replaced by a later connection. */
    ghost var retired: set<Socket>
    /** Every application socket ever built (its error handler stays registered). */
    ghost var primarySockets: set<Socket>
    /** Every live-reload socket ever built. */
    ghost var liveReloadSockets: set<Socket>
    /** Every application channel ever built (its join and message handlers stay registered). */
    ghost var appChannels: set<Channel>
    /** Every live-reload channel ever built. */
    ghost var liveReloadChannels: set<Channel>

    /** The current pairs are bound socket to channel, and each was recorded when built. */
    ghost predicate Paired()
      reads this
    {
      && (channel == null <==> phxSocket == null)
      && (liveReloadChannel == null <==> liveReloadSocket == null)
      && (channel != null ==> channel.socket == phxSocket && channel in appChannels)
      && (liveReloadChannel != null ==>
            liveReloadChannel.socket == liveReloadSocket && liveReloadChannel in liveReloadChannels)
      && (phxSocket != null ==> phxSocket in primarySockets && phxSocket != liveReloadSocket)
      && (liveReloadSocket != null ==> liveReloadSocket in liveReloadSockets)
    }

    /**
     * Every superseded socket is disconnected, neither current socket is
     * superseded, and every socket ever built other than the current ones is
     * superseded: at most one pair is ever live.
     */
    ghost predicate RetiredDisconnected()
      reads this, retired
    {
      && (forall s :: s in retired ==> s.state == Disconnected)
      && (phxSocket != null ==> phxSocket !in retired)
      && (liveReloadSocket != null ==> liveReloadSocket !in retired)
      && (forall s :: s in primarySockets && s != phxSocket ==> s in retired)
      && (forall s :: s in liveReloadSockets && s != liveReloadSocket ==> s in retired)
    }

    /**
     * Every application channel ever built joins with this object's client id
     * on an `lv:` topic; every live-reload channel joins `phoenix:live_reload` without parameters.
     */
    ghost predicate ChannelsWellFormed()
      reads this
    {
      && (forall c :: c in appChannels ==> AppJoin(c))
      && (forall c :: c in liveReloadChannels ==> LiveReloadJoin(c))
    }

    /** An application channel joins with this object's client id on an `lv:` topic. */
    ghost predicate AppJoin(c: Channel)
    {
      ClientIdOf(c.params) == Some(uuid) && |c.topic| >= 3 && c.topic[..3] == "lv:"
    }

    /** A live-reload channel joins `phoenix:live_reload` without parameters. */
    ghost predicate LiveReloadJoin(c: Channel)
    {
      c.topic == LiveReloadTopic && c.params == map[]
    }

    ghost predicate Valid()
      reads this, retired
    {
      Paired() && RetiredDisconnected() && ChannelsWellFormed()
    }

    /**
     * The current pairs are the ones a connection with these arguments builds:
     * both sockets opening on their endpoint URLs, the application channel on
     * `lv:<phxId>` with the join parameters, the live-reload channel on
     * `phoenix:live_reload` without parameters, both joined and nothing pushed yet.
     */
    ghost predicate Connected(p: PhoenixLiveViewPayload, baseSocketUrl: string, baseUrl: string)
      reads this, phxSocket, liveReloadSocket, channel, liveReloadChannel
    {
      && phxSocket != null && phxSocket.state == Opening
      && phxSocket.url == PrimaryUrl(baseSocketUrl, p.csrfToken, uuid)
      && liveReloadSocket != null && liveReloadSocket.state == Opening
      && liveReloadSocket.url == LiveReloadUrl(baseSocketUrl)
      && channel != null && channel.socket == phxSocket
      && channel.topic == AppTopic(p.phxId) && channel.params == JoinParams(p, baseUrl, uuid)
      && channel.joinRequested && channel.pushes == []
      && liveReloadChannel != null && liveReloadChannel.socket == liveReloadSocket
      && liveReloadChannel.topic == LiveReloadTopic && liveReloadChannel.params == map[]
      && liveReloadChannel.joinRequested && liveReloadChannel.pushes == []
    }

    /** `clientId` stands for the random UUID drawn at construction. */
    constructor (clientId: string)
      ensures Valid()
      ensures uuid == clientId
      ensures phxSocket == null && channel == null && liveReloadSocket == null && liveReloadChannel == null
      ensures !domParsedListenerSet && !liveReloadListenerSet
      ensures documents == [] && liveReloads == 0 && mapperCalls == [] && trace == []
      ensures retired == {} && primarySockets == {} && liveReloadSockets == {}
      ensures appChannels == {} && liveReloadChannels == {}
    {
      uuid := clientId;
      phxSocket, channel, liveReloadSocket, liveReloadChannel := null, null, null, null;
      domParsedListenerSet, liveReloadListenerSet := false, false;
      documents, liveReloads, mapperCalls := [], 0, [];
      trace := [];
      retired, primarySockets, liveReloadSockets := {}, {}, {};
      appChannels, liveReloadChannels := {}, {};
    }

    method SetDomParsedListener()
      modifies this`domParsedListenerSet
      ensures domParsedListenerSet
    {
      domParsedListenerSet := true;
    }

    method SetLiveReloadListener(present: bool)
      modifies this`liveReloadListenerSet
      ensures liveReloadListenerSet == present
    {
      liveReloadListenerSet := present;
    }

    /**
     * Disconnects the current sockets, live-reload first, and records them as
     * superseded; afterwards every socket ever built is superseded.
     */
    method DisconnectSockets()
      requires Valid()
      modifies this`trace, this`retired, phxSocket, liveReloadSocket
      ensures old(liveReloadSocket) != null ==> old(liveReloadSocket).state == Disconnected
      ensures old(phxSocket) != null ==> old(phxSocket).state == Disconnected
      ensures trace == old(trace) + DisconnectOps(old(liveReloadSocket), old(phxSocket))
      ensures retired == old(retired) + (if old(liveReloadSocket) != null then {old(liveReloadSocket)} else {})
                                      + (if old(phxSocket) != null then {old(phxSocket)} else {})
      ensures forall s :: s in retired ==> s.state == Disconnected
      ensures primarySockets <= retired && liveReloadSockets <= retired
    {
      ghost var teardown := DisconnectOps(liveReloadSocket, phxSocket);
      if liveReloadSocket != null {
        liveReloadSocket.Disconnect();
        trace := trace + [DisconnectSocket(liveReloadSocket)];
        retired := retired + {liveReloadSocket};
      }
      if phxSocket != null {
        phxSocket.Disconnect();
        trace := trace + [DisconnectSocket(phxSocket)];
        retired := retired + {phxSocket};
      }
      assert trace == old(trace) + teardown;
    }

    /** Builds the two sockets: the application socket with its query, then the live-reload socket. */
    method NewSockets(csrfToken: string, baseSocketUrl: string) returns (primary: Socket, reload: Socket)
      modifies this`trace, this`primarySockets, this`liveReloadSockets
      ensures fresh(primary) && fresh(reload)
      ensures primary.url == PrimaryUrl(baseSocketUrl, csrfToken, uuid) && primary.state == Created
      ensures reload.url == LiveReloadUrl(baseSocketUrl) && reload.state == Created
      ensures trace == old(trace) + [NewSocket(primary), NewSocket(reload)]
      ensures primarySockets == old(primarySockets) + {primary}
      ensures liveReloadSockets == old(liveReloadSockets) + {reload}
    {
      var query := FoldQuery(SocketParams(csrfToken, uuid));
      primary := new Socket(baseSocketUrl + LiveSocketPath + "?" + query);
      trace := trace + [NewSocket(primary)];
      primarySockets := primarySockets + {primary};
      reload := new Socket(baseSocketUrl + LiveReloadSocketPath);
      trace := trace + [NewSocket(reload)];
      liveReloadSockets := liveReloadSockets + {reload};
    }

    /** Builds the application channel on `lv:<phxId>` with the join parameters, then the live-reload channel. */
    method NewChannels(primary: Socket, reload: Socket, p: PhoenixLiveViewPayload, baseUrl: string)
      returns (app: Channel, lr: Channel)
      modifies this`trace, this`appChannels, this`liveReloadChannels
      ensures fresh(app) && fresh(lr)
      ensures app.socket == primary && app.topic == AppTopic(p.phxId) && app.params == JoinParams(p, baseUrl, uuid)
      ensures lr.socket == reload && lr.topic == LiveReloadTopic && lr.params == map[]
      ensures ClientIdOf(app.params) == Some(uuid) && |app.topic| >= 3 && app.topic[..3] == "lv:"
      ensures !app.joinRequested && app.pushes == [] && !lr.joinRequested && lr.pushes == []
      ensures trace == old(trace) + [NewChannel(app), NewChannel(lr)]
      ensures appChannels == old(appChannels) + {app}
      ensures liveReloadChannels == old(liveReloadChannels) + {lr}
    {
      var topic := AppTopic(p.phxId);
      assert topic[..3] == "lv:";
      app := primary.Channel(topic, JoinParams(p, baseUrl, uuid));
      trace := trace + [NewChannel(app)];
      appChannels := appChannels + {app};
      lr := reload.Channel(LiveReloadTopic, map[]);
      trace := trace + [NewChannel(lr)];
      liveReloadChannels := liveReloadChannels + {lr};
    }

    /** Joins both channels, application first, then opens both sockets, application first. */
    method JoinAndConnect(app: Channel, lr: Channel, primary: Socket, reload: Socket)
      requires app != lr && primary != reload
      modifies this`trace, app, lr, primary, reload
      ensures app.joinRequested && app.pushes == old(app.pushes)
      ensures lr.joinRequested && lr.pushes == old(lr.pushes)
      ensures primary.state == Opening && reload.state == Opening
      ensures trace == old(trace) + [JoinChannel(app), JoinChannel(lr), ConnectSocket(primary), ConnectSocket(reload)]
    {
      app.Join();
      trace := trace + [JoinChannel(app)];
      lr.Join();
      trace := trace + [JoinChannel(lr)];
      primary.Connect();
      trace := trace + [ConnectSocket(primary)];
      reload.Connect();
      trace := trace + [ConnectSocket(reload)];
    }

    /** Makes the given freshly built pairs the current ones. */
    method InstallPairs(primary: Socket, reload: Socket, app: Channel, lr: Channel)
      requires ChannelsWellFormed() && (forall s :: s in retired ==> s.state == Disconnected)
      requires primary in primarySockets && reload in liveReloadSockets && app in appChannels && lr in liveReloadChannels
      requires primarySockets - {primary} <= retired && liveReloadSockets - {reload} <= retired
      requires primary !in retired && reload !in retired && primary != reload
      requires app.socket == primary && lr.socket == reload
      modifies this`phxSocket, this`channel, this`liveReloadSocket, this`liveReloadChannel
      ensures Valid()
      ensures phxSocket == primary && liveReloadSocket == reload && channel == app && liveReloadChannel == lr
    {
      phxSocket, liveReloadSocket := primary, reload;
      channel, liveReloadChannel := app, lr;
    }

    /** Builds both fresh pairs, sockets first, then channels, and makes them the current ones. */
    method BuildPairs(p: PhoenixLiveViewPayload, baseSocketUrl: string, baseUrl: string)
      requires ChannelsWellFormed() && (forall s :: s in retired ==> s.state == Disconnected)
      requires primarySockets <= retired && liveReloadSockets <= retired
      modifies this`phxSocket, this`channel, this`liveReloadSocket, this`liveReloadChannel
      modifies this`trace, this`primarySockets, this`liveReloadSockets, this`appChannels, this`liveReloadChannels
      ensures Valid()
      ensures phxSocket != null && fresh(phxSocket) && phxSocket.state == Created
      ensures phxSocket.url == PrimaryUrl(baseSocketUrl, p.csrfToken, uuid)
      ensures liveReloadSocket != null && fresh(liveReloadSocket) && liveReloadSocket.state == Created
      ensures liveReloadSocket.url == LiveReloadUrl(baseSocketUrl)
      ensures channel != null && fresh(channel) && channel.socket == phxSocket
      ensures channel.topic == AppTopic(p.phxId) && channel.params == JoinParams(p, baseUrl, uuid)
      ensures liveReloadChannel != null && fresh(liveReloadChannel) && liveReloadChannel.socket == liveReloadSocket
      ensures liveReloadChannel.topic == LiveReloadTopic && liveReloadChannel.params == map[]
      ensures !channel.joinRequested && channel.pushes == [] && !liveReloadChannel.joinRequested && liveReloadChannel.pushes == []
      ensures trace == old(trace) + [NewSocket(phxSocket), NewSocket(liveReloadSocket),
                                     NewChannel(channel), NewChannel(liveReloadChannel)]
      ensures primarySockets == old(primarySockets) + {phxSocket}
      ensures liveReloadSockets == old(liveReloadSockets) + {liveReloadSocket}
      ensures appChannels == old(appChannels) + {channel}
      ensures liveReloadChannels == old(liveReloadChannels) + {liveReloadChannel}
    {
      var primary, reload := NewSockets(p.csrfToken, baseSocketUrl);
      var app, lr := NewChannels(primary, reload, p, baseUrl);
      InstallPairs(primary, reload, app, lr);
    }

    /** Builds both fresh pairs, joins both channels and opens both sockets (the previous ones are already superseded). */
    method OpenSockets(p: PhoenixLiveViewPayload, baseSocketUrl: string, baseUrl: string)
      requires ChannelsWellFormed() && (forall s :: s in retired ==> s.state == Disconnected)
      requires primarySockets <= retired && liveReloadSockets <= retired
      modifies this`phxSocket, this`channel, this`liveReloadSocket, this`liveReloadChannel
      modifies this`trace, this`primarySockets, this`liveReloadSockets, this`appChannels, this`liveReloadChannels
      ensures Valid() && Connected(p, baseSocketUrl, baseUrl)
      ensures fresh(phxSocket) && fresh(liveReloadSocket) && fresh(channel) && fresh(liveReloadChannel)
      ensures trace == old(trace) + OpenOps(phxSocket, liveReloadSocket, channel, liveReloadChannel)
      ensures primarySockets == old(primarySockets) + {phxSocket}
      ensures liveReloadSockets == old(liveReloadSockets) + {liveReloadSocket}
      ensures appChannels == old(appChannels) + {channel}
      ensures liveReloadChannels == old(liveReloadChannels) + {liveReloadChannel}
    {
      BuildPairs(p, baseSocketUrl, baseUrl);
      JoinAndConnect(channel, liveReloadChannel, phxSocket, liveReloadSocket);
    }

    /**
     * Tears down the previous sockets, then builds, joins and opens both fresh
     * pairs. `baseSocketUrl` and `baseUrl` stand for the process-wide
     * `LiveViewState` values read at this point.
     */
    method ConnectToChatRoomWithParams(p: PhoenixLiveViewPayload, baseSocketUrl: string, baseUrl: string)
      requires Valid()
      modifies this`phxSocket, this`channel, this`liveReloadSocket, this`liveReloadChannel
      modifies this`trace, this`retired, this`primarySockets, this`liveReloadSockets
      modifies this`appChannels, this`liveReloadChannels
      modifies phxSocket, liveReloadSocket
      ensures Valid() && Connected(p, baseSocketUrl, baseUrl)
      ensures old(liveReloadSocket) != null ==> old(liveReloadSocket).state == Disconnected
      ensures old(phxSocket) != null ==> old(phxSocket).state == Disconnected
      ensures fresh(phxSocket) && fresh(liveReloadSocket) && fresh(channel) && fresh(liveReloadChannel)
      ensures trace == old(trace) + DisconnectOps(old(liveReloadSocket), old(phxSocket))
                       + OpenOps(phxSocket, liveReloadSocket, channel, liveReloadChannel)
      ensures retired == old(retired) + (if old(liveReloadSocket) != null then {old(liveReloadSocket)} else {})
                                      + (if old(phxSocket) != null then {old(phxSocket)} else {})
      ensures primarySockets == old(primarySockets) + {phxSocket}
      ensures liveReloadSockets == old(liveReloadSockets) + {liveReloadSocket}
      ensures appChannels == old(appChannels) + {channel}
      ensures liveReloadChannels == old(liveReloadChannels) + {liveReloadChannel}
    {
      DisconnectSockets();
      OpenSockets(p, baseSocketUrl, baseUrl);
    }

    /**
     * A join reply on an application channel (a superseded one too: nothing
     * guards against stale replies). `mapped` is what the mapper's
     * `mapRawPayloadToDom(payload)` returns. Only "ok" emits a document.
     */
    method OnJoinReply(ch: Channel, status: string, payload: Payload, mapped: Document)
      requires Valid() && ch in appChannels
      requires status == "ok" ==> domParsedListenerSet
      modifies this`documents, this`mapperCalls
      ensures Valid()
      ensures status == "ok" ==> documents == old(documents) + [mapped]
                                 && mapperCalls == old(mapperCalls) + [MapRawPayloadToDom(payload)]
      ensures status != "ok" ==> documents == old(documents) && mapperCalls == old(mapperCalls)
    {
      if status == "ok" {
        mapperCalls := mapperCalls + [MapRawPayloadToDom(payload)];
        documents := documents + [mapped];
      }
    }

    /**
     * A frame on an application channel. `parsed` is what the mapper's
     * `parseDiff(message)` returns. The handler hands the frame back unchanged.
     */
    method OnMessage(ch: Channel, message: Message, parsed: Option<Document>) returns (r: Message)
      requires Valid() && ch in appChannels
      requires message.event == "phx_reply" && parsed.Some? ==> domParsedListenerSet
      modifies this`documents, this`mapperCalls
      ensures Valid()
      ensures r == message
      ensures message.event == "phx_reply" ==>
                mapperCalls == old(mapperCalls) + [ParseDiff(message)]
                && documents == old(documents) + (if parsed.Some? then [parsed.value] else [])
      ensures message.event == "diff" ==>
                mapperCalls == old(mapperCalls) + [ExtractDiff(message.payload)] && documents == old(documents)
      ensures message.event != "phx_reply" && message.event != "diff" ==>
                mapperCalls == old(mapperCalls) && documents == old(documents)
    {
      if message.event == "phx_reply" {
        mapperCalls := mapperCalls + [ParseDiff(message)];
        if parsed.Some? {
          documents := documents + [parsed.value];
        }
      } else if message.event == "diff" {
        mapperCalls := mapperCalls + [ExtractDiff(message.payload)];
      }
      r := message;
    }

    /** A frame on a live-reload channel: only `assets_change` reaches the live-reload listener, if one is set. */
    method OnLiveReloadMessage(ch: Channel, message: Message) returns (r: Message)
      requires Valid() && ch in liveReloadChannels
      modifies this`liveReloads
      ensures Valid()
      ensures r == message
      ensures liveReloads == old(liveReloads)
                + (if message.event == AssetsChangeEvent && liveReloadListenerSet then 1 else 0)
    {
      if message.event == AssetsChangeEvent && liveReloadListenerSet {
        liveReloads := liveReloads + 1;
      }
      r := message;
    }

    /** A transport error on an application socket: the fallback screen goes to the document listener. */
    method OnTransportError(s: Socket, isConnectException: bool, message: Option<string>)
      requires Valid() && s in primarySockets
      requires domParsedListenerSet
      modifies this`documents
      ensures Valid()
      ensures documents == old(documents) + [ParsedMarkup(ErrorMarkup(isConnectException, MessageText(message)))]
    {
      var errorHtml := ErrorMarkup(isConnectException, MessageText(message));
      documents := documents + [ParsedMarkup(errorHtml)];
    }

    /** Sends `(event, payload)` on the current application channel; with no channel nothing is sent. */
    method Push(event: string, payload: Payload)
      requires Valid()
      modifies channel
      ensures Valid()
      ensures channel != null ==> channel.pushes == old(channel.pushes) + [Outbound(event, payload)]
                                  && channel.joinRequested == old(channel.joinRequested)
    {
      if channel != null {
        channel.Push(event, payload);
      }
    }

    method PushChannelMessage(action: PhxAction)
      requires Valid()
      modifies channel
      ensures Valid()
      ensures channel != null ==> channel.pushes == old(channel.pushes) + [Outbound(action.event, action.payload)]
                                  && channel.joinRequested == old(channel.joinRequested)
    {
      Push(action.event, action.payload);
    }
  }
}
