/**
 * The chat server of `socket_chat_server.py`: the client registry, the
 * shared history, broadcast, and the per-connection session of
 * `handle_client`.
 *
 * Each step is specified by a function from the server's state before it
 * to the state after it; the class `Server` performs the same steps in
 * place and is proved to agree with those functions. Every socket's input
 * is a byte sequence consumed from the front; what the server writes to a
 * socket is appended to that socket's entry in `sent`. The environment
 * (fresh uuids, the clock, and which sends raise) is consulted through a
 * `World` at a counter `draws`, one consultation per packet built, per
 * validation, per send or broadcast, and for the welcome's own clock
 * reading.
 */
module ChatServer {
  import opened Wrappers
  import opened Json
  import opened Bytes
  import opened PyText
  import opened ChatProtocol
  import opened FrameCodec
  import opened Foreign
  import Handshake

  /** A connected socket, identified by a number. */
  type Sock = nat

  /** The peer address `(host, port)` that `accept()` returned. */
  datatype Address = Address(host: string, port: nat)

  /** The registry entry of a connection: `{"email", "user_id", "is_websocket"}`. */
  datatype ClientInfo = ClientInfo(email: string, userId: int, isWebsocket: bool)

  /** Raw (non-WebSocket) clients are read 4096 bytes at a time. */
  const RawChunk: nat := 4096

  /** The AI reply sees the chat bodies among this many latest history entries. */
  const AiWindow: nat := 10

  const SystemSender: string := "SYSTEM"
  const AiSender: string := "AI-Assistant"
  const GuestPrefix: string := "guest_"

  /** `f"guest_{address[1]}"`: the identity the server gives every connection. */
  function GuestName(port: nat): (name: string)
    ensures StartsWith(name, GuestPrefix)
  {
    GuestPrefix + NatToString(port)
  }

  /** The registry entry `handle_client` creates for a connection. */
  predicate GuestInfo(info: ClientInfo) {
    StartsWith(info.email, GuestPrefix) && info.userId == 0
  }

  /** What the server knows: the registry, the history, what each socket was sent, the draw counter. */
  datatype State = State(
    clients: map<Sock, ClientInfo>,
    history: seq<Packet>,
    sent: map<Sock, seq<byte>>,
    draws: nat)

  /**
   * A history entry as the server records it: a validated packet whose
   * sender the server overwrote with the guest identity and whose
   * `user_id` it set, or an AI reply naming the message it answers.
   */
  predicate Stored(p: Packet) {
    && p.version == ProtocolVersion
    && p.messageType in ValidMessageTypes
    && Truthy(p.channel)
    && p.sender.JStr?
    && ((StartsWith(p.sender.s, GuestPrefix) && Get(p.metadata, "user_id") == JInt(0))
        || (p.sender == JStr(AiSender) && p.messageType == "AI" && "in_reply_to" in p.metadata))
  }

  /** Every registered guest has a stream of sent bytes; every history entry is `Stored`. */
  predicate ValidParts(clients: map<Sock, ClientInfo>, history: seq<Packet>, sent: map<Sock, seq<byte>>) {
    && clients.Keys <= sent.Keys
    && (forall sock | sock in clients :: GuestInfo(clients[sock]))
    && (forall i | 0 <= i < |history| :: Stored(history[i]))
  }

  /** The invariant of the server state; the draw counter plays no part in it. */
  predicate ValidState(s: State) {
    ValidParts(s.clients, s.history, s.sent)
  }

  /** What `sock` has been sent so far. */
  function SentTo(sent: map<Sock, seq<byte>>, sock: Sock): seq<byte> {
    if sock in sent then sent[sock] else []
  }

  /** One send: the bytes that reach the peer (if any) and whether the send raised. */
  datatype Send = Send(delivered: seq<byte>, raised: bool)

  /**
   * Sending the text `message` to a client. A WebSocket client gets
   * `send_websocket_frame`, which swallows every failure; a raw client gets
   * the UTF-8 of `message + "\n"` through `sendall`, which raises when
   * encoding fails or `fails` holds.
   */
  function SendOutcome(lib: Codecs, info: ClientInfo, message: string, fails: bool): (r: Send)
    ensures info.isWebsocket ==> !r.raised
    ensures r.raised ==> r.delivered == []
    ensures !info.isWebsocket && !r.raised ==> lib.encode(message + "\n") == Some(r.delivered)
    ensures info.isWebsocket && r.delivered != [] ==>
              lib.encode(message).Some? && EncodeTextFrame(lib.encode(message).value) == Some(r.delivered)
    ensures r.raised <==> !info.isWebsocket && (fails || lib.encode(message + "\n").None?)
    ensures info.isWebsocket && fails ==> r.delivered == []
    ensures info.isWebsocket && !fails && lib.encode(message).Some? && EncodeTextFrame(lib.encode(message).value).Some? ==>
              Some(r.delivered) == EncodeTextFrame(lib.encode(message).value)
  {
    if info.isWebsocket then
      if fails then Send([], false)
      else
        match lib.encode(message)
        case None => Send([], false)
        case Some(bytes) =>
          match EncodeTextFrame(bytes)
          case None => Send([], false)
          case Some(frame) => Send(frame, false)
    else
      match lib.encode(message + "\n")
      case None => Send([], true)
      case Some(bytes) => if fails then Send([], true) else Send(bytes, false)
  }

  /** The client `sock` is one the broadcast writes to. */
  predicate Addressed(clients: map<Sock, ClientInfo>, exclude: Option<Sock>, sock: Sock) {
    sock in clients && exclude != Some(sock)
  }

  /**
   * The streams after sending `message` to every client of `clients` in
   * `reached` except `exclude`; sockets outside `clients` are untouched.
   */
  function Fanout(lib: Codecs, sent: map<Sock, seq<byte>>, clients: map<Sock, ClientInfo>,
                  reached: set<Sock>, exclude: Option<Sock>, failing: set<Sock>, message: string): (r: map<Sock, seq<byte>>)
    ensures r.Keys == sent.Keys
  {
    map sock | sock in sent ::
      if sock in reached && Addressed(clients, exclude, sock)
      then sent[sock] + SendOutcome(lib, clients[sock], message, sock in failing).delivered
      else sent[sock]
  }

  /** The client `sock` is dropped by the broadcast: it was written to and its send raised. */
  predicate Dropped(lib: Codecs, clients: map<Sock, ClientInfo>, exclude: Option<Sock>,
                    failing: set<Sock>, message: string, sock: Sock) {
    Addressed(clients, exclude, sock) && SendOutcome(lib, clients[sock], message, sock in failing).raised
  }

  /** The registry after the broadcast: the clients not dropped, with unchanged entries. */
  function Survivors(lib: Codecs, clients: map<Sock, ClientInfo>, exclude: Option<Sock>,
                     failing: set<Sock>, message: string): map<Sock, ClientInfo> {
    map sock | sock in clients && !Dropped(lib, clients, exclude, failing, message, sock) :: clients[sock]
  }

  /**
   * `broadcast_message(packet, exclude_socket)`: serialise once, send to
   * every registered client but `exclude`, then remove the clients whose
   * send raised. Which sends raise is the world's answer at this draw.
   */
  function BroadcastSpec(lib: Codecs, world: World, s: State, packet: Json, exclude: Option<Sock>): (r: State)
    requires s.clients.Keys <= s.sent.Keys
    ensures r.history == s.history && r.draws == s.draws + 1
    ensures r.clients.Keys <= s.clients.Keys && r.sent.Keys == s.sent.Keys
    ensures forall sock | sock in r.clients :: r.clients[sock] == s.clients[sock]
    ensures forall sock | sock in s.sent :: s.sent[sock] <= r.sent[sock]
    ensures forall sock | sock in s.clients ::
              sock !in r.clients <==> Dropped(lib, s.clients, exclude, world.sendFails(s.draws), lib.dumps(packet), sock)
    ensures forall sock | sock in s.sent ::
              r.sent[sock] == s.sent[sock] + (if Addressed(s.clients, exclude, sock)
                                              then SendOutcome(lib, s.clients[sock], lib.dumps(packet),
                                                               sock in world.sendFails(s.draws)).delivered
                                              else [])
  {
    var message := lib.dumps(packet);
    var failing := world.sendFails(s.draws);
    var r := s.(sent := Fanout(lib, s.sent, s.clients, s.clients.Keys, exclude, failing, message),
                clients := Survivors(lib, s.clients, exclude, failing, message),
                draws := s.draws + 1);
    r
  }

  /** WebSocket clients are never removed by a broadcast, nor is the excluded socket. */
  lemma BroadcastKeepsWebsockets(lib: Codecs, world: World, s: State, packet: Json, exclude: Option<Sock>, sock: Sock)
    requires s.clients.Keys <= s.sent.Keys
    requires sock in s.clients && (s.clients[sock].isWebsocket || exclude == Some(sock))
    ensures sock in BroadcastSpec(lib, world, s, packet, exclude).clients
  {
  }

  /**
   * A raw client that is written to is removed exactly when its `sendall`
   * raises (the world says it fails, or the text does not encode); when it
   * stays it has received the serialised packet followed by a newline, and
   * when it is removed it has received nothing.
   */
  lemma BroadcastRawClient(lib: Codecs, world: World, s: State, packet: Json, exclude: Option<Sock>, sock: Sock)
    requires s.clients.Keys <= s.sent.Keys
    requires Addressed(s.clients, exclude, sock) && !s.clients[sock].isWebsocket
    ensures var r := BroadcastSpec(lib, world, s, packet, exclude);
            var bytes := lib.encode(lib.dumps(packet) + "\n");
            && (sock in r.clients <==> sock !in world.sendFails(s.draws) && bytes.Some?)
            && (sock in r.clients ==> r.sent[sock] == s.sent[sock] + bytes.value)
            && (sock !in r.clients ==> r.sent[sock] == s.sent[sock])
  {
  }

  /**
   * A WebSocket client that is written to stays registered. It receives
   * the serialised packet as one text frame when the send does not fail and
   * the text encodes into a frame, and otherwise nothing (the failure is
   * swallowed).
   */
  lemma BroadcastWebsocketClient(lib: Codecs, world: World, s: State, packet: Json, exclude: Option<Sock>, sock: Sock)
    requires s.clients.Keys <= s.sent.Keys
    requires Addressed(s.clients, exclude, sock) && s.clients[sock].isWebsocket
    ensures var r := BroadcastSpec(lib, world, s, packet, exclude);
            var bytes := lib.encode(lib.dumps(packet));
            var ok := sock !in world.sendFails(s.draws) && bytes.Some? && EncodeTextFrame(bytes.value).Some?;
            && sock in r.clients
            && (ok ==> r.sent[sock] == s.sent[sock] + EncodeTextFrame(bytes.value).value)
            && (!ok ==> r.sent[sock] == s.sent[sock])
  {
  }

  /** The excluded socket and sockets outside the registry receive nothing. */
  lemma BroadcastSkipsExcluded(lib: Codecs, world: World, s: State, packet: Json, exclude: Option<Sock>, sock: Sock)
    requires s.clients.Keys <= s.sent.Keys
    requires sock in s.sent && (exclude == Some(sock) || sock !in s.clients)
    ensures BroadcastSpec(lib, world, s, packet, exclude).sent[sock] == s.sent[sock]
  {
  }

  /** Sending `message` to one client; the world answers at this draw whether the send raises. */
  function SendToSpec(lib: Codecs, world: World, s: State, sock: Sock, info: ClientInfo, message: string): (r: (State, bool))
    ensures r.0.clients == s.clients && r.0.history == s.history && r.0.draws == s.draws + 1
    ensures r.0.sent.Keys == s.sent.Keys + {sock}
    ensures forall t | t in s.sent && t != sock :: r.0.sent[t] == s.sent[t]
    ensures SentTo(s.sent, sock) <= r.0.sent[sock]
    ensures r.1 ==> !info.isWebsocket && r.0.sent[sock] == SentTo(s.sent, sock)
  {
    var o := SendOutcome(lib, info, message, sock in world.sendFails(s.draws));
    var before := SentTo(s.sent, sock);
    (s.(sent := s.sent[sock := before + o.delivered], draws := s.draws + 1), o.raised)
  }

  /** `str(address)` of an IPv4 address tuple. */
  function AddressText(address: Address): string {
    "('" + address.host + "', " + NatToString(address.port) + ")"
  }

  /**
   * The welcome notice sent to a new connection only. Its `connection_time`
   * is a clock reading of its own, taken before `build_packet` reads the
   * clock for the timestamp.
   */
  function WelcomePacket(address: Address, connectionTime: string, freshId: string, now: string): Packet {
    BuildPacket(SystemSender, "채팅 서버에 오신 것을 환영합니다! (연결: " + AddressText(address) + ")",
                "SYSTEM", JStr(DefaultChannel), Some(map["connection_time" := JStr(connectionTime)]), freshId, now)
  }

  /** The reply to a packet that failed validation, naming the reason. */
  function ErrorPacket(lib: Codecs, reason: Reason, freshId: string, now: string): (p: Packet)
    ensures p.sender == JStr(SystemSender) && p.messageType == "SYSTEM"
    ensures p.body == JStr("프로토콜 오류: " + ReasonText(reason, lib.show))
    ensures p.metadata == map["error" := JBool(true)]
  {
    BuildPacket(SystemSender, "프로토콜 오류: " + ReasonText(reason, lib.show), "SYSTEM",
                JStr(DefaultChannel), Some(map["error" := JBool(true)]), freshId, now)
  }

  /** The notice broadcast when a connection ends. */
  function LeavePacket(email: string, freshId: string, now: string): (p: Packet)
    ensures p.sender == JStr(SystemSender) && p.messageType == "SYSTEM"
    ensures p.body.JStr? && StartsWith(p.body.s, email)
    ensures p.metadata == map["user_left" := JBool(true)]
  {
    var body := email + "님이 채팅방을 나갔습니다.";
    assert body[..|email|] == email;
    BuildPacket(SystemSender, body, "SYSTEM", JStr(DefaultChannel),
                Some(map["user_left" := JBool(true)]), freshId, now)
  }

  /**
   * Every packet the server builds itself (welcome, error reply, leave
   * notice, and an AI reply with text) conforms to the envelope, so
   * validation returns it unchanged (`ToDictValidates`).
   */
  lemma ServerPacketsConform(lib: Codecs, address: Address, connectionTime: string, reason: Reason, email: string,
                             user: Packet, reply: string, freshId: string, now: string)
    requires freshId != "" && now != ""
    requires Truthy(user.channel) && reply != ""
    ensures Conforms(WelcomePacket(address, connectionTime, freshId, now))
    ensures Conforms(ErrorPacket(lib, reason, freshId, now))
    ensures Conforms(LeavePacket(email, freshId, now))
    ensures Conforms(AiPacket(lib, user, reply, freshId, now))
  {
    var welcome := "채팅 서버에 오신 것을 환영합니다! (연결: " + AddressText(address) + ")";
    assert welcome != "" by { assert |welcome| > 0; }
    var leave := email + "님이 채팅방을 나갔습니다.";
    assert leave != "" by { assert |leave| > 0; }
  }

  /** The server-side identity written over what the client claimed. */
  function Stamp(p: Packet, info: ClientInfo): (r: Packet)
    ensures r.sender == JStr(info.email) && Get(r.metadata, "user_id") == JInt(info.userId)
    ensures r.(sender := p.sender, metadata := p.metadata) == p
    ensures forall key | key in p.metadata && key != "user_id" :: key in r.metadata && r.metadata[key] == p.metadata[key]
  {
    p.(sender := JStr(info.email), metadata := p.metadata["user_id" := JInt(info.userId)])
  }

  /** `metadata.get("ask_ai", False)` is truthy. */
  predicate AskAi(p: Packet) {
    Truthy(Get(p.metadata, "ask_ai"))
  }

  /** The bodies of the `CHAT` entries of `entries`, in order. */
  function ChatBodies(entries: seq<Packet>): (bodies: seq<Json>)
    ensures |bodies| <= |entries|
  {
    if entries == [] then []
    else (if entries[0].messageType == "CHAT" then [entries[0].body] else []) + ChatBodies(entries[1..])
  }

  /** `chat_history[-10:]`. */
  function Window(history: seq<Packet>): (w: seq<Packet>)
    ensures |w| == Min(|history|, AiWindow)
    ensures w == history[|history| - |w|..]
  {
    if |history| <= AiWindow then history else history[|history| - AiWindow..]
  }

  /** The context handed to the AI: the `CHAT` bodies among the last ten entries. */
  function AiContext(history: seq<Packet>): (ctx: seq<Json>)
    ensures |ctx| <= AiWindow
  {
    ChatBodies(Window(history))
  }

  lemma {:induction false} ChatBodiesAppend(entries: seq<Packet>, p: Packet)
    ensures ChatBodies(entries + [p]) == ChatBodies(entries) + (if p.messageType == "CHAT" then [p.body] else [])
  {
    if entries != [] {
      assert (entries + [p])[1..] == entries[1..] + [p];
      ChatBodiesAppend(entries[1..], p);
    } else {
      assert [] + [p] == [p];
    }
  }

  /** Bodies of non-`CHAT` entries never reach the AI. */
  lemma {:induction false} ChatBodiesOnlyChat(entries: seq<Packet>)
    requires forall i | 0 <= i < |entries| :: entries[i].messageType != "CHAT"
    ensures ChatBodies(entries) == []
  {
    if entries != [] {
      ChatBodiesOnlyChat(entries[1..]);
    }
  }

  /** Every context entry is the body of a `CHAT` entry in the window. */
  lemma {:induction false} ChatBodiesFromChat(entries: seq<Packet>, k: nat)
    requires k < |ChatBodies(entries)|
    ensures exists i | 0 <= i < |entries| :: entries[i].messageType == "CHAT" && entries[i].body == ChatBodies(entries)[k]
  {
    var head := if entries[0].messageType == "CHAT" then [entries[0].body] else [];
    if k < |head| {
      assert entries[0].messageType == "CHAT" && entries[0].body == ChatBodies(entries)[k];
    } else {
      ChatBodiesFromChat(entries[1..], k - |head|);
      var i :| 0 <= i < |entries[1..]| && entries[1..][i].messageType == "CHAT"
               && entries[1..][i].body == ChatBodies(entries[1..])[k - |head|];
      assert entries[i + 1] == entries[1..][i];
    }
  }

  /**
   * A `CHAT` message just appended to the history is the last entry of the
   * AI context.
   */
  lemma AiContextEndsWithMessage(history: seq<Packet>, p: Packet)
    requires p.messageType == "CHAT"
    ensures var ctx := AiContext(history + [p]);
            |ctx| >= 1 && ctx[|ctx| - 1] == p.body
  {
    var h := history + [p];
    var w := Window(h);
    assert w == w[..|w| - 1] + [p];
    ChatBodiesAppend(w[..|w| - 1], p);
  }

  /**
   * The AI reply: sender `AI-Assistant`, type `AI`, the channel of the
   * message it answers and `in_reply_to` that message's id.
   */
  function AiPacket(lib: Codecs, user: Packet, reply: string, freshId: string, now: string): (p: Packet)
    ensures p.sender == JStr(AiSender) && p.messageType == "AI" && p.channel == user.channel
    ensures p.body == JStr(reply)
    ensures p.metadata == map["source" := JStr(if lib.aiAvailable then "gemini" else "fallback"),
                             "in_reply_to" := user.messageId]
  {
    BuildPacket(AiSender, reply, "AI", user.channel,
                Some(map["source" := JStr(if lib.aiAvailable then "gemini" else "fallback"),
                         "in_reply_to" := user.messageId]), freshId, now)
  }

  /**
   * The AI follow-up of an accepted packet: when the packet asks for one
   * and the AI answers, the reply is built from the history window,
   * appended and broadcast to everyone; otherwise nothing happens.
   */
  function AiFollowUp(lib: Codecs, world: World, s: State, stamped: Packet): (r: State)
    requires s.clients.Keys <= s.sent.Keys
    ensures |r.history| == |s.history| || |r.history| == |s.history| + 1
    ensures r.history[..|s.history|] == s.history
    ensures |r.history| == |s.history| ==> r == s
    ensures |r.history| == |s.history| + 1 ==>
              && AskAi(stamped)
              && lib.aiReply(AiContext(s.history), stamped.body).Some?
              && var ai := r.history[|s.history|];
              && ai.messageType == "AI"
              && ai.sender == JStr(AiSender)
              && ai.channel == stamped.channel
              && ai.body == JStr(lib.aiReply(AiContext(s.history), stamped.body).value)
              && "in_reply_to" in ai.metadata && ai.metadata["in_reply_to"] == stamped.messageId
    ensures AskAi(stamped) && lib.aiReply(AiContext(s.history), stamped.body).Some? ==> |r.history| == |s.history| + 1
    ensures r.clients.Keys <= s.clients.Keys
    ensures forall t | t in r.clients :: r.clients[t] == s.clients[t]
    ensures r.sent.Keys == s.sent.Keys
    ensures forall t | t in s.sent :: s.sent[t] <= r.sent[t]
    ensures |r.history| == |s.history| + 1 ==>
              var ai := lib.dumps(ToDict(r.history[|s.history|]));
              && (forall t | t in s.clients ::
                    t !in r.clients <==> SendOutcome(lib, s.clients[t], ai, t in world.sendFails(s.draws + 1)).raised)
              && (forall t | t in s.sent ::
                    r.sent[t] == s.sent[t] + (if t in s.clients
                                              then SendOutcome(lib, s.clients[t], ai, t in world.sendFails(s.draws + 1)).delivered
                                              else []))
  {
    if !AskAi(stamped) then s
    else
      match lib.aiReply(AiContext(s.history), stamped.body)
      case None => s
      case Some(reply) =>
        var ai := AiPacket(lib, stamped, reply, world.uuid4(s.draws), world.now(s.draws));
        BroadcastSpec(lib, world, State(s.clients, s.history + [ai], s.sent, s.draws + 1), ToDict(ai), None)
  }

  /**
   * An accepted packet: stamped, appended to the history, broadcast to
   * everyone (the sender included), then the AI follow-up.
   */
  function AcceptSpec(lib: Codecs, world: World, s: State, info: ClientInfo, p: Packet): (r: State)
    requires s.clients.Keys <= s.sent.Keys
    ensures s.history + [Stamp(p, info)] <= r.history
    ensures r.clients.Keys <= s.clients.Keys
    ensures forall sock | sock in r.clients :: r.clients[sock] == s.clients[sock]
    ensures r.sent.Keys == s.sent.Keys
    ensures var message := lib.dumps(ToDict(Stamp(p, info)));
            forall sock | sock in s.sent ::
              s.sent[sock] + (if sock in s.clients
                              then SendOutcome(lib, s.clients[sock], message, sock in world.sendFails(s.draws)).delivered
                              else [])
              <= r.sent[sock]
    ensures var message := lib.dumps(ToDict(Stamp(p, info)));
            forall sock | sock in s.clients && SendOutcome(lib, s.clients[sock], message, sock in world.sendFails(s.draws)).raised ::
              sock !in r.clients
  {
    var stamped := Stamp(p, info);
    var s1 := BroadcastSpec(lib, world, State(s.clients, s.history + [stamped], s.sent, s.draws), ToDict(stamped), None);
    StampedReachesAll(lib, world, s, stamped, s1);
    AiFollowUp(lib, world, s1, stamped)
  }

  /**
   * The broadcast of the stamped packet reaches every registered client,
   * whatever the AI follow-up then appends, and a client whose send raised
   * stays removed.
   */
  lemma StampedReachesAll(lib: Codecs, world: World, s: State, stamped: Packet, s1: State)
    requires s.clients.Keys <= s.sent.Keys
    requires s1 == BroadcastSpec(lib, world, State(s.clients, s.history + [stamped], s.sent, s.draws), ToDict(stamped), None)
    ensures var r := AiFollowUp(lib, world, s1, stamped);
            var message := lib.dumps(ToDict(stamped));
            && (forall sock | sock in s.sent ::
                  s.sent[sock] + (if sock in s.clients
                                  then SendOutcome(lib, s.clients[sock], message, sock in world.sendFails(s.draws)).delivered
                                  else [])
                  <= r.sent[sock])
            && (forall sock | sock in s.clients && SendOutcome(lib, s.clients[sock], message, sock in world.sendFails(s.draws)).raised ::
                  sock !in r.clients)
  {
    var r := AiFollowUp(lib, world, s1, stamped);
    var message := lib.dumps(ToDict(stamped));
    forall sock | sock in s.sent
      ensures s.sent[sock] + (if sock in s.clients
                              then SendOutcome(lib, s.clients[sock], message, sock in world.sendFails(s.draws)).delivered
                              else [])
              <= r.sent[sock]
    {
      assert s1.sent[sock] <= r.sent[sock];
    }
  }

  /**
   * What an accepted packet adds to the history: the stamped packet, and
   * after it at most the AI reply, which answers it on its channel.
   */
  lemma AcceptedHistory(lib: Codecs, world: World, s: State, info: ClientInfo, p: Packet)
    requires s.clients.Keys <= s.sent.Keys
    ensures var r := AcceptSpec(lib, world, s, info, p);
            && (|r.history| == |s.history| + 1 || |r.history| == |s.history| + 2)
            && r.history[|s.history|] == Stamp(p, info)
    ensures var r := AcceptSpec(lib, world, s, info, p);
            |r.history| == |s.history| + 2 ==>
              && AskAi(Stamp(p, info))
              && r.history[|s.history| + 1].messageType == "AI"
              && r.history[|s.history| + 1].sender == JStr(AiSender)
              && r.history[|s.history| + 1].channel == p.channel
              && "in_reply_to" in r.history[|s.history| + 1].metadata
              && r.history[|s.history| + 1].metadata["in_reply_to"] == p.messageId
  {
    var stamped := Stamp(p, info);
    var s1 := BroadcastSpec(lib, world, State(s.clients, s.history + [stamped], s.sent, s.draws), ToDict(stamped), None);
    assert s1.history == s.history + [stamped];
    assert AcceptSpec(lib, world, s, info, p) == AiFollowUp(lib, world, s1, stamped);
  }

  /**
   * The answer to a validated line: an accepted packet is recorded and
   * broadcast; a `ProtocolError` is answered to the sender alone with the
   * reason; a `TypeError` from the validator is only logged. The flag is
   * true when answering a raw client raised, which ends the session.
   */
  function RespondSpec(lib: Codecs, world: World, s: State, sock: Sock, info: ClientInfo,
                       v: Result<Packet, Failure>): (r: (State, bool))
    requires s.clients.Keys <= s.sent.Keys && sock in s.sent
    ensures s.history <= r.0.history
    ensures r.0.clients.Keys <= s.clients.Keys
    ensures forall t | t in r.0.clients :: r.0.clients[t] == s.clients[t]
    ensures r.0.sent.Keys == s.sent.Keys
    ensures r.1 ==> !info.isWebsocket
    ensures v.Err? ==> r.0.clients == s.clients && r.0.history == s.history
    ensures v.Err? ==> forall t | t in s.sent && t != sock :: r.0.sent[t] == s.sent[t]
    ensures v.Ok? ==> s.history + [Stamp(v.value, info)] <= r.0.history
    ensures v == Err(Unhashable) ==> r == (s, false)
    ensures v.Err? && v.error.ProtocolError? ==>
              var error := ErrorPacket(lib, v.error.reason, world.uuid4(s.draws), world.now(s.draws));
              var o := SendOutcome(lib, info, lib.dumps(ToDict(error)), sock in world.sendFails(s.draws + 1));
              r.0.sent[sock] == s.sent[sock] + o.delivered && r.1 == o.raised
    ensures r.1 ==> v.Err? && v.error.ProtocolError?
  {
    match v
    case Err(Unhashable) => (s, false)
    case Err(ProtocolError(reason)) =>
      var error := ErrorPacket(lib, reason, world.uuid4(s.draws), world.now(s.draws));
      SendToSpec(lib, world, State(s.clients, s.history, s.sent, s.draws + 1), sock, info, lib.dumps(ToDict(error)))
    case Ok(p) => (AcceptSpec(lib, world, s, info, p), false)
  }

  /**
   * An accepted packet is broadcast to every registered client, the sender
   * included: each one's stream grows by what its send delivered, and the
   * AI follow-up only appends after that.
   */
  lemma RespondBroadcastsAccepted(lib: Codecs, world: World, s: State, sock: Sock, info: ClientInfo, p: Packet)
    requires s.clients.Keys <= s.sent.Keys && sock in s.sent
    ensures var r := RespondSpec(lib, world, s, sock, info, Ok(p));
            var message := lib.dumps(ToDict(Stamp(p, info)));
            && !r.1
            && (forall t | t in s.sent ::
                  s.sent[t] + (if t in s.clients
                               then SendOutcome(lib, s.clients[t], message, t in world.sendFails(s.draws)).delivered
                               else [])
                  <= r.0.sent[t])
            && (forall t | t in s.clients && SendOutcome(lib, s.clients[t], message, t in world.sendFails(s.draws)).raised ::
                  t !in r.0.clients)
  {
    assert RespondSpec(lib, world, s, sock, info, Ok(p)) == (AcceptSpec(lib, world, s, info, p), false);
  }

  /**
   * One stripped, non-empty line from `sock`: parse it, validate it, and
   * answer it. A parse failure is only logged.
   */
  function LineSpec(lib: Codecs, world: World, s: State, sock: Sock, info: ClientInfo, line: string): (r: (State, bool))
    requires s.clients.Keys <= s.sent.Keys && sock in s.sent
    ensures s.history <= r.0.history
    ensures r.0.clients.Keys <= s.clients.Keys
    ensures forall t | t in r.0.clients :: r.0.clients[t] == s.clients[t]
    ensures r.0.sent.Keys == s.sent.Keys
    ensures r.1 ==> !info.isWebsocket
    ensures ValidState(s) && GuestInfo(info) ==> ValidState(r.0)
  {
    match lib.loads(line)
    case None => (s, false)
    case Some(raw) => ParsedSpec(lib, world, s, sock, info, raw)
  }

  /**
   * A line that parses to `raw`: validated with this draw's id and time,
   * then answered. Answering a guest keeps the state valid.
   */
  function ParsedSpec(lib: Codecs, world: World, s: State, sock: Sock, info: ClientInfo, raw: Json): (r: (State, bool))
    requires s.clients.Keys <= s.sent.Keys && sock in s.sent
    ensures ValidState(s) && GuestInfo(info) ==> ValidState(r.0)
  {
    ValidatedPreservesValid(lib, world, s.(draws := s.draws + 1), sock, info, raw, world.uuid4(s.draws), world.now(s.draws));
    RespondSpec(lib, world, s.(draws := s.draws + 1), sock, info, Validate(raw, world.uuid4(s.draws), world.now(s.draws)))
  }

  /** `LineSpec` of a line that parses: the answer to its validation, one draw later. */
  lemma LineSpecParsed(lib: Codecs, world: World, s: State, sock: Sock, info: ClientInfo, line: string, raw: Json)
    requires s.clients.Keys <= s.sent.Keys && sock in s.sent
    requires lib.loads(line) == Some(raw)
    ensures LineSpec(lib, world, s, sock, info, line) == ParsedSpec(lib, world, s, sock, info, raw)
  {
  }

  /** The outcome of one pass of the receive loop. */
  datatype Step = Stop(state: State) | Continue(state: State, rest: seq<byte>, buffer: string)

  /**
   * What a pass does with a stripped line: skip an empty one, otherwise
   * handle it, and carry on unless answering a raw client raised.
   */
  function LineStep(lib: Codecs, world: World, s: State, sock: Sock, info: ClientInfo, line: string,
                    rest: seq<byte>, buffer: string): (step: Step)
    requires s.clients.Keys <= s.sent.Keys && sock in s.sent
    ensures step.Continue? ==> step.rest == rest && step.buffer == buffer
    ensures line == "" ==> step == Continue(s, rest, buffer)
    ensures ValidState(s) && GuestInfo(info) ==> ValidState(step.state)
    ensures s.history <= step.state.history
    ensures step.state.clients.Keys <= s.clients.Keys
    ensures forall t | t in step.state.clients :: step.state.clients[t] == s.clients[t]
    ensures step.state.sent.Keys == s.sent.Keys
  {
    if line == "" then Continue(s, rest, buffer)
    else
      var (s1, fatal) := LineSpec(lib, world, s, sock, info, line);
      if fatal then Stop(s1) else Continue(s1, rest, buffer)
  }

  /**
   * One pass of the receive loop of `handle_client` on the unread input
   * `stream` and the raw-mode `buffer`. It stops when the peer closes, a
   * frame or chunk fails to decode, an empty WebSocket message arrives, or
   * an error reply to a raw client raises; every pass that goes on
   * consumes input.
   */
  function RunStep(lib: Codecs, world: World, s: State, sock: Sock, info: ClientInfo,
                   stream: seq<byte>, buffer: string): (step: Step)
    requires s.clients.Keys <= s.sent.Keys && sock in s.sent
    ensures step.Continue? ==> |step.rest| < |stream|
    ensures ValidState(s) && GuestInfo(info) ==> ValidState(step.state)
    ensures s.history <= step.state.history
    ensures step.state.clients.Keys <= s.clients.Keys
    ensures forall t | t in step.state.clients :: step.state.clients[t] == s.clients[t]
    ensures step.state.sent.Keys == s.sent.Keys
    ensures info.isWebsocket ==>
              var frame := DecodeFrame(stream);
              var text := if frame.payload.Some? then lib.decode(frame.payload.value) else None;
              && (text.None? || text.value == "" ==> step == Stop(s))
              && (text.Some? && text.value != "" ==>
                    step == LineStep(lib, world, s, sock, info, Strip(text.value), frame.rest, buffer))
    ensures !info.isWebsocket ==>
              var chunk := Recv(stream, RawChunk).0;
              var data := if chunk != [] then lib.decode(chunk) else None;
              && (data.None? || data.value == "" ==> step == Stop(s))
              && (data.Some? && data.value != "" && TakeLine(buffer + data.value).0.None? ==>
                    step == Continue(s, Recv(stream, RawChunk).1, buffer + data.value))
              && (data.Some? && data.value != "" && TakeLine(buffer + data.value).0.Some? ==>
                    var (line, remaining) := TakeLine(buffer + data.value);
                    step == LineStep(lib, world, s, sock, info, Strip(line.value), Recv(stream, RawChunk).1, remaining))
  {
    if info.isWebsocket then
      var frame := DecodeFrame(stream);
      if frame.payload.None? then Stop(s)
      else
        match lib.decode(frame.payload.value)
        case None => Stop(s)
        case Some(text) =>
          if text == "" then Stop(s)
          else LineStep(lib, world, s, sock, info, Strip(text), frame.rest, buffer)
    else
      var chunk := Recv(stream, RawChunk).0;
      var rest := Recv(stream, RawChunk).1;
      if chunk == [] then Stop(s)
      else
        match lib.decode(chunk)
        case None => Stop(s)
        case Some(data) =>
          if data == "" then Stop(s)
          else
            var (line, remaining) := TakeLine(buffer + data);
            if line.None? then Continue(s, rest, buffer + data)
            else LineStep(lib, world, s, sock, info, Strip(line.value), rest, remaining)
  }

  /** The receive loop: passes until one stops. */
  function Run(lib: Codecs, world: World, s: State, sock: Sock, info: ClientInfo,
               stream: seq<byte>, buffer: string): (r: State)
    requires s.clients.Keys <= s.sent.Keys && sock in s.sent
    ensures r.clients.Keys <= r.sent.Keys
    decreases |stream|
  {
    match RunStep(lib, world, s, sock, info, stream, buffer)
    case Stop(r) => r
    case Continue(s1, rest, buffer1) => Run(lib, world, s1, sock, info, rest, buffer1)
  }

  /**
   * Registration once the handshake is over: the registry entry, the
   * handshake response recorded, and the welcome notice to the new
   * connection alone (a raw send failure is only logged).
   */
  function WelcomeSpec(lib: Codecs, world: World, s: State, sock: Sock, address: Address,
                       upgraded: bool, response: seq<byte>): (r: (State, ClientInfo))
    ensures r.0.history == s.history
    ensures r.0.clients == s.clients[sock := r.1]
    ensures r.1 == ClientInfo(GuestName(address.port), 0, upgraded)
    ensures r.0.sent.Keys == s.sent.Keys + {sock}
    ensures forall t | t in s.sent && t != sock :: r.0.sent[t] == s.sent[t]
    ensures SentTo(s.sent, sock) + response <= r.0.sent[sock]
    ensures var welcome := WelcomePacket(address, world.now(s.draws), world.uuid4(s.draws + 1), world.now(s.draws + 1));
            r.0.sent[sock] == SentTo(s.sent, sock) + response
                              + SendOutcome(lib, r.1, lib.dumps(ToDict(welcome)), sock in world.sendFails(s.draws + 2)).delivered
  {
    var info := ClientInfo(GuestName(address.port), 0, upgraded);
    var welcome := WelcomePacket(address, world.now(s.draws), world.uuid4(s.draws + 1), world.now(s.draws + 1));
    var s1 := State(s.clients[sock := info], s.history, s.sent[sock := SentTo(s.sent, sock) + response], s.draws + 2);
    (SendToSpec(lib, world, s1, sock, info, lib.dumps(ToDict(welcome))).0, info)
  }

  /**
   * Connection set-up: the handshake, then the registration. Also returns
   * the registry entry and the unread input.
   */
  function ConnectSpec(lib: Codecs, world: World, s: State, sock: Sock, address: Address, input: seq<byte>)
    : (r: (State, ClientInfo, seq<byte>))
    ensures r.0.history == s.history
    ensures r.0.clients == s.clients[sock := r.1]
    ensures r.1 == ClientInfo(GuestName(address.port), 0,
                              Handshake.HandshakeOutcome(lib, input, sock in world.sendFails(s.draws)).upgraded)
    ensures r.0.sent.Keys == s.sent.Keys + {sock}
    ensures forall t | t in s.sent && t != sock :: r.0.sent[t] == s.sent[t]
    ensures r.2 == Handshake.HandshakeOutcome(lib, input, sock in world.sendFails(s.draws)).rest
  {
    var o := Handshake.HandshakeOutcome(lib, input, sock in world.sendFails(s.draws));
    var r := WelcomeSpec(lib, world, State(s.clients, s.history, s.sent, s.draws + 1), sock, address, o.upgraded, o.sent);
    (r.0, r.1, o.rest)
  }

  /** Cleanup: deregister `sock`, then broadcast the leave notice to everyone left. */
  function DisconnectSpec(lib: Codecs, world: World, s: State, sock: Sock, info: ClientInfo): (r: State)
    requires s.clients.Keys <= s.sent.Keys
    ensures sock !in r.clients && r.history == s.history
    ensures r.clients.Keys <= s.clients.Keys - {sock}
    ensures forall t | t in r.clients :: r.clients[t] == s.clients[t]
    ensures r.sent.Keys == s.sent.Keys
    ensures var leave := lib.dumps(ToDict(LeavePacket(info.email, world.uuid4(s.draws), world.now(s.draws))));
            forall t | t in s.clients && t != sock ::
              t !in r.clients <==> SendOutcome(lib, s.clients[t], leave, t in world.sendFails(s.draws + 1)).raised
    ensures var leave := lib.dumps(ToDict(LeavePacket(info.email, world.uuid4(s.draws), world.now(s.draws))));
            forall t | t in s.sent ::
              r.sent[t] == s.sent[t] + (if t in s.clients && t != sock
                                        then SendOutcome(lib, s.clients[t], leave, t in world.sendFails(s.draws + 1)).delivered
                                        else [])
  {
    BroadcastSpec(lib, world, State(s.clients - {sock}, s.history, s.sent, s.draws + 1),
                  ToDict(LeavePacket(info.email, world.uuid4(s.draws), world.now(s.draws))), None)
  }

  /** `handle_client(sock, address)` on the bytes `input` the peer sends. */
  function SessionSpec(lib: Codecs, world: World, s: State, sock: Sock, address: Address, input: seq<byte>): State
    requires s.clients.Keys <= s.sent.Keys
  {
    var (s1, info, rest) := ConnectSpec(lib, world, s, sock, address, input);
    DisconnectSpec(lib, world, Run(lib, world, s1, sock, info, rest, ""), sock, info)
  }

  /** A broadcast keeps every client's stream and every history entry valid. */
  lemma BroadcastPreservesValid(lib: Codecs, world: World, s: State, packet: Json, exclude: Option<Sock>)
    requires ValidState(s)
    ensures ValidState(BroadcastSpec(lib, world, s, packet, exclude))
  {
  }

  /** A stamped packet that passed validation is recorded as the server promises. */
  lemma StampedIsStored(raw: Json, freshId: string, now: string, info: ClientInfo)
    requires GuestInfo(info)
    ensures Validate(raw, freshId, now).Ok? ==> Stored(Stamp(Validate(raw, freshId, now).value, info))
  {
    if Validate(raw, freshId, now).Ok? {
      var p := Validate(raw, freshId, now).value;
      var h := Get(raw.fields, "header").fields;
      assert p.messageType == Get(h, "message_type").s;
      assert Truthy(p.channel) by {
        if !Truthy(Get(h, "channel")) {
          assert p.channel == JStr(DefaultChannel);
        }
      }
    }
  }

  lemma AcceptPreservesValid(lib: Codecs, world: World, s: State, info: ClientInfo, p: Packet)
    requires ValidState(s) && Stored(Stamp(p, info))
    ensures ValidState(AcceptSpec(lib, world, s, info, p))
  {
    var stamped := Stamp(p, info);
    var s0 := State(s.clients, s.history + [stamped], s.sent, s.draws);
    AppendStored(s.clients, s.history, s.sent, stamped);
    var s1 := BroadcastSpec(lib, world, s0, ToDict(stamped), None);
    BroadcastPreservesValid(lib, world, s0, ToDict(stamped), None);
    FollowUpPreservesValid(lib, world, s1, stamped);
  }

  /** An AI reply to a packet on a truthy channel is a valid history entry. */
  lemma AiPacketStored(lib: Codecs, user: Packet, reply: string, freshId: string, now: string)
    requires Truthy(user.channel)
    ensures Stored(AiPacket(lib, user, reply, freshId, now))
  {
    var p := AiPacket(lib, user, reply, freshId, now);
    assert p.version == ProtocolVersion;
    assert p.messageType == "AI" && "AI" in ValidMessageTypes;
    assert p.sender == JStr(AiSender) && "in_reply_to" in p.metadata;
  }

  /** Appending a valid entry keeps every history entry valid. */
  lemma AppendStored(clients: map<Sock, ClientInfo>, history: seq<Packet>, sent: map<Sock, seq<byte>>, p: Packet)
    requires ValidParts(clients, history, sent) && Stored(p)
    ensures ValidParts(clients, history + [p], sent)
  {
    var h := history + [p];
    forall i | 0 <= i < |h|
      ensures Stored(h[i])
    {
      if i < |history| {
        assert h[i] == history[i];
      }
    }
  }

  lemma FollowUpPreservesValid(lib: Codecs, world: World, s: State, stamped: Packet)
    requires ValidState(s) && Truthy(stamped.channel)
    ensures ValidState(AiFollowUp(lib, world, s, stamped))
  {
    if AskAi(stamped) && lib.aiReply(AiContext(s.history), stamped.body).Some? {
      var reply := lib.aiReply(AiContext(s.history), stamped.body).value;
      var ai := AiPacket(lib, stamped, reply, world.uuid4(s.draws), world.now(s.draws));
      AiPacketStored(lib, stamped, reply, world.uuid4(s.draws), world.now(s.draws));
      AppendStored(s.clients, s.history, s.sent, ai);
      var s1 := State(s.clients, s.history + [ai], s.sent, s.draws + 1);
      FollowUpStep(lib, world, s, stamped, ai, s1);
      BroadcastPreservesValid(lib, world, s1, ToDict(ai), None);
    } else {
      FollowUpSkipped(lib, world, s, stamped);
    }
  }

  lemma SendToPreservesValid(lib: Codecs, world: World, s: State, sock: Sock, info: ClientInfo, message: string)
    requires ValidState(s)
    ensures ValidState(SendToSpec(lib, world, s, sock, info, message).0)
  {
  }

  lemma RespondPreservesValid(lib: Codecs, world: World, s: State, sock: Sock, info: ClientInfo,
                              v: Result<Packet, Failure>)
    requires ValidState(s) && sock in s.sent
    requires v.Ok? ==> Stored(Stamp(v.value, info))
    ensures ValidState(RespondSpec(lib, world, s, sock, info, v).0)
  {
    match v
    case Ok(p) =>
      AcceptPreservesValid(lib, world, s, info, p);
    case Err(Unhashable) =>
    case Err(ProtocolError(reason)) =>
      var error := ErrorPacket(lib, reason, world.uuid4(s.draws), world.now(s.draws));
      SendToPreservesValid(lib, world, State(s.clients, s.history, s.sent, s.draws + 1), sock, info,
                           lib.dumps(ToDict(error)));
  }

  /** Answering a validated packet from a guest keeps the state valid. */
  lemma ValidatedPreservesValid(lib: Codecs, world: World, s: State, sock: Sock, info: ClientInfo,
                                raw: Json, freshId: string, now: string)
    requires s.clients.Keys <= s.sent.Keys && sock in s.sent
    ensures ValidState(s) && GuestInfo(info) ==>
              ValidState(RespondSpec(lib, world, s, sock, info, Validate(raw, freshId, now)).0)
  {
    if ValidState(s) && GuestInfo(info) {
      StampedIsStored(raw, freshId, now, info);
      RespondPreservesValid(lib, world, s, sock, info, Validate(raw, freshId, now));
    }
  }

  /**
   * The receive loop only appends to the history, never registers a
   * client, never changes an entry, and writes only to known sockets.
   */
  lemma {:induction false} RunGrows(lib: Codecs, world: World, s: State, sock: Sock, info: ClientInfo,
                                    stream: seq<byte>, buffer: string)
    requires s.clients.Keys <= s.sent.Keys && sock in s.sent
    ensures var r := Run(lib, world, s, sock, info, stream, buffer);
            && s.history <= r.history
            && r.clients.Keys <= s.clients.Keys
            && (forall t | t in r.clients :: r.clients[t] == s.clients[t])
            && r.sent.Keys == s.sent.Keys
    decreases |stream|
  {
    var step := RunStep(lib, world, s, sock, info, stream, buffer);
    if step.Continue? {
      RunGrows(lib, world, step.state, sock, info, step.rest, step.buffer);
    }
  }

  /** The receive loop keeps the server state valid, however the session goes. */
  lemma {:induction false} RunPreservesValid(lib: Codecs, world: World, s: State, sock: Sock, info: ClientInfo,
                                             stream: seq<byte>, buffer: string)
    requires ValidState(s) && sock in s.sent && GuestInfo(info)
    ensures ValidState(Run(lib, world, s, sock, info, stream, buffer))
    decreases |stream|
  {
    var step := RunStep(lib, world, s, sock, info, stream, buffer);
    if step.Continue? {
      RunPreservesValid(lib, world, step.state, sock, info, step.rest, step.buffer);
    }
  }

  lemma ConnectPreservesValid(lib: Codecs, world: World, s: State, sock: Sock, address: Address, input: seq<byte>)
    requires ValidState(s)
    ensures var r := ConnectSpec(lib, world, s, sock, address, input);
            ValidState(r.0) && GuestInfo(r.1) && sock in r.0.sent
  {
  }

  lemma DisconnectPreservesValid(lib: Codecs, world: World, s: State, sock: Sock, info: ClientInfo)
    requires ValidState(s)
    ensures ValidState(DisconnectSpec(lib, world, s, sock, info))
  {
    BroadcastPreservesValid(lib, world, State(s.clients - {sock}, s.history, s.sent, s.draws + 1),
                            ToDict(LeavePacket(info.email, world.uuid4(s.draws), world.now(s.draws))), None);
  }

  /**
   * A whole session keeps the server state valid, keeps the earlier
   * history as a prefix, removes the connection from the registry, and
   * leaves every other client either removed or with its entry unchanged.
   */
  lemma SessionPreservesValid(lib: Codecs, world: World, s: State, sock: Sock, address: Address, input: seq<byte>)
    requires ValidState(s)
    ensures var r := SessionSpec(lib, world, s, sock, address, input);
            && ValidState(r)
            && s.history <= r.history
            && sock !in r.clients
            && r.clients.Keys <= s.clients.Keys
            && (forall t | t in r.clients :: r.clients[t] == s.clients[t])
  {
    var c := ConnectSpec(lib, world, s, sock, address, input);
    ConnectPreservesValid(lib, world, s, sock, address, input);
    RunPreservesValid(lib, world, c.0, sock, c.1, c.2, "");
    RunGrows(lib, world, c.0, sock, c.1, c.2, "");
    var s2 := Run(lib, world, c.0, sock, c.1, c.2, "");
    DisconnectPreservesValid(lib, world, s2, sock, c.1);
    var r := DisconnectSpec(lib, world, s2, sock, c.1);
    assert r == SessionSpec(lib, world, s, sock, address, input);
    forall t | t in r.clients
      ensures t in s.clients && r.clients[t] == s.clients[t]
    {
      assert t != sock && t in s2.clients && t in c.0.clients;
    }
  }

  lemma BroadcastUnfold(lib: Codecs, world: World, s: State, packet: Json, exclude: Option<Sock>)
    requires s.clients.Keys <= s.sent.Keys
    ensures var message := lib.dumps(packet);
            var failing := world.sendFails(s.draws);
            BroadcastSpec(lib, world, s, packet, exclude)
            == State(Survivors(lib, s.clients, exclude, failing, message), s.history,
                     Fanout(lib, s.sent, s.clients, s.clients.Keys, exclude, failing, message), s.draws + 1)
  {
  }

  lemma FanoutNone(lib: Codecs, sent: map<Sock, seq<byte>>, clients: map<Sock, ClientInfo>,
                   exclude: Option<Sock>, failing: set<Sock>, message: string)
    ensures Fanout(lib, sent, clients, {}, exclude, failing, message) == sent
  {
  }

  /** Reaching one more client appends its delivery to its stream alone. */
  lemma FanoutStep(lib: Codecs, sent: map<Sock, seq<byte>>, clients: map<Sock, ClientInfo>, reached: set<Sock>,
                   sock: Sock, exclude: Option<Sock>, failing: set<Sock>, message: string)
    requires clients.Keys <= sent.Keys && sock in clients && sock !in reached
    ensures var before := Fanout(lib, sent, clients, reached, exclude, failing, message);
            var after := Fanout(lib, sent, clients, reached + {sock}, exclude, failing, message);
            after == if exclude != Some(sock)
                     then before[sock := before[sock] + SendOutcome(lib, clients[sock], message, sock in failing).delivered]
                     else before
  {
    var before := Fanout(lib, sent, clients, reached, exclude, failing, message);
    var after := Fanout(lib, sent, clients, reached + {sock}, exclude, failing, message);
    var expected := if exclude != Some(sock)
                    then before[sock := before[sock] + SendOutcome(lib, clients[sock], message, sock in failing).delivered]
                    else before;
    assert after.Keys == expected.Keys;
    forall t | t in after ensures after[t] == expected[t] {
    }
  }

  /** The client reached next is dropped exactly when its send raised. */
  lemma DroppedStep(lib: Codecs, clients: map<Sock, ClientInfo>, exclude: Option<Sock>, failing: set<Sock>,
                    message: string, reached: set<Sock>, sock: Sock, dropped: seq<Sock>, o: Send)
    requires forall t :: t in dropped <==> t in reached && Dropped(lib, clients, exclude, failing, message, t)
    requires sock in clients && exclude != Some(sock)
    requires o == SendOutcome(lib, clients[sock], message, sock in failing)
    ensures var d := if o.raised then dropped + [sock] else dropped;
            forall t :: t in d <==> t in reached + {sock} && Dropped(lib, clients, exclude, failing, message, t)
  {
    assert Dropped(lib, clients, exclude, failing, message, sock) == o.raised;
  }

  /** The registry with the sockets of `gone` removed. */
  function Without(clients: map<Sock, ClientInfo>, gone: seq<Sock>): map<Sock, ClientInfo> {
    map t | t in clients && t !in gone :: clients[t]
  }

  lemma WithoutStep(clients: map<Sock, ClientInfo>, gone: seq<Sock>, i: nat)
    requires i < |gone|
    ensures Without(clients, gone[..i + 1]) == Without(clients, gone[..i]) - {gone[i]}
  {
    assert forall t :: t in gone[..i + 1] <==> t in gone[..i] || t == gone[i] by {
      assert gone[..i + 1] == gone[..i] + [gone[i]];
    }
  }

  lemma WithoutDropped(lib: Codecs, clients: map<Sock, ClientInfo>, exclude: Option<Sock>,
                       failing: set<Sock>, message: string, gone: seq<Sock>)
    requires forall t :: t in gone <==> t in clients && Dropped(lib, clients, exclude, failing, message, t)
    ensures Without(clients, gone) == Survivors(lib, clients, exclude, failing, message)
  {
  }

  /** `AiFollowUp` in terms of the state with the reply recorded. */
  lemma FollowUpStep(lib: Codecs, world: World, s: State, stamped: Packet, ai: Packet, s1: State)
    requires s.clients.Keys <= s.sent.Keys
    requires AskAi(stamped) && lib.aiReply(AiContext(s.history), stamped.body).Some?
    requires ai == AiPacket(lib, stamped, lib.aiReply(AiContext(s.history), stamped.body).value,
                            world.uuid4(s.draws), world.now(s.draws))
    requires s1 == State(s.clients, s.history + [ai], s.sent, s.draws + 1)
    ensures AiFollowUp(lib, world, s, stamped) == BroadcastSpec(lib, world, s1, ToDict(ai), None)
  {
  }

  /** Without a request for the AI, or without an answer, the follow-up does nothing. */
  lemma FollowUpSkipped(lib: Codecs, world: World, s: State, stamped: Packet)
    requires s.clients.Keys <= s.sent.Keys
    requires !AskAi(stamped) || lib.aiReply(AiContext(s.history), stamped.body).None?
    ensures AiFollowUp(lib, world, s, stamped) == s
  {
  }

  /** `DisconnectSpec` in terms of the state right after deregistration. */
  lemma DisconnectSteps(lib: Codecs, world: World, s: State, sock: Sock, info: ClientInfo, s1: State)
    requires s.clients.Keys <= s.sent.Keys
    requires s1 == State(s.clients - {sock}, s.history, s.sent, s.draws + 1)
    ensures DisconnectSpec(lib, world, s, sock, info)
            == BroadcastSpec(lib, world, s1, ToDict(LeavePacket(info.email, world.uuid4(s.draws), world.now(s.draws))), None)
  {
    var j := ToDict(LeavePacket(info.email, world.uuid4(s.draws), world.now(s.draws)));
    assert DisconnectSpec(lib, world, s, sock, info)
           == BroadcastSpec(lib, world, State(s.clients - {sock}, s.history, s.sent, s.draws + 1), j, None);
  }

  /** `WelcomeSpec` in terms of the state right after registration. */
  lemma WelcomeSteps(lib: Codecs, world: World, s: State, sock: Sock, address: Address, upgraded: bool,
                     response: seq<byte>, info: ClientInfo, welcome: Packet, s1: State)
    requires info == ClientInfo(GuestName(address.port), 0, upgraded)
    requires welcome == WelcomePacket(address, world.now(s.draws), world.uuid4(s.draws + 1), world.now(s.draws + 1))
    requires s1 == State(s.clients[sock := info], s.history, s.sent[sock := SentTo(s.sent, sock) + response], s.draws + 2)
    ensures WelcomeSpec(lib, world, s, sock, address, upgraded, response)
            == (SendToSpec(lib, world, s1, sock, info, lib.dumps(ToDict(welcome))).0, info)
  {
  }

  /**
   * The server: the registry `clients`, the history, what every socket has
   * been sent, and the draw counter, updated in place.
   */
  class Server {
    var clients: map<Sock, ClientInfo>
    var history: seq<Packet>
    var sent: map<Sock, seq<byte>>
    var draws: nat
    const lib: Codecs
    const world: World

    function Snapshot(): State
      reads this
    {
      State(clients, history, sent, draws)
    }

    predicate Valid()
      reads this
    {
      ValidState(Snapshot())
    }

    constructor (lib: Codecs, world: World)
      ensures Valid() && this.lib == lib && this.world == world
      ensures Snapshot() == State(map[], [], map[], 0)
    {
      this.lib := lib;
      this.world := world;
      clients := map[];
      history := [];
      sent := map[];
      draws := 0;
    }

    /** One send, building the WebSocket frame as `send_websocket_frame` does. */
    method Deliver(info: ClientInfo, message: string, fails: bool) returns (o: Send)
      ensures o == SendOutcome(lib, info, message, fails)
    {
      if info.isWebsocket {
        o := Send([], false);
        if !fails {
          var bytes := lib.encode(message);
          if bytes.Some? {
            var frame := BuildTextFrame(bytes.value);
            if frame.Some? {
              o := Send(frame.value, false);
            }
          }
        }
      } else {
        var bytes := lib.encode(message + "\n");
        if bytes.None? || fails {
          o := Send([], true);
        } else {
          o := Send(bytes.value, false);
        }
      }
    }

    /** `broadcast_message`: serialise, the sending loop, then the removal loop. */
    method Broadcast(packet: Json, exclude: Option<Sock>)
      requires clients.Keys <= sent.Keys
      modifies this
      ensures Snapshot() == BroadcastSpec(lib, world, old(Snapshot()), packet, exclude)
    {
      ghost var s0 := Snapshot();
      var message := lib.dumps(packet);
      var failing := world.sendFails(draws);
      draws := draws + 1;
      var disconnected := SendAll(message, exclude, failing);
      RemoveAll(disconnected);
      WithoutDropped(lib, s0.clients, exclude, failing, message, disconnected);
      BroadcastUnfold(lib, world, s0, packet, exclude);
    }

    /**
     * The sending loop: every registered client but `exclude` is sent
     * `message`; the clients whose send raised are collected.
     */
    method SendAll(message: string, exclude: Option<Sock>, failing: set<Sock>) returns (disconnected: seq<Sock>)
      requires clients.Keys <= sent.Keys
      modifies this`sent
      ensures sent == Fanout(lib, old(sent), clients, clients.Keys, exclude, failing, message)
      ensures forall t :: t in disconnected <==> t in clients && Dropped(lib, clients, exclude, failing, message, t)
    {
      ghost var sent0 := sent;
      var todo := clients.Keys;
      disconnected := [];
      FanoutNone(lib, sent0, clients, exclude, failing, message);
      while todo != {}
        invariant todo <= clients.Keys
        invariant sent == Fanout(lib, sent0, clients, clients.Keys - todo, exclude, failing, message)
        invariant forall t :: t in disconnected <==>
                    t in clients.Keys - todo && Dropped(lib, clients, exclude, failing, message, t)
        decreases |todo|
      {
        var sock :| sock in todo;
        ghost var reached := clients.Keys - todo;
        disconnected := Reach(sock, message, exclude, failing, sent0, reached, disconnected);
        ReachedGrows(clients.Keys, todo, sock);
        todo := todo - {sock};
      }
      assert clients.Keys - todo == clients.Keys;
    }

    /** Taking `sock` out of the sockets still to visit adds it to those visited. */
    static lemma ReachedGrows(all: set<Sock>, todo: set<Sock>, sock: Sock)
      requires todo <= all && sock in todo
      ensures all - (todo - {sock}) == (all - todo) + {sock}
      ensures |todo - {sock}| < |todo|
    {
    }

    /**
     * One pass of the sending loop: unless `sock` is excluded, send to it,
     * append what it received, and collect it when the send raised.
     */
    method Reach(sock: Sock, message: string, exclude: Option<Sock>, failing: set<Sock>,
                 ghost sent0: map<Sock, seq<byte>>, ghost reached: set<Sock>, disconnected: seq<Sock>)
      returns (collected: seq<Sock>)
      requires clients.Keys <= sent0.Keys && sock in clients && sock !in reached
      requires sent == Fanout(lib, sent0, clients, reached, exclude, failing, message)
      requires forall t :: t in disconnected <==> t in reached && Dropped(lib, clients, exclude, failing, message, t)
      modifies this`sent
      ensures sent == Fanout(lib, sent0, clients, reached + {sock}, exclude, failing, message)
      ensures forall t :: t in collected <==> t in reached + {sock} && Dropped(lib, clients, exclude, failing, message, t)
    {
      FanoutStep(lib, sent0, clients, reached, sock, exclude, failing, message);
      collected := disconnected;
      if exclude != Some(sock) {
        var o := Deliver(clients[sock], message, sock in failing);
        DroppedStep(lib, clients, exclude, failing, message, reached, sock, disconnected, o);
        if o.raised {
          collected := collected + [sock];
        }
        sent := sent[sock := sent[sock] + o.delivered];
      } else {
        assert !Dropped(lib, clients, exclude, failing, message, sock);
      }
    }

    /** The removal loop: `del clients[sock]` for each collected socket still present. */
    method RemoveAll(gone: seq<Sock>)
      modifies this`clients
      ensures clients == Without(old(clients), gone)
    {
      ghost var clients0 := clients;
      assert gone[..0] == [];
      for i := 0 to |gone|
        invariant clients == Without(clients0, gone[..i])
      {
        var sock := gone[i];
        WithoutStep(clients0, gone, i);
        if sock in clients {
          clients := clients - {sock};
        }
      }
      assert gone[..|gone|] == gone;
    }

    /** A send to one client; reports whether it raised. */
    method SendTo(sock: Sock, info: ClientInfo, message: string) returns (raised: bool)
      modifies this
      ensures (Snapshot(), raised) == SendToSpec(lib, world, old(Snapshot()), sock, info, message)
    {
      var fails := sock in world.sendFails(draws);
      draws := draws + 1;
      var o := Deliver(info, message, fails);
      sent := sent[sock := SentTo(sent, sock) + o.delivered];
      raised := o.raised;
    }

    /** The start of `handle_client`: handshake, registration, welcome. */
    method Connect(sock: Sock, address: Address, input: seq<byte>) returns (info: ClientInfo, rest: seq<byte>)
      modifies this
      ensures (Snapshot(), info, rest) == ConnectSpec(lib, world, old(Snapshot()), sock, address, input)
    {
      ghost var s0 := Snapshot();
      var fails := sock in world.sendFails(draws);
      draws := draws + 1;
      var upgraded, response;
      upgraded, rest, response := Handshake.Handshake(lib, input, fails);
      assert Snapshot() == State(s0.clients, s0.history, s0.sent, s0.draws + 1);
      info := Welcome(sock, address, upgraded, response);
    }

    /** The registry entry, the handshake response and the welcome notice. */
    method Welcome(sock: Sock, address: Address, upgraded: bool, response: seq<byte>) returns (info: ClientInfo)
      modifies this
      ensures (Snapshot(), info) == WelcomeSpec(lib, world, old(Snapshot()), sock, address, upgraded, response)
    {
      ghost var s0 := Snapshot();
      var connectionTime := world.now(draws);
      var welcome := WelcomePacket(address, connectionTime, world.uuid4(draws + 1), world.now(draws + 1));
      sent := sent[sock := SentTo(sent, sock) + response];
      info := ClientInfo(GuestName(address.port), 0, upgraded);
      clients := clients[sock := info];
      draws := draws + 2;
      WelcomeSteps(lib, world, s0, sock, address, upgraded, response, info, welcome, Snapshot());
      var _ := SendTo(sock, info, lib.dumps(ToDict(welcome)));
    }

    /** The accepted-packet branch: stamp, record, broadcast, then the AI reply. */
    method Accept(info: ClientInfo, p: Packet)
      requires clients.Keys <= sent.Keys
      modifies this
      ensures Snapshot() == AcceptSpec(lib, world, old(Snapshot()), info, p)
    {
      var stamped := Stamp(p, info);
      history := history + [stamped];
      Broadcast(ToDict(stamped), None);
      FollowUp(stamped);
    }

    /** The `ask_ai` branch: ask the AI and broadcast its reply. */
    method FollowUp(stamped: Packet)
      requires clients.Keys <= sent.Keys
      modifies this
      ensures Snapshot() == AiFollowUp(lib, world, old(Snapshot()), stamped)
    {
      ghost var s0 := Snapshot();
      if AskAi(stamped) {
        var reply := lib.aiReply(AiContext(history), stamped.body);
        if reply.Some? {
          var ai := AiPacket(lib, stamped, reply.value, world.uuid4(draws), world.now(draws));
          FollowUpStep(lib, world, s0, stamped, ai, State(clients, history + [ai], sent, draws + 1));
          draws := draws + 1;
          history := history + [ai];
          Broadcast(ToDict(ai), None);
        }
      }
    }

    /** The handling of one line; true when the session must end. */
    method ProcessLine(sock: Sock, info: ClientInfo, line: string) returns (fatal: bool)
      requires clients.Keys <= sent.Keys && sock in sent
      modifies this
      ensures (Snapshot(), fatal) == LineSpec(lib, world, old(Snapshot()), sock, info, line)
    {
      var raw := lib.loads(line);
      if raw.None? {
        return false;
      }
      ghost var s0 := Snapshot();
      var v := Validate(raw.value, world.uuid4(draws), world.now(draws));
      draws := draws + 1;
      assert Snapshot() == State(s0.clients, s0.history, s0.sent, s0.draws + 1);
      LineSpecParsed(lib, world, s0, sock, info, line, raw.value);
      fatal := Respond(sock, info, v);
    }

    /** The `try` block after validation and its `except ProtocolError` handler. */
    method Respond(sock: Sock, info: ClientInfo, v: Result<Packet, Failure>) returns (fatal: bool)
      requires clients.Keys <= sent.Keys && sock in sent
      modifies this
      ensures (Snapshot(), fatal) == RespondSpec(lib, world, old(Snapshot()), sock, info, v)
    {
      match v {
        case Err(Unhashable) =>
          fatal := false;
        case Err(ProtocolError(reason)) =>
          var error := ErrorPacket(lib, reason, world.uuid4(draws), world.now(draws));
          draws := draws + 1;
          fatal := SendTo(sock, info, lib.dumps(ToDict(error)));
        case Ok(p) =>
          Accept(info, p);
          fatal := false;
      }
    }

    /** The `finally` block of `handle_client`. */
    method Disconnect(sock: Sock, info: ClientInfo)
      requires clients.Keys <= sent.Keys
      modifies this
      ensures Snapshot() == DisconnectSpec(lib, world, old(Snapshot()), sock, info)
    {
      ghost var s0 := Snapshot();
      var leave := LeavePacket(info.email, world.uuid4(draws), world.now(draws));
      if sock in clients {
        clients := clients - {sock};
      }
      draws := draws + 1;
      ghost var s1 := State(clients, history, sent, draws);
      DisconnectSteps(lib, world, s0, sock, info, s1);
      Broadcast(ToDict(leave), None);
    }

    /** The handling of a stripped line within one pass; true when the loop must stop. */
    method Consume(sock: Sock, info: ClientInfo, line: string, rest: seq<byte>, buffer: string)
      returns (stop: bool)
      requires clients.Keys <= sent.Keys && sock in sent
      modifies this
      ensures LineStep(lib, world, old(Snapshot()), sock, info, line, rest, buffer)
              == if stop then Stop(Snapshot()) else Continue(Snapshot(), rest, buffer)
    {
      if line == "" {
        return false;
      }
      stop := ProcessLine(sock, info, line);
    }

    /** One pass of the receive loop of `handle_client`. */
    method Iterate(sock: Sock, info: ClientInfo, stream: seq<byte>, buffer: string)
      returns (stop: bool, rest: seq<byte>, buffer1: string)
      requires clients.Keys <= sent.Keys && sock in sent
      modifies this
      ensures RunStep(lib, world, old(Snapshot()), sock, info, stream, buffer)
              == if stop then Stop(Snapshot()) else Continue(Snapshot(), rest, buffer1)
    {
      if info.isWebsocket {
        var payload;
        payload, rest := ReceiveFrame(stream);
        if payload.None? {
          return true, rest, buffer;
        }
        var text := lib.decode(payload.value);
        if text.None? || text.value == "" {
          return true, rest, buffer;
        }
        buffer1 := buffer;
        stop := Consume(sock, info, Strip(text.value), rest, buffer1);
      } else {
        var chunk := Recv(stream, RawChunk).0;
        rest := Recv(stream, RawChunk).1;
        if chunk == [] {
          return true, rest, buffer;
        }
        var data := lib.decode(chunk);
        if data.None? || data.value == "" {
          return true, rest, buffer;
        }
        buffer1 := buffer + data.value;
        if '\n' !in buffer1 {
          return false, rest, buffer1;
        }
        var (first, remaining) := TakeLine(buffer1);
        buffer1 := remaining;
        stop := Consume(sock, info, Strip(first.value), rest, buffer1);
      }
    }

    /** `handle_client` for the connection `sock` whose peer sends `input`. */
    method HandleClient(sock: Sock, address: Address, input: seq<byte>)
      requires Valid()
      modifies this
      ensures Valid()
      ensures Snapshot() == SessionSpec(lib, world, old(Snapshot()), sock, address, input)
    {
      SessionPreservesValid(lib, world, Snapshot(), sock, address, input);
      var info, stream := Connect(sock, address, input);
      ghost var final := Run(lib, world, Snapshot(), sock, info, stream, "");
      var buffer := "";
      while true
        invariant clients.Keys <= sent.Keys && sock in sent
        invariant Run(lib, world, Snapshot(), sock, info, stream, buffer) == final
        decreases |stream|
      {
        ghost var s0 := Snapshot();
        var stop, rest, buffer1 := Iterate(sock, info, stream, buffer);
        if stop {
          break;
        }
        stream, buffer := rest, buffer1;
      }
      Disconnect(sock, info);
    }
  }
}
