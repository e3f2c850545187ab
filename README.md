# Real-time chat core of AI-Community, in Dafny

This project models the chat subsystem of the AI-Community web application:

- **Packet protocol** (`gui/chat_protocol.py`): the eight-field JSON envelope
  (`version`, `message_type`, `message_id`, `sender`, `channel`, `timestamp`,
  `body`, `metadata`). It covers the `validate_packet` guard chain with its
  defaults, `Packet.to_dict` and `build_packet`.
- **WebSocket chat server** (`socket/socket_chat_server.py`):
  - the opening handshake (sections 1.3 and 4.2.2 of RFC 6455);
  - the frame encoder and decoder (sections 5.2 and 5.3 of RFC 6455);
  - `broadcast_message` over the client registry;
  - the session loop of `handle_client`: raw-line buffering, identity
    stamping, history, the AI context window, the error reply and cleanup.
- **Community page helpers** (`static/js/community.js`): `escapeHtml` and the
  relative-time buckets of `formatDate`.

Layout, one module per file:

| file | module | models |
|---|---|---|
| `wrappers.dfy` | `Wrappers` | `Option`, `Result` |
| `json.dfy` | `Json` | decoded JSON values, Python truthiness, `dict.get`, `a or b` |
| `bytes.dfy` | `Bytes` | bytes, big-endian `struct.pack`/`unpack`, XOR, `sock.recv` on a byte stream |
| `pytext.dfy` | `PyText` | `str.strip`, `split('\n', 1)`, `split('\r\n')`, `str(int)` |
| `foreign.dfy` | `Foreign` | library calls and the environment, passed in as function values |
| `protocol.dfy` | `ChatProtocol` | `gui/chat_protocol.py` |
| `frames.dfy` | `FrameCodec` | `send_websocket_frame`, `receive_websocket_frame` |
| `handshake.dfy` | `Handshake` | `websocket_handshake` |
| `server.dfy` | `ChatServer` | registry, history, `broadcast_message`, `handle_client` |
| `community.dfy` | `Community` | `escapeHtml`, `formatDate` bucketing |

The packet protocol and the page helpers are pure, so they are modelled as
functions and lemmas. The server is imperative. Its steps are specified as
functions from the server state before a step to the state after it. The
class `ChatServer.Server` holds the same state as fields: the registry
`clients`, the `history`, the bytes written to each socket (`sent`) and a
counter of environment consultations (`draws`). Its methods update these
fields in place with the source's loops. Each method is proved to end in the
state its specification function gives, and the lemmas prove what the source
promises about those functions.

Each socket's input is a byte sequence consumed from the front. Environment
answers are read from a `World` at the current value of `draws`:
- the `uuid4()` string;
- the UTC time;
- the set of sockets whose send raises.

SHA-1, base64, UTF-8 encode and decode, `json.dumps`, `json.loads`, `str()`
and the AI adapter are fields of a `Codecs` value. Nothing is assumed about
them beyond their types.

Where the code departs from its own docstrings or from RFC 6455, the model
follows the code:

- A list- or object-valued `message_type` makes Python's set-membership test
  raise `TypeError` before any `ProtocolError` is raised. The session only
  logs it and sends no error reply. The model keeps this as a separate
  failure, `Unhashable`.
- A frame whose stream ends inside the payload is not rejected. The decoder
  returns the bytes that arrived, unmasked. A short extended-length field
  gives no result.
- A failed send to a WebSocket client is swallowed inside the frame sender.
  A broadcast therefore never removes a WebSocket client. Only raw-line
  clients whose `sendall` raised are removed.
- If the error reply to a raw-line client raises, the exception leaves the
  protocol-error handler and ends the session.
- The handshake reads 1024 bytes at a time. Bytes received after the blank
  line in the same read belong to the request, and the session never sees
  them.
- A raw-line client has to get through the handshake first, and the
  handshake keeps reading until CR LF CR LF
  (`Handshake.HandshakeNeedsTerminator`). A client that only sends JSON
  lines, as the terminal client in socket/socket_chat_client_test.py:106-111
  does, has all its input swallowed by that loop and is never answered
  while it stays connected.

## Model

| member | source | states |
|---|---|---|
| `ChatProtocol.Validate` | gui/chat_protocol.py:76-124 | accepts exactly the inputs satisfying `Acceptable`, in both directions. A non-object is refused as "not an object". The `TypeError` of an unhashable `message_type` happens exactly when the packet is an object, header and payload are objects, the version is "1.0" and the type is a list or object. The result has version "1.0" and copies type, sender and body. Truthy id, channel and timestamp are kept; falsy ones become the fresh id, "lobby" or the current time. Falsy metadata becomes `{}`; truthy metadata is kept. |
| `ChatProtocol.ValidateIdempotent` | gui/chat_protocol.py:111-124 | validating the serialised result of a successful validation again returns the same packet, whatever fresh id and time the second call gets |
| `ChatProtocol.FixedPointIffConforms` | gui/chat_protocol.py:87-109 | a packet is a fixed point of `to_dict` followed by validation exactly when it conforms to the envelope rules |
| `ChatProtocol.ToDict` | gui/chat_protocol.py:56-70 | `to_dict` yields an object whose `header` and `payload` are objects |
| `ChatProtocol.BuildPacket` | gui/chat_protocol.py:127-143 | a built packet has version "1.0" and the fresh id and timestamp. Missing metadata becomes `{}`. |
| `ChatProtocol.ToDictValidates` | gui/chat_protocol.py:76-124 | a conforming packet passes validation unchanged |
| `ChatProtocol.BuildPacketValidates` | gui/chat_protocol.py:127-143 | `build_packet` with a non-empty sender and body, a valid type and a truthy channel gives a fixed point of `validate_packet` |
| `Bytes.ToBigEndian` | socket/socket_chat_server.py:89-94 | `struct.pack` yields exactly `width` bytes, which read back big-endian as the length |
| `Bytes.XorTwice` | socket/socket_chat_server.py:134-136 | XOR with the same mask byte twice restores the byte |
| `Bytes.Recv` | socket/socket_chat_server.py:108 | a read returns at most the requested count, and what it returns plus what remains is the stream |
| `FrameCodec.EncodeTextFrame` | socket/socket_chat_server.py:77-101 | first byte 0x81. The header is 2, 4 or 10 bytes. The length is a 7-bit value up to 125, then 126 plus 16 big-endian bits up to 65535, otherwise 127 plus 64 big-endian bits. The payload follows unmasked and unchanged. A frame exists exactly when the length fits in 64 bits. |
| `FrameCodec.BuildTextFrame` | socket/socket_chat_server.py:84-96 | appending the header and payload pieces in the source's order builds exactly the encoded frame |
| `FrameCodec.DecodeLength` | socket/socket_chat_server.py:108-120 | fewer than two header bytes give no frame; on success only input after the length field remains |
| `FrameCodec.DecodeFrame` | socket/socket_chat_server.py:104-142 | a decoded frame exists exactly when the header and extended length arrived. Decoding always consumes input, and what remains is a suffix. |
| `FrameCodec.ReceiveFrame` | socket/socket_chat_server.py:104-142 | the header read, mask read, payload loop and unmasking loop give exactly `DecodeFrame` |
| `FrameCodec.ReadPayload` | socket/socket_chat_server.py:126-131 | the payload loop collects the first `min(length, available)` bytes and stops early when the peer closes |
| `FrameCodec.UnmaskPayload` | socket/socket_chat_server.py:134-136 | the unmasking loop XORs byte `i` with `key[i % 4]` |
| `FrameCodec.UnmaskTwice` | socket/socket_chat_server.py:134-136 | masking twice with the same four-byte key is the identity |
| `FrameCodec.DecodeClientFrame` | socket/socket_chat_server.py:104-136 | round trip: the encoded frame, with the mask bit set, a four-byte key inserted and the payload masked, decodes to the original payload and leaves the following bytes unread |
| `FrameCodec.DecodeTruncatedClientFrame` | socket/socket_chat_server.py:126-131 | a client frame cut off inside its payload decodes to the payload bytes that arrived |
| `Handshake.ReadRequestSpec` | socket/socket_chat_server.py:35-39 | the read loop succeeds exactly when the input contains CR LF CR LF. On success it splits the input into a request holding the terminator and the unread rest. |
| `Handshake.ReadRequest` | socket/socket_chat_server.py:33-39 | the `while` loop of 1024-byte reads computes the reading function |
| `Handshake.FindKey` | socket/socket_chat_server.py:45-49 | the line scan stops at the first line starting with `Sec-WebSocket-Key:` and yields its stripped value |
| `Handshake.HeaderValueMissing` | socket/socket_chat_server.py:45-52 | no key is found exactly when no line starts with `Sec-WebSocket-Key:` |
| `Handshake.HeaderValueFirstMatch` | socket/socket_chat_server.py:46-49 | a key found is the stripped text after the first colon of the first matching line |
| `Handshake.Handshake` | socket/socket_chat_server.py:30-74 | the step-by-step handshake computes `HandshakeOutcome` |
| `Handshake.HandshakeOutcome` | socket/socket_chat_server.py:30-74 | a failed handshake writes nothing; what remains of the input is a suffix of it |
| `Handshake.HandshakeNeedsTerminator` | socket/socket_chat_server.py:35-38 | without CR LF CR LF in the input the handshake fails, having read everything |
| `Handshake.HandshakeUpgrades` | socket/socket_chat_server.py:51-70 | a successful upgrade found a non-empty key in the request. It wrote the 101 response carrying `base64(SHA-1(key + GUID))`. |
| `Handshake.UpgradesWhenKeyed` | socket/socket_chat_server.py:35-69 | conversely, a request read up to its blank line that decodes, has a non-empty key whose token and response encode, and whose send does not raise is upgraded, writing that response and leaving the rest unread |
| `Handshake.ResponseCarriesToken` | socket/socket_chat_server.py:60-67 | the 101 response, split into lines, carries the accept token under `Sec-WebSocket-Accept:` |
| `PyText.StripSpec` | socket/socket_chat_server.py:48 | `strip()` returns the part between the leading and trailing whitespace, with no whitespace at either end |
| `PyText.TakeLine` | socket/socket_chat_server.py:227-230 | with no newline in the buffer nothing is taken. Otherwise the buffer is the line, a newline and the rest, and the line contains no newline. |
| `PyText.SplitCrlf` | socket/socket_chat_server.py:43 | `split('\r\n')` gives at least one piece, none containing CR LF, whose join is the input |
| `PyText.NatToString` | socket/socket_chat_server.py:177 | decimal digits without leading zeros that parse back to the number |
| `ChatServer.GuestName` | socket/socket_chat_server.py:177 | the identity of a connection starts with `guest_` |
| `ChatServer.SendOutcome` | socket/socket_chat_server.py:153-161 | a WebSocket send never raises. It delivers the text frame of the UTF-8 message whenever the send does not fail and the message encodes into a frame, and nothing otherwise. A raw send raises exactly when the world makes it fail or the message plus a newline does not encode; otherwise it delivers that UTF-8. |
| `ChatServer.BroadcastSpec` | socket/socket_chat_server.py:145-166 | a broadcast keeps the history, never adds clients and changes no surviving entry. A registered client is removed exactly when it was addressed and its send raised. Every addressed socket's stream grows by exactly what its send delivered; every other stream is unchanged. |
| `ChatServer.BroadcastKeepsWebsockets` | socket/socket_chat_server.py:99-101 | a broadcast never removes a WebSocket client or the excluded socket |
| `ChatServer.BroadcastRawClient` | socket/socket_chat_server.py:156-161 | an addressed raw client stays exactly when its send does not fail and the packet text plus a newline encodes. Then it has received those bytes; otherwise it is removed and has received nothing. |
| `ChatServer.BroadcastWebsocketClient` | socket/socket_chat_server.py:154-155 | an addressed WebSocket client stays registered. It receives the packet's text frame exactly when the send does not fail and the text encodes into a frame, and otherwise nothing. |
| `ChatServer.BroadcastSkipsExcluded` | socket/socket_chat_server.py:151-152 | the excluded socket and unregistered sockets receive nothing |
| `ChatServer.Server.Broadcast` | socket/socket_chat_server.py:145-166 | serialising once, the sending loop and the removal loop give exactly `BroadcastSpec` |
| `ChatServer.Server.SendAll` | socket/socket_chat_server.py:150-161 | the sending loop appends each addressed client's delivery. It collects exactly the addressed clients whose send raised. |
| `ChatServer.Server.RemoveAll` | socket/socket_chat_server.py:163-166 | the removal loop deletes exactly the collected sockets |
| `ChatServer.Server.Deliver` | socket/socket_chat_server.py:153-158 | one send, with the frame built by the encoder, equals `SendOutcome` |
| `ChatServer.Stamp` | socket/socket_chat_server.py:243-245 | the sender becomes the session's identity and `metadata.user_id` its user id. Every other field and metadata key is kept. |
| `ChatServer.Window` | socket/socket_chat_server.py:260 | `chat_history[-10:]`: the last `min(10, n)` entries |
| `ChatServer.AiContextEndsWithMessage` | socket/socket_chat_server.py:248-262 | after the user's CHAT packet is appended, its body is the last element of the AI context |
| `ChatServer.ChatBodiesFromChat` | socket/socket_chat_server.py:258-262 | every context entry is the body of a CHAT entry of the window |
| `ChatServer.ChatBodiesOnlyChat` | socket/socket_chat_server.py:261 | windows without CHAT entries give an empty context |
| `ChatServer.AiPacket` | socket/socket_chat_server.py:266-275 | the AI reply is an `AI` packet from `AI-Assistant`. It has the user packet's channel, the reply text, and metadata `source` and `in_reply_to` = the message id. |
| `ChatServer.AiFollowUp` | socket/socket_chat_server.py:255-278 | the AI reply is appended (only when `ask_ai` is truthy and the AI answers) with the right type, sender, channel, body and `in_reply_to`; the earlier history is kept. When appended, the reply is broadcast to every registered client: each stream grows by exactly what its send delivered, and a client is removed exactly when its send raised. Otherwise nothing changes. |
| `ChatServer.AcceptSpec` | socket/socket_chat_server.py:243-278 | the stamped packet is appended to the history and broadcast to every registered client, the sender included. Each stream begins with its old contents plus what its send of the stamped packet delivered, and a client whose send raised is gone afterwards. |
| `ChatServer.StampedReachesAll` | socket/socket_chat_server.py:253-278 | the AI follow-up after the broadcast of the stamped packet only appends to streams and never re-registers a dropped client |
| `ChatServer.RespondBroadcastsAccepted` | socket/socket_chat_server.py:243-253 | answering an accepted packet is never fatal and broadcasts the stamped packet to every registered client, the sender included |
| `ChatServer.AcceptedHistory` | socket/socket_chat_server.py:243-278 | an accepted packet adds the stamped packet to the history. It may add an AI reply after it, which answers that packet on its channel. |
| `ChatServer.RespondSpec` | socket/socket_chat_server.py:241-300 | an accepted packet is appended to the history after stamping. A rejected packet changes neither registry nor history. A `TypeError` changes nothing. A `ProtocolError` appends the send outcome of the serialised error packet to the sender's stream alone. The session ends exactly when that reply is to a raw client and its send raised. |
| `ChatServer.ErrorPacket` | socket/socket_chat_server.py:282-288 | the error reply is a SYSTEM packet whose body names the reason, with metadata `error: true` |
| `ChatServer.LeavePacket` | socket/socket_chat_server.py:312-317 | the leave notice is a SYSTEM packet whose body starts with the departing identity |
| `ChatServer.ServerPacketsConform` | socket/socket_chat_server.py:191-317 | welcome, error, leave and AI packets all conform to the envelope, so they pass validation unchanged |
| `ChatServer.StampedIsStored` | socket/socket_chat_server.py:241-245 | a validated, stamped packet meets the history invariant: valid type and version, truthy channel, guest sender, `user_id` 0 |
| `ChatServer.LineSpec` | socket/socket_chat_server.py:236-300 | handling a line only extends the history, never adds clients and keeps the state invariant |
| `ChatServer.RunStep` | socket/socket_chat_server.py:210-234 | each pass of the receive loop that continues consumes input and keeps the state invariant. A WebSocket pass stops on a missing, undecodable or empty message, and otherwise handles its stripped text. A raw pass stops on an empty, undecodable or empty-text chunk. Without a newline in the buffer plus the chunk, it changes nothing and carries the grown buffer. Otherwise it handles the stripped text before the first newline and keeps the rest as the buffer. |
| `ChatServer.RunGrows` | socket/socket_chat_server.py:209-300 | the receive loop only appends to the history and never registers a client or changes an entry |
| `ChatServer.RunPreservesValid` | socket/socket_chat_server.py:209-300 | the receive loop keeps the registry and history invariant whatever the input |
| `ChatServer.WelcomeSpec` | socket/socket_chat_server.py:176-205 | registration adds `guest_<port>`, user id 0, with the transport decided by the handshake, and writes only to the new socket. That socket receives the handshake response followed by whatever the welcome send delivers, which is the welcome packet when the send succeeds. The welcome's `connection_time` and its timestamp are two separate clock readings. |
| `ChatServer.DisconnectSpec` | socket/socket_chat_server.py:305-318 | after cleanup the session is no longer registered and the history is unchanged. Every other registered client is sent the leave notice and receives what its send delivers. It is removed exactly when that send raised. The closing socket and unregistered sockets receive nothing. |
| `ChatServer.SessionPreservesValid` | socket/socket_chat_server.py:169-321 | a whole session keeps the invariant and the earlier history, deregisters the session and never changes another client's entry |
| `ChatServer.Server.HandleClient` | socket/socket_chat_server.py:169-321 | the connect step, receive loop and cleanup compute `SessionSpec` and keep `Valid()` |
| `ChatServer.Server.Iterate` | socket/socket_chat_server.py:210-234 | one pass of the loop computes `RunStep` |
| `ChatServer.Server.Accept` | socket/socket_chat_server.py:243-278 | stamping, appending, broadcasting and the AI follow-up compute `AcceptSpec`, so the stamped packet reaches every registered client, the sender included |
| `ChatServer.Server.Respond` | socket/socket_chat_server.py:282-294 | the answer to a validation result computes `RespondSpec` |
| `ChatServer.Server.Disconnect` | socket/socket_chat_server.py:305-318 | deregistering and broadcasting the leave notice computes `DisconnectSpec` |
| `Community.EscapeHtml` | static/js/community.js:416-427 | a falsy value gives `''`. Any other value is converted with `String()` and escaped. |
| `Community.EscapeIsSafe` | static/js/community.js:426 | escaped text contains no raw `<`, `>`, `"` or `'` |
| `Community.EscapeHtmlIsSafe` | static/js/community.js:416-427 | the result of `escapeHtml` is HTML-safe whatever it is given |
| `Community.UnescapeEscape` | static/js/community.js:419-426 | decoding the five entities returns the original text, so each special character maps to its entity and every other character is copied |
| `Community.EscapeUnchanged` | static/js/community.js:426 | text comes through unchanged exactly when it has none of `& < > " '` |
| `Community.EscapeInjective` | static/js/community.js:419-426 | different texts never escape to the same HTML |
| `Community.EscapeAppend` | static/js/community.js:426 | the global replace works character by character: escaping a concatenation escapes each part |
| `Community.Bucket` | static/js/community.js:429-441 | under a minute (future dates included) is "just now". Then 1-59 whole minutes below an hour, 1-23 whole hours below a day and 1-6 whole days below a week, each count the floor of the age in that unit. A week or more falls back. |
| `Community.RelativeTime` | static/js/community.js:432-441 | the label is `방금 전`, `<floor(diff/60000)>분 전`, `<floor(diff/3600000)>시간 전` or `<floor(diff/86400000)>일 전`. There is none from a week on. |
| `Community.BucketCountMonotone` | static/js/community.js:434-441 | within one bucket an older post never shows a smaller count |

## Left out

- Threads, `clients_lock`, the accept loop `start_server`, and the advisory
  `MAX_CLIENTS`. The registry and history are single-threaded state, and
  interleavings between sessions are not modelled.
- SHA-1, base64, UTF-8, `json.dumps`/`json.loads`, `str()`, `uuid4()`, the
  clock and `ai_service.reply` are function values with no properties. The
  RFC 6455 example key and accept token therefore cannot be proved.
- Logging (`print`) and `client_socket.close()`.
- Bytes.Recv: a read returns as many bytes as were requested and are
  available. TCP's freedom to deliver fewer bytes while the peer is still
  open is not modelled.
- JSON floating-point numbers are not modelled. Neither are JavaScript
  non-integer numbers, `NaN` or invalid dates.
- The locale date of `toLocaleDateString` for ages of a week or more.
- Community.EscapeHtml: `String()` of an object or array is supplied as
  text, not computed.
- Community.ToJsString: a number prints as its full decimal digits. JavaScript
  switches to exponent notation from 1e21 (`"1e+21"`), and integers beyond
  2^53 are not exact JavaScript numbers, so the model matches `String()`
  only for integers of magnitude below 1e21 that a double holds exactly.
- ChatServer.SendOutcome: a `sendall` that raises is modelled as delivering
  nothing. A real `sendall` may already have written part of the bytes
  before raising, and that prefix is not modelled.
- The iteration order of the Python dict `clients`. Each socket's output
  stream is exact; the order of sends across sockets is not.
- The object identity Python shares between the raw packet's metadata and
  the normalised packet's metadata is not observable here, so it is not
  modelled.
- Flask routes, MySQL storage, password hashing, the HTTP and terminal
  clients and the rest of the page script are not part of this model.
