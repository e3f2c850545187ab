/**
 * The chat packet contract: the eight-field envelope, its validation and
 * normalisation, and the construction of server-side packets.
 *
 * A packet travels as a JSON object
 *   {"header":  {"version", "message_type", "message_id", "sender",
 *                "channel", "timestamp"},
 *    "payload": {"body", "metadata"}}.
 * The values `uuid.uuid4()` and the current UTC time would produce are
 * parameters (`freshId`, `now`).
 */
module ChatProtocol {
  import opened Wrappers
  import opened Json

  const ProtocolVersion: string := "1.0"
  const DefaultChannel: string := "lobby"
  const ValidMessageTypes: set<string> := {"CHAT", "SYSTEM", "AI"}

  /**
   * The normalised envelope. `message_id`, `sender`, `channel`,
   * `timestamp` and `body` keep whatever JSON value the client sent
   * (validation only checks their truthiness), so they are `Json`.
   */
  datatype Packet = Packet(
    version: string,
    messageType: string,
    messageId: Json,
    sender: Json,
    channel: Json,
    timestamp: Json,
    body: Json,
    metadata: map<string, Json>)

  /** Why a packet is refused; each names one guard of the validator. */
  datatype Reason =
    | NotAnObject
    | MissingHeaderOrPayload
    | UnsupportedVersion(found: Json)
    | InvalidMessageType
    | SenderRequired
    | BodyRequired
    | MetadataNotObject

  /**
   * `ProtocolError` carries a reason. A list- or dict-valued
   * `message_type` makes the membership test itself raise `TypeError`
   * before any `ProtocolError` can be raised: that is `Unhashable`.
   */
  datatype Failure = ProtocolError(reason: Reason) | Unhashable

  /** The text of each `ProtocolError`; `show` is Python's `str()`. */
  function ReasonText(r: Reason, show: Json -> string): string {
    match r
    case NotAnObject => "packet must be a JSON object"
    case MissingHeaderOrPayload => "packet requires header and payload objects"
    case UnsupportedVersion(v) => "unsupported protocol version: " + show(v)
    case InvalidMessageType => "invalid message_type"
    case SenderRequired => "sender is required"
    case BodyRequired => "payload.body is required"
    case MetadataNotObject => "payload.metadata must be an object"
  }

  /** `Packet.to_dict()`: the nested JSON object of a packet. */
  function ToDict(p: Packet): (j: Json)
    ensures j.JObj? && "header" in j.fields && "payload" in j.fields
    ensures j.fields["header"].JObj? && j.fields["payload"].JObj?
  {
    JObj(map[
      "header" := JObj(map[
        "version" := JStr(p.version),
        "message_type" := JStr(p.messageType),
        "message_id" := p.messageId,
        "sender" := p.sender,
        "channel" := p.channel,
        "timestamp" := p.timestamp]),
      "payload" := JObj(map[
        "body" := p.body,
        "metadata" := JObj(p.metadata)])])
  }

  /** The body guard: only None (or a missing key) and "" are refused. */
  predicate BodyPresent(body: Json) {
    body != JNull && body != JStr("")
  }

  /**
   * What every normalised packet satisfies: the supported version, a known
   * type, truthy id, sender, channel and timestamp, and a present body.
   */
  predicate Conforms(p: Packet) {
    && p.version == ProtocolVersion
    && p.messageType in ValidMessageTypes
    && Truthy(p.messageId)
    && Truthy(p.sender)
    && Truthy(p.channel)
    && Truthy(p.timestamp)
    && BodyPresent(p.body)
  }

  /**
   * The acceptance rule stated field by field, independently of the order
   * in which the validator tests it.
   */
  predicate Acceptable(raw: Json) {
    && raw.JObj?
    && Get(raw.fields, "header").JObj?
    && Get(raw.fields, "payload").JObj?
    && var h := Get(raw.fields, "header").fields;
    && var pl := Get(raw.fields, "payload").fields;
    && Get(h, "version") == JStr(ProtocolVersion)
    && Get(h, "message_type").JStr?
    && Get(h, "message_type").s in ValidMessageTypes
    && Truthy(Get(h, "sender"))
    && BodyPresent(Get(pl, "body"))
    && (!Truthy(Get(pl, "metadata")) || Get(pl, "metadata").JObj?)
  }

  /**
   * `validate_packet(raw)`: the guards in the order the source tests them;
   * on success the fresh envelope with the defaults filled in.
   */
  function Validate(raw: Json, freshId: string, now: string): (r: Result<Packet, Failure>)
    ensures r.Ok? <==> Acceptable(raw)
    ensures r.Ok? ==> r.value.version == ProtocolVersion
    ensures r.Ok? && freshId != "" && now != "" ==> Conforms(r.value)
    ensures r.Ok? ==>
      var h := Get(raw.fields, "header").fields;
      var pl := Get(raw.fields, "payload").fields;
      && r.value.messageType == Get(h, "message_type").s
      && r.value.sender == Get(h, "sender")
      && r.value.body == Get(pl, "body")
      && (Truthy(Get(h, "message_id")) ==> r.value.messageId == Get(h, "message_id"))
      && (!Truthy(Get(h, "message_id")) ==> r.value.messageId == JStr(freshId))
      && (Truthy(Get(h, "channel")) ==> r.value.channel == Get(h, "channel"))
      && (!Truthy(Get(h, "channel")) ==> r.value.channel == JStr(DefaultChannel))
      && (Truthy(Get(h, "timestamp")) ==> r.value.timestamp == Get(h, "timestamp"))
      && (!Truthy(Get(h, "timestamp")) ==> r.value.timestamp == JStr(now))
      && (Truthy(Get(pl, "metadata")) ==> JObj(r.value.metadata) == Get(pl, "metadata"))
      && (!Truthy(Get(pl, "metadata")) ==> r.value.metadata == map[])
    ensures !raw.JObj? ==> r == Err(ProtocolError(NotAnObject))
    ensures r == Err(Unhashable) <==>
      && raw.JObj? && Get(raw.fields, "header").JObj? && Get(raw.fields, "payload").JObj?
      && Get(Get(raw.fields, "header").fields, "version") == JStr(ProtocolVersion)
      && !Hashable(Get(Get(raw.fields, "header").fields, "message_type"))
  {
    if !raw.JObj? then Err(ProtocolError(NotAnObject))
    else
      var header := Get(raw.fields, "header");
      var payload := Get(raw.fields, "payload");
      if !header.JObj? || !payload.JObj? then Err(ProtocolError(MissingHeaderOrPayload))
      else
        var h := header.fields;
        var pl := payload.fields;
        var version := Get(h, "version");
        if version != JStr(ProtocolVersion) then Err(ProtocolError(UnsupportedVersion(version)))
        else
          var messageType := Get(h, "message_type");
          if !Hashable(messageType) then Err(Unhashable)
          else if !(messageType.JStr? && messageType.s in ValidMessageTypes) then
            Err(ProtocolError(InvalidMessageType))
          else
            var messageId := Or(Get(h, "message_id"), JStr(freshId));
            var sender := Get(h, "sender");
            var channel := Or(Get(h, "channel"), JStr(DefaultChannel));
            var timestamp := Or(Get(h, "timestamp"), JStr(now));
            if !Truthy(sender) then Err(ProtocolError(SenderRequired))
            else
              var body := Get(pl, "body");
              if !BodyPresent(body) then Err(ProtocolError(BodyRequired))
              else
                var metadata := Or(Get(pl, "metadata"), JObj(map[]));
                if !metadata.JObj? then Err(ProtocolError(MetadataNotObject))
                else
                  Ok(Packet(ProtocolVersion, messageType.s, messageId, sender,
                            channel, timestamp, body, metadata.fields))
  }

  /**
   * Validating a normalised packet again returns it unchanged, whatever
   * fresh id and clock reading the second call is given.
   */
  lemma ValidateIdempotent(raw: Json, id1: string, ts1: string, id2: string, ts2: string)
    requires id1 != "" && ts1 != ""
    requires Validate(raw, id1, ts1).Ok?
    ensures Validate(ToDict(Validate(raw, id1, ts1).value), id2, ts2) == Validate(raw, id1, ts1)
  {
  }

  /** The fixed points of validation are exactly the conforming packets. */
  lemma FixedPointIffConforms(p: Packet, id: string, ts: string)
    requires id != "" && ts != ""
    ensures Validate(ToDict(p), id, ts) == Ok(p) <==> Conforms(p)
  {
  }

  /**
   * `build_packet(sender, body, message_type=..., channel=..., metadata=...)`:
   * a `Packet` with a fresh id and timestamp, converted by `to_dict`.
   * A missing (None) or empty metadata becomes `{}`.
   */
  function BuildPacket(sender: string, body: string, messageType: string, channel: Json,
                       metadata: Option<map<string, Json>>, freshId: string, now: string): (p: Packet)
    ensures p.version == ProtocolVersion
    ensures p.messageId == JStr(freshId) && p.timestamp == JStr(now)
    ensures metadata.None? ==> p.metadata == map[]
  {
    Packet(ProtocolVersion, messageType, JStr(freshId), JStr(sender), channel, JStr(now),
           JStr(body), if metadata.Some? then metadata.value else map[])
  }

  /**
   * A conforming packet survives serialisation and validation unchanged,
   * whatever fresh id and clock reading the validator is given.
   */
  lemma ToDictValidates(p: Packet, id: string, ts: string)
    requires Conforms(p)
    ensures Validate(ToDict(p), id, ts) == Ok(p)
  {
  }

  /**
   * A server-built packet with a non-empty sender and body, a known type,
   * a truthy channel and a fresh id and timestamp passes validation as it is.
   */
  lemma BuildPacketValidates(sender: string, body: string, messageType: string, channel: Json,
                             metadata: Option<map<string, Json>>, freshId: string, now: string,
                             id: string, ts: string)
    requires sender != "" && body != "" && messageType in ValidMessageTypes && Truthy(channel)
    requires freshId != "" && now != ""
    ensures var p := BuildPacket(sender, body, messageType, channel, metadata, freshId, now);
            Validate(ToDict(p), id, ts) == Ok(p)
  {
    ToDictValidates(BuildPacket(sender, body, messageType, channel, metadata, freshId, now), id, ts);
  }
}
