/**
 * The library calls and the outside world the chat server depends on,
 * supplied to the model as functions. Nothing is assumed about them
 * beyond their types.
 */
module Foreign {
  import opened Wrappers
  import opened Json
  import opened Bytes

  /**
   * `str.encode('utf-8')` and `bytes.decode('utf-8')` (None where Python
   * raises), `json.dumps(..., ensure_ascii=False)`, `json.loads` (None on
   * `JSONDecodeError`), `str()` of a JSON value, `hashlib.sha1(...).digest()`,
   * `base64.b64encode`, and `ai_service.reply` (None where it raises) with
   * `ai_service.available`.
   */
  datatype Codecs = Codecs(
    encode: string -> Option<seq<byte>>,
    decode: seq<byte> -> Option<string>,
    dumps: Json -> string,
    loads: string -> Option<Json>,
    show: Json -> string,
    sha1: seq<byte> -> seq<byte>,
    b64encode: seq<byte> -> seq<byte>,
    aiReply: (seq<Json>, Json) -> Option<string>,
    aiAvailable: bool)

  /**
   * What the environment answers at its `k`-th consultation: the string
   * `str(uuid.uuid4())` gives, the ISO-8601 UTC time, and the sockets on
   * which a send raises.
   */
  datatype World = World(uuid4: nat -> string, now: nat -> string, sendFails: nat -> set<nat>)
}
