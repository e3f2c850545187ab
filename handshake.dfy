/**
 * The opening handshake of `websocket_handshake` (sections 1.3 and 4.2.2
 * of RFC 6455): read the request up to the blank line, find the
 * `Sec-WebSocket-Key` header, answer with `101 Switching Protocols`.
 */
module Handshake {
  import opened Wrappers
  import opened Bytes
  import opened PyText
  import opened Foreign

  /** The blank line that ends an HTTP request head: CR LF CR LF. */
  const Terminator: seq<byte> := [13, 10, 13, 10]

  /** The request is read in chunks of this many bytes. */
  const ChunkSize: nat := 1024

  predicate TerminatorAt(s: seq<byte>, i: int) {
    0 <= i && i + 4 <= |s| && s[i..i + 4] == Terminator
  }

  predicate HasTerminator(s: seq<byte>) {
    exists i | 0 <= i < |s| :: TerminatorAt(s, i)
  }

  /**
   * The reading loop: append 1024-byte reads to `request` until it holds
   * the terminator; None when the peer closes first. The second component
   * is what later reads see, so bytes read past the terminator are part of
   * the request and not of it.
   */
  function ReadRequestFrom(request: seq<byte>, stream: seq<byte>): Option<(seq<byte>, seq<byte>)>
    decreases |stream|
  {
    if HasTerminator(request) then Some((request, stream))
    else if stream == [] then None
    else ReadRequestFrom(request + Recv(stream, ChunkSize).0, Recv(stream, ChunkSize).1)
  }

  lemma TerminatorExtends(a: seq<byte>, b: seq<byte>)
    requires HasTerminator(a)
    ensures HasTerminator(a + b)
  {
    var i :| 0 <= i < |a| && TerminatorAt(a, i);
    assert (a + b)[i..i + 4] == a[i..i + 4];
    assert TerminatorAt(a + b, i);
  }

  /**
   * The reading loop succeeds exactly when the whole input holds the
   * terminator; it then splits the input into a request that holds it and
   * the unread rest.
   */
  lemma {:induction false} ReadRequestSpec(request: seq<byte>, stream: seq<byte>)
    ensures ReadRequestFrom(request, stream).Some? <==> HasTerminator(request + stream)
    ensures ReadRequestFrom(request, stream).Some? ==>
              var (req, rest) := ReadRequestFrom(request, stream).value;
              req + rest == request + stream && HasTerminator(req)
    decreases |stream|
  {
    if HasTerminator(request) {
      TerminatorExtends(request, stream);
    } else if stream == [] {
      assert request + stream == request;
    } else {
      var chunk := Recv(stream, ChunkSize).0;
      var rest := Recv(stream, ChunkSize).1;
      assert (request + chunk) + rest == request + stream;
      ReadRequestSpec(request + chunk, rest);
    }
  }

  /** The reading loop of `websocket_handshake`. */
  method ReadRequest(input: seq<byte>) returns (request: Option<seq<byte>>, rest: seq<byte>)
    ensures request.None? ==> ReadRequestFrom([], input).None? && rest == []
    ensures request.Some? ==> ReadRequestFrom([], input) == Some((request.value, rest))
  {
    var received: seq<byte> := [];
    rest := input;
    while !HasTerminator(received)
      invariant ReadRequestFrom(received, rest) == ReadRequestFrom([], input)
      decreases |rest|
    {
      var chunk := Recv(rest, ChunkSize).0;
      rest := Recv(rest, ChunkSize).1;
      if chunk == [] {
        return None, rest;
      }
      received := received + chunk;
    }
    request := Some(received);
  }

  /** `line.split(':', 1)[1]`: the text after the first colon, None when there is none. */
  function AfterColon(line: string): Option<string> {
    if line == [] then None
    else if line[0] == ':' then Some(line[1..])
    else AfterColon(line[1..])
  }

  /** A header name as the source writes it: one colon, at its end. */
  predicate HeaderName(name: string) {
    |name| >= 1 && name[|name| - 1] == ':' && ':' !in name[..|name| - 1]
  }

  lemma {:induction false} AfterColonOfName(name: string, value: string)
    requires HeaderName(name)
    ensures AfterColon(name + value) == Some(value)
  {
    if |name| == 1 {
      assert (name + value)[1..] == value;
    } else {
      assert name[0] in name[..|name| - 1];
      assert (name + value)[1..] == name[1..] + value;
      assert name[1..][..|name[1..]| - 1] == name[..|name| - 1][1..];
      AfterColonOfName(name[1..], value);
    }
  }

  /**
   * The header loop: the first line that starts with `name`, the text after
   * its first colon, stripped.
   */
  function HeaderValue(lines: seq<string>, name: string): Option<string>
    requires HeaderName(name)
  {
    if lines == [] then None
    else if StartsWith(lines[0], name) then
      var line := lines[0];
      assert line == name + line[|name|..];
      AfterColonOfName(name, line[|name|..]);
      Some(Strip(AfterColon(line).value))
    else HeaderValue(lines[1..], name)
  }

  /** Line `i` is the first of `lines` that starts with `name`. */
  predicate FirstMatch(lines: seq<string>, name: string, i: int) {
    && 0 <= i < |lines|
    && StartsWith(lines[i], name)
    && forall j | 0 <= j < i :: !StartsWith(lines[j], name)
  }

  /** No line of `lines` starts with `name`. */
  predicate NoMatch(lines: seq<string>, name: string) {
    forall i | 0 <= i < |lines| :: !StartsWith(lines[i], name)
  }

  /** The lookup finds nothing exactly when no line starts with the field name. */
  lemma {:induction false} HeaderValueMissing(lines: seq<string>, name: string)
    requires HeaderName(name)
    ensures HeaderValue(lines, name).None? <==> NoMatch(lines, name)
  {
    if lines != [] && !StartsWith(lines[0], name) {
      var tail := lines[1..];
      HeaderValueMissing(tail, name);
      if NoMatch(tail, name) {
        forall i | 0 <= i < |lines|
          ensures !StartsWith(lines[i], name)
        {
          if i > 0 {
            assert lines[i] == tail[i - 1];
          }
        }
      } else {
        var i :| 0 <= i < |tail| && StartsWith(tail[i], name);
        assert lines[i + 1] == tail[i];
      }
    }
  }

  /** A value found is the stripped remainder of the first line that starts with the field name. */
  lemma {:induction false} HeaderValueFirstMatch(lines: seq<string>, name: string)
    requires HeaderName(name) && HeaderValue(lines, name).Some?
    ensures exists i :: FirstMatch(lines, name, i) && HeaderValue(lines, name).value == Strip(lines[i][|name|..])
  {
    if StartsWith(lines[0], name) {
      HeaderValueHit(lines, name);
      assert FirstMatch(lines, name, 0);
    } else {
      var tail := lines[1..];
      HeaderValueSkip(lines, name);
      HeaderValueFirstMatch(tail, name);
      var i :| FirstMatch(tail, name, i) && HeaderValue(tail, name).value == Strip(tail[i][|name|..]);
      assert lines[i + 1] == tail[i];
      forall j | 0 <= j < i + 1
        ensures !StartsWith(lines[j], name)
      {
        if j > 0 {
          assert lines[j] == tail[j - 1];
        }
      }
      assert FirstMatch(lines, name, i + 1);
    }
  }

  const KeyField: string := "Sec-WebSocket-Key:"
  const AcceptField: string := "Sec-WebSocket-Accept:"

  lemma FieldNames()
    ensures HeaderName(KeyField) && HeaderName(AcceptField)
  {
    assert KeyField[..|KeyField| - 1] == "Sec-WebSocket-Key";
    assert AcceptField[..|AcceptField| - 1] == "Sec-WebSocket-Accept";
  }

  /** The search for the key line, stopping at the first match. */
  method FindKey(lines: seq<string>) returns (key: Option<string>)
    ensures HeaderName(KeyField) && key == HeaderValue(lines, KeyField)
  {
    FieldNames();
    key := None;
    var i := 0;
    while i < |lines|
      invariant 0 <= i <= |lines|
      invariant HeaderValue(lines, KeyField) == HeaderValue(lines[i..], KeyField)
    {
      ghost var tail := lines[i..];
      assert tail[0] == lines[i] && tail[1..] == lines[i + 1..];
      if StartsWith(lines[i], KeyField) {
        var rest := lines[i][|KeyField|..];
        assert lines[i] == KeyField + rest;
        AfterColonOfName(KeyField, rest);
        HeaderValueHit(tail, KeyField);
        key := Some(Strip(AfterColon(lines[i]).value));
        return;
      }
      HeaderValueSkip(tail, KeyField);
      i := i + 1;
    }
  }

  /** The GUID every server appends to the client's key. */
  const Magic: string := "258EAFA5-E914-47DA-95CA-C5AB0DC85B11"

  /** `base64(SHA-1(key + Magic))` as text; None where an encoding step raises. */
  function AcceptToken(lib: Codecs, key: string): Option<string> {
    match lib.encode(key + Magic)
    case None => None
    case Some(bytes) => lib.decode(lib.b64encode(lib.sha1(bytes)))
  }

  const StatusLine: string := "HTTP/1.1 101 Switching Protocols"
  const UpgradeHeader: string := "Upgrade: websocket"
  const ConnectionHeader: string := "Connection: Upgrade"
  const AcceptPrefix: string := AcceptField + " "

  /** The lines of the handshake response carrying `token`, up to the blank line. */
  function ResponseLines(token: string): seq<string> {
    [StatusLine, UpgradeHeader, ConnectionHeader, AcceptPrefix + token, "", ""]
  }

  /**
   * The handshake response carrying `token`: its lines, each ended by
   * CR LF, then an empty line.
   */
  function UpgradeResponse(token: string): string {
    JoinCrlf(ResponseLines(token))
  }

  /**
   * What the handshake did: whether the connection is now a WebSocket, the
   * input left unread, and the bytes written back (none on failure).
   */
  datatype Outcome = Outcome(upgraded: bool, rest: seq<byte>, sent: seq<byte>)

  /**
   * `websocket_handshake` on the input `input`; `sendFails` says whether
   * `sendall` raises. Each way the source returns False is a failure here.
   */
  function HandshakeOutcome(lib: Codecs, input: seq<byte>, sendFails: bool): (o: Outcome)
    ensures !o.upgraded ==> o.sent == []
    ensures |o.rest| <= |input| && o.rest == input[|input| - |o.rest|..]
  {
    FieldNames();
    ReadRequestSpec([], input);
    assert [] + input == input;
    match ReadRequestFrom([], input)
    case None => Outcome(false, [], [])
    case Some((request, rest)) =>
      match lib.decode(request)
      case None => Outcome(false, rest, [])
      case Some(text) =>
        var key := HeaderValue(SplitCrlf(text), KeyField);
        if key.None? || key.value == "" then Outcome(false, rest, [])
        else
          match AcceptToken(lib, key.value)
          case None => Outcome(false, rest, [])
          case Some(token) =>
            match lib.encode(UpgradeResponse(token))
            case None => Outcome(false, rest, [])
            case Some(bytes) => if sendFails then Outcome(false, rest, []) else Outcome(true, rest, bytes)
  }

  /** The handshake as the source performs it, step by step. */
  method Handshake(lib: Codecs, input: seq<byte>, sendFails: bool)
    returns (upgraded: bool, rest: seq<byte>, sent: seq<byte>)
    ensures Outcome(upgraded, rest, sent) == HandshakeOutcome(lib, input, sendFails)
  {
    var request;
    request, rest := ReadRequest(input);
    if request.None? {
      return false, rest, [];
    }
    var text := lib.decode(request.value);
    if text.None? {
      return false, rest, [];
    }
    var key := FindKey(SplitCrlf(text.value));
    if key.None? || key.value == "" {
      return false, rest, [];
    }
    var token := AcceptToken(lib, key.value);
    if token.None? {
      return false, rest, [];
    }
    var response := lib.encode(UpgradeResponse(token.value));
    if response.None? || sendFails {
      return false, rest, [];
    }
    return true, rest, response.value;
  }

  /** Without the blank line in the input the handshake fails having read everything. */
  lemma HandshakeNeedsTerminator(lib: Codecs, input: seq<byte>, sendFails: bool)
    requires !HasTerminator(input)
    ensures HandshakeOutcome(lib, input, sendFails) == Outcome(false, [], [])
  {
    ReadRequestSpec([], input);
    assert [] + input == input;
  }

  /**
   * A successful handshake read a request that ends in the blank line and
   * holds a `Sec-WebSocket-Key` line with a non-empty value, and wrote the
   * 101 response for that key's accept token.
   */
  lemma HandshakeUpgrades(lib: Codecs, input: seq<byte>, sendFails: bool)
    requires HandshakeOutcome(lib, input, sendFails).upgraded
    ensures HasTerminator(input) && !sendFails
    ensures var o := HandshakeOutcome(lib, input, sendFails);
            exists request, text, key, token ::
              && request + o.rest == input
              && HasTerminator(request)
              && lib.decode(request) == Some(text)
              && HeaderName(KeyField)
              && HeaderValue(SplitCrlf(text), KeyField) == Some(key) && key != ""
              && AcceptToken(lib, key) == Some(token)
              && lib.encode(UpgradeResponse(token)) == Some(o.sent)
  {
    ReadRequestSpec([], input);
    assert [] + input == input;
    FieldNames();
    var o := HandshakeOutcome(lib, input, sendFails);
    var (request, rest) := ReadRequestFrom([], input).value;
    var text := lib.decode(request).value;
    var key := HeaderValue(SplitCrlf(text), KeyField).value;
    var token := AcceptToken(lib, key).value;
    assert lib.encode(UpgradeResponse(token)) == Some(o.sent);
  }

  /**
   * Conversely, a request read up to its blank line that decodes, holds a
   * non-empty `Sec-WebSocket-Key` value whose accept token and response
   * encode, and whose response is sent without raising, upgrades the
   * connection, writing that response.
   */
  lemma UpgradesWhenKeyed(lib: Codecs, input: seq<byte>, request: seq<byte>, rest: seq<byte>,
                          text: string, key: string, token: string, response: seq<byte>)
    requires ReadRequestFrom([], input) == Some((request, rest))
    requires lib.decode(request) == Some(text)
    requires HeaderName(KeyField) && HeaderValue(SplitCrlf(text), KeyField) == Some(key) && key != ""
    requires AcceptToken(lib, key) == Some(token)
    requires lib.encode(UpgradeResponse(token)) == Some(response)
    ensures HandshakeOutcome(lib, input, false) == Outcome(true, rest, response)
  {
  }

  /** Splitting at a line end that is the first carriage return. */
  lemma {:induction false} SplitFirstLine(a: string, b: string)
    requires NoCr(a)
    ensures SplitCrlf(a + Crlf + b) == [a] + SplitCrlf(b)
    decreases |a|
  {
    var s := a + Crlf + b;
    if a == [] {
      assert s == Crlf + b && s[2..] == b;
    } else {
      assert s[1..] == a[1..] + Crlf + b;
      assert a[0] != '\r';
      assert NoCr(a[1..]) by {
        forall i | 0 <= i < |a[1..]| ensures a[1..][i] != '\r' {
          assert a[1..][i] == a[i + 1];
        }
      }
      SplitFirstLine(a[1..], b);
      assert [a[0]] + a[1..] == a;
    }
  }

  predicate NoCr(s: string) {
    '\r' !in s
  }

  /** Splitting a join gives the pieces back when none holds a carriage return. */
  lemma {:induction false} SplitJoin(lines: seq<string>)
    requires |lines| >= 1
    requires forall k :: 0 <= k < |lines| ==> NoCr(lines[k])
    ensures SplitCrlf(JoinCrlf(lines)) == lines
    decreases |lines|
  {
    if |lines| == 1 {
      SplitNoCr(lines[0]);
    } else {
      SplitJoin(lines[1..]);
      SplitFirstLine(lines[0], JoinCrlf(lines[1..]));
    }
  }

  lemma {:induction false} SplitNoCr(s: string)
    requires NoCr(s)
    ensures SplitCrlf(s) == [s]
    decreases |s|
  {
    if |s| >= 2 {
      assert s[0] != '\r';
      assert NoCr(s[1..]) by {
        forall i | 0 <= i < |s[1..]| ensures s[1..][i] != '\r' {
          assert s[1..][i] == s[i + 1];
        }
      }
      SplitNoCr(s[1..]);
      JoinConsFirst(s[0], [s[1..]]);
      assert [s[0]] + s[1..] == s;
    }
  }

  /**
   * The response splits back into its lines whenever the token holds no
   * carriage return (a base64 token never does).
   */
  lemma ResponseSplits(token: string)
    requires NoCr(token)
    ensures SplitCrlf(UpgradeResponse(token)) == ResponseLines(token)
  {
    var lines := ResponseLines(token);
    assert NoCr(StatusLine) && NoCr(UpgradeHeader) && NoCr(ConnectionHeader);
    assert NoCr(AcceptPrefix + token);
    SplitJoin(lines);
  }

  lemma HeaderValueSkip(lines: seq<string>, name: string)
    requires HeaderName(name) && |lines| >= 1 && !StartsWith(lines[0], name)
    ensures HeaderValue(lines, name) == HeaderValue(lines[1..], name)
  {
  }

  lemma HeaderValueHit(lines: seq<string>, name: string)
    requires HeaderName(name) && |lines| >= 1 && StartsWith(lines[0], name)
    ensures HeaderValue(lines, name) == Some(Strip(lines[0][|name|..]))
  {
    AfterColonOfName(name, lines[0][|name|..]);
    assert lines[0] == name + lines[0][|name|..];
  }

  /** Where the two strings differ in their first character, neither starts the other. */
  lemma FirstCharDiffers(s: string, name: string)
    requires |s| >= 1 && |name| >= 1 && s[0] != name[0]
    ensures !StartsWith(s, name)
  {
    if |name| <= |s| {
      assert s[..|name|][0] == s[0];
    }
  }

  lemma SplitAfterName(name: string, sep: string, value: string)
    ensures StartsWith(name + sep + value, name)
    ensures (name + sep + value)[|name|..] == sep + value
  {
    assert name + sep + value == name + (sep + value);
  }

  /** The header search over the response lines stops at the accept line. */
  lemma ResponseAcceptValue(token: string)
    ensures HeaderName(AcceptField)
    ensures HeaderValue(ResponseLines(token), AcceptField) == Some(Strip(" " + token))
  {
    FieldNames();
    var lines := ResponseLines(token);
    FirstCharDiffers(StatusLine, AcceptField);
    FirstCharDiffers(UpgradeHeader, AcceptField);
    FirstCharDiffers(ConnectionHeader, AcceptField);
    HeaderValueSkip(lines, AcceptField);
    HeaderValueSkip(lines[1..], AcceptField);
    HeaderValueSkip(lines[2..], AcceptField);
    SplitAfterName(AcceptField, " ", token);
    assert lines[3..][0] == AcceptPrefix + token;
    HeaderValueHit(lines[3..], AcceptField);
  }

  /**
   * A client reading the response with the same header search finds the
   * token under `Sec-WebSocket-Accept:` whenever the token has no
   * surrounding whitespace and no carriage return.
   */
  lemma ResponseCarriesToken(token: string)
    requires NoCr(token)
    requires token == [] || (!IsSpace(token[0]) && !IsSpace(token[|token| - 1]))
    ensures HeaderName(AcceptField)
    ensures HeaderValue(SplitCrlf(UpgradeResponse(token)), AcceptField) == Some(token)
  {
    ResponseSplits(token);
    ResponseAcceptValue(token);
    StripAfterSpace(token);
  }

  lemma StripAfterSpace(token: string)
    requires token == [] || (!IsSpace(token[0]) && !IsSpace(token[|token| - 1]))
    ensures Strip(" " + token) == token
  {
    assert AllSpace(" ");
    StripSkipsLeadingSpace(" ", token);
    StripTrimmed(token);
  }
}
