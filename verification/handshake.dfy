/**
 * The challenge-response handshake of trust_sockets/protocol.py. The trust
 * token (the TRUST_ID setting), the digest function (SHA-256) and the
 * server's random bytes are parameters; each role is a straight-line
 * exchange of frames over a Channel.
 *
 * ServerRun and ClientRun say, as functions of what the peer has written,
 * how each role ends, what it writes and what it leaves unread; the two
 * methods perform the exchange and are proved to agree with them.
 */
module Handshake {
  import opened Base
  import opened Framing

  /** A SHA-256 digest. */
  type Digest = s: seq<byte> | |s| == 32 witness seq(32, _ => 0)

  /** Number of random bytes behind a challenge: secrets.token_hex(16). */
  const ChallengeEntropy: nat := 16

  /** The tags the server answers with: b"OK" and b"FAIL". */
  const OkTag: seq<byte> := [0x4F, 0x4B]
  const FailTag: seq<byte> := [0x46, 0x41, 0x49, 0x4C]

  const ServerNotSet := "Server TRUST_ID not set."
  const ClientNotSet := "Client TRUST_ID not set."
  const Mismatch := "TRUST_ID mismatch. Handshake failed."
  const Rejected := "Server rejected connection. TRUST_ID might be incorrect."

  /** What a handshake raises: HandshakeError with its message, or the
      IncompleteReadError of a read that hit the end of the stream. */
  datatype HandshakeFault =
    | HandshakeError(message: string)
    | IncompleteReadError(error: ReadError)

  datatype Outcome = Trusted | Refused(fault: HandshakeFault)

  /** How one role ends, the bytes it writes, and the bytes it leaves unread. */
  datatype Run = Run(outcome: Outcome, sent: seq<byte>, rest: seq<byte>)

  /** `if not trust_id` fails for a missing and for an empty setting. */
  predicate TokenSet(token: Option<string>)
  {
    token.Some? && token.value != ""
  }

  /** str.encode("utf-8") of one character. */
  function Utf8Char(c: char): (r: seq<byte>)
    ensures 1 <= |r| <= 4
    ensures (c as int < 0x80) <==> |r| == 1
  {
    var n := c as int;
    if n < 0x80 then [n]
    else if n < 0x800 then [0xC0 + n / 0x40, 0x80 + n % 0x40]
    else if n < 0x1_0000 then [0xE0 + n / 0x1000, 0x80 + n / 0x40 % 0x40, 0x80 + n % 0x40]
    else [0xF0 + n / 0x4_0000, 0x80 + n / 0x1000 % 0x40, 0x80 + n / 0x40 % 0x40, 0x80 + n % 0x40]
  }

  /** str.encode("utf-8"). */
  function Utf8(s: string): (r: seq<byte>)
    // at least one byte per character
    ensures |r| >= |s|
  {
    if s == [] then [] else Utf8Char(s[0]) + Utf8(s[1..])
  }

  /** Encoding is compositional: the bytes of a concatenation are the
      concatenation of the bytes. */
  lemma {:induction false} Utf8Append(s: string, t: string)
    ensures Utf8(s + t) == Utf8(s) + Utf8(t)
  {
    if s == [] {
      assert s + t == t;
    } else {
      assert (s + t)[0] == s[0] && (s + t)[1..] == s[1..] + t;
      Utf8Append(s[1..], t);
    }
  }

  function HexDigit(d: nat): (b: byte)
    requires d < 16
  {
    if d < 10 then 0x30 + d else 0x61 + (d - 10)
  }

  predicate IsHexDigit(b: byte)
  {
    0x30 <= b <= 0x39 || 0x61 <= b <= 0x66
  }

  /** secrets.token_hex(...).encode("utf-8") of the random bytes `raw`:
      two lower-case hexadecimal digits per byte (protocol.py:53). */
  function TokenHex(raw: seq<byte>): (r: seq<byte>)
    ensures |r| == 2 * |raw|
  {
    if raw == [] then [] else [HexDigit(raw[0] / 16), HexDigit(raw[0] % 16)] + TokenHex(raw[1..])
  }

  /** The challenge is printable: every byte is a hexadecimal digit, the
      high nibble of each random byte first. */
  lemma {:induction false} TokenHexDigits(raw: seq<byte>)
    ensures forall i :: 0 <= i < |TokenHex(raw)| ==> IsHexDigit(TokenHex(raw)[i])
    ensures forall i :: 0 <= i < |raw| ==>
              TokenHex(raw)[2 * i] == HexDigit(raw[i] / 16) && TokenHex(raw)[2 * i + 1] == HexDigit(raw[i] % 16)
  {
    if raw != [] {
      TokenHexDigits(raw[1..]);
      var tail := TokenHex(raw[1..]);
      var r := TokenHex(raw);
      assert r == [HexDigit(raw[0] / 16), HexDigit(raw[0] % 16)] + tail;
      assert forall i :: 2 <= i < |r| ==> r[i] == tail[i - 2];
      assert forall i :: 1 <= i < |raw| ==> raw[i] == raw[1..][i - 1];
    }
  }

  /** Both sides compute sha256(challenge + token.encode()) (protocol.py:62-65, 85-88). */
  function Expected(hash: seq<byte> -> Digest, challenge: seq<byte>, token: string): Digest
  {
    hash(challenge + Utf8(token))
  }

  /** perform_server_handshake (protocol.py:46-70) as a function of the bytes
      the client writes. */
  function ServerRun(token: Option<string>, challenge: seq<byte>, hash: seq<byte> -> Digest,
                     inbound: seq<byte>): (r: Run)
    requires |challenge| < MaxPayload
    // no token: raise before any I/O
    ensures !TokenSet(token) <==> r.outcome == Refused(HandshakeError(ServerNotSet))
    ensures !TokenSet(token) ==> r.sent == [] && r.rest == inbound
    // the stream ends before a whole response: the read error, not a HandshakeError
    ensures r.outcome.Refused? && r.outcome.fault.IncompleteReadError? <==>
              TokenSet(token) && DecodeFrame(inbound).Failure?
    ensures TokenSet(token) && DecodeFrame(inbound).Failure? ==>
              r.outcome.fault.error == DecodeFrame(inbound).error &&
              r.sent == EncodeFrame(challenge) && r.rest == []
    // the verdict: OK exactly when the response is the expected digest
    ensures TokenSet(token) && DecodeFrame(inbound).Success? ==>
              var (response, rest) := DecodeFrame(inbound).value;
              var accepted := response == Expected(hash, challenge, token.value);
              && r.rest == rest
              && (r.outcome == if accepted then Trusted else Refused(HandshakeError(Mismatch)))
              && r.sent == EncodeFrame(challenge) + EncodeFrame(if accepted then OkTag else FailTag)
  {
    if !TokenSet(token) then Run(Refused(HandshakeError(ServerNotSet)), [], inbound)
    else
      var hello := EncodeFrame(challenge);
      match DecodeFrame(inbound)
      case Failure(e) => Run(Refused(IncompleteReadError(e)), hello, [])
      case Success((response, rest)) =>
        if Expected(hash, challenge, token.value) != response then
          Run(Refused(HandshakeError(Mismatch)), hello + EncodeFrame(FailTag), rest)
        else
          Run(Trusted, hello + EncodeFrame(OkTag), rest)
  }

  /** perform_client_handshake (protocol.py:72-95) as a function of the bytes
      the server writes. */
  function ClientRun(token: Option<string>, hash: seq<byte> -> Digest, inbound: seq<byte>): (r: Run)
    // no token: raise before reading or writing anything
    ensures !TokenSet(token) <==> r.outcome == Refused(HandshakeError(ClientNotSet))
    ensures !TokenSet(token) ==> r.sent == [] && r.rest == inbound
    // no complete challenge: the read error, nothing sent
    ensures TokenSet(token) && DecodeFrame(inbound).Failure? ==>
              r == Run(Refused(IncompleteReadError(DecodeFrame(inbound).error)), [], [])
    // the response is the digest of the challenge received, and nothing else
    ensures TokenSet(token) && DecodeFrame(inbound).Success? ==>
              r.sent == EncodeFrame(Expected(hash, DecodeFrame(inbound).value.0, token.value))
    // the stream ends before a whole verdict: the read error, everything consumed
    ensures TokenSet(token) && DecodeFrame(inbound).Success? && DecodeFrame(DecodeFrame(inbound).value.1).Failure? ==>
              && r.outcome == Refused(IncompleteReadError(DecodeFrame(DecodeFrame(inbound).value.1).error))
              && r.rest == []
    // after a whole verdict, whatever it says, the bytes after it are left unread
    ensures TokenSet(token) && DecodeFrame(inbound).Success? && DecodeFrame(DecodeFrame(inbound).value.1).Success? ==>
              r.rest == DecodeFrame(DecodeFrame(inbound).value.1).value.1
    // trusted exactly when the next whole frame is b"OK"
    ensures r.outcome == Trusted <==>
              && TokenSet(token)
              && DecodeFrame(inbound).Success?
              && DecodeFrame(DecodeFrame(inbound).value.1) == Success((OkTag, r.rest))
    ensures r.outcome == Refused(HandshakeError(Rejected)) <==>
              && TokenSet(token)
              && DecodeFrame(inbound).Success?
              && DecodeFrame(DecodeFrame(inbound).value.1).Success?
              && DecodeFrame(DecodeFrame(inbound).value.1).value.0 != OkTag
  {
    if !TokenSet(token) then Run(Refused(HandshakeError(ClientNotSet)), [], inbound)
    else
      match DecodeFrame(inbound)
      case Failure(e) => Run(Refused(IncompleteReadError(e)), [], [])
      case Success((challenge, afterChallenge)) =>
        var answer := EncodeFrame(Expected(hash, challenge, token.value));
        match DecodeFrame(afterChallenge)
        case Failure(e) => Run(Refused(IncompleteReadError(e)), answer, [])
        case Success((verdict, rest)) =>
          if verdict != OkTag then Run(Refused(HandshakeError(Rejected)), answer, rest)
          else Run(Trusted, answer, rest)
  }

  /** With the same token on both sides, each role reads exactly what the
      other writes and both end trusted: the client, fed the server's
      challenge and OK, answers with exactly the frame the server accepts,
      and the server then writes exactly that challenge and OK. */
  lemma {:induction false} MatchingTokensTrusted(token: Option<string>, challenge: seq<byte>,
                                                 hash: seq<byte> -> Digest,
                                                 laterToClient: seq<byte>, laterToServer: seq<byte>)
    requires TokenSet(token) && |challenge| < MaxPayload
    ensures var client := ClientRun(token, hash, EncodeFrame(challenge) + EncodeFrame(OkTag) + laterToClient);
            var server := ServerRun(token, challenge, hash, client.sent + laterToServer);
            && client.outcome == Trusted && client.rest == laterToClient
            && server.outcome == Trusted && server.rest == laterToServer
            && server.sent == EncodeFrame(challenge) + EncodeFrame(OkTag)
  {
    var digest := Expected(hash, challenge, token.value);
    assert EncodeFrame(challenge) + EncodeFrame(OkTag) + laterToClient
        == EncodeFrame(challenge) + (EncodeFrame(OkTag) + laterToClient);
    DecodeEncode(challenge, EncodeFrame(OkTag) + laterToClient);
    DecodeEncode(OkTag, laterToClient);
    DecodeEncode(digest, laterToServer);
  }

  /** With different tokens whose digests differ, the server answers FAIL and
      raises the mismatch error, and the client, reading that FAIL, raises
      the rejection error. */
  lemma {:induction false} MismatchedTokensRefused(serverToken: Option<string>, clientToken: Option<string>,
                                                   challenge: seq<byte>, hash: seq<byte> -> Digest,
                                                   laterToClient: seq<byte>, laterToServer: seq<byte>)
    requires TokenSet(serverToken) && TokenSet(clientToken) && |challenge| < MaxPayload
    requires Expected(hash, challenge, serverToken.value) != Expected(hash, challenge, clientToken.value)
    ensures var client := ClientRun(clientToken, hash, EncodeFrame(challenge) + EncodeFrame(FailTag) + laterToClient);
            var server := ServerRun(serverToken, challenge, hash, client.sent + laterToServer);
            && server.outcome == Refused(HandshakeError(Mismatch))
            && server.sent == EncodeFrame(challenge) + EncodeFrame(FailTag)
            && client.outcome == Refused(HandshakeError(Rejected)) && client.rest == laterToClient
  {
    var digest := Expected(hash, challenge, clientToken.value);
    assert EncodeFrame(challenge) + EncodeFrame(FailTag) + laterToClient
        == EncodeFrame(challenge) + (EncodeFrame(FailTag) + laterToClient);
    DecodeEncode(challenge, EncodeFrame(FailTag) + laterToClient);
    DecodeEncode(FailTag, laterToClient);
    DecodeEncode(digest, laterToServer);
  }

  /** perform_server_handshake (protocol.py:46-70) over a channel. */
  method PerformServerHandshake(ch: Channel, token: Option<string>, random: seq<byte>,
                                hash: seq<byte> -> Digest) returns (outcome: Outcome)
    requires |random| == ChallengeEntropy
    modifies ch`inbound, ch`outbound
    ensures var run := ServerRun(token, TokenHex(random), hash, old(ch.inbound));
            && outcome == run.outcome
            && ch.outbound == old(ch.outbound) + run.sent
            && ch.inbound == run.rest
  {
    if !TokenSet(token) {
      return Refused(HandshakeError(ServerNotSet));
    }
    var challenge := TokenHex(random);
    ghost var before, start := ch.outbound, ch.inbound;
    ch.SendMsg(challenge);
    var response := ch.ReadMsg();
    if response.Failure? {
      assert ServerRun(token, challenge, hash, start)
          == Run(Refused(IncompleteReadError(response.error)), EncodeFrame(challenge), []);
      return Refused(IncompleteReadError(response.error));
    }
    var expected := Expected(hash, challenge, token.value);
    var verdict := if expected != response.value then FailTag else OkTag;
    outcome := if expected != response.value then Refused(HandshakeError(Mismatch)) else Trusted;
    ch.SendMsg(verdict);
    assert ServerRun(token, challenge, hash, start)
        == Run(outcome, EncodeFrame(challenge) + EncodeFrame(verdict), ch.inbound);
    AppendAssoc(before, EncodeFrame(challenge), EncodeFrame(verdict));
  }

  /** perform_client_handshake (protocol.py:72-95) over a channel. */
  method PerformClientHandshake(ch: Channel, token: Option<string>, hash: seq<byte> -> Digest)
    returns (outcome: Outcome)
    modifies ch`inbound, ch`outbound
    ensures var run := ClientRun(token, hash, old(ch.inbound));
            && outcome == run.outcome
            && ch.outbound == old(ch.outbound) + run.sent
            && ch.inbound == run.rest
  {
    if !TokenSet(token) {
      return Refused(HandshakeError(ClientNotSet));
    }
    var challenge := ch.ReadMsg();
    if challenge.Failure? {
      return Refused(IncompleteReadError(challenge.error));
    }
    var response := Expected(hash, challenge.value, token.value);
    ch.SendMsg(response);
    var verdict := ch.ReadMsg();
    if verdict.Failure? {
      return Refused(IncompleteReadError(verdict.error));
    }
    if verdict.value != OkTag {
      return Refused(HandshakeError(Rejected));
    }
    outcome := Trusted;
  }
}
