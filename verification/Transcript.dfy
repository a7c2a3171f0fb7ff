/** The byte strings that the diagnostic protocol authenticates
    (Authentication.swift, `DiagnosticTranscript`). */
module Transcript {
  import opened Basics

  datatype Failure =
    | Malformed | Version | Length | State | Authentication | Expired | Consumed
    | Replay | ResourceLimit | RateLimited | Timeout | Network

  const IDENTIFIER_LENGTH := 16
  const NONCE_LENGTH := 32
  const MAC_LENGTH := 32
  const TOKEN_LENGTH := 32
  const FIELD_LIMIT := 0x1_0000_0000
  const SEQUENCE_LIMIT := 0x1_0000_0000_0000_0000

  /** The bytes of an ASCII text. */
  function Ascii(text: string): (b: Bytes)
    ensures |b| == |text|
  {
    seq(|text|, i requires 0 <= i < |text| => if text[i] < 128 as char then text[i] as Byte else 0)
  }

  // ----- Big-endian words -----

  /** The low `n` bytes of a number, most significant first. */
  function BigEndian(value: nat, n: nat): (b: Bytes)
    ensures |b| == n
  {
    if n == 0 then [] else BigEndian(value / 256, n - 1) + [(value % 256) as Byte]
  }

  function FromBigEndian(b: Bytes): nat {
    if b == [] then 0 else FromBigEndian(b[..|b| - 1]) * 256 + b[|b| - 1] as nat
  }

  ghost function Power256(n: nat): nat {
    if n == 0 then 1 else 256 * Power256(n - 1)
  }

  lemma {:induction false} BigEndianRoundTrip(value: nat, n: nat)
    requires value < Power256(n)
    ensures FromBigEndian(BigEndian(value, n)) == value
  {
    if n > 0 {
      BigEndianRoundTrip(value / 256, n - 1);
      var b := BigEndian(value, n);
      assert b[..n - 1] == BigEndian(value / 256, n - 1);
    }
  }

  lemma WordBounds()
    ensures Power256(4) == FIELD_LIMIT && Power256(8) == SEQUENCE_LIMIT
  {
    assert Power256(2) == 0x1_0000;
    assert Power256(4) == 256 * (256 * Power256(2));
    assert Power256(6) == 256 * (256 * Power256(4));
    assert Power256(8) == 256 * (256 * Power256(6));
  }

  lemma BigEndianInjective(v: nat, w: nat, n: nat)
    requires v < Power256(n) && w < Power256(n)
    requires BigEndian(v, n) == BigEndian(w, n)
    ensures v == w
  {
    BigEndianRoundTrip(v, n);
    BigEndianRoundTrip(w, n);
  }

  // ----- The canonical form -----

  /** A field behind its length, as four big-endian bytes. */
  function Prefixed(field: Bytes): Bytes {
    BigEndian(|field|, 4) + field
  }

  function AllPrefixed(fields: seq<Bytes>): Bytes {
    if fields == [] then [] else Prefixed(fields[0]) + AllPrefixed(fields[1..])
  }

  const DOMAIN: Bytes := Ascii("QuadControlDiagnostic")
  const PROTOCOL_VERSION := 1

  function Canonical(tag: Bytes, fields: seq<Bytes>): Bytes {
    DOMAIN + BigEndian(PROTOCOL_VERSION, 4) + AllPrefixed([tag] + fields)
  }

  ghost predicate Encodable(fields: seq<Bytes>) {
    forall i :: 0 <= i < |fields| ==> |fields[i]| < FIELD_LIMIT
  }

  /** `canonical`: one append after the other. */
  method BuildCanonical(tag: Bytes, fields: seq<Bytes>) returns (result: Bytes)
    requires |tag| < FIELD_LIMIT && Encodable(fields)
    ensures result == Canonical(tag, fields)
  {
    hide BigEndian, Ascii;
    result := DOMAIN + BigEndian(PROTOCOL_VERSION, 4);
    result := result + Prefixed(tag);
    var i := 0;
    while i < |fields|
      invariant 0 <= i <= |fields|
      invariant result + AllPrefixed(fields[i..]) == Canonical(tag, fields)
    {
      assert fields[i..][1..] == fields[i + 1..];
      result := result + Prefixed(fields[i]);
      i := i + 1;
    }
    assert AllPrefixed(fields[i..]) == [];
  }

  /** A prefixed field can be split off a longer string in one way only. */
  lemma PrefixedSplits(f: Bytes, g: Bytes, x: Bytes, y: Bytes)
    requires |f| < FIELD_LIMIT && |g| < FIELD_LIMIT
    requires Prefixed(f) + x == Prefixed(g) + y
    ensures f == g && x == y
  {
    hide BigEndian, Power256;
    var s := Prefixed(f) + x;
    var t := Prefixed(g) + y;
    assert s[..4] == BigEndian(|f|, 4);
    assert t[..4] == BigEndian(|g|, 4);
    WordBounds();
    BigEndianInjective(|f|, |g|, 4);
    var n := 4 + |f|;
    assert s[4..n] == f && s[n..] == x;
    assert t[4..n] == g && t[n..] == y;
  }

  lemma {:induction false} AllPrefixedInjective(fs: seq<Bytes>, gs: seq<Bytes>)
    requires Encodable(fs) && Encodable(gs)
    requires AllPrefixed(fs) == AllPrefixed(gs)
    ensures fs == gs
    decreases |fs|
  {
    hide Prefixed;
    if fs == [] {
      PrefixedNonempty(gs);
    } else if gs == [] {
      PrefixedNonempty(fs);
    } else {
      PrefixedSplits(fs[0], gs[0], AllPrefixed(fs[1..]), AllPrefixed(gs[1..]));
      AllPrefixedInjective(fs[1..], gs[1..]);
      assert fs == [fs[0]] + fs[1..] && gs == [gs[0]] + gs[1..];
    }
  }

  lemma PrefixedNonempty(fs: seq<Bytes>)
    ensures fs == [] <==> AllPrefixed(fs) == []
  {
    if fs != [] {
      assert |Prefixed(fs[0])| >= 4;
    }
  }

  /** The canonical form determines its label and every field, in order. */
  lemma CanonicalInjective(l: Bytes, fs: seq<Bytes>, m: Bytes, gs: seq<Bytes>)
    requires |l| < FIELD_LIMIT && Encodable(fs) && |m| < FIELD_LIMIT && Encodable(gs)
    requires Canonical(l, fs) == Canonical(m, gs)
    ensures l == m && fs == gs
  {
    hide BigEndian, AllPrefixed, Ascii;
    var head := DOMAIN + BigEndian(PROTOCOL_VERSION, 4);
    assert Canonical(l, fs)[|head|..] == AllPrefixed([l] + fs);
    assert Canonical(m, gs)[|head|..] == AllPrefixed([m] + gs);
    AllPrefixedInjective([l] + fs, [m] + gs);
    assert ([l] + fs)[0] == l && ([m] + gs)[0] == m;
    assert ([l] + fs)[1..] == fs && ([m] + gs)[1..] == gs;
  }

  // ----- The five kinds of transcript -----

  datatype Hello = Hello(clientNonce: Bytes)

  datatype Challenge = Challenge(serverNonce: Bytes, challengeID: Bytes, serverID: Bytes)

  datatype Content =
    | ClientProof(hello: Hello, challenge: Challenge)
    | SessionInfo(hello: Hello, challenge: Challenge)
    | ServerFinished(hello: Hello, challenge: Challenge, sessionID: Bytes)
    | ClientHeartbeat(sessionID: Bytes, sequence: nat, status: string)
    | ServerAck(sessionID: Bytes, sequence: nat, status: string)

  predicate ValidHello(hello: Hello) {
    |hello.clientNonce| == NONCE_LENGTH
  }

  predicate ValidChallenge(challenge: Challenge) {
    && |challenge.serverNonce| == NONCE_LENGTH
    && |challenge.challengeID| == IDENTIFIER_LENGTH
    && |challenge.serverID| == IDENTIFIER_LENGTH
  }

  function Label(content: Content): string {
    match content
    case ClientProof(_, _) => "client-proof"
    case SessionInfo(_, _) => "session-key"
    case ServerFinished(_, _, _) => "server-finished"
    case ClientHeartbeat(_, _, _) => "client-heartbeat"
    case ServerAck(_, _, _) => "server-ack"
  }

  function Fields(content: Content): seq<Bytes> {
    match content
    case ClientProof(h, c) => [h.clientNonce, c.serverNonce, c.challengeID, c.serverID]
    case SessionInfo(h, c) => [h.clientNonce, c.serverNonce, c.challengeID, c.serverID]
    case ServerFinished(h, c, s) => [h.clientNonce, c.serverNonce, c.challengeID, c.serverID, s]
    case ClientHeartbeat(s, n, t) => [s, BigEndian(n, 8), Ascii(t)]
    case ServerAck(s, n, t) => [s, BigEndian(n, 8), Ascii(t)]
  }

  /** What is thrown for contents of a wrong shape, in the order the source checks. */
  function Check(content: Content): Result<(), Failure> {
    match content
    case ClientProof(h, c) => CheckHandshake(h, c)
    case SessionInfo(h, c) => CheckHandshake(h, c)
    case ServerFinished(h, c, s) =>
      if CheckHandshake(h, c).Err? then CheckHandshake(h, c) else CheckLength(s)
    case ClientHeartbeat(s, n, t) =>
      if CheckLength(s).Err? then CheckLength(s) else if t == "alive" then Ok(()) else Err(Malformed)
    case ServerAck(s, n, t) =>
      if CheckLength(s).Err? then CheckLength(s) else if t == "ok" then Ok(()) else Err(Malformed)
  }

  function CheckHandshake(hello: Hello, challenge: Challenge): Result<(), Failure> {
    if ValidHello(hello) && ValidChallenge(challenge) then Ok(()) else Err(Length)
  }

  function CheckLength(id: Bytes): Result<(), Failure> {
    if |id| == IDENTIFIER_LENGTH then Ok(()) else Err(Length)
  }

  /** The transcript of a message. */
  function Build(content: Content): Result<Bytes, Failure> {
    match Check(content)
    case Err(e) => Err(e)
    case Ok(_) => Ok(Canonical(Ascii(Label(content)), Fields(content)))
  }

  /** Sequence numbers are 64-bit words. */
  ghost predicate InRange(content: Content) {
    (content.ClientHeartbeat? || content.ServerAck?) ==> content.sequence < SEQUENCE_LIMIT
  }

  lemma LabelsDiffer(a: Content, b: Content)
    requires Ascii(Label(a)) == Ascii(Label(b))
    ensures Label(a) == Label(b)
  {
    var s, t := Label(a), Label(b);
    assert forall i :: 0 <= i < |s| ==> s[i] < 128 as char;
    assert forall i :: 0 <= i < |t| ==> t[i] < 128 as char;
    AsciiInjective(s, t);
  }

  lemma AsciiInjective(s: string, t: string)
    requires forall i :: 0 <= i < |s| ==> s[i] < 128 as char
    requires forall i :: 0 <= i < |t| ==> t[i] < 128 as char
    requires Ascii(s) == Ascii(t)
    ensures s == t
  {
    assert |s| == |t|;
    forall i | 0 <= i < |s|
      ensures s[i] == t[i]
    {
      assert Ascii(s)[i] == Ascii(t)[i];
    }
  }

  /** A transcript determines the message: messages of different kinds, and messages
      that differ in any component, have different transcripts. */
  lemma TranscriptDeterminesMessage(a: Content, b: Content)
    requires InRange(a) && InRange(b)
    requires Build(a).Ok? && Build(a) == Build(b)
    ensures a == b
  {
    hide BigEndian, Ascii, Canonical, Power256;
    FieldsEncodable(a);
    FieldsEncodable(b);
    CanonicalInjective(Ascii(Label(a)), Fields(a), Ascii(Label(b)), Fields(b));
    LabelsDiffer(a, b);
    var fs, gs := Fields(a), Fields(b);
    SameKind(a, b);
    if a.ClientHeartbeat? || a.ServerAck? {
      assert fs[0] == gs[0] && fs[1] == gs[1];
      WordBounds();
      BigEndianInjective(a.sequence, b.sequence, 8);
    } else {
      assert fs[0] == gs[0] && fs[1] == gs[1] && fs[2] == gs[2] && fs[3] == gs[3];
      assert a.ServerFinished? ==> fs[4] == gs[4];
    }
  }

  lemma SameKind(a: Content, b: Content)
    requires Label(a) == Label(b)
    ensures a.ClientProof? == b.ClientProof? && a.SessionInfo? == b.SessionInfo?
    ensures a.ServerFinished? == b.ServerFinished?
    ensures a.ClientHeartbeat? == b.ClientHeartbeat? && a.ServerAck? == b.ServerAck?
  {
    assert |Label(a)| == |Label(b)|;
  }

  lemma FieldsEncodable(a: Content)
    requires Build(a).Ok?
    ensures Encodable(Fields(a)) && |Ascii(Label(a))| < FIELD_LIMIT
  {
  }

  // ----- Down to the bytes -----

  lemma LengthBytes(n: nat)
    requires n < 256
    ensures BigEndian(n, 4) == [0, 0, 0, n as Byte]
  {
    assert BigEndian(n, 1) == [n as Byte];
    assert BigEndian(0, 3) == [0, 0, 0];
  }

  lemma AllOf(fields: seq<Bytes>)
    requires fields != []
    ensures AllPrefixed(fields) == Prefixed(fields[0]) + AllPrefixed(fields[1..])
  {
  }

  /** What the proof of a client is made over, byte by byte. */
  lemma ProofLaidOut(hello: Hello, challenge: Challenge)
    requires ValidHello(hello) && ValidChallenge(challenge)
    ensures Build(ClientProof(hello, challenge))
            == Ok(DOMAIN + [0, 0, 0, 1]
                  + ([0, 0, 0, 12] + Ascii("client-proof")
                     + ([0, 0, 0, 32] + hello.clientNonce
                        + ([0, 0, 0, 32] + challenge.serverNonce
                           + ([0, 0, 0, 16] + challenge.challengeID
                              + ([0, 0, 0, 16] + challenge.serverID))))))
  {
    hide BigEndian, Ascii, AllPrefixed;
    LengthBytes(1);
    LengthBytes(12);
    LengthBytes(16);
    LengthBytes(32);
    var a, b, c, d := hello.clientNonce, challenge.serverNonce, challenge.challengeID, challenge.serverID;
    var tag := Ascii("client-proof");
    var all := [tag, a, b, c, d];
    assert [tag] + [a, b, c, d] == all;
    AllOf(all);
    assert all[1..] == [a, b, c, d];
    AllOf([a, b, c, d]);
    assert [a, b, c, d][1..] == [b, c, d];
    AllOf([b, c, d]);
    assert [b, c, d][1..] == [c, d];
    AllOf([c, d]);
    assert [c, d][1..] == [d];
    AllOf([d]);
    NoFields();
    assert [d][1..] == [];
    assert Prefixed(d) + [] == Prefixed(d);
  }

  lemma NoFields()
    ensures AllPrefixed([]) == []
  {
  }

  /** The labels and the fields of the five messages, in their order. */
  lemma MessageFields(h: Hello, c: Challenge, id: Bytes, n: nat, status: string)
    ensures Label(ClientProof(h, c)) == "client-proof" && Label(SessionInfo(h, c)) == "session-key"
    ensures Fields(ClientProof(h, c)) == Fields(SessionInfo(h, c))
                                      == [h.clientNonce, c.serverNonce, c.challengeID, c.serverID]
    ensures Label(ServerFinished(h, c, id)) == "server-finished"
    ensures Fields(ServerFinished(h, c, id)) == Fields(ClientProof(h, c)) + [id]
    ensures Label(ClientHeartbeat(id, n, status)) == "client-heartbeat"
    ensures Label(ServerAck(id, n, status)) == "server-ack"
    ensures Fields(ClientHeartbeat(id, n, status)) == Fields(ServerAck(id, n, status))
                                                   == [id, BigEndian(n, 8), Ascii(status)]
  {
  }
}
