/** The diagnostic server: connections going through their phases, composed with the admission
    controller and with handshakes that share one token (DiagnosticServer.swift).

    Everything here happens on the server's serial queue, one callback at a time. What the
    network and the message codecs deliver, and random bytes, are inputs. */
module DiagnosticServer {
  import opened Basics
  import opened Transcript
  import opened Admission
  import H = Handshake

  datatype Phase = AwaitingReady | AwaitingHello | AwaitingProof | Authenticated | Closed

  /** A message on its way to the client. */
  datatype Sent =
    | ChallengeSent(challenge: Challenge)
    | FinishedSent(finished: H.Finished)
    | AckSent(sequence: nat, mac: H.Mac)

  datatype Keys = Keys(sessionID: Bytes, key: H.Key)

  /** One `DiagnosticServerConnection`. `receiving` and `sending` say which completion the
      transport still owes it. `concluded` is kept for the record: what its handshake came to. */
  datatype Conn = Conn(
    peer: string,
    phase: Phase,
    wireID: Option<nat>,
    keys: Option<Keys>,
    handshakeTimer: bool,
    heartbeatTimer: bool,
    receiving: bool,
    sending: Option<Sent>,
    shake: H.ServerView,
    received: nat,
    concluded: Option<H.Concluded>)

  datatype MessageType = HelloMessage | ProofMessage | HeartbeatMessage | OtherMessage

  /** A payload that decodes, as what it decodes to, or the failure thrown. */
  datatype Payload =
    | Unreadable(failure: Failure)
    | HelloPayload(hello: Hello)
    | ProofPayload(proof: H.Mac)
    | BeatPayload(status: string)

  /** The random bytes drawn while a message is handled. */
  datatype Randoms = Randoms(nonce: Bytes, challengeID: Bytes, sessionID: Bytes)

  /** What `receive` delivers: a transport or decoding failure, or an envelope, with the random
      bytes that go into the reply and whether encoding the reply throws. */
  datatype Arrival =
    | Failed(failure: Failure)
    | Envelope(kind: MessageType, wireID: nat, sequence: nat, mac: Option<H.Mac>, payload: Payload,
               randoms: Randoms, replyError: Option<Failure>)

  datatype Turn = Turn(conn: Conn, admission: View, token: H.TokenView)

  function Opened(peer: string, shake: H.ServerView): Conn {
    Conn(peer, AwaitingReady, None, None, true, false, false, None, shake, 0, None)
  }

  /** `close(_:recordFailure:)`. */
  function Close(t: Turn, id: nat, record: bool, now: nat): Turn {
    if t.conn.phase == Closed then t
    else
      t.(conn := t.conn.(phase := Closed, keys := None, handshakeTimer := false, heartbeatTimer := false),
         admission := if record then Record(t.admission, id, t.conn.peer, now) else End(t.admission, id))
  }

  /** A failure thrown while a message is handled. */
  function Throw(t: Turn, id: nat, now: nat): Turn {
    Close(t, id, t.conn.phase != Authenticated, now)
  }

  function Ready(t: Turn): Turn {
    if t.conn.phase != AwaitingReady then t
    else t.(conn := t.conn.(phase := AwaitingHello, receiving := true))
  }

  /** `handle(_:)` and the `catch` around it. */
  function Receive(t: Turn, id: nat, arrival: Arrival, now: nat): Turn {
    var c := t.conn.(receiving := false);
    var t0 := t.(conn := c);
    if arrival.Failed? then Throw(t0, id, now)
    else if c.wireID == None && !(c.phase == AwaitingHello && arrival.kind == HelloMessage) then Throw(t0, id, now)
    else
      var t1 := if c.wireID == None then t0.(conn := c.(wireID := Some(arrival.wireID))) else t0;
      if t1.conn.wireID != Some(arrival.wireID) then Throw(t1, id, now)
      else
        match c.phase
        case AwaitingHello => ReceiveHello(t1, id, arrival, now)
        case AwaitingProof => ReceiveProof(t1, id, arrival, now)
        case Authenticated => ReceiveHeartbeat(t1, id, arrival, now)
        case _ => Throw(t1, id, now)
  }

  function ReceiveHello(t: Turn, id: nat, a: Arrival, now: nat): Turn
    requires a.Envelope?
  {
    if !(a.kind == HelloMessage && a.sequence == 0 && a.mac == None) || !a.payload.HelloPayload? then Throw(t, id, now)
    else
      var (shake, r) := H.TakeHello(t.conn.shake, a.payload.hello, now, a.randoms.nonce, a.randoms.challengeID);
      var c := t.conn.(shake := shake);
      if r.Err? then Throw(t.(conn := c), id, now)
      else Reply(t.(conn := c.(phase := AwaitingProof)), id, ChallengeSent(r.value), a.replyError, now)
  }

  /** The handshake decides; then admission has to give the active slot. */
  function ReceiveProof(t: Turn, id: nat, a: Arrival, now: nat): Turn
    requires a.Envelope?
  {
    if !(a.kind == ProofMessage && a.sequence == 0 && a.mac == None) || !a.payload.ProofPayload? then Throw(t, id, now)
    else
      var (shake, token, r) := H.TakeProof(t.conn.shake, t.token, a.payload.proof, now, a.randoms.sessionID);
      var c := t.conn.(shake := shake);
      if r.Err? then Throw(Turn(c, t.admission, token), id, now)
      else
        var done := c.(concluded := Some(H.Concluded(shake, a.payload.proof, r.value)));
        Settle(Turn(done, t.admission, token), id, r.value, a.replyError, now)
  }

  /** After a proof was accepted: admission has to give the active slot. */
  function Settle(t: Turn, id: nat, session: H.Session, replyError: Option<Failure>, now: nat): Turn {
    var (admission, ok) := Succeed(t.admission, id);
    if !ok then Throw(t.(admission := admission), id, now)
    else
      var c := t.conn.(keys := Some(Keys(session.finished.sessionID, session.key)), phase := Authenticated,
                       handshakeTimer := false, heartbeatTimer := true);
      Reply(t.(conn := c, admission := admission), id, FinishedSent(session.finished), replyError, now)
  }

  /** A heartbeat counts when its mac is over this session, its sequence number and status, and
      its number is higher than all before; it is answered by an acknowledgement. */
  function TakeBeat(c: Conn, a: Arrival): (Conn, Result<H.Mac, Failure>)
    requires a.Envelope?
  {
    if a.kind != HeartbeatMessage || a.mac == None || c.keys == None then (c, Err(State))
    else if a.payload.Unreadable? then (c, Err(a.payload.failure))
    else if !a.payload.BeatPayload? then (c, Err(Malformed))
    else
      var keys := c.keys.value;
      match Build(ClientHeartbeat(keys.sessionID, a.sequence, a.payload.status))
      case Err(e) => (c, Err(e))
      case Ok(transcript) =>
        if !H.IsValid(a.mac.value, keys.key, transcript) then (c, Err(Authentication))
        else if a.sequence <= c.received then (c, Err(Replay))
        else
          var after := c.(received := a.sequence);
          match Build(ServerAck(keys.sessionID, a.sequence, "ok"))
          case Err(e) => (after, Err(e))
          case Ok(ack) => (after, Ok(H.Hmac(keys.key, ack)))
  }

  function ReceiveHeartbeat(t: Turn, id: nat, a: Arrival, now: nat): Turn
    requires a.Envelope?
  {
    var (c, r) := TakeBeat(t.conn, a);
    if r.Err? then Throw(t.(conn := c), id, now)
    else Reply(t.(conn := c.(heartbeatTimer := true)), id, AckSent(a.sequence, r.value), a.replyError, now)
  }

  function Reply(t: Turn, id: nat, sent: Sent, replyError: Option<Failure>, now: nat): Turn {
    if replyError.Some? then Throw(t, id, now)
    else t.(conn := t.conn.(sending := Some(sent)))
  }

  /** The completion of a send: go on receiving, or close. Only the challenge,
      which precedes authentication, counts as a failed attempt. */
  function SendDone(t: Turn, id: nat, failed: bool, now: nat): Turn
    requires t.conn.sending.Some?
  {
    var sent := t.conn.sending.value;
    var t0 := t.(conn := t.conn.(sending := None));
    if failed then Close(t0, id, sent.ChallengeSent?, now)
    else t0.(conn := t0.conn.(receiving := true))
  }

  // ----- The connection object -----

  class Connection {
    const id: nat
    const peer: string
    const admission: AdmissionController
    const handshake: H.ServerHandshake
    var phase: Phase
    var wireID: Option<nat>
    var keys: Option<Keys>
    var handshakeTimer: bool
    var heartbeatTimer: bool
    var receiving: bool
    var sending: Option<Sent>
    var received: nat
    ghost var concluded: Option<H.Concluded>

    ghost function Now(): Turn
      reads this, admission, handshake, handshake.token
    {
      Turn(Conn(peer, phase, wireID, keys, handshakeTimer, heartbeatTimer, receiving, sending, handshake.View(),
                received, concluded),
           admission.Seen(), handshake.token.View())
    }

    /** The controller is in order, and the clock has not gone back. */
    ghost predicate OnTime(now: nat)
      reads admission
    {
      admission.Valid() && admission.steady && admission.clock <= now
    }

    constructor (id: nat, peer: string, admission: AdmissionController, handshake: H.ServerHandshake)
      ensures this.id == id && this.admission == admission && this.handshake == handshake
      ensures Now() == Turn(Opened(peer, handshake.View()), admission.Seen(), handshake.token.View())
    {
      this.id, this.peer, this.admission, this.handshake := id, peer, admission, handshake;
      phase, wireID, keys, received, concluded := AwaitingReady, None, None, 0, None;
      handshakeTimer, heartbeatTimer, receiving, sending := true, false, false, None;
    }

    method DoClose(record: bool, now: nat)
      requires OnTime(now)
      modifies this, admission
      ensures OnTime(now)
      ensures Now() == Close(old(Now()), id, record, now)
    {
      hide AddFailure, Kept, Lookup;
      if phase == Closed {
        return;
      }
      phase := Closed;
      handshakeTimer, heartbeatTimer := false, false;
      keys := None;
      if record {
        admission.RecordFailure(id, peer, now);
      } else {
        admission.EndConnection(id);
      }
    }

    method OnReady()
      modifies this
      ensures Now() == Ready(old(Now()))
    {
      if phase != AwaitingReady {
        return;
      }
      phase := AwaitingHello;
      receiving := true;
    }

    method OnReceive(arrival: Arrival, now: nat)
      requires OnTime(now)
      modifies this, admission, handshake, handshake.token
      ensures OnTime(now)
      ensures Now() == Receive(old(Now()), id, arrival, now)
    {
      hide ReceiveHello, ReceiveProof, ReceiveHeartbeat, Close;
      receiving := false;
      if arrival.Failed? {
        DoClose(phase != Authenticated, now);
        return;
      }
      if wireID == None {
        if !(phase == AwaitingHello && arrival.kind == HelloMessage) {
          DoClose(phase != Authenticated, now);
          return;
        }
        wireID := Some(arrival.wireID);
      }
      if wireID != Some(arrival.wireID) {
        DoClose(phase != Authenticated, now);
        return;
      }
      match phase {
        case AwaitingHello => HandleHello(arrival, now);
        case AwaitingProof => HandleProof(arrival, now);
        case Authenticated => HandleHeartbeat(arrival, now);
        case _ => DoClose(phase != Authenticated, now);
      }
    }

    method HandleHello(arrival: Arrival, now: nat)
      requires arrival.Envelope? && OnTime(now)
      modifies this, admission, handshake
      ensures OnTime(now)
      ensures Now() == ReceiveHello(old(Now()), id, arrival, now)
    {
      hide Close, H.TakeHello;
      if !(arrival.kind == HelloMessage && arrival.sequence == 0 && arrival.mac == None)
         || !arrival.payload.HelloPayload? {
        DoClose(phase != Authenticated, now);
        return;
      }
      var next := handshake.ReceiveHello(arrival.payload.hello, now, arrival.randoms.nonce,
                                         arrival.randoms.challengeID);
      if next.Err? {
        DoClose(phase != Authenticated, now);
        return;
      }
      phase := AwaitingProof;
      DoReply(ChallengeSent(next.value), arrival.replyError, now);
    }

    method HandleProof(arrival: Arrival, now: nat)
      requires arrival.Envelope? && OnTime(now)
      modifies this, admission, handshake, handshake.token
      ensures OnTime(now)
      ensures Now() == ReceiveProof(old(Now()), id, arrival, now)
    {
      hide Close, H.TakeProof, Settle;
      if !(arrival.kind == ProofMessage && arrival.sequence == 0 && arrival.mac == None)
         || !arrival.payload.ProofPayload? {
        DoClose(phase != Authenticated, now);
        return;
      }
      var result := handshake.ReceiveProof(arrival.payload.proof, now, arrival.randoms.sessionID);
      if result.Err? {
        DoClose(phase != Authenticated, now);
        return;
      }
      concluded := Some(H.Concluded(handshake.View(), arrival.payload.proof, result.value));
      Authenticate(result.value, arrival.replyError, now);
    }

    /** After a proof was accepted: admission has to give the active slot. */
    method Authenticate(session: H.Session, replyError: Option<Failure>, now: nat)
      requires OnTime(now)
      modifies this, admission
      ensures OnTime(now)
      ensures Now() == Settle(old(Now()), id, session, replyError, now)
    {
      hide Close;
      var ok := admission.AuthenticationSucceeded(id);
      if !ok {
        DoClose(phase != Authenticated, now);
        return;
      }
      keys := Some(Keys(session.finished.sessionID, session.key));
      phase := Authenticated;
      handshakeTimer := false;
      heartbeatTimer := true;
      DoReply(FinishedSent(session.finished), replyError, now);
    }

    method HandleHeartbeat(arrival: Arrival, now: nat)
      requires arrival.Envelope? && OnTime(now)
      modifies this, admission
      ensures OnTime(now)
      ensures Now() == ReceiveHeartbeat(old(Now()), id, arrival, now)
    {
      hide Close;
      var ack := AcceptBeat(arrival);
      if ack.Err? {
        DoClose(phase != Authenticated, now);
        return;
      }
      heartbeatTimer := true;
      DoReply(AckSent(arrival.sequence, ack.value), arrival.replyError, now);
    }

    method AcceptBeat(arrival: Arrival) returns (r: Result<H.Mac, Failure>)
      requires arrival.Envelope?
      modifies this`received
      ensures Now() == old(Now()).(conn := TakeBeat(old(Now()).conn, arrival).0)
      ensures r == TakeBeat(old(Now()).conn, arrival).1
    {
      hide Build;
      if arrival.kind != HeartbeatMessage || arrival.mac == None || keys == None {
        return Err(State);
      }
      if arrival.payload.Unreadable? {
        return Err(arrival.payload.failure);
      }
      if !arrival.payload.BeatPayload? {
        return Err(Malformed);
      }
      var session := keys.value;
      var transcript := Build(ClientHeartbeat(session.sessionID, arrival.sequence, arrival.payload.status));
      if transcript.Err? {
        return Err(transcript.error);
      }
      if !H.IsValid(arrival.mac.value, session.key, transcript.value) {
        return Err(Authentication);
      }
      if arrival.sequence <= received {
        return Err(Replay);
      }
      received := arrival.sequence;
      var ack := Build(ServerAck(session.sessionID, arrival.sequence, "ok"));
      if ack.Err? {
        return Err(ack.error);
      }
      r := Ok(H.Hmac(session.key, ack.value));
    }

    method DoReply(sent: Sent, replyError: Option<Failure>, now: nat)
      requires OnTime(now)
      modifies this, admission
      ensures OnTime(now)
      ensures Now() == Reply(old(Now()), id, sent, replyError, now)
    {
      if replyError.Some? {
        DoClose(phase != Authenticated, now);
      } else {
        sending := Some(sent);
      }
    }

    method OnSendDone(failed: bool, now: nat)
      requires sending.Some? && OnTime(now)
      modifies this, admission
      ensures OnTime(now)
      ensures Now() == SendDone(old(Now()), id, failed, now)
    {
      var sent := sending.value;
      sending := None;
      if failed {
        DoClose(sent.ChallengeSent?, now);
      } else {
        receiving := true;
      }
    }
  }

  // ----- The server -----

  /** `conns` holds every connection object ever accepted; `registered` are the
      keys of the server's dictionary. */
  datatype Server = Server(conns: map<nat, Conn>, registered: set<nat>, admission: View, clock: nat,
                           token: H.TokenView)

  datatype Event =
    | Accept(id: nat, peer: string, serverID: Bytes, initThrows: bool)
    | BecomesReady(id: nat)
    | NetworkLost(id: nat)
    | Arrives(id: nat, arrival: Arrival)
    | SendCompletes(id: nat, failed: bool)
    | HandshakeTimesOut(id: nat)
    | HeartbeatTimesOut(id: nat)
    | Stop(order: seq<nat>)

  /** A server about to listen, with a token nobody has used. */
  function Fresh(token: H.TokenView): Server {
    Server(map[], {}, View({}, None, []), 0, token.(consumed := false))
  }

  /** Writes back what a callback did to one connection; `closeHandler` takes a
      closed one out of the dictionary. */
  function Update(s: Server, id: nat, t: Turn): Server {
    s.(conns := s.conns[id := t.conn], admission := t.admission, token := t.token,
       registered := if t.conn.phase == Closed then s.registered - {id} else s.registered)
  }

  function At(s: Server, id: nat): Turn
    requires id in s.conns
  {
    Turn(s.conns[id], s.admission, s.token)
  }

  /** `accept`: identifiers are fresh. When the handshake object cannot be made the
      connection counts as failed and is never registered. */
  function AcceptStep(s: Server, id: nat, peer: string, serverID: Bytes, initThrows: bool): Server {
    if id in s.conns then s
    else
      var (admission, r) := Begin(s.admission, id, peer, s.clock);
      var conn0 := Opened(peer, H.ServerView(serverID, s.clock, H.AwaitingHello, None, None));
      if r.Err? then s.(admission := admission)
      else if initThrows then Update(s, id, Close(Turn(conn0, admission, s.token), id, true, s.clock))
      else s.(conns := s.conns[id := conn0], registered := s.registered + {id}, admission := admission)
  }

  /** `stopInternal`: the dictionary is emptied, then every connection in it stops. */
  function StopEach(s: Server, order: seq<nat>): Server
    decreases |order|
  {
    if order == [] then s
    else if order[0] !in s.conns then StopEach(s, order[1..])
    else StopEach(Update(s, order[0], Close(At(s, order[0]), order[0], false, s.clock)), order[1..])
  }

  /** Session ids are drawn with their fixed length. */
  predicate Drawn(arrival: Arrival) {
    arrival.Envelope? ==> |arrival.randoms.sessionID| == IDENTIFIER_LENGTH
  }

  /** One callback at clock reading `now`. Callbacks that nothing is waiting for,
      and timers that are not armed, do not fire. */
  function Step(s0: Server, e: Event, now: nat): Server {
    var s := s0.(clock := if now > s0.clock then now else s0.clock);
    match e
    case Accept(id, peer, serverID, initThrows) => AcceptStep(s, id, peer, serverID, initThrows)
    case BecomesReady(id) =>
      if id in s.conns then Update(s, id, Ready(At(s, id))) else s
    case NetworkLost(id) =>
      if id in s.conns then Update(s, id, Close(At(s, id), id, false, s.clock)) else s
    case Arrives(id, arrival) =>
      if id in s.conns && s.conns[id].receiving && Drawn(arrival)
      then Update(s, id, Receive(At(s, id), id, arrival, s.clock))
      else s
    case SendCompletes(id, failed) =>
      if id in s.conns && s.conns[id].sending.Some? then Update(s, id, SendDone(At(s, id), id, failed, s.clock)) else s
    case HandshakeTimesOut(id) =>
      if id in s.conns && s.conns[id].handshakeTimer then Update(s, id, Close(At(s, id), id, true, s.clock)) else s
    case HeartbeatTimesOut(id) =>
      if id in s.conns && s.conns[id].heartbeatTimer then Update(s, id, Close(At(s, id), id, false, s.clock)) else s
    case Stop(order) => StopEach(s, order)
  }

  datatype Timed = Timed(event: Event, now: nat)

  function Run(s: Server, events: seq<Timed>): Server
    decreases |events|
  {
    if events == [] then s else Run(Step(s, events[0].event, events[0].now), events[1..])
  }

  // ----- What every callback keeps -----

  predicate Waiting(c: Conn) {
    c.phase == AwaitingReady || c.phase == AwaitingHello || c.phase == AwaitingProof
  }

  /** Timers and owed completions fit the phase. */
  predicate WellPhased(c: Conn) {
    && (Waiting(c) ==> c.keys == None && !c.heartbeatTimer)
    && (c.phase == AwaitingReady || c.phase == AwaitingHello ==> c.sending == None)
    && (c.phase == AwaitingReady ==> !c.receiving)
    && (c.phase == AwaitingProof ==> c.sending == None || (c.sending.Some? && c.sending.value.ChallengeSent?))
    && (c.phase == Authenticated ==>
          !c.handshakeTimer && c.keys.Some? && !(c.sending.Some? && c.sending.value.ChallengeSent?))
    && (c.phase == Closed ==> !c.handshakeTimer && !c.heartbeatTimer && c.keys == None)
    && !(c.receiving && c.sending.Some?)
  }

  /** Admission and connections agree about who is waiting and who is active. */
  ghost predicate InStep(s: Server) {
    && (forall id :: id in s.conns ==> WellPhased(s.conns[id]))
    && (forall id :: id in s.admission.pending <==> id in s.conns && Waiting(s.conns[id]))
    && (forall id :: s.admission.active == Some(id) <==> id in s.conns && s.conns[id].phase == Authenticated)
    && (forall id :: id in s.registered <==> id in s.conns && s.conns[id].phase != Closed)
  }

  /** What a callback on connection `id` may do to it and to admission. */
  ghost predicate Faithful(before: Turn, after: Turn, id: nat, now: nat) {
    && WellPhased(after.conn) && after.conn.peer == before.conn.peer
    && (before.conn.phase == Closed ==> after.conn.phase == Closed && after.admission == before.admission)
    && after.admission.pending - {id} == before.admission.pending - {id}
    && (id in after.admission.pending <==> Waiting(after.conn))
    && (Waiting(after.conn) ==> id in before.admission.pending)
    && (after.admission.active == Some(id) <==> after.conn.phase == Authenticated)
    && (after.admission.active == before.admission.active
        || (before.admission.active == Some(id) && after.admission.active == None)
        || (before.admission.active == None && after.admission.active == Some(id)))
    && (after.admission.history == before.admission.history
        || (after.admission.history == before.admission.history + [Recorded(id, before.conn.peer, now)]
            && id in before.admission.pending && after.conn.phase == Closed))
  }

  /** The connection's side of `InStep`. */
  ghost predicate Matches(t: Turn, id: nat) {
    && WellPhased(t.conn)
    && (id in t.admission.pending <==> Waiting(t.conn))
    && (t.admission.active == Some(id) <==> t.conn.phase == Authenticated)
  }

  lemma CloseIsFaithful(t: Turn, id: nat, record: bool, now: nat)
    requires Matches(t, id)
    requires record ==> t.conn.phase != Authenticated
    ensures Faithful(t, Close(t, id, record, now), id, now)
  {
  }

  lemma HelloIsFaithful(t: Turn, id: nat, a: Arrival, now: nat)
    requires Matches(t, id) && a.Envelope? && t.conn.phase == AwaitingHello && !t.conn.receiving
    ensures Faithful(t, ReceiveHello(t, id, a, now), id, now)
  {
    hide H.TakeHello;
  }

  lemma SettleIsFaithful(t: Turn, id: nat, session: H.Session, replyError: Option<Failure>, now: nat)
    requires Matches(t, id) && t.conn.phase == AwaitingProof && !t.conn.receiving
    ensures Faithful(t, Settle(t, id, session, replyError, now), id, now)
  {
  }

  lemma ProofIsFaithful(t: Turn, id: nat, a: Arrival, now: nat)
    requires Matches(t, id) && a.Envelope? && t.conn.phase == AwaitingProof && !t.conn.receiving
    ensures Faithful(t, ReceiveProof(t, id, a, now), id, now)
  {
    hide H.TakeProof, Settle, Close, Faithful;
    if a.payload.ProofPayload? {
      var (shake, token, r) := H.TakeProof(t.conn.shake, t.token, a.payload.proof, now, a.randoms.sessionID);
      var c := t.conn.(shake := shake);
      CloseIsFaithful(Turn(c, t.admission, token), id, true, now);
      SameStart(t, Turn(c, t.admission, token), Close(Turn(c, t.admission, token), id, true, now), id, now);
      if r.Ok? {
        var settled := Turn(c.(concluded := Some(H.Concluded(shake, a.payload.proof, r.value))), t.admission, token);
        SettleIsFaithful(settled, id, r.value, a.replyError, now);
        SameStart(t, settled, Settle(settled, id, r.value, a.replyError, now), id, now);
      }
    }
    CloseIsFaithful(t, id, true, now);
  }

  lemma BeatIsFaithful(t: Turn, id: nat, a: Arrival, now: nat)
    requires Matches(t, id) && a.Envelope? && t.conn.phase == Authenticated && !t.conn.receiving
    ensures Faithful(t, ReceiveHeartbeat(t, id, a, now), id, now)
  {
    BeatChangesLittle(t.conn, a);
    hide TakeBeat;
  }

  lemma BeatChangesLittle(c: Conn, a: Arrival)
    requires a.Envelope?
    ensures TakeBeat(c, a).0 == c.(received := TakeBeat(c, a).0.received)
  {
    hide Build;
  }

  /** Faithfulness looks at no more of a connection than its peer and its phase. */
  lemma SameStart(t: Turn, t0: Turn, after: Turn, id: nat, now: nat)
    requires t0.conn.peer == t.conn.peer && t0.conn.phase == t.conn.phase && t0.admission == t.admission
    requires Faithful(t0, after, id, now)
    ensures Faithful(t, after, id, now)
  {
  }

  lemma ReceiveIsFaithful(t: Turn, id: nat, arrival: Arrival, now: nat)
    requires Matches(t, id) && t.conn.receiving
    ensures Faithful(t, Receive(t, id, arrival, now), id, now)
  {
    hide ReceiveHello, ReceiveProof, ReceiveHeartbeat, Close, Faithful;
    var t0 := t.(conn := t.conn.(receiving := false));
    CloseIsFaithful(t0, id, t0.conn.phase != Authenticated, now);
    SameStart(t, t0, Throw(t0, id, now), id, now);
    if arrival.Envelope? && (t0.conn.wireID == None || t0.conn.wireID == Some(arrival.wireID)) {
      var t1 := t0.(conn := t0.conn.(wireID := Some(arrival.wireID)));
      CloseIsFaithful(t1, id, t1.conn.phase != Authenticated, now);
      SameStart(t, t1, Throw(t1, id, now), id, now);
      match t.conn.phase
      case AwaitingHello =>
        HelloIsFaithful(t1, id, arrival, now);
        SameStart(t, t1, ReceiveHello(t1, id, arrival, now), id, now);
      case AwaitingProof =>
        ProofIsFaithful(t1, id, arrival, now);
        SameStart(t, t1, ReceiveProof(t1, id, arrival, now), id, now);
      case Authenticated =>
        BeatIsFaithful(t1, id, arrival, now);
        SameStart(t, t1, ReceiveHeartbeat(t1, id, arrival, now), id, now);
      case _ =>
    }
  }

  lemma SendDoneIsFaithful(t: Turn, id: nat, failed: bool, now: nat)
    requires Matches(t, id) && t.conn.sending.Some?
    ensures Faithful(t, SendDone(t, id, failed, now), id, now)
  {
  }

  /** One callback leaves the other connections alone and keeps everybody in step. */
  lemma UpdateKeepsInStep(s: Server, id: nat, t: Turn)
    requires InStep(s) && id in s.conns
    requires Faithful(At(s, id), t, id, s.clock)
    ensures InStep(Update(s, id, t))
  {
    var after := Update(s, id, t);
    forall other
      ensures other in after.admission.pending <==> other in after.conns && Waiting(after.conns[other])
      ensures after.admission.active == Some(other) <==>
                other in after.conns && after.conns[other].phase == Authenticated
    {
      if other != id {
        assert other in after.admission.pending <==> other in after.admission.pending - {id};
        assert other in s.admission.pending <==> other in s.admission.pending - {id};
      }
    }
  }

  /** A connection that is closed, or was never accepted, is out for good. */
  ghost predicate Out(s: Server, id: nat) {
    id in s.conns && s.conns[id].phase == Closed
  }

  /** Failures belong to closed connections, one each. */
  ghost predicate OnceEach(s: Server) {
    && (forall k :: 0 <= k < |s.admission.history| ==> Out(s, s.admission.history[k].connection))
    && (forall j, k :: 0 <= j < k < |s.admission.history| ==>
          s.admission.history[j].connection != s.admission.history[k].connection)
  }

  lemma UpdateKeepsOnceEach(s: Server, id: nat, t: Turn)
    requires InStep(s) && OnceEach(s) && id in s.conns
    requires Faithful(At(s, id), t, id, s.clock)
    ensures OnceEach(Update(s, id, t))
  {
    var after := Update(s, id, t);
    forall other | Out(s, other)
      ensures Out(after, other)
    {
    }
  }

  // ----- The failure window -----

  ghost function Owners(conns: map<nat, Conn>): map<nat, string> {
    map id | id in conns :: conns[id].peer
  }

  ghost predicate HasRoom(s: Server) {
    Room(s.admission, Owners(s.conns), 0, s.clock) && Past(s.admission.history, 0, s.clock)
  }

  ghost predicate Inv(s: Server) {
    InStep(s) && OnceEach(s) && HasRoom(s)
  }

  lemma ClockKeepsInv(s: Server, now: nat)
    requires Inv(s) && s.clock <= now
    ensures Inv(s.(clock := now))
  {
    hide Room, Past, InStep, OnceEach;
    ClockKeepsRoom(s.admission, Owners(s.conns), 0, s.clock, now);
    ClockKeepsPast(s.admission.history, 0, s.clock, now);
    InStepIgnoresClock(s, now);
  }

  lemma InStepIgnoresClock(s: Server, now: nat)
    ensures InStep(s) ==> InStep(s.(clock := now))
    ensures OnceEach(s) ==> OnceEach(s.(clock := now))
  {
  }

  /** A failure takes the room of its own connection, which was pending. */
  lemma UpdateKeepsRoom(s: Server, id: nat, t: Turn)
    requires InStep(s) && HasRoom(s) && id in s.conns
    requires Faithful(At(s, id), t, id, s.clock)
    ensures HasRoom(Update(s, id, t))
  {
    hide Room, Past, WellPhased;
    var after, owner := Update(s, id, t), Owners(s.conns);
    assert Owners(after.conns) == owner;
    forall other | other in after.admission.pending
      ensures other in s.admission.pending
    {
      assert other != id ==> other in after.admission.pending - {id};
    }
    if after.admission.history == s.admission.history {
      FewerKeepRoom(s.admission, after.admission, owner, 0, s.clock);
    } else {
      var r := Recorded(id, s.conns[id].peer, s.clock);
      RecordKeepsRoom(s.admission, owner, 0, s.clock, id, r.peer);
      assert id in PendingOf(s.admission, owner, r.peer);
      FewerKeepRoom(Record(s.admission, id, r.peer, s.clock), after.admission, owner, 0, s.clock);
      AppendKeepsPast(s.admission.history, 0, 0, s.clock, r, after.admission, owner);
    }
  }

  lemma UpdateKeepsInv(s: Server, id: nat, t: Turn)
    requires Inv(s) && id in s.conns
    requires Faithful(At(s, id), t, id, s.clock)
    ensures Inv(Update(s, id, t))
  {
    hide InStep, OnceEach, HasRoom;
    UpdateKeepsInStep(s, id, t);
    UpdateKeepsOnceEach(s, id, t);
    UpdateKeepsRoom(s, id, t);
  }

  lemma MatchesAt(s: Server, id: nat)
    requires InStep(s) && id in s.conns
    ensures Matches(At(s, id), id)
  {
  }

  function Admitted(s: Server, id: nat, conn0: Conn): Server {
    s.(conns := s.conns[id := conn0], registered := s.registered + {id},
       admission := s.admission.(pending := s.admission.pending + {id}))
  }

  lemma AdmittedInStep(s: Server, id: nat, conn0: Conn)
    requires InStep(s) && OnceEach(s) && id !in s.conns && s.admission.active == None
    requires conn0 == Opened(conn0.peer, conn0.shake)
    ensures InStep(Admitted(s, id, conn0)) && OnceEach(Admitted(s, id, conn0))
  {
    forall k | 0 <= k < |s.admission.history|
      ensures Out(Admitted(s, id, conn0), s.admission.history[k].connection)
    {
      assert Out(s, s.admission.history[k].connection);
    }
  }

  lemma BeginAdmits(s: Server, id: nat, conn0: Conn)
    requires Begin(s.admission, id, conn0.peer, s.clock).1.Ok?
    ensures Begin(s.admission, id, conn0.peer, s.clock).0 == Admitted(s, id, conn0).admission
    ensures s.admission.active == None
  {
    hide Times, PeerTimes;
  }

  lemma BeginKeepsInv(s: Server, id: nat, conn0: Conn)
    requires Inv(s) && id !in s.conns && conn0 == Opened(conn0.peer, conn0.shake)
    requires Begin(s.admission, id, conn0.peer, s.clock).1.Ok?
    ensures Begin(s.admission, id, conn0.peer, s.clock).0 == Admitted(s, id, conn0).admission
    ensures Inv(Admitted(s, id, conn0))
  {
    BeginAdmits(s, id, conn0);
    PendingRegistered(s);
    OwnersAdmitted(s.conns, id, conn0);
    hide Begin, Room, Past, OnceEach, InStep, Owners;
    AdmittedInStep(s, id, conn0);
    BeginKeepsRoom(s.admission, Owners(s.conns), 0, s.clock, id, conn0.peer);
  }

  lemma OwnersAdmitted(conns: map<nat, Conn>, id: nat, conn0: Conn)
    ensures Owners(conns[id := conn0]) == Owners(conns)[id := conn0.peer]
  {
  }

  lemma PendingRegistered(s: Server)
    requires InStep(s)
    ensures forall id :: id in s.admission.pending ==> id in s.conns
  {
  }

  lemma AcceptKeepsInv(s: Server, id: nat, peer: string, serverID: Bytes, initThrows: bool)
    requires Inv(s)
    ensures Inv(AcceptStep(s, id, peer, serverID, initThrows))
  {
    hide Inv;
    if id !in s.conns && Begin(s.admission, id, peer, s.clock).1.Ok? {
      var conn0 := Opened(peer, H.ServerView(serverID, s.clock, H.AwaitingHello, None, None));
      BeginKeepsInv(s, id, conn0);
      var begun := Admitted(s, id, conn0);
      if initThrows {
        InvMatchesAt(begun, id);
        var t := Close(At(begun, id), id, true, s.clock);
        CloseIsFaithful(At(begun, id), id, true, s.clock);
        UpdateKeepsInv(begun, id, t);
        assert begun.conns[id := t.conn] == s.conns[id := t.conn];
        InvRegistered(s);
        assert begun.registered - {id} == s.registered - {id};
        assert Update(begun, id, t) == Update(s, id, t);
      }
    }
  }

  lemma InvMatchesAt(s: Server, id: nat)
    requires Inv(s) && id in s.conns
    ensures Matches(At(s, id), id)
  {
    MatchesAt(s, id);
  }

  lemma InvRegistered(s: Server)
    requires Inv(s)
    ensures forall id :: id in s.registered ==> id in s.conns
  {
  }

  lemma {:induction false} StopKeepsInv(s: Server, order: seq<nat>)
    requires Inv(s)
    ensures Inv(StopEach(s, order))
    decreases |order|
  {
    hide Inv, Close, Faithful, Update;
    if order != [] {
      if order[0] in s.conns {
        InvMatchesAt(s, order[0]);
        var t := Close(At(s, order[0]), order[0], false, s.clock);
        CloseIsFaithful(At(s, order[0]), order[0], false, s.clock);
        UpdateKeepsInv(s, order[0], t);
        StopKeepsInv(Update(s, order[0], t), order[1..]);
      } else {
        StopKeepsInv(s, order[1..]);
      }
    }
  }

  lemma TurnKeepsInv(s: Server, e: Event)
    requires Inv(s)
    requires e.BecomesReady? || e.NetworkLost? || e.Arrives? || e.SendCompletes?
             || e.HandshakeTimesOut? || e.HeartbeatTimesOut?
    ensures Inv(Step(s, e, s.clock))
  {
    hide Inv, Faithful, Update, Close, Receive, SendDone;
    assert s.(clock := s.clock) == s;
    var id := e.id;
    if id in s.conns {
      InvMatchesAt(s, id);
      var t := At(s, id);
      match e
      case BecomesReady(_) =>
        ReadyIsFaithful(t, id, s.clock);
        UpdateKeepsInv(s, id, Ready(t));
      case NetworkLost(_) =>
        CloseIsFaithful(t, id, false, s.clock);
        UpdateKeepsInv(s, id, Close(t, id, false, s.clock));
      case Arrives(_, arrival) =>
        if s.conns[id].receiving && Drawn(arrival) {
          ReceiveIsFaithful(t, id, arrival, s.clock);
          UpdateKeepsInv(s, id, Receive(t, id, arrival, s.clock));
        }
      case SendCompletes(_, failed) =>
        if s.conns[id].sending.Some? {
          SendDoneIsFaithful(t, id, failed, s.clock);
          UpdateKeepsInv(s, id, SendDone(t, id, failed, s.clock));
        }
      case HandshakeTimesOut(_) =>
        if s.conns[id].handshakeTimer {
          CloseIsFaithful(t, id, true, s.clock);
          UpdateKeepsInv(s, id, Close(t, id, true, s.clock));
        }
      case HeartbeatTimesOut(_) =>
        if s.conns[id].heartbeatTimer {
          CloseIsFaithful(t, id, false, s.clock);
          UpdateKeepsInv(s, id, Close(t, id, false, s.clock));
        }
    }
  }

  lemma ReadyIsFaithful(t: Turn, id: nat, now: nat)
    requires Matches(t, id)
    ensures Faithful(t, Ready(t), id, now)
  {
  }

  lemma StepKeepsInv(s0: Server, e: Event, now: nat)
    requires Inv(s0)
    ensures Inv(Step(s0, e, now))
  {
    hide Inv, Close, Receive, SendDone, Ready, Update, StopEach, AcceptStep;
    var clock := if now > s0.clock then now else s0.clock;
    var s := s0.(clock := clock);
    ClockKeepsInv(s0, clock);
    match e
    case Accept(id, peer, serverID, initThrows) => AcceptKeepsInv(s, id, peer, serverID, initThrows);
    case Stop(order) => StopKeepsInv(s, order);
    case _ =>
      TurnKeepsInv(s, e);
      assert Step(s, e, s.clock) == Step(s0, e, now);
  }

  lemma {:induction false} RunKeepsInv(s: Server, events: seq<Timed>)
    requires Inv(s)
    ensures Inv(Run(s, events))
    decreases |events|
  {
    hide Inv, Step;
    if events != [] {
      StepKeepsInv(s, events[0].event, events[0].now);
      RunKeepsInv(Step(s, events[0].event, events[0].now), events[1..]);
    }
  }

  // ----- Results over all runs -----

  /** Whenever the active slot holds an id that connection is open and authenticated,
      and the other way round; the waiting ones are exactly the pending ones; the
      dictionary holds exactly the open ones. Once all are closed the counts are (0, 0). */
  lemma SlotsFollowConnections(token: H.TokenView, events: seq<Timed>)
    ensures
      var s := Run(Fresh(token), events);
      && (forall id :: s.admission.active == Some(id) <==> id in s.conns && s.conns[id].phase == Authenticated)
      && (forall id :: id in s.admission.pending <==> id in s.conns && Waiting(s.conns[id]))
      && (forall id :: id in s.registered <==> id in s.conns && s.conns[id].phase != Closed)
      && ((forall id :: id in s.conns ==> s.conns[id].phase == Closed)
          ==> s.admission.pending == {} && s.admission.active == None)
  {
    FreshInv(token);
    RunKeepsInv(Fresh(token), events);
    var s := Run(Fresh(token), events);
    assert InStep(s);
    if forall id :: id in s.conns ==> s.conns[id].phase == Closed {
      assert forall id :: id !in s.admission.pending;
      ActiveIsRegistered(s);
    }
  }

  lemma FreshInv(token: H.TokenView)
    ensures Inv(Fresh(token))
  {
    hide Room, Past;
    NobodyHasRoom(Owners(map[]));
  }

  /** In no window of 60 s are more than 12 failures recorded for one peer, nor more
      than 27 in all. */
  lemma FailuresPerWindow(token: H.TokenView, events: seq<Timed>, peer: string, from: nat)
    ensures
      var h := Run(Fresh(token), events).admission.history;
      PeerWindow(h, peer, from) <= 12 && GlobalWindow(h, from) <= 27
  {
    FreshInv(token);
    RunKeepsInv(Fresh(token), events);
    BoundedWindows(Run(Fresh(token), events).admission.history, PEER_BOUND, GLOBAL_BOUND, peer, from);
  }

  /** No connection is recorded as failed twice, and only closed ones are. */
  lemma FailsAtMostOnce(token: H.TokenView, events: seq<Timed>, j: nat, k: nat)
    requires j < k < |Run(Fresh(token), events).admission.history|
    ensures
      var s := Run(Fresh(token), events);
      && s.admission.history[j].connection != s.admission.history[k].connection
      && Out(s, s.admission.history[j].connection)
  {
    FreshInv(token);
    RunKeepsInv(Fresh(token), events);
  }

  /** A closed connection stays as it is: it never waits, never becomes active and
      changes nothing again. */
  lemma {:induction false} ClosedForGood(s: Server, events: seq<Timed>, id: nat)
    requires Inv(s) && Out(s, id)
    ensures
      var after := Run(s, events);
      && Out(after, id)
      && id !in after.admission.pending && after.admission.active != Some(id)
    decreases |events|
  {
    hide Step;
    if events == [] {
    } else {
      StepKeepsInv(s, events[0].event, events[0].now);
      StepKeepsOut(s, events[0].event, events[0].now, id);
      ClosedForGood(Step(s, events[0].event, events[0].now), events[1..], id);
    }
  }

  lemma StepKeepsOut(s: Server, e: Event, now: nat, id: nat)
    requires Out(s, id)
    ensures Out(Step(s, e, now), id)
  {
    if e.Stop? {
      StopKeepsOut(s.(clock := if now > s.clock then now else s.clock), e.order, id);
    }
  }

  lemma {:induction false} StopKeepsOut(s: Server, order: seq<nat>, id: nat)
    requires Out(s, id)
    ensures Out(StopEach(s, order), id)
    decreases |order|
  {
    if order != [] {
      if order[0] in s.conns {
        StopKeepsOut(Update(s, order[0], Close(At(s, order[0]), order[0], false, s.clock)), order[1..], id);
      } else {
        StopKeepsOut(s, order[1..], id);
      }
    }
  }

  /** Stopping closes every registered connection and frees both slots. */
  lemma {:induction false} StopClosesAll(s: Server, order: seq<nat>)
    requires Inv(s)
    requires forall id :: id in s.registered ==> id in order
    ensures
      var after := StopEach(s, order);
      && after.registered == {} && after.admission.pending == {} && after.admission.active == None
      && after.admission.history == s.admission.history
    decreases |order|
  {
    hide HasRoom, OnceEach;
    if order == [] {
      NothingOpen(s);
    } else {
      StopKeepsInv(s, [order[0]]);
      var next := StopEach(s, [order[0]]);
      assert [order[0]][1..] == [];
      assert StopEach(s, order) == StopEach(next, order[1..]);
      StopClosesAll(next, order[1..]);
    }
  }

  lemma ActiveIsRegistered(s: Server)
    requires InStep(s)
    ensures s.admission.active.Some? ==>
      s.admission.active.value in s.registered && s.conns[s.admission.active.value].phase == Authenticated
  {
    if s.admission.active.Some? {
      assert s.admission.active == Some(s.admission.active.value);
    }
  }

  lemma NothingOpen(s: Server)
    requires InStep(s) && s.registered == {}
    ensures s.admission.pending == {} && s.admission.active == None
  {
    assert forall id :: id in s.admission.pending ==> id in s.registered;
    ActiveIsRegistered(s);
  }
}
