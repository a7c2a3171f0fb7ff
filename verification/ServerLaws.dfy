/** What every callback of the diagnostic server comes to: which messages are taken, which failures
    are recorded, and that nothing open is left unwatched (DiagnosticServer.swift). */
module ServerLaws {
  import opened Basics
  import opened Transcript
  import opened Admission
  import opened DiagnosticServer
  import ServerLife
  import H = Handshake

  // ----- Nothing open is left unwatched -----

  /** A timer runs, and once ready the transport owes a completion; the handshake is where the
      phase says, and the id on the wire is fixed by the first message taken. */
  predicate Watched(c: Conn) {
    && (Waiting(c) ==> c.handshakeTimer && c.concluded == None)
    && (c.phase == Authenticated ==> c.heartbeatTimer)
    && (c.phase == AwaitingHello || c.phase == AwaitingProof || c.phase == Authenticated ==>
          c.receiving || c.sending.Some?)
    && (c.phase == AwaitingReady || c.phase == AwaitingHello ==>
          c.wireID == None && c.shake.state == H.AwaitingHello)
    && (c.phase == AwaitingProof ==>
          c.wireID.Some? && c.shake.state == H.AwaitingProof && c.shake.hello.Some? && c.shake.challenge.Some?)
    && (c.phase == Authenticated ==> c.wireID.Some?)
  }

  ghost predicate AllWatched(s: Server) {
    forall id :: id in s.conns ==> Watched(s.conns[id])
  }

  lemma CloseStaysWatched(t: Turn, id: nat, record: bool, now: nat)
    ensures Watched(t.conn) || t.conn.phase != Closed ==> Watched(Close(t, id, record, now).conn)
  {
  }

  lemma HelloStaysWatched(t: Turn, id: nat, a: Arrival, now: nat)
    requires t.conn.phase == AwaitingHello && a.Envelope? && t.conn.handshakeTimer && t.conn.wireID.Some?
    requires t.conn.shake.state == H.AwaitingHello && t.conn.concluded == None
    ensures Watched(ReceiveHello(t, id, a, now).conn)
  {
  }

  lemma ProofStaysWatched(t: Turn, id: nat, a: Arrival, now: nat)
    requires t.conn.phase == AwaitingProof && a.Envelope? && t.conn.wireID.Some?
    ensures Watched(ReceiveProof(t, id, a, now).conn)
  {
    hide H.TakeProof;
  }

  lemma BeatStaysWatched(t: Turn, id: nat, a: Arrival, now: nat)
    requires t.conn.phase == Authenticated && a.Envelope? && t.conn.wireID.Some?
    ensures Watched(ReceiveHeartbeat(t, id, a, now).conn)
  {
    BeatChangesLittle(t.conn, a);
    hide TakeBeat;
  }

  lemma ReceiveStaysWatched(t: Turn, id: nat, a: Arrival, now: nat)
    requires Watched(t.conn) && t.conn.receiving && t.conn.phase != AwaitingReady
    ensures Watched(Receive(t, id, a, now).conn)
  {
    hide ReceiveHello, ReceiveProof, ReceiveHeartbeat;
    if a.Envelope? {
      var t1 := t.(conn := t.conn.(receiving := false, wireID := Some(a.wireID)));
      if t.conn.phase == AwaitingHello {
        HelloStaysWatched(t1, id, a, now);
      } else if t.conn.phase == AwaitingProof {
        ProofStaysWatched(t1, id, a, now);
      } else if t.conn.phase == Authenticated {
        BeatStaysWatched(t1, id, a, now);
      }
    }
  }

  lemma UpdateStaysWatched(s: Server, id: nat, t: Turn)
    requires AllWatched(s) && Watched(t.conn)
    ensures AllWatched(Update(s, id, t))
  {
    hide Watched;
  }

  lemma {:induction false} StopStaysWatched(s: Server, order: seq<nat>)
    requires AllWatched(s)
    ensures AllWatched(StopEach(s, order))
    decreases |order|
  {
    hide Watched, AllWatched, Update, Close;
    if order != [] {
      if order[0] in s.conns {
        var t := Close(At(s, order[0]), order[0], false, s.clock);
        WatchedAt(s, order[0]);
        CloseStaysWatched(At(s, order[0]), order[0], false, s.clock);
        UpdateStaysWatched(s, order[0], t);
        StopStaysWatched(Update(s, order[0], t), order[1..]);
      } else {
        StopStaysWatched(s, order[1..]);
      }
    }
  }

  lemma WatchedAt(s: Server, id: nat)
    requires AllWatched(s) && id in s.conns
    ensures Watched(s.conns[id])
  {
  }

  lemma AcceptStaysWatched(s: Server, id: nat, peer: string, serverID: Bytes, initThrows: bool)
    requires AllWatched(s)
    ensures AllWatched(AcceptStep(s, id, peer, serverID, initThrows))
  {
    hide Begin;
  }

  lemma StepStaysWatched(s: Server, e: Event, now: nat)
    requires AllWatched(s) && InStep(s)
    ensures AllWatched(Step(s, e, now))
  {
    hide AllWatched, Receive, Update, Close, StopEach, AcceptStep, Watched;
    var s1 := s.(clock := if now > s.clock then now else s.clock);
    WatchedAnyTime(s, s1.clock);
    match e
    case Accept(id, peer, serverID, initThrows) => AcceptStaysWatched(s1, id, peer, serverID, initThrows);
    case Stop(order) => StopStaysWatched(s1, order);
    case _ =>
      if e.id in s.conns {
        WatchedAt(s, e.id);
        MatchesAt(s, e.id);
        TurnStaysWatched(s1, e);
      }
  }

  lemma WatchedAnyTime(s: Server, clock: nat)
    ensures AllWatched(s) ==> AllWatched(s.(clock := clock))
  {
  }

  lemma TurnStaysWatched(s: Server, e: Event)
    requires AllWatched(s) && !e.Accept? && !e.Stop? && e.id in s.conns
    requires Watched(s.conns[e.id]) && WellPhased(s.conns[e.id])
    ensures AllWatched(Step(s, e, s.clock))
  {
    hide AllWatched, Receive, Update;
    var t, id := At(s, e.id), e.id;
    assert s.(clock := s.clock) == s;
    match e
    case BecomesReady(_) => UpdateStaysWatched(s, id, Ready(t));
    case NetworkLost(_) => UpdateStaysWatched(s, id, Close(t, id, false, s.clock));
    case Arrives(_, a) =>
      if t.conn.receiving && Drawn(a) {
        ReceiveStaysWatched(t, id, a, s.clock);
        UpdateStaysWatched(s, id, Receive(t, id, a, s.clock));
      }
    case SendCompletes(_, failed) =>
      if t.conn.sending.Some? {
        UpdateStaysWatched(s, id, SendDone(t, id, failed, s.clock));
      }
    case HandshakeTimesOut(_) =>
      UpdateStaysWatched(s, id, Close(t, id, true, s.clock));
    case HeartbeatTimesOut(_) =>
      UpdateStaysWatched(s, id, Close(t, id, false, s.clock));
    case _ =>
  }

  lemma {:induction false} RunStaysWatched(s: Server, events: seq<Timed>)
    requires AllWatched(s) && Inv(s)
    ensures AllWatched(Run(s, events))
    decreases |events|
  {
    hide AllWatched, Step, InStep, OnceEach, HasRoom;
    if events != [] {
      StepStaysWatched(s, events[0].event, events[0].now);
      StepKeepsInv(s, events[0].event, events[0].now);
      RunStaysWatched(Step(s, events[0].event, events[0].now), events[1..]);
    }
  }

  /** Over every run: a connection that waits runs the handshake timer, an authenticated one the
      heartbeat timer, and from readiness on the transport owes each open one a completion. */
  lemma OpenConnectionsAreWatched(token: H.TokenView, events: seq<Timed>, id: nat)
    requires id in Run(Fresh(token), events).conns
    ensures var c := Run(Fresh(token), events).conns[id];
            && (Waiting(c) ==> c.handshakeTimer && !c.heartbeatTimer)
            && (c.phase == Authenticated ==> c.heartbeatTimer && !c.handshakeTimer)
            && (c.phase != Closed && c.phase != AwaitingReady ==> c.receiving != c.sending.Some?)
  {
    hide Run;
    ReachedIs(token, events);
    WatchedAt(Run(Fresh(token), events), id);
    MatchesAt(Run(Fresh(token), events), id);
  }

  lemma ReachedIs(token: H.TokenView, events: seq<Timed>)
    ensures Inv(Run(Fresh(token), events)) && InStep(Run(Fresh(token), events)) && AllWatched(Run(Fresh(token), events))
  {
    hide Run;
    FreshInv(token);
    RunKeepsInv(Fresh(token), events);
    RunStaysWatched(Fresh(token), events);
  }

  // ----- Which failures are recorded -----

  /** A failure for `id` is recorded exactly when a waiting connection is closed, unless its proof
      was accepted before that. */
  ghost predicate RecordsClosing(t: Turn, after: Turn, id: nat, now: nat) {
    after.admission.history
    == t.admission.history
       + if Waiting(t.conn) && after.conn.phase == Closed && after.conn.concluded == None
         then [Recorded(id, t.conn.peer, now)] else []
  }

  lemma HelloRecords(t: Turn, id: nat, a: Arrival, now: nat)
    requires t.conn.phase == AwaitingHello && a.Envelope? && t.conn.concluded == None
    ensures RecordsClosing(t, ReceiveHello(t, id, a, now), id, now)
  {
    hide H.TakeHello;
  }

  /** Whenever its proof is accepted the connection gets the slot. */
  ghost predicate Welcome(t: Turn, id: nat, a: Arrival, now: nat) {
    a.Envelope? && a.payload.ProofPayload? && t.conn.phase == AwaitingProof
    && H.TakeProof(t.conn.shake, t.token, a.payload.proof, now, a.randoms.sessionID).2.Ok? ==>
      Succeed(t.admission, id).1
  }

  lemma ProofRecords(t: Turn, id: nat, a: Arrival, now: nat)
    requires t.conn.phase == AwaitingProof && a.Envelope? && t.conn.concluded == None && Welcome(t, id, a, now)
    ensures RecordsClosing(t, ReceiveProof(t, id, a, now), id, now)
  {
    hide H.TakeProof;
  }

  lemma BeatRecords(t: Turn, id: nat, a: Arrival, now: nat)
    requires t.conn.phase == Authenticated && a.Envelope?
    ensures RecordsClosing(t, ReceiveHeartbeat(t, id, a, now), id, now)
  {
    BeatChangesLittle(t.conn, a);
    hide TakeBeat;
  }

  lemma ReceiveRecords(t: Turn, id: nat, a: Arrival, now: nat)
    requires Watched(t.conn) && Welcome(t, id, a, now) && t.conn.phase != Closed
    ensures RecordsClosing(t, Receive(t, id, a, now), id, now)
  {
    hide ReceiveHello, ReceiveProof, ReceiveHeartbeat, H.TakeProof;
    if a.Envelope? {
      var t1 := t.(conn := t.conn.(receiving := false, wireID := Some(a.wireID)));
      if t.conn.phase == AwaitingHello {
        HelloRecords(t1, id, a, now);
      } else if t.conn.phase == AwaitingProof {
        ProofRecords(t1, id, a, now);
      } else if t.conn.phase == Authenticated {
        BeatRecords(t1, id, a, now);
      }
    }
  }

  lemma SendDoneRecords(t: Turn, id: nat, failed: bool, now: nat)
    requires Watched(t.conn) && WellPhased(t.conn) && t.conn.sending.Some?
    ensures RecordsClosing(t, SendDone(t, id, failed, now), id, now)
  {
  }

  /** What is an attempt to authenticate: a message, the end of a send, and letting time run out. */
  predicate Attempt(e: Event) {
    e.Arrives? || e.SendCompletes? || e.HandshakeTimesOut?
  }

  /** The failure that a callback adds to the history, if any. */
  ghost function Added(s: Server, e: Event, after: Server): seq<Recorded> {
    if Attempt(e) && e.id in s.conns && e.id in after.conns && Waiting(s.conns[e.id])
       && after.conns[e.id].phase == Closed && after.conns[e.id].concluded == None
    then [Recorded(e.id, s.conns[e.id].peer, after.clock)]
    else if e.Accept? && e.id !in s.conns && e.id in after.conns && after.conns[e.id].phase == Closed
    then [Recorded(e.id, e.peer, after.clock)]
    else []
  }

  lemma {:induction false} StopRecordsNothing(s: Server, order: seq<nat>)
    ensures StopEach(s, order).admission.history == s.admission.history && StopEach(s, order).clock == s.clock
    decreases |order|
  {
    if order != [] {
      if order[0] in s.conns {
        StopRecordsNothing(Update(s, order[0], Close(At(s, order[0]), order[0], false, s.clock)), order[1..]);
      } else {
        StopRecordsNothing(s, order[1..]);
      }
    }
  }

  lemma AcceptRecords(s: Server, e: Event)
    requires e.Accept?
    ensures var after := AcceptStep(s, e.id, e.peer, e.serverID, e.initThrows);
            after.admission.history == s.admission.history + Added(s, e, after) && after.clock == s.clock
  {
    hide Times, PeerTimes;
  }

  lemma TurnRecords(s: Server, e: Event)
    requires !e.Accept? && !e.Stop? && e.id in s.conns && Watched(s.conns[e.id]) && Matches(At(s, e.id), e.id)
    requires e.Arrives? ==> Welcome(At(s, e.id), e.id, e.arrival, s.clock) || !Drawn(e.arrival)
    ensures var after := Step(s, e, s.clock);
            after.admission.history == s.admission.history + Added(s, e, after)
  {
    hide Receive, H.TakeProof;
    var t, id := At(s, e.id), e.id;
    assert s.(clock := s.clock) == s;
    match e
    case Arrives(_, a) =>
      if t.conn.receiving && Drawn(a) && t.conn.phase != Closed {
        ReceiveRecords(t, id, a, s.clock);
      } else if t.conn.receiving && Drawn(a) {
        ClosedReceivesNothing(t, id, a, s.clock);
      }
    case SendCompletes(_, failed) =>
      if t.conn.sending.Some? {
        SendDoneRecords(t, id, failed, s.clock);
      }
    case _ =>
  }

  lemma ClosedReceivesNothing(t: Turn, id: nat, a: Arrival, now: nat)
    requires t.conn.phase == Closed
    ensures Receive(t, id, a, now).admission == t.admission && Receive(t, id, a, now).conn.phase == Closed
  {
  }

  /** Over every run, the history grows by exactly the attempts that fail: by one failure when a
      waiting connection is closed by a message, a failed send of the challenge or the handshake
      timeout, or when a connection let in cannot be set up; and by nothing when it is closed by
      the network or a stop, nor for a connection whose proof was accepted. */
  lemma FailuresAreRecordedExactly(token: H.TokenView, past: seq<Timed>, e: Event, now: nat)
    requires |token.value| == TOKEN_LENGTH
    ensures var s := Run(Fresh(token), past);
            var after := Step(s, e, now);
            after.admission.history == s.admission.history + Added(s, e, after)
  {
    hide Run, Watched, AllWatched, InStep, Inv, Added, AcceptStep, StopEach, Welcome, Receive, Close, Update, SendDone;
    var s := Run(Fresh(token), past);
    var clock := if now > s.clock then now else s.clock;
    var s1 := s.(clock := clock);
    ReachedIs(token, past);
    match e
    case Accept(_, _, _, _) =>
      AcceptRecords(s1, e);
      AddedAnyTime(s, s1, e, Step(s, e, now));
    case Stop(order) =>
      StopRecordsNothing(s1, order);
      NothingAdded(s, e, Step(s, e, now));
    case _ =>
      if e.id in s.conns {
        WatchedAt(s, e.id);
        MatchesAt(s, e.id);
        MatchesAnyTime(s, clock, e.id);
        WelcomeHere(token, past, e, now);
        TurnRecords(s1, e);
        assert Step(s1, e, clock) == Step(s, e, now);
        AddedAnyTime(s, s1, e, Step(s, e, now));
      } else {
        NothingAdded(s, e, Step(s, e, now));
      }
  }

  lemma AddedAnyTime(s: Server, s1: Server, e: Event, after: Server)
    requires s1.conns == s.conns
    ensures Added(s1, e, after) == Added(s, e, after)
  {
  }

  lemma NothingAdded(s: Server, e: Event, after: Server)
    requires e.Stop? || (!e.Accept? && e.id !in s.conns)
    ensures Added(s, e, after) == []
  {
  }

  lemma MatchesAnyTime(s: Server, clock: nat, id: nat)
    requires id in s.conns
    ensures At(s.(clock := clock), id) == At(s, id)
  {
  }

  lemma WelcomeHere(token: H.TokenView, past: seq<Timed>, e: Event, now: nat)
    requires |token.value| == TOKEN_LENGTH
    requires e.Arrives? ==> e.id in Run(Fresh(token), past).conns
    ensures var s := Run(Fresh(token), past);
            var clock := if now > s.clock then now else s.clock;
            e.Arrives? && Drawn(e.arrival) ==> Welcome(At(s, e.id), e.id, e.arrival, clock)
  {
    hide Run, H.TakeProof;
    var s := Run(Fresh(token), past);
    var clock := if now > s.clock then now else s.clock;
    if e.Arrives? && e.arrival.Envelope? && e.arrival.payload.ProofPayload? && s.conns[e.id].phase == AwaitingProof
       && Drawn(e.arrival)
       && H.TakeProof(s.conns[e.id].shake, s.token, e.arrival.payload.proof, clock, e.arrival.randoms.sessionID).2.Ok?
    {
      ServerLife.ProvedIsAdmitted(token, past, e.id, e.arrival.payload.proof, clock, e.arrival.randoms.sessionID);
    }
  }

  // ----- Which messages are taken -----

  /** In time for the handshake, which has ten seconds. */
  predicate HandshakeInTime(c: Conn, now: nat) {
    c.shake.createdAt <= now <= c.shake.createdAt + 10_000_000_000
  }

  /** The token has three minutes, and one use. */
  predicate TokenUsable(token: H.TokenView, now: nat) {
    token.createdAt <= now <= token.createdAt + 180_000_000_000 && !token.consumed
  }

  /** The code over the exchange this connection had, under the key of the token. */
  predicate RightProof(t: Turn, proof: H.Mac) {
    t.conn.shake.hello.Some? && t.conn.shake.challenge.Some?
    && var transcript := Build(ClientProof(t.conn.shake.hello.value, t.conn.shake.challenge.value));
       transcript.Ok? && proof == H.Hmac(H.TokenKey(t.token.value), transcript.value)
  }

  /** A hello keeps the connection open exactly if it is well-formed and in time; the challenge
      is then on its way. */
  lemma HelloTakenExactly(t: Turn, id: nat, a: Arrival, now: nat)
    requires Watched(t.conn) && t.conn.phase == AwaitingHello
    ensures var after := Receive(t, id, a, now);
            && (after.conn.phase != Closed <==>
                  && a.Envelope? && a.kind == HelloMessage && a.sequence == 0 && a.mac == None
                  && a.payload.HelloPayload? && |a.payload.hello.clientNonce| == 32
                  && HandshakeInTime(t.conn, now) && a.replyError == None)
            && (after.conn.phase != Closed ==>
                  && after.conn.phase == AwaitingProof && after.conn.wireID == Some(a.wireID)
                  && after.conn.shake.hello == Some(a.payload.hello)
                  && after.conn.sending.Some?
                  && after.conn.sending.value
                     == ChallengeSent(Challenge(a.randoms.nonce, a.randoms.challengeID, t.conn.shake.serverID)))
  {
  }

  /** A proof is accepted exactly if it is the right one, for the connection at hand, in time, with
      the token usable. */
  lemma ProofTakenExactly(t: Turn, id: nat, a: Arrival, now: nat)
    requires Watched(t.conn) && t.conn.phase == AwaitingProof && Welcome(t, id, a, now)
    requires |t.token.value| == TOKEN_LENGTH && Drawn(a)
    ensures var after := Receive(t, id, a, now);
            && (after.conn.phase == Closed || after.conn.phase == Authenticated)
            && (after.conn.phase == Authenticated <==>
                  && a.Envelope? && a.kind == ProofMessage && a.sequence == 0 && a.mac == None
                  && t.conn.wireID == Some(a.wireID) && a.payload.ProofPayload? && RightProof(t, a.payload.proof)
                  && HandshakeInTime(t.conn, now) && TokenUsable(t.token, now) && a.replyError == None)
            && (after.conn.phase == Authenticated ==>
                  && after.token.consumed && after.conn.keys.Some? && after.conn.sending.Some?
                  && after.conn.keys.value.sessionID == a.randoms.sessionID
                  && after.conn.sending.value.FinishedSent?
                  && after.conn.sending.value.finished.sessionID == a.randoms.sessionID)
  {
    hide Build, H.Reply;
    if a.Envelope? && a.payload.ProofPayload? && RightProof(t, a.payload.proof) {
      H.ReplyNeverFails(t.token.value, t.conn.shake.hello.value, t.conn.shake.challenge.value, a.randoms.sessionID);
    }
  }

  /** A heartbeat keeps the connection open exactly if its code is right and its number new; its
      acknowledgement is then on its way. */
  lemma BeatTakenExactly(t: Turn, id: nat, a: Arrival, now: nat)
    requires Watched(t.conn) && t.conn.phase == Authenticated && t.conn.keys.Some?
    requires |t.conn.keys.value.sessionID| == IDENTIFIER_LENGTH
    ensures var after, keys := Receive(t, id, a, now), t.conn.keys.value;
            && (after.conn.phase != Closed <==>
                  && a.Envelope? && a.kind == HeartbeatMessage && t.conn.wireID == Some(a.wireID)
                  && a.payload == BeatPayload("alive") && a.sequence > t.conn.received && a.replyError == None
                  && a.mac == Some(H.Hmac(keys.key, Build(ClientHeartbeat(keys.sessionID, a.sequence, "alive")).value)))
            && (after.conn.phase != Closed ==>
                  && after.conn.phase == Authenticated && after.conn.received == a.sequence
                  && after.conn.sending
                     == Some(AckSent(a.sequence,
                                     H.Hmac(keys.key, Build(ServerAck(keys.sessionID, a.sequence, "ok")).value))))
  {
    hide Canonical, Fields, Ascii;
  }

  // ----- Guesses are rate limited -----

  /** A proof that is not the right one arrives for a connection of `peer` that waits for one. */
  predicate WrongProof(s: Server, e: Event, peer: string) {
    && e.Arrives? && e.id in s.conns && s.conns[e.id].peer == peer && s.conns[e.id].phase == AwaitingProof
    && s.conns[e.id].receiving && Drawn(e.arrival)
    && !(e.arrival.Envelope? && e.arrival.payload.ProofPayload?
         && RightProof(At(s, e.id), e.arrival.payload.proof))
  }

  /** How many wrong proofs of `peer` arrive from `from` on. */
  function Guesses(s: Server, events: seq<Timed>, peer: string, from: nat): nat
    decreases |events|
  {
    if events == [] then 0
    else
      var after := Step(s, events[0].event, events[0].now);
      (if WrongProof(s, events[0].event, peer) && after.clock >= from then 1 else 0)
      + Guesses(after, events[1..], peer, from)
  }

  /** A wrong proof closes its connection and is recorded. */
  lemma WrongProofIsRecorded(token: H.TokenView, past: seq<Timed>, e: Event, now: nat, peer: string)
    requires |token.value| == TOKEN_LENGTH && WrongProof(Run(Fresh(token), past), e, peer)
    ensures var s := Run(Fresh(token), past);
            var after := Step(s, e, now);
            && e.Arrives? && e.id in after.conns && after.conns[e.id].phase == Closed
            && after.admission.history == s.admission.history + [Recorded(e.id, peer, after.clock)]
  {
    hide Run, Watched, AllWatched, InStep, Inv, Receive, Welcome, RightProof;
    var s := Run(Fresh(token), past);
    var clock := if now > s.clock then now else s.clock;
    var t := At(s, e.id);
    ReachedIs(token, past);
    WatchedAt(s, e.id);
    WelcomeHere(token, past, e, now);
    ServerLife.FreshIsSpentOnce(token);
    ServerLife.RunKeepsSpentOnce(Fresh(token), past);
    ProofTakenExactly(t, e.id, e.arrival, clock);
    NoConclusion(t, e.id, e.arrival, clock);
    FailuresAreRecordedExactly(token, past, e, now);
  }

  lemma NoConclusion(t: Turn, id: nat, a: Arrival, now: nat)
    requires Watched(t.conn) && t.conn.phase == AwaitingProof
    requires !(a.Envelope? && a.payload.ProofPayload? && RightProof(t, a.payload.proof))
    ensures Receive(t, id, a, now).conn.concluded == None
  {
    hide Build, H.Reply;
  }

  lemma {:induction false} GuessesAreRecorded(token: H.TokenView, past: seq<Timed>, events: seq<Timed>, peer: string,
                                              from: nat)
    requires |token.value| == TOKEN_LENGTH
    ensures |PeerTimes(Run(Fresh(token), past + events).admission.history, peer, from)|
            >= |PeerTimes(Run(Fresh(token), past).admission.history, peer, from)|
               + Guesses(Run(Fresh(token), past), events, peer, from)
    decreases |events|
  {
    hide Run, Step, WrongProof, Added, PeerTimes;
    if events == [] {
      assert past + events == past;
    } else {
      var e := events[0];
      var s := Run(Fresh(token), past);
      var after := Step(s, e.event, e.now);
      OneMoreEvent(Fresh(token), past, e);
      assert past + events == (past + [e]) + events[1..];
      GuessesAreRecorded(token, past + [e], events[1..], peer, from);
      FailuresAreRecordedExactly(token, past, e.event, e.now);
      HistoryGrows(s.admission.history, Added(s, e.event, after), peer, from);
      if WrongProof(s, e.event, peer) {
        WrongProofIsRecorded(token, past, e.event, e.now, peer);
        TimesAppend(s.admission.history, Recorded(e.event.id, peer, after.clock), from);
      }
    }
  }

  lemma {:induction false} OneMoreEvent(s: Server, past: seq<Timed>, e: Timed)
    ensures Run(s, past + [e]) == Step(Run(s, past), e.event, e.now)
    decreases |past|
  {
    hide Step;
    if past == [] {
      assert past + [e] == [e];
      assert [e][1..] == [];
    } else {
      assert (past + [e])[1..] == past[1..] + [e];
      OneMoreEvent(Step(s, past[0].event, past[0].now), past[1..], e);
    }
  }

  lemma {:induction false} HistoryGrows(h: seq<Recorded>, more: seq<Recorded>, peer: string, from: nat)
    ensures |PeerTimes(h + more, peer, from)| >= |PeerTimes(h, peer, from)|
    decreases |more|
  {
    if more == [] {
      assert h + more == h;
    } else {
      var front, last := more[..|more| - 1], more[|more| - 1];
      assert h + more == (h + front) + [last];
      TimesAppend(h + front, last, from);
      HistoryGrows(h, front, peer, from);
    }
  }

  /** After five wrong proofs of one peer within a minute its next connection is not let in: it is
      rate limited, if anybody else would be let in. */
  lemma GuessingIsRateLimited(token: H.TokenView, events: seq<Timed>, e: Event, now: nat)
    requires |token.value| == TOKEN_LENGTH && e.Accept? && e.id !in Run(Fresh(token), events).conns
    requires var s := Run(Fresh(token), events);
             var clock := if now > s.clock then now else s.clock;
             Guesses(Fresh(token), events, e.peer, Cutoff(clock)) >= 5
    ensures var s := Run(Fresh(token), events);
            var clock := if now > s.clock then now else s.clock;
            && e.id !in Step(s, e, now).conns
            && Begin(s.admission, e.id, e.peer, clock).1
               == Err(if s.admission.active == None && |s.admission.pending| < 8 then RateLimited else ResourceLimit)
  {
    hide Run, Times, PeerTimes, Guesses;
    var s := Run(Fresh(token), events);
    var clock := if now > s.clock then now else s.clock;
    NothingRun(Fresh(token));
    assert [] + events == events;
    GuessesAreRecorded(token, [], events, e.peer, Cutoff(clock));
    assert |PeerTimes(s.admission.history, e.peer, Cutoff(clock))| >= 5;
  }

  lemma NothingRun(s: Server)
    ensures Run(s, []) == s
  {
  }

  // ----- Who is let in, and what ends a connection -----

  /** A connection is let in exactly if admission lets it and its handshake can be set up; it then
      waits, registered and pending. */
  lemma LetInExactly(token: H.TokenView, events: seq<Timed>, e: Event, now: nat)
    requires e.Accept? && e.id !in Run(Fresh(token), events).conns
    ensures var s := Run(Fresh(token), events);
            var after := Step(s, e, now);
            var ok := Begin(s.admission, e.id, e.peer, after.clock).1.Ok?;
            && (e.id in after.conns <==> ok)
            && (ok ==> (after.conns[e.id].phase == if e.initThrows then Closed else AwaitingReady))
            && (e.id in after.registered <==> ok && !e.initThrows)
            && (e.id in after.admission.pending <==> ok && !e.initThrows)
  {
    hide Run, Times, PeerTimes;
    ReachedIs(token, events);
    var s := Run(Fresh(token), events);
    assert e.id !in s.registered && e.id !in s.admission.pending;
  }

  /** A lost network, a timer that fires and a failed send close the connection; readiness opens it
      for the hello. */
  lemma EndsClose(s: Server, e: Event, now: nat)
    requires !e.Stop? && !e.Accept? && e.id in s.conns
    ensures var after := Step(s, e, now).conns[e.id];
            var c := s.conns[e.id];
            && (e.NetworkLost? ==> after.phase == Closed)
            && (e.HandshakeTimesOut? && c.handshakeTimer ==> after.phase == Closed)
            && (e.HeartbeatTimesOut? && c.heartbeatTimer ==> after.phase == Closed)
            && (e.SendCompletes? && e.failed && c.sending.Some? ==> after.phase == Closed)
            && (e.SendCompletes? && !e.failed && c.sending.Some? ==>
                  after.phase == c.phase && after.receiving && after.sending == None)
            && (e.BecomesReady? && c.phase == AwaitingReady ==> after.phase == AwaitingHello && after.receiving)
  {
    hide Receive;
  }
}
