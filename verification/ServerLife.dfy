/** The life of a diagnostic server: its connections, admission and handshakes over the one
    token together (DiagnosticServer.swift, Authentication.swift). */
module ServerLife {
  import opened Basics
  import opened Transcript
  import opened Admission
  import opened DiagnosticServer
  import H = Handshake

  /** An authenticated connection holds the keys its handshake concluded. */
  ghost predicate HoldsKeys(c: Conn) {
    c.phase == Authenticated ==>
      && c.concluded.Some?
      && c.keys == Some(Keys(c.concluded.value.session.finished.sessionID, c.concluded.value.session.key))
  }

  /** What a callback may do to the token and to the record of its connection: nothing, or spend
      the token on a sound conclusion. */
  ghost predicate Honest(before: Turn, after: Turn) {
    && after.token.value == before.token.value && HoldsKeys(after.conn)
    && ((after.token == before.token && after.conn.concluded == before.conn.concluded)
        || (!before.token.consumed && after.token.consumed && after.conn.concluded.Some?
            && H.SoundConclusion(before.token.value, after.conn.concluded.value)))
  }

  /** The token is spent exactly when one connection has concluded its handshake. */
  ghost predicate SpentOnce(s: Server) {
    && |s.token.value| == TOKEN_LENGTH
    && (forall id :: id in s.conns ==> HoldsKeys(s.conns[id]))
    && (forall id :: id in s.conns && s.conns[id].concluded.Some? ==>
          s.token.consumed && H.SoundConclusion(s.token.value, s.conns[id].concluded.value))
    && (forall a, b :: a in s.conns && b in s.conns && s.conns[a].concluded.Some? && s.conns[b].concluded.Some? ==>
          a == b)
  }

  /** Conclusions stay on record, and the token is the same. */
  ghost predicate Keeps(s: Server, after: Server) {
    && after.token.value == s.token.value
    && forall id :: id in s.conns && s.conns[id].concluded.Some? ==>
         id in after.conns && after.conns[id].concluded == s.conns[id].concluded
  }

  // ----- What every callback keeps -----

  lemma CloseIsHonest(t: Turn, id: nat, record: bool, now: nat)
    requires HoldsKeys(t.conn)
    ensures Honest(t, Close(t, id, record, now))
  {
  }

  lemma ReadyIsHonest(t: Turn)
    requires HoldsKeys(t.conn)
    ensures Honest(t, Ready(t))
  {
  }

  lemma SendDoneIsHonest(t: Turn, id: nat, failed: bool, now: nat)
    requires HoldsKeys(t.conn) && t.conn.sending.Some?
    ensures Honest(t, SendDone(t, id, failed, now))
  {
  }

  lemma HelloIsHonest(t: Turn, id: nat, a: Arrival, now: nat)
    requires a.Envelope? && t.conn.phase == AwaitingHello
    ensures Honest(t, ReceiveHello(t, id, a, now))
  {
    hide H.TakeHello;
  }

  lemma BeatIsHonest(t: Turn, id: nat, a: Arrival, now: nat)
    requires a.Envelope? && HoldsKeys(t.conn)
    ensures Honest(t, ReceiveHeartbeat(t, id, a, now))
  {
    BeatChangesLittle(t.conn, a);
    hide TakeBeat;
  }

  /** What the handshake says about a proof. */
  lemma ProofIsSound(s: H.ServerView, token: H.TokenView, proof: H.Mac, now: nat, sessionID: Bytes)
    requires |token.value| == TOKEN_LENGTH && |sessionID| == IDENTIFIER_LENGTH
    ensures var (server, after, r) := H.TakeProof(s, token, proof, now, sessionID);
            && after.value == token.value
            && (r.Err? ==> after == token)
            && (r.Ok? ==> !token.consumed && after.consumed)
            && (r.Ok? ==> H.SoundConclusion(token.value, H.Concluded(server, proof, r.value)))
  {
    hide Build, H.DeriveKey, H.Reply;
    if s.hello.Some? && s.challenge.Some? && Build(ClientProof(s.hello.value, s.challenge.value)).Ok? {
      H.ReplyNeverFails(token.value, s.hello.value, s.challenge.value, sessionID);
    }
  }

  lemma SettleIsHonest(t: Turn, id: nat, session: H.Session, replyError: Option<Failure>, now: nat)
    requires t.conn.phase == AwaitingProof && t.conn.concluded.Some? && t.conn.concluded.value.session == session
    ensures var after := Settle(t, id, session, replyError, now);
            HoldsKeys(after.conn) && after.conn.concluded == t.conn.concluded && after.token == t.token
  {
  }

  lemma ProofIsHonest(t: Turn, id: nat, a: Arrival, now: nat)
    requires a.Envelope? && |a.randoms.sessionID| == IDENTIFIER_LENGTH && |t.token.value| == TOKEN_LENGTH
    requires t.conn.phase == AwaitingProof
    ensures Honest(t, ReceiveProof(t, id, a, now))
  {
    hide H.TakeProof, Settle, H.SoundConclusion;
    if a.payload.ProofPayload? {
      ProofIsSound(t.conn.shake, t.token, a.payload.proof, now, a.randoms.sessionID);
      var (shake, token, r) := H.TakeProof(t.conn.shake, t.token, a.payload.proof, now, a.randoms.sessionID);
      if r.Ok? {
        var c := t.conn.(shake := shake, concluded := Some(H.Concluded(shake, a.payload.proof, r.value)));
        SettleIsHonest(Turn(c, t.admission, token), id, r.value, a.replyError, now);
      }
    }
  }

  lemma ReceiveIsHonest(t: Turn, id: nat, a: Arrival, now: nat)
    requires HoldsKeys(t.conn) && Drawn(a) && |t.token.value| == TOKEN_LENGTH
    ensures Honest(t, Receive(t, id, a, now))
  {
    hide ReceiveHello, ReceiveProof, ReceiveHeartbeat, H.SoundConclusion;
    if a.Envelope? {
      var t1 := t.(conn := t.conn.(receiving := false, wireID := Some(a.wireID)));
      match t.conn.phase
      case AwaitingHello => HelloIsHonest(t1, id, a, now);
      case AwaitingProof => ProofIsHonest(t1, id, a, now);
      case Authenticated => BeatIsHonest(t1, id, a, now);
      case _ =>
    }
  }

  lemma UpdateKeepsSpentOnce(s: Server, id: nat, t: Turn)
    requires SpentOnce(s) && id in s.conns && Honest(At(s, id), t)
    ensures SpentOnce(Update(s, id, t)) && Keeps(s, Update(s, id, t))
  {
    hide H.SoundConclusion, HoldsKeys;
  }

  lemma {:induction false} StopKeepsSpentOnce(s: Server, order: seq<nat>)
    requires SpentOnce(s)
    ensures SpentOnce(StopEach(s, order)) && Keeps(s, StopEach(s, order))
    decreases |order|
  {
    if order != [] {
      if order[0] in s.conns {
        CloseIsHonest(At(s, order[0]), order[0], false, s.clock);
        UpdateKeepsSpentOnce(s, order[0], Close(At(s, order[0]), order[0], false, s.clock));
        hide SpentOnce, Honest, Update, Close;
        StopKeepsSpentOnce(Update(s, order[0], Close(At(s, order[0]), order[0], false, s.clock)), order[1..]);
      } else {
        hide SpentOnce;
        StopKeepsSpentOnce(s, order[1..]);
      }
    }
  }

  lemma AcceptKeepsSpentOnce(s: Server, id: nat, peer: string, serverID: Bytes, initThrows: bool)
    requires SpentOnce(s)
    ensures SpentOnce(AcceptStep(s, id, peer, serverID, initThrows))
    ensures Keeps(s, AcceptStep(s, id, peer, serverID, initThrows))
  {
    hide H.SoundConclusion, Begin;
  }

  lemma TurnKeepsSpentOnce(s: Server, e: Event)
    requires SpentOnce(s)
    requires e.BecomesReady? || e.NetworkLost? || e.Arrives? || e.SendCompletes?
             || e.HandshakeTimesOut? || e.HeartbeatTimesOut?
    ensures SpentOnce(Step(s, e, s.clock)) && Keeps(s, Step(s, e, s.clock))
  {
    assert s.(clock := s.clock) == s;
    var id := e.id;
    if id in s.conns {
      var t := At(s, id);
      assert HoldsKeys(t.conn) && |s.token.value| == TOKEN_LENGTH;
      hide SpentOnce, Honest, Update, Close, Receive, SendDone, Ready, HoldsKeys;
      match e
      case BecomesReady(_) =>
        ReadyIsHonest(t);
        UpdateKeepsSpentOnce(s, id, Ready(t));
      case NetworkLost(_) =>
        CloseIsHonest(t, id, false, s.clock);
        UpdateKeepsSpentOnce(s, id, Close(t, id, false, s.clock));
      case Arrives(_, a) =>
        if s.conns[id].receiving && Drawn(a) {
          ReceiveIsHonest(t, id, a, s.clock);
          UpdateKeepsSpentOnce(s, id, Receive(t, id, a, s.clock));
        }
      case SendCompletes(_, failed) =>
        if s.conns[id].sending.Some? {
          SendDoneIsHonest(t, id, failed, s.clock);
          UpdateKeepsSpentOnce(s, id, SendDone(t, id, failed, s.clock));
        }
      case HandshakeTimesOut(_) =>
        CloseIsHonest(t, id, true, s.clock);
        UpdateKeepsSpentOnce(s, id, Close(t, id, true, s.clock));
      case HeartbeatTimesOut(_) =>
        CloseIsHonest(t, id, false, s.clock);
        UpdateKeepsSpentOnce(s, id, Close(t, id, false, s.clock));
    }
  }

  lemma StepKeepsSpentOnce(s0: Server, e: Event, now: nat)
    requires SpentOnce(s0)
    ensures SpentOnce(Step(s0, e, now)) && Keeps(s0, Step(s0, e, now))
  {
    var s := s0.(clock := if now > s0.clock then now else s0.clock);
    assert SpentOnce(s);
    hide SpentOnce, Update, Close, Receive, SendDone, Ready, StopEach, AcceptStep;
    match e
    case Accept(id, peer, serverID, initThrows) => AcceptKeepsSpentOnce(s, id, peer, serverID, initThrows);
    case Stop(order) => StopKeepsSpentOnce(s, order);
    case _ =>
      TurnKeepsSpentOnce(s, e);
      assert Step(s, e, s.clock) == Step(s0, e, now);
  }

  lemma {:induction false} RunKeepsSpentOnce(s: Server, events: seq<Timed>)
    requires SpentOnce(s)
    ensures SpentOnce(Run(s, events)) && Keeps(s, Run(s, events))
    decreases |events|
  {
    hide SpentOnce, Step;
    if events != [] {
      StepKeepsSpentOnce(s, events[0].event, events[0].now);
      RunKeepsSpentOnce(Step(s, events[0].event, events[0].now), events[1..]);
    }
  }

  // ----- Results over a server's life -----

  lemma FreshIsSpentOnce(token: H.TokenView)
    requires |token.value| == TOKEN_LENGTH
    ensures SpentOnce(Fresh(token))
  {
  }

  predicate IsAuthenticated(s: Server, id: nat) {
    id in s.conns && s.conns[id].phase == Authenticated
  }

  /** However many connections come and go, at most one ever becomes authenticated over the
      life of a server. */
  lemma OneConnectionEver(token: H.TokenView, past: seq<Timed>, future: seq<Timed>, a: nat, b: nat)
    requires |token.value| == TOKEN_LENGTH
    requires IsAuthenticated(Run(Fresh(token), past), a)
    requires IsAuthenticated(Run(Run(Fresh(token), past), future), b)
    ensures a == b
  {
    hide Run;
    FreshIsSpentOnce(token);
    RunKeepsSpentOnce(Fresh(token), past);
    var s := Run(Fresh(token), past);
    RunKeepsSpentOnce(s, future);
    assert HoldsKeys(s.conns[a]);
    assert HoldsKeys(Run(s, future).conns[b]);
  }

  /** When a client accepts the proof that an authenticated connection concluded with, both
      sides saw the same hello and challenge, and hold the same token, session id and key. */
  lemma AuthenticatedPeerAgrees(token: H.TokenView, events: seq<Timed>, id: nat, client: H.ClientView,
                                finished: H.Finished)
    requires |token.value| == TOKEN_LENGTH && IsAuthenticated(Run(Fresh(token), events), id)
    requires var c := Run(Fresh(token), events).conns[id];
             c.concluded.Some? ==> finished.proof == c.concluded.value.session.finished.proof
    requires H.TakeFinished(client, finished).1.Ok?
    ensures var c := Run(Fresh(token), events).conns[id];
            && c.concluded.Some? && H.Agree(c.concluded.value.server, client) && client.token == token.value
            && c.keys.Some?
            && H.TakeFinished(client, finished).1.value == H.ClientSession(c.keys.value.sessionID, c.keys.value.key)
  {
    hide Run;
    FreshIsSpentOnce(token);
    RunKeepsSpentOnce(Fresh(token), events);
    var c := Run(Fresh(token), events).conns[id];
    assert HoldsKeys(c);
    AcceptanceIsSound(client, finished);
    var (after, r) := H.TakeFinished(client, finished);
    H.FinishedAgrees(token.value, c.concluded.value, H.Accepted(after, finished, r.value));
  }

  lemma AcceptanceIsSound(client: H.ClientView, finished: H.Finished)
    requires H.TakeFinished(client, finished).1.Ok?
    ensures var (after, r) := H.TakeFinished(client, finished);
            && H.SoundAcceptance(H.Accepted(after, finished, r.value))
            && after.hello == client.hello && after.challenge == client.challenge && after.token == client.token
  {
    hide Build, H.DeriveKey;
  }

  /** Admission never refuses a connection that has proved itself: the slot is free then. */
  lemma ProvedIsAdmitted(token: H.TokenView, events: seq<Timed>, id: nat, proof: H.Mac, now: nat, sessionID: Bytes)
    requires |token.value| == TOKEN_LENGTH && |sessionID| == IDENTIFIER_LENGTH
    requires var s := Run(Fresh(token), events);
             && id in s.conns && s.conns[id].phase == AwaitingProof
             && H.TakeProof(s.conns[id].shake, s.token, proof, now, sessionID).2.Ok?
    ensures var s := Run(Fresh(token), events);
            Succeed(s.admission, id) == (s.admission.(pending := s.admission.pending - {id}, active := Some(id)), true)
  {
    hide Run, H.TakeProof, HasRoom, OnceEach;
    FreshIsSpentOnce(token);
    RunKeepsSpentOnce(Fresh(token), events);
    FreshInv(token);
    RunKeepsInv(Fresh(token), events);
    var s := Run(Fresh(token), events);
    ProofIsSound(s.conns[id].shake, s.token, proof, now, sessionID);
    assert forall other :: other in s.conns ==> HoldsKeys(s.conns[other]);
    ActiveIsRegistered(s);
  }

  lemma BeatTaken(c: Conn, a: Arrival)
    requires a.Envelope? && TakeBeat(c, a).0.received != c.received
    ensures c.keys.Some? && TakeBeat(c, a).0.received == a.sequence > c.received
    ensures var keys := c.keys.value;
            var beat := Build(ClientHeartbeat(keys.sessionID, a.sequence, "alive"));
            beat.Ok? && a.mac == Some(H.Hmac(keys.key, beat.value))
  {
    hide Canonical;
  }

  lemma CountInBeat(t: Turn, id: nat, a: Arrival, now: nat)
    requires a.Envelope?
    ensures ReceiveHeartbeat(t, id, a, now).conn.received == TakeBeat(t.conn, a).0.received
  {
    hide TakeBeat;
  }

  lemma CountElsewhere(t: Turn, id: nat, a: Arrival, now: nat)
    requires a.Envelope?
    ensures ReceiveHello(t, id, a, now).conn.received == t.conn.received
    ensures ReceiveProof(t, id, a, now).conn.received == t.conn.received
  {
    hide H.TakeHello, H.TakeProof, Succeed;
  }

  /** A heartbeat that counts was made with the session key for this session, and its number is
      higher than all that counted before. */
  lemma BeatsAreFresh(t: Turn, id: nat, a: Arrival, now: nat)
    requires a.Envelope? && Receive(t, id, a, now).conn.received != t.conn.received
    ensures t.conn.phase == Authenticated && t.conn.keys.Some?
    ensures Receive(t, id, a, now).conn.received == a.sequence > t.conn.received
    ensures var keys := t.conn.keys.value;
            var beat := Build(ClientHeartbeat(keys.sessionID, a.sequence, "alive"));
            beat.Ok? && a.mac == Some(H.Hmac(keys.key, beat.value))
  {
    hide ReceiveHello, ReceiveProof, ReceiveHeartbeat, TakeBeat, Build;
    var t1 := t.(conn := t.conn.(receiving := false, wireID := Some(a.wireID)));
    CountElsewhere(t1, id, a, now);
    CountInBeat(t1, id, a, now);
    BeatTaken(t1.conn, a);
  }
}
