/** The one-time token and the two sides of the challenge-response handshake
    (Authentication.swift), and any number of them run against one token.

    HMAC and HKDF are symbolic: a key or a code determines everything it was
    computed from. */
module Handshake {
  import opened Basics
  import opened Transcript

  const TOKEN_TTL_NANOS := 180_000_000_000
  const HANDSHAKE_TIMEOUT_NANOS := 10_000_000_000

  datatype Key = TokenKey(token: Bytes) | SessionKey(secret: Bytes, salt: Bytes, info: Bytes)

  /** A message authentication code, or some other byte string offered as one. */
  datatype Mac = Hmac(key: Key, transcript: Bytes) | Arbitrary(raw: Bytes)

  function MacLength(mac: Mac): nat {
    match mac
    case Hmac(_, _) => MAC_LENGTH
    case Arbitrary(raw) => |raw|
  }

  predicate IsValid(mac: Mac, key: Key, transcript: Bytes) {
    mac == Hmac(key, transcript)
  }

  datatype Finished = Finished(sessionID: Bytes, proof: Mac)

  function DeriveKey(token: Bytes, hello: Hello, challenge: Challenge): Result<Key, Failure> {
    if |token| != TOKEN_LENGTH then Err(Length)
    else
      match Build(SessionInfo(hello, challenge))
      case Err(e) => Err(e)
      case Ok(info) => Ok(SessionKey(token, hello.clientNonce + challenge.serverNonce, info))
  }

  // ----- The token -----

  datatype TokenView = TokenView(value: Bytes, createdAt: nat, consumed: bool)

  function Consume(t: TokenView, now: nat): (r: (TokenView, Result<(), Failure>))
  {
    if !(now >= t.createdAt && now - t.createdAt <= TOKEN_TTL_NANOS) then (t, Err(Expired))
    else if t.consumed then (t, Err(Consumed))
    else (t.(consumed := true), Ok(()))
  }

  class OneTimeToken {
    const value: Bytes
    const createdAt: nat
    var consumed: bool

    ghost function View(): TokenView
      reads this
    {
      TokenView(value, createdAt, consumed)
    }

    constructor (value: Bytes, createdAt: nat)
      requires |value| == TOKEN_LENGTH
      ensures View() == TokenView(value, createdAt, false)
    {
      this.value, this.createdAt, this.consumed := value, createdAt, false;
    }

    method ConsumeIfValid(now: nat) returns (r: Result<(), Failure>)
      modifies this
      ensures (View(), r) == Consume(old(View()), now)
    {
      if !(now >= createdAt && now - createdAt <= TOKEN_TTL_NANOS) {
        return Err(Expired);
      }
      if consumed {
        return Err(Consumed);
      }
      consumed := true;
      r := Ok(());
    }
  }

  // ----- The server side -----

  datatype ServerState = AwaitingHello | AwaitingProof | Complete

  datatype ServerView = ServerView(serverID: Bytes, createdAt: nat, state: ServerState,
                                   hello: Option<Hello>, challenge: Option<Challenge>)

  predicate InTime(createdAt: nat, now: nat) {
    now >= createdAt && now - createdAt <= HANDSHAKE_TIMEOUT_NANOS
  }

  function TakeHello(s: ServerView, input: Hello, now: nat, nonce: Bytes, challengeID: Bytes)
    : (ServerView, Result<Challenge, Failure>)
  {
    if !InTime(s.createdAt, now) then (s, Err(Timeout))
    else if s.state != AwaitingHello then (s, Err(State))
    else if !ValidHello(input) then (s, Err(Length))
    else
      var next := Challenge(nonce, challengeID, s.serverID);
      (s.(hello := Some(input), challenge := Some(next), state := AwaitingProof), Ok(next))
  }

  datatype Session = Session(finished: Finished, key: Key)

  /** The reply to a valid proof. */
  function Reply(token: Bytes, hello: Hello, challenge: Challenge, sessionID: Bytes): Result<Session, Failure> {
    match DeriveKey(token, hello, challenge)
    case Err(e) => Err(e)
    case Ok(key) =>
      match Build(ServerFinished(hello, challenge, sessionID))
      case Err(e) => Err(e)
      case Ok(transcript) => Ok(Session(Finished(sessionID, Hmac(key, transcript)), key))
  }

  function TakeProof(s: ServerView, t: TokenView, proof: Mac, now: nat, sessionID: Bytes)
    : (ServerView, TokenView, Result<Session, Failure>)
  {
    if !InTime(s.createdAt, now) then (s, t, Err(Timeout))
    else if s.state != AwaitingProof || s.hello == None || s.challenge == None then (s, t, Err(State))
    else if MacLength(proof) != MAC_LENGTH then (s, t, Err(Length))
    else
      match Build(ClientProof(s.hello.value, s.challenge.value))
      case Err(e) => (s, t, Err(e))
      case Ok(transcript) =>
        if !IsValid(proof, TokenKey(t.value), transcript) then (s, t, Err(Authentication))
        else
          var (after, taken) := Consume(t, now);
          match taken
          case Err(e) => (s, after, Err(e))
          case Ok(_) =>
            (s.(state := Complete), after, Reply(t.value, s.hello.value, s.challenge.value, sessionID))
  }

  class ServerHandshake {
    const token: OneTimeToken
    const serverID: Bytes
    const createdAt: nat
    var state: ServerState
    var hello: Option<Hello>
    var challenge: Option<Challenge>

    ghost function View(): ServerView
      reads this
    {
      ServerView(serverID, createdAt, state, hello, challenge)
    }

    constructor (token: OneTimeToken, serverID: Bytes, now: nat)
      requires |serverID| == IDENTIFIER_LENGTH
      ensures this.token == token
      ensures View() == ServerView(serverID, now, AwaitingHello, None, None)
    {
      this.token, this.serverID, this.createdAt := token, serverID, now;
      state, hello, challenge := AwaitingHello, None, None;
    }

    /** The random bytes the source draws are parameters. */
    method ReceiveHello(input: Hello, now: nat, nonce: Bytes, challengeID: Bytes)
      returns (r: Result<Challenge, Failure>)
      modifies this
      ensures (View(), r) == TakeHello(old(View()), input, now, nonce, challengeID)
    {
      if !InTime(createdAt, now) {
        return Err(Timeout);
      }
      if state != AwaitingHello {
        return Err(State);
      }
      if !ValidHello(input) {
        return Err(Length);
      }
      var next := Challenge(nonce, challengeID, serverID);
      hello := Some(input);
      challenge := Some(next);
      state := AwaitingProof;
      r := Ok(next);
    }

    method ReceiveProof(proof: Mac, now: nat, sessionID: Bytes) returns (r: Result<Session, Failure>)
      modifies this, token
      ensures (View(), token.View(), r) == TakeProof(old(View()), old(token.View()), proof, now, sessionID)
    {
      hide Build;
      if !InTime(createdAt, now) {
        return Err(Timeout);
      }
      if state != AwaitingProof || hello == None || challenge == None {
        return Err(State);
      }
      if MacLength(proof) != MAC_LENGTH {
        return Err(Length);
      }
      var transcript := Build(ClientProof(hello.value, challenge.value));
      if transcript.Err? {
        return Err(transcript.error);
      }
      if !IsValid(proof, TokenKey(token.value), transcript.value) {
        return Err(Authentication);
      }
      var taken := token.ConsumeIfValid(now);
      if taken.Err? {
        return Err(taken.error);
      }
      state := Complete;
      r := Reply(token.value, hello.value, challenge.value, sessionID);
    }
  }

  // ----- The client side -----

  datatype ClientState = AwaitingChallenge | AwaitingFinished | ClientComplete

  datatype ClientView = ClientView(token: Bytes, hello: Hello, state: ClientState, challenge: Option<Challenge>)

  function TakeChallenge(c: ClientView, challenge: Challenge): (ClientView, Result<Mac, Failure>) {
    if c.state != AwaitingChallenge then (c, Err(State))
    else if !ValidChallenge(challenge) then (c, Err(Length))
    else
      var next := c.(challenge := Some(challenge), state := AwaitingFinished);
      match Build(ClientProof(c.hello, challenge))
      case Err(e) => (next, Err(e))
      case Ok(transcript) => (next, Ok(Hmac(TokenKey(c.token), transcript)))
  }

  datatype ClientSession = ClientSession(sessionID: Bytes, key: Key)

  function TakeFinished(c: ClientView, finished: Finished): (ClientView, Result<ClientSession, Failure>) {
    if c.state != AwaitingFinished || c.challenge == None then (c, Err(State))
    else if |finished.sessionID| != IDENTIFIER_LENGTH || MacLength(finished.proof) != MAC_LENGTH then (c, Err(Length))
    else
      match DeriveKey(c.token, c.hello, c.challenge.value)
      case Err(e) => (c, Err(e))
      case Ok(key) =>
        match Build(ServerFinished(c.hello, c.challenge.value, finished.sessionID))
        case Err(e) => (c, Err(e))
        case Ok(transcript) =>
          if !IsValid(finished.proof, key, transcript) then (c, Err(Authentication))
          else (c.(state := ClientComplete), Ok(ClientSession(finished.sessionID, key)))
  }

  class ClientHandshake {
    const token: Bytes
    const hello: Hello
    var state: ClientState
    var challenge: Option<Challenge>

    ghost function View(): ClientView
      reads this
    {
      ClientView(token, hello, state, challenge)
    }

    constructor (token: Bytes, clientNonce: Bytes)
      requires |token| == TOKEN_LENGTH && |clientNonce| == NONCE_LENGTH
      ensures View() == ClientView(token, Hello(clientNonce), AwaitingChallenge, None)
    {
      this.token, this.hello := token, Hello(clientNonce);
      state, challenge := AwaitingChallenge, None;
    }

    method ReceiveChallenge(input: Challenge) returns (r: Result<Mac, Failure>)
      modifies this
      ensures (View(), r) == TakeChallenge(old(View()), input)
    {
      hide Build;
      if state != AwaitingChallenge {
        return Err(State);
      }
      if !ValidChallenge(input) {
        return Err(Length);
      }
      challenge := Some(input);
      state := AwaitingFinished;
      var transcript := Build(ClientProof(hello, input));
      if transcript.Err? {
        return Err(transcript.error);
      }
      r := Ok(Hmac(TokenKey(token), transcript.value));
    }

    method ReceiveFinished(finished: Finished) returns (r: Result<ClientSession, Failure>)
      modifies this
      ensures (View(), r) == TakeFinished(old(View()), finished)
    {
      hide Build, DeriveKey;
      if state != AwaitingFinished || challenge == None {
        return Err(State);
      }
      if |finished.sessionID| != IDENTIFIER_LENGTH || MacLength(finished.proof) != MAC_LENGTH {
        return Err(Length);
      }
      var key := DeriveKey(token, hello, challenge.value);
      if key.Err? {
        return Err(key.error);
      }
      var transcript := Build(ServerFinished(hello, challenge.value, finished.sessionID));
      if transcript.Err? {
        return Err(transcript.error);
      }
      if !IsValid(finished.proof, key.value, transcript.value) {
        return Err(Authentication);
      }
      state := ClientComplete;
      r := Ok(ClientSession(finished.sessionID, key.value));
    }
  }

  // ----- What is accepted, and why not -----

  /** A hello is taken in time, once, and if it has its length; ten seconds are allowed. */
  lemma HelloTakenExactly(s: ServerView, input: Hello, now: nat, nonce: Bytes, challengeID: Bytes)
    ensures var inTime := s.createdAt <= now <= s.createdAt + 10_000_000_000;
            var (after, r) := TakeHello(s, input, now, nonce, challengeID);
            && (r == Err(Timeout) <==> !inTime)
            && (r == Err(State) <==> inTime && s.state != AwaitingHello)
            && (r == Err(Length) <==> inTime && s.state == AwaitingHello && |input.clientNonce| != 32)
            && (r.Err? ==> after == s && (r.error == Timeout || r.error == State || r.error == Length))
            && (r.Ok? ==>
                  && r.value == Challenge(nonce, challengeID, s.serverID)
                  && after == s.(hello := Some(input), challenge := Some(r.value), state := AwaitingProof))
  {
  }

  /** A proof is taken in time, once, if it is the code over this exchange under the key of the
      token, and if the token can still be used, for which it has three minutes; only then is the
      token spent. */
  lemma ProofTakenExactly(s: ServerView, t: TokenView, proof: Mac, now: nat, sessionID: Bytes)
    requires |t.value| == TOKEN_LENGTH && |sessionID| == IDENTIFIER_LENGTH
    requires s.hello.Some? && s.challenge.Some? && ValidHello(s.hello.value) && ValidChallenge(s.challenge.value)
    ensures var inTime := s.createdAt <= now <= s.createdAt + 10_000_000_000;
            var alive := t.createdAt <= now <= t.createdAt + 180_000_000_000;
            var transcript := Build(ClientProof(s.hello.value, s.challenge.value));
            var right := transcript.Ok? && proof == Hmac(TokenKey(t.value), transcript.value);
            var (server, token, r) := TakeProof(s, t, proof, now, sessionID);
            && (r == Err(Timeout) <==> !inTime)
            && (r == Err(State) <==> inTime && s.state != AwaitingProof)
            && (r == Err(Length) <==> inTime && s.state == AwaitingProof && proof.Arbitrary? && |proof.raw| != 32)
            && (r == Err(Authentication) <==>
                  inTime && s.state == AwaitingProof && !right && (proof.Arbitrary? ==> |proof.raw| == 32))
            && (r == Err(Expired) <==> inTime && s.state == AwaitingProof && right && !alive)
            && (r == Err(Consumed) <==> inTime && s.state == AwaitingProof && right && alive && t.consumed)
            && (r.Ok? <==> inTime && s.state == AwaitingProof && right && alive && !t.consumed)
            && (r.Ok? ==> server == s.(state := Complete) && token == t.(consumed := true))
            && (r.Err? ==> server == s && token == t)
  {
    ProofBuilds(s.hello.value, s.challenge.value);
    ReplyNeverFails(t.value, s.hello.value, s.challenge.value, sessionID);
    hide Build, Reply;
  }

  /** A client answers one challenge that has its lengths, with the code over it. */
  lemma ChallengeAnsweredExactly(c: ClientView, challenge: Challenge)
    requires ValidHello(c.hello)
    ensures var (after, r) := TakeChallenge(c, challenge);
            && (r == Err(State) <==> c.state != AwaitingChallenge)
            && (r == Err(Length) <==> c.state == AwaitingChallenge && !ValidChallenge(challenge))
            && (r.Err? ==> after == c && (r.error == State || r.error == Length))
            && (r.Ok? ==>
                  && after == c.(challenge := Some(challenge), state := AwaitingFinished)
                  && Build(ClientProof(c.hello, challenge)).Ok?
                  && r.value == Hmac(TokenKey(c.token), Build(ClientProof(c.hello, challenge)).value))
  {
    if ValidChallenge(challenge) {
      ProofBuilds(c.hello, challenge);
    }
    hide Build;
  }

  /** A client accepts the server's last message if it is the code over the exchange and the session
      under the key both derive. */
  lemma FinishedAcceptedExactly(c: ClientView, finished: Finished)
    requires |c.token| == TOKEN_LENGTH && c.state == AwaitingFinished && c.challenge.Some?
    requires ValidHello(c.hello) && ValidChallenge(c.challenge.value)
    ensures var reply := Reply(c.token, c.hello, c.challenge.value, finished.sessionID);
            var (after, r) := TakeFinished(c, finished);
            && (r.Ok? <==> |finished.sessionID| == 16 && reply.Ok? && finished == reply.value.finished)
            && (r == Err(Length) <==>
                  |finished.sessionID| != 16 || (finished.proof.Arbitrary? && |finished.proof.raw| != 32))
            && (r.Err? ==> after == c && (r.error == Length || r.error == Authentication))
            && (r.Ok? ==>
                  r.value == ClientSession(finished.sessionID, reply.value.key) && after.state == ClientComplete)
  {
    if |finished.sessionID| == 16 {
      ProofBuilds(c.hello, c.challenge.value);
      ReplyNeverFails(c.token, c.hello, c.challenge.value, finished.sessionID);
    }
  }

  // ----- Any number of handshakes over one token -----

  /** What a server concluded, and the exchange it concluded it from. */
  datatype Concluded = Concluded(server: ServerView, proof: Mac, session: Session)

  /** What a client answered to a challenge, and what it accepted in the end. */
  datatype Answered = Answered(client: ClientView, proof: Mac)
  datatype Accepted = Accepted(client: ClientView, finished: Finished, session: ClientSession)

  datatype World = World(
    token: TokenView,
    servers: map<nat, ServerView>,
    clients: map<nat, ClientView>,
    concluded: seq<Concluded>,
    answered: seq<Answered>,
    accepted: seq<Accepted>)

  /** One call on one handshake object. Messages and clock readings are arbitrary:
      whoever delivers them may replay, mix up and invent. */
  datatype Event =
    | NewServer(id: nat, serverID: Bytes, now: nat)
    | HelloTo(id: nat, hello: Hello, now: nat, nonce: Bytes, challengeID: Bytes)
    | ProofTo(id: nat, proof: Mac, now: nat, sessionID: Bytes)
    | NewClient(id: nat, secret: Bytes, clientNonce: Bytes)
    | ChallengeTo(id: nat, challenge: Challenge)
    | FinishedTo(id: nat, finished: Finished)

  function Start(token: TokenView): World {
    World(token.(consumed := false), map[], map[], [], [], [])
  }

  function Step(w: World, e: Event): World {
    match e
    case NewServer(id, serverID, now) =>
      if id in w.servers || |serverID| != IDENTIFIER_LENGTH then w
      else w.(servers := w.servers[id := ServerView(serverID, now, AwaitingHello, None, None)])
    case HelloTo(id, hello, now, nonce, challengeID) =>
      if id !in w.servers then w
      else w.(servers := w.servers[id := TakeHello(w.servers[id], hello, now, nonce, challengeID).0])
    case ProofTo(id, proof, now, sessionID) =>
      if id !in w.servers || |sessionID| != IDENTIFIER_LENGTH then w
      else
        var (server, token, r) := TakeProof(w.servers[id], w.token, proof, now, sessionID);
        w.(servers := w.servers[id := server], token := token,
           concluded := w.concluded + if r.Ok? then [Concluded(server, proof, r.value)] else [])
    case NewClient(id, secret, clientNonce) =>
      if id in w.clients || |secret| != TOKEN_LENGTH || |clientNonce| != NONCE_LENGTH then w
      else w.(clients := w.clients[id := ClientView(secret, Hello(clientNonce), AwaitingChallenge, None)])
    case ChallengeTo(id, challenge) =>
      if id !in w.clients then w
      else
        var (client, r) := TakeChallenge(w.clients[id], challenge);
        w.(clients := w.clients[id := client],
           answered := w.answered + if r.Ok? then [Answered(client, r.value)] else [])
    case FinishedTo(id, finished) =>
      if id !in w.clients then w
      else
        var (client, r) := TakeFinished(w.clients[id], finished);
        w.(clients := w.clients[id := client],
           accepted := w.accepted + if r.Ok? then [Accepted(client, finished, r.value)] else [])
  }

  function Run(w: World, events: seq<Event>): World
    decreases |events|
  {
    if events == [] then w else Run(Step(w, events[0]), events[1..])
  }

  // What each logged conclusion says about the exchange behind it.

  ghost predicate SoundConclusion(token: Bytes, c: Concluded) {
    && c.server.hello.Some? && c.server.challenge.Some?
    && var content := ClientProof(c.server.hello.value, c.server.challenge.value);
    && Build(content).Ok?
    && c.proof == Hmac(TokenKey(token), Build(content).value)
    && Reply(token, c.server.hello.value, c.server.challenge.value, c.session.finished.sessionID) == Ok(c.session)
  }

  ghost predicate SoundAnswer(a: Answered) {
    && a.client.challenge.Some?
    && var content := ClientProof(a.client.hello, a.client.challenge.value);
    && Build(content).Ok?
    && a.proof == Hmac(TokenKey(a.client.token), Build(content).value)
  }

  ghost predicate SoundAcceptance(a: Accepted) {
    && a.client.challenge.Some?
    && a.session.sessionID == a.finished.sessionID
    && DeriveKey(a.client.token, a.client.hello, a.client.challenge.value) == Ok(a.session.key)
    && var content := ServerFinished(a.client.hello, a.client.challenge.value, a.finished.sessionID);
    && Build(content).Ok?
    && a.finished.proof == Hmac(a.session.key, Build(content).value)
  }

  /** Conclusions spend the token: there is none before, and only one after. */
  ghost predicate Inv(w: World) {
    && |w.token.value| == TOKEN_LENGTH
    && |w.concluded| == (if w.token.consumed then 1 else 0)
    && (forall i :: 0 <= i < |w.concluded| ==> SoundConclusion(w.token.value, w.concluded[i]))
    && (forall i :: 0 <= i < |w.answered| ==> SoundAnswer(w.answered[i]))
    && (forall i :: 0 <= i < |w.accepted| ==> SoundAcceptance(w.accepted[i]))
  }

  /** A valid proof is always answered: spending the token is never in vain. */
  lemma ReplyNeverFails(token: Bytes, hello: Hello, challenge: Challenge, sessionID: Bytes)
    requires |token| == TOKEN_LENGTH && |sessionID| == IDENTIFIER_LENGTH
    requires Build(ClientProof(hello, challenge)).Ok?
    ensures Reply(token, hello, challenge, sessionID).Ok?
    ensures Reply(token, hello, challenge, sessionID).value.finished.sessionID == sessionID
  {
  }

  lemma ProofStep(w: World, id: nat, proof: Mac, now: nat, sessionID: Bytes)
    requires Inv(w)
    ensures Inv(Step(w, ProofTo(id, proof, now, sessionID)))
    ensures Step(w, ProofTo(id, proof, now, sessionID)).token.value == w.token.value
  {
    hide Build, DeriveKey, Reply, SoundAnswer, SoundAcceptance;
    if id in w.servers && |sessionID| == IDENTIFIER_LENGTH {
      var (server, token, r) := TakeProof(w.servers[id], w.token, proof, now, sessionID);
      if server.state == Complete && server != w.servers[id] {
        ReplyNeverFails(w.token.value, server.hello.value, server.challenge.value, sessionID);
        assert SoundConclusion(w.token.value, Concluded(server, proof, r.value));
      }
    }
  }

  lemma ChallengeStep(w: World, id: nat, challenge: Challenge)
    requires Inv(w)
    ensures Inv(Step(w, ChallengeTo(id, challenge)))
    ensures Step(w, ChallengeTo(id, challenge)).token == w.token
  {
    hide Build, SoundConclusion, SoundAcceptance;
  }

  lemma FinishedStep(w: World, id: nat, finished: Finished)
    requires Inv(w)
    ensures Inv(Step(w, FinishedTo(id, finished)))
    ensures Step(w, FinishedTo(id, finished)).token == w.token
  {
    hide Build, DeriveKey, SoundConclusion, SoundAnswer;
  }

  lemma StepKeepsInv(w: World, e: Event)
    requires Inv(w)
    ensures Inv(Step(w, e)) && Step(w, e).token.value == w.token.value
  {
    match e
    case ProofTo(id, proof, now, sessionID) => ProofStep(w, id, proof, now, sessionID);
    case ChallengeTo(id, challenge) => ChallengeStep(w, id, challenge);
    case FinishedTo(id, finished) => FinishedStep(w, id, finished);
    case _ =>
  }

  lemma {:induction false} RunKeepsInv(w: World, events: seq<Event>)
    requires Inv(w)
    ensures Inv(Run(w, events)) && Run(w, events).token.value == w.token.value
    decreases |events|
  {
    hide Inv, Step;
    if events != [] {
      StepKeepsInv(w, events[0]);
      RunKeepsInv(Step(w, events[0]), events[1..]);
    }
  }

  /** However many handshakes share a token, and whatever is delivered to them, at
      most one of them ever succeeds; the token is spent exactly when one has. */
  lemma OneProofPerToken(token: TokenView, events: seq<Event>)
    requires |token.value| == TOKEN_LENGTH
    ensures
      var w := Run(Start(token), events);
      |w.concluded| == if w.token.consumed then 1 else 0
  {
    RunKeepsInv(Start(token), events);
  }

  ghost predicate Agree(server: ServerView, client: ClientView) {
    && server.hello == Some(client.hello)
    && server.challenge.Some? && server.challenge == client.challenge
  }

  /** When a client accepts a message whose proof a server produced, both sides saw
      the same hello and challenge, hold the same token, session id and key. */
  lemma AcceptanceAgrees(token: TokenView, events: seq<Event>, i: nat, j: nat)
    requires |token.value| == TOKEN_LENGTH
    requires
      var w := Run(Start(token), events);
      i < |w.accepted| && j < |w.concluded|
      && w.accepted[i].finished.proof == w.concluded[j].session.finished.proof
    ensures
      var w := Run(Start(token), events);
      var a, c := w.accepted[i], w.concluded[j];
      && Agree(c.server, a.client)
      && a.client.token == token.value
      && a.session == ClientSession(c.session.finished.sessionID, c.session.key)
      && a.finished == c.session.finished
  {
    hide Step;
    var w := Run(Start(token), events);
    RunKeepsInv(Start(token), events);
    FinishedAgrees(token.value, w.concluded[j], w.accepted[i]);
  }

  lemma FinishedAgrees(token: Bytes, c: Concluded, a: Accepted)
    requires SoundConclusion(token, c) && SoundAcceptance(a)
    requires a.finished.proof == c.session.finished.proof
    ensures
      && Agree(c.server, a.client)
      && a.client.token == token
      && a.session == ClientSession(c.session.finished.sessionID, c.session.key)
      && a.finished == c.session.finished
  {
    hide Build;
    var mine := ServerFinished(a.client.hello, a.client.challenge.value, a.finished.sessionID);
    var theirs := ServerFinished(c.server.hello.value, c.server.challenge.value, c.session.finished.sessionID);
    TranscriptDeterminesMessage(mine, theirs);
  }

  /** When a server accepts a proof that a client produced, both saw the same hello
      and challenge, and the client holds the server's token. */
  lemma ProofAgrees(token: TokenView, events: seq<Event>, i: nat, j: nat)
    requires |token.value| == TOKEN_LENGTH
    requires
      var w := Run(Start(token), events);
      i < |w.answered| && j < |w.concluded| && w.answered[i].proof == w.concluded[j].proof
    ensures
      var w := Run(Start(token), events);
      && Agree(w.concluded[j].server, w.answered[i].client)
      && w.answered[i].client.token == token.value
  {
    hide Step, Build;
    var w := Run(Start(token), events);
    RunKeepsInv(Start(token), events);
    var a, c := w.answered[i], w.concluded[j];
    assert SoundAnswer(a) && SoundConclusion(token.value, c);
    TranscriptDeterminesMessage(ClientProof(a.client.hello, a.client.challenge.value),
                                ClientProof(c.server.hello.value, c.server.challenge.value));
  }

  // ----- Where accepted codes come from -----

  ghost predicate IsFinished(transcript: Bytes) {
    exists hello, challenge, sessionID :: Build(ServerFinished(hello, challenge, sessionID)) == Ok(transcript)
  }

  ghost predicate WasAnswered(w: World, proof: Mac) {
    exists i :: 0 <= i < |w.answered| && w.answered[i].proof == proof
  }

  ghost predicate WasFinished(w: World, proof: Mac) {
    exists j :: 0 <= j < |w.concluded| && w.concluded[j].session.finished.proof == proof
  }

  /** Whoever delivers messages makes up anything but codes that need the token: of those under
      its key they have only what clients answered, and of the server's last messages under
      keys derived from it only what servers sent. */
  ghost predicate Deliverable(w: World, e: Event) {
    match e
    case ProofTo(_, proof, _, _) => proof.Hmac? && proof.key == TokenKey(w.token.value) ==> WasAnswered(w, proof)
    case FinishedTo(_, finished) =>
      var proof := finished.proof;
      proof.Hmac? && proof.key.SessionKey? && proof.key.secret == w.token.value && IsFinished(proof.transcript) ==>
        WasFinished(w, proof)
    case _ => true
  }

  ghost predicate Delivered(w: World, events: seq<Event>)
    decreases |events|
  {
    events != [] ==> Deliverable(w, events[0]) && Delivered(Step(w, events[0]), events[1..])
  }

  /** Every proof a server took was answered, and every acceptance under the server's token
      answers to a conclusion. */
  ghost predicate Grounded(w: World) {
    && (forall j :: 0 <= j < |w.concluded| ==> WasAnswered(w, w.concluded[j].proof))
    && (forall i :: 0 <= i < |w.accepted| && w.accepted[i].client.token == w.token.value ==>
          WasFinished(w, w.accepted[i].finished.proof))
  }

  /** The record only grows. */
  ghost predicate Longer(w: World, after: World) {
    && w.answered <= after.answered && w.concluded <= after.concluded && after.token.value == w.token.value
  }

  lemma LongerHas(w: World, after: World, proof: Mac)
    requires Longer(w, after)
    ensures WasAnswered(w, proof) ==> WasAnswered(after, proof)
    ensures WasFinished(w, proof) ==> WasFinished(after, proof)
  {
    if WasAnswered(w, proof) {
      var i :| 0 <= i < |w.answered| && w.answered[i].proof == proof;
      assert after.answered[i].proof == proof;
    }
    if WasFinished(w, proof) {
      var j :| 0 <= j < |w.concluded| && w.concluded[j].session.finished.proof == proof;
      assert after.concluded[j].session.finished.proof == proof;
    }
  }

  lemma StepLengthens(w: World, e: Event)
    ensures Longer(w, Step(w, e))
  {
    hide Build, DeriveKey, Reply;
  }

  lemma ProofIsGrounded(w: World, id: nat, proof: Mac, now: nat, sessionID: Bytes)
    requires Inv(w) && Deliverable(w, ProofTo(id, proof, now, sessionID))
    ensures var after := Step(w, ProofTo(id, proof, now, sessionID));
            && after.accepted == w.accepted
            && forall j :: |w.concluded| <= j < |after.concluded| ==> WasAnswered(w, after.concluded[j].proof)
  {
    hide Build, DeriveKey, Reply, WasAnswered;
  }

  lemma FinishedIsGrounded(w: World, id: nat, finished: Finished)
    requires Deliverable(w, FinishedTo(id, finished))
    ensures var after := Step(w, FinishedTo(id, finished));
            && after.concluded == w.concluded
            && forall i :: |w.accepted| <= i < |after.accepted| && after.accepted[i].client.token == w.token.value ==>
                 WasFinished(w, after.accepted[i].finished.proof)
  {
    hide Build, WasFinished;
  }

  lemma OtherRecordsNothing(w: World, e: Event)
    requires !e.ProofTo? && !e.FinishedTo?
    ensures Step(w, e).concluded == w.concluded && Step(w, e).accepted == w.accepted
  {
    hide Build;
  }

  lemma StepKeepsGrounded(w: World, e: Event)
    requires Inv(w) && Grounded(w) && Deliverable(w, e)
    ensures Grounded(Step(w, e))
  {
    var after := Step(w, e);
    StepLengthens(w, e);
    match e {
      case ProofTo(id, proof, now, sessionID) => ProofIsGrounded(w, id, proof, now, sessionID);
      case FinishedTo(id, finished) => FinishedIsGrounded(w, id, finished);
      case _ => OtherRecordsNothing(w, e);
    }
    StepKeepsLogs(w, e);
    hide Step, WasAnswered, WasFinished, Inv, Deliverable;
    forall j | 0 <= j < |after.concluded|
      ensures WasAnswered(after, after.concluded[j].proof)
    {
      LongerHas(w, after, after.concluded[j].proof);
    }
    forall i | 0 <= i < |after.accepted| && after.accepted[i].client.token == after.token.value
      ensures WasFinished(after, after.accepted[i].finished.proof)
    {
      LongerHas(w, after, after.accepted[i].finished.proof);
    }
  }

  lemma StepKeepsLogs(w: World, e: Event)
    ensures w.accepted <= Step(w, e).accepted
  {
    hide Build, DeriveKey, Reply;
  }

  lemma {:induction false} RunKeepsGrounded(w: World, events: seq<Event>)
    requires Inv(w) && Grounded(w) && Delivered(w, events)
    ensures Grounded(Run(w, events))
    decreases |events|
  {
    hide Inv, Step, Grounded, Deliverable;
    if events != [] {
      StepKeepsGrounded(w, events[0]);
      StepKeepsInv(w, events[0]);
      RunKeepsGrounded(Step(w, events[0]), events[1..]);
    }
  }

  lemma StartIsSound(token: TokenView)
    requires |token.value| == TOKEN_LENGTH
    ensures Inv(Start(token)) && Grounded(Start(token)) && Start(token).token.value == token.value
  {
  }

  /** A proof that a server accepts was answered by a client that holds the token and saw the
      same hello and challenge. */
  lemma AcceptedProofsAreAnswers(token: TokenView, events: seq<Event>, j: nat)
    requires |token.value| == TOKEN_LENGTH && Delivered(Start(token), events)
    requires j < |Run(Start(token), events).concluded|
    ensures var w := Run(Start(token), events);
            exists i :: 0 <= i < |w.answered| && w.answered[i].proof == w.concluded[j].proof
                        && Agree(w.concluded[j].server, w.answered[i].client)
                        && w.answered[i].client.token == token.value
  {
    hide Run, Step, Delivered, Agree, Inv;
    var w := Run(Start(token), events);
    StartIsSound(token);
    RunKeepsGrounded(Start(token), events);
    assert WasAnswered(w, w.concluded[j].proof);
    var i :| 0 <= i < |w.answered| && w.answered[i].proof == w.concluded[j].proof;
    ProofAgrees(token, events, i, j);
  }

  /** What a client that holds the token accepts was sent by the server, which saw the same hello
      and challenge and has the same session; and the server had it from such a client. */
  lemma AuthenticationIsMutual(token: TokenView, events: seq<Event>, i: nat)
    requires |token.value| == TOKEN_LENGTH && Delivered(Start(token), events)
    requires i < |Run(Start(token), events).accepted|
    requires Run(Start(token), events).accepted[i].client.token == token.value
    ensures var w := Run(Start(token), events);
            var a := w.accepted[i];
            |w.concluded| == 1
            && (var c := w.concluded[0];
                && Agree(c.server, a.client) && a.finished == c.session.finished
                && a.session == ClientSession(c.session.finished.sessionID, c.session.key)
                && exists k :: 0 <= k < |w.answered| && w.answered[k].proof == c.proof
                               && Agree(c.server, w.answered[k].client) && w.answered[k].client.token == token.value)
  {
    hide Run, Step, Delivered, Agree, Inv;
    var w := Run(Start(token), events);
    StartIsSound(token);
    RunKeepsGrounded(Start(token), events);
    RunKeepsInv(Start(token), events);
    OneProofPerToken(token, events);
    assert WasFinished(w, w.accepted[i].finished.proof);
    AcceptanceAgrees(token, events, i, 0);
    AcceptedProofsAreAnswers(token, events, 0);
  }

  /** One server and one client that holds the token, everything passed on as it was sent. */
  function HonestRun(token: TokenView, challenge: Challenge, hello: Hello, session: Session, proof: Mac, now: nat)
    : seq<Event>
  {
    [NewServer(0, challenge.serverID, now), NewClient(1, token.value, hello.clientNonce),
     HelloTo(0, hello, now, challenge.serverNonce, challenge.challengeID), ChallengeTo(1, challenge),
     ProofTo(0, proof, now, session.finished.sessionID), FinishedTo(1, session.finished)]
  }

  /** After the client answered. */
  function Asked(token: TokenView, challenge: Challenge, hello: Hello, proof: Mac, now: nat): World {
    var client := ClientView(token.value, hello, AwaitingFinished, Some(challenge));
    World(token.(consumed := false),
          map[0 := ServerView(challenge.serverID, now, AwaitingProof, Some(hello), Some(challenge))],
          map[1 := client], [], [Answered(client, proof)], [])
  }

  lemma HonestMiddle(token: TokenView, challenge: Challenge, hello: Hello, session: Session, proof: Mac, now: nat)
    requires |token.value| == TOKEN_LENGTH && ValidHello(hello) && ValidChallenge(challenge)
    requires Build(ClientProof(hello, challenge)).Ok?
    requires proof == Hmac(TokenKey(token.value), Build(ClientProof(hello, challenge)).value)
    ensures var e := HonestRun(token, challenge, hello, session, proof, now);
            Step(Step(Step(Step(Start(token), e[0]), e[1]), e[2]), e[3]) == Asked(token, challenge, hello, proof, now)
  {
    hide Build;
    var e := HonestRun(token, challenge, hello, session, proof, now);
    var w2 := Step(Step(Start(token), e[0]), e[1]);
    assert w2.servers[0] == ServerView(challenge.serverID, now, AwaitingHello, None, None);
    assert w2.clients[1] == ClientView(token.value, hello, AwaitingChallenge, None);
    var w4 := Step(Step(w2, e[2]), e[3]);
    assert w4.servers == Asked(token, challenge, hello, proof, now).servers;
    assert w4.clients == Asked(token, challenge, hello, proof, now).clients;
  }

  lemma HonestEnd(token: TokenView, challenge: Challenge, hello: Hello, sessionID: Bytes, now: nat)
    requires |token.value| == TOKEN_LENGTH && |sessionID| == IDENTIFIER_LENGTH
    requires token.createdAt <= now <= token.createdAt + TOKEN_TTL_NANOS
    requires Build(ClientProof(hello, challenge)).Ok? && Reply(token.value, hello, challenge, sessionID).Ok?
    ensures var session := Reply(token.value, hello, challenge, sessionID).value;
            var proof := Hmac(TokenKey(token.value), Build(ClientProof(hello, challenge)).value);
            var w4 := Asked(token, challenge, hello, proof, now);
            var last := ProofTo(0, proof, now, session.finished.sessionID);
            var w5 := Step(w4, last);
            var w6 := Step(w5, FinishedTo(1, session.finished));
            && Deliverable(w4, last) && Deliverable(w5, FinishedTo(1, session.finished))
            && |w6.concluded| == 1 && |w6.accepted| == 1
  {
    hide Build;
    var session := Reply(token.value, hello, challenge, sessionID).value;
    var proof := Hmac(TokenKey(token.value), Build(ClientProof(hello, challenge)).value);
    var w4 := Asked(token, challenge, hello, proof, now);
    assert w4.answered[0].proof == proof;
    var w5 := Step(w4, ProofTo(0, proof, now, session.finished.sessionID));
    assert w5.concluded[0].session == session;
  }

  lemma ProofBuilds(hello: Hello, challenge: Challenge)
    requires ValidHello(hello) && ValidChallenge(challenge)
    ensures Build(ClientProof(hello, challenge)).Ok?
  {
  }

  lemma NothingForged(events: seq<Event>)
    ensures forall i :: 0 <= i < |events| && !events[i].ProofTo? && !events[i].FinishedTo? ==>
              forall v :: Deliverable(v, events[i])
  {
  }

  lemma OneDelivered(w: World, e: Event, rest: seq<Event>)
    requires Deliverable(w, e)
    ensures Run(w, [e] + rest) == Run(Step(w, e), rest)
    ensures Delivered(w, [e] + rest) <==> Delivered(Step(w, e), rest)
  {
    hide Step, Deliverable;
    assert ([e] + rest)[1..] == rest;
  }

  lemma NothingDelivered(w: World)
    ensures Run(w, []) == w && Delivered(w, [])
  {
  }

  lemma RunSix(w0: World, e: seq<Event>)
    requires |e| == 6 && forall i :: 0 <= i < 4 ==> forall v :: Deliverable(v, e[i])
    requires var w4 := Step(Step(Step(Step(w0, e[0]), e[1]), e[2]), e[3]);
             Deliverable(w4, e[4]) && Deliverable(Step(w4, e[4]), e[5])
    ensures var w4 := Step(Step(Step(Step(w0, e[0]), e[1]), e[2]), e[3]);
            Delivered(w0, e) && Run(w0, e) == Step(Step(w4, e[4]), e[5])
  {
    hide Step, Deliverable, Run, Delivered;
    var w2 := Step(Step(w0, e[0]), e[1]);
    var w4 := Step(Step(w2, e[2]), e[3]);
    assert e == [e[0]] + ([e[1]] + ([e[2]] + ([e[3]] + ([e[4]] + ([e[5]] + [])))));
    OneDelivered(w0, e[0], [e[1]] + ([e[2]] + ([e[3]] + ([e[4]] + ([e[5]] + [])))));
    OneDelivered(Step(w0, e[0]), e[1], [e[2]] + ([e[3]] + ([e[4]] + ([e[5]] + []))));
    OneDelivered(w2, e[2], [e[3]] + ([e[4]] + ([e[5]] + [])));
    OneDelivered(Step(w2, e[2]), e[3], [e[4]] + ([e[5]] + []));
    OneDelivered(w4, e[4], [e[5]] + []);
    OneDelivered(Step(w4, e[4]), e[5], []);
    NothingDelivered(Step(Step(w4, e[4]), e[5]));
  }

  /** An exchange that nobody disturbs ends with both sides in agreement. */
  lemma HonestRunSucceeds(token: TokenView, challenge: Challenge, hello: Hello, sessionID: Bytes, now: nat)
    requires |token.value| == TOKEN_LENGTH && |sessionID| == IDENTIFIER_LENGTH
    requires ValidHello(hello) && ValidChallenge(challenge)
    requires token.createdAt <= now <= token.createdAt + TOKEN_TTL_NANOS
    ensures Build(ClientProof(hello, challenge)).Ok?
    ensures Reply(token.value, hello, challenge, sessionID).Ok?
    ensures var session := Reply(token.value, hello, challenge, sessionID).value;
            var proof := Hmac(TokenKey(token.value), Build(ClientProof(hello, challenge)).value);
            var events := HonestRun(token, challenge, hello, session, proof, now);
            var w := Run(Start(token), events);
            Delivered(Start(token), events) && |w.concluded| == 1 && |w.accepted| == 1
  {
    hide Build, Reply, DeriveKey, Deliverable, Run, Delivered, Step, Asked, Start;
    ProofBuilds(hello, challenge);
    ReplyNeverFails(token.value, hello, challenge, sessionID);
    var session := Reply(token.value, hello, challenge, sessionID).value;
    var proof := Hmac(TokenKey(token.value), Build(ClientProof(hello, challenge)).value);
    var e := HonestRun(token, challenge, hello, session, proof, now);
    var w0 := Start(token);
    var w2 := Step(Step(w0, e[0]), e[1]);
    var w4 := Step(Step(w2, e[2]), e[3]);
    assert w4 == Asked(token, challenge, hello, proof, now) by {
      HonestMiddle(token, challenge, hello, session, proof, now);
    }
    NothingForged(e);
    HonestEnd(token, challenge, hello, sessionID, now);
    RunSix(w0, e);
  }
}
