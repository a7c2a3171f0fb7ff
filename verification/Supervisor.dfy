/** The supervised iOS session (session.rs): its child processes are started in order, watched,
    and on every way out stopped, killed and reaped before the final status appears. Processes,
    the network and the stop channel are oracles. */
module Supervisor {
  import opened Basics
  import Ladder

  datatype ChildKind = Tunnel | RunWda | ForwardHttp | ForwardMjpeg

  datatype Error =
    | TunnelFailed
    | WdaUnreachable
    | WdaSignatureExpired
    | WdaNotInstalled
    | ForwardFailed
    | ProxyFailed
    | IosNotFound
    | OtherError(what: string)

  datatype ExitReason = Requested | ChildExited(which: ChildKind) | UpstreamClosed

  datatype Status = Starting | Running | Stopping | Exited(reason: ExitReason) | Failed(code: Error)

  /** What the error output of a child that exited contains. */
  datatype Tail = Tail(signature: bool, notInstalled: bool, inUse: bool)

  function ClassifyChildFailure(kind: ChildKind, tail: Tail): Error {
    match kind
    case RunWda =>
      if tail.signature then WdaSignatureExpired
      else if tail.notInstalled then WdaNotInstalled
      else WdaUnreachable
    case Tunnel => TunnelFailed
    case _ => ForwardFailed
  }

  /** Why a process is not there after a spawn: it could not be configured, the tool is
      missing, or anything else, which is reported as a failure of that kind of child. */
  datatype Trouble = Unconfigured(what: string) | ToolMissing | OtherTrouble

  function SpawnError(kind: ChildKind, trouble: Trouble): Error {
    match trouble
    case Unconfigured(what) => OtherError(what)
    case ToolMissing => IosNotFound
    case OtherTrouble =>
      match kind
      case Tunnel => TunnelFailed
      case RunWda => WdaUnreachable
      case _ => ForwardFailed
  }

  /** The `k`th spawn, port reservation, poll of a child, look at the stop channel, probe of
      the tunnel or of WDA, and look at the proxy; and how long each wait may go on. `ladder`
      is what the termination ladder meets, `unwaitable(i)` whether the last wait for child
      `i` fails. */
  datatype Oracle = Oracle(
    attach: bool,
    spawn: nat -> Option<Trouble>,
    port: nat -> Option<Error>,
    exited: (nat, nat) -> bool,
    stop: nat -> bool,
    ready: nat -> bool,
    tail: nat -> Tail,
    session: Option<Error>,
    proxyStart: Option<Error>,
    proxyFailure: nat -> Option<Error>,
    proxyAlive: nat -> bool,
    settleTurns: nat,
    tunnelTurns: nat,
    statusTurns: nat,
    runTurns: nat,
    ladder: Ladder.Oracle,
    unwaitable: nat -> bool)

  datatype Child = Child(id: nat, kind: ChildKind)

  /** What the start waits for: the device tunnel, then WDA. */
  datatype Waited = DeviceTunnel | Wda

  datatype Readiness = Ready | StopRequested

  /** Everything another process or thread could notice, in order. `Laddered` is one run of the
      termination ladder: the signals that every child's group got, and for how long it waited. */
  datatype Happening =
    | Now(status: Status)
    | SeenUp(what: Waited)
    | Spawned(child: Child)
    | Reaped(id: nat)
    | ProxyStarted
    | ProxyStopped
    | ClientShared
    | ClientDropped
    | StopSeen
    | Laddered(signals: seq<Ladder.Signal>, waited: nat)
    | DoneSent

  /** The statuses shown over time. */
  function Statuses(log: seq<Happening>): seq<Status> {
    if log == [] then []
    else Statuses(log[..|log| - 1]) + if log[|log| - 1].Now? then [log[|log| - 1].status] else []
  }

  const ORDER := [Tunnel, RunWda, ForwardHttp, ForwardMjpeg]

  function Rank(kind: ChildKind): nat {
    match kind
    case Tunnel => 0
    case RunWda => 1
    case ForwardHttp => 2
    case ForwardMjpeg => 3
  }

  /** What has to have happened before: children are started in the order of their kinds, all but
      the tunnel after the tunnel is seen; the proxy after WDA is seen, then the client, and
      only then the session is running; on the way out proxy, client and ladder, in this order. */
  ghost predicate MayFollow(past: seq<Happening>, h: Happening) {
    match h
    case Spawned(child) =>
      && (child.kind != Tunnel ==> SeenUp(DeviceTunnel) in past)
      && forall c :: Spawned(c) in past ==> Rank(c.kind) <= Rank(child.kind)
    case ProxyStarted => SeenUp(Wda) in past
    case ClientShared => ProxyStarted in past
    case Now(status) =>
      && (status == Running ==> ClientShared in past)
      && (status.Exited? || status.Failed? ==> Now(Stopping) in past)
    case ProxyStopped => Now(Stopping) in past
    case ClientDropped => ProxyStopped in past
    case Laddered(signals, waited) => Now(Stopping) in past && (ClientShared in past ==> ClientDropped in past)
    case DoneSent => Now(Stopping) in past
    case _ => true
  }

  ghost predicate Sequenced(log: seq<Happening>) {
    forall i :: 0 <= i < |log| ==> MayFollow(log[..i], log[i])
  }

  /** No ladder yet, and no child of a kind that comes later. */
  ghost predicate Early(log: seq<Happening>, kinds: nat) {
    (forall h :: h in log ==> !h.Laddered?) && forall c :: Spawned(c) in log ==> Rank(c.kind) <= kinds
  }

  lemma EarlyMore(log: seq<Happening>, h: Happening, kinds: nat)
    requires Early(log, kinds) && !h.Laddered? && (h.Spawned? ==> Rank(h.child.kind) <= kinds)
    ensures Early(log + [h], kinds) && Early(log, kinds + 1)
  {
  }

  lemma RanksGrow(log: seq<Happening>, child: Child)
    requires Early(log, Rank(child.kind)) && (child.kind != Tunnel ==> SeenUp(DeviceTunnel) in log)
    ensures MayFollow(log, Spawned(child)) && Early(log + [Spawned(child)], Rank(child.kind))
  {
  }

  lemma SequencedMore(log: seq<Happening>, h: Happening)
    requires Sequenced(log) && MayFollow(log, h)
    ensures Sequenced(log + [h])
  {
    var more := log + [h];
    forall i | 0 <= i < |more|
      ensures MayFollow(more[..i], more[i])
    {
      assert more[..i] == log[..i];
    }
  }

  const FORWARD_ATTEMPTS := 5

  // ----- Why a session ends -----

  /** What a session has done so far: the log, the processes started, and how often it has
      tried to start one, reserved a port, probed, looked at the proxy, polled a child, and looked
      for a stop. */
  datatype Books = Books(log: seq<Happening>, spawned: nat, spawns: nat, ports: nat, probes: nat, watches: nat,
                         polls: nat, looks: nat)

  ghost predicate Gone(b: Books, child: Child) {
    Spawned(child) in b.log && Reaped(child.id) in b.log
  }

  /** A child is gone, and this is how its end is reported. */
  ghost predicate FailedWith(o: Oracle, b: Books, child: Child, error: Error) {
    Gone(b, child) && error == ClassifyChildFailure(child.kind, o.tail(child.id))
  }

  /** The last spawn was this one, and failed. */
  ghost predicate NotStarted(o: Oracle, b: Books, kind: ChildKind, error: Error) {
    b.spawns > 0 && o.spawn(b.spawns - 1).Some? && error == SpawnError(kind, o.spawn(b.spawns - 1).value)
  }

  /** A forward that lost the race for its port. */
  ghost predicate Lost(o: Oracle, b: Books, child: Child) {
    Gone(b, child) && o.tail(child.id).inUse
  }

  ghost predicate LostAll(o: Oracle, b: Books, kind: ChildKind, first: nat, next: int) {
    forall id: nat :: first <= id < next ==> Lost(o, b, Child(id, kind))
  }

  /** No port to be had; or the forward did not start; or it ended for another reason than its
      port; or all five attempts lost theirs. */
  ghost predicate NoForward(o: Oracle, b: Books, kind: ChildKind, error: Error) {
    || (b.ports > 0 && o.port(b.ports - 1) == Some(error))
    || NotStarted(o, b, kind, error)
    || (exists child: Child :: child.kind == kind && FailedWith(o, b, child, error) && !o.tail(child.id).inUse)
    || (error == ForwardFailed && b.spawned >= FORWARD_ATTEMPTS
        && LostAll(o, b, kind, b.spawned - FORWARD_ATTEMPTS, b.spawned))
  }

  /** The last `turns + 1` probes all failed. */
  ghost predicate GaveUp(o: Oracle, b: Books, turns: nat) {
    b.probes > turns && forall k: nat :: b.probes - turns - 1 <= k < b.probes ==> !o.ready(k)
  }

  ghost predicate ChildFailed(o: Oracle, b: Books, error: Error) {
    exists child :: FailedWith(o, b, child, error)
  }

  /** A child is gone or could not be started, or the device tunnel did not come up. */
  ghost predicate NotLaunched(o: Oracle, b: Books, error: Error) {
    || ChildFailed(o, b, error)
    || NotStarted(o, b, Tunnel, error)
    || (error == TunnelFailed && GaveUp(o, b, o.tunnelTurns))
    || NotStarted(o, b, RunWda, error)
    || NoForward(o, b, ForwardHttp, error)
    || NoForward(o, b, ForwardMjpeg, error)
  }

  /** What a session may fail with, and why. */
  ghost predicate Caused(o: Oracle, b: Books, error: Error) {
    || NotLaunched(o, b, error)
    || (error == WdaUnreachable && GaveUp(o, b, o.statusTurns))
    || (SeenUp(Wda) in b.log && (o.session == Some(error) || o.proxyStart == Some(error)))
    || ProxyBroken(o, b, error)
  }

  ghost predicate ProxyBroken(o: Oracle, b: Books, error: Error) {
    ProxyStarted in b.log && b.watches > 0 && o.proxyFailure(b.watches - 1) == Some(error)
  }

  /** How a running session ends: the proxy has failed or is no longer alive, or a child is gone. */
  ghost predicate Ended(o: Oracle, b: Books, r: Result<ExitReason, Error>) {
    match r
    case Err(error) => ProxyBroken(o, b, error)
    case Ok(Requested) => true
    case Ok(UpstreamClosed) =>
      b.watches > 0 && o.proxyFailure(b.watches - 1) == None && !o.proxyAlive(b.watches - 1)
    case Ok(ChildExited(which)) => exists child: Child :: child.kind == which && Gone(b, child)
  }

  // ----- What every turn of a wait looks at -----

  /** From the `polls`th poll on, the first `n` children are still there. */
  ghost predicate NoneGone(o: Oracle, children: seq<Child>, polls: nat, n: nat)
    requires n <= |children|
  {
    forall i :: 0 <= i < n ==> !o.exited(polls + i, children[i].id)
  }

  /** In `n` polls from `polls` on the child is still there. */
  ghost predicate StaysUp(o: Oracle, id: nat, polls: nat, n: nat) {
    forall k: nat :: polls <= k < polls + n ==> !o.exited(k, id)
  }

  /** Child number `i` is the first found gone. */
  ghost predicate GoneFirst(o: Oracle, children: seq<Child>, polls: nat, i: nat) {
    i < |children| && NoneGone(o, children, polls, i) && o.exited(polls + i, children[i].id)
  }

  /** The number of polls in `n` full turns. */
  function Polls(children: seq<Child>, n: nat): nat {
    if n == 0 then 0 else Polls(children, n - 1) + |children|
  }

  /** Nothing wrong with the proxy at its `watches`th look. */
  ghost predicate ProxyFine(o: Oracle, watches: nat) {
    o.proxyFailure(watches) == None && o.proxyAlive(watches)
  }

  /** `n` full turns of the running session: no stop, a proxy in order, and every child there. */
  ghost predicate QuietTurns(o: Oracle, children: seq<Child>, b: Books, n: nat) {
    forall k: nat :: k < n ==> QuietTurn(o, children, b, k)
  }

  ghost predicate QuietTurn(o: Oracle, children: seq<Child>, b: Books, k: nat) {
    && !o.stop(b.looks + k) && ProxyFine(o, b.watches + k)
    && NoneGone(o, children, b.polls + Polls(children, k), |children|)
  }

  lemma NothingYet(o: Oracle, children: seq<Child>, b: Books)
    ensures VainTurns(o, children, b, 0) && QuietTurns(o, children, b, 0) && Polls(children, 0) == 0
  {
  }

  /** The polls of the first turn, if there was one. */
  lemma FirstTurn(o: Oracle, children: seq<Child>, b: Books, n: nat)
    requires n > 0 && (QuietTurns(o, children, b, n) || VainTurns(o, children, b, n))
    ensures NoneGone(o, children, b.polls, |children|)
  {
    hide NoneGone;
    assert Polls(children, 0) == 0;
    assert QuietTurn(o, children, b, 0) || VainTurn(o, children, b, 0);
  }

  lemma OneMoreQuiet(o: Oracle, children: seq<Child>, b: Books, n: nat)
    requires QuietTurns(o, children, b, n) && !o.stop(b.looks + n) && ProxyFine(o, b.watches + n)
    requires NoneGone(o, children, b.polls + Polls(children, n), |children|)
    ensures QuietTurns(o, children, b, n + 1) && Polls(children, n + 1) == Polls(children, n) + |children|
  {
    assert QuietTurn(o, children, b, n);
    hide QuietTurn;
  }

  /** What one turn of the running session ends it with: a stop, the proxy or a dead child, which
      it looks for in this order. */
  ghost predicate TurnEnds(o: Oracle, children: seq<Child>, looks: nat, watches: nat, polls: nat,
                           r: Result<ExitReason, Error>) {
    && (r == Ok(Requested) <==> o.stop(looks))
    && match r
       case Err(error) => o.proxyFailure(watches) == Some(error)
       case Ok(Requested) => true
       case Ok(UpstreamClosed) => o.proxyFailure(watches) == None && !o.proxyAlive(watches)
       case Ok(ChildExited(which)) =>
         && ProxyFine(o, watches)
         && exists i: nat :: GoneFirst(o, children, polls, i) && children[i].kind == which
  }

  /** How a running session ends: after some quiet turns with whatever the next turn comes to; the
      runs considered end with a stop if with nothing else. */
  ghost predicate RunEnds(o: Oracle, children: seq<Child>, b: Books, n: nat, r: Result<ExitReason, Error>) {
    && n <= o.runTurns && QuietTurns(o, children, b, n)
    && if n == o.runTurns then r == Ok(Requested)
       else TurnEnds(o, children, b.looks + n, b.watches + n, b.polls + Polls(children, n), r)
  }

  lemma EndsAfter(o: Oracle, children: seq<Child>, b: Books, n: nat, r: Result<ExitReason, Error>)
    requires n < o.runTurns && QuietTurns(o, children, b, n)
    requires TurnEnds(o, children, b.looks + n, b.watches + n, b.polls + Polls(children, n), r)
    ensures RunEnds(o, children, b, n, r)
  {
    hide QuietTurns, TurnEnds;
  }

  lemma RequestedAfter(o: Oracle, children: seq<Child>, b: Books)
    requires QuietTurns(o, children, b, o.runTurns)
    ensures RunEnds(o, children, b, o.runTurns, Ok(Requested))
  {
    hide QuietTurns, TurnEnds;
  }

  /** A dead child does not go unnoticed: if nobody asks for a stop and the proxy is in order, and
      some child is found gone whenever it is looked at, the first turn ends the session. */
  lemma DeadChildIsNoticed(o: Oracle, children: seq<Child>, b: Books, n: nat, r: Result<ExitReason, Error>, dead: nat)
    requires RunEnds(o, children, b, n, r) && o.runTurns > 0 && dead < |children|
    requires forall k: nat :: !o.stop(k) && ProxyFine(o, k)
    requires forall k: nat :: o.exited(k, children[dead].id)
    ensures n == 0 && exists i: nat :: i <= dead && r == Ok(ChildExited(children[i].kind))
  {
    hide NoneGone, QuietTurns, VainTurns;
    QuietOf(o, children, b, n, r);
    NoTurnWithDead(o, children, b, n, dead);
    SeenGone(o, children, b.polls, dead);
    assert Polls(children, 0) == 0 && !o.stop(b.looks) && ProxyFine(o, b.watches);
    var i: nat :| GoneFirst(o, children, b.polls, i) && r == Ok(ChildExited(children[i].kind));
    assert i <= dead;
  }

  lemma QuietOf(o: Oracle, children: seq<Child>, b: Books, n: nat, r: Result<ExitReason, Error>)
    requires RunEnds(o, children, b, n, r)
    ensures QuietTurns(o, children, b, n)
  {
  }

  lemma NoTurnWithDead(o: Oracle, children: seq<Child>, b: Books, n: nat, dead: nat)
    requires QuietTurns(o, children, b, n) || VainTurns(o, children, b, n)
    requires dead < |children| && forall k: nat :: o.exited(k, children[dead].id)
    ensures n == 0
  {
    hide NoneGone, QuietTurns, VainTurns;
    if n > 0 {
      FirstTurn(o, children, b, n);
      SeenGone(o, children, b.polls, dead);
      assert false;
    }
  }

  lemma SeenGone(o: Oracle, children: seq<Child>, polls: nat, dead: nat)
    requires dead < |children| && forall k: nat :: o.exited(k, children[dead].id)
    ensures forall n :: dead < n <= |children| ==> !NoneGone(o, children, polls, n)
  {
    assert o.exited(polls + dead, children[dead].id);
  }

  /** `n` turns of waiting in vain: no stop, no child gone, not ready. */
  ghost predicate VainTurns(o: Oracle, children: seq<Child>, b: Books, n: nat) {
    forall k: nat :: k < n ==> VainTurn(o, children, b, k)
  }

  ghost predicate VainTurn(o: Oracle, children: seq<Child>, b: Books, k: nat) {
    && !o.stop(b.looks + k) && !o.ready(b.probes + k)
    && NoneGone(o, children, b.polls + Polls(children, k), |children|)
  }

  lemma OneMoreVain(o: Oracle, children: seq<Child>, b: Books, n: nat)
    requires VainTurns(o, children, b, n) && !o.stop(b.looks + n) && !o.ready(b.probes + n)
    requires NoneGone(o, children, b.polls + Polls(children, n), |children|)
    ensures VainTurns(o, children, b, n + 1) && Polls(children, n + 1) == Polls(children, n) + |children|
  {
    assert VainTurn(o, children, b, n);
    hide VainTurn;
  }

  /** How a wait of at most `turns + 1` turns ends: with what the next turn comes to, which looks
      for a stop, at the children and for readiness, in this order; or late, after the last. */
  ghost predicate WaitEnds(o: Oracle, children: seq<Child>, b: Books, turns: nat, late: Error, n: nat,
                           r: Result<Readiness, Error>) {
    && VainTurns(o, children, b, n)
    && (r == Ok(StopRequested) <==> n <= turns && o.stop(b.looks + n))
    && match r
       case Ok(StopRequested) => true
       case Ok(Ready) =>
         n <= turns && o.ready(b.probes + n) && NoneGone(o, children, b.polls + Polls(children, n), |children|)
       case Err(error) =>
         || (n == turns + 1 && error == late)
         || (n <= turns && exists i: nat :: GoneFirst(o, children, b.polls + Polls(children, n), i)
                                       && error == ClassifyChildFailure(children[i].kind, o.tail(children[i].id)))
  }

  lemma StoppedAfter(o: Oracle, children: seq<Child>, b: Books, turns: nat, late: Error, n: nat)
    requires VainTurns(o, children, b, n) && n <= turns && o.stop(b.looks + n)
    ensures WaitEnds(o, children, b, turns, late, n, Ok(StopRequested))
  {
    hide VainTurns;
  }

  lemma FailedAfter(o: Oracle, children: seq<Child>, b: Books, turns: nat, late: Error, n: nat, error: Error)
    requires VainTurns(o, children, b, n) && n <= turns && !o.stop(b.looks + n)
    requires exists i: nat :: GoneFirst(o, children, b.polls + Polls(children, n), i)
                              && error == ClassifyChildFailure(children[i].kind, o.tail(children[i].id))
    ensures WaitEnds(o, children, b, turns, late, n, Err(error))
  {
    hide VainTurns, GoneFirst, ClassifyChildFailure;
  }

  lemma ReadyAfter(o: Oracle, children: seq<Child>, b: Books, turns: nat, late: Error, n: nat)
    requires VainTurns(o, children, b, n) && n <= turns && !o.stop(b.looks + n) && o.ready(b.probes + n)
    requires NoneGone(o, children, b.polls + Polls(children, n), |children|)
    ensures WaitEnds(o, children, b, turns, late, n, Ok(Ready))
  {
    hide VainTurns;
  }

  lemma LateAfter(o: Oracle, children: seq<Child>, b: Books, turns: nat, late: Error)
    requires VainTurns(o, children, b, turns + 1)
    ensures WaitEnds(o, children, b, turns, late, turns + 1, Err(late))
  {
    hide VainTurns;
  }

  /** A child found gone while waiting ends the wait at once, with its failure or that of one
      before it in the list. */
  lemma DeadChildEndsTheWait(o: Oracle, children: seq<Child>, b: Books, turns: nat, late: Error, n: nat,
                             r: Result<Readiness, Error>, dead: nat)
    requires WaitEnds(o, children, b, turns, late, n, r) && dead < |children|
    requires (forall k: nat :: !o.stop(k)) && forall k: nat :: o.exited(k, children[dead].id)
    ensures n == 0 && r.Err?
    ensures exists i: nat :: i <= dead && r.error == ClassifyChildFailure(children[i].kind, o.tail(children[i].id))
  {
    hide NoneGone, ClassifyChildFailure, VainTurns, QuietTurns;
    VainOf(o, children, b, turns, late, n, r);
    NoTurnWithDead(o, children, b, n, dead);
    SeenGone(o, children, b.polls, dead);
    assert Polls(children, 0) == 0 && !o.stop(b.looks);
    var i: nat :| GoneFirst(o, children, b.polls, i)
                  && r == Err(ClassifyChildFailure(children[i].kind, o.tail(children[i].id)));
    assert i <= dead;
  }

  lemma VainOf(o: Oracle, children: seq<Child>, b: Books, turns: nat, late: Error, n: nat,
               r: Result<Readiness, Error>)
    requires WaitEnds(o, children, b, turns, late, n, r)
    ensures VainTurns(o, children, b, n)
  {
  }

  /** Which code tells of which failure. */
  lemma FailureCodes(kind: ChildKind, tail: Tail)
    ensures kind == Tunnel ==> ClassifyChildFailure(kind, tail) == TunnelFailed
    ensures kind == ForwardHttp || kind == ForwardMjpeg ==> ClassifyChildFailure(kind, tail) == ForwardFailed
    ensures kind == RunWda && tail.signature ==> ClassifyChildFailure(kind, tail) == WdaSignatureExpired
    ensures kind == RunWda && !tail.signature && tail.notInstalled ==>
              ClassifyChildFailure(kind, tail) == WdaNotInstalled
    ensures kind == RunWda && !tail.signature && !tail.notInstalled ==>
              ClassifyChildFailure(kind, tail) == WdaUnreachable
    ensures SpawnError(kind, ToolMissing) == IosNotFound
    ensures SpawnError(kind, OtherTrouble) == ClassifyChildFailure(kind, Tail(false, false, tail.inUse))
  {
  }

  /** Only the log has grown. */
  ghost predicate Later(b: Books, later: Books) {
    b.(log := later.log) == later && forall h :: h in b.log ==> h in later.log
  }

  lemma FailureStays(o: Oracle, b: Books, later: Books, child: Child, error: Error)
    requires Later(b, later) && FailedWith(o, b, child, error)
    ensures FailedWith(o, later, child, error)
  {
  }

  lemma ForwardCauseStays(o: Oracle, b: Books, later: Books, kind: ChildKind, error: Error)
    requires Later(b, later) && NoForward(o, b, kind, error)
    ensures NoForward(o, later, kind, error)
  {
    if child: Child :| child.kind == kind && FailedWith(o, b, child, error) && !o.tail(child.id).inUse {
      FailureStays(o, b, later, child, error);
    }
  }

  lemma CauseStays(o: Oracle, b: Books, later: Books, error: Error)
    requires Later(b, later) && Caused(o, b, error)
    ensures Caused(o, later, error)
  {
    hide NoForward, FailedWith;
    if ChildFailed(o, b, error) {
      var child :| FailedWith(o, b, child, error);
      FailureStays(o, b, later, child, error);
    } else if NoForward(o, b, ForwardHttp, error) {
      ForwardCauseStays(o, b, later, ForwardHttp, error);
    } else if NoForward(o, b, ForwardMjpeg, error) {
      ForwardCauseStays(o, b, later, ForwardMjpeg, error);
    }
  }

  lemma EndStays(o: Oracle, b: Books, later: Books, r: Result<ExitReason, Error>)
    requires Later(b, later) && Ended(o, b, r)
    ensures Ended(o, later, r)
  {
    if r.Ok? && r.value.ChildExited? {
      var child: Child :| child.kind == r.value.which && Gone(b, child);
      assert Gone(later, child);
    }
  }

  class Session {
    const oracle: Oracle
    var children: seq<Child>
    var proxy: bool
    var client: bool
    var status: Status
    ghost var log: seq<Happening>
    ghost var stopSeen: bool
    var spawned: nat
    var spawns: nat
    var ports: nat
    var polls: nat
    var looks: nat
    var probes: nat
    var watches: nat

    constructor (oracle: Oracle)
      ensures this.oracle == oracle && Coming(None, 0, [Starting]) && log == [Now(Starting)] && !stopSeen
    {
      this.oracle := oracle;
      children, proxy, client, status, log, stopSeen := [], false, false, Starting, [Now(Starting)], false;
      spawned, spawns, ports, polls, looks, probes, watches := 0, 0, 0, 0, 0, 0, 0;
      new;
      hide AccountedFor, Statuses, Sequenced, Early;
      NothingStarted(log);
    }

    ghost predicate Accounted(loose: Option<nat>)
      reads this
    {
      AccountedFor(log, children, spawned, loose)
    }

    /** Until the shutdown: the proxy, the client and the stop are those of the log, and the
        listed children are of the kinds that come first in the order of the start. */
    ghost predicate Coming(loose: Option<nat>, kinds: nat, statuses: seq<Status>)
      reads this
    {
      && Accounted(loose) && Sequenced(log)
      && (ProxyStarted in log <==> proxy) && ProxyStopped !in log
      && (ClientShared in log <==> client) && ClientDropped !in log
      && (StopSeen in log <==> stopSeen) && DoneSent !in log && Early(log, kinds)
      && kinds <= |ORDER| && |children| == kinds && (forall i :: 0 <= i < kinds ==> children[i].kind == ORDER[i])
      && proxy == client == (Running in statuses)
      && (kinds >= 2 ==> SeenUp(DeviceTunnel) in log) && (Running in statuses ==> SeenUp(Wda) in log)
      && Statuses(log) == statuses && statuses != [] && status == statuses[|statuses| - 1]
    }

    ghost function View(): (b: Books)
      reads this
    {
      Books(log, spawned, spawns, ports, probes, watches, polls, looks)
    }

    // ----- Starting -----

    method Poll(child: Child, ghost loose: Option<nat>, ghost kinds: nat, ghost statuses: seq<Status>)
      returns (exited: bool)
      requires Coming(loose, kinds, statuses) && child.id < spawned
      modifies this`polls, this`log
      ensures Coming(loose, kinds, statuses)
      ensures exited ==> Reaped(child.id) in log
      ensures forall h :: h in log <==> h in old(log) || (exited && h == Reaped(child.id))
      ensures exited == oracle.exited(old(polls), child.id) && polls == old(polls) + 1
    {
      hide AccountedFor, Statuses, Sequenced, Early;
      exited := oracle.exited(polls, child.id);
      polls := polls + 1;
      if exited {
        Log(Reaped(child.id), loose);
      }
    }

    method Log(ghost h: Happening, ghost loose: Option<nat>)
      requires !h.Spawned? && Accounted(loose) && Sequenced(log) && MayFollow(log, h)
      modifies this`log
      ensures log == old(log) + [h]
      ensures Statuses(log) == if h.Now? then old(Statuses(log)) + [h.status] else old(Statuses(log))
      ensures Accounted(loose) && Sequenced(log)
      ensures forall x :: x in log <==> x in old(log) || x == h
      ensures forall kinds :: !h.Laddered? && old(Early(log, kinds)) ==> Early(log, kinds)
    {
      hide AccountedFor, Statuses, Sequenced, MayFollow;
      StatusesMore(log, h);
      AccountedMore(log, h, children, spawned, loose);
      SequencedMore(log, h);
      log := log + [h];
    }

    /** A process that cannot be started leaves nothing behind. */
    method SpawnChild(kind: ChildKind, ghost kinds: nat, ghost statuses: seq<Status>) returns (r: Result<Child, Error>)
      requires Coming(None, kinds, statuses) && kinds < |ORDER| && kind == ORDER[kinds]
      requires kinds == 1 ==> SeenUp(DeviceTunnel) in log
      modifies this`spawns, this`spawned, this`log
      ensures spawns == old(spawns) + 1
      ensures r.Err? ==> Coming(None, kinds, statuses) && NotStarted(oracle, View(), kind, r.error)
      ensures r.Err? ==> log == old(log) && spawned == old(spawned)
      ensures r.Ok? ==> r.value == Child(old(spawned), kind) && spawned == old(spawned) + 1
      ensures r.Ok? ==> Coming(Some(r.value.id), kinds, statuses)
      ensures r.Ok? ==> forall h :: h in log <==> h in old(log) || h == Spawned(r.value)
    {
      hide AccountedFor, Statuses, Sequenced, Early;
      var trouble := oracle.spawn(spawns);
      spawns := spawns + 1;
      if trouble != None {
        return Err(SpawnError(kind, trouble.value));
      }
      var child := Child(spawned, kind);
      LogSpawn(child);
      r := Ok(child);
    }

    method LogSpawn(child: Child)
      requires Accounted(None) && Sequenced(log) && child.id == spawned && Early(log, Rank(child.kind))
      requires child.kind != Tunnel ==> SeenUp(DeviceTunnel) in log
      modifies this`spawned, this`log
      ensures Early(log, Rank(child.kind))
      ensures spawned == old(spawned) + 1 && Accounted(Some(child.id)) && Sequenced(log)
      ensures Statuses(log) == old(Statuses(log))
      ensures forall x :: x in log <==> x in old(log) || x == Spawned(child)
    {
      hide AccountedFor, Statuses, Sequenced, Early;
      RanksGrow(log, child);
      hide MayFollow;
      StatusesMore(log, Spawned(child));
      AccountedSpawn(log, children, child);
      SequencedMore(log, Spawned(child));
      log := log + [Spawned(child)];
      spawned := spawned + 1;
    }

    method Push(child: Child, ghost kinds: nat, ghost statuses: seq<Status>)
      requires Coming(Some(child.id), kinds, statuses) && child.id < spawned && Spawned(child) in log
      requires kinds < |ORDER| && child.kind == ORDER[kinds] && (kinds == 1 ==> SeenUp(DeviceTunnel) in log)
      modifies this`children
      ensures Coming(None, kinds + 1, statuses) && children == old(children) + [child]
    {
      hide Statuses, Sequenced;
      ghost var before := children;
      children := children + [child];
      forall id: nat | Listed(before, id) || id == child.id
        ensures Listed(children, id)
      {
        ListedMore(before, child, id);
      }
    }

    /** The last child is of this kind, and stayed up for as long as it was watched. */
    ghost predicate Settled(kind: ChildKind)
      reads this
    {
      && spawned > 0 && polls >= oracle.settleTurns && |children| > 0
      && children[|children| - 1] == Child(spawned - 1, kind)
      && StaysUp(oracle, spawned - 1, polls - oracle.settleTurns, oracle.settleTurns)
    }

    /** Starts a forward once; `None` means that it lost the race for its port, and is reaped. */
    method TryForward(kind: ChildKind, ghost kinds: nat, ghost statuses: seq<Status>)
      returns (r: Option<Result<(), Error>>)
      requires Coming(None, kinds, statuses) && 2 <= kinds < |ORDER| && kind == ORDER[kinds]
      modifies this`children, this`spawns, this`spawned, this`log, this`ports, this`polls
      ensures Coming(None, if r.Some? && r.value.Ok? then kinds + 1 else kinds, statuses)
      ensures r.Some? && r.value.Err? ==> NoForward(oracle, View(), kind, r.value.error)
      ensures old(spawned) <= spawned <= old(spawned) + 1
      ensures r == None ==> spawned == old(spawned) + 1 && Lost(oracle, View(), Child(old(spawned), kind))
      ensures r.Some? && r.value.Ok? ==> Settled(kind)
      ensures forall h :: h in old(log) ==> h in log
    {
      hide Coming, LostAll, StaysUp, NotStarted, ClassifyChildFailure;
      var error := oracle.port(ports);
      Reserve(kinds, statuses);
      if error != None {
        return Some(Err(error.value));
      }
      var started := SpawnChild(kind, kinds, statuses);
      if started.Err? {
        return Some(Err(started.error));
      }
      var child := started.value;
      var exited := Settles(child, kinds, statuses);
      if !exited {
        Push(child, kinds, statuses);
        return Some(Ok(()));
      }
      var tail := oracle.tail(child.id);
      if !tail.inUse {
        assert FailedWith(oracle, View(), child, ClassifyChildFailure(kind, tail));
        return Some(Err(ClassifyChildFailure(kind, tail)));
      }
      r := None;
    }

    /** Starts a forward, on another port if it loses the race for one, five times at most. */
    method SpawnForward(kind: ChildKind, ghost kinds: nat, ghost statuses: seq<Status>) returns (r: Result<(), Error>)
      requires Coming(None, kinds, statuses) && 2 <= kinds < |ORDER| && kind == ORDER[kinds]
      modifies this`children, this`spawns, this`spawned, this`log, this`ports, this`polls
      ensures Coming(None, if r.Ok? then kinds + 1 else kinds, statuses)
      ensures r.Err? ==> NoForward(oracle, View(), kind, r.error)
      ensures r.Ok? ==> Settled(kind)
      ensures old(spawned) <= spawned <= old(spawned) + FORWARD_ATTEMPTS
      ensures LostAll(oracle, View(), kind, old(spawned), spawned - 1)
    {
      hide Coming, NotStarted, FailedWith;
      for attempt := 0 to FORWARD_ATTEMPTS
        invariant Coming(None, kinds, statuses)
        invariant spawned == old(spawned) + attempt && LostAll(oracle, View(), kind, old(spawned), spawned)
      {
        var tried := TryForward(kind, kinds, statuses);
        if tried != None {
          return tried.value;
        }
      }
      r := Err(ForwardFailed);
    }

    method Reserve(ghost kinds: nat, ghost statuses: seq<Status>)
      requires Coming(None, kinds, statuses)
      modifies this`ports
      ensures Coming(None, kinds, statuses) && ports == old(ports) + 1
    {
      ports := ports + 1;
    }

    /** Watches a new forward for an early exit, in which case it is reaped. */
    method Settles(child: Child, ghost kinds: nat, ghost statuses: seq<Status>) returns (exited: bool)
      requires Coming(Some(child.id), kinds, statuses) && child.id < spawned
      modifies this`polls, this`log
      ensures exited ==> Coming(None, kinds, statuses) && Reaped(child.id) in log
      ensures !exited ==> Coming(Some(child.id), kinds, statuses)
      ensures !exited <==> StaysUp(oracle, child.id, old(polls), oracle.settleTurns)
      ensures !exited ==> polls == old(polls) + oracle.settleTurns
      ensures forall h :: h in old(log) ==> h in log
    {
      hide Sequenced, Statuses, Early;
      exited := false;
      for turn := 0 to oracle.settleTurns
        invariant Coming(Some(child.id), kinds, statuses)
        invariant forall h :: h in old(log) ==> h in log
        invariant polls == old(polls) + turn
        invariant StaysUp(oracle, child.id, old(polls), turn)
      {
        exited := Poll(child, Some(child.id), kinds, statuses);
        if exited {
          assert oracle.exited(old(polls) + turn, child.id);
          return;
        }
      }
    }

    /** Polls the listed children in order, as far as the first that is gone. */
    method FirstGone(ghost kinds: nat, ghost statuses: seq<Status>) returns (gone: Option<Child>)
      requires Coming(None, kinds, statuses)
      modifies this`polls, this`log
      ensures Coming(None, kinds, statuses)
      ensures gone != None ==> gone.value in children && Gone(View(), gone.value)
      ensures forall h :: h in old(log) ==> h in log
      ensures gone == None ==> NoneGone(oracle, children, old(polls), |children|)
      ensures gone == None ==> polls == old(polls) + |children|
      ensures gone != None ==> exists i: nat :: GoneFirst(oracle, children, old(polls), i) && gone.value == children[i]
    {
      hide Sequenced, Statuses, Early;
      for i := 0 to |children|
        invariant Coming(None, kinds, statuses)
        invariant forall h :: h in old(log) ==> h in log
        invariant polls == old(polls) + i && NoneGone(oracle, children, old(polls), i)
      {
        var exited := Poll(children[i], None, kinds, statuses);
        if exited {
          assert GoneFirst(oracle, children, old(polls), i);
          return Some(children[i]);
        }
      }
      gone := None;
    }

    /** The first child found to have exited, as an error. */
    method FirstChildFailure(ghost kinds: nat, ghost statuses: seq<Status>) returns (error: Option<Error>)
      requires Coming(None, kinds, statuses)
      modifies this`polls, this`log
      ensures Coming(None, kinds, statuses)
      ensures error != None ==> exists child :: child in children && FailedWith(oracle, View(), child, error.value)
      ensures error == None ==> NoneGone(oracle, children, old(polls), |children|)
      ensures error == None ==> polls == old(polls) + |children|
      ensures error != None ==>
                exists i: nat :: GoneFirst(oracle, children, old(polls), i)
                            && error.value == ClassifyChildFailure(children[i].kind, oracle.tail(children[i].id))
    {
      hide Coming, NoneGone, GoneFirst, ClassifyChildFailure, Gone;
      var gone := FirstGone(kinds, statuses);
      if gone == None {
        return None;
      }
      error := Some(ClassifyChildFailure(gone.value.kind, oracle.tail(gone.value.id)));
      assert FailedWith(oracle, View(), gone.value, error.value);
    }

    /** `await_tunnel` and `await_status`: a stop request is no failure. A failure is that of a
        child, or comes after a probe more than there are turns, all of them in vain. */
    method Await(what: Waited, turns: nat, late: Error, ghost kinds: nat, ghost statuses: seq<Status>)
      returns (r: Result<Readiness, Error>, ghost n: nat)
      requires Coming(None, kinds, statuses) && !stopSeen
      modifies this`polls, this`log, this`looks, this`probes, this`stopSeen
      ensures Coming(None, kinds, statuses) && (stopSeen <==> r == Ok(StopRequested))
      ensures r == Ok(Ready) ==> SeenUp(what) in log
      ensures r.Err? ==>
                || (exists child :: child in children && FailedWith(oracle, View(), child, r.error))
                || (r.error == late && GaveUp(oracle, View(), turns))
      ensures WaitEnds(oracle, children, old(View()), turns, late, n, r)
    {
      hide Coming, FailedWith, NoneGone, GoneFirst, VainTurns, GaveUp, ClassifyChildFailure, WaitEnds, Polls;
      ghost var b := View();
      NothingYet(oracle, children, b);
      var turn := 0;
      n := 0;
      while true
        invariant Coming(None, kinds, statuses) && !stopSeen
        invariant turn <= turns && probes == old(probes) + turn && looks == old(looks) + turn && n == turn
        invariant polls == old(polls) + Polls(children, turn) && VainTurns(oracle, children, old(View()), turn)
        invariant forall k: nat :: old(probes) <= k < probes ==> !oracle.ready(k)
        decreases turns - turn
      {
        var stop := LookAgain(kinds, statuses);
        if stop {
          StoppedAfter(oracle, children, b, turns, late, turn);
          return Ok(StopRequested), n;
        }
        var failure := FirstChildFailure(kinds, statuses);
        if failure != None {
          FailedAfter(oracle, children, b, turns, late, turn, failure.value);
          return Err(failure.value), n;
        }
        var ready := Probe(what, kinds, statuses);
        if ready {
          ReadyAfter(oracle, children, b, turns, late, turn);
          return Ok(Ready), n;
        }
        OneMoreVain(oracle, children, b, turn);
        if turn == turns {
          InVain(View(), turns, old(probes));
          LateAfter(oracle, children, b, turns, late);
          return Err(late), n + 1;
        }
        turn, n := turn + 1, n + 1;
      }
    }

    lemma InVain(b: Books, turns: nat, first: nat)
      requires b.probes == first + turns + 1 && forall k: nat :: first <= k < b.probes ==> !oracle.ready(k)
      ensures GaveUp(oracle, b, turns)
    {
    }

    method LookAgain(ghost kinds: nat, ghost statuses: seq<Status>) returns (stop: bool)
      requires Coming(None, kinds, statuses) && !stopSeen
      modifies this`looks, this`log, this`stopSeen
      ensures Coming(None, kinds, statuses) && stopSeen == stop
      ensures stop == oracle.stop(old(looks)) && looks == old(looks) + 1
      ensures forall h :: h in old(log) ==> h in log
    {
      stop := oracle.stop(looks);
      looks := looks + 1;
      if stop {
        SeeStop(kinds, statuses);
      }
    }

    method SeeStop(ghost kinds: nat, ghost statuses: seq<Status>)
      requires Coming(None, kinds, statuses)
      modifies this`log, this`stopSeen
      ensures Coming(None, kinds, statuses) && stopSeen
      ensures forall h :: h in old(log) ==> h in log
    {
      hide AccountedFor, Statuses, Sequenced, Early;
      Log(StopSeen, None);
      stopSeen := true;
    }

    method Probe(what: Waited, ghost kinds: nat, ghost statuses: seq<Status>) returns (ready: bool)
      requires Coming(None, kinds, statuses)
      modifies this`probes, this`log
      ensures Coming(None, kinds, statuses) && (ready ==> SeenUp(what) in log)
      ensures probes == old(probes) + 1 && ready == oracle.ready(old(probes))
    {
      hide AccountedFor, Statuses, Sequenced, Early;
      ready := oracle.ready(probes);
      probes := probes + 1;
      if ready {
        Log(SeenUp(what), None);
      }
    }

    /** Starts and adds one child. */
    method StartChild(kind: ChildKind, ghost kinds: nat, ghost statuses: seq<Status>) returns (r: Result<(), Error>)
      requires Coming(None, kinds, statuses) && kinds < |ORDER| && kind == ORDER[kinds]
      requires kinds == 1 ==> SeenUp(DeviceTunnel) in log
      modifies this`children, this`spawns, this`spawned, this`log
      ensures Coming(None, if r.Ok? then kinds + 1 else kinds, statuses)
      ensures r.Err? ==> NotStarted(oracle, View(), kind, r.error)
    {
      hide Coming, AccountedFor;
      var started := SpawnChild(kind, kinds, statuses);
      if started.Err? {
        return Err(started.error);
      }
      Push(started.value, kinds, statuses);
      r := Ok(());
    }

    /** Tunnel, then, once that is registered, the runner, then both forwards. */
    method Launch() returns (r: Result<Readiness, Error>, ghost kinds: nat)
      requires Coming(None, 0, [Starting]) && !stopSeen
      modifies this
      ensures kinds <= |ORDER| && Coming(None, kinds, [Starting]) && (stopSeen <==> r == Ok(StopRequested))
      ensures r == Ok(Ready) ==> kinds == |ORDER|
      ensures r.Err? ==> NotLaunched(oracle, View(), r.error)
    {
      hide Coming, AccountedFor, NotStarted, NoForward, GaveUp, FailedWith, Settled, WaitEnds;
      kinds := 0;
      var tunnel := StartChild(Tunnel, 0, [Starting]);
      if tunnel.Err? {
        return Err(tunnel.error), 0;
      }
      ghost var waited;
      r, waited := Await(DeviceTunnel, oracle.tunnelTurns, TunnelFailed, 1, [Starting]);
      if r != Ok(Ready) {
        return r, 1;
      }
      var runner := StartChild(RunWda, 1, [Starting]);
      if runner.Err? {
        return Err(runner.error), 1;
      }
      var http := SpawnForward(ForwardHttp, 2, [Starting]);
      if http.Err? {
        return Err(http.error), 2;
      }
      var mjpeg := SpawnForward(ForwardMjpeg, 3, [Starting]);
      if mjpeg.Err? {
        return Err(mjpeg.error), 3;
      }
      r, kinds := Ok(Ready), 4;
    }

    /** The proxy is up: the client is shared and the session shown as running. */
    method GoRunning(ghost kinds: nat)
      requires Coming(None, kinds, [Starting]) && SeenUp(Wda) in log
      modifies this`proxy, this`client, this`status, this`log
      ensures Coming(None, kinds, [Starting, Running]) && proxy && client
    {
      hide AccountedFor, Statuses, Sequenced, Early;
      UpAndRunning(log, children, spawned, kinds);
      ghost var before := log;
      log := log + [ProxyStarted];
      proxy := true;
      log := log + [ClientShared];
      client := true;
      log := log + [Now(Running)];
      status := Running;
      assert log == before + UP;
    }

    /** One turn of the running session. */
    method RunTurn(ghost kinds: nat) returns (end: Option<Result<ExitReason, Error>>)
      requires Coming(None, kinds, [Starting, Running]) && !stopSeen
      modifies this`polls, this`log, this`looks, this`watches, this`stopSeen
      ensures Coming(None, kinds, [Starting, Running]) && (stopSeen <==> end == Some(Ok(Requested)))
      ensures forall h :: h in old(log) ==> h in log
      ensures end == None ==>
                && !oracle.stop(old(looks)) && ProxyFine(oracle, old(watches))
                && NoneGone(oracle, children, old(polls), |children|)
                && looks == old(looks) + 1 && watches == old(watches) + 1 && polls == old(polls) + |children|
      ensures end.Some? ==> TurnEnds(oracle, children, old(looks), old(watches), old(polls), end.value)
      ensures end.Some? && ProxyStarted in old(log) ==> Ended(oracle, View(), end.value)
      ensures end.Some? && end.value.Ok? && end.value.value.ChildExited? ==>
                exists child :: child in children && child.kind == end.value.value.which && Gone(View(), child)
    {
      hide NoneGone, GoneFirst, Coming;
      var stop := LookAgain(kinds, [Starting, Running]);
      if stop {
        return Some(Ok(Requested));
      }
      LookAtProxy(kinds);
      if oracle.proxyFailure(watches - 1) != None {
        return Some(Err(oracle.proxyFailure(watches - 1).value));
      }
      if !oracle.proxyAlive(watches - 1) {
        return Some(Ok(UpstreamClosed));
      }
      var gone := FirstGone(kinds, [Starting, Running]);
      end := if gone == None then None else Some(Ok(ChildExited(gone.value.kind)));
    }

    /** Watches the running session; the runs considered are those that end, by a stop request
        if by nothing else. */
    method RunUntilStop(ghost kinds: nat) returns (r: Result<ExitReason, Error>, ghost n: nat)
      requires Coming(None, kinds, [Starting, Running]) && !stopSeen
      modifies this`polls, this`log, this`looks, this`watches, this`stopSeen
      ensures Coming(None, kinds, [Starting, Running]) && (stopSeen <==> r == Ok(Requested))
      ensures Ended(oracle, View(), r)
      ensures r.Ok? && r.value.ChildExited? ==>
                exists child :: child in children && child.kind == r.value.which && Gone(View(), child)
      ensures RunEnds(oracle, children, old(View()), n, r)
    {
      hide NoneGone, QuietTurns, Coming, TurnEnds, Ended, Gone, RunEnds, Polls;
      RunningHasProxy(kinds);
      ghost var b := View();
      NothingYet(oracle, children, b);
      n := 0;
      for turn := 0 to oracle.runTurns
        invariant Coming(None, kinds, [Starting, Running]) && !stopSeen && ProxyStarted in log
        invariant n == turn && looks == b.looks + turn && watches == b.watches + turn
        invariant polls == b.polls + Polls(children, turn) && QuietTurns(oracle, children, b, turn)
      {
        var end := RunTurn(kinds);
        if end != None {
          EndsAfter(oracle, children, b, turn, end.value);
          return end.value, n;
        }
        OneMoreQuiet(oracle, children, b, turn);
        n := n + 1;
      }
      SeeStop(kinds, [Starting, Running]);
      r := Ok(Requested);
      RequestedEnds(View());
      RequestedAfter(oracle, children, b);
    }

    lemma RunningHasProxy(kinds: nat)
      requires Coming(None, kinds, [Starting, Running])
      ensures ProxyStarted in log
    {
      hide Statuses, Sequenced, AccountedFor, Early;
    }

    lemma RequestedEnds(b: Books)
      ensures Ended(oracle, b, Ok(Requested))
    {
    }

    method LookAtProxy(ghost kinds: nat)
      requires Coming(None, kinds, [Starting, Running])
      modifies this`watches
      ensures Coming(None, kinds, [Starting, Running]) && watches == old(watches) + 1
    {
      watches := watches + 1;
    }

    method StartSession()
      returns (r: Result<ExitReason, Error>, ghost kinds: nat, ghost statuses: seq<Status>,
               ghost b: Books, ghost n: nat)
      requires Coming(None, 0, [Starting]) && !stopSeen
      modifies this
      ensures Coming(None, kinds, statuses) && (stopSeen <==> r == Ok(Requested))
      ensures statuses != [Starting] ==>
                statuses == [Starting, Running] && kinds == if oracle.attach then 0 else |ORDER|
      ensures r.Err? ==> Caused(oracle, View(), r.error)
      ensures r.Ok? && r.value != Requested ==> statuses == [Starting, Running] && Ended(oracle, View(), r)
      ensures Running in statuses ==>
                oracle.session == None && oracle.proxyStart == None && RunEnds(oracle, children, b, n, r)
    {
      hide Coming, RunEnds, WaitEnds, AccountedFor, NotStarted, NoForward, GaveUp, FailedWith, ProxyBroken;
      kinds, statuses, b, n := 0, [Starting], View(), 0;
      if !oracle.attach {
        var launched;
        launched, kinds := Launch();
        if launched.Err? {
          return Err(launched.error), kinds, statuses, b, n;
        }
        if launched.value == StopRequested {
          return Ok(Requested), kinds, statuses, b, n;
        }
      }
      ghost var waited;
      var ready;
      ready, waited := Await(Wda, oracle.statusTurns, WdaUnreachable, kinds, statuses);
      if ready.Err? {
        return Err(ready.error), kinds, statuses, b, n;
      }
      if ready.value == StopRequested {
        return Ok(Requested), kinds, statuses, b, n;
      }
      if oracle.session != None {
        return Err(oracle.session.value), kinds, statuses, b, n;
      }
      if oracle.proxyStart != None {
        return Err(oracle.proxyStart.value), kinds, statuses, b, n;
      }
      GoRunning(kinds);
      statuses := [Starting, Running];
      b := View();
      r, n := RunUntilStop(kinds);
    }

    // ----- The way out -----

    /** The termination ladder over all listed children; nobody presses on. */
    method ClimbDown() returns (gone: seq<bool>, ghost run: seq<Happening>)
      requires Accounted(None) && Sequenced(log) && MayFollow(log, Laddered([], 0))
      modifies this`log
      ensures |gone| == |children| && Accounted(None) && Sequenced(log)
      ensures log == old(log) + run && Statuses(log) == old(Statuses(log))
      ensures OneRun(oracle.ladder, run, children != [])
    {
      hide AccountedFor, Sequenced, Statuses;
      if children == [] {
        assert log + [] == log;
        return [], [];
      }
      var ladder := new Ladder.Children(|children|, Undisturbed(oracle.ladder));
      ghost var r, signals := Descend(ladder);
      assert GoodRun(oracle.ladder, Laddered(signals, ladder.clock)) by {
        assert forall bound: nat ::
            Ladder.TurnsWithin(oracle.ladder, bound) == Ladder.TurnsWithin(ladder.oracle, bound);
      }
      run := [Laddered(signals, ladder.clock)];
      Log(run[0], None);
      var reaped := ladder.reaped;
      gone := seq(|children|, i => i in reaped);
    }

    /** Reaps the listed children: those the ladder finds gone, then the others by waiting. */
    method ReapAll() returns (ghost run: seq<Happening>, ghost reaps: seq<Happening>)
      requires Accounted(None) && Sequenced(log) && MayFollow(log, Laddered([], 0))
      modifies this`log, this`children
      ensures log == old(log) + run + reaps && Reaps(reaps) && OneRun(oracle.ladder, run, old(children) != [])
      ensures children == [] && AllReaped(log, spawned, oracle) && Sequenced(log)
    {
      hide AccountedFor, Sequenced, Statuses;
      var gone;
      gone, run := ClimbDown();
      ghost var start := log;
      assert log == start + [];
      reaps := [];
      for i := 0 to |children|
        invariant Accounted(None) && Sequenced(log) && children == old(children)
        invariant log == start + reaps && Reaps(reaps)
        invariant forall j :: 0 <= j < i && gone[j] ==> Reaped(children[j].id) in log
      {
        if gone[i] {
          reaps := reaps + [Reaped(children[i].id)];
          Log(Reaped(children[i].id), None);
        }
      }
      for i := 0 to |children|
        invariant Accounted(None) && Sequenced(log) && children == old(children)
        invariant log == start + reaps && Reaps(reaps)
        invariant forall j :: 0 <= j < |children| && gone[j] ==> Reaped(children[j].id) in log
        invariant forall j :: 0 <= j < i ==> Reaped(children[j].id) in log || oracle.unwaitable(children[j].id)
      {
        if !gone[i] && !oracle.unwaitable(children[i].id) {
          reaps := reaps + [Reaped(children[i].id)];
          Log(Reaped(children[i].id), None);
        }
      }
      ListedReaped(log, children, spawned, oracle);
      children := [];
    }

    /** The way out: the proxy first, so that the picture goes away at once, then the client,
        then the ladder for whatever is listed, and every child reaped. */
    method Shutdown(ghost kinds: nat, ghost statuses: seq<Status>)
      returns (ghost run: seq<Happening>, ghost reaps: seq<Happening>)
      requires Coming(None, kinds, statuses)
      modifies this`proxy, this`client, this`status, this`log, this`children
      ensures log == old(log) + Farewell(old(proxy), old(client)) + run + reaps && Sequenced(log)
      ensures Reaps(reaps) && OneRun(oracle.ladder, run, old(children) != [])
      ensures children == [] && !proxy && !client && status == Stopping
      ensures AllReaped(log, spawned, oracle) && forall c :: Spawned(c) in log ==> c.id < spawned
    {
      hide AccountedFor, Statuses, AllReaped, Sequenced, Early, Farewell, MayFollow;
      SaidFarewell(log, proxy, client, children, spawned, kinds);
      ghost var before := log;
      SayFarewell();
      assert log == before + Farewell(old(proxy), old(client));
      SpawnedCounted(log, children, spawned);
      run, reaps := ReapAll();
    }

    method SayFarewell()
      modifies this`proxy, this`client, this`status, this`log
      ensures log == old(log) + Farewell(old(proxy), old(client)) && !proxy && !client && status == Stopping
    {
      log := log + [Now(Stopping)];
      status := Stopping;
      if proxy {
        proxy := false;
        log := log + [ProxyStopped];
      }
      if client {
        client := false;
        log := log + [ClientDropped];
      }
    }

    /** The life of a session. The statuses shown are `Starting`, perhaps `Running`, `Stopping`,
        and one final status, which tells what ended the session. When that appears every process
        ever started has been reaped, unless waiting for it failed, the proxy is stopped and the
        client gone; only then, and once, is the end announced. */
    method Supervise()
      returns (r: Result<ExitReason, Error>, ghost before: seq<Happening>,
               ghost kids: seq<Child>, ghost b: Books, ghost n: nat)
      requires Coming(None, 0, [Starting]) && log == [Now(Starting)] && !stopSeen
      modifies this
      ensures log == before + [Now(if r.Ok? then Exited(r.value) else Failed(r.error)), DoneSent]
      ensures Sequenced(log) && DoneSent !in before
      ensures Statuses(before) in {[Starting, Stopping], [Starting, Running, Stopping]}
      ensures Running in Statuses(before) <==> ProxyStarted in before
      ensures forall child :: Spawned(child) in before ==> Reaped(child.id) in before || oracle.unwaitable(child.id)
      ensures forall h :: h in before && h.Laddered? ==> GoodRun(oracle.ladder, h)
      ensures ProxyStarted in before ==> ProxyStopped in before
      ensures ClientShared in before ==> ClientDropped in before
      ensures Running in Statuses(before) && !oracle.attach ==> SeenUp(DeviceTunnel) in before
      ensures r == Ok(Requested) <==> StopSeen in before
      ensures Running in Statuses(before) ==>
                && oracle.session == None && oracle.proxyStart == None && RunEnds(oracle, kids, b, n, r)
                && |kids| == (if oracle.attach then 0 else |ORDER|)
                && forall i :: 0 <= i < |kids| ==> kids[i].kind == ORDER[i] && Spawned(kids[i]) in before
      ensures r.Ok? && r.value != Requested ==> Running in Statuses(before) && Ended(oracle, View(), r)
      ensures r.Err? ==> Caused(oracle, View(), r.error)
      ensures children == [] && !proxy && !client && status == if r.Ok? then Exited(r.value) else Failed(r.error)
    {
      hide Statuses, Sequenced, MayFollow, Caused, Ended, Farewell, GoodRun, Later, RunEnds;
      ghost var kinds, statuses, run, reaps;
      r, kinds, statuses, b, n := StartSession();
      kids := children;
      ListedAreSpawned(log, children, spawned);
      hide AccountedFor;
      ghost var started, view, hadProxy, hadClient := log, View(), proxy, client;
      run, reaps := Shutdown(kinds, statuses);
      before := log;
      AtTheEnd(started, hadProxy, hadClient, run, reaps);
      StatusesOfFarewell(started, hadProxy, hadClient, run, reaps);
      assert [Starting] + [Stopping] == [Starting, Stopping];
      assert [Starting, Running] + [Stopping] == [Starting, Running, Stopping];
      Announce(r);
      StillCaused(view, View(), r);
    }

    /** The final status, and then, once, that it is there. */
    method Announce(r: Result<ExitReason, Error>)
      requires Sequenced(log) && Now(Stopping) in log
      modifies this`status, this`log
      ensures log == old(log) + [Now(status), DoneSent] && Sequenced(log)
      ensures status == if r.Ok? then Exited(r.value) else Failed(r.error)
    {
      hide Sequenced;
      status := if r.Ok? then Exited(r.value) else Failed(r.error);
      SequencedMore(log, Now(status));
      log := log + [Now(status)];
      SequencedMore(log, DoneSent);
      log := log + [DoneSent];
      assert log == old(log) + [Now(status), DoneSent];
    }

    lemma StillCaused(b: Books, later: Books, r: Result<ExitReason, Error>)
      requires b.(log := later.log) == later && forall h :: h in b.log ==> h in later.log
      requires r.Err? ==> Caused(oracle, b, r.error)
      requires r.Ok? && r.value != Requested ==> Ended(oracle, b, r)
      ensures r.Err? ==> Caused(oracle, later, r.error)
      ensures r.Ok? && r.value != Requested ==> Ended(oracle, later, r)
    {
      hide Caused, Ended;
      if r.Err? {
        CauseStays(oracle, b, later, r.error);
      } else if r.value != Requested {
        EndStays(oracle, b, later, r);
      }
    }
  }

  /** The ladder as a session climbs it: no one asks for more force. */
  function Undisturbed(ladder: Ladder.Oracle): Ladder.Oracle {
    ladder.(presses := _ => false)
  }

  /** Every group was interrupted first; each next signal came only after its budget; and less
      than five seconds and two turns were spent waiting, for any number of children. */
  ghost predicate GoodRun(ladder: Ladder.Oracle, h: Happening) {
    && h.Laddered?
    && h.signals in {[Ladder.Interrupt], [Ladder.Interrupt, Ladder.Terminate],
                     [Ladder.Interrupt, Ladder.Terminate, Ladder.Kill]}
    && (Ladder.Terminate in h.signals ==> h.waited >= 3000)
    && (Ladder.Kill in h.signals ==> h.waited >= 5000)
    && (forall bound: nat :: Ladder.TurnsWithin(ladder, bound) ==>
                          h.waited < 5000 + bound + bound)
  }

  ghost predicate OneRun(ladder: Ladder.Oracle, run: seq<Happening>, needed: bool) {
    if needed then |run| == 1 && run[0].Laddered? && GoodRun(ladder, run[0]) else run == []
  }

  method Descend(children: Ladder.Children) returns (ghost r: Result<(), string>, ghost signals: seq<Ladder.Signal>)
    requires children.Valid() && children.clock == 0
    requires forall k: nat :: !children.oracle.presses(k)
    modifies children
    ensures GoodRun(children.oracle, Laddered(signals, children.clock))
    ensures r.Ok? ==> children.AllReaped()
  {
    ghost var first := children.asked;
    var result, given := children.TerminateAll();
    r, signals := result, given;
  }

  ghost predicate Reaps(s: seq<Happening>) {
    forall x :: x in s ==> x.Reaped?
  }

  lemma ListedMore(children: seq<Child>, child: Child, id: nat)
    requires Listed(children, id) || id == child.id
    ensures Listed(children + [child], id)
  {
    if Listed(children, id) {
      var i :| 0 <= i < |children| && children[i].id == id;
      assert (children + [child])[i].id == id;
    } else {
      assert (children + [child])[|children|].id == id;
    }
  }

  /** What the shutdown does before it turns to the children. */
  function Farewell(proxy: bool, client: bool): seq<Happening> {
    [Now(Stopping)] + (if proxy then [ProxyStopped] else []) + (if client then [ClientDropped] else [])
  }

  ghost predicate AllReaped(log: seq<Happening>, spawned: nat, oracle: Oracle) {
    forall id: nat :: id < spawned ==> Reaped(id) in log || oracle.unwaitable(id)
  }

  lemma ListedReaped(log: seq<Happening>, children: seq<Child>, spawned: nat, oracle: Oracle)
    requires AccountedFor(log, children, spawned, None)
    requires forall j :: 0 <= j < |children| ==> Reaped(children[j].id) in log || oracle.unwaitable(children[j].id)
    ensures AllReaped(log, spawned, oracle)
  {
  }

  /** What the way out adds to the log, and what it does not. */
  lemma AtTheEnd(started: seq<Happening>, proxy: bool, client: bool, run: seq<Happening>, reaps: seq<Happening>)
    requires Reaps(reaps) && (run == [] || (|run| == 1 && run[0].Laddered?))
    requires forall h :: h in started ==> !h.Laddered?
    ensures var end := started + Farewell(proxy, client) + run + reaps;
            && (forall h :: h in started ==> h in end) && Now(Stopping) in end
            && (proxy ==> ProxyStopped in end) && (client ==> ClientDropped in end)
            && (forall h :: h in {ProxyStarted, ClientShared, StopSeen, DoneSent} && h in end ==> h in started)
            && (forall h :: h in end && h.Laddered? ==> run == [h])
  {
  }

  /** What is seen of a session that is up. */
  const UP := [ProxyStarted, ClientShared, Now(Running)]

  lemma UpAndRunning(log: seq<Happening>, children: seq<Child>, spawned: nat, kinds: nat)
    requires AccountedFor(log, children, spawned, None) && Sequenced(log) && Early(log, kinds) && SeenUp(Wda) in log
    ensures AccountedFor(log + UP, children, spawned, None) && Sequenced(log + UP) && Early(log + UP, kinds)
    ensures Statuses(log + UP) == Statuses(log) + [Running]
    ensures forall h :: h in log + UP <==> h in log || h in UP
  {
    hide AccountedFor, Statuses, Sequenced, Early;
    var log1 := log + [ProxyStarted];
    var log2 := log1 + [ClientShared];
    assert log + UP == log2 + [Now(Running)];
    OneMore(log, ProxyStarted, children, spawned, kinds);
    OneMore(log1, ClientShared, children, spawned, kinds);
    OneMore(log2, Now(Running), children, spawned, kinds);
  }

  lemma SaidFarewell(log: seq<Happening>, proxy: bool, client: bool,
                     children: seq<Child>, spawned: nat, kinds: nat)
    requires AccountedFor(log, children, spawned, None) && Sequenced(log) && Early(log, kinds) && proxy == client
    requires ClientShared in log ==> client
    ensures var end := log + Farewell(proxy, client);
            AccountedFor(end, children, spawned, None) && Sequenced(end) && MayFollow(end, Laddered([], 0))
  {
    hide AccountedFor, Statuses, Sequenced, Early;
    var log1 := log + [Now(Stopping)];
    OneMore(log, Now(Stopping), children, spawned, kinds);
    if proxy {
      OneMore(log1, ProxyStopped, children, spawned, kinds);
      OneMore(log1 + [ProxyStopped], ClientDropped, children, spawned, kinds);
      assert log + Farewell(true, true) == log1 + [ProxyStopped] + [ClientDropped];
    } else {
      assert log + Farewell(false, false) == log1;
    }
  }

  lemma OneMore(log: seq<Happening>, h: Happening, children: seq<Child>, spawned: nat, kinds: nat)
    requires AccountedFor(log, children, spawned, None) && Sequenced(log) && Early(log, kinds)
    requires !h.Spawned? && !h.Laddered? && MayFollow(log, h)
    ensures AccountedFor(log + [h], children, spawned, None) && Sequenced(log + [h]) && Early(log + [h], kinds)
    ensures h.Now? ==> Statuses(log + [h]) == Statuses(log) + [h.status]
    ensures !h.Now? ==> Statuses(log + [h]) == Statuses(log)
  {
    hide Statuses, MayFollow;
    StatusesMore(log, h);
    AccountedMore(log, h, children, spawned, None);
    SequencedMore(log, h);
    EarlyMore(log, h, kinds);
  }

  lemma NothingStarted(log: seq<Happening>)
    requires log == [Now(Starting)]
    ensures AccountedFor(log, [], 0, None) && Statuses(log) == [Starting] && Sequenced(log)
  {
    StatusesMore([], Now(Starting));
    assert [] + log == log;
  }

  lemma ListedAreSpawned(log: seq<Happening>, children: seq<Child>, spawned: nat)
    requires AccountedFor(log, children, spawned, None)
    ensures forall i :: 0 <= i < |children| ==> Spawned(children[i]) in log
  {
  }

  lemma SpawnedCounted(log: seq<Happening>, children: seq<Child>, spawned: nat)
    requires AccountedFor(log, children, spawned, None)
    ensures forall c :: Spawned(c) in log ==> c.id < spawned
  {
  }

  lemma {:induction false} StatusesOfReaps(log: seq<Happening>, reaps: seq<Happening>)
    requires Reaps(reaps)
    ensures Statuses(log + reaps) == Statuses(log)
    decreases |reaps|
  {
    if reaps == [] {
      assert log + reaps == log;
    } else {
      var fewer, last := reaps[..|reaps| - 1], reaps[|reaps| - 1];
      assert last in reaps;
      StatusesOfReaps(log, fewer);
      assert log + reaps == (log + fewer) + [last];
      StatusesMore(log + fewer, last);
    }
  }

  lemma StatusesOfFarewell(log: seq<Happening>, proxy: bool, client: bool, run: seq<Happening>, reaps: seq<Happening>)
    requires Reaps(reaps) && (run == [] || (|run| == 1 && run[0].Laddered?))
    ensures Statuses(log + Farewell(proxy, client) + run + reaps) == Statuses(log) + [Stopping]
  {
    hide Statuses;
    var log1 := log + [Now(Stopping)];
    var log2 := log1 + if proxy then [ProxyStopped] else [];
    var log3 := log2 + if client then [ClientDropped] else [];
    var log4 := log3 + run;
    assert !proxy ==> log2 == log1;
    assert !client ==> log3 == log2;
    assert if run == [] then log4 == log3 else log4 == log3 + [run[0]];
    StatusesMore(log, Now(Stopping));
    StatusesMore(log1, ProxyStopped);
    StatusesMore(log2, ClientDropped);
    StatusesMore(log3, Laddered(if run == [] then [] else run[0].signals, if run == [] then 0 else run[0].waited));
    assert log + Farewell(proxy, client) == log3;
    StatusesOfReaps(log4, reaps);
  }

  /** Every process started is listed or reaped, the `loose` one perhaps excepted. */
  ghost predicate AccountedFor(log: seq<Happening>, children: seq<Child>, spawned: nat, loose: Option<nat>) {
    && (forall i :: 0 <= i < |children| ==> children[i].id < spawned && Spawned(children[i]) in log)
    && (forall c :: Spawned(c) in log ==> c.id < spawned)
    && (forall id: nat :: id < spawned ==> Listed(children, id) || Reaped(id) in log || loose == Some(id))
  }

  lemma AccountedMore(log: seq<Happening>, h: Happening, children: seq<Child>, spawned: nat, loose: Option<nat>)
    requires AccountedFor(log, children, spawned, loose) && !h.Spawned?
    ensures AccountedFor(log + [h], children, spawned, loose)
  {
    assert forall x :: x in log + [h] <==> x in log || x == h;
  }

  lemma AccountedSpawn(log: seq<Happening>, children: seq<Child>, child: Child)
    requires AccountedFor(log, children, child.id, None)
    ensures AccountedFor(log + [Spawned(child)], children, child.id + 1, Some(child.id))
  {
    assert forall x :: x in log + [Spawned(child)] <==> x in log || x == Spawned(child);
  }

  ghost predicate Listed(children: seq<Child>, id: nat) {
    exists i :: 0 <= i < |children| && children[i].id == id
  }

  lemma StatusesMore(log: seq<Happening>, h: Happening)
    ensures h.Now? ==> Statuses(log + [h]) == Statuses(log) + [h.status]
    ensures !h.Now? ==> Statuses(log + [h]) == Statuses(log)
  {
    assert (log + [h])[..|log|] == log;
    assert Statuses(log) + [] == Statuses(log);
  }
}
