/** One wireless pairing round (wireless.rs): competing pairing processes are started for
    every endpoint that shows up, polled until one succeeds or all are gone, and the round
    is closed in a single place. Discovery, processes and the clock are oracles. */
module PairingRound {
  import opened Basics

  type Endpoint = string

  type Guid = string

  const ID_RANGE := 0x1_0000_0000_0000_0000

  datatype WirelessError =
    | TimedOut
    | RoundTimedOut
    | ServiceGone
    | WasCancelled
    | OutputUnparseable
    | CommandFailed(summary: string)
    | Other(what: string)

  datatype CloseReason = Success | TimeoutReason | CancelledReason | LostReason | FailedReason | TimedOutReason

  datatype RoundEvent = ServiceLost | PairSucceeded(guid: Guid) | PairFailed | PairTimedOut | Timeout | Cancelled

  datatype RoundAction = WaitForPair | Close(reason: CloseReason) | IgnoredAfterClose

  // ----- The state of a round -----

  class RoundState {
    var id: nat
    var pairInFlight: bool
    var closed: bool
    var guid: Option<Guid>
    var lostPending: bool

    constructor (id: nat)
      ensures this.id == id && !pairInFlight && !closed && guid == None && !lostPending
    {
      this.id, pairInFlight, closed, guid, lostPending := id, false, false, None, false;
    }

    method DoClose(reason: CloseReason) returns (action: RoundAction)
      modifies this`pairInFlight, this`closed, this`id
      ensures action == Close(reason) && closed && !pairInFlight && id == (old(id) + 1) % ID_RANGE
    {
      pairInFlight := false;
      closed := true;
      id := (id + 1) % ID_RANGE;
      action := Close(reason);
    }

    /** An open round closes on every event, but for a lost service while pairs are in flight;
        a closed one is left alone. */
    method Observe(event: RoundEvent) returns (action: RoundAction)
      modifies this
      ensures old(closed) ==> action == IgnoredAfterClose && unchanged(this)
      ensures !old(closed) && event.ServiceLost? && old(pairInFlight) ==>
                action == WaitForPair && lostPending && unchanged(`id, `pairInFlight, `closed, `guid)
      ensures !old(closed) && !(event.ServiceLost? && old(pairInFlight)) ==>
                && action == Close(ReasonOf(event, old(pairInFlight), old(lostPending)))
                && closed && !pairInFlight && id == (old(id) + 1) % ID_RANGE && lostPending == old(lostPending)
                && guid == if event.PairSucceeded? then Some(event.guid) else old(guid)
    {
      if closed {
        return IgnoredAfterClose;
      }
      match event
      case ServiceLost =>
        if pairInFlight {
          lostPending := true;
          action := WaitForPair;
        } else {
          action := DoClose(LostReason);
        }
      case Cancelled => action := DoClose(CancelledReason);
      case Timeout => action := DoClose(TimeoutReason);
      case PairSucceeded(g) =>
        pairInFlight := false;
        guid := Some(g);
        action := DoClose(Success);
      case _ =>
        var reason := if event.PairFailed? then FailedReason else TimedOutReason;
        if pairInFlight {
          pairInFlight := false;
          reason := if lostPending then LostReason else reason;
        }
        action := DoClose(reason);
    }

    /** Events that carry another round's id change nothing. */
    method ObserveForRound(roundId: nat, event: RoundEvent) returns (action: RoundAction)
      modifies this
      ensures roundId != old(id) || old(closed) ==> action == IgnoredAfterClose && unchanged(this)
      ensures roundId == old(id) && !old(closed) && event.ServiceLost? && old(pairInFlight) ==>
                action == WaitForPair && lostPending && unchanged(`id, `pairInFlight, `closed, `guid)
      ensures roundId == old(id) && !old(closed) && !(event.ServiceLost? && old(pairInFlight)) ==>
                action == Close(ReasonOf(event, old(pairInFlight), old(lostPending))) && closed
    {
      if roundId != id || closed {
        action := IgnoredAfterClose;
      } else {
        action := Observe(event);
      }
    }
  }

  /** Why a round closes: a failure of the pairs in flight is put down to a service lost before. */
  function ReasonOf(event: RoundEvent, inFlight: bool, lostPending: bool): CloseReason {
    match event
    case ServiceLost => LostReason
    case Cancelled => CancelledReason
    case Timeout => TimeoutReason
    case PairSucceeded(_) => Success
    case PairFailed => if inFlight && lostPending then LostReason else FailedReason
    case PairTimedOut => if inFlight && lostPending then LostReason else TimedOutReason
  }

  /** A lost service is to blame for what happens to pairs in flight after it, and for nothing else. */
  lemma ReasonsTold(event: RoundEvent, inFlight: bool, lostPending: bool)
    ensures var reason := ReasonOf(event, inFlight, lostPending);
            && (reason == LostReason <==>
                  event == ServiceLost || ((event == PairFailed || event == PairTimedOut) && inFlight && lostPending))
            && (reason == Success <==> event.PairSucceeded?)
            && (reason == CancelledReason <==> event == Cancelled)
            && (reason == TimeoutReason <==> event == Timeout)
            && (reason == FailedReason ==> event == PairFailed) && (reason == TimedOutReason ==> event == PairTimedOut)
  {
  }

  // ----- What the world does during a round -----

  datatype Poll =
    | Running
    | Exited(status: int, guid: Option<Guid>, summary: string)
    | PollError(error: WirelessError)

  /** One turn of the polling loop: the endpoints on offer, and how starting and polling a
      process for an endpoint would turn out. */
  datatype Tick = Tick(
    cancelled: bool,
    found: Result<seq<Endpoint>, WirelessError>,
    spawn: Endpoint -> Option<WirelessError>,
    poll: Endpoint -> Poll)

  function PollAt(ticks: seq<Tick>, t: nat, e: Endpoint): Poll {
    if t < |ticks| then ticks[t].poll(e) else Running
  }

  predicate Wins(p: Poll) {
    p.Exited? && p.status == 0 && p.guid.Some?
  }

  predicate WinsWith(p: Poll, guid: Option<Guid>) {
    p.Exited? && p.status == 0 && p.guid == guid && guid.Some?
  }

  lemma PollIs(ticks: seq<Tick>, t: nat, e: Endpoint)
    requires t < |ticks|
    ensures PollAt(ticks, t, e) == ticks[t].poll(e)
  {
  }

  /** The failure recorded for a process that ended without winning. */
  function PollFailure(p: Poll): Option<WirelessError> {
    match p
    case Running => None
    case Exited(status, guid, summary) =>
      if status == 0 && guid.Some? then None
      else if status == 0 then Some(OutputUnparseable)
      else Some(CommandFailed(if summary == "" then "pair failed" else summary))
    case PollError(error) => Some(error)
  }

  // ----- The record of a round -----

  datatype Cause = Discovery | Spawning(endpoint: Endpoint) | Polling(endpoint: Endpoint)

  datatype Failure = Failure(tick: nat, cause: Cause, error: WirelessError)

  /** When each process was started, and every failure in the order it was seen. */
  datatype History = History(born: map<Endpoint, nat>, log: seq<Failure>)

  /** A process lives from its start until the first poll that is not `Running`. */
  ghost predicate Alive(ticks: seq<Tick>, born: map<Endpoint, nat>, e: Endpoint, t: nat) {
    e in born && born[e] <= t && forall u :: born[e] <= u < t ==> PollAt(ticks, u, e) == Running
  }

  predicate NoDuplicates(s: seq<Endpoint>) {
    forall i, j :: 0 <= i < j < |s| ==> s[i] != s[j]
  }

  /** Processes are started only for endpoints on offer, and where starting succeeds. */
  ghost predicate BornOk(ticks: seq<Tick>, born: map<Endpoint, nat>, discovered: nat) {
    forall e :: e in born ==>
      && born[e] < discovered <= |ticks|
      && ticks[born[e]].found.Ok? && e in ticks[born[e]].found.value && ticks[born[e]].spawn(e) == None
  }

  /** At turn `t` nothing was on offer any more, after something had been. */
  ghost predicate LostAt(ticks: seq<Tick>, born: map<Endpoint, nat>, t: nat) {
    t < |ticks| && ticks[t].found == Ok([]) && exists e :: e in born && born[e] < t
  }

  /** The process of `e` was polled at turn `t` and found timed out. */
  ghost predicate TimesOutAt(ticks: seq<Tick>, born: map<Endpoint, nat>, e: Endpoint, t: nat) {
    Alive(ticks, born, e, t) && PollAt(ticks, t, e) == PollError(TimedOut)
  }

  ghost predicate WinsAt(ticks: seq<Tick>, born: map<Endpoint, nat>, e: Endpoint, t: nat) {
    Alive(ticks, born, e, t) && Wins(PollAt(ticks, t, e))
  }

  /** At turn `t` the start of `e` fails: of the endpoints on offer, those before it have their
      processes by then, it has none, and no other gets one in that turn. */
  ghost predicate FailingStart(ticks: seq<Tick>, born: map<Endpoint, nat>, t: nat, e: Endpoint, i: nat) {
    && t < |ticks| && ticks[t].found.Ok?
    && var matching := ticks[t].found.value;
       && i < |matching| && matching[i] == e && (e in born ==> born[e] > t)
       && (forall x :: x in matching[..i] ==> x in born && born[x] <= t)
       && (forall x :: x in born && born[x] == t ==> x in matching[..i])
  }

  ghost predicate StartStops(ticks: seq<Tick>, born: map<Endpoint, nat>, t: nat, e: Endpoint) {
    exists i: nat :: FailingStart(ticks, born, t, e, i)
  }

  ghost predicate FailureOk(ticks: seq<Tick>, born: map<Endpoint, nat>, f: Failure) {
    && f.tick < |ticks|
    && match f.cause
       case Discovery => ticks[f.tick].found == Err(f.error)
       case Spawning(e) =>
         ticks[f.tick].spawn(e) == Some(f.error) && StartStops(ticks, born, f.tick, e)
       case Polling(e) => Alive(ticks, born, e, f.tick) && PollFailure(PollAt(ticks, f.tick, e)) == Some(f.error)
  }

  /** The log holds real failures, in the order of their turns. */
  ghost predicate LogOk(ticks: seq<Tick>, h: History) {
    && (forall i :: 0 <= i < |h.log| ==> FailureOk(ticks, h.born, h.log[i]))
    && (forall i, j :: 0 <= i < j < |h.log| ==> h.log[i].tick <= h.log[j].tick)
  }

  /** Every process that failed in a turn before `t` is in the log. */
  ghost predicate PollsLogged(ticks: seq<Tick>, h: History, t: nat) {
    forall e, u: nat :: u < t && Alive(ticks, h.born, e, u) && PollFailure(PollAt(ticks, u, e)) != None ==>
      Failure(u, Polling(e), PollFailure(PollAt(ticks, u, e)).value) in h.log
  }

  ghost predicate StartFailed(h: History, t: nat) {
    exists f :: f in h.log && f.tick == t && f.cause.Spawning?
  }

  ghost predicate Offered(ticks: seq<Tick>, t: nat, e: Endpoint) {
    t < |ticks| && ticks[t].found.Ok? && e in ticks[t].found.value
  }

  /** Every endpoint on offer got its process, unless a start failed in that turn. */
  ghost predicate OffersTaken(ticks: seq<Tick>, h: History, discovered: nat) {
    forall e, u: nat :: u < discovered && Offered(ticks, u, e) ==>
      (e in h.born && h.born[e] <= u) || StartFailed(h, u)
  }

  // ----- The order of a round -----

  /** The order in which the processes were started. */
  ghost predicate StartedBefore(started: seq<Endpoint>, a: Endpoint, b: Endpoint) {
    exists i, j :: 0 <= i < j < |started| && started[i] == a && started[j] == b
  }

  ghost predicate InOrder(started: seq<Endpoint>, s: seq<Endpoint>) {
    forall i, j :: 0 <= i < j < |s| ==> StartedBefore(started, s[i], s[j])
  }

  /** In one turn endpoints are tried in the order in which they are on offer. */
  ghost predicate OfferedBefore(ticks: seq<Tick>, t: nat, a: Endpoint, b: Endpoint) {
    t < |ticks| && ticks[t].found.Ok?
    && exists i :: 0 <= i < |ticks[t].found.value| && ticks[t].found.value[i] == a
                   && b !in ticks[t].found.value[..i + 1]
  }

  ghost predicate StartsInOrder(ticks: seq<Tick>, born: map<Endpoint, nat>, started: seq<Endpoint>) {
    forall i, j :: 0 <= i < j < |started| && started[i] in born && started[j] in born ==>
      && born[started[i]] <= born[started[j]]
      && (born[started[i]] == born[started[j]] ==>
            OfferedBefore(ticks, born[started[i]], started[i], started[j]))
  }

  /** Which of two failures comes first: by turn; in one turn discovery and starts before
      polls; and polls in the order in which the processes were started. */
  ghost predicate Before(started: seq<Endpoint>, f: Failure, g: Failure) {
    || f.tick < g.tick
    || (f.tick == g.tick && g.cause.Polling?
        && (f.cause.Polling? ==> StartedBefore(started, f.cause.endpoint, g.cause.endpoint)))
  }

  ghost predicate Ordered(started: seq<Endpoint>, log: seq<Failure>) {
    forall i, j :: 0 <= i < j < |log| ==> Before(started, log[i], log[j])
  }

  /** `f` is a failure of the first turns: of the polls before turn `t`, or of the discoveries
      and starts before turn `d`. */
  ghost predicate Happened(ticks: seq<Tick>, born: map<Endpoint, nat>, f: Failure, t: nat, d: nat) {
    FailureOk(ticks, born, f) && f.tick < if f.cause.Polling? then t else d
  }

  /** The log holds exactly the failures that happened. */
  ghost predicate LogIs(ticks: seq<Tick>, h: History, t: nat, d: nat) {
    forall f :: f in h.log <==> Happened(ticks, h.born, f, t, d)
  }

  /** Of all failures of the first turns the earliest is with `error`. */
  ghost predicate FirstFailure(ticks: seq<Tick>, born: map<Endpoint, nat>, started: seq<Endpoint>, t: nat, d: nat,
                               error: WirelessError) {
    exists f :: Happened(ticks, born, f, t, d) && f.error == error && FirstOf(ticks, born, started, t, d, f)
  }

  ghost predicate FirstOf(ticks: seq<Tick>, born: map<Endpoint, nat>, started: seq<Endpoint>, t: nat, d: nat,
                          f: Failure) {
    forall g :: Happened(ticks, born, g, t, d) ==> g == f || Before(started, f, g)
  }

  /** What a failure is reported as: the error of the discovery or of the start; for a process that
      ended, what it wrote on its error output, unless it ended well but without a guid; or the
      error with which polling it failed. */
  ghost predicate Reported(ticks: seq<Tick>, f: Failure) {
    f.tick < |ticks|
    && match f.cause
       case Discovery => ticks[f.tick].found == Err(f.error)
       case Spawning(e) => ticks[f.tick].spawn(e) == Some(f.error)
       case Polling(e) =>
         match ticks[f.tick].poll(e)
         case Running => false
         case Exited(status, guid, summary) =>
           && (status == 0 ==> guid == None && f.error == OutputUnparseable)
           && (status != 0 && summary != "" ==> f.error == CommandFailed(summary))
           && (status != 0 && summary == "" ==> f.error == CommandFailed("pair failed"))
         case PollError(error) => f.error == error
  }

  lemma FailuresAreReported(ticks: seq<Tick>, born: map<Endpoint, nat>, f: Failure)
    requires FailureOk(ticks, born, f)
    ensures Reported(ticks, f)
  {
  }

  lemma FirstIsReported(ticks: seq<Tick>, born: map<Endpoint, nat>, started: seq<Endpoint>, t: nat, d: nat,
                        error: WirelessError)
    requires FirstFailure(ticks, born, started, t, d, error)
    ensures exists f :: Happened(ticks, born, f, t, d) && Reported(ticks, f)
                        && FirstOf(ticks, born, started, t, d, f) && error == f.error
  {
    hide FirstOf, FailureOk, Reported;
    var f :| Happened(ticks, born, f, t, d) && f.error == error && FirstOf(ticks, born, started, t, d, f);
    FailuresAreReported(ticks, born, f);
  }

  /** The log is complete, and everything is in its order. */
  ghost predicate Chronicle(ticks: seq<Tick>, t: nat, d: nat, pairs: seq<Endpoint>, started: seq<Endpoint>,
                            h: History) {
    && LogIs(ticks, h, t, d) && Ordered(started, h.log)
    && InOrder(started, pairs) && StartsInOrder(ticks, h.born, started)
  }

  lemma HeadIsFirst(ticks: seq<Tick>, t: nat, d: nat, started: seq<Endpoint>, h: History)
    requires LogIs(ticks, h, t, d) && Ordered(started, h.log) && h.log != []
    ensures FirstFailure(ticks, h.born, started, t, d, h.log[0].error)
  {
    hide Happened, Before;
    var f := h.log[0];
    assert f in h.log;
    forall g | Happened(ticks, h.born, g, t, d)
      ensures g == f || Before(started, f, g)
    {
      assert g in h.log;
      var j :| 0 <= j < |h.log| && h.log[j] == g;
    }
    assert FirstOf(ticks, h.born, started, t, d, f);
  }

  ghost predicate LostIs(ticks: seq<Tick>, h: History, discovered: nat, lost: bool) {
    lost <==> exists u: nat :: u < discovered && LostAt(ticks, h.born, u)
  }

  /** The variables of the loop, turns before `discovered` having been offered endpoints and
      turns before `t` having been polled. */
  ghost predicate Facts(ticks: seq<Tick>, t: nat, discovered: nat, pairs: seq<Endpoint>, spawned: seq<Endpoint>,
                        failure: Option<WirelessError>, timedOut: bool, h: History) {
    && t <= discovered <= |ticks|
    && NoDuplicates(pairs) && NoDuplicates(spawned)
    && (forall e :: e in pairs <==> Alive(ticks, h.born, e, t))
    && (forall e :: e in spawned <==> e in h.born)
    && BornOk(ticks, h.born, discovered)
    && LogOk(ticks, h) && PollsLogged(ticks, h, t)
    && (forall f :: f in h.log ==> f.tick < discovered)
    && failure == (if h.log == [] then None else Some(h.log[0].error))
    && (timedOut <==> exists e, u: nat :: u < t && TimesOutAt(ticks, h.born, e, u))
    && (forall e, u: nat :: u < t ==> !WinsAt(ticks, h.born, e, u))
  }

  function Log(h: History, f: Failure): History {
    h.(log := h.log + [f])
  }

  function Inserted(failure: Option<WirelessError>, error: WirelessError): Option<WirelessError> {
    if failure == None then Some(error) else failure
  }

  // ----- Starting processes -----

  lemma StartedMore(started: seq<Endpoint>, e: Endpoint, a: Endpoint, b: Endpoint)
    requires StartedBefore(started, a, b)
    ensures StartedBefore(started + [e], a, b)
  {
    var i, j :| 0 <= i < j < |started| && started[i] == a && started[j] == b;
    assert (started + [e])[i] == a && (started + [e])[j] == b;
  }

  lemma StartedLast(started: seq<Endpoint>, e: Endpoint, a: Endpoint)
    requires a in started
    ensures StartedBefore(started + [e], a, e)
  {
    var i :| 0 <= i < |started| && started[i] == a;
    assert (started + [e])[i] == a && (started + [e])[|started|] == e;
  }

  lemma OrderedMore(started: seq<Endpoint>, e: Endpoint, log: seq<Failure>)
    requires Ordered(started, log)
    ensures Ordered(started + [e], log)
  {
    hide StartedBefore;
    forall i, j | 0 <= i < j < |log|
      ensures Before(started + [e], log[i], log[j])
    {
      assert Before(started, log[i], log[j]);
      if log[i].cause.Polling? && log[j].cause.Polling?
         && StartedBefore(started, log[i].cause.endpoint, log[j].cause.endpoint) {
        StartedMore(started, e, log[i].cause.endpoint, log[j].cause.endpoint);
      }
    }
  }

  lemma InOrderMore(started: seq<Endpoint>, e: Endpoint, s: seq<Endpoint>)
    requires InOrder(started, s) && forall x :: x in s ==> x in started
    ensures InOrder(started + [e], s + [e])
  {
    hide StartedBefore;
    forall i, j | 0 <= i < j < |s + [e]|
      ensures StartedBefore(started + [e], (s + [e])[i], (s + [e])[j])
    {
      if j < |s| {
        StartedMore(started, e, s[i], s[j]);
      } else {
        StartedLast(started, e, s[i]);
      }
    }
  }

  /** The endpoints on offer before the `i`th have their processes, the `i`th has none. */
  ghost predicate Trying(ticks: seq<Tick>, born: map<Endpoint, nat>, t: nat, i: nat) {
    && t < |ticks| && ticks[t].found.Ok? && i <= |ticks[t].found.value|
    && (forall x :: x in ticks[t].found.value[..i] ==> x in born && born[x] <= t)
    && (forall x :: x in born && born[x] == t ==> x in ticks[t].found.value[..i])
  }

  lemma StartsInOrderMore(ticks: seq<Tick>, born: map<Endpoint, nat>, started: seq<Endpoint>, t: nat, i: nat)
    requires Trying(ticks, born, t, i) && i < |ticks[t].found.value|
    requires ticks[t].found.value[i] !in born && StartsInOrder(ticks, born, started)
    requires forall x :: x in started ==> x in born && born[x] <= t
    ensures var e := ticks[t].found.value[i]; StartsInOrder(ticks, born[e := t], started + [e])
  {
    hide OfferedBefore;
    var e := ticks[t].found.value[i];
    forall k | 0 <= k < |started| && born[started[k]] == t
      ensures OfferedBefore(ticks, t, started[k], e)
    {
      TriedBefore(ticks, born, t, i, started[k]);
    }
  }

  lemma TriedBefore(ticks: seq<Tick>, born: map<Endpoint, nat>, t: nat, i: nat, x: Endpoint)
    requires Trying(ticks, born, t, i) && i < |ticks[t].found.value|
    requires ticks[t].found.value[i] !in born && x in born && born[x] == t
    ensures OfferedBefore(ticks, t, x, ticks[t].found.value[i])
  {
    var matching := ticks[t].found.value;
    var k :| 0 <= k < |matching[..i]| && matching[..i][k] == x;
    assert forall y :: y in matching[..k + 1] ==> y in matching[..i];
  }

  lemma StartKeepsChronicle(ticks: seq<Tick>, t: nat, pairs: seq<Endpoint>, started: seq<Endpoint>, h: History, i: nat)
    requires Chronicle(ticks, t, t, pairs, started, h) && Trying(ticks, h.born, t, i) && i < |ticks[t].found.value|
    requires ticks[t].found.value[i] !in h.born
    requires forall x :: x in started ==> x in h.born && h.born[x] <= t
    requires forall x :: x in pairs ==> x in started
    ensures var e := ticks[t].found.value[i];
            Chronicle(ticks, t, t, pairs + [e], started + [e], h.(born := h.born[e := t]))
  {
    var e := ticks[t].found.value[i];
    hide FailureOk, InOrder, Ordered, StartsInOrder, Trying;
    forall f: Failure | f.tick < t
      ensures FailureOk(ticks, h.born, f) <==> FailureOk(ticks, h.born[e := t], f)
    {
      StartKeepsFailures(ticks, h.born, e, t, f);
    }
    OrderedMore(started, e, h.log);
    InOrderMore(started, e, pairs);
    StartsInOrderMore(ticks, h.born, started, t, i);
  }

  lemma LogLast(started: seq<Endpoint>, log: seq<Failure>, f: Failure)
    requires Ordered(started, log) && forall g :: g in log ==> Before(started, g, f)
    ensures Ordered(started, log + [f])
  {
    hide Before;
    assert forall i :: 0 <= i < |log| ==> log[i] in log;
  }

  /** Nothing failed in the first half of turn `t`. */
  lemma AllStarted(ticks: seq<Tick>, t: nat, pairs: seq<Endpoint>, started: seq<Endpoint>, h: History)
    requires Chronicle(ticks, t, t, pairs, started, h)
    requires t < |ticks| && ticks[t].found.Ok? && Trying(ticks, h.born, t, |ticks[t].found.value|)
    ensures Chronicle(ticks, t, t + 1, pairs, started, h)
  {
    hide PollFailure, Alive, InOrder, Ordered, StartsInOrder;
    var matching := ticks[t].found.value;
    assert matching[..|matching|] == matching;
  }

  /** The one failure of the first half of turn `t` is logged. */
  lemma TurnFails(ticks: seq<Tick>, t: nat, pairs: seq<Endpoint>, started: seq<Endpoint>, h: History, f: Failure)
    requires Chronicle(ticks, t, t, pairs, started, h) && f.tick == t && !f.cause.Polling?
    requires FailureOk(ticks, h.born, f)
    requires forall g :: FailureOk(ticks, h.born, g) && g.tick == t && !g.cause.Polling? ==> g == f
    ensures Chronicle(ticks, t, t + 1, pairs, started, Log(h, f))
  {
    hide FailureOk, InOrder, Ordered, StartsInOrder;
    assert forall x :: x in Log(h, f).log <==> x in h.log || x == f;
    LogLast(started, h.log, f);
  }

  lemma OnlyDiscovery(ticks: seq<Tick>, born: map<Endpoint, nat>, t: nat, g: Failure)
    requires t < |ticks| && ticks[t].found.Err? && FailureOk(ticks, born, g) && g.tick == t && !g.cause.Polling?
    ensures g == Failure(t, Discovery, ticks[t].found.error)
  {
  }

  lemma OnlyStart(ticks: seq<Tick>, born: map<Endpoint, nat>, t: nat, i: nat, g: Failure)
    requires Trying(ticks, born, t, i) && i < |ticks[t].found.value| && ticks[t].found.value[i] !in born
    requires ticks[t].spawn(ticks[t].found.value[i]) != None
    requires FailureOk(ticks, born, g) && g.tick == t && !g.cause.Polling?
    ensures var e := ticks[t].found.value[i]; g == Failure(t, Spawning(e), ticks[t].spawn(e).value)
  {
    var matching := ticks[t].found.value;
    assert g.cause.Spawning?;
    var k: nat :| FailingStart(ticks, born, t, g.cause.endpoint, k);
    PrefixHas(matching, k, i);
    PrefixHas(matching, i, k);
  }

  lemma PrefixHas(s: seq<Endpoint>, k: nat, i: nat)
    ensures k < i <= |s| ==> s[k] in s[..i]
  {
  }

  lemma StartIsFailing(ticks: seq<Tick>, born: map<Endpoint, nat>, t: nat, i: nat)
    requires Trying(ticks, born, t, i) && i < |ticks[t].found.value| && ticks[t].found.value[i] !in born
    requires ticks[t].spawn(ticks[t].found.value[i]) != None
    ensures var e := ticks[t].found.value[i];
            FailureOk(ticks, born, Failure(t, Spawning(e), ticks[t].spawn(e).value))
  {
    assert FailingStart(ticks, born, t, ticks[t].found.value[i], i);
  }

  lemma TurnDiscovered(ticks: seq<Tick>, t: nat, pairs: seq<Endpoint>, spawned: seq<Endpoint>,
                       failure: Option<WirelessError>, timedOut: bool, h: History)
    requires Facts(ticks, t, t, pairs, spawned, failure, timedOut, h) && t < |ticks|
    ensures Facts(ticks, t, t + 1, pairs, spawned, failure, timedOut, h)
    ensures forall f :: f in h.log ==> f.tick < t
  {
  }

  lemma StartKeepsAlive(ticks: seq<Tick>, born: map<Endpoint, nat>, e: Endpoint, t: nat, x: Endpoint, u: nat)
    requires e !in born
    ensures u < t ==> (Alive(ticks, born[e := t], x, u) <==> Alive(ticks, born, x, u))
    ensures Alive(ticks, born, x, u) ==> Alive(ticks, born[e := t], x, u)
    ensures Alive(ticks, born[e := t], x, t) <==> Alive(ticks, born, x, t) || x == e
  {
  }

  lemma StartKeepsFacts(ticks: seq<Tick>, t: nat, pairs: seq<Endpoint>, spawned: seq<Endpoint>,
                        failure: Option<WirelessError>, timedOut: bool, h: History, e: Endpoint)
    requires Facts(ticks, t, t + 1, pairs, spawned, failure, timedOut, h)
    requires e !in h.born && Offered(ticks, t, e) && ticks[t].spawn(e) == None
    requires forall f :: f in h.log ==> f.tick < t
    ensures Facts(ticks, t, t + 1, pairs + [e], spawned + [e], failure, timedOut, h.(born := h.born[e := t]))
  {
    hide Alive, LogOk, PollsLogged, BornOk;
    var after := h.(born := h.born[e := t]);
    StartKeepsRecord(ticks, t, h, e);
    forall x: Endpoint, u: nat
      ensures u < t ==> (Alive(ticks, after.born, x, u) <==> Alive(ticks, h.born, x, u))
      ensures Alive(ticks, after.born, x, t) <==> Alive(ticks, h.born, x, t) || x == e
    {
      StartKeepsAlive(ticks, h.born, e, t, x, u);
    }
    AliveIsBorn(ticks, h.born, e, t);
    assert forall x: Endpoint, u: nat :: u < t ==>
        TimesOutAt(ticks, after.born, x, u) == TimesOutAt(ticks, h.born, x, u);
    assert forall x: Endpoint, u: nat :: u < t ==> WinsAt(ticks, after.born, x, u) == WinsAt(ticks, h.born, x, u);
  }

  lemma StartKeepsRecord(ticks: seq<Tick>, t: nat, h: History, e: Endpoint)
    requires t < |ticks| && BornOk(ticks, h.born, t + 1) && LogOk(ticks, h) && PollsLogged(ticks, h, t)
    requires e !in h.born && Offered(ticks, t, e) && ticks[t].spawn(e) == None
    requires forall f :: f in h.log ==> f.tick < t
    ensures var after := h.(born := h.born[e := t]);
            BornOk(ticks, after.born, t + 1) && LogOk(ticks, after) && PollsLogged(ticks, after, t)
  {
    hide Alive, PollFailure;
    var after := h.(born := h.born[e := t]);
    forall x: Endpoint, u: nat
      ensures u < t ==> (Alive(ticks, after.born, x, u) <==> Alive(ticks, h.born, x, u))
      ensures Alive(ticks, h.born, x, u) ==> Alive(ticks, after.born, x, u)
    {
      StartKeepsAlive(ticks, h.born, e, t, x, u);
    }
    hide FailureOk;
    forall f: Failure | f.tick < t
      ensures FailureOk(ticks, h.born, f) <==> FailureOk(ticks, after.born, f)
    {
      StartKeepsFailures(ticks, h.born, e, t, f);
    }
    assert forall i :: 0 <= i < |h.log| ==> h.log[i] in h.log;
  }

  lemma StartKeepsFailures(ticks: seq<Tick>, born: map<Endpoint, nat>, e: Endpoint, t: nat, f: Failure)
    requires e !in born && f.tick < t
    ensures FailureOk(ticks, born, f) <==> FailureOk(ticks, born[e := t], f)
  {
    hide PollFailure, Alive, FailingStart;
    match f.cause
    case Discovery =>
    case Polling(x) => StartKeepsAlive(ticks, born, e, t, x, f.tick);
    case Spawning(x) =>
      if StartStops(ticks, born, f.tick, x) {
        var i: nat :| FailingStart(ticks, born, f.tick, x, i);
        StartKeepsFailingStart(ticks, born, e, t, f.tick, x, i);
      } else if StartStops(ticks, born[e := t], f.tick, x) {
        var i: nat :| FailingStart(ticks, born[e := t], f.tick, x, i);
        StartKeepsFailingStart(ticks, born, e, t, f.tick, x, i);
      }
  }

  lemma StartKeepsFailingStart(ticks: seq<Tick>, born: map<Endpoint, nat>, e: Endpoint, t: nat, u: nat, x: Endpoint,
                               i: nat)
    requires e !in born && u < t
    ensures FailingStart(ticks, born, u, x, i) <==> FailingStart(ticks, born[e := t], u, x, i)
  {
  }

  lemma AliveIsBorn(ticks: seq<Tick>, born: map<Endpoint, nat>, e: Endpoint, t: nat)
    requires e !in born
    ensures !Alive(ticks, born, e, t)
  {
  }

  lemma FailureKeepsFacts(ticks: seq<Tick>, t: nat, d: nat, pairs: seq<Endpoint>, spawned: seq<Endpoint>,
                          failure: Option<WirelessError>, timedOut: bool, h: History, f: Failure)
    requires Facts(ticks, t, d, pairs, spawned, failure, timedOut, h)
    requires f.tick + 1 == d && FailureOk(ticks, h.born, f)
    ensures Facts(ticks, t, d, pairs, spawned, Inserted(failure, f.error), timedOut, Log(h, f))
  {
    hide Alive, FailureOk, BornOk;
    assert forall x :: x in Log(h, f).log <==> x in h.log || x == f;
  }

  /** How the record grows in turn `t`: nothing is forgotten, and processes start now. */
  ghost predicate Grows(h: History, after: History, t: nat) {
    && h.log <= after.log
    && (forall e :: e in h.born ==> e in after.born && after.born[e] == h.born[e])
    && (forall e :: e in after.born && e !in h.born ==> after.born[e] == t)
  }

  /** Starts a process for every endpoint not tried before; the first failing start ends
      this turn's attempts, and ends the round if nothing else is in flight. */
  method StartEach(round: RoundState, ticks: seq<Tick>, t: nat, matching: seq<Endpoint>, pairs0: seq<Endpoint>,
                   spawned0: seq<Endpoint>, failure0: Option<WirelessError>, ghost timedOut: bool, ghost h0: History)
    returns (pairs: seq<Endpoint>, spawned: seq<Endpoint>, failure: Option<WirelessError>, dead: bool, ghost h: History)
    requires Facts(ticks, t, t, pairs0, spawned0, failure0, timedOut, h0) && t < |ticks|
    requires Chronicle(ticks, t, t, pairs0, spawned0, h0)
    requires ticks[t].found == Ok(matching) && (round.pairInFlight <==> pairs0 != [])
    modifies round`pairInFlight
    ensures Facts(ticks, t, t + 1, pairs, spawned, failure, timedOut, h) && Grows(h0, h, t)
    ensures Chronicle(ticks, t, t + 1, pairs, spawned, h)
    ensures round.pairInFlight <==> pairs != []
    ensures matching == [] ==> (pairs, spawned, h) == (pairs0, spawned0, h0) && !dead
    ensures !dead ==> forall e :: e in matching ==> e in h.born || StartFailed(h, t)
    ensures dead ==> pairs == [] && failure != None && StartFailed(h, t)
  {
    hide Starting, Facts, StartFailed, Chronicle, Grows, FailureOk;
    StartsTrying(ticks, t, pairs0, spawned0, failure0, timedOut, h0);
    pairs, spawned, failure, dead, h := pairs0, spawned0, failure0, false, h0;
    for i := 0 to |matching|
      invariant Starting(ticks, t, i, pairs, spawned, failure, timedOut, h0, h)
      invariant round.pairInFlight <==> pairs != []
      invariant i == 0 ==> (pairs, spawned, h) == (pairs0, spawned0, h0)
    {
      var e := matching[i];
      if e in spawned {
        SkipsStarted(ticks, t, i, pairs, spawned, failure, timedOut, h0, h);
        continue;
      }
      var problem := ticks[t].spawn(e);
      if problem != None {
        StopsAtFailure(ticks, t, i, pairs, spawned, failure, timedOut, h0, h);
        failure, h := Inserted(failure, problem.value), Log(h, Failure(t, Spawning(e), problem.value));
        dead := pairs == [];
        return;
      }
      StartsNext(ticks, t, i, pairs, spawned, failure, timedOut, h0, h);
      pairs, spawned, h := pairs + [e], spawned + [e], h.(born := h.born[e := t]);
      round.pairInFlight := true;
    }
    TriedAll(ticks, t, pairs, spawned, failure, timedOut, h0, h);
  }

  /** The state of `StartEach` before the `i`th endpoint on offer. */
  ghost predicate Starting(ticks: seq<Tick>, t: nat, i: nat, pairs: seq<Endpoint>, spawned: seq<Endpoint>,
                           failure: Option<WirelessError>, timedOut: bool, h0: History, h: History) {
    && Facts(ticks, t, t + 1, pairs, spawned, failure, timedOut, h) && Grows(h0, h, t)
    && h.log == h0.log && (forall f :: f in h.log ==> f.tick < t)
    && Chronicle(ticks, t, t, pairs, spawned, h) && Trying(ticks, h.born, t, i)
  }

  lemma StartsTrying(ticks: seq<Tick>, t: nat, pairs: seq<Endpoint>, spawned: seq<Endpoint>,
                     failure: Option<WirelessError>, timedOut: bool, h: History)
    requires Facts(ticks, t, t, pairs, spawned, failure, timedOut, h) && t < |ticks| && ticks[t].found.Ok?
    requires Chronicle(ticks, t, t, pairs, spawned, h)
    ensures Starting(ticks, t, 0, pairs, spawned, failure, timedOut, h, h)
  {
    NothingTried(ticks, t, pairs, spawned, failure, timedOut, h);
    TurnDiscovered(ticks, t, pairs, spawned, failure, timedOut, h);
    hide Facts, Chronicle, Trying;
  }

  lemma SkipsStarted(ticks: seq<Tick>, t: nat, i: nat, pairs: seq<Endpoint>, spawned: seq<Endpoint>,
                     failure: Option<WirelessError>, timedOut: bool, h0: History, h: History)
    requires Starting(ticks, t, i, pairs, spawned, failure, timedOut, h0, h)
    requires t < |ticks| && ticks[t].found.Ok? && i < |ticks[t].found.value| && ticks[t].found.value[i] in spawned
    ensures Starting(ticks, t, i + 1, pairs, spawned, failure, timedOut, h0, h)
  {
    hide Facts, Chronicle, Trying, Grows;
    SpawnedIsBorn(ticks, t, t + 1, pairs, spawned, failure, timedOut, h, ticks[t].found.value[i]);
    TryingNext(ticks, h.born, t, i);
  }

  lemma StartsNext(ticks: seq<Tick>, t: nat, i: nat, pairs: seq<Endpoint>, spawned: seq<Endpoint>,
                   failure: Option<WirelessError>, timedOut: bool, h0: History, h: History)
    requires Starting(ticks, t, i, pairs, spawned, failure, timedOut, h0, h)
    requires t < |ticks| && ticks[t].found.Ok? && i < |ticks[t].found.value| && ticks[t].found.value[i] !in spawned
    requires ticks[t].spawn(ticks[t].found.value[i]) == None
    ensures var e := ticks[t].found.value[i];
            Starting(ticks, t, i + 1, pairs + [e], spawned + [e], failure, timedOut, h0, h.(born := h.born[e := t]))
  {
    hide Facts, Chronicle, Trying;
    var e := ticks[t].found.value[i];
    SpawnedIsBorn(ticks, t, t + 1, pairs, spawned, failure, timedOut, h, e);
    TryingNext(ticks, h.born, t, i);
    StartKeepsChronicle(ticks, t, pairs, spawned, h, i);
    StartKeepsFacts(ticks, t, pairs, spawned, failure, timedOut, h, e);
  }

  lemma StopsAtFailure(ticks: seq<Tick>, t: nat, i: nat, pairs: seq<Endpoint>, spawned: seq<Endpoint>,
                       failure: Option<WirelessError>, timedOut: bool, h0: History, h: History)
    requires Starting(ticks, t, i, pairs, spawned, failure, timedOut, h0, h)
    requires t < |ticks| && ticks[t].found.Ok? && i < |ticks[t].found.value| && ticks[t].found.value[i] !in spawned
    requires ticks[t].spawn(ticks[t].found.value[i]) != None
    ensures var e := ticks[t].found.value[i];
            var f := Failure(t, Spawning(e), ticks[t].spawn(e).value);
            var after := Log(h, f);
            && Facts(ticks, t, t + 1, pairs, spawned, Inserted(failure, f.error), timedOut, after)
            && Grows(h0, after, t) && StartFailed(after, t) && Chronicle(ticks, t, t + 1, pairs, spawned, after)
  {
    var e := ticks[t].found.value[i];
    var f := Failure(t, Spawning(e), ticks[t].spawn(e).value);
    hide Facts, Chronicle, Trying, FailureOk, StartFailed, Grows, BornOk;
    SpawnedIsBorn(ticks, t, t + 1, pairs, spawned, failure, timedOut, h, e);
    StartIsFailing(ticks, h.born, t, i);
    FailureKeepsFacts(ticks, t, t + 1, pairs, spawned, failure, timedOut, h, f);
    StartFailsTurn(ticks, t, i, pairs, spawned, h);
    LogsStart(h, f);
    LogGrows(h0, h, t, f);
  }

  /** A failing start is the one failure of its turn before the polls. */
  lemma StartFailsTurn(ticks: seq<Tick>, t: nat, i: nat, pairs: seq<Endpoint>, spawned: seq<Endpoint>, h: History)
    requires Chronicle(ticks, t, t, pairs, spawned, h) && Trying(ticks, h.born, t, i)
    requires i < |ticks[t].found.value| && ticks[t].found.value[i] !in h.born
    requires ticks[t].spawn(ticks[t].found.value[i]) != None
    ensures var e := ticks[t].found.value[i];
            Chronicle(ticks, t, t + 1, pairs, spawned, Log(h, Failure(t, Spawning(e), ticks[t].spawn(e).value)))
  {
    var e := ticks[t].found.value[i];
    var f := Failure(t, Spawning(e), ticks[t].spawn(e).value);
    StartIsFailing(ticks, h.born, t, i);
    hide Chronicle, FailureOk;
    forall g | FailureOk(ticks, h.born, g) && g.tick == t && !g.cause.Polling?
      ensures g == f
    {
      OnlyStart(ticks, h.born, t, i, g);
    }
    TurnFails(ticks, t, pairs, spawned, h, f);
  }

  lemma LogGrows(h0: History, h: History, t: nat, f: Failure)
    requires Grows(h0, h, t)
    ensures Grows(h0, Log(h, f), t)
  {
  }

  lemma TriedAll(ticks: seq<Tick>, t: nat, pairs: seq<Endpoint>, spawned: seq<Endpoint>,
                 failure: Option<WirelessError>, timedOut: bool, h0: History, h: History)
    requires t < |ticks| && ticks[t].found.Ok?
    requires Starting(ticks, t, |ticks[t].found.value|, pairs, spawned, failure, timedOut, h0, h)
    ensures Facts(ticks, t, t + 1, pairs, spawned, failure, timedOut, h) && Grows(h0, h, t)
    ensures Chronicle(ticks, t, t + 1, pairs, spawned, h)
    ensures forall e :: e in ticks[t].found.value ==> e in h.born
  {
    var matching := ticks[t].found.value;
    assert matching[..|matching|] == matching;
    assert forall e :: e in matching ==> e in h.born;
    hide Facts, Chronicle, Trying, Grows;
    AllStarted(ticks, t, pairs, spawned, h);
  }

  lemma NothingTried(ticks: seq<Tick>, t: nat, pairs: seq<Endpoint>, spawned: seq<Endpoint>,
                     failure: Option<WirelessError>, timedOut: bool, h: History)
    requires Facts(ticks, t, t, pairs, spawned, failure, timedOut, h) && t < |ticks| && ticks[t].found.Ok?
    ensures Trying(ticks, h.born, t, 0)
  {
  }

  /** One endpoint further on, it having its process or getting it now. */
  lemma TryingNext(ticks: seq<Tick>, born: map<Endpoint, nat>, t: nat, i: nat)
    requires t < |ticks| && BornOk(ticks, born, t + 1)
    requires Trying(ticks, born, t, i) && i < |ticks[t].found.value|
    ensures var e := ticks[t].found.value[i];
            Trying(ticks, if e in born then born else born[e := t], t, i + 1)
  {
    var matching := ticks[t].found.value;
    assert matching[..i + 1] == matching[..i] + [matching[i]];
  }

  lemma LogsStart(h: History, f: Failure)
    requires f.cause.Spawning?
    ensures StartFailed(Log(h, f), f.tick) && h.log <= Log(h, f).log
  {
    assert f in Log(h, f).log;
  }

  lemma SpawnedIsBorn(ticks: seq<Tick>, t: nat, d: nat, pairs: seq<Endpoint>, spawned: seq<Endpoint>,
                      failure: Option<WirelessError>, timedOut: bool, h: History, e: Endpoint)
    requires Facts(ticks, t, d, pairs, spawned, failure, timedOut, h)
    ensures e in spawned <==> e in h.born
    ensures BornOk(ticks, h.born, d) && (forall x :: x in spawned ==> x in h.born && h.born[x] < d)
    ensures forall x :: x in pairs ==> x in spawned
  {
  }

  // ----- Polling -----

  /** Polling has got as far as `live[..j]`: those still running are kept. */
  ghost predicate Polled(ticks: seq<Tick>, t: nat, live: seq<Endpoint>, j: nat, kept: seq<Endpoint>,
                         failure: Option<WirelessError>, timedOut0: bool, timedOut: bool, h0: History, h: History) {
    && j <= |live| && NoDuplicates(kept)
    && (forall e :: e in kept <==> e in live[..j] && PollAt(ticks, t, e) == Running)
    && h.born == h0.born && h0.log <= h.log
    && (forall i :: |h0.log| <= i < |h.log| ==>
          && h.log[i].tick == t && h.log[i].cause.Polling? && h.log[i].cause.endpoint in live
          && PollFailure(PollAt(ticks, t, h.log[i].cause.endpoint)) == Some(h.log[i].error))
    && (forall e :: e in live[..j] && PollFailure(PollAt(ticks, t, e)) != None ==>
          Failure(t, Polling(e), PollFailure(PollAt(ticks, t, e)).value) in h.log)
    && failure == (if h.log == [] then None else Some(h.log[0].error))
    && (timedOut <==> timedOut0 || exists e :: e in live[..j] && PollAt(ticks, t, e) == PollError(TimedOut))
    && (forall e :: e in live[..j] ==> !Wins(PollAt(ticks, t, e)))
  }

  /** What polling in starting order means for those kept and for the log. */
  ghost predicate PolledInOrder(t: nat, live: seq<Endpoint>, j: nat, kept: seq<Endpoint>, started: seq<Endpoint>,
                                h: History) {
    && j <= |live| && InOrder(started, live) && InOrder(started, kept) && (forall x :: x in kept ==> x in live[..j])
    && Ordered(started, h.log) && (forall f :: f in h.log ==> f.tick <= t)
    && forall f :: f in h.log && f.tick == t && f.cause.Polling? ==> f.cause.endpoint in live[..j]
  }

  lemma LiveBefore(started: seq<Endpoint>, live: seq<Endpoint>, j: nat, x: Endpoint)
    requires InOrder(started, live) && j < |live| && x in live[..j]
    ensures StartedBefore(started, x, live[j])
  {
    var i :| 0 <= i < |live[..j]| && live[..j][i] == x;
  }

  lemma KeptInOrder(t: nat, live: seq<Endpoint>, j: nat, kept: seq<Endpoint>, started: seq<Endpoint>, h: History)
    requires PolledInOrder(t, live, j, kept, started, h) && j < |live|
    ensures PolledInOrder(t, live, j + 1, kept + [live[j]], started, h)
  {
    hide StartedBefore, Ordered;
    assert live[..j + 1] == live[..j] + [live[j]];
    forall x | x in kept
      ensures StartedBefore(started, x, live[j])
    {
      LiveBefore(started, live, j, x);
    }
    assert forall i :: 0 <= i < |kept| ==> kept[i] in kept;
  }

  lemma RemovedInOrder(t: nat, live: seq<Endpoint>, j: nat, kept: seq<Endpoint>, started: seq<Endpoint>, h: History,
                       error: WirelessError)
    requires PolledInOrder(t, live, j, kept, started, h) && j < |live|
    ensures PolledInOrder(t, live, j + 1, kept, started, Log(h, Failure(t, Polling(live[j]), error)))
  {
    hide StartedBefore, Ordered, InOrder;
    assert live[..j + 1] == live[..j] + [live[j]];
    var f := Failure(t, Polling(live[j]), error);
    assert forall x :: x in Log(h, f).log <==> x in h.log || x == f;
    forall g | g in h.log
      ensures Before(started, g, f)
    {
      if g.tick == t && g.cause.Polling? {
        LiveBefore(started, live, j, g.cause.endpoint);
      }
    }
    LogLast(started, h.log, f);
  }

  lemma NothingPolledYet(ticks: seq<Tick>, t: nat, live: seq<Endpoint>, started: seq<Endpoint>, h: History)
    requires Chronicle(ticks, t, t + 1, live, started, h)
    ensures PolledInOrder(t, live, 0, [], started, h)
  {
    hide FailureOk, StartsInOrder;
  }

  /** After all polls of turn `t` the chronicle has reached the next turn. */
  lemma PollsChronicled(ticks: seq<Tick>, t: nat, live: seq<Endpoint>, pairs: seq<Endpoint>, started: seq<Endpoint>,
                        failure: Option<WirelessError>, timedOut0: bool, timedOut: bool, h0: History, h: History)
    requires Chronicle(ticks, t, t + 1, live, started, h0) && t < |ticks|
    requires forall e :: e in live <==> Alive(ticks, h0.born, e, t)
    requires Polled(ticks, t, live, |live|, pairs, failure, timedOut0, timedOut, h0, h)
    requires PolledInOrder(t, live, |live|, pairs, started, h)
    ensures Chronicle(ticks, t + 1, t + 1, pairs, started, h)
  {
    hide InOrder, Ordered, StartsInOrder, Alive, PollFailure;
    assert live[..|live|] == live;
    forall f
      ensures f in h.log <==> Happened(ticks, h.born, f, t + 1, t + 1)
    {
      if f in h.log {
        var i :| 0 <= i < |h.log| && h.log[i] == f;
        assert i < |h0.log| ==> f in h0.log;
      }
      assert f in h0.log ==> f in h.log;
    }
  }

  lemma PollKeeps(ticks: seq<Tick>, t: nat, live: seq<Endpoint>, j: nat, kept: seq<Endpoint>,
                  failure: Option<WirelessError>, timedOut0: bool, timedOut: bool, h0: History, h: History)
    requires Polled(ticks, t, live, j, kept, failure, timedOut0, timedOut, h0, h) && NoDuplicates(live)
    requires j < |live| && PollAt(ticks, t, live[j]) == Running
    ensures Polled(ticks, t, live, j + 1, kept + [live[j]], failure, timedOut0, timedOut, h0, h)
  {
    assert live[..j + 1] == live[..j] + [live[j]];
    assert live[j] !in live[..j];
  }

  lemma PollRemoves(ticks: seq<Tick>, t: nat, live: seq<Endpoint>, j: nat, kept: seq<Endpoint>,
                    failure: Option<WirelessError>, timedOut0: bool, timedOut: bool, h0: History, h: History,
                    error: WirelessError)
    requires Polled(ticks, t, live, j, kept, failure, timedOut0, timedOut, h0, h)
    requires j < |live| && PollFailure(PollAt(ticks, t, live[j])) == Some(error)
    ensures Polled(ticks, t, live, j + 1, kept, Inserted(failure, error), timedOut0,
                   timedOut || PollAt(ticks, t, live[j]) == PollError(TimedOut), h0,
                   Log(h, Failure(t, Polling(live[j]), error)))
  {
    assert live[..j + 1] == live[..j] + [live[j]];
    var f := Failure(t, Polling(live[j]), error);
    assert forall x :: x in Log(h, f).log <==> x in h.log || x == f;
  }

  lemma NothingPolled(ticks: seq<Tick>, t: nat, d: nat, live: seq<Endpoint>, spawned: seq<Endpoint>,
                      failure: Option<WirelessError>, timedOut: bool, h: History)
    requires Facts(ticks, t, d, live, spawned, failure, timedOut, h)
    ensures Polled(ticks, t, live, 0, [], failure, timedOut, timedOut, h, h) && NoDuplicates(live)
  {
  }

  function Removed(s: seq<Endpoint>, i: nat): seq<Endpoint>
    requires i < |s|
  {
    s[..i] + s[i + 1..]
  }

  /** What is left while polling: those kept, then those still to be polled. */
  function Left(kept: seq<Endpoint>, live: seq<Endpoint>, j: nat): seq<Endpoint>
    requires j <= |live|
  {
    kept + live[j..]
  }

  lemma Without(live: seq<Endpoint>, kept: seq<Endpoint>, j: nat)
    requires j < |live|
    ensures |Left(kept, live, j)| == |kept| + |live| - j && Left(kept, live, j)[|kept|] == live[j]
    ensures Removed(Left(kept, live, j), |kept|) == Left(kept, live, j + 1)
    ensures Left(kept, live, j) == Left(kept + [live[j]], live, j + 1)
  {
  }

  lemma LeftBounds(live: seq<Endpoint>, kept: seq<Endpoint>, j: nat)
    requires j <= |live|
    ensures |Left(kept, live, j)| == |kept| + |live| - j
    ensures j == |live| ==> Left(kept, live, j) == kept
    ensures Left([], live, 0) == live
  {
  }

  /** Polls every process once, in the order they were started. */
  method PollAll(ticks: seq<Tick>, t: nat, live: seq<Endpoint>, spawned: seq<Endpoint>,
                 failure0: Option<WirelessError>, timedOut0: bool, ghost h0: History)
    returns (won: Option<Guid>, pairs: seq<Endpoint>, failure: Option<WirelessError>, timedOut: bool, ghost h: History)
    requires t < |ticks| && Facts(ticks, t, t + 1, live, spawned, failure0, timedOut0, h0)
    requires Chronicle(ticks, t, t + 1, live, spawned, h0)
    ensures won == None ==> Polled(ticks, t, live, |live|, pairs, failure, timedOut0, timedOut, h0, h)
    ensures won == None ==> PolledInOrder(t, live, |live|, pairs, spawned, h)
    ensures won != None ==> pairs != [] && exists k :: 0 <= k < |live| && FirstWinner(ticks, t, live, k, won)
  {
    hide Facts, PollFailure, Wins, PollAt, Inserted, Log, Chronicle, PollingAt, Removed, Left, FirstWinner;
    StartsPolling(ticks, t, live, spawned, failure0, timedOut0, h0);
    LeftBounds(live, [], 0);
    won, pairs, failure, timedOut, h := None, live, failure0, timedOut0, h0;
    var index := 0;
    ghost var j := 0;
    ghost var kept := [];
    while index < |pairs|
      invariant j <= |live| && pairs == Left(kept, live, j) && index == |kept|
      invariant PollingAt(ticks, t, live, j, kept, spawned, failure, timedOut0, timedOut, h0, h)
      decreases |live| - j
    {
      LeftBounds(live, kept, j);
      Without(live, kept, j);
      var poll := ticks[t].poll(pairs[index]);
      PollIs(ticks, t, live[j]);
      if poll == Running {
        StaysPolled(ticks, t, live, j, kept, spawned, failure, timedOut0, timedOut, h0, h);
        kept, j, index := kept + [live[j]], j + 1, index + 1;
        continue;
      }
      Ended(poll);
      if poll.Exited? && poll.status == 0 && poll.guid != None {
        won := poll.guid;
        IsFirstWinner(ticks, t, live, j, kept, spawned, failure, timedOut0, timedOut, h0, h, won);
        return;
      }
      var error := PollFailure(poll).value;
      IsRemoved(ticks, t, live, j, kept, spawned, failure, timedOut0, timedOut, h0, h, error);
      if poll == PollError(TimedOut) {
        timedOut := true;
      }
      pairs := Removed(pairs, index);
      failure, h := Inserted(failure, error), Log(h, Failure(t, Polling(live[j]), error));
      j := j + 1;
    }
    LeftBounds(live, kept, j);
    PolledAll(ticks, t, live, j, kept, spawned, failure, timedOut0, timedOut, h0, h);
  }

  ghost predicate PollingAt(ticks: seq<Tick>, t: nat, live: seq<Endpoint>, j: nat, kept: seq<Endpoint>,
                            started: seq<Endpoint>, failure: Option<WirelessError>, timedOut0: bool, timedOut: bool,
                            h0: History, h: History) {
    && NoDuplicates(live) && Polled(ticks, t, live, j, kept, failure, timedOut0, timedOut, h0, h)
    && PolledInOrder(t, live, j, kept, started, h)
  }

  lemma StartsPolling(ticks: seq<Tick>, t: nat, live: seq<Endpoint>, started: seq<Endpoint>,
                      failure: Option<WirelessError>, timedOut: bool, h: History)
    requires Facts(ticks, t, t + 1, live, started, failure, timedOut, h) && Chronicle(ticks, t, t + 1, live, started, h)
    ensures PollingAt(ticks, t, live, 0, [], started, failure, timedOut, timedOut, h, h)
  {
    hide Facts, Chronicle, Polled, PolledInOrder;
    NothingPolled(ticks, t, t + 1, live, started, failure, timedOut, h);
    NothingPolledYet(ticks, t, live, started, h);
  }

  lemma StaysPolled(ticks: seq<Tick>, t: nat, live: seq<Endpoint>, j: nat, kept: seq<Endpoint>,
                    started: seq<Endpoint>, failure: Option<WirelessError>, timedOut0: bool, timedOut: bool,
                    h0: History, h: History)
    requires PollingAt(ticks, t, live, j, kept, started, failure, timedOut0, timedOut, h0, h)
    requires j < |live| && PollAt(ticks, t, live[j]) == Running
    ensures PollingAt(ticks, t, live, j + 1, kept + [live[j]], started, failure, timedOut0, timedOut, h0, h)
  {
    hide Polled, PolledInOrder;
    PollKeeps(ticks, t, live, j, kept, failure, timedOut0, timedOut, h0, h);
    KeptInOrder(t, live, j, kept, started, h);
  }

  lemma IsRemoved(ticks: seq<Tick>, t: nat, live: seq<Endpoint>, j: nat, kept: seq<Endpoint>,
                  started: seq<Endpoint>, failure: Option<WirelessError>, timedOut0: bool, timedOut: bool,
                  h0: History, h: History, error: WirelessError)
    requires PollingAt(ticks, t, live, j, kept, started, failure, timedOut0, timedOut, h0, h)
    requires j < |live| && PollFailure(PollAt(ticks, t, live[j])) == Some(error)
    ensures PollingAt(ticks, t, live, j + 1, kept, started, Inserted(failure, error), timedOut0,
                      timedOut || PollAt(ticks, t, live[j]) == PollError(TimedOut), h0,
                      Log(h, Failure(t, Polling(live[j]), error)))
  {
    hide Polled, PolledInOrder;
    PollRemoves(ticks, t, live, j, kept, failure, timedOut0, timedOut, h0, h, error);
    RemovedInOrder(t, live, j, kept, started, h, error);
  }

  lemma PolledAll(ticks: seq<Tick>, t: nat, live: seq<Endpoint>, j: nat, kept: seq<Endpoint>,
                  started: seq<Endpoint>, failure: Option<WirelessError>, timedOut0: bool, timedOut: bool,
                  h0: History, h: History)
    requires PollingAt(ticks, t, live, j, kept, started, failure, timedOut0, timedOut, h0, h)
    ensures Polled(ticks, t, live, j, kept, failure, timedOut0, timedOut, h0, h)
    ensures PolledInOrder(t, live, j, kept, started, h)
  {
  }

  /** The `k`th process wins, and none polled before it does. */
  ghost predicate FirstWinner(ticks: seq<Tick>, t: nat, live: seq<Endpoint>, k: nat, guid: Option<Guid>)
    requires k < |live|
  {
    WinsWith(PollAt(ticks, t, live[k]), guid) && forall x :: x in live[..k] ==> !Wins(PollAt(ticks, t, x))
  }

  lemma IsFirstWinner(ticks: seq<Tick>, t: nat, live: seq<Endpoint>, j: nat, kept: seq<Endpoint>,
                      started: seq<Endpoint>, failure: Option<WirelessError>, timedOut0: bool, timedOut: bool,
                      h0: History, h: History, guid: Option<Guid>)
    requires PollingAt(ticks, t, live, j, kept, started, failure, timedOut0, timedOut, h0, h) && j < |live|
    requires WinsWith(PollAt(ticks, t, live[j]), guid)
    ensures FirstWinner(ticks, t, live, j, guid)
  {
    hide PolledInOrder;
  }

  lemma Ended(p: Poll)
    requires p != Running
    ensures Wins(p) <==> p.Exited? && p.status == 0 && p.guid != None
    ensures !Wins(p) <==> PollFailure(p) != None
  {
  }

  lemma AliveNext(ticks: seq<Tick>, born: map<Endpoint, nat>, e: Endpoint, t: nat)
    requires e in born ==> born[e] <= t
    ensures Alive(ticks, born, e, t + 1) <==> Alive(ticks, born, e, t) && PollAt(ticks, t, e) == Running
  {
    if Alive(ticks, born, e, t) && PollAt(ticks, t, e) == Running {
      forall u | born[e] <= u < t + 1
        ensures PollAt(ticks, u, e) == Running
      {
      }
    }
  }

  lemma PollsDone(ticks: seq<Tick>, t: nat, live: seq<Endpoint>, spawned: seq<Endpoint>, pairs: seq<Endpoint>,
                  failure0: Option<WirelessError>, timedOut0: bool, failure: Option<WirelessError>, timedOut: bool,
                  h0: History, h: History)
    requires t < |ticks| && Facts(ticks, t, t + 1, live, spawned, failure0, timedOut0, h0)
    requires Polled(ticks, t, live, |live|, pairs, failure, timedOut0, timedOut, h0, h)
    ensures Facts(ticks, t + 1, t + 1, pairs, spawned, failure, timedOut, h)
  {
    hide Alive, PollFailure, LogOk, PollsLogged, BornOk;
    assert live[..|live|] == live;
    forall e: Endpoint
      ensures Alive(ticks, h.born, e, t + 1) <==> e in pairs
    {
      assert e in h.born ==> h.born[e] <= t by {
        BornBefore(ticks, h.born, t + 1, e);
      }
      AliveNext(ticks, h.born, e, t);
    }
    PollsDoneLog(ticks, t, live, spawned, pairs, failure0, timedOut0, failure, timedOut, h0, h);
    PollsDoneTimes(ticks, t, live, timedOut0, timedOut, h.born);
  }

  lemma BornBefore(ticks: seq<Tick>, born: map<Endpoint, nat>, d: nat, e: Endpoint)
    requires BornOk(ticks, born, d)
    ensures e in born ==> born[e] < d
  {
  }

  lemma PollsDoneTimes(ticks: seq<Tick>, t: nat, live: seq<Endpoint>, timedOut0: bool, timedOut: bool,
                       born: map<Endpoint, nat>)
    requires forall e :: e in live <==> Alive(ticks, born, e, t)
    requires timedOut0 <==> exists e, u: nat :: u < t && TimesOutAt(ticks, born, e, u)
    requires timedOut <==> timedOut0 || exists e :: e in live && PollAt(ticks, t, e) == PollError(TimedOut)
    ensures timedOut <==> exists e, u: nat :: u < t + 1 && TimesOutAt(ticks, born, e, u)
  {
    hide Alive;
    if timedOut && !timedOut0 {
      var e :| e in live && PollAt(ticks, t, e) == PollError(TimedOut);
      assert TimesOutAt(ticks, born, e, t);
    }
    if e, u: nat :| u < t + 1 && TimesOutAt(ticks, born, e, u) {
      assert u < t || u == t;
    }
  }

  lemma PollsDoneLog(ticks: seq<Tick>, t: nat, live: seq<Endpoint>, spawned: seq<Endpoint>, pairs: seq<Endpoint>,
                     failure0: Option<WirelessError>, timedOut0: bool, failure: Option<WirelessError>, timedOut: bool,
                     h0: History, h: History)
    requires t < |ticks| && Facts(ticks, t, t + 1, live, spawned, failure0, timedOut0, h0)
    requires Polled(ticks, t, live, |live|, pairs, failure, timedOut0, timedOut, h0, h)
    ensures LogOk(ticks, h) && PollsLogged(ticks, h, t + 1)
    ensures forall f :: f in h.log ==> f.tick < t + 1
  {
    hide Alive, PollFailure, BornOk;
    assert live[..|live|] == live;
    forall i | 0 <= i < |h.log|
      ensures FailureOk(ticks, h.born, h.log[i]) && h.log[i].tick <= t && (|h0.log| <= i ==> h.log[i].tick == t)
    {
      if i < |h0.log| {
        assert h.log[i] == h0.log[i];
        assert h0.log[i] in h0.log;
      }
    }
    forall i, j | 0 <= i < j < |h.log|
      ensures h.log[i].tick <= h.log[j].tick
    {
      if j < |h0.log| {
        assert h.log[i] == h0.log[i] && h.log[j] == h0.log[j];
      }
    }
    forall e, u: nat | u < t + 1 && Alive(ticks, h.born, e, u) && PollFailure(PollAt(ticks, u, e)) != None
      ensures Failure(u, Polling(e), PollFailure(PollAt(ticks, u, e)).value) in h.log
    {
      assert forall f :: f in h0.log ==> f in h.log;
      assert u == t ==> e in live[..|live|];
    }
  }

  // ----- The round -----

  /** How a round without a winner ends: event and error come from the same cause. */
  function Classify(lost: bool, timedOut: bool, first: WirelessError): (RoundEvent, WirelessError) {
    if lost then (ServiceLost, ServiceGone)
    else if timedOut then (PairTimedOut, TimedOut)
    else (PairFailed, first)
  }

  /** The process of a started endpoint that is gone without having won has left a failure. */
  lemma {:induction false} DeathIsLogged(ticks: seq<Tick>, h: History, e: Endpoint, t: nat, d: nat)
    requires BornOk(ticks, h.born, d) && PollsLogged(ticks, h, t)
    requires forall x, u: nat :: u < t ==> !WinsAt(ticks, h.born, x, u)
    requires e in h.born && h.born[e] <= t && !Alive(ticks, h.born, e, t)
    ensures h.log != []
    decreases t
  {
    hide PollFailure, Wins;
    var u := t - 1;
    AliveNext(ticks, h.born, e, u);
    if Alive(ticks, h.born, e, u) {
      assert !WinsAt(ticks, h.born, e, u);
      Ended(PollAt(ticks, u, e));
    } else {
      DeathIsLogged(ticks, h, e, u, d);
    }
  }

  /** The loop having gone on, if nothing is in flight at its head then nothing was ever
      started, nothing has failed, and no lost service or timeout is pending. */
  lemma IdleHead(ticks: seq<Tick>, t: nat, pairs: seq<Endpoint>, spawned: seq<Endpoint>,
                 failure: Option<WirelessError>, timedOut: bool, lost: bool, h: History)
    requires Facts(ticks, t, t, pairs, spawned, failure, timedOut, h) && LostIs(ticks, h, t, lost)
    requires pairs == [] ==> failure == None
    ensures pairs == [] ==> spawned == [] && h == History(map[], []) && !timedOut && !lost
  {
    hide LogOk, PollsLogged, BornOk, Alive;
    if pairs == [] {
      forall e | e in h.born
        ensures false
      {
        BornBefore(ticks, h.born, t, e);
        DeathIsLogged(ticks, h, e, t, t);
      }
      assert h.born == map[];
      SpawnedOrNot(spawned, h.born);
      NoneAlive(ticks, h.born);
    }
  }

  lemma NoneAlive(ticks: seq<Tick>, born: map<Endpoint, nat>)
    requires born == map[]
    ensures forall e, u :: !Alive(ticks, born, e, u)
  {
  }

  lemma LostStays(ticks: seq<Tick>, t: nat, h: History, after: History, lost: bool, lostNow: bool)
    requires t < |ticks| && LostIs(ticks, h, t, lost) && Grows(h, after, t) && BornOk(ticks, h.born, t)
    requires lostNow <==> lost || (ticks[t].found == Ok([]) && h.born != map[])
    ensures LostIs(ticks, after, t + 1, lostNow)
  {
    hide BornOk;
    forall u: nat | u < t + 1
      ensures LostAt(ticks, h.born, u) <==> LostAt(ticks, after.born, u)
    {
    }
    assert LostAt(ticks, h.born, t) <==> ticks[t].found == Ok([]) && h.born != map[] by {
      if h.born != map[] {
        var e :| e in h.born;
        BornBefore(ticks, h.born, t, e);
      }
    }
    LostOneMore(ticks, t, h, after, lost);
  }

  lemma LostOneMore(ticks: seq<Tick>, t: nat, h: History, after: History, lost: bool)
    requires LostIs(ticks, h, t, lost)
    requires forall u: nat :: u < t + 1 ==> (LostAt(ticks, h.born, u) <==> LostAt(ticks, after.born, u))
    ensures LostIs(ticks, after, t + 1, lost || LostAt(ticks, h.born, t))
  {
    hide LostAt;
    if u: nat :| u < t + 1 && LostAt(ticks, after.born, u) {
      assert u < t || u == t;
    }
    if LostAt(ticks, h.born, t) {
      assert LostAt(ticks, after.born, t);
    }
    if lost {
      var u: nat :| u < t && LostAt(ticks, h.born, u);
      assert LostAt(ticks, after.born, u);
    }
  }

  lemma OffersStayTaken(ticks: seq<Tick>, t: nat, h: History, after: History)
    requires OffersTaken(ticks, h, t) && Grows(h, after, t) && BornOk(ticks, h.born, t)
    requires t < |ticks| && (ticks[t].found.Ok? ==>
               forall e :: e in ticks[t].found.value ==> e in after.born || StartFailed(after, t))
    ensures OffersTaken(ticks, after, t + 1)
  {
    assert forall f :: f in h.log ==> f in after.log;
    forall u: nat | StartFailed(h, u)
      ensures StartFailed(after, u)
    {
      var f :| f in h.log && f.tick == u && f.cause.Spawning?;
      assert f in after.log;
    }
  }

  /** Who is to blame, whatever the event says: up to turn `done`. */
  ghost predicate Verdict(ticks: seq<Tick>, stopped: bool, done: nat, event: RoundEvent,
                          outcome: Result<Guid, WirelessError>, pairs: seq<Endpoint>, started: seq<Endpoint>,
                          h: History) {
    match event
    case PairSucceeded(guid) =>
      && outcome == Ok(guid) && pairs != [] && done < |ticks| && LogIs(ticks, h, done, done + 1)
      && exists e :: WinsFirst(ticks, h.born, started, e, done)
                     && ticks[done].poll(e).Exited? && ticks[done].poll(e).status == 0
                     && ticks[done].poll(e).guid == Some(guid)
    case Cancelled =>
      && BornOk(ticks, h.born, done) && LogIs(ticks, h, done, done)
      && outcome == Err(WasCancelled) && (if done < |ticks| then ticks[done].cancelled else stopped)
      && (pairs == [] ==> h == History(map[], [])) && forall e :: e in pairs <==> Alive(ticks, h.born, e, done)
    case Timeout =>
      && outcome == Err(RoundTimedOut) && done == |ticks| && !stopped && LogIs(ticks, h, done, done)
      && (pairs == [] ==> h == History(map[], [])) && forall e :: e in pairs <==> Alive(ticks, h.born, e, done)
    case ServiceLost =>
      outcome == Err(ServiceGone) && AllGone(ticks, done, pairs, h) && LostIs(ticks, h, done + 1, true)
    case PairTimedOut =>
      && outcome == Err(TimedOut) && AllGone(ticks, done, pairs, h) && LostIs(ticks, h, done + 1, false)
      && exists e, u: nat :: u <= done && TimesOutAt(ticks, h.born, e, u)
    case PairFailed =>
      && AllGone(ticks, done, pairs, h) && LostIs(ticks, h, done + 1, false)
      && outcome.Err? && FirstFailure(ticks, h.born, started, done + 1, done + 1, outcome.error)
      && forall e, u: nat :: u <= done ==> !TimesOutAt(ticks, h.born, e, u)
  }

  /** Nothing is in flight any more, nothing won, and there is a failure to show for it. */
  ghost predicate AllGone(ticks: seq<Tick>, done: nat, pairs: seq<Endpoint>, h: History) {
    && done < |ticks| && pairs == [] && h.log != []
    && (forall e :: e in h.born ==> !Alive(ticks, h.born, e, done + 1))
    && (forall e :: !WinsAt(ticks, h.born, e, done))
    && LogIs(ticks, h, done + 1, done + 1)
  }

  /** `e` wins at turn `t`, and of the processes that win then it was started first. */
  ghost predicate WinsFirst(ticks: seq<Tick>, born: map<Endpoint, nat>, started: seq<Endpoint>, e: Endpoint, t: nat) {
    && WinsAt(ticks, born, e, t)
    && forall x :: WinsAt(ticks, born, x, t) ==> x == e || StartedBefore(started, e, x)
  }

  lemma GoneAfterPolls(ticks: seq<Tick>, t: nat, spawned: seq<Endpoint>, failure: Option<WirelessError>,
                       timedOut: bool, lost: bool, h: History, stopped: bool)
    requires Facts(ticks, t + 1, t + 1, [], spawned, failure, timedOut, h) && LostIs(ticks, h, t + 1, lost)
    requires failure != None && Chronicle(ticks, t + 1, t + 1, [], spawned, h)
    ensures var (event, error) := Classify(lost, timedOut, failure.value);
            Verdict(ticks, stopped, t, event, Err(error), [], spawned, h)
  {
    hide Alive, LogOk, PollsLogged, BornOk, LostIs, InOrder, StartsInOrder, FirstFailure, Happened;
    HeadIsFirst(ticks, t + 1, t + 1, spawned, h);
  }

  lemma GoneBeforePolls(ticks: seq<Tick>, t: nat, spawned: seq<Endpoint>, failure: Option<WirelessError>,
                        timedOut: bool, lost: bool, h: History, stopped: bool)
    requires Facts(ticks, t, t + 1, [], spawned, failure, timedOut, h) && LostIs(ticks, h, t + 1, lost)
    requires failure != None && t < |ticks| && Chronicle(ticks, t, t + 1, [], spawned, h)
    ensures var (event, error) := Classify(lost, timedOut, failure.value);
            Verdict(ticks, stopped, t, event, Err(error), [], spawned, h)
  {
    NothingPolled(ticks, t, t + 1, [], spawned, failure, timedOut, h);
    NothingPolledYet(ticks, t, [], spawned, h);
    LiveIs(ticks, t, t + 1, [], spawned, failure, timedOut, h);
    hide Facts, Polled, PolledInOrder, Verdict, LostIs, Chronicle, Alive;
    PollsDone(ticks, t, [], spawned, [], failure, timedOut, failure, timedOut, h, h);
    PollsChronicled(ticks, t, [], [], spawned, failure, timedOut, timedOut, h, h);
    GoneAfterPolls(ticks, t, spawned, failure, timedOut, lost, h, stopped);
  }

  lemma LiveIs(ticks: seq<Tick>, t: nat, d: nat, pairs: seq<Endpoint>, spawned: seq<Endpoint>,
               failure: Option<WirelessError>, timedOut: bool, h: History)
    requires Facts(ticks, t, d, pairs, spawned, failure, timedOut, h)
    ensures forall e :: e in pairs <==> Alive(ticks, h.born, e, t)
  {
  }

  /** Everything known at the head of the loop before turn `t`. */
  ghost predicate AtHead(ticks: seq<Tick>, t: nat, pairs: seq<Endpoint>, spawned: seq<Endpoint>,
                         failure: Option<WirelessError>, timedOut: bool, lost: bool, h: History) {
    && Facts(ticks, t, t, pairs, spawned, failure, timedOut, h)
    && LostIs(ticks, h, t, lost) && OffersTaken(ticks, h, t) && Chronicle(ticks, t, t, pairs, spawned, h)
    && (pairs == [] ==> failure == None)
  }

  lemma StartsIdle(ticks: seq<Tick>)
    ensures AtHead(ticks, 0, [], [], None, false, false, History(map[], []))
  {
  }

  lemma DiscoveryFails(ticks: seq<Tick>, t: nat, pairs: seq<Endpoint>, spawned: seq<Endpoint>,
                       failure: Option<WirelessError>, timedOut: bool, lost: bool, h: History)
    requires AtHead(ticks, t, pairs, spawned, failure, timedOut, lost, h) && t < |ticks| && ticks[t].found.Err?
    ensures var error := ticks[t].found.error;
            var after := Log(h, Failure(t, Discovery, error));
            && Facts(ticks, t, t + 1, pairs, spawned, Inserted(failure, error), timedOut, after)
            && LostIs(ticks, after, t + 1, lost) && OffersTaken(ticks, after, t + 1)
            && Chronicle(ticks, t, t + 1, pairs, spawned, after)
  {
    hide Facts, LostIs, OffersTaken, Chronicle;
    var f := Failure(t, Discovery, ticks[t].found.error);
    TurnDiscovered(ticks, t, pairs, spawned, failure, timedOut, h);
    FailureKeepsFacts(ticks, t, t + 1, pairs, spawned, failure, timedOut, h, f);
    FactsBorn(ticks, t, t, pairs, spawned, failure, timedOut, h);
    LostStays(ticks, t, h, Log(h, f), lost, lost);
    OffersStayTaken(ticks, t, h, Log(h, f));
    forall g | FailureOk(ticks, h.born, g) && g.tick == t && !g.cause.Polling?
      ensures g == f
    {
      OnlyDiscovery(ticks, h.born, t, g);
    }
    TurnFails(ticks, t, pairs, spawned, h, f);
  }

  lemma FactsBorn(ticks: seq<Tick>, t: nat, d: nat, pairs: seq<Endpoint>, spawned: seq<Endpoint>,
                  failure: Option<WirelessError>, timedOut: bool, h: History)
    requires Facts(ticks, t, d, pairs, spawned, failure, timedOut, h)
    ensures BornOk(ticks, h.born, d) && (forall e :: e in spawned <==> e in h.born)
    ensures forall e, u: nat :: u < t ==> !WinsAt(ticks, h.born, e, u)
    ensures NoDuplicates(spawned) && LogOk(ticks, h)
    ensures failure == if h.log == [] then None else Some(h.log[0].error)
  {
  }

  lemma LostSeen(ticks: seq<Tick>, t: nat, pairs: seq<Endpoint>, spawned: seq<Endpoint>,
                 failure: Option<WirelessError>, timedOut: bool, lost: bool, h: History, after: History)
    requires AtHead(ticks, t, pairs, spawned, failure, timedOut, lost, h) && t < |ticks| && ticks[t].found.Ok?
    requires Grows(h, after, t)
    requires forall e :: e in ticks[t].found.value ==> e in after.born || StartFailed(after, t)
    ensures LostIs(ticks, after, t + 1, lost || (ticks[t].found.value == [] && spawned != []))
    ensures OffersTaken(ticks, after, t + 1)
  {
    hide Facts, LostIs, OffersTaken, Grows, StartFailed, Chronicle;
    FactsBorn(ticks, t, t, pairs, spawned, failure, timedOut, h);
    assert spawned != [] <==> h.born != map[] by {
      SpawnedOrNot(spawned, h.born);
    }
    LostStays(ticks, t, h, after, lost, lost || (ticks[t].found.value == [] && spawned != []));
    OffersStayTaken(ticks, t, h, after);
  }

  lemma SpawnedOrNot(spawned: seq<Endpoint>, born: map<Endpoint, nat>)
    requires forall e :: e in spawned <==> e in born
    ensures spawned != [] <==> born != map[]
  {
    if spawned != [] {
      assert spawned[0] in born;
    } else {
      assert born == map[];
    }
  }

  /** The first half of a turn: discovery, new processes, and the service seen to be gone. */
  method DiscoverTurn(round: RoundState, ticks: seq<Tick>, t: nat, pairs0: seq<Endpoint>, spawned0: seq<Endpoint>,
                      failure0: Option<WirelessError>, lost0: bool, ghost timedOut: bool, ghost h0: History)
    returns (pairs: seq<Endpoint>, spawned: seq<Endpoint>, failure: Option<WirelessError>, lost: bool, dead: bool,
             ghost h: History)
    requires AtHead(ticks, t, pairs0, spawned0, failure0, timedOut, lost0, h0) && t < |ticks|
    requires !round.closed && (round.pairInFlight <==> pairs0 != [])
    modifies round
    ensures Facts(ticks, t, t + 1, pairs, spawned, failure, timedOut, h) && LostIs(ticks, h, t + 1, lost)
    ensures OffersTaken(ticks, h, t + 1) && Chronicle(ticks, t, t + 1, pairs, spawned, h)
    ensures dead ==> pairs == [] && failure != None
    ensures !round.closed && unchanged(round`id, round`guid) && (round.pairInFlight <==> pairs != [])
  {
    hide Facts, LostIs, OffersTaken, Grows, StartFailed, LogOk, BornOk, Chronicle;
    FactsBorn(ticks, t, t, pairs0, spawned0, failure0, timedOut, h0);
    IdleHead(ticks, t, pairs0, spawned0, failure0, timedOut, lost0, h0);
    pairs, spawned, failure, lost, dead, h := pairs0, spawned0, failure0, lost0, false, h0;
    if ticks[t].found.Err? {
      var error := ticks[t].found.error;
      DiscoveryFails(ticks, t, pairs, spawned, failure, timedOut, lost, h);
      failure, h := Inserted(failure, error), Log(h, Failure(t, Discovery, error));
      dead := pairs == [];
      return;
    }
    var matching := ticks[t].found.value;
    pairs, spawned, failure, dead, h := StartEach(round, ticks, t, matching, pairs, spawned, failure, timedOut, h);
    LostSeen(ticks, t, pairs0, spawned0, failure0, timedOut, lost0, h0, h);
    if !dead && matching == [] && spawned != [] && !lost {
      lost := true;
      var action := round.ObserveForRound(round.id, ServiceLost);
      assert action == WaitForPair;
    }
  }

  lemma StoppedVerdict(ticks: seq<Tick>, stopped: bool, t: nat, pairs: seq<Endpoint>, spawned: seq<Endpoint>,
                       failure: Option<WirelessError>, timedOut: bool, lost: bool, h: History)
    requires AtHead(ticks, t, pairs, spawned, failure, timedOut, lost, h)
    ensures (if t < |ticks| then ticks[t].cancelled else stopped) ==>
              Verdict(ticks, stopped, t, Cancelled, Err(WasCancelled), pairs, spawned, h)
    ensures t == |ticks| && !stopped ==> Verdict(ticks, stopped, t, Timeout, Err(RoundTimedOut), pairs, spawned, h)
  {
    hide LogIs, Ordered, InOrder, StartsInOrder, LostIs, OffersTaken, LogOk, PollsLogged, BornOk, Alive;
    IdleHead(ticks, t, pairs, spawned, failure, timedOut, lost, h);
  }

  lemma WonVerdict(ticks: seq<Tick>, stopped: bool, t: nat, live: seq<Endpoint>, spawned: seq<Endpoint>,
                   failure: Option<WirelessError>, timedOut: bool, h: History, guid: Guid, pairs: seq<Endpoint>)
    requires Facts(ticks, t, t + 1, live, spawned, failure, timedOut, h) && pairs != [] && t < |ticks|
    requires Chronicle(ticks, t, t + 1, live, spawned, h)
    requires exists k :: 0 <= k < |live| && FirstWinner(ticks, t, live, k, Some(guid))
    ensures Verdict(ticks, stopped, t, PairSucceeded(guid), Ok(guid), pairs, spawned, h)
    ensures BornOk(ticks, h.born, |ticks|) && LogOk(ticks, h)
    ensures forall e, u: nat :: u < t ==> !WinsAt(ticks, h.born, e, u)
  {
    MidTurn(ticks, t, live, spawned, failure, timedOut, h);
    LiveIs(ticks, t, t + 1, live, spawned, failure, timedOut, h);
    hide Facts, Alive, StartedBefore, LogOk, BornOk, InOrder, LogIs, StartsInOrder, Ordered;
    var k :| 0 <= k < |live| && FirstWinner(ticks, t, live, k, Some(guid));
    forall x | WinsAt(ticks, h.born, x, t)
      ensures x == live[k] || StartedBefore(spawned, live[k], x)
    {
      LaterWinner(spawned, live, k, x);
    }
    assert live[k] in live;
    assert WinsFirst(ticks, h.born, spawned, live[k], t);
  }

  lemma LaterWinner(started: seq<Endpoint>, live: seq<Endpoint>, k: nat, x: Endpoint)
    requires InOrder(started, live) && k < |live| && x in live
    ensures x in live[..k] || x == live[k] || StartedBefore(started, live[k], x)
  {
    var i :| 0 <= i < |live| && live[i] == x;
    assert i < k ==> live[..k][i] == x;
  }

  /** Runs one round against the turns `ticks`, the deadline coming after the last of them and
      `stopped` telling whether a stop was requested by then. */
  method RunPairingRound(round: RoundState, ticks: seq<Tick>, stopped: bool)
    returns (event: RoundEvent, outcome: Result<Guid, WirelessError>, pairs: seq<Endpoint>,
             ghost started: seq<Endpoint>, ghost h: History, ghost done: nat)
    requires !round.closed && !round.pairInFlight && !round.lostPending
    modifies round
    ensures !round.closed && round.id == old(round.id) && round.guid == old(round.guid)
    ensures round.pairInFlight <==> pairs != []
    ensures NoDuplicates(started) && forall e :: e in started <==> e in h.born
    ensures BornOk(ticks, h.born, |ticks|) && StartsInOrder(ticks, h.born, started) && OffersTaken(ticks, h, done)
    ensures LogOk(ticks, h)
    ensures forall u: nat :: u < done <= |ticks| ==> !ticks[u].cancelled
    ensures forall e, u: nat :: u < done ==> !WinsAt(ticks, h.born, e, u)
    ensures Verdict(ticks, stopped, done, event, outcome, pairs, started, h)
    ensures event == PairFailed ==>
              outcome.Err?
              && exists f :: Happened(ticks, h.born, f, done + 1, done + 1) && Reported(ticks, f)
                             && FirstOf(ticks, h.born, started, done + 1, done + 1, f) && outcome.error == f.error
  {
    hide Chronicle, Happened, FirstOf, Reported, StartsInOrder, PolledInOrder;
    hide Facts, LostIs, OffersTaken, Verdict, Polled, BornOk, LogOk, WinsAt, AtHead, NoDuplicates;
    var spawned: seq<Endpoint> := [];
    var failure, timedOut, lost, dead := None, false, false, false;
    started, pairs, h, done := [], [], History(map[], []), 0;
    StartsIdle(ticks);
    for t := 0 to |ticks|
      invariant AtHead(ticks, t, pairs, spawned, failure, timedOut, lost, h) && done == t
      invariant !round.closed && round.id == old(round.id) && round.guid == old(round.guid)
      invariant round.pairInFlight <==> pairs != []
      invariant forall u: nat :: u < t ==> !ticks[u].cancelled
    {
      AtHeadIs(ticks, t, pairs, spawned, failure, timedOut, lost, h);
      if ticks[t].cancelled {
        StoppedVerdict(ticks, stopped, t, pairs, spawned, failure, timedOut, lost, h);
        return Cancelled, Err(WasCancelled), pairs, spawned, h, t;
      }
      pairs, spawned, failure, lost, dead, h :=
        DiscoverTurn(round, ticks, t, pairs, spawned, failure, lost, timedOut, h);
      OffersUpTo(ticks, h, t);
      MidTurn(ticks, t, pairs, spawned, failure, timedOut, h);
      ChronicleSays(ticks, t, t + 1, pairs, spawned, h);
      if dead {
        GoneBeforePolls(ticks, t, spawned, failure, timedOut, lost, h, stopped);
        FailedVerdict(ticks, stopped, t, lost, timedOut, failure.value, spawned, h);
        var (verdict, why) := Classify(lost, timedOut, failure.value);
        return verdict, Err(why), pairs, spawned, h, t;
      }
      var live, failure0, timedOut0 := pairs, failure, timedOut;
      ghost var h0 := h;
      var won;
      won, pairs, failure, timedOut, h := PollAll(ticks, t, live, spawned, failure0, timedOut0, h0);
      if won != None {
        WonVerdict(ticks, stopped, t, live, spawned, failure0, timedOut0, h0, won.value, pairs);
        return PairSucceeded(won.value), Ok(won.value), pairs, spawned, h0, t;
      }
      PollsDone(ticks, t, live, spawned, pairs, failure0, timedOut0, failure, timedOut, h0, h);
      LiveIs(ticks, t, t + 1, live, spawned, failure0, timedOut0, h0);
      PollsChronicled(ticks, t, live, pairs, spawned, failure, timedOut0, timedOut, h0, h);
      ChronicleSays(ticks, t + 1, t + 1, pairs, spawned, h);
      PolledRecord(ticks, t, live, pairs, failure, timedOut0, timedOut, h0, h, lost);
      FactsBorn(ticks, t + 1, t + 1, pairs, spawned, failure, timedOut, h);
      if pairs == [] {
        round.pairInFlight := false;
        if failure != None {
          GoneAfterPolls(ticks, t, spawned, failure, timedOut, lost, h, stopped);
          FailedVerdict(ticks, stopped, t, lost, timedOut, failure.value, spawned, h);
          BornLater(ticks, h.born, t + 1);
          OffersUpTo(ticks, h, t);
          var (verdict, why) := Classify(lost, timedOut, failure.value);
          return verdict, Err(why), pairs, spawned, h, t;
        }
      }
      AtNextHead(ticks, t + 1, pairs, spawned, failure, timedOut, lost, h);
      done := t + 1;
    }
    AtHeadIs(ticks, |ticks|, pairs, spawned, failure, timedOut, lost, h);
    StoppedVerdict(ticks, stopped, |ticks|, pairs, spawned, failure, timedOut, lost, h);
    started := spawned;
    event := if stopped then Cancelled else Timeout;
    outcome := Err(if stopped then WasCancelled else RoundTimedOut);
  }

  lemma FailedVerdict(ticks: seq<Tick>, stopped: bool, t: nat, lost: bool, timedOut: bool, first: WirelessError,
                      started: seq<Endpoint>, h: History)
    requires var (event, error) := Classify(lost, timedOut, first);
             Verdict(ticks, stopped, t, event, Err(error), [], started, h)
    ensures var (event, error) := Classify(lost, timedOut, first);
            event == PairFailed ==>
              exists f :: Happened(ticks, h.born, f, t + 1, t + 1) && Reported(ticks, f)
                          && FirstOf(ticks, h.born, started, t + 1, t + 1, f) && error == f.error
  {
    hide FirstOf, Happened, AllGone, LostIs, TimesOutAt, Reported;
    if Classify(lost, timedOut, first).0 == PairFailed {
      FirstIsReported(ticks, h.born, started, t + 1, t + 1, Classify(lost, timedOut, first).1);
    }
  }

  lemma AtHeadIs(ticks: seq<Tick>, t: nat, pairs: seq<Endpoint>, spawned: seq<Endpoint>,
                 failure: Option<WirelessError>, timedOut: bool, lost: bool, h: History)
    requires AtHead(ticks, t, pairs, spawned, failure, timedOut, lost, h)
    ensures BornOk(ticks, h.born, |ticks|) && LogOk(ticks, h) && OffersTaken(ticks, h, t)
    ensures NoDuplicates(spawned) && (forall e :: e in spawned <==> e in h.born)
    ensures StartsInOrder(ticks, h.born, spawned)
    ensures forall e, u: nat :: u < t ==> !WinsAt(ticks, h.born, e, u)
  {
  }

  lemma ChronicleSays(ticks: seq<Tick>, t: nat, d: nat, pairs: seq<Endpoint>, started: seq<Endpoint>, h: History)
    requires Chronicle(ticks, t, d, pairs, started, h)
    ensures InOrder(started, pairs) && StartsInOrder(ticks, h.born, started)
  {
  }

  lemma AtNextHead(ticks: seq<Tick>, t: nat, pairs: seq<Endpoint>, spawned: seq<Endpoint>,
                   failure: Option<WirelessError>, timedOut: bool, lost: bool, h: History)
    requires Facts(ticks, t, t, pairs, spawned, failure, timedOut, h) && LostIs(ticks, h, t, lost)
    requires OffersTaken(ticks, h, t) && (pairs == [] ==> failure == None)
    requires Chronicle(ticks, t, t, pairs, spawned, h)
    ensures AtHead(ticks, t, pairs, spawned, failure, timedOut, lost, h)
  {
    hide Chronicle, LogOk, PollsLogged, BornOk, Alive, LostIs, OffersTaken;
  }

  lemma OffersUpTo(ticks: seq<Tick>, h: History, t: nat)
    requires OffersTaken(ticks, h, t + 1)
    ensures OffersTaken(ticks, h, t)
  {
    hide StartFailed, Offered;
  }

  lemma BornLater(ticks: seq<Tick>, born: map<Endpoint, nat>, d: nat)
    requires BornOk(ticks, born, d)
    ensures BornOk(ticks, born, |ticks|)
  {
  }

  lemma MidTurn(ticks: seq<Tick>, t: nat, pairs: seq<Endpoint>, spawned: seq<Endpoint>,
                failure: Option<WirelessError>, timedOut: bool, h: History)
    requires Facts(ticks, t, t + 1, pairs, spawned, failure, timedOut, h)
    ensures NoDuplicates(spawned) && forall e :: e in spawned <==> e in h.born
    ensures BornOk(ticks, h.born, |ticks|) && LogOk(ticks, h)
    ensures forall e, u: nat :: u < t ==> !WinsAt(ticks, h.born, e, u)
  {
  }

  /** Polling starts no process, so what was known about offers and the service still holds. */
  lemma PolledRecord(ticks: seq<Tick>, t: nat, live: seq<Endpoint>, pairs: seq<Endpoint>,
                     failure: Option<WirelessError>, timedOut0: bool, timedOut: bool,
                     h0: History, h: History, lost: bool)
    requires Polled(ticks, t, live, |live|, pairs, failure, timedOut0, timedOut, h0, h)
    requires LostIs(ticks, h0, t + 1, lost) && OffersTaken(ticks, h0, t + 1)
    ensures LostIs(ticks, h, t + 1, lost) && OffersTaken(ticks, h, t + 1) && (pairs != [] ==> live != [])
  {
    assert pairs != [] ==> pairs[0] in pairs;
    assert forall f :: f in h0.log ==> f in h.log;
    forall u: nat | StartFailed(h0, u)
      ensures StartFailed(h, u)
    {
      var f :| f in h0.log && f.tick == u && f.cause.Spawning?;
      assert f in h.log;
    }
  }

  // ----- Closing a round -----

  class PairingSecret {
    var serviceName: string
    var password: string
    var payload: string

    constructor (serviceName: string, password: string, payload: string)
      ensures this.serviceName == serviceName && this.password == password && this.payload == payload
    {
      this.serviceName, this.password, this.payload := serviceName, password, payload;
    }

    ghost predicate Wiped()
      reads this
    {
      serviceName == "" && password == "" && payload == ""
    }

    method Wipe()
      modifies this
      ensures Wiped()
    {
      serviceName, password, payload := "", "", "";
    }
  }

  /** The processes that have to be killed: those that have not ended by themselves. */
  function ToKill(pairs: seq<Endpoint>, exited: Endpoint -> bool): seq<Endpoint> {
    if pairs == [] then []
    else
      var last := pairs[|pairs| - 1];
      ToKill(pairs[..|pairs| - 1], exited) + if exited(last) then [] else [last]
  }

  /** The error of the first kill that fails. */
  ghost predicate FirstError(killed: seq<Endpoint>, kill: Endpoint -> Option<WirelessError>,
                             error: Option<WirelessError>) {
    match error
    case None => forall e :: e in killed ==> kill(e) == None
    case Some(first) =>
      exists k :: 0 <= k < |killed| && kill(killed[k]) == error && forall e :: e in killed[..k] ==> kill(e) == None
  }

  lemma FirstErrorMore(killed: seq<Endpoint>, kill: Endpoint -> Option<WirelessError>,
                       error: Option<WirelessError>, e: Endpoint)
    requires FirstError(killed, kill, error)
    ensures FirstError(killed + [e], kill, if error == None then kill(e) else error)
  {
    if error == None {
      assert (killed + [e])[..|killed|] == killed;
      assert (killed + [e])[|killed|] == e;
    } else {
      var k :| 0 <= k < |killed| && kill(killed[k]) == error && forall x :: x in killed[..k] ==> kill(x) == None;
      assert (killed + [e])[..k] == killed[..k] && (killed + [e])[k] == killed[k];
    }
  }

  /** What closing a round does to the outside, in order. */
  datatype Act = Kills(endpoint: Endpoint) | ClosesRound | Wipes

  class Trace {
    ghost var acts: seq<Act>

    constructor ()
      ensures acts == []
    {
      acts := [];
    }
  }

  ghost function AllKills(killed: seq<Endpoint>): seq<Act> {
    seq(|killed|, i requires 0 <= i < |killed| => Kills(killed[i]))
  }

  /** Kills one process and waits for it, whether or not the kill went well. */
  method KillReap(trace: Trace, e: Endpoint, kill: Endpoint -> Option<WirelessError>)
    returns (error: Option<WirelessError>)
    modifies trace
    ensures error == kill(e) && trace.acts == old(trace.acts) + [Kills(e)]
  {
    trace.acts := trace.acts + [Kills(e)];
    error := kill(e);
  }

  /** The one way to close a round: whatever is in flight is killed and reaped, a failing kill
      not keeping the others from being tried; then the round is closed, for the reason that
      goes with the event; then the secret and the code shown are wiped. */
  method RoundClose(round: RoundState, pairs0: seq<Endpoint>, secret: PairingSecret, event: RoundEvent,
                    exited: Endpoint -> bool, kill: Endpoint -> Option<WirelessError>, trace: Trace)
    returns (reason: CloseReason, result: Option<WirelessError>, pairs: seq<Endpoint>, qr: string)
    modifies round, secret, trace
    ensures pairs == [] && qr == "" && secret.Wiped()
    ensures var killed := ToKill(pairs0, exited);
            && trace.acts == old(trace.acts) + AllKills(killed) + [ClosesRound, Wipes]
            && FirstError(killed, kill, result)
    ensures round.closed && !round.pairInFlight
    ensures !old(round.closed) ==>
              && reason == ReasonOf(event, false, false) && round.id == (old(round.id) + 1) % ID_RANGE
              && round.guid == if event.PairSucceeded? then Some(event.guid) else old(round.guid)
    ensures old(round.closed) ==>
              reason == CancelledReason && unchanged(round`id, round`closed, round`guid, round`lostPending)
  {
    hide ToKill, FirstError;
    result := None;
    ghost var killed := [];
    NothingKilled(exited, kill);
    for i := 0 to |pairs0|
      invariant killed == ToKill(pairs0[..i], exited) && FirstError(killed, kill, result) && unchanged(round)
      invariant trace.acts == old(trace.acts) + AllKills(killed)
    {
      KillsNext(pairs0, i, exited);
      if !exited(pairs0[i]) {
        FirstErrorMore(killed, kill, result, pairs0[i]);
        assert AllKills(killed + [pairs0[i]]) == AllKills(killed) + [Kills(pairs0[i])];
        var error := KillReap(trace, pairs0[i], kill);
        killed := killed + [pairs0[i]];
        if result == None {
          result := error;
        }
      }
    }
    assert pairs0[..|pairs0|] == pairs0;
    pairs := [];
    round.pairInFlight := false;
    reason := CloseNow(round, event, trace);
    qr := WipeAll(secret, trace);
  }

  /** With nothing in flight the event closes the round; its waiting branch cannot be reached. */
  method CloseNow(round: RoundState, event: RoundEvent, trace: Trace) returns (reason: CloseReason)
    requires !round.pairInFlight
    modifies round, trace
    ensures round.closed && !round.pairInFlight && trace.acts == old(trace.acts) + [ClosesRound]
    ensures !old(round.closed) ==>
              && reason == ReasonOf(event, false, false) && round.id == (old(round.id) + 1) % ID_RANGE
              && round.guid == if event.PairSucceeded? then Some(event.guid) else old(round.guid)
    ensures old(round.closed) ==>
              reason == CancelledReason && unchanged(round`id, round`closed, round`guid, round`lostPending)
  {
    trace.acts := trace.acts + [ClosesRound];
    var action := round.Observe(event);
    match action {
      case Close(why) => reason := why;
      case IgnoredAfterClose => reason := CancelledReason;
      case WaitForPair => assert false;
    }
  }

  method WipeAll(secret: PairingSecret, trace: Trace) returns (qr: string)
    modifies secret, trace
    ensures secret.Wiped() && qr == "" && trace.acts == old(trace.acts) + [Wipes]
  {
    trace.acts := trace.acts + [Wipes];
    secret.Wipe();
    qr := "";
  }

  lemma NothingKilled(exited: Endpoint -> bool, kill: Endpoint -> Option<WirelessError>)
    ensures ToKill([], exited) == [] && FirstError([], kill, None)
  {
  }

  lemma KillsNext(pairs: seq<Endpoint>, i: nat, exited: Endpoint -> bool)
    requires i < |pairs|
    ensures ToKill(pairs[..i + 1], exited)
            == ToKill(pairs[..i], exited) + if exited(pairs[i]) then [] else [pairs[i]]
  {
    assert pairs[..i + 1][..i] == pairs[..i];
  }

  lemma NoErrorExactly(killed: seq<Endpoint>, kill: Endpoint -> Option<WirelessError>, error: Option<WirelessError>)
    requires FirstError(killed, kill, error)
    ensures error == None <==> forall e :: e in killed ==> kill(e) == None
  {
  }

  /** Exactly what has not ended by itself is killed. */
  lemma {:induction false} KillsExactly(pairs: seq<Endpoint>, exited: Endpoint -> bool)
    ensures forall e :: e in ToKill(pairs, exited) <==> e in pairs && !exited(e)
  {
    if pairs != [] {
      KillsExactly(pairs[..|pairs| - 1], exited);
      assert pairs == pairs[..|pairs| - 1] + [pairs[|pairs| - 1]];
    }
  }

  /** A round and its close: what is left in flight is killed unless it has ended, the close
      reason is that of the event the round ended with, and the round id moves on once. The
      answer is a guid exactly when the round has one and nothing failed to be reaped. */
  method PairOnce(round: RoundState, secret: PairingSecret, ticks: seq<Tick>, stopped: bool,
                  exited: Endpoint -> bool, kill: Endpoint -> Option<WirelessError>,
                  both: (WirelessError, WirelessError) -> string, trace: Trace)
    returns (answer: Result<Guid, WirelessError>, reason: CloseReason,
             outcome: Result<Guid, WirelessError>, reaped: Option<WirelessError>,
             ghost event: RoundEvent, ghost left: seq<Endpoint>,
             ghost started: seq<Endpoint>, ghost h: History, ghost done: nat)
    requires !round.closed && !round.pairInFlight && !round.lostPending
    modifies round, secret, trace
    ensures round.closed && !round.pairInFlight && round.id == (old(round.id) + 1) % ID_RANGE && secret.Wiped()
    ensures match event
            case PairSucceeded(guid) => reason == Success && outcome == Ok(guid)
            case Cancelled => reason == CancelledReason && outcome == Err(WasCancelled)
            case Timeout => reason == TimeoutReason && outcome == Err(RoundTimedOut)
            case ServiceLost => reason == LostReason && outcome == Err(ServiceGone)
            case PairTimedOut => reason == TimedOutReason && outcome == Err(TimedOut)
            case PairFailed => reason == FailedReason && outcome.Err?
    ensures reason == Success <==> outcome.Ok?
    ensures outcome.Ok? ==> round.guid == Some(outcome.value)
    ensures reason == LostReason ==> outcome == Err(ServiceGone) && left == []
    ensures reason == TimedOutReason ==> outcome == Err(TimedOut) && left == []
    ensures reason == FailedReason ==> left == [] && outcome.Err?
    ensures reason == FailedReason ==> FirstFailure(ticks, h.born, started, done + 1, done + 1, outcome.error)
    ensures reason == FailedReason ==>
              exists f :: Happened(ticks, h.born, f, done + 1, done + 1) && Reported(ticks, f)
                          && FirstOf(ticks, h.born, started, done + 1, done + 1, f) && answer == Err(f.error)
    ensures Verdict(ticks, stopped, done, event, outcome, left, started, h)
    ensures trace.acts == old(trace.acts) + AllKills(ToKill(left, exited)) + [ClosesRound, Wipes]
    ensures forall e :: e in ToKill(left, exited) <==> e in left && !exited(e)
    ensures FirstError(ToKill(left, exited), kill, reaped)
    ensures outcome.Err? && reaped == None ==> answer == outcome
    ensures outcome.Err? && reaped.Some? ==> answer == Err(CommandFailed(both(outcome.error, reaped.value)))
    ensures outcome.Ok? && reaped.Some? ==> answer == Err(reaped.value)
    ensures outcome.Ok? && reaped == None ==> answer == outcome
    ensures answer.Ok? <==> outcome.Ok? && forall e :: e in ToKill(left, exited) ==> kill(e) == None
    ensures answer.Ok? ==> round.guid == Some(answer.value) && reason == Success
  {
    hide FirstError, ToKill, LogIs, BornOk, StartsInOrder, OffersTaken, LostIs, Alive, WinsAt, FirstFailure, WinsFirst;
    var what, pairs, qr;
    what, outcome, pairs, started, h, done := RunPairingRound(round, ticks, stopped);
    event, left := what, pairs;
    reason, reaped, pairs, qr := RoundClose(round, pairs, secret, what, exited, kill, trace);
    KillsExactly(left, exited);
    NoErrorExactly(ToKill(left, exited), kill, reaped);
    if reason == FailedReason {
      FirstIsReported(ticks, h.born, started, done + 1, done + 1, outcome.error);
    }
    match outcome {
      case Err(failed) => answer := Err(if reaped == None then failed else CommandFailed(both(failed, reaped.value)));
      case Ok(guid) => answer := if reaped == None then Ok(guid) else Err(reaped.value);
    }
  }
}
