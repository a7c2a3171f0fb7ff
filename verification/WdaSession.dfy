/** Session self-healing of the WebDriverAgent client (wda.rs): any number of clones share
    one session id, against a server that honours a single session, while outsiders steal
    that session. One step is one lock operation or one request as the server handles it. */
module WdaSession {
  import opened Basics

  datatype Settings = Settings(fps: nat, quality: nat)

  /** How a session-scoped call ended. `ReplayInvalid` and `RetryInvalid` are the failures the
      mechanism is there to prevent: the server disowned the id used once more. */
  datatype Outcome = Served(id: nat) | Refused | NotCreated | NotReplayed | ReplayInvalid | RetryInvalid

  /** Where a clone stands in `session_call`. */
  datatype Place =
    | Calling(id: nat)
    | Waiting(stale: nat)
    | Holding(stale: nat)
    | Posting
    | Posted(id: nat)
    | Stored
    | Replaying(settings: Settings)
    | ReplayCall(id: nat, settings: Settings)
    | Rereading
    | Retrying(id: nat)
    | Done(outcome: Outcome)

  /** What the network does to `POST /session`: the answer arrives, or the session is created
      and the answer is lost, or nothing reaches the server. */
  datatype Fate = Answered | Lost | Unsent

  /** `issued` ids were given out so far, and only `current` is honoured. `shared` is the
      id the clones share. The last three fields count events. */
  datatype World = World(
    issued: nat,
    current: nat,
    shared: nat,
    mjpeg: Option<Settings>,
    lock: Option<nat>,
    places: map<nat, Place>,
    posts: nat,
    failed: nat,
    invalidations: nat)

  datatype Event =
    | Configure(settings: Settings)
    | Begin(clone: nat)
    | Answer(clone: nat, broken: bool)
    | Acquire(clone: nat)
    | Compare(clone: nat)
    | Post(clone: nat, fate: Fate)
    | Store(clone: nat)
    | ReadSettings(clone: nat)
    | ReadForReplay(clone: nat)
    | Replay(clone: nat, broken: bool)
    | Reread(clone: nat)
    | Retry(clone: nat, broken: bool)
    | Invalidate

  /** After the first `create_session`, the session having been stolen `k` times since. */
  function AfterFirstPost(k: nat): World {
    World(1 + k, 1 + k, 1, None, None, map[], 1, 0, k)
  }

  function Move(w: World, t: nat, p: Place): World {
    w.(places := w.places[t := p])
  }

  /** Moves on and gives the recreate lock up. */
  function Release(w: World, t: nat, p: Place): World {
    w.(places := w.places[t := p], lock := None)
  }

  function PostStep(w: World, t: nat, fate: Fate): World {
    var sent := w.(posts := w.posts + 1);
    match fate
    case Answered => Move(sent.(issued := w.issued + 1, current := w.issued + 1), t, Posted(w.issued + 1))
    case Lost =>
      Release(sent.(issued := w.issued + 1, current := w.issued + 1, failed := w.failed + 1), t, Done(NotCreated))
    case Unsent => Release(sent.(failed := w.failed + 1), t, Done(NotCreated))
  }

  /** The step of clone `t` from place `p`, when the event asks for just that step. */
  function CloneStep(w: World, t: nat, p: Place, e: Event): World {
    match (p, e)
    case (Calling(id), Answer(_, broken)) =>
      Move(w, t, if broken then Done(Refused) else if id == w.current then Done(Served(id)) else Waiting(id))
    case (Waiting(stale), Acquire(_)) =>
      if w.lock == None then Move(w.(lock := Some(t)), t, Holding(stale)) else w
    case (Holding(stale), Compare(_)) =>
      if w.shared != stale then Release(w, t, Rereading) else Move(w, t, Posting)
    case (Posting, Post(_, fate)) => PostStep(w, t, fate)
    case (Posted(id), Store(_)) => Move(w.(shared := id), t, Stored)
    case (Stored, ReadSettings(_)) =>
      if w.mjpeg == None then Release(w, t, Rereading) else Move(w, t, Replaying(w.mjpeg.value))
    case (Replaying(settings), ReadForReplay(_)) => Move(w, t, ReplayCall(w.shared, settings))
    case (ReplayCall(id, _), Replay(_, broken)) =>
      Release(w, t, if broken then Done(NotReplayed) else if id == w.current then Rereading else Done(ReplayInvalid))
    case (Rereading, Reread(_)) => Move(w, t, Retrying(w.shared))
    case (Retrying(id), Retry(_, broken)) =>
      Move(w, t, Done(if broken then Refused else if id == w.current then Served(id) else RetryInvalid))
    case _ => w
  }

  /** A clone is free to start a call when it is in none. */
  predicate Free(w: World, t: nat) {
    t in w.places ==> w.places[t].Done?
  }

  function Step(w: World, e: Event): World {
    match e
    case Configure(settings) => w.(mjpeg := Some(settings))
    case Invalidate =>
      w.(issued := w.issued + 1, current := w.issued + 1, invalidations := w.invalidations + 1)
    case Begin(t) => if Free(w, t) then Move(w, t, Calling(w.shared)) else w
    case _ => if e.clone in w.places then CloneStep(w, e.clone, w.places[e.clone], e) else w
  }

  function Run(w: World, events: seq<Event>): World
    decreases |events|
  {
    if events == [] then w else Run(Step(w, events[0]), events[1..])
  }

  // ----- What every step keeps -----

  predicate Inside(p: Place) {
    p.Holding? || p.Posting? || p.Posted? || p.Stored? || p.Replaying? || p.ReplayCall?
  }

  /** Ids are never honoured again once disowned; whoever is about to replace the shared
      id, or already has its replacement in hand, does so because that id is disowned. */
  predicate PlaceOk(w: World, p: Place) {
    match p
    case Calling(id) => id <= w.issued
    case Waiting(stale) => stale <= w.issued && stale != w.current
    case Holding(stale) => stale <= w.issued && stale != w.current
    case Posting => w.shared != w.current
    case Posted(id) => w.shared < id <= w.issued && w.shared != w.current
    case _ => true
  }

  ghost predicate PlacesOk(w: World) {
    forall t :: t in w.places ==> PlaceOk(w, w.places[t])
  }

  ghost predicate Locking(w: World) {
    forall t: nat :: w.lock == Some(t) <==> t in w.places && Inside(w.places[t])
  }

  /** The id the clones will share once a POST under way is stored. */
  function Latest(w: World): nat {
    if w.lock.Some? && w.lock.value in w.places && w.places[w.lock.value].Posted?
    then w.places[w.lock.value].id else w.shared
  }

  predicate Counts(w: World) {
    && w.current <= w.issued && w.shared <= w.issued
    && w.posts + (if Latest(w) != w.current then 1 else 0) <= 1 + w.invalidations + w.failed
  }

  ghost predicate Inv(w: World) {
    PlacesOk(w) && Locking(w) && Counts(w)
  }

  lemma OtherPlacesStayOk(w: World, e: Event, t: nat)
    requires PlacesOk(w) && Locking(w) && Counts(w)
    requires t in w.places && t in Step(w, e).places && Step(w, e).places[t] == w.places[t]
    ensures PlaceOk(Step(w, e), w.places[t])
  {
    assert PlaceOk(w, w.places[t]);
    if (e.Store? || e.Post?) && e.clone in w.places && e.clone != t {
      assert Inside(w.places[e.clone]) ==> w.lock == Some(e.clone);
      assert Inside(w.places[t]) ==> w.lock == Some(t);
    }
  }

  lemma OwnPlaceStaysOk(w: World, e: Event, t: nat)
    requires PlacesOk(w) && Counts(w)
    requires t in Step(w, e).places && (t in w.places ==> Step(w, e).places[t] != w.places[t])
    ensures PlaceOk(Step(w, e), Step(w, e).places[t])
  {
    if t in w.places {
      assert PlaceOk(w, w.places[t]);
      hide PlacesOk;
    }
  }

  lemma StepKeepsPlaces(w: World, e: Event)
    requires Inv(w)
    ensures PlacesOk(Step(w, e))
  {
    hide Step, PlaceOk, Locking;
    var after := Step(w, e);
    forall t | t in after.places
      ensures PlaceOk(after, after.places[t])
    {
      if t in w.places && after.places[t] == w.places[t] {
        OtherPlacesStayOk(w, e, t);
      } else {
        OwnPlaceStaysOk(w, e, t);
      }
    }
  }

  lemma StepKeepsLocking(w: World, e: Event)
    requires Locking(w)
    ensures Locking(Step(w, e))
  {
    var after := Step(w, e);
    forall t: nat
      ensures after.lock == Some(t) <==> t in after.places && Inside(after.places[t])
    {
      assert w.lock == Some(t) <==> t in w.places && Inside(w.places[t]);
      if !e.Configure? && !e.Invalidate? && e.clone in w.places {
        assert w.lock == Some(e.clone) <==> Inside(w.places[e.clone]);
      }
    }
  }

  lemma StepKeepsCounts(w: World, e: Event)
    requires Inv(w)
    ensures Counts(Step(w, e))
  {
    if !e.Configure? && !e.Invalidate? && e.clone in w.places {
      assert PlaceOk(w, w.places[e.clone]);
      assert w.lock == Some(e.clone) <==> Inside(w.places[e.clone]);
      hide PlacesOk, Locking;
    }
  }

  lemma StepKeepsInv(w: World, e: Event)
    requires Inv(w)
    ensures Inv(Step(w, e))
  {
    hide Step, PlacesOk, Locking, Counts;
    StepKeepsPlaces(w, e);
    StepKeepsLocking(w, e);
    StepKeepsCounts(w, e);
  }

  lemma {:induction false} RunKeepsInv(w: World, events: seq<Event>)
    requires Inv(w)
    ensures Inv(Run(w, events))
    decreases |events|
  {
    hide Step, Inv;
    if events != [] {
      StepKeepsInv(w, events[0]);
      RunKeepsInv(Step(w, events[0]), events[1..]);
    }
  }

  /** Over every interleaving of any number of clones, sessions are posted at most once to
      begin with, once for each time the session was stolen, and once for each failed post. */
  lemma PostsAreBounded(k: nat, events: seq<Event>)
    ensures var w := Run(AfterFirstPost(k), events);
            w.posts <= 1 + w.invalidations + w.failed
  {
    hide Run;
    RunKeepsInv(AfterFirstPost(k), events);
  }

  /** A session is posted only when the server has already disowned the shared one. */
  lemma PostsOnlyReplaceDisowned(k: nat, events: seq<Event>, e: Event)
    requires var w := Run(AfterFirstPost(k), events); Step(w, e).posts > w.posts
    ensures var w := Run(AfterFirstPost(k), events); w.shared != w.current
  {
    hide Run;
    RunKeepsInv(AfterFirstPost(k), events);
    OnlyPostingPosts(Run(AfterFirstPost(k), events), e);
  }

  lemma OnlyPostingPosts(w: World, e: Event)
    requires PlacesOk(w) && Step(w, e).posts > w.posts
    ensures w.shared != w.current
  {
    assert e.Post? && PlaceOk(w, w.places[e.clone]);
  }

  // ----- The retry -----

  /** Nothing takes the session away: no outsider, and no POST whose answer is lost. */
  predicate QuietEvent(e: Event) {
    !e.Invalidate? && (e.Post? ==> e.fate != Lost)
  }

  predicate Quiet(events: seq<Event>) {
    forall e :: e in events ==> QuietEvent(e)
  }

  /** The replacement in a clone's hand, posted and not yet stored, has itself been stolen. */
  predicate Superseded(w: World) {
    && w.lock.Some? && w.lock.value in w.places && w.places[w.lock.value].Posted?
    && w.places[w.lock.value].id != w.current
  }

  /** The call of clone `t` failed because the server disowned the id it used once more. */
  predicate Disowned(w: World, t: nat) {
    t in w.places && (w.places[t] == Done(RetryInvalid) || w.places[t] == Done(ReplayInvalid))
  }

  /** What the clone still has to go through is safe while nothing takes the session away. */
  predicate Calm(w: World, p: Place) {
    match p
    case Calling(id) => w.shared == id || w.shared == w.current
    case Waiting(stale) => w.shared == stale || w.shared == w.current
    case Holding(stale) => w.shared == stale || w.shared == w.current
    case Posting => true
    case Posted(_) => true
    case Stored => w.shared == w.current
    case Replaying(_) => w.shared == w.current
    case ReplayCall(id, _) => w.shared == w.current == id
    case Rereading => w.shared == w.current
    case Retrying(id) => w.shared == w.current == id
    case Done(outcome) => outcome != RetryInvalid && outcome != ReplayInvalid
  }

  predicate CalmAt(w: World, t: nat) {
    !Superseded(w) && t in w.places && Calm(w, w.places[t])
  }

  lemma QuietStepSupersedesNothing(w: World, e: Event)
    requires Inv(w) && !Superseded(w) && QuietEvent(e)
    ensures !Superseded(Step(w, e))
  {
    if !e.Configure? && e.clone in w.places {
      assert w.lock == Some(e.clone) <==> Inside(w.places[e.clone]);
    }
  }

  lemma OtherStaysCalm(w: World, e: Event, t: nat)
    requires Inv(w) && CalmAt(w, t) && QuietEvent(e) && (!e.Configure? ==> e.clone != t)
    ensures t in Step(w, e).places && Calm(Step(w, e), w.places[t]) && Step(w, e).places[t] == w.places[t]
  {
    assert PlaceOk(w, w.places[t]);
    if !e.Configure? && e.clone in w.places {
      assert w.lock == Some(e.clone) <==> Inside(w.places[e.clone]);
      assert w.lock == Some(t) <==> Inside(w.places[t]);
      assert PlaceOk(w, w.places[e.clone]);
      hide PlacesOk, Locking;
    }
  }

  lemma OwnStepStaysCalm(w: World, e: Event, t: nat)
    requires Inv(w) && CalmAt(w, t) && QuietEvent(e) && !e.Configure? && e.clone == t
    ensures t in Step(w, e).places && Calm(Step(w, e), Step(w, e).places[t])
  {
    assert PlaceOk(w, w.places[t]);
    assert w.lock == Some(t) <==> Inside(w.places[t]);
  }

  lemma {:induction false} StaysCalm(w: World, events: seq<Event>, t: nat)
    requires Inv(w) && CalmAt(w, t) && Quiet(events)
    ensures CalmAt(Run(w, events), t)
    decreases |events|
  {
    hide Step, Inv, Superseded, Calm;
    if events != [] {
      var e := events[0];
      QuietStepSupersedesNothing(w, e);
      if !e.Configure? && !e.Invalidate? && e.clone == t {
        OwnStepStaysCalm(w, e, t);
      } else {
        OtherStaysCalm(w, e, t);
      }
      StepKeepsInv(w, e);
      StaysCalm(Step(w, e), events[1..], t);
    }
  }

  /** The unlucky schedule: clone `t` sees the shared id refused, the other clone stores its
      stolen replacement and leaves, and `t` retries with that. */
  function Unlucky(t: nat, other: nat): seq<Event> {
    [Answer(t, false), Store(other), ReadSettings(other), ReadForReplay(other), Replay(other, false),
     Acquire(t), Compare(t), Reread(t), Retry(t, false)]
  }

  lemma RunFrom(w: World, e: seq<Event>, i: nat)
    requires i < |e|
    ensures Run(w, e[i..]) == Run(Step(w, e[i]), e[i + 1..])
  {
    assert e[i..][1..] == e[i + 1..];
  }

  /** Where the two clones of the unlucky schedule stand. */
  predicate Scene(w: World, lock: Option<nat>, shared: nat, current: nat, t: nat, p: Place, other: nat, q: Place) {
    && w.lock == lock && w.shared == shared && w.current == current
    && t in w.places && w.places[t] == p && other in w.places && w.places[other] == q
  }

  lemma StolenIsStored(w: World, t: nat, other: nat, id: nat)
    requires t != other && w.shared != w.current && id != w.current
    requires Scene(w, Some(other), w.shared, w.current, t, Calling(w.shared), other, Posted(id))
    ensures var after := Step(Step(w, Answer(t, false)), Store(other));
            Scene(after, Some(other), id, w.current, t, Waiting(w.shared), other, Stored)
  {
  }

  lemma StolenIsReplayed(w: World, t: nat, p: Place, other: nat)
    requires t != other && w.shared != w.current
    requires Scene(w, Some(other), w.shared, w.current, t, p, other, Stored)
    ensures var after := Step(Step(Step(w, ReadSettings(other)), ReadForReplay(other)), Replay(other, false));
            && after.lock == None && after.shared == w.shared && after.current == w.current
            && t in after.places && after.places[t] == p
  {
  }

  lemma StolenIsRetried(w: World, t: nat, stale: nat)
    requires w.lock == None && w.shared != w.current && w.shared != stale
    requires t in w.places && w.places[t] == Waiting(stale)
    ensures var w1 := Step(Step(w, Acquire(t)), Compare(t));
            Disowned(Step(Step(w1, Reread(t)), Retry(t, false)), t)
  {
  }

  lemma {:induction false} UnluckyRun(w: World, t: nat, other: nat)
    ensures var w2 := Step(Step(w, Answer(t, false)), Store(other));
            var w5 := Step(Step(Step(w2, ReadSettings(other)), ReadForReplay(other)), Replay(other, false));
            var w7 := Step(Step(w5, Acquire(t)), Compare(t));
            Run(w, Unlucky(t, other)) == Step(Step(w7, Reread(t)), Retry(t, false))
  {
    hide Run, Step;
    var e := Unlucky(t, other);
    var w2 := Step(Step(w, Answer(t, false)), Store(other));
    var w5 := Step(Step(Step(w2, ReadSettings(other)), ReadForReplay(other)), Replay(other, false));
    var w7 := Step(Step(w5, Acquire(t)), Compare(t));
    RunFrom(w, e, 0);
    RunFrom(Step(w, e[0]), e, 1);
    RunFrom(w2, e, 2);
    RunFrom(Step(w2, e[2]), e, 3);
    RunFrom(Step(Step(w2, e[2]), e[3]), e, 4);
    RunFrom(w5, e, 5);
    RunFrom(Step(w5, e[5]), e, 6);
    RunFrom(w7, e, 7);
    RunFrom(Step(w7, e[7]), e, 8);
    RunNothing(Step(Step(w7, e[7]), e[8]), e[9..]);
    assert e[0..] == e;
  }

  lemma RunNothing(w: World, e: seq<Event>)
    requires e == []
    ensures Run(w, e) == w
  {
  }

  lemma UnluckyDisowns(w: World, t: nat, other: nat)
    requires t != other && w.shared != w.current && Superseded(w) && w.lock == Some(other)
    requires t in w.places && w.places[t] == Calling(w.shared)
    requires w.places[other].id != w.shared
    ensures Disowned(Run(w, Unlucky(t, other)), t)
  {
    hide Run, Step;
    var id := w.places[other].id;
    UnluckyRun(w, t, other);
    StolenIsStored(w, t, other, id);
    var w2 := Step(Step(w, Answer(t, false)), Store(other));
    StolenIsReplayed(w2, t, Waiting(w.shared), other);
    var w5 := Step(Step(Step(w2, ReadSettings(other)), ReadForReplay(other)), Replay(other, false));
    StolenIsRetried(w5, t, w.shared);
  }

  lemma BeginsCalm(w: World, t: nat)
    requires Free(w, t) && !Superseded(w)
    ensures CalmAt(Step(w, Begin(t)), t)
  {
  }

  lemma BeginsUnlucky(w: World, t: nat)
    requires Inv(w) && Free(w, t) && Superseded(w)
    ensures Quiet(Unlucky(t, w.lock.value)) && Disowned(Run(Step(w, Begin(t)), Unlucky(t, w.lock.value)), t)
  {
    hide Run;
    var other := w.lock.value;
    assert PlaceOk(w, w.places[other]);
    UnluckyDisowns(Step(w, Begin(t)), t, other);
  }

  /** A call that starts in a reachable state can end with its second id disowned, although
      nothing takes the session away from its start on, exactly when at its start the
      replacement another clone is about to store has already been stolen. In every other
      state it is served, or fails for a reason that is not the session. */
  lemma RetryFailsExactlyWhenSuperseded(k: nat, past: seq<Event>, t: nat)
    requires Free(Run(AfterFirstPost(k), past), t)
    ensures var w := Run(AfterFirstPost(k), past);
            (exists events :: Quiet(events) && Disowned(Run(Step(w, Begin(t)), events), t)) <==> Superseded(w)
  {
    hide Run, Inv, Quiet, Step, Free, Superseded;
    var w := Run(AfterFirstPost(k), past);
    StartsWell(k);
    RunKeepsInv(AfterFirstPost(k), past);
    StepKeepsInv(w, Begin(t));
    if Superseded(w) {
      BeginsUnlucky(w, t);
    } else {
      BeginsCalm(w, t);
      forall events | Quiet(events)
        ensures !Disowned(Run(Step(w, Begin(t)), events), t)
      {
        StaysCalm(Step(w, Begin(t)), events, t);
      }
    }
  }

  lemma StartsWell(k: nat)
    ensures Inv(AfterFirstPost(k))
  {
  }

  /** The shared session is stolen, clone 0 posts a replacement, and that is stolen too. */
  function StolenReplacement(): seq<Event> {
    [Invalidate, Begin(0), Answer(0, false), Acquire(0), Compare(0), Post(0, Answered), Invalidate]
  }

  /** Such states are reached: the guarantee is false for a call that starts in this one. */
  lemma TheReplacementCanBeStolen()
    ensures Superseded(Run(AfterFirstPost(0), StolenReplacement()))
    ensures Free(Run(AfterFirstPost(0), StolenReplacement()), 1)
  {
    hide Run;
    var e := StolenReplacement();
    var w := AfterFirstPost(0);
    assert e[0..] == e;
    RunFrom(w, e, 0);
    RunFrom(w.(issued := 2, current := 2, invalidations := 1), e, 1);
    var w2 := World(2, 2, 1, None, None, map[0 := Calling(1)], 1, 0, 1);
    assert Step(w.(issued := 2, current := 2, invalidations := 1), e[1]) == w2;
    RunFrom(w2, e, 2);
    var w3 := w2.(places := map[0 := Waiting(1)]);
    assert Step(w2, e[2]) == w3;
    RunFrom(w3, e, 3);
    var w4 := w3.(places := map[0 := Holding(1)], lock := Some(0));
    assert Step(w3, e[3]) == w4;
    RunFrom(w4, e, 4);
    var w5 := w4.(places := map[0 := Posting]);
    assert Step(w4, e[4]) == w5;
    RunFrom(w5, e, 5);
    var w6 := World(3, 3, 1, None, Some(0), map[0 := Posted(3)], 2, 0, 1);
    assert Step(w5, e[5]) == w6;
    RunFrom(w6, e, 6);
    RunNothing(Step(w6, e[6]), e[7..]);
  }

  // ----- The client itself -----

  /** A request as it is sent: a call within a session, one for a new session, or settings. */
  datatype Sent = Call(id: nat) | NewSession | Configured(id: nat, settings: Settings)

  /** The server, as far as sessions go, and every request sent to it. */
  class Server {
    var issued: nat
    var current: nat
    var sent: seq<Sent>

    constructor ()
      ensures issued == current == 0 && sent == []
    {
      issued, current, sent := 0, 0, [];
    }

    method Issue()
      modifies this`issued, this`current
      ensures issued == current == old(issued) + 1
    {
      issued := issued + 1;
      current := issued;
    }
  }

  /** What happens around one request: whether an outsider got in first, whether it breaks. */
  datatype Weather = Weather(stolen: bool, broken: bool)

  datatype Reply = Fine | Broken | Invalid

  /** How the one replay on a new session ends. */
  function Replayed(replay: Weather): Option<Outcome> {
    if replay.broken then Some(NotReplayed) else if replay.stolen then Some(ReplayInvalid) else None
  }

  /** What a rebuild sends: one request for a session, and the settings for the one it got. */
  function Rebuilding(fate: Fate, mjpeg: Option<Settings>, id: nat): seq<Sent> {
    [NewSession] + if fate == Answered && mjpeg != None then [Configured(id, mjpeg.value)] else []
  }

  lemma AnswerIs(w: World, t: nat, broken: bool)
    requires t in w.places && w.places[t].Calling?
    ensures var id := w.places[t].id;
            Step(w, Answer(t, broken))
            == Move(w, t, if broken then Done(Refused) else if id == w.current then Done(Served(id)) else Waiting(id))
  {
  }

  lemma ReadForReplayIs(w: World, t: nat)
    requires t in w.places && w.places[t].Replaying?
    ensures Step(w, ReadForReplay(t)) == Move(w, t, ReplayCall(w.shared, w.places[t].settings))
  {
  }

  lemma ReplayIs(w: World, t: nat, broken: bool)
    requires t in w.places && w.places[t].ReplayCall?
    ensures Step(w, Replay(t, broken))
            == Release(w, t, if broken then Done(NotReplayed)
                             else if w.places[t].id == w.current then Rereading else Done(ReplayInvalid))
  {
  }

  lemma RereadIs(w: World, t: nat)
    requires t in w.places && w.places[t].Rereading?
    ensures Step(w, Reread(t)) == Move(w, t, Retrying(w.shared))
  {
  }

  lemma RetryIs(w: World, t: nat, broken: bool)
    requires t in w.places && w.places[t].Retrying?
    ensures var id := w.places[t].id;
            Step(w, Retry(t, broken))
            == Move(w, t, Done(if broken then Refused else if id == w.current then Served(id) else RetryInvalid))
  {
  }

  lemma InvalidateIs(w: World)
    ensures Step(w, Invalidate)
            == w.(issued := w.issued + 1, current := w.issued + 1, invalidations := w.invalidations + 1)
  {
  }

  /** One clone of the client, running on its own. */
  class Client {
    const server: Server
    var sessionId: Option<nat>
    var mjpeg: Option<Settings>

    constructor (server: Server)
      ensures this.server == server && sessionId == None && mjpeg == None
    {
      this.server := server;
      sessionId, mjpeg := None, None;
    }

    /** The fields are those of the machine, and clone `t` is at place `p`. */
    ghost predicate Mirrors(w: World, t: nat, p: Place)
      reads this, server
    {
      && w.issued == server.issued && w.current == server.current
      && sessionId == Some(w.shared) && w.mjpeg == mjpeg
      && t in w.places && w.places[t] == p && w.lock == (if Inside(p) then Some(t) else None)
    }

    method Request(request: Sent, weather: Weather) returns (reply: Reply)
      requires !request.NewSession?
      modifies server
      ensures server.sent == old(server.sent) + [request]
      ensures server.issued == old(server.issued) + if weather.stolen then 1 else 0
      ensures server.current == if weather.stolen then old(server.issued) + 1 else old(server.current)
      ensures reply == if weather.broken then Broken else if request.id == server.current then Fine else Invalid
    {
      server.sent := server.sent + [request];
      if weather.stolen {
        server.Issue();
      }
      reply := if weather.broken then Broken else if request.id == server.current then Fine else Invalid;
    }

    /** `create_session`, of which the id is only kept when the answer arrives. */
    method CreateSession(fate: Fate) returns (r: Option<nat>)
      modifies this`sessionId, server
      ensures fate == Unsent ==> server.issued == old(server.issued) && server.current == old(server.current)
      ensures fate != Unsent ==> server.issued == server.current == old(server.issued) + 1
      ensures r == if fate == Answered then Some(server.current) else None
      ensures sessionId == if fate == Answered then r else old(sessionId)
      ensures server.sent == old(server.sent) + [NewSession]
    {
      r := None;
      server.sent := server.sent + [NewSession];
      if fate != Unsent {
        server.Issue();
      }
      if fate == Answered {
        r := Some(server.current);
        sessionId := r;
      }
    }

    /** Replays the recorded settings on the new session, without a second chance. */
    method ReplaySettings(settings: Settings, replay: Weather, ghost w: World, ghost t: nat)
      returns (outcome: Option<Outcome>, ghost after: World, ghost trace: seq<Event>)
      requires Mirrors(w, t, Replaying(settings))
      modifies server
      ensures after == Run(w, trace) && Mirrors(after, t, if outcome == None then Rereading else Done(outcome.value))
      ensures after.posts == w.posts && server.issued == old(server.issued) + if replay.stolen then 1 else 0
      ensures sessionId == Some(old(server.issued)) && old(server.current == server.issued) ==>
                outcome == Replayed(replay) && (!replay.stolen ==> server.current == old(server.current))
      ensures server.sent == old(server.sent) + [Configured(sessionId.value, settings)]
    {
      hide Run, Step;
      ReadForReplayIs(w, t);
      after, trace := One(w, ReadForReplay(t));
      if replay.stolen {
        after, trace := Then(w, after, trace, Invalidate);
      }
      InvalidateIs(Step(w, ReadForReplay(t)));
      ReplayIs(after, t, replay.broken);
      var reply := Request(Configured(sessionId.value, settings), replay);
      after, trace := Then(w, after, trace, Replay(t, replay.broken));
      outcome := match reply case Fine => None case Broken => Some(NotReplayed) case Invalid => Some(ReplayInvalid);
    }

    /** `create_session` as part of a rebuild: leaves the shared id at the new session. */
    method Renew(fate: Fate, ghost w: World, ghost t: nat)
      returns (created: bool, ghost after: World, ghost trace: seq<Event>)
      requires Mirrors(w, t, Posting)
      modifies this`sessionId, server
      ensures after == Run(w, trace) && Mirrors(after, t, if created then Stored else Done(NotCreated))
      ensures after.posts == w.posts + 1 && created == (fate == Answered)
      ensures server.issued == old(server.issued) + if fate == Unsent then 0 else 1
      ensures sessionId == if created then Some(server.issued) else old(sessionId)
      ensures created ==> server.current == server.issued
      ensures server.sent == old(server.sent) + [NewSession]
    {
      hide Run;
      var id := CreateSession(fate);
      created := id != None;
      after, trace := One(w, Post(t, fate));
      if created {
        after, trace := Then(w, after, trace, Store(t));
      }
    }

    /** `recreate_session`: a step by step run of the machine from `Posting`, with one `POST`. When
        its answer arrives the new id is shared, and the settings, if any, are replayed once. */
    method RecreateSession(fate: Fate, replay: Weather, ghost w: World, ghost t: nat)
      returns (outcome: Option<Outcome>, ghost after: World, ghost trace: seq<Event>)
      requires Mirrors(w, t, Posting)
      modifies this`sessionId, server
      ensures after == Run(w, trace) && Mirrors(after, t, if outcome == None then Rereading else Done(outcome.value))
      ensures after.posts == w.posts + 1
      ensures sessionId == if fate == Answered then Some(old(server.issued) + 1) else old(sessionId)
      ensures outcome == if fate != Answered then Some(NotCreated) else if mjpeg == None then None else Replayed(replay)
      ensures server.issued == old(server.issued) + (if fate == Unsent then 0 else 1)
                               + (if fate == Answered && mjpeg != None && replay.stolen then 1 else 0)
      ensures outcome == None ==> sessionId == Some(server.current) && server.current <= server.issued
      ensures server.sent == old(server.sent) + Rebuilding(fate, mjpeg, old(server.issued) + 1)
    {
      hide Run;
      var created;
      created, after, trace := Renew(fate, w, t);
      if !created {
        outcome := Some(NotCreated);
        return;
      }
      outcome := None;
      after, trace := Then(w, after, trace, ReadSettings(t));
      if mjpeg != None {
        ghost var more;
        ghost var middle := after;
        outcome, after, more := ReplaySettings(mjpeg.value, replay, middle, t);
        RunBoth(w, trace, more);
        trace := trace + more;
      }
    }

    /** `recreate_session_unless_replaced`: nothing is sent if another id is shared by now, and
        otherwise all is as in `RecreateSession`. */
    method RecreateUnlessReplaced(stale: nat, fate: Fate, replay: Weather, ghost w: World, ghost t: nat)
      returns (outcome: Option<Outcome>, ghost after: World, ghost trace: seq<Event>)
      requires Mirrors(w, t, Waiting(stale))
      modifies this`sessionId, server
      ensures after == Run(w, trace) && Mirrors(after, t, if outcome == None then Rereading else Done(outcome.value))
      ensures w.shared != stale ==>
                after.posts == w.posts && outcome == None
                && sessionId == old(sessionId) && server.issued == old(server.issued)
      ensures w.shared == stale ==>
                && after.posts == w.posts + 1
                && sessionId == (if fate == Answered then Some(old(server.issued) + 1) else old(sessionId))
                && outcome == (if fate != Answered then Some(NotCreated)
                               else if mjpeg == None then None else Replayed(replay))
                && (outcome == None ==> sessionId == Some(server.current) && server.current <= server.issued)
      ensures server.sent == old(server.sent)
                             + if w.shared != stale then [] else Rebuilding(fate, mjpeg, old(server.issued) + 1)
    {
      hide Run;
      after, trace := One(w, Acquire(t));
      after, trace := Then(w, after, trace, Compare(t));
      if sessionId.value != stale {
        outcome := None;
        return;
      }
      ghost var more;
      ghost var middle := after;
      outcome, after, more := RecreateSession(fate, replay, middle, t);
      RunBoth(w, trace, more);
      trace := trace + more;
    }

    /** The session was not taken away before the call reached the server. */
    ghost predicate Live(id: nat, call: Weather)
      reads server
    {
      id == if call.stolen then server.issued + 1 else server.current
    }

    /** `session_call` on a clone that runs alone: without a session it fails at once, and
        otherwise it is one run of the machine from `Begin` to the same outcome. A call that
        breaks is not sent again; a disowned one is, once, within a new session, if there is one
        and the settings could be replayed. */
    method SessionCall(call: Weather, fate: Fate, replay: Weather, retry: Weather, ghost w: World, ghost t: nat)
      returns (outcome: Option<Outcome>, ghost after: World, ghost trace: seq<Event>)
      requires sessionId != None ==> Mirrors(Step(w, Begin(t)), t, Calling(sessionId.value))
      modifies this`sessionId, server
      ensures outcome == None <==> old(sessionId) == None
      ensures outcome == None ==> sessionId == None && server.issued == old(server.issued)
      ensures outcome == None ==> server.sent == old(server.sent)
      ensures outcome != None ==> after == Run(w, trace) && Mirrors(after, t, Done(outcome.value))
      ensures old(sessionId).Some? && (call.broken || old(Live(sessionId.value, call))) ==>
                var id := old(sessionId).value;
                && outcome == Some(if call.broken then Refused else Served(id))
                && sessionId == Some(id) && server.sent == old(server.sent) + [Call(id)]
      ensures old(sessionId).Some? && !call.broken && !old(Live(sessionId.value, call)) && fate != Answered ==>
                var id := old(sessionId).value;
                && outcome == Some(NotCreated)
                && sessionId == Some(id) && server.sent == old(server.sent) + [Call(id), NewSession]
      ensures old(sessionId).Some? && !call.broken && !old(Live(sessionId.value, call)) && fate == Answered ==>
                var id, next := old(sessionId).value, old(server.issued) + if call.stolen then 2 else 1;
                var settings := if mjpeg == None then [] else [Configured(next, mjpeg.value)];
                && sessionId == Some(next)
                && (mjpeg != None && replay.broken ==>
                      && outcome == Some(NotReplayed)
                      && server.sent == old(server.sent) + [Call(id), NewSession] + settings)
                && (mjpeg != None && replay.stolen && !replay.broken ==>
                      && outcome == Some(ReplayInvalid)
                      && server.sent == old(server.sent) + [Call(id), NewSession] + settings)
                && (mjpeg == None || !(replay.stolen || replay.broken) ==>
                      && outcome == Some(if retry.broken then Refused
                                         else if retry.stolen then RetryInvalid else Served(next))
                      && server.sent == old(server.sent) + [Call(id), NewSession] + settings + [Call(next)])
    {
      hide Run, Step, Mirrors;
      outcome, after, trace := None, w, [];
      if sessionId == None {
        return;
      }
      var id := sessionId.value;
      var reply;
      reply, after, trace := FirstCall(id, call, w, t);
      if reply != Invalid {
        outcome := Some(if reply == Fine then Served(id) else Refused);
        return;
      }
      ghost var more;
      ghost var middle := after;
      outcome, after, more := SecondChance(id, fate, replay, retry, middle, t);
      RunBoth(w, trace, more);
      trace := trace + more;
    }

    /** The call within the session that is shared. */
    method FirstCall(id: nat, call: Weather, ghost w: World, ghost t: nat)
      returns (reply: Reply, ghost after: World, ghost trace: seq<Event>)
      requires sessionId == Some(id) && Mirrors(Step(w, Begin(t)), t, Calling(id))
      modifies server
      ensures after == Run(w, trace) && after.shared == id
      ensures Mirrors(after, t, match reply case Fine => Done(Served(id)) case Broken => Done(Refused)
                                            case Invalid => Waiting(id))
      ensures reply == if call.broken then Broken else if old(Live(id, call)) then Fine else Invalid
      ensures server.sent == old(server.sent) + [Call(id)]
      ensures server.issued == old(server.issued) + if call.stolen then 1 else 0
    {
      InvalidateIs(Step(w, Begin(t)));
      hide Step, Run;
      after, trace := One(w, Begin(t));
      if call.stolen {
        after, trace := Then(w, after, trace, Invalidate);
      }
      AnswerIs(after, t, call.broken);
      reply := Request(Call(id), call);
      after, trace := Then(w, after, trace, Answer(t, call.broken));
    }

    /** After the server disowned `stale`: a new session, and the call once more within it. */
    method SecondChance(stale: nat, fate: Fate, replay: Weather, retry: Weather, ghost w: World, ghost t: nat)
      returns (outcome: Option<Outcome>, ghost after: World, ghost trace: seq<Event>)
      requires Mirrors(w, t, Waiting(stale)) && w.shared == stale
      modifies this`sessionId, server
      ensures outcome != None && after == Run(w, trace) && Mirrors(after, t, Done(outcome.value))
      ensures fate != Answered ==>
                && outcome == Some(NotCreated) && sessionId == old(sessionId)
                && server.sent == old(server.sent) + [NewSession]
      ensures fate == Answered ==>
                var next := old(server.issued) + 1;
                var settings := if mjpeg == None then [] else [Configured(next, mjpeg.value)];
                && sessionId == Some(next)
                && (mjpeg != None && Replayed(replay) != None ==>
                      && outcome == Replayed(replay)
                      && server.sent == old(server.sent) + ([NewSession] + settings))
                && (mjpeg == None || Replayed(replay) == None ==>
                      && outcome == Some(if retry.broken then Refused
                                         else if retry.stolen then RetryInvalid else Served(next))
                      && server.sent == old(server.sent) + ([NewSession] + settings) + [Call(next)])
    {
      hide Run, Mirrors;
      outcome, after, trace := RecreateUnlessReplaced(stale, fate, replay, w, t);
      if outcome == None {
        ghost var more;
        ghost var middle := after;
        outcome, after, more := RetryCall(retry, middle, t);
        RunBoth(w, trace, more);
        trace := trace + more;
      }
    }

    /** The one retry, with whatever id is shared by then. */
    method RetryCall(retry: Weather, ghost w: World, ghost t: nat)
      returns (outcome: Option<Outcome>, ghost after: World, ghost trace: seq<Event>)
      requires Mirrors(w, t, Rereading)
      modifies server
      ensures outcome != None && after == Run(w, trace) && Mirrors(after, t, Done(outcome.value))
      ensures sessionId == Some(old(server.current)) && old(server.current <= server.issued) ==>
                outcome == Some(if retry.broken then Refused
                                else if retry.stolen then RetryInvalid else Served(sessionId.value))
      ensures server.sent == old(server.sent) + [Call(sessionId.value)]
    {
      hide Run, Step;
      RereadIs(w, t);
      InvalidateIs(Step(w, Reread(t)));
      var id := sessionId.value;
      after, trace := One(w, Reread(t));
      if retry.stolen {
        after, trace := Then(w, after, trace, Invalidate);
      }
      RetryIs(after, t, retry.broken);
      var reply := Request(Call(id), retry);
      after, trace := Then(w, after, trace, Retry(t, retry.broken));
      outcome := Some(match reply case Fine => Served(id) case Broken => Refused case Invalid => RetryInvalid);
    }

    ghost method One(w: World, e: Event) returns (after: World, trace: seq<Event>)
      ensures after == Step(w, e) && trace == [e] && after == Run(w, trace)
    {
      after, trace := Step(w, e), [e];
      RunOne(w, e);
    }

    ghost method Then(w: World, before: World, trace: seq<Event>, e: Event)
      returns (after: World, longer: seq<Event>)
      requires before == Run(w, trace)
      ensures after == Step(before, e) && longer == trace + [e] && after == Run(w, longer)
    {
      after, longer := Step(before, e), trace + [e];
      RunBoth(w, trace, [e]);
      RunOne(before, e);
    }
  }

  lemma RunOne(w: World, e: Event)
    ensures Run(w, [e]) == Step(w, e)
  {
    RunFrom(w, [e], 0);
    RunNothing(Step(w, e), [e][1..]);
    assert [e][0..] == [e];
  }

  lemma {:induction false} RunBoth(w: World, first: seq<Event>, second: seq<Event>)
    ensures Run(w, first + second) == Run(Run(w, first), second)
    decreases |first|
  {
    hide Step;
    if first == [] {
      assert first + second == second;
    } else {
      assert (first + second)[1..] == first[1..] + second;
      RunBoth(Step(w, first[0]), first[1..], second);
    }
  }
}
