/** The admission controller without the server around it, whatever its callers do and whatever
    their clock readings are: failures that are recorded late, when their connection is not
    pending any more, and readings that go back are what can exceed the bounds that the server
    keeps, and by how much is counted. */
module AdmissionAlone {
  import opened Basics
  import opened Admission

  datatype Call = Begins(id: nat) | Succeeds(id: nat) | Records(id: nat) | Ends(id: nat)

  /** A call for a connection that names its peer, at a clock reading if the call takes one. */
  datatype Timed = Timed(call: Call, peer: string, now: nat)

  /** The controller's lists; all failures recorded, apart those since the clock last went
      back; for which peer each connection was last let in; how many failures were recorded
      late, that is, when their connection was not pending for the peer named; the last reading,
      and how many readings were before the one they followed; and the books on the callers:
      who was let in, who failed or ended since, and whether every failure so far was of a
      connection let in before, recorded once and before its end. */
  datatype World = World(
    lists: Lists,
    before: seq<Recorded>,
    recent: seq<Recorded>,
    owner: map<nat, string>,
    late: nat,
    lateBefore: nat,
    clock: nat,
    setbacks: nat,
    begun: set<nat>,
    over: set<nat>,
    disciplined: bool)

  const NOBODY := World(Lists({}, None, [], map[]), [], [], map[], 0, 0, 0, 0, {}, {}, true)

  /** Every failure recorded. */
  function History(w: World): seq<Recorded> {
    w.before + w.recent
  }

  /** The controller as if it had started when the clock last went back. */
  function Recent(w: World): View {
    View(w.lists.pending, w.lists.active, w.recent)
  }

  predicate IsPending(w: World, id: nat, peer: string) {
    id in w.lists.pending && id in w.owner && w.owner[id] == peer
  }

  /** The books after a reading. */
  function Read(w: World, now: nat): World {
    if w.clock <= now then w.(clock := now)
    else w.(clock := now, setbacks := w.setbacks + 1, before := w.before + w.recent, recent := [],
            lateBefore := w.late)
  }

  /** Brings in who is waiting and active after a call that does not touch the failures. */
  function Place(w: World, v: View): World {
    w.(lists := w.lists.(pending := v.pending, active := v.active))
  }

  function AfterBegin(w: World, id: nat, peer: string): World {
    var (lists, r) := Admit(w.lists, id, peer, w.clock);
    if r.Err? || id in w.lists.pending then w.(lists := lists)
    else w.(lists := lists, owner := w.owner[id := peer], begun := w.begun + {id})
  }

  function AfterFailure(w: World, id: nat, peer: string): World {
    w.(lists := AddFailure(w.lists, id, peer, w.clock),
       recent := w.recent + [Recorded(id, peer, w.clock)],
       late := if IsPending(w, id, peer) then w.late else w.late + 1,
       over := w.over + {id},
       disciplined := w.disciplined && id in w.begun && id !in w.over)
  }

  function Step(w: World, t: Timed): World {
    match t.call
    case Begins(id) => AfterBegin(Read(w, t.now), id, t.peer)
    case Succeeds(id) => Place(w, Succeed(Recent(w), id).0)
    case Records(id) => AfterFailure(Read(w, t.now), id, t.peer)
    case Ends(id) => Place(w, End(Recent(w), id)).(over := w.over + {id})
  }

  function Run(w: World, calls: seq<Timed>): World
    decreases |calls|
  {
    if calls == [] then w else Run(Step(w, calls[0]), calls[1..])
  }

  lemma {:induction false} RunBoth(w: World, a: seq<Timed>, b: seq<Timed>)
    ensures Run(w, a + b) == Run(Run(w, a), b)
    decreases |a|
  {
    hide Step;
    if a == [] {
      assert a + b == b;
    } else {
      assert (a + b)[1..] == a[1..] + b;
      RunBoth(Step(w, a[0]), a[1..], b);
    }
  }

  // ----- What the lists still hold -----

  predicate EndsIn(s: seq<nat>, t: seq<nat>) {
    |t| <= |s| && s[|s| - |t|..] == t
  }

  /** The lists end in the failures since the clock last went back that are in the window. */
  ghost predicate Holding(l: Lists, recent: seq<Recorded>, clock: nat) {
    && EndsIn(l.global, Times(recent, Cutoff(clock)))
    && forall peer :: EndsIn(Lookup(l.peers, peer), PeerTimes(recent, peer, Cutoff(clock)))
  }

  lemma {:induction false} KeptBoth(a: seq<nat>, b: seq<nat>, cutoff: nat)
    ensures Kept(a + b, cutoff) == Kept(a, cutoff) + Kept(b, cutoff)
    decreases |b|
  {
    if b == [] {
      assert a + b == a;
      KeptEmpty(cutoff);
    } else {
      var fewer, last := b[..|b| - 1], b[|b| - 1];
      KeptBoth(a, fewer, cutoff);
      KeptAppend(a + fewer, last, cutoff);
      KeptAppend(fewer, last, cutoff);
      assert a + b == (a + fewer) + [last] && b == fewer + [last];
    }
  }

  lemma EndsInKept(s: seq<nat>, t: seq<nat>, cutoff: nat)
    requires EndsIn(s, t)
    ensures EndsIn(Kept(s, cutoff), Kept(t, cutoff))
  {
    hide Kept;
    var front := s[..|s| - |t|];
    assert s == front + t;
    KeptBoth(front, t, cutoff);
  }

  lemma PruningHolds(l: Lists, recent: seq<Recorded>, clock: nat, now: nat)
    requires Holding(l, recent, clock) && clock <= now
    ensures Holding(Pruned(l, now), recent, now)
  {
    hide Times, PeerTimes, Kept, EndsIn;
    var cutoff := Cutoff(now);
    EndsInKept(l.global, Times(recent, Cutoff(clock)), cutoff);
    KeptTimes(recent, Cutoff(clock), cutoff);
    forall peer
      ensures EndsIn(Lookup(Pruned(l, now).peers, peer), PeerTimes(recent, peer, cutoff))
    {
      PrunedLookup(l, now, peer);
      EndsInKept(Lookup(l.peers, peer), PeerTimes(recent, peer, Cutoff(clock)), cutoff);
      KeptPeerTimes(recent, peer, Cutoff(clock), cutoff);
    }
  }

  lemma NothingHeld(l: Lists, clock: nat)
    ensures Holding(l, [], clock)
  {
  }

  function Appended(l: Lists, r: Recorded): Lists {
    l.(global := l.global + [r.at], peers := l.peers[r.peer := Lookup(l.peers, r.peer) + [r.at]])
  }

  lemma AppendHolds(l: Lists, recent: seq<Recorded>, r: Recorded)
    requires Holding(l, recent, r.at)
    ensures Holding(Appended(l, r), recent + [r], r.at)
  {
    hide Times, PeerTimes;
    TimesAppend(recent, r, Cutoff(r.at));
  }

  lemma HoldingIgnores(l: Lists, after: Lists, recent: seq<Recorded>, clock: nat)
    requires Holding(l, recent, clock) && after.global == l.global && after.peers == l.peers
    ensures Holding(after, recent, clock)
  {
    hide Times, PeerTimes, EndsIn;
  }

  /** Whoever is let in would have been let in with only the recent failures on record. */
  lemma AdmitsFewer(w: World, id: nat, peer: string)
    requires Holding(Pruned(w.lists, w.clock), w.recent, w.clock) && Admit(w.lists, id, peer, w.clock).1.Ok?
    ensures Begin(Recent(w), id, peer, w.clock) == (Recent(w).(pending := w.lists.pending + {id}), Ok(()))
  {
    hide Times, PeerTimes, Kept;
    var p := Pruned(w.lists, w.clock);
    assert EndsIn(p.global, Times(w.recent, Cutoff(w.clock)));
    assert EndsIn(Lookup(p.peers, peer), PeerTimes(w.recent, peer, Cutoff(w.clock)));
  }

  /** What `Admit` does to the lists. */
  lemma AdmitPrunes(l: Lists, id: nat, peer: string, now: nat)
    ensures var (after, r) := Admit(l, id, peer, now);
            && after == Pruned(l, now).(pending := if r.Ok? then l.pending + {id} else l.pending)
            && after.active == l.active && (r.Ok? ==> |l.pending| < MAX_PENDING)
  {
  }

  // ----- What any caller can cause -----

  /** Up to the last time the clock went back. */
  ghost predicate BeforeWithin(w: World) {
    && w.lateBefore <= w.late
    && (forall peer, from :: PeerWindow(w.before, peer, from) <= PEER_BOUND * w.setbacks + w.lateBefore)
    && (forall from :: GlobalWindow(w.before, from) <= GLOBAL_BOUND * w.setbacks + w.lateBefore)
  }

  ghost predicate RecentWithin(w: World) {
    && w.lateBefore <= w.late && |w.lists.pending| <= MAX_PENDING
    && Room(Recent(w), w.owner, w.late - w.lateBefore, w.clock)
    && Past(w.recent, w.late - w.lateBefore, w.clock)
  }

  ghost predicate Within(w: World) {
    BeforeWithin(w) && RecentWithin(w) && Holding(w.lists, w.recent, w.clock)
  }

  lemma {:induction false} WindowsAdd(a: seq<Recorded>, b: seq<Recorded>, peer: string, from: nat)
    ensures PeerWindow(a + b, peer, from) == PeerWindow(a, peer, from) + PeerWindow(b, peer, from)
    ensures GlobalWindow(a + b, from) == GlobalWindow(a, from) + GlobalWindow(b, from)
    decreases |b|
  {
    if b == [] {
      assert a + b == a;
    } else {
      var fewer := b[..|b| - 1];
      WindowsAdd(a, fewer, peer, from);
      assert (a + b)[..|a + b| - 1] == a + fewer;
    }
  }

  /** Both parts together. */
  lemma AllWithin(w: World, peer: string, from: nat)
    requires Within(w)
    ensures PeerWindow(History(w), peer, from) <= PEER_BOUND * (1 + w.setbacks) + w.late
    ensures GlobalWindow(History(w), from) <= GLOBAL_BOUND * (1 + w.setbacks) + w.late
  {
    hide Room, PeerWindow, GlobalWindow, Holding, Bounded;
    var slack := w.late - w.lateBefore;
    BoundedWindows(w.recent, PEER_BOUND + slack, GLOBAL_BOUND + slack, peer, from);
    WindowsAdd(w.before, w.recent, peer, from);
  }

  /** At most eight pending connections always leave room for their failures. */
  lemma FreshRoom(v: View, owner: map<nat, string>, clock: nat)
    requires |v.pending| <= MAX_PENDING && v.history == []
    ensures Room(v, owner, 0, clock) && Past([], 0, clock)
  {
    forall peer
      ensures PeerRoom(v, owner, 0, clock, peer)
    {
      SmallerSet(PendingOf(v, owner, peer), v.pending);
    }
  }

  /** As `Within`, once the lists are pruned. */
  ghost predicate Ready(w: World) {
    BeforeWithin(w) && RecentWithin(w) && Holding(Pruned(w.lists, w.clock), w.recent, w.clock)
  }

  lemma ReadKeepsWithin(w0: World, now: nat)
    requires Within(w0)
    ensures Ready(Read(w0, now)) && Read(w0, now).clock == now
  {
    hide Room, Past, PeerWindow, GlobalWindow, Holding, Pruned;
    var w := Read(w0, now);
    if w0.clock <= now {
      ClockKeepsRoom(Recent(w0), w0.owner, w0.late - w0.lateBefore, w0.clock, now);
      ClockKeepsPast(w0.recent, w0.late - w0.lateBefore, w0.clock, now);
      PruningHolds(w0.lists, w0.recent, w0.clock, now);
    } else {
      FreshRoom(Recent(w), w.owner, now);
      NothingHeld(Pruned(w.lists, now), now);
      forall peer, from
        ensures PeerWindow(w.before, peer, from) <= PEER_BOUND * w.setbacks + w.lateBefore
      {
        AllWithin(w0, peer, from);
      }
      forall from
        ensures GlobalWindow(w.before, from) <= GLOBAL_BOUND * w.setbacks + w.lateBefore
      {
        AllWithin(w0, "", from);
      }
    }
  }

  lemma BeginKeepsWithin(w: World, id: nat, peer: string)
    requires Ready(w)
    ensures Within(AfterBegin(w, id, peer))
  {
    hide Room, Past, Holding, BeforeWithin, Pruned, Admit;
    var slack, after := w.late - w.lateBefore, AfterBegin(w, id, peer);
    AdmitPrunes(w.lists, id, peer, w.clock);
    SamePast(w, after);
    HoldingIgnores(Pruned(w.lists, w.clock), after.lists, w.recent, w.clock);
    if Admit(w.lists, id, peer, w.clock).1.Ok? && id !in w.lists.pending {
      AdmitsFewer(w, id, peer);
      BeginKeepsRoom(Recent(w), w.owner, slack, w.clock, id, peer);
      assert Recent(after) == Recent(w).(pending := w.lists.pending + {id});
    } else {
      assert id in w.lists.pending ==> w.lists.pending + {id} == w.lists.pending;
      assert Recent(after) == Recent(w);
    }
  }

  /** A connection that leaves keeps everything else in place. */
  lemma PlaceKeepsWithin(w: World, v: View)
    requires Within(w) && v.pending <= w.lists.pending && v.history == w.recent
    ensures Within(Place(w, v))
  {
    hide Past, Room, BeforeWithin, Holding;
    assert Recent(Place(w, v)) == v;
    FewerKeepRoom(Recent(w), v, w.owner, w.late - w.lateBefore, w.clock);
    SmallerSet(v.pending, w.lists.pending);
    HoldingIgnores(w.lists, Place(w, v).lists, w.recent, w.clock);
    SamePast(w, Place(w, v));
  }

  lemma SamePast(w: World, after: World)
    requires BeforeWithin(w) && after.before == w.before && after.setbacks == w.setbacks
    requires after.lateBefore == w.lateBefore && w.late <= after.late
    ensures BeforeWithin(after)
  {
  }

  lemma RecordKeepsWithin(w: World, id: nat, peer: string)
    requires Ready(w)
    ensures Within(AfterFailure(w, id, peer))
  {
    hide Room, Past, Holding, BeforeWithin, Pruned;
    var p, after, r := Pruned(w.lists, w.clock), AfterFailure(w, id, peer), Recorded(id, peer, w.clock);
    var slack, more := w.late - w.lateBefore, after.late - after.lateBefore;
    PrunedPending(w.lists, w.clock);
    SamePast(w, after);
    RecordKeepsRoom(Recent(w), w.owner, slack, w.clock, id, peer);
    assert Recent(after) == Record(Recent(w), id, peer, w.clock);
    AppendKeepsPast(w.recent, slack, more, w.clock, r, Recent(after), w.owner);
    AppendHolds(p, w.recent, r);
    HoldingIgnores(Appended(p, r), after.lists, after.recent, w.clock);
    SmallerSet(after.lists.pending, w.lists.pending);
  }

  lemma PrunedPending(l: Lists, now: nat)
    ensures Pruned(l, now).pending == l.pending && Pruned(l, now).active == l.active
  {
  }

  lemma {:induction false} RunKeepsWithin(w: World, calls: seq<Timed>)
    requires Within(w)
    ensures Within(Run(w, calls))
    decreases |calls|
  {
    hide Step, Within;
    if calls != [] {
      StepKeepsWithin(w, calls[0]);
      RunKeepsWithin(Step(w, calls[0]), calls[1..]);
    }
  }

  lemma StepKeepsWithin(w: World, t: Timed)
    requires Within(w)
    ensures Within(Step(w, t))
  {
    hide Within, Ready, AfterBegin, AfterFailure, Read;
    match t.call
    case Begins(id) =>
      ReadKeepsWithin(w, t.now);
      BeginKeepsWithin(Read(w, t.now), id, t.peer);
    case Succeeds(id) => PlaceKeepsWithin(w, Succeed(Recent(w), id).0);
    case Records(id) =>
      ReadKeepsWithin(w, t.now);
      RecordKeepsWithin(Read(w, t.now), id, t.peer);
    case Ends(id) =>
      PlaceKeepsWithin(w, End(Recent(w), id));
      OverIgnored(Place(w, End(Recent(w), id)), w.over + {id});
  }

  lemma OverIgnored(w: World, over: set<nat>)
    requires Within(w)
    ensures Within(w.(over := over))
  {
    hide Room, Past, Holding;
  }

  lemma NobodyWithin()
    ensures Within(NOBODY)
  {
    FreshRoom(Recent(NOBODY), map[], 0);
    hide Room, Past;
    NothingHeld(NOBODY.lists, 0);
  }

  /** Whatever its callers do, and whatever their readings of the clock, any 60 s hold at most 12
      recorded failures of one peer and 27 of all, as many again for each time the clock went
      back, and one more for each failure recorded late. */
  lemma OnlyLatenessAndSetbacksExceed(calls: seq<Timed>, peer: string, from: nat)
    ensures var w := Run(NOBODY, calls);
            && PeerWindow(History(w), peer, from) <= 12 * (1 + w.setbacks) + w.late
            && GlobalWindow(History(w), from) <= 27 * (1 + w.setbacks) + w.late
  {
    hide Run, Within;
    NobodyWithin();
    RunKeepsWithin(NOBODY, calls);
    AllWithin(Run(NOBODY, calls), peer, from);
  }
}
