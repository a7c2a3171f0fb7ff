/** The sliding-window admission controller (AdmissionController.swift).

    The controller keeps pruned lists of recent failures. Its methods are proved
    against a view that keeps every failure ever recorded. */
module Admission {
  import opened Basics
  import opened Transcript

  const MAX_PENDING := 8
  const MAX_FAILURES_PER_PEER := 5
  const MAX_FAILURES_GLOBAL := 20
  const FAILURE_WINDOW_NANOS := 60_000_000_000

  /** One call of `recordFailure`. */
  datatype Recorded = Recorded(connection: nat, peer: string, at: nat)

  function Cutoff(now: nat): nat {
    if now > FAILURE_WINDOW_NANOS then now - FAILURE_WINDOW_NANOS else 0
  }

  /** Times of all failures from `cutoff` on. */
  function Times(h: seq<Recorded>, cutoff: nat): seq<nat> {
    if h == [] then []
    else
      var last := h[|h| - 1];
      Times(h[..|h| - 1], cutoff) + if last.at >= cutoff then [last.at] else []
  }

  /** Times of the failures of one peer from `cutoff` on. */
  function PeerTimes(h: seq<Recorded>, peer: string, cutoff: nat): seq<nat> {
    if h == [] then []
    else
      var last := h[|h| - 1];
      PeerTimes(h[..|h| - 1], peer, cutoff) + if last.peer == peer && last.at >= cutoff then [last.at] else []
  }

  /** The controller as its callers see it: who waits, who is active, and all failures. */
  datatype View = View(pending: set<nat>, active: Option<nat>, history: seq<Recorded>)

  function Begin(v: View, id: nat, peer: string, now: nat): (View, Result<(), Failure>) {
    if v.active.Some? || |v.pending| >= MAX_PENDING then (v, Err(ResourceLimit))
    else if |Times(v.history, Cutoff(now))| >= MAX_FAILURES_GLOBAL
            || |PeerTimes(v.history, peer, Cutoff(now))| >= MAX_FAILURES_PER_PEER then (v, Err(RateLimited))
    else (v.(pending := v.pending + {id}), Ok(()))
  }

  function Succeed(v: View, id: nat): (View, bool) {
    if id !in v.pending then (v, false)
    else if v.active.Some? then (v.(pending := v.pending - {id}), false)
    else (v.(pending := v.pending - {id}, active := Some(id)), true)
  }

  function Record(v: View, id: nat, peer: string, now: nat): View {
    v.(pending := v.pending - {id}, history := v.history + [Recorded(id, peer, now)])
  }

  function End(v: View, id: nat): View {
    v.(pending := v.pending - {id}, active := if v.active == Some(id) then None else v.active)
  }

  // ----- Pruning -----

  /** `removeAll { $0 < cutoff }`. */
  function Kept(times: seq<nat>, cutoff: nat): (r: seq<nat>)
    ensures forall t :: t in r ==> t in times
  {
    if times == [] then []
    else
      var last := times[|times| - 1];
      Kept(times[..|times| - 1], cutoff) + if last >= cutoff then [last] else []
  }

  lemma KeptAppend(times: seq<nat>, t: nat, cutoff: nat)
    ensures Kept(times + [t], cutoff) == Kept(times, cutoff) + if t >= cutoff then [t] else []
  {
    assert (times + [t])[..|times|] == times;
  }

  lemma {:induction false} KeptTimes(h: seq<Recorded>, earlier: nat, later: nat)
    requires earlier <= later
    ensures Kept(Times(h, earlier), later) == Times(h, later)
    decreases |h|
  {
    if h != [] {
      var front, last := h[..|h| - 1], h[|h| - 1];
      KeptTimes(front, earlier, later);
      KeptAppend(Times(front, earlier), last.at, later);
      assert Times(front, earlier) + [] == Times(front, earlier);
    }
  }

  lemma {:induction false} KeptPeerTimes(h: seq<Recorded>, peer: string, earlier: nat, later: nat)
    requires earlier <= later
    ensures Kept(PeerTimes(h, peer, earlier), later) == PeerTimes(h, peer, later)
    decreases |h|
  {
    if h != [] {
      var front, last := h[..|h| - 1], h[|h| - 1];
      KeptPeerTimes(front, peer, earlier, later);
      KeptAppend(PeerTimes(front, peer, earlier), last.at, later);
      assert PeerTimes(front, peer, earlier) + [] == PeerTimes(front, peer, earlier);
    }
  }

  lemma TimesAppend(h: seq<Recorded>, r: Recorded, cutoff: nat)
    ensures Times(h + [r], cutoff) == Times(h, cutoff) + if r.at >= cutoff then [r.at] else []
    ensures forall peer :: PeerTimes(h + [r], peer, cutoff)
                           == PeerTimes(h, peer, cutoff) + if r.peer == peer && r.at >= cutoff then [r.at] else []
  {
    assert (h + [r])[..|h|] == h;
  }

  function Lookup(m: map<string, seq<nat>>, peer: string): seq<nat> {
    if peer in m then m[peer] else []
  }

  // ----- The controller on values -----

  /** What the controller holds: who waits, who is active, and the pruned lists. */
  datatype Lists = Lists(pending: set<nat>, active: Option<nat>, global: seq<nat>, peers: map<string, seq<nat>>)

  /** `prune`, which goes by the reading it is given and leaves out peers without a failure. */
  function Pruned(l: Lists, now: nat): Lists {
    var cutoff := Cutoff(now);
    l.(global := Kept(l.global, cutoff),
       peers := map peer | peer in l.peers && Kept(l.peers[peer], cutoff) != [] :: Kept(l.peers[peer], cutoff))
  }

  function Admit(l: Lists, id: nat, peer: string, now: nat): (Lists, Result<(), Failure>) {
    var p := Pruned(l, now);
    if p.active.Some? || |p.pending| >= MAX_PENDING then (p, Err(ResourceLimit))
    else if |p.global| >= MAX_FAILURES_GLOBAL || |Lookup(p.peers, peer)| >= MAX_FAILURES_PER_PEER then
      (p, Err(RateLimited))
    else (p.(pending := p.pending + {id}), Ok(()))
  }

  function AddFailure(l: Lists, id: nat, peer: string, now: nat): Lists {
    var p := Pruned(l, now);
    p.(pending := p.pending - {id}, global := p.global + [now],
       peers := p.peers[peer := Lookup(p.peers, peer) + [now]])
  }

  lemma PrunedLookup(l: Lists, now: nat, peer: string)
    ensures Lookup(Pruned(l, now).peers, peer) == Kept(Lookup(l.peers, peer), Cutoff(now))
  {
    hide Cutoff;
    KeptEmpty(Cutoff(now));
  }

  lemma AppendedLookup(peers: map<string, seq<nat>>, peer: string, t: nat)
    ensures forall p :: Lookup(peers[peer := Lookup(peers, peer) + [t]], p)
                        == Lookup(peers, p) + if p == peer then [t] else []
  {
  }

  lemma AddedLookup(l: Lists, id: nat, peer: string, now: nat)
    ensures forall p :: Lookup(AddFailure(l, id, peer, now).peers, p)
                        == Kept(Lookup(l.peers, p), Cutoff(now)) + if p == peer then [now] else []
  {
    hide Kept, Lookup, Cutoff, Pruned;
    AppendedLookup(Pruned(l, now).peers, peer, now);
    forall p
      ensures Lookup(Pruned(l, now).peers, p) == Kept(Lookup(l.peers, p), Cutoff(now))
    {
      PrunedLookup(l, now, p);
    }
  }

  class AdmissionController {
    var pending: set<nat>
    var active: Option<nat>
    var globalFailures: seq<nat>
    var peerFailures: map<string, seq<nat>>
    /** Every failure ever recorded, the clock reading last pruned with, and whether no
        reading so far was before an earlier one. */
    ghost var history: seq<Recorded>
    ghost var clock: nat
    ghost var steady: bool

    /** The pruned lists hold exactly the in-window part of the history, unless the clock went
        back; and no peer without a failure in the window takes up room. */
    ghost predicate Valid()
      reads this
    {
      && (forall peer :: peer in peerFailures ==> peerFailures[peer] != [])
      && (steady ==>
            && globalFailures == Times(history, Cutoff(clock))
            && forall peer :: Lookup(peerFailures, peer) == PeerTimes(history, peer, Cutoff(clock)))
    }

    ghost function Seen(): View
      reads this
    {
      View(pending, active, history)
    }

    ghost function Held(): Lists
      reads this
    {
      Lists(pending, active, globalFailures, peerFailures)
    }

    constructor ()
      ensures Valid() && Seen() == View({}, None, []) && clock == 0 && steady
    {
      pending, active, globalFailures, peerFailures := {}, None, [], map[];
      history, clock, steady := [], 0, true;
    }

    method Prune(now: nat)
      requires Valid()
      modifies this`globalFailures, this`peerFailures, this`clock, this`steady
      ensures Valid() && clock == now && steady == (old(steady) && old(clock) <= now)
      ensures Held() == Pruned(old(Held()), now)
    {
      hide Times, PeerTimes, Kept;
      var cutoff := Cutoff(now);
      if steady && clock <= now {
        KeptTimes(history, Cutoff(clock), cutoff);
        forall peer
          ensures Kept(Lookup(peerFailures, peer), cutoff) == PeerTimes(history, peer, cutoff)
        {
          KeptPeerTimes(history, peer, Cutoff(clock), cutoff);
        }
      }
      KeptEmpty(cutoff);
      globalFailures := Kept(globalFailures, cutoff);
      peerFailures := map peer | peer in peerFailures && Kept(peerFailures[peer], cutoff) != []
                        :: Kept(peerFailures[peer], cutoff);
      steady := steady && clock <= now;
      clock := now;
    }

    method TryBegin(id: nat, peer: string, now: nat) returns (r: Result<(), Failure>)
      requires Valid()
      modifies this
      ensures Valid() && clock == now && steady == (old(steady) && old(clock) <= now)
      ensures steady ==> (Seen(), r) == Begin(old(Seen()), id, peer, now)
      ensures (Held(), r) == Admit(old(Held()), id, peer, now)
      ensures r.Ok? <==> old(active) == None && |old(pending)| < MAX_PENDING && |globalFailures| < MAX_FAILURES_GLOBAL
                         && |Lookup(peerFailures, peer)| < MAX_FAILURES_PER_PEER
      ensures Seen() == old(Seen()).(pending := if r.Ok? then old(pending) + {id} else old(pending))
    {
      hide Times, PeerTimes;
      Prune(now);
      if !(active == None && |pending| < MAX_PENDING) {
        return Err(ResourceLimit);
      }
      if !(|globalFailures| < MAX_FAILURES_GLOBAL && |Lookup(peerFailures, peer)| < MAX_FAILURES_PER_PEER) {
        return Err(RateLimited);
      }
      pending := pending + {id};
      r := Ok(());
    }

    method AuthenticationSucceeded(id: nat) returns (ok: bool)
      requires Valid()
      modifies this`pending, this`active
      ensures Valid()
      ensures (Seen(), ok) == Succeed(old(Seen()), id)
    {
      var wasPending := id in pending;
      assert !wasPending ==> pending - {id} == pending;
      pending := pending - {id};
      if !(wasPending && active == None) {
        return false;
      }
      active := Some(id);
      ok := true;
    }

    method RecordFailure(id: nat, peer: string, now: nat)
      requires Valid()
      modifies this
      ensures Valid() && clock == now && steady == (old(steady) && old(clock) <= now)
      ensures Seen() == Record(old(Seen()), id, peer, now)
      ensures Held() == AddFailure(old(Held()), id, peer, now)
      ensures globalFailures == Kept(old(globalFailures), Cutoff(now)) + [now]
      ensures forall p :: Lookup(peerFailures, p)
                          == Kept(Lookup(old(peerFailures), p), Cutoff(now)) + if p == peer then [now] else []
    {
      hide Times, PeerTimes, Kept;
      AddedLookup(Held(), id, peer, now);
      assert now >= Cutoff(now);
      hide Lookup, Cutoff;
      pending := pending - {id};
      Prune(now);
      TimesAppend(history, Recorded(id, peer, now), Cutoff(now));
      globalFailures := globalFailures + [now];
      AppendedLookup(peerFailures, peer, now);
      peerFailures := peerFailures[peer := Lookup(peerFailures, peer) + [now]];
      history := history + [Recorded(id, peer, now)];
    }

    method EndConnection(id: nat)
      requires Valid()
      modifies this`pending, this`active
      ensures Valid()
      ensures Seen() == End(old(Seen()), id)
    {
      pending := pending - {id};
      if active == Some(id) {
        active := None;
      }
    }

    method Counts() returns (waiting: nat, running: nat)
      ensures waiting == |pending| && running == if active == None then 0 else 1
    {
      waiting := |pending|;
      running := if active == None then 0 else 1;
    }
  }

  lemma KeptEmpty(cutoff: nat)
    ensures Kept([], cutoff) == []
  {
  }

  // ----- Counting failures in a window -----

  ghost predicate Sorted(h: seq<Recorded>) {
    forall i, j :: 0 <= i < j < |h| ==> h[i].at <= h[j].at
  }

  /** Number of failures of `peer` with `from <= at <= from + 60 s`. */
  function PeerWindow(h: seq<Recorded>, peer: string, from: nat): nat {
    if h == [] then 0
    else
      var last := h[|h| - 1];
      PeerWindow(h[..|h| - 1], peer, from)
      + if last.peer == peer && from <= last.at <= from + FAILURE_WINDOW_NANOS then 1 else 0
  }

  /** Number of failures of any peer with `from <= at <= from + 60 s`. */
  function GlobalWindow(h: seq<Recorded>, from: nat): nat {
    if h == [] then 0
    else
      var last := h[|h| - 1];
      GlobalWindow(h[..|h| - 1], from) + if from <= last.at <= from + FAILURE_WINDOW_NANOS then 1 else 0
  }

  lemma {:induction false} TimesShrink(h: seq<Recorded>, peer: string, earlier: nat, later: nat)
    requires earlier <= later
    ensures |Times(h, later)| <= |Times(h, earlier)|
    ensures |PeerTimes(h, peer, later)| <= |PeerTimes(h, peer, earlier)|
    decreases |h|
  {
    if h != [] {
      TimesShrink(h[..|h| - 1], peer, earlier, later);
    }
  }

  lemma {:induction false} WindowWithinTimes(h: seq<Recorded>, peer: string, from: nat)
    ensures PeerWindow(h, peer, from) <= |PeerTimes(h, peer, from)|
    ensures GlobalWindow(h, from) <= |Times(h, from)|
    decreases |h|
  {
    if h != [] {
      WindowWithinTimes(h[..|h| - 1], peer, from);
    }
  }

  ghost predicate PeersWithin(h: seq<Recorded>, cutoff: nat, perPeer: nat) {
    forall peer :: |PeerTimes(h, peer, cutoff)| <= perPeer
  }

  /** What the limits allow at the moment each failure is recorded. */
  ghost predicate Bounded(h: seq<Recorded>, perPeer: nat, global: nat) {
    && (forall k :: 0 <= k < |h| ==> |Times(h[..k + 1], Cutoff(h[k].at))| <= global)
    && (forall k :: 0 <= k < |h| ==> PeersWithin(h[..k + 1], Cutoff(h[k].at), perPeer))
  }

  /** A bound at each recording is a bound in every window of 60 s, closed on both sides. */
  lemma {:induction false} BoundedWindows(h: seq<Recorded>, perPeer: nat, global: nat, peer: string, from: nat)
    requires Sorted(h) && Bounded(h, perPeer, global)
    ensures PeerWindow(h, peer, from) <= perPeer && GlobalWindow(h, from) <= global
    decreases |h|
  {
    hide Times, PeerTimes;
    if h != [] {
      var last := |h| - 1;
      if h[last].at <= from + FAILURE_WINDOW_NANOS {
        assert h[..last + 1] == h;
        WindowWithinTimes(h, peer, from);
        TimesShrink(h, peer, Cutoff(h[last].at), from);
      } else {
        var front := h[..last];
        forall k | 0 <= k < |front|
          ensures front[..k + 1] == h[..k + 1] && front[k] == h[k]
        {
        }
        BoundedWindows(front, perPeer, global, peer, from);
      }
    }
  }

  // ----- Room for failures -----

  const PEER_BOUND := MAX_FAILURES_PER_PEER - 1 + MAX_PENDING
  const GLOBAL_BOUND := MAX_FAILURES_GLOBAL - 1 + MAX_PENDING

  /** Connections of one peer that may still fail; `owner` names the peer of each. */
  ghost function PendingOf(v: View, owner: map<nat, string>, peer: string): set<nat> {
    set id | id in v.pending && id in owner && owner[id] == peer
  }

  /** Failures of one peer in the window, and what may still be added to them. */
  ghost predicate PeerRoom(v: View, owner: map<nat, string>, slack: nat, clock: nat, peer: string) {
    |PeerTimes(v.history, peer, Cutoff(clock))| + |PendingOf(v, owner, peer)| <= PEER_BOUND + slack
  }

  ghost predicate Room(v: View, owner: map<nat, string>, slack: nat, clock: nat) {
    && |Times(v.history, Cutoff(clock))| + |v.pending| <= GLOBAL_BOUND + slack
    && forall peer :: PeerRoom(v, owner, slack, clock, peer)
  }

  /** There was room at every recording so far. */
  ghost predicate Past(h: seq<Recorded>, slack: nat, clock: nat) {
    && Sorted(h) && (forall k :: 0 <= k < |h| ==> h[k].at <= clock)
    && Bounded(h, PEER_BOUND + slack, GLOBAL_BOUND + slack)
  }

  lemma SmallerSet(a: set<nat>, b: set<nat>)
    requires a <= b
    ensures |a| <= |b|
  {
    assert b == a + (b - a);
  }

  lemma NobodyHasRoom(owner: map<nat, string>)
    ensures Room(View({}, None, []), owner, 0, 0) && Past([], 0, 0)
  {
    forall peer
      ensures PeerRoom(View({}, None, []), owner, 0, 0, peer)
    {
      assert PendingOf(View({}, None, []), owner, peer) == {};
    }
  }

  lemma ClockKeepsRoom(v: View, owner: map<nat, string>, slack: nat, clock: nat, now: nat)
    requires Room(v, owner, slack, clock) && clock <= now
    ensures Room(v, owner, slack, now)
  {
    hide Times, PeerTimes;
    TimesShrink(v.history, "", Cutoff(clock), Cutoff(now));
    forall peer
      ensures PeerRoom(v, owner, slack, now, peer)
    {
      assert PeerRoom(v, owner, slack, clock, peer);
      TimesShrink(v.history, peer, Cutoff(clock), Cutoff(now));
    }
  }

  /** Fewer pending connections leave no less room. */
  lemma FewerKeepRoom(v: View, fewer: View, owner: map<nat, string>, slack: nat, clock: nat)
    requires Room(v, owner, slack, clock) && fewer.history == v.history && fewer.pending <= v.pending
    ensures Room(fewer, owner, slack, clock)
  {
    hide Times, PeerTimes;
    SmallerSet(fewer.pending, v.pending);
    forall peer
      ensures PeerRoom(fewer, owner, slack, clock, peer)
    {
      assert PeerRoom(v, owner, slack, clock, peer);
      SmallerSet(PendingOf(fewer, owner, peer), PendingOf(v, owner, peer));
    }
  }

  /** Beginning stays within the limits because it is refused once they are reached. */
  lemma BeginKeepsRoom(v: View, owner: map<nat, string>, slack: nat, clock: nat, id: nat, peer: string)
    requires Room(v, owner, slack, clock) && id !in v.pending && Begin(v, id, peer, clock).1.Ok?
    ensures Room(Begin(v, id, peer, clock).0, owner[id := peer], slack, clock)
  {
    hide Times, PeerTimes;
    var after, owners := Begin(v, id, peer, clock).0, owner[id := peer];
    forall p
      ensures PeerRoom(after, owners, slack, clock, p)
    {
      assert PeerRoom(v, owner, slack, clock, p);
      if p == peer {
        SmallerSet(PendingOf(after, owners, p), after.pending);
      } else {
        assert PendingOf(after, owners, p) == PendingOf(v, owner, p);
      }
    }
  }

  /** A failure takes the room kept for its connection; a late one needs some of its own. */
  lemma RecordKeepsRoom(v: View, owner: map<nat, string>, slack: nat, clock: nat, id: nat, peer: string)
    requires Room(v, owner, slack, clock)
    ensures Room(Record(v, id, peer, clock), owner, slack + 1, clock)
    ensures id in PendingOf(v, owner, peer) ==> Room(Record(v, id, peer, clock), owner, slack, clock)
  {
    hide Times, PeerTimes;
    var after, more := Record(v, id, peer, clock), slack + 1;
    var kept := id in PendingOf(v, owner, peer);
    TimesAppend(v.history, Recorded(id, peer, clock), Cutoff(clock));
    SmallerSet(after.pending, v.pending);
    forall p
      ensures PeerRoom(after, owner, more, clock, p) && (kept ==> PeerRoom(after, owner, slack, clock, p))
    {
      assert PeerRoom(v, owner, slack, clock, p);
      SmallerSet(PendingOf(after, owner, p), PendingOf(v, owner, p));
      if p == peer && kept {
        assert PendingOf(after, owner, p) <= PendingOf(v, owner, p) - {id};
        SmallerSet(PendingOf(after, owner, p), PendingOf(v, owner, p) - {id});
      }
    }
    assert Room(after, owner, more, clock);
  }

  lemma RoomNow(v: View, owner: map<nat, string>, slack: nat, clock: nat)
    requires Room(v, owner, slack, clock)
    ensures |Times(v.history, Cutoff(clock))| <= GLOBAL_BOUND + slack
    ensures PeersWithin(v.history, Cutoff(clock), PEER_BOUND + slack)
  {
    hide Times, PeerTimes;
    forall peer
      ensures |PeerTimes(v.history, peer, Cutoff(clock))| <= PEER_BOUND + slack
    {
      assert PeerRoom(v, owner, slack, clock, peer);
    }
  }

  /** A failure recorded now, with room left after it, keeps the past bounded. */
  lemma AppendKeepsPast(h: seq<Recorded>, slack: nat, more: nat, clock: nat, r: Recorded, after: View,
                        owner: map<nat, string>)
    requires Past(h, slack, clock) && r.at == clock && slack <= more
    requires after.history == h + [r] && Room(after, owner, more, clock)
    ensures Past(h + [r], more, clock)
  {
    hide Times, PeerTimes;
    var g := h + [r];
    forall k | 0 <= k < |g|
      ensures |Times(g[..k + 1], Cutoff(g[k].at))| <= GLOBAL_BOUND + more
      ensures PeersWithin(g[..k + 1], Cutoff(g[k].at), PEER_BOUND + more)
    {
      if k < |h| {
        assert g[..k + 1] == h[..k + 1] && g[k] == h[k];
        assert PeersWithin(h[..k + 1], Cutoff(h[k].at), PEER_BOUND + slack);
      } else {
        assert g[..k + 1] == g;
        RoomNow(after, owner, more, clock);
      }
    }
  }

  lemma ClockKeepsPast(h: seq<Recorded>, slack: nat, clock: nat, now: nat)
    requires Past(h, slack, clock) && clock <= now
    ensures Past(h, slack, now)
  {
    hide Bounded;
  }
}
