/** The bounds on recorded failures are attained: callers that record every failure once, after
    its connection was let in and before its end, reach 12 failures of one peer and 27 of all,
    as many again for each time they let the clock go back, and one more for each failure of a
    refused connection that they hold back. */
module AdmissionAttained {
  import opened Basics
  import opened Admission
  import opened AdmissionAlone

  // ----- Histories at one instant -----

  /** All connections belong to one peer, or each to one of its own. */
  function Peer(one: bool, id: nat): string {
    if one then "peer" else seq(id, _ => 'p')
  }

  /** Everything was recorded at 0, for connections below `next`. */
  ghost predicate AtZero(h: seq<Recorded>, one: bool, next: nat) {
    forall k :: 0 <= k < |h| ==> h[k].at == 0 && if one then h[k].peer == "peer" else |h[k].peer| < next
  }

  lemma {:induction false} CountsAtZero(h: seq<Recorded>, one: bool, next: nat)
    requires AtZero(h, one, next)
    ensures GlobalWindow(h, 0) == |h| && (one ==> PeerWindow(h, "peer", 0) == |h|)
    decreases |h|
  {
    if h != [] {
      CountsAtZero(h[..|h| - 1], one, next);
    }
  }

  predicate AllZero(times: seq<nat>) {
    forall k :: 0 <= k < |times| ==> times[k] == 0
  }

  lemma {:induction false} KeptZeros(times: seq<nat>, cutoff: nat)
    requires AllZero(times)
    ensures Kept(times, cutoff) == if cutoff == 0 then times else []
    decreases |times|
  {
    if times != [] {
      KeptZeros(times[..|times| - 1], cutoff);
    }
  }

  /** The lists hold `failures` at 0, none for a peer of a connection from `next` on. */
  ghost predicate ListsAtZero(l: Lists, one: bool, next: nat, failures: nat) {
    && AllZero(l.global) && |l.global| == failures
    && (forall peer :: AllZero(Lookup(l.peers, peer)))
    && (one ==> |Lookup(l.peers, "peer")| == failures)
    && (!one ==> forall peer :: |peer| >= next ==> Lookup(l.peers, peer) == [])
  }

  /** Pruning at 0 takes nothing away, pruning later takes all. */
  lemma PrunedAtZero(l: Lists, one: bool, next: nat, failures: nat, now: nat)
    requires ListsAtZero(l, one, next, failures)
    ensures now == 0 ==> ListsAtZero(Pruned(l, now), one, next, failures)
    ensures now > FAILURE_WINDOW_NANOS ==> ListsAtZero(Pruned(l, now), one, 0, 0)
  {
    hide Kept, AllZero, Pruned;
    assert AllZero([]) by {
      ZerosIn([]);
    }
    KeptZeros(l.global, Cutoff(now));
    forall peer
      ensures Lookup(Pruned(l, now).peers, peer)
              == if Cutoff(now) == 0 then Lookup(l.peers, peer) else []
    {
      KeptZeros(Lookup(l.peers, peer), Cutoff(now));
      PrunedLookup(l, now, peer);
    }
    PrunedGlobal(l, now);
  }

  lemma ZerosIn(times: seq<nat>)
    ensures AllZero(times) <==> forall k :: 0 <= k < |times| ==> times[k] == 0
  {
  }

  lemma PrunedGlobal(l: Lists, now: nat)
    ensures Pruned(l, now).global == Kept(l.global, Cutoff(now))
  {
  }

  lemma OneMoreAtZero(l: Lists, one: bool, next: nat, failures: nat, id: nat)
    requires ListsAtZero(l, one, next, failures) && id < next
    ensures ListsAtZero(Appended(l, Recorded(id, Peer(one, id), 0)), one, next, failures + 1)
  {
    var r := Recorded(id, Peer(one, id), 0);
    AppendedLookup(l.peers, r.peer, 0);
    hide Lookup;
    var peers := Appended(l, r).peers;
    assert !one ==> |r.peer| == id;
    forall peer
      ensures Lookup(peers, peer) == Lookup(l.peers, peer) + (if peer == r.peer then [0] else [])
      ensures AllZero(Lookup(peers, peer))
      ensures peer != r.peer ==> Lookup(peers, peer) == Lookup(l.peers, peer)
    {
    }
  }

  // ----- Stages -----

  /** How many failures `s` full rounds have recorded. */
  function Rounds(one: bool, s: nat): nat {
    if one then 12 * s else 27 * s
  }

  /** The last reading is 0, nobody is active, `lo` to `hi` are pending, the lists hold
      `failures`, recorded since the clock went back for the `s`th time, all ids from `hi` on
      are new; and the refused connections 1, 3, ... below `2 * held` still owe their failure. */
  ghost predicate Stage(w: World, one: bool, lo: nat, hi: nat, failures: nat, held: nat, s: nat) {
    && w.clock == 0 && w.setbacks == s && w.lists.active == None && w.disciplined && w.late == 0
    && 2 * held <= lo <= hi && Span(w, one, lo, hi) && Owing(w, 0, held)
    && (forall id :: hi <= id ==> id !in w.begun && id !in w.over)
    && ListsAtZero(w.lists, one, hi, failures)
    && AtZero(History(w), one, hi) && |History(w)| == Rounds(one, s) + failures
  }

  ghost predicate Span(w: World, one: bool, lo: nat, hi: nat) {
    && (forall id :: id in w.lists.pending <==> lo <= id < hi)
    && (forall id :: lo <= id < hi ==>
          id in w.owner && w.owner[id] == Peer(one, id) && id in w.begun && id !in w.over)
  }

  ghost predicate Owing(w: World, from: nat, held: nat) {
    forall k {:trigger Owes(w, k)} :: from <= k < held ==> Owes(w, k)
  }

  predicate Owes(w: World, k: nat) {
    2 * k + 1 in w.begun && 2 * k + 1 !in w.over
  }

  function At(one: bool, call: Call): Timed {
    Timed(call, Peer(one, call.id), 0)
  }

  lemma SpanSize(pending: set<nat>, lo: nat, hi: nat)
    requires lo <= hi && forall id :: id in pending <==> lo <= id < hi
    ensures |pending| == hi - lo
    decreases hi - lo
  {
    if lo < hi {
      SpanSize(pending - {hi - 1}, lo, hi - 1);
      assert pending == pending - {hi - 1} + {hi - 1};
    } else {
      assert pending == {};
    }
  }

  lemma BeginStage(w: World, one: bool, lo: nat, hi: nat, failures: nat, held: nat, s: nat)
    requires Stage(w, one, lo, hi, failures, held, s) && hi - lo < MAX_PENDING
    requires failures < if one then MAX_FAILURES_PER_PEER else MAX_FAILURES_GLOBAL
    ensures Stage(Step(w, At(one, Begins(hi))), one, lo, hi + 1, failures, held, s)
  {
    hide Admit, Peer, Owing, ListsAtZero, AtZero, Rounds, Pruned;
    AdmitsAtZero(w, one, lo, hi, failures, held, s);
    var after := Step(w, At(one, Begins(hi)));
    assert after == w.(lists := Pruned(w.lists, 0).(pending := w.lists.pending + {hi}),
                       owner := w.owner[hi := Peer(one, hi)], begun := w.begun + {hi});
    StillOwing(w, after, 0, held);
    PrunedPending(w.lists, 0);
    assert History(after) == History(w);
    LaterAtZero(w, after, one, hi, failures);
  }

  lemma StillOwing(w: World, after: World, from: nat, held: nat)
    requires Owing(w, from, held) && w.begun <= after.begun && after.over == w.over
    ensures Owing(after, from, held)
  {
    assert forall k: nat :: Owes(w, k) ==> Owes(after, k);
  }

  /** Room for one more connection does not change what is recorded. */
  lemma LaterAtZero(w: World, after: World, one: bool, hi: nat, failures: nat)
    requires ListsAtZero(w.lists, one, hi, failures) && AtZero(History(w), one, hi) && History(after) == History(w)
    requires after.lists.global == Pruned(w.lists, 0).global && after.lists.peers == Pruned(w.lists, 0).peers
    ensures ListsAtZero(after.lists, one, hi + 1, failures) && AtZero(History(after), one, hi + 1)
  {
    PrunedAtZero(w.lists, one, hi, failures, 0);
    hide Kept, Pruned, AllZero;
  }

  lemma AdmitsAtZero(w: World, one: bool, lo: nat, hi: nat, failures: nat, held: nat, s: nat)
    requires Stage(w, one, lo, hi, failures, held, s) && hi - lo < MAX_PENDING
    requires failures < if one then MAX_FAILURES_PER_PEER else MAX_FAILURES_GLOBAL
    ensures Admit(w.lists, hi, Peer(one, hi), 0)
            == (Pruned(w.lists, 0).(pending := w.lists.pending + {hi}), Ok(()))
  {
    SpanSize(w.lists.pending, lo, hi);
    PrunedAtZero(w.lists, one, hi, failures, 0);
    PrunedPending(w.lists, 0);
    hide Kept, Pruned, AllZero, AtZero, Owing, Rounds;
  }

  lemma RecordStage(w: World, one: bool, lo: nat, hi: nat, failures: nat, held: nat, s: nat)
    requires Stage(w, one, lo, hi, failures, held, s) && lo < hi
    ensures Stage(Step(w, At(one, Records(lo))), one, lo + 1, hi, failures + 1, held, s)
  {
    hide Peer, ListsAtZero, AtZero, Rounds, Pruned;
    var after := Step(w, At(one, Records(lo)));
    assert forall k: nat :: 2 * k + 1 != lo && Owes(w, k) ==> Owes(after, k);
    PrunedPending(w.lists, 0);
    PrunedAtZero(w.lists, one, hi, failures, 0);
    var p, r := Pruned(w.lists, 0), Recorded(lo, Peer(one, lo), 0);
    OneMoreAtZero(p, one, hi, failures, lo);
    assert after.lists == Appended(p, r).(pending := w.lists.pending - {lo});
    PendingIgnored(Appended(p, r), after.lists, one, hi, failures + 1);
    assert History(after) == History(w) + [r];
    OneMoreRecorded(History(w), one, hi, lo);
  }

  lemma PendingIgnored(l: Lists, after: Lists, one: bool, next: nat, failures: nat)
    requires ListsAtZero(l, one, next, failures) && after.global == l.global && after.peers == l.peers
    ensures ListsAtZero(after, one, next, failures)
  {
  }

  lemma OneMoreRecorded(h: seq<Recorded>, one: bool, next: nat, id: nat)
    requires AtZero(h, one, next) && id < next
    ensures AtZero(h + [Recorded(id, Peer(one, id), 0)], one, next)
  {
  }

  function Begun(one: bool, from: nat, n: nat): seq<Timed>
    decreases n
  {
    if n == 0 then [] else [At(one, Begins(from))] + Begun(one, from + 1, n - 1)
  }

  function Failed(one: bool, from: nat, n: nat): seq<Timed>
    decreases n
  {
    if n == 0 then [] else [At(one, Records(from))] + Failed(one, from + 1, n - 1)
  }

  /** One after the other begins and fails. */
  function Served(one: bool, from: nat, n: nat): seq<Timed>
    decreases n
  {
    if n == 0 then [] else [At(one, Begins(from)), At(one, Records(from))] + Served(one, from + 1, n - 1)
  }

  lemma RunOne(w: World, t: Timed, rest: seq<Timed>)
    ensures Run(w, [t] + rest) == Run(Step(w, t), rest)
  {
    hide Step;
    assert ([t] + rest)[1..] == rest;
  }

  lemma {:induction false} BeginMany(w: World, one: bool, lo: nat, hi: nat, failures: nat, held: nat, s: nat, n: nat)
    requires Stage(w, one, lo, hi, failures, held, s) && hi + n - lo <= MAX_PENDING
    requires failures < if one then MAX_FAILURES_PER_PEER else MAX_FAILURES_GLOBAL
    ensures Stage(Run(w, Begun(one, hi, n)), one, lo, hi + n, failures, held, s)
    decreases n
  {
    hide Step, Stage;
    if n > 0 {
      BeginStage(w, one, lo, hi, failures, held, s);
      RunOne(w, At(one, Begins(hi)), Begun(one, hi + 1, n - 1));
      BeginMany(Step(w, At(one, Begins(hi))), one, lo, hi + 1, failures, held, s, n - 1);
    }
  }

  lemma {:induction false} RecordMany(w: World, one: bool, lo: nat, hi: nat, failures: nat, held: nat, s: nat, n: nat)
    requires Stage(w, one, lo, hi, failures, held, s) && lo + n <= hi
    ensures Stage(Run(w, Failed(one, lo, n)), one, lo + n, hi, failures + n, held, s)
    decreases n
  {
    hide Step, Stage;
    if n > 0 {
      RecordStage(w, one, lo, hi, failures, held, s);
      RunOne(w, At(one, Records(lo)), Failed(one, lo + 1, n - 1));
      RecordMany(Step(w, At(one, Records(lo))), one, lo + 1, hi, failures + 1, held, s, n - 1);
    }
  }

  lemma {:induction false} ServeMany(w: World, one: bool, at: nat, failures: nat, held: nat, s: nat, n: nat)
    requires Stage(w, one, at, at, failures, held, s)
    requires failures + n <= if one then MAX_FAILURES_PER_PEER else MAX_FAILURES_GLOBAL
    ensures Stage(Run(w, Served(one, at, n)), one, at + n, at + n, failures + n, held, s)
    decreases n
  {
    hide Step, Stage;
    if n > 0 {
      BeginStage(w, one, at, at, failures, held, s);
      var next := Step(w, At(one, Begins(at)));
      RecordStage(next, one, at, at + 1, failures, held, s);
      var rest := Served(one, at + 1, n - 1);
      assert Served(one, at, n) == [At(one, Begins(at))] + ([At(one, Records(at))] + rest);
      RunOne(w, At(one, Begins(at)), [At(one, Records(at))] + rest);
      RunOne(next, At(one, Records(at)), rest);
      ServeMany(Step(next, At(one, Records(at))), one, at + 1, failures + 1, held, s, n - 1);
    }
  }

  // ----- Rounds -----

  /** As many failures as leave room for one more begin. */
  function Few(one: bool): nat {
    if one then MAX_FAILURES_PER_PEER - 1 else MAX_FAILURES_GLOBAL - 1
  }

  /** Serve that many failures; let in as many as may wait; and let these fail. */
  function Round(one: bool, at: nat): seq<Timed> {
    Served(one, at, Few(one)) + Begun(one, at + Few(one), MAX_PENDING) + Failed(one, at + Few(one), MAX_PENDING)
  }

  lemma RoundStage(w: World, one: bool, at: nat, held: nat, s: nat)
    requires Stage(w, one, at, at, 0, held, s)
    ensures var next := at + Rounds(one, 1);
            Stage(Run(w, Round(one, at)), one, next, next, Rounds(one, 1), held, s)
  {
    hide Run, Stage, Served, Begun, Failed;
    var few := Few(one);
    var a, b, c := Served(one, at, few), Begun(one, at + few, MAX_PENDING), Failed(one, at + few, MAX_PENDING);
    RunBoth(w, a, b);
    RunBoth(w, a + b, c);
    ServeMany(w, one, at, 0, held, s, few);
    BeginMany(Run(w, a), one, at + few, at + few, few, held, s, MAX_PENDING);
    RecordMany(Run(w, a + b), one, at + few, at + few + MAX_PENDING, few, held, s, MAX_PENDING);
  }

  function AtLater(one: bool, call: Call): Timed {
    Timed(call, Peer(one, call.id), FAILURE_WINDOW_NANOS + 1)
  }

  /** A begin when all failures are out of the window, and one with the clock back at 0. */
  function Setback(one: bool, at: nat): seq<Timed> {
    [AtLater(one, Begins(at)), At(one, Ends(at)), At(one, Begins(at + 1)), At(one, Ends(at + 1))]
  }

  /** One connection comes and goes. */
  function Visited(w: World, one: bool, id: nat, now: nat): World {
    var r := Read(w, now);
    r.(lists := Pruned(w.lists, now), owner := r.owner[id := Peer(one, id)], begun := r.begun + {id},
       over := r.over + {id})
  }

  lemma VisitRuns(w: World, one: bool, id: nat, now: nat)
    requires w.lists.pending == {} && w.lists.active == None
    requires ListsAtZero(Pruned(w.lists, now), one, id, 0)
    ensures Step(Step(w, Timed(Begins(id), Peer(one, id), now)), At(one, Ends(id))) == Visited(w, one, id, now)
  {
    PrunedPending(w.lists, now);
    hide Pruned, AllZero;
    var l := Pruned(w.lists, now);
    assert l.(pending := {id} - {id}, active := None) == l;
  }

  lemma SetbackRuns(w: World, one: bool, at: nat)
    requires w.lists.pending == {} && w.lists.active == None
    requires ListsAtZero(Pruned(w.lists, FAILURE_WINDOW_NANOS + 1), one, 0, 0)
    ensures var later := Visited(w, one, at, FAILURE_WINDOW_NANOS + 1);
            && Run(w, Setback(one, at)) == Visited(later, one, at + 1, 0)
            && ListsAtZero(Visited(later, one, at + 1, 0).lists, one, 0, 0)
  {
    hide Step, Pruned, AllZero, Read;
    var c := Setback(one, at);
    var later := Visited(w, one, at, FAILURE_WINDOW_NANOS + 1);
    PrunedPending(w.lists, FAILURE_WINDOW_NANOS + 1);
    ListsGrow(Pruned(w.lists, FAILURE_WINDOW_NANOS + 1), one, 0, at);
    VisitRuns(w, one, at, FAILURE_WINDOW_NANOS + 1);
    PrunedAtZero(later.lists, one, 0, 0, 0);
    ListsGrow(Pruned(later.lists, 0), one, 0, at + 1);
    VisitRuns(later, one, at + 1, 0);
    RunFour(w, c);
  }

  lemma ListsGrow(l: Lists, one: bool, next: nat, more: nat)
    requires ListsAtZero(l, one, next, 0) && next <= more
    ensures ListsAtZero(l, one, more, 0)
  {
  }

  lemma RunFour(w: World, c: seq<Timed>)
    requires |c| == 4
    ensures Run(w, c) == Step(Step(Step(Step(w, c[0]), c[1]), c[2]), c[3])
  {
    hide Step;
    assert c == [c[0]] + ([c[1]] + ([c[2]] + ([c[3]] + [])));
    RunOne(w, c[0], [c[1]] + ([c[2]] + ([c[3]] + [])));
    var w1 := Step(w, c[0]);
    RunOne(w1, c[1], [c[2]] + ([c[3]] + []));
    var w2 := Step(w1, c[1]);
    RunOne(w2, c[2], [c[3]] + []);
    RunOne(Step(w2, c[2]), c[3], []);
  }

  lemma SetbackStage(w: World, one: bool, at: nat, held: nat, s: nat)
    requires Stage(w, one, at, at, Rounds(one, 1), held, s)
    ensures Stage(Run(w, Setback(one, at)), one, at + 2, at + 2, 0, held, s + 1)
  {
    hide Run, Pruned, ListsAtZero, AtZero, Peer;
    assert w.lists.pending == {};
    PrunedAtZero(w.lists, one, at, Rounds(one, 1), FAILURE_WINDOW_NANOS + 1);
    SetbackRuns(w, one, at);
    var after := Run(w, Setback(one, at));
    PrunedPending(w.lists, FAILURE_WINDOW_NANOS + 1);
    PrunedPending(Pruned(w.lists, FAILURE_WINDOW_NANOS + 1), 0);
    ListsGrow(after.lists, one, 0, at + 2);
    assert History(after) == History(w);
    HistoryGrows(History(w), one, at, at + 2);
    assert forall k: nat :: 2 * k + 1 < at && Owes(w, k) ==> Owes(after, k);
  }

  lemma HistoryGrows(h: seq<Recorded>, one: bool, next: nat, more: nat)
    requires AtZero(h, one, next) && next <= more
    ensures AtZero(h, one, more)
  {
  }

  /** Full rounds, the clock going back after each. */
  function ManyRounds(one: bool, at: nat, s: nat): seq<Timed>
    decreases s
  {
    if s == 0 then []
    else
      var next := at + Rounds(one, 1);
      Round(one, at) + Setback(one, next) + ManyRounds(one, next + 2, s - 1)
  }

  /** The first id that is new after `s` of them. */
  function After(one: bool, at: nat, s: nat): nat
    decreases s
  {
    if s == 0 then at else After(one, at + Rounds(one, 1) + 2, s - 1)
  }

  lemma {:induction false} ManyRoundsRun(w: World, one: bool, at: nat, held: nat, s0: nat, s: nat)
    requires Stage(w, one, at, at, 0, held, s0)
    ensures var next := After(one, at, s);
            Stage(Run(w, ManyRounds(one, at, s)), one, next, next, 0, held, s0 + s)
    decreases s
  {
    hide Step, Stage, Round, Setback;
    if s > 0 {
      var next := at + Rounds(one, 1);
      var a, b, c := Round(one, at), Setback(one, next), ManyRounds(one, next + 2, s - 1);
      RunBoth(w, a, b);
      RunBoth(w, a + b, c);
      RoundStage(w, one, at, held, s0);
      SetbackStage(Run(w, a), one, next, held, s0);
      ManyRoundsRun(Run(w, a + b), one, next + 2, held, s0 + 1, s - 1);
    }
  }

  // ----- Holding failures back -----

  /** Two begin; one becomes active, so the other is refused and leaves the pending set, its
      failure not recorded yet; the active one ends. */
  function Refusal(one: bool, k: nat): seq<Timed> {
    [At(one, Begins(2 * k)), At(one, Begins(2 * k + 1)), At(one, Succeeds(2 * k)), At(one, Succeeds(2 * k + 1)),
     At(one, Ends(2 * k))]
  }

  function Refusals(one: bool, n: nat): seq<Timed> {
    if n == 0 then [] else Refusals(one, n - 1) + Refusal(one, n - 1)
  }

  lemma RefusalStage(w: World, one: bool, k: nat)
    requires Stage(w, one, 2 * k, 2 * k + 2, 0, k, 0)
    ensures var started := Step(Step(w, At(one, Succeeds(2 * k))), At(one, Succeeds(2 * k + 1)));
            var after := Step(started, At(one, Ends(2 * k)));
            Stage(after, one, 2 * k + 2, 2 * k + 2, 0, k + 1, 0)
  {
    var after := Step(Step(Step(w, At(one, Succeeds(2 * k))), At(one, Succeeds(2 * k + 1))), At(one, Ends(2 * k)));
    hide Peer, ListsAtZero, AtZero, Rounds;
    assert after.lists == w.lists.(pending := {});
    PendingIgnored(w.lists, after.lists, one, 2 * k + 2, 0);
    assert after.begun == w.begun && after.over == w.over + {2 * k};
    assert forall i :: Owes(w, i) ==> Owes(after, i);
    assert Owes(after, k);
  }

  lemma RunFive(w: World, c: seq<Timed>)
    requires |c| == 5
    ensures Run(w, c) == Step(Step(Step(Step(Step(w, c[0]), c[1]), c[2]), c[3]), c[4])
  {
    hide Step;
    assert c == [c[0]] + ([c[1]] + ([c[2]] + ([c[3]] + ([c[4]] + []))));
    RunOne(w, c[0], [c[1]] + ([c[2]] + ([c[3]] + ([c[4]] + []))));
    var w1 := Step(w, c[0]);
    RunOne(w1, c[1], [c[2]] + ([c[3]] + ([c[4]] + [])));
    var w2 := Step(w1, c[1]);
    RunOne(w2, c[2], [c[3]] + ([c[4]] + []));
    var w3 := Step(w2, c[2]);
    RunOne(w3, c[3], [c[4]] + []);
    RunOne(Step(w3, c[3]), c[4], []);
  }

  function Refused(w: World, one: bool, k: nat): World {
    var w2 := Step(Step(w, At(one, Begins(2 * k))), At(one, Begins(2 * k + 1)));
    Step(Step(Step(w2, At(one, Succeeds(2 * k))), At(one, Succeeds(2 * k + 1))), At(one, Ends(2 * k)))
  }

  lemma RunRefusal(w: World, one: bool, k: nat)
    ensures Run(w, Refusal(one, k)) == Refused(w, one, k)
  {
    hide Step, Run;
    RunFive(w, Refusal(one, k));
  }

  lemma RefusedStage(w: World, one: bool, k: nat)
    requires Stage(w, one, 2 * k, 2 * k, 0, k, 0)
    ensures Stage(Refused(w, one, k), one, 2 * k + 2, 2 * k + 2, 0, k + 1, 0)
  {
    hide Step, Stage;
    BeginStage(w, one, 2 * k, 2 * k, 0, k, 0);
    var w1 := Step(w, At(one, Begins(2 * k)));
    BeginStage(w1, one, 2 * k, 2 * k + 1, 0, k, 0);
    RefusalStage(Step(w1, At(one, Begins(2 * k + 1))), one, k);
  }

  lemma NobodyAtZero(one: bool)
    ensures ListsAtZero(NOBODY.lists, one, 0, 0) && AtZero([], one, 0)
  {
  }

  lemma NobodyStage(one: bool)
    ensures Stage(Run(NOBODY, Refusals(one, 0)), one, 0, 0, 0, 0, 0)
  {
    assert Run(NOBODY, []) == NOBODY;
    NobodyAtZero(one);
  }

  lemma {:induction false} RefuseMany(one: bool, n: nat)
    ensures Stage(Run(NOBODY, Refusals(one, n)), one, 2 * n, 2 * n, 0, n, 0)
  {
    hide Stage, Run, Refused, Refusal;
    if n == 0 {
      NobodyStage(one);
    } else {
      var k := n - 1;
      RefuseMany(one, k);
      RunBoth(NOBODY, Refusals(one, k), Refusal(one, k));
      RunRefusal(Run(NOBODY, Refusals(one, k)), one, k);
      RefusedStage(Run(NOBODY, Refusals(one, k)), one, k);
    }
  }

  // ----- Late recordings -----

  function Late(one: bool, from: nat, n: nat): seq<Timed>
    requires from <= n
    decreases n - from
  {
    if from == n then [] else [At(one, Records(2 * from + 1))] + Late(one, from + 1, n)
  }

  /** Nobody is pending, and of the failures held back those before the `k`th are recorded. */
  ghost predicate Recording(w: World, one: bool, next: nat, failures: nat, k: nat, held: nat, s: nat) {
    && w.clock == 0 && w.setbacks == s && w.lists.pending == {} && w.disciplined && w.late == k <= held
    && Owing(w, k, held) && 2 * held <= next
    && AtZero(History(w), one, next) && |History(w)| == failures
  }

  lemma LateStep(w: World, one: bool, next: nat, failures: nat, k: nat, held: nat, s: nat)
    requires Recording(w, one, next, failures, k, held, s) && k < held
    ensures Recording(Step(w, At(one, Records(2 * k + 1))), one, next, failures + 1, k + 1, held, s)
  {
    assert Owes(w, k);
    PrunedPending(w.lists, 0);
    hide Pruned, AtZero, Peer;
    var after := Step(w, At(one, Records(2 * k + 1)));
    assert forall i :: i != k && Owes(w, i) ==> Owes(after, i);
    assert History(after) == History(w) + [Recorded(2 * k + 1, Peer(one, 2 * k + 1), 0)];
    OneMoreRecorded(History(w), one, next, 2 * k + 1);
  }

  lemma {:induction false} LateMany(w: World, one: bool, next: nat, failures: nat, k: nat, held: nat, s: nat)
    requires Recording(w, one, next, failures, k, held, s) && k <= held
    ensures Recording(Run(w, Late(one, k, held)), one, next, failures + (held - k), held, held, s)
    decreases held - k
  {
    hide Step, Recording;
    if k == held {
      assert Late(one, k, held) == [];
    } else {
      LateStep(w, one, next, failures, k, held, s);
      RunOne(w, At(one, Records(2 * k + 1)), Late(one, k + 1, held));
      LateMany(Step(w, At(one, Records(2 * k + 1))), one, next, failures + 1, k + 1, held, s);
    }
  }

  lemma SettledIsRecording(w: World, one: bool, at: nat, held: nat, s: nat)
    requires Stage(w, one, at, at, Rounds(one, 1), held, s)
    ensures Recording(w, one, at, Rounds(one, s + 1), 0, held, s)
  {
    assert w.lists.pending == {};
  }

  // ----- The bounds are attained -----

  /** Hold back the failures of `n` refused connections; `s` rounds with the clock going back
      after each, and one more; then the late ones. */
  function Flood(one: bool, n: nat, s: nat): seq<Timed> {
    Refusals(one, n) + ManyRounds(one, 2 * n, s) + Round(one, After(one, 2 * n, s)) + Late(one, 0, n)
  }

  lemma FloodRuns(one: bool, n: nat, s: nat)
    ensures Recording(Run(NOBODY, Flood(one, n, s)), one, After(one, 2 * n, s) + Rounds(one, 1),
                      Rounds(one, s + 1) + n, n, n, s)
  {
    hide Run, Stage, Recording, Round, ManyRounds, Refusals, Late;
    var at := After(one, 2 * n, s);
    var a, b, c, d := Refusals(one, n), ManyRounds(one, 2 * n, s), Round(one, at), Late(one, 0, n);
    RunBoth(NOBODY, a, b);
    RunBoth(NOBODY, a + b, c);
    RunBoth(NOBODY, a + b + c, d);
    RefuseMany(one, n);
    ManyRoundsRun(Run(NOBODY, a), one, 2 * n, n, 0, s);
    RoundStage(Run(NOBODY, a + b), one, at, n, s);
    SettledIsRecording(Run(NOBODY, a + b + c), one, at + Rounds(one, 1), n, s);
    LateMany(Run(NOBODY, a + b + c), one, at + Rounds(one, 1), Rounds(one, s + 1), 0, n, s);
  }

  /** For every `n` and `s` some disciplined callers cause exactly `n` late recordings and `s`
      setbacks of the clock, and attain both bounds. */
  lemma EveryExcessIsAttained(n: nat, s: nat)
    ensures var w := Run(NOBODY, Flood(true, n, s));
            && w.disciplined && w.late == n && w.setbacks == s
            && PeerWindow(History(w), "peer", 0) == 12 * (1 + s) + n
    ensures var w := Run(NOBODY, Flood(false, n, s));
            && w.disciplined && w.late == n && w.setbacks == s
            && GlobalWindow(History(w), 0) == 27 * (1 + s) + n
  {
    hide Run, Flood, AtZero;
    FloodRuns(true, n, s);
    FloodRuns(false, n, s);
    var one, each := Run(NOBODY, Flood(true, n, s)), Run(NOBODY, Flood(false, n, s));
    CountsAtZero(History(one), true, After(true, 2 * n, s) + Rounds(true, 1));
    CountsAtZero(History(each), false, After(false, 2 * n, s) + Rounds(false, 1));
  }

  ghost predicate PeersWithinBound(calls: seq<Timed>, bound: nat) {
    forall peer, from :: PeerWindow(History(Run(NOBODY, calls)), peer, from) <= bound
  }

  ghost predicate AllWithinBound(calls: seq<Timed>, bound: nat) {
    forall from :: GlobalWindow(History(Run(NOBODY, calls)), from) <= bound
  }

  /** Disciplined callers with at most `n` late recordings and `s` setbacks of the clock. */
  predicate AtMost(calls: seq<Timed>, n: nat, s: nat) {
    var w := Run(NOBODY, calls);
    w.disciplined && w.late <= n && w.setbacks <= s
  }

  lemma AtMostMeetsBounds(calls: seq<Timed>, n: nat, s: nat, bound: nat)
    requires AtMost(calls, n, s)
    ensures 12 * (1 + s) + n <= bound ==> PeersWithinBound(calls, bound)
    ensures 27 * (1 + s) + n <= bound ==> AllWithinBound(calls, bound)
  {
    hide Run, PeerWindow, GlobalWindow, History;
    forall peer, from
      ensures 12 * (1 + s) + n <= bound ==> PeerWindow(History(Run(NOBODY, calls)), peer, from) <= bound
    {
      OnlyLatenessAndSetbacksExceed(calls, peer, from);
    }
    forall from
      ensures 27 * (1 + s) + n <= bound ==> GlobalWindow(History(Run(NOBODY, calls)), from) <= bound
    {
      OnlyLatenessAndSetbacksExceed(calls, "", from);
    }
  }

  /** The least bounds: what holds of all disciplined callers with at most `n` late recordings
      and `s` setbacks of the clock. */
  lemma LeastBounds(n: nat, s: nat, bound: nat)
    ensures (forall calls :: AtMost(calls, n, s) ==> PeersWithinBound(calls, bound)) <==> 12 * (1 + s) + n <= bound
    ensures (forall calls :: AtMost(calls, n, s) ==> AllWithinBound(calls, bound)) <==> 27 * (1 + s) + n <= bound
  {
    hide Run, Flood, PeerWindow, GlobalWindow, History;
    forall calls | AtMost(calls, n, s)
      ensures 12 * (1 + s) + n <= bound ==> PeersWithinBound(calls, bound)
      ensures 27 * (1 + s) + n <= bound ==> AllWithinBound(calls, bound)
    {
      AtMostMeetsBounds(calls, n, s, bound);
    }
    EveryExcessIsAttained(n, s);
    assert AtMost(Flood(true, n, s), n, s) && AtMost(Flood(false, n, s), n, s);
    assert PeersWithinBound(Flood(true, n, s), bound) ==> 12 * (1 + s) + n <= bound;
    assert AllWithinBound(Flood(false, n, s), bound) ==> 27 * (1 + s) + n <= bound;
  }

  /** The bounds the server keeps hold of the controller exactly for callers that record no
      failure late while no reading of the clock goes back. */
  lemma BoundsHoldExactlyWhenOrderly(n: nat, s: nat)
    ensures (forall calls :: AtMost(calls, n, s) ==> PeersWithinBound(calls, 12)) <==> n == 0 && s == 0
    ensures (forall calls :: AtMost(calls, n, s) ==> AllWithinBound(calls, 27)) <==> n == 0 && s == 0
  {
    hide AtMost, PeersWithinBound, AllWithinBound;
    LeastBounds(n, s, 12);
    LeastBounds(n, s, 27);
  }
}
