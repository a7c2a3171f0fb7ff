/** The latest-frame broadcast slot of the MJPEG proxy (mjpeg.rs, `Slot`), with one
    publisher, any number of readers and a stop request, in every interleaving. */
module FrameSlot {
  import opened Basics

  /** The slot: `number` is the sequence number of the current frame, 0 before the first. */
  datatype SlotView = SlotView(
    frame: Option<Bytes>,
    number: nat,
    consumed: bool,
    drops: nat,
    writers: nat,
    stopping: bool)

  function Publish(v: SlotView, frame: Bytes): SlotView {
    v.(drops := if v.number > 0 && !v.consumed && v.writers > 0 then v.drops + 1 else v.drops,
       frame := Some(frame), number := v.number + 1, consumed := false)
  }

  /** What a reader that has seen `last` takes under the lock: the current frame if
      it is newer, otherwise nothing. */
  function Take(v: SlotView, last: nat): (SlotView, nat, Option<Bytes>) {
    if v.number > last then (v.(consumed := true), v.number, v.frame) else (v, last, None)
  }

  class Slot {
    var frame: Option<Bytes>
    var number: nat
    var consumed: bool
    var drops: nat
    var writers: nat
    var stopping: bool

    ghost function Seen(): SlotView
      reads this
    {
      SlotView(frame, number, consumed, drops, writers, stopping)
    }

    constructor ()
      ensures Seen() == SlotView(None, 0, false, 0, 0, false)
    {
      frame, number, consumed, drops, writers, stopping := None, 0, false, 0, 0, false;
    }

    method DoPublish(f: Bytes)
      modifies this
      ensures Seen() == Publish(old(Seen()), f)
    {
      if number > 0 && !consumed && writers > 0 {
        drops := drops + 1;
      }
      frame := Some(f);
      number := number + 1;
      consumed := false;
    }

    /** One turn of the loop in `next_frame`, between taking the lock and giving it up. */
    method TakeTurn(last: nat) returns (stopped: bool, seen: nat, r: Option<Bytes>)
      modifies this`consumed
      ensures stopped == stopping
      ensures if stopping then Seen() == old(Seen()) && seen == last && r == None
              else (Seen(), seen, r) == Take(old(Seen()), last)
    {
      stopped, seen, r := stopping, last, None;
      if stopped {
        return;
      }
      if number > last {
        seen := number;
        consumed := true;
        r := frame;
      }
    }
  }

  // ----- Interleavings -----

  /** Where a reader stands: outside the lock, holding it, or holding it after having
      seen that no stop was requested; or finished. */
  datatype Place = Outside | Locked | Checked | Finished

  datatype Delivery = Delivery(number: nat, frame: Bytes)

  datatype Reader = Reader(place: Place, last: nat, got: seq<Delivery>)

  /** The slot, the lock and the readers; and, for the record, every frame published
      and what became of each. */
  datatype World = World(
    slot: SlotView,
    lock: Option<nat>,
    readers: map<nat, Reader>,
    published: seq<Bytes>,
    delivered: set<nat>,
    dropped: set<nat>,
    idle: set<nat>,
    deliveries: nat)

  datatype Event =
    | Enter(id: nat)
    | Leave(id: nat)
    | Acquire(id: nat)
    | Check(id: nat)
    | Fetch(id: nat)
    | PublishFrame(frame: Bytes)
    | RequestStop

  function Fresh(): World {
    World(SlotView(None, 0, false, 0, 0, false), None, map[], [], {}, {}, {}, 0)
  }

  predicate IsAt(w: World, id: nat, place: Place) {
    id in w.readers && w.readers[id].place == place
  }

  function Step(w: World, e: Event): World {
    match e
    case Enter(id) =>
      if id in w.readers then w
      else w.(readers := w.readers[id := Reader(Outside, 0, [])], slot := w.slot.(writers := w.slot.writers + 1))
    case Leave(id) =>
      if (IsAt(w, id, Outside) || IsAt(w, id, Finished)) && w.slot.writers > 0
      then w.(readers := w.readers - {id}, slot := w.slot.(writers := w.slot.writers - 1))
      else w
    case Acquire(id) =>
      if IsAt(w, id, Outside) && w.lock == None
      then w.(lock := Some(id), readers := w.readers[id := w.readers[id].(place := Locked)])
      else w
    case Check(id) =>
      if !IsAt(w, id, Locked) then w
      else if w.slot.stopping
      then w.(lock := None, readers := w.readers[id := w.readers[id].(place := Finished)])
      else w.(readers := w.readers[id := w.readers[id].(place := Checked)])
    case Fetch(id) =>
      if IsAt(w, id, Checked) then FetchStep(w, id) else w
    case PublishFrame(frame) =>
      if w.lock == None then PublishStep(w, frame) else w
    case RequestStop => w.(slot := w.slot.(stopping := true))
  }

  /** Delivers a newer frame, or waits: either way the lock is given up. */
  function FetchStep(w: World, id: nat): World
    requires id in w.readers
  {
    var r := w.readers[id];
    var (slot, last, frame) := Take(w.slot, r.last);
    if frame == None then w.(lock := None, readers := w.readers[id := r.(place := Outside)], slot := slot)
    else
      w.(slot := slot, lock := None,
         readers := w.readers[id := Reader(Outside, last, r.got + [Delivery(last, frame.value)])],
         delivered := w.delivered + {last}, deliveries := w.deliveries + 1)
  }

  /** A frame nobody took is dropped if somebody was there to take it, idle otherwise. */
  function PublishStep(w: World, frame: Bytes): World {
    var unread := w.slot.number > 0 && !w.slot.consumed;
    w.(slot := Publish(w.slot, frame), published := w.published + [frame],
       dropped := if unread && w.slot.writers > 0 then w.dropped + {w.slot.number} else w.dropped,
       idle := if unread && w.slot.writers == 0 then w.idle + {w.slot.number} else w.idle)
  }

  function Run(w: World, events: seq<Event>): World
    decreases |events|
  {
    if events == [] then w else Run(Step(w, events[0]), events[1..])
  }

  // ----- What every step keeps -----

  predicate Unread(w: World) {
    w.slot.number > 0 && !w.slot.consumed
  }

  /** Each published frame has exactly one fate. */
  ghost predicate Fates(w: World) {
    && |w.published| == w.slot.number
    && w.slot.frame == (if w.published == [] then None else Some(w.published[|w.published| - 1]))
    && w.delivered !! w.dropped && w.delivered !! w.idle && w.dropped !! w.idle
    && (forall n :: n in w.delivered || n in w.dropped || n in w.idle <==>
          1 <= n <= w.slot.number && !(n == w.slot.number && Unread(w)))
    && (w.slot.consumed ==> w.slot.number in w.delivered)
    && w.slot.drops == |w.dropped|
  }

  /** A reader received frames with increasing numbers, each one as published. */
  ghost predicate ReaderOk(published: seq<Bytes>, r: Reader) {
    && (forall i :: 0 <= i < |r.got| ==>
          1 <= r.got[i].number <= |published| && r.got[i].frame == published[r.got[i].number - 1])
    && (forall i, j :: 0 <= i < j < |r.got| ==> r.got[i].number < r.got[j].number)
    && r.last == (if r.got == [] then 0 else r.got[|r.got| - 1].number)
  }

  ghost predicate ReadersOk(w: World) {
    forall id :: id in w.readers ==> ReaderOk(w.published, w.readers[id])
  }

  /** The lock is held by exactly the reader that is inside. */
  ghost predicate Locking(w: World) {
    forall id: nat :: w.lock == Some(id) <==> IsAt(w, id, Locked) || IsAt(w, id, Checked)
  }

  /** `writers` counts the registered readers. */
  ghost predicate Inv(w: World) {
    Fates(w) && ReadersOk(w) && Locking(w) && w.slot.writers == |w.readers|
  }

  lemma StepKeepsFates(w: World, e: Event)
    requires Fates(w) && Locking(w)
    ensures Fates(Step(w, e))
  {
    var after := Step(w, e);
    if e.Fetch? && IsAt(w, e.id, Checked) {
      assert w.slot.number > w.readers[e.id].last ==> after.slot.number in after.delivered;
    }
  }

  lemma StepKeepsReaders(w: World, e: Event)
    requires Fates(w) && ReadersOk(w)
    ensures ReadersOk(Step(w, e))
  {
    var after := Step(w, e);
    forall id | id in after.readers
      ensures ReaderOk(after.published, after.readers[id])
    {
      if id in w.readers {
        ReaderAfter(w, e, id);
      }
    }
  }

  lemma ReaderAfter(w: World, e: Event, id: nat)
    requires Fates(w) && id in w.readers && id in Step(w, e).readers && ReaderOk(w.published, w.readers[id])
    ensures ReaderOk(Step(w, e).published, Step(w, e).readers[id])
  {
    hide ReaderOk;
    var r, after := w.readers[id], Step(w, e);
    if after.readers[id].got == r.got && after.readers[id].last == r.last {
      SameReader(w.published, after.published, r, after.readers[id]);
    } else {
      assert w.slot.number > r.last;
      NextFrame(w.published, r, w.published[|w.published| - 1]);
    }
  }

  lemma SameReader(published: seq<Bytes>, more: seq<Bytes>, r: Reader, after: Reader)
    requires ReaderOk(published, r) && published <= more && after.got == r.got && after.last == r.last
    ensures ReaderOk(more, after)
  {
  }

  lemma NextFrame(published: seq<Bytes>, r: Reader, frame: Bytes)
    requires ReaderOk(published, r) && r.last < |published| && frame == published[|published| - 1]
    ensures ReaderOk(published, Reader(Outside, |published|, r.got + [Delivery(|published|, frame)]))
  {
    forall i | 0 <= i < |r.got|
      ensures r.got[i].number < |published|
    {
      assert i < |r.got| - 1 ==> r.got[i].number < r.got[|r.got| - 1].number;
    }
  }

  lemma StepKeepsLocking(w: World, e: Event)
    requires Locking(w)
    ensures Locking(Step(w, e))
  {
    var after := Step(w, e);
    forall id: nat
      ensures after.lock == Some(id) <==> IsAt(after, id, Locked) || IsAt(after, id, Checked)
    {
      assert w.lock == Some(id) <==> IsAt(w, id, Locked) || IsAt(w, id, Checked);
    }
  }

  lemma StepKeepsCount(w: World, e: Event)
    requires w.slot.writers == |w.readers|
    ensures Step(w, e).slot.writers == |Step(w, e).readers|
  {
    var after := Step(w, e);
    if e.Leave? && e.id in w.readers {
      assert (w.readers - {e.id})[e.id := w.readers[e.id]] == w.readers;
    }
  }

  lemma StepKeepsInv(w: World, e: Event)
    requires Inv(w)
    ensures Inv(Step(w, e))
  {
    hide Step, Fates, ReadersOk, Locking;
    StepKeepsFates(w, e);
    StepKeepsReaders(w, e);
    StepKeepsLocking(w, e);
    StepKeepsCount(w, e);
  }

  lemma {:induction false} RunKeepsInv(w: World, events: seq<Event>)
    requires Inv(w)
    ensures Inv(Run(w, events))
    decreases |events|
  {
    hide Step, Inv;
    if events != [] {
      StepKeepsInv(w, events[0]);
      RunKeepsInv(Step(w, events[0]), events[1..]);
    }
  }

  // ----- Conservation -----

  lemma {:induction false} SizeOfRange(s: set<nat>, n: nat)
    requires forall k :: k in s <==> 1 <= k <= n
    ensures |s| == n
  {
    if n > 0 {
      SizeOfRange(s - {n}, n - 1);
      assert s == s - {n} + {n};
    } else {
      assert s == {};
    }
  }

  lemma FatesAddUp(w: World)
    requires Fates(w)
    ensures w.slot.number == |w.delivered| + w.slot.drops + |w.idle| + (if Unread(w) then 1 else 0)
  {
    SizeOfRange(w.delivered + w.dropped + w.idle, if Unread(w) then w.slot.number - 1 else w.slot.number);
    assert |w.delivered + w.dropped + w.idle| == |w.delivered| + |w.dropped| + |w.idle|;
  }

  /** Over every run, the frames published are those delivered, those counted as drops,
      those overwritten while nobody was reading, and the current one if still unread. */
  lemma Conservation(events: seq<Event>)
    ensures var w := Run(Fresh(), events);
            && |w.published| == w.slot.number
            && w.slot.number == |w.delivered| + w.slot.drops + |w.idle| + (if Unread(w) then 1 else 0)
  {
    hide Run;
    RunKeepsInv(Fresh(), events);
    FatesAddUp(Run(Fresh(), events));
  }

  /** What every reader has received over a run: frames as published, in increasing order. */
  lemma ReadersSeeIncreasingFrames(events: seq<Event>, id: nat)
    requires id in Run(Fresh(), events).readers
    ensures ReaderOk(Run(Fresh(), events).published, Run(Fresh(), events).readers[id])
  {
    hide Run;
    RunKeepsInv(Fresh(), events);
  }

  /** Whatever a step delivers is the newest frame published by then. */
  lemma DeliversTheNewest(events: seq<Event>, e: Event, id: nat)
    requires var w := Run(Fresh(), events);
             id in w.readers && id in Step(w, e).readers && Step(w, e).readers[id].got != w.readers[id].got
    ensures var w := Run(Fresh(), events);
            && w.published != []
            && Step(w, e).readers[id].got
               == w.readers[id].got + [Delivery(|w.published|, w.published[|w.published| - 1])]
  {
    hide Run;
    RunKeepsInv(Fresh(), events);
    hide Fates, ReadersOk, Locking, Step;
    OnlyFetchDelivers(Run(Fresh(), events), e, id);
  }

  lemma OnlyFetchDelivers(w: World, e: Event, id: nat)
    requires Fates(w) && id in w.readers && id in Step(w, e).readers
    requires Step(w, e).readers[id].got != w.readers[id].got
    ensures w.published != []
    ensures Step(w, e).readers[id].got
            == w.readers[id].got + [Delivery(|w.published|, w.published[|w.published| - 1])]
  {
  }

  // ----- After a stop -----

  /** A reader that passed the stop check before the stop and has a frame to take. */
  ghost predicate PastTheCheck(w: World) {
    exists id :: IsAt(w, id, Checked) && w.readers[id].last < w.slot.number
  }

  ghost function StillPossible(w: World): nat {
    w.deliveries + if PastTheCheck(w) then 1 else 0
  }

  lemma StopOnlyShrinks(w: World, e: Event)
    requires Locking(w) && w.slot.stopping
    ensures Step(w, e).slot.stopping && StillPossible(Step(w, e)) <= StillPossible(w)
  {
    var after := Step(w, e);
    if PastTheCheck(after) {
      var id :| IsAt(after, id, Checked) && after.readers[id].last < after.slot.number;
      StaysPast(w, e, id);
    } else if e.Fetch? && IsAt(w, e.id, Checked) {
      assert w.readers[e.id].last < w.slot.number ==> PastTheCheck(w);
    }
  }

  /** No reader gets past the check once a stop is requested; and while one is past it,
      nothing is published or delivered. */
  lemma StaysPast(w: World, e: Event, id: nat)
    requires Locking(w) && w.slot.stopping
    requires IsAt(Step(w, e), id, Checked) && Step(w, e).readers[id].last < Step(w, e).slot.number
    ensures IsAt(w, id, Checked) && w.readers[id].last < w.slot.number
    ensures Step(w, e).deliveries == w.deliveries
  {
    assert w.lock == Some(id) <==> IsAt(w, id, Locked) || IsAt(w, id, Checked);
    if e.Fetch? {
      assert w.lock == Some(e.id) <==> IsAt(w, e.id, Locked) || IsAt(w, e.id, Checked);
    }
  }

  lemma {:induction false} StopShrinksOverRuns(w: World, events: seq<Event>)
    requires Inv(w) && w.slot.stopping
    ensures Run(w, events).slot.stopping && Run(w, events).deliveries <= StillPossible(w)
    decreases |events|
  {
    hide Step, Fates, ReadersOk, Locking, PastTheCheck;
    if events != [] {
      StopOnlyShrinks(w, events[0]);
      StepKeepsInv(w, events[0]);
      StopShrinksOverRuns(Step(w, events[0]), events[1..]);
    }
  }

  /** A reader whose turn comes, no stop being requested, gets the newest frame if that is newer
      than its last, and otherwise nothing; it may come again either way. */
  lemma TurnsDeliver(events: seq<Event>, id: nat)
    requires var w := Run(Fresh(), events);
             IsAt(w, id, Outside) && w.lock == None && !w.slot.stopping
    ensures var w := Run(Fresh(), events);
            var after := Step(Step(Step(w, Acquire(id)), Check(id)), Fetch(id));
            var r, n := w.readers[id], |w.published|;
            && IsAt(after, id, Outside) && after.lock == None
            && after.readers[id].got
               == r.got + if n > 0 && (r.got == [] || r.got[|r.got| - 1].number < n)
                          then [Delivery(n, w.published[n - 1])] else []
  {
    hide Run;
    RunKeepsInv(Fresh(), events);
    var w := Run(Fresh(), events);
    assert ReaderOk(w.published, w.readers[id]);
  }

  /** After a stop at most one more frame is ever delivered; and one still can be exactly
      when a reader passed the check before the stop and a frame newer than its last is there. */
  lemma AfterStop(past: seq<Event>)
    requires Run(Fresh(), past).slot.stopping
    ensures var w := Run(Fresh(), past);
            && (forall events :: Run(w, events).deliveries <= w.deliveries + 1)
            && ((exists events :: Run(w, events).deliveries > w.deliveries) <==> PastTheCheck(w))
  {
    hide Run;
    RunKeepsInv(Fresh(), past);
    AfterStopFrom(Run(Fresh(), past));
  }

  lemma AfterStopFrom(w: World)
    requires Inv(w) && w.slot.stopping
    ensures forall events :: Run(w, events).deliveries <= w.deliveries + 1
    ensures (exists events :: Run(w, events).deliveries > w.deliveries) <==> PastTheCheck(w)
  {
    hide Step, Inv;
    forall events: seq<Event>
      ensures Run(w, events).deliveries <= StillPossible(w)
    {
      hide Run, PastTheCheck;
      StopShrinksOverRuns(w, events);
    }
    if PastTheCheck(w) {
      var id :| IsAt(w, id, Checked) && w.readers[id].last < w.slot.number;
      LastDelivery(w, id);
      assert Run(w, [Fetch(id)]).deliveries > w.deliveries;
    }
  }

  /** A reader has just found that no stop was requested when one is. */
  function LateStop(frame: Bytes): seq<Event> {
    [Enter(0), PublishFrame(frame), Acquire(0), Check(0), RequestStop]
  }

  /** Such states are reached: after this run a frame is delivered although a stop was requested. */
  lemma DeliveryAfterStopIsReached(frame: Bytes)
    ensures var w := Run(Fresh(), LateStop(frame));
            w.slot.stopping && PastTheCheck(w) && Run(w, [Fetch(0)]).deliveries == w.deliveries + 1
  {
    hide PastTheCheck;
    var e := LateStop(frame);
    var w0 := Fresh();
    var w1 := Step(w0, e[0]);
    var w2 := Step(w1, e[1]);
    var w3 := Step(w2, e[2]);
    var w4 := Step(w3, e[3]);
    var w5 := Step(w4, e[4]);
    RunFive(w0, e);
    assert IsAt(w5, 0, Checked) && w5.readers[0].last < w5.slot.number;
    assert PastTheCheck(w5) by {
      IsPast(w5, 0);
    }
    RunKeepsInv(w0, e);
    LastDelivery(w5, 0);
  }

  lemma IsPast(w: World, id: nat)
    requires IsAt(w, id, Checked) && w.readers[id].last < w.slot.number
    ensures PastTheCheck(w)
  {
  }

  lemma RunFive(w: World, e: seq<Event>)
    requires |e| == 5
    ensures Run(w, e) == Step(Step(Step(Step(Step(w, e[0]), e[1]), e[2]), e[3]), e[4])
  {
    hide Step;
    var w1 := Step(w, e[0]);
    var w2 := Step(w1, e[1]);
    var w3 := Step(w2, e[2]);
    var w4 := Step(w3, e[3]);
    assert Run(w, e) == Run(w1, e[1..]);
    assert e[1..][1..] == e[2..] && Run(w1, e[1..]) == Run(w2, e[2..]);
    assert e[2..][1..] == e[3..] && Run(w2, e[2..]) == Run(w3, e[3..]);
    assert e[3..][1..] == e[4..] && Run(w3, e[3..]) == Run(w4, e[4..]);
    assert e[4..][1..] == [] && Run(w4, e[4..]) == Run(Step(w4, e[4]), []);
  }

  lemma LastDelivery(w: World, id: nat)
    requires Inv(w) && IsAt(w, id, Checked) && w.readers[id].last < w.slot.number
    ensures Run(w, [Fetch(id)]).deliveries == w.deliveries + 1
  {
    assert Run(w, [Fetch(id)]) == Step(w, Fetch(id));
  }
}
