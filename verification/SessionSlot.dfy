/** The slot that holds the one iOS session of the desktop application (src-tauri, lib.rs):
    commands claim it with a placeholder, start a session outside the lock, and put its
    handle in. Commands and sessions interleave freely; one step is one critical section,
    one start, or one change of a session's own status. */
module SessionSlot {
  import opened Basics

  datatype Slot = Starting | FailedSlot(code: string) | Handle(id: nat)

  datatype SessionStatus = Coming | Running | Stopping | Ended

  /** How a command stands that has claimed the slot: its session is yet to be started, or
      has been and is to be put into the slot. */
  datatype Phase = Claimed | Spawned

  predicate Live(sessions: map<nat, SessionStatus>, id: nat) {
    id in sessions && sessions[id] != Ended
  }

  predicate SlotIsLive(slot: Option<Slot>, sessions: map<nat, SessionStatus>) {
    match slot
    case None => false
    case Some(Starting) => true
    case Some(FailedSlot(_)) => false
    case Some(Handle(id)) => Live(sessions, id)
  }

  // ----- The store -----

  /** The slot and the next session id. */
  datatype StoreView = StoreView(slot: Option<Slot>, nextId: nat)

  /** Claims the slot for a new session, unless one is live or being started. */
  function ClaimSlot(v: StoreView, sessions: map<nat, SessionStatus>): (StoreView, Option<nat>) {
    if SlotIsLive(v.slot, sessions) then (v, None) else (StoreView(Some(Starting), v.nextId + 1), Some(v.nextId))
  }

  /** Puts the handle of the started session in, unless another live one is there. */
  function PutIn(v: StoreView, id: nat, sessions: map<nat, SessionStatus>): (StoreView, bool) {
    if v.slot.Some? && v.slot.value.Handle? && Live(sessions, v.slot.value.id) then (v, false)
    else (v.(slot := Some(Handle(id))), true)
  }

  /** The session a stop is for. */
  function Target(v: StoreView): Option<nat> {
    if v.slot.Some? && v.slot.value.Handle? then Some(v.slot.value.id) else None
  }

  /** The critical sections of the commands on the shared store. The status of a session is
      read through its handle, so `sessions` stands for what the handles would say. */
  class Store {
    var slot: Option<Slot>
    var nextId: nat

    ghost function View(): StoreView
      reads this
    {
      StoreView(slot, nextId)
    }

    constructor ()
      ensures View() == StoreView(None, 0)
    {
      slot, nextId := None, 0;
    }

    method Claim(sessions: map<nat, SessionStatus>) returns (r: Option<nat>)
      modifies this
      ensures (View(), r) == ClaimSlot(old(View()), sessions)
    {
      if slot != None && SlotIsLive(slot, sessions) {
        return None;
      }
      slot := Some(Starting);
      r := Some(nextId);
      nextId := nextId + 1;
    }

    /** The start failed: the placeholder makes way for the error. */
    method Fail(code: string)
      modifies this`slot
      ensures View() == old(View()).(slot := Some(FailedSlot(code)))
    {
      slot := Some(FailedSlot(code));
    }

    method Install(id: nat, sessions: map<nat, SessionStatus>) returns (installed: bool)
      modifies this`slot
      ensures (View(), installed) == PutIn(old(View()), id, sessions)
    {
      if slot.Some? && slot.value.Handle? && Live(sessions, slot.value.id) {
        return false;
      }
      slot := Some(Handle(id));
      installed := true;
    }

    method Stop() returns (target: Option<nat>)
      ensures target == Target(View())
    {
      target := if slot.Some? && slot.value.Handle? then Some(slot.value.id) else None;
    }
  }

  // ----- Interleavings -----

  /** The store; every session ever started with its status, and those asked to stop; the
      commands under way, each known by the id it drew. */
  datatype World = World(
    store: StoreView,
    sessions: map<nat, SessionStatus>,
    asked: set<nat>,
    commands: map<nat, Phase>)

  datatype Event =
    | StartCommand
    | StartFails(id: nat, code: string)
    | SessionStarts(id: nat)
    | PutHandle(id: nat)
    | StopCommand
    | StatusCommand
    | SessionMoves(id: nat, status: SessionStatus)

  function Empty(): World {
    World(StoreView(None, 0), map[], {}, map[])
  }

  predicate IsIn(w: World, id: nat, phase: Phase) {
    id in w.commands && w.commands[id] == phase
  }

  function Step(w: World, e: Event): World {
    match e
    case StartCommand =>
      var (store, id) := ClaimSlot(w.store, w.sessions);
      if id == None then w else w.(store := store, commands := w.commands[id.value := Claimed])
    case StartFails(id, code) =>
      if IsIn(w, id, Claimed)
      then w.(store := w.store.(slot := Some(FailedSlot(code))), commands := w.commands - {id})
      else w
    case SessionStarts(id) =>
      if IsIn(w, id, Claimed)
      then w.(sessions := w.sessions[id := Coming], commands := w.commands[id := Spawned])
      else w
    case PutHandle(id) =>
      if !IsIn(w, id, Spawned) then w
      else
        var (store, installed) := PutIn(w.store, id, w.sessions);
        w.(store := store, asked := if installed then w.asked else w.asked + {id}, commands := w.commands - {id})
    case StopCommand =>
      if Target(w.store) == None then w else w.(asked := w.asked + {Target(w.store).value})
    case StatusCommand => w
    case SessionMoves(id, status) =>
      if Live(w.sessions, id) then w.(sessions := w.sessions[id := status]) else w
  }

  function Run(w: World, events: seq<Event>): World
    decreases |events|
  {
    if events == [] then w else Run(Step(w, events[0]), events[1..])
  }

  /** The placeholder is an exclusive token: it is there exactly while a command is under way,
      and there is only one such command. Whatever is live belongs to it or to the slot. */
  ghost predicate Inv(w: World) {
    && (w.store.slot == Some(Starting) <==> w.commands != map[])
    && (forall a, b :: a in w.commands && b in w.commands ==> a == b)
    && (forall id :: id in w.commands || id in w.sessions ==> id < w.store.nextId)
    && (forall id :: id in w.commands ==> (id in w.sessions <==> w.commands[id] == Spawned))
    && (forall id :: Live(w.sessions, id) ==> w.store.slot == Some(Handle(id)) || id in w.commands)
    && (w.store.slot.Some? && w.store.slot.value.Handle? ==> w.store.slot.value.id in w.sessions)
    && w.asked <= w.sessions.Keys
  }

  lemma StepKeepsInv(w: World, e: Event)
    requires Inv(w)
    ensures Inv(Step(w, e))
  {
    var after := Step(w, e);
    match e
    case StartCommand =>
      assert !SlotIsLive(w.store.slot, w.sessions) ==> w.commands == map[] && w.store.nextId in after.commands;
      assert w.commands == map[] ==> forall id :: id !in w.commands;
    case SessionStarts(id) =>
      assert IsIn(w, id, Claimed) ==> id in after.commands;
    case StartFails(id, _) =>
      assert IsIn(w, id, Claimed) ==> w.commands.Keys == {id} && after.commands == map[];
    case PutHandle(id) =>
      assert IsIn(w, id, Spawned) ==> w.commands.Keys == {id} && after.commands == map[];
    case _ =>
  }

  lemma {:induction false} RunKeepsInv(w: World, events: seq<Event>)
    requires Inv(w)
    ensures Inv(Run(w, events))
    decreases |events|
  {
    hide Step, Inv;
    if events != [] {
      StepKeepsInv(w, events[0]);
      RunKeepsInv(Step(w, events[0]), events[1..]);
    }
  }

  /** However start, stop and status commands interleave, at most one session is live, and
      while a command is still starting one, no other is. */
  lemma OneLiveSession(events: seq<Event>, a: nat, b: nat)
    requires var w := Run(Empty(), events);
             Live(w.sessions, a) && (Live(w.sessions, b) || b in w.commands)
    ensures a == b
  {
    hide Run;
    RunKeepsInv(Empty(), events);
  }

  /** A session is only ever started while nothing is live, and no started one is turned away:
      the slot still holds the placeholder when its handle is put in. */
  lemma PlaceholderHolds(events: seq<Event>, id: nat)
    requires id in Run(Empty(), events).commands
    ensures var w := Run(Empty(), events);
            && w.store.slot == Some(Starting)
            && (IsIn(w, id, Claimed) ==> forall x :: !Live(w.sessions, x))
            && (IsIn(w, id, Spawned) ==>
                  Step(w, PutHandle(id)).store.slot == Some(Handle(id)) && Step(w, PutHandle(id)).asked == w.asked)
  {
    hide Run;
    RunKeepsInv(Empty(), events);
  }

  /** A handle is turned away exactly by a live one; the placeholder, an error and the handle of a
      session that has ended make way. */
  lemma TurnedAwayExactly(v: StoreView, id: nat, sessions: map<nat, SessionStatus>)
    ensures var (after, installed) := PutIn(v, id, sessions);
            && (!installed <==> exists other :: v.slot == Some(Handle(other)) && Live(sessions, other))
            && after == if installed then v.(slot := Some(Handle(id))) else v
  {
    if v.slot.Some? && v.slot.value.Handle? {
      assert v.slot == Some(Handle(v.slot.value.id));
    }
  }

  /** A start is refused exactly when another start is under way or a session is live. */
  lemma RefusedExactly(events: seq<Event>)
    ensures var w := Run(Empty(), events);
            Step(w, StartCommand) == w <==> w.commands != map[] || exists id :: Live(w.sessions, id)
  {
    hide Run;
    RunKeepsInv(Empty(), events);
    var w := Run(Empty(), events);
    if !SlotIsLive(w.store.slot, w.sessions) {
      assert w.store.nextId in Step(w, StartCommand).commands && w.store.nextId !in w.commands;
    }
  }

  /** A stop asks only the session in the slot, and leaves the slot alone. */
  lemma StopReachesTheLiveSession(events: seq<Event>, id: nat)
    requires var w := Run(Empty(), events); Live(w.sessions, id) && w.commands == map[]
    ensures var w := Run(Empty(), events);
            Step(w, StopCommand) == w.(asked := w.asked + {id})
  {
    hide Run;
    RunKeepsInv(Empty(), events);
  }
}
