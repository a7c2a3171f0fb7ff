/** The store behind the pairing commands of the desktop application (src-tauri, lib.rs): code
    and manual pairing share one state, one cancel token and one worker. Commands, the worker
    and its result interleave freely; one step is one critical section. */
module PairingStore {
  import opened Basics

  type Outcome = Result<string, string>

  datatype State =
    | Idle
    | Waiting(generation: nat)
    | Succeeded(generation: nat, device: string)
    | Failed(generation: nat, code: string)
    | Cancelling(generation: nat)

  predicate Active(s: State) {
    s.Waiting? || s.Cancelling?
  }

  /** Generation 0 belongs to no worker. */
  function Generation(s: State): nat {
    if s.Idle? then 0 else s.generation
  }

  /** The state after a result for `generation` has come in. */
  function AfterResult(s: State, generation: nat, outcome: Outcome): State {
    if Generation(s) != generation then s
    else if s.Cancelling? then Idle
    else if outcome.Ok? then Succeeded(generation, outcome.value)
    else Failed(generation, outcome.error)
  }

  // ----- The store -----

  /** Tokens are told apart by the generation they were made for. */
  datatype StoreView = StoreView(state: State, token: Option<nat>, lastGeneration: nat, cancelled: set<nat>)

  /** Lets a worker for `generation` start, unless one is at work. */
  function Admit(v: StoreView, generation: nat): (StoreView, bool) {
    if Active(v.state) then (v, false)
    else (v.(state := Waiting(generation), token := Some(generation)), true)
  }

  function CancelRound(v: StoreView): StoreView {
    if !v.state.Waiting? then v
    else v.(state := Cancelling(v.state.generation),
            cancelled := if v.token.Some? then v.cancelled + {v.token.value} else v.cancelled)
  }

  function TakeResult(v: StoreView, generation: nat, outcome: Outcome): StoreView {
    if Generation(v.state) != generation then v
    else v.(state := AfterResult(v.state, generation, outcome), token := None)
  }

  class Store {
    var state: State
    var token: Option<nat>
    var lastGeneration: nat
    var cancelled: set<nat>

    ghost function View(): StoreView
      reads this
    {
      StoreView(state, token, lastGeneration, cancelled)
    }

    constructor ()
      ensures View() == StoreView(Idle, None, 0, {})
    {
      state, token, lastGeneration, cancelled := Idle, None, 0, {};
    }

    /** Generations are drawn before the lock is taken. */
    method Draw() returns (generation: nat)
      modifies this`lastGeneration
      ensures generation == old(lastGeneration) + 1 && View() == old(View()).(lastGeneration := generation)
    {
      lastGeneration := lastGeneration + 1;
      generation := lastGeneration;
    }

    method Begin(generation: nat) returns (admitted: bool)
      modifies this`state, this`token
      ensures (View(), admitted) == Admit(old(View()), generation)
    {
      if Active(state) {
        return false;
      }
      state := Waiting(generation);
      token := Some(generation);
      admitted := true;
    }

    method Cancel()
      modifies this`state, this`cancelled
      ensures View() == CancelRound(old(View()))
    {
      if state.Waiting? {
        if token.Some? {
          cancelled := cancelled + {token.value};
        }
        state := Cancelling(state.generation);
      }
    }

    method SetResult(generation: nat, outcome: Outcome)
      modifies this`state, this`token
      ensures View() == TakeResult(old(View()), generation, outcome)
    {
      if Generation(state) != generation {
        return;
      }
      if state.Cancelling? {
        state := Idle;
        token := None;
        return;
      }
      state := if outcome.Ok? then Succeeded(generation, outcome.value) else Failed(generation, outcome.error);
      token := None;
    }
  }

  // ----- Interleavings -----

  /** The store; the commands that have drawn a generation and wait for the lock; the workers. */
  datatype World = World(store: StoreView, drawn: set<nat>, workers: set<nat>)

  datatype Event =
    | DrawGeneration
    | BeginWorker(generation: nat)
    | CancelCommand
    | WorkerEnds(generation: nat, outcome: Outcome)

  function Fresh(): World {
    World(StoreView(Idle, None, 0, {}), {}, {})
  }

  function Step(w: World, e: Event): World {
    match e
    case DrawGeneration =>
      var drawn := w.store.lastGeneration + 1;
      w.(store := w.store.(lastGeneration := drawn), drawn := w.drawn + {drawn})
    case BeginWorker(generation) =>
      if generation !in w.drawn then w
      else
        var (store, admitted) := Admit(w.store, generation);
        World(store, w.drawn - {generation}, if admitted then w.workers + {generation} else w.workers)
    case CancelCommand => w.(store := CancelRound(w.store))
    case WorkerEnds(generation, outcome) =>
      if generation !in w.workers then w
      else World(TakeResult(w.store, generation, outcome), w.drawn, w.workers - {generation})
  }

  function Run(w: World, events: seq<Event>): World
    decreases |events|
  {
    if events == [] then w else Run(Step(w, events[0]), events[1..])
  }

  ghost predicate Inv(w: World) {
    && w.workers == (if Active(w.store.state) then {Generation(w.store.state)} else {})
    && w.store.token == (if Active(w.store.state) then Some(Generation(w.store.state)) else None)
    && (w.store.state.Waiting? ==> w.store.state.generation !in w.store.cancelled)
    && (w.store.state.Cancelling? ==> w.store.state.generation in w.store.cancelled)
    && (forall g :: g in w.drawn || g in w.workers || g in w.store.cancelled ==> 1 <= g <= w.store.lastGeneration)
    && (!w.store.state.Idle? ==>
          1 <= w.store.state.generation <= w.store.lastGeneration && w.store.state.generation !in w.drawn)
    && w.drawn !! w.store.cancelled
  }

  lemma StepKeepsInv(w: World, e: Event)
    requires Inv(w)
    ensures Inv(Step(w, e))
  {
  }

  lemma {:induction false} RunKeepsInv(w: World, events: seq<Event>)
    requires Inv(w)
    ensures Inv(Run(w, events))
    decreases |events|
  {
    hide Step, Inv;
    if events != [] {
      StepKeepsInv(w, events[0]);
      RunKeepsInv(Step(w, events[0]), events[1..]);
    }
  }

  /** In every interleaving there is at most one worker; there is one exactly while the state
      is waiting or cancelling; and it is the one of the state's generation, whose token is the
      one that can be cancelled. */
  lemma OneWorkerWhileActive(events: seq<Event>)
    ensures var w := Run(Fresh(), events);
            && (forall a, b :: a in w.workers && b in w.workers ==> a == b)
            && (forall g :: g in w.workers <==> Active(w.store.state) && Generation(w.store.state) == g)
            && (forall g :: g in w.workers ==> w.store.token == Some(g))
            && (w.workers == {} ==> w.store.token == None)
  {
    hide Run;
    RunKeepsInv(Fresh(), events);
  }

  /** No result is lost and none is misplaced: when a worker ends, its result becomes the
      state, unless its round was being cancelled; and the store is free again. */
  lemma ResultsArrive(events: seq<Event>, generation: nat, outcome: Outcome)
    requires generation in Run(Fresh(), events).workers
    ensures var w := Run(Fresh(), events);
            var after := Step(w, WorkerEnds(generation, outcome));
            && after.workers == {} && !Active(after.store.state) && after.store.token == None
            && (generation in w.store.cancelled ==> after.store.state == Idle)
            && (generation !in w.store.cancelled ==>
                  after.store.state == if outcome.Ok? then Succeeded(generation, outcome.value)
                                 else Failed(generation, outcome.error))
  {
    hide Run;
    RunKeepsInv(Fresh(), events);
  }

  /** A begin is admitted exactly when no round is waiting or being cancelled, so also after one
      that succeeded or failed; its round is then the one that waits, with a worker and a token
      that nobody has cancelled. Turned away, it leaves everything as it was. */
  lemma BeginsExactly(events: seq<Event>, generation: nat)
    requires generation in Run(Fresh(), events).drawn
    ensures var w := Run(Fresh(), events);
            var after := Step(w, BeginWorker(generation));
            && (generation in after.workers <==> !(w.store.state.Waiting? || w.store.state.Cancelling?))
            && (generation in after.workers ==>
                  && after.workers == {generation} && after.store.state == Waiting(generation)
                  && after.store.token == Some(generation) && generation !in after.store.cancelled)
            && (generation !in after.workers ==> after.store == w.store && after.workers == w.workers)
  {
    hide Run;
    RunKeepsInv(Fresh(), events);
  }

  /** A cancel of a waiting round shows it as being cancelled; any other changes nothing. */
  lemma CancelsExactly(events: seq<Event>)
    ensures var w := Run(Fresh(), events);
            var after := Step(w, CancelCommand);
            && (w.store.state.Waiting? ==>
                  && after.store.state == Cancelling(w.store.state.generation)
                  && after.store.cancelled == w.store.cancelled + {w.store.state.generation})
            && (!w.store.state.Waiting? ==> after == w)
  {
    hide Run;
    RunKeepsInv(Fresh(), events);
  }

  /** A cancel reaches the worker at work, and nobody else. */
  lemma CancelReachesTheWorker(events: seq<Event>)
    ensures var w := Run(Fresh(), events);
            var after := Step(w, CancelCommand);
            && w.workers <= after.store.cancelled && after.workers == w.workers
            && after.store.cancelled <= w.store.cancelled + w.workers && after.drawn == w.drawn
  {
    hide Run;
    RunKeepsInv(Fresh(), events);
  }

  /** Generations that are neither waiting for the lock nor the state's own. */
  predicate Past(w: World, generation: nat) {
    1 <= generation <= w.store.lastGeneration && generation !in w.drawn && Generation(w.store.state) != generation
  }

  lemma StepKeepsPast(w: World, e: Event, generation: nat)
    requires Inv(w) && Past(w, generation)
    ensures Past(Step(w, e), generation)
  {
  }

  /** Stale results change nothing: once a generation is over or was turned away, and the
      state is another's, no result for it changes the state, however long after. */
  lemma {:induction false} StaleResultsChangeNothing(w: World, events: seq<Event>, generation: nat, outcome: Outcome)
    requires Inv(w) && Past(w, generation)
    ensures AfterResult(Run(w, events).store.state, generation, outcome) == Run(w, events).store.state
    ensures generation !in Run(w, events).workers
    decreases |events|
  {
    if events != [] {
      hide Step, Inv, Past;
      StepKeepsInv(w, events[0]);
      StepKeepsPast(w, events[0], generation);
      StaleResultsChangeNothing(Step(w, events[0]), events[1..], generation, outcome);
    }
  }
}
