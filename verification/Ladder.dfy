/** The parallel termination ladder for process groups (quadcontrol-process, unix): interrupt
    all groups, wait, terminate all groups, wait, kill all groups and reap. When processes
    exit, when the user presses on and how long a turn takes are oracles. */
module Ladder {
  import opened Basics

  datatype Signal = Interrupt | Terminate | Kill

  const GENTLE := 3000
  const FIRM := 2000
  const POLL_INTERVAL := 100

  /** `exits(k, i)`: whether the `k`th poll, of child `i`, finds it gone. `presses(k)`: the
      answer when escalation is asked for the `k`th time. `extra(k)`: by how much the `k`th
      turn, its sleep included, takes longer than the interval. `reap(i)`: the error with
      which the final wait for child `i` fails. Times are in milliseconds. */
  datatype Oracle = Oracle(
    exits: (nat, nat) -> bool,
    presses: nat -> bool,
    extra: nat -> nat,
    reap: nat -> Option<string>)

  /** No turn takes longer than `bound`. */
  ghost predicate TurnsWithin(oracle: Oracle, bound: nat) {
    forall k :: POLL_INTERVAL + oracle.extra(k) <= bound
  }

  /** Some question for escalation from the `a`th up to the `b`th was answered yes. */
  ghost predicate PressedBetween(oracle: Oracle, a: nat, b: nat) {
    exists k :: a <= k < b && oracle.presses(k)
  }

  /** The `k`th poll, of one of the children, finds it still there. */
  ghost predicate StillThere(oracle: Oracle, count: nat, k: nat) {
    exists i: nat :: i < count && !oracle.exits(k, i)
  }

  class Children {
    const count: nat
    const oracle: Oracle
    var reaped: set<nat>
    var sent: seq<seq<Signal>>
    var clock: nat
    var polls: nat
    var asked: nat
    var turns: nat

    constructor (count: nat, oracle: Oracle)
      ensures this.count == count && this.oracle == oracle && Valid()
      ensures reaped == {} && sent == seq(count, _ => []) && clock == 0
    {
      this.count, this.oracle := count, oracle;
      reaped, sent, clock, polls, asked, turns := {}, seq(count, _ => []), 0, 0, 0, 0;
    }

    ghost predicate Valid()
      reads this
    {
      |sent| == count && forall i :: i in reaped ==> i < count
    }

    ghost predicate ReapedBelow(n: nat)
      reads this
    {
      forall i :: 0 <= i < n ==> i in reaped
    }

    ghost predicate AllReaped()
      reads this
    {
      ReapedBelow(count)
    }

    /** Of the first `n` children each was gone before, or is found so by the polls from `from` on. */
    ghost predicate FoundGone(gone: set<nat>, from: nat, n: nat) {
      forall i: nat :: i < n ==> i in gone || oracle.exits(from + i, i)
    }

    /** A child found gone is reaped by the same call, and stays so. */
    method TryWait(i: nat) returns (gone: bool)
      requires Valid() && i < count
      modifies this`reaped, this`polls
      ensures Valid() && polls == old(polls) + 1
      ensures gone == (i in old(reaped) || oracle.exits(old(polls), i))
      ensures reaped == if gone then old(reaped) + {i} else old(reaped)
    {
      gone := i in reaped || oracle.exits(polls, i);
      polls := polls + 1;
      if gone {
        reaped := reaped + {i};
      }
    }

    method Escalated() returns (yes: bool)
      modifies this`asked
      ensures asked == old(asked) + 1 && yes == oracle.presses(old(asked))
    {
      yes := oracle.presses(asked);
      asked := asked + 1;
    }

    method Sleep()
      modifies this`clock, this`turns
      ensures turns == old(turns) + 1 && clock == old(clock) + POLL_INTERVAL + oracle.extra(old(turns))
    {
      clock := clock + POLL_INTERVAL + oracle.extra(turns);
      turns := turns + 1;
    }

    /** Looks at the children in order, as far as the first that is still there. */
    method AllGone() returns (all: bool)
      requires Valid()
      modifies this`reaped, this`polls
      ensures Valid() && old(reaped) <= reaped && (all ==> AllReaped())
      ensures all <==> FoundGone(old(reaped), old(polls), count)
      ensures old(polls) <= polls && (!all ==> old(polls) < polls && LastStayed())
    {
      for i := 0 to count
        invariant Valid() && old(reaped) <= reaped && forall j :: 0 <= j < i ==> j in reaped
        invariant polls == old(polls) + i && FoundGone(old(reaped), old(polls), i)
        invariant forall j :: j in reaped && j !in old(reaped) ==> j < i
      {
        var gone := TryWait(i);
        if !gone {
          assert !oracle.exits(polls - 1, i);
          return false;
        }
      }
      all := true;
    }

    /** Some poll from the `from`th on found its child still there. */
    ghost predicate SomeStayed(from: nat) {
      exists k: nat :: from <= k && StillThere(oracle, count, k)
    }

    /** The last poll found its child still there. */
    ghost predicate LastStayed()
      reads this
    {
      polls > 0 && StillThere(oracle, count, polls - 1)
    }

    /** Waits for all children on one shared budget. */
    method WaitAllFor(timeout: nat) returns (all: bool)
      requires Valid()
      modifies this`reaped, this`polls, this`asked, this`clock, this`turns
      ensures Valid() && old(reaped) <= reaped && (all ==> AllReaped())
      ensures old(clock) <= clock && old(asked) <= asked
      ensures !all ==> clock >= old(clock) + timeout || PressedBetween(oracle, old(asked), asked)
      ensures forall bound :: TurnsWithin(oracle, bound) ==> clock < old(clock) + timeout + bound
      ensures oracle.presses(old(asked)) ==> clock == old(clock)
      ensures FoundGone(old(reaped), old(polls), count) ==> all && clock == old(clock)
      ensures old(polls) <= polls && (!all ==> SomeStayed(old(polls)) && LastStayed())
    {
      hide FoundGone, AllReaped, StillThere;
      var start := clock;
      assert forall bound :: TurnsWithin(oracle, bound) ==> POLL_INTERVAL + oracle.extra(0) <= bound;
      while true
        invariant Valid() && old(reaped) <= reaped
        invariant old(clock) <= clock && old(asked) <= asked
        invariant forall bound :: TurnsWithin(oracle, bound) ==> clock < old(clock) + timeout + bound
        invariant (clock == old(clock) && asked == old(asked)) || !oracle.presses(old(asked))
        invariant old(polls) <= polls && (FoundGone(old(reaped), old(polls), count) ==>
                                            (reaped, polls, clock) == (old(reaped), old(polls), old(clock)))
        decreases old(clock) + timeout + POLL_INTERVAL - clock
      {
        var gone := AllGone();
        if gone {
          return true;
        }
        var pressed := Escalated();
        if pressed || clock - start >= timeout {
          return false;
        }
        Sleep();
      }
    }

    /** Signals every group, whether or not its leader has been reaped. */
    method ForEachGroup(signal: Signal)
      requires Valid()
      modifies this`sent
      ensures Valid() && forall i :: 0 <= i < count ==> sent[i] == old(sent[i]) + [signal]
    {
      for i := 0 to count
        invariant |sent| == count
        invariant forall j :: 0 <= j < i ==> sent[j] == old(sent[j]) + [signal]
        invariant forall j :: i <= j < count ==> sent[j] == old(sent[j])
      {
        sent := sent[i := sent[i] + [signal]];
      }
    }

    /** The whole ladder. Every group gets the same signals: a prefix of interrupt, terminate,
        kill, without the interrupt if the user had already pressed on. The next signal comes
        only after its budget is spent or the user presses on. The time spent waiting does
        not depend on how many children there are. `Ok` means that every child is reaped. */
    method TerminateAll() returns (r: Result<(), string>, ghost signals: seq<Signal>)
      requires Valid()
      modifies this
      ensures Valid() && old(reaped) <= reaped && old(clock) <= clock && old(asked) < asked
      ensures forall i :: 0 <= i < count ==> sent[i] == old(sent[i]) + signals
      ensures signals in LADDERS && (signals[0] == Terminate <==> oracle.presses(old(asked)))
      ensures r.Ok? ==> AllReaped()
      ensures r.Err? ==> Kill in signals
      ensures r.Err? ==> exists i :: 0 <= i < count && oracle.reap(i) == Some(r.error) && ReapedBelow(i)
      ensures signals == [Interrupt] || signals == [Terminate] ==> r.Ok?
      ensures |signals| > 1 ==> SomeStayed(old(polls))
      ensures Kill in signals ==> LastStayed()
      ensures FoundGone(old(reaped), old(polls), count) ==>
                && r.Ok? && clock == old(clock)
                && signals == if oracle.presses(old(asked)) then [Terminate] else [Interrupt]
      ensures Interrupt in signals && Terminate in signals ==>
                clock >= old(clock) + 3000 || PressedBetween(oracle, old(asked), asked)
      ensures Kill in signals ==>
                clock >= old(clock) + 2000 + (if Interrupt in signals then 3000 else 0)
                || PressedBetween(oracle, old(asked), asked)
      ensures forall bound :: TurnsWithin(oracle, bound) ==> clock < old(clock) + 5000 + bound + bound
      ensures (forall k :: k >= old(asked) ==> oracle.presses(k)) ==> clock == old(clock)
    {
      hide FoundGone, AllReaped, SomeStayed, LastStayed, ReapedBelow, TurnsWithin;
      var pressed := Escalated();
      if pressed {
        r, signals := Firmly();
        return;
      }
      ForEachGroup(Interrupt);
      var gone := WaitAllFor(GENTLE);
      if gone {
        return Ok(()), [Interrupt];
      }
      SomeStayedEarlier(old(polls), polls);
      ghost var more;
      r, more := Firmly();
      signals := [Interrupt] + more;
      assert [Interrupt] + [Terminate] == [Interrupt, Terminate];
      assert [Interrupt] + [Terminate, Kill] == [Interrupt, Terminate, Kill];
    }

    lemma SomeStayedEarlier(a: nat, b: nat)
      requires a <= b
      ensures SomeStayed(b) ==> SomeStayed(a)
    {
    }

    /** The steps of the ladder after the interrupt. */
    method Firmly() returns (r: Result<(), string>, ghost signals: seq<Signal>)
      requires Valid()
      modifies this
      ensures Valid() && old(reaped) <= reaped && old(clock) <= clock && old(asked) <= asked
      ensures forall i :: 0 <= i < count ==> sent[i] == old(sent[i]) + signals
      ensures signals == [Terminate] || (signals == [Terminate, Kill] && LastStayed() && SomeStayed(old(polls)))
      ensures r.Ok? ==> AllReaped()
      ensures r.Err? ==> Kill in signals
      ensures r.Err? ==> exists i :: 0 <= i < count && oracle.reap(i) == Some(r.error) && ReapedBelow(i)
      ensures FoundGone(old(reaped), old(polls), count) ==> r.Ok? && clock == old(clock) && signals == [Terminate]
      ensures Kill in signals ==> clock >= old(clock) + 2000 || PressedBetween(oracle, old(asked), asked)
      ensures forall bound :: TurnsWithin(oracle, bound) ==> clock < old(clock) + 2000 + bound
      ensures oracle.presses(old(asked)) ==> clock == old(clock)
    {
      hide FoundGone, AllReaped, SomeStayed, StillThere, ReapedBelow, TurnsWithin;
      ForEachGroup(Terminate);
      signals := [Terminate];
      var gone := WaitAllFor(FIRM);
      if gone {
        return Ok(()), signals;
      }
      ForEachGroup(Kill);
      signals := [Terminate, Kill];
      r := ReapAll();
    }

    /** Waits for each child in order, as far as the first wait that fails. */
    method ReapAll() returns (r: Result<(), string>)
      requires Valid()
      modifies this`reaped
      ensures Valid() && old(reaped) <= reaped && (r.Ok? ==> AllReaped())
      ensures r.Err? ==> exists i :: 0 <= i < count && oracle.reap(i) == Some(r.error) && ReapedBelow(i)
    {
      for i := 0 to count
        invariant Valid() && old(reaped) <= reaped && ReapedBelow(i)
      {
        var error := oracle.reap(i);
        if error != None {
          return Err(error.value);
        }
        reaped := reaped + {i};
      }
      r := Ok(());
    }
  }

  const LADDERS: set<seq<Signal>> := {
    [Interrupt], [Interrupt, Terminate], [Interrupt, Terminate, Kill], [Terminate], [Terminate, Kill]
  }
}
