/** The limit on concurrent streams (`streams.rs`): a counter changed by compare-and-swap, first as
    a class, then with any number of tasks whose loads may be stale and whose weak exchanges may
    fail for no reason. */
module ActiveStreams {
  class ActiveStreamTracker {
    var activeStreams: int
    const maxActiveStreams: nat
    ghost var guards: set<ActiveStreamGuard>

    /** The counter is the number of guards not yet released. */
    ghost predicate Valid()
      reads this, guards
    {
      && activeStreams == |guards| <= maxActiveStreams
      && forall g :: g in guards ==> g.tracker == this && !g.released
    }

    constructor (maxActiveStreams: nat)
      ensures Valid() && guards == {} && this.maxActiveStreams == maxActiveStreams
    {
      this.maxActiveStreams := maxActiveStreams;
      activeStreams := 0;
      guards := {};
    }

    /** `try_start_stream` and `try_start_owned`, when nothing interferes but `spurious` exchanges
        that fail for no reason. */
    method TryStartStream(spurious: nat) returns (guard: ActiveStreamGuard?)
      requires Valid()
      modifies this
      ensures Valid()
      ensures guard == null <==> old(activeStreams) == maxActiveStreams
      ensures guard == null ==> guards == old(guards)
      ensures guard != null ==> fresh(guard) && guards == old(guards) + {guard}
    {
      var current := activeStreams;
      var failures := 0;
      while true
        invariant failures <= spurious && current == activeStreams == old(activeStreams)
        invariant guards == old(guards) && Valid()
        decreases spurious - failures
      {
        if current >= maxActiveStreams {
          return null;
        }
        if failures == spurious && activeStreams == current {
          activeStreams := current + 1;
          guard := new ActiveStreamGuard(this);
          guards := guards + {guard};
          return;
        }
        current := activeStreams;
        failures := failures + 1;
      }
    }

    /** `end_stream` */
    method EndStream()
      modifies this`activeStreams
      ensures activeStreams == old(activeStreams) - 1
    {
      activeStreams := activeStreams - 1;
    }
  }

  class ActiveStreamGuard {
    const tracker: ActiveStreamTracker
    var released: bool

    constructor (tracker: ActiveStreamTracker)
      ensures this.tracker == tracker && !released
    {
      this.tracker := tracker;
      released := false;
    }

    /** `finish` and `drop`: the first release gives the slot back, a later one does nothing. */
    method Release()
      requires tracker.Valid() && (!released ==> this in tracker.guards)
      modifies this, tracker
      ensures tracker.Valid() && released
      ensures tracker.guards == old(tracker.guards) - {this}
      ensures tracker.activeStreams == old(tracker.activeStreams) - (if old(released) then 0 else 1)
    {
      if !released {
        tracker.EndStream();
        released := true;
        tracker.guards := tracker.guards - {this};
      }
    }
  }

  // Many tasks

  datatype Task = Idle | Trying(current: int) | Refused | Active | Finished

  /** `history` holds every value the counter has had; a relaxed load returns one of them. */
  datatype State = State(counter: int, tasks: map<nat, Task>, history: seq<int>) {
    function Of(t: nat): Task {
      if t in tasks then tasks[t] else Idle
    }

    function With(t: nat, task: Task): State {
      this.(tasks := tasks[t := task])
    }

    function Counting(counter: int): State {
      this.(counter := counter, history := history + [counter])
    }

    function ActiveTasks(): set<nat> {
      set t | t in tasks && tasks[t].Active?
    }
  }

  datatype Action =
    | Load(task: nat, seen: nat)
    | CompareExchange(task: nat, spurious: bool, seen: nat)
    | Finish(task: nat)
    | Drop(task: nat)

  const START := State(0, map[], [0])

  function Next(s: State, a: Action, max: nat): State {
    match a
    case Load(t, seen) =>
      if (s.Of(t).Idle? || s.Of(t).Refused?) && seen < |s.history| then s.With(t, Trying(s.history[seen])) else s
    case CompareExchange(t, spurious, seen) =>
      if !s.Of(t).Trying? then s
      else if s.Of(t).current >= max then s.With(t, Refused)
      else if !spurious && s.counter == s.Of(t).current then s.With(t, Active).Counting(s.counter + 1)
      else if seen < |s.history| then s.With(t, Trying(s.history[seen]))
      else s
    case Finish(t) => if s.Of(t).Active? then s.With(t, Finished).Counting(s.counter - 1) else s
    case Drop(t) =>
      if s.Of(t).Active? then s.With(t, Idle).Counting(s.counter - 1)
      else if s.Of(t).Finished? then s.With(t, Idle)
      else s
  }

  function Run(trace: seq<Action>, max: nat): State {
    if trace == [] then START else Next(Run(trace[..|trace| - 1], max), trace[|trace| - 1], max)
  }

  ghost predicate Inv(s: State, max: nat) {
    && s.counter == |s.ActiveTasks()|
    && s.history != [] && s.history[|s.history| - 1] == s.counter
    && (forall v :: v in s.history ==> 0 <= v <= max)
    && (forall t :: s.Of(t).Trying? ==> s.Of(t).current in s.history)
    && (forall t :: s.Of(t).Refused? ==> max as int in s.history)
  }

  lemma ActiveAfter(s: State, t: nat, task: Task)
    ensures s.With(t, task).ActiveTasks() == if task.Active? then s.ActiveTasks() + {t} else s.ActiveTasks() - {t}
    ensures t in s.ActiveTasks() <==> s.Of(t).Active?
    ensures forall u :: s.With(t, task).Of(u) == if u == t then task else s.Of(u)
  {
  }

  lemma StatusKeepsInv(s: State, t: nat, task: Task, max: nat)
    requires Inv(s, max) && !s.Of(t).Active? && !task.Active?
    requires task.Trying? ==> task.current in s.history
    requires task.Refused? ==> max as int in s.history
    ensures Inv(s.With(t, task), max)
  {
    ActiveAfter(s, t, task);
  }

  lemma SlotKeepsInv(s: State, t: nat, task: Task, max: nat)
    requires Inv(s, max) && s.Of(t).Active? != task.Active? && !task.Trying? && !task.Refused?
    requires task.Active? ==> s.counter < max
    ensures Inv(s.With(t, task).Counting(s.counter + (if task.Active? then 1 else -1)), max)
  {
    ActiveAfter(s, t, task);
    var after := s.With(t, task).Counting(s.counter + (if task.Active? then 1 else -1));
    assert after.ActiveTasks() == s.With(t, task).ActiveTasks();
    assert forall u :: after.Of(u) == s.With(t, task).Of(u);
    assert s.counter in s.history;
  }

  lemma StepKeepsInv(s: State, a: Action, max: nat)
    requires Inv(s, max)
    ensures Inv(Next(s, a, max), max)
  {
    hide Inv;
    var t := a.task;
    HistoryIsInRange(s, t, max);
    match a
    case Load(_, seen) =>
      if (s.Of(t).Idle? || s.Of(t).Refused?) && seen < |s.history| {
        StatusKeepsInv(s, t, Trying(s.history[seen]), max);
      }
    case CompareExchange(_, spurious, seen) =>
      if s.Of(t).Trying? {
        if s.Of(t).current >= max {
          StatusKeepsInv(s, t, Refused, max);
        } else if !spurious && s.counter == s.Of(t).current {
          SlotKeepsInv(s, t, Active, max);
        } else if seen < |s.history| {
          StatusKeepsInv(s, t, Trying(s.history[seen]), max);
        }
      }
    case Finish(_) =>
      if s.Of(t).Active? {
        SlotKeepsInv(s, t, Finished, max);
      }
    case Drop(_) =>
      if s.Of(t).Active? {
        SlotKeepsInv(s, t, Idle, max);
      } else if s.Of(t).Finished? {
        StatusKeepsInv(s, t, Idle, max);
      }
  }

  lemma HistoryIsInRange(s: State, t: nat, max: nat)
    requires Inv(s, max)
    ensures s.Of(t).Trying? ==> s.Of(t).current in s.history && s.Of(t).current <= max
  {
  }

  lemma {:induction false} RunKeepsInv(trace: seq<Action>, max: nat)
    ensures Inv(Run(trace, max), max)
    decreases |trace|
  {
    hide Next, Inv;
    if trace == [] {
      StartInv(max);
    } else {
      RunKeepsInv(trace[..|trace| - 1], max);
      StepKeepsInv(Run(trace[..|trace| - 1], max), trace[|trace| - 1], max);
    }
  }

  lemma StartInv(max: nat)
    ensures Inv(START, max)
  {
  }

  /** In every run the counter is exactly the number of unreleased guards and stays in range, and a
      refusal means that every slot was taken at some moment. */
  lemma CounterIsExact(trace: seq<Action>, max: nat)
    ensures
      var s := Run(trace, max);
      && s.counter == |s.ActiveTasks()|
      && (forall v :: v in s.history ==> 0 <= v <= max)
      && 0 <= s.counter <= max
      && (forall t :: s.Of(t).Refused? ==> max as int in s.history)
  {
    RunKeepsInv(trace, max);
    var s := Run(trace, max);
    assert s.counter in s.history;
  }

  lemma LastIsCounter(s: State, max: nat)
    requires Inv(s, max)
    ensures s.history != [] && s.history[|s.history| - 1] == s.counter
  {
  }

  /** A free slot can always be taken: a fresh load and one undisturbed exchange suffice. */
  lemma FreeSlotCanBeTaken(trace: seq<Action>, max: nat, t: nat)
    requires Run(trace, max).counter < max && Run(trace, max).Of(t).Idle?
    ensures
      var latest := |Run(trace, max).history| - 1;
      latest >= 0 && Run(trace + [Load(t, latest), CompareExchange(t, false, latest)], max).Of(t).Active?
  {
    hide Inv;
    RunKeepsInv(trace, max);
    LastIsCounter(Run(trace, max), max);
    var latest := |Run(trace, max).history| - 1;
    var whole := trace + [Load(t, latest), CompareExchange(t, false, latest)];
    assert whole[..|whole| - 1] == trace + [Load(t, latest)];
    assert (trace + [Load(t, latest)])[..|trace|] == trace;
  }

  /** Finishing and then dropping a guard gives its slot back once. */
  lemma FinishThenDropReleasesOnce(s: State, max: nat, t: nat)
    requires Inv(s, max) && s.Of(t).Active?
    ensures
      var finished := Next(s, Finish(t), max);
      var dropped := Next(finished, Drop(t), max);
      finished.counter == s.counter - 1 && dropped.counter == finished.counter && dropped.Of(t).Idle?
      && Next(s, Drop(t), max).counter == s.counter - 1
  {
  }
}
