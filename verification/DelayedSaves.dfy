/**
 Delayed saves: a change marks a state as dirty, which enqueues one task to save it later; an immediate
 save takes the slot of that task and stops it, if that is still possible.
 */
module DelayedSaves {
  import opened Options

  type TaskId = nat

  datatype Deed = Enqueued(task: TaskId) | Stopped(task: TaskId) | Saved(saver: Option<TaskId>)

  /** `version` counts the marked changes, `saved` those in the latest snapshot; `live` are the tasks that may
      still run. */
  datatype State = State(
    version: nat, saved: nat, slot: Option<TaskId>, nextTask: TaskId, live: set<TaskId>, stopped: set<TaskId>,
    history: seq<Deed>)

  const INIT := State(0, 0, None, 0, {}, {}, [])

  function Enqueue(st: State): State {
    if st.slot.Some? then st
    else st.(slot := Some(st.nextTask), nextTask := st.nextTask + 1, live := st.live + {st.nextTask},
             history := st.history + [Enqueued(st.nextTask)])
  }

  /** A change that is marked, under the same lock. */
  function Marked(st: State): State {
    Enqueue(st.(version := st.version + 1))
  }

  /** A task has slept and takes the lock. */
  function Woken(st: State, task: TaskId): State {
    var st' := st.(live := st.live - {task});
    if st.slot == Some(task) then
      st'.(slot := None, saved := st.version, history := st.history + [Saved(Some(task))])
    else
      st'
  }

  /** Stopping a task has no effect if it has already gone beyond its sleep. */
  function SavedNow(st: State): State {
    var st' := match st.slot
               case Some(task) =>
                 st.(slot := None, stopped := st.stopped + {task}, history := st.history + [Stopped(task)])
               case None => st;
    st'.(saved := st.version, history := st'.history + [Saved(None)])
  }

  class Saver {
    var version: nat
    var saved: nat
    var enqueuedSave: Option<TaskId>
    var nextTask: TaskId
    var live: set<TaskId>
    var stopped: set<TaskId>
    ghost var history: seq<Deed>

    constructor ()
      ensures Abstract() == INIT
    {
      version, saved, enqueuedSave, nextTask, live, stopped, history := 0, 0, None, 0, {}, {}, [];
    }

    ghost function Abstract(): State
      reads this
    {
      State(version, saved, enqueuedSave, nextTask, live, stopped, history)
    }

    method MarkDirty()
      modifies this
      ensures Abstract() == Marked(old(Abstract()))
    {
      version := version + 1;
      if enqueuedSave.Some? {
        return;
      }
      var task := nextTask;
      nextTask := nextTask + 1;
      live := live + {task};
      history := history + [Enqueued(task)];
      enqueuedSave := Some(task);
    }

    method Wake(task: TaskId)
      modifies this
      ensures Abstract() == Woken(old(Abstract()), task)
    {
      live := live - {task};
      if enqueuedSave != Some(task) {
        return;
      }
      enqueuedSave := None;
      saved := version;
      history := history + [Saved(Some(task))];
    }

    method SaveNow()
      modifies this
      ensures Abstract() == SavedNow(old(Abstract()))
    {
      if enqueuedSave.Some? {
        stopped := stopped + {enqueuedSave.value};
        history := history + [Stopped(enqueuedSave.value)];
        enqueuedSave := None;
      }
      saved := version;
      history := history + [Saved(None)];
    }
  }

  //// Runs ////

  datatype Action = Mark | Run(task: TaskId) | Cancelled(task: TaskId) | Save

  /** A stopped task may be cancelled in its sleep, or run nonetheless. */
  predicate Enabled(st: State, a: Action) {
    match a
    case Mark => true
    case Run(task) => task in st.live
    case Cancelled(task) => task in st.live && task in st.stopped
    case Save => true
  }

  function Next(st: State, a: Action): State {
    match a
    case Mark => Marked(st)
    case Run(task) => Woken(st, task)
    case Cancelled(task) => st.(live := st.live - {task})
    case Save => SavedNow(st)
  }

  predicate IsRun(st: State, actions: seq<Action>)
    decreases |actions|
  {
    actions == [] || (Enabled(st, actions[0]) && IsRun(Next(st, actions[0]), actions[1..]))
  }

  function After(st: State, actions: seq<Action>): State
    decreases |actions|
  {
    if actions == [] then st else After(Next(st, actions[0]), actions[1..])
  }

  //// The invariant ////

  /** Each enqueued save ends in one snapshot or is stopped once, unless it still has the slot. */
  ghost predicate TaskOk(st: State, task: TaskId) {
    var deeds := multiset(st.history);
    && deeds[Enqueued(task)] == (if task < st.nextTask then 1 else 0)
    && deeds[Enqueued(task)] ==
         deeds[Saved(Some(task))] + deeds[Stopped(task)] + (if st.slot == Some(task) then 1 else 0)
    && (deeds[Stopped(task)] > 0 <==> task in st.stopped)
    && (task in st.live ==> task < st.nextTask)
  }

  ghost predicate Ok(st: State) {
    && (forall task :: TaskOk(st, task))
    && st.saved <= st.version
    && (st.saved < st.version ==> st.slot.Some?)
    && (st.slot.Some? ==> st.slot.value in st.live && st.slot.value !in st.stopped)
  }

  lemma Append(h: seq<Deed>, d: Deed)
    ensures multiset(h + [d]) == multiset(h) + multiset{d}
  {
  }

  lemma MarkKeepsTask(st: State, task: TaskId)
    requires TaskOk(st, task) && TaskOk(st, st.nextTask)
    ensures TaskOk(Marked(st), task)
  {
    Append(st.history, Enqueued(st.nextTask));
  }

  lemma RunKeepsTask(st: State, woken: TaskId, task: TaskId)
    requires TaskOk(st, task)
    ensures TaskOk(Woken(st, woken), task)
  {
    Append(st.history, Saved(Some(woken)));
  }

  lemma SaveKeepsTask(st: State, task: TaskId)
    requires TaskOk(st, task)
    ensures TaskOk(SavedNow(st), task)
  {
    if st.slot.Some? {
      Append(st.history, Stopped(st.slot.value));
      Append(st.history + [Stopped(st.slot.value)], Saved(None));
    } else {
      Append(st.history, Saved(None));
    }
  }

  lemma StepKeepsOk(st: State, a: Action)
    requires Ok(st) && Enabled(st, a)
    ensures Ok(Next(st, a))
  {
    var st' := Next(st, a);
    forall task ensures TaskOk(st', task) {
      assert TaskOk(st, task) && TaskOk(st, st.nextTask);
      match a {
        case Mark => MarkKeepsTask(st, task);
        case Run(woken) => RunKeepsTask(st, woken, task);
        case Cancelled(_) =>
        case Save => SaveKeepsTask(st, task);
      }
    }
    assert TaskOk(st, st.nextTask);
  }

  lemma {:induction false} RunKeepsOk(st: State, actions: seq<Action>)
    requires Ok(st) && IsRun(st, actions)
    ensures Ok(After(st, actions))
    decreases |actions|
  {
    if actions != [] {
      StepKeepsOk(st, actions[0]);
      RunKeepsOk(Next(st, actions[0]), actions[1..]);
    }
  }

  //// The theorems ////

  /** In every run, a change that no snapshot has yet is awaited by a live task that was not stopped and
      that has the slot; the snapshot that this task takes when it runs has all changes. */
  lemma ChangesAreAwaited(actions: seq<Action>)
    requires IsRun(INIT, actions)
    ensures var st := After(INIT, actions);
            && st.saved <= st.version
            && (st.saved < st.version ==>
                  && st.slot.Some? && st.slot.value in st.live && st.slot.value !in st.stopped
                  && Enabled(st, Run(st.slot.value)) && Next(st, Run(st.slot.value)).saved == st.version)
  {
    RunKeepsOk(INIT, actions);
  }

  /** Once no task is left, everything is saved. */
  lemma QuietMeansSaved(actions: seq<Action>)
    requires IsRun(INIT, actions) && After(INIT, actions).live == {}
    ensures After(INIT, actions).saved == After(INIT, actions).version
  {
    RunKeepsOk(INIT, actions);
  }

  /** In every run, every task takes at most one snapshot, and a task that an immediate save stopped takes
      none, even if it could not be stopped in time. */
  lemma StoppedTasksNeverSave(actions: seq<Action>, task: TaskId)
    requires IsRun(INIT, actions)
    ensures var deeds := multiset(After(INIT, actions).history);
            && deeds[Saved(Some(task))] + deeds[Stopped(task)] <= deeds[Enqueued(task)] <= 1
            && (Stopped(task) in deeds ==> Saved(Some(task)) !in deeds)
  {
    RunKeepsOk(INIT, actions);
    assert TaskOk(After(INIT, actions), task);
  }

  /** How many saves are enqueued and not yet done. */
  function Pending(h: seq<Deed>): int {
    if h == [] then 0
    else Pending(h[..|h| - 1]) + match h[|h| - 1]
                                 case Enqueued(_) => 1
                                 case Stopped(_) => -1
                                 case Saved(saver) => if saver.Some? then -1 else 0
  }

  lemma {:induction false} PendingIsSlot(st: State, actions: seq<Action>)
    requires Pending(st.history) == if st.slot.Some? then 1 else 0
    ensures Pending(After(st, actions).history) == if After(st, actions).slot.Some? then 1 else 0
    decreases |actions|
  {
    if actions != [] {
      PendingStep(st, actions[0]);
      PendingIsSlot(Next(st, actions[0]), actions[1..]);
    }
  }

  lemma PendingStep(st: State, a: Action)
    requires Pending(st.history) == if st.slot.Some? then 1 else 0
    ensures Pending(Next(st, a).history) == if Next(st, a).slot.Some? then 1 else 0
  {
    forall d ensures (st.history + [d])[..|st.history|] == st.history {}
    if a.Save? && st.slot.Some? {
      var h := st.history + [Stopped(st.slot.value)];
      assert (h + [Saved(None)])[..|h|] == h;
    }
  }

  /** At every moment of every run at most one save is enqueued. */
  lemma AtMostOneSaveEnqueued(actions: seq<Action>)
    ensures 0 <= Pending(After(INIT, actions).history) <= 1
  {
    PendingIsSlot(INIT, actions);
  }
}
