/** What becomes of a task of the zone maintainer: how it finds its zone, whom it asks first, and what follows. */
module MaintainerTasks {
  import opened Options
  import opened RefreshZone
  import opened RefreshStates
  import RefreshTimers
  import opened MaintainerSteps
  import opened MaintainerProofs
  import opened MaintainerHistory
  import opened MaintainerSegments
  import MaintainerSchedule
  import RefreshAnswers
  import RefreshBounds

  //// A task waits for its own next step ////

  /** None of these actions is a step of the task. */
  ghost predicate Spares(actions: seq<Action>, id: nat) {
    forall a :: a in actions && IsTaskStep(a) ==> TaskOf(a) != id
  }

  lemma {:induction false} TaskWaits(w: World, id: nat, actions: seq<Action>)
    requires Reachable(w) && IsSegment(w.st, actions) && Spares(actions, id) && id in w.st.tasks
    ensures id in StateAfter(w.st, actions).tasks && StateAfter(w.st, actions).tasks[id] == w.st.tasks[id]
    decreases |actions|
  {
    if actions != [] {
      var a := actions[0];
      assert a in actions && forall b :: b in actions[1..] ==> b in actions;
      StepReachable(w, a);
      TaskWaitsStep(w, id, a);
      TaskWaits(World(Next(w.st, a), w.history + Observed(w.st, a)), id, actions[1..]);
    }
  }

  lemma TaskWaitsStep(w: World, id: nat, a: Action)
    requires Reachable(w) && Enabled(w.st, a) && id in w.st.tasks && (IsTaskStep(a) ==> TaskOf(a) != id)
    ensures id in Next(w.st, a).tasks && Next(w.st, a).tasks[id] == w.st.tasks[id]
  {
    ReachableWorlds(w);
    assert TaskOk(w.st, id);
    if IsTaskStep(a) {
      TaskStepFrame(w.st, a);
      assert id in Next(w.st, a).tasks.Keys;
    } else {
      MaintainerSchedule.OthersOnlySpawn(w.st, a, id);
    }
  }

  /** The world after a stretch of actions is reachable too. */
  ghost function WorldAfter(w: World, actions: seq<Action>): World
    requires IsSegment(w.st, actions)
  {
    World(StateAfter(w.st, actions), w.history + ObservedIn(w.st, actions))
  }

  ghost function StepTo(w: World, a: Action): World
    requires Enabled(w.st, a)
  {
    World(Next(w.st, a), w.history + Observed(w.st, a))
  }

  //// A NOTIFY ////

  /** The task of a NOTIFY goes on exactly if the sender is known, the zone is tracked, it is pending or was active
      when the NOTIFY was handled, and no NOTIFY for it is in progress; then one is.  Otherwise the task ends.
      Nothing else changes either way. */
  lemma NotifyIsFollowedIff(w: World, id: nat, knownPrimary: bool)
    requires Reachable(w) && id in w.st.tasks && w.st.tasks[id].phase.Looking?
    requires w.st.tasks[id].cause.NotifyFromPrimary?
    ensures var (st, t, st') := (w.st, w.st.tasks[id], Next(w.st, Look(id, knownPrimary)));
            && st' == st.(tasks := st'.tasks, tracking := st'.tracking)
            && (id in st'.tasks <==>
                  && knownPrimary && t.zone in st.tracking && (t.zone in st.pending || t.zone in t.phase.zones)
                  && st.tracking[t.zone].status != NotifyInProgress)
            && (if id in st'.tasks then
                  && st'.tasks == st.tasks[id := Task(t.zone, t.cause, t.zone in st.pending, Found)]
                  && st'.tracking == st.tracking[t.zone := st.tracking[t.zone].(status := NotifyInProgress)]
                else
                  st'.tasks == st.tasks - {id} && st'.tracking == st.tracking)
  {
    ReachableWorlds(w);
    assert TaskOk(w.st, id);
  }

  /** A change of one of our own zones starts no task; a NOTIFY starts one that looks the zone up. */
  lemma NotifyIsReceived(w: World, z: RefreshTimers.ZoneId, source: Option<Addr>, soa: Option<Soa>)
    requires Reachable(w) && w.st.events != [] && w.st.events[0] == ZoneChanged(z, source)
    ensures var (st, st') := (w.st, Next(w.st, Handle(soa)));
            && st' == st.(events := st.events[1..], tasks := st'.tasks, nextTask := st'.nextTask)
            && st'.tasks == match source
                            case None => st.tasks
                            case Some(a) =>
                              st.tasks[st.nextTask := Task(z, NotifyFromPrimary(a), false, Looking(st.active))]
  {
  }

  lemma StartIsPossible(st: State, id: nat, local: LocalSoa)
    requires id in st.tasks && st.tasks[id].phase.Found? && st.tasks[id].zone in st.tracking
    requires IsSecondary(st, st.tasks[id].zone)
    ensures exists v :: Enabled(st, Start(id, local, v))
  {
    var t := st.tasks[id];
    var a :| a in st.configs[t.zone];
    var v := RefreshBounds.VisitsWith(InitialXfrAddr(t.cause), st.configs[t.zone], a, RefreshBounds.Unanswering());
    assert Enabled(st, Start(id, local, v));
  }

  /** A task that has found its zone starts its refresh by asking the sender of the NOTIFY, if there is one, and
      then each primary once. */
  lemma FoundTaskStarts(w: World, id: nat, actions: seq<Action>, local: LocalSoa, visits: seq<Visit>)
    requires Reachable(w) && id in w.st.tasks && w.st.tasks[id].phase.Found?
    requires IsSegment(w.st, actions) && Spares(actions, id)
    ensures var (t, st) := (w.st.tasks[id], StateAfter(w.st, actions));
            && id in st.tasks && st.tasks[id] == t && t.zone in st.configs && t.zone in st.tracking
            && (Enabled(st, Start(id, local, visits)) <==>
                  VisitsAll(visits, InitialXfrAddr(t.cause), st.configs[t.zone]))
            && exists v :: Enabled(st, Start(id, local, v))
  {
    var st := StateAfter(w.st, actions);
    SegmentReachable(w, actions);
    TaskWaits(w, id, actions);
    TasksAreNeverStuck(WorldAfter(w, actions), id);
    StartIsPossible(st, id, local);
  }

  /** Starting a refresh: the first primary visited that brings an SOA decides it. */
  lemma StartIsDecided(st: State, id: nat, local: LocalSoa, visits: seq<Visit>, soa: Soa)
    requires Enabled(st, Start(id, local, visits)) && !local.OutOfZone?
    ensures var (t, st') := (st.tasks[id], Next(st, Start(id, local, visits)));
            && id in st'.tasks && st'.tasks[id].phase.Refreshing?
            && (st'.tasks[id].phase.outcome == Done(Some(soa)) <==>
                  exists k :: RefreshAnswers.FirstToFetch(visits, k, st.configs[t.zone],
                                                          RefreshAnswers.CurrentOf(local), soa))
  {
    RefreshAnswers.RefreshByAnswers(local, visits, st.configs[st.tasks[id].zone]);
  }

  /** A refresh is under way, as a retry if this is the cause. */
  ghost predicate IsUnderWay(st: State, z: RefreshTimers.ZoneId, cause: Cause) {
    && z in st.tracking
    && st.tracking[z].status == if cause == SoaRetryTimer then RetryInProgress else RefreshInProgress(0)
  }

  lemma StartIsUnderWay(st: State, id: nat, local: LocalSoa, visits: seq<Visit>)
    requires Enabled(st, Start(id, local, visits))
    ensures IsUnderWay(Next(st, Start(id, local, visits)), st.tasks[id].zone, st.tasks[id].cause)
  {
  }

  /** Where handling the first event and then a stretch of actions leads. */
  ghost predicate LeadsTo(w: World, a: Action, actions: seq<Action>, w': World) {
    Enabled(w.st, a) && IsSegment(Next(w.st, a), actions) && w' == WorldAfter(StepTo(w, a), actions)
  }

  lemma LeadsToReachable(w: World, a: Action, actions: seq<Action>, w': World)
    requires Reachable(w) && LeadsTo(w, a, actions, w')
    ensures Reachable(StepTo(w, a)) && Reachable(w')
  {
    StepReachable(w, a);
    SegmentReachable(StepTo(w, a), actions);
  }

  /**
   A NOTIFY from a known primary for a tracked zone that is active, or still pending, leads to a refresh that asks
   the sender first, whatever else happens before the task looks the zone up and before it starts, unless another
   NOTIFY is in progress just then.  If the sender is configured and brings an SOA, that is the new one.
   */
  lemma NotifyStartsWithItsSource(w: World, z: RefreshTimers.ZoneId, source: Addr, soa: Option<Soa>,
                                  before: seq<Action>, w1: World,
                                  after: seq<Action>, w2: World, local: LocalSoa, visits: seq<Visit>)
    requires Reachable(w) && w.st.events != [] && w.st.events[0] == ZoneChanged(z, Some(source))
    requires LeadsTo(w, Handle(soa), before, w1) && Spares(before, w.st.nextTask)
    requires z in w1.st.tracking && (z in w.st.active || z in w1.st.pending)
    requires w1.st.tracking[z].status != NotifyInProgress
    requires LeadsTo(w1, Look(w.st.nextTask, true), after, w2) && Spares(after, w.st.nextTask)
    ensures var id := w.st.nextTask;
            && Next(w1.st, Look(id, true)).tracking[z].status == NotifyInProgress
            && z in w2.st.configs && (exists v :: Enabled(w2.st, Start(id, local, v)))
            && (Enabled(w2.st, Start(id, local, visits)) ==>
                  && visits != [] && visits[0].addr == source
                  && forall s ::
                       && !local.OutOfZone? && source in w2.st.configs[z]
                       && RefreshAnswers.Fetches(visits[0], w2.st.configs[z][source],
                                                 RefreshAnswers.CurrentOf(local), s)
                       ==> Next(w2.st, Start(id, local, visits)).tasks[id].phase.outcome == Done(Some(s)))
  {
    var id := w.st.nextTask;
    LeadsToReachable(w, Handle(soa), before, w1);
    LeadsToReachable(w1, Look(id, true), after, w2);
    NotifyIsReceived(w, z, Some(source), soa);
    TaskWaits(StepTo(w, Handle(soa)), id, before);
    NotifyIsFollowedIff(w1, id, true);
    FoundTaskStarts(StepTo(w1, Look(id, true)), id, after, local, visits);
    TaskWaits(StepTo(w1, Look(id, true)), id, after);
    if Enabled(w2.st, Start(id, local, visits)) {
      forall s | !local.OutOfZone? && source in w2.st.configs[z]
        && RefreshAnswers.Fetches(visits[0], w2.st.configs[z][source], RefreshAnswers.CurrentOf(local), s)
        ensures Next(w2.st, Start(id, local, visits)).tasks[id].phase.outcome == Done(Some(s))
      {
        assert RefreshAnswers.FirstToFetch(visits, 0, w2.st.configs[z], RefreshAnswers.CurrentOf(local), s);
        StartIsDecided(w2.st, id, local, visits, s);
      }
    }
  }

  //// A timer ////

  lemma {:induction false} StaysTracked(st: State, actions: seq<Action>, z: RefreshTimers.ZoneId)
    requires IsSegment(st, actions) && z in st.tracking
    ensures z in StateAfter(st, actions).tracking
    decreases |actions|
  {
    if actions != [] {
      ContactFrame(st, actions[0], z);
      StaysTracked(Next(st, actions[0]), actions[1..], z);
    }
  }

  lemma FiredTaskLooks(w: World, i: nat, before: seq<Action>, w1: World)
    requires Reachable(w) && i < |w.st.timers| && w.st.timers[i].zone in w.st.tracking
    requires LeadsTo(w, Fire(i), before, w1) && Spares(before, w.st.nextTask)
    ensures var (id, t) := (w.st.nextTask, w.st.timers[i]);
            && !t.cause.NotifyFromPrimary?
            && id in w1.st.tasks && w1.st.tasks[id] == Task(t.zone, t.cause, false, Looking(w.st.active))
            && t.zone in w1.st.tracking && IsSecondary(w1.st, t.zone)
  {
    var t := w.st.timers[i];
    ReachableWorlds(w);
    assert t in w.st.timers;
    LeadsToReachable(w, Fire(i), before, w1);
    TaskWaits(StepTo(w, Fire(i)), w.st.nextTask, before);
    StaysTracked(Next(w.st, Fire(i)), before, t.zone);
    ReachableWorlds(w1);
  }

  lemma FiredTaskFinds(w: World, i: nat, before: seq<Action>, w1: World, known: bool)
    requires Reachable(w) && i < |w.st.timers| && w.st.timers[i].zone in w.st.tracking
    requires LeadsTo(w, Fire(i), before, w1) && Spares(before, w.st.nextTask)
    ensures var (id, t) := (w.st.nextTask, w.st.timers[i]);
            && Enabled(w1.st, Look(id, known))
            && if t.zone in w.st.active || t.zone in w1.st.pending then
                 Next(w1.st, Look(id, known)) ==
                   w1.st.(tasks := w1.st.tasks[id := Task(t.zone, t.cause, t.zone in w1.st.pending, Found)])
               else
                 id !in Next(w1.st, Look(id, known)).tasks && t.zone in w.st.pending && t.zone in w1.st.active
  {
    LeadsToReachable(w, Fire(i), before, w1);
    FiredTaskLooks(w, i, before, w1);
    ReachableWorlds(w);
    ReachableWorlds(w1);
    assert w.st.timers[i].zone in w.st.configs.Keys && w.st.timers[i].zone in w1.st.configs.Keys;
  }

  /**
   A timer that fires for a tracked zone leads to a refresh of it that asks every primary once, whatever happens
   before the task looks the zone up and before it starts, unless the zone is promoted just in between: the task
   then finds it neither among the pending zones nor in the tree of the moment when the timer fired.  The refresh is
   a retry exactly if the timer is one for a retry.
   */
  lemma FiredTimerStartsRefresh(w: World, i: nat, before: seq<Action>, w1: World, known: bool, after: seq<Action>,
                                w2: World, local: LocalSoa, visits: seq<Visit>)
    requires Reachable(w) && i < |w.st.timers| && w.st.timers[i].zone in w.st.tracking
    requires LeadsTo(w, Fire(i), before, w1) && Spares(before, w.st.nextTask)
    requires LeadsTo(w1, Look(w.st.nextTask, known), after, w2) && Spares(after, w.st.nextTask)
    ensures var (id, t) := (w.st.nextTask, w.st.timers[i]);
            if t.zone in w.st.active || t.zone in w1.st.pending then
              && id in w2.st.tasks && w2.st.tasks[id] == Task(t.zone, t.cause, t.zone in w1.st.pending, Found)
              && (exists v :: Enabled(w2.st, Start(id, local, v)))
              && (Enabled(w2.st, Start(id, local, visits)) ==>
                    && VisitsAll(visits, None, w2.st.configs[t.zone])
                    && IsUnderWay(Next(w2.st, Start(id, local, visits)), t.zone, t.cause))
            else
              id !in Next(w1.st, Look(id, known)).tasks && t.zone in w.st.pending && t.zone in w1.st.active
  {
    var id := w.st.nextTask;
    LeadsToReachable(w, Fire(i), before, w1);
    LeadsToReachable(w1, Look(id, known), after, w2);
    FiredTaskFinds(w, i, before, w1, known);
    if w.st.timers[i].zone in w.st.active || w.st.timers[i].zone in w1.st.pending {
      FiredTaskLooks(w, i, before, w1);
      FoundTaskStarts(StepTo(w1, Look(id, known)), id, after, local, visits);
      if Enabled(w2.st, Start(id, local, visits)) {
        StartIsUnderWay(w2.st, id, local, visits);
      }
    }
  }

  //// Promotion ////

  /** A task that has found a zone which is still pending knows that it is. */
  ghost predicate KnowsPending(st: State, id: nat)
    requires id in st.tasks
  {
    var t := st.tasks[id];
    (t.phase.Found? || t.phase.Refreshing?) && t.zone in st.pending ==> t.wasPending
  }

  ghost predicate AllKnowPending(st: State) {
    forall id :: id in st.tasks ==> KnowsPending(st, id)
  }

  lemma PendingOnlyShrinks(w: World, a: Action, z: RefreshTimers.ZoneId)
    requires Reachable(w) && Enabled(w.st, a) && z in w.st.tracking && z in Next(w.st, a).pending
    ensures z in w.st.pending
  {
    ReachableWorlds(w);
    assert z in w.st.configs.Keys;
    ZonesOnlyMoveToActive(w, a, z);
  }

  lemma OwnTaskKnows(st: State, a: Action)
    requires ZonesOk(st) && TasksOk(st) && Enabled(st, a) && IsTaskStep(a) && KnowsPending(st, TaskOf(a))
    ensures TaskOf(a) in Next(st, a).tasks ==> KnowsPending(Next(st, a), TaskOf(a))
  {
    OtherStepsKeepZones(st, a);
    assert TaskOk(st, TaskOf(a));
    match a {
      case Look(_, _) =>
      case Start(_, _, _) =>
      case Progress(_, _) =>
      case Act(_) =>
      case Finish(_) =>
      case Promote(_) =>
      case _ =>
    }
  }

  lemma OtherTaskKnows(w: World, a: Action, id: nat)
    requires Reachable(w) && Enabled(w.st, a) && id in w.st.tasks && KnowsPending(w.st, id)
    requires IsTaskStep(a) ==> TaskOf(a) != id
    ensures id in Next(w.st, a).tasks && KnowsPending(Next(w.st, a), id)
  {
    TaskWaitsStep(w, id, a);
    var t := w.st.tasks[id];
    if (t.phase.Found? || t.phase.Refreshing?) && t.zone in Next(w.st, a).pending {
      TasksAreNeverStuck(w, id);
      PendingOnlyShrinks(w, a, t.zone);
    }
  }

  lemma OnlyLookersAppear(st: State, a: Action, id: nat)
    requires Enabled(st, a) && id !in st.tasks && id in Next(st, a).tasks
    ensures !IsTaskStep(a) && Next(st, a).tasks[id].phase.Looking?
  {
    if IsTaskStep(a) {
      TaskStepFrame(st, a);
      assert false;
    } else if a.Handle? && AddsZone(st, a) && st.events[0].zone in st.pending && IsSecondary(st, st.events[0].zone) {
      ZoneAddedFrame(st.(events := st.events[1..]), st.events[0].zone, a.soa);
    }
  }

  lemma KnowsPendingStep(w: World, a: Action)
    requires Reachable(w) && Enabled(w.st, a) && AllKnowPending(w.st)
    ensures AllKnowPending(Next(w.st, a))
  {
    ReachableWorlds(w);
    forall id | id in Next(w.st, a).tasks ensures KnowsPending(Next(w.st, a), id) {
      if id !in w.st.tasks {
        OnlyLookersAppear(w.st, a, id);
      } else if IsTaskStep(a) && TaskOf(a) == id {
        assert KnowsPending(w.st, id);
        OwnTaskKnows(w.st, a);
      } else {
        assert KnowsPending(w.st, id);
        OtherTaskKnows(w, a, id);
      }
    }
  }

  lemma {:induction false} RunsKnowPending(actions: seq<Action>)
    requires Run(actions).Some?
    ensures AllKnowPending(Run(actions).value.st)
    decreases |actions|
  {
    if actions != [] {
      var before := actions[..|actions| - 1];
      RunsKnowPending(before);
      assert Reachable(Run(before).value);
      KnowsPendingStep(Run(before).value, actions[|actions| - 1]);
    }
  }

  /** Handling the next event leaves the zone among the active ones. */
  ghost predicate ActiveNext(st: State, z: RefreshTimers.ZoneId) {
    st.events != [] && forall soa :: z in Next(st, Handle(soa)).active
  }

  lemma AddedIsActive(w: World, z: RefreshTimers.ZoneId)
    requires Reachable(w) && w.st.events != [] && w.st.events[0] == ZoneAdded(z) && z in w.st.tracking
    ensures ActiveNext(w.st, z)
  {
    ReachableWorlds(w);
    assert z in w.st.configs.Keys;
    forall soa ensures z in Next(w.st, Handle(soa)).active {
      if z in w.st.pending {
        ZoneAddedFrame(w.st.(events := w.st.events[1..]), z, soa);
      }
    }
  }

  /**
   The first refresh of a pending zone that goes well promotes it: its task is to ask for the promotion, whatever
   happens until it does, and once the events queued before are handled the next one makes the zone active.
   */
  lemma SuccessPromotes(w: World, id: nat, before: seq<Action>, w1: World, after: seq<Action>, w2: World)
    requires Reachable(w) && Enabled(w.st, Finish(id)) && w.st.tasks[id].phase.outcome.Done?
    requires w.st.tasks[id].zone in w.st.pending
    requires LeadsTo(w, Finish(id), before, w1) && Spares(before, id)
    ensures Enabled(w1.st, Promote(id))
    ensures LeadsTo(w1, Promote(id), after, w2) && MaintainerSchedule.Handled(after) == |w1.st.events| ==>
              ActiveNext(w2.st, w.st.tasks[id].zone)
  {
    var z := w.st.tasks[id].zone;
    var actions :| Run(actions) == Some(w);
    RunsKnowPending(actions);
    assert KnowsPending(w.st, id);
    LeadsToReachable(w, Finish(id), before, w1);
    TaskWaits(StepTo(w, Finish(id)), id, before);
    if LeadsTo(w1, Promote(id), after, w2) && MaintainerSchedule.Handled(after) == |w1.st.events| {
      LeadsToReachable(w1, Promote(id), after, w2);
      TasksAreNeverStuck(w1, id);
      MaintainerSchedule.QueueMoves(Next(w1.st, Promote(id)), after, |w1.st.events|);
      StaysTracked(Next(w1.st, Promote(id)), after, z);
      AddedIsActive(w2, z);
    }
  }
}
