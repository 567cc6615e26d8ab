/** When the zone maintainer looks at a zone's primaries again. */
module MaintainerSchedule {
  import opened Options
  import opened RefreshZone
  import opened RefreshStates
  import opened RefreshTimers
  import opened MaintainerSteps
  import opened MaintainerProofs
  import opened MaintainerHistory
  import opened MaintainerSegments

  //// Success ////

  /** A task whose effects are done stays as it is until it finishes, whatever other tasks do. */
  lemma {:induction false} TaskRemains(w: World, id: nat, actions: seq<Action>)
    requires Reachable(w) && IsSegment(w.st, actions) && Finish(id) !in actions
    requires id in w.st.tasks && w.st.tasks[id].phase.Refreshing? && w.st.tasks[id].phase.effects == []
    ensures var st' := StateAfter(w.st, actions); id in st'.tasks && st'.tasks[id] == w.st.tasks[id]
    decreases |actions|
  {
    if actions != [] {
      var a := actions[0];
      assert a in actions && Finish(id) !in actions[1..];
      StepReachable(w, a);
      TaskRemainsStep(w, id, a);
      TaskRemains(World(Next(w.st, a), w.history + Observed(w.st, a)), id, actions[1..]);
    }
  }

  lemma TaskRemainsStep(w: World, id: nat, a: Action)
    requires Reachable(w) && Enabled(w.st, a) && a != Finish(id)
    requires id in w.st.tasks && w.st.tasks[id].phase.Refreshing? && w.st.tasks[id].phase.effects == []
    ensures id in Next(w.st, a).tasks && Next(w.st, a).tasks[id] == w.st.tasks[id]
  {
    ReachableWorlds(w);
    assert TaskOk(w.st, id);
    if IsTaskStep(a) {
      TaskStepFrame(w.st, a);
      if TaskOf(a) != id {
        assert id in Next(w.st, a).tasks.Keys;
      }
    } else {
      OthersOnlySpawn(w.st, a, id);
    }
  }

  lemma OthersOnlySpawn(st: State, a: Action, id: nat)
    requires Enabled(st, a) && !IsTaskStep(a) && id in st.tasks && id < st.nextTask
    ensures id in Next(st, a).tasks && Next(st, a).tasks[id] == st.tasks[id]
  {
    match a {
      case Insert(_, _) =>
      case Receive(_) =>
      case Wait(_) =>
      case Handle(_) =>
      case Fire(_) =>
      case _ =>
    }
  }

  /** What is on record for a zone. */
  predicate HasIntervals(st: State, z: ZoneId, refresh: nat, retry: nat, expire: nat) {
    && z in st.tracking
    && st.tracking[z].refresh == refresh && st.tracking[z].retry == retry && st.tracking[z].expire == expire
  }

  /** A transfer that ends a refresh sets the zone's intervals to those of the SOA it left, and the next refresh is
      asked for after the REFRESH of that SOA, whatever happens between the transfer and the end of the refresh:
      other tasks of the zone may even have committed other SOAs by then. */
  lemma TransferSetsIntervals(w: World, id: nat, soa: Soa, actions: seq<Action>)
    requires Reachable(w) && id in w.st.tasks && Enabled(w.st, Act(id))
    requires w.st.tasks[id].phase == Refreshing([Committed(soa)], Done(Some(soa)))
    requires IsSegment(Next(w.st, Act(id)), actions) && Finish(id) !in actions
    ensures HasIntervals(Next(w.st, Act(id)), w.st.tasks[id].zone, soa.refresh, soa.retry, soa.expire)
    ensures var st := StateAfter(Next(w.st, Act(id)), actions);
            && Enabled(st, Finish(id))
            && var z, st' := w.st.tasks[id].zone, Next(st, Finish(id));
               && st'.events == st.events + [ZoneRefreshRequested(z, SoaRefreshTimer, Some(soa.refresh))]
               && HasIntervals(st', z, soa.refresh, soa.retry, soa.expire)
               && st'.tracking[z].status == RefreshPending
  {
    var committed := World(Next(w.st, Act(id)), w.history + Observed(w.st, Act(id)));
    assert [Committed(soa)][1..] == [];
    StepReachable(w, Act(id));
    TaskRemains(committed, id, actions);
    SegmentReachable(committed, actions);
    var st := StateAfter(committed.st, actions);
    TasksAreNeverStuck(World(st, committed.history + ObservedIn(committed.st, actions)), id);
  }

  /** A refresh that finds nothing new leaves the intervals and the instants on record as they are, and the next one
      is asked for after REFRESH. */
  lemma NothingNewKeepsIntervals(w: World, id: nat)
    requires Reachable(w) && Enabled(w.st, Finish(id)) && w.st.tasks[id].phase.outcome == Done(None)
    ensures var z, st' := w.st.tasks[id].zone, Next(w.st, Finish(id));
            && st'.events == w.st.events + [ZoneRefreshRequested(z, SoaRefreshTimer, Some(w.st.tracking[z].refresh))]
            && st'.tracking == w.st.tracking[z := w.st.tracking[z].(status := RefreshPending)]
            && st'.expired == w.st.expired
  {
  }

  /** This step of a task of the zone leaves the zone with this SOA, or ends a refresh that did. */
  predicate Transfers(st: State, a: Action, z: ZoneId, soa: Soa) {
    match a
    case Act(id) =>
      && id in st.tasks && st.tasks[id].zone == z && st.tasks[id].phase.Refreshing?
      && st.tasks[id].phase.effects != [] && st.tasks[id].phase.effects[0] == RefreshZone.Committed(soa)
    case Finish(id) =>
      && id in st.tasks && st.tasks[id].zone == z && st.tasks[id].phase.Refreshing?
      && st.tasks[id].phase.outcome == Done(Some(soa))
    case _ => false
  }

  /** The intervals on record are as before unless the step transfers an SOA, and then they are those of the SOA. */
  ghost predicate IntervalsFollow(st: State, a: Action, z: ZoneId)
    requires Enabled(st, a) && z in st.tracking
  {
    && (HasIntervals(Next(st, a), z, st.tracking[z].refresh, st.tracking[z].retry, st.tracking[z].expire)
        || exists soa :: Transfers(st, a, z, soa))
    && forall soa :: Transfers(st, a, z, soa) ==>
         HasIntervals(Next(st, a), z, soa.refresh, soa.retry, soa.expire)
  }

  lemma EffectsSetIntervals(st: State, id: nat, z: ZoneId)
    requires Enabled(st, Act(id)) && z in st.tracking
    ensures IntervalsFollow(st, Act(id), z)
  {
    var effect := st.tasks[id].phase.effects[0];
    if st.tasks[id].zone == z && effect.Committed? {
      assert Transfers(st, Act(id), z, effect.soa);
    }
  }

  lemma EndsSetIntervals(st: State, id: nat, z: ZoneId)
    requires Enabled(st, Finish(id)) && z in st.tracking
    ensures IntervalsFollow(st, Finish(id), z)
  {
    var outcome := st.tasks[id].phase.outcome;
    if st.tasks[id].zone == z && outcome.Done? && outcome.soa.Some? {
      assert Transfers(st, Finish(id), z, outcome.soa.value);
    }
  }

  lemma OthersKeepIntervals(st: State, a: Action, z: ZoneId)
    requires Enabled(st, a) && !a.Act? && !a.Finish? && z in st.tracking
    ensures IntervalsFollow(st, a, z)
  {
    match a {
      case Handle(_) =>
      case Look(_, _) =>
      case Start(_, _, _) =>
      case Progress(_, _) =>
      case _ =>
    }
  }

  /** The intervals on record for a tracked zone only ever change to those of an SOA that was just transferred, and
      then they do. */
  lemma IntervalsComeFromSoas(w: World, a: Action, z: ZoneId)
    requires Reachable(w) && Enabled(w.st, a) && z in w.st.tracking
    ensures IntervalsFollow(w.st, a, z)
  {
    match a {
      case Act(id) => EffectsSetIntervals(w.st, id, z);
      case Finish(id) => EndsSetIntervals(w.st, id, z);
      case _ => OthersKeepIntervals(w.st, a, z);
    }
  }

  //// Failure ////

  function Handled(actions: seq<Action>): nat {
    if actions == [] then 0 else (if actions[0].Handle? then 1 else 0) + Handled(actions[1..])
  }

  /** The queue of events is served in order. */
  lemma {:induction false} QueueMoves(st: State, actions: seq<Action>, k: nat)
    requires IsSegment(st, actions) && Handled(actions) <= k < |st.events|
    ensures var st' := StateAfter(st, actions);
            k - Handled(actions) < |st'.events| && st'.events[k - Handled(actions)] == st.events[k]
    decreases |actions|
  {
    if actions != [] {
      EventsFrame(st, actions[0]);
      QueueMoves(Next(st, actions[0]), actions[1..], if actions[0].Handle? then k - 1 else k);
    }
  }

  /** Handling the next event leaves a timer for the zone that is due within this time. */
  ghost predicate TimerFollows(st: State, z: ZoneId, within: nat) {
    && Enabled(st, Handle(None))
    && var deadline := Deadline(Next(st, Handle(None)).timers, z);
       deadline.Some? && deadline.value <= st.now + Nanos(within)
  }

  /** A refresh that fails without expiring the zone leads to a retry: when the events queued before have been
      handled, its request is next, and handling it leaves a timer for the zone that is due within RETRY. */
  lemma FailureSetsTheTimer(w: World, id: nat, actions: seq<Action>)
    requires Reachable(w) && Enabled(w.st, Finish(id)) && w.st.tasks[id].phase.outcome.Failed?
    requires !w.st.tracking[w.st.tasks[id].zone].ExpiresOnFailure(w.st.now)
    requires IsSegment(Next(w.st, Finish(id)), actions) && Handled(actions) == |w.st.events|
    ensures var z, st' := w.st.tasks[id].zone, Next(w.st, Finish(id));
            && z in st'.tracking && st'.tracking[z].status in {RetryPending, RetryInProgress}
            && st'.tracking[z] == w.st.tracking[z].(status := st'.tracking[z].status)
    ensures var z := w.st.tasks[id].zone;
            TimerFollows(StateAfter(Next(w.st, Finish(id)), actions), z, w.st.tracking[z].retry)
  {
    var failed := World(Next(w.st, Finish(id)), w.history + Observed(w.st, Finish(id)));
    FailureAsksForRetry(w.st, id);
    StepReachable(w, Finish(id));
    UniqueAfter(failed, actions);
    RetryIsServed(failed.st, actions, |w.st.events|, w.st.tasks[id].zone, w.st.tracking[w.st.tasks[id].zone].retry);
  }

  /** A request for a retry that is in the queue is next once the events before it have been handled. */
  lemma RetryIsServed(st: State, actions: seq<Action>, k: nat, z: ZoneId, retry: nat)
    requires IsSegment(st, actions) && Unique(StateAfter(st, actions).timers) && Handled(actions) == k < |st.events|
    requires st.events[k] == ZoneRefreshRequested(z, SoaRetryTimer, Some(retry))
    ensures TimerFollows(StateAfter(st, actions), z, retry)
  {
    QueueMoves(st, actions, k);
    HeadSetsTheTimer(StateAfter(st, actions), z, retry);
  }

  lemma UniqueAfter(w: World, actions: seq<Action>)
    requires Reachable(w) && IsSegment(w.st, actions)
    ensures Unique(StateAfter(w.st, actions).timers)
  {
    SegmentReachable(w, actions);
    TimersAreUnique(World(StateAfter(w.st, actions), w.history + ObservedIn(w.st, actions)));
  }

  lemma FailureAsksForRetry(st: State, id: nat)
    requires Enabled(st, Finish(id)) && st.tasks[id].phase.outcome.Failed?
    requires !st.tracking[st.tasks[id].zone].ExpiresOnFailure(st.now)
    ensures var z := st.tasks[id].zone;
            Next(st, Finish(id)).events ==
              st.events + [ZoneRefreshRequested(z, SoaRetryTimer, Some(st.tracking[z].retry))]
  {
  }

  lemma HeadSetsTheTimer(st: State, z: ZoneId, retry: nat)
    requires Unique(st.timers) && st.events != []
    requires st.events[0] == ZoneRefreshRequested(z, SoaRetryTimer, Some(retry))
    ensures TimerFollows(st, z, retry)
  {
    RequestAddsTimer(st, Handle(None));
    RefreshAtKeeps(st.timers, Timer(z, SoaRetryTimer, st.now + Nanos(retry)), z);
  }

  /** A failure marks the zone expired exactly if it ends a retry and the primaries were silent for longer than
      EXPIRE; then nothing more is asked for. */
  lemma ExpiryEndsRetrying(w: World, id: nat)
    requires Reachable(w) && Enabled(w.st, Finish(id)) && w.st.tasks[id].phase.outcome.Failed?
    ensures var z, rs, st' := w.st.tasks[id].zone, w.st.tracking[w.st.tasks[id].zone], Next(w.st, Finish(id));
            (exists o :: o in Observed(w.st, Finish(id)) && o.MarkedExpired? && o.zone == z) <==>
              && rs.status == RetryInProgress && w.st.now > rs.LastContact() + Nanos(rs.expire)
              && st'.events == w.st.events
  {
    var z, rs := w.st.tasks[id].zone, w.st.tracking[w.st.tasks[id].zone];
    var o := MarkedExpired(z, w.st.now, rs.expire, rs.metrics.zoneCreatedAt);
    ReachableWorlds(w);
    assert Observed(w.st, Finish(id)) == if rs.ExpiresOnFailure(w.st.now) then [o] else [];
  }

  //// Timers ////

  /** Handling the queued request leaves one timer for its zone: the one it had, if that is due earlier, or else the
      requested one; the timers of other zones stay. */
  ghost predicate SetsTheTimer(st: State, request: Event, ts': seq<Timer>, y: ZoneId)
    requires request.ZoneRefreshRequested?
  {
    && Unique(ts')
    && TimerOf(ts', y) ==
         if y == request.zone
         then Earlier(TimerOf(st.timers, y), Timer(y, request.cause, st.now + Nanos(request.at.UnwrapOr(0))))
         else TimerOf(st.timers, y)
  }

  lemma RequestSetsTheTimer(w: World, a: Action, y: ZoneId)
    requires Reachable(w) && a.Handle? && Enabled(w.st, a) && w.st.events[0].ZoneRefreshRequested?
    ensures SetsTheTimer(w.st, w.st.events[0], Next(w.st, a).timers, y)
  {
    TimersAreUnique(w);
    RequestKeepsUnique(w.st, a, y);
  }

  lemma RequestKeepsUnique(st: State, a: Action, y: ZoneId)
    requires Unique(st.timers) && a.Handle? && Enabled(st, a) && st.events[0].ZoneRefreshRequested?
    ensures SetsTheTimer(st, st.events[0], Next(st, a).timers, y)
  {
    var request := st.events[0];
    RequestAddsTimer(st, a);
    RefreshAtKeeps(st.timers, Timer(request.zone, request.cause, st.now + Nanos(request.at.UnwrapOr(0))), y);
    RefreshAtTimer(st.timers, Timer(request.zone, request.cause, st.now + Nanos(request.at.UnwrapOr(0))), y);
  }

  lemma RequestAddsTimer(st: State, a: Action)
    requires a.Handle? && Enabled(st, a) && st.events[0].ZoneRefreshRequested?
    ensures var request := st.events[0];
            Next(st, a).timers ==
              RefreshAt(st.timers, Timer(request.zone, request.cause, st.now + Nanos(request.at.UnwrapOr(0))))
  {
  }

  lemma TimersAreUnique(w: World)
    requires Reachable(w)
    ensures Unique(w.st.timers)
  {
    ReachableWorlds(w);
  }

  //// Zones that are added ////

  /** Handling the added zone leaves it active or pending, with these intervals, and with a timer for its refresh,
      due after REFRESH or with an earlier one that it has already. */
  ghost predicate IsScheduled(st: State, st': State, z: ZoneId, active: bool, refresh: nat, retry: nat, expire: nat) {
    && (z in st'.active <==> active) && (z in st'.pending <==> !active)
    && HasIntervals(st', z, refresh, retry, expire)
    && TimerOf(st'.timers, z) ==
         Earlier(TimerOf(st.timers, z), Timer(z, SoaRefreshTimerAfterZoneAdded, st.now + Nanos(refresh)))
  }

  /**
   What adding a pending zone comes to.  If it is tracked already it becomes active and keeps its intervals.  If it
   is new and has an SOA it becomes active with the intervals of that.  If it is new and empty it stays pending, is
   to be refreshed at once, to be retried every five minutes and to expire after an hour.
   */
  ghost predicate IsAdded(st: State, st': State, z: ZoneId, soa: Option<Soa>) {
    && (z in st.tracking ==>
          && st'.tracking == st.tracking
          && IsScheduled(st, st', z, true, st.tracking[z].refresh, st.tracking[z].retry, st.tracking[z].expire))
    && (z !in st.tracking && soa.Some? ==>
          IsScheduled(st, st', z, true, soa.value.refresh, soa.value.retry, soa.value.expire))
    && (z !in st.tracking && soa.None? ==> IsScheduled(st, st', z, false, 0, 5 * 60, 60 * 60))
    && (z !in st.tracking ==>
          z in st'.tracking && st'.tracking[z].status == RefreshPending && st'.tracking[z].LastContact() == st.now)
  }

  lemma AddedZoneIsScheduled(w: World, z: ZoneId, soa: Option<Soa>)
    requires Reachable(w) && w.st.events != [] && w.st.events[0] == ZoneAdded(z) && z in w.st.pending
    ensures IsAdded(w.st, Next(w.st, Handle(soa)), z, soa)
  {
    PendingIsSecondary(w, z);
    AddingSchedules(w.st.(events := w.st.events[1..]), z, soa);
    HandlingAdds(w.st, z, soa);
  }

  lemma PendingIsSecondary(w: World, z: ZoneId)
    requires Reachable(w) && z in w.st.pending
    ensures IsSecondary(w.st, z) && z !in w.st.active
  {
    ReachableWorlds(w);
  }

  lemma HandlingAdds(st: State, z: ZoneId, soa: Option<Soa>)
    requires st.events != [] && st.events[0] == ZoneAdded(z)
    requires var rest := st.(events := st.events[1..]); IsAdded(rest, OnZoneAdded(rest, z, soa), z, soa)
    ensures IsAdded(st, Next(st, Handle(soa)), z, soa)
  {
  }

  /** The timer and the intervals that adding a zone leaves. */
  lemma AddingSchedules(st: State, z: ZoneId, soa: Option<Soa>)
    requires z in st.pending && IsSecondary(st, z) && z !in st.active
    ensures IsAdded(st, OnZoneAdded(st, z, soa), z, soa)
  {
    ZoneAddedFrame(st, z, soa);
    RefreshAtTimer(st.timers, FirstTimer(st, z, soa), z);
  }
}
