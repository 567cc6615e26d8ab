/** What every step of the zone maintainer keeps, and so what holds in every reachable state. */
module MaintainerProofs {
  import opened Options
  import opened RefreshZone
  import opened RefreshStates
  import opened RefreshTimers
  import opened MaintainerSteps

  //// Frames: what a step leaves alone ////

  predicate IsTaskStep(a: Action) {
    a.Look? || a.Start? || a.Progress? || a.Act? || a.Finish? || a.Promote?
  }

  function TaskOf(a: Action): nat
    requires IsTaskStep(a)
  {
    a.id
  }

  /** The step adds a zone to the active or the tracked ones, if it adds any. */
  predicate AddsZone(st: State, a: Action) {
    a.Insert? || (a.Handle? && st.events != [] && st.events[0].ZoneAdded?)
  }

  predicate SameZones(st: State, st': State) {
    && st'.configs == st.configs && st'.pending == st.pending && st'.active == st.active
    && st'.tracking.Keys == st.tracking.Keys
  }

  lemma OtherStepsKeepZones(st: State, a: Action)
    requires Enabled(st, a) && !AddsZone(st, a)
    ensures SameZones(st, Next(st, a))
  {
    if IsTaskStep(a) {
      TaskStepsKeepZones(st, a);
    }
  }

  lemma TaskStepsKeepZones(st: State, a: Action)
    requires Enabled(st, a) && IsTaskStep(a)
    ensures SameZones(st, Next(st, a))
  {
    match a {
      case Look(id, _) => assert st.tasks[id].zone in st.tracking ==> st.tasks[id].zone in st.tracking.Keys;
      case Start(_, _, _) =>
      case Progress(_, _) =>
      case Act(_) =>
      case Finish(_) =>
      case Promote(_) =>
      case _ =>
    }
  }

  lemma TaskStepFrame(st: State, a: Action)
    requires Enabled(st, a) && IsTaskStep(a)
    ensures var st' := Next(st, a);
            && st'.now == st.now && st'.timers == st.timers && st'.nextTask == st.nextTask
            && st.tasks.Keys - {TaskOf(a)} <= st'.tasks.Keys <= st.tasks.Keys
            && forall id :: id in st.tasks && id != TaskOf(a) ==> st'.tasks[id] == st.tasks[id]
  {
    match a {
      case Look(_, _) =>
      case Start(_, _, _) =>
      case Progress(_, _) =>
      case Act(_) =>
      case Finish(_) =>
      case Promote(_) =>
      case _ =>
    }
  }

  /** How long after it is added a zone is to be refreshed: at once if it is new and empty. */
  function FirstRefresh(st: State, z: ZoneId, soa: Option<Soa>): nat {
    if z in st.tracking then st.tracking[z].refresh else if soa.Some? then soa.value.refresh else 0
  }

  function FirstTimer(st: State, z: ZoneId, soa: Option<Soa>): Timer {
    Timer(z, SoaRefreshTimerAfterZoneAdded, st.now + Nanos(FirstRefresh(st, z, soa)))
  }

  lemma ZoneAddedFrame(st: State, z: ZoneId, soa: Option<Soa>)
    requires z in st.pending && IsSecondary(st, z)
    ensures var st' := OnZoneAdded(st, z, soa);
            var promoted := z in st.tracking || soa.Some?;
            && st'.configs == st.configs && st'.tasks == st.tasks && st'.nextTask == st.nextTask
            && st'.events == st.events && st'.expired == st.expired && st'.now == st.now
            && st'.tracking.Keys == st.tracking.Keys + {z}
            && st'.pending == (if promoted then st.pending - {z} else st.pending)
            && st'.active == (if promoted then st.active + {z} else st.active)
            && st'.timers == RefreshAt(st.timers, FirstTimer(st, z, soa))
  {
    var (_, refresh) := TrackZoneFreshness(st, z, soa);
    assert OnZoneAdded(st, z, soa).timers ==
           RefreshAt(st.timers, Timer(z, SoaRefreshTimerAfterZoneAdded, st.now + Nanos(refresh.UnwrapOr(0))));
  }

  //// The zone sets ////

  ghost predicate ZonesOk(st: State) {
    && st.pending !! st.active
    && st.pending + st.active == st.configs.Keys
    && st.tracking.Keys <= st.configs.Keys
    && (forall z :: z in st.tracking ==> IsSecondary(st, z))
    && (forall z :: z in st.pending ==> IsSecondary(st, z))
    && (forall z :: z in st.active && IsSecondary(st, z) ==> z in st.tracking)
  }

  lemma ZonesInsert(st: State, a: Action)
    requires ZonesOk(st) && Enabled(st, a) && a.Insert?
    ensures ZonesOk(Next(st, a))
  {
  }

  lemma ZonesAdding(st: State, a: Action)
    requires ZonesOk(st) && Enabled(st, a) && a.Handle? && AddsZone(st, a)
    ensures ZonesOk(Next(st, a))
  {
    var rest := st.(events := st.events[1..]);
    if st.events[0].zone in st.pending {
      ZoneAddedFrame(rest, st.events[0].zone, a.soa);
      ZonesAdded(rest, Next(st, a), st.events[0].zone);
    }
  }

  lemma ZonesStep(st: State, a: Action)
    requires ZonesOk(st) && Enabled(st, a)
    ensures ZonesOk(Next(st, a))
  {
    if a.Insert? {
      ZonesInsert(st, a);
    } else if AddsZone(st, a) {
      ZonesAdding(st, a);
    } else {
      OtherStepsKeepZones(st, a);
      ZonesSame(st, Next(st, a));
    }
  }

  lemma ZonesSame(st: State, st': State)
    requires ZonesOk(st) && SameZones(st, st')
    ensures ZonesOk(st')
  {
  }

  lemma ZonesAdded(st: State, st': State, z: ZoneId)
    requires ZonesOk(st) && z in st.pending && st'.configs == st.configs && st'.tracking.Keys == st.tracking.Keys + {z}
    requires (st'.pending == st.pending && st'.active == st.active)
             || (st'.pending == st.pending - {z} && st'.active == st.active + {z})
    ensures ZonesOk(st')
  {
  }

  //// Tasks ////

  ghost predicate TaskOk(st: State, id: nat)
    requires id in st.tasks
  {
    var t := st.tasks[id];
    && id < st.nextTask
    && (if t.phase.Looking? then t.phase.zones <= st.active else t.zone in st.tracking)
    && (t.phase.Refreshing? ==> !t.phase.outcome.Panicked?)
  }

  ghost predicate TasksOk(st: State) {
    forall id :: id in st.tasks ==> TaskOk(st, id)
  }

  lemma TasksGrow(st: State, st': State)
    requires TasksOk(st) && st'.tasks == st.tasks && st'.nextTask == st.nextTask
    requires st.active <= st'.active && st.tracking.Keys <= st'.tracking.Keys
    ensures TasksOk(st')
  {
    forall id | id in st'.tasks ensures TaskOk(st', id) {
      assert TaskOk(st, id);
      assert st.tasks[id].zone in st.tracking ==> st.tasks[id].zone in st.tracking.Keys;
    }
  }

  lemma TasksSpawn(st: State, z: ZoneId, cause: Cause)
    requires TasksOk(st)
    ensures TasksOk(Spawn(st, z, cause))
  {
    forall id | id in Spawn(st, z, cause).tasks ensures TaskOk(Spawn(st, z, cause), id) {
      assert id in st.tasks ==> TaskOk(st, id);
    }
  }

  /** The step of a task leaves the task itself in order. */
  lemma OwnTaskStep(st: State, a: Action)
    requires ZonesOk(st) && TasksOk(st) && Enabled(st, a) && IsTaskStep(a)
    ensures TaskOf(a) in Next(st, a).tasks ==> TaskOk(Next(st, a), TaskOf(a))
  {
    assert TaskOk(st, TaskOf(a));
    match a {
      case Look(_, _) =>
      case Start(id, local, visits) =>
        PanicsOnlyWithoutPrimaries(local, visits, InitialXfrAddr(st.tasks[id].cause), st.configs[st.tasks[id].zone]);
      case Progress(_, _) =>
      case Act(_) =>
      case Finish(_) =>
      case Promote(_) =>
      case _ =>
    }
  }

  lemma TasksStep(st: State, a: Action)
    requires ZonesOk(st) && TasksOk(st) && Enabled(st, a)
    ensures TasksOk(Next(st, a))
  {
    var st' := Next(st, a);
    if IsTaskStep(a) {
      OtherStepsKeepZones(st, a);
      TaskStepFrame(st, a);
      OwnTaskStep(st, a);
      forall id | id in st'.tasks ensures TaskOk(st', id) {
        assert TaskOk(st, id);
        assert id != TaskOf(a) && st.tasks[id].zone in st.tracking ==> st.tasks[id].zone in st'.tracking.Keys;
      }
    } else if a.Handle? {
      var rest := st.(events := st.events[1..]);
      TasksGrow(st, rest);
      match st.events[0]
      case ZoneAdded(z) =>
        if z in st.pending {
          ZoneAddedFrame(rest, z, a.soa);
          TasksGrow(rest, st');
        }
      case ZoneRefreshRequested(_, _, _) => TasksGrow(rest, st');
      case ZoneChanged(z, source) => if source.Some? { TasksSpawn(rest, z, NotifyFromPrimary(source.value)); }
    } else if a.Fire? {
      var fired := st.(timers := Without(st.timers, a.timer));
      TasksGrow(st, fired);
      TasksSpawn(fired, st.timers[a.timer].zone, st.timers[a.timer].cause);
    } else {
      TasksGrow(st, st');
    }
  }

  //// Events and timers ////

  /** A pending zone that is not tracked yet has exactly one event queued that adds it. */
  ghost predicate AddedOnce(st: State) {
    && (forall z :: z in st.pending && z !in st.tracking ==> multiset(st.events)[ZoneAdded(z)] == 1)
    && (forall e :: e in st.events && e.ZoneAdded? ==> e.zone in st.configs)
  }

  /** Timers and requests for them never carry a NOTIFY as their cause, and no zone has two timers. */
  ghost predicate TimersOk(st: State) {
    && Unique(st.timers)
    && (forall t :: t in st.timers ==> !t.cause.NotifyFromPrimary?)
    && (forall e :: e in st.events && e.ZoneRefreshRequested? ==> !e.cause.NotifyFromPrimary?)
  }

  /** The events a step appends. */
  function Appended(st: State, a: Action): seq<Event> {
    match a
    case Insert(z, _) => [ZoneAdded(z)]
    case Receive(e) => [e]
    case Promote(id) => if id in st.tasks then [ZoneAdded(st.tasks[id].zone)] else []
    case Finish(id) =>
      if id in st.tasks && st.tasks[id].phase.Refreshing? && st.tasks[id].zone in st.tracking then
        var z, rs := st.tasks[id].zone, st.tracking[st.tasks[id].zone];
        match st.tasks[id].phase.outcome
        case Done(soa) => [ZoneRefreshRequested(z, SoaRefreshTimer, Some(rs.Succeeded(soa, st.now).refresh))]
        case Failed(_) =>
          if rs.ExpiresOnFailure(st.now) then []
          else [ZoneRefreshRequested(z, SoaRetryTimer, Some(rs.FailedToRetry().retry))]
        case Panicked => []
      else []
    case _ => []
  }

  lemma EventsFrame(st: State, a: Action)
    requires Enabled(st, a)
    ensures Next(st, a).events == (if a.Handle? then st.events[1..] else st.events + Appended(st, a))
    ensures a.Promote? ==> Appended(st, a) == [ZoneAdded(st.tasks[a.id].zone)]
    ensures !a.Promote? && !a.Insert? ==> forall z :: ZoneAdded(z) !in Appended(st, a)
  {
    match a {
      case Insert(_, _) =>
      case Handle(_) =>
      case Look(_, _) =>
      case Start(_, _, _) =>
      case Progress(_, _) =>
      case Act(_) =>
      case Finish(_) =>
      case Promote(_) =>
      case Receive(_) =>
      case Wait(_) =>
      case Fire(_) =>
    }
  }

  lemma AddedOnceHandling(st: State, st': State)
    requires AddedOnce(st) && st.events != [] && st'.events == st.events[1..] && st'.configs == st.configs
    requires st'.pending <= st.pending
    requires var e := st.events[0];
             if e.ZoneAdded? && e.zone in st.pending
             then st'.tracking.Keys == st.tracking.Keys + {e.zone} else st'.tracking.Keys == st.tracking.Keys
    ensures AddedOnce(st')
  {
    assert st.events == [st.events[0]] + st'.events;
    assert multiset(st.events) == multiset{st.events[0]} + multiset(st'.events);
    forall z | z in st'.pending && z !in st'.tracking ensures multiset(st'.events)[ZoneAdded(z)] == 1 {
      assert z !in st.tracking.Keys;
      assert multiset(st.events)[ZoneAdded(z)] == 1;
    }
  }

  lemma AddedOnceAppending(st: State, st': State, more: seq<Event>)
    requires AddedOnce(st) && st'.events == st.events + more && SameZones(st, st')
    requires forall z :: ZoneAdded(z) in more ==> z in st.tracking && z in st.configs
    ensures AddedOnce(st')
  {
    assert multiset(st'.events) == multiset(st.events) + multiset(more);
    forall z | z in st'.pending && z !in st'.tracking ensures multiset(st'.events)[ZoneAdded(z)] == 1 {
      assert z !in st.tracking.Keys;
      assert ZoneAdded(z) !in multiset(more);
    }
  }

  lemma AddedOnceInserting(st: State, z: ZoneId, primaries: Primaries)
    requires ZonesOk(st) && AddedOnce(st) && z !in st.configs
    ensures AddedOnce(InsertZone(st, z, primaries))
  {
    assert multiset(st.events + [ZoneAdded(z)]) == multiset(st.events) + multiset{ZoneAdded(z)};
    assert ZoneAdded(z) !in multiset(st.events);
  }

  lemma AddedOnceStep(st: State, a: Action)
    requires ZonesOk(st) && TasksOk(st) && AddedOnce(st) && Enabled(st, a)
    ensures AddedOnce(Next(st, a))
  {
    EventsFrame(st, a);
    if a.Insert? {
      AddedOnceInserting(st, a.zone, a.primaries);
    } else if a.Handle? {
      if AddsZone(st, a) && st.events[0].zone in st.pending {
        ZoneAddedFrame(st.(events := st.events[1..]), st.events[0].zone, a.soa);
      } else if !AddsZone(st, a) {
        OtherStepsKeepZones(st, a);
      }
      AddedOnceHandling(st, Next(st, a));
    } else {
      OtherStepsKeepZones(st, a);
      if a.Promote? {
        assert TaskOk(st, a.id);
      }
      AddedOnceAppending(st, Next(st, a), Appended(st, a));
    }
  }

  lemma TimersAfterAdding(st: State, t: Timer)
    requires TimersOk(st) && !t.cause.NotifyFromPrimary?
    ensures TimersOk(st.(timers := RefreshAt(st.timers, t)))
  {
    RefreshAtKeeps(st.timers, t, t.zone);
    RefreshAtElements(st.timers, t);
  }

  lemma TimersSame(st: State, st': State, more: seq<Event>)
    requires TimersOk(st) && st'.timers == st.timers && st'.events == st.events + more
    requires forall e :: e in more && e.ZoneRefreshRequested? ==> !e.cause.NotifyFromPrimary?
    ensures TimersOk(st')
  {
  }

  lemma TimersHandling(st: State, a: Action)
    requires ZonesOk(st) && TimersOk(st) && Enabled(st, a) && a.Handle?
    ensures TimersOk(Next(st, a))
  {
    var st' := Next(st, a);
    assert st.events[0] in st.events;
    var rest := st.(events := st.events[1..]);
    match st.events[0]
    case ZoneAdded(z) =>
      if z in st.pending {
        ZoneAddedFrame(rest, z, a.soa);
        TimersAfterAdding(rest, FirstTimer(rest, z, a.soa));
      }
    case ZoneRefreshRequested(z, cause, at) =>
      TimersAfterAdding(rest, Timer(z, cause, st.now + Nanos(at.UnwrapOr(0))));
    case ZoneChanged(_, _) =>
  }

  lemma TimersStep(st: State, a: Action)
    requires ZonesOk(st) && TimersOk(st) && Enabled(st, a)
    ensures TimersOk(Next(st, a))
  {
    var st' := Next(st, a);
    EventsFrame(st, a);
    if a.Handle? {
      TimersHandling(st, a);
    } else if a.Fire? {
      FiringKeeps(st.timers, a.timer, st.timers[a.timer].zone);
    } else {
      if IsTaskStep(a) {
        TaskStepFrame(st, a);
      }
      TimersSame(st, st', Appended(st, a));
    }
  }

  lemma {:induction false} RefreshAtElements(ts: seq<Timer>, t: Timer)
    ensures forall x :: x in RefreshAt(ts, t) ==> x in ts || x == t
  {
    if ts != [] {
      RefreshAtElements(ts[1..], t);
    }
  }

  //// No zone is forgotten ////

  predicate Requested(events: seq<Event>, z: ZoneId) {
    exists e :: e in events && e.ZoneRefreshRequested? && e.zone == z
  }

  /** The task will ask for the zone's next refresh, or expire it: it has found the zone, or it is the
      task of a timer that will find it, among the pending zones or in the tree it was spawned with. */
  predicate WorksOn(st: State, id: nat, z: ZoneId) {
    && id in st.tasks && st.tasks[id].zone == z
    && match st.tasks[id].phase
       case Looking(zones) => !st.tasks[id].cause.NotifyFromPrimary? && (z in st.pending || z in zones)
       case Found => true
       case Refreshing(_, _) => true
       case Promoting => false
  }

  ghost predicate Working(st: State, z: ZoneId) {
    exists id :: WorksOn(st, id, z)
  }

  ghost predicate Covered(st: State, z: ZoneId) {
    Has(st.timers, z) || Requested(st.events, z) || Working(st, z)
  }

  ghost predicate CoverOk(st: State) {
    forall z :: z in st.tracking && z !in st.expired ==> Covered(st, z)
  }

  /** Nothing that covers a zone goes away. */
  lemma CoverGrows(st: State, st': State, z: ZoneId)
    requires Covered(st, z)
    requires Has(st.timers, z) ==> Has(st'.timers, z)
    requires Requested(st.events, z) ==> Requested(st'.events, z) || Has(st'.timers, z)
    requires forall id :: WorksOn(st, id, z) ==> WorksOn(st', id, z)
    ensures Covered(st', z)
  {
    if Working(st, z) {
      var id :| WorksOn(st, id, z);
      assert WorksOn(st', id, z);
    }
  }

  lemma RequestedAppend(events: seq<Event>, more: seq<Event>, z: ZoneId)
    ensures Requested(events, z) || Requested(more, z) ==> Requested(events + more, z)
  {
  }

  lemma RequestedRest(events: seq<Event>, z: ZoneId)
    requires events != [] && Requested(events, z)
    ensures Requested(events[1..], z) || (events[0].ZoneRefreshRequested? && events[0].zone == z)
  {
    assert events == [events[0]] + events[1..];
  }

  lemma CoverAdded(st: State, added: ZoneId, soa: Option<Soa>, z: ZoneId)
    requires added in st.pending && IsSecondary(st, added) && Unique(st.timers)
    requires z in OnZoneAdded(st, added, soa).tracking && (z in st.tracking ==> Covered(st, z) || z == added)
    ensures Covered(OnZoneAdded(st, added, soa), z)
  {
    var st' := OnZoneAdded(st, added, soa);
    ZoneAddedFrame(st, added, soa);
    RefreshAtKeeps(st.timers, FirstTimer(st, added, soa), z);
    if z != added {
      assert z in st'.tracking.Keys && z in st.tracking;
      CoverGrows(st, st', z);
    }
  }

  /** Taking the first event off the queue uncovers at most the zone whose refresh it asks for. */
  lemma CoverRest(st: State, z: ZoneId)
    requires st.events != [] && Covered(st, z)
    ensures Covered(st.(events := st.events[1..]), z)
            || (st.events[0].ZoneRefreshRequested? && st.events[0].zone == z)
  {
    if Requested(st.events, z) {
      RequestedRest(st.events, z);
    }
    var rest := st.(events := st.events[1..]);
    if Working(st, z) {
      var id :| WorksOn(st, id, z);
      assert WorksOn(rest, id, z);
    }
  }

  lemma CoverHandling(st: State, soa: Option<Soa>, z: ZoneId)
    requires ZonesOk(st) && TasksOk(st) && TimersOk(st) && CoverOk(st) && st.events != []
    requires z in OnEvent(st, soa).tracking && z !in st.expired
    ensures Covered(OnEvent(st, soa), z)
  {
    var rest := st.(events := st.events[1..]);
    var st' := OnEvent(st, soa);
    if z in st.tracking {
      CoverRest(st, z);
    }
    match st.events[0]
    case ZoneAdded(added) =>
      if added in st.pending {
        CoverAdded(rest, added, soa, z);
      }
    case ZoneRefreshRequested(asked, cause, at) =>
      RefreshAtKeeps(st.timers, Timer(asked, cause, st.now + Nanos(at.UnwrapOr(0))), z);
      if z != asked {
        CoverGrows(rest, st', z);
      }
    case ZoneChanged(changed, source) =>
      if source.Some? {
        TasksGrow(st, rest);
        CoverSpawned(rest, changed, NotifyFromPrimary(source.value), z);
        CoverGrows(rest, st', z);
      }
  }

  lemma CoverSpawned(st: State, spawned: ZoneId, cause: Cause, z: ZoneId)
    requires TasksOk(st)
    ensures forall id :: WorksOn(st, id, z) ==> WorksOn(Spawn(st, spawned, cause), id, z)
  {
    forall id | WorksOn(st, id, z) ensures WorksOn(Spawn(st, spawned, cause), id, z) {
      assert TaskOk(st, id);
    }
  }

  lemma CoverFiring(st: State, i: nat, z: ZoneId)
    requires ZonesOk(st) && TasksOk(st) && TimersOk(st) && i < |st.timers|
    requires z in st.tracking && Covered(st, z)
    ensures Covered(OnRefreshTimer(st, i), z)
  {
    var st' := OnRefreshTimer(st, i);
    var fired := st.(timers := Without(st.timers, i));
    FiringKeeps(st.timers, i, z);
    if st.timers[i].zone == z {
      assert z in st.configs.Keys && st.timers[i] in st.timers;
      assert WorksOn(st', st.nextTask, z);
    } else {
      assert TasksOk(fired) by { TasksGrow(st, fired); }
      CoverSpawned(fired, st.timers[i].zone, st.timers[i].cause, z);
      forall id | WorksOn(st, id, z) ensures WorksOn(st', id, z) {
        assert WorksOn(fired, id, z);
      }
      CoverGrows(st, st', z);
    }
  }

  lemma FinishingRequests(st: State, id: nat)
    requires Enabled(st, Finish(id)) && TaskOk(st, id)
    ensures var z := st.tasks[id].zone;
            z !in Next(st, Finish(id)).expired ==> Requested(Appended(st, Finish(id)), z)
  {
    if !st.tasks[id].phase.outcome.Failed? || !st.tracking[st.tasks[id].zone].ExpiresOnFailure(st.now) {
      assert Appended(st, Finish(id))[0] in Appended(st, Finish(id));
    }
  }

  /** The step of a task that works on a zone: it still does, or it has asked for the next refresh. */
  lemma OwnTaskCovers(st: State, a: Action, z: ZoneId)
    requires ZonesOk(st) && TasksOk(st) && Enabled(st, a) && IsTaskStep(a)
    requires WorksOn(st, TaskOf(a), z) && z in st.tracking && z !in Next(st, a).expired
    ensures WorksOn(Next(st, a), TaskOf(a), z) || Requested(Appended(st, a), z)
  {
    var id := TaskOf(a);
    assert TaskOk(st, id);
    match a {
      case Look(_, _) =>
      case Start(_, _, _) =>
      case Progress(_, _) =>
      case Act(_) =>
      case Finish(_) =>
        FinishingRequests(st, id);
      case Promote(_) =>
      case _ =>
    }
  }

  lemma CoverTaskStep(st: State, a: Action, z: ZoneId)
    requires ZonesOk(st) && TasksOk(st) && Enabled(st, a) && IsTaskStep(a)
    requires z in st.tracking && Covered(st, z) && z !in Next(st, a).expired
    ensures Covered(Next(st, a), z)
  {
    var st' := Next(st, a);
    TaskStepFrame(st, a);
    EventsFrame(st, a);
    OtherStepsKeepZones(st, a);
    RequestedAppend(st.events, Appended(st, a), z);
    if WorksOn(st, TaskOf(a), z) {
      OwnTaskCovers(st, a, z);
    } else {
      forall id | WorksOn(st, id, z) ensures WorksOn(st', id, z) {
        assert id in st'.tasks.Keys;
      }
      CoverGrows(st, st', z);
    }
  }

  lemma CoverStep(st: State, a: Action)
    requires ZonesOk(st) && TasksOk(st) && TimersOk(st) && CoverOk(st) && Enabled(st, a)
    ensures CoverOk(Next(st, a))
  {
    var st' := Next(st, a);
    ExpiredGrows(st, a);
    forall z | z in st'.tracking && z !in st'.expired ensures Covered(st', z) {
      if a.Handle? {
        CoverHandling(st, a.soa, z);
      } else {
        assert z in st.tracking by {
          if !a.Insert? {
            OtherStepsKeepZones(st, a);
            assert z in st'.tracking.Keys;
          }
        }
        if IsTaskStep(a) {
          CoverTaskStep(st, a, z);
        } else if a.Fire? {
          CoverFiring(st, a.timer, z);
        } else {
          EventsFrame(st, a);
          RequestedAppend(st.events, Appended(st, a), z);
          CoverGrows(st, st', z);
        }
      }
    }
  }

  lemma ExpiredGrows(st: State, a: Action)
    requires Enabled(st, a)
    ensures st.expired <= Next(st, a).expired
  {
    match a {
      case Handle(_) =>
      case Look(_, _) =>
      case Start(_, _, _) =>
      case Act(_) =>
      case Finish(_) =>
      case _ =>
    }
  }
}
