/**
 The zone maintainer as a state machine: its event loop, its timers and its spawned tasks, cut into
 the steps that happen while no lock is given up.  Whatever the network, the clock or the zones'
 content decide is part of the `Action`.
 */
module MaintainerSteps {
  import opened Options
  import opened RefreshZone
  import opened RefreshStates
  import opened RefreshTimers

  type Primaries = map<Addr, XfrConfig>

  datatype Event =
    | ZoneAdded(zone: ZoneId)
    | ZoneRefreshRequested(zone: ZoneId, cause: Cause, at: Option<nat>)
    | ZoneChanged(zone: ZoneId, source: Option<Addr>)

  datatype Phase =
    | Looking(zones: set<ZoneId>)  // spawned, with the active zones of that moment
    | Found
    | Refreshing(effects: seq<Effect>, outcome: Outcome)
    | Promoting                    // a pending zone was refreshed; its promotion is still to be asked for

  datatype Task = Task(zone: ZoneId, cause: Cause, wasPending: bool, phase: Phase)

  datatype State = State(
    now: Instant,
    configs: map<ZoneId, Primaries>,  // `request_xfr_from` of every zone ever inserted
    pending: set<ZoneId>,
    active: set<ZoneId>,
    expired: set<ZoneId>,
    tracking: map<ZoneId, RefreshState>,
    timers: seq<Timer>,
    events: seq<Event>,
    tasks: map<nat, Task>,
    nextTask: nat)

  /** What a run leaves behind for its properties to talk about. */
  datatype Observation =
    | SawSoa(zone: ZoneId)
    | Checked(zone: ZoneId, at: Instant)
    | Promoted(zone: ZoneId)
    | MarkedExpired(zone: ZoneId, at: Instant, expire: nat, created: Instant)

  datatype Action =
    | Insert(zone: ZoneId, primaries: Primaries)
    | Receive(event: Event)
    | Wait(time: nat)
    | Handle(soa: Option<Soa>)
    | Fire(timer: nat)
    | Look(id: nat, knownPrimary: bool)
    | Start(id: nat, local: LocalSoa, visits: seq<Visit>)
    | Progress(id: nat, updatesApplied: nat)
    | Act(id: nat)
    | Finish(id: nat)
    | Promote(id: nat)

  predicate IsSecondary(st: State, z: ZoneId) {
    z in st.configs && st.configs[z] != map[]
  }

  const INITIAL: State := State(0, map[], {}, {}, {}, map[], [], [], map[], 0)

  //// Inserting zones ////

  function InsertZone(st: State, z: ZoneId, primaries: Primaries): State {
    var st := st.(configs := st.configs[z := primaries], events := st.events + [ZoneAdded(z)]);
    if primaries != map[] then st.(pending := st.pending + {z}) else st.(active := st.active + {z})
  }

  //// Events ////

  /** Starts tracking the zone, unless it is tracked; gives its REFRESH, unless it is new and empty. */
  function TrackZoneFreshness(st: State, z: ZoneId, soa: Option<Soa>): (State, Option<nat>) {
    if z in st.tracking then
      (st, Some(st.tracking[z].refresh))
    else if soa.Some? then
      (st.(tracking := st.tracking[z := NewState(soa.value, st.now)]), Some(soa.value.refresh))
    else
      (st.(tracking := st.tracking[z := DefaultState(st.now)]), None)
  }

  function RefreshZoneAt(st: State, cause: Cause, z: ZoneId, at: Option<nat>): State {
    st.(timers := RefreshAt(st.timers, Timer(z, cause, st.now + Nanos(at.UnwrapOr(0)))))
  }

  function InsertActiveZone(st: State, z: ZoneId): State {
    st.(pending := st.pending - {z}, active := st.active + {z})
  }

  function OnZoneAdded(st: State, z: ZoneId, soa: Option<Soa>): State {
    if z in st.pending && IsSecondary(st, z) then
      var (tracked, refresh) := TrackZoneFreshness(st, z, soa);
      RefreshZoneAt(if refresh.Some? then InsertActiveZone(tracked, z) else tracked,
                    SoaRefreshTimerAfterZoneAdded, z, refresh)
    else
      st
  }

  function Spawn(st: State, z: ZoneId, cause: Cause): State {
    st.(tasks := st.tasks[st.nextTask := Task(z, cause, false, Looking(st.active))], nextTask := st.nextTask + 1)
  }

  function OnZoneChanged(st: State, z: ZoneId, source: Option<Addr>): State {
    // A local change only leads to NOTIFY messages.
    if source.Some? then Spawn(st, z, NotifyFromPrimary(source.value)) else st
  }

  function OnEvent(st: State, soa: Option<Soa>): State
    requires st.events != []
  {
    var rest := st.(events := st.events[1..]);
    match st.events[0]
    case ZoneAdded(z) => OnZoneAdded(rest, z, soa)
    case ZoneRefreshRequested(z, cause, at) => RefreshZoneAt(rest, cause, z, at)
    case ZoneChanged(z, source) => OnZoneChanged(rest, z, source)
  }

  function OnRefreshTimer(st: State, i: nat): State
    requires i < |st.timers|
  {
    Spawn(st.(timers := Without(st.timers, i)), st.timers[i].zone, st.timers[i].cause)
  }

  //// Tasks ////

  function EndTask(st: State, id: nat): State {
    st.(tasks := st.tasks - {id})
  }

  function UpdateTracking(st: State, z: ZoneId, rs: RefreshState): State {
    if z in st.tracking then st.(tracking := st.tracking[z := rs]) else st
  }

  /** The task of a timer looks for the zone among the pending zones and then in its own zone tree. */
  function LookAfterTimer(st: State, id: nat): State
    requires id in st.tasks && st.tasks[id].phase.Looking?
  {
    var t := st.tasks[id];
    if t.zone in st.tracking && (t.zone in st.pending || t.zone in t.phase.zones) && IsSecondary(st, t.zone) then
      st.(tasks := st.tasks[id := t.(wasPending := t.zone in st.pending, phase := Found)])
    else
      EndTask(st, id)
  }

  /** The task of a NOTIFY looks the other way around, and gives up if one is in progress. */
  function LookAfterNotify(st: State, id: nat, knownPrimary: bool): State
    requires id in st.tasks && st.tasks[id].phase.Looking?
  {
    var t := st.tasks[id];
    if && (t.zone in t.phase.zones || t.zone in st.pending)
       && knownPrimary && t.zone in st.tracking && st.tracking[t.zone].status != NotifyInProgress
    then
      UpdateTracking(st.(tasks := st.tasks[id := t.(wasPending := t.zone !in t.phase.zones, phase := Found)]),
                     t.zone, st.tracking[t.zone].SetStatus(NotifyInProgress))
    else
      EndTask(st, id)
  }

  function LookForZone(st: State, id: nat, knownPrimary: bool): State
    requires id in st.tasks && st.tasks[id].phase.Looking?
  {
    if st.tasks[id].cause.NotifyFromPrimary? then LookAfterNotify(st, id, knownPrimary) else LookAfterTimer(st, id)
  }

  function InitialXfrAddr(cause: Cause): Option<Addr> {
    if cause.NotifyFromPrimary? then Some(cause.source) else None
  }

  function StartRefresh(st: State, id: nat, local: LocalSoa, visits: seq<Visit>): State
    requires id in st.tasks && st.tasks[id].zone in st.tracking && st.tasks[id].zone in st.configs
  {
    var t := st.tasks[id];
    var (outcome, effects) := Refresh(local, visits, st.configs[t.zone]);
    UpdateTracking(st.(tasks := st.tasks[id := t.(phase := Refreshing(effects, outcome))]),
                   t.zone, st.tracking[t.zone].Started(t.cause, st.now))
  }

  function ReportProgress(st: State, id: nat, updatesApplied: nat): State
    requires id in st.tasks && st.tasks[id].zone in st.tracking
  {
    var z := st.tasks[id].zone;
    UpdateTracking(st, z, st.tracking[z].SetStatus(RefreshInProgress(updatesApplied)))
  }

  /** The next effect of a refresh takes place. */
  function PerformEffect(st: State, id: nat): State
    requires id in st.tasks && st.tasks[id].zone in st.tracking
    requires st.tasks[id].phase.Refreshing? && st.tasks[id].phase.effects != []
  {
    var t := st.tasks[id];
    var rs := st.tracking[t.zone];
    var st := st.(tasks := st.tasks[id := t.(phase := Refreshing(t.phase.effects[1..], t.phase.outcome))]);
    match t.phase.effects[0]
    case SerialChecked(serial) => UpdateTracking(st, t.zone, rs.SoaSerialCheckSucceeded(serial, st.now))
    case Committed(soa) => UpdateTracking(st, t.zone, rs.RefreshSucceeded(soa, st.now))
    case SoaSeen => st
    case Requested(_, _, _) => st
  }

  function ScheduleZoneRefresh(st: State, z: ZoneId, cause: Cause, at: nat): State {
    st.(events := st.events + [ZoneRefreshRequested(z, cause, Some(at))])
  }

  function FinishRefresh(st: State, id: nat): State
    requires id in st.tasks && st.tasks[id].zone in st.tracking && st.tasks[id].phase.Refreshing?
  {
    var t := st.tasks[id];
    var rs := st.tracking[t.zone];
    match t.phase.outcome
    case Done(soa) =>
      var rs' := rs.Succeeded(soa, st.now);
      var st := ScheduleZoneRefresh(UpdateTracking(st, t.zone, rs'), t.zone, SoaRefreshTimer, rs'.refresh);
      if t.wasPending then st.(tasks := st.tasks[id := t.(phase := Promoting)]) else EndTask(st, id)
    case Failed(_) =>
      if rs.ExpiresOnFailure(st.now) then
        EndTask(st.(expired := st.expired + {t.zone}), id)
      else
        var rs' := rs.FailedToRetry();
        EndTask(ScheduleZoneRefresh(UpdateTracking(st, t.zone, rs'), t.zone, SoaRetryTimer, rs'.retry), id)
    case Panicked => EndTask(st, id)
  }

  function AskForPromotion(st: State, id: nat): State
    requires id in st.tasks
  {
    EndTask(st.(events := st.events + [ZoneAdded(st.tasks[id].zone)]), id)
  }

  //// Steps and runs ////

  /** When an action can happen.  Zone ids are inserted once; refreshes asked for from outside are manual. */
  ghost predicate Enabled(st: State, a: Action) {
    match a
    case Insert(z, _) => z !in st.configs
    case Receive(e) => e.ZoneChanged? || (e.ZoneRefreshRequested? && e.cause.ManualTrigger?)
    case Wait(_) => true
    case Handle(_) => st.events != []
    case Fire(i) => i < |st.timers| && st.timers[i].deadline <= st.now
    case Look(id, _) => id in st.tasks && st.tasks[id].phase.Looking?
    case Start(id, _, visits) =>
      && id in st.tasks && st.tasks[id].phase.Found?
      && st.tasks[id].zone in st.tracking && st.tasks[id].zone in st.configs
      && VisitsAll(visits, InitialXfrAddr(st.tasks[id].cause), st.configs[st.tasks[id].zone])
    case Progress(id, _) => id in st.tasks && st.tasks[id].phase.Refreshing? && st.tasks[id].zone in st.tracking
    case Act(id) =>
      && id in st.tasks && st.tasks[id].phase.Refreshing? && st.tasks[id].zone in st.tracking
      && st.tasks[id].phase.effects != []
    case Finish(id) =>
      && id in st.tasks && st.tasks[id].phase.Refreshing? && st.tasks[id].zone in st.tracking
      && st.tasks[id].phase.effects == []
    case Promote(id) => id in st.tasks && st.tasks[id].phase.Promoting?
  }

  ghost function Next(st: State, a: Action): State
    requires Enabled(st, a)
  {
    match a
    case Insert(z, primaries) => InsertZone(st, z, primaries)
    case Receive(e) => st.(events := st.events + [e])
    case Wait(time) => st.(now := st.now + time)
    case Handle(soa) => OnEvent(st, soa)
    case Fire(i) => OnRefreshTimer(st, i)
    case Look(id, knownPrimary) => LookForZone(st, id, knownPrimary)
    case Start(id, local, visits) => StartRefresh(st, id, local, visits)
    case Progress(id, n) => ReportProgress(st, id, n)
    case Act(id) => PerformEffect(st, id)
    case Finish(id) => FinishRefresh(st, id)
    case Promote(id) => AskForPromotion(st, id)
  }

  /** What a step adds to the history: a zone's SOA read or transferred, a serial check, a promotion
      from pending to active, an expiry. */
  ghost function Observed(st: State, a: Action): seq<Observation>
    requires Enabled(st, a)
  {
    match a
    case Handle(soa) =>
      if st.events[0].ZoneAdded? && st.events[0].zone in st.pending then
        var z := st.events[0].zone;
        (if z !in st.tracking && soa.Some? then [SawSoa(z)] else [])
        + (if z in Next(st, a).active then [Promoted(z)] else [])
      else
        []
    case Act(id) =>
      var t := st.tasks[id];
      (match t.phase.effects[0]
       case SerialChecked(_) => [Checked(t.zone, st.now)]
       case SoaSeen => [SawSoa(t.zone)]
       case Committed(_) => [SawSoa(t.zone)]
       case Requested(_, _, _) => [])
    case Finish(id) =>
      var z := st.tasks[id].zone;
      if st.tasks[id].phase.outcome.Failed? && st.tracking[z].ExpiresOnFailure(st.now)
      then [MarkedExpired(z, st.now, st.tracking[z].expire, st.tracking[z].metrics.zoneCreatedAt)]
      else []
    case _ => []
  }

  datatype World = World(st: State, history: seq<Observation>)

  /** The world after a run from the start, if every action is enabled where it happens. */
  ghost function Run(actions: seq<Action>): Option<World>
    decreases |actions|
  {
    if actions == [] then Some(World(INITIAL, []))
    else
      var before := Run(actions[..|actions| - 1]);
      var a := actions[|actions| - 1];
      if before.Some? && Enabled(before.value.st, a)
      then Some(World(Next(before.value.st, a), before.value.history + Observed(before.value.st, a)))
      else None
  }
}
