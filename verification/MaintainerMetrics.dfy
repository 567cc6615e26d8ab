/** What the records of a zone's freshness tell: when each thing they are about last happened. */
module MaintainerMetrics {
  import opened Options
  import opened Serials
  import opened RefreshZone
  import opened RefreshStates
  import opened RefreshTimers
  import opened MaintainerSteps
  import opened MaintainerHistory
  import MaintainerTasks
  import MaintainerSegments

  datatype Fact =
    | CreatedAt
    | PhaseStartedAt
    | AttemptedAt
    | CheckedAt
    | NewerSerial
    | RenewedAt
    | RenewedSerial

  /** What is on record, as an instant or a serial. */
  function Recorded(m: Metrics, fact: Fact): Option<int> {
    match fact
    case CreatedAt => Some(m.zoneCreatedAt)
    case PhaseStartedAt => OfInstant(m.lastRefreshPhaseStartedAt)
    case AttemptedAt => OfInstant(m.lastRefreshAttemptedAt)
    case CheckedAt => OfInstant(m.lastSoaSerialCheckSucceededAt)
    case NewerSerial => OfSerial(m.lastSoaSerialCheckSerial)
    case RenewedAt => OfInstant(m.lastRefreshedAt)
    case RenewedSerial => OfSerial(m.lastRefreshSucceededSerial)
  }

  function OfInstant(at: Option<Instant>): Option<int> {
    match at case Some(t) => Some(t) case None => None
  }

  function OfSerial(serial: Option<Serial>): Option<int> {
    match serial case Some(s) => Some(s) case None => None
  }

  /** The SOA that a step leaves in the zone: that of a transfer that completes, or that ends its refresh. */
  ghost function Renewal(st: State, a: Action, z: ZoneId): Option<Soa>
    requires Enabled(st, a)
  {
    match a
    case Act(id) =>
      if st.tasks[id].zone == z && st.tasks[id].phase.effects[0].Committed?
      then Some(st.tasks[id].phase.effects[0].soa) else None
    case Finish(id) =>
      if st.tasks[id].zone == z && st.tasks[id].phase.outcome.Done? then st.tasks[id].phase.outcome.soa else None
    case _ => None
  }

  /** The step starts a refresh of the zone. */
  ghost predicate StartsRefresh(st: State, a: Action, z: ZoneId)
    requires Enabled(st, a)
  {
    a.Start? && st.tasks[a.id].zone == z
  }

  /** A primary tells its serial. */
  ghost predicate ChecksSerial(st: State, a: Action, z: ZoneId)
    requires Enabled(st, a)
  {
    a.Act? && st.tasks[a.id].zone == z && st.tasks[a.id].phase.effects[0].SerialChecked?
  }

  /** What a step makes known. */
  ghost function Learnt(st: State, a: Action, z: ZoneId, fact: Fact): Option<int>
    requires Enabled(st, a)
  {
    match fact
    case CreatedAt => if z !in st.tracking && z in Next(st, a).tracking then Some(st.now) else None
    case PhaseStartedAt =>
      if StartsRefresh(st, a, z) && !st.tasks[a.id].cause.SoaRetryTimer? then Some(st.now) else None
    case AttemptedAt => if StartsRefresh(st, a, z) then Some(st.now) else None
    case CheckedAt => if ChecksSerial(st, a, z) then Some(st.now) else None
    case NewerSerial =>
      if ChecksSerial(st, a, z) then OfSerial(st.tasks[a.id].phase.effects[0].serial) else None
    case RenewedAt => if Renewal(st, a, z).Some? then Some(st.now) else None
    case RenewedSerial => if Renewal(st, a, z).Some? then Some(Renewal(st, a, z).value.serial) else None
  }

  /** What a run last made known. */
  ghost function LastLearnt(actions: seq<Action>, z: ZoneId, fact: Fact): Option<int>
    requires Run(actions).Some?
    decreases |actions|
  {
    if actions == [] then None
    else
      var before, a := actions[..|actions| - 1], actions[|actions| - 1];
      var learnt := Learnt(Run(before).value.st, a, z, fact);
      if learnt.Some? then learnt else LastLearnt(before, z, fact)
  }

  function OnRecord(st: State, z: ZoneId, fact: Fact): Option<int> {
    if z in st.tracking then Recorded(st.tracking[z].metrics, fact) else None
  }

  /** What is on record after a step is what it made known, or what was on record before. */
  ghost predicate Follows(st: State, a: Action, z: ZoneId, fact: Fact)
    requires Enabled(st, a)
  {
    OnRecord(Next(st, a), z, fact) ==
      if Learnt(st, a, z, fact).Some? then Learnt(st, a, z, fact) else OnRecord(st, z, fact)
  }

  lemma HandlingFollows(st: State, a: Action, z: ZoneId, fact: Fact)
    requires Enabled(st, a) && a.Handle?
    ensures Follows(st, a, z, fact)
  {
  }

  lemma FinishFollows(st: State, a: Action, z: ZoneId, fact: Fact)
    requires Enabled(st, a) && a.Finish?
    ensures Follows(st, a, z, fact)
  {
  }

  lemma OthersFollow(st: State, a: Action, z: ZoneId, fact: Fact)
    requires Enabled(st, a) && !a.Handle? && !a.Finish?
    ensures Follows(st, a, z, fact)
  {
  }

  lemma StepFollows(st: State, a: Action, z: ZoneId, fact: Fact)
    requires Enabled(st, a)
    ensures Follows(st, a, z, fact)
  {
    if a.Handle? {
      HandlingFollows(st, a, z, fact);
    } else if a.Finish? {
      FinishFollows(st, a, z, fact);
    } else {
      OthersFollow(st, a, z, fact);
    }
  }

  /**
   In every run the record of a zone tells when it was first tracked, when a refresh last began, whether as a retry
   or not, when a primary last told its serial and the last serial that was newer, and when the zone was last
   renewed and at which serial.
   */
  lemma {:induction false} RecordsFollowHistory(actions: seq<Action>, z: ZoneId, fact: Fact)
    requires Run(actions).Some?
    ensures OnRecord(Run(actions).value.st, z, fact) == LastLearnt(actions, z, fact)
    decreases |actions|
  {
    if actions != [] {
      var before, a := actions[..|actions| - 1], actions[|actions| - 1];
      RecordsFollowHistory(before, z, fact);
      StepFollows(Run(before).value.st, a, z, fact);
    }
  }
  //// The status ////

  /** The status that a step gives the zone, if it does.  A failing retry leaves it, be the zone expired or not. */
  ghost function StatusGiven(st: State, a: Action, z: ZoneId): Option<Status>
    requires Enabled(st, a)
  {
    match a
    case Handle(_) => if z !in st.tracking && z in Next(st, a).tracking then Some(RefreshPending) else None
    case Look(id, _) =>
      if st.tasks[id].zone == z && st.tasks[id].cause.NotifyFromPrimary? && id in Next(st, a).tasks
      then Some(NotifyInProgress) else None
    case Start(id, _, _) =>
      if st.tasks[id].zone != z then None
      else if st.tasks[id].cause.SoaRetryTimer? then Some(RetryInProgress)
      else Some(RefreshInProgress(0))
    case Progress(id, updatesApplied) =>
      if st.tasks[id].zone == z then Some(RefreshInProgress(updatesApplied)) else None
    case Act(_) => if Renewal(st, a, z).Some? then Some(RefreshPending) else None
    case Finish(id) =>
      if st.tasks[id].zone != z then None
      else if st.tasks[id].phase.outcome.Done? then Some(RefreshPending)
      else if st.tasks[id].phase.outcome.Failed? && st.tracking[z].status != RetryInProgress then Some(RetryPending)
      else None
    case _ => None
  }

  ghost function LastStatus(actions: seq<Action>, z: ZoneId): Option<Status>
    requires Run(actions).Some?
    decreases |actions|
  {
    if actions == [] then None
    else
      var before, a := actions[..|actions| - 1], actions[|actions| - 1];
      var given := StatusGiven(Run(before).value.st, a, z);
      if given.Some? then given else LastStatus(before, z)
  }

  function StatusOf(st: State, z: ZoneId): Option<Status> {
    if z in st.tracking then Some(st.tracking[z].status) else None
  }

  ghost predicate StatusFollows(st: State, a: Action, z: ZoneId)
    requires Enabled(st, a)
  {
    StatusOf(Next(st, a), z) ==
      if StatusGiven(st, a, z).Some? then StatusGiven(st, a, z) else StatusOf(st, z)
  }

  lemma StepGivesStatus(st: State, a: Action, z: ZoneId)
    requires Enabled(st, a)
    ensures StatusFollows(st, a, z)
  {
  }

  /** In every run the status of a zone tells what its tasks did last, whichever of them did it. */
  lemma {:induction false} StatusFollowsHistory(actions: seq<Action>, z: ZoneId)
    requires Run(actions).Some?
    ensures StatusOf(Run(actions).value.st, z) == LastStatus(actions, z)
    decreases |actions|
  {
    if actions != [] {
      var before, a := actions[..|actions| - 1], actions[|actions| - 1];
      StatusFollowsHistory(before, z);
      StepGivesStatus(Run(before).value.st, a, z);
    }
  }
  //// A second NOTIFY ////

  /** A NOTIFY looks for its zone, and finds it. */
  ghost predicate Finds(st: State, id: nat) {
    && id in st.tasks && st.tasks[id].phase.Looking? && st.tasks[id].cause.NotifyFromPrimary?
    && var t := st.tasks[id]; t.zone in st.tracking && (t.zone in st.pending || t.zone in t.phase.zones)
  }

  /** In every run a NOTIFY from a known sender that finds its zone is refused exactly if the last thing that a task
      of the zone did was to find it for another NOTIFY: the refresh that this one leads to has not even begun. */
  lemma SecondNotifyIsRefusedIff(actions: seq<Action>, id: nat)
    requires Run(actions).Some? && Finds(Run(actions).value.st, id)
    ensures var st := Run(actions).value.st;
            id !in Next(st, Look(id, true)).tasks <==>
              LastStatus(actions, st.tasks[id].zone) == Some(NotifyInProgress)
  {
    var w := Run(actions).value;
    assert Reachable(w);
    MaintainerTasks.NotifyIsFollowedIff(w, id, true);
    StatusFollowsHistory(actions, w.st.tasks[id].zone);
  }

  /** Once the refresh after a first NOTIFY has begun, a second NOTIFY is not refused, although the transaction that
      the first one began is not complete: both refresh the zone at once. */
  lemma SecondNotifyIsFollowed(w: World, first: nat, local: LocalSoa, visits: seq<Visit>, second: nat)
    requires Reachable(w) && Enabled(w.st, Start(first, local, visits)) && w.st.tasks[first].cause.NotifyFromPrimary?
    requires Finds(w.st, second) && w.st.tasks[second].zone == w.st.tasks[first].zone
    ensures var st' := Next(Next(w.st, Start(first, local, visits)), Look(second, true));
            && first in st'.tasks && st'.tasks[first].phase.Refreshing?
            && second in st'.tasks && st'.tasks[second].phase.Found?
  {
    var w' := MaintainerTasks.StepTo(w, Start(first, local, visits));
    MaintainerSegments.StepReachable(w, Start(first, local, visits));
    MaintainerTasks.NotifyIsFollowedIff(w', second, true);
  }
}
