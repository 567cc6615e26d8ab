/**
 The bounded history of signing operations and the order in which signing operations report to it.
 Finishing an entry unwraps eleven measurements that earlier reports of the same operation filled in.
 */
module SignerStatus {
  import opened Options

  type Zone = string

  //// One entry ////

  datatype Progress = Progress(
    requestedAt: nat, serial: nat, startedAt: nat,
    unsignedRrCount: Option<nat>, walkTime: Option<nat>, sortTime: Option<nat>,
    denialRrCount: Option<nat>, denialTime: Option<nat>, threadsUsed: Option<nat>,
    rrsigCount: Option<nat>, rrsigReusedCount: Option<nat>, rrsigTime: Option<nat>,
    insertionTime: Option<nat>, totalTime: Option<nat>)

  datatype Outcome = Outcome(
    requestedAt: nat, serial: nat, startedAt: nat,
    unsignedRrCount: nat, walkTime: nat, sortTime: nat, denialRrCount: nat, denialTime: nat, threadsUsed: nat,
    rrsigCount: nat, rrsigReusedCount: nat, rrsigTime: nat, insertionTime: nat, totalTime: nat, finishedAt: nat)

  datatype Status = Requested(requestedAt: nat) | InProgress(progress: Progress) | Finished(outcome: Outcome)

  datatype Named = Named(zone: Zone, status: Status)

  /** What a signing operation reports, in the order in which it does. */
  datatype Report =
    | Walked(rrCount: nat, walkTime: nat)
    | Sorted(sortTime: nat)
    | Denied(denialRrCount: nat, denialTime: nat)
    | Threaded(threads: nat)
    | Rrsigs(rrsigCount: nat, rrsigTime: nat)
    | Inserted(insertionTime: nat, totalTime: nat)

  const REPORTS: nat := 6

  function Position(report: Report): nat {
    match report
    case Walked(_, _) => 0
    case Sorted(_) => 1
    case Denied(_, _) => 2
    case Threaded(_) => 3
    case Rrsigs(_, _) => 4
    case Inserted(_, _) => 5
  }

  function Fill(p: Progress, report: Report): Progress {
    match report
    case Walked(count, time) => p.(unsignedRrCount := Some(count), walkTime := Some(time))
    case Sorted(time) => p.(sortTime := Some(time))
    case Denied(count, time) => p.(denialRrCount := Some(count), denialTime := Some(time))
    case Threaded(threads) => p.(threadsUsed := Some(threads))
    case Rrsigs(count, time) => p.(rrsigCount := Some(count), rrsigReusedCount := Some(0), rrsigTime := Some(time))
    case Inserted(insertion, total) => p.(insertionTime := Some(insertion), totalTime := Some(total))
  }

  function NewProgress(requestedAt: nat, serial: nat, now: nat): Progress {
    Progress(requestedAt, serial, now, None, None, None, None, None, None, None, None, None, None, None)
  }

  /** The first `n` reports have filled in their fields. */
  predicate Filled(p: Progress, n: nat) {
    && (n > 0 ==> p.unsignedRrCount.Some? && p.walkTime.Some?)
    && (n > 1 ==> p.sortTime.Some?)
    && (n > 2 ==> p.denialRrCount.Some? && p.denialTime.Some?)
    && (n > 3 ==> p.threadsUsed.Some?)
    && (n > 4 ==> p.rrsigCount.Some? && p.rrsigReusedCount.Some? && p.rrsigTime.Some?)
    && (n > 5 ==> p.insertionTime.Some? && p.totalTime.Some?)
  }

  /** `None` stands for the panic of an `unwrap`.  The start time becomes the time of finishing. */
  function Finish(p: Progress, now: nat): Option<Outcome> {
    if Filled(p, REPORTS) then
      Some(Outcome(
        p.requestedAt, p.serial, now, p.unsignedRrCount.value, p.walkTime.value, p.sortTime.value,
        p.denialRrCount.value, p.denialTime.value, p.threadsUsed.value, p.rrsigCount.value,
        p.rrsigReusedCount.value, p.rrsigTime.value, p.insertionTime.value, p.totalTime.value, now))
    else
      None
  }

  /** `None` stands for a panic, as in `FinishStatus`. */
  function StartStatus(s: Status, serial: nat, now: nat): Option<Status> {
    match s
    case Requested(at) => Some(InProgress(NewProgress(at, serial, now)))
    case InProgress(_) => Some(s)
    case Finished(_) => None
  }

  function FinishStatus(s: Status, now: nat): Option<Status> {
    match s
    case Requested(_) => None
    case InProgress(p) => (match Finish(p, now) case Some(o) => Some(Finished(o)) case None => None)
    case Finished(_) => Some(s)
  }

  //// The history ////

  type History = seq<Named>

  /** The newest entry of a zone. */
  function LastOf(history: History, zone: Zone): (r: Option<nat>)
    ensures r.Some? ==> r.value < |history| && history[r.value].zone == zone
                        && forall i :: r.value < i < |history| ==> history[i].zone != zone
    ensures r.None? ==> forall i :: 0 <= i < |history| ==> history[i].zone != zone
  {
    if history == [] then None
    else if history[|history| - 1].zone == zone then Some(|history| - 1)
    else LastOf(history[..|history| - 1], zone)
  }

  function StatusOf(history: History, zone: Zone): Option<Status> {
    match LastOf(history, zone)
    case Some(i) => Some(history[i].status)
    case None => None
  }

  function SetStatus(history: History, zone: Zone, status: Status): (r: History)
    ensures |r| == |history|
    ensures forall i :: 0 <= i < |r| ==>
      r[i] == if LastOf(history, zone) == Some(i) then Named(zone, status) else history[i]
  {
    match LastOf(history, zone)
    case Some(i) => history[i := Named(zone, status)]
    case None => history
  }

  function Enqueued(history: History, capacity: nat, zone: Zone, now: nat): History {
    (if |history| == capacity && history != [] then history[1..] else history) + [Named(zone, Requested(now))]
  }

  function Started(history: History, zone: Zone, serial: nat, now: nat): Option<History> {
    var status := StatusOf(history, zone);
    if status.Some? && status.value.Requested? then
      match StartStatus(status.value, serial, now)
      case Some(s) => Some(SetStatus(history, zone, s))
      case None => None
    else
      Some(history)
  }

  function Updated(history: History, zone: Zone, report: Report): History {
    var status := StatusOf(history, zone);
    if status.Some? && status.value.InProgress? then
      SetStatus(history, zone, InProgress(Fill(status.value.progress, report)))
    else
      history
  }

  function Ended(history: History, zone: Zone, now: nat): Option<History> {
    var status := StatusOf(history, zone);
    if status.Some? && status.value.InProgress? then
      match FinishStatus(status.value, now)
      case Some(s) => Some(SetStatus(history, zone, s))
      case None => None
    else
      Some(history)
  }

  class ZoneSignerStatus {
    var zonesBeingSigned: History
    const capacity: nat

    constructor (capacity: nat)
      ensures zonesBeingSigned == [] && this.capacity == capacity
    {
      this.capacity := capacity;
      zonesBeingSigned := [];
    }

    method Find(zone: Zone) returns (index: Option<nat>)
      ensures index == LastOf(zonesBeingSigned, zone)
    {
      var i := |zonesBeingSigned|;
      while i > 0
        invariant 0 <= i <= |zonesBeingSigned|
        invariant LastOf(zonesBeingSigned[..i], zone) == LastOf(zonesBeingSigned, zone)
      {
        i := i - 1;
        assert zonesBeingSigned[..i + 1][..i] == zonesBeingSigned[..i];
        if zonesBeingSigned[i].zone == zone {
          return Some(i);
        }
      }
      return None;
    }

    method Enqueue(zone: Zone, now: nat)
      modifies this`zonesBeingSigned
      ensures zonesBeingSigned == Enqueued(old(zonesBeingSigned), capacity, zone, now)
    {
      if |zonesBeingSigned| == capacity {
        if zonesBeingSigned != [] {
          zonesBeingSigned := zonesBeingSigned[1..];
        }
      }
      zonesBeingSigned := zonesBeingSigned + [Named(zone, Requested(now))];
    }

    method Start(zone: Zone, serial: nat, now: nat) returns (panicked: bool)
      modifies this`zonesBeingSigned
      ensures panicked <==> Started(old(zonesBeingSigned), zone, serial, now).None?
      ensures !panicked ==> Started(old(zonesBeingSigned), zone, serial, now) == Some(zonesBeingSigned)
    {
      var index := Find(zone);
      if index.Some? && zonesBeingSigned[index.value].status.Requested? {
        match StartStatus(zonesBeingSigned[index.value].status, serial, now) {
          case Some(s) => zonesBeingSigned := zonesBeingSigned[index.value := Named(zone, s)];
          case None => return true;
        }
      }
      return false;
    }

    method Update(zone: Zone, report: Report)
      modifies this`zonesBeingSigned
      ensures zonesBeingSigned == Updated(old(zonesBeingSigned), zone, report)
    {
      var index := Find(zone);
      if index.Some? && zonesBeingSigned[index.value].status.InProgress? {
        var progress := zonesBeingSigned[index.value].status.progress;
        zonesBeingSigned := zonesBeingSigned[index.value := Named(zone, InProgress(Fill(progress, report)))];
      }
    }

    method End(zone: Zone, now: nat) returns (panicked: bool)
      modifies this`zonesBeingSigned
      ensures panicked <==> Ended(old(zonesBeingSigned), zone, now).None?
      ensures !panicked ==> Ended(old(zonesBeingSigned), zone, now) == Some(zonesBeingSigned)
    {
      var index := Find(zone);
      if index.Some? && zonesBeingSigned[index.value].status.InProgress? {
        match FinishStatus(zonesBeingSigned[index.value].status, now) {
          case Some(s) => zonesBeingSigned := zonesBeingSigned[index.value := Named(zone, s)];
          case None => return true;
        }
      }
      return false;
    }
  }

  //// Runs ////

  /** `Running(n)` holds a permit; it has started its entry if `n > 0` and then made `n - 1` reports. */
  datatype Phase = Waiting | Running(steps: nat) | Gone

  datatype Task = Task(zone: Zone, phase: Phase)

  datatype State = State(history: History, tasks: seq<Task>, panicked: bool)

  datatype Action =
    | Request(zone: Zone, now: nat)
    | Acquire(id: nat)
    | Begin(id: nat, serial: nat, now: nat)
    | Progressed(id: nat, report: Report)
    | GiveUp(id: nat)
    | Complete(id: nat, now: nat)

  const INIT := State([], [], false)

  function RunningTasks(tasks: seq<Task>): set<nat> {
    set i: nat | i < |tasks| && tasks[i].phase.Running?
  }

  predicate IsRunning(st: State, id: nat) {
    id < |st.tasks| && st.tasks[id].phase.Running?
  }

  /** Tasks may interleave in any way; a running task may give up, with an error, between any two reports. */
  predicate Enabled(st: State, a: Action, permits: nat) {
    && !st.panicked
    && match a
       case Request(_, _) => true
       case Acquire(id) => id < |st.tasks| && st.tasks[id].phase.Waiting? && |RunningTasks(st.tasks)| < permits
       case Begin(id, _, _) => IsRunning(st, id) && st.tasks[id].phase.steps == 0
       case Progressed(id, report) => IsRunning(st, id) && st.tasks[id].phase.steps == Position(report) + 1
       case GiveUp(id) => IsRunning(st, id)
       case Complete(id, _) => IsRunning(st, id) && st.tasks[id].phase.steps == REPORTS + 1
  }

  function WithPhase(st: State, id: nat, phase: Phase): State
    requires id < |st.tasks|
  {
    st.(tasks := st.tasks[id := st.tasks[id].(phase := phase)])
  }

  function WithHistory(st: State, history: Option<History>): State {
    match history
    case Some(h) => st.(history := h)
    case None => st.(panicked := true)
  }

  function Next(st: State, a: Action, permits: nat, capacity: nat): State
    requires Enabled(st, a, permits)
  {
    match a
    case Request(zone, now) =>
      st.(history := Enqueued(st.history, capacity, zone, now), tasks := st.tasks + [Task(zone, Waiting)])
    case Acquire(id) => WithPhase(st, id, Running(0))
    case Begin(id, serial, now) =>
      WithHistory(WithPhase(st, id, Running(1)), Started(st.history, st.tasks[id].zone, serial, now))
    case Progressed(id, report) =>
      WithHistory(WithPhase(st, id, Running(Position(report) + 2)),
                  Some(Updated(st.history, st.tasks[id].zone, report)))
    case GiveUp(id) => WithPhase(st, id, Gone)
    case Complete(id, now) =>
      WithHistory(WithPhase(st, id, Gone), Ended(st.history, st.tasks[id].zone, now))
  }

  predicate IsRun(st: State, actions: seq<Action>, permits: nat, capacity: nat)
    decreases |actions|
  {
    actions == [] ||
    (&& Enabled(st, actions[0], permits)
     && IsRun(Next(st, actions[0], permits, capacity), actions[1..], permits, capacity))
  }

  function Run(st: State, actions: seq<Action>, permits: nat, capacity: nat): State
    requires IsRun(st, actions, permits, capacity)
    decreases |actions|
  {
    if actions == [] then st
    else Run(Next(st, actions[0], permits, capacity), actions[1..], permits, capacity)
  }

  //// One permit: no panic ////

  /** The entry that a task reports to has the fields of all its reports so far. */
  predicate EntryOk(history: History, zone: Zone, steps: nat) {
    var status := StatusOf(history, zone);
    steps > 0 && status.Some? && status.value.InProgress? ==> Filled(status.value.progress, steps - 1)
  }

  ghost predicate Ok(st: State) {
    && !st.panicked
    && (forall i: nat, j: nat :: IsRunning(st, i) && IsRunning(st, j) ==> i == j)
    && (forall i: nat :: IsRunning(st, i) ==> EntryOk(st.history, st.tasks[i].zone, st.tasks[i].phase.steps))
  }

  lemma NothingRuns(st: State)
    requires |RunningTasks(st.tasks)| < 1
    ensures forall i: nat :: !IsRunning(st, i)
  {
    assert forall i: nat :: IsRunning(st, i) ==> i in RunningTasks(st.tasks);
    assert RunningTasks(st.tasks) == {};
  }

  /** After dropping the oldest entry and adding one, a zone's newest entry is the added one, what it was
      before, or none. */
  lemma StatusAfterEnqueue(history: History, capacity: nat, zone: Zone, now: nat, z: Zone)
    ensures StatusOf(Enqueued(history, capacity, zone, now), z) in
              {Some(Requested(now)), StatusOf(history, z), None}
  {
    var h := Enqueued(history, capacity, zone, now);
    match LastOf(h, z) {
      case Some(i) =>
        if i < |h| - 1 {
          var shift := |history| + 1 - |h|;
          forall k | i + shift < k < |history| ensures history[k].zone != z {
            assert h[k - shift] == history[k];
          }
          LastIsUnique(history, i + shift, z);
        }
      case None =>
    }
  }

  lemma LastIsUnique(history: History, i: nat, z: Zone)
    requires i < |history| && history[i].zone == z && forall k :: i < k < |history| ==> history[k].zone != z
    ensures LastOf(history, z) == Some(i)
  {
  }

  lemma StatusAfterSet(history: History, zone: Zone, status: Status)
    requires LastOf(history, zone).Some?
    ensures StatusOf(SetStatus(history, zone, status), zone) == Some(status)
  {
    var h := SetStatus(history, zone, status);
    assert forall i :: 0 <= i < |h| ==> h[i].zone == history[i].zone;
    assert LastOf(h, zone) == LastOf(history, zone);
  }

  lemma UpdateFills(history: History, zone: Zone, report: Report)
    requires EntryOk(history, zone, Position(report) + 1)
    ensures EntryOk(Updated(history, zone, report), zone, Position(report) + 2)
  {
    var status := StatusOf(history, zone);
    if status.Some? && status.value.InProgress? {
      StatusAfterSet(history, zone, InProgress(Fill(status.value.progress, report)));
    }
  }

  lemma StepKeepsOk(st: State, a: Action, permits: nat, capacity: nat)
    requires Ok(st) && Enabled(st, a, permits) && permits <= 1
    ensures Ok(Next(st, a, permits, capacity))
  {
    var st' := Next(st, a, permits, capacity);
    assert forall i: nat :: IsRunning(st', i) ==> IsRunning(st, i) || (a.Acquire? && i == a.id);
    match a {
      case Request(zone, now) =>
        forall i: nat | IsRunning(st', i) ensures EntryOk(st'.history, st'.tasks[i].zone, st'.tasks[i].phase.steps) {
          assert IsRunning(st, i);
          StatusAfterEnqueue(st.history, capacity, zone, now, st.tasks[i].zone);
        }
      case Acquire(id) =>
        NothingRuns(st);
      case Begin(id, serial, now) =>
        BeginStep(st, id, serial, now);
      case Progressed(id, report) =>
        UpdateFills(st.history, st.tasks[id].zone, report);
      case GiveUp(id) =>
      case Complete(id, now) =>
        assert EntryOk(st.history, st.tasks[id].zone, REPORTS + 1);
    }
  }

  lemma BeginStep(st: State, id: nat, serial: nat, now: nat)
    requires IsRunning(st, id)
    ensures Started(st.history, st.tasks[id].zone, serial, now).Some?
    ensures EntryOk(Started(st.history, st.tasks[id].zone, serial, now).value, st.tasks[id].zone, 1)
  {
  }

  lemma {:induction false} RunKeepsOk(st: State, actions: seq<Action>, permits: nat, capacity: nat)
    requires Ok(st) && IsRun(st, actions, permits, capacity) && permits <= 1
    ensures Ok(Run(st, actions, permits, capacity))
    decreases |actions|
  {
    if actions != [] {
      StepKeepsOk(st, actions[0], permits, capacity);
      RunKeepsOk(Next(st, actions[0], permits, capacity), actions[1..], permits, capacity);
    }
  }

  //// Two permits: a panic ////

  /** Two signing operations for one zone: the second restarts the zone's newest entry while the first,
      having made its first report to an older entry, completes the newer one. */
  function Overlap(zone: Zone): seq<Action> {
    [Request(zone, 0), Acquire(0), Begin(0, 1, 0), Progressed(0, Walked(1, 0)),
     Request(zone, 0), Acquire(1), Begin(1, 2, 0),
     Progressed(0, Sorted(0)), Progressed(0, Denied(1, 0)), Progressed(0, Threaded(1)), Progressed(0, Rrsigs(1, 0)),
     Progressed(0, Inserted(0, 0)), Complete(0, 0)]
  }

  /** Where the overlapping operations stand after so many steps. */
  function TasksThen(zone: Zone, step: nat): seq<Task> {
    match step
    case 0 => []
    case 1 => [Task(zone, Waiting)]
    case 2 => [Task(zone, Running(0))]
    case 3 => [Task(zone, Running(1))]
    case 4 => [Task(zone, Running(2))]
    case 5 => [Task(zone, Running(2)), Task(zone, Waiting)]
    case 6 => [Task(zone, Running(2)), Task(zone, Running(0))]
    case _ => [Task(zone, Running(step - 5)), Task(zone, Running(1))]
  }

  ghost predicate Reached(st: State, zone: Zone, step: nat) {
    && st.tasks == TasksThen(zone, step)
    && !st.panicked
    && (step in {5, 6} ==> StatusOf(st.history, zone) == Some(Requested(0)))
    && (step >= 7 ==>
          var status := StatusOf(st.history, zone);
          status.Some? && status.value.InProgress? && status.value.progress.unsignedRrCount.None?)
  }

  lemma AtMostOneRuns(tasks: seq<Task>)
    requires forall i :: 0 < i < |tasks| ==> !tasks[i].phase.Running?
    ensures |RunningTasks(tasks)| < 2
  {
    assert RunningTasks(tasks) == if tasks != [] && tasks[0].phase.Running? then {0} else {};
  }

  lemma OverlapStep(st: State, zone: Zone, step: nat, permits: nat, capacity: nat)
    requires permits >= 2 && step <= 12 && Reached(st, zone, step)
    ensures Enabled(st, Overlap(zone)[step], permits)
    ensures var st' := Next(st, Overlap(zone)[step], permits, capacity);
            if step < 12 then Reached(st', zone, step + 1) else st'.panicked
  {
    match step {
      case 0 =>
      case 1 => AtMostOneRuns(st.tasks);
      case 2 =>
      case 3 =>
      case 4 =>
      case 5 => AtMostOneRuns(st.tasks);
      case 6 => StatusAfterSet(st.history, zone, InProgress(NewProgress(0, 2, 0)));
      case _ => OverlapReports(st, zone, step, permits, capacity);
    }
  }

  lemma OverlapReports(st: State, zone: Zone, step: nat, permits: nat, capacity: nat)
    requires 7 <= step <= 12 && Reached(st, zone, step)
    ensures Enabled(st, Overlap(zone)[step], permits)
    ensures var st' := Next(st, Overlap(zone)[step], permits, capacity);
            if step < 12 then Reached(st', zone, step + 1) else st'.panicked
  {
    var a := Overlap(zone)[step];
    if step < 12 {
      StatusAfterSet(st.history, zone, InProgress(Fill(StatusOf(st.history, zone).value.progress, a.report)));
    }
  }

  lemma {:induction false} OverlapPanics(st: State, zone: Zone, step: nat, permits: nat, capacity: nat)
    requires permits >= 2 && step <= 12 && Reached(st, zone, step)
    ensures IsRun(st, Overlap(zone)[step..], permits, capacity)
    ensures Run(st, Overlap(zone)[step..], permits, capacity).panicked
    decreases 12 - step
  {
    var actions := Overlap(zone)[step..];
    OverlapStep(st, zone, step, permits, capacity);
    assert actions[1..] == Overlap(zone)[step + 1..];
    if step < 12 {
      OverlapPanics(Next(st, actions[0], permits, capacity), zone, step + 1, permits, capacity);
    }
  }

  ghost predicate NeverPanics(permits: nat, capacity: nat) {
    forall actions :: IsRun(INIT, actions, permits, capacity) ==> !Run(INIT, actions, permits, capacity).panicked
  }

  /** No interleaving of requests, failures and completions, for the same zone or others and with any
      eviction, makes the status panic exactly if at most one operation may run at a time.  The signer's command
      loop awaits each operation before it takes the next command, so that with it the panicking run for two
      permits does not come about: the permits alone would allow it. */
  lemma NoPanicIffOnePermit(permits: nat, capacity: nat)
    ensures NeverPanics(permits, capacity) <==> permits <= 1
  {
    if permits <= 1 {
      forall actions | IsRun(INIT, actions, permits, capacity)
        ensures !Run(INIT, actions, permits, capacity).panicked
      {
        RunKeepsOk(INIT, actions, permits, capacity);
      }
    } else {
      OverlapPanics(INIT, "example", 0, permits, capacity);
      assert Overlap("example")[0..] == Overlap("example");
    }
  }

  //// The history is the latest requests ////

  function Zones(history: History): (r: seq<Zone>)
    ensures |r| == |history| && forall i :: 0 <= i < |r| ==> r[i] == history[i].zone
  {
    seq(|history|, i requires 0 <= i < |history| => history[i].zone)
  }

  function ZoneRequested(a: Action): seq<Zone> {
    if a.Request? then [a.zone] else []
  }

  /** The zones requested earlier, then those of a run. */
  function RequestedZones(before: seq<Zone>, actions: seq<Action>): seq<Zone>
    decreases |actions|
  {
    if actions == [] then before else RequestedZones(before + ZoneRequested(actions[0]), actions[1..])
  }

  function Latest(zones: seq<Zone>, n: nat): seq<Zone> {
    if |zones| <= n then zones else zones[|zones| - n..]
  }

  /** A step that reports on a zone touches only that zone's newest entry; entries go from requested to
      in progress to finished, and a finished entry stays as it is. */
  lemma EntriesAdvance(st: State, a: Action, permits: nat, capacity: nat, i: nat)
    requires Enabled(st, a, permits) && !a.Request? && i < |st.history|
    ensures var h, h' := st.history, Next(st, a, permits, capacity).history;
            && Zones(h') == Zones(h)
            && (h[i].status.Finished? ==> h'[i] == h[i])
            && (h[i].status.InProgress? ==> !h'[i].status.Requested?)
            && (h'[i] != h[i] ==>
                  !a.Acquire? && !a.GiveUp? && h[i].zone == st.tasks[a.id].zone && LastOf(h, h[i].zone) == Some(i))
  {
    var st' := Next(st, a, permits, capacity);
    match a {
      case Acquire(_) => 
      case Begin(_, _, _) =>
      case Progressed(_, _) =>
      case GiveUp(_) =>
      case Complete(_, _) =>
    }
    assert Zones(st'.history) == Zones(st.history);
  }

  lemma EnqueueKeepsLatest(history: History, before: seq<Zone>, zone: Zone, now: nat, capacity: nat)
    requires capacity > 0 && Zones(history) == Latest(before, capacity)
    ensures Zones(Enqueued(history, capacity, zone, now)) == Latest(before + [zone], capacity)
  {
    assert |history| == |Zones(history)|;
  }

  /** The entries are those of the latest requests, in their order, and no more than the capacity. */
  lemma {:induction false} HistoryIsLatest(st: State, actions: seq<Action>, before: seq<Zone>, permits: nat,
                                           capacity: nat)
    requires capacity > 0 && IsRun(st, actions, permits, capacity)
    requires Zones(st.history) == Latest(before, capacity)
    ensures Zones(Run(st, actions, permits, capacity).history) == Latest(RequestedZones(before, actions), capacity)
    decreases |actions|
  {
    if actions != [] {
      StepKeepsLatest(st, actions[0], before, permits, capacity);
      HistoryIsLatest(Next(st, actions[0], permits, capacity), actions[1..], before + ZoneRequested(actions[0]),
                      permits, capacity);
    }
  }

  lemma StepKeepsLatest(st: State, a: Action, before: seq<Zone>, permits: nat, capacity: nat)
    requires capacity > 0 && Enabled(st, a, permits) && Zones(st.history) == Latest(before, capacity)
    ensures Zones(Next(st, a, permits, capacity).history) == Latest(before + ZoneRequested(a), capacity)
  {
    if a.Request? {
      EnqueueKeepsLatest(st.history, before, a.zone, a.now, capacity);
    } else {
      NamesStay(st, a, permits, capacity);
      assert before + [] == before;
    }
  }

  lemma NamesStay(st: State, a: Action, permits: nat, capacity: nat)
    requires Enabled(st, a, permits) && !a.Request?
    ensures Zones(Next(st, a, permits, capacity).history) == Zones(st.history)
  {
    var st' := Next(st, a, permits, capacity);
    assert |st'.history| == |st.history|;
    assert forall i :: 0 <= i < |st.history| ==> st'.history[i].zone == st.history[i].zone;
  }

  //// What an operation leaves ////

  /** The progress has the fields of the report. */
  predicate Holds(p: Progress, report: Report) {
    match report
    case Walked(count, time) => p.unsignedRrCount == Some(count) && p.walkTime == Some(time)
    case Sorted(time) => p.sortTime == Some(time)
    case Denied(count, time) => p.denialRrCount == Some(count) && p.denialTime == Some(time)
    case Threaded(threads) => p.threadsUsed == Some(threads)
    case Rrsigs(count, time) =>
      p.rrsigCount == Some(count) && p.rrsigReusedCount == Some(0) && p.rrsigTime == Some(time)
    case Inserted(insertion, total) => p.insertionTime == Some(insertion) && p.totalTime == Some(total)
  }

  predicate Shows(o: Outcome, report: Report) {
    match report
    case Walked(count, time) => o.unsignedRrCount == count && o.walkTime == time
    case Sorted(time) => o.sortTime == time
    case Denied(count, time) => o.denialRrCount == count && o.denialTime == time
    case Threaded(threads) => o.threadsUsed == threads
    case Rrsigs(count, time) => o.rrsigCount == count && o.rrsigReusedCount == 0 && o.rrsigTime == time
    case Inserted(insertion, total) => o.insertionTime == insertion && o.totalTime == total
  }

  /** What the entry of an operation records after so many steps and these reports. */
  ghost predicate Records(status: Status, requestedAt: nat, serial: nat, steps: nat, seen: set<Report>) {
    if steps == 0 then status == Requested(requestedAt) && seen == {}
    else
      && status.InProgress?
      && status.progress.requestedAt == requestedAt && status.progress.serial == serial
      && forall r :: r in seen ==> Position(r) + 2 <= steps && Holds(status.progress, r)
  }

  /** The operation runs, and the newest entry of its zone records it, unless it was dropped. */
  ghost predicate Tracks(st: State, id: nat, requestedAt: nat, serial: nat, seen: set<Report>) {
    && IsRunning(st, id)
    && var status := StatusOf(st.history, st.tasks[id].zone);
       status.None? || Records(status.value, requestedAt, serial, st.tasks[id].phase.steps, seen)
  }

  function ReportOf(a: Action): set<Report> {
    if a.Progressed? then {a.report} else {}
  }

  lemma OnlyOneActs(st: State, a: Action, id: nat, permits: nat)
    requires Ok(st) && Enabled(st, a, permits) && permits <= 1 && IsRunning(st, id)
    ensures !a.Acquire? && (a.Request? || a.id == id)
  {
    assert id in RunningTasks(st.tasks);
    if a.Acquire? {
      NothingRuns(st);
    }
  }

  lemma TrackStep(st: State, a: Action, id: nat, permits: nat, capacity: nat, requestedAt: nat, serial: nat,
                  seen: set<Report>)
    requires Ok(st) && Enabled(st, a, permits) && permits <= 1 && Tracks(st, id, requestedAt, serial, seen)
    requires !a.GiveUp? && !a.Complete? && (a.Request? ==> a.zone != st.tasks[id].zone)
    requires a.Begin? ==> a.serial == serial
    ensures Tracks(Next(st, a, permits, capacity), id, requestedAt, serial, seen + ReportOf(a))
    ensures Next(st, a, permits, capacity).tasks[id].zone == st.tasks[id].zone
  {
    OnlyOneActs(st, a, id, permits);
    var zone := st.tasks[id].zone;
    var status := StatusOf(st.history, zone);
    match a {
      case Request(other, now) => StatusAfterEnqueueOther(st.history, capacity, other, now, zone);
      case Begin(_, _, now) =>
        if status.Some? {
          StatusAfterSet(st.history, zone, InProgress(NewProgress(requestedAt, serial, now)));
        }
      case Progressed(_, report) =>
        if status.Some? {
          StatusAfterSet(st.history, zone, InProgress(Fill(status.value.progress, report)));
        }
      case _ =>
    }
  }

  /** A request for another zone leaves a zone's newest entry, or drops it. */
  lemma StatusAfterEnqueueOther(history: History, capacity: nat, other: Zone, now: nat, zone: Zone)
    requires other != zone
    ensures StatusOf(Enqueued(history, capacity, other, now), zone) in {StatusOf(history, zone), None}
  {
    var h := Enqueued(history, capacity, other, now);
    match LastOf(h, zone) {
      case Some(i) =>
        var shift := |history| + 1 - |h|;
        assert h[i] == history[i + shift];
        forall k | i + shift < k < |history| ensures history[k].zone != zone {
          assert h[k - shift] == history[k];
        }
        LastIsUnique(history, i + shift, zone);
      case None =>
    }
  }

  lemma {:induction false} TrackRun(st: State, actions: seq<Action>, id: nat, permits: nat, capacity: nat,
                                    requestedAt: nat, serial: nat, seen: set<Report>) returns (all: set<Report>)
    requires Ok(st) && IsRun(st, actions, permits, capacity) && permits <= 1
    requires Tracks(st, id, requestedAt, serial, seen)
    requires forall a :: a in actions ==> !a.GiveUp? && !a.Complete? && (a.Request? ==> a.zone != st.tasks[id].zone)
    requires forall a :: a in actions && a.Begin? ==> a.serial == serial
    ensures var st' := Run(st, actions, permits, capacity);
            Ok(st') && Tracks(st', id, requestedAt, serial, all) && st'.tasks[id].zone == st.tasks[id].zone
    ensures seen <= all && forall a :: a in actions && a.Progressed? ==> a.report in all
    decreases |actions|
  {
    if actions == [] {
      all := seen;
    } else {
      var a, st' := actions[0], Next(st, actions[0], permits, capacity);
      assert a in actions && forall b :: b in actions[1..] ==> b in actions;
      StepKeepsOk(st, a, permits, capacity);
      TrackStep(st, a, id, permits, capacity, requestedAt, serial, seen);
      all := TrackRun(st', actions[1..], id, permits, capacity, requestedAt, serial, seen + ReportOf(a));
      forall b | b in actions && b.Progressed? ensures b.report in all {
        assert b == a || b in actions[1..];
      }
    }
  }

  /**
   With one permit: an operation that starts the newest entry of its zone and completes leaves in it exactly what
   it reported, whatever other zones are requested meanwhile, unless those requests drop the entry.  The start
   time becomes that of finishing.
   */
  lemma OperationIsRecorded(st: State, actions: seq<Action>, id: nat, serial: nat, finishedAt: nat, permits: nat,
                            capacity: nat)
    requires Ok(st) && permits <= 1 && IsRunning(st, id) && st.tasks[id].phase.steps == 0
    requires var status := StatusOf(st.history, st.tasks[id].zone); status.Some? && status.value.Requested?
    requires IsRun(st, actions, permits, capacity)
    requires Enabled(Run(st, actions, permits, capacity), Complete(id, finishedAt), permits)
    requires forall a :: a in actions ==> !a.GiveUp? && !a.Complete? && (a.Request? ==> a.zone != st.tasks[id].zone)
    requires forall a :: a in actions && a.Begin? ==> a.serial == serial
    ensures var zone := st.tasks[id].zone;
            var st' := Next(Run(st, actions, permits, capacity), Complete(id, finishedAt), permits, capacity);
            var status := StatusOf(st'.history, zone);
            && !st'.panicked
            && (status.Some? ==>
                  && status.value.Finished?
                  && var o := status.value.outcome;
                     && o.requestedAt == StatusOf(st.history, zone).value.requestedAt && o.serial == serial
                     && o.startedAt == o.finishedAt == finishedAt
                     && forall a :: a in actions && a.Progressed? ==> Shows(o, a.report))
  {
    var zone := st.tasks[id].zone;
    var requestedAt := StatusOf(st.history, zone).value.requestedAt;
    var all := TrackRun(st, actions, id, permits, capacity, requestedAt, serial, {});
    var before := Run(st, actions, permits, capacity);
    StepKeepsOk(before, Complete(id, finishedAt), permits, capacity);
    var status := StatusOf(before.history, zone);
    if status.Some? {
      var finished := FinishStatus(status.value, finishedAt).value;
      StatusAfterSet(before.history, zone, finished);
      assert forall r :: r in all ==> Holds(status.value.progress, r) && Shows(finished.outcome, r);
    }
  }
}
