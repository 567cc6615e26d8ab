/** The refresh timers of a zone maintainer: a list that `refresh_zone_at` keeps free of duplicates. */
module RefreshTimers {
  import opened Options
  import opened RefreshStates

  datatype ZoneId = ZoneId(name: string, zoneClass: nat)

  datatype Timer = Timer(zone: ZoneId, cause: Cause, deadline: Instant)

  /** Adding a timer: one that the zone has already stays if it is strictly earlier, else it is replaced. */
  function RefreshAt(ts: seq<Timer>, t: Timer): seq<Timer> {
    if ts == [] then [t]
    else if ts[0].zone == t.zone then (if ts[0].deadline < t.deadline then ts else [t] + ts[1..])
    else [ts[0]] + RefreshAt(ts[1..], t)
  }

  function Without(ts: seq<Timer>, i: nat): seq<Timer>
    requires i < |ts|
  {
    ts[..i] + ts[i + 1..]
  }

  predicate Has(ts: seq<Timer>, z: ZoneId) {
    exists t :: t in ts && t.zone == z
  }

  /** No zone has two timers. */
  predicate Unique(ts: seq<Timer>) {
    ts == [] || (!Has(ts[1..], ts[0].zone) && Unique(ts[1..]))
  }

  /** When the zone's first timer in the list is due. */
  function Deadline(ts: seq<Timer>, z: ZoneId): Option<Instant> {
    if ts == [] then None
    else if ts[0].zone == z then Some(ts[0].deadline)
    else Deadline(ts[1..], z)
  }

  function Min(a: Option<Instant>, b: Instant): Option<Instant> {
    if a.Some? && a.value < b then a else Some(b)
  }

  lemma RefreshAtPast(ts: seq<Timer>, i: nat, t: Timer)
    requires i < |ts| && ts[i].zone != t.zone
    ensures ts[..i] + RefreshAt(ts[i..], t) == ts[..i + 1] + RefreshAt(ts[i + 1..], t)
  {
    assert ts[i..][1..] == ts[i + 1..];
    assert ts[..i + 1] == ts[..i] + [ts[i]];
  }

  lemma RefreshAtFound(ts: seq<Timer>, i: nat, t: Timer)
    requires i < |ts| && ts[i].zone == t.zone
    ensures ts[..i] + RefreshAt(ts[i..], t) == if ts[i].deadline < t.deadline then ts else ts[i := t]
  {
    assert ts[i..][1..] == ts[i + 1..];
    assert ts[i := t] == ts[..i] + ([t] + ts[i + 1..]);
  }

  /** The search for the zone's timer, and what it leads to. */
  method AddTimer(refreshTimers: seq<Timer>, newTimer: Timer) returns (updated: seq<Timer>)
    ensures updated == RefreshAt(refreshTimers, newTimer)
  {
    var i := 0;
    while i < |refreshTimers| && refreshTimers[i].zone != newTimer.zone
      invariant 0 <= i <= |refreshTimers|
      invariant RefreshAt(refreshTimers, newTimer) == refreshTimers[..i] + RefreshAt(refreshTimers[i..], newTimer)
    {
      RefreshAtPast(refreshTimers, i, newTimer);
      i := i + 1;
    }
    if i == |refreshTimers| {
      return refreshTimers + [newTimer];
    }
    RefreshAtFound(refreshTimers, i, newTimer);
    if refreshTimers[i].deadline < newTimer.deadline {
      return refreshTimers;
    }
    return refreshTimers[i := newTimer];
  }

  lemma {:induction false} DeadlineHas(ts: seq<Timer>, z: ZoneId)
    ensures Deadline(ts, z).Some? <==> Has(ts, z)
  {
    if ts != [] {
      assert ts == [ts[0]] + ts[1..];
      DeadlineHas(ts[1..], z);
      if ts[0].zone == z {
        assert ts[0] in ts;
      }
    }
  }

  lemma {:induction false} RefreshAtKeeps(ts: seq<Timer>, t: Timer, z: ZoneId)
    requires Unique(ts)
    ensures Unique(RefreshAt(ts, t))
    ensures Has(RefreshAt(ts, t), z) <==> Has(ts, z) || z == t.zone
    ensures Deadline(RefreshAt(ts, t), z) == if z == t.zone then Min(Deadline(ts, z), t.deadline) else Deadline(ts, z)
  {
    DeadlineHas(RefreshAt(ts, t), z);
    DeadlineHas(ts, z);
    if ts == [] {
    } else if ts[0].zone == t.zone {
      assert ([t] + ts[1..])[1..] == ts[1..];
    } else {
      RefreshAtKeeps(ts[1..], t, z);
      RefreshAtKeeps(ts[1..], t, ts[0].zone);
      assert RefreshAt(ts, t)[1..] == RefreshAt(ts[1..], t);
    }
  }

  lemma {:induction false} FiringKeeps(ts: seq<Timer>, i: nat, z: ZoneId)
    requires Unique(ts) && i < |ts|
    ensures Unique(Without(ts, i))
    ensures Has(Without(ts, i), z) <==> Has(ts, z) && z != ts[i].zone
    ensures Deadline(Without(ts, i), z) == if z == ts[i].zone then None else Deadline(ts, z)
  {
    DeadlineHas(Without(ts, i), z);
    DeadlineHas(ts, z);
    if i == 0 {
      assert Without(ts, 0) == ts[1..];
      DeadlineHas(ts[1..], z);
    } else {
      FiringKeeps(ts[1..], i - 1, z);
      FiringKeeps(ts[1..], i - 1, ts[0].zone);
      assert ts[1..][i - 1] == ts[i];
      assert Without(ts, i)[0] == ts[0] && Without(ts, i)[1..] == Without(ts[1..], i - 1);
      assert ts[i] in ts[1..];
    }
  }

  //// Runs of requests and firings ////

  datatype Op = Request(timer: Timer) | Fire(zone: ZoneId)

  function IndexOf(ts: seq<Timer>, z: ZoneId): (i: nat)
    requires Has(ts, z)
    ensures i < |ts| && ts[i].zone == z
  {
    if ts[0].zone == z then 0 else 1 + IndexOf(ts[1..], z)
  }

  /** The timers after a run; a zone without a timer does not fire. */
  function After(ops: seq<Op>): seq<Timer> {
    if ops == [] then []
    else
      var ts := After(ops[..|ops| - 1]);
      match ops[|ops| - 1]
      case Request(t) => RefreshAt(ts, t)
      case Fire(z) => if Has(ts, z) then Without(ts, IndexOf(ts, z)) else ts
  }

  /** The earliest instant requested for a zone since its timer last fired. */
  function EarliestSinceFired(ops: seq<Op>, z: ZoneId): Option<Instant> {
    if ops == [] then None
    else
      var earlier := EarliestSinceFired(ops[..|ops| - 1], z);
      match ops[|ops| - 1]
      case Request(t) => if t.zone == z then Min(earlier, t.deadline) else earlier
      case Fire(f) => if f == z then None else earlier
  }

  /** After any run, every zone has at most one timer, due at the earliest instant requested for it
      since its timer last fired; and it has none if nothing was requested since. */
  lemma {:induction false} TimersAreEarliest(ops: seq<Op>, z: ZoneId)
    ensures Unique(After(ops)) && Deadline(After(ops), z) == EarliestSinceFired(ops, z)
  {
    if ops != [] {
      var before := ops[..|ops| - 1];
      TimersAreEarliest(before, z);
      var ts := After(before);
      match ops[|ops| - 1]
      case Request(t) => RefreshAtKeeps(ts, t, z);
      case Fire(f) =>
        DeadlineHas(ts, z);
        if Has(ts, f) {
          FiringKeeps(ts, IndexOf(ts, f), z);
        }
    }
  }

  //// Which request a timer carries out ////

  /** The zone's first timer in the list. */
  function TimerOf(ts: seq<Timer>, z: ZoneId): (r: Option<Timer>)
    ensures r.Some? ==> r.value in ts && r.value.zone == z
  {
    if ts == [] then None
    else if ts[0].zone == z then Some(ts[0])
    else TimerOf(ts[1..], z)
  }

  /** The earlier of two requests, the later made one if they are due at once. */
  function Earlier(a: Option<Timer>, b: Timer): Option<Timer> {
    if a.Some? && a.value.deadline < b.deadline then a else Some(b)
  }

  /** Of the requests for a zone since its timer last fired, the one to be carried out. */
  function RequestToCarryOut(ops: seq<Op>, z: ZoneId): Option<Timer> {
    if ops == [] then None
    else
      var earlier := RequestToCarryOut(ops[..|ops| - 1], z);
      match ops[|ops| - 1]
      case Request(t) => if t.zone == z then Earlier(earlier, t) else earlier
      case Fire(f) => if f == z then None else earlier
  }

  lemma {:induction false} RefreshAtTimer(ts: seq<Timer>, t: Timer, z: ZoneId)
    ensures TimerOf(RefreshAt(ts, t), z) == if z == t.zone then Earlier(TimerOf(ts, z), t) else TimerOf(ts, z)
  {
    if ts != [] && ts[0].zone != t.zone {
      RefreshAtTimer(ts[1..], t, z);
    }
  }

  lemma {:induction false} NoTimer(ts: seq<Timer>, z: ZoneId)
    ensures TimerOf(ts, z).None? <==> !Has(ts, z)
  {
    if ts != [] {
      NoTimer(ts[1..], z);
      assert ts == [ts[0]] + ts[1..];
      assert ts[0] in ts;
    }
  }

  lemma {:induction false} FiringTimer(ts: seq<Timer>, i: nat, z: ZoneId)
    requires Unique(ts) && i < |ts|
    ensures TimerOf(Without(ts, i), z) == if z == ts[i].zone then None else TimerOf(ts, z)
  {
    if i == 0 {
      assert Without(ts, 0) == ts[1..];
      NoTimer(ts[1..], z);
    } else {
      FiringTimer(ts[1..], i - 1, z);
      assert ts[1..][i - 1] == ts[i] && ts[i] in ts[1..];
      assert Without(ts, i)[0] == ts[0] && Without(ts, i)[1..] == Without(ts[1..], i - 1);
    }
  }

  /** After any run, the timer of a zone is the earliest request made for it since its timer last fired, with the
      cause of that request, and of requests due at once the last. */
  lemma {:induction false} TimersCarryOutRequests(ops: seq<Op>, z: ZoneId)
    ensures TimerOf(After(ops), z) == RequestToCarryOut(ops, z)
  {
    if ops != [] {
      var before := ops[..|ops| - 1];
      TimersCarryOutRequests(before, z);
      TimersAreEarliest(before, z);
      var ts := After(before);
      match ops[|ops| - 1]
      case Request(t) => RefreshAtTimer(ts, t, z);
      case Fire(f) =>
        NoTimer(ts, z);
        if Has(ts, f) {
          FiringTimer(ts, IndexOf(ts, f), z);
        }
    }
  }
}
