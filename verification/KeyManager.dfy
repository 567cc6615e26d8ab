/** The key manager's tick: it watches each zone's key state file and runs `cron` on it when due. */
module KeyManager {
  import opened Options
  import Payload

  const CRON_MAX_RETRIES: nat := 5
  const CRON_RETRY_DELAY: nat := 60

  /** What is read from a key state file: when it was modified, and when cron is next due. */
  datatype File = File(modified: nat, cronNext: Option<nat>)

  datatype KeySetInfo = KeySetInfo(modified: nat, cronNext: Option<nat>, retries: nat)

  datatype Cron = NotInvoked | Failed | Succeeded

  /**
   What one tick finds for a zone.  The file may change at any time, so that each look at it is its own:
   the modification time, the content read if it has changed, and the content read twice after a
   successful cron.
   */
  datatype Look = Look(present: bool, modified: nat, changed: File, now: nat, cron: Cron, after: File, afterAgain: File)

  datatype Ticked = Ticked(info: Option<KeySetInfo>, cronRuns: nat, resigned: nat)

  function InfoOf(file: File): KeySetInfo {
    KeySetInfo(file.modified, file.cronNext, 0)
  }

  function GivenUp(info: KeySetInfo): KeySetInfo {
    KeySetInfo(info.modified, None, 0)
  }

  function RunCron(info: KeySetInfo, look: Look): Ticked
    requires info.cronNext.Some?
  {
    if !look.cron.Succeeded? then
      Ticked(Some(GivenUp(info)), 1, 0)
    else if look.after.modified != info.modified then
      Ticked(Some(InfoOf(look.afterAgain)), 1, 1)
    else if info.retries + 1 >= CRON_MAX_RETRIES then
      Ticked(Some(GivenUp(info)), 1, 0)
    else
      Ticked(Some(KeySetInfo(info.modified, Some(info.cronNext.value + CRON_RETRY_DELAY), info.retries + 1)), 1, 0)
  }

  /** One tick for one zone. */
  function TickZone(info: Option<KeySetInfo>, look: Look): Ticked {
    if !look.present then Ticked(info, 0, 0)
    else
      match info
      case None => Ticked(Some(InfoOf(look.changed)), 0, 0)
      case Some(known) =>
        if look.modified != known.modified then Ticked(Some(InfoOf(look.changed)), 0, 1)
        else if known.cronNext.Some? && known.cronNext.value < look.now then RunCron(known, look)
        else Ticked(info, 0, 0)
  }

  function Lookup(infos: map<string, KeySetInfo>, zone: string): Option<KeySetInfo> {
    if zone in infos then Some(infos[zone]) else None
  }

  predicate Distinct(zones: seq<string>) {
    forall i, j :: 0 <= i < j < |zones| ==> zones[i] != zones[j]
  }

  /** The zones that a tick runs cron for, in order. */
  function CronRuns(infos: map<string, KeySetInfo>, zones: seq<string>, looks: seq<Look>): seq<string>
    requires |zones| == |looks|
  {
    if zones == [] then []
    else
      var n := |zones| - 1;
      CronRuns(infos, zones[..n], looks[..n])
      + if TickZone(Lookup(infos, zones[n]), looks[n]).cronRuns == 1 then [zones[n]] else []
  }

  /** The re-sign events of a tick, in the order of the zones. */
  function Resigns(infos: map<string, KeySetInfo>, zones: seq<string>, looks: seq<Look>): seq<Payload.Update>
    requires |zones| == |looks|
  {
    if zones == [] then []
    else
      var n := |zones| - 1;
      Resigns(infos, zones[..n], looks[..n])
      + if TickZone(Lookup(infos, zones[n]), looks[n]).resigned == 1 then [Payload.ResignZone(zones[n])] else []
  }

  class Manager {
    var ksInfo: map<string, KeySetInfo>
    var sent: seq<Payload.Update>
    /** The zones that cron was run for. */
    var cronRuns: seq<string>

    constructor ()
      ensures ksInfo == map[] && sent == [] && cronRuns == []
    {
      ksInfo, sent, cronRuns := map[], [], [];
    }

    /** Each zone is ticked once, by itself. */
    method Tick(zones: seq<string>, looks: seq<Look>)
      requires |zones| == |looks| && Distinct(zones)
      modifies this
      ensures forall i :: 0 <= i < |zones| ==>
                Lookup(ksInfo, zones[i]) == TickZone(Lookup(old(ksInfo), zones[i]), looks[i]).info
      ensures forall z :: z !in zones ==> Lookup(ksInfo, z) == Lookup(old(ksInfo), z)
      ensures sent == old(sent) + Resigns(old(ksInfo), zones, looks)
      ensures cronRuns == old(cronRuns) + CronRuns(old(ksInfo), zones, looks)
    {
      var i := 0;
      assert old(sent) + Resigns(ksInfo, zones[..0], looks[..0]) == sent;
      assert old(cronRuns) + CronRuns(ksInfo, zones[..0], looks[..0]) == cronRuns;
      while i < |zones|
        invariant 0 <= i <= |zones|
        invariant forall j :: 0 <= j < i ==>
                    Lookup(ksInfo, zones[j]) == TickZone(Lookup(old(ksInfo), zones[j]), looks[j]).info
        invariant forall z :: z !in zones[..i] ==> Lookup(ksInfo, z) == Lookup(old(ksInfo), z)
        invariant sent == old(sent) + Resigns(old(ksInfo), zones[..i], looks[..i])
        invariant cronRuns == old(cronRuns) + CronRuns(old(ksInfo), zones[..i], looks[..i])
      {
        assert zones[..i + 1][..i] == zones[..i] && looks[..i + 1][..i] == looks[..i];
        var zone, look := zones[i], looks[i];
        assert zone !in zones[..i];
        TickOne(zone, look);
        i := i + 1;
      }
      assert zones[..i] == zones && looks[..i] == looks;
    }

    method TickOne(zone: string, look: Look)
      modifies this
      ensures Lookup(ksInfo, zone) == TickZone(Lookup(old(ksInfo), zone), look).info
      ensures forall z :: z != zone ==> Lookup(ksInfo, z) == Lookup(old(ksInfo), z)
      ensures sent == old(sent) +
                if TickZone(Lookup(old(ksInfo), zone), look).resigned == 1 then [Payload.ResignZone(zone)] else []
      ensures cronRuns == old(cronRuns) +
                if TickZone(Lookup(old(ksInfo), zone), look).cronRuns == 1 then [zone] else []
    {
      if !look.present {
        return;
      }
      if zone !in ksInfo {
        ksInfo := ksInfo[zone := InfoOf(look.changed)];
        return;
      }
      var info := ksInfo[zone];
      if look.modified != info.modified {
        ksInfo := ksInfo[zone := InfoOf(look.changed)];
        sent := sent + [Payload.ResignZone(zone)];
        return;
      }
      if info.cronNext.None? {
        return;
      }
      var cronNext := info.cronNext.value;
      if cronNext < look.now {
        cronRuns := cronRuns + [zone];
        match look.cron {
          case NotInvoked =>
            ksInfo := ksInfo[zone := KeySetInfo(info.modified, None, 0)];
          case Succeeded =>
            if look.after.modified != info.modified {
              ksInfo := ksInfo[zone := InfoOf(look.afterAgain)];
              sent := sent + [Payload.ResignZone(zone)];
              return;
            }
            var newInfo := KeySetInfo(info.modified, Some(cronNext + CRON_RETRY_DELAY), info.retries + 1);
            if newInfo.retries >= CRON_MAX_RETRIES {
              newInfo := KeySetInfo(info.modified, None, 0);
            }
            ksInfo := ksInfo[zone := newInfo];
          case Failed =>
            ksInfo := ksInfo[zone := KeySetInfo(info.modified, None, 0)];
        }
      }
    }
  }

  //// Runs of one zone ////

  /** The zone's entry after a run of ticks, the cron runs started and the re-sign events sent. */
  function Run(info: Option<KeySetInfo>, looks: seq<Look>): Ticked
    decreases |looks|
  {
    if looks == [] then Ticked(info, 0, 0)
    else
      var first := TickZone(info, looks[0]);
      var rest := Run(first.info, looks[1..]);
      Ticked(rest.info, first.cronRuns + rest.cronRuns, first.resigned + rest.resigned)
  }

  predicate RetriesOk(info: Option<KeySetInfo>) {
    info.Some? ==> info.value.retries < CRON_MAX_RETRIES
  }

  lemma {:induction false} RetriesStayBelowFive(info: Option<KeySetInfo>, looks: seq<Look>)
    requires RetriesOk(info)
    ensures RetriesOk(Run(info, looks).info)
    decreases |looks|
  {
    if looks != [] {
      RetriesStayBelowFive(TickZone(info, looks[0]).info, looks[1..]);
    }
  }

  /** Every look at the file finds the same. */
  predicate Steady(looks: seq<Look>, file: File) {
    forall l :: l in looks && l.present ==>
      l.modified == file.modified && l.changed == file && l.after == file && l.afterAgain == file
  }

  /** How many cron runs an entry still allows while its file stays as it is. */
  function Allowance(info: Option<KeySetInfo>, file: File): nat
    requires RetriesOk(info)
  {
    match info
    case None => CRON_MAX_RETRIES
    case Some(known) =>
      if known.modified != file.modified then CRON_MAX_RETRIES
      else if known.cronNext.None? then 0
      else CRON_MAX_RETRIES - known.retries
  }

  lemma {:induction false} CronRunsAreAllowed(info: Option<KeySetInfo>, looks: seq<Look>, file: File)
    requires RetriesOk(info) && Steady(looks, file)
    ensures RetriesOk(Run(info, looks).info)
    ensures Run(info, looks).cronRuns + Allowance(Run(info, looks).info, file) <= Allowance(info, file)
    decreases |looks|
  {
    if looks != [] {
      assert looks[0] in looks && forall l :: l in looks[1..] ==> l in looks;
      var first := TickZone(info, looks[0]);
      assert first.cronRuns + Allowance(first.info, file) <= Allowance(info, file);
      CronRunsAreAllowed(first.info, looks[1..], file);
    }
  }

  lemma {:induction false} Concat(info: Option<KeySetInfo>, a: seq<Look>, b: seq<Look>)
    ensures Run(info, a + b).info == Run(Run(info, a).info, b).info
    ensures Run(info, a + b).cronRuns == Run(info, a).cronRuns + Run(Run(info, a).info, b).cronRuns
    decreases |a|
  {
    if a == [] {
      assert a + b == b;
    } else {
      assert (a + b)[0] == a[0] && (a + b)[1..] == a[1..] + b;
      Concat(TickZone(info, a[0]).info, a[1..], b);
    }
  }

  /** Whatever happened before, at most five cron runs are started for a zone while its key state file stays
      the same. */
  lemma AtMostFiveCronRuns(before: seq<Look>, looks: seq<Look>, file: File)
    requires Steady(looks, file)
    ensures Run(None, before + looks).cronRuns <= Run(None, before).cronRuns + CRON_MAX_RETRIES
  {
    RetriesStayBelowFive(None, before);
    CronRunsAreAllowed(Run(None, before).info, looks, file);
    Concat(None, before, looks);
  }

  /** Every look finds cron due, even if retried, and cron succeeds without changing the file. */
  predicate AlwaysDue(looks: seq<Look>, due: nat) {
    forall l :: l in looks ==> l.present && l.cron.Succeeded? && due + CRON_MAX_RETRIES * CRON_RETRY_DELAY < l.now
  }

  /** Five is what it comes to if cron keeps succeeding without effect; then cron is not run again. */
  lemma {:induction false} CronRunsToTheLimit(info: KeySetInfo, looks: seq<Look>, file: File)
    requires Steady(looks, file) && file.cronNext.Some? && AlwaysDue(looks, file.cronNext.value)
    requires info.modified == file.modified && info.retries < CRON_MAX_RETRIES
    requires info.cronNext == Some(file.cronNext.value + info.retries * CRON_RETRY_DELAY)
    requires |looks| >= CRON_MAX_RETRIES - info.retries
    ensures Run(Some(info), looks).cronRuns == CRON_MAX_RETRIES - info.retries
    ensures Run(Some(info), looks).info == Some(GivenUp(info))
    decreases |looks|
  {
    assert looks[0] in looks && forall l :: l in looks[1..] ==> l in looks;
    var first := TickZone(Some(info), looks[0]);
    assert first == RunCron(info, looks[0]);
    if info.retries + 1 < CRON_MAX_RETRIES {
      CronRunsToTheLimit(first.info.value, looks[1..], file);
    } else {
      NoCronWithoutTime(GivenUp(info), looks[1..], file);
    }
  }

  lemma {:induction false} NoCronWithoutTime(info: KeySetInfo, looks: seq<Look>, file: File)
    requires Steady(looks, file) && info.modified == file.modified && info.cronNext.None?
    ensures Run(Some(info), looks) == Ticked(Some(info), 0, 0)
    decreases |looks|
  {
    if looks != [] {
      assert looks[0] in looks && forall l :: l in looks[1..] ==> l in looks;
      NoCronWithoutTime(info, looks[1..], file);
    }
  }

  //// When cron is run ////

  /** In this tick the zone's file is found anew: the zone or this modification time was not known, or cron has just
      changed it. */
  predicate Finds(info: Option<KeySetInfo>, look: Look, file: File) {
    && look.present
    && (if info.None? || look.modified != info.value.modified then look.changed == file
        else
          && TickZone(info, look).cronRuns == 1
          && look.cron.Succeeded? && look.after.modified != info.value.modified && look.afterAgain == file)
  }

  /** Every cron that a run started succeeded. */
  predicate CronSucceeds(info: Option<KeySetInfo>, looks: seq<Look>)
    decreases |looks|
  {
    looks == [] ||
    var first := TickZone(info, looks[0]);
    (first.cronRuns > 0 ==> looks[0].cron.Succeeded?) && CronSucceeds(first.info, looks[1..])
  }

  /** The entry for a file that stays as it is, after so many cron runs. */
  function EntryAfter(file: File, runs: nat, succeeded: bool): KeySetInfo {
    if file.cronNext.Some? && succeeded && runs < CRON_MAX_RETRIES then
      KeySetInfo(file.modified, Some(file.cronNext.value + runs * CRON_RETRY_DELAY), runs)
    else
      KeySetInfo(file.modified, None, 0)
  }

  lemma {:induction false} EntryFollowsRuns(file: File, runs: nat, succeeded: bool, looks: seq<Look>)
    requires Steady(looks, file)
    ensures var (info, run) := (EntryAfter(file, runs, succeeded), Run(Some(EntryAfter(file, runs, succeeded)), looks));
            run.info == Some(EntryAfter(file, runs + run.cronRuns, succeeded && CronSucceeds(Some(info), looks)))
    decreases |looks|
  {
    if looks != [] {
      assert looks[0] in looks && forall l :: l in looks[1..] ==> l in looks;
      var info := EntryAfter(file, runs, succeeded);
      var first := TickZone(Some(info), looks[0]);
      var next := succeeded && (first.cronRuns > 0 ==> looks[0].cron.Succeeded?);
      assert first.info == Some(EntryAfter(file, runs + first.cronRuns, next));
      EntryFollowsRuns(file, runs + first.cronRuns, next, looks[1..]);
    }
  }

  /**
   Once a zone's file is found its time is recorded, and while it then stays as it is, a look at it runs cron exactly
   if the file names a time, fewer than five crons were run since and all of them succeeded, and it is later than
   that time, put off by a minute for each.
   */
  lemma CronRunsIffDue(info: Option<KeySetInfo>, found: Look, looks: seq<Look>, last: Look, file: File)
    requires Finds(info, found, file) && Steady(looks + [last], file)
    ensures var known := TickZone(info, found).info;
            var soFar := Run(known, looks);
            && known == Some(KeySetInfo(file.modified, file.cronNext, 0))
            && TickZone(soFar.info, last).cronRuns <= 1
            && (TickZone(soFar.info, last).cronRuns == 1 <==>
                  && last.present && file.cronNext.Some?
                  && soFar.cronRuns < CRON_MAX_RETRIES && CronSucceeds(known, looks)
                  && file.cronNext.value + soFar.cronRuns * CRON_RETRY_DELAY < last.now)
  {
    var known := TickZone(info, found).info;
    assert known == Some(EntryAfter(file, 0, true));
    assert forall l :: l in looks ==> l in looks + [last];
    assert last in looks + [last];
    EntryFollowsRuns(file, 0, true, looks);
  }

  //// Re-signing ////

  /** How often the recorded modification time of a zone changes in a run. */
  function Changes(info: Option<KeySetInfo>, looks: seq<Look>): nat
    decreases |looks|
  {
    if looks == [] then 0
    else
      var next := TickZone(info, looks[0]).info;
      (if info.Some? && next.Some? && next.value.modified != info.value.modified then 1 else 0)
      + Changes(next, looks[1..])
  }

  /** The modification time does not go back between two looks at the file in one tick, nor behind what is on
      record. */
  predicate Forward(info: Option<KeySetInfo>, looks: seq<Look>)
    decreases |looks|
  {
    looks == [] ||
    var l := looks[0];
    && (l.present && info.Some? ==> info.value.modified <= l.modified <= l.changed.modified)
    && (l.present ==> l.modified <= l.after.modified <= l.afterAgain.modified)
    && Forward(TickZone(info, l).info, looks[1..])
  }

  /** Every change of the recorded modification time sends a re-sign event, and exactly one if modification
      times do not go back; an event is sent only for a difference that was seen. */
  lemma {:induction false} ChangesResign(info: Option<KeySetInfo>, looks: seq<Look>)
    ensures Changes(info, looks) <= Run(info, looks).resigned
    ensures Forward(info, looks) ==> Changes(info, looks) == Run(info, looks).resigned
    decreases |looks|
  {
    if looks != [] {
      ChangesResign(TickZone(info, looks[0]).info, looks[1..]);
    }
  }

  /** One tick sends one event at most, and only if a look at the file found another modification time than
      the recorded one. */
  lemma ResignsOnlyIfChanged(info: Option<KeySetInfo>, look: Look)
    ensures var ticked := TickZone(info, look);
            && ticked.resigned <= 1
            && (ticked.resigned == 1 <==>
                  && look.present && info.Some?
                  && (look.modified != info.value.modified
                      || (ticked.cronRuns == 1 && look.cron.Succeeded? && look.after.modified != info.value.modified)))
  {
    if look.present && info.Some? && look.modified == info.value.modified {
      assert TickZone(info, look) == Ticked(info, 0, 0) || TickZone(info, look) == RunCron(info.value, look);
    }
  }
}
