/** What a refresh comes to, told from the answers of the primaries alone. */
module RefreshAnswers {
  import opened Options
  import opened Serials
  import opened RefreshZone

  //// Who is ahead ////

  /** Counting on from the zone's version, by less than 2^31, leads to the primary's. */
  ghost predicate Ahead(current: Option<Serial>, primary: Serial) {
    current.None? || exists m: int, n: int :: m < n < m + TWO31 && Wrap(m) == current.value && Wrap(n) == primary
  }

  lemma AheadIsBefore(current: Serial, primary: Serial)
    ensures Ahead(Some(current), primary) <==> Before(current, primary)
  {
    if Before(current, primary) {
      var n := if current < primary then primary else primary + TWO32;
      assert Wrap(current) == current && Wrap(n) == primary;
    } else {
      forall m: int, n: int | m < n < m + TWO31 && Wrap(m) == current && Wrap(n) == primary ensures false {
        BeforeInWindow(m, n);
      }
    }
  }

  /** A primary that answers counts as newer exactly if it is ahead of the zone, around 2^32: for it the check
      records its serial, for any other the visit ends with nothing new and no transfer. */
  lemma SerialsDecide(v: Visit, cfg: XfrConfig, m: int, n: int)
    requires -TWO31 < n - m < TWO31 && v.script.soa == PrimarySerial(Wrap(n))
    ensures FromAddr(v, cfg, Some(Wrap(m))) == (Done(None), [SerialChecked(None)]) <==> n <= m
    ensures n > m ==> FromAddr(v, cfg, Some(Wrap(m))).1[..1] == [SerialChecked(Some(Wrap(n)))]
    ensures FromAddr(v, cfg, None).1[..1] == [SerialChecked(Some(Wrap(n)))]
  {
    BeforeInWindow(m, n);
    assert n > m ==> FromAddr(v, cfg, Some(Wrap(m))).1[0] == SerialChecked(Some(Wrap(n)));
  }

  //// Which transfers are tried ////

  /** The `i`th transfer, counted from 0, is tried, and of this kind. */
  predicate Tried(cfg: XfrConfig, current: Option<Serial>, xfrs: nat -> XfrAnswer, i: nat, kind: XfrKind) {
    var incremental := cfg.strategy == IxfrOnly || (cfg.strategy == IxfrWithAxfrFallback && current.Some?);
    match (i, kind)
    case (0, Axfr) => cfg.strategy == AxfrOnly || (cfg.strategy == IxfrWithAxfrFallback && current.None?)
    case (0, Ixfr) => incremental && cfg.ixfrTransport != NoTransport
    case (1, Axfr) =>
      && cfg.strategy == IxfrWithAxfrFallback && current.Some?
      && (cfg.ixfrTransport == NoTransport || xfrs(0) == Refused(NotImplemented))
    case (1, Ixfr) =>
      cfg.strategy == IxfrOnly && cfg.ixfrTransport != NoTransport && xfrs(0) == Refused(NotImplemented)
    case _ => false
  }

  /** What one transfer that is tried comes to: it decides the visit, unless it is an incremental one that the
      primary does not implement. */
  function Decides(answer: XfrAnswer, kind: XfrKind): Option<Outcome> {
    match answer
    case Received(soa) => Some(Done(Some(soa)))
    case NotSent(error) => Some(Failed(error))
    case Refused(error) => if kind == Ixfr && error == NotImplemented then None else Some(Failed(error))
  }

  /** A transfer from this primary leaves this SOA in the zone. */
  ghost predicate Fetches(v: Visit, cfg: XfrConfig, current: Option<Serial>, soa: Soa) {
    && v.script.soa.PrimarySerial? && Ahead(current, v.script.soa.serial)
    && exists i: nat, kind ::
         Tried(cfg, current, v.script.xfrs, i, kind) && Decides(v.script.xfrs(i), kind) == Some(Done(Some(soa)))
  }

  /** The SOA query or a transfer ends the visit with this error. */
  ghost predicate Breaks(v: Visit, cfg: XfrConfig, current: Option<Serial>, error: Error) {
    match v.script.soa
    case NoAnswer(e) => e == error
    case PrimarySerial(serial) =>
      && Ahead(current, serial)
      && exists i: nat, kind ::
           Tried(cfg, current, v.script.xfrs, i, kind) && Decides(v.script.xfrs(i), kind) == Some(Failed(error))
  }

  /** The primary sees a request of this kind over this transport. */
  ghost predicate IsAsked(v: Visit, cfg: XfrConfig, current: Option<Serial>, kind: XfrKind, transport: Transport) {
    && v.script.soa.PrimarySerial? && Ahead(current, v.script.soa.serial)
    && transport == (if kind == Axfr then Tcp else cfg.ixfrTransport)
    && exists i: nat :: Tried(cfg, current, v.script.xfrs, i, kind) && !v.script.xfrs(i).NotSent?
  }

  //// One visit ////

  /** A transfer that is tried is the `i`th, and what it decides is the outcome; if none is tried, or none
      decides, there is nothing new. */
  lemma TransfersDecide(addr: Addr, cfg: XfrConfig, current: Option<Serial>, xfrs: nat -> XfrAnswer)
    ensures var outcome := Transfers(addr, cfg, current, xfrs, 0).0;
            && (forall i: nat, kind :: Tried(cfg, current, xfrs, i, kind) && Decides(xfrs(i), kind).Some? ==>
                  Decides(xfrs(i), kind) == Some(outcome))
            && (outcome == Done(None)
                || exists i: nat, kind :: Tried(cfg, current, xfrs, i, kind) && Decides(xfrs(i), kind) == Some(outcome))
  {
    assert Transfers(addr, cfg, current, xfrs, 2) == (Done(None), []);
    var outcome := Transfers(addr, cfg, current, xfrs, 0).0;
    if cfg.strategy != NoXfr {
      var kind0, kind1 := KindToTry(cfg.strategy, current, 0).value, KindToTry(cfg.strategy, current, 1).value;
      assert Tried(cfg, current, xfrs, 0, kind0) <==> kind0 == Axfr || cfg.ixfrTransport != NoTransport;
      if Tried(cfg, current, xfrs, 0, kind0) && Decides(xfrs(0), kind0).Some? {
        assert Decides(xfrs(0), kind0) == Some(outcome);
      } else {
        assert outcome == Transfers(addr, cfg, current, xfrs, 1).0;
        assert Tried(cfg, current, xfrs, 1, kind1) <==> kind1 == Axfr || cfg.ixfrTransport != NoTransport;
        if Tried(cfg, current, xfrs, 1, kind1) && Decides(xfrs(1), kind1).Some? {
          assert Decides(xfrs(1), kind1) == Some(outcome);
        }
      }
    }
  }

  lemma AskedOnce(addr: Addr, kind: XfrKind, transport: Transport, answer: XfrAnswer, e: Effect)
    ensures e.Requested? && e in XfrEffects(addr, kind, transport, answer) <==>
              !answer.NotSent? && e == Requested(addr, kind, transport)
    ensures e.Committed? && e in XfrEffects(addr, kind, transport, answer) <==>
              answer.Received? && e == Committed(answer.soa)
  {
  }

  lemma TransfersAsk(addr: Addr, cfg: XfrConfig, current: Option<Serial>, xfrs: nat -> XfrAnswer, e: Effect)
    ensures e.Requested? && e in Transfers(addr, cfg, current, xfrs, 0).1 <==>
              && e.Requested? && e.addr == addr && e.transport == (if e.kind == Axfr then Tcp else cfg.ixfrTransport)
              && exists i: nat :: Tried(cfg, current, xfrs, i, e.kind) && !xfrs(i).NotSent?
    ensures e.Committed? && e in Transfers(addr, cfg, current, xfrs, 0).1 <==>
              e.Committed? && Transfers(addr, cfg, current, xfrs, 0).0 == Done(Some(e.soa))
  {
    assert Transfers(addr, cfg, current, xfrs, 2) == (Done(None), []);
    if cfg.strategy != NoXfr {
      var kind0, kind1 := KindToTry(cfg.strategy, current, 0).value, KindToTry(cfg.strategy, current, 1).value;
      AskedOnce(addr, kind0, if kind0 == Axfr then Tcp else cfg.ixfrTransport, xfrs(0), e);
      AskedOnce(addr, kind1, if kind1 == Axfr then Tcp else cfg.ixfrTransport, xfrs(1), e);
      assert Tried(cfg, current, xfrs, 0, kind0) <==> kind0 == Axfr || cfg.ixfrTransport != NoTransport;
      assert Tried(cfg, current, xfrs, 1, kind1) <==>
               (kind1 == Axfr || cfg.ixfrTransport != NoTransport)
               && (Tried(cfg, current, xfrs, 0, kind0) ==> Decides(xfrs(0), kind0).None?);
    }
  }

  /** One visit, by the answers of the primary: it brings an SOA, fails, or finds nothing new; the requests that the
      primary sees; and an SOA is left in the zone exactly if it is brought. */
  lemma VisitByAnswers(v: Visit, cfg: XfrConfig, current: Option<Serial>)
    ensures var (outcome, effects) := FromAddr(v, cfg, current);
            && (forall soa :: outcome == Done(Some(soa)) <==> Fetches(v, cfg, current, soa))
            && (forall e :: outcome == Failed(e) <==> Breaks(v, cfg, current, e))
            && !outcome.Panicked?
            && (forall a, k, t :: Requested(a, k, t) in effects <==> a == v.addr && IsAsked(v, cfg, current, k, t))
            && (forall soa :: Committed(soa) in effects <==> outcome == Done(Some(soa)))
  {
    match v.script.soa {
      case NoAnswer(_) =>
      case PrimarySerial(serial) =>
        if current.Some? {
          AheadIsBefore(current.value, serial);
        }
        if Ahead(current, serial) {
          NewerByAnswers(v, cfg, current);
        }
    }
  }

  lemma NewerByAnswers(v: Visit, cfg: XfrConfig, current: Option<Serial>)
    requires v.script.soa.PrimarySerial? && Ahead(current, v.script.soa.serial)
    ensures var (outcome, effects) := FromAddr(v, cfg, current);
            && (forall soa :: outcome == Done(Some(soa)) <==> Fetches(v, cfg, current, soa))
            && (forall e :: outcome == Failed(e) <==> Breaks(v, cfg, current, e))
            && !outcome.Panicked?
            && (forall a, k, t :: Requested(a, k, t) in effects <==> a == v.addr && IsAsked(v, cfg, current, k, t))
            && (forall soa :: Committed(soa) in effects <==> outcome == Done(Some(soa)))
  {
    if current.Some? {
      AheadIsBefore(current.value, v.script.soa.serial);
    }
    var xfrs := v.script.xfrs;
    var (outcome, rest) := Transfers(v.addr, cfg, current, xfrs, 0);
    assert FromAddr(v, cfg, current) == (outcome, [SerialChecked(Some(v.script.soa.serial))] + rest);
    TransfersDecide(v.addr, cfg, current, xfrs);
    TransfersNeverPanic(v.addr, cfg, current, xfrs, 0);
    forall a, k, t
      ensures Requested(a, k, t) in FromAddr(v, cfg, current).1 <==> a == v.addr && IsAsked(v, cfg, current, k, t)
    {
      TransfersAsk(v.addr, cfg, current, xfrs, Requested(a, k, t));
    }
    forall soa ensures Committed(soa) in FromAddr(v, cfg, current).1 <==> outcome == Done(Some(soa)) {
      TransfersAsk(v.addr, cfg, current, xfrs, Committed(soa));
    }
  }

  //// All visits ////

  function CurrentOf(local: LocalSoa): Option<Serial> {
    if local.HasSoa? then Some(local.serial) else None
  }

  /** The first of the configured primaries visited that brings an SOA. */
  ghost predicate FirstToFetch(vs: seq<Visit>, k: nat, primaries: map<Addr, XfrConfig>, current: Option<Serial>,
                               soa: Soa) {
    && k < |vs| && vs[k].addr in primaries && Fetches(vs[k], primaries[vs[k].addr], current, soa)
    && forall j :: 0 <= j < k && vs[j].addr in primaries ==> NeverFetches(vs[j], primaries[vs[j].addr], current)
  }

  ghost predicate NeverFetches(v: Visit, cfg: XfrConfig, current: Option<Serial>) {
    forall soa :: !Fetches(v, cfg, current, soa)
  }

  /** Every configured primary visited fails, the last one with this error. */
  ghost predicate LastToBreak(vs: seq<Visit>, k: nat, primaries: map<Addr, XfrConfig>, current: Option<Serial>,
                              error: Error) {
    && k < |vs| && vs[k].addr in primaries && Breaks(vs[k], primaries[vs[k].addr], current, error)
    && (forall j :: k < j < |vs| ==> vs[j].addr !in primaries)
    && forall j :: 0 <= j < k && vs[j].addr in primaries ==> Fails(vs[j], primaries[vs[j].addr], current)
  }

  ghost predicate Fails(v: Visit, cfg: XfrConfig, current: Option<Serial>) {
    exists e :: Breaks(v, cfg, current, e)
  }

  lemma YieldsByAnswers(v: Visit, primaries: map<Addr, XfrConfig>, current: Option<Serial>)
    requires v.addr in primaries
    ensures Yields(v, primaries, current) <==> !NeverFetches(v, primaries[v.addr], current)
    ensures Fine(v, primaries, current) <==> !Fails(v, primaries[v.addr], current)
  {
    VisitByAnswers(v, primaries[v.addr], current);
    var outcome := FromAddr(v, primaries[v.addr], current).0;
    if outcome.Done? && outcome.soa.Some? {
      assert Fetches(v, primaries[v.addr], current, outcome.soa.value);
    } else if outcome.Failed? {
      assert Breaks(v, primaries[v.addr], current, outcome.error);
    }
  }

  lemma FetchedByFirst(vs: seq<Visit>, primaries: map<Addr, XfrConfig>, current: Option<Serial>, soa: Soa)
    ensures Visits(vs, primaries, current, false, None).0 == Done(Some(soa)) <==>
              exists k :: FirstToFetch(vs, k, primaries, current, soa)
  {
    forall k | FirstToFetch(vs, k, primaries, current, soa)
      ensures Visits(vs, primaries, current, false, None).0 == Done(Some(soa))
    {
      IsFirst(vs, k, primaries, current, soa);
    }
    VisitsOutcome(vs, primaries, current, false, None);
    if Visits(vs, primaries, current, false, None).0 == Done(Some(soa)) {
      var k := FirstYield(vs, primaries, current);
      StopsAtFirstYield(vs, k, primaries, current, false, None);
      VisitByAnswers(vs[k], primaries[vs[k].addr], current);
      forall j | 0 <= j < k && vs[j].addr in primaries
        ensures NeverFetches(vs[j], primaries[vs[j].addr], current)
      {
        YieldsByAnswers(vs[j], primaries, current);
      }
      assert FirstToFetch(vs, k, primaries, current, soa);
    }
  }

  lemma IsFirst(vs: seq<Visit>, k: nat, primaries: map<Addr, XfrConfig>, current: Option<Serial>, soa: Soa)
    requires FirstToFetch(vs, k, primaries, current, soa)
    ensures Visits(vs, primaries, current, false, None).0 == Done(Some(soa))
  {
    forall j | 0 <= j < k ensures !Yields(vs[j], primaries, current) {
      if vs[j].addr in primaries {
        YieldsByAnswers(vs[j], primaries, current);
      }
    }
    VisitByAnswers(vs[k], primaries[vs[k].addr], current);
    StopsAtFirstYield(vs, k, primaries, current, false, None);
  }

  lemma {:induction false} FirstYield(vs: seq<Visit>, primaries: map<Addr, XfrConfig>, current: Option<Serial>)
    returns (k: nat)
    requires exists v :: v in vs && Yields(v, primaries, current)
    ensures k < |vs| && Yields(vs[k], primaries, current)
    ensures forall j :: 0 <= j < k ==> !Yields(vs[j], primaries, current)
  {
    FirstOrLater(vs, primaries, current);
    if Yields(vs[0], primaries, current) {
      k := 0;
    } else {
      var k' := FirstYield(vs[1..], primaries, current);
      k := k' + 1;
    }
  }

  /** Visits after which nothing but an error is known fail exactly if all do, with the last error. */
  lemma {:induction false} FailedByLast(vs: seq<Visit>, primaries: map<Addr, XfrConfig>, current: Option<Serial>,
                                        lastError: Option<Error>, error: Error)
    ensures Visits(vs, primaries, current, true, lastError).0 != Failed(error)
    ensures Visits(vs, primaries, current, false, lastError).0 == Failed(error) <==>
              (exists k :: LastToBreak(vs, k, primaries, current, error))
              || (lastError == Some(error) && forall v :: v in vs ==> v.addr !in primaries)
    decreases |vs|
  {
    if vs != [] {
      var v, rest := vs[0], vs[1..];
      assert vs == [v] + rest;
      if v.addr !in primaries {
        FailedByLast(rest, primaries, current, lastError, error);
        LaterBreak(vs, primaries, current, error);
      } else {
        VisitByAnswers(v, primaries[v.addr], current);
        YieldsByAnswers(v, primaries, current);
        LaterBreak(vs, primaries, current, error);
        match FromAddr(v, primaries[v.addr], current).0 {
          case Done(_) => FailedByLast(rest, primaries, current, lastError, error);
          case Failed(e) =>
            FailedByLast(rest, primaries, current, lastError, error);
            FailedByLast(rest, primaries, current, Some(e), error);
        }
      }
    }
  }

  /** Who is last to break, by the first visit and the others. */
  lemma LaterBreak(vs: seq<Visit>, primaries: map<Addr, XfrConfig>, current: Option<Serial>, error: Error)
    requires vs != []
    ensures (exists k :: LastToBreak(vs, k, primaries, current, error)) <==>
              || (&& (vs[0].addr in primaries ==> Fails(vs[0], primaries[vs[0].addr], current))
                  && exists k :: LastToBreak(vs[1..], k, primaries, current, error))
              || (&& vs[0].addr in primaries && Breaks(vs[0], primaries[vs[0].addr], current, error)
                  && forall v :: v in vs[1..] ==> v.addr !in primaries)
  {
    forall k: nat | k > 0
      ensures LastToBreak(vs, k, primaries, current, error) <==>
                && (vs[0].addr in primaries ==> Fails(vs[0], primaries[vs[0].addr], current))
                && LastToBreak(vs[1..], k - 1, primaries, current, error)
    {
      LaterByOne(vs, k, primaries, current, error);
    }
    assert LastToBreak(vs, 0, primaries, current, error) <==>
             && vs[0].addr in primaries && Breaks(vs[0], primaries[vs[0].addr], current, error)
             && forall v :: v in vs[1..] ==> v.addr !in primaries;
    forall k: nat | LastToBreak(vs[1..], k, primaries, current, error)
      && (vs[0].addr in primaries ==> Fails(vs[0], primaries[vs[0].addr], current))
      ensures LastToBreak(vs, k + 1, primaries, current, error)
    {
      LaterByOne(vs, k + 1, primaries, current, error);
    }
  }

  lemma LaterByOne(vs: seq<Visit>, k: nat, primaries: map<Addr, XfrConfig>, current: Option<Serial>, error: Error)
    requires vs != [] && k > 0
    ensures LastToBreak(vs, k, primaries, current, error) <==>
              && (vs[0].addr in primaries ==> Fails(vs[0], primaries[vs[0].addr], current))
              && LastToBreak(vs[1..], k - 1, primaries, current, error)
  {
    assert forall j :: 0 < j < |vs| ==> vs[1..][j - 1] == vs[j];
    assert forall j :: 0 <= j < |vs| - 1 ==> vs[j + 1] == vs[1..][j];
  }

  /** A whole refresh, by the answers of the primaries: it brings the SOA of the first primary, in the order of the
      visits, that is ahead of the zone and transfers it; it fails exactly if every configured primary fails, with
      the error of the last.  Nobody is asked if the zone's own SOA cannot be read. */
  lemma RefreshByAnswers(local: LocalSoa, vs: seq<Visit>, primaries: map<Addr, XfrConfig>)
    ensures local.OutOfZone? ==> Refresh(local, vs, primaries) == (Failed(ABSENT_SOA), [])
    ensures !local.OutOfZone? ==>
            var (outcome, current) := (Refresh(local, vs, primaries).0, CurrentOf(local));
            && (forall soa :: outcome == Done(Some(soa)) <==> exists k :: FirstToFetch(vs, k, primaries, current, soa))
            && (forall e :: outcome == Failed(e) <==> exists k :: LastToBreak(vs, k, primaries, current, e))
  {
    if local.OutOfZone? {
      return;
    }
    forall soa
      ensures Refresh(local, vs, primaries).0 == Done(Some(soa)) <==>
                exists k :: FirstToFetch(vs, k, primaries, CurrentOf(local), soa)
    {
      FetchedByFirst(vs, primaries, CurrentOf(local), soa);
    }
    forall e
      ensures Refresh(local, vs, primaries).0 == Failed(e) <==>
                exists k :: LastToBreak(vs, k, primaries, CurrentOf(local), e)
    {
      FailedByLast(vs, primaries, CurrentOf(local), None, e);
    }
  }

  //// Nothing newer ////

  lemma {:induction false} ChecksOnly(vs: seq<Visit>, primaries: map<Addr, XfrConfig>, current: Serial, someOk: bool,
                                      lastError: Option<Error>)
    requires forall v :: v in vs && v.script.soa.PrimarySerial? ==> !Ahead(Some(current), v.script.soa.serial)
    ensures var (outcome, effects) := Visits(vs, primaries, Some(current), someOk, lastError);
            !(outcome.Done? && outcome.soa.Some?) && forall e :: e in effects ==> e == SerialChecked(None)
    decreases |vs|
  {
    if vs != [] {
      var v := vs[0];
      assert v in vs && forall x :: x in vs[1..] ==> x in vs;
      if v.addr !in primaries {
        ChecksOnly(vs[1..], primaries, current, someOk, lastError);
      } else {
        if v.script.soa.PrimarySerial? {
          AheadIsBefore(current, v.script.soa.serial);
        }
        var outcome := FromAddr(v, primaries[v.addr], Some(current)).0;
        ChecksOnly(vs[1..], primaries, current, someOk || outcome.Done?,
                   if outcome.Failed? then Some(outcome.error) else lastError);
      }
    }
  }

  /** If no primary is ahead of the zone, a refresh transfers nothing and leaves the zone as it is: after reading
      the zone's SOA it records that checks succeeded, and no more. */
  lemma NothingOlderIsTransferred(current: Serial, vs: seq<Visit>, primaries: map<Addr, XfrConfig>)
    requires forall v :: v in vs && v.script.soa.PrimarySerial? ==> !Ahead(Some(current), v.script.soa.serial)
    ensures var (outcome, effects) := Refresh(HasSoa(current), vs, primaries);
            && !(outcome.Done? && outcome.soa.Some?)
            && effects[..1] == [SoaSeen] && forall e :: e in effects[1..] ==> e == SerialChecked(None)
  {
    ChecksOnly(vs, primaries, current, false, None);
    var rest := Visits(vs, primaries, Some(current), false, None).1;
    assert ([SoaSeen] + rest)[1..] == rest;
  }
}
