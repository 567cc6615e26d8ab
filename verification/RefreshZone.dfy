/**
 One refresh of a secondary zone: asking its primaries for a newer version, one after the other, by
 an SOA query and then by up to two transfers each.  The network and the zone's content are a
 `Script` of arbitrary answers.
 */
module RefreshZone {
  import opened Options
  import opened Serials

  type Addr = nat

  datatype Soa = Soa(serial: Serial, refresh: nat, retry: nat, expire: nat)

  datatype XfrStrategy = NoXfr | AxfrOnly | IxfrOnly | IxfrWithAxfrFallback

  datatype Transport = NoTransport | Udp | Tcp

  datatype XfrConfig = XfrConfig(strategy: XfrStrategy, ixfrTransport: Transport)

  datatype XfrKind = Axfr | Ixfr

  datatype Error = NotImplemented | OtherError(code: nat)

  /** `Panicked` is an `unwrap` of a missing error. */
  datatype Outcome = Done(soa: Option<Soa>) | Failed(error: Error) | Panicked

  /** What reading the zone's own SOA gives. */
  datatype LocalSoa = OutOfZone | NoSoa | HasSoa(serial: Serial)

  datatype SoaAnswer = PrimarySerial(serial: Serial) | NoAnswer(error: Error)

  /** The outcome of one transfer.  It can fail before it is sent: an incremental one, for instance,
      first reads the zone's SOA. */
  datatype XfrAnswer = Received(soa: Soa) | Refused(error: Error) | NotSent(error: Error)

  datatype Script = Script(soa: SoaAnswer, xfrs: nat -> XfrAnswer)

  datatype Visit = Visit(addr: Addr, script: Script)

  /** What a refresh does that others can see, in order. */
  datatype Effect =
    | SoaSeen                                // an SOA was read from the zone
    | SerialChecked(serial: Option<Serial>)  // an SOA query succeeded; `Some` if the serial is newer
    | Requested(addr: Addr, kind: XfrKind, transport: Transport)
    | Committed(soa: Soa)                    // a transfer completed and left this SOA in the zone

  const ABSENT_SOA: Error := OtherError(0)

  //// One primary ////

  predicate NewerAvailable(current: Option<Serial>, primary: Serial) {
    current.None? || Before(current.value, primary)
  }

  /** The kind of the `i`th transfer to try, if there is one to try. */
  function KindToTry(strategy: XfrStrategy, current: Option<Serial>, i: nat): Option<XfrKind> {
    match strategy
    case NoXfr => None
    case AxfrOnly => Some(Axfr)
    case IxfrOnly => Some(Ixfr)
    case IxfrWithAxfrFallback => Some(if i == 0 && current.Some? then Ixfr else Axfr)
  }

  /** What one transfer shows to others. */
  function XfrEffects(addr: Addr, kind: XfrKind, transport: Transport, answer: XfrAnswer): seq<Effect> {
    if answer.NotSent? then
      []
    else
      (if kind == Ixfr then [SoaSeen] else [])
      + [Requested(addr, kind, transport)]
      + (if answer.Received? then [Committed(answer.soa)] else [])
  }

  /** The transfers from the `i`th on, at most two in all. */
  function Transfers(addr: Addr, cfg: XfrConfig, current: Option<Serial>, xfrs: nat -> XfrAnswer, i: nat)
    : (Outcome, seq<Effect>)
    decreases 2 - i
  {
    if i >= 2 || cfg.strategy == NoXfr then
      (Done(None), [])
    else
      var kind := KindToTry(cfg.strategy, current, i).value;
      var transport := if kind == Axfr then Tcp else cfg.ixfrTransport;
      if transport == NoTransport then
        Transfers(addr, cfg, current, xfrs, i + 1)
      else
        var effects := XfrEffects(addr, kind, transport, xfrs(i));
        match xfrs(i)
        case Received(soa) => (Done(Some(soa)), effects)
        case Refused(error) =>
          if error == NotImplemented && kind == Ixfr then
            var (outcome, rest) := Transfers(addr, cfg, current, xfrs, i + 1);
            (outcome, effects + rest)
          else
            (Failed(error), effects)
        case NotSent(error) => (Failed(error), effects)
  }

  function FromAddr(v: Visit, cfg: XfrConfig, current: Option<Serial>): (Outcome, seq<Effect>) {
    match v.script.soa
    case NoAnswer(error) => (Failed(error), [])
    case PrimarySerial(serial) =>
      if NewerAvailable(current, serial) then
        var (outcome, effects) := Transfers(v.addr, cfg, current, v.script.xfrs, 0);
        (outcome, [SerialChecked(Some(serial))] + effects)
      else
        (Done(None), [SerialChecked(None)])
  }

  method RefreshZoneFromAddr(v: Visit, cfg: XfrConfig, current: Option<Serial>)
    returns (outcome: Outcome, effects: seq<Effect>)
    ensures (outcome, effects) == FromAddr(v, cfg, current)
  {
    match v.script.soa {
      case NoAnswer(error) => return Failed(error), [];
      case PrimarySerial(serial) =>
        if !NewerAvailable(current, serial) {
          return Done(None), [SerialChecked(None)];
        }
        effects := [SerialChecked(Some(serial))];
    }
    ghost var goal := FromAddr(v, cfg, current);
    for i := 0 to 2
      invariant var rest := Transfers(v.addr, cfg, current, v.script.xfrs, i);
                goal == (rest.0, effects + rest.1)
    {
      if cfg.strategy == NoXfr {
        assert effects + [] == effects;
        return Done(None), effects;
      }
      var kind := Axfr;
      if cfg.strategy == IxfrOnly || (cfg.strategy == IxfrWithAxfrFallback && i == 0 && current.Some?) {
        kind := Ixfr;
      }
      var transport := if kind == Axfr then Tcp else cfg.ixfrTransport;
      if transport == NoTransport {
        continue;
      }
      var answer := v.script.xfrs(i);
      var seen := XfrEffects(v.addr, kind, transport, answer);
      match answer {
        case Received(soa) => return Done(Some(soa)), effects + seen;
        case NotSent(error) => return Failed(error), effects + seen;
        case Refused(error) =>
          if error == NotImplemented && kind == Ixfr {
            assert effects + (seen + Transfers(v.addr, cfg, current, v.script.xfrs, i + 1).1)
                == effects + seen + Transfers(v.addr, cfg, current, v.script.xfrs, i + 1).1;
            effects := effects + seen;
          } else {
            return Failed(error), effects + seen;
          }
      }
    }
    assert effects + [] == effects;
    return Done(None), effects;
  }

  //// All primaries ////

  /** The visits from here on, given whether an earlier primary was fine and the last error so far. */
  function Visits(vs: seq<Visit>, primaries: map<Addr, XfrConfig>, current: Option<Serial>,
                  someOk: bool, lastError: Option<Error>): (Outcome, seq<Effect>)
    decreases |vs|
  {
    if vs == [] then
      (if someOk then Done(None) else if lastError.Some? then Failed(lastError.value) else Panicked, [])
    else if vs[0].addr !in primaries then
      Visits(vs[1..], primaries, current, someOk, lastError)
    else
      var (outcome, effects) := FromAddr(vs[0], primaries[vs[0].addr], current);
      if outcome.Done? && outcome.soa.Some? then
        (outcome, effects)
      else
        var (final, rest) := Visits(vs[1..], primaries, current, someOk || outcome.Done?,
                                    if outcome.Failed? then Some(outcome.error) else lastError);
        (final, effects + rest)
  }

  function Refresh(local: LocalSoa, vs: seq<Visit>, primaries: map<Addr, XfrConfig>): (Outcome, seq<Effect>) {
    match local
    case OutOfZone => (Failed(ABSENT_SOA), [])
    case NoSoa => Visits(vs, primaries, None, false, None)
    case HasSoa(serial) =>
      var (outcome, effects) := Visits(vs, primaries, Some(serial), false, None);
      (outcome, [SoaSeen] + effects)
  }

  /** `vs` visits the source of a NOTIFY, if there is one, and then every configured primary once. */
  ghost predicate VisitsAll(vs: seq<Visit>, initial: Option<Addr>, primaries: map<Addr, XfrConfig>) {
    var first := if initial.Some? then 1 else 0;
    && |vs| == first + |primaries|
    && (initial.Some? ==> vs[0].addr == initial.value)
    && (forall i :: first <= i < |vs| ==> vs[i].addr in primaries)
    && (forall a :: a in primaries ==> exists i :: first <= i < |vs| && vs[i].addr == a)
    && (forall i, j :: first <= i < j < |vs| ==> vs[i].addr != vs[j].addr)
  }

  /** After these effects, what is left of the whole refresh are the visits given. */
  ghost predicate Remains(whole: (Outcome, seq<Effect>), effects: seq<Effect>, vs: seq<Visit>,
                          primaries: map<Addr, XfrConfig>, current: Option<Serial>, someOk: bool,
                          lastError: Option<Error>) {
    var (outcome, more) := Visits(vs, primaries, current, someOk, lastError);
    whole == (outcome, effects + more)
  }

  lemma VisitStep(whole: (Outcome, seq<Effect>), effects: seq<Effect>, vs: seq<Visit>, i: nat,
                  primaries: map<Addr, XfrConfig>, current: Option<Serial>, someOk: bool, lastError: Option<Error>)
    requires i < |vs| && Remains(whole, effects, vs[i..], primaries, current, someOk, lastError)
    ensures if vs[i].addr !in primaries then
              Remains(whole, effects, vs[i + 1..], primaries, current, someOk, lastError)
            else
              var (outcome, seen) := FromAddr(vs[i], primaries[vs[i].addr], current);
              if outcome.Done? && outcome.soa.Some? then whole == (outcome, effects + seen)
              else Remains(whole, effects + seen, vs[i + 1..], primaries, current, someOk || outcome.Done?,
                           if outcome.Failed? then Some(outcome.error) else lastError)
  {
    assert vs[i..][0] == vs[i] && vs[i..][1..] == vs[i + 1..];
    if vs[i].addr in primaries {
      var (outcome, seen) := FromAddr(vs[i], primaries[vs[i].addr], current);
      var more := Visits(vs[i + 1..], primaries, current, someOk || outcome.Done?,
                         if outcome.Failed? then Some(outcome.error) else lastError).1;
      assert effects + (seen + more) == effects + seen + more;
    }
  }

  method RefreshPrimaries(local: LocalSoa, vs: seq<Visit>, primaries: map<Addr, XfrConfig>)
    returns (outcome: Outcome, effects: seq<Effect>)
    ensures (outcome, effects) == Refresh(local, vs, primaries)
  {
    if local.OutOfZone? {
      return Failed(ABSENT_SOA), [];
    }
    var current := if local.HasSoa? then Some(local.serial) else None;
    effects := if local.HasSoa? then [SoaSeen] else [];
    var numOkPrimaries := 0;
    var savedErr: Option<Error> := None;
    var i := 0;
    assert vs[0..] == vs;
    ghost var whole := Refresh(local, vs, primaries);
    assert [] + Visits(vs, primaries, current, false, None).1 == Visits(vs, primaries, current, false, None).1;
    while i < |vs|
      invariant 0 <= i <= |vs| && numOkPrimaries >= 0
      invariant Remains(whole, effects, vs[i..], primaries, current, numOkPrimaries > 0, savedErr)
    {
      VisitStep(whole, effects, vs, i, primaries, current, numOkPrimaries > 0, savedErr);
      if vs[i].addr in primaries {
        var res, seen := RefreshZoneFromAddr(vs[i], primaries[vs[i].addr], current);
        effects := effects + seen;
        match res {
          case Done(soa) =>
            if soa.Some? {
              return res, effects;
            }
            numOkPrimaries := numOkPrimaries + 1;
          case Failed(error) => savedErr := Some(error);
          case Panicked =>
        }
      }
      i := i + 1;
    }
    assert vs[i..] == [] && effects + [] == effects;
    if numOkPrimaries > 0 {
      return Done(None), effects;
    } else if savedErr.Some? {
      return Failed(savedErr.value), effects;
    } else {
      return Panicked, effects;
    }
  }

  //// The promises ////

  predicate Yields(v: Visit, primaries: map<Addr, XfrConfig>, current: Option<Serial>) {
    v.addr in primaries && FromAddr(v, primaries[v.addr], current).0.Done?
    && FromAddr(v, primaries[v.addr], current).0.soa.Some?
  }

  predicate Fine(v: Visit, primaries: map<Addr, XfrConfig>, current: Option<Serial>) {
    v.addr in primaries && FromAddr(v, primaries[v.addr], current).0.Done?
  }

  lemma TransfersNeverPanic(addr: Addr, cfg: XfrConfig, current: Option<Serial>, xfrs: nat -> XfrAnswer, i: nat)
    ensures !Transfers(addr, cfg, current, xfrs, i).0.Panicked?
    decreases 2 - i
  {
  }

  /** What holds of some or all visits, by the first one and the others. */
  lemma FirstOrLater(vs: seq<Visit>, primaries: map<Addr, XfrConfig>, current: Option<Serial>)
    requires vs != []
    ensures (exists v :: v in vs && Yields(v, primaries, current)) <==>
              Yields(vs[0], primaries, current) || exists v :: v in vs[1..] && Yields(v, primaries, current)
    ensures (exists v :: v in vs && Fine(v, primaries, current)) <==>
              Fine(vs[0], primaries, current) || exists v :: v in vs[1..] && Fine(v, primaries, current)
    ensures (forall v :: v in vs ==> v.addr !in primaries) <==>
              vs[0].addr !in primaries && forall v :: v in vs[1..] ==> v.addr !in primaries
  {
    assert vs == [vs[0]] + vs[1..];
    assert forall v :: v in vs <==> v == vs[0] || v in vs[1..];
  }

  /** The outcome of a refresh, by whether a primary yields a new SOA, and otherwise is fine or fails. */
  lemma {:induction false} VisitsOutcome(vs: seq<Visit>, primaries: map<Addr, XfrConfig>, current: Option<Serial>,
                                         someOk: bool, lastError: Option<Error>)
    ensures var outcome := Visits(vs, primaries, current, someOk, lastError).0;
            && (outcome.Done? && outcome.soa.Some? <==> exists v :: v in vs && Yields(v, primaries, current))
            && (outcome == Done(None) <==>
                && (forall v :: v in vs ==> !Yields(v, primaries, current))
                && (someOk || exists v :: v in vs && Fine(v, primaries, current)))
            && (outcome.Panicked? <==> !someOk && lastError.None? && forall v :: v in vs ==> v.addr !in primaries)
    decreases |vs|
  {
    if vs != [] {
      FirstOrLater(vs, primaries, current);
      if vs[0].addr in primaries {
        var outcome := FromAddr(vs[0], primaries[vs[0].addr], current).0;
        TransfersNeverPanic(vs[0].addr, primaries[vs[0].addr], current, vs[0].script.xfrs, 0);
        if outcome.Done? && outcome.soa.Some? {
          assert Yields(vs[0], primaries, current);
        } else {
          VisitsOutcome(vs[1..], primaries, current, someOk || outcome.Done?,
                        if outcome.Failed? then Some(outcome.error) else lastError);
        }
      } else {
        VisitsOutcome(vs[1..], primaries, current, someOk, lastError);
      }
    }
  }

  /** A refresh ends with the SOA and the effects of the first primary that yields one: no later
      primary changes anything. */
  lemma {:induction false} StopsAtFirstYield(vs: seq<Visit>, k: nat, primaries: map<Addr, XfrConfig>,
                                             current: Option<Serial>, someOk: bool, lastError: Option<Error>)
    requires k < |vs| && Yields(vs[k], primaries, current)
    requires forall i :: 0 <= i < k ==> !Yields(vs[i], primaries, current)
    ensures Visits(vs, primaries, current, someOk, lastError) ==
            Visits(vs[..k + 1], primaries, current, someOk, lastError)
    ensures Visits(vs, primaries, current, someOk, lastError).0 ==
            FromAddr(vs[k], primaries[vs[k].addr], current).0
    decreases |vs|
  {
    assert vs[..k + 1][0] == vs[0];
    if k > 0 {
      assert vs[..k + 1][1..] == vs[1..][..k];
      if vs[0].addr in primaries {
        var outcome := FromAddr(vs[0], primaries[vs[0].addr], current).0;
        StopsAtFirstYield(vs[1..], k - 1, primaries, current, someOk || outcome.Done?,
                          if outcome.Failed? then Some(outcome.error) else lastError);
      } else {
        StopsAtFirstYield(vs[1..], k - 1, primaries, current, someOk, lastError);
      }
    }
  }

  /** The `unwrap` of the saved error fails exactly if the zone has no primary, and so is no secondary. */
  lemma PanicsOnlyWithoutPrimaries(local: LocalSoa, vs: seq<Visit>, initial: Option<Addr>,
                                   primaries: map<Addr, XfrConfig>)
    requires VisitsAll(vs, initial, primaries)
    ensures Refresh(local, vs, primaries).0.Panicked? <==> !local.OutOfZone? && primaries == map[]
  {
    var current := if local.HasSoa? then Some(local.serial) else None;
    VisitsOutcome(vs, primaries, current, false, None);
    if primaries != map[] {
      var a :| a in primaries;
      var i :| 0 <= i < |vs| && vs[i].addr == a;
      assert vs[i] in vs;
    }
  }

  //// Counting transfers ////

  /** How many transfers `effects` request from a primary: all of them, or only the AXFRs. */
  function Count(effects: seq<Effect>, to: Addr, onlyAxfr: bool): nat {
    if effects == [] then 0
    else
      var e := effects[0];
      (if e.Requested? && e.addr == to && (onlyAxfr ==> e.kind == Axfr) then 1 else 0) +
      Count(effects[1..], to, onlyAxfr)
  }

  lemma {:induction false} CountConcat(a: seq<Effect>, b: seq<Effect>, to: Addr, onlyAxfr: bool)
    ensures Count(a + b, to, onlyAxfr) == Count(a, to, onlyAxfr) + Count(b, to, onlyAxfr)
  {
    if a == [] {
      assert a + b == b;
    } else {
      assert (a + b)[1..] == a[1..] + b;
      CountConcat(a[1..], b, to, onlyAxfr);
    }
  }

  lemma CountOne(e: Effect, to: Addr, onlyAxfr: bool)
    ensures Count([e], to, onlyAxfr) ==
            if e.Requested? && e.addr == to && (onlyAxfr ==> e.kind == Axfr) then 1 else 0
  {
    assert [e][1..] == [];
  }

  predicate AxfrsOverTcp(effects: seq<Effect>) {
    forall e :: e in effects && e.Requested? && e.kind == Axfr ==> e.transport == Tcp
  }

  lemma XfrEffectsCount(addr: Addr, kind: XfrKind, transport: Transport, answer: XfrAnswer, to: Addr, onlyAxfr: bool)
    ensures Count(XfrEffects(addr, kind, transport, answer), to, onlyAxfr) <=
            if to == addr && (onlyAxfr ==> kind == Axfr) then 1 else 0
  {
    if !answer.NotSent? {
      var before := if kind == Ixfr then [SoaSeen] else [];
      var request := Requested(addr, kind, transport);
      var after := if answer.Received? then [Committed(answer.soa)] else [];
      CountConcat(before + [request], after, to, onlyAxfr);
      CountConcat(before, [request], to, onlyAxfr);
      CountOne(request, to, onlyAxfr);
      CountOne(SoaSeen, to, onlyAxfr);
      if answer.Received? {
        CountOne(Committed(answer.soa), to, onlyAxfr);
      }
    }
  }

  /** One visit makes at most two transfers, at most one of them an AXFR. */
  lemma {:induction false} TransfersBounded(addr: Addr, cfg: XfrConfig, current: Option<Serial>,
                                            xfrs: nat -> XfrAnswer, i: nat, to: Addr, onlyAxfr: bool)
    ensures Count(Transfers(addr, cfg, current, xfrs, i).1, to, onlyAxfr) <=
            if to != addr || i >= 2 then 0 else if onlyAxfr then 1 else 2 - i
    decreases 2 - i
  {
    if i < 2 && cfg.strategy != NoXfr {
      var kind := KindToTry(cfg.strategy, current, i).value;
      var transport := if kind == Axfr then Tcp else cfg.ixfrTransport;
      var effects, rest := XfrEffects(addr, kind, transport, xfrs(i)), Transfers(addr, cfg, current, xfrs, i + 1).1;
      XfrEffectsCount(addr, kind, transport, xfrs(i), to, onlyAxfr);
      TransfersBounded(addr, cfg, current, xfrs, i + 1, to, onlyAxfr);
      CountConcat(effects, rest, to, onlyAxfr);
    }
  }

  lemma OneOverTcp(addr: Addr, kind: XfrKind, transport: Transport, answer: XfrAnswer)
    requires kind == Axfr ==> transport == Tcp
    ensures AxfrsOverTcp(XfrEffects(addr, kind, transport, answer))
  {
  }

  lemma {:induction false} TransfersOverTcp(addr: Addr, cfg: XfrConfig, current: Option<Serial>,
                                            xfrs: nat -> XfrAnswer, i: nat)
    ensures AxfrsOverTcp(Transfers(addr, cfg, current, xfrs, i).1)
    decreases 2 - i
  {
    if i < 2 && cfg.strategy != NoXfr {
      var kind := KindToTry(cfg.strategy, current, i).value;
      var transport := if kind == Axfr then Tcp else cfg.ixfrTransport;
      TransfersOverTcp(addr, cfg, current, xfrs, i + 1);
      OneOverTcp(addr, kind, transport, xfrs(i));
    }
  }

  predicate Requests(effects: seq<Effect>, kind: XfrKind) {
    exists e :: e in effects && e.Requested? && e.kind == kind
  }

  lemma XfrRequests(addr: Addr, kind: XfrKind, transport: Transport, answer: XfrAnswer, k: XfrKind)
    ensures Requests(XfrEffects(addr, kind, transport, answer), k) <==> !answer.NotSent? && k == kind
  {
    if !answer.NotSent? {
      assert Requested(addr, kind, transport) in XfrEffects(addr, kind, transport, answer);
    }
  }

  lemma RequestsConcat(a: seq<Effect>, b: seq<Effect>, k: XfrKind)
    ensures Requests(a + b, k) <==> Requests(a, k) || Requests(b, k)
  {
    if e :| e in a && e.Requested? && e.kind == k {
      assert e in a + b;
    }
    if e :| e in b && e.Requested? && e.kind == k {
      assert e in a + b;
    }
  }

  /** With fallback and a serial to start from, an AXFR is requested exactly if there is no transport for an IXFR
      or the primary does not implement it, unless the AXFR could not be sent. */
  lemma FallbackIffNotImplemented(addr: Addr, cfg: XfrConfig, current: Option<Serial>, xfrs: nat -> XfrAnswer)
    requires cfg.strategy == IxfrWithAxfrFallback && current.Some?
    ensures Requests(Transfers(addr, cfg, current, xfrs, 0).1, Axfr) <==>
              !xfrs(1).NotSent? && (cfg.ixfrTransport == NoTransport || xfrs(0) == Refused(NotImplemented))
    ensures Requests(Transfers(addr, cfg, current, xfrs, 0).1, Ixfr) <==>
              cfg.ixfrTransport != NoTransport && !xfrs(0).NotSent?
  {
    var second := Transfers(addr, cfg, current, xfrs, 1).1;
    assert second == XfrEffects(addr, Axfr, Tcp, xfrs(1));
    var first := XfrEffects(addr, Ixfr, cfg.ixfrTransport, xfrs(0));
    XfrRequests(addr, Axfr, Tcp, xfrs(1), Axfr);
    XfrRequests(addr, Axfr, Tcp, xfrs(1), Ixfr);
    XfrRequests(addr, Ixfr, cfg.ixfrTransport, xfrs(0), Axfr);
    XfrRequests(addr, Ixfr, cfg.ixfrTransport, xfrs(0), Ixfr);
    RequestsConcat(first, second, Axfr);
    RequestsConcat(first, second, Ixfr);
  }

  /** Without fallback, or with nothing to start from, only one kind of transfer is requested. */
  lemma {:induction false} OneKindOtherwise(addr: Addr, cfg: XfrConfig, current: Option<Serial>, xfrs: nat -> XfrAnswer,
                                            i: nat, k: XfrKind)
    requires cfg.strategy != IxfrWithAxfrFallback || current.None?
    ensures Requests(Transfers(addr, cfg, current, xfrs, i).1, k) ==>
              cfg.strategy != NoXfr && k == if cfg.strategy == IxfrOnly then Ixfr else Axfr
    decreases 2 - i
  {
    if i < 2 && cfg.strategy != NoXfr {
      var kind := KindToTry(cfg.strategy, current, i).value;
      var transport := if kind == Axfr then Tcp else cfg.ixfrTransport;
      OneKindOtherwise(addr, cfg, current, xfrs, i + 1, k);
      XfrRequests(addr, kind, transport, xfrs(i), k);
      RequestsConcat(XfrEffects(addr, kind, transport, xfrs(i)), Transfers(addr, cfg, current, xfrs, i + 1).1, k);
    }
  }

  function TimesVisited(vs: seq<Visit>, to: Addr): nat {
    if vs == [] then 0 else (if vs[0].addr == to then 1 else 0) + TimesVisited(vs[1..], to)
  }

  lemma FromAddrBounded(v: Visit, cfg: XfrConfig, current: Option<Serial>, to: Addr, onlyAxfr: bool)
    ensures var effects := FromAddr(v, cfg, current).1;
            && Count(effects, to, onlyAxfr) <= (if to != v.addr then 0 else if onlyAxfr then 1 else 2)
            && AxfrsOverTcp(effects)
  {
    var effects := FromAddr(v, cfg, current).1;
    if effects != [] {
      var xfers := Transfers(v.addr, cfg, current, v.script.xfrs, 0).1;
      TransfersBounded(v.addr, cfg, current, v.script.xfrs, 0, to, onlyAxfr);
      TransfersOverTcp(v.addr, cfg, current, v.script.xfrs, 0);
      CountOne(effects[0], to, onlyAxfr);
      CountConcat([effects[0]], xfers, to, onlyAxfr);
    }
  }

  lemma {:induction false} VisitsOverTcp(vs: seq<Visit>, primaries: map<Addr, XfrConfig>, current: Option<Serial>,
                                         someOk: bool, lastError: Option<Error>)
    ensures AxfrsOverTcp(Visits(vs, primaries, current, someOk, lastError).1)
    decreases |vs|
  {
    if vs != [] {
      if vs[0].addr !in primaries {
        VisitsOverTcp(vs[1..], primaries, current, someOk, lastError);
      } else {
        var outcome := FromAddr(vs[0], primaries[vs[0].addr], current).0;
        FromAddrBounded(vs[0], primaries[vs[0].addr], current, 0, false);
        VisitsOverTcp(vs[1..], primaries, current, someOk || outcome.Done?,
                      if outcome.Failed? then Some(outcome.error) else lastError);
      }
    }
  }

  /** Whatever the network answers, every AXFR of a refresh goes over TCP. */
  lemma AxfrAlwaysOverTcp(local: LocalSoa, vs: seq<Visit>, primaries: map<Addr, XfrConfig>)
    ensures AxfrsOverTcp(Refresh(local, vs, primaries).1)
  {
    VisitsOverTcp(vs, primaries, if local.HasSoa? then Some(local.serial) else None, false, None);
  }

  lemma {:induction false} VisitedOnce(vs: seq<Visit>, to: Addr)
    requires forall i, j :: 0 <= i < j < |vs| ==> vs[i].addr != vs[j].addr
    ensures TimesVisited(vs, to) <= 1
    ensures (forall i :: 0 <= i < |vs| ==> vs[i].addr != to) ==> TimesVisited(vs, to) == 0
  {
    if vs != [] {
      VisitedOnce(vs[1..], to);
      if vs[0].addr == to {
        forall i | 0 <= i < |vs[1..]| ensures vs[1..][i].addr != to {
          assert vs[1..][i] == vs[i + 1];
        }
      }
    }
  }

  function Twice(): seq<Visit> {
    var xfrs := (i: nat) => if i == 0 then Refused(NotImplemented) else Refused(OtherError(1));
    [Visit(7, Script(PrimarySerial(2), xfrs)), Visit(7, Script(PrimarySerial(2), xfrs))]
  }

  /** A primary that sent the NOTIFY is visited twice: here it sees four transfers, two of them AXFR. */
  lemma NotifySourceIsVisitedTwice()
    ensures var primaries := map[7 := XfrConfig(IxfrWithAxfrFallback, Tcp)];
            && VisitsAll(Twice(), Some(7), primaries)
            && Count(Refresh(HasSoa(1), Twice(), primaries).1, 7, false) == 4
            && Count(Refresh(HasSoa(1), Twice(), primaries).1, 7, true) == 2
  {
    var cfg := XfrConfig(IxfrWithAxfrFallback, Tcp);
    var primaries := map[7 := cfg];
    var vs := Twice();
    var v, xfrs := vs[0], vs[0].script.xfrs;
    var one := [SerialChecked(Some(2)), SoaSeen, Requested(7, Ixfr, Tcp), Requested(7, Axfr, Tcp)];
    assert vs[1] == v && |primaries| == 1 && VisitsAll(vs, Some(7), primaries);
    assert Transfers(7, cfg, Some(1), xfrs, 1).1 == [Requested(7, Axfr, Tcp)];
    assert Transfers(7, cfg, Some(1), xfrs, 0).1 == [SoaSeen, Requested(7, Ixfr, Tcp)] + [Requested(7, Axfr, Tcp)];
    assert FromAddr(v, cfg, Some(1)).1 == one;
    assert vs[1..] == [v] && [v][1..] == [];
    assert Visits([v], primaries, Some(1), false, Some(OtherError(1))).1 == one;
    assert Refresh(HasSoa(1), vs, primaries).1 == [SoaSeen] + (one + one);
    forall onlyAxfr: bool
      ensures Count([SoaSeen] + (one + one), 7, onlyAxfr) == if onlyAxfr then 2 else 4
    {
      assert one == [one[0]] + ([one[1]] + ([one[2]] + [one[3]]));
      CountOne(one[0], 7, onlyAxfr);
      CountOne(one[1], 7, onlyAxfr);
      CountOne(one[2], 7, onlyAxfr);
      CountOne(one[3], 7, onlyAxfr);
      CountConcat([one[2]], [one[3]], 7, onlyAxfr);
      CountConcat([one[1]], [one[2]] + [one[3]], 7, onlyAxfr);
      CountConcat([one[0]], [one[1]] + ([one[2]] + [one[3]]), 7, onlyAxfr);
      CountConcat(one, one, 7, onlyAxfr);
      CountConcat([SoaSeen], one + one, 7, onlyAxfr);
    }
  }

  //// Seeing an SOA ////

  predicate Sees(e: Effect) {
    e.SoaSeen? || e.Committed?
  }

  predicate SomeSeen(effects: seq<Effect>) {
    exists e :: e in effects && Sees(e)
  }

  /** The strategies under which a transfer is always tried for a zone that has no SOA yet. */
  predicate AlwaysTransfers(cfg: XfrConfig) {
    cfg.strategy == AxfrOnly || cfg.strategy == IxfrWithAxfrFallback
    || (cfg.strategy == IxfrOnly && cfg.ixfrTransport != NoTransport)
  }

  lemma {:induction false} TransfersSee(addr: Addr, cfg: XfrConfig, xfrs: nat -> XfrAnswer, i: nat)
    requires AlwaysTransfers(cfg) && i < 2
    ensures Transfers(addr, cfg, None, xfrs, i).0.Done? ==> SomeSeen(Transfers(addr, cfg, None, xfrs, i).1)
    decreases 2 - i
  {
    var kind := KindToTry(cfg.strategy, None, i).value;
    var transport := if kind == Axfr then Tcp else cfg.ixfrTransport;
    var effects := XfrEffects(addr, kind, transport, xfrs(i));
    match xfrs(i)
    case Received(soa) => assert Committed(soa) in effects && Sees(Committed(soa));
    case Refused(error) =>
      if error == NotImplemented && kind == Ixfr {
        assert SoaSeen in effects && SoaSeen in Transfers(addr, cfg, None, xfrs, i).1 && Sees(SoaSeen);
      }
    case NotSent(_) =>
  }

  /** A primary can report an empty zone as fine with no SOA seen, exactly under a strategy that never
      transfers: no transfers at all, or incremental ones only, without a transport for them. */
  lemma EmptyZoneFineUnseen(addr: Addr, cfg: XfrConfig)
    ensures (exists script: Script ::
               var (outcome, effects) := FromAddr(Visit(addr, script), cfg, None);
               outcome.Done? && !SomeSeen(effects))
            <==> !AlwaysTransfers(cfg)
  {
    if AlwaysTransfers(cfg) {
      forall script: Script
        ensures var (outcome, effects) := FromAddr(Visit(addr, script), cfg, None);
                outcome.Done? ==> SomeSeen(effects)
      {
        TransfersSee(addr, cfg, script.xfrs, 0);
        var (outcome, effects) := Transfers(addr, cfg, None, script.xfrs, 0);
        if outcome.Done? {
          var e :| e in effects && Sees(e);
          assert script.soa.PrimarySerial? ==> e in FromAddr(Visit(addr, script), cfg, None).1;
        }
      }
    } else {
      var script := Script(PrimarySerial(0), (i: nat) => NotSent(ABSENT_SOA));
      assert Transfers(addr, cfg, None, script.xfrs, 1) == (Done(None), []);
      assert Transfers(addr, cfg, None, script.xfrs, 0) == (Done(None), []);
      var (outcome, effects) := FromAddr(Visit(addr, script), cfg, None);
      assert effects == [SerialChecked(Some(0))];
      assert outcome.Done? && !SomeSeen(effects);
    }
  }

  lemma {:induction false} VisitsSee(vs: seq<Visit>, primaries: map<Addr, XfrConfig>,
                                     someOk: bool, lastError: Option<Error>)
    requires forall a :: a in primaries ==> AlwaysTransfers(primaries[a])
    requires !someOk
    ensures Visits(vs, primaries, None, someOk, lastError).0.Done? ==>
            SomeSeen(Visits(vs, primaries, None, someOk, lastError).1)
    decreases |vs|
  {
    if vs != [] {
      if vs[0].addr !in primaries {
        VisitsSee(vs[1..], primaries, someOk, lastError);
      } else {
        var cfg := primaries[vs[0].addr];
        var (outcome, effects) := FromAddr(vs[0], cfg, None);
        if outcome.Done? {
          EmptyZoneFineUnseen(vs[0].addr, cfg);
          assert vs[0] == Visit(vs[0].addr, vs[0].script);
          var e :| e in effects && Sees(e);
          assert e in Visits(vs, primaries, None, someOk, lastError).1;
        } else {
          var lastError' := if outcome.Failed? then Some(outcome.error) else lastError;
          VisitsSee(vs[1..], primaries, false, lastError');
          var (final, rest) := Visits(vs[1..], primaries, None, false, lastError');
          if final.Done? {
            var e :| e in rest && Sees(e);
            assert e in Visits(vs, primaries, None, someOk, lastError).1;
          }
        }
      }
    }
  }

  /** If every primary's strategy always transfers, a refresh that ends well has seen an SOA in the zone. */
  lemma SuccessHasSeenSoa(local: LocalSoa, vs: seq<Visit>, primaries: map<Addr, XfrConfig>)
    requires forall a :: a in primaries ==> AlwaysTransfers(primaries[a])
    requires Refresh(local, vs, primaries).0.Done?
    ensures SomeSeen(Refresh(local, vs, primaries).1)
  {
    if local.HasSoa? {
      assert SoaSeen in Refresh(local, vs, primaries).1 && Sees(SoaSeen);
    } else {
      VisitsSee(vs, primaries, false, None);
    }
  }
}
