/** Exactly how many transfers a primary can see in one refresh. */
module RefreshBounds {
  import opened Options
  import opened RefreshZone
  import Serials

  /** How often a refresh turns to a primary: twice if the primary also sent the NOTIFY. */
  function TimesAsked(initial: Option<Addr>, primaries: map<Addr, XfrConfig>, to: Addr): nat {
    if to !in primaries then 0 else if initial == Some(to) then 2 else 1
  }

  /** The most transfers, or AXFRs only, of one visit. */
  function MostPerVisit(cfg: XfrConfig, onlyAxfr: bool): nat {
    match cfg.strategy
    case NoXfr => 0
    case AxfrOnly => 1
    case IxfrOnly => if onlyAxfr || cfg.ixfrTransport == NoTransport then 0 else 2
    case IxfrWithAxfrFallback => if onlyAxfr || cfg.ixfrTransport == NoTransport then 1 else 2
  }

  function MostTransfers(initial: Option<Addr>, primaries: map<Addr, XfrConfig>, to: Addr, onlyAxfr: bool): nat {
    if to !in primaries then 0
    else TimesAsked(initial, primaries, to) * MostPerVisit(primaries[to], onlyAxfr)
  }

  //// No more than that ////

  lemma TransfersFit(addr: Addr, cfg: XfrConfig, current: Option<Serials.Serial>, xfrs: nat -> XfrAnswer,
                     onlyAxfr: bool)
    ensures Count(Transfers(addr, cfg, current, xfrs, 0).1, addr, onlyAxfr) <= MostPerVisit(cfg, onlyAxfr)
  {
    if cfg.strategy != NoXfr {
      var kind0, kind1 := KindToTry(cfg.strategy, current, 0).value, KindToTry(cfg.strategy, current, 1).value;
      var transport0 := if kind0 == Axfr then Tcp else cfg.ixfrTransport;
      var transport1 := if kind1 == Axfr then Tcp else cfg.ixfrTransport;
      var first, second := XfrEffects(addr, kind0, transport0, xfrs(0)), XfrEffects(addr, kind1, transport1, xfrs(1));
      XfrEffectsCount(addr, kind0, transport0, xfrs(0), addr, onlyAxfr);
      XfrEffectsCount(addr, kind1, transport1, xfrs(1), addr, onlyAxfr);
      CountConcat(first, second, addr, onlyAxfr);
      LastTransfer(addr, cfg, current, xfrs);
    }
  }

  /** The second of two transfers is the last one. */
  lemma LastTransfer(addr: Addr, cfg: XfrConfig, current: Option<Serials.Serial>, xfrs: nat -> XfrAnswer)
    requires cfg.strategy != NoXfr
    ensures var kind := KindToTry(cfg.strategy, current, 1).value;
            var transport := if kind == Axfr then Tcp else cfg.ixfrTransport;
            Transfers(addr, cfg, current, xfrs, 1).1 ==
              if transport == NoTransport then [] else XfrEffects(addr, kind, transport, xfrs(1))
  {
    assert Transfers(addr, cfg, current, xfrs, 2) == (Done(None), []);
    var kind := KindToTry(cfg.strategy, current, 1).value;
    var effects := XfrEffects(addr, kind, if kind == Axfr then Tcp else cfg.ixfrTransport, xfrs(1));
    assert effects + [] == effects;
  }

  lemma VisitFits(v: Visit, cfg: XfrConfig, current: Option<Serials.Serial>, to: Addr, onlyAxfr: bool)
    ensures Count(FromAddr(v, cfg, current).1, to, onlyAxfr) <= if v.addr == to then MostPerVisit(cfg, onlyAxfr) else 0
  {
    var effects := FromAddr(v, cfg, current).1;
    FromAddrBounded(v, cfg, current, to, onlyAxfr);
    if effects != [] && v.addr == to {
      TransfersFit(to, cfg, current, v.script.xfrs, onlyAxfr);
      CountOne(effects[0], to, onlyAxfr);
      CountConcat([effects[0]], Transfers(to, cfg, current, v.script.xfrs, 0).1, to, onlyAxfr);
    }
  }

  lemma {:induction false} VisitsFit(vs: seq<Visit>, primaries: map<Addr, XfrConfig>, current: Option<Serials.Serial>,
                                     someOk: bool, lastError: Option<Error>, to: Addr, onlyAxfr: bool)
    ensures Count(Visits(vs, primaries, current, someOk, lastError).1, to, onlyAxfr) <=
              if to in primaries then TimesVisited(vs, to) * MostPerVisit(primaries[to], onlyAxfr) else 0
    decreases |vs|
  {
    if vs != [] {
      if vs[0].addr !in primaries {
        VisitsFit(vs[1..], primaries, current, someOk, lastError, to, onlyAxfr);
      } else {
        var (outcome, effects) := FromAddr(vs[0], primaries[vs[0].addr], current);
        VisitFits(vs[0], primaries[vs[0].addr], current, to, onlyAxfr);
        var someOk', lastError' := someOk || outcome.Done?, if outcome.Failed? then Some(outcome.error) else lastError;
        VisitsFit(vs[1..], primaries, current, someOk', lastError', to, onlyAxfr);
        CountConcat(effects, Visits(vs[1..], primaries, current, someOk', lastError').1, to, onlyAxfr);
      }
    }
  }

  /** Whatever the network answers, a primary sees at most this many transfers in a refresh. */
  lemma TransfersPerPrimary(local: LocalSoa, vs: seq<Visit>, initial: Option<Addr>, primaries: map<Addr, XfrConfig>,
                            to: Addr, onlyAxfr: bool)
    requires VisitsAll(vs, initial, primaries)
    ensures Count(Refresh(local, vs, primaries).1, to, onlyAxfr) <= MostTransfers(initial, primaries, to, onlyAxfr)
  {
    var current := if local.HasSoa? then Some(local.serial) else None;
    var effects := Visits(vs, primaries, current, false, None).1;
    VisitsFit(vs, primaries, current, false, None, to, onlyAxfr);
    VisitedOnce(if initial.Some? then vs[1..] else vs, to);
    assert to in primaries ==> TimesVisited(vs, to) <= TimesAsked(initial, primaries, to);
    if to in primaries {
      Monotone(TimesVisited(vs, to), TimesAsked(initial, primaries, to), MostPerVisit(primaries[to], onlyAxfr));
    }
    CountOne(SoaSeen, to, onlyAxfr);
    CountConcat([SoaSeen], effects, to, onlyAxfr);
  }

  lemma Monotone(a: nat, b: nat, c: nat)
    requires a <= b
    ensures a * c <= b * c
  {
  }

  //// And as many as that ////

  /** A primary that has a newer version but refuses every transfer, the first one as not implemented. */
  function Refusing(): Script {
    Script(PrimarySerial(2), (i: nat) => if i == 0 then Refused(NotImplemented) else Refused(OtherError(1)))
  }

  function Unanswering(): Script {
    Script(NoAnswer(OtherError(1)), (i: nat) => NotSent(OtherError(1)))
  }

  lemma RefusingTransfersMost(addr: Addr, cfg: XfrConfig, onlyAxfr: bool)
    ensures var (outcome, effects) := FromAddr(Visit(addr, Refusing()), cfg, Some(1));
            Count(effects, addr, onlyAxfr) == MostPerVisit(cfg, onlyAxfr) && !(outcome.Done? && outcome.soa.Some?)
  {
    var xfrs := Refusing().xfrs;
    var axfr, ixfr := Requested(addr, Axfr, Tcp), Requested(addr, Ixfr, cfg.ixfrTransport);
    assert xfrs(0) == Refused(NotImplemented) && xfrs(1) == Refused(OtherError(1));
    if cfg.strategy != NoXfr {
      LastTransfer(addr, cfg, Some(1), xfrs);
    }
    var transfers := Transfers(addr, cfg, Some(1), xfrs, 0).1;
    var twice := cfg.strategy in {IxfrOnly, IxfrWithAxfrFallback} && cfg.ixfrTransport != NoTransport;
    var kind1 := if cfg.strategy == IxfrOnly then ixfr else axfr;
    var first := if twice then [SoaSeen] + [ixfr] else [];
    var second := if cfg.strategy == NoXfr || (cfg.strategy == IxfrOnly && !twice) then []
                  else if kind1 == ixfr then [SoaSeen] + [ixfr] else [axfr];
    assert transfers == first + second;
    CountOne(SoaSeen, addr, onlyAxfr);
    CountOne(axfr, addr, onlyAxfr);
    CountOne(ixfr, addr, onlyAxfr);
    CountConcat([SoaSeen], [ixfr], addr, onlyAxfr);
    CountConcat(first, second, addr, onlyAxfr);
    CountOne(SerialChecked(Some(2)), addr, onlyAxfr);
    CountConcat([SerialChecked(Some(2))], transfers, addr, onlyAxfr);
  }

  lemma {:induction false} Listed(addrs: set<Addr>) returns (s: seq<Addr>)
    ensures |s| == |addrs| && (forall a :: a in addrs <==> a in s)
    ensures forall i, j :: 0 <= i < j < |s| ==> s[i] != s[j]
    decreases |addrs|
  {
    if addrs == {} {
      s := [];
    } else {
      var a :| a in addrs;
      var rest := Listed(addrs - {a});
      s := [a] + rest;
    }
  }

  function VisitsTo(addrs: seq<Addr>, to: Addr, script: Script): (vs: seq<Visit>)
    ensures |vs| == |addrs| && forall i :: 0 <= i < |vs| ==> vs[i].addr == addrs[i]
    ensures forall i :: 0 <= i < |vs| ==> vs[i].script == if addrs[i] == to then script else Unanswering()
  {
    seq(|addrs|, i requires 0 <= i < |addrs| => Visit(addrs[i], if addrs[i] == to then script else Unanswering()))
  }

  /** A refresh that visits the source of the NOTIFY, if any, and then `to` before all others, which are silent. */
  lemma VisitsWith(initial: Option<Addr>, primaries: map<Addr, XfrConfig>, to: Addr, script: Script)
    returns (vs: seq<Visit>)
    requires to in primaries
    ensures VisitsAll(vs, initial, primaries)
    ensures vs[if initial.Some? then 1 else 0].addr == to
    ensures TimesVisited(vs, to) == TimesAsked(initial, primaries, to)
    ensures forall v :: v in vs ==> v.script == if v.addr == to then script else Unanswering()
  {
    var others := Listed(primaries.Keys - {to});
    var first := if initial.Some? then [initial.value] else [];
    vs := VisitsTo(first + ([to] + others), to, script);
    var n := |first|;
    assert forall k :: 0 <= k < |others| ==> (first + ([to] + others))[n + 1 + k] == others[k];
    AllVisited(vs, initial, primaries, to, others);
    VisitedTimes(vs, initial, primaries, to);
  }

  lemma VisitedTimes(vs: seq<Visit>, initial: Option<Addr>, primaries: map<Addr, XfrConfig>, to: Addr)
    requires VisitsAll(vs, initial, primaries) && to in primaries
    requires vs[if initial.Some? then 1 else 0].addr == to
    ensures TimesVisited(vs, to) == TimesAsked(initial, primaries, to)
  {
    var n := if initial.Some? then 1 else 0;
    NeverAfter(vs, n + 1, to);
    assert vs[n..][1..] == vs[n + 1..] && vs[n..][0].addr == to;
    assert vs[0..] == vs;
  }

  /** The visits are to the source of the NOTIFY, if any, to `to`, and to the others in turn. */
  ghost predicate InOrder(vs: seq<Visit>, initial: Option<Addr>, to: Addr, others: seq<Addr>) {
    var n := if initial.Some? then 1 else 0;
    && |vs| == n + 1 + |others|
    && (initial.Some? ==> vs[0].addr == initial.value)
    && vs[n].addr == to
    && forall k :: 0 <= k < |others| ==> vs[n + 1 + k].addr == others[k]
  }

  lemma OthersAfter(vs: seq<Visit>, initial: Option<Addr>, to: Addr, others: seq<Addr>, i: nat)
    requires InOrder(vs, initial, to, others)
    requires (if initial.Some? then 1 else 0) < i < |vs|
    ensures vs[i].addr == others[i - 1 - if initial.Some? then 1 else 0] && vs[i].addr in others
  {
    var n := if initial.Some? then 1 else 0;
    assert vs[n + 1 + (i - 1 - n)].addr == others[i - 1 - n];
  }

  lemma EachVisited(vs: seq<Visit>, initial: Option<Addr>, to: Addr, others: seq<Addr>, a: Addr)
    requires InOrder(vs, initial, to, others) && (a == to || a in others)
    ensures exists i :: (if initial.Some? then 1 else 0) <= i < |vs| && vs[i].addr == a
  {
    var n := if initial.Some? then 1 else 0;
    if a == to {
      assert vs[n].addr == a;
    } else {
      var k :| 0 <= k < |others| && others[k] == a;
      assert vs[n + 1 + k].addr == a;
    }
  }

  lemma AllVisited(vs: seq<Visit>, initial: Option<Addr>, primaries: map<Addr, XfrConfig>, to: Addr, others: seq<Addr>)
    requires to in primaries && |others| == |primaries.Keys - {to}|
    requires forall a :: a in primaries.Keys - {to} <==> a in others
    requires forall i, j :: 0 <= i < j < |others| ==> others[i] != others[j]
    requires InOrder(vs, initial, to, others)
    ensures VisitsAll(vs, initial, primaries)
  {
    var n := if initial.Some? then 1 else 0;
    assert |primaries.Keys - {to}| == |primaries| - 1;
    forall i | n <= i < |vs| ensures vs[i].addr in primaries {
      if i > n {
        OthersAfter(vs, initial, to, others, i);
      }
    }
    forall a | a in primaries ensures exists i :: n <= i < |vs| && vs[i].addr == a {
      assert a != to ==> a in primaries.Keys - {to};
      EachVisited(vs, initial, to, others, a);
    }
    forall i, j | n <= i < j < |vs| ensures vs[i].addr != vs[j].addr {
      OthersAfter(vs, initial, to, others, j);
      if i > n {
        OthersAfter(vs, initial, to, others, i);
      }
    }
  }

  lemma {:induction false} NeverAfter(vs: seq<Visit>, n: nat, to: Addr)
    requires n <= |vs| && forall i :: n <= i < |vs| ==> vs[i].addr != to
    ensures TimesVisited(vs[n..], to) == 0
    decreases |vs| - n
  {
    if n < |vs| {
      NeverAfter(vs, n + 1, to);
      assert vs[n..][1..] == vs[n + 1..];
    }
  }

  lemma {:induction false} RefusalsAddUp(vs: seq<Visit>, primaries: map<Addr, XfrConfig>, someOk: bool,
                                         lastError: Option<Error>, to: Addr, onlyAxfr: bool)
    requires to in primaries && forall v :: v in vs ==> v.script == if v.addr == to then Refusing() else Unanswering()
    ensures Count(Visits(vs, primaries, Some(1), someOk, lastError).1, to, onlyAxfr) ==
              TimesVisited(vs, to) * MostPerVisit(primaries[to], onlyAxfr)
    decreases |vs|
  {
    if vs != [] {
      assert vs[0] in vs && forall v :: v in vs[1..] ==> v in vs;
      if vs[0].addr !in primaries {
        RefusalsAddUp(vs[1..], primaries, someOk, lastError, to, onlyAxfr);
      } else {
        var (outcome, effects) := FromAddr(vs[0], primaries[vs[0].addr], Some(1));
        if vs[0].addr == to {
          assert vs[0] == Visit(to, Refusing());
          RefusingTransfersMost(to, primaries[to], onlyAxfr);
        } else {
          assert outcome.Failed? && effects == [];
        }
        var someOk', lastError' := someOk || outcome.Done?, if outcome.Failed? then Some(outcome.error) else lastError;
        RefusalsAddUp(vs[1..], primaries, someOk', lastError', to, onlyAxfr);
        CountConcat(effects, Visits(vs[1..], primaries, Some(1), someOk', lastError').1, to, onlyAxfr);
      }
    }
  }

  lemma MostIsReached(initial: Option<Addr>, primaries: map<Addr, XfrConfig>, to: Addr, onlyAxfr: bool)
    returns (vs: seq<Visit>)
    requires to in primaries
    ensures VisitsAll(vs, initial, primaries)
    ensures Count(Refresh(HasSoa(1), vs, primaries).1, to, onlyAxfr) == MostTransfers(initial, primaries, to, onlyAxfr)
  {
    vs := VisitsWith(initial, primaries, to, Refusing());
    RefusalsAddUp(vs, primaries, false, None, to, onlyAxfr);
    CountOne(SoaSeen, to, onlyAxfr);
    CountConcat([SoaSeen], Visits(vs, primaries, Some(1), false, None).1, to, onlyAxfr);
  }

  //// When a bound holds ////

  /** In every refresh of this zone, whatever the network answers, the primary sees at most so many transfers. */
  ghost predicate AtMost(initial: Option<Addr>, primaries: map<Addr, XfrConfig>, to: Addr, onlyAxfr: bool, n: nat) {
    forall local, vs :: VisitsAll(vs, initial, primaries) ==> Count(Refresh(local, vs, primaries).1, to, onlyAxfr) <= n
  }

  /** The most transfers are the least bound: it holds, and no smaller one does. */
  lemma MostTransfersIsExact(initial: Option<Addr>, primaries: map<Addr, XfrConfig>, to: Addr, onlyAxfr: bool, n: nat)
    ensures AtMost(initial, primaries, to, onlyAxfr, n) <==> MostTransfers(initial, primaries, to, onlyAxfr) <= n
  {
    forall local, vs | VisitsAll(vs, initial, primaries)
      ensures Count(Refresh(local, vs, primaries).1, to, onlyAxfr) <= MostTransfers(initial, primaries, to, onlyAxfr)
    {
      TransfersPerPrimary(local, vs, initial, primaries, to, onlyAxfr);
    }
    if to in primaries {
      var vs := MostIsReached(initial, primaries, to, onlyAxfr);
    }
  }

  /** A primary sees at most one AXFR in every refresh, exactly unless it sent the NOTIFY and is configured with a
      strategy that uses AXFR. */
  lemma OneAxfrIff(initial: Option<Addr>, primaries: map<Addr, XfrConfig>, to: Addr)
    ensures AtMost(initial, primaries, to, true, 1) <==>
              !(initial == Some(to) && to in primaries && primaries[to].strategy in {AxfrOnly, IxfrWithAxfrFallback})
  {
    MostTransfersIsExact(initial, primaries, to, true, 1);
  }

  /** A primary sees at most two transfers in every refresh, exactly unless it sent the NOTIFY and is configured
      with a strategy and a transport for IXFR. */
  lemma TwoTransfersIff(initial: Option<Addr>, primaries: map<Addr, XfrConfig>, to: Addr)
    ensures AtMost(initial, primaries, to, false, 2) <==>
              !(initial == Some(to) && to in primaries && primaries[to].ixfrTransport != NoTransport
                && primaries[to].strategy in {IxfrOnly, IxfrWithAxfrFallback})
  {
    MostTransfersIsExact(initial, primaries, to, false, 2);
  }
}
