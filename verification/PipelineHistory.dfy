/** What holds over every run of the review and publication pipeline. */
module PipelineHistory {
  import opened Options
  import opened Payload
  import opened ReviewServer
  import opened Pipeline

  type History = seq<Deed>

  //// What justifies a deed ////

  ghost predicate ApprovedZone(h: History, zone: string) {
    exists s: nat :: Sent(UnsignedZoneApproved(Key(zone, s))) in h
  }

  ghost predicate SigningZone(h: History, zone: string) {
    exists again: bool :: SigningStarted(zone, again) in h
  }

  ghost predicate PublishedZone(h: History, zone: string) {
    exists s: nat :: Deed.Published(Key(zone, s)) in h
  }

  /** The deed that must come before another. */
  ghost predicate JustifiedDeed(h: History, deed: Deed) {
    match deed
    case Sent(UnsignedZoneApproved(key)) => Sent(UnsignedZoneUpdated(key)) in h
    case Sent(ZoneSigned(key)) => SigningZone(h, key.zone)
    case Sent(SignedZoneApproved(key)) => Sent(ZoneSigned(key)) in h
    case SigningStarted(zone, again) => if again then PublishedZone(h, zone) else ApprovedZone(h, zone)
    case Published(key) => Sent(SignedZoneApproved(key)) in h
    case _ => true
  }

  ghost predicate Justified(h: History) {
    forall i :: 0 <= i < |h| ==> JustifiedDeed(h[..i], h[i])
  }

  lemma JustifiedLater(h: History, more: History, deed: Deed)
    requires JustifiedDeed(h, deed)
    ensures JustifiedDeed(h + more, deed)
  {
    assert forall d :: d in h ==> d in h + more;
    match deed {
      case Sent(ZoneSigned(key)) =>
        var again: bool :| SigningStarted(key.zone, again) in h;
        assert SigningStarted(key.zone, again) in h + more;
      case SigningStarted(zone, again) =>
        if again {
          var s: nat :| Deed.Published(Key(zone, s)) in h;
          assert Deed.Published(Key(zone, s)) in h + more;
        } else {
          var s: nat :| Sent(UnsignedZoneApproved(Key(zone, s))) in h;
          assert Sent(UnsignedZoneApproved(Key(zone, s))) in h + more;
        }
      case _ =>
    }
  }

  lemma JustifiedAppend(h: History, more: History)
    requires Justified(h) && forall d :: d in more ==> JustifiedDeed(h, d)
    ensures Justified(h + more)
  {
    forall i | 0 <= i < |h + more| ensures JustifiedDeed((h + more)[..i], (h + more)[i]) {
      if i < |h| {
        assert (h + more)[..i] == h[..i];
      } else {
        assert (h + more)[..i] == h + more[..i - |h|];
        assert (h + more)[i] in more;
        JustifiedLater(h, more[..i - |h|], (h + more)[i]);
      }
    }
  }

  //// The invariant ////

  /** Commands reach only the unit they are for, and only after what they follow from was sent. */
  ghost predicate CommandOk(h: History, unit: Unit, c: Command) {
    match c
    case SeekApprovalForUnsignedZone(key) => unit == RS && Sent(UnsignedZoneUpdated(key)) in h
    case SignZone(zone, serial) =>
      unit == ZS && (serial.Some? ==> Sent(UnsignedZoneApproved(Key(zone, serial.value))) in h)
    case SeekApprovalForSignedZone(key) => unit == RS2 && Sent(ZoneSigned(key)) in h
    case PublishSignedZone(key) => unit == PS && Sent(SignedZoneApproved(key)) in h
    case _ => true
  }

  ghost predicate QueuesOk(st: State, h: History) {
    && (forall u :: u in st.updates ==> Sent(u) in h)
    && (forall c :: c in st.commands ==> CommandOk(h, c.0, c.1))
    && (forall u, c :: u in st.inboxes && c in st.inboxes[u] ==> CommandOk(h, u, c))
  }

  ghost predicate PendingOk(r: Reviews, unit: Unit, h: History) {
    forall key :: key in r.pending ==>
      match unit
      case RS => Sent(UnsignedZoneUpdated(key)) in h
      case RS2 => Sent(ZoneSigned(key)) in h
      case _ => false
  }

  ghost predicate ReviewsOk(st: State, h: History) {
    st.reviews.Keys == REVIEWERS && forall u :: u in st.reviews ==> PendingOk(st.reviews[u], u, h)
  }

  ghost predicate TreesOk(st: State, h: History) {
    && (forall z :: z in st.published ==> PublishedZone(h, z))
    && (st.signing.Some? ==> SigningZone(h, st.signing.value.zone))
  }

  ghost predicate Ok(st: State) {
    && !st.panicked
    && Justified(st.history)
    && QueuesOk(st, st.history)
    && ReviewsOk(st, st.history)
    && TreesOk(st, st.history)
  }

  /** All that was sent or done stays so: the invariant only grows with the history. */
  lemma OkLater(st: State, h: History, more: History)
    requires QueuesOk(st, h) && ReviewsOk(st, h) && TreesOk(st, h)
    ensures QueuesOk(st, h + more) && ReviewsOk(st, h + more) && TreesOk(st, h + more)
  {
    assert forall d :: d in h ==> d in h + more;
    forall u | u in st.reviews ensures PendingOk(st.reviews[u], u, h + more) {
      assert PendingOk(st.reviews[u], u, h);
    }
    forall z | z in st.published ensures PublishedZone(h + more, z) {
      var s: nat :| Deed.Published(Key(z, s)) in h;
      assert Deed.Published(Key(z, s)) in h + more;
    }
    if st.signing.Some? {
      var again: bool :| SigningStarted(st.signing.value.zone, again) in h;
      assert SigningStarted(st.signing.value.zone, again) in h + more;
    }
  }

  lemma SendKeepsOk(st: State, updates: seq<Update>)
    requires Ok(st) && forall u :: u in updates ==> JustifiedDeed(st.history, Sent(u))
    ensures Ok(Send(st, updates))
  {
    var more := seq(|updates|, i requires 0 <= i < |updates| => Sent(updates[i]));
    JustifiedAppend(st.history, more);
    OkLater(st, st.history, more);
    forall u | u in updates ensures Sent(u) in more {
      var i :| 0 <= i < |updates| && updates[i] == u;
      assert more[i] == Sent(u);
    }
  }

  lemma RecordKeepsOk(st: State, deed: Deed)
    requires Ok(st) && JustifiedDeed(st.history, deed)
    ensures Ok(Record(st, deed))
  {
    JustifiedAppend(st.history, [deed]);
    OkLater(st, st.history, [deed]);
  }

  //// Review servers ////

  lemma {:induction false} HooksAnnounceNothing(r: Reviews, key: Key, started: seq<bool>)
    ensures !Announces(RunHooks(r, key, started).observed)
    ensures RunHooks(r, key, started).reviews.pending.Keys <= r.pending.Keys + {key}
    decreases |started|
  {
    if started != [] {
      HooksAnnounceNothing(RunHook(r, key, started[0]).reviews, key, started[1..]);
    }
  }

  /** A review server announces and keeps pending only the key at hand, and what was pending. */
  lemma SeekStaysWithKey(r: Reviews, key: Key, started: seq<bool>)
    ensures Seek(r, key, started).reviews.pending.Keys <= r.pending.Keys + {key}
    ensures forall k :: Announced(k) in Seek(r, key, started).observed ==> k == key
  {
    HooksAnnounceNothing(r, key, started);
  }

  lemma ReviewStaysWithPending(r: Reviews, key: Key, token: Option<Token>, operation: Operation)
    ensures ProcessRequest(r, key, token, operation).reviews.pending.Keys <= r.pending.Keys
    ensures forall k :: Announced(k) in ProcessRequest(r, key, token, operation).observed ==> k in r.pending
  {
  }

  lemma {:induction false} UpdatesAreAnnouncements(source: Source, observed: seq<Observation>, u: Update)
    requires source != PublishedZones && u in Updates(source, observed)
    ensures if source == UnsignedZones then u.UnsignedZoneApproved? else u.SignedZoneApproved?
    ensures Announced(u.key) in observed
  {
    if u !in UpdatesOf(source, observed[0]) {
      UpdatesAreAnnouncements(source, observed[1..], u);
    }
  }

  lemma SettleKeepsOk(st: State, unit: Unit, result: Result)
    requires Ok(st) && unit in REVIEWERS && PendingOk(result.reviews, unit, st.history)
    requires forall k :: Announced(k) in result.observed ==>
               match unit
               case RS => Sent(UnsignedZoneUpdated(k)) in st.history
               case RS2 => Sent(ZoneSigned(k)) in st.history
               case _ => false
    ensures Ok(Settle(st, unit, result))
  {
    var st' := st.(reviews := st.reviews[unit := result.reviews]);
    assert ReviewsOk(st', st.history);
    assert Ok(st');
    if unit != PS {
      var updates := Updates(SourceOf(unit), result.observed);
      forall u | u in updates ensures JustifiedDeed(st'.history, Sent(u)) {
        UpdatesAreAnnouncements(SourceOf(unit), result.observed, u);
      }
      SendKeepsOk(st', updates);
    } else {
      assert forall k :: Announced(k) !in result.observed;
      assert !Announces(result.observed);
    }
  }

  lemma HandleReviewKeepsOk(st: State, unit: Unit, command: Command, started: seq<bool>)
    requires Ok(st) && unit in REVIEWERS && CommandOk(st.history, unit, command)
    ensures Ok(HandleReview(st, unit, command, started))
  {
    var r := st.reviews[unit];
    assert PendingOk(r, unit, st.history);
    match command {
      case SeekApprovalForUnsignedZone(key) =>
        SeekStaysWithKey(r, key, started);
        SettleKeepsOk(st, unit, Seek(r, key, started));
      case SeekApprovalForSignedZone(key) =>
        SeekStaysWithKey(r, key, started);
        SettleKeepsOk(st, unit, Seek(r, key, started));
      case HandleZoneReview(key, token, operation) =>
        ReviewStaysWithPending(r, key, token, operation);
        SettleKeepsOk(st, unit, ProcessRequest(r, key, token, operation));
      case PublishSignedZone(key) =>
        if key.zone in st.signed {
          PublishKeepsOk(st, key);
        }
      case _ =>
    }
  }

  lemma PublishKeepsOk(st: State, key: Key)
    requires Ok(st) && key.zone in st.signed && Sent(SignedZoneApproved(key)) in st.history
    ensures Ok(Record(Publish(st, key.zone), Deed.Published(key)))
  {
    RecordKeepsOk(st, Deed.Published(key));
    var h := st.history + [Deed.Published(key)];
    assert Deed.Published(Key(key.zone, key.serial)) in h;
    assert PublishedZone(h, key.zone);
  }

  lemma HandleSigningKeepsOk(st: State, command: Command, soa: bool)
    requires Ok(st) && CommandOk(st.history, ZS, command)
    ensures Ok(HandleSigning(st, command, soa))
  {
    match command {
      case SignZone(zone, serial) =>
        if SerialToSign(st, zone, serial.None?).Some? && soa {
          var deed := SigningStarted(zone, serial.None?);
          if serial.Some? {
            assert ApprovedZone(st.history, zone);
          }
          RecordKeepsOk(st, deed);
          assert deed in st.history + [deed];
          assert SigningZone(st.history + [deed], zone);
        }
      case _ =>
    }
  }

  //// Steps and runs ////

  lemma DirectIsOk(h: History, update: Update)
    requires Sent(update) in h
    ensures forall c :: c in Direct(update) ==> CommandOk(h, c.0, c.1)
  {
  }

  lemma HandleKeepsOk(st: State, a: Action, hooks: map<Unit, nat>)
    requires Ok(st) && Enabled(st, a, hooks) && a.Handle?
    ensures Ok(Next(st, a, hooks))
  {
    var unit := a.unit;
    var command := st.inboxes[unit][0];
    var taken := st.(inboxes := st.inboxes[unit := st.inboxes[unit][1..]]);
    assert CommandOk(st.history, unit, command);
    assert QueuesOk(taken, st.history);
    var deed := Handled(unit, command);
    RecordKeepsOk(taken, deed);
    var st' := Record(taken, deed);
    assert CommandOk(st'.history, unit, command) by {
      assert forall d :: d in st.history ==> d in st'.history;
    }
    if unit in REVIEWERS {
      HandleReviewKeepsOk(st', unit, command, a.started);
    } else if unit == ZS {
      HandleSigningKeepsOk(st', command, a.soa);
    }
  }

  lemma TakeKeepsOk(st: State)
    requires Ok(st) && st.updates != []
    ensures Ok(st.(updates := st.updates[1..], commands := st.commands + Direct(st.updates[0])))
  {
    DirectIsOk(st.history, st.updates[0]);
  }

  lemma ForwardKeepsOk(st: State, a: Action, hooks: map<Unit, nat>)
    requires Ok(st) && a.Forward? && Enabled(st, a, hooks)
    ensures Ok(Next(st, a, hooks))
  {
    assert st.commands[0] in st.commands;
  }

  lemma CommitKeepsOk(st: State, done: Signing)
    requires Ok(st) && SigningZone(st.history, done.zone)
    ensures Ok(Commit(st, done)) && SigningZone(Commit(st, done).history, done.zone)
  {
    var deed := Committed(done.zone, Version(done.serial, st.versions));
    RecordKeepsOk(st, deed);
    var again: bool :| SigningStarted(done.zone, again) in st.history;
    assert SigningStarted(done.zone, again) in st.history + [deed];
  }

  lemma EndKeepsOk(st: State, succeeded: bool, hooks: map<Unit, nat>)
    requires Ok(st) && Enabled(st, EndSigning(succeeded), hooks)
    ensures Ok(Next(st, EndSigning(succeeded), hooks))
  {
    if succeeded {
      var done := st.signing.value;
      var st' := Commit(st.(signing := None), done);
      CommitKeepsOk(st.(signing := None), done);
      SendKeepsOk(st', [ZoneSigned(Key(done.zone, done.serial))]);
    }
  }

  lemma LoadKeepsOk(st: State, key: Key)
    requires Ok(st)
    ensures Ok(Send(st.(unsigned := st.unsigned[key.zone := key.serial]), [UnsignedZoneUpdated(key)]))
  {
    var st' := st.(unsigned := st.unsigned[key.zone := key.serial]);
    assert Ok(st');
    SendKeepsOk(st', [UnsignedZoneUpdated(key)]);
  }

  lemma StepKeepsOk(st: State, a: Action, hooks: map<Unit, nat>)
    requires Ok(st) && Enabled(st, a, hooks)
    ensures Ok(Next(st, a, hooks))
  {
    match a {
      case Load(key) =>
        LoadKeepsOk(st, key);
      case Notice(update) =>
        SendKeepsOk(st, [update]);
      case Review(_, _, _, _) =>
      case TakeUpdate =>
        TakeKeepsOk(st);
      case Forward =>
        ForwardKeepsOk(st, a, hooks);
      case Handle(_, _, _) =>
        HandleKeepsOk(st, a, hooks);
      case EndSigning(succeeded) =>
        EndKeepsOk(st, succeeded, hooks);
    }
  }

  lemma {:induction false} RunKeepsOk(st: State, actions: seq<Action>, hooks: map<Unit, nat>)
    requires Ok(st) && IsRun(st, actions, hooks)
    ensures Ok(Run(st, actions, hooks))
    decreases |actions|
  {
    if actions != [] {
      StepKeepsOk(st, actions[0], hooks);
      RunKeepsOk(Next(st, actions[0], hooks), actions[1..], hooks);
    }
  }

  //// Precedence ////

  ghost predicate Precedes(h: History, first: Deed, second: Deed) {
    exists i, j :: 0 <= i < j < |h| && h[i] == first && h[j] == second
  }

  lemma PrecedesIn(h: History, j: nat, first: Deed)
    requires j < |h| && first in h[..j]
    ensures Precedes(h, first, h[j])
  {
    var i :| 0 <= i < j && h[..j][i] == first;
    assert h[i] == first;
  }

  lemma JustifiedPrefix(h: History, n: nat)
    requires Justified(h) && n <= |h|
    ensures Justified(h[..n])
  {
    forall i | 0 <= i < n ensures JustifiedDeed(h[..n][..i], h[..n][i]) {
      assert h[..n][..i] == h[..i];
    }
  }

  /** Where a deed was done, and that it was justified there. */
  lemma CauseOf(h: History, deed: Deed) returns (j: nat)
    requires Justified(h) && deed in h
    ensures j < |h| && h[j] == deed && Justified(h[..j]) && JustifiedDeed(h[..j], deed)
  {
    j :| 0 <= j < |h| && h[j] == deed;
    assert JustifiedDeed(h[..j], h[j]);
    JustifiedPrefix(h, j);
  }

  lemma DirectCause(h: History, first: Deed, second: Deed)
    requires Justified(h) && second in h
    requires forall p :: JustifiedDeed(p, second) ==> first in p
    ensures Precedes(h, first, second)
  {
    var j := CauseOf(h, second);
    PrecedesIn(h, j, first);
  }

  /** A zone is published only after its signed form was approved at the announced serial, and that only
      after it was signed with this serial. */
  lemma PublishingFollows(h: History, key: Key)
    requires Justified(h) && Deed.Published(key) in h
    ensures Precedes(h, Sent(SignedZoneApproved(key)), Deed.Published(key))
    ensures Precedes(h, Sent(ZoneSigned(key)), Sent(SignedZoneApproved(key)))
    ensures Sent(ZoneSigned(key)) in h
  {
    DirectCause(h, Sent(SignedZoneApproved(key)), Deed.Published(key));
    DirectCause(h, Sent(ZoneSigned(key)), Sent(SignedZoneApproved(key)));
  }

  lemma SigningStartedBefore(h: History, key: Key) returns (again: bool)
    requires Justified(h) && Sent(ZoneSigned(key)) in h
    ensures Precedes(h, SigningStarted(key.zone, again), Sent(ZoneSigned(key)))
    ensures SigningStarted(key.zone, again) in h
  {
    var j := CauseOf(h, Sent(ZoneSigned(key)));
    again :| SigningStarted(key.zone, again) in h[..j];
    PrecedesIn(h, j, SigningStarted(key.zone, again));
  }

  lemma PrecedesMeansIn(h: History, first: Deed, second: Deed)
    requires Precedes(h, first, second)
    ensures first in h && second in h
  {
  }

  /** Signing again reads only published zones, so that every signing goes back to an approval of the zone's
      unsigned form. */
  lemma {:induction false} SigningFollowsApproval(h: History, zone: string, again: bool) returns (approved: nat)
    requires Justified(h) && SigningStarted(zone, again) in h
    ensures Precedes(h, Sent(UnsignedZoneApproved(Key(zone, approved))), SigningStarted(zone, again))
    decreases |h|
  {
    var i := CauseOf(h, SigningStarted(zone, again));
    if again {
      var s: nat :| Deed.Published(Key(zone, s)) in h[..i];
      PublishingFollows(h[..i], Key(zone, s));
      var before := SigningStartedBefore(h[..i], Key(zone, s));
      approved := SigningFollowsApproval(h[..i], zone, before);
      PrecedesMeansIn(h[..i], Sent(UnsignedZoneApproved(Key(zone, approved))), SigningStarted(zone, before));
    } else {
      approved :| Sent(UnsignedZoneApproved(Key(zone, approved))) in h[..i];
    }
    PrecedesIn(h, i, Sent(UnsignedZoneApproved(Key(zone, approved))));
  }

  /** The steps that lead to a zone being published at a serial. */
  ghost predicate Chain(h: History, key: Key, approved: nat, again: bool) {
    && Precedes(h, Sent(UnsignedZoneUpdated(Key(key.zone, approved))),
                Sent(UnsignedZoneApproved(Key(key.zone, approved))))
    && Precedes(h, Sent(UnsignedZoneApproved(Key(key.zone, approved))), SigningStarted(key.zone, again))
    && Precedes(h, SigningStarted(key.zone, again), Sent(ZoneSigned(key)))
    && Precedes(h, Sent(ZoneSigned(key)), Sent(SignedZoneApproved(key)))
    && Precedes(h, Sent(SignedZoneApproved(key)), Deed.Published(key))
  }

  lemma ChainOf(h: History, key: Key)
    requires Justified(h) && Deed.Published(key) in h
    ensures exists approved, again :: Chain(h, key, approved, again)
  {
    PublishingFollows(h, key);
    var again := SigningStartedBefore(h, key);
    var approved := SigningFollowsApproval(h, key.zone, again);
    var approval := Sent(UnsignedZoneApproved(Key(key.zone, approved)));
    PrecedesMeansIn(h, approval, SigningStarted(key.zone, again));
    DirectCause(h, Sent(UnsignedZoneUpdated(Key(key.zone, approved))), approval);
    assert Chain(h, key, approved, again);
  }

  /** In every run, a published zone was loaded, approved, signed, approved as signed and published, in this
      order, whatever the hooks do, whoever hands back tokens, and however the queues are served. */
  lemma PublishedZonesWereApproved(actions: seq<Action>, hooks: map<Unit, nat>, zone: string)
    requires IsRun(INIT, actions, hooks) && zone in Run(INIT, actions, hooks).published
    ensures exists key: Key, approved, again ::
              key.zone == zone && Chain(Run(INIT, actions, hooks).history, key, approved, again)
  {
    RunKeepsOk(INIT, actions, hooks);
    var h := Run(INIT, actions, hooks).history;
    var s: nat :| Deed.Published(Key(zone, s)) in h;
    ChainOf(h, Key(zone, s));
  }

  /** The server of published zones is never asked for an approval: none is ever pending with it, and it
      never panics over one. */
  lemma PublisherNeverApproves(actions: seq<Action>, hooks: map<Unit, nat>)
    requires IsRun(INIT, actions, hooks)
    ensures var st := Run(INIT, actions, hooks);
            !st.panicked && PS in st.reviews && st.reviews[PS].pending == map[]
  {
    RunKeepsOk(INIT, actions, hooks);
    var st := Run(INIT, actions, hooks);
    assert PendingOk(st.reviews[PS], PS, st.history);
  }
}
