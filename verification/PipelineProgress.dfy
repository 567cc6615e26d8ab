/** That the pipeline can always go on: any zone can still be published, and signed again. */
module PipelineProgress {
  import opened Options
  import opened Payload
  import opened ReviewServer
  import opened Pipeline
  import ReviewApproval
  import ReviewHistory
  import PublishedContent

  //// Reaching a state ////

  ghost predicate CanReach(st: State, st': State, hooks: map<Unit, nat>) {
    exists actions :: IsRun(st, actions, hooks) && Run(st, actions, hooks) == st'
  }

  lemma {:induction false} RunConcat(st: State, a: seq<Action>, b: seq<Action>, hooks: map<Unit, nat>)
    requires IsRun(st, a, hooks) && IsRun(Run(st, a, hooks), b, hooks)
    ensures IsRun(st, a + b, hooks) && Run(st, a + b, hooks) == Run(Run(st, a, hooks), b, hooks)
    decreases |a|
  {
    if a == [] {
      assert a + b == b;
    } else {
      assert (a + b)[0] == a[0] && (a + b)[1..] == a[1..] + b;
      RunConcat(Next(st, a[0], hooks), a[1..], b, hooks);
    }
  }

  lemma ReachOn(st: State, st1: State, st2: State, hooks: map<Unit, nat>)
    requires CanReach(st, st1, hooks) && CanReach(st1, st2, hooks)
    ensures CanReach(st, st2, hooks)
  {
    var a :| IsRun(st, a, hooks) && Run(st, a, hooks) == st1;
    var b :| IsRun(st1, b, hooks) && Run(st1, b, hooks) == st2;
    RunConcat(st, a, b, hooks);
  }

  lemma ReachStep(st: State, a: Action, hooks: map<Unit, nat>)
    requires Enabled(st, a, hooks)
    ensures CanReach(st, Next(st, a, hooks), hooks)
  {
    var st', actions := Next(st, a, hooks), [a];
    assert actions[0] == a && actions[1..] == [];
    assert IsRun(st', [], hooks) && Run(st', [], hooks) == st';
    assert IsRun(st, actions, hooks);
    assert Run(st, actions, hooks) == Run(st', actions[1..], hooks);
  }

  //// One update after the other ////

  /** Nothing is queued or under way except for updates. */
  predicate Idle(st: State) {
    && !st.panicked && st.commands == [] && st.signing.None?
    && st.inboxes == map[ZL := [], KM := [], ZS := [], RS := [], RS2 := [], PS := []]
    && st.reviews.Keys == REVIEWERS
  }

  /** A command is all that is queued. */
  function WithCommand(st: State, unit: Unit, command: Command): State {
    st.(updates := [], inboxes := st.inboxes[unit := [command]])
  }

  lemma CommandArrives(st: State, hooks: map<Unit, nat>, unit: Unit, command: Command)
    requires Idle(st) && st.updates == []
    ensures CanReach(st.(commands := [(unit, command)]), WithCommand(st, unit, command), hooks)
  {
    var queued := st.(commands := [(unit, command)]);
    ReachStep(queued, Forward, hooks);
    assert st.inboxes[unit] + [command] == [command];
    assert Next(queued, Forward, hooks) == WithCommand(st, unit, command);
  }

  lemma UpdateArrives(st: State, hooks: map<Unit, nat>, unit: Unit, command: Command)
    requires Idle(st) && |st.updates| == 1 && Direct(st.updates[0]) == [(unit, command)]
    ensures CanReach(st, WithCommand(st, unit, command), hooks)
  {
    var taken := st.(updates := []);
    ReachStep(st, TakeUpdate, hooks);
    assert st.updates[1..] == [] && st.commands + [(unit, command)] == [(unit, command)];
    assert Next(st, TakeUpdate, hooks) == taken.(commands := [(unit, command)]);
    CommandArrives(taken, hooks, unit, command);
    ReachOn(st, taken.(commands := [(unit, command)]), WithCommand(taken, unit, command), hooks);
  }

  function HandledBy(st: State, unit: Unit, command: Command): State {
    Record(st.(updates := []), Handled(unit, command))
  }

  lemma CommandIsHandled(st: State, hooks: map<Unit, nat>, unit: Unit, command: Command, started: seq<bool>)
    requires Idle(st) && (unit in REVIEWERS ==> unit in hooks && |started| == hooks[unit])
    ensures var done := HandledBy(st, unit, command);
            CanReach(WithCommand(st, unit, command),
                     if unit in REVIEWERS then HandleReview(done, unit, command, started)
                     else if unit == ZS then HandleSigning(done, command, true)
                     else done, hooks)
  {
    var queued := WithCommand(st, unit, command);
    assert queued.inboxes[unit] == [command] && [command][1..] == [];
    assert queued.inboxes[unit := []] == st.inboxes;
    ReachStep(queued, Handle(unit, started, true), hooks);
  }

  //// Review ////

  const REVIEWING: set<Unit> := {RS, RS2}

  function SeekCommand(unit: Unit, key: Key): Command {
    if unit == RS then SeekApprovalForUnsignedZone(key) else SeekApprovalForSignedZone(key)
  }

  /** One review server has done something, the rest is as before. */
  ghost predicate OnlyReviewed(st: State, st': State, unit: Unit) {
    && Idle(st) && Idle(st')
    && st' == st.(updates := st'.updates, reviews := st'.reviews, history := st'.history)
    && (forall u :: u in REVIEWERS && u != unit ==> st'.reviews[u] == st.reviews[u])
    && (forall d :: d in st.history ==> d in st'.history)
  }

  lemma SettlingIsReview(st: State, unit: Unit, command: Command, result: Result)
    requires Idle(st) && unit in REVIEWING
    ensures var st' := Settle(HandledBy(st, unit, command), unit, result);
            && OnlyReviewed(st, st', unit) && st'.reviews[unit] == result.reviews
            && st'.updates == Updates(SourceOf(unit), result.observed)
  {
  }

  /** Someone hands a token back to approve. */
  lemma TokenIsHandedBack(st: State, hooks: map<Unit, nat>, unit: Unit, key: Key, token: Token) returns (st': State)
    requires Idle(st) && st.updates == [] && unit in REVIEWING && unit in hooks
    ensures CanReach(st, st', hooks)
    ensures st' == HandleReview(HandledBy(st, unit, HandleZoneReview(key, Some(token), Approve)), unit,
                                HandleZoneReview(key, Some(token), Approve), [])
  {
    var command := HandleZoneReview(key, Some(token), Approve);
    var started := seq(hooks[unit], i requires 0 <= i < hooks[unit] => true);
    st' := HandleReview(HandledBy(st, unit, command), unit, command, started);
    ReachStep(st, Review(unit, key, Some(token), Approve), hooks);
    assert Next(st, Review(unit, key, Some(token), Approve), hooks) == st.(commands := [(unit, command)]);
    CommandArrives(st, hooks, unit, command);
    CommandIsHandled(st, hooks, unit, command, started);
    ReachOn(st, st.(commands := [(unit, command)]), WithCommand(st, unit, command), hooks);
    ReachOn(st, WithCommand(st, unit, command), st', hooks);
  }

  /** Handing back the pending tokens one after the other announces the approval. */
  lemma {:induction false} TokensAreHandedBack(st: State, hooks: map<Unit, nat>, unit: Unit, key: Key)
    returns (st': State)
    requires Idle(st) && st.updates == [] && unit in REVIEWING && unit in hooks
    requires AsksForTokens(st.reviews[unit], key)
    ensures CanReach(st, st', hooks) && OnlyReviewed(st, st', unit)
    ensures st'.updates == [ReviewApproval.ApprovalOf(SourceOf(unit), key)]
    decreases |st.reviews[unit].pending[key]|
  {
    var tokens := st.reviews[unit].pending[key];
    var st1 := TokenIsHandedBack(st, hooks, unit, key, tokens[0]);
    if |tokens| == 1 {
      LastSettles(st, unit, key);
      st' := st1;
    } else {
      FirstSettles(st, unit, key);
      st' := TokensAreHandedBack(st1, hooks, unit, key);
      ReachOn(st, st1, st', hooks);
    }
  }

  /** The first pending token is handed back to approve. */
  function FirstHandedBack(st: State, unit: Unit, key: Key): State
    requires unit in st.reviews && key in st.reviews[unit].pending && st.reviews[unit].pending[key] != []
  {
    var command := HandleZoneReview(key, Some(st.reviews[unit].pending[key][0]), Approve);
    HandleReview(HandledBy(st, unit, command), unit, command, [])
  }

  lemma LastSettles(st: State, unit: Unit, key: Key)
    requires Idle(st) && st.updates == [] && unit in REVIEWING
    requires key in st.reviews[unit].pending && |st.reviews[unit].pending[key]| == 1
    ensures var st' := FirstHandedBack(st, unit, key);
            OnlyReviewed(st, st', unit) && st'.updates == [ReviewApproval.ApprovalOf(SourceOf(unit), key)]
  {
    var token := st.reviews[unit].pending[key][0];
    var command, result := HandleZoneReview(key, Some(token), Approve),
                           ProcessRequest(st.reviews[unit], key, Some(token), Approve);
    LastToken(st.reviews[unit], key, SourceOf(unit));
    SettlingIsReview(st, unit, command, result);
    assert FirstHandedBack(st, unit, key) == Settle(HandledBy(st, unit, command), unit, result);
  }

  lemma FirstSettles(st: State, unit: Unit, key: Key)
    requires Idle(st) && st.updates == [] && unit in REVIEWING && AsksForTokens(st.reviews[unit], key)
    requires |st.reviews[unit].pending[key]| > 1
    ensures var st' := FirstHandedBack(st, unit, key);
            && OnlyReviewed(st, st', unit) && st'.updates == [] && AsksForTokens(st'.reviews[unit], key)
            && |st'.reviews[unit].pending[key]| < |st.reviews[unit].pending[key]|
  {
    var token := st.reviews[unit].pending[key][0];
    FirstToken(st.reviews[unit], key, SourceOf(unit));
    SettlingIsReview(st, unit, HandleZoneReview(key, Some(token), Approve),
                     ProcessRequest(st.reviews[unit], key, Some(token), Approve));
  }

  lemma LastToken(r: Reviews, key: Key, source: Source)
    requires key in r.pending && |r.pending[key]| == 1 && source != PublishedZones
    ensures var result := ProcessRequest(r, key, Some(r.pending[key][0]), Approve);
            Updates(source, result.observed) == [ReviewApproval.ApprovalOf(source, key)]
  {
    var token := r.pending[key][0];
    FirstIsFirst(r.pending[key]);
    assert Without(r.pending[key], 0) == [];
    AcceptedThenAnnounced(source, key, token);
    assert [Announced(key)][1..] == [];
  }

  lemma FirstToken(r: Reviews, key: Key, source: Source)
    requires key in r.pending && |r.pending[key]| > 1 && source != PublishedZones
    ensures var result := ProcessRequest(r, key, Some(r.pending[key][0]), Approve);
            && Updates(source, result.observed) == []
            && result.reviews == r.(pending := r.pending[key := r.pending[key][1..]])
  {
    FirstIsFirst(r.pending[key]);
    assert Without(r.pending[key], 0) == r.pending[key][1..];
    assert [Accepted(key, r.pending[key][0])][1..] == [];
  }

  lemma FirstIsFirst(tokens: seq<Token>)
    requires tokens != []
    ensures Position(tokens, tokens[0]) == Some(0) && tokens[0] in tokens
  {
  }

  /** A review server has taken what it was asked, and every hook could be started. */
  lemma ApprovalIsSought(st: State, hooks: map<Unit, nat>, unit: Unit, key: Key, started: seq<bool>)
    returns (st': State)
    requires Idle(st) && |st.updates| == 1 && unit in REVIEWING && unit in hooks && |started| == hooks[unit]
    requires Direct(st.updates[0]) == [(unit, SeekCommand(unit, key))]
    ensures CanReach(st, st', hooks)
    ensures st' == HandleReview(HandledBy(st, unit, SeekCommand(unit, key)), unit, SeekCommand(unit, key), started)
  {
    var command := SeekCommand(unit, key);
    st' := HandleReview(HandledBy(st, unit, command), unit, command, started);
    UpdateArrives(st, hooks, unit, command);
    CommandIsHandled(st, hooks, unit, command, started);
    ReachOn(st, WithCommand(st, unit, command), st', hooks);
  }

  lemma AnnouncedIsSent(source: Source, key: Key)
    requires source != PublishedZones
    ensures Updates(source, [Announced(key)]) == [ReviewApproval.ApprovalOf(source, key)]
  {
    assert [Announced(key)][1..] == [];
  }

  lemma SettledWithoutHooks(st: State, unit: Unit, key: Key)
    requires Idle(st) && unit in REVIEWING && key !in st.reviews[unit].approved
    ensures var st' := HandleReview(HandledBy(st, unit, SeekCommand(unit, key)), unit, SeekCommand(unit, key), []);
            OnlyReviewed(st, st', unit) && st'.updates == [ReviewApproval.ApprovalOf(SourceOf(unit), key)]
  {
    AnnouncedIsSent(SourceOf(unit), key);
    SettlingIsReview(st, unit, SeekCommand(unit, key), Seek(st.reviews[unit], key, []));
  }

  lemma SettledWithHooks(st: State, unit: Unit, key: Key, started: seq<bool>)
    requires Idle(st) && unit in REVIEWING && key !in st.reviews[unit].approved && key !in st.reviews[unit].pending
    requires started != [] && forall i :: 0 <= i < |started| ==> started[i]
    ensures var st' := HandleReview(HandledBy(st, unit, SeekCommand(unit, key)), unit, SeekCommand(unit, key), started);
            && OnlyReviewed(st, st', unit) && st'.updates == [] && AsksForTokens(st'.reviews[unit], key)
  {
    SeekingIsQuiet(st.reviews[unit], key, started, SourceOf(unit));
    SettlingIsReview(st, unit, SeekCommand(unit, key), Seek(st.reviews[unit], key, started));
  }

  /** Tokens are pending for the zone at this serial, and it is not approved. */
  ghost predicate AsksForTokens(r: Reviews, key: Key) {
    && key !in r.approved && key in r.pending
    && r.pending[key] != [] && ReviewApproval.AllDifferent(r.pending[key])
  }

  /** A review server that is asked for an approval it has not given can be brought to give it. */
  lemma ApprovalIsGiven(st: State, hooks: map<Unit, nat>, unit: Unit, key: Key) returns (st': State)
    requires Idle(st) && |st.updates| == 1 && unit in REVIEWING && unit in hooks
    requires Direct(st.updates[0]) == [(unit, SeekCommand(unit, key))]
    requires key !in st.reviews[unit].approved && key !in st.reviews[unit].pending
    ensures CanReach(st, st', hooks) && OnlyReviewed(st, st', unit)
    ensures st'.updates == [ReviewApproval.ApprovalOf(SourceOf(unit), key)]
  {
    var started := seq(hooks[unit], i requires 0 <= i < hooks[unit] => true);
    var st1 := ApprovalIsSought(st, hooks, unit, key, started);
    if started == [] {
      SettledWithoutHooks(st, unit, key);
      st' := st1;
    } else {
      SettledWithHooks(st, unit, key, started);
      st' := TokensAreHandedBack(st1, hooks, unit, key);
      ReachOn(st, st1, st', hooks);
    }
  }

  lemma {:induction false} NothingAnnounced(source: Source, h: seq<Observation>)
    requires source != PublishedZones && forall o :: o in h ==> !o.Announced?
    ensures Updates(source, h) == []
    decreases |h|
  {
    if h != [] {
      assert h[0] in h;
      NothingAnnounced(source, h[1..]);
    }
  }

  lemma SeekingIsQuiet(r: Reviews, key: Key, started: seq<bool>, source: Source)
    requires key !in r.approved && key !in r.pending && started != [] && source != PublishedZones
    requires forall i :: 0 <= i < |started| ==> started[i]
    ensures var result := Seek(r, key, started);
            Updates(source, result.observed) == [] && AsksForTokens(result.reviews, key)
  {
    var result := ReviewHistory.Step(r, ReviewHistory.Sought(key, started));
    ReviewApproval.SeekingIssuesTokens(r, key, started);
    assert ReviewApproval.LastFailure(started) == 0;
    assert [] + ReviewApproval.Fresh(r.nextToken, |started|) == ReviewApproval.Fresh(r.nextToken, |started|);
    NothingAnnounced(source, result.observed);
  }

  //// Signing ////

  /** The signer signs a zone, and is done. */
  ghost predicate OnlySigned(st: State, st': State, zone: string, serial: nat) {
    && Idle(st')
    && zone in st'.signed && Content(st', st'.signed[zone]) == Some(Version(serial, st.versions))
    && st'.unsigned == st.unsigned && st'.reviews == st.reviews
    && st'.updates == [ZoneSigned(Key(zone, serial))]
    && (forall d :: d in st.history ==> d in st'.history)
  }

  /** The signer has found what it was asked to sign. */
  ghost predicate WorksOn(st: State, working: State, zone: string, serial: nat) {
    && zone in working.signed && working.signed[zone] < |working.contents|
    && working == st.(updates := [], signed := working.signed, contents := working.contents, history := working.history,
                      signing := Some(Signing(zone, working.signed[zone], serial)))
    && (forall d :: d in st.history ==> d in working.history)
  }

  lemma SigningIsStarted(st: State, key: Key, command: Command)
    requires PublishedContent.Ok(st) && key.zone in st.unsigned && st.unsigned[key.zone] == key.serial
    requires command == SignZone(key.zone, Some(key.serial))
    ensures WorksOn(st, HandleSigning(HandledBy(st, ZS, command), command, true), key.zone, key.serial)
  {
  }

  lemma SigningEnds(st: State, working: State, hooks: map<Unit, nat>, key: Key)
    requires Idle(st) && WorksOn(st, working, key.zone, key.serial)
    ensures CanReach(working, Next(working, EndSigning(true), hooks), hooks)
    ensures OnlySigned(st, Next(working, EndSigning(true), hooks), key.zone, key.serial)
  {
    ReachStep(working, EndSigning(true), hooks);
  }

  lemma ApprovedZoneIsSigned(st: State, hooks: map<Unit, nat>, key: Key) returns (st': State)
    requires Idle(st) && PublishedContent.Ok(st) && st.updates == [UnsignedZoneApproved(key)]
    requires key.zone in st.unsigned && st.unsigned[key.zone] == key.serial
    ensures CanReach(st, st', hooks) && OnlySigned(st, st', key.zone, key.serial)
  {
    var command := SignZone(key.zone, Some(key.serial));
    var working := HandleSigning(HandledBy(st, ZS, command), command, true);
    UpdateArrives(st, hooks, ZS, command);
    CommandIsHandled(st, hooks, ZS, command, []);
    ReachOn(st, WithCommand(st, ZS, command), working, hooks);
    SigningIsStarted(st, key, command);
    SigningEnds(st, working, hooks, key);
    st' := Next(working, EndSigning(true), hooks);
    ReachOn(st, working, st', hooks);
  }

  //// Publication ////

  lemma ApprovedZoneIsPublished(st: State, hooks: map<Unit, nat>, key: Key) returns (st': State)
    requires Idle(st) && st.updates == [SignedZoneApproved(key)] && key.zone in st.signed && PS in hooks
    ensures CanReach(st, st', hooks) && Idle(st') && st'.updates == []
    ensures key.zone in st'.published && st'.published[key.zone] == st.signed[key.zone]
    ensures st'.contents == st.contents && Published(key) in st'.history
  {
    var started := seq(hooks[PS], i requires 0 <= i < hooks[PS] => true);
    var command := PublishSignedZone(key);
    st' := HandleReview(HandledBy(st, PS, command), PS, command, started);
    UpdateArrives(st, hooks, PS, command);
    CommandIsHandled(st, hooks, PS, command, started);
    ReachOn(st, WithCommand(st, PS, command), st', hooks);
  }

  //// The theorem ////

  /** The approval of the zone at this serial was neither given nor is it pending, for its unsigned and its signed
      form. */
  predicate IsNew(st: State, key: Key) {
    forall unit :: unit in REVIEWING ==>
      unit in st.reviews && key !in st.reviews[unit].approved && key !in st.reviews[unit].pending
  }

  /** The zone has just been loaded: it can be approved and signed. */
  lemma LoadedZoneIsSigned(before: seq<Action>, loaded: State, hooks: map<Unit, nat>, key: Key) returns (st': State)
    requires IsRun(INIT, before, hooks) && CanReach(Run(INIT, before, hooks), loaded, hooks) && RS in hooks
    requires Idle(loaded) && loaded.updates == [UnsignedZoneUpdated(key)] && IsNew(loaded, key)
    requires key.zone in loaded.unsigned && loaded.unsigned[key.zone] == key.serial
    ensures CanReach(loaded, st', hooks) && Idle(st') && key.zone in st'.signed
    ensures Content(st', st'.signed[key.zone]) == Some(Version(key.serial, loaded.versions))
    ensures st'.reviews.Keys == loaded.reviews.Keys && st'.reviews[RS2] == loaded.reviews[RS2]
    ensures st'.updates == [ZoneSigned(key)]
  {
    var approved := ApprovalIsGiven(loaded, hooks, RS, key);
    ReachOn(Run(INIT, before, hooks), loaded, approved, hooks);
    ReachableIsOk(before, approved, hooks);
    st' := ApprovedZoneIsSigned(approved, hooks, key);
    ReachOn(loaded, approved, st', hooks);
  }

  /** The zone has just been signed: it can be approved and published. */
  lemma SignedZoneIsPublished(signed: State, hooks: map<Unit, nat>, key: Key) returns (st': State)
    requires Idle(signed) && signed.updates == [ZoneSigned(key)] && key.zone in signed.signed
    requires key !in signed.reviews[RS2].approved && key !in signed.reviews[RS2].pending && {RS2, PS} <= hooks.Keys
    ensures CanReach(signed, st', hooks) && Idle(st') && st'.updates == []
    ensures Published(key) in st'.history && key.zone in st'.published
    ensures Content(st', st'.published[key.zone]) == Content(signed, signed.signed[key.zone])
  {
    var reviewed := ApprovalIsGiven(signed, hooks, RS2, key);
    st' := ApprovedZoneIsPublished(reviewed, hooks, key);
    ReachOn(signed, reviewed, st', hooks);
  }

  /**
   In every run: once nothing is queued or under way, every zone, whatever its earlier versions, can still be
   published at every serial that is new to the review servers, with any number of hooks.  What is published then is
   the content just signed, at this serial.
   */
  lemma AnyZoneCanBePublished(before: seq<Action>, hooks: map<Unit, nat>, key: Key) returns (actions: seq<Action>)
    requires IsRun(INIT, before, hooks) && REVIEWERS <= hooks.Keys
    requires var st := Run(INIT, before, hooks); Idle(st) && st.updates == [] && IsNew(st, key)
    ensures IsRun(INIT, before + actions, hooks)
    ensures var (st, st') := (Run(INIT, before, hooks), Run(INIT, before + actions, hooks));
            && Idle(st') && st'.updates == [] && Published(key) in st'.history && key.zone in st'.published
            && Content(st', st'.published[key.zone]) == Some(Version(key.serial, st.versions))
  {
    var st := Run(INIT, before, hooks);
    var loaded := Next(st, Load(key), hooks);
    ReachStep(st, Load(key), hooks);
    assert loaded.updates == [UnsignedZoneUpdated(key)];
    var signed := LoadedZoneIsSigned(before, loaded, hooks, key);
    ReachOn(st, loaded, signed, hooks);
    var published := SignedZoneIsPublished(signed, hooks, key);
    ReachOn(st, signed, published, hooks);
    actions :| IsRun(st, actions, hooks) && Run(st, actions, hooks) == published;
    RunConcat(INIT, before, actions, hooks);
  }

  lemma ReachableIsOk(before: seq<Action>, st: State, hooks: map<Unit, nat>)
    requires IsRun(INIT, before, hooks) && CanReach(Run(INIT, before, hooks), st, hooks)
    ensures PublishedContent.Ok(st)
  {
    var middle := Run(INIT, before, hooks);
    var actions :| IsRun(middle, actions, hooks) && Run(middle, actions, hooks) == st;
    RunConcat(INIT, before, actions, hooks);
    PublishedContent.ReachableIsOk(before + actions, hooks);
  }

  //// Signing again ////

  /** The signer takes the request to sign the zone again. */
  predicate TakesResigning(st: State, a: Action, hooks: map<Unit, nat>, zone: string) {
    && Enabled(st, a, hooks) && a.Handle? && a.unit == ZS
    && st.inboxes[ZS][0] == SignZone(zone, None)
  }

  /** Signing the zone again has started: with the serial that is published, and not in what is published. */
  ghost predicate Resigns(st: State, working: State, zone: string, serial: nat) {
    && zone in working.signed
    && working.signing == Some(Signing(zone, working.signed[zone], serial))
    && (forall z :: z in st.published ==> working.signed[zone] != st.published[z])
    && working.published == st.published
    && (forall z :: z in st.published ==> Content(working, st.published[z]) == Content(st, st.published[z]))
    && |working.history| == |st.history| + 2 && working.history[|st.history| + 1] == SigningStarted(zone, true)
  }

  /** Only the command was taken. */
  ghost predicate OnlyTook(st: State, st': State) {
    && ZS in st.inboxes && st.inboxes[ZS] != []
    && st' == st.(inboxes := st.inboxes[ZS := st.inboxes[ZS][1..]],
                  history := st.history + [Handled(ZS, st.inboxes[ZS][0])])
  }

  lemma ResigningWorks(st: State, command: Command, zone: string)
    requires PublishedContent.Ok(st) && st.signing.None? && command == SignZone(zone, None)
    requires zone in st.published && Content(st, st.published[zone]).Some?
    ensures Resigns(st, HandleSigning(Record(st, Handled(ZS, command)), command, true), zone,
                    Content(st, st.published[zone]).value.serial)
  {
  }

  lemma TakingResigns(st: State, a: Action, hooks: map<Unit, nat>, zone: string)
    requires PublishedContent.Ok(st) && TakesResigning(st, a, hooks, zone) && a.soa
    requires zone in st.published && Content(st, st.published[zone]).Some?
    ensures Resigns(st, Next(st, a, hooks), zone, Content(st, st.published[zone]).value.serial)
  {
    var taken := st.(inboxes := st.inboxes[ZS := st.inboxes[ZS][1..]]);
    PublishedContent.OkSame(st, taken);
    ResigningWorks(taken, SignZone(zone, None), zone);
  }

  lemma TakingDoesNothing(st: State, a: Action, hooks: map<Unit, nat>, zone: string)
    requires TakesResigning(st, a, hooks, zone)
    requires !(zone in st.published && Content(st, st.published[zone]).Some? && a.soa)
    ensures OnlyTook(st, Next(st, a, hooks))
  {
  }

  /** In every run: a request to sign a zone again starts a signing exactly if the zone is published with content and
      has an SOA, and otherwise does nothing. */
  lemma ResigningStartsIff(before: seq<Action>, hooks: map<Unit, nat>, a: Action, zone: string)
    requires IsRun(INIT, before, hooks) && TakesResigning(Run(INIT, before, hooks), a, hooks, zone)
    ensures var (st, st') := (Run(INIT, before, hooks), Next(Run(INIT, before, hooks), a, hooks));
            if zone in st.published && Content(st, st.published[zone]).Some? && a.soa then
              Resigns(st, st', zone, Content(st, st.published[zone]).value.serial)
            else
              OnlyTook(st, st')
  {
    var st := Run(INIT, before, hooks);
    if zone in st.published && Content(st, st.published[zone]).Some? && a.soa {
      PublishedContent.ReachableIsOk(before, hooks);
      TakingResigns(st, a, hooks, zone);
    } else {
      TakingDoesNothing(st, a, hooks, zone);
    }
  }

  predicate NoneEnds(actions: seq<Action>) {
    forall a :: a in actions ==> !a.EndSigning?
  }

  ghost predicate SameWork(st: State, st': State) {
    st'.signing == st.signing && st'.contents == st.contents && st'.versions == st.versions
  }

  lemma ReviewKeepsWork(st: State, unit: Unit, command: Command, started: seq<bool>)
    requires unit in st.reviews
    ensures SameWork(st, HandleReview(st, unit, command, started))
  {
    match command {
      case SeekApprovalForUnsignedZone(key) =>
        PublishedContent.SettleKeepsObjects(st, unit, Seek(st.reviews[unit], key, started));
      case SeekApprovalForSignedZone(key) =>
        PublishedContent.SettleKeepsObjects(st, unit, Seek(st.reviews[unit], key, started));
      case HandleZoneReview(key, token, operation) =>
        PublishedContent.SettleKeepsObjects(st, unit, ProcessRequest(st.reviews[unit], key, token, operation));
      case _ =>
    }
  }

  lemma StepKeepsWork(st: State, a: Action, hooks: map<Unit, nat>)
    requires Enabled(st, a, hooks) && st.signing.Some? && !a.EndSigning?
    ensures SameWork(st, Next(st, a, hooks))
  {
    if a.Handle? {
      var command := st.inboxes[a.unit][0];
      var taken := Record(st.(inboxes := st.inboxes[a.unit := st.inboxes[a.unit][1..]]), Handled(a.unit, command));
      if a.unit in REVIEWERS {
        ReviewKeepsWork(taken, a.unit, command, a.started);
      }
    } else {
      PublishedContent.OthersKeepObjects(st, a, hooks);
    }
  }

  /** The signer keeps to its work, and nobody else makes versions. */
  lemma {:induction false} SigningGoesOn(st: State, actions: seq<Action>, hooks: map<Unit, nat>)
    requires IsRun(st, actions, hooks) && st.signing.Some? && NoneEnds(actions)
    ensures SameWork(st, Run(st, actions, hooks))
    decreases |actions|
  {
    if actions != [] {
      StepKeepsWork(st, actions[0], hooks);
      SigningGoesOn(Next(st, actions[0], hooks), actions[1..], hooks);
    }
  }

  lemma SigningIsAnnounced(last: State, hooks: map<Unit, nat>)
    requires Enabled(last, EndSigning(true), hooks) && last.signing.value.target < |last.contents|
    ensures var (done, signing) := (Next(last, EndSigning(true), hooks), last.signing.value);
            && Content(done, signing.target) == Some(Version(signing.serial, last.versions))
            && done.updates == last.updates + [ZoneSigned(Key(signing.zone, signing.serial))]
  {
  }

  /** In every run: a zone that is published with content is signed again on request, whatever else happens until the
      signer is done; then the signed zone has new content with the published serial, and is announced to be signed. */
  lemma ResigningIsAnnounced(before: seq<Action>, hooks: map<Unit, nat>, a: Action, zone: string,
                             during: seq<Action>)
    requires IsRun(INIT, before, hooks) && TakesResigning(Run(INIT, before, hooks), a, hooks, zone) && a.soa
    requires var st := Run(INIT, before, hooks);
             && zone in st.published && Content(st, st.published[zone]).Some?
             && IsRun(Next(st, a, hooks), during, hooks) && NoneEnds(during)
             && Enabled(Run(Next(st, a, hooks), during, hooks), EndSigning(true), hooks)
    ensures var st := Run(INIT, before, hooks);
            var working := Next(st, a, hooks);
            var last := Run(working, during, hooks);
            var done := Next(last, EndSigning(true), hooks);
            var serial := Content(st, st.published[zone]).value.serial;
            && zone in working.signed
            && Content(done, working.signed[zone]) == Some(Version(serial, last.versions))
            && done.updates == last.updates + [ZoneSigned(Key(zone, serial))]
  {
    var st := Run(INIT, before, hooks);
    var working := Next(st, a, hooks);
    ResigningStartsIff(before, hooks, a, zone);
    PublishedContent.ReachableIsOk(before, hooks);
    PublishedContent.StepKeepsOk(st, a, hooks);
    SigningGoesOn(working, during, hooks);
    SigningIsAnnounced(Run(working, during, hooks), hooks);
  }
}
