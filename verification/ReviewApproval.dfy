/** That an approval which is sought can be had: what tokens are issued for it, and that handing them back suffices. */
module ReviewApproval {
  import opened Options
  import opened Payload
  import opened ReviewServer
  import opened ReviewHistory

  //// Seeking ////

  /** So many tokens, counting from the next one. */
  function Fresh(next: Token, n: nat): (tokens: seq<Token>)
    ensures |tokens| == n && forall i :: 0 <= i < n ==> tokens[i] == next + i
  {
    seq(n, i requires 0 <= i < n => next + i)
  }

  /** The tokens issued for a key, in order. */
  function TokensIssued(h: History, key: Key): seq<Token> {
    if h == [] then []
    else
      TokensIssued(h[..|h| - 1], key) + match h[|h| - 1]
                                        case Issued(k, t) => if k == key then [t] else []
                                        case _ => []
  }

  /** How many hooks there are up to and including the last that could not be started. */
  function LastFailure(started: seq<bool>): (n: nat)
    ensures n <= |started| && forall i :: n <= i < |started| ==> started[i]
    ensures n > 0 ==> !started[n - 1]
  {
    if started == [] then 0
    else if !started[|started| - 1] then |started|
    else LastFailure(started[..|started| - 1])
  }

  lemma {:induction false} IssuedConcat(a: History, b: History, key: Key)
    ensures TokensIssued(a + b, key) == TokensIssued(a, key) + TokensIssued(b, key)
  {
    if b == [] {
      assert a + b == a;
    } else {
      var n := |b| - 1;
      assert (a + b)[..|a + b| - 1] == a + b[..n];
      IssuedConcat(a, b[..n], key);
    }
  }

  lemma IssuedByHook(r: Reviews, key: Key, started: bool)
    ensures TokensIssued(RunHook(r, key, started).observed, key) == [r.nextToken]
  {
    var issued: History := [Issued(key, r.nextToken)];
    var cleared: History := [Cleared(key)];
    assert issued[..0] == [] && cleared[..0] == [];
    assert TokensIssued(issued, key) == [r.nextToken];
    IssuedConcat(issued, cleared, key);
    assert TokensIssued(cleared, key) == [];
    assert issued + cleared == [Issued(key, r.nextToken), Cleared(key)];
  }

  /** The failure that counts is later, or the first hook's. */
  lemma {:induction false} LaterFailure(started: seq<bool>)
    requires started != []
    ensures LastFailure(started) ==
            if LastFailure(started[1..]) > 0 then LastFailure(started[1..]) + 1 else if started[0] then 0 else 1
  {
    if |started| > 1 && started[|started| - 1] {
      LaterFailure(started[..|started| - 1]);
      assert started[1..][..|started| - 2] == started[..|started| - 1][1..];
    }
  }

  /** What seeking approval with hooks comes to: the tokens pending before, unless a hook failed, and those of the
      hooks after the last one that failed. */
  function PendingAfter(tokens: seq<Token>, next: Token, started: seq<bool>): seq<Token> {
    var failed := LastFailure(started);
    (if failed == 0 then tokens else []) + Fresh(next + failed, |started| - failed)
  }

  lemma {:induction false} HooksIssue(r: Reviews, key: Key, started: seq<bool>)
    ensures TokensIssued(RunHooks(r, key, started).observed, key) == Fresh(r.nextToken, |started|)
    decreases |started|
  {
    if started != [] {
      var first, rest := RunHook(r, key, started[0]), started[1..];
      IssuedByHook(r, key, started[0]);
      HooksIssue(first.reviews, key, rest);
      IssuedInTurn(first.observed, RunHooks(first.reviews, key, rest).observed, key, r.nextToken, |rest|);
    }
  }

  lemma IssuedInTurn(a: History, b: History, key: Key, next: Token, n: nat)
    requires TokensIssued(a, key) == [next] && TokensIssued(b, key) == Fresh(next + 1, n)
    ensures TokensIssued(a + b, key) == Fresh(next, n + 1)
  {
    IssuedConcat(a, b, key);
  }

  lemma {:induction false} HooksLeavePending(r: Reviews, key: Key, started: seq<bool>)
    ensures Tokens(RunHooks(r, key, started).reviews, key) == PendingAfter(Tokens(r, key), r.nextToken, started)
    decreases |started|
  {
    if started != [] {
      var first := RunHook(r, key, started[0]).reviews;
      HooksLeavePending(first, key, started[1..]);
      PendingStep(Tokens(r, key), r.nextToken, started);
      assert Tokens(first, key) == if started[0] then Tokens(r, key) + [r.nextToken] else [];
    } else {
      assert Tokens(r, key) + Fresh(r.nextToken, 0) == Tokens(r, key);
    }
  }

  lemma {:induction false} HooksOnlyIssue(r: Reviews, key: Key, started: seq<bool>)
    ensures var result := RunHooks(r, key, started);
            && result.reviews.approved == r.approved && result.reviews.nextToken == r.nextToken + |started|
            && result.reviews.pending - {key} == r.pending - {key}
            && (forall o :: o in result.observed ==> o == Cleared(key) || (o.Issued? && o.key == key))
    decreases |started|
  {
    if started != [] {
      var first := RunHook(r, key, started[0]).reviews;
      HooksOnlyIssue(first, key, started[1..]);
      assert first.pending - {key} == r.pending - {key};
    }
  }

  lemma PendingStep(tokens: seq<Token>, next: Token, started: seq<bool>)
    requires started != []
    ensures PendingAfter(tokens, next, started) ==
            PendingAfter(if started[0] then tokens + [next] else [], next + 1, started[1..])
  {
    LaterFailure(started);
    var failed := LastFailure(started[1..]);
    if failed == 0 && started[0] {
      assert tokens + [next] + Fresh(next + 1, |started| - 1) == tokens + Fresh(next, |started|);
    } else if failed == 0 {
      assert [] + Fresh(next + 1, |started| - 1) == Fresh(next + 1, |started| - 1);
    }
  }

  /**
   Seeking approval of a zone that is not approved yet, with hooks: each hook gets a fresh token, in order; then
   those tokens are pending that were before, if every hook could be started, and those of the hooks after the last
   one that could not.  Other zones and serials are left alone, and nothing is announced.
   */
  lemma SeekingIssuesTokens(r: Reviews, key: Key, started: seq<bool>)
    requires key !in r.approved && started != []
    ensures var result := Step(r, Sought(key, started));
            && TokensIssued(result.observed, key) == Fresh(r.nextToken, |started|)
            && Tokens(result.reviews, key) == PendingAfter(Tokens(r, key), r.nextToken, started)
            && result.reviews.approved == r.approved && result.reviews.nextToken == r.nextToken + |started|
            && result.reviews.pending - {key} == r.pending - {key}
            && (forall o :: o in result.observed ==> o == Cleared(key) || (o.Issued? && o.key == key))
  {
    HooksIssue(r, key, started);
    HooksLeavePending(r, key, started);
    HooksOnlyIssue(r, key, started);
  }

  /** Without hooks the approval is announced at once and leaves no trace; once approved, it is not sought again. */
  lemma SeekingWithoutHooks(r: Reviews, key: Key, started: seq<bool>)
    requires key in r.approved || started == []
    ensures Step(r, Sought(key, started)) == Result(r, if key in r.approved then [] else [Announced(key)])
  {
  }

  //// Handing back ////

  predicate AllDifferent(tokens: seq<Token>) {
    forall i, j :: 0 <= i < j < |tokens| ==> tokens[i] != tokens[j]
  }

  /** The action is about another zone or serial, or hands back a token to approve. */
  predicate Approving(a: Action, key: Key) {
    a.key != key || (a.Answered? && a.operation == Approve)
  }

  /** Every pending token of the zone and serial is handed back at some time. */
  ghost predicate AllHandedBack(tokens: seq<Token>, actions: seq<Action>, key: Key) {
    forall t :: t in tokens ==> Answered(key, Some(t), Approve) in actions
  }

  /** Actions on another zone or serial leave this one alone. */
  lemma OthersLeave(r: Reviews, a: Action, key: Key)
    requires a.key != key
    ensures var result := Step(r, a);
            && Tokens(result.reviews, key) == Tokens(r, key)
            && (key in result.reviews.pending <==> key in r.pending)
            && (key in result.reviews.approved <==> key in r.approved)
            && Announced(key) !in result.observed
  {
    if a.Sought? && a.key !in r.approved && a.started != [] {
      HooksOnlyIssue(r, a.key, a.started);
      var r' := Step(r, a).reviews;
      assert key in r'.pending <==> key in r'.pending - {a.key};
      assert key in r.pending <==> key in r.pending - {a.key};
      assert key in r.pending ==> (r'.pending - {a.key})[key] == (r.pending - {a.key})[key];
    }
  }

  lemma WithoutKeeps(tokens: seq<Token>, i: nat)
    requires AllDifferent(tokens) && i < |tokens|
    ensures AllDifferent(Without(tokens, i))
    ensures forall t :: t in Without(tokens, i) <==> t in tokens && t != tokens[i]
  {
    var rest := Without(tokens, i);
    assert forall j :: 0 <= j < |rest| ==> rest[j] == if j < i then tokens[j] else tokens[j + 1];
    forall t | t in tokens && t != tokens[i] ensures t in rest {
      var j :| 0 <= j < |tokens| && tokens[j] == t;
      assert rest[if j < i then j else j - 1] == t;
    }
  }

  /** Handing back a pending token that is not the only one takes just this token away. */
  lemma OneOfMany(r: Reviews, key: Key, token: Token)
    requires key in r.pending && AllDifferent(r.pending[key]) && token in r.pending[key]
    requires exists t :: t in r.pending[key] && t != token
    ensures var result := Step(r, Answered(key, Some(token), Approve));
            && key in result.reviews.pending && result.reviews.approved == r.approved
            && AllDifferent(result.reviews.pending[key]) && result.reviews.pending[key] != []
            && (forall t :: t in result.reviews.pending[key] <==> t in r.pending[key] && t != token)
            && result.observed == [Accepted(key, token)]
  {
    var i := Position(r.pending[key], token).value;
    WithoutKeeps(r.pending[key], i);
    var t :| t in r.pending[key] && t != token;
    assert t in Without(r.pending[key], i);
  }

  lemma FirstIsIn(tokens: seq<Token>)
    ensures tokens != [] ==> tokens[0] in tokens
  {
  }

  /** Handing back the only pending token announces the approval. */
  lemma TheOnlyOne(r: Reviews, key: Key, token: Token)
    requires key in r.pending && AllDifferent(r.pending[key]) && token in r.pending[key]
    requires forall t :: t in r.pending[key] ==> t == token
    ensures Step(r, Answered(key, Some(token), Approve)) ==
              Result(Reviews(r.pending - {key}, r.approved + {key}, r.nextToken),
                     [Accepted(key, token), Announced(key), Cleared(key)])
  {
    var i := Position(r.pending[key], token).value;
    WithoutKeeps(r.pending[key], i);
    FirstIsIn(Without(r.pending[key], i));
  }

  lemma AnnouncementsConcat(a: History, b: History, key: Key)
    ensures Announcements(a + b, key) == Announcements(a, key) + multiset(b)[Announced(key)]
  {
  }

  /** Nothing more is pending, so that approving further announces nothing more. */
  lemma {:induction false} ApprovedStays(r: Reviews, h: History, actions: seq<Action>, key: Key)
    requires key in r.approved && key !in r.pending && forall a :: a in actions ==> Approving(a, key)
    ensures var result := Run(r, h, actions);
            && key in result.reviews.approved && key !in result.reviews.pending
            && Announcements(result.observed, key) == Announcements(h, key)
    decreases |actions|
  {
    if actions != [] {
      var a := actions[0];
      var step := Step(r, a);
      assert a in actions && forall b :: b in actions[1..] ==> b in actions;
      if a.key != key {
        OthersLeave(r, a, key);
      }
      AnnouncementsConcat(h, step.observed, key);
      ApprovedStays(step.reviews, h + step.observed, actions[1..], key);
    }
  }

  /**
   Handing back every pending token to approve, each at some time, in any order, mixed with whatever happens to
   other zones and serials, announces the approval, and once.
   */
  lemma {:induction false} HandingBackApproves(r: Reviews, h: History, actions: seq<Action>, key: Key)
    requires key in r.pending && r.pending[key] != [] && AllDifferent(r.pending[key]) && key !in r.approved
    requires forall a :: a in actions ==> Approving(a, key)
    requires AllHandedBack(r.pending[key], actions, key)
    ensures var result := Run(r, h, actions);
            && key in result.reviews.approved && key !in result.reviews.pending
            && Announcements(result.observed, key) == Announcements(h, key) + 1
    decreases |actions|
  {
    var tokens := r.pending[key];
    assert tokens[0] in tokens;
    var a, rest := actions[0], actions[1..];
    var step := Step(r, a);
    assert actions == [a] + rest && a in actions && forall b :: b in rest ==> b in actions;
    AnnouncementsConcat(h, step.observed, key);
    if a.key != key {
      OthersLeave(r, a, key);
      HandingBackApproves(step.reviews, h + step.observed, rest, key);
    } else if !Matches(r, key, a.token) {
      HandingBackApproves(step.reviews, h + step.observed, rest, key);
    } else if exists t :: t in tokens && t != a.token.value {
      OneOfMany(r, key, a.token.value);
      HandingBackApproves(step.reviews, h + step.observed, rest, key);
    } else {
      TheOnlyOne(r, key, a.token.value);
      ApprovedStays(step.reviews, h + step.observed, rest, key);
    }
  }

  //// From seeking to approval ////

  /** In every run the pending tokens of a zone and serial are all different. */
  lemma PendingAreDifferent(result: Result, hooks: nat, key: Key)
    requires Reachable(result, hooks)
    ensures AllDifferent(Tokens(result.reviews, key))
  {
    ReachableIsOk(result, hooks);
    var tokens := Tokens(result.reviews, key);
    forall i, j | 0 <= i < j < |tokens| ensures tokens[i] != tokens[j] {
      assert TokenOk(result.reviews, result.observed, key, tokens[i]);
      if tokens[i] == tokens[j] {
        TwiceCounts(tokens, i, j);
        assert false;
      }
    }
  }

  lemma TwiceCounts(tokens: seq<Token>, i: nat, j: nat)
    requires i < j < |tokens| && tokens[i] == tokens[j]
    ensures multiset(tokens)[tokens[i]] >= 2
  {
    assert tokens == tokens[..j] + [tokens[j]] + tokens[j + 1..];
    assert tokens[..j][i] == tokens[i] && tokens[i] in multiset(tokens[..j]);
  }

  lemma ReachableOn(result: Result, hooks: nat, a: Action)
    requires Reachable(result, hooks) && Possible(a, hooks)
    ensures var step := Step(result.reviews, a); Reachable(Result(step.reviews, result.observed + step.observed), hooks)
  {
    var actions :| PossibleRun(actions, hooks) && Run(NO_REVIEWS, [], actions) == result;
    RunOn(NO_REVIEWS, [], actions, a);
    var step := Step(result.reviews, a);
    assert PossibleRun(actions + [a], hooks);
    assert Run(NO_REVIEWS, [], actions + [a]) == Result(step.reviews, result.observed + step.observed);
  }

  lemma {:induction false} RunOn(r: Reviews, h: History, actions: seq<Action>, a: Action)
    ensures var result := Run(r, h, actions);
            var step := Step(result.reviews, a);
            Run(r, h, actions + [a]) == Result(step.reviews, result.observed + step.observed)
    decreases |actions|
  {
    if actions == [] {
      assert [] + [a] == [a] && [a][1..] == [];
    } else {
      assert (actions + [a])[0] == actions[0] && (actions + [a])[1..] == actions[1..] + [a];
      var step := Step(r, actions[0]);
      RunOn(step.reviews, h + step.observed, actions[1..], a);
    }
  }

  /**
   In every run of a server with hooks: once approval of a zone that is not approved is sought and the last hook
   could be started, handing back every token then pending to approve, mixed with whatever happens to other zones
   and serials, announces the approval just once.
   */
  lemma SoughtApprovalIsReached(result: Result, hooks: nat, key: Key, started: seq<bool>, actions: seq<Action>)
    requires Reachable(result, hooks) && key !in result.reviews.approved
    requires |started| == hooks > 0 && started[hooks - 1]
    requires forall a :: a in actions ==> Approving(a, key)
    requires AllHandedBack(PendingAfter(Tokens(result.reviews, key), result.reviews.nextToken, started), actions, key)
    ensures var sought := Step(result.reviews, Sought(key, started));
            var end := Run(sought.reviews, result.observed + sought.observed, actions);
            && key in end.reviews.approved && Announcements(result.observed, key) == 0
            && Announcements(end.observed, key) == 1
  {
    var sought := Step(result.reviews, Sought(key, started));
    var h := result.observed + sought.observed;
    ReachableIsOk(result, hooks);
    assert KeyOk(result.reviews, result.observed, hooks, key);
    SeekingIssuesTokens(result.reviews, key, started);
    AnnouncementsConcat(result.observed, sought.observed, key);
    ReachableOn(result, hooks, Sought(key, started));
    PendingAreDifferent(Result(sought.reviews, h), hooks, key);
    assert LastFailure(started) < hooks;
    HandingBackApproves(sought.reviews, h, actions, key);
  }

  /** Some answers lead to an announcement without the approval being sought again. */
  ghost predicate CanBeApproved(r: Reviews, h: History, key: Key) {
    exists actions: seq<Action> :: (forall a :: a in actions ==> !(a.Sought? && a.key == key))
                      && Announcements(Run(r, h, actions).observed, key) > Announcements(h, key)
  }

  function ApproveAll(key: Key, tokens: seq<Token>): (actions: seq<Action>)
    ensures forall a :: a in actions ==> a.Answered? && a.key == key && a.operation == Approve
  {
    seq(|tokens|, i requires 0 <= i < |tokens| => Answered(key, Some(tokens[i]), Approve))
  }

  lemma AllAreHandedBack(key: Key, tokens: seq<Token>)
    ensures AllHandedBack(tokens, ApproveAll(key, tokens), key)
  {
    forall t | t in tokens ensures Answered(key, Some(t), Approve) in ApproveAll(key, tokens) {
      var i :| 0 <= i < |tokens| && tokens[i] == t;
      assert ApproveAll(key, tokens)[i] == Answered(key, Some(t), Approve);
    }
  }

  /** In every run of a server with hooks, an approval that is sought can then be had exactly if the last hook could
      be started; otherwise it has to be sought again. */
  lemma ApprovalIffLastStarted(result: Result, hooks: nat, key: Key, started: seq<bool>)
    requires Reachable(result, hooks) && key !in result.reviews.approved && |started| == hooks > 0
    ensures var sought := Step(result.reviews, Sought(key, started));
            CanBeApproved(sought.reviews, result.observed + sought.observed, key) <==> started[hooks - 1]
  {
    var sought := Step(result.reviews, Sought(key, started));
    var h := result.observed + sought.observed;
    SeekingIssuesTokens(result.reviews, key, started);
    AnnouncementsConcat(result.observed, sought.observed, key);
    if started[hooks - 1] {
      var actions := ApproveAll(key, Tokens(sought.reviews, key));
      AllAreHandedBack(key, Tokens(sought.reviews, key));
      SoughtApprovalIsReached(result, hooks, key, started, actions);
      assert Announcements(Run(sought.reviews, h, actions).observed, key) > Announcements(h, key);
    } else {
      assert LastFailure(started) == hooks;
      ReachableOn(result, hooks, Sought(key, started));
      ReachableIsOk(Result(sought.reviews, h), hooks);
      assert KeyOk(sought.reviews, h, hooks, key);
      forall actions: seq<Action> | forall a :: a in actions ==> !(a.Sought? && a.key == key)
        ensures Announcements(Run(sought.reviews, h, actions).observed, key) == Announcements(h, key)
      {
        NothingWithoutSeeking(sought.reviews, h, actions, key);
      }
    }
  }

  //// What others are told ////

  /** The update for an approval by a server of unsigned or of signed zones. */
  function ApprovalOf(source: Source, key: Key): Update {
    if source == UnsignedZones then UnsignedZoneApproved(key) else SignedZoneApproved(key)
  }

  lemma UpdatesStep(source: Source, h: History)
    requires source != PublishedZones && h != []
    ensures Updates(source, h) ==
              (if h[0].Announced? then [ApprovalOf(source, h[0].key)] else []) + Updates(source, h[1..])
  {
  }

  /** What a server sends is just its announcements, each as an update for its kind of zone. */
  lemma {:induction false} UpdatesAreApprovals(source: Source, h: History)
    requires source != PublishedZones
    ensures forall u :: u in Updates(source, h) ==> exists k :: u == ApprovalOf(source, k)
    decreases |h|
  {
    if h != [] {
      UpdatesStep(source, h);
      UpdatesAreApprovals(source, h[1..]);
    }
  }

  lemma {:induction false} UpdatesAreAnnouncements(source: Source, h: History, key: Key)
    requires source != PublishedZones
    ensures multiset(Updates(source, h))[ApprovalOf(source, key)] == Announcements(h, key)
    decreases |h|
  {
    if h != [] {
      UpdatesStep(source, h);
      UpdatesAreAnnouncements(source, h[1..], key);
      assert h == [h[0]] + h[1..];
    }
  }
}
