/** What holds over whole runs of one review server. */
module ReviewHistory {
  import opened Options
  import opened Payload
  import opened ReviewServer

  datatype Action =
    | Sought(key: Key, started: seq<bool>)
    | Answered(key: Key, token: Option<Token>, operation: Operation)

  type History = seq<Observation>

  predicate Possible(a: Action, hooks: nat) {
    a.Sought? ==> |a.started| == hooks
  }

  function Step(r: Reviews, a: Action): Result {
    match a
    case Sought(key, started) => Seek(r, key, started)
    case Answered(key, token, operation) => ProcessRequest(r, key, token, operation)
  }

  /** The reviews after a run and all that happened, earlier history first. */
  function Run(r: Reviews, earlier: History, actions: seq<Action>): Result
    decreases |actions|
  {
    if actions == [] then Result(r, earlier)
    else
      var step := Step(r, actions[0]);
      Run(step.reviews, earlier + step.observed, actions[1..])
  }

  predicate PossibleRun(actions: seq<Action>, hooks: nat) {
    forall a :: a in actions ==> Possible(a, hooks)
  }

  //// Tokens since the last clearing ////

  /** The tokens issued for a key since its approvals were last cleared. */
  function IssuedSince(h: History, key: Key): multiset<Token> {
    if h == [] then multiset{}
    else
      var earlier := IssuedSince(h[..|h| - 1], key);
      match h[|h| - 1]
      case Issued(k, t) => if k == key then earlier + multiset{t} else earlier
      case Cleared(k) => if k == key then multiset{} else earlier
      case _ => earlier
  }

  function AcceptedSince(h: History, key: Key): multiset<Token> {
    if h == [] then multiset{}
    else
      var earlier := AcceptedSince(h[..|h| - 1], key);
      match h[|h| - 1]
      case Accepted(k, t) => if k == key then earlier + multiset{t} else earlier
      case Cleared(k) => if k == key then multiset{} else earlier
      case _ => earlier
  }

  function Announcements(h: History, key: Key): nat {
    multiset(h)[Announced(key)]
  }

  /** Whenever an approval was announced, every token issued for it since its last clearing had been handed
      back to approve, and with hooks there was at least one. */
  ghost predicate AllAccepted(h: History, hooks: nat) {
    h == [] ||
    var (earlier, last) := (h[..|h| - 1], h[|h| - 1]);
    && AllAccepted(earlier, hooks)
    && (last.Announced? ==>
          && AcceptedSince(earlier, last.key) == IssuedSince(earlier, last.key)
          && (hooks > 0 ==> IssuedSince(earlier, last.key) != multiset{}))
  }

  /** What one more observation does to the tokens since the last clearing. */
  lemma Extend(h: History, o: Observation, key: Key)
    ensures IssuedSince(h + [o], key) == if o == Cleared(key) then multiset{}
                                         else if o.Issued? && o.key == key then IssuedSince(h, key) + multiset{o.token}
                                         else IssuedSince(h, key)
    ensures AcceptedSince(h + [o], key) == if o == Cleared(key) then multiset{}
                                           else if o.Accepted? && o.key == key
                                           then AcceptedSince(h, key) + multiset{o.token}
                                           else AcceptedSince(h, key)
    ensures Announcements(h + [o], key) == Announcements(h, key) + if o == Announced(key) then 1 else 0
  {
    assert (h + [o])[..|h + [o]| - 1] == h;
  }

  lemma ExtendAll(h: History, o: Observation, hooks: nat)
    requires AllAccepted(h, hooks)
    requires o.Announced? ==> AcceptedSince(h, o.key) == IssuedSince(h, o.key)
                              && (hooks > 0 ==> IssuedSince(h, o.key) != multiset{})
    ensures AllAccepted(h + [o], hooks)
  {
    assert (h + [o])[..|h + [o]| - 1] == h;
  }

  lemma Append(tokens: seq<Token>, token: Token)
    ensures multiset(tokens + [token]) == multiset(tokens) + multiset{token}
  {
  }

  //// The invariant ////

  ghost predicate KeyOk(r: Reviews, h: History, hooks: nat, key: Key) {
    && IssuedSince(h, key) == AcceptedSince(h, key) + multiset(Tokens(r, key))
    && (key in r.pending ==> r.pending[key] != [] && hooks > 0 && key !in r.approved)
    && (hooks > 0 ==> Announcements(h, key) == if key in r.approved then 1 else 0)
  }

  /** A token is pending or accepted at most as often as it was issued, and that is once. */
  ghost predicate TokenOk(r: Reviews, h: History, key: Key, t: Token) {
    && multiset(h)[Accepted(key, t)] + multiset(Tokens(r, key))[t] <= multiset(h)[Issued(key, t)]
    && multiset(h)[Issued(key, t)] <= if t < r.nextToken then 1 else 0
  }

  ghost predicate Ok(r: Reviews, h: History, hooks: nat) {
    && (forall key :: KeyOk(r, h, hooks, key))
    && (forall key, t :: TokenOk(r, h, key, t))
    && AllAccepted(h, hooks)
  }

  function WithToken(r: Reviews, key: Key): Reviews {
    r.(pending := r.pending[key := Tokens(r, key) + [r.nextToken]], nextToken := r.nextToken + 1)
  }

  lemma IssueKey(r: Reviews, h: History, hooks: nat, key: Key, k: Key)
    requires KeyOk(r, h, hooks, k) && hooks > 0 && key !in r.approved
    ensures KeyOk(WithToken(r, key), h + [Issued(key, r.nextToken)], hooks, k)
  {
    Extend(h, Issued(key, r.nextToken), k);
    if k == key {
      Append(Tokens(r, key), r.nextToken);
      assert Tokens(WithToken(r, key), k) == Tokens(r, key) + [r.nextToken];
    } else {
      assert Tokens(WithToken(r, key), k) == Tokens(r, k);
    }
  }

  lemma Issue(r: Reviews, h: History, hooks: nat, key: Key)
    requires Ok(r, h, hooks) && hooks > 0 && key !in r.approved
    ensures Ok(WithToken(r, key), h + [Issued(key, r.nextToken)], hooks)
  {
    var o := Issued(key, r.nextToken);
    forall k ensures KeyOk(WithToken(r, key), h + [o], hooks, k) {
      assert KeyOk(r, h, hooks, k);
      IssueKey(r, h, hooks, key, k);
    }
    forall k, t ensures TokenOk(WithToken(r, key), h + [o], k, t) {
      assert TokenOk(r, h, k, t);
      Append(Tokens(r, key), r.nextToken);
    }
    ExtendAll(h, o, hooks);
  }

  lemma Clear(r: Reviews, h: History, hooks: nat, key: Key)
    requires Ok(r, h, hooks)
    ensures Ok(r.(pending := r.pending - {key}), h + [Cleared(key)], hooks)
  {
    var o := Cleared(key);
    var r' := r.(pending := r.pending - {key});
    forall k ensures KeyOk(r', h + [o], hooks, k) {
      assert KeyOk(r, h, hooks, k);
      Extend(h, o, k);
    }
    forall k, t ensures TokenOk(r', h + [o], k, t) {
      assert TokenOk(r, h, k, t);
    }
    ExtendAll(h, o, hooks);
  }

  lemma WithoutOne(tokens: seq<Token>, i: nat)
    requires i < |tokens|
    ensures multiset(tokens) == multiset(Without(tokens, i)) + multiset{tokens[i]}
  {
    assert tokens == tokens[..i] + [tokens[i]] + tokens[i + 1..];
  }

  lemma SplitToken(issued: multiset<Token>, accepted: multiset<Token>, left: multiset<Token>, token: Token)
    requires issued == accepted + (left + multiset{token})
    ensures issued == accepted + multiset{token} + left
  {
  }

  lemma AcceptKey(r: Reviews, h: History, hooks: nat, key: Key, i: nat, k: Key)
    requires KeyOk(r, h, hooks, k) && key in r.pending && i < |r.pending[key]| && Without(r.pending[key], i) != []
    ensures KeyOk(r.(pending := r.pending[key := Without(r.pending[key], i)]), h + [Accepted(key, r.pending[key][i])],
                  hooks, k)
  {
    var r' := r.(pending := r.pending[key := Without(r.pending[key], i)]);
    Extend(h, Accepted(key, r.pending[key][i]), k);
    if k == key {
      WithoutOne(r.pending[key], i);
      var left := multiset(Without(r.pending[key], i));
      assert multiset(Tokens(r', k)) == left && multiset(Tokens(r, k)) == left + multiset{r.pending[key][i]};
      SplitToken(IssuedSince(h, key), AcceptedSince(h, key), left, r.pending[key][i]);
    } else {
      assert Tokens(r', k) == Tokens(r, k);
    }
  }

  lemma AcceptToken(r: Reviews, h: History, hooks: nat, key: Key, i: nat, k: Key, t: Token)
    requires Ok(r, h, hooks) && key in r.pending && i < |r.pending[key]|
    ensures TokenOk(r.(pending := r.pending[key := Without(r.pending[key], i)]),
                    h + [Accepted(key, r.pending[key][i])], k, t)
  {
    assert TokenOk(r, h, k, t);
    WithoutOne(r.pending[key], i);
  }

  /** Handing back a token that is not the last one. */
  lemma AcceptSome(r: Reviews, h: History, hooks: nat, key: Key, i: nat)
    requires Ok(r, h, hooks) && key in r.pending && i < |r.pending[key]| && Without(r.pending[key], i) != []
    ensures Ok(r.(pending := r.pending[key := Without(r.pending[key], i)]), h + [Accepted(key, r.pending[key][i])],
               hooks)
  {
    var o := Accepted(key, r.pending[key][i]);
    var r' := r.(pending := r.pending[key := Without(r.pending[key], i)]);
    forall k ensures KeyOk(r', h + [o], hooks, k) {
      assert KeyOk(r, h, hooks, k);
      AcceptKey(r, h, hooks, key, i, k);
    }
    forall k, t ensures TokenOk(r', h + [o], k, t) {
      AcceptToken(r, h, hooks, key, i, k, t);
    }
    ExtendAll(h, o, hooks);
  }

  lemma AcceptedAll(r: Reviews, h: History, hooks: nat, key: Key, token: Token)
    requires KeyOk(r, h, hooks, key) && Tokens(r, key) == [token]
    ensures var h1 := h + [Accepted(key, token)];
            IssuedSince(h1, key) == AcceptedSince(h1, key) && token in IssuedSince(h1, key)
  {
    Extend(h, Accepted(key, token), key);
  }

  lemma AcceptLastKey(r: Reviews, h: History, hooks: nat, key: Key, token: Token, k: Key)
    requires KeyOk(r, h, hooks, k) && key in r.pending && r.pending[key] == [token] && key !in r.approved
    ensures KeyOk(Reviews(r.pending - {key}, r.approved + {key}, r.nextToken),
                  h + [Accepted(key, token)] + [Announced(key)] + [Cleared(key)], hooks, k)
  {
    var h1 := h + [Accepted(key, token)];
    var h2 := h1 + [Announced(key)];
    Extend(h, Accepted(key, token), k);
    Extend(h1, Announced(key), k);
    Extend(h2, Cleared(key), k);
    if k != key {
      LeavesOthers(r, h, h2 + [Cleared(key)], hooks, key, k);
    }
  }

  lemma LeavesOthers(r: Reviews, h: History, h': History, hooks: nat, key: Key, k: Key)
    requires KeyOk(r, h, hooks, k) && k != key
    requires IssuedSince(h', k) == IssuedSince(h, k) && AcceptedSince(h', k) == AcceptedSince(h, k)
    requires Announcements(h', k) == Announcements(h, k)
    ensures KeyOk(Reviews(r.pending - {key}, r.approved + {key}, r.nextToken), h', hooks, k)
  {
    assert Tokens(Reviews(r.pending - {key}, r.approved + {key}, r.nextToken), k) == Tokens(r, k);
  }

  /** Handing back the last token: the approval is announced and cleared. */
  lemma AcceptLast(r: Reviews, h: History, hooks: nat, key: Key, token: Token)
    requires Ok(r, h, hooks) && key in r.pending && r.pending[key] == [token]
    ensures Ok(Reviews(r.pending - {key}, r.approved + {key}, r.nextToken),
               h + [Accepted(key, token), Announced(key), Cleared(key)], hooks)
  {
    var h1 := h + [Accepted(key, token)];
    var h2 := h1 + [Announced(key)];
    var h3 := h2 + [Cleared(key)];
    var r' := Reviews(r.pending - {key}, r.approved + {key}, r.nextToken);
    assert KeyOk(r, h, hooks, key);
    forall k ensures KeyOk(r', h3, hooks, k) {
      assert KeyOk(r, h, hooks, k);
      AcceptLastKey(r, h, hooks, key, token, k);
    }
    forall k, t ensures TokenOk(r', h3, k, t) {
      assert TokenOk(r, h, k, t);
    }
    AcceptedAll(r, h, hooks, key, token);
    ExtendAll(h, Accepted(key, token), hooks);
    ExtendAll(h1, Announced(key), hooks);
    ExtendAll(h2, Cleared(key), hooks);
    assert h3 == h + [Accepted(key, token), Announced(key), Cleared(key)];
  }

  lemma AnnounceAtOnce(r: Reviews, h: History, key: Key)
    requires Ok(r, h, 0)
    ensures Ok(r, h + [Announced(key)], 0)
  {
    assert KeyOk(r, h, 0, key);
    ExtendAll(h, Announced(key), 0);
    forall k ensures KeyOk(r, h + [Announced(key)], 0, k) {
      assert KeyOk(r, h, 0, k);
      Extend(h, Announced(key), k);
    }
    forall k, t ensures TokenOk(r, h + [Announced(key)], k, t) {
      assert TokenOk(r, h, k, t);
    }
  }

  lemma HookKeepsOk(r: Reviews, h: History, hooks: nat, key: Key, started: bool)
    requires Ok(r, h, hooks) && hooks > 0 && key !in r.approved
    ensures var result := RunHook(r, key, started); Ok(result.reviews, h + result.observed, hooks)
  {
    Issue(r, h, hooks, key);
    if !started {
      Clear(WithToken(r, key), h + [Issued(key, r.nextToken)], hooks, key);
      assert h + [Issued(key, r.nextToken)] + [Cleared(key)] == h + RunHook(r, key, started).observed;
    }
  }

  lemma {:induction false} HooksKeepOk(r: Reviews, h: History, hooks: nat, key: Key, started: seq<bool>)
    requires Ok(r, h, hooks) && hooks > 0 && key !in r.approved
    ensures var result := RunHooks(r, key, started); Ok(result.reviews, h + result.observed, hooks)
    decreases |started|
  {
    if started == [] {
      assert h + [] == h;
    } else {
      var first := RunHook(r, key, started[0]);
      HookKeepsOk(r, h, hooks, key, started[0]);
      HooksKeepOk(first.reviews, h + first.observed, hooks, key, started[1..]);
      var rest := RunHooks(first.reviews, key, started[1..]);
      assert h + first.observed + rest.observed == h + (first.observed + rest.observed);
    }
  }

  lemma StepKeepsOk(r: Reviews, h: History, hooks: nat, a: Action)
    requires Ok(r, h, hooks) && Possible(a, hooks)
    ensures Ok(Step(r, a).reviews, h + Step(r, a).observed, hooks)
  {
    assert h + [] == h;
    match a {
      case Sought(key, started) =>
        if key !in r.approved {
          if started == [] {
            AnnounceAtOnce(r, h, key);
          } else {
            HooksKeepOk(r, h, hooks, key, started);
          }
        }
      case Answered(key, token, operation) =>
        if Matches(r, key, token) {
          match operation {
            case Reject => Clear(r, h, hooks, key);
            case Approve =>
              var i := Position(r.pending[key], token.value).value;
              if Without(r.pending[key], i) == [] {
                assert r.pending[key] == [token.value];
                AcceptLast(r, h, hooks, key, token.value);
              } else {
                AcceptSome(r, h, hooks, key, i);
              }
          }
        }
    }
  }

  lemma {:induction false} RunKeepsOk(r: Reviews, h: History, hooks: nat, actions: seq<Action>)
    requires Ok(r, h, hooks) && PossibleRun(actions, hooks)
    ensures var result := Run(r, h, actions); Ok(result.reviews, result.observed, hooks)
    decreases |actions|
  {
    if actions != [] {
      StepKeepsOk(r, h, hooks, actions[0]);
      var step := Step(r, actions[0]);
      RunKeepsOk(step.reviews, h + step.observed, hooks, actions[1..]);
    }
  }

  //// The theorems ////

  /** The reviews and the history that a run of a server with so many hooks can lead to. */
  ghost predicate Reachable(result: Result, hooks: nat) {
    exists actions :: PossibleRun(actions, hooks) && Run(NO_REVIEWS, [], actions) == result
  }

  lemma ReachableIsOk(result: Result, hooks: nat)
    requires Reachable(result, hooks)
    ensures Ok(result.reviews, result.observed, hooks)
  {
    var actions :| PossibleRun(actions, hooks) && Run(NO_REVIEWS, [], actions) == result;
    RunKeepsOk(NO_REVIEWS, [], hooks, actions);
  }

  /** Over every run and for every zone and serial: the tokens issued since the last clearing are those
      handed back to approve and those pending. */
  lemma TokensAreConserved(result: Result, hooks: nat, key: Key)
    requires Reachable(result, hooks)
    ensures IssuedSince(result.observed, key) ==
              AcceptedSince(result.observed, key) + multiset(Tokens(result.reviews, key))
  {
    ReachableIsOk(result, hooks);
    assert KeyOk(result.reviews, result.observed, hooks, key);
  }

  /** Over every run: a token is issued once at most, and counts for an approval once at most. */
  lemma TokensCountOnce(result: Result, hooks: nat, key: Key, t: Token)
    requires Reachable(result, hooks)
    ensures multiset(result.observed)[Accepted(key, t)] <= multiset(result.observed)[Issued(key, t)] <= 1
  {
    ReachableIsOk(result, hooks);
    assert TokenOk(result.reviews, result.observed, key, t);
  }

  /** Every announced approval had all its tokens handed back to approve. */
  lemma {:induction false} AnnouncedAfterAll(h: History, hooks: nat, i: nat)
    requires AllAccepted(h, hooks) && i < |h| && h[i].Announced?
    ensures AcceptedSince(h[..i], h[i].key) == IssuedSince(h[..i], h[i].key)
    ensures hooks > 0 ==> IssuedSince(h[..i], h[i].key) != multiset{}
  {
    if i < |h| - 1 {
      AnnouncedAfterAll(h[..|h| - 1], hooks, i);
      assert h[..|h| - 1][..i] == h[..i];
    }
  }

  lemma ApprovalNeedsEveryToken(result: Result, hooks: nat, i: nat)
    requires Reachable(result, hooks) && i < |result.observed| && result.observed[i].Announced?
    ensures var h := result.observed;
            && AcceptedSince(h[..i], h[i].key) == IssuedSince(h[..i], h[i].key)
            && (hooks > 0 ==> IssuedSince(h[..i], h[i].key) != multiset{})
  {
    ReachableIsOk(result, hooks);
    AnnouncedAfterAll(result.observed, hooks, i);
  }

  ghost predicate NeverTwice(hooks: nat) {
    forall actions, key ::
      PossibleRun(actions, hooks) ==> Announcements(Run(NO_REVIEWS, [], actions).observed, key) <= 1
  }

  /** No approval is announced twice exactly if there are hooks: without any, each request is approved at
      once and leaves no trace. */
  lemma AnnouncedOnceIffHooks(hooks: nat)
    ensures NeverTwice(hooks) <==> hooks > 0
  {
    if hooks > 0 {
      forall actions, key | PossibleRun(actions, hooks)
        ensures Announcements(Run(NO_REVIEWS, [], actions).observed, key) <= 1
      {
        RunKeepsOk(NO_REVIEWS, [], hooks, actions);
        var result := Run(NO_REVIEWS, [], actions);
        assert KeyOk(result.reviews, result.observed, hooks, key);
      }
    } else {
      var key := Key("example", 1);
      var actions := [Sought(key, []), Sought(key, [])];
      assert actions[1..] == [Sought(key, [])] && actions[1..][1..] == [];
      var once: History := [Announced(key)];
      assert [] + once == once;
      assert Run(NO_REVIEWS, once, actions[1..]) == Run(NO_REVIEWS, once + once, []);
      assert PossibleRun(actions, 0) && Announcements(Run(NO_REVIEWS, [], actions).observed, key) == 2;
    }
  }

  /** While nothing is pending for a key and nobody seeks its approval again, nothing happens to it. */
  lemma {:induction false} NothingWithoutSeeking(r: Reviews, h: History, actions: seq<Action>, key: Key)
    requires key !in r.pending && forall a :: a in actions ==> !(a.Sought? && a.key == key)
    ensures var result := Run(r, h, actions);
            && key !in result.reviews.pending
            && Announcements(result.observed, key) == Announcements(h, key)
    decreases |actions|
  {
    if actions != [] {
      var a := actions[0];
      var step := Step(r, a);
      OthersStay(r, a, key);
      assert forall x :: x in actions[1..] ==> x in actions;
      NothingWithoutSeeking(step.reviews, h + step.observed, actions[1..], key);
    }
  }

  lemma OthersStay(r: Reviews, a: Action, key: Key)
    requires key !in r.pending && !(a.Sought? && a.key == key)
    ensures key !in Step(r, a).reviews.pending && Announced(key) !in Step(r, a).observed
  {
    if a.Sought? && a.key !in r.approved && a.started != [] {
      HooksLeaveOthers(r, a.key, a.started, key);
    }
  }

  lemma {:induction false} HooksLeaveOthers(r: Reviews, key: Key, started: seq<bool>, other: Key)
    requires other != key
    ensures other in RunHooks(r, key, started).reviews.pending <==> other in r.pending
    ensures Announced(other) !in RunHooks(r, key, started).observed
    decreases |started|
  {
    if started != [] {
      HooksLeaveOthers(RunHook(r, key, started[0]).reviews, key, started[1..], other);
    }
  }

  /** A rejection discards every token of the zone and serial: from then on only seeking its approval again
      can lead to an announcement, whoever hands back whatever tokens. */
  lemma RejectionIsFinal(r: Reviews, h: History, key: Key, token: Token, actions: seq<Action>)
    requires Matches(r, key, Some(token)) && forall a :: a in actions ==> !(a.Sought? && a.key == key)
    ensures var rejected := Step(r, Answered(key, Some(token), Reject));
            Announcements(Run(rejected.reviews, h + rejected.observed, actions).observed, key) == Announcements(h, key)
  {
    var rejected := Step(r, Answered(key, Some(token), Reject));
    NothingWithoutSeeking(rejected.reviews, h + rejected.observed, actions, key);
  }

  //// Hooks that cannot be started ////

  predicate AllStarted(started: seq<bool>) {
    started == [] || (started[0] && AllStarted(started[1..]))
  }

  lemma {:induction false} OldTokens(r: Reviews, key: Key, started: seq<bool>, t: Token)
    requires t < r.nextToken
    ensures t in Tokens(RunHooks(r, key, started).reviews, key) <==>
              t in Tokens(r, key) && AllStarted(started)
    decreases |started|
  {
    if started != [] {
      var first := RunHook(r, key, started[0]).reviews;
      assert t in Tokens(first, key) <==> t in Tokens(r, key) && started[0];
      OldTokens(RunHook(r, key, started[0]).reviews, key, started[1..], t);
    }
  }

  /** A hook has a say in the approval exactly if it and every hook after it could be started: a hook that
      cannot be started takes the earlier hooks' tokens with it, and the later ones decide alone. */
  lemma {:induction false} HookHasSay(r: Reviews, key: Key, started: seq<bool>, i: nat)
    requires i < |started| && forall t :: t in Tokens(r, key) ==> t < r.nextToken
    ensures r.nextToken + i in Tokens(RunHooks(r, key, started).reviews, key) <==> AllStarted(started[i..])
    decreases |started|
  {
    var first := RunHook(r, key, started[0]).reviews;
    assert forall t :: t in Tokens(first, key) ==> t in Tokens(r, key) || t == r.nextToken;
    if i > 0 {
      HookHasSay(first, key, started[1..], i - 1);
      assert started[1..][i - 1..] == started[i..];
    } else {
      OldTokens(first, key, started[1..], r.nextToken);
      assert r.nextToken in Tokens(first, key) <==> started[0];
      assert started[0..] == started;
    }
  }
}
