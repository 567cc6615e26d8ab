/** Approval of zones by review hooks: one token per hook, handed back to approve or to reject. */
module ReviewServer {
  import opened Options
  import opened Payload

  type Token = nat

  datatype Source = UnsignedZones | SignedZones | PublishedZones

  datatype Operation = Approve | Reject

  /** What happens to the approval of a zone at a serial. */
  datatype Observation =
    | Issued(key: Key, token: Token)
    | Accepted(key: Key, token: Token)
    | Announced(key: Key)
    | Cleared(key: Key)

  /** `nextToken` is beyond all tokens made so far: they are random identifiers, never made twice. */
  datatype Reviews = Reviews(pending: map<Key, seq<Token>>, approved: set<Key>, nextToken: Token)

  const NO_REVIEWS := Reviews(map[], {}, 0)

  datatype Result = Result(reviews: Reviews, observed: seq<Observation>)

  function Tokens(r: Reviews, key: Key): seq<Token> {
    if key in r.pending then r.pending[key] else []
  }

  //// Seeking approval ////

  /** One hook: a token is made, and if the hook cannot be started all tokens for the key are dropped. */
  function RunHook(r: Reviews, key: Key, started: bool): Result {
    var token := r.nextToken;
    var r' := r.(pending := r.pending[key := Tokens(r, key) + [token]], nextToken := token + 1);
    if started then Result(r', [Issued(key, token)])
    else Result(r'.(pending := r'.pending - {key}), [Issued(key, token), Cleared(key)])
  }

  function RunHooks(r: Reviews, key: Key, started: seq<bool>): Result
    decreases |started|
  {
    if started == [] then Result(r, [])
    else
      var first := RunHook(r, key, started[0]);
      var rest := RunHooks(first.reviews, key, started[1..]);
      Result(rest.reviews, first.observed + rest.observed)
  }

  /** `started` tells which hooks could be started. */
  function Seek(r: Reviews, key: Key, started: seq<bool>): Result {
    if key in r.approved then Result(r, [])
    else if started == [] then Result(r, [Announced(key)])
    else RunHooks(r, key, started)
  }

  //// Answers ////

  function Position(tokens: seq<Token>, token: Token): (r: Option<nat>)
    ensures r.Some? ==> r.value < |tokens| && tokens[r.value] == token && token !in tokens[..r.value]
    ensures r.None? ==> token !in tokens
  {
    if tokens == [] then None
    else if tokens[0] == token then Some(0)
    else match Position(tokens[1..], token)
         case Some(i) => Some(i + 1)
         case None => None
  }

  function Without(tokens: seq<Token>, i: nat): seq<Token>
    requires i < |tokens|
  {
    tokens[..i] + tokens[i + 1..]
  }

  /** Whether the request names a pending token. */
  predicate Matches(r: Reviews, key: Key, token: Option<Token>) {
    token.Some? && token.value in Tokens(r, key)
  }

  /** `token` is `None` if the text handed in is no token at all. */
  function ProcessRequest(r: Reviews, key: Key, token: Option<Token>, operation: Operation): Result {
    if !Matches(r, key, token) then
      Result(r, [])
    else
      match operation
      case Reject => Result(r.(pending := r.pending - {key}), [Cleared(key)])
      case Approve =>
        var left := Without(r.pending[key], Position(r.pending[key], token.value).value);
        if left == [] then
          Result(Reviews(r.pending - {key}, r.approved + {key}, r.nextToken),
                 [Accepted(key, token.value), Announced(key), Cleared(key)])
        else
          Result(r.(pending := r.pending[key := left]), [Accepted(key, token.value)])
  }

  function UpdatesOf(source: Source, observed: Observation): seq<Update>
    requires source != PublishedZones
  {
    match observed
    case Announced(k) =>
      [if source == UnsignedZones then UnsignedZoneApproved(k) else SignedZoneApproved(k)]
    case _ => []
  }

  /** The updates that announced approvals send to the central command. */
  function Updates(source: Source, observed: seq<Observation>): seq<Update>
    requires source != PublishedZones
  {
    if observed == [] then [] else UpdatesOf(source, observed[0]) + Updates(source, observed[1..])
  }

  /** The server of published zones must never announce an approval: it would panic. */
  predicate Announces(observed: seq<Observation>) {
    exists o :: o in observed && o.Announced?
  }

  class ZoneServer {
    const source: Source
    const hooks: seq<string>
    var pendingApprovals: map<Key, seq<Token>>
    var lastApprovals: set<Key>
    var nextToken: Token
    var sent: seq<Update>

    constructor (source: Source, hooks: seq<string>)
      ensures this.source == source && this.hooks == hooks && sent == [] && Abstract() == NO_REVIEWS
    {
      this.source, this.hooks := source, hooks;
      pendingApprovals, lastApprovals, nextToken, sent := map[], {}, 0, [];
    }

    function Abstract(): Reviews
      reads this
    {
      Reviews(pendingApprovals, lastApprovals, nextToken)
    }

    method Announce(key: Key) returns (panicked: bool)
      modifies this`sent
      ensures panicked <==> source == PublishedZones
      ensures !panicked ==> sent == old(sent) + Updates(source, [Announced(key)])
    {
      match source {
        case UnsignedZones => sent := sent + [UnsignedZoneApproved(key)];
        case SignedZones => sent := sent + [SignedZoneApproved(key)];
        case PublishedZones => return true;
      }
      assert [Announced(key)][1..] == [];
      panicked := false;
    }

    method OnSeekApproval(key: Key, started: seq<bool>) returns (panicked: bool, ghost observed: seq<Observation>)
      requires |started| == |hooks|
      modifies this
      ensures panicked <==> source == PublishedZones && key !in old(lastApprovals) && hooks == []
      ensures !panicked ==> Result(Abstract(), observed) == Seek(old(Abstract()), key, started)
      ensures !panicked ==> sent == old(sent) + if key !in old(lastApprovals) && hooks == []
                                                then Updates(source, [Announced(key)]) else []
    {
      panicked, observed := false, [];
      if key in lastApprovals {
        return;
      }
      if hooks == [] {
        observed := [Announced(key)];
        panicked := Announce(key);
        if panicked {
          return;
        }
      }
      ghost var whole := RunHooks(Abstract(), key, started);
      ghost var rest := whole;
      ghost var shown: seq<Observation> := [];
      var i := 0;
      assert started[0..] == started && shown + whole.observed == whole.observed;
      while i < |hooks|
        invariant 0 <= i <= |hooks| && lastApprovals == old(lastApprovals)
        invariant rest == RunHooks(Abstract(), key, started[i..])
        invariant whole == Result(rest.reviews, shown + rest.observed)
        invariant sent == old(sent) + if hooks == [] then Updates(source, [Announced(key)]) else []
      {
        ghost var first := RunHook(Abstract(), key, started[i]);
        var token := nextToken;
        nextToken := nextToken + 1;
        if key in pendingApprovals {
          pendingApprovals := pendingApprovals[key := pendingApprovals[key] + [token]];
        } else {
          pendingApprovals := pendingApprovals[key := [] + [token]];
        }
        if !started[i] {
          pendingApprovals := pendingApprovals - {key};
        }
        assert started[i..][0] == started[i] && started[i..][1..] == started[i + 1..];
        rest := RunHooks(Abstract(), key, started[i + 1..]);
        assert shown + (first.observed + rest.observed) == shown + first.observed + rest.observed;
        shown := shown + first.observed;
        i := i + 1;
      }
      assert started[i..] == [] && shown + [] == shown;
      if hooks != [] {
        observed := shown;
      }
    }

    method OnReviewRequest(key: Key, token: Option<Token>, operation: Operation)
      returns (ok: bool, panicked: bool, ghost observed: seq<Observation>)
      modifies this
      ensures observed == ProcessRequest(old(Abstract()), key, token, operation).observed
      ensures panicked <==> source == PublishedZones && Announces(observed)
      ensures !panicked ==> Result(Abstract(), observed) == ProcessRequest(old(Abstract()), key, token, operation)
      ensures !panicked && source != PublishedZones ==> sent == old(sent) + Updates(source, observed)
      ensures ok <==> Matches(old(Abstract()), key, token)
    {
      ok, panicked := false, false;
      observed := ProcessRequest(Abstract(), key, token, operation).observed;
      var removeApprovals := false;
      if key in pendingApprovals && token.Some? {
        var tokens := pendingApprovals[key];
        var index := Position(tokens, token.value);
        if index.Some? {
          ok := true;
          match operation {
            case Approve =>
              tokens := tokens[..index.value] + tokens[index.value + 1..];
              pendingApprovals := pendingApprovals[key := tokens];
              if tokens == [] {
                assert Announced(key) in observed;
                AcceptedThenAnnounced(source, key, token.value);
                panicked := Announce(key);
                if panicked {
                  return;
                }
                lastApprovals := lastApprovals + {key};
                removeApprovals := true;
              } else {
                assert observed[1..] == [];
              }
            case Reject =>
              assert observed[1..] == [];
              removeApprovals := true;
          }
        }
      }
      if removeApprovals {
        pendingApprovals := pendingApprovals - {key};
      }
    }
  }

  lemma AcceptedThenAnnounced(source: Source, key: Key, token: Token)
    ensures source != PublishedZones ==>
      Updates(source, [Accepted(key, token), Announced(key), Cleared(key)]) == Updates(source, [Announced(key)])
  {
    if source != PublishedZones {
      var cleared: seq<Observation> := [Cleared(key)];
      assert cleared[1..] == [] && Updates(source, cleared) == [];
      var announced := [Announced(key)] + cleared;
      assert announced[1..] == cleared && [Announced(key)][1..] == [];
      assert Updates(source, announced) == Updates(source, [Announced(key)]);
      assert [Accepted(key, token), Announced(key), Cleared(key)][1..] == announced;
    }
  }
}
