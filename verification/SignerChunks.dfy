/**
 Concurrent RRSIG generation: the owners of a sorted zone are cut into chunks, each signed by its own
 thread, and the signatures are merged through one channel into the signed zone.
 */
module SignerChunks {

  datatype Record = Record(owner: string, rtype: nat, data: string)

  /** All records of one owner name, as the record iterator hands them out. */
  datatype OwnerRrs = OwnerRrs(owner: string, records: seq<Record>)

  datatype Rrsig = Rrsig(owner: string, covered: nat, signature: string)

  /** What signing the records of one owner gives. */
  datatype Signing = Signed(rrsigs: seq<Rrsig>) | SigningError(message: string)

  type Message = seq<Rrsig>

  //// Chunks ////

  /** The number of threads and the owners per thread. */
  function DetermineSigningConcurrency(rrCount: nat, maxTasks: nat): (r: (nat, nat))
    requires maxTasks >= 1
    ensures 1 <= r.0 <= maxTasks
  {
    var wanted := if rrCount < 1024 then (if rrCount >= 2 then 2 else 1) else maxTasks;
    var parallelism := if wanted < maxTasks then wanted else maxTasks;
    (parallelism, rrCount / parallelism)
  }

  /** The chunks fit into the owners, and fewer owners than there are threads are left over. */
  lemma ChunksFit(rrCount: nat, maxTasks: nat)
    requires maxTasks >= 1
    ensures var (parallelism, chunkSize) := DetermineSigningConcurrency(rrCount, maxTasks);
            parallelism * chunkSize <= rrCount < parallelism * chunkSize + parallelism
  {
    var (parallelism, chunkSize) := DetermineSigningConcurrency(rrCount, maxTasks);
    assert rrCount == parallelism * (rrCount / parallelism) + rrCount % parallelism;
  }

  function Min(a: nat, b: nat): nat {
    if a < b then a else b
  }

  /** The owners that one thread signs. */
  function ChunkOf(owners: seq<OwnerRrs>, threadIdx: nat, chunkSize: nat, isLastChunk: bool): seq<OwnerRrs> {
    var from := Min(threadIdx * chunkSize, |owners|);
    owners[from..if isLastChunk then |owners| else Min(from + chunkSize, |owners|)]
  }

  /** Signing owners in turn: whether all succeeded, and the messages sent until then. */
  function SignAll(owners: seq<OwnerRrs>, sign: OwnerRrs -> Signing): (bool, seq<Message>) {
    if owners == [] then
      (true, [])
    else
      match sign(owners[0])
      case SigningError(_) => (false, [])
      case Signed(rrsigs) =>
        var (ok, rest) := SignAll(owners[1..], sign);
        (ok, MessagesOf(rrsigs) + rest)
  }

  /** What signing one owner sends. */
  function MessagesOf(rrsigs: seq<Rrsig>): seq<Message> {
    if rrsigs == [] then [] else [rrsigs]
  }

  /** Signing the owners from `next` up to `end`, after `sent` was sent already. */
  function SignRange(owners: seq<OwnerRrs>, next: nat, end: nat, sent: seq<Message>, sign: OwnerRrs -> Signing)
    : (bool, seq<Message>)
    requires end <= |owners|
    decreases end - next
  {
    if next >= end then (true, sent)
    else
      match sign(owners[next])
      case SigningError(_) => (false, sent)
      case Signed(rrsigs) => SignRange(owners, next + 1, end, sent + MessagesOf(rrsigs), sign)
  }

  lemma {:induction false} SignRangeSignsAll(owners: seq<OwnerRrs>, next: nat, end: nat, sent: seq<Message>,
                                             sign: OwnerRrs -> Signing)
    requires next <= end <= |owners|
    ensures var (ok, messages) := SignAll(owners[next..end], sign);
            SignRange(owners, next, end, sent, sign) == (ok, sent + messages)
    decreases end - next
  {
    if next == end {
      assert sent + [] == sent;
    } else {
      assert owners[next..end][1..] == owners[next + 1..end];
      match sign(owners[next]) {
        case SigningError(_) =>
          assert sent + [] == sent;
        case Signed(rrsigs) =>
          SignRangeSignsAll(owners, next + 1, end, sent + MessagesOf(rrsigs), sign);
          var messages := SignAll(owners[next + 1..end], sign).1;
          assert sent + (MessagesOf(rrsigs) + messages) == sent + MessagesOf(rrsigs) + messages;
      }
    }
  }

  /** Skips the owners that belong to earlier threads. */
  method Skip(owners: seq<OwnerRrs>, count: nat) returns (next: nat)
    ensures next == Min(count, |owners|)
  {
    next := 0;
    for skipped := 0 to count
      invariant next == skipped <= |owners|
    {
      if next == |owners| {
        return;
      }
      next := next + 1;
    }
  }

  lemma ChunkIsRange(owners: seq<OwnerRrs>, threadIdx: nat, chunkSize: nat, isLastChunk: bool, next: nat, end: nat,
                     sign: OwnerRrs -> Signing)
    requires next == Min(threadIdx * chunkSize, |owners|)
    requires end == if isLastChunk then |owners| else Min(next + chunkSize, |owners|)
    ensures SignAll(ChunkOf(owners, threadIdx, chunkSize, isLastChunk), sign) == SignRange(owners, next, end, [], sign)
  {
    assert ChunkOf(owners, threadIdx, chunkSize, isLastChunk) == owners[next..end];
    SignRangeSignsAll(owners, next, end, [], sign);
    var (ok, messages) := SignAll(owners[next..end], sign);
    assert [] + messages == messages;
  }

  /** One signing thread: skip the owners of earlier threads, then sign its own chunk. */
  method SignRrChunk(isLastChunk: bool, chunkSize: nat, owners: seq<OwnerRrs>, threadIdx: nat,
                     sign: OwnerRrs -> Signing)
    returns (ok: bool, sent: seq<Message>)
    ensures (ok, sent) == SignAll(ChunkOf(owners, threadIdx, chunkSize, isLastChunk), sign)
  {
    sent := [];
    var next := Skip(owners, threadIdx * chunkSize);
    ghost var end := if isLastChunk then |owners| else Min(next + chunkSize, |owners|);
    ghost var whole := SignAll(ChunkOf(owners, threadIdx, chunkSize, isLastChunk), sign);
    ChunkIsRange(owners, threadIdx, chunkSize, isLastChunk, next, end, sign);
    var n := 0;
    while (isLastChunk || n != chunkSize) && next < |owners|
      invariant next <= end && (isLastChunk || (n <= chunkSize && end == Min(next + (chunkSize - n), |owners|)))
      invariant whole == SignRange(owners, next, end, sent, sign)
      decreases |owners| - next
    {
      var ownerRrs := owners[next];
      next := next + 1;
      n := n + 1;
      match sign(ownerRrs) {
        case SigningError(_) =>
          return false, sent;
        case Signed(rrsigs) =>
          if rrsigs != [] {
            sent := sent + [rrsigs];
          } else {
            assert sent + [] == sent;
          }
      }
    }
    return true, sent;
  }

  /** The chunks of threads `i` and on, one after the other. */
  function ChunksFrom(owners: seq<OwnerRrs>, i: nat, parallelism: nat, chunkSize: nat): seq<OwnerRrs>
    decreases parallelism - i
  {
    if i >= parallelism then []
    else ChunkOf(owners, i, chunkSize, i == parallelism - 1) + ChunksFrom(owners, i + 1, parallelism, chunkSize)
  }

  lemma ChunkBounds(i: nat, parallelism: nat, chunkSize: nat)
    requires i < parallelism
    ensures i * chunkSize + chunkSize == (i + 1) * chunkSize <= parallelism * chunkSize
  {
    var left := parallelism - (i + 1);
    assert left * chunkSize >= 0;
    assert parallelism * chunkSize == (i + 1) * chunkSize + left * chunkSize;
  }

  lemma ChunkIsSlice(owners: seq<OwnerRrs>, i: nat, chunkSize: nat, isLastChunk: bool, from: nat, next: nat)
    requires from == i * chunkSize && next == from + chunkSize <= |owners|
    ensures ChunkOf(owners, i, chunkSize, isLastChunk) == if isLastChunk then owners[from..] else owners[from..next]
    ensures owners[from..next] + owners[next..] == owners[from..]
  {
  }

  lemma {:induction false} ChunksFromRest(owners: seq<OwnerRrs>, i: nat, parallelism: nat, chunkSize: nat)
    requires i < parallelism && parallelism * chunkSize <= |owners|
    ensures i * chunkSize <= |owners| && ChunksFrom(owners, i, parallelism, chunkSize) == owners[i * chunkSize..]
    decreases parallelism - i
  {
    ChunkBounds(i, parallelism, chunkSize);
    var from, next := i * chunkSize, (i + 1) * chunkSize;
    ChunkIsSlice(owners, i, chunkSize, i == parallelism - 1, from, next);
    if i + 1 < parallelism {
      ChunksFromRest(owners, i + 1, parallelism, chunkSize);
    } else {
      assert ChunksFrom(owners, i + 1, parallelism, chunkSize) == [];
      assert owners[from..] + [] == owners[from..];
    }
  }

  /** The threads together visit every owner exactly once, in order, for any number of owners and
      any limit on the threads. */
  lemma ChunksPartition(owners: seq<OwnerRrs>, maxTasks: nat)
    requires maxTasks >= 1
    ensures var (parallelism, chunkSize) := DetermineSigningConcurrency(|owners|, maxTasks);
            ChunksFrom(owners, 0, parallelism, chunkSize) == owners
  {
    var (parallelism, chunkSize) := DetermineSigningConcurrency(|owners|, maxTasks);
    ChunksFit(|owners|, maxTasks);
    ChunksFromRest(owners, 0, parallelism, chunkSize);
  }

  /** Every thread but the last gets the same number of owners, and the last one fewer than one more for each
      thread. */
  lemma ChunksAreEven(owners: seq<OwnerRrs>, maxTasks: nat, i: nat)
    requires maxTasks >= 1 && i < DetermineSigningConcurrency(|owners|, maxTasks).0
    ensures var (parallelism, chunkSize) := DetermineSigningConcurrency(|owners|, maxTasks);
            var size := |ChunkOf(owners, i, chunkSize, i == parallelism - 1)|;
            if i < parallelism - 1 then size == chunkSize else chunkSize <= size < chunkSize + parallelism
  {
    var (parallelism, chunkSize) := DetermineSigningConcurrency(|owners|, maxTasks);
    ChunksFit(|owners|, maxTasks);
    ChunkBounds(i, parallelism, chunkSize);
    var from, next := i * chunkSize, (i + 1) * chunkSize;
    ChunkIsSlice(owners, i, chunkSize, i == parallelism - 1, from, next);
    if i == parallelism - 1 {
      assert next == parallelism * chunkSize;
    }
  }

  /** The thread has no owner to sign. */
  predicate Idle(owners: seq<OwnerRrs>, maxTasks: nat, i: nat)
    requires maxTasks >= 1
  {
    var (parallelism, chunkSize) := DetermineSigningConcurrency(|owners|, maxTasks);
    i < parallelism && ChunkOf(owners, i, chunkSize, i == parallelism - 1) == []
  }

  lemma ChunkSizeIsZeroIff(count: nat, parallelism: nat, chunkSize: nat)
    requires parallelism * chunkSize <= count < parallelism * chunkSize + parallelism
    ensures chunkSize == 0 <==> count < parallelism
  {
    if chunkSize > 0 {
      assert parallelism * chunkSize >= parallelism;
    } else {
      assert parallelism * chunkSize == 0;
    }
  }

  /** How many threads sign: all that are allowed for a large zone, and at most two for a small one.  Then some thread
      is left without an owner exactly if a large zone has fewer owners than there may be threads: its last thread
      signs them all. */
  lemma ThreadsUsed(owners: seq<OwnerRrs>, maxTasks: nat)
    requires maxTasks >= 1 && owners != []
    ensures var (parallelism, chunkSize) := DetermineSigningConcurrency(|owners|, maxTasks);
            && parallelism == (if |owners| >= 1024 then maxTasks else if |owners| == 1 then 1 else Min(2, maxTasks))
            && ((exists i: nat :: Idle(owners, maxTasks, i)) <==> 1024 <= |owners| < maxTasks)
            && (1024 <= |owners| < maxTasks ==> ChunkOf(owners, parallelism - 1, chunkSize, true) == owners)
  {
    var (parallelism, chunkSize) := DetermineSigningConcurrency(|owners|, maxTasks);
    ChunksFit(|owners|, maxTasks);
    ChunkSizeIsZeroIff(|owners|, parallelism, chunkSize);
    if chunkSize == 0 {
      assert ChunkOf(owners, 0, 0, false) == [] && ChunkOf(owners, parallelism - 1, 0, true) == owners;
      assert Idle(owners, maxTasks, 0);
    } else {
      forall i: nat ensures !Idle(owners, maxTasks, i) {
        if i < parallelism {
          ChunksAreEven(owners, maxTasks, i);
        }
      }
    }
  }

  //// The channel ////

  /** `merged` takes the messages of all queues, each queue in its own order. */
  ghost predicate Interleaves(queues: seq<seq<Message>>, merged: seq<Message>)
    decreases |merged|
  {
    if merged == [] then
      forall q :: q in queues ==> q == []
    else
      exists i :: 0 <= i < |queues| && queues[i] != [] && queues[i][0] == merged[0]
                  && Interleaves(queues[i := queues[i][1..]], merged[1..])
  }

  /** All signatures in a sequence of messages. */
  function Total(messages: seq<Message>): multiset<Rrsig> {
    if messages == [] then multiset{} else multiset(messages[0]) + Total(messages[1..])
  }

  function TotalOfAll(queues: seq<seq<Message>>): multiset<Rrsig> {
    if queues == [] then multiset{} else Total(queues[0]) + TotalOfAll(queues[1..])
  }

  lemma {:induction false} TotalConcat(a: seq<Message>, b: seq<Message>)
    ensures Total(a + b) == Total(a) + Total(b)
  {
    if a == [] {
      assert a + b == b;
    } else {
      assert (a + b)[1..] == a[1..] + b;
      TotalConcat(a[1..], b);
    }
  }

  lemma {:induction false} TotalOfEmpties(queues: seq<seq<Message>>)
    requires forall q :: q in queues ==> q == []
    ensures TotalOfAll(queues) == multiset{}
  {
    if queues != [] {
      assert queues[0] in queues && forall q :: q in queues[1..] ==> q in queues;
      TotalOfEmpties(queues[1..]);
    }
  }

  lemma {:induction false} TakeOne(queues: seq<seq<Message>>, i: nat)
    requires i < |queues| && queues[i] != []
    ensures TotalOfAll(queues) == multiset(queues[i][0]) + TotalOfAll(queues[i := queues[i][1..]])
  {
    if i > 0 {
      TakeOne(queues[1..], i - 1);
      assert queues[i := queues[i][1..]][1..] == queues[1..][i - 1 := queues[i][1..]];
    } else {
      assert queues[0 := queues[0][1..]][1..] == queues[1..];
    }
  }

  /** However the threads' messages interleave, the channel delivers the same signatures. */
  lemma {:induction false} InterleavingKeepsTotal(queues: seq<seq<Message>>, merged: seq<Message>)
    requires Interleaves(queues, merged)
    ensures Total(merged) == TotalOfAll(queues)
    decreases |merged|
  {
    if merged == [] {
      TotalOfEmpties(queues);
    } else {
      var i :| 0 <= i < |queues| && queues[i] != [] && queues[i][0] == merged[0]
               && Interleaves(queues[i := queues[i][1..]], merged[1..]);
      TakeOne(queues, i);
      InterleavingKeepsTotal(queues[i := queues[i][1..]], merged[1..]);
    }
  }

  /** Adds the signatures of one message to the zone. */
  method InsertAll(records: Message, zone: multiset<Rrsig>) returns (zone': multiset<Rrsig>)
    ensures zone' == zone + multiset(records)
  {
    zone' := zone;
    var i := 0;
    while i < |records|
      invariant 0 <= i <= |records|
      invariant zone' == zone + multiset(records[..i])
    {
      assert records[..i + 1] == records[..i] + [records[i]];
      zone' := zone' + multiset{records[i]};
      i := i + 1;
    }
    assert records[..i] == records;
  }

  method RrsigInserter(channel: seq<Message>) returns (zone: multiset<Rrsig>, rrsigCount: nat)
    ensures zone == Total(channel) && rrsigCount == |zone|
  {
    zone, rrsigCount := multiset{}, 0;
    var received := 0;
    assert channel[..0] == [];
    while received < |channel|
      invariant 0 <= received <= |channel|
      invariant zone == Total(channel[..received]) && rrsigCount == |zone|
    {
      var records := channel[received];
      zone := InsertAll(records, zone);
      rrsigCount := rrsigCount + |records|;
      assert channel[..received + 1] == channel[..received] + [records];
      TotalConcat(channel[..received], [records]);
      assert Total([records]) == multiset(records);
      received := received + 1;
    }
    assert channel[..received] == channel;
  }

  //// Signing a whole zone ////

  lemma {:induction false} SignAllConcat(a: seq<OwnerRrs>, b: seq<OwnerRrs>, sign: OwnerRrs -> Signing)
    ensures var (okA, sentA) := SignAll(a, sign);
            var (okB, sentB) := SignAll(b, sign);
            var (ok, sent) := SignAll(a + b, sign);
            && ok == (okA && okB)
            && (ok ==> sent == sentA + sentB)
  {
    if a == [] {
      assert a + b == b;
    } else {
      assert (a + b)[0] == a[0] && (a + b)[1..] == a[1..] + b;
      SignAllConcat(a[1..], b, sign);
    }
  }

  /** What the threads from `i` on send. */
  function ThreadQueues(owners: seq<OwnerRrs>, i: nat, parallelism: nat, chunkSize: nat, sign: OwnerRrs -> Signing)
    : seq<seq<Message>>
    decreases parallelism - i
  {
    if i >= parallelism then []
    else [SignAll(ChunkOf(owners, i, chunkSize, i == parallelism - 1), sign).1]
         + ThreadQueues(owners, i + 1, parallelism, chunkSize, sign)
  }

  predicate AllOkFrom(owners: seq<OwnerRrs>, i: nat, parallelism: nat, chunkSize: nat, sign: OwnerRrs -> Signing)
    decreases parallelism - i
  {
    i >= parallelism ||
    (SignAll(ChunkOf(owners, i, chunkSize, i == parallelism - 1), sign).0
     && AllOkFrom(owners, i + 1, parallelism, chunkSize, sign))
  }

  lemma {:induction false} ThreadsSignAll(owners: seq<OwnerRrs>, i: nat, parallelism: nat, chunkSize: nat,
                                          sign: OwnerRrs -> Signing)
    ensures var (ok, sent) := SignAll(ChunksFrom(owners, i, parallelism, chunkSize), sign);
            && ok == AllOkFrom(owners, i, parallelism, chunkSize, sign)
            && (ok ==> Total(sent) == TotalOfAll(ThreadQueues(owners, i, parallelism, chunkSize, sign)))
    decreases parallelism - i
  {
    if i < parallelism {
      var chunk := ChunkOf(owners, i, chunkSize, i == parallelism - 1);
      var rest := ChunksFrom(owners, i + 1, parallelism, chunkSize);
      ThreadsSignAll(owners, i + 1, parallelism, chunkSize, sign);
      SignAllConcat(chunk, rest, sign);
      TotalConcat(SignAll(chunk, sign).1, SignAll(rest, sign).1);
      assert ThreadQueues(owners, i, parallelism, chunkSize, sign)[1..] ==
             ThreadQueues(owners, i + 1, parallelism, chunkSize, sign);
    }
  }

  /** For every limit on the threads and every interleaving of what they send, all chunks succeed
      exactly if a one-thread run does, and then the channel delivers the one-thread run's signatures. */
  lemma ConcurrentEqualsSequential(owners: seq<OwnerRrs>, maxTasks: nat, sign: OwnerRrs -> Signing,
                                   merged: seq<Message>)
    requires maxTasks >= 1
    requires var (parallelism, chunkSize) := DetermineSigningConcurrency(|owners|, maxTasks);
             Interleaves(ThreadQueues(owners, 0, parallelism, chunkSize, sign), merged)
    ensures var (parallelism, chunkSize) := DetermineSigningConcurrency(|owners|, maxTasks);
            var (ok, sent) := SignAll(owners, sign);
            && ok == AllOkFrom(owners, 0, parallelism, chunkSize, sign)
            && (ok ==> Total(merged) == Total(sent))
  {
    var (parallelism, chunkSize) := DetermineSigningConcurrency(|owners|, maxTasks);
    ChunksPartition(owners, maxTasks);
    ThreadsSignAll(owners, 0, parallelism, chunkSize, sign);
    InterleavingKeepsTotal(ThreadQueues(owners, 0, parallelism, chunkSize, sign), merged);
  }

  lemma {:induction false} SignAllSucceeds(owners: seq<OwnerRrs>, sign: OwnerRrs -> Signing)
    ensures SignAll(owners, sign).0 <==> forall o :: o in owners ==> sign(o).Signed?
    ensures SignAll(owners, sign).0 ==>
              forall o :: o in owners && sign(o).Signed? ==> multiset(sign(o).rrsigs) <= Total(SignAll(owners, sign).1)
  {
    if owners != [] {
      assert owners == [owners[0]] + owners[1..];
      SignAllSucceeds(owners[1..], sign);
      if sign(owners[0]).Signed? {
        var rrsigs, rest := sign(owners[0]).rrsigs, SignAll(owners[1..], sign).1;
        assert [rrsigs][1..] == [];
        TotalConcat([rrsigs], rest);
        assert [] + rest == rest;
      }
    }
  }

  /** The signatures that signing gives for the owners. */
  function SignaturesOf(owners: seq<OwnerRrs>, sign: OwnerRrs -> Signing): multiset<Rrsig> {
    if owners == [] then multiset{}
    else
      var n := |owners| - 1;
      SignaturesOf(owners[..n], sign) + match sign(owners[n])
                                        case Signed(rrsigs) => multiset(rrsigs)
                                        case SigningError(_) => multiset{}
  }

  lemma {:induction false} SignAllSignatures(owners: seq<OwnerRrs>, sign: OwnerRrs -> Signing)
    requires SignAll(owners, sign).0
    ensures Total(SignAll(owners, sign).1) == SignaturesOf(owners, sign)
  {
    if owners != [] {
      var n := |owners| - 1;
      assert owners == owners[..n] + [owners[n]];
      SignAllConcat(owners[..n], [owners[n]], sign);
      SignAllSignatures(owners[..n], sign);
      assert [owners[n]][1..] == [];
      var rrsigs := sign(owners[n]).rrsigs;
      assert SignAll([owners[n]], sign).1 == MessagesOf(rrsigs) + [] == MessagesOf(rrsigs);
      assert [rrsigs][1..] == [] && Total(MessagesOf(rrsigs)) == multiset(rrsigs);
      TotalConcat(SignAll(owners[..n], sign).1, MessagesOf(rrsigs));
    }
  }

  /** The records of all owners, as they were before they were grouped. */
  function RecordsOf(owners: seq<OwnerRrs>): seq<Record> {
    if owners == [] then [] else RecordsOf(owners[..|owners| - 1]) + owners[|owners| - 1].records
  }

  /** Adds the unsigned records to the signed zone. */
  method InsertRecords(records: seq<Record>) returns (added: multiset<Record>)
    ensures added == multiset(records)
  {
    added := multiset{};
    var i := 0;
    while i < |records|
      invariant 0 <= i <= |records|
      invariant added == multiset(records[..i])
    {
      assert records[..i + 1] == records[..i] + [records[i]];
      added := added + multiset{records[i]};
      i := i + 1;
    }
    assert records[..i] == records;
  }

  /**
   From the generation of signatures to the end of signing a zone, `merged` being the order in which the channel
   happens to deliver.  The zone is announced as signed exactly if every owner could be signed; then it holds the
   signatures that were made for each owner, just as after a one-thread run and as many as were counted, and every
   unsigned record.
   */
  method SignConcurrently(owners: seq<OwnerRrs>, maxTasks: nat, sign: OwnerRrs -> Signing, merged: seq<Message>)
    returns (announced: bool, rrsigs: multiset<Rrsig>, records: multiset<Record>, rrsigCount: nat)
    requires maxTasks >= 1
    requires var (parallelism, chunkSize) := DetermineSigningConcurrency(|owners|, maxTasks);
             Interleaves(ThreadQueues(owners, 0, parallelism, chunkSize, sign), merged)
    ensures announced <==> forall o :: o in owners ==> sign(o).Signed?
    ensures announced ==> rrsigs == SignaturesOf(owners, sign) == Total(SignAll(owners, sign).1)
    ensures announced ==> rrsigCount == |rrsigs|
    ensures announced ==> records == multiset(RecordsOf(owners))
  {
    var (parallelism, chunkSize) := DetermineSigningConcurrency(|owners|, maxTasks);
    ConcurrentEqualsSequential(owners, maxTasks, sign, merged);
    SignAllSucceeds(owners, sign);
    var signingOk := true;
    var threadIdx := 0;
    while threadIdx < parallelism
      invariant 0 <= threadIdx <= parallelism
      invariant AllOkFrom(owners, 0, parallelism, chunkSize, sign) ==
                (signingOk && AllOkFrom(owners, threadIdx, parallelism, chunkSize, sign))
    {
      var ok, _ := SignRrChunk(threadIdx == parallelism - 1, chunkSize, owners, threadIdx, sign);
      if !ok {
        signingOk := false;
      }
      threadIdx := threadIdx + 1;
    }
    if !signingOk {
      return false, multiset{}, multiset{}, 0;
    }
    SignAllSignatures(owners, sign);
    rrsigs, rrsigCount := RrsigInserter(merged);
    records := InsertRecords(RecordsOf(owners));
    announced := true;
  }
}
