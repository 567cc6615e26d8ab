/**
 The IXFR difference store of a maintained zone: what `add_diff` keeps and what
 `diffs_for_range` finds again (section 4 of RFC 1995).
 */
module ZoneDiffs {
  import opened Options
  import opened Serials

  datatype Record = Record(owner: string, rtype: nat, data: string)

  type Content = set<Record>

  datatype Diff = Diff(start: Serial, end: Serial, removed: set<Record>, added: set<Record>)

  datatype DiffKey = DiffKey(start: Serial, end: Serial)

  /** One binding of the ordered map.  Keys are ordered by their start serial alone, as a number. */
  datatype Entry = Entry(key: DiffKey, diff: Diff)

  predicate Sorted(es: seq<Entry>)
    decreases |es|
  {
    es == [] || ((forall e :: e in es[1..] ==> es[0].key.start < e.key.start) && Sorted(es[1..]))
  }

  /** Insertion in an ordered map: an equal key stays as it was, only its value is replaced. */
  function Inserted(es: seq<Entry>, d: Diff): seq<Entry> {
    if es == [] || d.start < es[0].key.start then
      [Entry(DiffKey(d.start, d.end), d)] + es
    else if d.start == es[0].key.start then
      [Entry(es[0].key, d)] + es[1..]
    else
      [es[0]] + Inserted(es[1..], d)
  }

  /** The scan of `diffs_for_range` from `serial` on; `None` is its early, empty, return. */
  function Scan(es: seq<Entry>, serial: Serial, end: Serial): Option<seq<Diff>> {
    if es == [] then
      Some([])
    else
      var key := es[0].key;
      if Before(key.start, serial) then
        Scan(es[1..], serial, end)
      else if Before(serial, key.start) || Before(end, key.start) then
        None
      else if key.start == end then
        Some([])
      else
        Prepended([es[0].diff], Scan(es[1..], key.end, end))
  }

  function Prepended(ds: seq<Diff>, r: Option<seq<Diff>>): Option<seq<Diff>> {
    match r
    case Some(rest) => Some(ds + rest)
    case None => None
  }

  lemma PrependedTwice(ds: seq<Diff>, more: seq<Diff>, r: Option<seq<Diff>>)
    ensures Prepended(ds, Prepended(more, r)) == Prepended(ds + more, r)
  {
    if r.Some? {
      assert ds + (more + r.value) == ds + more + r.value;
    }
  }

  class ZoneInfo {
    var diffs: seq<Entry>

    ghost predicate Valid()
      reads this
    {
      Sorted(diffs)
    }

    constructor ()
      ensures Valid() && diffs == []
    {
      diffs := [];
    }

    method AddDiff(diff: Diff)
      requires Valid()
      modifies this
      ensures Valid() && diffs == Inserted(old(diffs), diff)
    {
      InsertedIsSorted(diffs, diff);
      ghost var updated := Inserted(diffs, diff);
      var i := 0;
      while i < |diffs| && diffs[i].key.start < diff.start
        invariant 0 <= i <= |diffs| && diffs == old(diffs)
        invariant updated == diffs[..i] + Inserted(diffs[i..], diff)
      {
        InsertedPast(diffs, i, diff);
        i := i + 1;
      }
      InsertedHere(diffs, i, diff);
      if i < |diffs| && diffs[i].key.start == diff.start {
        diffs := diffs[..i] + [Entry(diffs[i].key, diff)] + diffs[i + 1..];
      } else {
        diffs := diffs[..i] + [Entry(DiffKey(diff.start, diff.end), diff)] + diffs[i..];
      }
    }

    method DiffsForRange(startSerial: Serial, endSerial: Serial) returns (outDiffs: seq<Diff>)
      ensures outDiffs == Scan(diffs, startSerial, endSerial).UnwrapOr([])
    {
      outDiffs := [];
      var serial := startSerial;
      var i := 0;
      assert diffs[0..] == diffs;
      forall r: Option<seq<Diff>> ensures Prepended([], r) == r {
        if r.Some? {
          assert [] + r.value == r.value;
        }
      }
      while i < |diffs|
        invariant 0 <= i <= |diffs|
        invariant Scan(diffs, startSerial, endSerial) == Prepended(outDiffs, Scan(diffs[i..], serial, endSerial))
      {
        var key := diffs[i].key;
        assert diffs[i..][0] == diffs[i] && diffs[i..][1..] == diffs[i + 1..];
        if Before(key.start, serial) {
          i := i + 1;
        } else if Before(serial, key.start) || Before(endSerial, key.start) {
          return [];
        } else if key.start == endSerial {
          break;
        } else {
          PrependedTwice(outDiffs, [diffs[i].diff], Scan(diffs[i + 1..], key.end, endSerial));
          outDiffs := outDiffs + [diffs[i].diff];
          serial := key.end;
          i := i + 1;
        }
      }
    }
  }

  //// What insertion keeps ////

  lemma InsertedPast(es: seq<Entry>, i: nat, d: Diff)
    requires i < |es| && es[i].key.start < d.start
    ensures es[..i] + Inserted(es[i..], d) == es[..i + 1] + Inserted(es[i + 1..], d)
  {
    assert es[i..][1..] == es[i + 1..];
    assert es[..i + 1] == es[..i] + [es[i]];
  }

  lemma InsertedHere(es: seq<Entry>, i: nat, d: Diff)
    requires i <= |es| && (i < |es| ==> d.start <= es[i].key.start)
    ensures es[..i] + Inserted(es[i..], d) ==
              if i < |es| && es[i].key.start == d.start then es[..i] + [Entry(es[i].key, d)] + es[i + 1..]
              else es[..i] + [Entry(DiffKey(d.start, d.end), d)] + es[i..]
  {
    if i < |es| && es[i].key.start == d.start {
      assert es[i..][1..] == es[i + 1..];
      assert es[..i] + ([Entry(es[i].key, d)] + es[i + 1..]) == es[..i] + [Entry(es[i].key, d)] + es[i + 1..];
    } else {
      var entry := Entry(DiffKey(d.start, d.end), d);
      assert es[..i] + ([entry] + es[i..]) == es[..i] + [entry] + es[i..];
    }
  }

  lemma {:induction false} InsertedIsSorted(es: seq<Entry>, d: Diff)
    requires Sorted(es)
    ensures Sorted(Inserted(es, d))
    ensures forall e :: e in Inserted(es, d) ==> e in es || e.key.start == d.start
  {
    if es != [] && es[0].key.start < d.start {
      InsertedIsSorted(es[1..], d);
      assert Inserted(es, d)[1..] == Inserted(es[1..], d);
    }
  }

  /** The store is a map from start serials: only the binding of `d.start` changes, and if it was
      bound before, its key, end serial included, is kept with the new difference. */
  lemma {:induction false} InsertedBindings(es: seq<Entry>, d: Diff, e: Entry)
    requires Sorted(es)
    ensures e in Inserted(es, d) <==>
            if e.key.start != d.start then e in es
            else e.diff == d && (if exists o :: o in es && o.key.start == d.start
                                 then exists o :: o in es && o.key == e.key
                                 else e.key.end == d.end)
  {
    if es == [] || d.start < es[0].key.start {
      assert Inserted(es, d)[0] == Entry(DiffKey(d.start, d.end), d);
    } else if d.start == es[0].key.start {
      assert Inserted(es, d) == [Entry(es[0].key, d)] + es[1..];
      assert es == [es[0]] + es[1..];
    } else {
      InsertedBindings(es[1..], d, e);
      assert es == [es[0]] + es[1..];
    }
  }

  //// Chains of versions ////

  /** `counts` number the versions of a zone without wrapping; they span less than 2^31. */
  ghost predicate Window(counts: seq<int>) {
    && |counts| >= 1
    && (forall i, j :: 0 <= i < j < |counts| ==> counts[i] < counts[j])
    && counts[|counts| - 1] - counts[0] < TWO31
  }

  ghost function ChainEntry(counts: seq<int>, ds: seq<Diff>, i: int): Entry
    requires |counts| == |ds| + 1 && 0 <= i < |ds|
  {
    Entry(DiffKey(Wrap(counts[i]), Wrap(counts[i + 1])), ds[i])
  }

  /** The store holds difference `i` from version `i` to version `i + 1`, for every `i`, and no other. */
  ghost predicate Chains(es: seq<Entry>, counts: seq<int>, ds: seq<Diff>) {
    && |counts| == |ds| + 1
    && Window(counts)
    && Sorted(es)
    && (forall i :: 0 <= i < |ds| ==> ChainEntry(counts, ds, i) in es)
    && (forall e :: e in es ==> exists i :: IsVersion(e, counts, ds, i))
  }

  /** Some stored difference starts after `s` but, the counter having wrapped, at a smaller number. */
  ghost predicate LaterStartWrapped(es: seq<Entry>, s: Serial) {
    exists e :: e in es && e.key.start < s && Before(s, e.key.start)
  }

  lemma WindowOrder(counts: seq<int>, i: int, j: int)
    requires Window(counts) && 0 <= i < |counts| && 0 <= j < |counts|
    ensures Before(Wrap(counts[i]), Wrap(counts[j])) <==> i < j
    ensures Wrap(counts[i]) == Wrap(counts[j]) <==> i == j
  {
    assert counts[0] <= counts[i] <= counts[|counts| - 1];
    assert counts[0] <= counts[j] <= counts[|counts| - 1];
    BeforeInWindow(counts[i], counts[j]);
  }

  /** From version `k` on, later stored differences start at larger numbers. */
  ghost predicate RisesFrom(counts: seq<int>, k: int) {
    forall i, j :: 0 <= k <= i < j < |counts| - 1 ==> Wrap(counts[i]) < Wrap(counts[j])
  }

  lemma UnwrappedRises(es: seq<Entry>, counts: seq<int>, ds: seq<Diff>, k: int)
    requires Chains(es, counts, ds) && 0 <= k < |ds|
    requires !LaterStartWrapped(es, Wrap(counts[k]))
    ensures RisesFrom(counts, k)
  {
    forall i, j | k <= i < j < |ds| ensures Wrap(counts[i]) < Wrap(counts[j]) {
      WindowOrder(counts, k, i);
      WindowOrder(counts, k, j);
      WindowOrder(counts, i, j);
      assert ChainEntry(counts, ds, i) in es && ChainEntry(counts, ds, j) in es;
    }
  }

  /** `end` is the serial of version `m`, or one past the newest stored difference. */
  ghost predicate EndsAt(counts: seq<int>, m: int, end: Serial)
    requires Window(counts)
  {
    && 0 <= m < |counts|
    && (|| end == Wrap(counts[m])
        || (&& m == |counts| - 1
            && forall i {:trigger counts[i]} :: 0 <= i < |counts| ==> Before(Wrap(counts[i]), end)))
  }

  ghost predicate IsVersion(e: Entry, counts: seq<int>, ds: seq<Diff>, i: int) {
    |counts| == |ds| + 1 && 0 <= i < |ds| && e == ChainEntry(counts, ds, i)
  }

  /** `t`, a tail of the store, still has every difference from version `j` on, and otherwise only
      differences older than version `k`. */
  ghost predicate Tail(t: seq<Entry>, counts: seq<int>, ds: seq<Diff>, k: int, j: int) {
    && Window(counts) && |counts| == |ds| + 1 && Sorted(t)
    && 0 <= k <= j <= |ds|
    && (forall i :: j <= i < |ds| ==> ChainEntry(counts, ds, i) in t)
    && (forall e :: e in t ==> exists i :: (i < k || j <= i) && IsVersion(e, counts, ds, i))
  }

  /** The first difference of a tail is older than version `k`, or it is that of version `j`. */
  lemma FirstOfTail(t: seq<Entry>, counts: seq<int>, ds: seq<Diff>, k: int, j: int) returns (i: int)
    requires Tail(t, counts, ds, k, j) && RisesFrom(counts, k) && t != []
    ensures (i < k || i == j) && IsVersion(t[0], counts, ds, i)
  {
    assert t[0] in t;
    i :| (i < k || j <= i) && IsVersion(t[0], counts, ds, i);
    if j < |ds| {
      var e := ChainEntry(counts, ds, j);
      assert t == [t[0]] + t[1..] && e in t;
      assert t[0].key.start <= e.key.start;
    }
  }

  lemma UnfinishedTail(t: seq<Entry>, counts: seq<int>, ds: seq<Diff>, k: int, j: int)
    requires Tail(t, counts, ds, k, j) && j < |ds|
    ensures t != []
  {
    assert ChainEntry(counts, ds, j) in t;
  }

  lemma RestOfTail(t: seq<Entry>, counts: seq<int>, ds: seq<Diff>, k: int, j: int, i: int)
    requires Tail(t, counts, ds, k, j) && t != [] && (i < k || i == j) && IsVersion(t[0], counts, ds, i)
    ensures Tail(t[1..], counts, ds, k, if i < k then j else j + 1)
  {
    assert t == [t[0]] + t[1..];
    var j' := if i < k then j else j + 1;
    forall x | j' <= x < |ds| ensures ChainEntry(counts, ds, x) in t[1..] {
      WindowOrder(counts, x, i);
      assert ChainEntry(counts, ds, x) in t;
    }
    forall e | e in t[1..] ensures exists x :: (x < k || j' <= x) && IsVersion(e, counts, ds, x) {
      assert e in t;
      var x :| (x < k || j <= x) && IsVersion(e, counts, ds, x);
      assert e.key.start != t[0].key.start;
    }
  }

  lemma ScanNothing(t: seq<Entry>, counts: seq<int>, ds: seq<Diff>, k: int, j: int, m: int)
    requires Tail(t, counts, ds, k, j) && RisesFrom(counts, k) && t == [] && j <= m <= |ds|
    ensures ds[j..m] == []
  {
    if j < |ds| {
      UnfinishedTail(t, counts, ds, k, j);
    }
  }

  lemma {:induction false} ScanTail(t: seq<Entry>, counts: seq<int>, ds: seq<Diff>,
                                    k: int, j: int, m: int, end: Serial)
    requires Tail(t, counts, ds, k, j) && RisesFrom(counts, k)
    requires j <= m <= |ds| && EndsAt(counts, m, end)
    ensures Scan(t, Wrap(counts[j]), end) == Some(ds[j..m])
    decreases |t|
  {
    if t == [] {
      ScanNothing(t, counts, ds, k, j, m);
    } else {
      var i := FirstOfTail(t, counts, ds, k, j);
      RestOfTail(t, counts, ds, k, j, i);
      if i < k {
        WindowOrder(counts, i, j);
        ScanTail(t[1..], counts, ds, k, j, m, end);
      } else {
        HeadOfRange(t, counts, ds, j, m, end);
        if j < m {
          ScanTail(t[1..], counts, ds, k, j + 1, m, end);
          assert ds[j..m] == [ds[j]] + ds[j + 1..m];
        } else {
          assert ds[j..m] == [];
        }
      }
    }
  }

  /** Meeting the difference that starts at version `j`: it is taken, unless `j` is where to end. */
  lemma HeadOfRange(t: seq<Entry>, counts: seq<int>, ds: seq<Diff>, j: int, m: int, end: Serial)
    requires Window(counts) && |counts| == |ds| + 1 && t != [] && EndsAt(counts, m, end)
    requires 0 <= j <= m <= |ds| && j < |ds| && t[0] == ChainEntry(counts, ds, j)
    ensures Scan(t, Wrap(counts[j]), end) ==
            if j == m then Some([])
            else Prepended([ds[j]], Scan(t[1..], Wrap(counts[j + 1]), end))
  {
    WindowOrder(counts, j, j);
    WindowOrder(counts, j, m);
    WindowOrder(counts, m, j);
  }

  /** When a later start wrapped below the requested one, so did the first of the store, and the scan gives up. */
  lemma ScanWrapped(es: seq<Entry>, s: Serial, end: Serial)
    requires Sorted(es) && LaterStartWrapped(es, s)
    ensures Scan(es, s, end) == None
  {
    var later :| later in es && later.key.start < s && Before(s, later.key.start);
    assert es[0].key.start <= later.key.start;
  }

  /**
   For a store that chains the versions, a request from version `k` to version `m` is answered with
   exactly the differences in between, unless a later start serial has wrapped below the requested
   one; then it is answered with nothing.  A request to a serial newer than every stored difference
   gets everything from `k` on, and so stops short of it.
   */
  lemma RangeIsExactOrEmpty(es: seq<Entry>, counts: seq<int>, ds: seq<Diff>, k: int, m: int, end: Serial)
    requires Chains(es, counts, ds) && 0 <= k <= m <= |ds| && k < |ds|
    requires EndsAt(counts, m, end)
    ensures Scan(es, Wrap(counts[k]), end).UnwrapOr([]) ==
            if LaterStartWrapped(es, Wrap(counts[k])) then [] else ds[k..m]
  {
    if LaterStartWrapped(es, Wrap(counts[k])) {
      ScanWrapped(es, Wrap(counts[k]), end);
    } else {
      UnwrappedRises(es, counts, ds, k);
      ScanTail(es, counts, ds, k, k, m, end);
    }
  }

  /** A request from a serial that is no version with a stored difference is answered with nothing. */
  lemma {:induction false} UnknownStartGivesNothing(es: seq<Entry>, start: Serial, end: Serial)
    requires forall e :: e in es ==> Before(e.key.start, start) || Before(start, e.key.start)
    ensures Scan(es, start, end).UnwrapOr([]) == []
  {
    if es != [] {
      assert es == [es[0]] + es[1..];
      UnknownStartGivesNothing(es[1..], start, end);
    }
  }

  //// Every answer is a linked chain ////

  predicate LinkedFrom(serial: Serial, ds: seq<Diff>)
    decreases |ds|
  {
    ds == [] || (ds[0].start == serial && LinkedFrom(ds[0].end, ds[1..]))
  }

  predicate Halfway(a: Serial, b: Serial) {
    a - b == TWO31 || b - a == TWO31
  }

  /** Whatever is stored, and whether or not it forms one chain, an answer starts at the requested
      serial and links up, as long as no start serial lies 2^31 from the request or from an end. */
  lemma {:induction false} AnswersAreLinked(es: seq<Entry>, start: Serial, end: Serial)
    requires forall e :: e in es ==> e.key == DiffKey(e.diff.start, e.diff.end)
    requires forall e :: e in es ==> !Halfway(start, e.key.start)
    requires forall e, f :: e in es && f in es ==> !Halfway(e.key.end, f.key.start)
    ensures LinkedFrom(start, Scan(es, start, end).UnwrapOr([]))
  {
    if es != [] {
      var key := es[0].key;
      assert es == [es[0]] + es[1..];
      if Before(key.start, start) {
        AnswersAreLinked(es[1..], start, end);
      } else if Before(start, key.start) || Before(end, key.start) || key.start == end {
      } else {
        AnswersAreLinked(es[1..], key.end, end);
      }
    }
  }

  /** All serials of the store are among these. */
  ghost predicate Uses(es: seq<Entry>, serials: iset<Serial>) {
    forall e :: e in es ==>
      e.key == DiffKey(e.diff.start, e.diff.end) && e.key.start in serials && e.key.end in serials
  }

  /** Every answer to a request between these serials, from any store that uses no others, links up. */
  ghost predicate AlwaysLinked(serials: iset<Serial>) {
    forall es, start, end :: Uses(es, serials) && start in serials && end in serials ==>
      LinkedFrom(start, Scan(es, start, end).UnwrapOr([]))
  }

  lemma HalfwayBreaks(serials: iset<Serial>, a: Serial, b: Serial)
    requires a in serials && b in serials && Halfway(a, b)
    ensures !AlwaysLinked(serials)
  {
    var d := Diff(b, a, {}, {});
    var es := [Entry(DiffKey(b, a), d)];
    assert es[1..] == [];
    assert Scan(es, a, a) == Prepended([d], Some([])) && [d] + [] == [d];
    assert Uses(es, serials) && !LinkedFrom(a, Scan(es, a, a).UnwrapOr([]));
  }

  /** Which serials are safe: answers link up, whatever is stored and requested, exactly if no two of the serials
      in use are 2^31 apart. */
  lemma AlwaysLinkedIff(serials: iset<Serial>)
    ensures AlwaysLinked(serials) <==> forall a, b :: a in serials && b in serials ==> !Halfway(a, b)
  {
    if a, b :| a in serials && b in serials && Halfway(a, b) {
      HalfwayBreaks(serials, a, b);
    } else {
      forall es, start, end | Uses(es, serials) && start in serials && end in serials
        ensures LinkedFrom(start, Scan(es, start, end).UnwrapOr([]))
      {
        AnswersAreLinked(es, start, end);
      }
    }
  }

  /** At a distance of exactly 2^31 no order holds, and an unrelated difference is handed out. */
  lemma HalfwayStartIsMistaken()
    ensures var d := Diff(TWO31, TWO31 + 1, {}, {});
            var es := StoreAll([d]);
            Scan(es, 0, TWO31 + 1).UnwrapOr([]) == [d] && !LinkedFrom(0, [d])
  {
    var d := Diff(TWO31, TWO31 + 1, {}, {});
    assert [d][..0] == [];
    var es := StoreAll([d]);
    assert es == Inserted(StoreAll([]), d);
    assert es == [Entry(DiffKey(TWO31, TWO31 + 1), d)];
    assert es[1..] == [];
    assert Scan(es, 0, TWO31 + 1) == Prepended([d], Some([]));
  }

  //// Replaying ////

  function Apply(c: Content, d: Diff): Content {
    c - d.removed + d.added
  }

  function Replay(c: Content, ds: seq<Diff>): Content
    decreases |ds|
  {
    if ds == [] then c else Replay(Apply(c, ds[0]), ds[1..])
  }

  /** What a commit records: the difference between two contents under the serials of the two. */
  function Committed(from: Content, to: Content, start: Serial, end: Serial): Diff {
    Diff(start, end, from - to, to - from)
  }

  lemma ApplyCommitted(from: Content, to: Content, start: Serial, end: Serial)
    ensures Apply(from, Committed(from, to, start, end)) == to
  {
    assert from - (from - to) + (to - from) == to;
  }

  /** The zone went through these contents under these serials, recording each difference in turn. */
  function History(counts: seq<int>, contents: seq<Content>): seq<Diff>
    requires |counts| == |contents| >= 1
  {
    seq(|counts| - 1, i requires 0 <= i < |counts| - 1 =>
      Committed(contents[i], contents[i + 1], Wrap(counts[i]), Wrap(counts[i + 1])))
  }

  function StoreAll(ds: seq<Diff>): seq<Entry> {
    if ds == [] then [] else Inserted(StoreAll(ds[..|ds| - 1]), ds[|ds| - 1])
  }

  lemma {:induction false} ReplayReaches(contents: seq<Content>, ds: seq<Diff>, k: int, m: int)
    requires |contents| == |ds| + 1 && 0 <= k <= m <= |ds|
    requires forall i :: 0 <= i < |ds| ==> Apply(contents[i], ds[i]) == contents[i + 1]
    ensures Replay(contents[k], ds[k..m]) == contents[m]
    decreases m - k
  {
    if k < m {
      assert ds[k..m][1..] == ds[k + 1..m];
      ReplayReaches(contents, ds, k + 1, m);
    }
  }

  /** Storing the difference to one more version keeps the store a chain. */
  lemma StoreOneMore(es: seq<Entry>, counts: seq<int>, ds: seq<Diff>)
    requires |ds| >= 1 && |counts| == |ds| + 1 && Window(counts)
    requires Chains(es, counts[..|ds|], ds[..|ds| - 1])
    requires ds[|ds| - 1].start == Wrap(counts[|ds| - 1]) && ds[|ds| - 1].end == Wrap(counts[|ds|])
    ensures Chains(Inserted(es, ds[|ds| - 1]), counts, ds)
  {
    var n := |ds|;
    var counts', ds', d := counts[..n], ds[..n - 1], ds[n - 1];
    InsertedIsSorted(es, d);
    forall e | e in es ensures e.key.start != d.start {
      var i :| IsVersion(e, counts', ds', i);
      WindowOrder(counts, i, n - 1);
    }
    forall i | 0 <= i < n ensures ChainEntry(counts, ds, i) in Inserted(es, d) {
      InsertedBindings(es, d, ChainEntry(counts, ds, i));
      WindowOrder(counts, i, n - 1);
      assert i < n - 1 ==> ChainEntry(counts, ds, i) == ChainEntry(counts', ds', i);
    }
    forall e | e in Inserted(es, d) ensures exists i :: IsVersion(e, counts, ds, i) {
      InsertedBindings(es, d, e);
      if e.key.start == d.start {
        assert IsVersion(e, counts, ds, n - 1);
      } else {
        var i :| IsVersion(e, counts', ds', i);
        assert IsVersion(e, counts, ds, i);
      }
    }
  }

  lemma {:induction false} StoreAllChains(counts: seq<int>, contents: seq<Content>)
    requires |counts| == |contents| >= 1 && Window(counts)
    ensures Chains(StoreAll(History(counts, contents)), counts, History(counts, contents))
  {
    var ds := History(counts, contents);
    var n := |ds|;
    if n > 0 {
      StoreAllChains(counts[..n], contents[..n]);
      assert History(counts[..n], contents[..n]) == ds[..n - 1];
      StoreOneMore(StoreAll(ds[..n - 1]), counts, ds);
    }
  }

  /**
   The promise of IXFR: whatever contents a zone went through, under serials that stay within half
   the number space, a secondary at version `k` asking for the newest version either gets
   differences that turn its content into the newest content, or gets none, and it gets none only
   if the serial wrapped around 2^32 after version `k`.
   */
  lemma IncrementalTransferIsFaithful(counts: seq<int>, contents: seq<Content>, k: int)
    requires |counts| == |contents| && Window(counts) && 0 <= k < |counts| - 1
    ensures var es := StoreAll(History(counts, contents));
            var newest := |counts| - 1;
            var answer := Scan(es, Wrap(counts[k]), Wrap(counts[newest])).UnwrapOr([]);
            if LaterStartWrapped(es, Wrap(counts[k]))
            then answer == [] && counts[k] / TWO32 < counts[newest] / TWO32
            else Replay(contents[k], answer) == contents[newest]
  {
    var ds := History(counts, contents);
    var es := StoreAll(ds);
    StoreAllChains(counts, contents);
    var newest := |counts| - 1;
    RangeIsExactOrEmpty(es, counts, ds, k, newest, Wrap(counts[newest]));
    if LaterStartWrapped(es, Wrap(counts[k])) {
      var e :| e in es && e.key.start < Wrap(counts[k]) && Before(Wrap(counts[k]), e.key.start);
      var i :| IsVersion(e, counts, ds, i);
      WindowOrder(counts, k, i);
      assert counts[k] < counts[i] <= counts[newest];
      assert counts[k] / TWO32 < counts[i] / TWO32 <= counts[newest] / TWO32;
    } else {
      forall i | 0 <= i < |ds| ensures Apply(contents[i], ds[i]) == contents[i + 1] {
        ApplyCommitted(contents[i], contents[i + 1], Wrap(counts[i]), Wrap(counts[i + 1]));
      }
      ReplayReaches(contents, ds, k, newest);
    }
  }
}
