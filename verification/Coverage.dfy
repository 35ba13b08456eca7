/** Which parts of a mail an analysis has read, and whether that is all of it. */
module Coverage {
  import opened Wrappers

  datatype Range = Range(start: int, end: int)
  datatype Source = Source(folder: string, uid: string, messageId: string, hash: string, ranges: seq<Range>, total: int)

  /** One read of a message: its identity, the hash of its evidence, and the part read. */
  datatype Read = Read(folder: string, uid: string, messageId: string, hash: string, range: Range, total: int)

  // ----------------------------------------------------------------- recording

  predicate Same(s: Source, r: Read) { s.folder == r.folder && s.uid == r.uid }

  predicate KeysUnique(sources: seq<Source>) {
    forall i, j :: 0 <= i < j < |sources| ==>
      !(sources[i].folder == sources[j].folder && sources[i].uid == sources[j].uid)
  }

  /** The entry of a message grows by the range; a message whose evidence changed is refused. */
  function Record(sources: seq<Source>, r: Read): (seq<Source>, bool)
    decreases |sources|
  {
    if sources == [] then ([Source(r.folder, r.uid, r.messageId, r.hash, [r.range], r.total)], true)
    else if Same(sources[0], r) then
      if sources[0].hash != r.hash then (sources, false)
      else ([sources[0].(ranges := sources[0].ranges + [r.range])] + sources[1..], true)
    else
      var rest := Record(sources[1..], r);
      ([sources[0]] + rest.0, rest.1)
  }

  function RecordAll(sources: seq<Source>, seen: seq<Read>): seq<Source>
    decreases |seen|
  {
    if seen == [] then sources else RecordAll(Record(sources, seen[0]).0, seen[1..])
  }

  /** The ranges of the reads of one message that saw its first evidence. */
  function RangesOf(seen: seq<Read>, folder: string, uid: string, hash: string): seq<Range>
    decreases |seen|
  {
    if seen == [] then []
    else (if seen[0].folder == folder && seen[0].uid == uid && seen[0].hash == hash then [seen[0].range] else [])
         + RangesOf(seen[1..], folder, uid, hash)
  }

  /** What becomes of an entry when a read is recorded. */
  function Updated(s: Source, r: Read): Source {
    if Same(s, r) && s.hash == r.hash then s.(ranges := s.ranges + [r.range]) else s
  }

  lemma {:induction false} RecordMembers(sources: seq<Source>, r: Read, t: Source)
    requires t in Record(sources, r).0
    ensures Same(t, r) || t in sources
    decreases |sources|
  {
    if sources != [] && !Same(sources[0], r) && t != sources[0] {
      RecordMembers(sources[1..], r, t);
    }
  }

  lemma {:induction false} RecordKeepsKeys(sources: seq<Source>, r: Read)
    requires KeysUnique(sources)
    ensures KeysUnique(Record(sources, r).0)
    decreases |sources|
  {
    if sources != [] && !Same(sources[0], r) {
      RecordKeepsKeys(sources[1..], r);
      var rest := Record(sources[1..], r).0;
      forall j | 0 <= j < |rest| ensures !(sources[0].folder == rest[j].folder && sources[0].uid == rest[j].uid) {
        RecordMembers(sources[1..], r, rest[j]);
      }
    }
  }

  lemma {:induction false} RecordUpdates(sources: seq<Source>, r: Read, s: Source)
    requires KeysUnique(sources) && s in sources
    ensures Updated(s, r) in Record(sources, r).0
    decreases |sources|
  {
    if s == sources[0] {
      if !Same(s, r) { assert Record(sources, r).0[0] == s; }
    } else {
      assert s in sources[1..];
      if Same(sources[0], r) {
        assert !Same(s, r);
      } else {
        RecordUpdates(sources[1..], r, s);
      }
    }
  }

  /** After any reads a message's entry holds exactly the ranges read of its first evidence, in order. */
  lemma {:induction false} EntriesHoldTheReads(sources: seq<Source>, seen: seq<Read>, s: Source)
    requires KeysUnique(sources) && s in sources
    ensures KeysUnique(RecordAll(sources, seen))
    ensures s.(ranges := s.ranges + RangesOf(seen, s.folder, s.uid, s.hash)) in RecordAll(sources, seen)
    decreases |seen|
  {
    if seen == [] {
      assert s.(ranges := s.ranges + []) == s;
    } else {
      RecordKeepsKeys(sources, seen[0]);
      RecordUpdates(sources, seen[0], s);
      var t := Updated(s, seen[0]);
      EntriesHoldTheReads(Record(sources, seen[0]).0, seen[1..], t);
      var later := RangesOf(seen[1..], s.folder, s.uid, s.hash);
      assert t.ranges + later == s.ranges + RangesOf(seen, s.folder, s.uid, s.hash);
    }
  }

  /** The sources of one analysis. */
  class Scope {
    var sources: seq<Source>

    constructor ()
      ensures sources == []
    {
      sources := [];
    }

    /** The loop looks for the message's entry; only the first one counts. */
    method Find(r: Read) returns (at: Option<nat>)
      ensures at.Some? ==> at.value < |sources| && Same(sources[at.value], r)
      ensures forall j :: 0 <= j < (if at.Some? then at.value else |sources|) ==> !Same(sources[j], r)
    {
      var i := 0;
      while i < |sources|
        invariant 0 <= i <= |sources| && forall j :: 0 <= j < i ==> !Same(sources[j], r)
      {
        if sources[i].folder == r.folder && sources[i].uid == r.uid { return Some(i); }
        i := i + 1;
      }
      return None;
    }

    method AddSource(r: Read) returns (ok: bool)
      modifies this
      ensures (sources, ok) == Record(old(sources), r)
    {
      var at := Find(r);
      RecordAt(sources, r, at);
      if at.None? {
        sources := sources + [Source(r.folder, r.uid, r.messageId, r.hash, [r.range], r.total)];
        return true;
      }
      var s := sources[at.value];
      if s.hash != r.hash { return false; }
      sources := sources[at.value := s.(ranges := s.ranges + [r.range])];
      return true;
    }
  }

  /** Recording touches the first entry of the message, or appends one. */
  lemma {:induction false} RecordAt(sources: seq<Source>, r: Read, at: Option<nat>)
    requires at.Some? ==> at.value < |sources| && Same(sources[at.value], r)
    requires forall j :: 0 <= j < (if at.Some? then at.value else |sources|) ==> !Same(sources[j], r)
    ensures at.None? ==>
      Record(sources, r) == (sources + [Source(r.folder, r.uid, r.messageId, r.hash, [r.range], r.total)], true)
    ensures at.Some? && sources[at.value].hash != r.hash ==> Record(sources, r) == (sources, false)
    ensures at.Some? && sources[at.value].hash == r.hash ==>
      Record(sources, r) == (sources[at.value := sources[at.value].(ranges := sources[at.value].ranges + [r.range])],
        true)
    decreases |sources|
  {
    if sources == [] {
      assert sources + [Source(r.folder, r.uid, r.messageId, r.hash, [r.range], r.total)] == Record(sources, r).0;
    } else {
      if at.None? {
        RecordAt(sources[1..], r, None);
        var added := [Source(r.folder, r.uid, r.messageId, r.hash, [r.range], r.total)];
        assert [sources[0]] + (sources[1..] + added) == sources + added;
      } else {
        var i := at.value;
        var next := sources[i].(ranges := sources[i].ranges + [r.range]);
        if i == 0 {
          assert [next] + sources[1..] == sources[0 := next];
        } else {
          RecordAt(sources[1..], r, Some(i - 1));
          assert [sources[0]] + sources[1..] == sources;
          assert [sources[0]] + sources[1..][i - 1 := next] == sources[i := next];
        }
      }
    }
  }

  // ------------------------------------------------------------------ coverage

  predicate Covered(ranges: seq<Range>, p: int) {
    exists i :: 0 <= i < |ranges| && ranges[i].start <= p < ranges[i].end
  }

  ghost predicate CoveredUpTo(ranges: seq<Range>, n: int) {
    forall p :: 0 <= p < n ==> Covered(ranges, p)
  }

  /** The sweep also insists that no range starts behind a gap, even beyond the total. */
  function Horizon(total: int, ranges: seq<Range>): (h: int)
    ensures h >= total && (forall r :: r in ranges ==> h >= r.start)
    ensures (h == total || exists r :: r in ranges && h == r.start)
  {
    if ranges == [] then total
    else
      var rest := Horizon(total, ranges[1..]);
      if ranges[0].start > rest then ranges[0].start else rest
  }

  predicate SortedByStart(ranges: seq<Range>) {
    forall i, j :: 0 <= i < j < |ranges| ==> ranges[i].start <= ranges[j].start
  }

  /** Puts a range where the order needs it. */
  method Insert(sorted: seq<Range>, r: Range) returns (q: seq<Range>)
    requires SortedByStart(sorted)
    ensures SortedByStart(q) && multiset(q) == multiset(sorted) + multiset{r}
  {
    var i := 0;
    while i < |sorted| && sorted[i].start <= r.start
      invariant 0 <= i <= |sorted| && forall j :: 0 <= j < i ==> sorted[j].start <= r.start
    {
      i := i + 1;
    }
    q := sorted[..i] + [r] + sorted[i..];
    assert sorted == sorted[..i] + sorted[i..];
  }

  method Sort(ranges: seq<Range>) returns (sorted: seq<Range>)
    ensures SortedByStart(sorted) && multiset(sorted) == multiset(ranges)
  {
    sorted := [];
    var i := 0;
    while i < |ranges|
      invariant 0 <= i <= |ranges| && SortedByStart(sorted) && multiset(sorted) == multiset(ranges[..i])
    {
      assert ranges[..i + 1] == ranges[..i] + [ranges[i]];
      sorted := Insert(sorted, ranges[i]);
      i := i + 1;
    }
    assert ranges[..i] == ranges;
  }

  /** Covered by one of the first i ranges. */
  predicate CoveredBefore(ranges: seq<Range>, i: nat, p: int)
    requires i <= |ranges|
  {
    exists j :: 0 <= j < i && ranges[j].start <= p < ranges[j].end
  }

  /** The sweep over sorted ranges, with the end of what is covered so far. */
  method Sweep(ranges: seq<Range>, total: int) returns (r: bool)
    requires SortedByStart(ranges)
    ensures r <==> CoveredUpTo(ranges, Horizon(total, ranges))
  {
    var end := 0;
    var i := 0;
    while i < |ranges|
      invariant 0 <= i <= |ranges| && end >= 0
      invariant forall j :: 0 <= j < i ==> ranges[j].start <= end && ranges[j].end <= end
      invariant forall p :: 0 <= p < end ==> CoveredBefore(ranges, i, p)
    {
      if ranges[i].start > end {
        Gap(ranges, total, i, end);
        return false;
      }
      var next := if ranges[i].end > end then ranges[i].end else end;
      var n := i + 1;
      forall p | 0 <= p < next ensures CoveredBefore(ranges, n, p) {
        if p < end {
          assert CoveredBefore(ranges, i, p);
        } else {
          assert ranges[i].start <= p < ranges[i].end;
        }
      }
      end, i := next, n;
    }
    if end < total {
      Gap(ranges, total, i, end);
      return false;
    }
    forall p | 0 <= p < Horizon(total, ranges) ensures Covered(ranges, p) {
      assert CoveredBefore(ranges, i, p);
    }
    return true;
  }

  /** Where the sweep stops nothing covers the next position, and the horizon lies beyond it. */
  lemma Gap(ranges: seq<Range>, total: int, i: nat, end: int)
    requires i <= |ranges| && end >= 0 && SortedByStart(ranges)
    requires forall j :: 0 <= j < i ==> ranges[j].end <= end
    requires if i < |ranges| then ranges[i].start > end else end < total
    ensures !CoveredUpTo(ranges, Horizon(total, ranges))
  {
    assert !Covered(ranges, end);
    if i < |ranges| { assert ranges[i] in ranges; }
    assert 0 <= end < Horizon(total, ranges);
  }

  /** Coverage and horizon depend on the recorded ranges only as a collection. */
  lemma OrderDoesNotMatter(a: seq<Range>, b: seq<Range>, total: int)
    requires multiset(a) == multiset(b)
    ensures Horizon(total, a) == Horizon(total, b) && forall p :: Covered(a, p) ==> Covered(b, p)
  {
    forall r ensures r in a <==> r in b {
      assert (r in a <==> r in multiset(a)) && (r in b <==> r in multiset(b));
    }
    forall p | Covered(a, p) ensures Covered(b, p) {
      var i :| 0 <= i < |a| && a[i].start <= p < a[i].end;
      assert a[i] in b;
    }
  }

  /** sourceFullyRead: sort a copy, then sweep. */
  method SourceFullyRead(source: Source) returns (r: bool)
    ensures r <==> CoveredUpTo(source.ranges, Horizon(source.total, source.ranges))
  {
    var ranges := Sort(source.ranges);
    r := Sweep(ranges, source.total);
    OrderDoesNotMatter(ranges, source.ranges, source.total);
    OrderDoesNotMatter(source.ranges, ranges, source.total);
  }

  /** When no range starts beyond the total, the horizon is the total: the sweep decides set coverage. */
  lemma WithinTheTotal(ranges: seq<Range>, total: int)
    requires forall r :: r in ranges ==> r.start <= total
    ensures CoveredUpTo(ranges, Horizon(total, ranges)) <==> CoveredUpTo(ranges, total)
  {}

  /**
   In general the sweep agrees with set coverage unless the whole total is covered and a later
   range follows a gap.
   */
  lemma WhenSweepAndSetDiffer(ranges: seq<Range>, total: int)
    ensures !(CoveredUpTo(ranges, Horizon(total, ranges)) <==> CoveredUpTo(ranges, total)) <==>
      CoveredUpTo(ranges, total) && exists r, p :: r in ranges && 0 <= p < r.start && !Covered(ranges, p)
  {
    var h := Horizon(total, ranges);
    if CoveredUpTo(ranges, total) && !CoveredUpTo(ranges, h) {
      var p :| 0 <= p < h && !Covered(ranges, p);
      assert h != total;
      var r :| r in ranges && h == r.start;
      assert r in ranges && 0 <= p < r.start && !Covered(ranges, p);
    }
  }

  /** A range behind the end of the text makes a completely read source look incomplete. */
  lemma RangeBeyondTheEndExample()
    ensures var ranges := [Range(0, 5), Range(7, 7)];
      CoveredUpTo(ranges, 5) && !CoveredUpTo(ranges, Horizon(5, ranges))
  {
    var ranges := [Range(0, 5), Range(7, 7)];
    forall p | 0 <= p < 5 ensures Covered(ranges, p) {
      assert ranges[0].start <= p < ranges[0].end;
    }
    assert Range(7, 7) in ranges && !Covered(ranges, 6);
  }
}
