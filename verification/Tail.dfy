/** What a reader is told about the end of a stream, and the catch-up loop of a live reader. */
module Tail {
  import opened Options
  import opened Offsets
  import opened Tables
  import opened Cluster
  import opened ForkSafety
  import opened Logs
  import opened LogSafety
  import opened Isolation
  import opened Stitch

  // --------------------------------------------------- windows of sorted logs

  lemma {:induction false} WindowOfAll(log: seq<Message>, after: Option<string>, cap: Option<string>)
    requires forall m :: m in log ==> InWindow(m.offset, after, cap)
    ensures Window(log, after, cap) == log
  {
    if log != [] {
      assert log[0] in log;
      WindowOfAll(log[1..], after, cap);
    }
  }

  lemma CutBounds(log: seq<Message>, after: string, i: nat)
    requires Sorted(log) && i < |log| && Less(after, log[i].offset)
    ensures forall m :: m in log[..i + 1] ==> AtMost(m.offset, log[i].offset)
    ensures forall m :: m in log[i + 1..] ==> Less(log[i].offset, m.offset) && Less(after, m.offset)
  {
    StrictOrder();
  }

  /** A sorted log, cut at one message of a window. */
  lemma WindowRest(log: seq<Message>, after: string, i: nat)
    requires Sorted(log) && i < |log| && Less(after, log[i].offset)
    ensures Window(log, Some(after), None) == Window(log[..i + 1], Some(after), None) + log[i + 1..]
    ensures Window(log, Some(log[i].offset), None) == log[i + 1..]
  {
    var head, rest, at := log[..i + 1], log[i + 1..], log[i].offset;
    assert log == head + rest;
    CutBounds(log, after, i);
    WindowSplits(head, rest, Some(after), None);
    WindowOfAll(rest, Some(after), None);
    WindowSplits(head, rest, Some(at), None);
    WindowOfNone(head, Some(at), None);
    WindowOfAll(rest, Some(at), None);
  }

  lemma WindowUpTo(log: seq<Message>, after: string, i: nat)
    requires Sorted(log) && i < |log| && Less(after, log[i].offset)
    ensures Window(log, Some(after), Some(log[i].offset)) == Window(log[..i + 1], Some(after), None)
  {
    var head, rest, at := log[..i + 1], log[i + 1..], log[i].offset;
    assert log == head + rest;
    CutBounds(log, after, i);
    StrictOrder();
    WindowSplits(head, rest, Some(after), Some(at));
    WindowOfNone(rest, Some(after), Some(at));
    WindowAgrees(head, Some(after), None, Some(after), Some(at));
  }

  lemma WindowEndsAt(log: seq<Message>, after: string, i: nat)
    requires i < |log| && Less(after, log[i].offset)
    ensures var a := Window(log[..i + 1], Some(after), None); a != [] && a[|a| - 1] == log[i]
  {
    assert log[..i + 1] == log[..i] + [log[i]];
    WindowSplits(log[..i], [log[i]], Some(after), None);
    WindowOfAll([log[i]], Some(after), None);
  }

  /** Continuing from the last delivered offset delivers exactly the rest. */
  lemma ContinueAfter(log: seq<Message>, after: string, k: nat)
    requires Sorted(log)
    requires var found := Window(log, Some(after), None); 1 <= k <= |found|
    ensures var found := Window(log, Some(after), None);
            && Window(log, Some(found[k - 1].offset), None) == found[k..]
            && Window(log, Some(after), Some(found[k - 1].offset)) == found[..k]
  {
    var found := Window(log, Some(after), None);
    assert found[k - 1] in found;
    var i :| 0 <= i < |log| && log[i] == found[k - 1];
    WindowRest(log, after, i);
    WindowUpTo(log, after, i);
    WindowEndsAt(log, after, i);
    SortedWindow(log, Some(after), None);
    var a := Window(log[..i + 1], Some(after), None);
    SameSpot(found, k - 1, |a| - 1);
  }

  /** In a sorted log a message occurs once. */
  lemma SameSpot(log: seq<Message>, i: nat, j: nat)
    requires Sorted(log) && i < |log| && j < |log| && log[i] == log[j]
    ensures i == j
  {
    StrictOrder();
  }

  // ---------------------------------------------------------------- reports

  /** Next offset, up-to-date and closed, as computed from a batch and a fresher look at the metadata. */
  datatype Report = Report(nextOffset: string, upToDate: bool, closed: bool)

  function ReportOf(batch: Batch, latest: Meta): Report {
    var next := if batch.messages != [] then batch.messages[|batch.messages| - 1].offset else latest.currentOffset;
    Report(next, !batch.capped, latest.closed && next == latest.currentOffset && !batch.capped)
  }

  /** The reader got everything between where it was and where it is told it now is. */
  ghost predicate NothingSkipped(w: World, p: Path, after: string, batch: Batch, r: Report)
    requires Good(w) && Attached(w, p)
  {
    Window(Logical(w, p), Some(after), Some(r.nextOffset)) == batch.messages
  }

  /**
   A reader is told that it is up to date only if the batch was everything after its
   offset when it was read. If it is not told so it got something, and either more was
   there or the batch had used up its limit or budget.
   */
  lemma UpToDateMeans(w: World, p: Path, after: string, limit: nat, budget: nat, latest: Meta)
    requires Good(w) && Sound(w, p) && limit >= 1
    ensures var batch := Stitched(w, p, after, None, limit, budget);
            var rest, report := Window(Logical(w, p), Some(after), None), ReportOf(batch, latest);
            && (report.upToDate ==> batch.messages == rest)
            && (!report.upToDate ==>
                  && batch.messages != []
                  && (batch.messages == rest ==> |batch.messages| == limit || Size(batch.messages) >= budget))
            && (report.closed ==> report.upToDate && latest.closed && report.nextOffset == latest.currentOffset)
  {
    StitchedRefinesFlatLog(w, p, after, None, limit, budget);
    StitchedTakesAll(w, p, after, None, limit, budget);
  }

  /** The messages appended between two moments. */
  function Added(w: World, v: World, p: Path): seq<Message>
    requires |At(w, p).messages| <= |At(v, p).messages|
  {
    At(v, p).messages[|At(w, p).messages|..]
  }

  /**
   The batch is read at one moment, the metadata at a later one. The report is
   sound exactly when the batch is nonempty or no message above the reader's offset
   was appended in between: an empty batch borrows the fresher offset and skips it.
   */
  lemma ReportSkipsNothingIff(w: World, v: World, p: Path, after: string, limit: nat, budget: nat)
    requires Good(w) && Good(v) && Later(w, v) && Sound(v, p) && Gen(v, p) < w.next && limit >= 1
    ensures |At(w, p).messages| <= |At(v, p).messages| && Exists(w, p) && Attached(w, p)
    ensures var batch := Stitched(w, p, after, None, limit, budget);
            NothingSkipped(v, p, after, batch, ReportOf(batch, At(v, p).meta.value))
            <==> (batch.messages != [] || AllAtMost(Added(w, v, p), after))
    ensures AtMost(after, At(w, p).meta.value.currentOffset) ==>
              (AllAtMost(Added(w, v, p), after) <==> At(v, p).messages == At(w, p).messages)
  {
    AddedSince(w, v, p);
    LogicalIsSorted(v, p);
    StitchedRefinesFlatLog(w, p, after, None, limit, budget);
    ReportIff(Logical(w, p), Added(w, v, p), after, Stitched(w, p, after, None, limit, budget), At(v, p).meta.value);
    AddedAboveReader(Added(w, v, p), after, At(w, p).meta.value.currentOffset);
  }

  /** What a sound stream's log has gained. */
  lemma AddedSince(w: World, v: World, p: Path)
    requires Good(w) && Good(v) && Later(w, v) && Sound(v, p) && Gen(v, p) < w.next
    ensures Sound(w, p) && |At(w, p).messages| <= |At(v, p).messages|
    ensures Logical(v, p) == Logical(w, p) + Added(w, v, p)
    ensures AllAbove(Added(w, v, p), At(w, p).meta.value.currentOffset)
    ensures AllAtMost(Added(w, v, p), At(v, p).meta.value.currentOffset)
    ensures Added(w, v, p) == [] <==> At(v, p).messages == At(w, p).messages
  {
    LogicalGrowsByOwnAppends(w, v, p);
    assert StreamOk(v, p);
    AddedBounds(At(w, p), At(v, p));
  }

  lemma AddedAboveReader(added: seq<Message>, after: string, before: string)
    requires AllAbove(added, before)
    ensures AtMost(after, before) ==> (AllAtMost(added, after) <==> added == [])
  {
    StrictOrder();
    if added != [] {
      assert added[0] in added;
    }
  }

  lemma ReportIff(log: seq<Message>, added: seq<Message>, after: string, batch: Batch, latest: Meta)
    requires Sorted(log + added) && batch.messages <= Window(log, Some(after), None)
    requires batch.messages == [] ==> Window(log, Some(after), None) == []
    requires AllAtMost(added, latest.currentOffset)
    ensures Window(log + added, Some(after), Some(ReportOf(batch, latest).nextOffset)) == batch.messages
            <==> (batch.messages != [] || AllAtMost(added, after))
  {
    if batch.messages != [] {
      FullBatchReport(log, added, after, batch.messages);
    } else {
      EmptyBatchReport(log, added, after, latest.currentOffset);
    }
  }

  lemma AddedBounds(t: Tables, u: Tables)
    requires t.meta.Some? && u.meta.Some? && Grown(t, u) && OwnLogOk(u.meta.value, u.messages)
    ensures var added := u.messages[|t.messages|..];
            && AllAbove(added, t.meta.value.currentOffset) && AllAtMost(added, u.meta.value.currentOffset)
            && u.messages == t.messages + added
            && (added == [] <==> u.messages == t.messages)
  {}

  lemma FullBatchReport(log: seq<Message>, added: seq<Message>, after: string, batch: seq<Message>)
    requires Sorted(log + added) && batch != [] && batch <= Window(log, Some(after), None)
    ensures Window(log + added, Some(after), Some(batch[|batch| - 1].offset)) == batch
  {
    BatchStaysPrefix(log, added, after, batch);
    CutAtBatch(log + added, after, batch);
  }

  lemma CutAtBatch(log: seq<Message>, after: string, batch: seq<Message>)
    requires Sorted(log) && batch != [] && batch <= Window(log, Some(after), None)
    ensures Window(log, Some(after), Some(batch[|batch| - 1].offset)) == batch
  {
    var found := Window(log, Some(after), None);
    assert found[..|batch|] == batch && found[|batch| - 1] == batch[|batch| - 1];
    ContinueAfter(log, after, |batch|);
  }

  lemma BatchStaysPrefix(log: seq<Message>, added: seq<Message>, after: string, batch: seq<Message>)
    requires batch <= Window(log, Some(after), None)
    ensures batch <= Window(log + added, Some(after), None)
    ensures Window(log + added, Some(after), None)[..|batch|] == batch
  {
    WindowSplits(log, added, Some(after), None);
  }

  lemma EmptyBatchReport(log: seq<Message>, added: seq<Message>, after: string, current: string)
    requires Window(log, Some(after), None) == [] && AllAtMost(added, current)
    ensures Window(log + added, Some(after), Some(current)) == [] <==> AllAtMost(added, after)
  {
    WindowSplits(log, added, Some(after), Some(current));
    forall m | m in log ensures !InWindow(m.offset, Some(after), Some(current)) {
      assert m !in Window(log, Some(after), None);
    }
    WindowOfNone(log, Some(after), Some(current));
    var found := Window(added, Some(after), Some(current));
    forall m | m in added ensures m in found <==> Less(after, m.offset) {}
    if found != [] {
      assert found[0] in found;
    }
  }

  /** A sound report of closure is final: everything has been delivered, and nothing will ever follow. */
  lemma ClosedReportIsFinal(w: World, v: World, x: World, p: Path, after: string, limit: nat, budget: nat)
    requires Good(w) && Good(v) && Good(x) && Later(v, x) && Sound(x, p) && Gen(x, p) < v.next && Exists(v, p)
    requires Attached(w, p) && Attached(v, p)
    requires var batch := Stitched(w, p, after, None, limit, budget);
             ReportOf(batch, At(v, p).meta.value).closed
             && NothingSkipped(v, p, after, batch, ReportOf(batch, At(v, p).meta.value))
    ensures Window(Logical(x, p), Some(after), None) == Stitched(w, p, after, None, limit, budget).messages
  {
    ClosedLogRests(v, x, p);
    LogicalIsSorted(v, p);
    WindowAgrees(Logical(v, p), Some(after), None, Some(after), Some(At(v, p).meta.value.currentOffset));
  }

  lemma ClosedLogRests(v: World, x: World, p: Path)
    requires Good(v) && Good(x) && Later(v, x) && Sound(x, p) && Gen(x, p) < v.next
    requires Exists(v, p) && At(v, p).meta.value.closed
    ensures Sound(v, p) && Logical(x, p) == Logical(v, p)
  {
    assert LogLater(At(v, p), At(x, p));
    LogicalGrowsByOwnAppends(v, x, p);
    assert At(x, p).messages[|At(v, p).messages|..] == [];
  }

  /**
   A long poll that times out reports the offset it started from together with the
   closed flag of fresher metadata. Told that the stream is closed, the reader has
   everything if and only if nothing was appended while it waited.
   */
  lemma TimeoutClosureIsFinalIff(w: World, v: World, x: World, p: Path)
    requires Good(w) && Good(v) && Good(x) && Later(w, v) && Later(v, x) && Sound(x, p) && Gen(x, p) < w.next
    requires Exists(v, p) && At(v, p).meta.value.closed
    ensures Exists(w, p)
    ensures Window(Logical(x, p), Some(At(w, p).meta.value.currentOffset), None) == []
            <==> At(v, p).messages == At(w, p).messages
  {
    ClosedLogRests(v, x, p);
    assert LogLater(At(v, p), At(x, p));
    LogicalGrowsByOwnAppends(w, v, p);
    LogicalIsSorted(w, p);
    var tail := At(w, p).meta.value.currentOffset;
    assert StreamOk(v, p);
    AddedBounds(At(w, p), At(v, p));
    WindowSplits(Logical(w, p), Added(w, v, p), Some(tail), None);
    WindowOfNone(Logical(w, p), Some(tail), None);
    WindowOfAll(Added(w, v, p), Some(tail), None);
  }

  // ---------------------------------------------------------------- catch-up

  /** No message offset is mistaken for the start marker. */
  lemma {:induction false} OffsetsAreNotMarkers(w: World, p: Path, m: Message)
    requires Good(w) && Sound(w, p) && m in Logical(w, p)
    ensures Start(Some(m.offset)) == m.offset
    decreases if Exists(w, p) then Gen(w, p) else 0
  {
    assert StreamOk(w, p);
    if m in At(w, p).messages {
      var initial := InitialOffset(At(w, p).meta.value);
      assert Less(initial, m.offset) && initial[0] == initial[..17][0] == '0';
    } else {
      OffsetsAreNotMarkers(w, Fork(w, p).parent, m);
    }
  }

  /** What one batch of the loop adds. */
  lemma BatchRefines(w: World, p: Path, from: string, batch: Batch)
    requires Good(w) && Sound(w, p)
    requires batch == Stitched(w, p, from, None, MAX_READ_ROWS, MAX_READ_BYTES)
    ensures var rest := Window(Logical(w, p), Some(from), None);
            && batch.messages <= rest
            && (!batch.capped ==> batch.messages == rest)
            && (batch.capped ==> batch.messages != [])
  {
    StitchedRefinesFlatLog(w, p, from, None, MAX_READ_ROWS, MAX_READ_BYTES);
  }

  /** Where the next one starts. */
  lemma RestAfterBatch(w: World, p: Path, from: string, batch: seq<Message>)
    requires Good(w) && Sound(w, p) && batch != [] && batch <= Window(Logical(w, p), Some(from), None)
    ensures var last := batch[|batch| - 1];
            Window(Logical(w, p), Some(Start(Some(last.offset))), None)
            == Window(Logical(w, p), Some(from), None)[|batch|..]
  {
    LogicalIsSorted(w, p);
    NextBatchStart(Logical(w, p), from, batch);
    OffsetsAreNotMarkers(w, p, batch[|batch| - 1]);
  }

  lemma NextBatchStart(log: seq<Message>, from: string, batch: seq<Message>)
    requires Sorted(log) && batch != [] && batch <= Window(log, Some(from), None)
    ensures var last := batch[|batch| - 1];
            last in log && Window(log, Some(last.offset), None) == Window(log, Some(from), None)[|batch|..]
  {
    ContinueAfter(log, from, |batch|);
    assert batch[|batch| - 1] in Window(log, Some(from), None);
  }

  /** Part of what is to be delivered has been, and the rest is what lies after this offset. */
  ghost predicate DeliveredTo(w: World, p: Path, all: seq<Message>, delivered: seq<Message>, from: string)
    requires Good(w) && Sound(w, p)
  {
    delivered <= all && Window(Logical(w, p), Some(from), None) == all[|delivered|..]
  }

  lemma SliceStep(all: seq<Message>, delivered: seq<Message>, batch: seq<Message>)
    requires delivered <= all && batch <= all[|delivered|..]
    ensures delivered + batch <= all && all[|delivered|..][|batch|..] == all[|delivered + batch|..]
    ensures batch == all[|delivered|..] ==> delivered + batch == all
  {}

  /** One iteration of the loop, seen from all that is to be delivered. */
  lemma OneMoreBatch(w: World, p: Path, all: seq<Message>, delivered: seq<Message>, from: string, batch: Batch)
    requires Good(w) && Sound(w, p) && DeliveredTo(w, p, all, delivered, from)
    requires batch == Stitched(w, p, from, None, MAX_READ_ROWS, MAX_READ_BYTES)
    ensures var report := ReportOf(batch, At(w, p).meta.value);
            if report.closed || !batch.capped then delivered + batch.messages == all
            else batch.messages != []
                 && DeliveredTo(w, p, all, delivered + batch.messages, Start(Some(report.nextOffset)))
  {
    BatchRefines(w, p, from, batch);
    SliceStep(all, delivered, batch.messages);
    if batch.messages != [] {
      RestAfterBatch(w, p, from, batch.messages);
    }
  }

  /** The closed flag a reader gets with a complete batch. */
  lemma ReportAtEnd(batch: Batch, latest: Meta)
    requires ReportOf(batch, latest).closed || !batch.capped
    ensures var report := ReportOf(batch, latest);
            && (batch.messages == [] ==> report.nextOffset == latest.currentOffset)
            && (report.closed <==> latest.closed && report.nextOffset == latest.currentOffset)
            && report.upToDate
  {}

  predicate MoreToCome(reports: seq<Report>) { forall r :: r in reports ==> !r.upToDate && !r.closed }

  /** The last report and no other says that the reader is up to date, and no earlier one that the stream is closed. */
  predicate LastIsUpToDate(reports: seq<Report>) {
    reports != [] && reports[|reports| - 1].upToDate && MoreToCome(reports[..|reports| - 1])
  }

  /**
   The catch-up loop of `pump_sse` on an unchanging stream: read from the last
   offset until a batch is not capped. It ends, delivers every remaining message
   once and in order, says that the reader is up to date with the last batch and with
   no other, and reports closure only after the last message.
   */
  method CatchUp(w: World, p: Path, start: string)
    returns (delivered: seq<Message>, offset: string, closed: bool, reports: seq<Report>)
    requires Good(w) && Sound(w, p)
    ensures delivered == Window(Logical(w, p), Some(Start(Some(start))), None)
    ensures delivered == [] ==> offset == At(w, p).meta.value.currentOffset
    ensures closed <==> At(w, p).meta.value.closed && offset == At(w, p).meta.value.currentOffset
    ensures LastIsUpToDate(reports)
    ensures reports[|reports| - 1].nextOffset == offset && reports[|reports| - 1].closed == closed
  {
    ghost var all := Window(Logical(w, p), Some(Start(Some(start))), None);
    delivered, offset, closed, reports := [], start, false, [];
    while true
      invariant DeliveredTo(w, p, all, delivered, Start(Some(offset)))
      invariant MoreToCome(reports)
      decreases |all| - |delivered|
    {
      var batch := ReadStitched(w, p, Some(offset), None, MAX_READ_ROWS, MAX_READ_BYTES);
      OneMoreBatch(w, p, all, delivered, Start(Some(offset)), batch);
      var report := ReportOf(batch, At(w, p).meta.value);
      delivered := delivered + batch.messages;
      offset, closed, reports := report.nextOffset, report.closed, reports + [report];
      if closed || !batch.capped {
        ReportAtEnd(batch, At(w, p).meta.value);
        break;
      }
      assert !report.upToDate;
    }
  }
}
