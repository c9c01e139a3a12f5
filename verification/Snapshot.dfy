/**
 Reads that overlap other transactions: a stitched read observes several actors
 at different moments, yet returns what one instant would have.
 */
module Snapshot {
  import opened Options
  import opened Offsets
  import opened Tables
  import opened Cluster
  import opened ForkSafety
  import opened Logs
  import opened LogSafety
  import opened Isolation
  import opened Stitch
  import opened Tail

  // ------------------------------------------------------ interleaved reads

  /**
   When a stitched read looked at what: indices into a run. Own rows are asked for
   twice, first for lengths and then for the data of those selected.
   */
  datatype ReadTrace =
    | Absent(at: nat)
    | OwnRows(at: nat, rowsAt: nat, dataAt: nat)
    | Joined(at: nat, inherited: ReadTrace, recheckAt: nat, rowsAt: nat, dataAt: nat)
    | Vanished(at: nat, inherited: ReadTrace, recheckAt: nat)
    | Restarted(at: nat, inherited: ReadTrace, recheckAt: nat, again: ReadTrace)

  function EndTime(tr: ReadTrace): nat {
    match tr
    case Absent(at) => at
    case OwnRows(_, _, dataAt) => dataAt
    case Joined(_, _, _, _, dataAt) => dataAt
    case Vanished(_, _, recheckAt) => recheckAt
    case Restarted(_, _, _, again) => EndTime(again)
  }

  /** The instant whose state the read returns. */
  function Moment(tr: ReadTrace): nat {
    match tr
    case Absent(at) => at
    case OwnRows(_, rowsAt, _) => rowsAt
    case Joined(_, _, _, rowsAt, _) => rowsAt
    case Vanished(_, _, recheckAt) => recheckAt
    case Restarted(_, _, _, again) => Moment(again)
  }

  /** Observations follow each other in time. */
  predicate WellTimed(tr: ReadTrace, n: nat) {
    match tr
    case Absent(at) => at < n
    case OwnRows(at, rowsAt, dataAt) => at <= rowsAt <= dataAt < n
    case Joined(at, inherited, recheckAt, rowsAt, dataAt) =>
      at < n && at <= inherited.at && WellTimed(inherited, n)
      && EndTime(inherited) <= recheckAt <= rowsAt <= dataAt < n
    case Vanished(at, inherited, recheckAt) =>
      at < n && at <= inherited.at && WellTimed(inherited, n) && EndTime(inherited) <= recheckAt < n
    case Restarted(at, inherited, recheckAt, again) =>
      at < n && at <= inherited.at && WellTimed(inherited, n) && EndTime(inherited) <= recheckAt < n
      && again.at == recheckAt && WellTimed(again, n)
  }

  predicate ReadsBelow(w: World, p: Path, after: string) { IsFork(w, p) && Less(after, Fork(w, p).offset) }

  /** A range read: rows are selected by their lengths at one moment, and their data fetched at a later one. */
  function TwoQueries(t: Tables, u: Tables, after: string, cap: Option<string>, limit: nat, budget: nat,
                      allowOversized: bool): Batch
  {
    var selected := RangeRead(Window(t.messages, Some(after), cap), limit, budget, allowOversized);
    if selected.messages == [] then selected
    else
      var last := selected.messages[|selected.messages| - 1].offset;
      Batch(Window(Window(u.messages, Some(after), cap), Some(after), Some(last)), selected.capped)
  }

  /** The inherited batch, continued with own rows read in this way. */
  function JoinQueries(inherited: Batch, t: Tables, u: Tables, after: string, cap: Option<string>, limit: nat,
                       budget: nat): Batch
  {
    if IsFull(inherited, limit, budget) then Batch(inherited.messages, true)
    else
      Continued(inherited, TwoQueries(t, u, after, cap, limit - |inherited.messages|,
                                      Monus(budget, Size(inherited.messages)), inherited.messages == []))
  }

  /** The batch a stitched read assembles from these observations; None when it would not have taken this course. */
  ghost function Observe(run: seq<World>, tr: ReadTrace, p: Path, after: string, cap: Option<string>, limit: nat,
                         budget: nat)
    : Option<Batch>
    requires WellTimed(tr, |run|)
    decreases tr
  {
    if tr.Absent? then (if Exists(run[tr.at], p) then None else Some(Batch([], false)))
    else if !Exists(run[tr.at], p) then None
    else if tr.OwnRows? then
      if ReadsBelow(run[tr.at], p, after) then None
      else Some(TwoQueries(At(run[tr.rowsAt], p), At(run[tr.dataAt], p), after, cap, limit, budget, true))
    else if !ReadsBelow(run[tr.at], p, after) then None
    else
      var f := Fork(run[tr.at], p);
      var inherited := Observe(run, tr.inherited, f.parent, after, Some(LowerCap(cap, f.offset)), limit, budget);
      var now := run[tr.recheckAt];
      if inherited.None? then None
      else match tr
        case Joined(_, _, _, rowsAt, dataAt) =>
          if Exists(now, p) && Gen(now, p) == Gen(run[tr.at], p)
          then Some(JoinQueries(inherited.value, At(run[rowsAt], p), At(run[dataAt], p), after, cap, limit, budget))
          else None
        case Vanished(_, _, _) => if Exists(now, p) then None else Some(Batch([], false))
        case Restarted(_, _, _, again) =>
          if Exists(now, p) && Gen(now, p) != Gen(run[tr.at], p)
          then Observe(run, again, p, after, cap, limit, budget)
          else None
  }

  /** A generation seen twice was there in between. */
  lemma GenerationPersists(run: seq<World>, steps: seq<Step>, i: nat, j: nat, k: nat, p: Path)
    requires Run(run, steps) && Good(run[0]) && i <= j <= k < |run|
    requires Exists(run[i], p) && Exists(run[k], p) && Gen(run[k], p) == Gen(run[i], p)
    ensures Good(run[j]) && Later(run[j], run[k])
    ensures Exists(run[j], p) && Gen(run[j], p) == Gen(run[i], p)
    ensures At(run[j], p).meta.value.fork == At(run[i], p).meta.value.fork
    ensures Gen(run[k], p) < run[j].next
  {
    RunStaysGood(run, steps, i);
    RunStaysGood(run, steps, j);
    RunIsLater(run, steps, i, j);
    RunIsLater(run, steps, j, k);
    assert StreamOk(run[i], p);
    assert LogLater(At(run[j], p), At(run[k], p));
    assert LogLater(At(run[i], p), At(run[j], p));
  }

  /** A stream that is sound at the end was sound throughout. */
  lemma SoundPersists(run: seq<World>, steps: seq<Step>, i: nat, j: nat, k: nat, p: Path)
    requires Run(run, steps) && Good(run[0]) && i <= j <= k < |run| && Good(run[k])
    requires Exists(run[i], p) && Sound(run[k], p) && Gen(run[k], p) == Gen(run[i], p)
    ensures Good(run[j]) && Later(run[j], run[k]) && Sound(run[j], p) && Gen(run[j], p) == Gen(run[i], p)
    ensures At(run[j], p).meta.value.fork == At(run[i], p).meta.value.fork && Gen(run[k], p) < run[j].next
  {
    GenerationPersists(run, steps, i, j, k, p);
    LogicalGrowsByOwnAppends(run[j], run[k], p);
  }

  /** The source a fork pins persists with it. */
  lemma SourcePersists(run: seq<World>, steps: seq<Step>, i: nat, j: nat, k: nat, p: Path)
    requires Run(run, steps) && Good(run[0]) && i <= j <= k < |run| && Good(run[k])
    requires IsFork(run[i], p) && Sound(run[k], p) && Gen(run[k], p) == Gen(run[i], p)
    ensures var f := Fork(run[i], p);
            && IsFork(run[j], p) && Fork(run[j], p) == f
            && Good(run[j]) && Sound(run[j], f.parent) && Gen(run[j], f.parent) == f.sourceGen
            && AtMost(f.offset, At(run[j], f.parent).meta.value.currentOffset)
  {
    SoundPersists(run, steps, i, j, k, p);
    assert StreamOk(run[j], p);
  }

  /** Reading below an offset a stream has passed gives the same now and later. */
  lemma {:induction false} PassedReadsAreStable(w: World, v: World, q: Path, after: string, cap: string, limit: nat,
                                                budget: nat)
    requires Good(w) && Good(v) && Later(w, v) && Sound(v, q) && Gen(v, q) < w.next
    requires Exists(w, q) && AtMost(cap, At(w, q).meta.value.currentOffset)
    ensures Sound(w, q)
    ensures Stitched(w, q, after, Some(cap), limit, budget) == Stitched(v, q, after, Some(cap), limit, budget)
    decreases Gen(v, q)
  {
    assert LogLater(At(w, q), At(v, q));
    LogicalGrowsByOwnAppends(w, v, q);
    OwnWindowStable(At(w, q), At(v, q), after, cap);
    if ReadsBelow(v, q, after) {
      var f := Fork(v, q);
      SourceHasPassed(w, v, q);
      StitchedBelow(v, q, after, Some(cap), limit, budget);
      StitchedBelow(w, q, after, Some(cap), limit, budget);
      LowerCapIsBelow(Some(cap), f.offset, At(w, f.parent).meta.value.currentOffset);
      PassedReadsAreStable(w, v, f.parent, after, LowerCap(Some(cap), f.offset), limit, budget);
    } else {
      StitchedOwn(v, q, after, Some(cap), limit, budget);
      StitchedOwn(w, q, after, Some(cap), limit, budget);
    }
  }

  /** The source of a fork is sound with it and had reached the fork offset before. */
  lemma SourceHasPassed(w: World, v: World, q: Path)
    requires Good(w) && Good(v) && Sound(w, q) && Sound(v, q) && IsFork(v, q) && w.next <= v.next
    requires At(w, q).meta.value.fork == At(v, q).meta.value.fork && Gen(w, q) == Gen(v, q) < w.next
    ensures var f := Fork(v, q);
            && Sound(v, f.parent) && Exists(w, f.parent) && Gen(v, f.parent) < Gen(v, q)
            && AtMost(f.offset, At(w, f.parent).meta.value.currentOffset)
  {
    assert StreamOk(w, q) && StreamOk(v, q);
  }

  lemma OwnWindowStable(t: Tables, u: Tables, after: string, cap: string)
    requires t.meta.Some? && u.meta.Some? && Grown(t, u) && AtMost(cap, t.meta.value.currentOffset)
    ensures Window(u.messages, Some(after), Some(cap)) == Window(t.messages, Some(after), Some(cap))
  {
    var added := u.messages[|t.messages|..];
    assert u.messages == t.messages + added;
    StrictOrder();
    WindowOfNone(added, Some(after), Some(cap));
    WindowSplits(t.messages, added, Some(after), Some(cap));
  }

  /**
   A range read asks twice: for lengths, then for the data of what it selected.
   Whatever is appended in between, the second query returns exactly the selected rows.
   */
  lemma SecondQueryAgrees(t: Tables, u: Tables, after: string, cap: Option<string>, k: nat)
    requires LogOk(t) && Regular(t) && u.meta.Some? && Grown(t, u)
    requires var found := Window(t.messages, Some(after), cap); 1 <= k <= |found|
    ensures var found := Window(t.messages, Some(after), cap);
            Window(Window(u.messages, Some(after), cap), Some(after), Some(found[k - 1].offset)) == found[..k]
  {
    var found := Window(t.messages, Some(after), cap);
    var last := found[k - 1].offset;
    assert found[k - 1] in found && AtMost(last, t.meta.value.currentOffset);
    OwnWindowStable(t, u, after, last);
    StrictOrder();
    WindowOfWindow(u.messages, Some(after), cap, Some(after), Some(last));
    WindowOfWindow(t.messages, Some(after), cap, Some(after), Some(last));
    SortedWindow(t.messages, Some(after), cap);
    WindowOfAll(found, Some(after), None);
    ContinueAfter(found, after, k);
  }

  /** So the two queries of a range read return what one would have. */
  lemma TwoQueriesAreOne(t: Tables, u: Tables, after: string, cap: Option<string>, limit: nat, budget: nat,
                         allowOversized: bool)
    requires LogOk(t) && Regular(t) && u.meta.Some? && Grown(t, u)
    ensures TwoQueries(t, u, after, cap, limit, budget, allowOversized)
            == RangeRead(Window(t.messages, Some(after), cap), limit, budget, allowOversized)
  {
    var selected := RangeRead(Window(t.messages, Some(after), cap), limit, budget, allowOversized);
    if selected.messages != [] {
      var found, k := Window(t.messages, Some(after), cap), |selected.messages|;
      assert selected.messages == found[..k] && selected.messages[k - 1] == found[k - 1];
      SecondQueryAgrees(t, u, after, cap, k);
    }
  }

  lemma JoinQueriesIsJoin(inherited: Batch, t: Tables, u: Tables, after: string, cap: Option<string>, limit: nat,
                          budget: nat)
    requires LogOk(t) && Regular(t) && u.meta.Some? && Grown(t, u)
    ensures JoinQueries(inherited, t, u, after, cap, limit, budget)
            == Join(inherited, Window(t.messages, Some(after), cap), limit, budget)
  {
    if !IsFull(inherited, limit, budget) {
      TwoQueriesAreOne(t, u, after, cap, limit - |inherited.messages|, Monus(budget, Size(inherited.messages)),
                       inherited.messages == []);
    }
  }

  /** A stream that is sound at the end has only grown in between. */
  lemma GrewBetween(run: seq<World>, steps: seq<Step>, i: nat, j: nat, k: nat, end: nat, p: Path)
    requires Run(run, steps) && Good(run[0]) && i <= j <= k <= end < |run| && Good(run[end])
    requires Exists(run[i], p) && Sound(run[end], p) && Gen(run[end], p) == Gen(run[i], p)
    ensures LogOk(At(run[j], p)) && Regular(At(run[j], p)) && At(run[k], p).meta.Some?
    ensures Grown(At(run[j], p), At(run[k], p))
  {
    SoundPersists(run, steps, i, j, end, p);
    SoundPersists(run, steps, i, k, end, p);
    SoundPersists(run, steps, j, j, k, p);
    assert StreamOk(run[j], p);
    LogicalGrowsByOwnAppends(run[j], run[k], p);
  }

  /**
   If the fork's generation is the same before and after, an interleaved stitched
   read returned exactly what an instantaneous one would have when it selected its own
   rows: nothing of another incarnation of any ancestor, nothing missing, nothing mixed.
   */
  lemma {:induction false} InterleavedReadsAreAtomic(
      run: seq<World>, steps: seq<Step>, tr: ReadTrace, p: Path, after: string, cap: Option<string>,
      limit: nat, budget: nat, end: nat)
    requires Run(run, steps) && Good(run[0]) && WellTimed(tr, |run|) && EndTime(tr) <= end < |run|
    requires Good(run[end]) && Sound(run[end], p) && Exists(run[tr.at], p) && Gen(run[end], p) == Gen(run[tr.at], p)
    requires Observe(run, tr, p, after, cap, limit, budget).Some?
    ensures tr.at <= Moment(tr) <= EndTime(tr) && Good(run[Moment(tr)]) && Sound(run[Moment(tr)], p)
    ensures Observe(run, tr, p, after, cap, limit, budget).value
            == Stitched(run[Moment(tr)], p, after, cap, limit, budget)
    decreases tr
  {
    TimesAscend(tr, |run|);
    SoundPersists(run, steps, tr.at, Moment(tr), end, p);
    if tr.OwnRows? {
      GrewBetween(run, steps, tr.at, tr.rowsAt, tr.dataAt, end, p);
      TwoQueriesAreOne(At(run[tr.rowsAt], p), At(run[tr.dataAt], p), after, cap, limit, budget, true);
      StitchedOwn(run[tr.rowsAt], p, after, cap, limit, budget);
    } else if tr.Joined? {
      GrewBetween(run, steps, tr.at, tr.rowsAt, tr.dataAt, end, p);
      ObservedJoin(run, tr, p, after, cap, limit, budget);
      TimesAscend(tr.inherited, |run|);
      var f := Fork(run[tr.at], p);
      SourcePersists(run, steps, tr.at, tr.inherited.at, end, p);
      SourcePersists(run, steps, tr.at, tr.rowsAt, end, p);
      InterleavedReadsAreAtomic(run, steps, tr.inherited, f.parent, after, Some(LowerCap(cap, f.offset)), limit,
                                budget, tr.rowsAt);
      JoinedIsAtomic(run, steps, tr, p, after, cap, limit, budget, end);
    } else {
      RecheckWouldFail(run, steps, tr, p, after, cap, limit, budget, end);
    }
  }

  lemma ObservedJoin(run: seq<World>, tr: ReadTrace, p: Path, after: string, cap: Option<string>, limit: nat,
                     budget: nat)
    requires WellTimed(tr, |run|) && tr.Joined? && Observe(run, tr, p, after, cap, limit, budget).Some?
    requires LogOk(At(run[tr.rowsAt], p)) && Regular(At(run[tr.rowsAt], p)) && At(run[tr.dataAt], p).meta.Some?
    requires Grown(At(run[tr.rowsAt], p), At(run[tr.dataAt], p))
    ensures ReadsBelow(run[tr.at], p, after)
    ensures var f := Fork(run[tr.at], p);
            var inherited := Observe(run, tr.inherited, f.parent, after, Some(LowerCap(cap, f.offset)), limit, budget);
            inherited.Some? && Observe(run, tr, p, after, cap, limit, budget).value
            == Join(inherited.value, Window(At(run[tr.rowsAt], p).messages, Some(after), cap), limit, budget)
  {
    var f := Fork(run[tr.at], p);
    var inherited := Observe(run, tr.inherited, f.parent, after, Some(LowerCap(cap, f.offset)), limit, budget);
    JoinQueriesIsJoin(inherited.value, At(run[tr.rowsAt], p), At(run[tr.dataAt], p), after, cap, limit, budget);
  }

  /** A stream that keeps its generation is never absent, gone or replaced when looked at again. */
  lemma RecheckWouldFail(
      run: seq<World>, steps: seq<Step>, tr: ReadTrace, p: Path, after: string, cap: Option<string>,
      limit: nat, budget: nat, end: nat)
    requires Run(run, steps) && Good(run[0]) && WellTimed(tr, |run|) && EndTime(tr) <= end < |run|
    requires Exists(run[tr.at], p) && Exists(run[end], p) && Gen(run[end], p) == Gen(run[tr.at], p)
    requires tr.Absent? || tr.Vanished? || tr.Restarted?
    ensures Observe(run, tr, p, after, cap, limit, budget).None?
  {
    if !tr.Absent? {
      TimesAscend(tr.inherited, |run|);
      if tr.Restarted? {
        TimesAscend(tr.again, |run|);
      }
      GenerationPersists(run, steps, tr.at, tr.recheckAt, end, p);
    }
  }

  /** The inherited part, read earlier, is what the source still says when the own rows are selected. */
  lemma JoinedIsAtomic(
      run: seq<World>, steps: seq<Step>, tr: ReadTrace, p: Path, after: string, cap: Option<string>,
      limit: nat, budget: nat, end: nat)
    requires Run(run, steps) && Good(run[0]) && WellTimed(tr, |run|) && tr.Joined? && tr.rowsAt <= end < |run|
    requires Good(run[end]) && ReadsBelow(run[tr.at], p, after) && Sound(run[end], p)
    requires Gen(run[end], p) == Gen(run[tr.at], p)
    requires tr.at <= Moment(tr.inherited) <= tr.rowsAt && Good(run[Moment(tr.inherited)])
    requires Attached(run[Moment(tr.inherited)], Fork(run[tr.at], p).parent)
    ensures Good(run[tr.rowsAt]) && Attached(run[tr.rowsAt], p)
    ensures var f := Fork(run[tr.at], p);
            Stitched(run[tr.rowsAt], p, after, cap, limit, budget)
            == Join(Stitched(run[Moment(tr.inherited)], f.parent, after, Some(LowerCap(cap, f.offset)), limit, budget),
                    Window(At(run[tr.rowsAt], p).messages, Some(after), cap), limit, budget)
  {
    var f, early, late := Fork(run[tr.at], p), Moment(tr.inherited), tr.rowsAt;
    SourcePersists(run, steps, tr.at, early, end, p);
    SourcePersists(run, steps, tr.at, late, end, p);
    SoundPersists(run, steps, tr.at, late, end, p);
    SoundPersists(run, steps, early, early, late, f.parent);
    LowerCapIsBelow(cap, f.offset, At(run[early], f.parent).meta.value.currentOffset);
    PassedReadsAreStable(run[early], run[late], f.parent, after, LowerCap(cap, f.offset), limit, budget);
    StitchedBelow(run[late], p, after, cap, limit, budget);
  }

  lemma LowerCapIsBelow(cap: Option<string>, offset: string, current: string)
    requires AtMost(offset, current)
    ensures AtMost(LowerCap(cap, offset), current)
  {
    StrictOrder();
  }

  lemma {:induction false} TimesAscend(tr: ReadTrace, n: nat)
    requires WellTimed(tr, n)
    ensures tr.at <= Moment(tr) <= EndTime(tr) < n
    decreases tr
  {
    match tr
    case Absent(_) =>
    case OwnRows(_, _, _) =>
    case Joined(_, inherited, _, _, _) => TimesAscend(inherited, n);
    case Vanished(_, inherited, _) => TimesAscend(inherited, n);
    case Restarted(_, inherited, _, again) =>
      TimesAscend(inherited, n);
      TimesAscend(again, n);
  }

  /**
   `read_snapshot`: if the generation found before and after the read is the same,
   the batch refines the flat log of one instant, which is a prefix of the log at the end.
   */
  lemma SnapshotRefinesFlatLog(run: seq<World>, steps: seq<Step>, tr: ReadTrace, p: Path, after: string,
                               limit: nat, budget: nat, end: nat)
    requires Run(run, steps) && Good(run[0]) && WellTimed(tr, |run|) && EndTime(tr) <= end < |run|
    requires Good(run[end]) && Sound(run[end], p) && Exists(run[tr.at], p) && Gen(run[end], p) == Gen(run[tr.at], p)
    requires Observe(run, tr, p, after, None, limit, budget).Some?
    ensures tr.at <= Moment(tr) <= end && Good(run[Moment(tr)]) && Sound(run[Moment(tr)], p)
    ensures Refines(Observe(run, tr, p, after, None, limit, budget).value,
                    Window(Logical(run[Moment(tr)], p), Some(after), None), limit, budget)
    ensures Logical(run[Moment(tr)], p) <= Logical(run[end], p)
  {
    InterleavedReadsAreAtomic(run, steps, tr, p, after, None, limit, budget, end);
    SoundPersists(run, steps, tr.at, Moment(tr), end, p);
    StitchedRefinesFlatLog(run[Moment(tr)], p, after, None, limit, budget);
    LogicalGrowsByOwnAppends(run[Moment(tr)], run[end], p);
  }
}
