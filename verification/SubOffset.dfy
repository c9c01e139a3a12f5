/**
 Forks with a sub-offset: besides the source up to the fork offset, such a fork
 reads as the first n bytes, or for JSON the first n values, of the source's next
 message, which it copies into its own log before its initial body.
 */
module SubOffset {
  import opened Options
  import opened Offsets
  import opened Tables
  import opened Cluster
  import opened ClusterProofs
  import opened ForkSafety
  import opened Logs
  import opened LogSafety
  import opened Isolation
  import opened Stitch
  import opened Snapshot
  import opened Tail
  import opened Framing

  const MAX_OFFSET_CAP: string := "9999999999999999_9999999999999999"

  type Parser = Blob -> Option<seq<Blob>>

  // ------------------------------------------------------- the copied prefix

  /** What the creating fork copies; None rejects the sub-offset. */
  function CopiedPrefix(first: seq<Message>, isJson: bool, n: nat, parse: Parser): Option<Blob> {
    if first == [] then None
    else if isJson then
      match parse([OPEN] + DropComma(first[0].data) + [CLOSE])
      case None => None
      case Some(values) => if n <= |values| then Some(Stored(values[..n])) else None
    else if n <= |first[0].data| then Some(first[0].data[..n])
    else None
  }

  /** The sub-offset part of `create_fork`, once the source's next message has been read. */
  method TakePrefix(first: seq<Message>, isJson: bool, n: nat, parse: Parser) returns (prefix: Option<Blob>)
    ensures prefix == CopiedPrefix(first, isJson, n, parse)
  {
    if first == [] {
      return None;
    }
    if !isJson {
      return if n <= |first[0].data| then Some(first[0].data[..n]) else None;
    }
    var fragment := first[0].data;
    if fragment != [] && fragment[|fragment| - 1] == COMMA {
      fragment := fragment[..|fragment| - 1];
    }
    var values := parse([OPEN] + fragment + [CLOSE]);
    if values.None? || n > |values.value| {
      return None;
    }
    var taken := values.value[..n];
    var output: Blob := [];
    for i := 0 to n
      invariant output + Stored(taken[i..]) == Stored(taken)
    {
      assert taken[i..][1..] == taken[i + 1..];
      output := output + taken[i];
      output := output + [COMMA];
    }
    assert taken[n..] == [];
    assert output == Stored(taken);
    return Some(output);
  }

  /** The meaning of a copied prefix, in terms of the message it was copied from. */
  ghost predicate IsFirstPart(m: Message, isJson: bool, n: nat, prefix: Blob, canonical: Blob -> bool) {
    if isJson then
      forall values :: values != [] && m.data == Stored(values) && (forall v :: v in values ==> canonical(v)) ==>
        n <= |values| && prefix == Stored(values[..n])
    else n <= |m.data| && prefix == m.data[..n]
  }

  lemma CopiedIsFirstPart(m: Message, isJson: bool, n: nat, parse: Parser, canonical: Blob -> bool)
    requires ParsesArrays(parse, canonical) && CopiedPrefix([m], isJson, n, parse).Some?
    ensures IsFirstPart(m, isJson, n, CopiedPrefix([m], isJson, n, parse).value, canonical)
  {
    if isJson {
      forall values | values != [] && m.data == Stored(values) && (forall v :: v in values ==> canonical(v))
        ensures n <= |values| && CopiedPrefix([m], isJson, n, parse) == Some(Stored(values[..n]))
      {
        StoredIsJoined(values);
        assert DropComma(m.data) == CommaSeparated(values);
        assert parse(ArrayOf(values)) == Some(values);
      }
    }
  }

  /** A sub-offset is accepted up to the whole of the message, which it then copies as it is. */
  lemma AcceptedUpToTheWhole(m: Message, n: nat, parse: Parser)
    ensures CopiedPrefix([m], false, n, parse).Some? <==> n <= |m.data|
    ensures CopiedPrefix([m], false, |m.data|, parse) == Some(m.data)
  {
    assert m.data[..|m.data|] == m.data;
  }

  lemma AcceptedUpToAllValues(m: Message, n: nat, parse: Parser, canonical: Blob -> bool, values: seq<Blob>)
    requires ParsesArrays(parse, canonical) && values != [] && m.data == Stored(values)
    requires forall v :: v in values ==> canonical(v)
    ensures CopiedPrefix([m], true, n, parse).Some? <==> n <= |values|
    ensures CopiedPrefix([m], true, |values|, parse) == Some(m.data)
  {
    StoredIsJoined(values);
    assert DropComma(m.data) == CommaSeparated(values);
    assert parse(ArrayOf(values)) == Some(values);
    CopiedOfParsed(m, n, parse, values);
    CopiedOfParsed(m, |values|, parse, values);
    assert values[..|values|] == values && Stored(values[..|values|]) == m.data;
  }

  lemma CopiedOfParsed(m: Message, n: nat, parse: Parser, values: seq<Blob>)
    requires parse([OPEN] + DropComma(m.data) + [CLOSE]) == Some(values)
    ensures CopiedPrefix([m], true, n, parse) == if n <= |values| then Some(Stored(values[..n])) else None
  {}

  /** Without a next message no sub-offset is accepted. */
  lemma NothingToCopy(isJson: bool, n: nat, parse: Parser)
    ensures CopiedPrefix([], isJson, n, parse).None?
  {}

  // ------------------------------------------------ the source's next message

  /** The read the fork makes at its source: one message after the fork offset. */
  ghost function FirstAfter(w: World, p: Path, offset: string): seq<Message>
    requires Good(w) && Attached(w, p)
  {
    Stitched(w, p, offset, Some(MAX_OFFSET_CAP), 1, MAX_READ_BYTES).messages
  }

  lemma BelowTheCap(offset: string)
    requires InStream(offset)
    ensures Less(offset, MAX_OFFSET_CAP)
  {}

  /** The cap of that read excludes nothing. */
  lemma CapIsNoCap(w: World, p: Path, offset: string)
    requires Good(w) && Sound(w, p)
    ensures Window(Logical(w, p), Some(offset), Some(MAX_OFFSET_CAP)) == Window(Logical(w, p), Some(offset), None)
  {
    LogicalIsSorted(w, p);
    var current := At(w, p).meta.value.currentOffset;
    assert StreamOk(w, p);
    BelowTheCap(current);
    StrictOrder();
    forall m | m in Logical(w, p) ensures AtMost(m.offset, MAX_OFFSET_CAP) {
      assert AtMost(m.offset, current);
    }
    WindowAgrees(Logical(w, p), Some(offset), Some(MAX_OFFSET_CAP), Some(offset), None);
  }

  lemma FirstAfterIsNext(w: World, p: Path, offset: string)
    requires Good(w) && Sound(w, p)
    ensures var rest := Window(Logical(w, p), Some(offset), None);
            FirstAfter(w, p, offset) == if rest == [] then [] else [rest[0]]
  {
    CapIsNoCap(w, p, offset);
    StitchedRefinesFlatLog(w, p, offset, Some(MAX_OFFSET_CAP), 1, MAX_READ_BYTES);
  }

  /** The next message stays the next message. */
  lemma NextStays(w: World, v: World, p: Path, offset: string)
    requires Good(w) && Good(v) && Later(w, v) && Sound(v, p) && Gen(v, p) < w.next
    ensures Sound(w, p) && Window(Logical(w, p), Some(offset), None) <= Window(Logical(v, p), Some(offset), None)
  {
    LogicalGrowsByOwnAppends(w, v, p);
    WindowSplits(Logical(w, p), Added(w, v, p), Some(offset), None);
  }

  // ------------------------------------------------------------- the new fork

  /** Nothing is stored for an empty prefix or body. */
  function NonEmpty(data: Blob): seq<Blob> { if data == [] then [] else [data] }

  lemma AppendedData(t: Tables, data: Blob)
    requires t.meta.Some? && LogOk(t) && AppendNonEmpty(t, data).Some? && Regular(AppendNonEmpty(t, data).value)
    ensures Regular(t) && DataOf(AppendNonEmpty(t, data).value.messages) == DataOf(t.messages) + NonEmpty(data)
  {
    if data != [] {
      AppendGrows(t, data);
      DataOfOneMore(t.messages, Message(AppendMessage(t, data).value.meta.value.currentOffset, data));
    }
  }

  lemma DataOfOneMore(log: seq<Message>, m: Message)
    ensures DataOf(log + [m]) == DataOf(log) + [m.data]
  {}

  /** A committed fork starts with the prefix, then the body. */
  lemma CommittedData(t: Tables, gen: nat, o: CreateOptions, fork: ForkRef, prefix: Blob, payload: Blob, now: int)
    requires EmptyIfAbsent(t) && InStream(fork.offset) && CommitFork(t, gen, o, fork, prefix, payload, now).Some?
    requires Regular(CommitFork(t, gen, o, fork, prefix, payload, now).value)
    ensures var u := CommitFork(t, gen, o, fork, prefix, payload, now).value;
            DataOf(u.messages) == NonEmpty(prefix) + NonEmpty(payload)
  {
    var m := NewMeta(gen, o, now, Some(fork));
    var created := t.(meta := Some(m));
    FreshLog(t, m);
    var a := AppendNonEmpty(created, prefix).value;
    TwoAppends(created, a, AppendNonEmpty(a, payload).value, prefix, payload);
  }

  lemma TwoAppends(t: Tables, a: Tables, b: Tables, prefix: Blob, payload: Blob)
    requires t.meta.Some? && a.meta.Some? && b.meta.Some? && LogOk(t) && t.messages == []
    requires AppendNonEmpty(t, prefix) == Some(a) && AppendNonEmpty(a, payload) == Some(b) && Regular(b)
    ensures DataOf(b.messages) == NonEmpty(prefix) + NonEmpty(payload)
  {
    assert LogOk(a) by { AppendNonEmptyLog(t, prefix); }
    AppendedData(a, payload);
    FirstAppended(t, a, prefix);
  }

  lemma FirstAppended(t: Tables, a: Tables, prefix: Blob)
    requires t.meta.Some? && LogOk(t) && t.messages == [] && AppendNonEmpty(t, prefix) == Some(a) && Regular(a)
    ensures DataOf(a.messages) == NonEmpty(prefix)
  {
    AppendedData(t, prefix);
    assert DataOf([]) == [];
  }

  /** The transaction of this job makes the fork exist. */
  predicate Creates(w: World, s: Step) {
    s.CommitJob? && Enabled(w, s) && Commits(w, s)
  }

  /** What committing a creation does, seen from the new fork. */
  lemma CommitJobEffect(w: World, s: Step, v: World)
    requires Good(w) && Enabled(w, s) && Creates(w, s) && v == Apply(w, s) && Regular(At(v, w.jobs[s.job].path))
    ensures var job := w.jobs[s.job];
            && IsFork(v, job.path) && Fork(v, job.path) == ForkOf(job, s.subOffset)
            && DataOf(At(v, job.path).messages) == NonEmpty(s.prefix) + NonEmpty(s.payload)
  {
    var job := w.jobs[s.job];
    var t, fork := At(w, job.path), ForkOf(job, s.subOffset);
    assert AnswerOk(w, job) && StreamOk(w, job.path);
    CommitForkShape(t, w.next, OptionsOf(job), fork, s.prefix, s.payload, s.now);
    CommittedData(t, w.next, OptionsOf(job), fork, s.prefix, s.payload, s.now);
  }

  /** What the creation reads at its source, at whatever moments the parts of that read happen. */
  ghost function FirstObserved(run: seq<World>, tr: ReadTrace, job: Job): Option<Batch>
    requires WellTimed(tr, |run|) && job.reply.Some? && job.reply.value.Acquired?
  {
    Observe(run, tr, job.intent.parent, job.reply.value.offset, Some(MAX_OFFSET_CAP), 1, MAX_READ_BYTES)
  }

  /**
   A fork created with sub-offset n reads as its source up to the fork offset, then
   the first part of the source's next message, then the initial body, although the
   source was read earlier than the fork came to exist and not at one instant.
   */
  lemma SubOffsetForkReads(run: seq<World>, steps: seq<Step>, tr: ReadTrace, k: nat, isJson: bool, n: nat,
                           parse: Parser, canonical: Blob -> bool)
    requires Run(run, steps) && Good(run[0]) && k < |steps| && Creates(run[k], steps[k])
    requires ParsesArrays(parse, canonical)
    requires WellTimed(tr, |run|) && tr.at <= EndTime(tr) <= k
    requires GotAcquired(run[tr.at], steps[k].job) && run[tr.at].jobs[steps[k].job] == run[k].jobs[steps[k].job]
    requires var batch := FirstObserved(run, tr, run[k].jobs[steps[k].job]);
             batch.Some? && CopiedPrefix(batch.value.messages, isJson, n, parse) == Some(steps[k].prefix)
    requires Good(run[k + 1]) && Sound(run[k + 1], run[k].jobs[steps[k].job].path)
    ensures Attached(run[k + 1], run[k].jobs[steps[k].job].intent.parent)
    ensures var s, job, v := steps[k], run[k].jobs[steps[k].job], run[k + 1];
            var offset, own := job.reply.value.offset, At(v, job.path).messages;
            && Logical(v, job.path) == Window(Logical(v, job.intent.parent), None, Some(offset)) + own
            && DataOf(own) == NonEmpty(s.prefix) + NonEmpty(s.payload)
            && var following := Window(Logical(v, job.intent.parent), Some(offset), None);
               following != [] && IsFirstPart(following[0], isJson, n, s.prefix, canonical)
  {
    var s, job := steps[k], run[k].jobs[steps[k].job];
    RunStaysGood(run, steps, tr.at);
    RunStaysGood(run, steps, k);
    assert FollowsAt(run, steps, k);
    NewForkReads(run[k], s, run[k + 1]);
    SourceWasThere(run, steps, tr.at, k + 1, s.job);
    FirstIsStillNext(run, steps, tr, k + 1, job.intent.parent, job.reply.value.offset);
    CopiedFromNext(run[k + 1], job.intent.parent, job.reply.value.offset, isJson, n, parse, canonical, s.prefix);
  }

  /** A source that is there when the fork is, was there when its edge had been acquired. */
  lemma SourceWasThere(run: seq<World>, steps: seq<Step>, i: nat, j: nat, k: nat)
    requires Run(run, steps) && Good(run[0]) && i <= j < |run| && GotAcquired(run[i], k)
    requires var job := run[i].jobs[k];
             Exists(run[j], job.intent.parent) && Gen(run[j], job.intent.parent) == job.reply.value.sourceGen
    ensures var job := run[i].jobs[k];
            Exists(run[i], job.intent.parent) && Gen(run[i], job.intent.parent) == job.reply.value.sourceGen
  {
    var q := run[i].jobs[k].intent.parent;
    RunStaysGood(run, steps, i);
    RunIsLater(run, steps, i, j);
    assert AnswerOk(run[i], run[i].jobs[k]) && LogLater(At(run[i], q), At(run[j], q));
  }

  /** The new fork's log is its source's up to the fork offset, then what it started with. */
  lemma NewForkReads(w: World, s: Step, v: World)
    requires Good(w) && Follows(w, s, v) && Creates(w, s) && Good(v) && Sound(v, w.jobs[s.job].path)
    ensures var job := w.jobs[s.job]; var own := At(v, job.path).messages;
            && Sound(v, job.intent.parent) && Gen(v, job.intent.parent) == job.reply.value.sourceGen
            && Logical(v, job.path) == Window(Logical(v, job.intent.parent), None, Some(job.reply.value.offset)) + own
            && DataOf(own) == NonEmpty(s.prefix) + NonEmpty(s.payload)
  {
    var job := w.jobs[s.job];
    var f := ForkOf(job, s.subOffset);
    assert IsFork(v, job.path) && Fork(v, job.path) == f
           && DataOf(At(v, job.path).messages) == NonEmpty(s.prefix) + NonEmpty(s.payload) by {
      CommitJobEffect(w, s, v);
    }
    ForkReads(v, job.path, f);
    assert f.parent == job.intent.parent && f.sourceGen == job.reply.value.sourceGen;
  }

  lemma ForkReads(w: World, p: Path, f: ForkRef)
    requires Good(w) && Sound(w, p) && IsFork(w, p) && Fork(w, p) == f
    ensures Sound(w, f.parent) && Gen(w, f.parent) == f.sourceGen
    ensures Logical(w, p) == Window(Logical(w, f.parent), None, Some(f.offset)) + At(w, p).messages
  {
    LogicalOfFork(w, p);
  }

  lemma CopiedFromNext(w: World, q: Path, offset: string, isJson: bool, n: nat, parse: Parser, canonical: Blob -> bool,
                       prefix: Blob)
    requires Good(w) && Attached(w, q) && ParsesArrays(parse, canonical)
    requires var following := Window(Logical(w, q), Some(offset), None);
             following != [] && CopiedPrefix([following[0]], isJson, n, parse) == Some(prefix)
    ensures IsFirstPart(Window(Logical(w, q), Some(offset), None)[0], isJson, n, prefix, canonical)
  {
    CopiedIsFirstPart(Window(Logical(w, q), Some(offset), None)[0], isJson, n, parse, canonical);
  }

  /** A nonempty interleaved one-row read returned what still is the next message. */
  lemma FirstIsStillNext(run: seq<World>, steps: seq<Step>, tr: ReadTrace, end: nat, q: Path, offset: string)
    requires Run(run, steps) && Good(run[0]) && WellTimed(tr, |run|) && EndTime(tr) <= end < |run| && Good(run[end])
    requires Exists(run[tr.at], q) && Sound(run[end], q) && Gen(run[end], q) == Gen(run[tr.at], q)
    requires var batch := Observe(run, tr, q, offset, Some(MAX_OFFSET_CAP), 1, MAX_READ_BYTES);
             batch.Some? && batch.value.messages != []
    ensures var following := Window(Logical(run[end], q), Some(offset), None);
            following != []
            && Observe(run, tr, q, offset, Some(MAX_OFFSET_CAP), 1, MAX_READ_BYTES).value.messages == [following[0]]
  {
    TimesAscend(tr, |run|);
    InterleavedReadsAreAtomic(run, steps, tr, q, offset, Some(MAX_OFFSET_CAP), 1, MAX_READ_BYTES, end);
    SoundPersists(run, steps, tr.at, Moment(tr), end, q);
    FirstAfterIsNext(run[Moment(tr)], q, offset);
    NextStays(run[Moment(tr)], run[end], q, offset);
  }

  /** A rejected sub-offset or body gives the acquired edge up: it stays held, and is now a queued release. */
  lemma RejectedForkQueuesRelease(w: World, j: nat)
    requires Inv(w) && GotAcquired(w, j)
    ensures var job, v := w.jobs[j], Apply(w, AbandonJob(j));
            && Inv(v) && j !in v.jobs
            && job.edge in At(w, job.path).intents && job.edge !in At(v, job.path).intents
            && job.edge in At(v, job.path).releases
            && At(v, job.path).releases[job.edge] == Release(job.intent.parent, Some(job.reply.value.sourceGen))
            && job.edge in At(v, job.intent.parent).edges
            && At(v, job.path).meta == At(w, job.path).meta
  {
    var job := w.jobs[j];
    StepKeepsInv(w, AbandonJob(j));
    assert JobOk(w, job) && LocalOk(job.path, At(w, job.path), w.next);
  }
}
