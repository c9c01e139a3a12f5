/**
 Where a fork starts: at the end of its source unless its request says otherwise. A
 fork created without offset inherits everything its source held when the edge was
 acquired, whatever is written to the source afterwards.
 */
module ForkStart {
  import opened Options
  import opened Offsets
  import opened Tables
  import opened Cluster
  import opened ClusterProofs
  import opened ForkSafety
  import opened ForkTypes
  import opened Logs
  import opened LogSafety
  import opened Isolation
  import opened Stitch
  import opened Tail
  import opened SubOffset

  /** The offset of a stream's last message, or the one it started from. */
  function EndOf(t: Tables): string
    requires t.meta.Some?
  {
    if t.messages == [] then InitialOffset(t.meta.value) else t.messages[|t.messages| - 1].offset
  }

  /** The edge of this acquire is new at its source. */
  predicate IsNew(w: World, j: nat) { Awaits(w, j) && w.jobs[j].edge !in At(w, w.jobs[j].intent.parent).edges }

  /** A new edge is granted exactly by a live source of an agreeing type that has reached the offset. */
  lemma NewEdgeIsGrantedIff(w: World, j: nat, now: int)
    requires IsNew(w, j)
    ensures var job := w.jobs[j]; var t := At(w, job.intent.parent);
            GotAcquired(Apply(w, SendAcquire(j, now, false)), j) <==>
              && Live(w, job.intent.parent) && !IsExpired(t.meta.value, now)
              && (TypeSent(job).Some? ==> !Differs(TypeSent(job), t.meta.value.contentType))
              && var asked := job.intent.forkOffset;
                 var at := if asked.Some? then asked.value else t.meta.value.currentOffset;
                 IsConcrete(at) && AtMost(ZERO_OFFSET, at) && AtMost(at, t.meta.value.currentOffset)
  {
    var t := At(w, w.jobs[j].intent.parent);
    if t.meta.Some? && IsExpired(t.meta.value, now) {
      ExpiredIsNotLive(t, now);
    }
    SentIsNotBlank(w.jobs[j]);
  }

  lemma ExpiredIsNotLive(t: Tables, now: int)
    requires t.meta.Some? && IsExpired(t.meta.value, now)
    ensures Visible(t, now).meta.None? || Visible(t, now).meta.value.softDeleted
  {}

  lemma SentIsNotBlank(job: Job)
    ensures TypeSent(job).Some? ==> Trim(TypeSent(job).value) != ""
  {}

  /** A new edge starts at the offset that was asked for, or else at the end of the source. */
  lemma NewEdgeStartsAt(w: World, j: nat, now: int)
    requires Good(w) && IsNew(w, j) && GotAcquired(Apply(w, SendAcquire(j, now, false)), j)
    ensures var v := Apply(w, SendAcquire(j, now, false));
            var job := v.jobs[j]; var q := job.intent.parent;
            && Exists(w, q) && Exists(v, q) && Gen(v, q) == Gen(w, q) == job.reply.value.sourceGen
            && AtMost(job.reply.value.offset, At(w, q).meta.value.currentOffset)
            && (job.intent.forkOffset.Some? ==> job.reply.value.offset == job.intent.forkOffset.value)
            && (job.intent.forkOffset.None? ==> job.reply.value.offset == At(w, q).meta.value.currentOffset)
            && (job.intent.forkOffset.None? && Regular(At(w, q)) ==> job.reply.value.offset == EndOf(At(w, q)))
  {
    var q := w.jobs[j].intent.parent;
    assert StreamOk(w, q);
    NewEdgeIsGrantedIff(w, j, now);
  }

  /** What a log held up to an offset it had reached stays what it holds up to there. */
  lemma ReachedStays(w: World, v: World, q: Path, offset: string)
    requires Good(w) && Good(v) && Later(w, v) && Sound(v, q) && Gen(v, q) < w.next
    requires Exists(w, q) && AtMost(offset, At(w, q).meta.value.currentOffset)
    ensures Sound(w, q)
    ensures Window(Logical(v, q), None, Some(offset)) == Window(Logical(w, q), None, Some(offset))
    ensures offset == At(w, q).meta.value.currentOffset ==> Window(Logical(v, q), None, Some(offset)) == Logical(w, q)
  {
    AddedSince(w, v, q);
    LogicalIsSorted(w, q);
    StrictOrder();
    WindowSplits(Logical(w, q), Added(w, v, q), None, Some(offset));
    WindowOfNone(Added(w, v, q), None, Some(offset));
    if offset == At(w, q).meta.value.currentOffset {
      WindowOfAll(Logical(w, q), None, Some(offset));
    }
  }

  /**
   A fork whose edge was new when it was acquired, and that copies no part of a message,
   reads as what its source held at that moment, up to the offset asked for or else all
   of it, followed by its body.
   */
  lemma ForkStartsAsSourceWas(run: seq<World>, steps: seq<Step>, i: nat, k: nat)
    requires Run(run, steps) && Good(run[0]) && i < k < |steps| && Made(run, steps, i, k)
    requires IsNew(run[i], steps[i].job) && steps[k].prefix == []
    requires Good(run[i]) && Good(run[k + 1]) && Sound(run[k + 1], run[k].jobs[steps[k].job].path)
    ensures var job := run[k].jobs[steps[k].job]; var q := job.intent.parent;
            && Exists(run[i], q) && Sound(run[i], q)
            && var held, own := Logical(run[i], q), At(run[k + 1], job.path).messages;
               var inherited := if job.intent.forkOffset.Some? then Window(held, None, job.intent.forkOffset) else held;
               Logical(run[k + 1], job.path) == inherited + own && DataOf(own) == NonEmpty(steps[k].payload)
  {
    var job := run[k].jobs[steps[k].job];
    MadeReads(run, steps, k);
    AcquiredNew(run, steps, i);
    RunIsLater(run, steps, i, k + 1);
    InheritedAsItWas(run[i], run[k + 1], job);
  }

  /** The fork reads as its source up to the offset in the answer, then its body. */
  lemma MadeReads(run: seq<World>, steps: seq<Step>, k: nat)
    requires Run(run, steps) && Good(run[0]) && k < |steps| && steps[k].CommitJob? && steps[k].prefix == []
    requires Good(run[k + 1]) && GotAcquired(run[k], steps[k].job)
    requires !Exists(run[k], run[k].jobs[steps[k].job].path) && Sound(run[k + 1], run[k].jobs[steps[k].job].path)
    ensures var job := run[k].jobs[steps[k].job]; var q := job.intent.parent;
            && Sound(run[k + 1], q) && Gen(run[k + 1], q) == job.reply.value.sourceGen
            && var own := At(run[k + 1], job.path).messages;
               Logical(run[k + 1], job.path) == Window(Logical(run[k + 1], q), None, Some(job.reply.value.offset)) + own
               && DataOf(own) == NonEmpty(steps[k].payload)
  {
    assert FollowsAt(run, steps, k);
    RunStaysGood(run, steps, k);
    MadeCreates(run[k], steps[k]);
    NewForkReads(run[k], steps[k], run[k + 1]);
  }

  lemma InheritedAsItWas(w: World, v: World, job: Job)
    requires Good(w) && Good(v) && Later(w, v) && job.reply.Some? && job.reply.value.Acquired?
    requires Sound(v, job.intent.parent) && Gen(v, job.intent.parent) == job.reply.value.sourceGen < w.next
    requires Exists(w, job.intent.parent)
    requires AtMost(job.reply.value.offset, At(w, job.intent.parent).meta.value.currentOffset)
    requires job.intent.forkOffset.Some? ==> job.reply.value.offset == job.intent.forkOffset.value
    requires job.intent.forkOffset.None? ==>
               job.reply.value.offset == At(w, job.intent.parent).meta.value.currentOffset
    ensures Sound(w, job.intent.parent)
    ensures Window(Logical(v, job.intent.parent), None, Some(job.reply.value.offset))
            == if job.intent.forkOffset.Some? then Window(Logical(w, job.intent.parent), None, job.intent.forkOffset)
               else Logical(w, job.intent.parent)
  {
    ReachedStays(w, v, job.intent.parent, job.reply.value.offset);
  }

  lemma AcquiredNew(run: seq<World>, steps: seq<Step>, i: nat)
    requires Run(run, steps) && Good(run[0]) && i < |steps| && steps[i].SendAcquire? && Good(run[i])
    requires IsNew(run[i], steps[i].job) && GotAcquired(run[i + 1], steps[i].job)
    ensures var job := run[i + 1].jobs[steps[i].job]; var q := job.intent.parent;
            && Exists(run[i], q) && Gen(run[i], q) == job.reply.value.sourceGen < run[i].next
            && AtMost(job.reply.value.offset, At(run[i], q).meta.value.currentOffset)
            && (job.intent.forkOffset.Some? ==> job.reply.value.offset == job.intent.forkOffset.value)
            && (job.intent.forkOffset.None? ==> job.reply.value.offset == At(run[i], q).meta.value.currentOffset)
  {
    assert FollowsAt(run, steps, i);
    assert steps[i] == SendAcquire(steps[i].job, steps[i].now, false);
    assert StreamOk(run[i], run[i].jobs[steps[i].job].intent.parent);
    NewEdgeStartsAt(run[i], steps[i].job, steps[i].now);
  }

  lemma MadeCreates(w: World, s: Step)
    requires Enabled(w, s) && s.CommitJob?
    requires !Exists(w, w.jobs[s.job].path) && Exists(Apply(w, s), w.jobs[s.job].path)
    ensures Creates(w, s)
  {}
}
