/**
 Background maintenance: reconciling remembered intents and flushing queued
 releases. Whatever else happens, settled duties use up a bounded amount of work;
 left alone, maintenance brings the system to rest, and at rest exactly the streams
 are left that a live stream or a remembered intent still stands behind.
 */
module Maintenance {
  import opened Options
  import opened Orders
  import opened Offsets
  import opened Tables
  import opened Cluster
  import opened ClusterProofs
  import opened ForkSafety

  // ---------------------------------------------------------------- measure

  function Streams(w: World): set<Path> { set p | p in w.actors && w.actors[p].meta.Some? }

  function IntentsOf(w: World): set<EdgeId> { set p, e | p in w.actors && e in w.actors[p].intents :: e }

  function ReleasesOf(w: World): set<EdgeId> { set p, e | p in w.actors && e in w.actors[p].releases :: e }

  /** Twice the streams and intents, plus the releases. */
  function Measure(w: World): nat { 2 * |Streams(w)| + 2 * |IntentsOf(w)| + |ReleasesOf(w)| }

  /** One actor's share of the measure. */
  function Weight(t: Tables): nat {
    (if t.meta.Some? then 2 else 0) + 2 * |t.intents.Keys| + |t.releases.Keys|
  }

  lemma MemberOf(w: World, p: Path, e: EdgeId)
    ensures e in At(w, p).intents ==> e in IntentsOf(w)
    ensures e in At(w, p).releases ==> e in ReleasesOf(w)
    ensures p in Streams(w) <==> Exists(w, p)
  {}

  lemma AtHomeOnly(w: World, p: Path, e: EdgeId)
    requires GraphOk(w)
    ensures e in At(w, p).intents || e in At(w, p).releases ==> e.home == p
  {
    assert LocalOk(p, At(w, p), w.next);
  }

  /** An edge's duties live at the actor that minted it. */
  lemma AtHome(w: World, e: EdgeId)
    requires GraphOk(w)
    ensures e in IntentsOf(w) <==> e in At(w, e.home).intents
    ensures e in ReleasesOf(w) <==> e in At(w, e.home).releases
  {
    MemberOf(w, e.home, e);
    if e in IntentsOf(w) {
      var p :| p in w.actors && e in w.actors[p].intents;
      AtHomeOnly(w, p, e);
    }
    if e in ReleasesOf(w) {
      var p :| p in w.actors && e in w.actors[p].releases;
      AtHomeOnly(w, p, e);
    }
  }

  /** A part of a set is exchanged for elements not among the rest. */
  lemma Exchanged<T>(s: set<T>, before: set<T>, after: set<T>, t: set<T>)
    requires forall e :: e in before ==> e in s
    requires forall e :: e in after ==> (e in s <==> e in before)
    requires forall e :: e in t <==> (e in s && e !in before) || e in after
    ensures |t| == |s| - |before| + |after|
  {
    var rest := s - before;
    assert s == rest + before;
    assert t == rest + after && rest !! after;
  }

  ghost predicate OnlyThere(w: World, v: World, x: Path) { forall p :: p != x ==> At(v, p) == At(w, p) }

  function Present(w: World, x: Path): set<Path> { if Exists(w, x) then {x} else {} }

  lemma StreamsAfter(w: World, v: World, x: Path)
    requires OnlyThere(w, v, x)
    ensures |Streams(v)| == |Streams(w)| - |Present(w, x)| + |Present(v, x)|
  {
    forall p ensures p in Streams(v) <==> p in Streams(w) - Present(w, x) + Present(v, x) { StreamThere(w, v, x, p); }
    MemberOf(w, x, EdgeId(x, 0));
    Exchanged(Streams(w), Present(w, x), Present(v, x), Streams(v));
  }

  lemma StreamThere(w: World, v: World, x: Path, p: Path)
    requires OnlyThere(w, v, x)
    ensures p in Streams(v) <==> p in Streams(w) - Present(w, x) + Present(v, x)
  {
    MemberOf(w, p, EdgeId(p, 0));
    MemberOf(v, p, EdgeId(p, 0));
  }

  lemma DutyThere(w: World, v: World, x: Path, e: EdgeId)
    requires GraphOk(w) && GraphOk(v) && OnlyThere(w, v, x)
    ensures e in At(w, x).intents ==> e in IntentsOf(w) && e.home == x
    ensures e in At(w, x).releases ==> e in ReleasesOf(w) && e.home == x
    ensures e in At(v, x).intents ==> (e in IntentsOf(w) <==> e in At(w, x).intents)
    ensures e in At(v, x).releases ==> (e in ReleasesOf(w) <==> e in At(w, x).releases)
    ensures e in IntentsOf(v) <==> (e in IntentsOf(w) && e !in At(w, x).intents) || e in At(v, x).intents
    ensures e in ReleasesOf(v) <==> (e in ReleasesOf(w) && e !in At(w, x).releases) || e in At(v, x).releases
  {
    AtHome(w, e);
    AtHome(v, e);
    AtHomeOnly(w, x, e);
    AtHomeOnly(v, x, e);
  }

  lemma IntentsAfter(w: World, v: World, x: Path)
    requires GraphOk(w) && GraphOk(v) && OnlyThere(w, v, x)
    ensures |IntentsOf(v)| == |IntentsOf(w)| - |At(w, x).intents.Keys| + |At(v, x).intents.Keys|
  {
    var before, after := At(w, x).intents.Keys, At(v, x).intents.Keys;
    var s, t := IntentsOf(w), IntentsOf(v);
    forall e
      ensures e in before ==> e in s
      ensures e in after ==> (e in s <==> e in before)
      ensures e in t <==> (e in s && e !in before) || e in after
    {
      DutyThere(w, v, x, e);
    }
    Exchanged(s, before, after, t);
  }

  lemma ReleasesAfter(w: World, v: World, x: Path)
    requires GraphOk(w) && GraphOk(v) && OnlyThere(w, v, x)
    ensures |ReleasesOf(v)| == |ReleasesOf(w)| - |At(w, x).releases.Keys| + |At(v, x).releases.Keys|
  {
    var before, after := At(w, x).releases.Keys, At(v, x).releases.Keys;
    var s, t := ReleasesOf(w), ReleasesOf(v);
    forall e
      ensures e in before ==> e in s
      ensures e in after ==> (e in s <==> e in before)
      ensures e in t <==> (e in s && e !in before) || e in after
    {
      DutyThere(w, v, x, e);
    }
    Exchanged(s, before, after, t);
  }

  /** When one actor's tables change, the measure changes by its share. */
  lemma MeasureAfter(w: World, v: World, x: Path)
    requires GraphOk(w) && GraphOk(v) && OnlyThere(w, v, x)
    ensures Measure(v) == Measure(w) - Weight(At(w, x)) + Weight(At(v, x))
  {
    StreamsAfter(w, v, x);
    IntentsAfter(w, v, x);
    ReleasesAfter(w, v, x);
  }

  // ------------------------------------------------- what tables changes weigh

  lemma KeysPut<K, V>(m: map<K, V>, k: K, v: V)
    ensures m[k := v].Keys == m.Keys + {k} && |m[k := v].Keys| == |m.Keys| + (if k in m then 0 else 1)
  {}

  lemma KeysDropped<K, V>(m: map<K, V>, k: K)
    ensures (m - {k}).Keys == m.Keys - {k} && |(m - {k}).Keys| == |m.Keys| - (if k in m then 1 else 0)
  {}

  lemma EnqueueWeighs(t: Tables, e: EdgeId, r: Release)
    ensures Weight(EnqueueRelease(t, e, r)) <= Weight(t) + 1
  {
    KeysPut(t.releases, e, r);
  }

  /** A stream that goes is worth more than the release it leaves behind. */
  lemma PurgeWeighs(t: Tables)
    requires t.meta.Some?
    ensures Weight(PurgeStream(t)) < Weight(t)
  {
    if t.meta.value.fork.Some? {
      var f := t.meta.value.fork.value;
      EnqueueWeighs(t, f.edge, Release(f.parent, Some(f.sourceGen)));
    }
  }

  lemma VisibleWeighs(t: Tables, now: int)
    ensures Weight(Visible(t, now)) <= Weight(t)
  {
    if t.meta.Some? {
      PurgeWeighs(t);
    }
  }

  lemma AcquireWeighs(t: Tables, e: EdgeId, off: Option<string>, ct: Option<string>, now: int)
    ensures Weight(ForkAcquire(t, e, off, ct, now).0) <= Weight(t)
  {
    AcquireShape(t, e, off, ct, now);
    VisibleWeighs(t, now);
  }

  lemma ReleaseWeighs(t: Tables, e: EdgeId, gen: Option<nat>)
    ensures Weight(ForkRelease(t, e, gen)) <= Weight(t)
  {
    if t.meta.Some? {
      PurgeWeighs(t.(edges := t.edges - {e}));
    }
  }

  lemma DeletedWeighs(t: Tables, now: int)
    ensures Weight(Deleted(t, now)) <= Weight(t)
  {
    VisibleWeighs(t, now);
    if Visible(t, now).meta.Some? {
      PurgeWeighs(Visible(t, now));
    }
  }

  lemma SettledWeighs(t: Tables, e: EdgeId, q: Path, gen: nat)
    requires e in t.intents
    ensures Weight(DropIntent(t, e)) == Weight(t) - 2
    ensures Weight(IntentToRelease(t, e, q, gen)) < Weight(t)
  {
    EnqueueWeighs(t, e, Release(q, Some(gen)));
    KeysDropped(t.intents, e);
  }

  lemma PutIntentWeighs(t: Tables, e: EdgeId, intent: Intent)
    ensures Weight(PutIntent(t, e, intent)) == Weight(t) + (if e in t.intents then 0 else 2)
  {
    KeysPut(t.intents, e, intent);
  }

  lemma DequeueWeighs(t: Tables, e: EdgeId)
    ensures Weight(Dequeue(t, e)) == Weight(t) - (if e in t.releases then 1 else 0)
  {
    KeysDropped(t.releases, e);
  }

  lemma CommitWeighs(t: Tables, gen: nat, o: CreateOptions, fork: ForkRef, prefix: Blob, payload: Blob, now: int)
    requires fork.edge in t.intents && CommitFork(t, gen, o, fork, prefix, payload, now).Some?
    ensures Weight(CommitFork(t, gen, o, fork, prefix, payload, now).value) <= Weight(t)
  {
    CommitForkShape(t, gen, o, fork, prefix, payload, now);
    KeysDropped(t.intents, fork.edge);
  }

  lemma CreateWeighs(t: Tables, gen: nat, o: CreateOptions, payload: Blob, now: int)
    ensures Weight(CreateStream(t, gen, o, payload, now)) <= Weight(t) + 2
  {
    VisibleWeighs(t, now);
    if Visible(t, now).meta.None? {
      CreateStreamShape(t, gen, o, payload, now);
    }
  }

  lemma PostWeighs(t: Tables, r: PostRequest, now: int)
    ensures Weight(Post(t, r, now).0) <= Weight(t)
  {
    PostQuiet(t, r, now);
    VisibleWeighs(t, now);
  }

  // -------------------------------------------------- work over whole runs

  /** The step settles a remembered intent or forgets a queued release. */
  predicate SettlesDuty(w: World, s: Step)
    requires Enabled(w, s)
  {
    || s.FinishRefused? || s.AbandonJob?
    || (s.DequeueRelease? && w.sends[s.send].edge in At(w, w.sends[s.send].edge.home).releases)
  }

  /** The step may create a stream or remember a new intent. */
  predicate Creates(w: World, s: Step) {
    s.PutStream? || (s.BeginFork? && s.edge !in At(w, s.path).intents)
  }

  function Count(b: bool): nat { if b then 1 else 0 }

  lemma TargetWeighs(w: World, s: Step, x: Path)
    requires Inv(w) && Enabled(w, s) && Target(w, s) == Some(x)
    ensures Weight(At(Apply(w, s), x)) + Count(SettlesDuty(w, s)) <= Weight(At(w, x)) + 2 * Count(Creates(w, s))
  {
    match s {
      case FinishRefused(_) => JobSettledWeighs(w, s);
      case AbandonJob(_) => JobSettledWeighs(w, s);
      case CommitJob(_, _, _, _, _) => CommitJobWeighs(w, s);
      case DequeueRelease(d) => DequeueWeighs(At(w, x), w.sends[d].edge);
      case _ => OtherTargetWeighs(w, s, x);
    }
  }

  /** Steps that settle no duty. */
  lemma OtherTargetWeighs(w: World, s: Step, x: Path)
    requires Enabled(w, s) && Target(w, s) == Some(x)
    requires !s.FinishRefused? && !s.AbandonJob? && !s.CommitJob? && !s.DequeueRelease?
    ensures !SettlesDuty(w, s) && Weight(At(Apply(w, s), x)) <= Weight(At(w, x)) + 2 * Count(Creates(w, s))
  {
    var t := At(w, x);
    match s {
      case BeginFork(_, p, q, off, _, e) => PutIntentWeighs(t, e, Intent(q, off));
      case SendAcquire(j, now, _) =>
        AcquireWeighs(t, w.jobs[j].edge, w.jobs[j].intent.forkOffset, TypeSent(w.jobs[j]), now);
      case SendRelease(d, _) => ReleaseWeighs(t, w.sends[d].edge, w.sends[d].release.sourceGen);
      case DeleteStream(_, now) => DeletedWeighs(t, now);
      case ExpireStream(_, now) => VisibleWeighs(t, now);
      case PutStream(_, o, payload, now) => CreateWeighs(t, w.next, o, payload, now);
      case PostStream(_, r, now) => PostWeighs(t, r, now);
      case _ =>
    }
  }

  lemma JobSettledWeighs(w: World, s: Step)
    requires Inv(w) && Enabled(w, s) && (s.FinishRefused? || s.AbandonJob?)
    ensures Weight(At(Apply(w, s), w.jobs[s.job].path)) < Weight(At(w, w.jobs[s.job].path))
  {
    var job := w.jobs[s.job];
    assert JobOk(w, job);
    SettledWeighs(At(w, job.path), job.edge, job.intent.parent,
                  if job.reply.value.Acquired? then job.reply.value.sourceGen else 0);
  }

  lemma CommitJobWeighs(w: World, s: Step)
    requires Inv(w) && Enabled(w, s) && s.CommitJob?
    ensures Weight(At(Apply(w, s), w.jobs[s.job].path)) <= Weight(At(w, w.jobs[s.job].path))
  {
    var job := w.jobs[s.job];
    assert JobOk(w, job);
    var t, fork := At(w, job.path), ForkOf(job, s.subOffset);
    if CommitFork(t, w.next, OptionsOf(job), fork, s.prefix, s.payload, s.now).Some? {
      CommitWeighs(t, w.next, OptionsOf(job), fork, s.prefix, s.payload, s.now);
    } else {
      SettledWeighs(t, job.edge, job.intent.parent, job.reply.value.sourceGen);
    }
  }

  /** Only creations raise the measure, by two at most, and every settled duty lowers it. */
  lemma StepMeasure(w: World, s: Step)
    requires Inv(w) && Enabled(w, s) && Serialised(w, s)
    ensures Measure(Apply(w, s)) + Count(SettlesDuty(w, s)) <= Measure(w) + 2 * Count(Creates(w, s))
  {
    StepKeepsInv(w, s);
    match Target(w, s) {
      case Some(x) =>
        OnlyTargetChanges(w, s, x);
        TargetWeighs(w, s, x);
        MeasureAfter(w, Apply(w, s), x);
      case None =>
        OnlyTargetChanges(w, s, "");
        MeasureAfter(w, Apply(w, s), "");
    }
  }

  lemma OnlyTargetChanges(w: World, s: Step, x: Path)
    requires Enabled(w, s) && (Target(w, s) == Some(x) || Target(w, s).None?)
    ensures OnlyThere(w, Apply(w, s), x)
    ensures Target(w, s).None? ==> At(Apply(w, s), x) == At(w, x) && !SettlesDuty(w, s)
  {
    forall p | Target(w, s) != Some(p) ensures At(Apply(w, s), p) == At(w, p) { StepIsLocal(w, s, p); }
  }

  function SettledIn(run: seq<World>, steps: seq<Step>, n: nat): nat
    requires n <= |steps| < |run|
  {
    if n == 0 then 0
    else
      SettledIn(run, steps, n - 1)
      + Count(Enabled(run[n - 1], steps[n - 1]) && SettlesDuty(run[n - 1], steps[n - 1]))
  }

  function CreationsIn(run: seq<World>, steps: seq<Step>, n: nat): nat
    requires n <= |steps| < |run|
  {
    if n == 0 then 0 else CreationsIn(run, steps, n - 1) + Count(Creates(run[n - 1], steps[n - 1]))
  }

  /**
   However everything interleaves, the duties settled in a run are at most what was
   there at its start and two for every creation since; cascades of purges included.
   */
  lemma {:induction false} WorkIsBounded(run: seq<World>, steps: seq<Step>, n: nat)
    requires Serial(run, steps) && Inv(run[0]) && n <= |steps|
    ensures Measure(run[n]) + SettledIn(run, steps, n) <= Measure(run[0]) + 2 * CreationsIn(run, steps, n)
  {
    if n > 0 {
      WorkIsBounded(run, steps, n - 1);
      RunKeepsInv(run, steps, n - 1);
      assert FollowsAt(run, steps, n - 1) && Serialised(run[n - 1], steps[n - 1]);
      StepMeasure(run[n - 1], steps[n - 1]);
    }
  }

  // ------------------------------------------------- settled duties stay settled

  /** No actor remembers the edge as an intent, and none can again: new edges are new. */
  ghost predicate Unintended(w: World, e: EdgeId) { e.serial < w.next && forall p :: e !in At(w, p).intents }

  /** No actor records the edge at all. */
  ghost predicate Gone(w: World, e: EdgeId) {
    Unintended(w, e) && forall p :: e !in At(w, p).releases && !HasForkEdge(At(w, p), e)
  }

  predicate NoNewRecord(t: Tables, u: Tables, e: EdgeId) {
    && (e in u.intents ==> e in t.intents)
    && (e in u.releases ==> e in t.releases || HasForkEdge(t, e))
    && (HasForkEdge(u, e) ==> HasForkEdge(t, e))
  }

  lemma VisibleNoNewRecord(t: Tables, now: int, e: EdgeId)
    ensures NoNewRecord(t, Visible(t, now), e)
  {}

  lemma DeletedNoNewRecord(t: Tables, now: int, e: EdgeId)
    ensures NoNewRecord(t, Deleted(t, now), e)
  {}

  lemma ReleaseNoNewRecord(t: Tables, d: EdgeId, gen: Option<nat>, e: EdgeId)
    ensures NoNewRecord(t, ForkRelease(t, d, gen), e)
  {}

  lemma PostNoNewRecord(t: Tables, r: PostRequest, now: int, e: EdgeId)
    ensures NoNewRecord(t, Post(t, r, now).0, e)
  {
    PostQuiet(t, r, now);
    VisibleNoNewRecord(t, now, e);
  }

  lemma PutNoNewRecord(t: Tables, gen: nat, o: CreateOptions, payload: Blob, now: int, e: EdgeId)
    ensures NoNewRecord(t, CreateStream(t, gen, o, payload, now), e)
  {
    VisibleNoNewRecord(t, now, e);
    if Visible(t, now).meta.None? {
      CreateStreamShape(t, gen, o, payload, now);
    }
  }

  /** A job's last transaction records no edge but its own. */
  lemma JobNoNewRecord(w: World, s: Step, e: EdgeId)
    requires Enabled(w, s) && (s.FinishRefused? || s.AbandonJob? || s.CommitJob?) && w.jobs[s.job].edge != e
    ensures NoNewRecord(At(w, w.jobs[s.job].path), At(Apply(w, s), w.jobs[s.job].path), e)
  {
    if s.CommitJob? {
      var job := w.jobs[s.job];
      var t, fork := At(w, job.path), ForkOf(job, s.subOffset);
      if CommitFork(t, w.next, OptionsOf(job), fork, s.prefix, s.payload, s.now).Some? {
        CommitForkShape(t, w.next, OptionsOf(job), fork, s.prefix, s.payload, s.now);
      }
    }
  }

  lemma StepNoNewRecord(w: World, s: Step, q: Path, e: EdgeId)
    requires Enabled(w, s) && !s.BeginFork?
    requires s.FinishRefused? || s.AbandonJob? || s.CommitJob? ==> w.jobs[s.job].edge != e
    ensures NoNewRecord(At(w, q), At(Apply(w, s), q), e)
  {
    var t := At(w, q);
    if Target(w, s) != Some(q) {
      StepIsLocal(w, s, q);
    } else if s.FinishRefused? || s.AbandonJob? || s.CommitJob? {
      JobNoNewRecord(w, s, e);
    } else if s.SendAcquire? {
      var job := w.jobs[s.job];
      AcquireShape(t, job.edge, job.intent.forkOffset, TypeSent(job), s.now);
      VisibleNoNewRecord(t, s.now, e);
    } else {
      StreamNoNewRecord(w, s, q, e);
    }
  }

  lemma StreamNoNewRecord(w: World, s: Step, q: Path, e: EdgeId)
    requires Enabled(w, s) && Target(w, s) == Some(q)
    requires !s.BeginFork? && !s.SendAcquire? && !s.FinishRefused? && !s.AbandonJob? && !s.CommitJob?
    ensures NoNewRecord(At(w, q), At(Apply(w, s), q), e)
  {
    var t := At(w, q);
    match s {
      case SendRelease(d, _) => ReleaseNoNewRecord(t, w.sends[d].edge, w.sends[d].release.sourceGen, e);
      case DeleteStream(_, now) => DeletedNoNewRecord(t, now, e);
      case ExpireStream(_, now) => VisibleNoNewRecord(t, now, e);
      case PutStream(_, o, payload, now) => PutNoNewRecord(t, w.next, o, payload, now, e);
      case PostStream(_, r, now) => PostNoNewRecord(t, r, now, e);
      case _ =>
    }
  }

  /** A creation that begins takes a remembered edge or a new one, and a job's edge is remembered. */
  lemma StepKeepsGone(w: World, s: Step, e: EdgeId)
    requires Inv(w) && Enabled(w, s) && Unintended(w, e)
    ensures Unintended(Apply(w, s), e) && (Gone(w, e) ==> Gone(Apply(w, s), e))
  {
    if s.FinishRefused? || s.AbandonJob? || s.CommitJob? {
      assert JobOk(w, w.jobs[s.job]);
    }
    forall q ensures NoNewRecord(At(w, q), At(Apply(w, s), q), e) {
      if s.BeginFork? {
        assert s.edge != e;
      } else {
        StepNoNewRecord(w, s, q, e);
      }
    }
  }

  /** What a step settles or forgets. */
  lemma SettlingStep(w: World, s: Step)
    requires Inv(w) && Enabled(w, s) && Serialised(w, s)
    ensures s.FinishRefused? || s.AbandonJob? || s.CommitJob? ==> Unintended(Apply(w, s), w.jobs[s.job].edge)
    ensures s.DequeueRelease? ==> Gone(Apply(w, s), w.sends[s.send].edge)
  {
    var v := Apply(w, s);
    StepKeepsInv(w, s);
    if s.FinishRefused? || s.AbandonJob? || s.CommitJob? {
      JobSettles(w, s);
    } else if s.DequeueRelease? {
      var e := w.sends[s.send].edge;
      assert SendOk(w, w.sends[s.send]);
      forall p ensures e !in At(v, p).intents && e !in At(v, p).releases && !HasForkEdge(At(v, p), e) {
        assert LocalOk(p, At(w, p), w.next);
      }
    }
  }

  lemma JobSettles(w: World, s: Step)
    requires Inv(w) && Enabled(w, s) && (s.FinishRefused? || s.AbandonJob? || s.CommitJob?)
    ensures Unintended(Apply(w, s), w.jobs[s.job].edge)
  {
    var job, v := w.jobs[s.job], Apply(w, s);
    assert JobOk(w, job) && LocalOk(job.path, At(w, job.path), w.next);
    if s.CommitJob? && CommitFork(At(w, job.path), w.next, OptionsOf(job), ForkOf(job, s.subOffset), s.prefix,
                                  s.payload, s.now).Some? {
      CommitForkShape(At(w, job.path), w.next, OptionsOf(job), ForkOf(job, s.subOffset), s.prefix, s.payload, s.now);
    }
    forall p ensures job.edge !in At(v, p).intents {
      assert LocalOk(p, At(w, p), w.next);
    }
  }

  /**
   Whatever happens between and after the entries of passes and flushes: an intent that
   has been settled is never remembered again, and a release that has been forgotten
   leaves no record of its edge anywhere.
   */
  lemma {:induction false} SettledForGood(run: seq<World>, steps: seq<Step>, i: nat, k: nat)
    requires Serial(run, steps) && Inv(run[0]) && i < k < |run|
    ensures Enabled(run[i], steps[i])
    ensures var s := steps[i];
            && (s.FinishRefused? || s.AbandonJob? || s.CommitJob? ==> Unintended(run[k], run[i].jobs[s.job].edge))
            && (s.DequeueRelease? ==> Gone(run[k], run[i].sends[s.send].edge))
    decreases k
  {
    var s := steps[i];
    assert FollowsAt(run, steps, i) && Serialised(run[i], s);
    RunKeepsInv(run, steps, i);
    if k == i + 1 {
      SettlingStep(run[i], s);
    } else {
      SettledForGood(run, steps, i, k - 1);
      RunKeepsInv(run, steps, k - 1);
      assert FollowsAt(run, steps, k - 1);
      if s.FinishRefused? || s.AbandonJob? || s.CommitJob? {
        StepKeepsGone(run[k - 1], steps[k - 1], run[i].jobs[s.job].edge);
      } else if s.DequeueRelease? {
        StepKeepsGone(run[k - 1], steps[k - 1], run[i].sends[s.send].edge);
      }
    }
  }

  // ------------------------------------------------------ what it leaves alone

  predicate LiveUntil(w: World, p: Path, now: int) {
    Live(w, p) && !IsExpired(At(w, p).meta.value, now)
  }

  /** The changes maintenance makes: nothing appears, logs rest, a live unexpired stream keeps its metadata. */
  predicate Rests(t: Tables, u: Tables, now: int) {
    && (u.meta.Some? ==> t.meta.Some? && u.messages == t.messages)
    && (u.meta.Some? ==> u.meta.value == t.meta.value.(softDeleted := u.meta.value.softDeleted))
    && (u.meta.Some? && t.meta.value.softDeleted ==> u.meta.value.softDeleted)
    && (t.meta.Some? && !t.meta.value.softDeleted && !IsExpired(t.meta.value, now) ==> u.meta == t.meta)
    && (forall e :: e in u.intents ==> e in t.intents && u.intents[e] == t.intents[e])
  }

  ghost predicate Untouched(w: World, v: World, now: int) {
    forall q {:trigger Rests(At(w, q), At(v, q), now)} :: Rests(At(w, q), At(v, q), now)
  }

  lemma UntouchedTransitive(w: World, u: World, v: World, now: int)
    requires Untouched(w, u, now) && Untouched(u, v, now)
    ensures Untouched(w, v, now)
  {
    forall q ensures Rests(At(w, q), At(v, q), now) {
      assert Rests(At(w, q), At(u, q), now) && Rests(At(u, q), At(v, q), now);
    }
  }

  /** What rests at an earlier reading of the clock rests at a later one. */
  lemma UntouchedLater(w: World, v: World, now: int, later: int)
    requires Untouched(w, v, now) && now <= later
    ensures Untouched(w, v, later)
  {
    forall q ensures Rests(At(w, q), At(v, q), later) {
      assert Rests(At(w, q), At(v, q), now);
    }
  }

  lemma RestsEverywhere(w: World, v: World, x: Path, now: int)
    requires forall p :: p != x ==> At(v, p) == At(w, p)
    requires Rests(At(w, x), At(v, x), now)
    ensures Untouched(w, v, now)
  {}

  lemma NothingTouched(w: World, v: World, now: int)
    requires v.actors == w.actors
    ensures Untouched(w, v, now) && forall p :: At(v, p) == At(w, p)
  {
    assert forall p :: At(v, p) == At(w, p);
  }

  lemma ReleaseRests(t: Tables, e: EdgeId, gen: Option<nat>, now: int)
    ensures var u := ForkRelease(t, e, gen);
            Rests(t, u, now) && u.intents == t.intents && (forall d :: d in t.releases ==> d in u.releases)
  {}

  lemma AcquireRests(t: Tables, e: EdgeId, off: Option<string>, ct: Option<string>, now: int)
    ensures var u := ForkAcquire(t, e, off, ct, now).0;
            Rests(t, u, now) && u.intents == t.intents && (forall d :: d in t.releases ==> d in u.releases)
  {
    AcquireShape(t, e, off, ct, now);
    VisibleRestsToo(t, now);
  }

  lemma VisibleRestsToo(t: Tables, now: int)
    ensures var u := Visible(t, now);
            Rests(t, u, now) && u.intents == t.intents && (forall d :: d in t.releases ==> d in u.releases)
  {}

  // ------------------------------------------------------------------ passes

  const PASS_LIMIT: nat := 64

  /** Some fixed total order of edge ids. */
  predicate EdgeBefore(a: EdgeId, b: EdgeId) { a.serial < b.serial || (a.serial == b.serial && Less(a.home, b.home)) }

  /** The entries one pass takes: the first ones in order, all of them unless there are more than the limit. */
  ghost predicate IsPass(pending: seq<EdgeId>, all: set<EdgeId>) {
    && (forall k :: 0 <= k < |pending| ==> pending[k] in all)
    && (forall j, k :: 0 <= j < k < |pending| ==> EdgeBefore(pending[j], pending[k]))
    && |pending| <= PASS_LIMIT
    && (forall e :: e in all && e !in pending ==>
          |pending| == PASS_LIMIT && forall k :: 0 <= k < |pending| ==> EdgeBefore(pending[k], e))
  }

  lemma EdgesOrdered(a: EdgeId, b: EdgeId, c: EdgeId)
    ensures EdgeBefore(a, b) && EdgeBefore(b, c) ==> EdgeBefore(a, c)
    ensures a != b ==> EdgeBefore(a, b) || EdgeBefore(b, a)
    ensures EdgeBefore(a, b) ==> a != b
  {
    StrictOrder();
  }

  lemma FirstEdgeExists(s: set<EdgeId>)
    requires s != {}
    ensures exists a :: a in s && forall b :: b in s && b != a ==> EdgeBefore(a, b)
  {
    StrictOrder();
    var before := (a, b) => EdgeBefore(a, b);
    LeastExists(s, before);
    var a :| IsLeast(a, s, before);
    assert forall b :: b in s && b != a ==> before(a, b);
  }

  /** `ORDER BY edge_id LIMIT 64`. */
  method PickPending(s: set<EdgeId>) returns (pending: seq<EdgeId>)
    ensures IsPass(pending, s)
  {
    var rest := s;
    pending := [];
    while rest != {} && |pending| < PASS_LIMIT
      invariant |pending| <= PASS_LIMIT && rest <= s
      invariant forall k :: 0 <= k < |pending| ==> pending[k] in s && pending[k] !in rest
      invariant forall j, k :: 0 <= j < k < |pending| ==> EdgeBefore(pending[j], pending[k])
      invariant forall e, k :: e in rest && 0 <= k < |pending| ==> EdgeBefore(pending[k], e)
      invariant forall e :: e in s ==> e in rest || e in pending
      decreases rest
    {
      FirstEdgeExists(rest);
      var e :| e in rest && forall b :: b in rest && b != e ==> EdgeBefore(e, b);
      rest := rest - {e};
      pending := pending + [e];
    }
  }

  lemma PassTakesSome(pending: seq<EdgeId>, all: set<EdgeId>)
    requires IsPass(pending, all)
    ensures |pending| > 0 <==> all != {}
  {
    assert |pending| > 0 ==> pending[0] in all;
    if all != {} {
      var e :| e in all;
      assert e !in pending ==> |pending| == PASS_LIMIT;
    }
  }

  /** What becomes of a remote action: executed and answered, executed with the answer lost, or never executed. */
  datatype Fate = Answered | AnswerLost | NotExecuted

  function FateOf(fates: map<EdgeId, Fate>, e: EdgeId): Fate { if e in fates then fates[e] else Answered }

  /** Some entry up to i was not answered. */
  ghost predicate Unanswered(pending: seq<EdgeId>, i: nat, fates: map<EdgeId, Fate>)
    requires i <= |pending|
  {
    exists k :: 0 <= k < i && !FateOf(fates, pending[k]).Answered?
  }

  lemma OneMoreFate(pending: seq<EdgeId>, i: nat, fates: map<EdgeId, Fate>)
    requires i < |pending|
    ensures Unanswered(pending, i + 1, fates) <==> Unanswered(pending, i, fates) || !FateOf(fates, pending[i]).Answered?
  {
    if !FateOf(fates, pending[i]).Answered? {
      assert 0 <= i < i + 1 && !FateOf(fates, pending[i]).Answered?;
    }
  }

  /** The list with its entries numbered. */
  function Numbered(pending: seq<EdgeId>): map<nat, EdgeId> { map k: nat | k < |pending| :: pending[k] }

  /** The entries from i on wait for their turn. */
  ghost predicate JobsWait(v: World, p: Path, pending: seq<EdgeId>, i: nat) {
    && (forall k: nat :: k in v.jobs <==> i <= k < |pending|)
    && (forall k :: k in v.jobs ==>
          v.jobs[k].path == p && v.jobs[k].edge == pending[k] && v.jobs[k].reply.None?)
  }

  ghost predicate SendsWait(v: World, pending: seq<EdgeId>, i: nat) {
    && (forall k: nat :: k in v.sends <==> i <= k < |pending|)
    && (forall k :: k in v.sends ==> v.sends[k].edge == pending[k] && !v.sends[k].acked)
  }

  /** The effect of one reconciled entry. */
  ghost predicate Reconciled(w: World, v: World, p: Path, e: EdgeId, now: int, fate: Fate) {
    && Untouched(w, v, now)
    && At(v, p).intents.Keys == At(w, p).intents.Keys - (if fate.Answered? then {e} else {})
    && Measure(v) + Count(fate.Answered?) <= Measure(w)
  }

  /** The effect of one flushed entry. */
  ghost predicate Flushed(w: World, v: World, p: Path, e: EdgeId, now: int, fate: Fate) {
    && Untouched(w, v, now)
    && (forall d :: d in At(w, p).releases && d != e ==> d in At(v, p).releases)
    && (fate.Answered? ==> e !in At(v, p).releases)
    && Measure(v) + Count(fate.Answered? && e in At(w, p).releases) <= Measure(w)
  }

  // ----------------------------------------------------------- single entries

  lemma TakenStep(w: World, s: Step)
    requires Inv(w) && Enabled(w, s) && Serialised(w, s)
    ensures Inv(Apply(w, s)) && Measure(Apply(w, s)) + Count(SettlesDuty(w, s)) <= Measure(w) + 2 * Count(Creates(w, s))
  {
    StepKeepsInv(w, s);
    StepMeasure(w, s);
  }

  lemma AcquireTaken(w: World, j: nat, now: int) returns (v: World)
    requires Inv(w) && Awaits(w, j)
    ensures v == Apply(w, SendAcquire(j, now, false))
    ensures Inv(v) && Measure(v) <= Measure(w) && Untouched(w, v, now) && v.sends == w.sends
    ensures v.jobs.Keys == w.jobs.Keys && v.jobs == w.jobs[j := v.jobs[j]]
    ensures v.jobs[j] == w.jobs[j].(reply := v.jobs[j].reply) && v.jobs[j].reply.Some?
    ensures forall q :: At(v, q).intents == At(w, q).intents
  {
    var s := SendAcquire(j, now, false);
    TakenStep(w, s);
    v := Apply(w, s);
    var x := w.jobs[j].intent.parent;
    AcquireRests(At(w, x), w.jobs[j].edge, w.jobs[j].intent.forkOffset, TypeSent(w.jobs[j]), now);
    RestsEverywhere(w, v, x, now);
  }

  function Settlement(w: World, j: nat): Step { if GotRefused(w, j) then FinishRefused(j) else AbandonJob(j) }

  lemma SettleTaken(w: World, j: nat, now: int) returns (v: World)
    requires Inv(w) && j in w.jobs && w.jobs[j].reply.Some?
    ensures Enabled(w, Settlement(w, j)) && v == Apply(w, Settlement(w, j))
    ensures Inv(v) && Measure(v) < Measure(w) && Untouched(w, v, now) && v.sends == w.sends && v.jobs == w.jobs - {j}
    ensures At(v, w.jobs[j].path).intents.Keys == At(w, w.jobs[j].path).intents.Keys - {w.jobs[j].edge}
  {
    var s := Settlement(w, j);
    TakenStep(w, s);
    v := Apply(w, s);
    SettlementRests(w, j, now);
    RestsEverywhere(w, v, w.jobs[j].path, now);
  }

  lemma SettlementRests(w: World, j: nat, now: int)
    requires Inv(w) && j in w.jobs && w.jobs[j].reply.Some?
    ensures var p, v := w.jobs[j].path, Apply(w, Settlement(w, j));
            && Rests(At(w, p), At(v, p), now) && At(v, p).intents.Keys == At(w, p).intents.Keys - {w.jobs[j].edge}
  {
    assert JobOk(w, w.jobs[j]);
  }

  lemma DropTaken(w: World, s: Step, now: int) returns (v: World)
    requires Inv(w) && Enabled(w, s) && (s.DropJob? || s.DropSend?)
    ensures v == Apply(w, s) && Inv(v) && Measure(v) <= Measure(w) && Untouched(w, v, now)
    ensures forall p :: At(v, p) == At(w, p)
  {
    TakenStep(w, s);
    v := Apply(w, s);
    NothingTouched(w, v, now);
  }

  lemma ReleaseTaken(w: World, d: nat, lost: bool, now: int) returns (v: World)
    requires Inv(w) && d in w.sends && !w.sends[d].acked
    ensures v == Apply(w, SendRelease(d, lost))
    ensures Inv(v) && Measure(v) <= Measure(w) && Untouched(w, v, now) && v.jobs == w.jobs
    ensures v.sends == if lost then w.sends - {d} else w.sends[d := w.sends[d].(acked := true)]
    ensures forall q, e :: e in At(w, q).releases ==> e in At(v, q).releases
  {
    var s := SendRelease(d, lost);
    TakenStep(w, s);
    v := Apply(w, s);
    var r := w.sends[d].release;
    ReleaseRests(At(w, r.parent), w.sends[d].edge, r.sourceGen, now);
    RestsEverywhere(w, v, r.parent, now);
  }

  lemma DequeueTaken(w: World, d: nat, now: int) returns (v: World)
    requires Inv(w) && d in w.sends && w.sends[d].acked
    ensures v == Apply(w, DequeueRelease(d))
    ensures var e := w.sends[d].edge;
            Inv(v) && Measure(v) + Count(e in At(w, e.home).releases) <= Measure(w) && Untouched(w, v, now)
            && v.jobs == w.jobs && v.sends == w.sends - {d} && At(v, e.home) == Dequeue(At(w, e.home), e)
  {
    TakenStep(w, DequeueRelease(d));
    v := Apply(w, DequeueRelease(d));
    RestsEverywhere(w, v, w.sends[d].edge.home, now);
  }

  /** A pass over intents, up to entry i: exactly the answered ones are settled. */
  ghost predicate IntentsPassed(w: World, v: World, p: Path, pending: seq<EdgeId>, i: nat, now: int,
                                fates: map<EdgeId, Fate>)
    requires i <= |pending|
  {
    && Inv(v) && v.sends == map[] && JobsWait(v, p, pending, i) && Untouched(w, v, now)
    && (forall k :: 0 <= k < i ==> (pending[k] in At(v, p).intents <==> !FateOf(fates, pending[k]).Answered?))
    && Measure(v) + Count(i > 0 && !Unanswered(pending, i, fates)) <= Measure(w)
    && (i == 0 ==> v.actors == w.actors)
  }

  lemma OneMoreIntent(
      w: World, u: World, v: World, p: Path, pending: seq<EdgeId>, i: nat, now: int, fates: map<EdgeId, Fate>)
    requires i < |pending| && (forall j, k :: 0 <= j < k < |pending| ==> pending[j] != pending[k])
    requires IntentsPassed(w, u, p, pending, i, now, fates)
    requires Inv(v) && v.sends == map[] && v.jobs == u.jobs - {i} && pending[i] in At(u, p).intents
    requires Reconciled(u, v, p, pending[i], now, FateOf(fates, pending[i]))
    ensures IntentsPassed(w, v, p, pending, i + 1, now, fates)
  {
    UntouchedTransitive(w, u, v, now);
    OneMoreSettled(pending, At(u, p).intents.Keys, At(v, p).intents.Keys, i, fates);
    OneMoreWorked(Measure(w), Measure(u), Measure(v), pending, i, fates);
    FewerJobs(u, v, p, pending, i);
  }

  lemma OneMoreSettled(pending: seq<EdgeId>, before: set<EdgeId>, after: set<EdgeId>, i: nat, fates: map<EdgeId, Fate>)
    requires i < |pending| && (forall j, k :: 0 <= j < k < |pending| ==> pending[j] != pending[k])
    requires forall k :: 0 <= k < i ==> (pending[k] in before <==> !FateOf(fates, pending[k]).Answered?)
    requires pending[i] in before
    requires after == before - (if FateOf(fates, pending[i]).Answered? then {pending[i]} else {})
    ensures forall k :: 0 <= k < i + 1 ==> (pending[k] in after <==> !FateOf(fates, pending[k]).Answered?)
  {}

  /** One more answered entry has lowered the measure; without one, there is nothing to show. */
  lemma OneMoreWorked(a: nat, b: nat, c: nat, pending: seq<EdgeId>, i: nat, fates: map<EdgeId, Fate>)
    requires i < |pending| && b + Count(i > 0 && !Unanswered(pending, i, fates)) <= a
    requires c + Count(FateOf(fates, pending[i]).Answered?) <= b
    ensures c + Count(!Unanswered(pending, i + 1, fates)) <= a
  {
    OneMoreFate(pending, i, fates);
  }

  lemma FewerJobs(u: World, v: World, p: Path, pending: seq<EdgeId>, i: nat)
    requires i < |pending| && JobsWait(u, p, pending, i) && v.jobs == u.jobs - {i}
    ensures JobsWait(v, p, pending, i + 1)
  {}

  /** A pass over releases, up to entry i: the answered ones are forgotten. */
  ghost predicate ReleasesPassed(w: World, v: World, p: Path, pending: seq<EdgeId>, i: nat, now: int,
                                 fates: map<EdgeId, Fate>)
    requires i <= |pending|
  {
    && Inv(v) && v.jobs == map[] && SendsWait(v, pending, i) && Untouched(w, v, now)
    && (forall k :: i <= k < |pending| ==> pending[k].home == p && pending[k] in At(v, p).releases)
    && Measure(v) + Count(i > 0 && !Unanswered(pending, i, fates)) <= Measure(w)
  }

  lemma OneMoreRelease(
      w: World, u: World, v: World, p: Path, pending: seq<EdgeId>, i: nat, now: int, fates: map<EdgeId, Fate>)
    requires i < |pending| && (forall j, k :: 0 <= j < k < |pending| ==> pending[j] != pending[k])
    requires ReleasesPassed(w, u, p, pending, i, now, fates)
    requires Inv(v) && v.jobs == map[] && v.sends == u.sends - {i}
    requires Flushed(u, v, p, pending[i], now, FateOf(fates, pending[i]))
    ensures ReleasesPassed(w, v, p, pending, i + 1, now, fates)
  {
    UntouchedTransitive(w, u, v, now);
    OneMoreWorked(Measure(w), Measure(u), Measure(v), pending, i, fates);
    FewerSends(u, v, pending, i);
    StillQueued(pending, At(u, p).releases.Keys, At(v, p).releases.Keys, i);
  }

  lemma FewerSends(u: World, v: World, pending: seq<EdgeId>, i: nat)
    requires i < |pending| && SendsWait(u, pending, i) && v.sends == u.sends - {i}
    ensures SendsWait(v, pending, i + 1)
  {}

  lemma StillQueued(pending: seq<EdgeId>, before: set<EdgeId>, after: set<EdgeId>, i: nat)
    requires i < |pending| && (forall j, k :: 0 <= j < k < |pending| ==> pending[j] != pending[k])
    requires forall k :: i <= k < |pending| ==> pending[k] in before
    requires forall d :: d in before && d != pending[i] ==> d in after
    ensures forall k :: i + 1 <= k < |pending| ==> pending[k] in after
  {}

  lemma PassListed(w: World, p: Path, pending: seq<EdgeId>, now: int, fates: map<EdgeId, Fate>) returns (v: World)
    requires Inv(w) && w.jobs == map[] && w.sends == map[] && IsPass(pending, At(w, p).intents.Keys)
    ensures Enabled(w, BeginPass(p, Numbered(pending))) && v == Apply(w, BeginPass(p, Numbered(pending)))
    ensures IntentsPassed(w, v, p, pending, 0, now, fates)
  {
    PassIsDistinct(pending, At(w, p).intents.Keys);
    v := ListTaken(w, BeginPass(p, Numbered(pending)), now);
    EntriesWait(w, p, pending);
  }

  lemma EntriesWait(w: World, p: Path, pending: seq<EdgeId>)
    requires w.jobs == map[] && Lists(Numbered(pending), At(w, p).intents.Keys)
    ensures var v := Apply(w, BeginPass(p, Numbered(pending))); JobsWait(v, p, pending, 0) && v.sends == w.sends
  {}

  lemma EntryWaits(w: World, p: Path, pending: seq<EdgeId>, i: nat)
    requires Inv(w) && i < |pending| && JobsWait(w, p, pending, i)
    ensures Awaits(w, i) && w.jobs[i].path == p && w.jobs[i].edge == pending[i] && pending[i] in At(w, p).intents
  {
    assert i in w.jobs && JobOk(w, w.jobs[i]);
  }

  lemma PassIsOver(w: World, v: World, p: Path, pending: seq<EdgeId>, now: int, fates: map<EdgeId, Fate>)
    requires IntentsPassed(w, v, p, pending, |pending|, now, fates)
    ensures Inv(v) && v.jobs == map[] && v.sends == map[]
  {
    assert forall k :: k !in v.jobs;
  }

  /** Reading a list changes no tables. */
  lemma ListTaken(w: World, s: Step, now: int) returns (v: World)
    requires Inv(w) && Enabled(w, s) && Serialised(w, s) && (s.BeginPass? || s.BeginFlush?)
    ensures v == Apply(w, s) && Inv(v) && Measure(v) <= Measure(w) && v.actors == w.actors && Untouched(w, v, now)
  {
    TakenStep(w, s);
    v := Apply(w, s);
    NothingTouched(w, v, now);
  }

  lemma FlushListed(w: World, p: Path, pending: seq<EdgeId>, now: int, fates: map<EdgeId, Fate>) returns (v: World)
    requires Inv(w) && w.jobs == map[] && w.sends == map[] && IsPass(pending, At(w, p).releases.Keys)
    ensures Enabled(w, BeginFlush(p, Numbered(pending))) && v == Apply(w, BeginFlush(p, Numbered(pending)))
    ensures ReleasesPassed(w, v, p, pending, 0, now, fates)
  {
    PassIsDistinct(pending, At(w, p).releases.Keys);
    v := ListTaken(w, BeginFlush(p, Numbered(pending)), now);
    QueuedAtHome(w, p, pending);
    SendsListed(w, p, pending);
    FlushStarts(w, v, p, pending, now, fates);
  }

  lemma FlushStarts(w: World, v: World, p: Path, pending: seq<EdgeId>, now: int, fates: map<EdgeId, Fate>)
    requires Inv(v) && v.jobs == map[] && v.actors == w.actors && SendsWait(v, pending, 0) && Untouched(w, v, now)
    requires Measure(v) <= Measure(w)
    requires forall k :: 0 <= k < |pending| ==> pending[k].home == p && pending[k] in At(w, p).releases
    ensures ReleasesPassed(w, v, p, pending, 0, now, fates)
  {
    assert At(v, p) == At(w, p);
  }

  lemma QueuedAtHome(w: World, p: Path, pending: seq<EdgeId>)
    requires GraphOk(w) && forall k :: 0 <= k < |pending| ==> pending[k] in At(w, p).releases
    ensures forall k :: 0 <= k < |pending| ==> pending[k].home == p && pending[k] in At(w, p).releases
  {
    assert LocalOk(p, At(w, p), w.next);
  }

  lemma SendsListed(w: World, p: Path, pending: seq<EdgeId>)
    requires w.sends == map[] && Lists(Numbered(pending), At(w, p).releases.Keys)
    ensures var v := Apply(w, BeginFlush(p, Numbered(pending))); SendsWait(v, pending, 0) && v.jobs == w.jobs
  {}

  lemma PassIsDistinct(pending: seq<EdgeId>, all: set<EdgeId>)
    requires IsPass(pending, all)
    ensures forall j, k :: 0 <= j < k < |pending| ==> pending[j] != pending[k]
    ensures Lists(Numbered(pending), all)
  {
    forall j, k | 0 <= j < k < |pending| ensures pending[j] != pending[k] {
      EdgesOrdered(pending[j], pending[k], pending[k]);
    }
  }

  // ------------------------------------------------------------ at rest

  /** What maintenance of one actor would act on. */
  predicate HasDuties(w: World, p: Path) {
    At(w, p).releases != map[] || (At(w, p).meta.None? && At(w, p).intents != map[])
  }

  ghost predicate AtRest(w: World) { forall p {:trigger HasDuties(w, p)} :: !HasDuties(w, p) }

  function Working(w: World): set<Path> { set p | p in w.actors && HasDuties(w, p) }

  lemma NoneWorking(w: World)
    requires Working(w) == {}
    ensures AtRest(w)
  {
    forall p ensures !HasDuties(w, p) {
      assert p in w.actors && HasDuties(w, p) ==> p in Working(w);
      if p !in w.actors {
        assert NO_TABLES.releases == map[] && NO_TABLES.intents == map[];
      }
    }
  }

  /** A creation remembered at a path where a stream exists, which maintenance does not reconcile, names q. */
  ghost predicate Remembered(w: World, q: Path) {
    exists p, e :: Exists(w, p) && e in At(w, p).intents && At(w, p).intents[e].parent == q
  }

  /** Some live or remembered stream reads through q. */
  ghost predicate Rooted(w: World, q: Path) {
    exists c :: Chain(w, c) && (Live(w, c[0]) || Remembered(w, c[0])) && c[|c| - 1] == q
  }

  /** Some stream that stays live until then reads through q. */
  ghost predicate NeededUntil(w: World, q: Path, now: int) {
    exists c :: Chain(w, c) && LiveUntil(w, c[0], now) && c[|c| - 1] == q
  }

  /** At rest exactly those streams exist that a live or remembered one reads through. */
  lemma {:induction false} RestingStreamsAreRooted(w: World, q: Path)
    requires Inv(w) && AtRest(w) && Exists(w, q)
    ensures Rooted(w, q)
    decreases w.next - Gen(w, q)
  {
    if Live(w, q) || Remembered(w, q) {
      assert Chain(w, [q]);
    } else {
      assert LocalOk(q, At(w, q), w.next);
      var e :| e in At(w, q).edges;
      var p := e.home;
      assert HeldOk(w, q, e) && !HasDuties(w, p);
      assert LocalOk(p, At(w, p), w.next) && Pinned(w, p);
      RestingStreamsAreRooted(w, p);
      var c :| Chain(w, c) && (Live(w, c[0]) || Remembered(w, c[0])) && c[|c| - 1] == p;
      ExtendChain(w, c, q);
    }
  }

  lemma ChainWasThere(w: World, v: World, c: seq<Path>, now: int)
    requires Untouched(w, v, now) && Chain(v, c)
    ensures Chain(w, c) && (Live(v, c[0]) ==> Live(w, c[0])) && (Remembered(v, c[0]) ==> Remembered(w, c[0]))
  {
    forall i | 0 <= i < |c| ensures Exists(w, c[i]) { assert Rests(At(w, c[i]), At(v, c[i]), now); }
    forall i | 0 <= i < |c| - 1 ensures IsFork(w, c[i]) && Fork(w, c[i]).parent == c[i + 1] {
      assert Rests(At(w, c[i]), At(v, c[i]), now);
    }
    assert Rests(At(w, c[0]), At(v, c[0]), now);
    if Remembered(v, c[0]) {
      var p, e :| Exists(v, p) && e in At(v, p).intents && At(v, p).intents[e].parent == c[0];
      assert Rests(At(w, p), At(v, p), now);
    }
  }

  lemma WasRooted(w: World, v: World, q: Path, now: int)
    requires Untouched(w, v, now) && Rooted(v, q)
    ensures Rooted(w, q)
  {
    var c :| Chain(v, c) && (Live(v, c[0]) || Remembered(v, c[0])) && c[|c| - 1] == q;
    ChainWasThere(w, v, c, now);
  }

  lemma {:induction false} NeededChainStays(w: World, v: World, c: seq<Path>, i: nat, now: int)
    requires Inv(v) && Untouched(w, v, now) && Chain(w, c) && LiveUntil(w, c[0], now) && i < |c|
    ensures Exists(v, c[i])
  {
    if i == 0 {
      assert Rests(At(w, c[0]), At(v, c[0]), now);
    } else {
      NeededChainStays(w, v, c, i - 1, now);
      assert Rests(At(w, c[i - 1]), At(v, c[i - 1]), now);
      assert Pinned(v, c[i - 1]);
    }
  }

  /** Exactly which streams are left when maintenance has come to rest. */
  lemma SurvivorsAreRooted(w: World, v: World, now: int)
    requires Inv(v) && Untouched(w, v, now) && AtRest(v)
    ensures forall q :: Exists(v, q) <==> Rooted(v, q)
    ensures forall q :: Exists(v, q) ==> Rooted(w, q)
    ensures forall q :: NeededUntil(w, q, now) ==> Exists(v, q)
  {
    forall q ensures (Exists(v, q) <==> Rooted(v, q)) && (Exists(v, q) ==> Rooted(w, q)) {
      if Exists(v, q) {
        RestingStreamsAreRooted(v, q);
        WasRooted(w, v, q, now);
      }
    }
    forall q | NeededUntil(w, q, now) ensures Exists(v, q) {
      var c :| Chain(w, c) && LiveUntil(w, c[0], now) && c[|c| - 1] == q;
      NeededChainStays(w, v, c, |c| - 1, now);
    }
  }

  /** Without expiry and without creations remembered at existing paths, what is rooted is needed by what stays live. */
  lemma RootedIsNeeded(w: World, q: Path, now: int)
    requires forall p :: Exists(w, p) ==> At(w, p).intents == map[] && !IsExpired(At(w, p).meta.value, now)
    ensures Rooted(w, q) <==> NeededUntil(w, q, now)
  {
    if Rooted(w, q) {
      var c :| Chain(w, c) && (Live(w, c[0]) || Remembered(w, c[0])) && c[|c| - 1] == q;
      assert LiveUntil(w, c[0], now);
    }
    if NeededUntil(w, q, now) {
      var c :| Chain(w, c) && LiveUntil(w, c[0], now) && c[|c| - 1] == q;
      assert Live(w, c[0]);
    }
  }

  // -------------------------------------------------------------- the passes

  class Deployment {
    var world: World

    /** No creation, pass or flush is under way. */
    ghost predicate Quiescent()
      reads this
    {
      Inv(world) && world.jobs == map[] && world.sends == map[]
    }

    constructor (w: World)
      requires Inv(w) && w.jobs == map[] && w.sends == map[]
      ensures world == w && Quiescent()
    {
      world := w;
    }

    /** One entry of `reconcile_fork_intents`: acquire its edge, then give it up. */
    method ReconcileEntry(j: nat, now: int, fate: Fate)
      requires Inv(world) && Awaits(world, j)
      modifies this
      ensures Inv(world) && world.sends == old(world).sends && world.jobs == old(world).jobs - {j}
      ensures Reconciled(old(world), world, old(world).jobs[j].path, old(world).jobs[j].edge, now, fate)
    {
      ghost var before := world;
      if fate.NotExecuted? {
        ghost var dropped := DropTaken(world, DropJob(j), now);
        world := Apply(world, DropJob(j));
      } else {
        ghost var held := AcquireTaken(world, j, now);
        world := Apply(world, SendAcquire(j, now, false));
        SettleEntry(j, now, fate.Answered?);
        UntouchedTransitive(before, held, world, now);
      }
    }

    /** The answer of the acquire is acted on, or was lost. */
    method SettleEntry(j: nat, now: int, answered: bool)
      requires Inv(world) && j in world.jobs && world.jobs[j].reply.Some?
      modifies this
      ensures Inv(world) && world.sends == old(world).sends && world.jobs == old(world).jobs - {j}
      ensures Reconciled(old(world), world, old(world).jobs[j].path, old(world).jobs[j].edge, now,
                         if answered then Answered else AnswerLost)
    {
      if answered {
        ghost var settled := SettleTaken(world, j, now);
        world := Apply(world, Settlement(world, j));
      } else {
        ghost var dropped := DropTaken(world, DropJob(j), now);
        world := Apply(world, DropJob(j));
      }
    }

    /** One entry of `flush_gc_releases`: execute the release, and forget it once acknowledged. */
    method FlushEntry(d: nat, now: int, fate: Fate)
      requires Inv(world) && d in world.sends && !world.sends[d].acked
      modifies this
      ensures Inv(world) && world.jobs == old(world).jobs && world.sends == old(world).sends - {d}
      ensures Flushed(old(world), world, old(world).sends[d].edge.home, old(world).sends[d].edge, now, fate)
    {
      if fate.NotExecuted? {
        ghost var dropped := DropTaken(world, DropSend(d), now);
        world := Apply(world, DropSend(d));
      } else if fate.AnswerLost? {
        SendEntry(d, true, now);
      } else {
        SendAndForget(d, now);
      }
    }

    method SendAndForget(d: nat, now: int)
      requires Inv(world) && d in world.sends && !world.sends[d].acked
      modifies this
      ensures Inv(world) && world.jobs == old(world).jobs && world.sends == old(world).sends - {d}
      ensures Flushed(old(world), world, old(world).sends[d].edge.home, old(world).sends[d].edge, now, Answered)
    {
      ghost var before := world;
      SendEntry(d, false, now);
      ghost var executed := world;
      ForgetEntry(d, now);
      UntouchedTransitive(before, executed, world, now);
    }

    /** The release is executed at its source; its acknowledgement arrives or is lost. */
    method SendEntry(d: nat, lost: bool, now: int)
      requires Inv(world) && d in world.sends && !world.sends[d].acked
      modifies this
      ensures Inv(world) && world.jobs == old(world).jobs
      ensures world.sends == if lost then old(world).sends - {d}
                             else old(world).sends[d := old(world).sends[d].(acked := true)]
      ensures Untouched(old(world), world, now) && Measure(world) <= Measure(old(world))
      ensures forall q, e :: e in At(old(world), q).releases ==> e in At(world, q).releases
    {
      ghost var executed := ReleaseTaken(world, d, lost, now);
      world := Apply(world, SendRelease(d, lost));
    }

    /** An acknowledged release is dequeued. */
    method ForgetEntry(d: nat, now: int)
      requires Inv(world) && d in world.sends && world.sends[d].acked
      modifies this
      ensures Inv(world) && world.jobs == old(world).jobs && world.sends == old(world).sends - {d}
      ensures Flushed(old(world), world, old(world).sends[d].edge.home, old(world).sends[d].edge, now, Answered)
    {
      ghost var forgotten := DequeueTaken(world, d, now);
      world := Apply(world, DequeueRelease(d));
    }

    /** The list of a pass, read in one query. */
    method ListIntents(p: Path, now: int, fates: map<EdgeId, Fate>) returns (pending: seq<EdgeId>)
      requires Quiescent()
      modifies this
      ensures IsPass(pending, At(old(world), p).intents.Keys)
      ensures forall j, k :: 0 <= j < k < |pending| ==> pending[j] != pending[k]
      ensures IntentsPassed(old(world), world, p, pending, 0, now, fates)
    {
      pending := PickPending(At(world, p).intents.Keys);
      PassIsDistinct(pending, At(world, p).intents.Keys);
      ghost var listed := PassListed(world, p, pending, now, fates);
      world := Apply(world, BeginPass(p, Numbered(pending)));
    }

    /** The next entry of the list. */
    method ReconcileNext(ghost before: World, p: Path, pending: seq<EdgeId>, i: nat, now: int, fates: map<EdgeId, Fate>,
                         failed: bool) returns (retry: bool)
      requires i < |pending| && (forall j, k :: 0 <= j < k < |pending| ==> pending[j] != pending[k])
      requires IntentsPassed(before, world, p, pending, i, now, fates) && (failed <==> Unanswered(pending, i, fates))
      modifies this
      ensures IntentsPassed(before, world, p, pending, i + 1, now, fates)
      ensures retry <==> Unanswered(pending, i + 1, fates)
    {
      ghost var step := world;
      EntryWaits(world, p, pending, i);
      ReconcileEntry(i, now, FateOf(fates, pending[i]));
      OneMoreIntent(before, step, world, p, pending, i, now, fates);
      OneMoreFate(pending, i, fates);
      retry := failed || !FateOf(fates, pending[i]).Answered?;
    }

    method ReconcileListed(ghost before: World, p: Path, pending: seq<EdgeId>, now: int, fates: map<EdgeId, Fate>)
      returns (retry: bool)
      requires forall j, k :: 0 <= j < k < |pending| ==> pending[j] != pending[k]
      requires IntentsPassed(before, world, p, pending, 0, now, fates)
      modifies this
      ensures IntentsPassed(before, world, p, pending, |pending|, now, fates)
      ensures retry <==> Unanswered(pending, |pending|, fates)
    {
      retry := false;
      for i := 0 to |pending|
        invariant IntentsPassed(before, world, p, pending, i, now, fates)
        invariant retry <==> Unanswered(pending, i, fates)
      {
        retry := ReconcileNext(before, p, pending, i, now, fates, retry);
      }
    }

    /** `reconcile_fork_intents` without its final flush: the list is read once, then each entry taken in turn. */
    method ReconcileForkIntents(p: Path, now: int, fates: map<EdgeId, Fate>) returns (retry: bool, pending: seq<EdgeId>)
      requires Quiescent()
      modifies this
      ensures Quiescent() && IsPass(pending, At(old(world), p).intents.Keys)
      ensures IntentsPassed(old(world), world, p, pending, |pending|, now, fates)
      ensures retry <==> Unanswered(pending, |pending|, fates)
    {
      ghost var before := world;
      pending := ListIntents(p, now, fates);
      retry := ReconcileListed(before, p, pending, now, fates);
      PassIsOver(before, world, p, pending, now, fates);
    }

    method FlushNext(ghost before: World, p: Path, pending: seq<EdgeId>, i: nat, now: int, fates: map<EdgeId, Fate>,
                     failed: bool) returns (retry: bool)
      requires i < |pending| && (forall j, k :: 0 <= j < k < |pending| ==> pending[j] != pending[k])
      requires ReleasesPassed(before, world, p, pending, i, now, fates) && (failed <==> Unanswered(pending, i, fates))
      modifies this
      ensures ReleasesPassed(before, world, p, pending, i + 1, now, fates)
      ensures retry <==> Unanswered(pending, i + 1, fates)
    {
      ghost var step := world;
      assert i in world.sends;
      FlushEntry(i, now, FateOf(fates, pending[i]));
      OneMoreRelease(before, step, world, p, pending, i, now, fates);
      OneMoreFate(pending, i, fates);
      retry := failed || !FateOf(fates, pending[i]).Answered?;
    }

    /** `flush_gc_releases`: the list is read once; purges at the sources may queue further releases. */
    method FlushGcReleases(p: Path, now: int, fates: map<EdgeId, Fate>) returns (retry: bool, pending: seq<EdgeId>)
      requires Quiescent()
      modifies this
      ensures Quiescent() && IsPass(pending, At(old(world), p).releases.Keys)
      ensures ReleasesPassed(old(world), world, p, pending, |pending|, now, fates)
      ensures retry <==> Unanswered(pending, |pending|, fates)
    {
      ghost var before := world;
      pending := PickPending(At(world, p).releases.Keys);
      PassIsDistinct(pending, At(world, p).releases.Keys);
      ghost var listed := FlushListed(world, p, pending, now, fates);
      world := Apply(world, BeginFlush(p, Numbered(pending)));
      retry := false;
      for i := 0 to |pending|
        invariant ReleasesPassed(before, world, p, pending, i, now, fates)
        invariant retry <==> Unanswered(pending, i, fates)
      {
        retry := FlushNext(before, p, pending, i, now, fates, retry);
      }
      assert world.sends.Keys == {};
    }

    /** Reconciling, and the flush at its end. */
    method ReconcileAndFlush(p: Path, now: int, fates: map<EdgeId, Fate>) returns (retry: bool)
      requires Quiescent()
      modifies this
      ensures Quiescent() && Untouched(old(world), world, now)
      ensures var t := At(old(world), p);
              Measure(world) + Count(!retry && (t.intents != map[] || t.releases != map[])) <= Measure(old(world))
      ensures (forall e :: FateOf(fates, e).Answered?) ==> !retry
    {
      ghost var before := world;
      var failed, intents := ReconcileForkIntents(p, now, fates);
      PassTakesSome(intents, At(before, p).intents.Keys);
      ghost var reconciled := world;
      var alsoFailed, releases := FlushGcReleases(p, now, fates);
      PassTakesSome(releases, At(reconciled, p).releases.Keys);
      UntouchedTransitive(before, reconciled, world, now);
      retry := failed || alsoFailed;
    }

    /** Looking at the stream at the end of a pass retires it if it has expired. */
    method LookForExpiry(p: Path, now: int)
      requires Quiescent()
      modifies this
      ensures Quiescent() && Untouched(old(world), world, now) && Measure(world) <= Measure(old(world))
    {
      TakenStep(world, ExpireStream(p, now));
      VisibleRestsToo(At(world, p), now);
      RestsEverywhere(world, Apply(world, ExpireStream(p, now)), p, now);
      world := Apply(world, ExpireStream(p, now));
    }

    /** `run_maintenance`. Without failing actions, a pass over an actor with duties makes progress. */
    method RunMaintenance(p: Path, now: int, fates: map<EdgeId, Fate>) returns (retry: bool)
      requires Quiescent()
      modifies this
      ensures Quiescent() && Untouched(old(world), world, now)
      ensures Measure(world) + Count(!retry && HasDuties(old(world), p)) <= Measure(old(world))
      ensures (forall e :: FateOf(fates, e).Answered?) ==> !retry
    {
      ghost var before := world;
      NothingTouched(world, world, now);
      retry := false;
      if At(world, p).meta.None? {
        retry := ReconcileAndFlush(p, now, fates);
      }
      ghost var middle := world;
      var flushFailed, releases := FlushGcReleases(p, now, fates);
      PassTakesSome(releases, At(middle, p).releases.Keys);
      UntouchedTransitive(before, middle, world, now);
      ghost var flushed := world;
      LookForExpiry(p, now);
      UntouchedTransitive(before, flushed, world, now);
      retry := retry || flushFailed;
    }

    /** Passes over actors with duties, all remote actions succeeding, at any clock readings, until none has any. */
    method Drain(clock: nat -> int, latest: int)
      requires Quiescent() && forall n :: clock(n) <= latest
      modifies this
      ensures Quiescent() && Untouched(old(world), world, latest) && AtRest(world)
      ensures forall q :: Exists(world, q) <==> Rooted(world, q)
      ensures forall q :: Exists(world, q) ==> Rooted(old(world), q)
      ensures forall q :: NeededUntil(old(world), q, latest) ==> Exists(world, q)
    {
      ghost var before := world;
      NothingTouched(world, world, latest);
      var working, n := Working(world), 0;
      while working != {}
        invariant Quiescent() && Untouched(before, world, latest)
        invariant working == Working(world)
        decreases Measure(world)
      {
        var p :| p in working;
        ghost var step := world;
        var _ := RunMaintenance(p, clock(n), map[]);
        UntouchedLater(step, world, clock(n), latest);
        UntouchedTransitive(before, step, world, latest);
        working, n := Working(world), n + 1;
      }
      NoneWorking(world);
      SurvivorsAreRooted(before, world, latest);
    }
  }
}
