/**
 What happens without the serialisation guard: whatever overlaps, the invariant of
 forks and edges holds as long as every step is harmless, and a step that is not
 damages it at once. The harmless steps are those that find the records in place
 which the program does not look for.
 */
module Harm {
  import opened Options
  import opened Offsets
  import opened Tables
  import opened Cluster
  import opened ClusterProofs

  // ---------------------------------------------------------------- invariant

  /** Something at its home still speaks for the edge of this job: the intent, or the fork it has become. */
  predicate Wanted(t: Tables, e: EdgeId) { e in t.intents || HasForkEdge(t, e) }

  /** The source answered with what it holds. */
  predicate AnswerHolds(w: World, job: Job) {
    job.reply.Some? && job.reply.value.Acquired? ==>
      var source := At(w, job.intent.parent);
      source.meta.Some? && source.meta.value.gen == job.reply.value.sourceGen
      && job.edge in source.edges && source.edges[job.edge] == job.reply.value.offset
  }

  /** Any number of jobs may hold one edge; while it is wanted, they agree with its record and with its source. */
  ghost predicate JobSecure(w: World, job: Job) {
    var t := At(w, job.path);
    && job.edge.home == job.path && job.edge.serial < w.next
    && (job.edge in t.intents ==> t.intents[job.edge] == job.intent)
    && (HasForkEdge(t, job.edge) ==> t.meta.value.fork.value.parent == job.intent.parent)
    && (Wanted(t, job.edge) ==> AnswerHolds(w, job))
  }

  /** A listed release is for an edge that nothing wants any more. */
  ghost predicate SendSecure(w: World, send: Send) {
    send.edge.serial < w.next && !Wanted(At(w, send.edge.home), send.edge)
  }

  ghost predicate VolatileSecure(w: World) {
    && (forall j {:trigger JobSecure(w, w.jobs[j])} :: j in w.jobs ==> JobSecure(w, w.jobs[j]))
    && (forall d {:trigger SendSecure(w, w.sends[d])} :: d in w.sends ==> SendSecure(w, w.sends[d]))
  }

  /** Forks are pinned, edges have owners, and nothing in flight contradicts that. */
  ghost predicate Secure(w: World) { GraphOk(w) && VolatileSecure(w) }

  // ---------------------------------------------------------- harmless steps

  /** The edge of this job is acquired with no record to speak for it. */
  predicate AcquiresUnowned(w: World, j: nat, now: int)
    requires Awaits(w, j)
  {
    var job := w.jobs[j];
    var q, home := job.intent.parent, At(w, job.edge.home);
    var reply := ForkAcquire(At(w, q), job.edge, job.intent.forkOffset, TypeSent(job), now).1;
    && reply.Acquired? && job.edge !in At(w, q).edges && job.edge !in home.intents
    && !(job.edge in home.releases && home.releases[job.edge] == Release(q, Some(reply.sourceGen)))
  }

  /** The step finds what it relies on: the records that the code does not look at again. */
  predicate Harmless(w: World, s: Step)
    requires Enabled(w, s)
  {
    match s
    case SendAcquire(j, now, _) => !AcquiresUnowned(w, j, now)
    case FinishRefused(j) =>
      var job := w.jobs[j];
      !(job.edge in At(w, job.path).intents && job.edge in At(w, job.intent.parent).edges)
    case CommitJob(j, _, _, _, _) =>
      if Commits(w, s) then w.jobs[j].edge in At(w, w.jobs[j].path).intents
      else !HasForkEdge(At(w, w.jobs[j].path), w.jobs[j].edge)
    case AbandonJob(j) => !HasForkEdge(At(w, w.jobs[j].path), w.jobs[j].edge)
    case DequeueRelease(d) =>
      var e := w.sends[d].edge;
      var queued := At(w, e.home).releases;
      !(e in queued && e in At(w, queued[e].parent).edges)
    case _ => true
  }

  /** A fork without its source, a fork whose edge is about to be released, or an edge that nobody owns. */
  ghost predicate Damaged(w: World) {
    || (exists p :: IsFork(w, p) && (!Pinned(w, p) || Fork(w, p).edge in At(w, p).releases))
    || (exists q, e :: e in At(w, q).edges && !HeldOk(w, q, e))
  }

  lemma SecureIsUndamaged(w: World)
    requires GraphOk(w)
    ensures !Damaged(w)
  {
    forall p | IsFork(w, p) ensures Pinned(w, p) && Fork(w, p).edge !in At(w, p).releases {
      assert Pinned(w, p) && LocalOk(p, At(w, p), w.next);
    }
    forall q, e | e in At(w, q).edges ensures HeldOk(w, q, e) {}
  }

  // -------------------------------------------------- one actor's tables change

  /** No new intent, no new fork. */
  ghost predicate WantsNoMore(t: Tables, u: Tables) {
    && (forall e :: e in u.intents ==> e in t.intents && u.intents[e] == t.intents[e])
    && (forall e :: HasForkEdge(u, e) ==> HasForkEdge(t, e) && u.meta.value.fork == t.meta.value.fork)
  }

  lemma JobStaysSecure(w: World, v: World, x: Path, job: Job)
    requires OnlyAt(w, v, x) && SourceSafe(w, v, x) && WantsNoMore(At(w, x), At(v, x)) && JobSecure(w, job)
    ensures JobSecure(v, job)
  {}

  /** What is in flight is not disturbed by a change that wants no more edges. */
  lemma VolatileStaysSecure(w: World, v: World, x: Path)
    requires Secure(w) && OnlyAt(w, v, x) && SourceSafe(w, v, x) && WantsNoMore(At(w, x), At(v, x))
    requires forall j :: j in v.jobs ==> j in w.jobs && v.jobs[j] == w.jobs[j]
    requires forall d :: d in v.sends ==> d in w.sends && v.sends[d] == w.sends[d]
    ensures VolatileSecure(v)
  {
    forall j | j in v.jobs ensures JobSecure(v, v.jobs[j]) { JobStaysSecure(w, v, x, w.jobs[j]); }
    forall d | d in v.sends ensures SendSecure(v, v.sends[d]) { assert SendSecure(w, w.sends[d]); }
  }

  lemma QuietSecure(w: World, v: World, x: Path)
    requires Secure(w) && OnlyAt(w, v, x) && Quiet(At(w, x), At(v, x)) && v.jobs == w.jobs && v.sends == w.sends
    ensures Secure(v)
  {
    QuietGraph(w, v, x);
    VolatileStaysSecure(w, v, x);
  }

  lemma RetireSecure(w: World, v: World, x: Path)
    requires Secure(w) && OnlyAt(w, v, x) && Exists(w, x) && At(v, x) == Retire(At(w, x))
    requires v.jobs == w.jobs && v.sends == w.sends
    ensures Secure(v)
  {
    if |At(w, x).edges| > 0 {
      QuietSecure(w, v, x);
    } else {
      PurgeGraph(w, v, x);
      VolatileStaysSecure(w, v, x);
    }
  }

  lemma VisibleSecure(w: World, v: World, x: Path, now: int)
    requires Secure(w) && OnlyAt(w, v, x) && At(v, x) == Visible(At(w, x), now)
    requires v.jobs == w.jobs && v.sends == w.sends
    ensures Secure(v)
  {
    if At(w, x) != At(v, x) {
      RetireSecure(w, v, x);
    } else {
      QuietSecure(w, v, x);
    }
  }

  /** Volatile state is lost or listed; no table changes. */
  lemma SameActorsSecure(w: World, v: World)
    requires Secure(w) && v.actors == w.actors && w.next <= v.next
    requires forall j :: j in v.jobs ==> (j in w.jobs && v.jobs[j] == w.jobs[j]) || JobSecure(w, v.jobs[j])
    requires forall d :: d in v.sends ==> (d in w.sends && v.sends[d] == w.sends[d]) || SendSecure(w, v.sends[d])
    ensures Secure(v)
  {
    SameActors(w, v);
    assert forall p :: At(v, p) == At(w, p);
    forall j | j in v.jobs ensures JobSecure(v, v.jobs[j]) { assert JobSecure(w, v.jobs[j]); }
    forall d | d in v.sends ensures SendSecure(v, v.sends[d]) { assert SendSecure(w, v.sends[d]); }
  }

  // ------------------------------------------------------------------ streams

  lemma PostSecure(w: World, s: Step)
    requires Secure(w) && s.PostStream?
    ensures Secure(Apply(w, s))
  {
    PostQuiet(At(w, s.path), s.request, s.now);
    LookedAtSecure(w, Apply(w, s), s.path, s.now);
  }

  lemma LookedAtSecure(w: World, v: World, x: Path, now: int)
    requires Secure(w) && OnlyAt(w, v, x) && v.jobs == w.jobs && v.sends == w.sends
    requires At(v, x) == At(w, x) || Quiet(Visible(At(w, x), now), At(v, x))
    ensures Secure(v)
  {
    if At(v, x) == At(w, x) {
      QuietSecure(w, v, x);
    } else {
      var seen := With(w, x, Visible(At(w, x), now));
      VisibleSecure(w, seen, x, now);
      QuietSecure(seen, v, x);
    }
  }

  lemma PutSecure(w: World, s: Step)
    requires Secure(w) && s.PutStream?
    ensures Secure(Apply(w, s))
  {
    var v, x := Apply(w, s), s.path;
    var seen := With(w, x, Visible(At(w, x), s.now));
    VisibleSecure(w, seen, x, s.now);
    if Exists(seen, x) {
      QuietSecure(seen, v, x);
    } else {
      CreateStreamShape(At(w, x), w.next, s.options, s.payload, s.now);
      FreshGraph(seen, v, x);
      VolatileStaysSecure(seen, v, x);
    }
  }

  lemma DeleteSecure(w: World, s: Step)
    requires Secure(w) && s.DeleteStream?
    ensures Secure(Apply(w, s))
  {
    var v, x := Apply(w, s), s.path;
    var seen := With(w, x, Visible(At(w, x), s.now));
    VisibleSecure(w, seen, x, s.now);
    if At(v, x) == At(seen, x) {
      QuietSecure(seen, v, x);
    } else {
      RetireSecure(seen, v, x);
    }
  }

  // --------------------------------------------------------------- beginnings

  lemma BeginForkSecure(w: World, s: Step)
    requires Secure(w) && Enabled(w, s) && s.BeginFork?
    ensures Secure(Apply(w, s))
  {
    var v, x := Apply(w, s), s.path;
    BeginForkGraph(w, s);
    forall j | j in v.jobs ensures JobSecure(v, v.jobs[j]) { BegunJobSecure(w, s, j); }
    forall d | d in v.sends ensures SendSecure(v, v.sends[d]) {
      assert SendSecure(w, w.sends[d]) && LocalOk(x, At(w, x), w.next);
    }
  }

  lemma BegunJobSecure(w: World, s: Step, j: nat)
    requires Secure(w) && Enabled(w, s) && s.BeginFork? && j in Apply(w, s).jobs
    ensures JobSecure(Apply(w, s), Apply(w, s).jobs[j])
  {
    assert LocalOk(s.path, At(w, s.path), w.next);
    if j != s.job {
      assert JobSecure(w, w.jobs[j]);
    }
  }

  lemma ListSecure(w: World, s: Step)
    requires Secure(w) && Enabled(w, s) && (s.BeginPass? || s.BeginFlush?)
    ensures Secure(Apply(w, s))
  {
    assert LocalOk(s.path, At(w, s.path), w.next);
    SameActorsSecure(w, Apply(w, s));
  }

  // ------------------------------------------------------------------ acquire

  /** The edge was held, or nothing was added: the source's answer is what it holds. */
  lemma AcquireSecure(w: World, s: Step)
    requires Secure(w) && Enabled(w, s) && s.SendAcquire? && Harmless(w, s)
    ensures Secure(Apply(w, s))
  {
    var job := w.jobs[s.job];
    var q := job.intent.parent;
    var (t, reply) := ForkAcquire(At(w, q), job.edge, job.intent.forkOffset, TypeSent(job), s.now);
    var held := With(w, q, t);
    AcquireShape(At(w, q), job.edge, job.intent.forkOffset, TypeSent(job), s.now);
    assert LocalOk(q, At(w, q), w.next);
    if job.edge in At(w, q).edges {
      QuietSecure(w, held, q);
    } else {
      AcquireNewSecure(w, s, held);
    }
    AnsweredSecure(held, s.job, reply, Apply(w, s));
  }

  lemma AcquireNewSecure(w: World, s: Step, held: World)
    requires Secure(w) && Enabled(w, s) && s.SendAcquire? && Harmless(w, s)
    requires var job := w.jobs[s.job]; var q := job.intent.parent;
             && job.edge !in At(w, q).edges
             && held == With(w, q, ForkAcquire(At(w, q), job.edge, job.intent.forkOffset, TypeSent(job), s.now).0)
    ensures Secure(held)
  {
    var job := w.jobs[s.job];
    var q, e := job.intent.parent, job.edge;
    var (t, reply) := ForkAcquire(At(w, q), e, job.intent.forkOffset, TypeSent(job), s.now);
    AcquireShape(At(w, q), e, job.intent.forkOffset, TypeSent(job), s.now);
    var seen := With(w, q, Visible(At(w, q), s.now));
    VisibleSecure(w, seen, q, s.now);
    if reply.Refused? {
      QuietSecure(seen, held, q);
    } else {
      AcquiredIsOwned(w, s, seen);
      EdgeAddedSecure(seen, held, q, e, reply.offset);
    }
  }

  lemma AcquiredIsOwned(w: World, s: Step, seen: World)
    requires Secure(w) && Enabled(w, s) && s.SendAcquire? && Harmless(w, s)
    requires var job := w.jobs[s.job]; var q := job.intent.parent;
             && job.edge !in At(w, q).edges && seen == With(w, q, Visible(At(w, q), s.now)) && Exists(seen, q)
             && var reply := ForkAcquire(At(w, q), job.edge, job.intent.forkOffset, TypeSent(job), s.now).1;
                reply.Acquired? && reply.sourceGen == Gen(seen, q)
    ensures var job := w.jobs[s.job]; var q := job.intent.parent;
            var reply := ForkAcquire(At(w, q), job.edge, job.intent.forkOffset, TypeSent(job), s.now).1;
            Responsible(At(seen, job.edge.home), job.edge, q, Gen(seen, q), reply.offset)
  {
    assert JobSecure(w, w.jobs[s.job]);
    VisibleKeepsRecords(At(w, w.jobs[s.job].intent.parent), s.now);
  }

  lemma EdgeAddedSecure(w: World, v: World, x: Path, e: EdgeId, offset: string)
    requires Secure(w) && OnlyAt(w, v, x) && Exists(w, x) && e !in At(w, x).edges
    requires At(v, x) == At(w, x).(edges := At(w, x).edges[e := offset])
    requires Responsible(At(w, e.home), e, x, Gen(w, x), offset)
    requires v.jobs == w.jobs && v.sends == w.sends
    ensures Secure(v)
  {
    AddedGraph(w, v, x, e, offset);
    VolatileStaysSecure(w, v, x);
  }

  /** A stream that stays when it is looked at keeps its duties. */
  lemma VisibleKeepsRecords(t: Tables, now: int)
    ensures var v := Visible(t, now); v.meta.Some? ==> v.intents == t.intents && v.releases == t.releases
  {}

  lemma AnsweredSecure(w: World, j: nat, reply: AcquireReply, v: World)
    requires Secure(w) && j in w.jobs && JobSecure(w, w.jobs[j]) && AnswerHolds(w, w.jobs[j].(reply := Some(reply)))
    requires v.actors == w.actors && v.sends == w.sends && v.next == w.next
    requires v.jobs == w.jobs - {j} || v.jobs == w.jobs[j := w.jobs[j].(reply := Some(reply))]
    ensures Secure(v)
  {
    assert JobSecure(w, w.jobs[j].(reply := Some(reply)));
    SameActorsSecure(w, v);
  }

  // --------------------------------------------------------------- settlement

  lemma RefusedSecure(w: World, s: Step)
    requires Secure(w) && Enabled(w, s) && s.FinishRefused? && Harmless(w, s)
    ensures Secure(Apply(w, s))
  {
    var v, job := Apply(w, s), w.jobs[s.job];
    var x := job.path;
    assert JobSecure(w, job) && LocalOk(x, At(w, x), w.next);
    forall q, e | e in At(w, q).edges && e.home == x
      ensures Exists(w, q) && Responsible(At(v, x), e, q, Gen(w, q), At(w, q).edges[e])
    {
      assert HeldOk(w, q, e);
    }
    DutiesGraph(w, v, x);
    VolatileStaysSecure(w, v, x);
  }

  /** The intent, if it is still there, becomes a release; and if not, a release of an unwanted edge is queued. */
  lemma AbandonSecure(w: World, v: World, j: nat)
    requires Secure(w) && GotAcquired(w, j) && !HasForkEdge(At(w, w.jobs[j].path), w.jobs[j].edge)
    requires OnlyAt(w, v, w.jobs[j].path) && At(v, w.jobs[j].path) == Abandoned(At(w, w.jobs[j].path), w.jobs[j])
    requires v.sends == w.sends && v.jobs == w.jobs - {j}
    ensures Secure(v)
  {
    var job := w.jobs[j];
    var x := job.path;
    assert JobSecure(w, job) && LocalOk(x, At(w, x), w.next);
    forall q, e | e in At(w, q).edges && e.home == x
      ensures Exists(w, q) && Responsible(At(v, x), e, q, Gen(w, q), At(w, q).edges[e])
    {
      assert HeldOk(w, q, e);
    }
    DutiesGraph(w, v, x);
    VolatileStaysSecure(w, v, x);
  }

  /** The intent is still there, so nothing has been queued for the edge, and the source holds it. */
  lemma CommitSecure(w: World, s: Step)
    requires Secure(w) && Enabled(w, s) && s.CommitJob? && Commits(w, s) && Harmless(w, s)
    ensures Secure(Apply(w, s))
  {
    var v, job := Apply(w, s), w.jobs[s.job];
    var x, fork := job.path, ForkOf(job, s.subOffset);
    assert JobSecure(w, job) && LocalOk(x, At(w, x), w.next);
    CommitForkShape(At(w, x), w.next, OptionsOf(job), fork, s.prefix, s.payload, s.now);
    ForkAppearsGraph(w, v, x, fork);
    forall j | j in v.jobs ensures JobSecure(v, v.jobs[j]) {
      assert JobSecure(w, w.jobs[j]);
    }
    forall d | d in v.sends ensures SendSecure(v, v.sends[d]) {
      assert SendSecure(w, w.sends[d]);
    }
  }

  // ------------------------------------------------------------------ release

  lemma ReleaseSecure(w: World, s: Step)
    requires Secure(w) && Enabled(w, s) && s.SendRelease?
    ensures Secure(Apply(w, s))
  {
    var send := w.sends[s.send];
    var e, q := send.edge, send.release.parent;
    var released := With(w, q, ForkRelease(At(w, q), e, send.release.sourceGen));
    assert SendSecure(w, send);
    if At(released, q) == At(w, q) {
      QuietSecure(w, released, q);
    } else {
      assert LocalOk(q, At(w, q), w.next);
      ReleasedShape(q, At(w, q), e, w.next);
      ReleasedGraph(w, released, q, e);
      ReleasedWants(At(w, q), e);
      VolatileStaysSecure(w, released, q);
    }
    assert SendSecure(released, send);
    SameActorsSecure(released, Apply(w, s));
  }

  lemma ReleasedWants(t: Tables, e: EdgeId)
    requires t.meta.Some? && e in t.edges
    ensures WantsNoMore(t, ForkRelease(t, e, Some(t.meta.value.gen)))
  {}

  lemma DequeueSecure(w: World, s: Step)
    requires Secure(w) && Enabled(w, s) && s.DequeueRelease? && Harmless(w, s)
    ensures Secure(Apply(w, s))
  {
    var v, e := Apply(w, s), w.sends[s.send].edge;
    var x := e.home;
    assert SendSecure(w, w.sends[s.send]) && LocalOk(x, At(w, x), w.next);
    forall q, d | d in At(w, q).edges && d.home == x
      ensures Exists(w, q) && Responsible(At(v, x), d, q, Gen(w, q), At(w, q).edges[d])
    {
      assert HeldOk(w, q, d);
    }
    DutiesGraph(w, v, x);
    VolatileStaysSecure(w, v, x);
  }

  // ------------------------------------------------------------- the theorem

  lemma HarmlessStepIsSecure(w: World, s: Step)
    requires Secure(w) && Enabled(w, s) && Harmless(w, s)
    ensures Secure(Apply(w, s))
  {
    match s {
      case BeginFork(_, _, _, _, _, _) => BeginForkSecure(w, s);
      case BeginPass(_, _) => ListSecure(w, s);
      case SendAcquire(_, _, _) => AcquireSecure(w, s);
      case FinishRefused(_) => RefusedSecure(w, s);
      case CommitJob(j, _, _, _, _) =>
        if Commits(w, s) {
          CommitSecure(w, s);
        } else {
          AbandonSecure(w, Apply(w, s), j);
        }
      case AbandonJob(j) => AbandonSecure(w, Apply(w, s), j);
      case DropJob(_) => SameActorsSecure(w, Apply(w, s));
      case BeginFlush(_, _) => ListSecure(w, s);
      case SendRelease(_, _) => ReleaseSecure(w, s);
      case DequeueRelease(_) => DequeueSecure(w, s);
      case DropSend(_) => SameActorsSecure(w, Apply(w, s));
      case _ => StreamStepSecure(w, s);
    }
  }

  lemma StreamStepSecure(w: World, s: Step)
    requires Secure(w) && (s.DeleteStream? || s.ExpireStream? || s.PutStream? || s.PostStream? || s.TouchStream?)
    ensures Secure(Apply(w, s))
  {
    match s {
      case DeleteStream(_, _) => DeleteSecure(w, s);
      case ExpireStream(p, now) => VisibleSecure(w, Apply(w, s), p, now);
      case PutStream(_, _, _, _) => PutSecure(w, s);
      case PostStream(_, _, _) => PostSecure(w, s);
      case TouchStream(p, _) => QuietSecure(w, Apply(w, s), p);
    }
  }

  /** An edge that its home does not speak for is held by nobody's leave. */
  lemma Unowned(w: World, q: Path, e: EdgeId)
    requires e in At(w, q).edges && !Wanted(At(w, e.home), e)
    requires e in At(w, e.home).releases ==> !Exists(w, q) || At(w, e.home).releases[e] != Release(q, Some(Gen(w, q)))
    ensures Damaged(w)
  {
    assert !HeldOk(w, q, e);
  }

  lemma UnownedAcquireDamages(w: World, s: Step)
    requires Secure(w) && Enabled(w, s) && s.SendAcquire? && !Harmless(w, s)
    ensures Damaged(Apply(w, s))
  {
    var job := w.jobs[s.job];
    var q, e := job.intent.parent, job.edge;
    var v := Apply(w, s);
    assert JobSecure(w, job);
    AcquireShape(At(w, q), e, job.intent.forkOffset, TypeSent(job), s.now);
    VisibleKeepsRecords(At(w, q), s.now);
    assert HasForkEdge(At(w, e.home), e) ==> Pinned(w, e.home);
    Unowned(v, q, e);
  }

  lemma RefusedDamages(w: World, s: Step)
    requires Secure(w) && Enabled(w, s) && s.FinishRefused? && !Harmless(w, s)
    ensures Damaged(Apply(w, s))
  {
    var job := w.jobs[s.job];
    assert JobSecure(w, job) && LocalOk(job.path, At(w, job.path), w.next);
    assert At(Apply(w, s), job.intent.parent).edges == At(w, job.intent.parent).edges;
    Unowned(Apply(w, s), job.intent.parent, job.edge);
  }

  /** The intent is gone: its edge is queued for release, or is not held any more. */
  lemma CommitDamages(w: World, s: Step)
    requires Secure(w) && Enabled(w, s) && s.CommitJob? && Commits(w, s) && !Harmless(w, s)
    ensures Damaged(Apply(w, s))
  {
    var v, job := Apply(w, s), w.jobs[s.job];
    var x, e, q := job.path, job.edge, job.intent.parent;
    assert JobSecure(w, job);
    CommitForkShape(At(w, x), w.next, OptionsOf(job), ForkOf(job, s.subOffset), s.prefix, s.payload, s.now);
    assert IsFork(v, x) && Fork(v, x).edge == e && Fork(v, x).parent == q;
    if e !in At(v, x).releases {
      assert e in At(w, q).edges ==> HeldOk(w, q, e);
      assert At(v, q).edges == At(w, q).edges;
      assert !Pinned(v, x);
    }
  }

  lemma AbandonDamages(w: World, v: World, j: nat)
    requires GotAcquired(w, j) && HasForkEdge(At(w, w.jobs[j].path), w.jobs[j].edge)
    requires At(v, w.jobs[j].path) == Abandoned(At(w, w.jobs[j].path), w.jobs[j])
    ensures Damaged(v)
  {
    var x := w.jobs[j].path;
    assert IsFork(v, x) && Fork(v, x).edge in At(v, x).releases;
  }

  lemma DequeueDamages(w: World, s: Step)
    requires Secure(w) && Enabled(w, s) && s.DequeueRelease? && !Harmless(w, s)
    ensures Damaged(Apply(w, s))
  {
    var e := w.sends[s.send].edge;
    var q := At(w, e.home).releases[e].parent;
    assert SendSecure(w, w.sends[s.send]);
    assert At(Apply(w, s), q).edges == At(w, q).edges;
    Unowned(Apply(w, s), q, e);
  }

  lemma HarmfulStepDamages(w: World, s: Step)
    requires Secure(w) && Enabled(w, s) && !Harmless(w, s)
    ensures Damaged(Apply(w, s))
  {
    match s {
      case SendAcquire(_, _, _) => UnownedAcquireDamages(w, s);
      case FinishRefused(_) => RefusedDamages(w, s);
      case CommitJob(j, _, _, _, _) =>
        if Commits(w, s) {
          CommitDamages(w, s);
        } else {
          AbandonDamages(w, Apply(w, s), j);
        }
      case AbandonJob(j) => AbandonDamages(w, Apply(w, s), j);
      case DequeueRelease(_) => DequeueDamages(w, s);
    }
  }

  /**
   For every step, serialised or not: the invariant is kept if and only if the step is
   harmless, and if it is not, a fork has lost its pin, is about to, or an edge has lost
   its owner.
   */
  lemma StepHarmsIff(w: World, s: Step)
    requires Secure(w) && Enabled(w, s)
    ensures Secure(Apply(w, s)) <==> Harmless(w, s)
    ensures Damaged(Apply(w, s)) <==> !Harmless(w, s)
  {
    if Harmless(w, s) {
      HarmlessStepIsSecure(w, s);
      SecureIsUndamaged(Apply(w, s));
    } else {
      HarmfulStepDamages(w, s);
      if GraphOk(Apply(w, s)) {
        SecureIsUndamaged(Apply(w, s));
      }
    }
  }

  predicate HarmlessAt(run: seq<World>, steps: seq<Step>, i: nat)
    requires i < |steps| < |run|
  {
    Enabled(run[i], steps[i]) && Harmless(run[i], steps[i])
  }

  lemma {:induction false} SecureSoFar(run: seq<World>, steps: seq<Step>, n: nat)
    requires Run(run, steps) && Secure(run[0]) && n < |run|
    requires forall i :: 0 <= i < n ==> HarmlessAt(run, steps, i)
    ensures Secure(run[n])
  {
    if n > 0 {
      SecureSoFar(run, steps, n - 1);
      assert FollowsAt(run, steps, n - 1) && HarmlessAt(run, steps, n - 1);
      StepHarmsIff(run[n - 1], steps[n - 1]);
    }
  }

  /** Over whole runs, whatever overlaps: no damage is ever done if and only if every step is harmless. */
  lemma RunHarmsIff(run: seq<World>, steps: seq<Step>)
    requires Run(run, steps) && Init(run[0])
    ensures (forall i :: 0 <= i < |run| ==> !Damaged(run[i]))
            <==> (forall i :: 0 <= i < |steps| ==> HarmlessAt(run, steps, i))
  {
    if forall i :: 0 <= i < |steps| ==> HarmlessAt(run, steps, i) {
      forall i | 0 <= i < |run| ensures !Damaged(run[i]) {
        SecureSoFar(run, steps, i);
        SecureIsUndamaged(run[i]);
      }
    } else {
      var n := FirstHarm(run, steps, |steps|);
      SecureSoFar(run, steps, n);
      assert FollowsAt(run, steps, n);
      StepHarmsIff(run[n], steps[n]);
    }
  }

  lemma {:induction false} FirstHarm(run: seq<World>, steps: seq<Step>, m: nat) returns (n: nat)
    requires Run(run, steps) && m <= |steps| && exists i :: 0 <= i < m && !HarmlessAt(run, steps, i)
    ensures n < m && !HarmlessAt(run, steps, n) && forall i :: 0 <= i < n ==> HarmlessAt(run, steps, i)
    decreases m
  {
    if exists i :: 0 <= i < m - 1 && !HarmlessAt(run, steps, i) {
      n := FirstHarm(run, steps, m - 1);
    } else {
      n := m - 1;
    }
  }

  // ------------------------------------------------------- what damage leads to

  /** Flushing a release for the edge of an existing fork takes the fork's pin away. */
  lemma FlushUnpins(w: World, p: Path, e: EdgeId, d: nat)
    requires HasForkEdge(At(w, p), e) && Pinned(w, p) && p != Fork(w, p).parent && d !in w.sends
    requires e in At(w, p).releases && At(w, p).releases[e] == Release(Fork(w, p).parent, Some(Fork(w, p).sourceGen))
    ensures Enabled(w, BeginFlush(p, map[d := e]))
    ensures var v := Apply(Apply(w, BeginFlush(p, map[d := e])), SendRelease(d, true)); IsFork(v, p) && !Pinned(v, p)
  {
    var w1 := Apply(w, BeginFlush(p, map[d := e]));
    assert w1.sends[d] == Send(e, At(w, p).releases[e], false);
    var v := Apply(w1, SendRelease(d, true));
    assert At(v, p).meta == At(w, p).meta && e !in At(v, Fork(w, p).parent).edges;
  }

  /** After a harmful last transaction of a pass or a creation, the fork is unpinned at once or by the next flush. */
  lemma HarmUnpins(w: World, s: Step, d: nat)
    requires Secure(w) && Enabled(w, s) && (s.CommitJob? || s.AbandonJob?) && !Harmless(w, s) && d !in w.sends
    ensures var p, e := w.jobs[s.job].path, w.jobs[s.job].edge; var v := Apply(w, s);
            && IsFork(v, p)
            && (Pinned(v, p) ==>
                  && Enabled(v, BeginFlush(p, map[d := e]))
                  && var x := Apply(Apply(v, BeginFlush(p, map[d := e])), SendRelease(d, true));
                     IsFork(x, p) && !Pinned(x, p))
  {
    var job, v := w.jobs[s.job], Apply(w, s);
    assert JobSecure(w, job) && LocalOk(job.path, At(w, job.path), w.next);
    if s.CommitJob? && Commits(w, s) {
      CommittedUnwanted(w, s);
    } else {
      AbandonedFork(w, v, s.job);
    }
    if Pinned(v, job.path) {
      FlushUnpins(v, job.path, job.edge, d);
    }
  }

  lemma CommittedUnwanted(w: World, s: Step)
    requires Secure(w) && Enabled(w, s) && s.CommitJob? && Commits(w, s) && !Harmless(w, s)
    ensures var p, e := w.jobs[s.job].path, w.jobs[s.job].edge; var v := Apply(w, s);
            && HasForkEdge(At(v, p), e)
            && (Pinned(v, p) ==>
                  && p != Fork(v, p).parent && e in At(v, p).releases
                  && At(v, p).releases[e] == Release(Fork(v, p).parent, Some(Fork(v, p).sourceGen)))
  {
    var v, job := Apply(w, s), w.jobs[s.job];
    var x, e, q := job.path, job.edge, job.intent.parent;
    assert JobSecure(w, job) && LocalOk(x, At(w, x), w.next);
    CommitForkShape(At(w, x), w.next, OptionsOf(job), ForkOf(job, s.subOffset), s.prefix, s.payload, s.now);
    if Pinned(v, x) {
      assert At(v, q).edges == At(w, q).edges;
      assert HeldOk(w, q, e);
    }
  }

  lemma AbandonedFork(w: World, v: World, j: nat)
    requires Secure(w) && GotAcquired(w, j) && HasForkEdge(At(w, w.jobs[j].path), w.jobs[j].edge)
    requires OnlyAt(w, v, w.jobs[j].path) && At(v, w.jobs[j].path) == Abandoned(At(w, w.jobs[j].path), w.jobs[j])
    ensures var p, e := w.jobs[j].path, w.jobs[j].edge;
            && HasForkEdge(At(v, p), e) && p != Fork(v, p).parent && e in At(v, p).releases
            && At(v, p).releases[e] == Release(Fork(v, p).parent, Some(Fork(v, p).sourceGen))
  {
    var job := w.jobs[j];
    assert JobSecure(w, job) && LocalOk(job.path, At(w, job.path), w.next) && Pinned(w, job.path);
  }

  // ---------------------------------------------- the checks the code leaves out

  /** The intent row is still there when a pass or a creation makes its last transaction. */
  predicate StillIntended(w: World, s: Step)
    requires Enabled(w, s)
  {
    (s.CommitJob? || s.AbandonJob?) ==> w.jobs[s.job].edge in At(w, w.jobs[s.job].path).intents
  }

  /**
   Looking at the intent row in the last transaction would be enough for those
   transactions; and for one that makes a fork exist, nothing less is.
   */
  lemma IntendedIsHarmless(w: World, s: Step)
    requires Secure(w) && Enabled(w, s) && (s.CommitJob? || s.AbandonJob?)
    ensures StillIntended(w, s) ==> Harmless(w, s)
    ensures s.CommitJob? && Commits(w, s) ==> (Harmless(w, s) <==> StillIntended(w, s))
  {
    assert LocalOk(w.jobs[s.job].path, At(w, w.jobs[s.job].path), w.next);
  }

  lemma GuardedIsSecure(w: World)
    requires Inv(w)
    ensures Secure(w)
  {
    forall j | j in w.jobs ensures JobSecure(w, w.jobs[j]) {
      assert JobOk(w, w.jobs[j]) && LocalOk(w.jobs[j].path, At(w, w.jobs[j].path), w.next);
    }
    forall d | d in w.sends ensures SendSecure(w, w.sends[d]) {
      var e := w.sends[d].edge;
      assert SendOk(w, w.sends[d]) && LocalOk(e.home, At(w, e.home), w.next);
    }
  }

  /** The guard makes every step harmless. */
  lemma GuardedIsHarmless(w: World, s: Step)
    requires Inv(w) && Enabled(w, s) && Serialised(w, s)
    ensures Harmless(w, s)
  {
    GuardedIsSecure(w);
    StepKeepsInv(w, s);
    GuardedIsSecure(Apply(w, s));
    StepHarmsIff(w, s);
  }
}
