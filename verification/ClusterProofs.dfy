/** Every serialised step of the fork protocol keeps the invariant. */
module ClusterProofs {
  import opened Options
  import opened Offsets
  import opened Tables
  import opened Cluster

  // ------------------------------------------- one actor's tables change

  ghost predicate OnlyAt(w: World, v: World, x: Path) {
    && (forall p :: p != x ==> At(v, p) == At(w, p))
    && w.next <= v.next
  }

  /** The source keeps this edge under the same generation. */
  predicate KeepsEdge(t: Tables, u: Tables, e: EdgeId)
    requires e in t.edges
  {
    t.meta.Some? && u.meta.Some? && u.meta.value.gen == t.meta.value.gen && e in u.edges && u.edges[e] == t.edges[e]
  }

  /** A source gives up an edge only when neither an intent nor a fork relies on it. */
  ghost predicate SourceSafe(w: World, v: World, x: Path) {
    forall e :: e in At(w, x).edges ==>
      || KeepsEdge(At(w, x), At(v, x), e)
      || (e !in At(v, e.home).intents && !HasForkEdge(At(v, e.home), e))
  }

  lemma GraphKept(w: World, v: World, x: Path)
    requires GraphOk(w) && OnlyAt(w, v, x) && SourceSafe(w, v, x)
    requires LocalOk(x, At(v, x), v.next)
    requires forall e :: e in At(v, x).edges ==> HeldOk(v, x, e)
    requires forall q, e :: q != x && e in At(w, q).edges && e.home == x ==> HeldOk(v, q, e)
    requires IsFork(v, x) ==> Pinned(v, x)
    ensures GraphOk(v)
  {
    forall p ensures LocalOk(p, At(v, p), v.next) {
      assert LocalOk(p, At(w, p), w.next);
    }
    forall q, e | e in At(v, q).edges ensures HeldOk(v, q, e) {
      if q != x {
        assert HeldOk(w, q, e);
      }
    }
    forall p | IsFork(v, p) ensures Pinned(v, p) {
      if p != x {
        assert Pinned(w, p) && LocalOk(p, At(w, p), w.next);
      }
    }
  }

  /** An in-flight job is not disturbed. */
  lemma JobKept(w: World, v: World, x: Path, job: Job)
    requires Inv(w) && OnlyAt(w, v, x) && SourceSafe(w, v, x) && JobOk(w, job)
    requires job.path == x ==> job.edge in At(v, x).intents && At(v, x).intents[job.edge] == job.intent
    requires At(v, x).edges.Keys <= At(w, x).edges.Keys
    ensures JobOk(v, job)
  {
    assert LocalOk(job.path, At(w, job.path), w.next);
    assert job.edge in At(v, job.edge.home).intents;
    if job.reply.Some? && job.reply.value.Refused? {
      assert Unheld(w, job.edge);
      assert Unheld(v, job.edge);
    }
  }

  lemma DeadKept(w: World, v: World, x: Path, e: EdgeId)
    requires OnlyAt(w, v, x) && Dead(w, e)
    requires At(v, x).edges.Keys <= At(w, x).edges.Keys
    requires e in At(v, x).intents ==> e in At(w, x).intents
    requires HasForkEdge(At(v, x), e) ==> HasForkEdge(At(w, x), e)
    ensures Dead(v, e)
  {}

  /** Queued releases stay queued, unless their edge is dead. */
  ghost predicate ReleasesKept(w: World, v: World, x: Path) {
    var before, after := At(w, x).releases, At(v, x).releases;
    forall e :: e in before && !Dead(w, e) ==> e in after && after[e] == before[e]
  }

  lemma SendKept(w: World, v: World, x: Path, send: Send)
    requires Inv(w) && OnlyAt(w, v, x) && SendOk(w, send) && ReleasesKept(w, v, x)
    requires At(v, x).edges.Keys <= At(w, x).edges.Keys && At(v, x).intents.Keys <= At(w, x).intents.Keys
    requires forall e :: HasForkEdge(At(v, x), e) ==> HasForkEdge(At(w, x), e) || e in At(w, x).intents
    ensures SendOk(v, send)
  {
    if Dead(w, send.edge) {
      assert LocalOk(x, At(w, x), w.next);
      DeadKept(w, v, x, send.edge);
    }
  }

  /** Jobs and sends that remain are not disturbed by a change that records no new intent. */
  lemma VolatileKept(w: World, v: World, x: Path)
    requires Inv(w) && OnlyAt(w, v, x) && SourceSafe(w, v, x)
    requires forall j :: j in v.jobs ==> j in w.jobs && v.jobs[j] == w.jobs[j]
    requires forall j :: j in v.jobs && v.jobs[j].path == x ==>
               v.jobs[j].edge in At(v, x).intents && At(v, x).intents[v.jobs[j].edge] == v.jobs[j].intent
    requires forall d :: d in v.sends ==> d in w.sends && v.sends[d] == w.sends[d]
    requires At(v, x).edges.Keys <= At(w, x).edges.Keys && At(v, x).intents.Keys <= At(w, x).intents.Keys
    requires forall e :: HasForkEdge(At(v, x), e) ==> HasForkEdge(At(w, x), e) || e in At(w, x).intents
    requires ReleasesKept(w, v, x)
    ensures JobsOk(v) && SendsOk(v)
  {
    forall j | j in v.jobs ensures JobOk(v, v.jobs[j]) { JobKept(w, v, x, w.jobs[j]); }
    forall d | d in v.sends ensures SendOk(v, v.sends[d]) { SendKept(w, v, x, w.sends[d]); }
  }

  // ---------------------------------------------------- kinds of changes

  /** Nothing the protocol looks at changes, except that a pinned stream may become soft-deleted. */
  predicate Quiet(t: Tables, u: Tables) {
    && u.edges == t.edges && u.intents == t.intents && u.releases == t.releases
    && (t.meta.None? ==> u == t)
    && (t.meta.Some? ==>
          && u.meta.Some?
          && u.meta.value.gen == t.meta.value.gen && u.meta.value.fork == t.meta.value.fork
          && (u.meta.value.softDeleted ==> t.meta.value.softDeleted || t.edges != map[]))
  }

  lemma QuietGraph(w: World, v: World, x: Path)
    requires GraphOk(w) && OnlyAt(w, v, x) && Quiet(At(w, x), At(v, x))
    ensures GraphOk(v) && SourceSafe(w, v, x)
  {
    assert LocalOk(x, At(w, x), w.next);
    forall e | e in At(v, x).edges ensures HeldOk(v, x, e) { assert HeldOk(w, x, e); }
    forall q, e | q != x && e in At(w, q).edges && e.home == x ensures HeldOk(v, q, e) { assert HeldOk(w, q, e); }
    if IsFork(v, x) {
      assert Pinned(w, x);
    }
    assert forall e :: e in At(w, x).edges ==> HeldOk(w, x, e);
    GraphKept(w, v, x);
  }

  lemma QuietKept(w: World, v: World, x: Path)
    requires Inv(w) && OnlyAt(w, v, x) && Quiet(At(w, x), At(v, x))
    requires v.jobs == w.jobs && v.sends == w.sends
    ensures Inv(v)
  {
    QuietGraph(w, v, x);
    forall j | j in v.jobs ensures v.jobs[j].path == x ==>
               v.jobs[j].edge in At(v, x).intents && At(v, x).intents[v.jobs[j].edge] == v.jobs[j].intent
    {
      assert JobOk(w, w.jobs[j]);
    }
    VolatileKept(w, v, x);
  }

  /** A stream without edges disappears; its own fork edge becomes a queued release. */
  lemma PurgeGraph(w: World, v: World, x: Path)
    requires GraphOk(w) && OnlyAt(w, v, x) && Exists(w, x) && At(w, x).edges == map[]
    requires At(v, x) == PurgeStream(At(w, x))
    ensures GraphOk(v) && SourceSafe(w, v, x)
  {
    var t := At(w, x);
    assert LocalOk(x, t, w.next);
    PurgeLocal(x, t, w.next);
    forall q, e | q != x && e in At(w, q).edges && e.home == x ensures HeldOk(v, q, e) {
      assert HeldOk(w, q, e);
      PurgeResponsible(x, t, w.next, e, q, Gen(w, q), At(w, q).edges[e]);
    }
    GraphKept(w, v, x);
  }

  lemma PurgeKept(w: World, v: World, x: Path)
    requires Inv(w) && OnlyAt(w, v, x) && Exists(w, x) && At(w, x).edges == map[]
    requires At(v, x) == PurgeStream(At(w, x))
    requires v.jobs == w.jobs && v.sends == w.sends
    ensures Inv(v)
  {
    PurgeGraph(w, v, x);
    var u := At(v, x);
    assert LocalOk(x, At(w, x), w.next);
    forall j | j in v.jobs ensures v.jobs[j].path == x ==>
               v.jobs[j].edge in u.intents && u.intents[v.jobs[j].edge] == v.jobs[j].intent
    {
      assert JobOk(w, w.jobs[j]);
    }
    VolatileKept(w, v, x);
  }

  lemma PurgeLocal(x: Path, t: Tables, next: nat)
    requires LocalOk(x, t, next) && t.meta.Some?
    ensures LocalOk(x, PurgeStream(t), next)
  {}

  lemma PurgeResponsible(x: Path, t: Tables, next: nat, e: EdgeId, q: Path, gen: nat, offset: string)
    requires LocalOk(x, t, next) && t.meta.Some? && Responsible(t, e, q, gen, offset)
    ensures Responsible(PurgeStream(t), e, q, gen, offset)
  {}

  lemma BeginForkGraph(w: World, s: Step)
    requires GraphOk(w) && Enabled(w, s) && s.BeginFork?
    ensures GraphOk(Apply(w, s)) && SourceSafe(w, Apply(w, s), s.path)
    ensures At(Apply(w, s), s.path).intents[s.edge] == Intent(s.parent, s.forkOffset)
  {
    var v, x := Apply(w, s), s.path;
    assert LocalOk(x, At(w, x), w.next);
    forall q, d | q != x && d in At(w, q).edges && d.home == x ensures HeldOk(v, q, d) { assert HeldOk(w, q, d); }
    GraphKept(w, v, x);
  }

  /** A new duty, persisted before the source is asked. */
  lemma BeginForkKept(w: World, s: Step)
    requires Inv(w) && Enabled(w, s) && Serialised(w, s) && s.BeginFork?
    ensures Inv(Apply(w, s))
  {
    var v, x := Apply(w, s), s.path;
    BeginForkGraph(w, s);
    assert LocalOk(x, At(w, x), w.next);
    assert JobOk(v, v.jobs[s.job]);
    forall j | j in v.jobs && j != s.job ensures JobOk(v, v.jobs[j]) { JobKept(w, v, x, w.jobs[j]); }
    forall d | d in v.sends ensures SendOk(v, v.sends[d]) {
      assert SendOk(w, w.sends[d]);
      if Dead(w, w.sends[d].edge) {
        DeadKept(w, v, x, w.sends[d].edge);
      }
    }
  }

  lemma BeginPassKept(w: World, s: Step)
    requires Inv(w) && Enabled(w, s) && Serialised(w, s) && s.BeginPass?
    ensures Inv(Apply(w, s))
  {
    var v := Apply(w, s);
    SameActors(w, v);
    forall j | j in v.jobs ensures JobOk(v, v.jobs[j]) {
      if j in w.jobs {
        SameJob(w, v, w.jobs[j]);
      }
    }
    ListedJobsDiffer(w, s);
    forall d | d in v.sends ensures SendOk(v, v.sends[d]) { SameSend(w, v, w.sends[d]); }
  }

  lemma ListedJobsDiffer(w: World, s: Step)
    requires JobsOk(w) && Enabled(w, s) && Serialised(w, s) && s.BeginPass?
    ensures var jobs := Apply(w, s).jobs;
            forall j, k :: j in jobs && k in jobs && j != k ==> jobs[j].edge != jobs[k].edge
  {
    var jobs := Apply(w, s).jobs;
    forall j | j in jobs && j !in w.jobs ensures j in s.listed && !Busy(w, jobs[j].edge) {}
  }

  lemma BeginFlushKept(w: World, s: Step)
    requires Inv(w) && Enabled(w, s) && s.BeginFlush?
    ensures Inv(Apply(w, s))
  {
    var v := Apply(w, s);
    SameActors(w, v);
    forall j | j in v.jobs ensures JobOk(v, v.jobs[j]) { SameJob(w, v, w.jobs[j]); }
    assert LocalOk(s.path, At(w, s.path), w.next);
    forall d | d in v.sends ensures SendOk(v, v.sends[d]) {
      if d in w.sends {
        SameSend(w, v, w.sends[d]);
      }
    }
  }

  lemma SameActors(w: World, v: World)
    requires GraphOk(w) && v.actors == w.actors && w.next <= v.next
    ensures GraphOk(v)
  {
    forall p ensures At(v, p) == At(w, p) && LocalOk(p, At(v, p), v.next) { assert LocalOk(p, At(w, p), w.next); }
    forall q, e | e in At(v, q).edges ensures HeldOk(v, q, e) { assert HeldOk(w, q, e); }
    forall p | IsFork(v, p) ensures Pinned(v, p) { assert Pinned(w, p); }
  }

  lemma SameHolders(w: World, v: World, e: EdgeId)
    requires v.actors == w.actors
    ensures Unheld(w, e) <==> Unheld(v, e)
  {
    assert forall q :: At(v, q) == At(w, q);
  }

  lemma SameJob(w: World, v: World, job: Job)
    requires v.actors == w.actors && JobOk(w, job)
    ensures JobOk(v, job)
  {
    SameHolders(w, v, job.edge);
  }

  lemma SameSend(w: World, v: World, send: Send)
    requires v.actors == w.actors && w.next <= v.next && SendOk(w, send)
    ensures SendOk(v, send)
  {
    SameHolders(w, v, send.edge);
  }

  /** Losing volatile state never hurts. */
  lemma ForgettingKept(w: World, v: World)
    requires Inv(w) && v.actors == w.actors && v.next == w.next
    requires forall j :: j in v.jobs ==> j in w.jobs && v.jobs[j] == w.jobs[j]
    requires forall d :: d in v.sends ==> d in w.sends && v.sends[d] == w.sends[d]
    ensures Inv(v)
  {
    SameActors(w, v);
    forall j | j in v.jobs ensures JobOk(v, v.jobs[j]) { SameJob(w, v, w.jobs[j]); }
    forall d | d in v.sends ensures SendOk(v, v.sends[d]) { SameSend(w, v, w.sends[d]); }
  }

  /** A recorded intent can be held only at the source it names. */
  lemma IntentHeldAtItsSource(w: World, p: Path, e: EdgeId, q: Path)
    requires GraphOk(w) && e in At(w, p).intents && e in At(w, q).edges
    ensures At(w, p).intents[e].parent == q
  {
    assert LocalOk(p, At(w, p), w.next);
    assert HeldOk(w, q, e);
  }

  lemma DutiesGraph(w: World, v: World, x: Path)
    requires GraphOk(w) && OnlyAt(w, v, x) && LocalOk(x, At(v, x), v.next)
    requires At(v, x).edges == At(w, x).edges && At(v, x).meta == At(w, x).meta
    requires forall q, e :: e in At(w, q).edges && e.home == x ==>
               Exists(w, q) && Responsible(At(v, x), e, q, Gen(w, q), At(w, q).edges[e])
    ensures GraphOk(v) && SourceSafe(w, v, x)
  {
    assert LocalOk(x, At(w, x), w.next);
    forall e | e in At(v, x).edges ensures HeldOk(v, x, e) { assert HeldOk(w, x, e); }
    forall q, e | q != x && e in At(w, q).edges && e.home == x ensures HeldOk(v, q, e) { assert HeldOk(w, q, e); }
    if IsFork(v, x) {
      assert Pinned(w, x);
    }
    GraphKept(w, v, x);
  }

  /** Duties move at one actor while its stream and its edges stay. */
  lemma DutiesKept(w: World, v: World, x: Path)
    requires Inv(w) && OnlyAt(w, v, x) && LocalOk(x, At(v, x), v.next)
    requires At(v, x).edges == At(w, x).edges && At(v, x).meta == At(w, x).meta
    requires At(v, x).intents.Keys <= At(w, x).intents.Keys
    requires forall q, e :: e in At(w, q).edges && e.home == x ==>
               Exists(w, q) && Responsible(At(v, x), e, q, Gen(w, q), At(w, q).edges[e])
    requires forall d :: d in v.sends ==> d in w.sends && v.sends[d] == w.sends[d]
    requires ReleasesKept(w, v, x)
    requires forall j :: j in v.jobs ==> j in w.jobs && v.jobs[j] == w.jobs[j]
    requires forall j :: j in v.jobs && v.jobs[j].path == x ==>
               v.jobs[j].edge in At(v, x).intents && At(v, x).intents[v.jobs[j].edge] == v.jobs[j].intent
    ensures Inv(v)
  {
    DutiesGraph(w, v, x);
    VolatileKept(w, v, x);
  }

  /** An intent leaves either because nothing holds its edge, or by becoming a release or a fork. */
  lemma FinishRefusedKept(w: World, s: Step)
    requires Inv(w) && Enabled(w, s) && s.FinishRefused?
    ensures Inv(Apply(w, s))
  {
    var v, job := Apply(w, s), w.jobs[s.job];
    var x := job.path;
    assert JobOk(w, job) && LocalOk(x, At(w, x), w.next);
    assert Unheld(w, job.edge);
    forall q, e | e in At(w, q).edges && e.home == x
      ensures Exists(w, q) && Responsible(At(v, x), e, q, Gen(w, q), At(w, q).edges[e])
    {
      assert HeldOk(w, q, e);
    }
    forall k | k in v.jobs && v.jobs[k].path == x
      ensures v.jobs[k].edge in At(v, x).intents && At(v, x).intents[v.jobs[k].edge] == v.jobs[k].intent
    {
      assert JobOk(w, w.jobs[k]);
    }
    DutiesKept(w, v, x);
  }

  lemma AbandonKept(w: World, v: World, j: nat)
    requires Inv(w) && GotAcquired(w, j) && w.next <= v.next
    requires OnlyAt(w, v, w.jobs[j].path) && v.sends == w.sends && v.jobs == w.jobs - {j}
    requires At(v, w.jobs[j].path) == Abandoned(At(w, w.jobs[j].path), w.jobs[j])
    ensures Inv(v)
  {
    var job := w.jobs[j];
    var x := job.path;
    assert JobOk(w, job) && LocalOk(x, At(w, x), w.next);
    AbandonLocal(x, At(w, x), job, w.next, v.next);
    forall q, e | e in At(w, q).edges && e.home == x
      ensures Exists(w, q) && Responsible(At(v, x), e, q, Gen(w, q), At(w, q).edges[e])
    {
      assert HeldOk(w, q, e);
      if e == job.edge {
        IntentHeldAtItsSource(w, x, e, q);
      }
    }
    forall k | k in v.jobs && v.jobs[k].path == x
      ensures v.jobs[k].edge in At(v, x).intents && At(v, x).intents[v.jobs[k].edge] == v.jobs[k].intent
    {
      assert JobOk(w, w.jobs[k]);
    }
    DutiesKept(w, v, x);
  }

  lemma AbandonLocal(x: Path, t: Tables, job: Job, next: nat, later: nat)
    requires LocalOk(x, t, next) && next <= later && job.edge in t.intents
    requires job.reply.Some? && job.reply.value.Acquired?
    ensures LocalOk(x, Abandoned(t, job), later)
    ensures Abandoned(t, job) == t.(intents := t.intents - {job.edge},
              releases := t.releases[job.edge := Release(job.intent.parent, Some(job.reply.value.sourceGen))])
  {}

  // ------------------------------------------------------------- creation

  /** What an append leaves alone. */
  predicate SameButLog(t: Tables, u: Tables)
    requires t.meta.Some?
  {
    && u.meta.Some? && u.meta.value.gen == t.meta.value.gen && u.meta.value.fork == t.meta.value.fork
    && u.meta.value.softDeleted == t.meta.value.softDeleted
    && u.edges == t.edges && u.releases == t.releases && u.intents == t.intents
  }

  lemma AppendSameButLog(t: Tables, payload: Blob)
    requires t.meta.Some? && AppendNonEmpty(t, payload).Some?
    ensures SameButLog(t, AppendNonEmpty(t, payload).value)
  {}

  /** What committing a fork does to the child's tables. */
  predicate Appears(t: Tables, u: Tables, gen: nat, fork: ForkRef) {
    && t.meta.None? && u.meta.Some?
    && u.meta.value.gen == gen && u.meta.value.fork == Some(fork) && !u.meta.value.softDeleted
    && u.edges == t.edges && u.releases == t.releases && u.intents == t.intents - {fork.edge}
  }

  /** The shape of a committed fork: everything but the stream itself and the spent intent is as before. */
  lemma CommitForkShape(t: Tables, gen: nat, o: CreateOptions, fork: ForkRef, prefix: Blob, payload: Blob, now: int)
    requires CommitFork(t, gen, o, fork, prefix, payload, now).Some?
    ensures Appears(t, CommitFork(t, gen, o, fork, prefix, payload, now).value, gen, fork)
  {
    var created := t.(meta := Some(NewMeta(gen, o, now, Some(fork))));
    AppendSameButLog(created, prefix);
    AppendSameButLog(AppendNonEmpty(created, prefix).value, payload);
  }

  predicate HeldFor(w: World, fork: ForkRef) {
    var source := At(w, fork.parent);
    source.meta.Some? && source.meta.value.gen == fork.sourceGen
    && fork.edge in source.edges && source.edges[fork.edge] == fork.offset
  }

  lemma ForkAppearsGraph(w: World, v: World, x: Path, fork: ForkRef)
    requires GraphOk(w) && OnlyAt(w, v, x) && v.next == w.next + 1 && Appears(At(w, x), At(v, x), w.next, fork)
    requires fork.edge in At(w, x).intents && At(w, x).intents[fork.edge].parent == fork.parent && HeldFor(w, fork)
    ensures GraphOk(v) && SourceSafe(w, v, x) && fork.parent != x
  {
    assert LocalOk(x, At(w, x), w.next);
    assert LocalOk(fork.parent, At(w, fork.parent), w.next);
    assert fork.parent != x;
    assert LocalOk(x, At(v, x), v.next);
    forall q, e | q != x && e in At(w, q).edges && e.home == x ensures HeldOk(v, q, e) {
      assert HeldOk(w, q, e);
      if e == fork.edge {
        IntentHeldAtItsSource(w, x, e, q);
      }
    }
    GraphKept(w, v, x);
  }

  /** The intent has become a fork pinned at its source. */
  lemma ForkAppearsKept(w: World, v: World, j: nat, fork: ForkRef)
    requires Inv(w) && GotAcquired(w, j) && w.jobs[j].kind.Creating?
    requires fork == ForkOf(w.jobs[j], fork.subOffset) && v.sends == w.sends && v.jobs == w.jobs - {j}
    requires v.next == w.next + 1 && OnlyAt(w, v, w.jobs[j].path)
    requires Appears(At(w, w.jobs[j].path), At(v, w.jobs[j].path), w.next, fork)
    ensures Inv(v)
  {
    var job := w.jobs[j];
    var x := job.path;
    assert JobOk(w, job) && LocalOk(x, At(w, x), w.next);
    ForkAppearsGraph(w, v, x, fork);
    forall k | k in v.jobs && v.jobs[k].path == x
      ensures v.jobs[k].edge in At(v, x).intents && At(v, x).intents[v.jobs[k].edge] == v.jobs[k].intent
    {
      assert JobOk(w, w.jobs[k]);
    }
    VolatileKept(w, v, x);
  }

  lemma CommitJobKept(w: World, s: Step)
    requires Inv(w) && Enabled(w, s) && s.CommitJob?
    ensures Inv(Apply(w, s))
  {
    var job := w.jobs[s.job];
    var t, fork := At(w, job.path), ForkOf(job, s.subOffset);
    if CommitFork(t, w.next, OptionsOf(job), fork, s.prefix, s.payload, s.now).None? {
      AbandonKept(w, Apply(w, s), s.job);
    } else {
      CommitForkShape(t, w.next, OptionsOf(job), fork, s.prefix, s.payload, s.now);
      ForkAppearsKept(w, Apply(w, s), s.job, fork);
    }
  }

  /** A stream that is no fork appears, or nothing happens. */
  predicate Fresh(t: Tables, u: Tables, gen: nat) {
    u == t || (u.meta.Some? && u.meta.value.gen == gen && u.meta.value.fork.None? && !u.meta.value.softDeleted
               && u.edges == t.edges && u.releases == t.releases && u.intents == t.intents)
  }

  lemma CreateStreamShape(t: Tables, gen: nat, o: CreateOptions, payload: Blob, now: int)
    requires Visible(t, now).meta.None?
    ensures var v := Visible(t, now); var u := CreateStream(t, gen, o, payload, now);
            Fresh(v, u, gen)
  {}

  /** Looking at a stream retires it when it has expired. */
  lemma VisibleKept(w: World, v: World, x: Path, now: int)
    requires Inv(w) && OnlyAt(w, v, x) && At(v, x) == Visible(At(w, x), now)
    requires v.jobs == w.jobs && v.sends == w.sends
    ensures Inv(v)
  {
    if At(w, x) != At(v, x) {
      RetireKept(w, v, x);
    } else {
      QuietKept(w, v, x);
    }
  }

  lemma RetireKept(w: World, v: World, x: Path)
    requires Inv(w) && OnlyAt(w, v, x) && Exists(w, x) && At(v, x) == Retire(At(w, x))
    requires v.jobs == w.jobs && v.sends == w.sends
    ensures Inv(v)
  {
    if |At(w, x).edges| > 0 {
      QuietKept(w, v, x);
    } else {
      PurgeKept(w, v, x);
    }
  }

  lemma PutStreamKept(w: World, s: Step)
    requires Inv(w) && Enabled(w, s) && s.PutStream?
    ensures Inv(Apply(w, s))
  {
    var v, x := Apply(w, s), s.path;
    var t := At(w, x);
    var mid := With(w, x, Visible(t, s.now));
    VisibleKept(w, mid, x, s.now);
    if At(mid, x).meta.Some? {
      QuietKept(mid, v, x);
    } else {
      CreateStreamShape(t, w.next, s.options, s.payload, s.now);
      FreshStreamKept(mid, v, x);
    }
  }

  lemma FreshGraph(w: World, v: World, x: Path)
    requires GraphOk(w) && OnlyAt(w, v, x) && w.next < v.next && !Exists(w, x) && Fresh(At(w, x), At(v, x), w.next)
    ensures GraphOk(v) && SourceSafe(w, v, x)
  {
    assert LocalOk(x, At(w, x), w.next);
    forall q, e | q != x && e in At(w, q).edges && e.home == x ensures HeldOk(v, q, e) { assert HeldOk(w, q, e); }
    GraphKept(w, v, x);
  }

  lemma FreshStreamKept(w: World, v: World, x: Path)
    requires Inv(w) && OnlyAt(w, v, x) && v.jobs == w.jobs && v.sends == w.sends && w.next < v.next
    requires !Exists(w, x) && Fresh(At(w, x), At(v, x), w.next)
    ensures Inv(v)
  {
    FreshGraph(w, v, x);
    assert LocalOk(x, At(w, x), w.next);
    forall j | j in v.jobs && v.jobs[j].path == x
      ensures v.jobs[j].edge in At(v, x).intents && At(v, x).intents[v.jobs[j].edge] == v.jobs[j].intent
    {
      assert JobOk(w, w.jobs[j]);
    }
    VolatileKept(w, v, x);
  }

  lemma DeleteStreamKept(w: World, s: Step)
    requires Inv(w) && Enabled(w, s) && s.DeleteStream?
    ensures Inv(Apply(w, s))
  {
    var v, x := Apply(w, s), s.path;
    var mid := With(w, x, Visible(At(w, x), s.now));
    VisibleKept(w, mid, x, s.now);
    if At(v, x) == At(mid, x) {
      QuietKept(mid, v, x);
    } else {
      RetireKept(mid, v, x);
    }
  }

  // ---------------------------------------------------- acquire and release

  /** An acquire answers from the known edge, or looks at the stream and may add the edge. */
  lemma AcquireShape(t: Tables, e: EdgeId, offset: Option<string>, contentType: Option<string>, now: int)
    ensures var (u, reply) := ForkAcquire(t, e, offset, contentType, now);
            var v := Visible(t, now);
            if e in t.edges && t.meta.Some? then u == t && reply == Success(t.edges[e], t.meta.value)
            else if reply.Refused? then u == v
            else v.meta.Some? && !v.meta.value.softDeleted && reply.sourceGen == v.meta.value.gen
                 && u == v.(edges := v.edges[e := reply.offset])
  {}

  lemma SendAcquireKept(w: World, s: Step)
    requires Inv(w) && Enabled(w, s) && s.SendAcquire?
    ensures Inv(Apply(w, s))
  {
    var job := w.jobs[s.job];
    var q, e := job.intent.parent, job.edge;
    var (t, reply) := ForkAcquire(At(w, q), e, job.intent.forkOffset, TypeSent(job), s.now);
    var held := AcquireTables(w, s.job, job, t, reply, TypeSent(job), s.now);
    var answered := held.(jobs := held.jobs[s.job := job.(reply := Some(reply))]);
    AnsweredKept(held, answered, s.job, Some(reply));
    var v := Apply(w, s);
    assert v.jobs == if s.lost then answered.jobs - {s.job} else answered.jobs;
    forall p ensures At(v, p) == At(answered, p) {
      assert At(held, p) == At(With(w, q, t), p);
    }
    SameWorlds(answered, v);
  }

  /** The tables after the acquire, and why the reply is right about them. */
  lemma AcquireTables(w: World, j: nat, job: Job, t: Tables, reply: AcquireReply, ct: Option<string>, now: int)
    returns (held: World)
    requires Inv(w) && Awaits(w, j) && job == w.jobs[j]
    requires (t, reply) == ForkAcquire(At(w, job.intent.parent), job.edge, job.intent.forkOffset, ct, now)
    ensures Inv(held) && held.jobs == w.jobs && held.sends == w.sends && held.next == w.next
    ensures forall p :: At(held, p) == At(With(w, job.intent.parent, t), p)
    ensures JobOk(held, job.(reply := Some(reply)))
  {
    var q, e := job.intent.parent, job.edge;
    assert JobOk(w, w.jobs[j]) && LocalOk(q, At(w, q), w.next);
    if e in At(w, q).edges {
      AcquireShape(At(w, q), e, job.intent.forkOffset, ct, now);
      held := With(w, q, t);
      QuietKept(w, held, q);
      assert JobOk(held, held.jobs[j]);
    } else {
      held := NewlyAcquired(w, j, job, t, reply, ct, now);
    }
  }

  lemma NewlyAcquired(w: World, j: nat, job: Job, t: Tables, reply: AcquireReply, ct: Option<string>, now: int)
    returns (held: World)
    requires Inv(w) && Awaits(w, j) && job == w.jobs[j] && job.edge !in At(w, job.intent.parent).edges
    requires (t, reply) == ForkAcquire(At(w, job.intent.parent), job.edge, job.intent.forkOffset, ct, now)
    ensures Inv(held) && held.jobs == w.jobs && held.sends == w.sends && held.next == w.next
    ensures forall p :: At(held, p) == At(With(w, job.intent.parent, t), p)
    ensures JobOk(held, job.(reply := Some(reply)))
  {
    var q := job.intent.parent;
    AcquireShape(At(w, q), job.edge, job.intent.forkOffset, ct, now);
    var seen := With(w, q, Visible(At(w, q), now));
    VisibleKept(w, seen, q, now);
    held := With(seen, q, t);
    AcquiredAfterLook(seen, held, j, reply);
  }

  /** After the look at the stream, a refusal leaves it alone and a success adds the edge. */
  lemma AcquiredAfterLook(w: World, v: World, j: nat, reply: AcquireReply)
    requires Inv(w) && Awaits(w, j) && w.jobs[j].edge !in At(w, w.jobs[j].intent.parent).edges
    requires v == With(w, w.jobs[j].intent.parent, At(v, w.jobs[j].intent.parent))
    requires var t, u := At(w, w.jobs[j].intent.parent), At(v, w.jobs[j].intent.parent);
             if reply.Refused? then u == t
             else t.meta.Some? && reply.sourceGen == t.meta.value.gen
                  && u == t.(edges := t.edges[w.jobs[j].edge := reply.offset])
    ensures Inv(v) && JobOk(v, w.jobs[j].(reply := Some(reply)))
  {
    if reply.Refused? {
      QuietKept(w, v, w.jobs[j].intent.parent);
      RefusedIsUnheld(v, j);
    } else {
      EdgeAddedKept(w, v, j, reply.offset);
    }
    assert JobOk(v, v.jobs[j]);
  }

  lemma RefusedIsUnheld(w: World, j: nat)
    requires Inv(w) && j in w.jobs && w.jobs[j].edge !in At(w, w.jobs[j].intent.parent).edges
    ensures Unheld(w, w.jobs[j].edge)
  {
    var job := w.jobs[j];
    assert JobOk(w, job);
    forall p ensures job.edge !in At(w, p).edges {
      if job.edge in At(w, p).edges {
        IntentHeldAtItsSource(w, job.path, job.edge, p);
      }
    }
  }

  lemma SameWorlds(a: World, v: World)
    requires Inv(a) && v.next == a.next && v.sends == a.sends
    requires forall p :: At(v, p) == At(a, p)
    requires forall j :: j in v.jobs ==> j in a.jobs && v.jobs[j] == a.jobs[j]
    ensures Inv(v)
  {
    var x := "";
    forall j | j in v.jobs && v.jobs[j].path == x
      ensures v.jobs[j].edge in At(v, x).intents && At(v, x).intents[v.jobs[j].edge] == v.jobs[j].intent
    {
      assert JobOk(a, a.jobs[j]);
    }
    forall e | e in At(v, x).edges ensures HeldOk(v, x, e) { assert HeldOk(a, x, e); }
    forall q, e | q != x && e in At(a, q).edges && e.home == x ensures HeldOk(v, q, e) { assert HeldOk(a, q, e); }
    if IsFork(v, x) {
      assert Pinned(a, x);
    }
    assert LocalOk(x, At(a, x), a.next);
    assert forall e :: e in At(a, x).edges ==> HeldOk(a, x, e);
    GraphKept(a, v, x);
    VolatileKept(a, v, x);
  }

  lemma AnsweredKept(w: World, v: World, j: nat, reply: Option<AcquireReply>)
    requires Inv(w) && j in w.jobs && JobOk(w, w.jobs[j].(reply := reply))
    requires v == w.(jobs := w.jobs[j := w.jobs[j].(reply := reply)])
    ensures Inv(v)
  {
    SameActors(w, v);
    forall k | k in v.jobs ensures JobOk(v, v.jobs[k]) {
      SameJob(w, v, v.jobs[k]);
    }
    forall d | d in v.sends ensures SendOk(v, v.sends[d]) { SameSend(w, v, w.sends[d]); }
  }

  ghost predicate EdgeAdded(w: World, v: World, j: nat, offset: string) {
    && j in w.jobs && v.jobs == w.jobs && v.sends == w.sends && w.jobs[j].reply.None?
    && var e, q := w.jobs[j].edge, w.jobs[j].intent.parent;
       && OnlyAt(w, v, q) && Exists(w, q) && e !in At(w, q).edges
       && At(v, q) == At(w, q).(edges := At(w, q).edges[e := offset])
  }

  lemma AddedGraph(w: World, v: World, x: Path, e: EdgeId, offset: string)
    requires GraphOk(w) && OnlyAt(w, v, x) && Exists(w, x) && e !in At(w, x).edges
    requires At(v, x) == At(w, x).(edges := At(w, x).edges[e := offset])
    requires Responsible(At(w, e.home), e, x, Gen(w, x), offset)
    ensures GraphOk(v) && SourceSafe(w, v, x)
  {
    assert LocalOk(x, At(w, x), w.next);
    forall d | d in At(v, x).edges ensures HeldOk(v, x, d) {
      if d != e {
        assert HeldOk(w, x, d);
      }
    }
    forall q, d | q != x && d in At(w, q).edges && d.home == x ensures HeldOk(v, q, d) { assert HeldOk(w, q, d); }
    if IsFork(v, x) {
      assert Pinned(w, x);
    }
    forall d | d in At(w, x).edges ensures KeepsEdge(At(w, x), At(v, x), d) {
      assert HeldOk(w, x, d);
    }
    GraphKept(w, v, x);
  }

  lemma StillUnheld(w: World, v: World, j: nat, offset: string, d: EdgeId)
    requires EdgeAdded(w, v, j, offset) && Unheld(w, d) && d != w.jobs[j].edge
    ensures Unheld(v, d)
  {}

  lemma EdgeAddedKept(w: World, v: World, j: nat, offset: string)
    requires Inv(w) && EdgeAdded(w, v, j, offset)
    ensures Inv(v)
  {
    var job := w.jobs[j];
    assert JobOk(w, job) && LocalOk(job.path, At(w, job.path), w.next);
    AddedGraph(w, v, job.intent.parent, job.edge, offset);
    forall k | k in v.jobs ensures JobOk(v, v.jobs[k]) {
      var other := w.jobs[k];
      assert JobOk(w, other) && LocalOk(other.path, At(w, other.path), w.next);
      if k != j && other.reply.Some? && other.reply.value.Refused? {
        StillUnheld(w, v, j, offset, other.edge);
      }
    }
    forall d | d in v.sends ensures SendOk(v, v.sends[d]) {
      assert SendOk(w, w.sends[d]);
      if Dead(w, w.sends[d].edge) {
        StillUnheld(w, v, j, offset, w.sends[d].edge);
      }
    }
  }

  /** A queued release is executed at its source. */
  lemma ReleaseExecutedKept(w: World, v: World, p: Path, e: EdgeId)
    requires Inv(w) && e in At(w, p).releases
    requires var r := At(w, p).releases[e]; v == With(w, r.parent, ForkRelease(At(w, r.parent), e, r.sourceGen))
    ensures Inv(v)
  {
    var q := At(w, p).releases[e].parent;
    assert LocalOk(p, At(w, p), w.next);
    HeldByRelease(w, p, e);
    if e in At(w, q).edges {
      assert LocalOk(q, At(w, q), w.next);
      ReleasedShape(q, At(w, q), e, w.next);
      EdgeReleasedKept(w, v, q, e);
    } else {
      QuietKept(w, v, q);
    }
  }

  /** A listed release is executed: still queued, it kills its edge; already dead, it does nothing. */
  lemma SendReleaseKept(w: World, s: Step)
    requires Inv(w) && Enabled(w, s) && s.SendRelease?
    ensures Inv(Apply(w, s)) && Dead(Apply(w, s), w.sends[s.send].edge)
  {
    var send := w.sends[s.send];
    var e, r := send.edge, send.release;
    var released := With(w, r.parent, ForkRelease(At(w, r.parent), e, r.sourceGen));
    assert SendOk(w, send);
    if Queued(w, e, r) {
      ReleaseExecutedKept(w, released, e.home, e);
      ReleasedIsUnheld(w, released, e.home, e);
    } else {
      assert e !in At(w, r.parent).edges;
      QuietKept(w, released, r.parent);
      DeadKept(w, released, r.parent, e);
    }
    AcknowledgedKept(released, Apply(w, s), s.send, e);
  }

  lemma ReleasedIsUnheld(w: World, v: World, p: Path, e: EdgeId)
    requires GraphOk(w) && e in At(w, p).releases
    requires var r := At(w, p).releases[e]; v == With(w, r.parent, ForkRelease(At(w, r.parent), e, r.sourceGen))
    ensures Dead(v, e)
  {
    HeldByRelease(w, p, e);
    var x := At(w, p).releases[e].parent;
    assert LocalOk(x, At(w, x), w.next);
    if e in At(w, x).edges {
      ReleasedShape(x, At(w, x), e, w.next);
    }
    forall q ensures e !in At(v, q).edges {
      assert q != x ==> At(v, q) == At(w, q);
    }
  }

  lemma HeldByRelease(w: World, p: Path, e: EdgeId)
    requires GraphOk(w) && e in At(w, p).releases
    ensures e !in At(w, p).intents && !HasForkEdge(At(w, p), e) && e.home == p && e.serial < w.next
    ensures forall q :: e in At(w, q).edges ==>
              Exists(w, q) && At(w, p).releases[e] == Release(q, Some(Gen(w, q)))
  {
    assert LocalOk(p, At(w, p), w.next);
    forall q | e in At(w, q).edges
      ensures Exists(w, q) && At(w, p).releases[e] == Release(q, Some(Gen(w, q)))
    {
      assert HeldOk(w, q, e);
    }
  }

  lemma AcknowledgedKept(w: World, v: World, d: nat, e: EdgeId)
    requires Inv(w) && v.actors == w.actors && v.next == w.next && v.jobs == w.jobs && Dead(w, e)
    requires forall c :: c in v.sends ==> (c in w.sends && v.sends[c] == w.sends[c]) || (c == d && v.sends[c].edge == e)
    ensures Inv(v) && Dead(v, e)
  {
    SameActors(w, v);
    SameHolders(w, v, e);
    forall j | j in v.jobs ensures JobOk(v, v.jobs[j]) { SameJob(w, v, w.jobs[j]); }
    forall c | c in v.sends ensures SendOk(v, v.sends[c]) {
      if c in w.sends && v.sends[c] == w.sends[c] {
        SameSend(w, v, w.sends[c]);
      }
    }
  }

  /** What a release leaves: one edge less, or nothing but duties. */
  ghost predicate ReleasedTo(x: Path, t: Tables, u: Tables, e: EdgeId, next: nat) {
    && LocalOk(x, u, next)
    && u.edges.Keys <= t.edges.Keys && u.intents == t.intents
    && (forall d :: d in t.edges && d != e ==> KeepsEdge(t, u, d))
    && (forall d :: HasForkEdge(u, d) ==> HasForkEdge(t, d))
    && (u.meta.Some? ==> u.meta == t.meta)
    && e !in u.edges
    && (forall d :: d in t.releases ==> d in u.releases && u.releases[d] == t.releases[d])
    && (forall d, q, gen, offset :: Responsible(t, d, q, gen, offset) ==> Responsible(u, d, q, gen, offset))
  }

  /** The released edge leaves; with the last edge of a soft-deleted stream the stream goes too. */
  lemma ReleasedGraph(w: World, v: World, x: Path, e: EdgeId)
    requires GraphOk(w) && OnlyAt(w, v, x) && Exists(w, x) && e in At(w, x).edges
    requires e !in At(w, e.home).intents && !HasForkEdge(At(w, e.home), e)
    requires ReleasedTo(x, At(w, x), At(v, x), e, v.next)
    ensures GraphOk(v) && SourceSafe(w, v, x)
  {
    forall d | d in At(v, x).edges ensures HeldOk(v, x, d) {
      assert HeldOk(w, x, d) && KeepsEdge(At(w, x), At(v, x), d);
    }
    forall q, d | q != x && d in At(w, q).edges && d.home == x ensures HeldOk(v, q, d) {
      assert HeldOk(w, q, d);
    }
    if IsFork(v, x) {
      assert Pinned(w, x);
    }
    SourceStaysSafe(w, v, x, e);
    GraphKept(w, v, x);
  }

  lemma EdgeReleasedKept(w: World, v: World, x: Path, e: EdgeId)
    requires Inv(w) && OnlyAt(w, v, x) && v.jobs == w.jobs && v.sends == w.sends
    requires Exists(w, x) && e in At(w, x).edges && e in At(w, e.home).releases
    requires ReleasedTo(x, At(w, x), At(v, x), e, v.next)
    ensures Inv(v)
  {
    HeldByRelease(w, e.home, e);
    ReleasedGraph(w, v, x, e);
    forall j | j in v.jobs && v.jobs[j].path == x
      ensures v.jobs[j].edge in At(v, x).intents && At(v, x).intents[v.jobs[j].edge] == v.jobs[j].intent
    {
      assert JobOk(w, w.jobs[j]);
    }
    VolatileKept(w, v, x);
  }

  lemma SourceStaysSafe(w: World, v: World, x: Path, e: EdgeId)
    requires OnlyAt(w, v, x) && e !in At(w, e.home).intents && !HasForkEdge(At(w, e.home), e)
    requires At(v, x).intents == At(w, x).intents
    requires forall d :: HasForkEdge(At(v, x), d) ==> HasForkEdge(At(w, x), d)
    requires forall d :: d in At(w, x).edges && d != e ==> KeepsEdge(At(w, x), At(v, x), d)
    ensures SourceSafe(w, v, x)
  {}

  lemma ReleasedResponsible(x: Path, t: Tables, e: EdgeId, next: nat, d: EdgeId, q: Path, gen: nat, offset: string)
    requires LocalOk(x, t, next) && t.meta.Some? && e in t.edges && Responsible(t, d, q, gen, offset)
    ensures Responsible(ForkRelease(t, e, Some(t.meta.value.gen)), d, q, gen, offset)
  {}

  lemma ReleasedShape(x: Path, t: Tables, e: EdgeId, next: nat)
    requires LocalOk(x, t, next) && t.meta.Some? && e in t.edges
    ensures ReleasedTo(x, t, ForkRelease(t, e, Some(t.meta.value.gen)), e, next)
  {
    ReleasedLocal(x, t, e, next);
    var u := ForkRelease(t, e, Some(t.meta.value.gen));
    forall d, q, gen, offset | Responsible(t, d, q, gen, offset) ensures Responsible(u, d, q, gen, offset) {
      ReleasedResponsible(x, t, e, next, d, q, gen, offset);
    }
    var less := t.edges - {e};
    if |less| == 0 {
      assert less == map[];
      assert forall d :: d in t.edges && d != e ==> d in less;
    }
  }

  lemma ReleasedLocal(x: Path, t: Tables, e: EdgeId, next: nat)
    requires LocalOk(x, t, next) && t.meta.Some? && e in t.edges
    ensures LocalOk(x, ForkRelease(t, e, Some(t.meta.value.gen)), next)
  {}

  /** An acknowledged release may be forgotten: its edge is dead. */
  lemma DequeueKept(w: World, s: Step)
    requires Inv(w) && Enabled(w, s) && s.DequeueRelease?
    ensures Inv(Apply(w, s))
  {
    var v, e := Apply(w, s), w.sends[s.send].edge;
    var x := e.home;
    assert SendOk(w, w.sends[s.send]) && Unheld(w, e);
    assert LocalOk(x, At(w, x), w.next);
    forall q, d | d in At(w, q).edges && d.home == x
      ensures Exists(w, q) && Responsible(At(v, x), d, q, Gen(w, q), At(w, q).edges[d])
    {
      assert HeldOk(w, q, d);
    }
    forall j | j in v.jobs && v.jobs[j].path == x
      ensures v.jobs[j].edge in At(v, x).intents && At(v, x).intents[v.jobs[j].edge] == v.jobs[j].intent
    {
      assert JobOk(w, w.jobs[j]);
    }
    DutiesKept(w, v, x);
  }

  // --------------------------------------------------------- quiet writes

  lemma AppendQuiet(t: Tables, payload: Blob)
    requires t.meta.Some? && AppendMessage(t, payload).Some?
    ensures Quiet(t, AppendMessage(t, payload).value)
  {}

  lemma PostStreamKept(w: World, s: Step)
    requires Inv(w) && Enabled(w, s) && s.PostStream?
    ensures Inv(Apply(w, s))
  {
    PostQuiet(At(w, s.path), s.request, s.now);
    LookedAtKept(w, Apply(w, s), s.path, s.now);
  }

  /** Nothing happens, or a look at the stream and a quiet change. */
  lemma LookedAtKept(w: World, v: World, x: Path, now: int)
    requires Inv(w) && OnlyAt(w, v, x) && v.jobs == w.jobs && v.sends == w.sends
    requires At(v, x) == At(w, x) || Quiet(Visible(At(w, x), now), At(v, x))
    ensures Inv(v)
  {
    if At(v, x) == At(w, x) {
      QuietKept(w, v, x);
    } else {
      var seen := With(w, x, Visible(At(w, x), now));
      VisibleKept(w, seen, x, now);
      QuietKept(seen, v, x);
    }
  }

  lemma TransactionQuiet(t: Tables, r: PostRequest, payload: Blob, now: int)
    requires t.meta.Some?
    ensures Quiet(t, PostTransaction(t, r, payload, now).0)
  {
    if (r.producer.Some? ==> CheckProducer(t.producers, r.producer.value, now).Accepted?)
       && CommitPost(t, r, payload, now).Some? {
      CommitQuiet(t, r, payload, now);
    }
  }

  lemma CommitQuiet(t: Tables, r: PostRequest, payload: Blob, now: int)
    requires t.meta.Some? && (r.producer.Some? ==> CheckProducer(t.producers, r.producer.value, now).Accepted?)
    requires CommitPost(t, r, payload, now).Some?
    ensures Quiet(t, CommitPost(t, r, payload, now).value)
  {
    AppendQuiet(t, payload);
  }

  lemma CloseQuiet(v: Tables, producer: Option<ProducerHeaders>, now: int)
    ensures Quiet(v, CloseSeen(v, producer, now).0)
  {}

  lemma PostQuiet(t: Tables, r: PostRequest, now: int)
    ensures Post(t, r, now).0 == t || Quiet(Visible(t, now), Post(t, r, now).0)
  {
    var v := Visible(t, now);
    CloseQuiet(v, r.producer, now);
    if v.meta.Some? && PayloadOf(v.meta.value.contentType, r).Ok? {
      TransactionQuiet(v, r, PayloadOf(v.meta.value.contentType, r).value, now);
    }
  }

  // ------------------------------------------------------------- all steps

  lemma InitOk(w: World)
    requires Init(w)
    ensures Inv(w)
  {}

  lemma ForgetKept(w: World, s: Step)
    requires Inv(w) && Enabled(w, s) && (s.DropJob? || s.DropSend?)
    ensures Inv(Apply(w, s))
  {
    ForgettingKept(w, Apply(w, s));
  }

  lemma AbandonJobKept(w: World, s: Step)
    requires Inv(w) && Enabled(w, s) && s.AbandonJob?
    ensures Inv(Apply(w, s))
  {
    AbandonKept(w, Apply(w, s), s.job);
  }

  lemma ExpireStreamKept(w: World, s: Step)
    requires Inv(w) && s.ExpireStream?
    ensures Inv(Apply(w, s))
  {
    VisibleKept(w, Apply(w, s), s.path, s.now);
  }

  lemma TouchStreamKept(w: World, s: Step)
    requires Inv(w) && s.TouchStream?
    ensures Inv(Apply(w, s))
  {
    QuietKept(w, Apply(w, s), s.path);
  }

  /** Every transaction and remote action keeps the protocol invariant. */
  lemma StepKeepsInv(w: World, s: Step)
    requires Inv(w) && Enabled(w, s) && Serialised(w, s)
    ensures Inv(Apply(w, s))
  {
    match s {
      case BeginFork(_, _, _, _, _, _) => BeginForkKept(w, s);
      case BeginPass(_, _) => BeginPassKept(w, s);
      case SendAcquire(_, _, _) => SendAcquireKept(w, s);
      case FinishRefused(_) => FinishRefusedKept(w, s);
      case CommitJob(_, _, _, _, _) => CommitJobKept(w, s);
      case AbandonJob(_) => AbandonJobKept(w, s);
      case DropJob(_) => ForgetKept(w, s);
      case BeginFlush(_, _) => BeginFlushKept(w, s);
      case SendRelease(_, _) => SendReleaseKept(w, s);
      case DequeueRelease(_) => DequeueKept(w, s);
      case DropSend(_) => ForgetKept(w, s);
      case DeleteStream(_, _) => DeleteStreamKept(w, s);
      case ExpireStream(_, _) => ExpireStreamKept(w, s);
      case PutStream(_, _, _, _) => PutStreamKept(w, s);
      case PostStream(_, _, _) => PostStreamKept(w, s);
      case TouchStream(_, _) => TouchStreamKept(w, s);
    }
  }

  // ------------------------------------------------------------- whole runs

  /** The invariant holds throughout every serialised run that starts with it. */
  lemma {:induction false} RunKeepsInv(run: seq<World>, steps: seq<Step>, i: nat)
    requires Serial(run, steps) && Inv(run[0]) && i < |run|
    ensures Inv(run[i])
  {
    if i > 0 {
      RunKeepsInv(run, steps, i - 1);
      assert FollowsAt(run, steps, i - 1) && Serialised(run[i - 1], steps[i - 1]);
      StepKeepsInv(run[i - 1], steps[i - 1]);
    }
  }
}
