/** What the protocol invariant means for streams, forks and their edges. */
module ForkSafety {
  import opened Options
  import opened Offsets
  import opened Tables
  import opened Cluster
  import opened ClusterProofs

  // ------------------------------------------------------- responsible owner

  predicate InIntents(w: World, p: Path, e: EdgeId) { e in At(w, p).intents }

  predicate InReleases(w: World, p: Path, e: EdgeId) { e in At(w, p).releases }

  predicate InMeta(w: World, p: Path, e: EdgeId) { HasForkEdge(At(w, p), e) }

  /** The owner's record names the source and, once known, its generation and the held offset. */
  predicate RecordMatches(w: World, q: Path, e: EdgeId)
    requires e in At(w, q).edges
  {
    var t := At(w, e.home);
    && Exists(w, q)
    && (e in t.intents ==> t.intents[e].parent == q)
    && (e in t.releases ==> t.releases[e] == Release(q, Some(Gen(w, q))))
    && (HasForkEdge(t, e) ==>
          var f := Fork(w, e.home);
          f.parent == q && f.sourceGen == Gen(w, q) && f.offset == At(w, q).edges[e])
  }

  /**
   Every edge held at a source is recorded in exactly one place of exactly one
   actor: an intent, the fork's metadata, or a queued release.
   */
  lemma SingleResponsibleOwner(w: World, q: Path, e: EdgeId)
    requires Inv(w) && e in At(w, q).edges
    ensures RecordMatches(w, q, e)
    ensures InIntents(w, e.home, e) || InReleases(w, e.home, e) || InMeta(w, e.home, e)
    ensures !(InIntents(w, e.home, e) && InReleases(w, e.home, e))
    ensures !(InIntents(w, e.home, e) && InMeta(w, e.home, e))
    ensures !(InReleases(w, e.home, e) && InMeta(w, e.home, e))
    ensures forall p :: p != e.home ==> !InIntents(w, p, e) && !InReleases(w, p, e) && !InMeta(w, p, e)
    ensures forall r :: r != q ==> e !in At(w, r).edges
  {
    assert HeldOk(w, q, e) && LocalOk(e.home, At(w, e.home), w.next);
    forall p | p != e.home ensures !InIntents(w, p, e) && !InReleases(w, p, e) && !InMeta(w, p, e) {
      assert LocalOk(p, At(w, p), w.next);
    }
    forall r | r != q ensures e !in At(w, r).edges {
      assert e in At(w, r).edges ==> HeldOk(w, r, e);
    }
  }

  // ---------------------------------------------------------------- pinning

  /** In every reachable state a fork's source is there, unchanged, and holds its edge. */
  lemma ForksArePinned(run: seq<World>, steps: seq<Step>, i: nat, p: Path)
    requires Serial(run, steps) && Init(run[0]) && i < |run| && IsFork(run[i], p)
    ensures Pinned(run[i], p) && Fork(run[i], p).sourceGen < Gen(run[i], p)
  {
    InitOk(run[0]);
    RunKeepsInv(run, steps, i);
    assert Pinned(run[i], p) && LocalOk(p, At(run[i], p), run[i].next);
  }

  /** Paths, each a fork of the one after it. */
  ghost predicate Chain(w: World, c: seq<Path>) {
    && c != []
    && (forall i :: 0 <= i < |c| ==> Exists(w, c[i]))
    && (forall i :: 0 <= i < |c| - 1 ==> IsFork(w, c[i]) && Fork(w, c[i]).parent == c[i + 1])
  }

  /** Generations strictly fall along a chain, so no stream is its own ancestor and chains are finite. */
  lemma {:induction false} ChainsDescend(w: World, c: seq<Path>, i: nat, j: nat)
    requires Inv(w) && Chain(w, c) && i < j < |c|
    ensures Gen(w, c[j]) < Gen(w, c[i])
    ensures c[i] != c[j]
    decreases j
  {
    assert Pinned(w, c[j - 1]) && LocalOk(c[j - 1], At(w, c[j - 1]), w.next);
    if i < j - 1 {
      ChainsDescend(w, c, i, j - 1);
    }
  }

  // ------------------------------------------------------------- no garbage

  ghost predicate Settled(w: World) { forall p :: At(w, p).intents == map[] && At(w, p).releases == map[] }

  /** Without pending duties, a source's edges are exactly those of its existing forks. */
  lemma NoGarbage(w: World, q: Path, e: EdgeId)
    requires Inv(w) && Settled(w)
    ensures e in At(w, q).edges <==> (InMeta(w, e.home, e) && Fork(w, e.home).parent == q)
    ensures e in At(w, q).edges ==>
              Exists(w, q) && Fork(w, e.home).sourceGen == Gen(w, q) && Fork(w, e.home).offset == At(w, q).edges[e]
  {
    if e in At(w, q).edges {
      assert HeldOk(w, q, e);
    }
    if InMeta(w, e.home, e) {
      assert Pinned(w, e.home);
    }
  }

  predicate Live(w: World, p: Path) { Exists(w, p) && !At(w, p).meta.value.softDeleted }

  /** Some stream that is not soft-deleted reads through q. */
  ghost predicate Needed(w: World, q: Path) {
    exists c :: Chain(w, c) && Live(w, c[0]) && c[|c| - 1] == q
  }

  lemma {:induction false} SettledStreamsAreNeeded(w: World, q: Path)
    requires Inv(w) && Settled(w) && Exists(w, q)
    ensures Needed(w, q)
    decreases w.next - Gen(w, q)
  {
    if Live(w, q) {
      assert Chain(w, [q]);
    } else {
      assert LocalOk(q, At(w, q), w.next);
      var e :| e in At(w, q).edges;
      NoGarbage(w, q, e);
      var p := e.home;
      assert LocalOk(p, At(w, p), w.next);
      SettledStreamsAreNeeded(w, p);
      var c :| Chain(w, c) && Live(w, c[0]) && c[|c| - 1] == p;
      ExtendChain(w, c, q);
    }
  }

  lemma ExtendChain(w: World, c: seq<Path>, q: Path)
    requires Chain(w, c) && Exists(w, q) && IsFork(w, c[|c| - 1]) && Fork(w, c[|c| - 1]).parent == q
    ensures Chain(w, c + [q]) && (c + [q])[0] == c[0] && (c + [q])[|c|] == q
  {}

  // ------------------------------------------------- one step at one stream

  /** The log rests, or one append extends a live and open stream. */
  ghost predicate OneAppend(t: Tables, u: Tables)
    requires t.meta.Some? && u.meta.Some?
  {
    || (u.messages == t.messages && u.meta.value.currentOffset == t.meta.value.currentOffset)
    || (&& !t.meta.value.softDeleted && !t.meta.value.closed
        && exists payload :: AppendsTo(t, payload, u))
  }

  predicate AppendsTo(t: Tables, payload: Blob, u: Tables)
    requires t.meta.Some? && u.meta.Some?
  {
    var a := AppendMessage(t, payload);
    && payload != [] && a.Some?
    && u.messages == a.value.messages && u.meta.value.currentOffset == a.value.meta.value.currentOffset
  }

  /** What a stream that existed before a step, and still exists, goes through. */
  ghost predicate SameStream(t: Tables, u: Tables) {
    && t.meta.Some? && u.meta.Some?
    && u.meta.value.gen == t.meta.value.gen && u.meta.value.fork == t.meta.value.fork
    && u.meta.value.contentType == t.meta.value.contentType
    && OneAppend(t, u)
    && (t.meta.value.softDeleted ==> u.meta.value.softDeleted && u.edges.Keys <= t.edges.Keys)
    && (t.meta.value.closed ==> u.meta.value.closed && u.meta.value.closedBy == t.meta.value.closedBy)
  }

  /** A stream never changes hands: older than the step means it was there before. */
  ghost predicate Across(t: Tables, u: Tables, next: nat) {
    u.meta.Some? && u.meta.value.gen < next ==> SameStream(t, u)
  }

  /** Looking at a stream changes at most its soft-deleted flag, or purges a stream without edges. */
  lemma VisibleRests(t: Tables, now: int)
    requires t.meta.Some?
    ensures var v := Visible(t, now);
            if v.meta.Some? then
              && v.edges == t.edges && v.messages == t.messages
              && v.meta.value == t.meta.value.(softDeleted := v.meta.value.softDeleted)
              && (t.meta.value.softDeleted ==> v.meta.value.softDeleted)
            else |t.edges| == 0
  {}

  /** What every step but a POST leaves of a stream that stays: its log, its writers and its configuration. */
  predicate Idle(t: Tables, u: Tables, next: nat) {
    u.meta.Some? && u.meta.value.gen < next ==>
      && t.meta.Some? && u.messages == t.messages && u.producers == t.producers
      && u.meta.value == t.meta.value.(softDeleted := u.meta.value.softDeleted,
                                       lastAccessed := u.meta.value.lastAccessed)
      && (t.meta.value.softDeleted ==> u.meta.value.softDeleted && u.edges.Keys <= t.edges.Keys)
  }

  lemma VisibleIdle(t: Tables, now: int, next: nat)
    ensures Idle(t, Visible(t, now), next)
  {}

  lemma AcquireIdle(t: Tables, e: EdgeId, off: Option<string>, ct: Option<string>, now: int, next: nat)
    ensures Idle(t, ForkAcquire(t, e, off, ct, now).0, next)
  {
    AcquireShape(t, e, off, ct, now);
    VisibleIdle(t, now, next);
  }

  lemma ReleaseIdle(t: Tables, e: EdgeId, gen: Option<nat>, next: nat)
    ensures Idle(t, ForkRelease(t, e, gen), next)
  {}

  lemma CreateIdle(t: Tables, o: CreateOptions, payload: Blob, now: int, next: nat)
    ensures Idle(t, CreateStream(t, next, o, payload, now), next)
  {}

  lemma CommitIdle(t: Tables, o: CreateOptions, fork: ForkRef, prefix: Blob, payload: Blob, now: int, next: nat)
    ensures var c := CommitFork(t, next, o, fork, prefix, payload, now); c.Some? ==> Idle(t, c.value, next)
  {}

  lemma DeleteIdle(t: Tables, now: int, next: nat)
    ensures Idle(t, Deleted(t, now), next)
  {}

  predicate PostsTo(s: Step, q: Path) { s.PostStream? && s.path == q }

  /** Only a POST at a stream writes to it. */
  lemma OtherStepsAreIdle(w: World, s: Step, q: Path)
    requires Enabled(w, s) && !PostsTo(s, q)
    ensures Idle(At(w, q), At(Apply(w, s), q), w.next)
  {
    if Target(w, s) == Some(q) {
      var t := At(w, q);
      match s {
        case SendAcquire(j, now, _) =>
          AcquireIdle(t, w.jobs[j].edge, w.jobs[j].intent.forkOffset, TypeSent(w.jobs[j]), now, w.next);
        case CommitJob(j, sub, prefix, payload, now) =>
          CommitIdle(t, OptionsOf(w.jobs[j]), ForkOf(w.jobs[j], sub), prefix, payload, now, w.next);
        case SendRelease(d, _) => ReleaseIdle(t, w.sends[d].edge, w.sends[d].release.sourceGen, w.next);
        case DeleteStream(_, now) => DeleteIdle(t, now, w.next);
        case ExpireStream(_, now) => VisibleIdle(t, now, w.next);
        case PutStream(_, o, payload, now) => CreateIdle(t, o, payload, now, w.next);
        case _ =>
      }
    } else {
      StepIsLocal(w, s, q);
    }
  }

  lemma CommittedPostIsOneAppend(t: Tables, r: PostRequest, payload: Blob, now: int)
    requires t.meta.Some? && !t.meta.value.softDeleted && !t.meta.value.closed
    requires r.producer.Some? ==> CheckProducer(t.producers, r.producer.value, now).Accepted?
    requires payload != [] && CommitPost(t, r, payload, now).Some?
    ensures var u := CommitPost(t, r, payload, now).value; SameStream(t, u) && AppendsTo(t, payload, u)
  {
    var u := CommitPost(t, r, payload, now).value;
    assert AppendsTo(t, payload, u);
  }

  predicate PostCommits(v: Tables, r: PostRequest, now: int) {
    && v.meta.Some? && !v.meta.value.softDeleted && !v.meta.value.closed
    && (r.producer.Some? ==> CheckProducer(v.producers, r.producer.value, now).Accepted?)
  }

  ghost predicate OneCommit(v: Tables, u: Tables, r: PostRequest, now: int) {
    PostCommits(v, r, now) && exists payload :: payload != [] && CommitPost(v, r, payload, now) == Some(u)
  }

  /** A closure leaves everything but the closed flag, the closer and the access time. */
  predicate ClosesOnly(v: Tables, u: Tables, now: int) {
    && v.meta.Some? && u.meta.Some? && !v.meta.value.softDeleted
    && u.messages == v.messages && u.edges == v.edges && u.intents == v.intents && u.releases == v.releases
    && u.meta.value == v.meta.value.(closed := true, closedBy := u.meta.value.closedBy, lastAccessed := now)
    && (v.meta.value.closed ==> u.meta.value.closedBy == v.meta.value.closedBy)
  }

  /** The tables after a POST: as expiry left them, closed, or with one committed append. */
  ghost predicate PostOutcome(t: Tables, v: Tables, u: Tables, r: PostRequest, now: int) {
    u == t || u == v || ClosesOnly(v, u, now) || OneCommit(v, u, r, now)
  }

  lemma OneCommitIsOneAppend(v: Tables, u: Tables, r: PostRequest, now: int)
    requires OneCommit(v, u, r, now)
    ensures SameStream(v, u)
  {
    var payload :| payload != [] && CommitPost(v, r, payload, now) == Some(u);
    CommittedPostIsOneAppend(v, r, payload, now);
  }

  /** A POST that changes the log found the stream live and open. */
  lemma PostAcross(t: Tables, r: PostRequest, now: int, next: nat)
    ensures Across(t, Post(t, r, now).0, next)
  {
    PostChanges(t, r, now);
    VisibleIdle(t, now, next);
    var v, u := Visible(t, now), Post(t, r, now).0;
    if u != t && u != v {
      if t.meta.Some? {
        VisibleRests(t, now);
      }
      if OneCommit(v, u, r, now) {
        OneCommitIsOneAppend(v, u, r, now);
      }
      LookThenChange(t, v, u, next);
    }
  }

  /** Looking at a stream does not append, so one change after a look is one change. */
  lemma LookThenChange(t: Tables, v: Tables, u: Tables, next: nat)
    requires t.meta.Some? && v.meta.Some? && !v.meta.value.softDeleted
    requires v.edges == t.edges && v.messages == t.messages && v.meta == t.meta
    requires SameStream(v, u)
    ensures Across(t, u, next)
  {
    forall payload | AppendsTo(v, payload, u) ensures AppendsTo(t, payload, u) {
      SameLogSameAppend(t, v, payload, u);
    }
  }

  lemma SameLogSameAppend(t: Tables, v: Tables, payload: Blob, u: Tables)
    requires t.meta.Some? && v.meta.Some? && u.meta.Some?
    requires v.messages == t.messages && v.meta.value.currentOffset == t.meta.value.currentOffset
    requires AppendsTo(v, payload, u)
    ensures AppendsTo(t, payload, u)
  {}

  /** What is stored of a body is not empty. */
  lemma PayloadIsThere(contentType: Option<string>, r: PostRequest)
    requires r.body != [] && PayloadOf(contentType, r).Ok?
    ensures PayloadOf(contentType, r).value != []
  {}

  lemma PostChanges(t: Tables, r: PostRequest, now: int)
    ensures PostOutcome(t, Visible(t, now), Post(t, r, now).0, r, now)
  {
    var v, c := Visible(t, now), Post(t, r, now);
    if v.meta.Some? && c.1.Appended? && PostCommits(v, r, now) {
      var payload := PayloadOf(v.meta.value.contentType, r).value;
      PayloadIsThere(v.meta.value.contentType, r);
      assert CommitPost(v, r, payload, now) == Some(c.0);
    }
  }

  /** The actor whose tables a step changes. */
  function Target(w: World, s: Step): Option<Path>
    requires Enabled(w, s)
  {
    match s
    case BeginFork(_, p, _, _, _, _) => Some(p)
    case SendAcquire(j, _, _) => Some(w.jobs[j].intent.parent)
    case FinishRefused(j) => Some(w.jobs[j].path)
    case CommitJob(j, _, _, _, _) => Some(w.jobs[j].path)
    case AbandonJob(j) => Some(w.jobs[j].path)
    case SendRelease(d, _) => Some(w.sends[d].release.parent)
    case DequeueRelease(d) => Some(w.sends[d].edge.home)
    case DeleteStream(p, _) => Some(p)
    case ExpireStream(p, _) => Some(p)
    case PutStream(p, _, _, _) => Some(p)
    case PostStream(p, _, _) => Some(p)
    case TouchStream(p, _) => Some(p)
    case _ => None
  }

  /** A step is one transaction: no other actor's tables change. */
  lemma StepIsLocal(w: World, s: Step, q: Path)
    requires Enabled(w, s) && Target(w, s) != Some(q)
    ensures At(Apply(w, s), q) == At(w, q)
  {}

  /** No step changes a stream's generation, source or closure, or shrinks its log, while it exists. */
  lemma StepAcross(w: World, s: Step, q: Path)
    requires Enabled(w, s)
    ensures Across(At(w, q), At(Apply(w, s), q), w.next)
  {
    if PostsTo(s, q) {
      PostAcross(At(w, q), s.request, s.now, w.next);
    } else {
      OtherStepsAreIdle(w, s, q);
    }
  }

  /** Whenever a stream goes, nothing held it but at most the edge being released. */
  predicate DropsNothing(t: Tables, u: Tables, released: set<EdgeId>) {
    t.meta.Some? && (u.meta.None? || u.meta.value.gen != t.meta.value.gen) ==> t.edges.Keys <= released
  }

  lemma PostDropsNothing(t: Tables, r: PostRequest, now: int)
    ensures DropsNothing(t, Post(t, r, now).0, {})
  {
    PostChanges(t, r, now);
    var v, u := Visible(t, now), Post(t, r, now).0;
    if t.meta.Some? {
      VisibleRests(t, now);
      if OneCommit(v, u, r, now) {
        OneCommitIsOneAppend(v, u, r, now);
      }
    }
  }

  lemma AcquireDropsNothing(t: Tables, e: EdgeId, off: Option<string>, ct: Option<string>, now: int)
    ensures DropsNothing(t, ForkAcquire(t, e, off, ct, now).0, {})
  {}

  lemma ReleaseDropsNothing(t: Tables, e: EdgeId, gen: Option<nat>)
    ensures DropsNothing(t, ForkRelease(t, e, gen), {e})
  {}

  lemma CreateDropsNothing(t: Tables, gen: nat, o: CreateOptions, payload: Blob, now: int)
    ensures DropsNothing(t, CreateStream(t, gen, o, payload, now), {})
  {}

  /** Purging clears the edge table, and that never drops an edge something still relies on. */
  lemma PurgeDropsNothing(w: World, s: Step, q: Path)
    requires Inv(w) && Enabled(w, s)
    ensures DropsNothing(At(w, q), At(Apply(w, s), q), if s.SendRelease? then {w.sends[s.send].edge} else {})
  {
    if Target(w, s) == Some(q) {
      var t := At(w, q);
      match s {
        case SendAcquire(j, now, _) =>
          AcquireDropsNothing(t, w.jobs[j].edge, w.jobs[j].intent.forkOffset, TypeSent(w.jobs[j]), now);
        case SendRelease(d, _) => ReleaseDropsNothing(t, w.sends[d].edge, w.sends[d].release.sourceGen);
        case PutStream(_, o, payload, now) => CreateDropsNothing(t, w.next, o, payload, now);
        case PostStream(_, r, now) => PostDropsNothing(t, r, now);
        case _ =>
      }
    } else {
      StepIsLocal(w, s, q);
    }
  }

  /**
   The content types of fork and source are compared only when the edge is new: a
   resumed creation that names another type is answered from the edge's row.
   */
  lemma TypeIsCheckedOnlyForNewEdges(t: Tables, e: EdgeId, off: Option<string>, ct: Option<string>, now: int)
    requires t.meta.Some? && !t.meta.value.softDeleted && !IsExpired(t.meta.value, now)
    requires ContentTypeClash(ct, t.meta.value)
    ensures ForkAcquire(t, e, off, ct, now).1 == Refused(ContentTypeMismatch) <==> e !in t.edges
    ensures e in t.edges ==> ForkAcquire(t, e, off, ct, now) == (t, Success(t.edges[e], t.meta.value))
  {}
}
