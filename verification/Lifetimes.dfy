/** How streams begin, how long they last, and what a fork takes over from its source's lifetime. */
module Lifetimes {
  import opened Options
  import opened Offsets
  import opened Tables
  import opened Cluster
  import opened ClusterProofs
  import opened ForkSafety
  import opened ForkTypes
  import opened Logs
  import opened LogSafety
  import opened SubOffset
  import opened Writers
  import opened Admission

  // ------------------------------------------------------------------ expiry

  /**
   A stream expires at its absolute deadline or when its time to live, in seconds, has
   passed since it was last accessed, in milliseconds, whichever comes first.
   */
  lemma ExpiresWhen(m: Meta, now: int)
    requires now < I64_MAX && m.lastAccessed >= 0 && (m.ttlSeconds.Some? ==> m.ttlSeconds.value >= 0)
    ensures IsExpired(m, now) <==>
              || (m.expiresAt.Some? && m.expiresAt.value <= now)
              || (m.ttlSeconds.Some? && m.lastAccessed + m.ttlSeconds.value * 1000 <= now)
  {}

  /** What an access is: being read, written to or closed. */
  predicate Accesses(w: World, s: Step, p: Path) {
    || (s.TouchStream? && s.path == p)
    || (PostsTo(s, p) && var outcome := Post(At(w, p), s.request, s.now).1;
                         || outcome.Appended?
                         || (outcome.CloseSuccess?
                             && (s.request.producer.None? || !At(w, p).meta.value.closed)))
  }

  predicate SameLifetime(m: Meta, n: Meta) { n.ttlSeconds == m.ttlSeconds && n.expiresAt == m.expiresAt }

  /** While a stream is there, its deadline and time to live stay; an access, and nothing else, restarts the latter. */
  lemma LifeGoesOn(w: World, s: Step, p: Path)
    requires Enabled(w, s) && Exists(w, p) && Exists(Apply(w, s), p) && Gen(Apply(w, s), p) == Gen(w, p) < w.next
    ensures var m, n := At(w, p).meta.value, At(Apply(w, s), p).meta.value;
            SameLifetime(m, n) && n.lastAccessed == if Accesses(w, s, p) then s.now else m.lastAccessed
  {
    if PostsTo(s, p) {
      PostLife(At(w, p), s.request, s.now);
    } else if !(s.TouchStream? && s.path == p) {
      OtherStepsAreIdle(w, s, p);
      OtherLife(w, s, p);
    }
  }

  lemma PostLife(t: Tables, r: PostRequest, now: int)
    requires t.meta.Some? && Post(t, r, now).0.meta.Some?
    ensures var (u, outcome) := Post(t, r, now);
            && SameLifetime(t.meta.value, u.meta.value)
            && u.meta.value.lastAccessed
               == if outcome.Appended? || (outcome.CloseSuccess? && (r.producer.None? || !t.meta.value.closed)) then now
                  else t.meta.value.lastAccessed
  {
    var outcome := Post(t, r, now).1;
    if outcome.Appended? {
      AppendedLeaves(t, r, now);
    } else if outcome.CloseSuccess? {
      CloseSuccessMeans(t, r, now);
    } else {
      RejectedChangesNothing(t, r, now);
    }
  }

  lemma OtherLife(w: World, s: Step, p: Path)
    requires Enabled(w, s) && Exists(w, p) && Exists(Apply(w, s), p) && Gen(Apply(w, s), p) == Gen(w, p) < w.next
    requires !PostsTo(s, p) && !(s.TouchStream? && s.path == p)
    ensures At(Apply(w, s), p).meta.value.lastAccessed == At(w, p).meta.value.lastAccessed
  {
    if Target(w, s) != Some(p) {
      StepIsLocal(w, s, p);
    } else if s.SendAcquire? {
      var job := w.jobs[s.job];
      AcquireShape(At(w, p), job.edge, job.intent.forkOffset, TypeSent(job), s.now);
    } else if s.CommitJob? {
      NoCommitHere(At(w, p), w.jobs[s.job], w.next, s);
      assert At(Apply(w, s), p) == Abandoned(At(w, p), w.jobs[s.job]);
    } else if s.PutStream? {
      assert At(Apply(w, s), p) == CreateStream(At(w, p), w.next, s.options, s.payload, s.now);
      PutIsNoAccess(At(w, p), w.next, s.options, s.payload, s.now);
    } else if s.SendRelease? {
      var send := w.sends[s.send];
      assert At(Apply(w, s), p) == ForkRelease(At(w, p), send.edge, send.release.sourceGen);
      ReleaseIsNoAccess(At(w, p), send.edge, send.release.sourceGen);
    } else {
      RestIsNoAccess(w, s, p);
    }
  }

  lemma ReleaseIsNoAccess(t: Tables, edge: EdgeId, gen: Option<nat>)
    requires t.meta.Some? && ForkRelease(t, edge, gen).meta.Some?
    ensures ForkRelease(t, edge, gen).meta.value.lastAccessed == t.meta.value.lastAccessed
  {}

  lemma NoCommitHere(t: Tables, job: Job, gen: nat, s: Step)
    requires t.meta.Some? && job.kind.Creating? && job.reply.Some? && job.reply.value.Acquired? && s.CommitJob?
    ensures CommitFork(t, gen, OptionsOf(job), ForkOf(job, s.subOffset), s.prefix, s.payload, s.now).None?
  {}

  lemma PutIsNoAccess(t: Tables, gen: nat, o: CreateOptions, payload: Blob, now: int)
    requires t.meta.Some? && t.meta.value.gen < gen
    ensures var u := CreateStream(t, gen, o, payload, now);
            u.meta.Some? && u.meta.value.gen == t.meta.value.gen ==>
              u.meta.value.lastAccessed == t.meta.value.lastAccessed
  {}

  lemma RestIsNoAccess(w: World, s: Step, p: Path)
    requires Enabled(w, s) && Target(w, s) == Some(p) && Exists(w, p) && Exists(Apply(w, s), p)
    requires !s.PostStream? && !s.TouchStream? && !s.SendAcquire? && !s.CommitJob? && !s.PutStream?
             && !s.SendRelease?
    ensures At(Apply(w, s), p).meta.value.lastAccessed == At(w, p).meta.value.lastAccessed
  {}

  // --------------------------------------------------------------- beginning

  /** A new stream: as asked for, with its first message if there is one, and nothing of an earlier one at its path. */
  predicate BeginsAs(t: Tables, o: CreateOptions, data: seq<Blob>, now: int) {
    && t.meta.Some? && DataOf(t.messages) == data && t.producers == map[] && t.edges == map[]
    && var m := t.meta.value;
       && m.contentType == o.contentType && m.ttlSeconds == o.ttlSeconds && m.expiresAt == o.expiresAt
       && m.closed == o.closed && m.closedBy.None? && m.lastSeq.None? && m.lastAccessed == now && !m.softDeleted
  }

  /** Nothing is at this path, or only what goes when it is looked at. */
  predicate IsFree(t: Tables, now: int) {
    t.meta.None? || (IsExpired(t.meta.value, now) && t.edges == map[])
  }

  predicate BlankIfAbsent(t: Tables) { EmptyIfAbsent(t) && (t.meta.None? ==> t.producers == map[]) }

  /** Where no stream is, nothing is left of an earlier one, in any run. */
  lemma {:induction false} NothingIsLeft(run: seq<World>, steps: seq<Step>, i: nat, p: Path)
    requires Run(run, steps) && Init(run[0]) && i < |run|
    ensures BlankIfAbsent(At(run[i], p))
  {
    if i > 0 {
      NothingIsLeft(run, steps, i - 1, p);
      assert FollowsAt(run, steps, i - 1);
      BlankStays(run[i - 1], steps[i - 1], p);
    }
  }

  lemma BlankStays(w: World, s: Step, p: Path)
    requires Enabled(w, s) && BlankIfAbsent(At(w, p))
    ensures BlankIfAbsent(At(Apply(w, s), p))
  {
    var t := At(w, p);
    if Target(w, s) != Some(p) {
      StepIsLocal(w, s, p);
    } else if s.PostStream? {
      BlankAfterPost(t, s.request, s.now);
    } else if s.PutStream? {
      BlankAfterPut(t, w.next, s.options, s.payload, s.now);
    } else if s.SendAcquire? {
      var job := w.jobs[s.job];
      BlankAfterAcquire(t, job.edge, job.intent.forkOffset, TypeSent(job), s.now);
    } else if s.CommitJob? {
      BlankAfterCommit(w, s);
    } else if s.SendRelease? {
      BlankAfterRelease(t, w.sends[s.send].edge, w.sends[s.send].release.sourceGen);
    } else {
      BlankAfterRest(w, s, p);
    }
  }

  lemma BlankAfterCommit(w: World, s: Step)
    requires Enabled(w, s) && s.CommitJob? && BlankIfAbsent(At(w, w.jobs[s.job].path))
    ensures BlankIfAbsent(At(Apply(w, s), w.jobs[s.job].path))
  {
    var job := w.jobs[s.job];
    var t := At(w, job.path);
    CommittedIsThere(t, w.next, OptionsOf(job), ForkOf(job, s.subOffset), s.prefix, s.payload, s.now);
    assert BlankIfAbsent(Abandoned(t, job));
  }

  lemma CommittedIsThere(t: Tables, gen: nat, o: CreateOptions, fork: ForkRef, prefix: Blob, payload: Blob, now: int)
    ensures var c := CommitFork(t, gen, o, fork, prefix, payload, now); c.Some? ==> c.value.meta.Some?
  {}

  lemma BlankAfterRelease(t: Tables, edge: EdgeId, gen: Option<nat>)
    requires BlankIfAbsent(t)
    ensures BlankIfAbsent(ForkRelease(t, edge, gen))
  {}

  lemma BlankAfterRest(w: World, s: Step, p: Path)
    requires Enabled(w, s) && BlankIfAbsent(At(w, p)) && Target(w, s) == Some(p)
    requires !s.PostStream? && !s.PutStream? && !s.SendAcquire? && !s.CommitJob? && !s.SendRelease?
    ensures BlankIfAbsent(At(Apply(w, s), p))
  {}

  lemma BlankAfterPost(t: Tables, r: PostRequest, now: int)
    requires BlankIfAbsent(t)
    ensures BlankIfAbsent(Post(t, r, now).0)
  {
    PostChanges(t, r, now);
  }

  lemma BlankAfterPut(t: Tables, gen: nat, o: CreateOptions, payload: Blob, now: int)
    requires BlankIfAbsent(t)
    ensures BlankIfAbsent(CreateStream(t, gen, o, payload, now))
  {}

  lemma BlankAfterAcquire(t: Tables, edge: EdgeId, offset: Option<string>, sent: Option<string>, now: int)
    requires BlankIfAbsent(t)
    ensures BlankIfAbsent(ForkAcquire(t, edge, offset, sent, now).0)
  {
    AcquireShape(t, edge, offset, sent, now);
  }

  /** A PUT creates a stream exactly where the path is free; otherwise it leaves the stream there alone. */
  lemma PutCreates(w: World, s: Step)
    requires s.PutStream? && BlankIfAbsent(At(w, s.path)) && |s.payload| + 5 < U64_LIMIT
    ensures var t, u := At(w, s.path), At(Apply(w, s), s.path);
            if IsFree(t, s.now) then
              && BeginsAs(u, s.options, NonEmpty(s.payload), s.now)
              && u.meta.value.fork.None? && u.meta.value.gen == w.next
            else
              && u.meta.Some? && u.meta.value.gen == t.meta.value.gen && u.messages == t.messages && u.edges == t.edges
              && u.meta.value == t.meta.value.(softDeleted := u.meta.value.softDeleted)
  {
    CreatesWhereFree(At(w, s.path), w.next, s.options, s.payload, s.now);
  }

  lemma CreatesWhereFree(t: Tables, gen: nat, o: CreateOptions, payload: Blob, now: int)
    requires BlankIfAbsent(t) && |payload| + 5 < U64_LIMIT
    ensures var u := CreateStream(t, gen, o, payload, now);
            if IsFree(t, now) then
              BeginsAs(u, o, NonEmpty(payload), now) && u.meta.value.fork.None? && u.meta.value.gen == gen
            else
              && u.meta.Some? && u.meta.value.gen == t.meta.value.gen && u.messages == t.messages && u.edges == t.edges
              && u.meta.value == t.meta.value.(softDeleted := u.meta.value.softDeleted)
  {
    assert |t.edges| > 0 <==> t.edges != map[];
    if IsFree(t, now) {
      FreeIsBlank(t, now);
      FreshBegins(Visible(t, now), gen, o, payload, now);
    }
  }

  lemma FreeIsBlank(t: Tables, now: int)
    requires BlankIfAbsent(t) && IsFree(t, now)
    ensures var v := Visible(t, now); v.meta.None? && v.messages == [] && v.edges == map[] && v.producers == map[]
  {}

  lemma FreshBegins(v: Tables, gen: nat, o: CreateOptions, payload: Blob, now: int)
    requires v.meta.None? && v.messages == [] && v.edges == map[] && v.producers == map[] && |payload| + 5 < U64_LIMIT
    ensures var c := AppendNonEmpty(v.(meta := Some(NewMeta(gen, o, now, None))), payload);
            c.Some? && BeginsAs(c.value, o, NonEmpty(payload), now)
            && c.value.meta.value.fork.None? && c.value.meta.value.gen == gen
  {
    ZeroIsWide();
    if payload != [] {
      AdvanceKnown(ZERO_OFFSET, 0, |payload|, 5 + |payload|);
      OneRow(Message(FormatOffset(0, 5 + |payload|), payload));
    } else {
      assert DataOf([]) == [];
    }
  }

  lemma OneRow(m: Message)
    ensures InsertRow([], m) == [m] && DataOf([m]) == [m.data]
  {}

  // ------------------------------------------------------- a fork's lifetime

  /** What a fork's lifetime is: what its request says, and if it says nothing, its source's. */
  predicate LivesAs(asked: CreateOptions, source: Meta, fork: Meta) {
    if asked.ttlSeconds.Some? || asked.expiresAt.Some? then
      fork.ttlSeconds == asked.ttlSeconds && fork.expiresAt == asked.expiresAt
    else
      && fork.ttlSeconds == source.ttlSeconds
      && fork.expiresAt == (if source.ttlSeconds.Some? then None else source.expiresAt)
  }

  lemma AcquireTellsLife(w: World, s: Step)
    requires Enabled(w, s) && s.SendAcquire? && GotAcquired(Apply(w, s), s.job)
    ensures var v := Apply(w, s); var job := v.jobs[s.job]; var q := job.intent.parent;
            && Exists(v, q) && Gen(v, q) == job.reply.value.sourceGen
            && At(v, q).meta.value.ttlSeconds == job.reply.value.ttlSeconds
            && At(v, q).meta.value.expiresAt == job.reply.value.expiresAt
  {}

  /** What a committed fork begins with. */
  lemma CommitBegins(w: World, s: Step)
    requires Enabled(w, s) && s.CommitJob? && Commits(w, s)
    ensures var m := At(Apply(w, s), w.jobs[s.job].path).meta; var o := OptionsOf(w.jobs[s.job]);
            && m.Some? && m.value.ttlSeconds == o.ttlSeconds && m.value.expiresAt == o.expiresAt
            && m.value.closed == o.closed && m.value.lastAccessed == s.now
            && m.value.closedBy.None? && m.value.lastSeq.None?
            && m.value.fork == Some(ForkOf(w.jobs[s.job], s.subOffset))
  {
    var job := w.jobs[s.job];
    var m := NewMeta(w.next, OptionsOf(job), s.now, Some(ForkOf(job, s.subOffset)));
    var created := At(w, job.path).(meta := Some(m));
    AppendKeepsLife(created, s.prefix);
    AppendKeepsLife(AppendNonEmpty(created, s.prefix).value, s.payload);
  }

  lemma AppendKeepsLife(t: Tables, payload: Blob)
    requires t.meta.Some? && AppendNonEmpty(t, payload).Some?
    ensures var u := AppendNonEmpty(t, payload).value;
            u.meta.Some? && u.meta.value == t.meta.value.(currentOffset := u.meta.value.currentOffset)
  {}

  /**
   A fork lives as long as its request says, or else as its source did when the edge was
   acquired; it is closed from the start exactly if that was asked for.
   */
  lemma ForkLivesAs(run: seq<World>, steps: seq<Step>, i: nat, k: nat)
    requires Run(run, steps) && i < k < |steps| && Made(run, steps, i, k)
    ensures var job := run[k].jobs[steps[k].job];
            && job.kind.Creating? && Exists(run[i + 1], job.intent.parent)
            && Gen(run[i + 1], job.intent.parent) == job.reply.value.sourceGen
            && var fork := At(run[k + 1], job.path).meta.value;
               LivesAs(job.kind.asked, At(run[i + 1], job.intent.parent).meta.value, fork)
               && fork.closed == job.kind.asked.closed && fork.lastAccessed == steps[k].now
  {
    assert FollowsAt(run, steps, i) && FollowsAt(run, steps, k);
    AcquireTellsLife(run[i], steps[i]);
    assert Commits(run[k], steps[k]);
    CommitBegins(run[k], steps[k]);
  }
}
