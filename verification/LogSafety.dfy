/**
 What every step keeps of every stream's log, whether or not fork creation and
 reconciliation overlap: the log is well-formed, a regular stream's log is sorted and
 accounted for, and no fork offset is ahead of the source it names.
 */
module LogSafety {
  import opened Options
  import opened Offsets
  import opened Tables
  import opened Cluster
  import opened ClusterProofs
  import opened ForkSafety
  import opened Logs

  /** A fork offset at one incarnation of a source, which has passed it if it is still there. */
  ghost predicate BranchOk(w: World, q: Path, gen: nat, offset: string) {
    && InStream(offset) && gen < w.next
    && (Exists(w, q) && Gen(w, q) == gen && Regular(At(w, q)) ==> AtMost(offset, At(w, q).meta.value.currentOffset))
  }

  predicate EmptyIfAbsent(t: Tables) { t.meta.None? ==> t.edges == map[] && t.messages == [] }

  ghost predicate StreamOk(w: World, p: Path) {
    && LogOk(At(w, p)) && EmptyIfAbsent(At(w, p))
    && (Exists(w, p) ==> Gen(w, p) < w.next)
    && (IsFork(w, p) ==>
          var f := Fork(w, p); f.sourceGen < Gen(w, p) && BranchOk(w, f.parent, f.sourceGen, f.offset))
  }

  ghost predicate AnswerOk(w: World, job: Job) {
    job.reply.Some? && job.reply.value.Acquired? ==>
      BranchOk(w, job.intent.parent, job.reply.value.sourceGen, job.reply.value.offset)
  }

  ghost predicate Good(w: World) {
    && (forall p {:trigger StreamOk(w, p)} :: StreamOk(w, p))
    && (forall j {:trigger AnswerOk(w, w.jobs[j])} :: j in w.jobs ==> AnswerOk(w, w.jobs[j]))
  }

  lemma InitGood(w: World)
    requires Init(w)
    ensures Good(w)
  {
    assert forall p :: At(w, p) == NO_TABLES;
  }

  // --------------------------------------------------- tables that change

  /** The log rests and no edge is new. */
  predicate SameLog(t: Tables, u: Tables) {
    u.meta.Some? ==>
      && t.meta.Some? && u.messages == t.messages
      && u.meta.value.currentOffset == t.meta.value.currentOffset && u.meta.value.fork == t.meta.value.fork
      && (forall e :: e in u.edges ==> e in t.edges && u.edges[e] == t.edges[e])
  }

  lemma SameLogOk(t: Tables, u: Tables)
    requires LogOk(t) && SameLog(t, u)
    ensures LogOk(u)
  {}

  lemma VisibleLog(t: Tables, now: int)
    ensures SameLog(t, Visible(t, now))
  {}

  /** A new edge is recorded at an offset the stream has reached. */
  lemma AcquireLog(t: Tables, e: EdgeId, off: Option<string>, ct: Option<string>, now: int)
    requires LogOk(t)
    ensures LogOk(ForkAcquire(t, e, off, ct, now).0)
  {
    var u, v := ForkAcquire(t, e, off, ct, now).0, Visible(t, now);
    AcquireShape(t, e, off, ct, now);
    VisibleLog(t, now);
    SameLogOk(t, v);
    if u != t && u != v {
      EdgeLog(v, e, if off.Some? then off.value else v.meta.value.currentOffset, u);
    }
  }

  lemma EdgeLog(t: Tables, e: EdgeId, at: string, u: Tables)
    requires LogOk(t) && t.meta.Some? && AcceptsForkOffset(at, t.meta.value.currentOffset)
    requires u == t.(edges := t.edges[e := if e in t.edges then t.edges[e] else at])
    ensures LogOk(u)
  {
    AcceptedIsInStream(at, t.meta.value.currentOffset);
  }

  lemma ReleaseLog(t: Tables, e: EdgeId, gen: Option<nat>)
    ensures SameLog(t, ForkRelease(t, e, gen))
  {}

  lemma AppendNonEmptyLog(t: Tables, payload: Blob)
    requires t.meta.Some? && LogOk(t) && AppendNonEmpty(t, payload).Some?
    ensures LogOk(AppendNonEmpty(t, payload).value)
  {
    if payload != [] {
      AppendLogOk(t, payload);
    }
  }

  lemma FreshLog(t: Tables, m: Meta)
    requires t.edges == map[] && t.messages == []
    requires InStream(InitialOffset(m)) && m.currentOffset == InitialOffset(m)
    ensures LogOk(t.(meta := Some(m)))
  {
    NewLogOk(m);
  }

  lemma CreateLog(t: Tables, gen: nat, o: CreateOptions, payload: Blob, now: int)
    requires LogOk(t) && EmptyIfAbsent(t)
    ensures LogOk(CreateStream(t, gen, o, payload, now))
  {
    VisibleLog(t, now);
    SameLogOk(t, Visible(t, now));
    var v, m := Visible(t, now), NewMeta(gen, o, now, None);
    if v.meta.None? {
      assert EmptyIfAbsent(v);
      var c := AppendNonEmpty(v.(meta := Some(m)), payload);
      assert CreateStream(t, gen, o, payload, now) == if c.Some? then c.value else v;
      if c.Some? {
        CreatedLog(v, m, payload);
      }
    }
  }

  lemma CreatedLog(v: Tables, m: Meta, payload: Blob)
    requires v.edges == map[] && v.messages == [] && m.fork.None? && m.currentOffset == ZERO_OFFSET
    requires AppendNonEmpty(v.(meta := Some(m)), payload).Some?
    ensures LogOk(AppendNonEmpty(v.(meta := Some(m)), payload).value)
  {
    ZeroIsWide();
    FreshLog(v, m);
    AppendNonEmptyLog(v.(meta := Some(m)), payload);
  }

  lemma CommitLog(t: Tables, gen: nat, o: CreateOptions, fork: ForkRef, prefix: Blob, payload: Blob, now: int)
    requires LogOk(t) && EmptyIfAbsent(t) && InStream(fork.offset)
    requires CommitFork(t, gen, o, fork, prefix, payload, now).Some?
    ensures LogOk(CommitFork(t, gen, o, fork, prefix, payload, now).value)
  {
    var m := NewMeta(gen, o, now, Some(fork));
    var created := t.(meta := Some(m));
    FreshLog(t, m);
    AppendNonEmptyLog(created, prefix);
    var a := AppendNonEmpty(created, prefix).value;
    AppendNonEmptyLog(a, payload);
    SameLogOk(AppendNonEmpty(a, payload).value, CommitFork(t, gen, o, fork, prefix, payload, now).value);
  }

  lemma PostLog(t: Tables, r: PostRequest, now: int)
    requires LogOk(t)
    ensures LogOk(Post(t, r, now).0)
  {
    PostChanges(t, r, now);
    VisibleLog(t, now);
    var v, u := Visible(t, now), Post(t, r, now).0;
    SameLogOk(t, v);
    if OneCommit(v, u, r, now) {
      CommittedLog(v, u, r, now);
    } else if u != t {
      SameLogOk(v, u);
    }
  }

  lemma CommittedLog(v: Tables, u: Tables, r: PostRequest, now: int)
    requires LogOk(v) && OneCommit(v, u, r, now)
    ensures LogOk(u)
  {
    var payload :| payload != [] && CommitPost(v, r, payload, now) == Some(u);
    AppendLogOk(v, payload);
    SameLogOk(AppendMessage(v, payload).value, u);
  }

  // ----------------------------------------------------------------- growth

  /** The log of a regular stream has only grown, above where it was. */
  ghost predicate Grown(t: Tables, u: Tables)
    requires t.meta.Some? && u.meta.Some?
  {
    && |t.messages| <= |u.messages| && u.messages[..|t.messages|] == t.messages
    && AllAbove(u.messages[|t.messages|..], t.meta.value.currentOffset)
    && AtMost(t.meta.value.currentOffset, u.meta.value.currentOffset)
  }

  /** The same stream at a later time. */
  ghost predicate LogLater(t: Tables, u: Tables) {
    && t.meta.Some? && u.meta.Some?
    && u.meta.value.gen == t.meta.value.gen && u.meta.value.fork == t.meta.value.fork
    && u.meta.value.contentType == t.meta.value.contentType
    && (Regular(u) ==> Regular(t) && Grown(t, u))
    && (t.meta.value.closed ==>
          u.meta.value.closed && u.meta.value.closedBy == t.meta.value.closedBy
          && u.messages == t.messages && u.meta.value.currentOffset == t.meta.value.currentOffset)
    && (t.meta.value.softDeleted ==>
          u.meta.value.softDeleted && u.edges.Keys <= t.edges.Keys
          && u.messages == t.messages && u.meta.value.currentOffset == t.meta.value.currentOffset)
  }

  /** Generations are never reused, so an old one found later was there all along. */
  ghost predicate Later(w: World, v: World) {
    && w.next <= v.next
    && (forall q {:trigger LogLater(At(w, q), At(v, q))} ::
          Exists(v, q) && Gen(v, q) < w.next ==> LogLater(At(w, q), At(v, q)))
  }

  lemma SameStreamIsLater(t: Tables, u: Tables)
    requires SameStream(t, u) && LogOk(t)
    ensures LogLater(t, u)
  {
    if u.messages == t.messages && u.meta.value.currentOffset == t.meta.value.currentOffset {
      RestingIsGrown(t, u);
    } else {
      var payload :| AppendsTo(t, payload, u);
      if Regular(u) {
        AppendGrows(t, payload);
        assert u.messages[..|t.messages|] == t.messages;
        assert u.messages[|t.messages|..] == [Message(u.meta.value.currentOffset, payload)];
        StrictOrder();
      }
    }
  }

  lemma RestingIsGrown(t: Tables, u: Tables)
    requires t.meta.Some? && u.meta.Some? && u.messages == t.messages
    requires u.meta.value.currentOffset == t.meta.value.currentOffset
    ensures Grown(t, u)
  {
    StrictOrder();
    assert u.messages[..|t.messages|] == t.messages && u.messages[|t.messages|..] == [];
  }

  lemma StepIsLater(w: World, s: Step)
    requires Good(w) && Enabled(w, s)
    ensures Later(w, Apply(w, s))
  {
    var v := Apply(w, s);
    forall q | Exists(v, q) && Gen(v, q) < w.next ensures LogLater(At(w, q), At(v, q)) {
      StepAcross(w, s, q);
      assert StreamOk(w, q);
      SameStreamIsLater(At(w, q), At(v, q));
    }
  }

  lemma GrownTransitive(t: Tables, u: Tables, x: Tables)
    requires t.meta.Some? && u.meta.Some? && x.meta.Some? && Grown(t, u) && Grown(u, x)
    ensures Grown(t, x)
  {
    StrictOrder();
    var n := |t.messages|;
    assert x.messages[..n] == x.messages[..|u.messages|][..n];
    forall m | m in x.messages[n..] ensures Less(t.meta.value.currentOffset, m.offset) {
      var k :| n <= k < |x.messages| && x.messages[k] == m;
      if k < |u.messages| {
        assert u.messages[k] == x.messages[..|u.messages|][k] == m;
        assert u.messages[n..][k - n] == m;
      } else {
        assert x.messages[|u.messages|..][k - |u.messages|] == m;
      }
    }
  }

  lemma LogLaterTransitive(t: Tables, u: Tables, x: Tables)
    requires LogLater(t, u) && LogLater(u, x)
    ensures LogLater(t, x)
  {
    if Regular(x) {
      GrownTransitive(t, u, x);
    }
  }

  lemma LaterTransitive(w: World, u: World, v: World)
    requires Later(w, u) && Later(u, v)
    ensures Later(w, v)
  {
    forall q | Exists(v, q) && Gen(v, q) < w.next ensures LogLater(At(w, q), At(v, q)) {
      assert LogLater(At(u, q), At(v, q)) && LogLater(At(w, q), At(u, q));
      LogLaterTransitive(At(w, q), At(u, q), At(v, q));
    }
  }

  lemma LaterReflexive(w: World)
    ensures Later(w, w)
  {
    forall q | Exists(w, q) ensures LogLater(At(w, q), At(w, q)) {
      RestingIsGrown(At(w, q), At(w, q));
    }
  }

  // --------------------------------------------------------------- all steps

  lemma BranchLater(w: World, v: World, q: Path, gen: nat, offset: string)
    requires BranchOk(w, q, gen, offset) && Later(w, v)
    ensures BranchOk(v, q, gen, offset)
  {
    if Exists(v, q) && Gen(v, q) == gen && Regular(At(v, q)) {
      assert LogLater(At(w, q), At(v, q));
      StrictOrder();
    }
  }

  /** An acquire answers with an offset the stream has reached. */
  lemma AcquireAnswers(w: World, v: World, q: Path, e: EdgeId, off: Option<string>, ct: Option<string>, now: int)
    requires var (u, reply) := ForkAcquire(At(w, q), e, off, ct, now);
             At(v, q) == u && LogOk(u) && reply.Acquired? && (u.meta.Some? ==> u.meta.value.gen < v.next)
    ensures var reply := ForkAcquire(At(w, q), e, off, ct, now).1;
            BranchOk(v, q, reply.sourceGen, reply.offset)
  {
    AcquireShape(At(w, q), e, off, ct, now);
    var (u, reply) := ForkAcquire(At(w, q), e, off, ct, now);
    HeldIsBranch(v, q, e, reply.sourceGen, reply.offset);
  }

  lemma HeldIsBranch(w: World, q: Path, e: EdgeId, gen: nat, offset: string)
    requires Exists(w, q) && LogOk(At(w, q)) && Gen(w, q) == gen < w.next
    requires e in At(w, q).edges && At(w, q).edges[e] == offset
    ensures BranchOk(w, q, gen, offset)
  {}

  lemma CommitJobLog(w: World, s: Step)
    requires Good(w) && Enabled(w, s) && s.CommitJob?
    ensures LogOk(At(Apply(w, s), w.jobs[s.job].path))
  {
    var job, v := w.jobs[s.job], Apply(w, s);
    var t, fork := At(w, job.path), ForkOf(job, s.subOffset);
    assert AnswerOk(w, job) && StreamOk(w, job.path);
    var c := CommitFork(t, w.next, OptionsOf(job), fork, s.prefix, s.payload, s.now);
    assert At(v, job.path) == if c.Some? then c.value else Abandoned(t, job);
    if c.Some? {
      CommitLog(t, w.next, OptionsOf(job), fork, s.prefix, s.payload, s.now);
    } else {
      SameLogOk(t, Abandoned(t, job));
    }
  }

  lemma TargetLog(w: World, s: Step, q: Path)
    requires Good(w) && Enabled(w, s) && Target(w, s) == Some(q)
    requires !s.CommitJob? && !s.PutStream?
    ensures LogOk(At(Apply(w, s), q))
  {
    var t := At(w, q);
    assert StreamOk(w, q);
    if s.SendAcquire? {
      AcquireLog(t, w.jobs[s.job].edge, w.jobs[s.job].intent.forkOffset, TypeSent(w.jobs[s.job]), s.now);
    } else if s.PostStream? {
      PostLog(t, s.request, s.now);
    } else {
      RestingLog(w, s, q);
      SameLogOk(t, At(Apply(w, s), q));
    }
  }

  /** Duties move, a stream goes or is touched: no log changes. */
  lemma RestingLog(w: World, s: Step, q: Path)
    requires Enabled(w, s) && Target(w, s) == Some(q)
    requires !s.SendAcquire? && !s.CommitJob? && !s.PutStream? && !s.PostStream?
    ensures SameLog(At(w, q), At(Apply(w, s), q))
  {
    if s.SendRelease? {
      ReleaseLog(At(w, q), w.sends[s.send].edge, w.sends[s.send].release.sourceGen);
    } else if s.DeleteStream? || s.ExpireStream? {
      VisibleLog(At(w, q), s.now);
    }
  }

  lemma StepKeepsLog(w: World, s: Step, q: Path)
    requires Good(w) && Enabled(w, s)
    ensures LogOk(At(Apply(w, s), q))
  {
    assert StreamOk(w, q);
    if Target(w, s) != Some(q) {
      StepIsLocal(w, s, q);
    } else if s.CommitJob? {
      CommitJobLog(w, s);
    } else if s.PutStream? {
      CreateLog(At(w, q), w.next, s.options, s.payload, s.now);
    } else {
      TargetLog(w, s, q);
    }
  }

  /** A new stream has a new generation, and is a fork only if a creation has committed it. */
  ghost predicate FreshOk(w: World, s: Step, u: Tables, next: nat)
    requires Enabled(w, s)
  {
    && EmptyIfAbsent(u)
    && (u.meta.Some? ==> u.meta.value.gen < next)
    && (u.meta.Some? && u.meta.value.gen >= w.next && u.meta.value.fork.Some? ==>
          && s.CommitJob? && u.meta.value.gen == w.next
          && u.meta.value.fork.value == ForkOf(w.jobs[s.job], s.subOffset))
  }

  lemma StepIsFresh(w: World, s: Step, q: Path)
    requires Enabled(w, s) && EmptyIfAbsent(At(w, q)) && (Exists(w, q) ==> Gen(w, q) < w.next)
    ensures FreshOk(w, s, At(Apply(w, s), q), Apply(w, s).next)
  {
    if Target(w, s) != Some(q) {
      StepIsLocal(w, s, q);
    } else if s.CommitJob? {
      CommitIsFresh(w, s);
    } else if s.PutStream? {
      PutIsFresh(w, s);
    } else {
      NothingFresh(w, s, q);
    }
  }

  lemma NothingFresh(w: World, s: Step, q: Path)
    requires Enabled(w, s) && Target(w, s) == Some(q) && !s.CommitJob? && !s.PutStream? && EmptyIfAbsent(At(w, q))
    ensures var t, u := At(w, q), At(Apply(w, s), q);
            EmptyIfAbsent(u) && (u.meta.Some? ==> t.meta.Some? && u.meta.value.gen == t.meta.value.gen)
  {
    var t := At(w, q);
    if s.SendAcquire? {
      var job := w.jobs[s.job];
      AcquireShape(t, job.edge, job.intent.forkOffset, TypeSent(job), s.now);
      VisibleIsEmpty(t, s.now);
    } else if s.PostStream? {
      PostIsFresh(t, s.request, s.now);
    } else if s.DeleteStream? || s.ExpireStream? {
      VisibleIsEmpty(t, s.now);
    } else if s.SendRelease? {
      ReleasedIsEmpty(t, w.sends[s.send].edge, w.sends[s.send].release.sourceGen);
    }
  }

  lemma VisibleIsEmpty(t: Tables, now: int)
    requires EmptyIfAbsent(t)
    ensures var v := Visible(t, now);
            EmptyIfAbsent(v) && (v.meta.Some? ==> t.meta.Some? && v.meta.value.gen == t.meta.value.gen)
  {}

  lemma ReleasedIsEmpty(t: Tables, e: EdgeId, gen: Option<nat>)
    requires EmptyIfAbsent(t)
    ensures var v := ForkRelease(t, e, gen);
            EmptyIfAbsent(v) && (v.meta.Some? ==> t.meta.Some? && v.meta.value.gen == t.meta.value.gen)
  {}

  lemma CommitIsFresh(w: World, s: Step)
    requires Enabled(w, s) && s.CommitJob?
    requires var t := At(w, w.jobs[s.job].path); EmptyIfAbsent(t) && (t.meta.Some? ==> t.meta.value.gen < w.next)
    ensures FreshOk(w, s, At(Apply(w, s), w.jobs[s.job].path), w.next + 1)
  {
    var job := w.jobs[s.job];
    var t, fork := At(w, job.path), ForkOf(job, s.subOffset);
    if CommitFork(t, w.next, OptionsOf(job), fork, s.prefix, s.payload, s.now).Some? {
      CommitForkShape(t, w.next, OptionsOf(job), fork, s.prefix, s.payload, s.now);
    }
  }

  lemma PutIsFresh(w: World, s: Step)
    requires Enabled(w, s) && s.PutStream?
    requires EmptyIfAbsent(At(w, s.path)) && (Exists(w, s.path) ==> Gen(w, s.path) < w.next)
    ensures FreshOk(w, s, At(Apply(w, s), s.path), w.next + 1)
  {
    if Visible(At(w, s.path), s.now).meta.None? {
      CreateStreamShape(At(w, s.path), w.next, s.options, s.payload, s.now);
    }
  }

  lemma PostIsFresh(t: Tables, r: PostRequest, now: int)
    requires EmptyIfAbsent(t)
    ensures var u := Post(t, r, now).0;
            EmptyIfAbsent(u) && (u.meta.Some? ==> t.meta.Some? && u.meta.value.gen == t.meta.value.gen)
  {
    PostQuiet(t, r, now);
    assert EmptyIfAbsent(Visible(t, now));
  }

  lemma StepKeepsStream(w: World, s: Step, q: Path)
    requires Good(w) && Enabled(w, s) && Later(w, Apply(w, s))
    ensures StreamOk(Apply(w, s), q)
  {
    var v := Apply(w, s);
    assert StreamOk(w, q);
    StepKeepsLog(w, s, q);
    StepIsFresh(w, s, q);
    if IsFork(v, q) {
      var f := Fork(v, q);
      if Gen(v, q) < w.next {
        assert LogLater(At(w, q), At(v, q));
      } else {
        assert AnswerOk(w, w.jobs[s.job]);
      }
      BranchLater(w, v, f.parent, f.sourceGen, f.offset);
    }
  }

  lemma StepKeepsAnswer(w: World, s: Step, j: nat)
    requires Good(w) && Enabled(w, s) && Later(w, Apply(w, s)) && j in Apply(w, s).jobs
    ensures AnswerOk(Apply(w, s), Apply(w, s).jobs[j])
  {
    var v := Apply(w, s);
    var job := v.jobs[j];
    if j in w.jobs && job == w.jobs[j] {
      assert AnswerOk(w, job);
      if job.reply.Some? && job.reply.value.Acquired? {
        BranchLater(w, v, job.intent.parent, job.reply.value.sourceGen, job.reply.value.offset);
      }
    } else if s.SendAcquire? && job.reply.value.Acquired? {
      var q := job.intent.parent;
      StepKeepsStream(w, s, q);
      AcquireAnswers(w, v, q, job.edge, job.intent.forkOffset, TypeSent(w.jobs[j]), s.now);
    }
  }

  /** Every step keeps all logs. */
  lemma StepKeepsGood(w: World, s: Step)
    requires Good(w) && Enabled(w, s)
    ensures Good(Apply(w, s)) && Later(w, Apply(w, s))
  {
    var v := Apply(w, s);
    StepIsLater(w, s);
    forall q ensures StreamOk(v, q) { StepKeepsStream(w, s, q); }
    forall j | j in v.jobs ensures AnswerOk(v, v.jobs[j]) { StepKeepsAnswer(w, s, j); }
  }

  lemma {:induction false} RunStaysGood(run: seq<World>, steps: seq<Step>, i: nat)
    requires Run(run, steps) && Good(run[0]) && i < |run|
    ensures Good(run[i])
  {
    if i > 0 {
      RunStaysGood(run, steps, i - 1);
      assert FollowsAt(run, steps, i - 1);
      StepKeepsGood(run[i - 1], steps[i - 1]);
    }
  }

  lemma {:induction false} RunIsLater(run: seq<World>, steps: seq<Step>, i: nat, j: nat)
    requires Run(run, steps) && Good(run[0]) && i <= j < |run|
    ensures Later(run[i], run[j])
  {
    if i == j {
      LaterReflexive(run[i]);
    } else {
      RunIsLater(run, steps, i, j - 1);
      RunStaysGood(run, steps, j - 1);
      assert FollowsAt(run, steps, j - 1);
      StepIsLater(run[j - 1], steps[j - 1]);
      LaterTransitive(run[i], run[j - 1], run[j]);
    }
  }
}
