/**
 What a PUT is told that is sent again, because its answer was lost, to a stream it has
 made. The stream is compared with the request as it was sent, not with what the
 creation made of it: a fork that took over its source's lifetime is not recognised.
 */
module Repeats {
  import opened Options
  import opened Offsets
  import opened Tables
  import opened Cluster
  import opened ClusterProofs
  import opened ForkSafety
  import opened ForkTypes
  import opened LogSafety
  import opened Writers
  import opened Lifetimes

  // ----------------------------------------------- forks start where asked

  /** While its intent is there, a held edge is at the offset that was asked for. */
  ghost predicate HeldAsAsked(w: World, q: Path, e: EdgeId)
    requires e in At(w, q).edges
  {
    var intents := At(w, e.home).intents;
    e in intents && intents[e].parent == q && intents[e].forkOffset.Some? ==>
      At(w, q).edges[e] == intents[e].forkOffset.value
  }

  ghost predicate AllAsAsked(w: World) {
    forall q, e {:trigger HeldAsAsked(w, q, e)} :: e in At(w, q).edges ==> HeldAsAsked(w, q, e)
  }

  /** Edges appear by acquiring and keep their offset. */
  lemma EdgeAcross(w: World, s: Step, q: Path, e: EdgeId)
    requires Enabled(w, s) && e in At(Apply(w, s), q).edges
    ensures || (e in At(w, q).edges && At(Apply(w, s), q).edges[e] == At(w, q).edges[e])
            || (s.SendAcquire? && w.jobs[s.job].edge == e && w.jobs[s.job].intent.parent == q
                && (w.jobs[s.job].intent.forkOffset.Some? ==>
                      At(Apply(w, s), q).edges[e] == w.jobs[s.job].intent.forkOffset.value))
  {
    var t := At(w, q);
    if Target(w, s) != Some(q) {
      StepIsLocal(w, s, q);
    } else if s.SendAcquire? {
      var job := w.jobs[s.job];
      AcquireEdges(t, job.edge, job.intent.forkOffset, TypeSent(job), s.now, e);
    } else if s.PostStream? {
      PostEdges(t, s.request, s.now);
    } else if s.PutStream? {
      PutEdges(t, w.next, s.options, s.payload, s.now, e);
    } else if s.CommitJob? {
      CommitEdges(w, s, e);
    } else if s.SendRelease? {
      ReleaseEdges(t, w.sends[s.send].edge, w.sends[s.send].release.sourceGen, e);
    } else {
      RestOfEdges(w, s, q, e);
    }
  }

  lemma PostEdges(t: Tables, r: PostRequest, now: int)
    ensures Post(t, r, now).0.edges == t.edges || Post(t, r, now).0.edges == map[]
  {
    PostChanges(t, r, now);
  }

  lemma RestOfEdges(w: World, s: Step, q: Path, e: EdgeId)
    requires Enabled(w, s) && e in At(Apply(w, s), q).edges && Target(w, s) == Some(q)
    requires !s.PostStream? && !s.PutStream? && !s.SendAcquire? && !s.SendRelease? && !s.CommitJob?
    ensures e in At(w, q).edges && At(Apply(w, s), q).edges[e] == At(w, q).edges[e]
  {}

  lemma AcquireEdges(t: Tables, edge: EdgeId, offset: Option<string>, sent: Option<string>, now: int, e: EdgeId)
    requires e in ForkAcquire(t, edge, offset, sent, now).0.edges
    ensures var held := ForkAcquire(t, edge, offset, sent, now).0.edges[e];
            (e in t.edges && held == t.edges[e]) || (e == edge && (offset.Some? ==> held == offset.value))
  {}

  lemma PutEdges(t: Tables, gen: nat, o: CreateOptions, payload: Blob, now: int, e: EdgeId)
    requires e in CreateStream(t, gen, o, payload, now).edges
    ensures e in t.edges && CreateStream(t, gen, o, payload, now).edges[e] == t.edges[e]
  {}

  lemma ReleaseEdges(t: Tables, edge: EdgeId, gen: Option<nat>, e: EdgeId)
    requires e in ForkRelease(t, edge, gen).edges
    ensures e in t.edges && ForkRelease(t, edge, gen).edges[e] == t.edges[e]
  {}

  lemma CommitEdges(w: World, s: Step, e: EdgeId)
    requires Enabled(w, s) && s.CommitJob?
    ensures At(Apply(w, s), w.jobs[s.job].path).edges == At(w, w.jobs[s.job].path).edges
  {
    var job := w.jobs[s.job];
    var t := At(w, job.path);
    CommitKeepsEdges(t, w.next, OptionsOf(job), ForkOf(job, s.subOffset), s.prefix, s.payload, s.now);
    assert Abandoned(t, job).edges == t.edges;
  }

  lemma CommitKeepsEdges(t: Tables, gen: nat, o: CreateOptions, fork: ForkRef, prefix: Blob, payload: Blob, now: int)
    ensures var c := CommitFork(t, gen, o, fork, prefix, payload, now); c.Some? ==> c.value.edges == t.edges
  {}

  /** Intents appear when a creation begins, and keep what was asked for. */
  lemma IntentAcross(w: World, s: Step, e: EdgeId)
    requires Enabled(w, s) && e in At(Apply(w, s), e.home).intents
    ensures || (e in At(w, e.home).intents && At(Apply(w, s), e.home).intents[e] == At(w, e.home).intents[e])
            || (s.BeginFork? && e.serial == w.next)
  {
    var t := At(w, e.home);
    if Target(w, s) != Some(e.home) {
      StepIsLocal(w, s, e.home);
    } else if s.PostStream? {
      PostIntents(t, s.request, s.now);
    } else if s.PutStream? {
      PutIntents(t, w.next, s.options, s.payload, s.now);
    } else if s.SendAcquire? {
      var job := w.jobs[s.job];
      AcquireIntents(t, job.edge, job.intent.forkOffset, TypeSent(job), s.now);
    } else if s.SendRelease? {
      ReleaseIntents(t, w.sends[s.send].edge, w.sends[s.send].release.sourceGen);
    } else if s.CommitJob? {
      CommitIntents(w, s);
    } else {
      RestOfIntents(w, s, e);
    }
  }

  lemma PostIntents(t: Tables, r: PostRequest, now: int)
    ensures Post(t, r, now).0.intents == t.intents
  {
    PostChanges(t, r, now);
  }

  lemma PutIntents(t: Tables, gen: nat, o: CreateOptions, payload: Blob, now: int)
    ensures CreateStream(t, gen, o, payload, now).intents == t.intents
  {
    var v := Visible(t, now);
    assert v.intents == t.intents;
    var made := v.(meta := Some(NewMeta(gen, o, now, None)));
    if v.meta.None? && AppendNonEmpty(made, payload).Some? {
      AppendKeepsIntents(made, payload);
    }
  }

  lemma AppendKeepsIntents(t: Tables, payload: Blob)
    requires t.meta.Some? && AppendNonEmpty(t, payload).Some?
    ensures AppendNonEmpty(t, payload).value.intents == t.intents
  {}

  lemma AcquireIntents(t: Tables, edge: EdgeId, offset: Option<string>, sent: Option<string>, now: int)
    ensures ForkAcquire(t, edge, offset, sent, now).0.intents == t.intents
  {
    AcquireShape(t, edge, offset, sent, now);
  }

  lemma ReleaseIntents(t: Tables, edge: EdgeId, gen: Option<nat>)
    ensures ForkRelease(t, edge, gen).intents == t.intents
  {
    if t.meta.Some? && edge in t.edges {
      PurgeKeepsIntents(t.(edges := t.edges - {edge}));
    }
  }

  lemma PurgeKeepsIntents(t: Tables)
    requires t.meta.Some?
    ensures PurgeStream(t).intents == t.intents
  {}

  lemma CommitIntents(w: World, s: Step)
    requires Enabled(w, s) && s.CommitJob?
    ensures var job := w.jobs[s.job];
            At(Apply(w, s), job.path).intents == At(w, job.path).intents - {job.edge}
  {
    var job := w.jobs[s.job];
    var t := At(w, job.path);
    CommitDropsIntent(t, w.next, OptionsOf(job), ForkOf(job, s.subOffset), s.prefix, s.payload, s.now);
    assert Abandoned(t, job).intents == t.intents - {job.edge};
  }

  lemma CommitDropsIntent(t: Tables, gen: nat, o: CreateOptions, fork: ForkRef, prefix: Blob, payload: Blob, now: int)
    ensures var c := CommitFork(t, gen, o, fork, prefix, payload, now);
            c.Some? ==> c.value.intents == t.intents - {fork.edge}
  {}

  lemma RestOfIntents(w: World, s: Step, e: EdgeId)
    requires Enabled(w, s) && e in At(Apply(w, s), e.home).intents && Target(w, s) == Some(e.home)
    requires !s.PostStream? && !s.PutStream? && !s.SendAcquire? && !s.SendRelease? && !s.CommitJob?
    ensures || (e in At(w, e.home).intents && At(Apply(w, s), e.home).intents[e] == At(w, e.home).intents[e])
            || (s.BeginFork? && e.serial == w.next)
  {}

  lemma StepKeepsAsked(w: World, s: Step)
    requires Inv(w) && Enabled(w, s) && Serialised(w, s) && AllAsAsked(w)
    ensures AllAsAsked(Apply(w, s))
  {
    var v := Apply(w, s);
    forall q, e | e in At(v, q).edges ensures HeldAsAsked(v, q, e) {
      EdgeAcross(w, s, q, e);
      if e in At(v, e.home).intents {
        IntentAcross(w, s, e);
        KeptAsAsked(w, s, q, e);
      }
    }
  }

  lemma KeptAsAsked(w: World, s: Step, q: Path, e: EdgeId)
    requires Inv(w) && Enabled(w, s) && AllAsAsked(w)
    requires e in At(Apply(w, s), q).edges && e in At(Apply(w, s), e.home).intents
    ensures HeldAsAsked(Apply(w, s), q, e)
  {
    EdgeAcross(w, s, q, e);
    IntentAcross(w, s, e);
    if e in At(w, q).edges {
      assert HeldOk(w, q, e) && HeldAsAsked(w, q, e) && LocalOk(e.home, At(w, e.home), w.next);
    }
    if s.SendAcquire? {
      assert JobOk(w, w.jobs[s.job]) && LocalOk(w.jobs[s.job].path, At(w, w.jobs[s.job].path), w.next);
    }
  }

  lemma {:induction false} RunKeepsAsked(run: seq<World>, steps: seq<Step>, i: nat)
    requires Serial(run, steps) && Inv(run[0]) && AllAsAsked(run[0]) && i < |run|
    ensures AllAsAsked(run[i])
  {
    if i > 0 {
      RunKeepsAsked(run, steps, i - 1);
      RunKeepsInv(run, steps, i - 1);
      assert FollowsAt(run, steps, i - 1) && Serialised(run[i - 1], steps[i - 1]);
      StepKeepsAsked(run[i - 1], steps[i - 1]);
    }
  }

  /** In guarded runs a fork starts at the offset its request asked for, even when its creation was resumed. */
  lemma ForkStartsWhereAsked(run: seq<World>, steps: seq<Step>, k: nat)
    requires Serial(run, steps) && Init(run[0]) && k < |steps| && steps[k].CommitJob?
    requires GotAcquired(run[k], steps[k].job)
    ensures var job := run[k].jobs[steps[k].job];
            job.intent.forkOffset.Some? ==> job.reply.value.offset == job.intent.forkOffset.value
  {
    InitOk(run[0]);
    assert AllAsAsked(run[0]);
    RunKeepsAsked(run, steps, k);
    RunKeepsInv(run, steps, k);
    var job := run[k].jobs[steps[k].job];
    assert JobOk(run[k], job) && LocalOk(job.path, At(run[k], job.path), run[k].next);
    assert HeldAsAsked(run[k], job.intent.parent, job.edge);
  }

  // ---------------------------------------------- what stays of a request

  /** While a stream is there, its configuration stays, except that it may be closed. */
  predicate SameConfigured(m: Meta, n: Meta) {
    && n.contentType == m.contentType && n.fork == m.fork && SameLifetime(m, n) && (m.closed ==> n.closed)
  }

  lemma {:induction false} ConfigurationStays(run: seq<World>, steps: seq<Step>, i: nat, j: nat, p: Path)
    requires Run(run, steps) && Good(run[0]) && i <= j < |run| && Stays(run, i, j, p)
    ensures SameConfigured(At(run[i], p).meta.value, At(run[j], p).meta.value)
  {
    if i < j {
      StaysOneStep(run, steps, i, j, p);
      ConfigurationStays(run, steps, i, j - 1, p);
      assert FollowsAt(run, steps, j - 1);
      LifeGoesOn(run[j - 1], steps[j - 1], p);
    }
  }

  /** The stream can be used: it is neither given up nor expired. */
  predicate Usable(w: World, p: Path, now: int) { Live(w, p) && !IsExpired(At(w, p).meta.value, now) }

  lemma AnswerToUsable(w: World, p: Path, r: PutRequest, now: int)
    requires Usable(w, p, now)
    ensures var m := At(w, p).meta.value;
            AnswerPut(At(w, p), r, now)
            == if SameConfiguration(r, m) then AlreadyThere(m.currentOffset, m.closed) else OtherConfiguration
  {}

  /**
   A PUT that made a stream and is sent again, at any later time of any run while that
   stream is usable, is recognised exactly if the stream has not been closed since, or
   was to be closed from the start.
   */
  lemma RepeatedPutIsRecognisedIff(run: seq<World>, steps: seq<Step>, i: nat, j: nat, r: PutRequest, now: int)
    requires Run(run, steps) && Init(run[0]) && i < j < |run| && steps[i].PutStream?
    requires r.source.None? && r.forkOffset.None? && r.subOffset.None?
    requires steps[i].options == r.asked.(contentType := SanitizeContentType(r.asked.contentType, false))
    requires IsFree(At(run[i], steps[i].path), steps[i].now) && |steps[i].payload| + 5 < U64_LIMIT
    requires Stays(run, i + 1, j, steps[i].path) && Usable(run[j], steps[i].path, now)
    ensures var m := At(run[j], steps[i].path).meta.value;
            AnswerPut(At(run[j], steps[i].path), r, now)
            == if m.closed && !r.asked.closed then OtherConfiguration else AlreadyThere(m.currentOffset, m.closed)
  {
    var p := steps[i].path;
    InitGood(run[0]);
    NothingIsLeft(run, steps, i, p);
    assert FollowsAt(run, steps, i);
    PutCreates(run[i], steps[i]);
    ConfigurationStays(run, steps, i + 1, j, p);
    AnswerToUsable(run[j], p, r, now);
  }

  /** A path counts as free without a stream, or with an expired one that has no forks; with forks it stays taken. */
  lemma FreeAndTaken(t: Tables, r: PutRequest, now: int)
    ensures AnswerPut(t, r, now).NothingThere? <==> IsFree(t, now)
    ensures AnswerPut(t, r, now).StillRead? <==>
              !IsFree(t, now) && (t.meta.value.softDeleted || IsExpired(t.meta.value, now))
  {
    assert |t.edges| > 0 <==> t.edges != map[];
  }

  /** The two types agree, or one is left out by a request that names a source. */
  predicate TypesAgree(r: PutRequest, s: PutRequest) {
    var a := SanitizeContentType(r.asked.contentType, r.source.Some?);
    var b := SanitizeContentType(s.asked.contentType, s.source.Some?);
    !Differs(a, b) || (r.source.Some? && (a.None? || b.None?))
  }

  /** Requests that the same stream recognises ask for the same: what is asked for otherwise is turned away. */
  lemma RecognisedRequestsAgree(t: Tables, r: PutRequest, s: PutRequest, now: int)
    requires AnswerPut(t, r, now).AlreadyThere? && AnswerPut(t, s, now).AlreadyThere?
    ensures r.source == s.source && OrZero(r.subOffset) == OrZero(s.subOffset) && TypesAgree(r, s)
    ensures r.forkOffset.Some? && s.forkOffset.Some? ==> r.forkOffset == s.forkOffset
    ensures r.asked.ttlSeconds == s.asked.ttlSeconds && r.asked.expiresAt == s.asked.expiresAt
    ensures r.asked.closed == s.asked.closed
  {}

  /** This is the request of a fork that was made. */
  predicate IsRequestOf(r: PutRequest, job: Job, s: Step) {
    && job.kind.Creating? && s.CommitJob? && r.asked == job.kind.asked && r.source == Some(job.intent.parent)
    && r.forkOffset == job.intent.forkOffset && OrZero(r.subOffset) == OrZero(s.subOffset)
  }

  /** The request says how long the fork lives, or there was nothing to take over from its source. */
  predicate LifetimeIsOwn(asked: CreateOptions, source: Meta) {
    asked.ttlSeconds.Some? || asked.expiresAt.Some? || (source.ttlSeconds.None? && source.expiresAt.None?)
  }

  /** What a fork that was just made has of its request. */
  lemma MadeAsAsked(run: seq<World>, steps: seq<Step>, i: nat, k: nat, r: PutRequest)
    requires Serial(run, steps) && Init(run[0]) && i < k < |steps| && Made(run, steps, i, k)
    requires IsRequestOf(r, run[k].jobs[steps[k].job], steps[k])
    ensures var job := run[k].jobs[steps[k].job];
            && Exists(run[i + 1], job.intent.parent) && IsFork(run[k + 1], job.path)
            && var m := At(run[k + 1], job.path).meta.value; var f := m.fork.value;
               && LivesAs(r.asked, At(run[i + 1], job.intent.parent).meta.value, m) && m.closed == r.asked.closed
               && r.source == Some(f.parent) && OrZero(f.subOffset) == OrZero(r.subOffset)
               && (r.forkOffset.Some? ==> f.offset == r.forkOffset.value)
               && var sent := SanitizeContentType(r.asked.contentType, true);
                  (sent.Some? ==> m.contentType == sent)
  {
    var job := run[k].jobs[steps[k].job];
    assert FollowsAt(run, steps, k);
    ForkLivesAs(run, steps, i, k);
    ForkStartsWhereAsked(run, steps, k);
    assert Commits(run[k], steps[k]);
    CommitBegins(run[k], steps[k]);
    CommitSetsType(run[k], steps[k]);
    ResolvedType(job.kind.asked, job.reply.value);
  }

  /**
   A fork's PUT that is sent again, at any later time of any guarded run while the fork
   is usable, is recognised exactly if the fork has not been closed since and its
   lifetime is its own: one that was taken over from the source is held against it.
   */
  lemma RepeatedForkIsRecognisedIff(run: seq<World>, steps: seq<Step>, i: nat, k: nat, j: nat, r: PutRequest, now: int)
    requires Serial(run, steps) && Init(run[0]) && i < k < |steps| && Made(run, steps, i, k)
    requires IsRequestOf(r, run[k].jobs[steps[k].job], steps[k])
    requires var p := run[k].jobs[steps[k].job].path; k < j < |run| && Stays(run, k + 1, j, p) && Usable(run[j], p, now)
    ensures var job := run[k].jobs[steps[k].job]; var m := At(run[j], job.path).meta.value;
            && Exists(run[i + 1], job.intent.parent)
            && AnswerPut(At(run[j], job.path), r, now)
               == if (m.closed && !r.asked.closed)
                     || !LifetimeIsOwn(r.asked, At(run[i + 1], job.intent.parent).meta.value)
                  then OtherConfiguration
                  else AlreadyThere(m.currentOffset, m.closed)
  {
    var p := run[k].jobs[steps[k].job].path;
    InitGood(run[0]);
    MadeAsAsked(run, steps, i, k, r);
    ConfigurationStays(run, steps, k + 1, j, p);
    AnswerToUsable(run[j], p, r, now);
  }
}
