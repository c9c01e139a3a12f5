/** Which content type a fork ends up with, and when it is not its source's. */
module ForkTypes {
  import opened Options
  import opened Offsets
  import opened Tables
  import opened Cluster
  import opened ClusterProofs
  import opened ForkSafety
  import opened LogSafety

  predicate Differs(a: Option<string>, b: Option<string>) { NormalizeContentType(a) != NormalizeContentType(b) }

  lemma DefaultIsNotBlank()
    ensures Differs(Some(DEFAULT_CONTENT_TYPE), None)
  {
    NoParameters();
    NormalOf(DEFAULT_CONTENT_TYPE);
    NormalOfNone();
  }

  lemma NormalOfNone()
    ensures |NormalizeContentType(None)| == 0
  {}

  lemma NoParameters()
    ensures var v := DEFAULT_CONTENT_TYPE; |v| == 24 && v[0] == 'a' && v[23] == 'm' && ';' !in v
  {}

  /** A type without blanks at its ends and without parameters is not normalised away. */
  lemma NormalOf(v: string)
    requires v != [] && !IsBlank(v[0]) && !IsBlank(v[|v| - 1]) && ';' !in v
    ensures |NormalizeContentType(Some(v))| == |v|
  {
    assert Find(v, ';') == |v| && v[..|v|] == v;
    assert TrimStart(v) == v && TrimEnd(v) == v;
  }

  /** What a request and the source's answer make of the type. */
  lemma TypeOfFork(asked: CreateOptions, reply: AcquireReply, source: Meta)
    requires reply.Acquired? && reply.contentType == source.contentType
    ensures var provided := SanitizeContentType(asked.contentType, true);
            Differs(ForkOptions(asked, reply).contentType, source.contentType)
            <==> if provided.Some? then ContentTypeClash(provided, source) else source.contentType.None?
  {
    var provided := SanitizeContentType(asked.contentType, true);
    ResolvedType(asked, reply);
    if provided.None? && source.contentType.None? {
      DefaultIsNotBlank();
    }
  }

  lemma ResolvedType(asked: CreateOptions, reply: AcquireReply)
    requires reply.Acquired?
    ensures var provided := SanitizeContentType(asked.contentType, true);
            && (provided.Some? ==> Trim(provided.value) != "")
            && ForkOptions(asked, reply).contentType
               == if provided.Some? then provided
                  else if reply.contentType.Some? then reply.contentType
                  else Some(DEFAULT_CONTENT_TYPE)
  {}

  /** The acquire of a creation and the commit of the fork it made. */
  ghost predicate Made(run: seq<World>, steps: seq<Step>, i: nat, k: nat)
    requires |run| == |steps| + 1 && i < k < |steps|
  {
    && steps[i].SendAcquire? && steps[k].CommitJob? && steps[k].job == steps[i].job
    && Enabled(run[i], steps[i]) && GotAcquired(run[i + 1], steps[i].job)
    && GotAcquired(run[k], steps[k].job) && run[k].jobs[steps[k].job] == run[i + 1].jobs[steps[k].job]
    && !Exists(run[k], run[k].jobs[steps[k].job].path) && Exists(run[k + 1], run[k].jobs[steps[k].job].path)
  }

  /** What an acquire for a creation found, as far as types go. */
  lemma AcquireChecksType(w: World, s: Step)
    requires Enabled(w, s) && s.SendAcquire? && GotAcquired(Apply(w, s), s.job)
    ensures var v := Apply(w, s); var job := v.jobs[s.job]; var q := job.intent.parent;
            && Exists(v, q) && Gen(v, q) == job.reply.value.sourceGen
            && At(v, q).meta.value.contentType == job.reply.value.contentType
            && (ContentTypeClash(TypeSent(job), At(v, q).meta.value) ==> job.edge in At(w, q).edges)
  {}

  /** The type a committed fork gets. */
  lemma CommitSetsType(w: World, s: Step)
    requires Enabled(w, s) && s.CommitJob?
    requires !Exists(w, w.jobs[s.job].path) && Exists(Apply(w, s), w.jobs[s.job].path)
    ensures At(Apply(w, s), w.jobs[s.job].path).meta.value.contentType == OptionsOf(w.jobs[s.job]).contentType
  {
    var job := w.jobs[s.job];
    var t, o, fork := At(w, job.path), OptionsOf(job), ForkOf(job, s.subOffset);
    var created := t.(meta := Some(NewMeta(w.next, o, s.now, Some(fork))));
    assert Commits(w, s);
    AppendKeepsType(created, s.prefix);
    AppendKeepsType(AppendNonEmpty(created, s.prefix).value, s.payload);
  }

  lemma AppendKeepsType(t: Tables, payload: Blob)
    requires t.meta.Some? && AppendNonEmpty(t, payload).Some?
    ensures var u := AppendNonEmpty(t, payload).value;
            u.meta.Some? && u.meta.value.contentType == t.meta.value.contentType
  {}

  /** A source that is still there has the type it had. */
  lemma SourceKeepsType(run: seq<World>, steps: seq<Step>, i: nat, k: nat, q: Path)
    requires Run(run, steps) && Good(run[0]) && i <= k < |run|
    requires Exists(run[i], q) && Exists(run[k], q) && Gen(run[k], q) == Gen(run[i], q)
    ensures At(run[k], q).meta.value.contentType == At(run[i], q).meta.value.contentType
  {
    RunStaysGood(run, steps, i);
    RunIsLater(run, steps, i, k);
    assert StreamOk(run[i], q) && LogLater(At(run[i], q), At(run[k], q));
  }

  /** When the fork is made, its source has the type the acquire has answered with. */
  lemma SourceHasAnsweredType(run: seq<World>, steps: seq<Step>, i: nat, k: nat, job: Job)
    requires Run(run, steps) && Good(run[0]) && i < k < |steps| && Made(run, steps, i, k)
    requires job == run[k].jobs[steps[k].job]
    requires Exists(run[k + 1], job.intent.parent) && Gen(run[k + 1], job.intent.parent) == job.reply.value.sourceGen
    ensures At(run[k + 1], job.intent.parent).meta.value.contentType == job.reply.value.contentType
    ensures ContentTypeClash(TypeSent(job), At(run[k + 1], job.intent.parent).meta.value) ==>
              job.edge in At(run[i], job.intent.parent).edges
  {
    assert FollowsAt(run, steps, i);
    AcquireChecksType(run[i], steps[i]);
    SourceKeepsType(run, steps, i + 1, k + 1, job.intent.parent);
  }

  /**
   A fork's type differs from that of its source if and only if its request named
   another one, or neither had any; and a request that names another type gets its fork
   only if its acquire was answered from an edge that was already known.
   */
  lemma ForkTypeDiffersIff(run: seq<World>, steps: seq<Step>, i: nat, k: nat)
    requires Run(run, steps) && Good(run[0]) && i < k < |steps| && Made(run, steps, i, k)
    requires var job := run[k].jobs[steps[k].job];
             Exists(run[k + 1], job.intent.parent) && Gen(run[k + 1], job.intent.parent) == job.reply.value.sourceGen
    ensures var job := run[k].jobs[steps[k].job];
            var source, fork := At(run[k + 1], job.intent.parent).meta.value, At(run[k + 1], job.path).meta.value;
            && (Differs(fork.contentType, source.contentType) <==>
                  if TypeSent(job).Some? then ContentTypeClash(TypeSent(job), source) else source.contentType.None?)
            && (ContentTypeClash(TypeSent(job), source) ==> job.edge in At(run[i], job.intent.parent).edges)
  {
    var job := run[k].jobs[steps[k].job];
    assert FollowsAt(run, steps, k);
    SourceHasAnsweredType(run, steps, i, k, job);
    CommitSetsType(run[k], steps[k]);
    TypeOfFork(job.kind.asked, job.reply.value, At(run[k + 1], job.intent.parent).meta.value);
  }
}
