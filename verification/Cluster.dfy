/**
 The distributed fork protocol: stream actors, the volatile state of fork
 creation, reconciliation and release, and one step per committed transaction or
 executed remote action. A crash or a lost reply is the loss of volatile state.
 */
module Cluster {
  import opened Options
  import opened Offsets
  import opened Tables

  /** A creation knows what its request asks for. */
  datatype JobKind = Creating(asked: CreateOptions) | Reconciling

  /**
   A fork creation between its first and last transaction, or one entry of the list
   of intents that a reconciling pass has read: it keeps the intent as it was listed.
   */
  datatype Job = Job(kind: JobKind, path: Path, edge: EdgeId, intent: Intent, reply: Option<AcquireReply>)

  /** One entry of the list of releases that a flush has read, and whether its source has acknowledged it. */
  datatype Send = Send(edge: EdgeId, release: Release, acked: bool)

  datatype World = World(
    actors: map<Path, Tables>,
    jobs: map<nat, Job>,
    sends: map<nat, Send>,
    next: nat)

  /** An actor that was never addressed has empty tables. */
  function At(w: World, p: Path): Tables { if p in w.actors then w.actors[p] else NO_TABLES }

  function With(w: World, p: Path, t: Tables): World { w.(actors := w.actors[p := t]) }

  predicate Init(w: World) { w.actors == map[] && w.jobs == map[] && w.sends == map[] }

  datatype Step =
    | BeginFork(job: nat, path: Path, parent: Path, forkOffset: Option<string>, asked: CreateOptions, edge: EdgeId)
    | BeginPass(path: Path, listed: map<nat, EdgeId>)
    | SendAcquire(job: nat, now: int, lost: bool)
    | FinishRefused(job: nat)
    | CommitJob(job: nat, subOffset: Option<nat>, prefix: Blob, payload: Blob, now: int)
    | AbandonJob(job: nat)
    | DropJob(job: nat)
    | BeginFlush(path: Path, listed: map<nat, EdgeId>)
    | SendRelease(send: nat, lost: bool)
    | DequeueRelease(send: nat)
    | DropSend(send: nat)
    | DeleteStream(path: Path, now: int)
    | ExpireStream(path: Path, now: int)
    | PutStream(path: Path, options: CreateOptions, payload: Blob, now: int)
    | PostStream(path: Path, request: PostRequest, now: int)
    | TouchStream(path: Path, now: int)

  predicate Awaits(w: World, j: nat) { j in w.jobs && w.jobs[j].reply.None? }

  predicate GotRefused(w: World, j: nat) { j in w.jobs && w.jobs[j].reply.Some? && w.jobs[j].reply.value.Refused? }

  predicate GotAcquired(w: World, j: nat) { j in w.jobs && w.jobs[j].reply.Some? && w.jobs[j].reply.value.Acquired? }

  /** The edge id a fork creation uses: that of a remembered identical attempt, or a new one. */
  predicate PicksEdge(w: World, p: Path, intent: Intent, edge: EdgeId) {
    var intents := At(w, p).intents;
    if exists e :: e in intents && intents[e] == intent
    then edge in intents && intents[edge] == intent
    else edge == EdgeId(p, w.next)
  }

  /** A list read in one query: any part of the table (the query has a limit), each entry once. */
  predicate Lists(listed: map<nat, EdgeId>, all: set<EdgeId>) {
    && (forall j :: j in listed ==> listed[j] in all)
    && (forall j, k :: j in listed && k in listed && j != k ==> listed[j] != listed[k])
  }

  predicate Enabled(w: World, s: Step) {
    match s
    case BeginFork(j, p, q, off, _, e) =>
      j !in w.jobs && p != q && At(w, p).meta.None? && PicksEdge(w, p, Intent(q, off), e)
      && (forall k :: k in w.jobs && w.jobs[k].kind.Creating? ==> w.jobs[k].path != p)
    case BeginPass(p, listed) => listed.Keys !! w.jobs.Keys && Lists(listed, At(w, p).intents.Keys)
    case SendAcquire(j, _, _) => Awaits(w, j)
    case FinishRefused(j) => GotRefused(w, j)
    case CommitJob(j, _, _, _, _) => GotAcquired(w, j) && w.jobs[j].kind.Creating?
    case AbandonJob(j) => GotAcquired(w, j)
    case DropJob(j) => j in w.jobs
    case BeginFlush(p, listed) => listed.Keys !! w.sends.Keys && Lists(listed, At(w, p).releases.Keys)
    case SendRelease(d, _) => d in w.sends && !w.sends[d].acked
    case DequeueRelease(d) => d in w.sends && w.sends[d].acked
    case DropSend(d) => d in w.sends
    case _ => true
  }

  predicate Busy(w: World, e: EdgeId) { exists k :: k in w.jobs && w.jobs[k].edge == e }

  /**
   An intent is in the hands of one fork creation or one listed entry of one pass at
   a time. The code does not see to that: a pass works from a list read at its start
   and without the lifecycle lock.
   */
  predicate Serialised(w: World, s: Step) {
    match s
    case BeginFork(_, _, _, _, _, e) => !Busy(w, e)
    case BeginPass(_, listed) => forall j :: j in listed ==> !Busy(w, listed[j])
    case _ => true
  }

  function ForkOf(j: Job, subOffset: Option<nat>): ForkRef
    requires j.reply.Some? && j.reply.value.Acquired?
  {
    ForkRef(j.intent.parent, j.reply.value.offset, subOffset, j.edge, j.reply.value.sourceGen)
  }

  /** The content type an acquire names: a reconciling pass names none. */
  function TypeSent(j: Job): Option<string> {
    if j.kind.Creating? then SanitizeContentType(j.kind.asked.contentType, true) else None
  }

  function OptionsOf(j: Job): CreateOptions
    requires j.kind.Creating? && j.reply.Some? && j.reply.value.Acquired?
  {
    ForkOptions(j.kind.asked, j.reply.value)
  }

  function Abandoned(t: Tables, j: Job): Tables
    requires j.reply.Some? && j.reply.value.Acquired?
  {
    IntentToRelease(t, j.edge, j.intent.parent, j.reply.value.sourceGen)
  }

  function Deleted(t: Tables, now: int): Tables {
    var v := Visible(t, now);
    if v.meta.Some? && !v.meta.value.softDeleted then Retire(v) else v
  }

  function Apply(w: World, s: Step): World
    requires Enabled(w, s)
  {
    match s
    case BeginFork(j, p, q, off, asked, e) =>
      With(w, p, PutIntent(At(w, p), e, Intent(q, off)))
        .(jobs := w.jobs[j := Job(Creating(asked), p, e, Intent(q, off), None)], next := w.next + 1)
    case BeginPass(p, listed) =>
      w.(jobs := w.jobs + map j | j in listed :: Job(Reconciling, p, listed[j], At(w, p).intents[listed[j]], None))
    case SendAcquire(j, now, lost) =>
      var job := w.jobs[j];
      var q := job.intent.parent;
      var (t, reply) := ForkAcquire(At(w, q), job.edge, job.intent.forkOffset, TypeSent(job), now);
      With(w, q, t).(jobs := if lost then w.jobs - {j} else w.jobs[j := job.(reply := Some(reply))])
    case FinishRefused(j) =>
      var job := w.jobs[j];
      With(w, job.path, DropIntent(At(w, job.path), job.edge)).(jobs := w.jobs - {j})
    case CommitJob(j, subOffset, prefix, payload, now) =>
      var job := w.jobs[j];
      var t := At(w, job.path);
      var created := CommitFork(t, w.next, OptionsOf(job), ForkOf(job, subOffset), prefix, payload, now);
      With(w, job.path, if created.Some? then created.value else Abandoned(t, job))
        .(jobs := w.jobs - {j}, next := w.next + 1)
    case AbandonJob(j) =>
      var job := w.jobs[j];
      With(w, job.path, Abandoned(At(w, job.path), job)).(jobs := w.jobs - {j})
    case DropJob(j) => w.(jobs := w.jobs - {j})
    case BeginFlush(p, listed) =>
      w.(sends := w.sends + map d | d in listed :: Send(listed[d], At(w, p).releases[listed[d]], false))
    case SendRelease(d, lost) =>
      var send := w.sends[d];
      var q := send.release.parent;
      With(w, q, ForkRelease(At(w, q), send.edge, send.release.sourceGen))
        .(sends := if lost then w.sends - {d} else w.sends[d := send.(acked := true)])
    case DequeueRelease(d) =>
      var e := w.sends[d].edge;
      With(w, e.home, Dequeue(At(w, e.home), e)).(sends := w.sends - {d})
    case DropSend(d) => w.(sends := w.sends - {d})
    case DeleteStream(p, now) => With(w, p, Deleted(At(w, p), now))
    case ExpireStream(p, now) => With(w, p, Visible(At(w, p), now))
    case PutStream(p, options, payload, now) =>
      With(w, p, CreateStream(At(w, p), w.next, options, payload, now)).(next := w.next + 1)
    case PostStream(p, request, now) => With(w, p, Post(At(w, p), request, now).0)
    case TouchStream(p, now) => With(w, p, Touch(At(w, p), now))
  }

  /** The creation's last transaction makes the fork exist. */
  predicate Commits(w: World, s: Step)
    requires Enabled(w, s) && s.CommitJob?
  {
    var job := w.jobs[s.job];
    CommitFork(At(w, job.path), w.next, OptionsOf(job), ForkOf(job, s.subOffset), s.prefix, s.payload, s.now).Some?
  }

  // -------------------------------------------------------------- invariant

  predicate Exists(w: World, p: Path) { At(w, p).meta.Some? }

  function Gen(w: World, p: Path): nat
    requires Exists(w, p)
  {
    At(w, p).meta.value.gen
  }

  predicate IsFork(w: World, p: Path) { Exists(w, p) && At(w, p).meta.value.fork.Some? }

  function Fork(w: World, p: Path): ForkRef
    requires IsFork(w, p)
  {
    At(w, p).meta.value.fork.value
  }

  predicate HasForkEdge(t: Tables, e: EdgeId) {
    t.meta.Some? && t.meta.value.fork.Some? && t.meta.value.fork.value.edge == e
  }

  /** What holds of one actor's tables by themselves. */
  ghost predicate LocalOk(p: Path, t: Tables, next: nat) {
    && (t.meta.None? ==> t.edges == map[] && t.messages == [] && t.producers == map[])
    && (forall e :: e in t.intents ==> e.home == p && e.serial < next && e !in t.releases)
    && (forall e :: e in t.releases ==> e.home == p && e.serial < next && t.releases[e].sourceGen.Some?)
    && (t.meta.Some? ==>
          var m := t.meta.value;
          && m.gen < next
          && (m.softDeleted ==> t.edges != map[])
          && (m.fork.Some? ==>
                var f := m.fork.value;
                f.edge.home == p && f.edge.serial < next && f.edge !in t.intents && f.edge !in t.releases
                && f.sourceGen < m.gen))
  }

  /** The minting actor's record of an edge names this source, its generation and the held offset. */
  predicate Responsible(t: Tables, e: EdgeId, q: Path, gen: nat, offset: string) {
    || (e in t.intents && t.intents[e].parent == q)
    || (e in t.releases && t.releases[e] == Release(q, Some(gen)))
    || (HasForkEdge(t, e)
        && var f := t.meta.value.fork.value; f.parent == q && f.sourceGen == gen && f.offset == offset)
  }

  predicate HeldOk(w: World, q: Path, e: EdgeId)
    requires e in At(w, q).edges
  {
    Exists(w, q) && Responsible(At(w, e.home), e, q, Gen(w, q), At(w, q).edges[e])
  }

  /** The fork's source exists at the recorded generation and holds the edge with the fork offset. */
  predicate Pinned(w: World, p: Path)
    requires IsFork(w, p)
  {
    var f := Fork(w, p);
    var source := At(w, f.parent);
    source.meta.Some? && source.meta.value.gen == f.sourceGen
    && f.edge in source.edges && source.edges[f.edge] == f.offset
  }

  ghost predicate Unheld(w: World, e: EdgeId) { forall q :: e !in At(w, q).edges }

  ghost predicate JobOk(w: World, job: Job) {
    && job.edge in At(w, job.path).intents
    && At(w, job.path).intents[job.edge] == job.intent
    && (job.reply.Some? ==>
          match job.reply.value
          case Refused(_) => Unheld(w, job.edge)
          case Acquired(offset, gen, _, _, _) =>
            var source := At(w, job.intent.parent);
            source.meta.Some? && source.meta.value.gen == gen
            && job.edge in source.edges && source.edges[job.edge] == offset)
  }

  ghost predicate JobsOk(w: World) {
    && (forall j {:trigger JobOk(w, w.jobs[j])} :: j in w.jobs ==> JobOk(w, w.jobs[j]))
    && (forall j, k :: j in w.jobs && k in w.jobs && j != k ==> w.jobs[j].edge != w.jobs[k].edge)
  }

  /** A dead edge: no source holds it, and at most a queued release still names it. */
  ghost predicate Dead(w: World, e: EdgeId) {
    e.serial < w.next && e !in At(w, e.home).intents && !HasForkEdge(At(w, e.home), e) && Unheld(w, e)
  }

  predicate Queued(w: World, e: EdgeId, r: Release) { e in At(w, e.home).releases && At(w, e.home).releases[e] == r }

  /** A listed release is still queued or its edge is dead; an acknowledged one is dead. */
  ghost predicate SendOk(w: World, send: Send) {
    Dead(w, send.edge) || (!send.acked && Queued(w, send.edge, send.release))
  }

  /** The part of the invariant that relates tables of different actors. */
  ghost predicate GraphOk(w: World) {
    && (forall p {:trigger LocalOk(p, At(w, p), w.next)} :: LocalOk(p, At(w, p), w.next))
    && (forall q, e {:trigger HeldOk(w, q, e)} :: e in At(w, q).edges ==> HeldOk(w, q, e))
    && (forall p {:trigger Pinned(w, p)} :: IsFork(w, p) ==> Pinned(w, p))
  }

  ghost predicate SendsOk(w: World) {
    forall d {:trigger SendOk(w, w.sends[d])} :: d in w.sends ==> SendOk(w, w.sends[d])
  }

  ghost predicate Inv(w: World) { GraphOk(w) && JobsOk(w) && SendsOk(w) }

  // ------------------------------------------------------------------- runs

  predicate Follows(w: World, s: Step, v: World) { Enabled(w, s) && v == Apply(w, s) }

  /** A run from any world; `Serial` adds the guard. */
  ghost predicate Run(run: seq<World>, steps: seq<Step>) {
    |run| == |steps| + 1 && forall i :: 0 <= i < |steps| ==> FollowsAt(run, steps, i)
  }

  predicate FollowsAt(run: seq<World>, steps: seq<Step>, i: nat)
    requires |run| == |steps| + 1 && i < |steps|
  {
    Follows(run[i], steps[i], run[i + 1])
  }

  ghost predicate Serial(run: seq<World>, steps: seq<Step>) {
    && Run(run, steps)
    && (forall i {:trigger Serialised(run[i], steps[i])} :: 0 <= i < |steps| ==> Serialised(run[i], steps[i]))
  }
}
