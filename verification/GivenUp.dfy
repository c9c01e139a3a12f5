/**
 Streams that are given up, by an acknowledged delete or by a look after they have
 expired. Without forks they go at once. With forks they stay to be read through, but
 nothing is written to them and no fork is added, and they go with the last edge.
 */
module GivenUp {
  import opened Options
  import opened Offsets
  import opened Tables
  import opened Cluster
  import opened ClusterProofs
  import opened ForkSafety
  import opened Logs
  import opened LogSafety

  /** A POST that is well-formed enough for the stream to be looked at. */
  predicate Examined(r: PostRequest) {
    && |r.body| <= MAX_BODY_BYTES && (r.body == [] ==> r.close) && (r.body != [] ==> r.contentType.Some?)
  }

  /** The clock reading at which a step looks at this stream, if it does. */
  function LookTime(w: World, s: Step, p: Path): Option<int>
    requires Enabled(w, s)
  {
    match s
    case ExpireStream(q, now) => if q == p then Some(now) else None
    case DeleteStream(q, now) => if q == p then Some(now) else None
    case PutStream(q, _, _, now) => if q == p then Some(now) else None
    case PostStream(q, r, now) => if q == p && Examined(r) then Some(now) else None
    case SendAcquire(j, now, _) =>
      if w.jobs[j].intent.parent == p && w.jobs[j].edge !in At(w, p).edges then Some(now) else None
    case _ => None
  }

  /** A delete that is acknowledged: the stream is there, live and unexpired. */
  predicate Deletes(w: World, s: Step, p: Path) {
    s.DeleteStream? && s.path == p && Live(w, p) && !IsExpired(At(w, p).meta.value, s.now)
  }

  predicate GivesUp(w: World, s: Step, p: Path)
    requires Enabled(w, s)
  {
    Exists(w, p)
    && (Deletes(w, s, p) || (LookTime(w, s, p).Some? && IsExpired(At(w, p).meta.value, LookTime(w, s, p).value)))
  }

  /** This incarnation is still there. */
  predicate Remains(w: World, p: Path, gen: nat) { Exists(w, p) && Gen(w, p) == gen }

  /** Its contents and its writers are as they were. */
  predicate SameContents(t: Tables, u: Tables)
    requires t.meta.Some? && u.meta.Some?
  {
    && u.messages == t.messages && u.producers == t.producers
    && u.meta.value == t.meta.value.(softDeleted := u.meta.value.softDeleted, lastAccessed := u.meta.value.lastAccessed)
  }

  // ---------------------------------------------------------- being given up

  lemma LookedAt(t: Tables, now: int)
    requires t.meta.Some? && IsExpired(t.meta.value, now)
    ensures var v := Visible(t, now);
            if t.edges == map[] then v.meta.None?
            else v.meta.Some? && v.meta.value.softDeleted && v.edges == t.edges && SameContents(t, v)
  {
    assert |t.edges| > 0 <==> t.edges != map[];
  }

  lemma PostIsGone(t: Tables, r: PostRequest, now: int)
    requires t.meta.Some? && Examined(r)
    requires IsExpired(t.meta.value, now) || (t.meta.value.softDeleted && t.edges != map[])
    ensures Post(t, r, now)
            == (Visible(t, now), if Visible(t, now).meta.None? then StreamNotFound else StreamGone)
  {
    if IsExpired(t.meta.value, now) {
      LookedAt(t, now);
    }
  }

  /** Given up, a stream without edges is gone; with edges it is soft-deleted, and otherwise as it was. */
  lemma GivingUpMeans(w: World, s: Step, p: Path)
    requires Enabled(w, s) && GivesUp(w, s, p) && Gen(w, p) < w.next
    ensures Remains(Apply(w, s), p, Gen(w, p)) <==> At(w, p).edges != map[]
    ensures Remains(Apply(w, s), p, Gen(w, p)) ==>
              var t, u := At(w, p), At(Apply(w, s), p);
              u.meta.value.softDeleted && u.edges == t.edges && SameContents(t, u)
  {
    var t := At(w, p);
    assert |t.edges| > 0 <==> t.edges != map[];
    if !Deletes(w, s, p) {
      LookedAt(t, LookTime(w, s, p).value);
      if s.PostStream? {
        PostIsGone(t, s.request, s.now);
      } else if s.SendAcquire? {
        AcquireShape(t, w.jobs[s.job].edge, w.jobs[s.job].intent.forkOffset, TypeSent(w.jobs[s.job]), s.now);
      } else if s.PutStream? && t.edges == map[] {
        CreateStreamShape(t, w.next, s.options, s.payload, s.now);
      }
    }
  }

  // ------------------------------------------------------------ afterwards

  /** The edge of this stream that a step releases, if it does. */
  function Released(w: World, s: Step, p: Path): set<EdgeId>
    requires Enabled(w, s) && Exists(w, p)
  {
    if s.SendRelease? && w.sends[s.send].release.parent == p
       && (w.sends[s.send].release.sourceGen.Some? ==> w.sends[s.send].release.sourceGen.value == Gen(w, p))
    then {w.sends[s.send].edge} else {}
  }

  ghost predicate IsGone(t: Tables) { t.meta.Some? && t.meta.value.softDeleted && t.edges != map[] }

  /** One step at a stream that has been given up: it goes with its last edge, and until then only loses edges. */
  lemma GoneStep(w: World, s: Step, p: Path)
    requires Enabled(w, s) && IsGone(At(w, p)) && Gen(w, p) < w.next
    ensures var t, u := At(w, p), At(Apply(w, s), p);
            && (Remains(Apply(w, s), p, Gen(w, p)) <==> t.edges.Keys - Released(w, s, p) != {})
            && (Remains(Apply(w, s), p, Gen(w, p)) ==>
                  IsGone(u) && SameContents(t, u) && u.edges.Keys == t.edges.Keys - Released(w, s, p))
  {
    if Target(w, s) != Some(p) {
      StepIsLocal(w, s, p);
      assert At(w, p).edges.Keys - Released(w, s, p) == At(w, p).edges.Keys;
      assert At(w, p).edges.Keys != {};
    } else if s.SendRelease? {
      var send := w.sends[s.send];
      assert At(Apply(w, s), p) == ForkRelease(At(w, p), send.edge, send.release.sourceGen);
      GoneRelease(At(w, p), send.edge, send.release.sourceGen);
    } else {
      GoneOtherStep(w, s, p);
      assert At(w, p).edges.Keys - Released(w, s, p) == At(w, p).edges.Keys;
    }
  }

  lemma GoneRelease(t: Tables, e: EdgeId, gen: Option<nat>)
    requires IsGone(t)
    ensures var u := ForkRelease(t, e, gen);
            var left := t.edges.Keys - (if gen.Some? && gen.value != t.meta.value.gen then {} else {e});
            && (u.meta.Some? <==> left != {})
            && (u.meta.Some? ==> IsGone(u) && SameContents(t, u) && u.edges.Keys == left
                                 && u.meta.value.gen == t.meta.value.gen)
  {
    var d :| d in t.edges;
    if e in t.edges && (gen.Some? ==> gen.value == t.meta.value.gen) {
      LastEdge(t, e);
    } else {
      assert e !in t.edges ==> t.edges.Keys - {e} == t.edges.Keys;
      assert t.edges.Keys - {} == t.edges.Keys;
    }
  }

  lemma LastEdge(t: Tables, e: EdgeId)
    requires IsGone(t) && e in t.edges
    ensures var left, u := t.edges.Keys - {e}, ForkRelease(t, e, Some(t.meta.value.gen));
            && ForkRelease(t, e, None) == u
            && (u.meta.Some? <==> left != {})
            && (u.meta.Some? ==> u == t.(edges := t.edges - {e}) && u.edges.Keys == left)
  {
    var less := t.edges - {e};
    assert less.Keys == t.edges.Keys - {e};
    assert |less| == 0 <==> less.Keys == {};
  }

  lemma GoneOtherStep(w: World, s: Step, p: Path)
    requires Enabled(w, s) && IsGone(At(w, p)) && Target(w, s) == Some(p) && !s.SendRelease?
    ensures var t, u := At(w, p), At(Apply(w, s), p);
            && u.meta.Some? && u.meta.value.gen == t.meta.value.gen
            && IsGone(u) && SameContents(t, u) && u.edges == t.edges
  {
    var t := At(w, p);
    if s.SendAcquire? {
      AcquireShape(t, w.jobs[s.job].edge, w.jobs[s.job].intent.forkOffset, TypeSent(w.jobs[s.job]), s.now);
      GoneIsVisible(t, s.now);
    } else if s.PostStream? {
      assert At(Apply(w, s), p) == Post(t, s.request, s.now).0;
      GonePost(t, s.request, s.now);
    } else if s.DeleteStream? || s.ExpireStream? || s.PutStream? {
      GoneIsVisible(t, s.now);
    }
  }

  lemma GonePost(t: Tables, r: PostRequest, now: int)
    requires IsGone(t)
    ensures Post(t, r, now).0 == t
  {
    GoneIsVisible(t, now);
    if Examined(r) {
      PostIsGone(t, r, now);
    }
  }

  lemma GoneIsVisible(t: Tables, now: int)
    requires IsGone(t)
    ensures Visible(t, now) == t
  {
    assert |t.edges| > 0;
  }

  /** Given up, and since then only edges have gone. */
  ghost predicate GoneFrom(t: Tables, u: Tables) {
    t.meta.Some? && IsGone(u) && SameContents(t, u) && u.edges.Keys <= t.edges.Keys
  }

  lemma {:induction false} GoneForGood(run: seq<World>, steps: seq<Step>, i: nat, k: nat, p: Path)
    requires Run(run, steps) && Good(run[0]) && i < k < |run| && i < |steps|
    requires Enabled(run[i], steps[i]) && GivesUp(run[i], steps[i], p)
    ensures Remains(run[k], p, Gen(run[i], p)) ==> GoneFrom(At(run[i], p), At(run[k], p))
    decreases k
  {
    if k == i + 1 {
      GoneAtOnce(run, steps, i, p);
    } else if Remains(run[k], p, Gen(run[i], p)) {
      RemainedBefore(run, steps, i, k, p);
      GoneForGood(run, steps, i, k - 1, p);
      GoneNext(run, steps, k - 1, p);
    }
  }

  lemma GoneAtOnce(run: seq<World>, steps: seq<Step>, i: nat, p: Path)
    requires Run(run, steps) && Good(run[0]) && i < |steps|
    requires Enabled(run[i], steps[i]) && GivesUp(run[i], steps[i], p)
    ensures Remains(run[i + 1], p, Gen(run[i], p)) <==> At(run[i], p).edges != map[]
    ensures Remains(run[i + 1], p, Gen(run[i], p)) ==> GoneFrom(At(run[i], p), At(run[i + 1], p))
  {
    RunStaysGood(run, steps, i);
    assert FollowsAt(run, steps, i) && StreamOk(run[i], p);
    GivingUpMeans(run[i], steps[i], p);
  }

  lemma GoneNext(run: seq<World>, steps: seq<Step>, k: nat, p: Path)
    requires Run(run, steps) && Good(run[0]) && k < |steps| && IsGone(At(run[k], p))
    ensures Enabled(run[k], steps[k])
    ensures Remains(run[k + 1], p, Gen(run[k], p)) <==> At(run[k], p).edges.Keys - Released(run[k], steps[k], p) != {}
    ensures Remains(run[k + 1], p, Gen(run[k], p)) ==> GoneFrom(At(run[k], p), At(run[k + 1], p))
  {
    RunStaysGood(run, steps, k);
    assert FollowsAt(run, steps, k) && StreamOk(run[k], p);
    GoneStep(run[k], steps[k], p);
  }

  lemma RemainedBefore(run: seq<World>, steps: seq<Step>, i: nat, k: nat, p: Path)
    requires Run(run, steps) && Good(run[0]) && i < k < |run| && Exists(run[i], p) && Remains(run[k], p, Gen(run[i], p))
    ensures Remains(run[k - 1], p, Gen(run[i], p))
  {
    RunStaysGood(run, steps, i);
    RunIsLater(run, steps, i, k - 1);
    RunIsLater(run, steps, k - 1, k);
    assert StreamOk(run[i], p) && LogLater(At(run[k - 1], p), At(run[k], p));
  }

  /** Every well-formed POST to it is told that it is gone, whatever the clock says. */
  lemma GoneAnswers(t: Tables, r: PostRequest, now: int)
    requires IsGone(t) && Examined(r)
    ensures Post(t, r, now) == (t, StreamGone)
  {
    GoneIsVisible(t, now);
    PostIsGone(t, r, now);
  }

  lemma AbsentAnswers(t: Tables, r: PostRequest, now: int)
    requires t.meta.None? && Examined(r)
    ensures Post(t, r, now) == (t, StreamNotFound)
  {}

  /** No new edge is acquired at it. */
  lemma GoneRefuses(w: World, j: nat, now: int)
    requires Awaits(w, j) && IsGone(At(w, w.jobs[j].intent.parent))
    requires w.jobs[j].edge !in At(w, w.jobs[j].intent.parent).edges
    ensures GotRefused(Apply(w, SendAcquire(j, now, false)), j)
  {
    GoneIsVisible(At(w, w.jobs[j].intent.parent), now);
  }

  /**
   After a delete that was acknowledged, or a look at a stream that has expired: in every
   later world this incarnation, as long as it is there, has the messages, the closure
   and the producers it had and no edge that it had not; every well-formed POST to it is
   answered as gone, and to its path, when nothing is there, as not found; no new edge is
   acquired; and the next step ends it exactly if it releases the last edge.
   */
  lemma GivenUpIsGone(run: seq<World>, steps: seq<Step>, i: nat, k: nat, p: Path)
    requires Run(run, steps) && Good(run[0]) && i < k < |run| && i < |steps|
    requires Enabled(run[i], steps[i]) && GivesUp(run[i], steps[i], p)
    ensures var t, u, gen := At(run[i], p), At(run[k], p), Gen(run[i], p);
            && (k == i + 1 ==> (Remains(run[k], p, gen) <==> t.edges != map[]))
            && (Remains(run[k], p, gen) ==>
                  && SameContents(t, u) && u.edges.Keys <= t.edges.Keys && u.edges != map[]
                  && (forall r, now :: Examined(r) ==> Post(u, r, now) == (u, StreamGone))
                  && (forall j, now :: Awaits(run[k], j) && run[k].jobs[j].intent.parent == p
                                       && run[k].jobs[j].edge !in u.edges ==>
                        GotRefused(Apply(run[k], SendAcquire(j, now, false)), j))
                  && (k < |steps| ==>
                        && Enabled(run[k], steps[k])
                        && (Remains(run[k + 1], p, gen) <==> u.edges.Keys - Released(run[k], steps[k], p) != {})))
            && (!Exists(run[k], p) ==> forall r, now :: Examined(r) ==> Post(u, r, now) == (u, StreamNotFound))
  {
    var u := At(run[k], p);
    GoneAtOnce(run, steps, i, p);
    if Remains(run[k], p, Gen(run[i], p)) {
      GoneForGood(run, steps, i, k, p);
      forall r, now | Examined(r) ensures Post(u, r, now) == (u, StreamGone) { GoneAnswers(u, r, now); }
      forall j, now | Awaits(run[k], j) && run[k].jobs[j].intent.parent == p && run[k].jobs[j].edge !in u.edges
        ensures GotRefused(Apply(run[k], SendAcquire(j, now, false)), j)
      {
        GoneRefuses(run[k], j, now);
      }
      if k < |steps| {
        GoneNext(run, steps, k, p);
      }
    }
    if !Exists(run[k], p) {
      forall r, now | Examined(r) ensures Post(u, r, now) == (u, StreamNotFound) { AbsentAnswers(u, r, now); }
    }
  }

  // ------------------------------------------------------------ nothing else

  /** A live stream stays live in every step that does not give it up. */
  lemma LiveStaysLive(w: World, s: Step, p: Path)
    requires Enabled(w, s) && Live(w, p) && !GivesUp(w, s, p)
    ensures Live(Apply(w, s), p) && Gen(Apply(w, s), p) == Gen(w, p)
  {
    var t := At(w, p);
    if Target(w, s) != Some(p) {
      StepIsLocal(w, s, p);
    } else if s.SendAcquire? {
      AcquireShape(t, w.jobs[s.job].edge, w.jobs[s.job].intent.forkOffset, TypeSent(w.jobs[s.job]), s.now);
    } else if s.PostStream? {
      LivePost(t, s.request, s.now);
    }
  }

  lemma LivePost(t: Tables, r: PostRequest, now: int)
    requires t.meta.Some? && !t.meta.value.softDeleted && (Examined(r) ==> !IsExpired(t.meta.value, now))
    ensures var u := Post(t, r, now).0;
            u.meta.Some? && !u.meta.value.softDeleted && u.meta.value.gen == t.meta.value.gen
  {
    PostChanges(t, r, now);
    if OneCommit(Visible(t, now), Post(t, r, now).0, r, now) {
      OneCommitStays(t, Post(t, r, now).0, r, now);
    }
  }

  lemma OneCommitStays(t: Tables, u: Tables, r: PostRequest, now: int)
    requires OneCommit(t, u, r, now)
    ensures u.meta.Some? && !u.meta.value.softDeleted && u.meta.value.gen == t.meta.value.gen
  {}
}
