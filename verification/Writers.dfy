/**
 What writers of one stream can rely on over whole runs of the system, whatever
 else happens anywhere: closure is final, Stream-Seq and producer sequences only
 rise, rejected requests change nothing.
 */
module Writers {
  import opened Options
  import opened Offsets
  import opened Tables
  import opened Cluster
  import opened ForkSafety

  // ------------------------------------------------------------ one request

  /**
   An acknowledged append found the stream live and open, its producer and Stream-Seq in
   order, and committed everything.
   */
  lemma AppendedMeans(t: Tables, r: PostRequest, now: int)
    requires Post(t, r, now).1.Appended?
    ensures t.meta.Some? && !t.meta.value.softDeleted && !t.meta.value.closed && r.body != []
    ensures r.producer.Some? ==> CheckProducer(t.producers, r.producer.value, now).Accepted?
    ensures !SeqConflict(t.meta.value, r.streamSeq) && PayloadOf(t.meta.value.contentType, r).Ok?
    ensures CommitPost(t, r, PayloadOf(t.meta.value.contentType, r).value, now) == Some(Post(t, r, now).0)
  {}

  /**
   An acknowledged closure leaves the log alone; a repeated one changes nothing, a
   producer's first one is its next request.
   */
  lemma CloseSuccessMeans(t: Tables, r: PostRequest, now: int)
    requires Post(t, r, now).1.CloseSuccess?
    ensures t.meta.Some? && !t.meta.value.softDeleted
    ensures var u := Post(t, r, now).0;
            if r.producer.Some? && t.meta.value.closed then u == t && ClosedByMatches(t.meta.value, r.producer.value)
            else ClosesOnly(t, u, now) && r.body == []
                 && u.producers == (if r.producer.Some? then ProducersAfter(t.producers, r.producer.value, now)
                                    else t.producers)
                 && u.meta.value.closedBy == (if r.producer.Some? then Some(ClosedByOf(r.producer.value))
                                              else t.meta.value.closedBy)
    ensures r.producer.Some? && !t.meta.value.closed ==> CheckProducer(t.producers, r.producer.value, now).Accepted?
  {
    if r.body == [] {
      assert Post(t, r, now) == CloseOnly(t, r.producer, now);
      if r.producer.Some? {
        ProducerCloses(t, r.producer.value, now);
      }
    } else {
      RepeatedClosingAppend(t, r, now);
    }
  }

  lemma ProducerCloses(t: Tables, p: ProducerHeaders, now: int)
    requires CloseOnly(t, Some(p), now).1.CloseSuccess?
    ensures t.meta.Some? && !t.meta.value.softDeleted
    ensures var u := CloseOnly(t, Some(p), now).0;
            if t.meta.value.closed then u == t && ClosedByMatches(t.meta.value, p)
            else && CheckProducer(t.producers, p, now).Accepted?
                 && ClosesOnly(t, u, now) && u.producers == ProducersAfter(t.producers, p, now)
                 && u.meta.value.closedBy == Some(ClosedByOf(p))
  {}

  lemma RepeatedClosingAppend(t: Tables, r: PostRequest, now: int)
    requires Post(t, r, now).1.CloseSuccess? && r.body != []
    ensures t.meta.Some? && !t.meta.value.softDeleted && t.meta.value.closed && Post(t, r, now).0 == t
    ensures r.producer.Some? && ClosedByMatches(t.meta.value, r.producer.value)
  {}

  /** A rejected request leaves log, offset and producers as they were: at most an expired stream is retired. */
  lemma RejectedChangesNothing(t: Tables, r: PostRequest, now: int)
    requires var outcome := Post(t, r, now).1; !outcome.Appended? && !outcome.CloseSuccess?
    ensures Post(t, r, now).0 == t || Post(t, r, now).0 == Visible(t, now)
    ensures var u := Post(t, r, now).0;
            u.meta.Some? ==>
              && t.meta.Some? && u.messages == t.messages && u.producers == t.producers && u.edges == t.edges
              && u.meta.value == t.meta.value.(softDeleted := u.meta.value.softDeleted)
  {}

  /** The request was new: its producer's row was moved on to it. */
  predicate Accepts(t: Tables, r: PostRequest, outcome: WriteOutcome) {
    r.producer.Some? && t.meta.Some? && (outcome.Appended? || (outcome.CloseSuccess? && !t.meta.value.closed))
  }

  /** A stream that survives a POST has either moved on exactly the accepted producer's row, or kept all of them. */
  lemma ProducersAfterPost(t: Tables, r: PostRequest, now: int)
    requires Post(t, r, now).0.meta.Some?
    ensures var (u, outcome) := Post(t, r, now);
            && (Accepts(t, r, outcome) ==> CheckProducer(t.producers, r.producer.value, now).Accepted?)
            && u.producers == if Accepts(t, r, outcome) then ProducersAfter(t.producers, r.producer.value, now)
                              else t.producers
  {
    var outcome := Post(t, r, now).1;
    if outcome.Appended? {
      AppendedMeans(t, r, now);
    } else if outcome.CloseSuccess? {
      CloseSuccessMeans(t, r, now);
    } else {
      RejectedChangesNothing(t, r, now);
    }
  }

  // -------------------------------------------------------------------- runs

  /** What the writers were told: the outcome of every POST of the run. */
  ghost predicate Answers(run: seq<World>, steps: seq<Step>, outcomes: seq<WriteOutcome>)
    requires |run| == |steps| + 1
  {
    |outcomes| == |steps| && forall i :: 0 <= i < |steps| ==> AnswerAt(run, steps, outcomes, i)
  }

  predicate AnswerAt(run: seq<World>, steps: seq<Step>, outcomes: seq<WriteOutcome>, i: nat)
    requires i < |run| && i < |steps| && i < |outcomes|
  {
    steps[i].PostStream? ==> outcomes[i] == Post(At(run[i], steps[i].path), steps[i].request, steps[i].now).1
  }

  /** The stream at q is the same one at both moments. */
  ghost predicate Stays(run: seq<World>, i: nat, j: nat, q: Path)
    requires i < |run| && j < |run|
  {
    Exists(run[i], q) && Exists(run[j], q) && Gen(run[j], q) == Gen(run[i], q) && Gen(run[i], q) < run[i].next
  }

  lemma {:induction false} NextGrows(run: seq<World>, steps: seq<Step>, i: nat, j: nat)
    requires Run(run, steps) && i <= j < |run|
    ensures run[i].next <= run[j].next
  {
    if i < j {
      NextGrows(run, steps, i, j - 1);
      assert FollowsAt(run, steps, j - 1);
    }
  }

  /** A stream that is the same at two moments was there in between. */
  lemma {:induction false} StaysBetween(run: seq<World>, steps: seq<Step>, i: nat, k: nat, j: nat, q: Path)
    requires Run(run, steps) && i <= k <= j < |run| && Stays(run, i, j, q)
    ensures Stays(run, i, k, q) && Stays(run, k, j, q)
    decreases j - k
  {
    NextGrows(run, steps, i, k);
    if k < j {
      StaysBetween(run, steps, i, k + 1, j, q);
      assert FollowsAt(run, steps, k);
      StepAcross(run[k], steps[k], q);
    }
  }

  /** One step of a stream that stays. */
  lemma StaysOneStep(run: seq<World>, steps: seq<Step>, i: nat, j: nat, q: Path)
    requires Run(run, steps) && i < j < |run| && Stays(run, i, j, q)
    ensures Stays(run, i, j - 1, q) && Stays(run, j - 1, j, q)
    ensures SameStream(At(run[j - 1], q), At(run[j], q))
    ensures !PostsTo(steps[j - 1], q) ==> Idle(At(run[j - 1], q), At(run[j], q), run[j - 1].next)
    ensures PostsTo(steps[j - 1], q) ==>
              At(run[j], q) == Post(At(run[j - 1], q), steps[j - 1].request, steps[j - 1].now).0
  {
    StaysBetween(run, steps, i, j - 1, j, q);
    assert FollowsAt(run, steps, j - 1);
    OneStep(run[j - 1], steps[j - 1], run[j], q);
  }

  lemma OneStep(w: World, s: Step, v: World, q: Path)
    requires Follows(w, s, v) && Exists(v, q) && Gen(v, q) < w.next
    ensures SameStream(At(w, q), At(v, q))
    ensures !PostsTo(s, q) ==> Idle(At(w, q), At(v, q), w.next)
    ensures PostsTo(s, q) ==> At(v, q) == Post(At(w, q), s.request, s.now).0
  {
    StepAcross(w, s, q);
    if !PostsTo(s, q) {
      OtherStepsAreIdle(w, s, q);
    }
  }

  lemma PostedAt(run: seq<World>, steps: seq<Step>, i: nat, q: Path)
    requires Run(run, steps) && i < |steps| && Stays(run, i, i + 1, q) && PostsTo(steps[i], q)
    ensures At(run[i + 1], q) == Post(At(run[i], q), steps[i].request, steps[i].now).0
  {
    StaysOneStep(run, steps, i, i + 1, q);
  }

  // ----------------------------------------------------------------- closure

  /** Closure is permanent and freezes the messages, the offset and the recorded closer, even a missing one. */
  lemma {:induction false} ClosedIsFinal(run: seq<World>, steps: seq<Step>, i: nat, j: nat, q: Path)
    requires Run(run, steps) && i <= j < |run| && Stays(run, i, j, q)
    requires At(run[i], q).meta.value.closed
    ensures var t, u := At(run[i], q), At(run[j], q);
            && u.meta.value.closed && u.meta.value.closedBy == t.meta.value.closedBy
            && u.messages == t.messages && u.meta.value.currentOffset == t.meta.value.currentOffset
  {
    if i < j {
      StaysOneStep(run, steps, i, j, q);
      ClosedIsFinal(run, steps, i, j - 1, q);
    }
  }

  // -------------------------------------------------------------- Stream-Seq

  predicate SeqLater(a: Option<string>, b: Option<string>) { a.Some? ==> b.Some? && AtMost(a.value, b.value) }

  lemma SeqAfterPost(t: Tables, r: PostRequest, now: int)
    requires t.meta.Some? && Post(t, r, now).0.meta.Some?
    ensures var u := Post(t, r, now).0;
            SeqLater(t.meta.value.lastSeq, u.meta.value.lastSeq)
            && (Post(t, r, now).1.Appended? && r.streamSeq.Some? ==> u.meta.value.lastSeq == r.streamSeq)
  {
    StrictOrder();
    var outcome := Post(t, r, now).1;
    if outcome.Appended? {
      AppendedMeans(t, r, now);
    } else if outcome.CloseSuccess? {
      CloseSuccessMeans(t, r, now);
    } else {
      RejectedChangesNothing(t, r, now);
    }
  }

  lemma {:induction false} SeqNeverFalls(run: seq<World>, steps: seq<Step>, i: nat, j: nat, q: Path)
    requires Run(run, steps) && i <= j < |run| && Stays(run, i, j, q)
    ensures SeqLater(At(run[i], q).meta.value.lastSeq, At(run[j], q).meta.value.lastSeq)
  {
    StrictOrder();
    if i < j {
      StaysOneStep(run, steps, i, j, q);
      SeqNeverFalls(run, steps, i, j - 1, q);
      if PostsTo(steps[j - 1], q) {
        SeqAfterPost(At(run[j - 1], q), steps[j - 1].request, steps[j - 1].now);
      }
    }
  }

  /** The Stream-Seq values of successful appends to one stream are strictly increasing. */
  lemma StreamSeqIncreases(run: seq<World>, steps: seq<Step>, outcomes: seq<WriteOutcome>, i: nat, j: nat, q: Path)
    requires Run(run, steps) && Answers(run, steps, outcomes) && i < j < |steps| && Stays(run, i, j, q)
    requires PostsTo(steps[i], q) && outcomes[i].Appended? && steps[i].request.streamSeq.Some?
    requires PostsTo(steps[j], q) && outcomes[j].Appended? && steps[j].request.streamSeq.Some?
    ensures Less(steps[i].request.streamSeq.value, steps[j].request.streamSeq.value)
  {
    StaysBetween(run, steps, i, i + 1, j, q);
    SeqLands(run, steps, outcomes, i, q);
    SeqNeverFalls(run, steps, i + 1, j, q);
    SeqRaises(run, steps, outcomes, j, q, steps[i].request.streamSeq.value);
  }

  lemma SeqLands(run: seq<World>, steps: seq<Step>, outcomes: seq<WriteOutcome>, i: nat, q: Path)
    requires Run(run, steps) && Answers(run, steps, outcomes) && i < |steps| && Stays(run, i, i + 1, q)
    requires PostsTo(steps[i], q) && outcomes[i].Appended? && steps[i].request.streamSeq.Some?
    ensures At(run[i + 1], q).meta.value.lastSeq == steps[i].request.streamSeq
  {
    assert AnswerAt(run, steps, outcomes, i);
    PostedAt(run, steps, i, q);
    SeqAfterPost(At(run[i], q), steps[i].request, steps[i].now);
  }

  lemma SeqRaises(run: seq<World>, steps: seq<Step>, outcomes: seq<WriteOutcome>, j: nat, q: Path, s: string)
    requires Run(run, steps) && Answers(run, steps, outcomes) && j < |steps| && Exists(run[j], q)
    requires PostsTo(steps[j], q) && outcomes[j].Appended? && steps[j].request.streamSeq.Some?
    requires SeqLater(Some(s), At(run[j], q).meta.value.lastSeq)
    ensures Less(s, steps[j].request.streamSeq.value)
  {
    assert AnswerAt(run, steps, outcomes, j);
    AppendedIsAbove(At(run[j], q), steps[j].request, steps[j].now, s);
  }

  lemma AppendedIsAbove(t: Tables, r: PostRequest, now: int, s: string)
    requires Post(t, r, now).1.Appended? && r.streamSeq.Some?
    requires t.meta.Some? && SeqLater(Some(s), t.meta.value.lastSeq)
    ensures Less(s, r.streamSeq.value)
  {
    AppendedMeans(t, r, now);
    StrictOrder();
  }

  // --------------------------------------------------------------- producers

  /** The producer's row is at least this far. */
  predicate Reached(rows: Producers, id: string, epoch: nat, seqNo: nat) {
    id in rows && (rows[id].epoch > epoch || (rows[id].epoch == epoch && rows[id].lastSeq >= seqNo))
  }

  predicate Raises(epoch: nat, seqNo: nat, p: ProducerHeaders) {
    p.epoch > epoch || (p.epoch == epoch && p.seqNo > seqNo)
  }

  /** The producer's row, if there is one, has not expired at this clock reading. */
  predicate NotExpired(rows: Producers, id: string, now: int) {
    id in rows ==> ExpiredBefore(now) <= rows[id].lastUpdated
  }

  /** An accepted request raises its own producer's row and leaves unexpired rows of others. */
  lemma ReachedAfterAccept(rows: Producers, p: ProducerHeaders, now: int, id: string, epoch: nat, seqNo: nat)
    requires Reached(rows, id, epoch, seqNo) && NotExpired(rows, id, now) && CheckProducer(rows, p, now).Accepted?
    ensures Reached(ProducersAfter(rows, p, now), id, epoch, seqNo)
    ensures p.id == id ==> Raises(epoch, seqNo, p)
  {}

  /** The request itself becomes the producer's row. */
  lemma AcceptedIsReached(rows: Producers, p: ProducerHeaders, now: int)
    requires CheckProducer(rows, p, now).Accepted?
    ensures Reached(ProducersAfter(rows, p, now), p.id, p.epoch, p.seqNo)
  {}

  /** The producer's row has not expired at any POST to q in this part of the run. */
  ghost predicate KeptFresh(run: seq<World>, steps: seq<Step>, i: nat, j: nat, q: Path, id: string)
    requires |run| == |steps| + 1 && i <= j <= |steps|
  {
    forall k :: i <= k < j && PostsTo(steps[k], q) ==> NotExpired(At(run[k], q).producers, id, steps[k].now)
  }

  lemma {:induction false} ReachedNeverFalls(run: seq<World>, steps: seq<Step>, i: nat, j: nat, q: Path,
                                             id: string, epoch: nat, seqNo: nat)
    requires Run(run, steps) && i <= j < |run| && Stays(run, i, j, q) && KeptFresh(run, steps, i, j, q, id)
    requires Reached(At(run[i], q).producers, id, epoch, seqNo)
    ensures Reached(At(run[j], q).producers, id, epoch, seqNo)
  {
    if i < j {
      StaysOneStep(run, steps, i, j, q);
      ReachedNeverFalls(run, steps, i, j - 1, q, id, epoch, seqNo);
      if PostsTo(steps[j - 1], q) {
        var t, r, now := At(run[j - 1], q), steps[j - 1].request, steps[j - 1].now;
        ProducersAfterPost(t, r, now);
        if Accepts(t, r, Post(t, r, now).1) {
          ReachedAfterAccept(t.producers, r.producer.value, now, id, epoch, seqNo);
        }
      }
    }
  }

  /** As long as its row does not expire, each accepted request of a producer strictly raises its (epoch, sequence). */
  lemma AcceptedRequestsIncrease(run: seq<World>, steps: seq<Step>, outcomes: seq<WriteOutcome>, i: nat, j: nat,
                                 q: Path, a: ProducerHeaders, b: ProducerHeaders)
    requires Run(run, steps) && Answers(run, steps, outcomes) && i < j < |steps| && Stays(run, i, j + 1, q)
    requires KeptFresh(run, steps, i + 1, j + 1, q, a.id)
    requires PostsTo(steps[i], q) && Accepts(At(run[i], q), steps[i].request, outcomes[i])
    requires steps[i].request.producer == Some(a)
    requires PostsTo(steps[j], q) && Accepts(At(run[j], q), steps[j].request, outcomes[j])
    requires steps[j].request.producer == Some(b)
    requires a.id == b.id
    ensures Raises(a.epoch, a.seqNo, b)
  {
    StaysBetween(run, steps, i, i + 1, j + 1, q);
    StaysBetween(run, steps, i + 1, j, j + 1, q);
    AcceptLands(run, steps, outcomes, i, q, a);
    ReachedNeverFalls(run, steps, i + 1, j, q, a.id, a.epoch, a.seqNo);
    AcceptRaises(run, steps, outcomes, j, q, a, b);
  }

  lemma AcceptLands(run: seq<World>, steps: seq<Step>, outcomes: seq<WriteOutcome>, i: nat, q: Path, a: ProducerHeaders)
    requires Run(run, steps) && Answers(run, steps, outcomes) && i < |steps| && Stays(run, i, i + 1, q)
    requires PostsTo(steps[i], q) && Accepts(At(run[i], q), steps[i].request, outcomes[i])
    requires steps[i].request.producer == Some(a)
    ensures Reached(At(run[i + 1], q).producers, a.id, a.epoch, a.seqNo)
  {
    assert AnswerAt(run, steps, outcomes, i);
    PostedAt(run, steps, i, q);
    FirstAccept(At(run[i], q), At(run[i + 1], q), steps[i].request, steps[i].now);
  }

  lemma AcceptRaises(run: seq<World>, steps: seq<Step>, outcomes: seq<WriteOutcome>, j: nat, q: Path,
                     a: ProducerHeaders, b: ProducerHeaders)
    requires Run(run, steps) && Answers(run, steps, outcomes) && j < |steps| && Stays(run, j, j + 1, q)
    requires PostsTo(steps[j], q) && Accepts(At(run[j], q), steps[j].request, outcomes[j])
    requires steps[j].request.producer == Some(b) && a.id == b.id
    requires NotExpired(At(run[j], q).producers, a.id, steps[j].now)
    requires Reached(At(run[j], q).producers, a.id, a.epoch, a.seqNo)
    ensures Raises(a.epoch, a.seqNo, b)
  {
    assert AnswerAt(run, steps, outcomes, j);
    PostedAt(run, steps, j, q);
    NextAccept(At(run[j], q), At(run[j + 1], q), steps[j].request, steps[j].now, a);
  }

  lemma FirstAccept(t: Tables, u: Tables, r: PostRequest, now: int)
    requires u == Post(t, r, now).0 && u.meta.Some? && Accepts(t, r, Post(t, r, now).1)
    ensures Reached(u.producers, r.producer.value.id, r.producer.value.epoch, r.producer.value.seqNo)
  {
    ProducersAfterPost(t, r, now);
    AcceptedIsReached(t.producers, r.producer.value, now);
  }

  lemma NextAccept(t: Tables, u: Tables, r: PostRequest, now: int, a: ProducerHeaders)
    requires u == Post(t, r, now).0 && u.meta.Some? && Accepts(t, r, Post(t, r, now).1)
    requires NotExpired(t.producers, a.id, now) && Reached(t.producers, a.id, a.epoch, a.seqNo)
    requires r.producer.value.id == a.id
    ensures Raises(a.epoch, a.seqNo, r.producer.value)
  {
    ProducersAfterPost(t, r, now);
    ReachedAfterAccept(t.producers, r.producer.value, now, a.id, a.epoch, a.seqNo);
  }

  /** The same payload still fits after itself: the offset does not overflow. */
  predicate CanAppendAgain(t: Tables, r: PostRequest, now: int) {
    && t.meta.Some? && Post(t, r, now).0.meta.Some? && PayloadOf(t.meta.value.contentType, r).Ok?
    && AppendMessage(Post(t, r, now).0, PayloadOf(t.meta.value.contentType, r).value).Some?
  }

  /** The answers by which a retry is recognised. */
  predicate Recognised(outcome: WriteOutcome, p: ProducerHeaders) {
    outcome.CloseSuccess? || outcome == ProducerRejected(Duplicate(p.seqNo))
  }

  /**
   A retry of the last accepted append is recognised exactly if it had closed the
   stream or the producer's row has not expired. Otherwise a first request is
   appended once more, and any other is a gap.
   */
  lemma RetryIsRecognisedIff(t: Tables, r: PostRequest, now: int, later: int)
    requires r.producer.Some? && Post(t, r, now).1.Appended?
    requires !IsExpired(Post(t, r, now).0.meta.value, later)
    ensures var again := Post(Post(t, r, now).0, r, later).1;
            var p := r.producer.value;
            var kept := r.close || ExpiredBefore(later) <= now;
            && (Recognised(again, p) <==> kept)
            && (!kept && p.seqNo > 0 ==> again == ProducerRejected(SequenceGap(0, p.seqNo)))
            && (!kept && p.seqNo == 0 && r.streamSeq.None? && CanAppendAgain(t, r, now) ==> again.Appended?)
  {
    AppendedMeans(t, r, now);
    var u, p := Post(t, r, now).0, r.producer.value;
    RowAfterAccept(t.producers, p, now);
    SweepFindsRecent(u.producers, p.id, ExpiredBefore(later));
    if !r.close {
      RetryReachesTransaction(t, r, now, later);
    } else {
      RetryFindsItClosed(t, r, now, later);
    }
  }

  lemma RowAfterAccept(rows: Producers, p: ProducerHeaders, now: int)
    requires CheckProducer(rows, p, now).Accepted?
    ensures ProducersAfter(rows, p, now)[p.id] == ProducerState(p.epoch, p.seqNo, now)
  {}

  lemma RetryReachesTransaction(t: Tables, r: PostRequest, now: int, later: int)
    requires !r.close && Post(t, r, now).1.Appended? && !IsExpired(Post(t, r, now).0.meta.value, later)
    ensures var u := Post(t, r, now).0;
            Post(u, r, later) == PostTransaction(u, r, PayloadOf(t.meta.value.contentType, r).value, later)
  {
    AppendedMeans(t, r, now);
  }

  lemma RetryFindsItClosed(t: Tables, r: PostRequest, now: int, later: int)
    requires r.close && r.producer.Some? && Post(t, r, now).1.Appended?
    requires !IsExpired(Post(t, r, now).0.meta.value, later)
    ensures Post(Post(t, r, now).0, r, later).1.CloseSuccess?
  {
    AppendedMeans(t, r, now);
  }
}
