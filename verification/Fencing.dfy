/**
 What a producer is told over whole runs, whatever else happens: the answer follows
 from the last request of that producer that was taken, as long as its row lives.
 Older instances are fenced off, and duplicates are what was really taken.
 */
module Fencing {
  import opened Options
  import opened Tables
  import opened Cluster
  import opened ForkSafety
  import opened Writers
  import opened Admission

  // ------------------------------------------------------ the last one taken

  /** This POST of the run was a producer's request, and was taken. */
  ghost predicate Took(run: seq<World>, steps: seq<Step>, outcomes: seq<WriteOutcome>, k: nat, q: Path,
                       a: ProducerHeaders)
    requires |run| == |steps| + 1 && |outcomes| == |steps| && k < |steps|
  {
    && PostsTo(steps[k], q) && steps[k].request.producer == Some(a)
    && Accepts(At(run[k], q), steps[k].request, outcomes[k])
  }

  /** No request of this producer was taken in this part of the run. */
  ghost predicate TookNone(run: seq<World>, steps: seq<Step>, outcomes: seq<WriteOutcome>, i: nat, j: nat, q: Path,
                           id: string)
    requires |run| == |steps| + 1 && |outcomes| == |steps| && j <= |steps|
  {
    forall k, a: ProducerHeaders {:trigger Took(run, steps, outcomes, k, q, a)} ::
      i <= k < j && a.id == id ==> !Took(run, steps, outcomes, k, q, a)
  }

  predicate RowUnchanged(before: Producers, after: Producers, id: string) {
    id in after ==> id in before && after[id] == before[id]
  }

  /** One step that takes nothing from a producer changes its row at most by expiring it. */
  lemma RowAcrossStep(run: seq<World>, steps: seq<Step>, outcomes: seq<WriteOutcome>, i: nat, j: nat, q: Path,
                      id: string)
    requires Run(run, steps) && Answers(run, steps, outcomes) && i < j < |run| && Stays(run, i, j, q)
    requires TookNone(run, steps, outcomes, i, j, q, id)
    ensures RowUnchanged(At(run[j - 1], q).producers, At(run[j], q).producers, id)
    ensures (PostsTo(steps[j - 1], q) ==> NotExpired(At(run[j - 1], q).producers, id, steps[j - 1].now)) ==>
              (id in At(run[j - 1], q).producers ==> id in At(run[j], q).producers)
  {
    StaysOneStep(run, steps, i, j, q);
    if PostsTo(steps[j - 1], q) {
      var t, r, now := At(run[j - 1], q), steps[j - 1].request, steps[j - 1].now;
      assert AnswerAt(run, steps, outcomes, j - 1);
      ProducersAfterPost(t, r, now);
      if r.producer.Some? {
        assert !(Took(run, steps, outcomes, j - 1, q, r.producer.value) && r.producer.value.id == id);
        SweepFindsRecent(t.producers, r.producer.value.id, ExpiredBefore(now));
      }
    }
  }

  /** A row lasts, unchanged, until its producer's next request is taken or it expires. */
  lemma {:induction false} RowLasts(run: seq<World>, steps: seq<Step>, outcomes: seq<WriteOutcome>, i: nat, j: nat,
                                    q: Path, id: string)
    requires Run(run, steps) && Answers(run, steps, outcomes) && i <= j < |run| && Stays(run, i, j, q)
    requires TookNone(run, steps, outcomes, i, j, q, id)
    ensures RowUnchanged(At(run[i], q).producers, At(run[j], q).producers, id)
    ensures KeptFresh(run, steps, i, j, q, id) && id in At(run[i], q).producers ==> id in At(run[j], q).producers
  {
    if i < j {
      StaysOneStep(run, steps, i, j, q);
      RowLasts(run, steps, outcomes, i, j - 1, q, id);
      RowAcrossStep(run, steps, outcomes, i, j, q, id);
    }
  }

  /** A request that is taken becomes its producer's row. */
  lemma TakenIsRow(run: seq<World>, steps: seq<Step>, outcomes: seq<WriteOutcome>, i: nat, q: Path, a: ProducerHeaders)
    requires Run(run, steps) && Answers(run, steps, outcomes) && i < |steps| && Stays(run, i, i + 1, q)
    requires Took(run, steps, outcomes, i, q, a)
    ensures var rows := At(run[i + 1], q).producers;
            a.id in rows && rows[a.id] == ProducerState(a.epoch, a.seqNo, steps[i].now)
  {
    assert AnswerAt(run, steps, outcomes, i);
    PostedAt(run, steps, i, q);
    ProducersAfterPost(At(run[i], q), steps[i].request, steps[i].now);
    AcceptedState(At(run[i], q).producers, a, steps[i].now);
  }

  lemma AcceptedState(rows: Producers, p: ProducerHeaders, now: int)
    requires CheckProducer(rows, p, now).Accepted?
    ensures CheckProducer(rows, p, now).state == ProducerState(p.epoch, p.seqNo, now)
  {}

  // ------------------------------------------------------------- the answers

  /**
   Every answer to a producer whose row lives follows from its last request taken: a
   smaller epoch is told the greater one, a number already taken that it is a duplicate,
   a number too far what was expected, and a new epoch to begin at zero; the next
   request is not rejected on the producer's account.
   */
  lemma AnswersFollowLastTaken(run: seq<World>, steps: seq<Step>, outcomes: seq<WriteOutcome>, i: nat, j: nat, q: Path,
                               a: ProducerHeaders, b: ProducerHeaders)
    requires Run(run, steps) && Answers(run, steps, outcomes) && i < j < |steps| && Stays(run, i, j, q)
    requires Took(run, steps, outcomes, i, q, a) && TookNone(run, steps, outcomes, i + 1, j, q, a.id)
    requires KeptFresh(run, steps, i + 1, j + 1, q, a.id) && a.id == b.id
    requires PostsTo(steps[j], q) && steps[j].request.producer == Some(b)
    requires ReachesProducer(At(run[j], q), steps[j].request, steps[j].now)
    ensures if b.epoch < a.epoch then outcomes[j] == ProducerRejected(StaleEpoch(a.epoch))
            else if b.epoch > a.epoch then
              if b.seqNo == 0 then !outcomes[j].ProducerRejected? else outcomes[j] == ProducerRejected(InvalidEpochSeq)
            else if b.seqNo <= a.seqNo then outcomes[j] == ProducerRejected(Duplicate(a.seqNo))
            else if b.seqNo == a.seqNo + 1 then !outcomes[j].ProducerRejected?
            else outcomes[j] == ProducerRejected(SequenceGap(a.seqNo + 1, b.seqNo))
  {
    StaysBetween(run, steps, i, i + 1, j, q);
    TakenIsRow(run, steps, outcomes, i, q, a);
    RowLasts(run, steps, outcomes, i + 1, j, q, a.id);
    assert AnswerAt(run, steps, outcomes, j);
    assert NotExpired(At(run[j], q).producers, a.id, steps[j].now);
    ReachedProducerIsTold(At(run[j], q), steps[j].request, steps[j].now);
  }

  /** A producer of which nothing has been taken begins at zero. */
  lemma NewProducerIsTold(run: seq<World>, steps: seq<Step>, outcomes: seq<WriteOutcome>, i: nat, j: nat, q: Path,
                          b: ProducerHeaders)
    requires Run(run, steps) && Answers(run, steps, outcomes) && i <= j < |steps| && Stays(run, i, j, q)
    requires b.id !in At(run[i], q).producers && TookNone(run, steps, outcomes, i, j, q, b.id)
    requires PostsTo(steps[j], q) && steps[j].request.producer == Some(b)
    requires ReachesProducer(At(run[j], q), steps[j].request, steps[j].now)
    ensures if b.seqNo == 0 then !outcomes[j].ProducerRejected?
            else outcomes[j] == ProducerRejected(SequenceGap(0, b.seqNo))
  {
    RowLasts(run, steps, outcomes, i, j, q, b.id);
    assert AnswerAt(run, steps, outcomes, j);
    ReachedProducerIsTold(At(run[j], q), steps[j].request, steps[j].now);
  }

  /**
   Once a request of some epoch has been taken, and while the producer's row lives, a
   request of a smaller epoch is neither taken nor acknowledged, as a success or as a
   duplicate: it is told an epoch greater than its own.
   */
  lemma OlderInstancesAreFenced(run: seq<World>, steps: seq<Step>, outcomes: seq<WriteOutcome>, i: nat, j: nat,
                                q: Path, a: ProducerHeaders, b: ProducerHeaders)
    requires Run(run, steps) && Answers(run, steps, outcomes) && i < j < |steps| && Stays(run, i, j, q)
    requires Took(run, steps, outcomes, i, q, a) && KeptFresh(run, steps, i + 1, j + 1, q, a.id)
    requires PostsTo(steps[j], q) && steps[j].request.producer == Some(b) && a.id == b.id && b.epoch < a.epoch
    requires ReachesProducer(At(run[j], q), steps[j].request, steps[j].now)
    ensures outcomes[j].ProducerRejected? && outcomes[j].why.StaleEpoch? && outcomes[j].why.currentEpoch >= a.epoch
    ensures outcomes[j].why.currentEpoch > b.epoch
    ensures !Took(run, steps, outcomes, j, q, b)
  {
    StaysBetween(run, steps, i, i + 1, j, q);
    TakenIsRow(run, steps, outcomes, i, q, a);
    ReachedNeverFalls(run, steps, i + 1, j, q, a.id, a.epoch, a.seqNo);
    assert AnswerAt(run, steps, outcomes, j);
    assert NotExpired(At(run[j], q).producers, a.id, steps[j].now);
    ReachedProducerIsTold(At(run[j], q), steps[j].request, steps[j].now);
  }

  // -------------------------------------------------------------- duplicates

  /** The last request of a producer that was taken, if any was. */
  lemma {:induction false} LastTaken(run: seq<World>, steps: seq<Step>, outcomes: seq<WriteOutcome>, i: nat, j: nat,
                                     q: Path, id: string) returns (k: nat, a: Option<ProducerHeaders>)
    requires Run(run, steps) && Answers(run, steps, outcomes) && i <= j <= |steps|
    ensures a.None? ==> TookNone(run, steps, outcomes, i, j, q, id)
    ensures a.Some? ==> i <= k < j && a.value.id == id && Took(run, steps, outcomes, k, q, a.value)
                        && TookNone(run, steps, outcomes, k + 1, j, q, id)
    decreases j - i
  {
    k, a := i, None;
    if i < j {
      if b: ProducerHeaders :| b.id == id && Took(run, steps, outcomes, j - 1, q, b) {
        k, a := j - 1, Some(b);
      } else {
        k, a := LastTaken(run, steps, outcomes, i, j - 1, q, id);
      }
    }
  }

  /**
   A request is told that it is a duplicate only if one of its own epoch, with the number
   it is told and at least as great as its own, is the last one taken of its producer.
   */
  lemma DuplicatesWereTaken(run: seq<World>, steps: seq<Step>, outcomes: seq<WriteOutcome>, i: nat, j: nat, q: Path,
                            b: ProducerHeaders)
    requires Run(run, steps) && Answers(run, steps, outcomes) && i <= j < |steps| && Stays(run, i, j, q)
    requires b.id !in At(run[i], q).producers
    requires PostsTo(steps[j], q) && steps[j].request.producer == Some(b)
    requires outcomes[j].ProducerRejected? && outcomes[j].why.Duplicate?
    ensures exists k, a: ProducerHeaders ::
              && i <= k < j && Took(run, steps, outcomes, k, q, a) && TookNone(run, steps, outcomes, k + 1, j, q, b.id)
              && a.id == b.id && a.epoch == b.epoch && b.seqNo <= a.seqNo == outcomes[j].why.lastSeq
  {
    var t, r, now := At(run[j], q), steps[j].request, steps[j].now;
    assert AnswerAt(run, steps, outcomes, j);
    RejectionsAreTrue(t, r, now);
    DuplicateSaysRow(t, r, now);
    var k, a := LastTaken(run, steps, outcomes, i, j, q, b.id);
    if a.None? {
      RowLasts(run, steps, outcomes, i, j, q, b.id);
      assert false;
    } else {
      StaysBetween(run, steps, i, k, j, q);
      StaysBetween(run, steps, k, k + 1, j, q);
      TakenIsRow(run, steps, outcomes, k, q, a.value);
      RowLasts(run, steps, outcomes, k + 1, j, q, b.id);
    }
  }

  lemma DuplicateSaysRow(t: Tables, r: PostRequest, now: int)
    requires Post(t, r, now).1.ProducerRejected? && Post(t, r, now).1.why.Duplicate?
    ensures r.producer.Some?
    ensures var p := r.producer.value;
            p.id in t.producers && t.producers[p.id].epoch == p.epoch
            && p.seqNo <= t.producers[p.id].lastSeq == Post(t, r, now).1.why.lastSeq
  {
    LookDecides(t, now);
    if r.producer.Some? {
      NextIsAccepted(t.producers, r.producer.value, now);
    }
  }
}
