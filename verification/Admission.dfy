/**
 Which requests a stream takes. The conditions are those of the protocol, on the
 stream, the request and the clock; none refers to how the server arrives at them.
 */
module Admission {
  import opened Options
  import opened Offsets
  import opened Tables
  import opened Cluster
  import opened ForkSafety
  import opened Writers

  /** The values of a JSON body, in order. */
  function ValuesOf(json: JsonBody): seq<Blob> {
    match json
    case NotJson => []
    case JsonArray(values) => values
    case JsonValue(value) => [value]
  }

  /** How many bytes a list of values takes in the log: each one and a comma. */
  function ListSize(values: seq<Blob>): nat {
    if values == [] then 0 else |values[0]| + 1 + ListSize(values[1..])
  }

  lemma {:induction false} StoredSize(values: seq<Blob>)
    ensures |Stored(values)| == ListSize(values)
  {
    if values != [] {
      StoredSize(values[1..]);
    }
  }

  /** What the body of an append must be: any bytes, or for a JSON stream one value or more that are not too large. */
  predicate BodyFits(contentType: Option<string>, r: PostRequest) {
    && r.body != [] && |r.body| <= MAX_BODY_BYTES
    && (IsJson(contentType) ==> ValuesOf(r.json) != [] && ListSize(ValuesOf(r.json)) <= MAX_BODY_BYTES)
  }

  /** Live, not expired, and open. */
  predicate IsOpen(t: Tables, now: int) {
    && t.meta.Some? && !t.meta.value.softDeleted && !t.meta.value.closed && !IsExpired(t.meta.value, now)
  }

  /** Nothing but the producer and what follows it can stand against this append. */
  predicate AppendReaches(t: Tables, r: PostRequest, now: int) {
    && IsOpen(t, now) && BodyFits(t.meta.value.contentType, r)
    && r.contentType.Some? && NormalizeContentType(r.contentType) == NormalizeContentType(t.meta.value.contentType)
  }

  predicate CloseReaches(t: Tables, r: PostRequest, now: int) { IsOpen(t, now) && r.body == [] && r.close }

  predicate ReachesProducer(t: Tables, r: PostRequest, now: int) { AppendReaches(t, r, now) || CloseReaches(t, r, now) }

  lemma PayloadFits(contentType: Option<string>, r: PostRequest)
    ensures r.body != [] && |r.body| <= MAX_BODY_BYTES ==>
              (PayloadOf(contentType, r).Ok? <==> BodyFits(contentType, r))
    ensures PayloadOf(contentType, r).Ok? ==>
              PayloadOf(contentType, r).value == if IsJson(contentType) then Stored(ValuesOf(r.json)) else r.body
  {
    StoredSize(ValuesOf(r.json));
  }

  /** The row of a producer, if it is recent enough to count: seven days. */
  function LiveRow(rows: Producers, id: string, now: int): Option<ProducerState> {
    if id in rows && rows[id].lastUpdated >= ExpiredBefore(now) then Some(rows[id]) else None
  }

  /** A producer's row counts for exactly seven days after it was written. */
  lemma RowsLiveSevenDays(rows: Producers, id: string, now: int)
    requires id in rows && I64_MIN + 604_800_000 <= now <= I64_MAX
    ensures LiveRow(rows, id, now).Some? <==> now - rows[id].lastUpdated <= 7 * 24 * 60 * 60 * 1000
  {}

  /** This request is the producer's next one: the following number of its epoch, or the first of a higher one. */
  predicate IsNext(row: Option<ProducerState>, p: ProducerHeaders) {
    match row
    case None => p.seqNo == 0
    case Some(s) => (p.epoch == s.epoch && p.seqNo == s.lastSeq + 1) || (p.epoch > s.epoch && p.seqNo == 0)
  }

  /** What a producer is told whose request is not its next one. */
  function Told(row: Option<ProducerState>, p: ProducerHeaders): WriteOutcome
    requires !IsNext(row, p)
  {
    match row
    case None => ProducerRejected(SequenceGap(0, p.seqNo))
    case Some(s) =>
      if p.epoch < s.epoch then ProducerRejected(StaleEpoch(s.epoch))
      else if p.epoch > s.epoch then ProducerRejected(InvalidEpochSeq)
      else if p.seqNo <= s.lastSeq then ProducerRejected(Duplicate(s.lastSeq))
      else ProducerRejected(SequenceGap(s.lastSeq + 1, p.seqNo))
  }

  lemma NextIsAccepted(rows: Producers, p: ProducerHeaders, now: int)
    ensures CheckProducer(rows, p, now).Accepted? <==> IsNext(LiveRow(rows, p.id, now), p)
    ensures !IsNext(LiveRow(rows, p.id, now), p) ==>
              ProducerRejected(CheckProducer(rows, p, now)) == Told(LiveRow(rows, p.id, now), p)
  {
    SweepFindsRecent(rows, p.id, ExpiredBefore(now));
  }

  // ------------------------------------------------------------ the answers

  /** What is stored of a body. */
  function StoredForm(contentType: Option<string>, r: PostRequest): Blob {
    if IsJson(contentType) then Stored(ValuesOf(r.json)) else r.body
  }

  /** The Stream-Seq, if one is given and one was recorded, is greater. */
  predicate SeqRises(m: Meta, r: PostRequest) {
    m.lastSeq.Some? && r.streamSeq.Some? ==> Less(m.lastSeq.value, r.streamSeq.value)
  }

  predicate ProducerIsNext(t: Tables, r: PostRequest, now: int) {
    r.producer.Some? ==> IsNext(LiveRow(t.producers, r.producer.value.id, now), r.producer.value)
  }

  /** A request that gets as far as its producer is told about the producer exactly if it is not the next one. */
  lemma ReachedProducerIsTold(t: Tables, r: PostRequest, now: int)
    requires ReachesProducer(t, r, now) && r.producer.Some?
    ensures ProducerIsNext(t, r, now) <==> !Post(t, r, now).1.ProducerRejected?
    ensures !ProducerIsNext(t, r, now) ==>
              Post(t, r, now).1 == Told(LiveRow(t.producers, r.producer.value.id, now), r.producer.value)
  {
    NextIsAccepted(t.producers, r.producer.value, now);
    if r.body == [] {
      ReachedClose(t, r, now);
    } else {
      ReachedAppend(t, r, now);
    }
  }

  lemma ReachedAppend(t: Tables, r: PostRequest, now: int)
    requires AppendReaches(t, r, now)
    ensures Post(t, r, now) == PostTransaction(t, r, StoredForm(t.meta.value.contentType, r), now)
  {
    PayloadFits(t.meta.value.contentType, r);
  }

  lemma ReachedClose(t: Tables, r: PostRequest, now: int)
    requires CloseReaches(t, r, now)
    ensures Post(t, r, now) == CloseSeen(t, r.producer, now)
  {}

  /**
   An append is taken if and only if the stream is open, the body fits it, the producer's
   request is its next one, the Stream-Seq is greater, and the offset can be advanced.
   */
  lemma AppendedIff(t: Tables, r: PostRequest, now: int)
    ensures Post(t, r, now).1.Appended? <==>
              && AppendReaches(t, r, now) && ProducerIsNext(t, r, now) && SeqRises(t.meta.value, r)
              && AppendMessage(t, StoredForm(t.meta.value.contentType, r)).Some?
  {
    if r.producer.Some? {
      NextIsAccepted(t.producers, r.producer.value, now);
    }
    if Post(t, r, now).1.Appended? {
      AppendedReaches(t, r, now);
    }
    if AppendReaches(t, r, now) {
      ReachedAppend(t, r, now);
    }
  }

  lemma AppendedReaches(t: Tables, r: PostRequest, now: int)
    requires Post(t, r, now).1.Appended?
    ensures AppendReaches(t, r, now)
  {
    AppendedMeans(t, r, now);
    PayloadFits(t.meta.value.contentType, r);
  }

  /** An open stream is closed by a request without a body if and only if that is its producer's next one. */
  lemma ClosedIff(t: Tables, r: PostRequest, now: int)
    requires CloseReaches(t, r, now)
    ensures Post(t, r, now).1.CloseSuccess? <==> ProducerIsNext(t, r, now)
    ensures Post(t, r, now).1.CloseSuccess? ==>
              var m := Post(t, r, now).0.meta;
              m.Some? && m.value.closed && m.value.lastAccessed == now
              && (r.producer.Some? ==> m.value.closedBy == Some(ClosedByOf(r.producer.value)))
  {
    ReachedClose(t, r, now);
    if r.producer.Some? {
      NextIsAccepted(t.producers, r.producer.value, now);
    }
  }

  /** What a successful append leaves besides the message. */
  lemma AppendedLeaves(t: Tables, r: PostRequest, now: int)
    requires Post(t, r, now).1.Appended?
    ensures t.meta.Some? && Post(t, r, now).0.meta.Some?
    ensures var m, n := t.meta.value, Post(t, r, now).0.meta.value;
            && n.closed == r.close && n.lastAccessed == now && n.contentType == m.contentType
            && n.ttlSeconds == m.ttlSeconds && n.expiresAt == m.expiresAt
            && n.lastSeq == (if r.streamSeq.Some? then r.streamSeq else m.lastSeq)
            && n.closedBy == (if r.close && r.producer.Some? then Some(ClosedByOf(r.producer.value)) else m.closedBy)
            && Post(t, r, now).1 == Appended(n.currentOffset)
  {
    AppendedMeans(t, r, now);
  }

  /** Every rejection is true of the stream, the request and the clock. */
  lemma RejectionsAreTrue(t: Tables, r: PostRequest, now: int)
    ensures match Post(t, r, now).1
            case Appended(_) => true
            case CloseSuccess(_) => true
            case PayloadTooLarge =>
              |r.body| > MAX_BODY_BYTES || (r.body != [] && ListSize(ValuesOf(r.json)) > MAX_BODY_BYTES)
            case EmptyBody => r.body == [] && !r.close
            case MissingContentType => r.body != [] && r.contentType.None?
            case StreamNotFound => t.meta.None? || (IsExpired(t.meta.value, now) && t.edges == map[])
            case StreamGone => t.meta.Some? && (t.meta.value.softDeleted || IsExpired(t.meta.value, now))
            case StreamClosed => t.meta.Some? && !t.meta.value.softDeleted && t.meta.value.closed
            case TypeMismatch =>
              IsOpen(t, now) && NormalizeContentType(r.contentType) != NormalizeContentType(t.meta.value.contentType)
            case BadJson(_) => IsOpen(t, now) && IsJson(t.meta.value.contentType) && ValuesOf(r.json) == []
            case SequenceConflict => IsOpen(t, now) && !SeqRises(t.meta.value, r)
            case ProducerRejected(_) => IsOpen(t, now) && r.producer.Some? && !ProducerIsNext(t, r, now)
            case AppendFailed =>
              AppendReaches(t, r, now) && AppendMessage(t, StoredForm(t.meta.value.contentType, r)).None?
  {
    LookDecides(t, now);
    if t.meta.Some? && !IsExpired(t.meta.value, now) {
      if r.producer.Some? {
        NextIsAccepted(t.producers, r.producer.value, now);
      }
      if r.body != [] && |r.body| <= MAX_BODY_BYTES {
        PayloadFits(t.meta.value.contentType, r);
        StoredSize(ValuesOf(r.json));
      }
    }
  }

  /** A look leaves a stream alone unless it has expired; then it goes, or is soft-deleted if forks hold edges. */
  lemma LookDecides(t: Tables, now: int)
    ensures var v := Visible(t, now);
            if t.meta.Some? && IsExpired(t.meta.value, now) then
              (v.meta.None? <==> t.edges == map[]) && (v.meta.Some? ==> v.meta.value.softDeleted)
            else v == t
  {
    assert |t.edges| > 0 <==> t.edges != map[];
  }
}
