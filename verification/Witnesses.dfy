/** Runs that reach the failing side of properties that do not hold of every state. */
module Witnesses {
  import opened Options
  import opened Offsets
  import opened Tables
  import opened Cluster
  import opened ClusterProofs
  import opened ForkSafety
  import opened Logs
  import opened LogSafety
  import opened Isolation
  import opened Stitch
  import opened Tail
  import opened ExactlyOnce
  import Serialisation

  const EMPTY_WORLD := Serialisation.EMPTY_WORLD
  const PLAIN := Serialisation.PLAIN

  /** A step that respects the guard. */
  predicate Goes(w: World, s: Step, v: World) { Follows(w, s, v) && Serialised(w, s) }

  // ------------------------------------------ an append behind an empty batch

  /** A plain request of one byte. */
  function OneByte(close: bool, producer: Option<ProducerHeaders>): PostRequest {
    PostRequest([0], NotJson, Some(""), close, producer, None)
  }

  function NewStream(): Tables { NO_TABLES.(meta := Some(NewMeta(0, PLAIN, 0, None))) }

  /** The offset of the first byte appended to a new stream. */
  lemma RegularOffset() returns (next: string)
    ensures AdvanceOffset(ZERO_OFFSET, 1) == Some(next) && InStep(ZERO_OFFSET, next)
  {
    ZeroIsWide();
    AdvanceKnown(ZERO_OFFSET, 0, 1, 6);
    next := FormatOffset(0, 6);
    FirstIsRegular(next);
  }

  lemma FirstIsRegular(next: string)
    requires AdvanceOffset(ZERO_OFFSET, 1) == Some(next) && Bytes(ZERO_OFFSET) == 0 && InStream(ZERO_OFFSET)
    ensures InStep(ZERO_OFFSET, next)
  {
    AdvanceForm(ZERO_OFFSET, 0, 1, 6);
    WidthIff(6, 16);
    Pow10Of16();
  }

  function Holding(next: string): Tables {
    NewStream().(messages := [Message(next, [0])], meta := Some(NewStream().meta.value.(currentOffset := next)))
  }

  lemma FirstAppend(next: string)
    requires AdvanceOffset(ZERO_OFFSET, 1) == Some(next)
    ensures AppendMessage(NewStream(), [0]) == Some(Holding(next))
  {
    assert InsertRow([], Message(next, [0])) == [Message(next, [0])];
  }

  /** The type of the request is that of the stream, and not JSON. */
  lemma PlainTypes()
    ensures NormalizeContentType(Some("")) == NormalizeContentType(None) && !IsJson(None)
  {
    assert |NormalizeContentType(None)| == 0;
  }

  lemma OneBytePosted(next: string, close: bool)
    requires AdvanceOffset(ZERO_OFFSET, 1) == Some(next)
    ensures Post(NewStream(), OneByte(close, None), 0)
            == (Holding(next).(meta := Some(Holding(next).meta.value.(closed := close))), Appended(next))
  {
    FirstAppend(next);
    PlainTypes();
    ReachesTransaction(OneByte(close, None));
  }

  /** Nothing stands in the way of a plain request to a new stream. */
  lemma ReachesTransaction(r: PostRequest)
    requires r.body == [0] && r.contentType == Some("") && NormalizeContentType(Some("")) == NormalizeContentType(None)
    requires !IsJson(None)
    ensures Post(NewStream(), r, 0) == PostTransaction(NewStream(), r, [0], 0)
  {}

  lemma Created(p: Path) returns (w: World)
    ensures Goes(EMPTY_WORLD, PutStream(p, PLAIN, [], 0), w) && At(w, p) == NewStream() && w.jobs == map[]
    ensures w.next == 1
    ensures Good(EMPTY_WORLD) && Good(w)
  {
    w := Apply(EMPTY_WORLD, PutStream(p, PLAIN, [], 0));
    InitGood(EMPTY_WORLD);
    StepKeepsGood(EMPTY_WORLD, PutStream(p, PLAIN, [], 0));
  }

  /** The message that also closes the stream. */
  lemma ClosedAfterOne(next: string)
    requires AdvanceOffset(ZERO_OFFSET, 1) == Some(next) && InStep(ZERO_OFFSET, next)
    ensures var u := Post(NewStream(), OneByte(true, None), 0).0;
            && u.meta.Some? && u.meta.value.gen == 0 && u.meta.value.fork.None? && u.meta.value.closed
            && Regular(u) && |u.messages| == 1
  {
    OneBytePosted(next, true);
  }

  lemma ClosedStream()
    ensures var u := Post(NewStream(), OneByte(true, None), 0).0;
            && u.meta.Some? && u.meta.value.gen == 0 && u.meta.value.fork.None? && u.meta.value.closed
            && Regular(u) && |u.messages| == 1
  {
    var next := RegularOffset();
    ClosedAfterOne(next);
  }

  lemma ClosingAppend(w: World, p: Path) returns (v: World)
    requires Good(w) && At(w, p) == NewStream() && w.next == 1
    ensures Goes(w, PostStream(p, OneByte(true, None), 0), v) && Good(v) && Later(w, v)
    ensures Exists(v, p) && Gen(v, p) == 0 && !IsFork(v, p) && Regular(At(v, p)) && At(v, p).meta.value.closed
    ensures |At(v, p).messages| == 1
  {
    var s := PostStream(p, OneByte(true, None), 0);
    v := Apply(w, s);
    assert At(v, p) == Post(NewStream(), OneByte(true, None), 0).0;
    ClosedStream();
    StepKeepsGood(w, s);
  }

  /** Nothing is read from a new stream. */
  lemma NothingToRead(w: World, p: Path)
    requires Good(w) && At(w, p) == NewStream()
    ensures Sound(w, p)
    ensures Stitched(w, p, ZERO_OFFSET, None, MAX_READ_ROWS, MAX_READ_BYTES) == Batch([], false)
  {
    StitchedOwn(w, p, ZERO_OFFSET, None, MAX_READ_ROWS, MAX_READ_BYTES);
  }

  /**
   A reader finds nothing; a message is appended that also closes the stream; the
   metadata is looked at. The reader is told the stream is closed at an offset past
   the message, which it never got.
   */
  lemma EmptyBatchSkipsAMessage(p: Path) returns (w: World, v: World)
    ensures Good(w) && Good(v) && Goes(EMPTY_WORLD, PutStream(p, PLAIN, [], 0), w)
    ensures Goes(w, PostStream(p, OneByte(true, None), 0), v) && Sound(w, p) && Sound(v, p)
    ensures var batch := Stitched(w, p, ZERO_OFFSET, None, MAX_READ_ROWS, MAX_READ_BYTES);
            var report := ReportOf(batch, At(v, p).meta.value);
            batch.messages == [] && report.closed && !NothingSkipped(v, p, ZERO_OFFSET, batch, report)
    ensures Window(Logical(v, p), Some(At(w, p).meta.value.currentOffset), None) != []
  {
    w := Created(p);
    v := ClosingAppend(w, p);
    NothingToRead(w, p);
    LessTotal(ZERO_OFFSET, ZERO_OFFSET);
    ReportSkipsNothingIff(w, v, p, ZERO_OFFSET, MAX_READ_ROWS, MAX_READ_BYTES);
    LaterReflexive(v);
    TimeoutClosureIsFinalIff(w, v, v, p);
  }

  // --------------------------------------------------- a fork of another type

  function Typed(contentType: string): CreateOptions { CreateOptions(Some(contentType), None, None, false) }

  function TypedSource(edges: map<EdgeId, string>): Tables {
    NO_TABLES.(meta := Some(NewMeta(0, Typed("a"), 0, None)), edges := edges)
  }

  lemma TypesClash()
    ensures ContentTypeClash(Some("b"), TypedSource(map[]).meta.value)
  {
    assert Trim("b") == "b" && Trim("a") == "a";
    assert NormalizeContentType(Some("b"))[0] == 'b' && NormalizeContentType(Some("a"))[0] == 'a';
  }

  lemma TypedSourceAcquires(e: EdgeId)
    ensures ForkAcquire(TypedSource(map[]), e, None, None, 0)
            == (TypedSource(map[e := ZERO_OFFSET]), Success(ZERO_OFFSET, TypedSource(map[]).meta.value))
    ensures ForkAcquire(TypedSource(map[e := ZERO_OFFSET]), e, None, Some("b"), 0)
            == (TypedSource(map[e := ZERO_OFFSET]), Success(ZERO_OFFSET, TypedSource(map[]).meta.value))
  {
    InStreamOf(Zeros(16));
    InStreamParts(ZERO_OFFSET);
    LessTotal(ZERO_OFFSET, ZERO_OFFSET);
  }

  /** A creation without a type loses its acquire's answer; repeated with another type, it resumes and commits. */
  lemma ForkOfAnotherType(source: Path, child: Path) returns (v: World)
    requires source != child
    ensures var e := EdgeId(child, 1);
            var r := Serialisation.Outcome(EMPTY_WORLD,
              [PutStream(source, Typed("a"), [], 0)]
              + ([BeginFork(0, child, source, None, PLAIN, e)] + ([SendAcquire(0, 0, true)]
              + ([BeginFork(1, child, source, None, Typed("b"), e)] + ([SendAcquire(1, 0, false)]
              + ([CommitJob(1, None, [], [], 0)] + []))))));
            r == Some(v)
    ensures IsFork(v, child) && Fork(v, child).parent == source && Exists(v, source)
    ensures At(v, child).meta.value.contentType == Some("b")
    ensures ContentTypeClash(At(v, child).meta.value.contentType, At(v, source).meta.value)
  {
    var e := EdgeId(child, 1);
    var s1, s2 := PutStream(source, Typed("a"), [], 0), BeginFork(0, child, source, None, PLAIN, e);
    var s3 := SendAcquire(0, 0, true);
    var s4, s5 := BeginFork(1, child, source, None, Typed("b"), e), SendAcquire(1, 0, false);
    var s6 := CommitJob(1, None, [], [], 0);
    var w1 := Apply(EMPTY_WORLD, s1);
    assert At(w1, source) == TypedSource(map[]) && At(w1, child) == NO_TABLES;
    var w3 := AnswerLost(w1, source, child, [s4] + ([s5] + ([s6] + [])));
    v := ResumedWithType(w3, source, child);
    TypesClash();
    Serialisation.TakeStep(EMPTY_WORLD, s1, [s2] + ([s3] + ([s4] + ([s5] + ([s6] + [])))));
  }

  function Intended(source: Path, child: Path): Tables {
    NO_TABLES.(intents := map[EdgeId(child, 1) := Intent(source, None)])
  }

  lemma AnswerLost(w: World, source: Path, child: Path, rest: seq<Step>) returns (v: World)
    requires source != child && At(w, source) == TypedSource(map[]) && At(w, child) == NO_TABLES
    requires w.jobs == map[] && w.next == 1
    ensures At(v, source) == TypedSource(map[EdgeId(child, 1) := ZERO_OFFSET])
    ensures At(v, child) == Intended(source, child)
    ensures v.jobs == map[] && v.next == 2
    ensures Serialisation.Outcome(w, [BeginFork(0, child, source, None, PLAIN, EdgeId(child, 1))]
              + ([SendAcquire(0, 0, true)] + rest))
            == Serialisation.Outcome(v, rest)
  {
    var s1, s2 := BeginFork(0, child, source, None, PLAIN, EdgeId(child, 1)), SendAcquire(0, 0, true);
    var w1 := Apply(w, s1);
    assert At(w1, child) == Intended(source, child) && At(w1, source) == TypedSource(map[]);
    TypedSourceAcquires(EdgeId(child, 1));
    v := Apply(w1, s2);
    Serialisation.TakeStep(w, s1, [s2] + rest);
    Serialisation.TakeStep(w1, s2, rest);
  }

  lemma TypeAsked()
    ensures SanitizeContentType(Some("b"), true) == Some("b")
  {
    assert Trim("b") == "b";
  }

  lemma ResumedWithType(w: World, source: Path, child: Path) returns (v: World)
    requires source != child && At(w, source) == TypedSource(map[EdgeId(child, 1) := ZERO_OFFSET])
    requires At(w, child) == Intended(source, child) && w.jobs == map[] && w.next == 2
    ensures Serialisation.Outcome(w, [BeginFork(1, child, source, None, Typed("b"), EdgeId(child, 1))]
              + ([SendAcquire(1, 0, false)]
              + ([CommitJob(1, None, [], [], 0)] + []))) == Some(v)
    ensures At(v, source) == At(w, source) && IsFork(v, child) && Fork(v, child).parent == source
    ensures At(v, child).meta.value.contentType == Some("b")
  {
    var e := EdgeId(child, 1);
    var s1, s2 := BeginFork(1, child, source, None, Typed("b"), e), SendAcquire(1, 0, false);
    var s3 := CommitJob(1, None, [], [], 0);
    assert e in At(w, child).intents;
    var w1 := Apply(w, s1);
    assert At(w1, child) == Intended(source, child) && At(w1, source) == At(w, source);
    var w2 := AcquiredWithType(w1, source, child, Job(Creating(Typed("b")), child, e, Intent(source, None), None));
    v := CommittedWithType(w2, source, child);
    Serialisation.TakeStep(w, s1, [s2] + ([s3] + []));
    Serialisation.TakeStep(w1, s2, [s3] + []);
    Serialisation.TakeStep(w2, s3, []);
  }

  lemma AcquiredWithType(w: World, source: Path, child: Path, job: Job) returns (v: World)
    requires source != child && At(w, source) == TypedSource(map[EdgeId(child, 1) := ZERO_OFFSET])
    requires At(w, child) == Intended(source, child) && w.jobs == map[1 := job]
    requires job == Job(Creating(Typed("b")), child, EdgeId(child, 1), Intent(source, None), None)
    ensures v == Apply(w, SendAcquire(1, 0, false)) && At(v, source) == At(w, source) && At(v, child) == At(w, child)
    ensures v.jobs == map[1 := job.(reply := Some(Success(ZERO_OFFSET, TypedSource(map[]).meta.value)))]
  {
    TypeAsked();
    TypedSourceAcquires(EdgeId(child, 1));
    v := Apply(w, SendAcquire(1, 0, false));
  }

  lemma CommittedWithType(w: World, source: Path, child: Path) returns (v: World)
    requires source != child && At(w, child) == Intended(source, child)
    requires w.jobs == map[1 := Job(Creating(Typed("b")), child, EdgeId(child, 1), Intent(source, None),
                                    Some(Success(ZERO_OFFSET, TypedSource(map[]).meta.value)))]
    ensures v == Apply(w, CommitJob(1, None, [], [], 0)) && At(v, source) == At(w, source)
    ensures IsFork(v, child) && Fork(v, child).parent == source && At(v, child).meta.value.contentType == Some("b")
  {
    TypeAsked();
    v := Apply(w, CommitJob(1, None, [], [], 0));
  }

  // --------------------------------------------- a fork's PUT that is repeated

  const FOR_A_MINUTE := CreateOptions(None, Some(60), None, false)

  function ShortLived(edges: map<EdgeId, string>): Tables {
    NO_TABLES.(meta := Some(NewMeta(0, FOR_A_MINUTE, 0, None)), edges := edges)
  }

  lemma ShortLivedAcquires(e: EdgeId)
    ensures ForkAcquire(ShortLived(map[]), e, None, None, 0)
            == (ShortLived(map[e := ZERO_OFFSET]), Success(ZERO_OFFSET, ShortLived(map[]).meta.value))
  {
    InStreamOf(Zeros(16));
    InStreamParts(ZERO_OFFSET);
    LessTotal(ZERO_OFFSET, ZERO_OFFSET);
  }

  /** A stream that lives for a minute is forked; the fork's PUT, sent again at once, is turned away. */
  lemma RepeatedForkIsTurnedAway(source: Path, child: Path) returns (v: World)
    requires source != child
    ensures Serialisation.Outcome(EMPTY_WORLD,
              [PutStream(source, FOR_A_MINUTE, [], 0)]
              + ([BeginFork(0, child, source, None, PLAIN, EdgeId(child, 1))]
              + ([SendAcquire(0, 0, false)] + ([CommitJob(0, None, [], [], 0)] + [])))) == Some(v)
    ensures IsFork(v, child) && !At(v, child).meta.value.closed
    ensures AnswerPut(At(v, child), PutRequest(PLAIN, Some(source), None, None), 0) == OtherConfiguration
  {
    var e := EdgeId(child, 1);
    var s1, s2 := PutStream(source, FOR_A_MINUTE, [], 0), BeginFork(0, child, source, None, PLAIN, e);
    var s3, s4 := SendAcquire(0, 0, false), CommitJob(0, None, [], [], 0);
    var w1 := Apply(EMPTY_WORLD, s1);
    assert At(w1, source) == ShortLived(map[]) && At(w1, child) == NO_TABLES;
    var w2 := Apply(w1, s2);
    assert At(w2, source) == ShortLived(map[]) && At(w2, child) == Intended(source, child);
    assert w2.jobs == map[0 := Job(Creating(PLAIN), child, e, Intent(source, None), None)];
    v := ShortLivedForked(w2, source, child, [s3] + ([s4] + []));
    Serialisation.TakeStep(EMPTY_WORLD, s1, [s2] + ([s3] + ([s4] + [])));
    Serialisation.TakeStep(w1, s2, [s3] + ([s4] + []));
  }

  lemma ShortLivedForked(w: World, source: Path, child: Path, steps: seq<Step>) returns (v: World)
    requires source != child && At(w, source) == ShortLived(map[]) && At(w, child) == Intended(source, child)
    requires w.jobs == map[0 := Job(Creating(PLAIN), child, EdgeId(child, 1), Intent(source, None), None)]
    requires steps == [SendAcquire(0, 0, false)] + ([CommitJob(0, None, [], [], 0)] + [])
    ensures Serialisation.Outcome(w, steps) == Some(v)
    ensures IsFork(v, child) && !At(v, child).meta.value.closed
    ensures AnswerPut(At(v, child), PutRequest(PLAIN, Some(source), None, None), 0) == OtherConfiguration
  {
    var s3, s4 := SendAcquire(0, 0, false), CommitJob(0, None, [], [], 0);
    ShortLivedAcquires(EdgeId(child, 1));
    var w3 := Apply(w, s3);
    assert At(w3, child) == Intended(source, child);
    v := Apply(w3, s4);
    Serialisation.TakeStep(w, s3, [s4] + []);
    Serialisation.TakeStep(w3, s4, []);
  }

  // ------------------------------------------------ a resend to a closed stream

  const WRITER := ProducerHeaders("w", 0, 0)
  const CLOSE_REQUEST := PostRequest([], NotJson, None, true, None, None)

  /** A producer's append is taken and its answer lost; somebody closes the stream; the resend is turned away. */
  lemma ResendIsTurnedAway(p: Path) returns (w: World, v: World, x: World)
    ensures Goes(EMPTY_WORLD, PutStream(p, PLAIN, [], 0), w)
    ensures Goes(w, PostStream(p, OneByte(false, Some(WRITER)), 0), v)
    ensures Goes(v, PostStream(p, CLOSE_REQUEST, 0), x)
    ensures Post(At(w, p), OneByte(false, Some(WRITER)), 0).1.Appended?
    ensures |At(x, p).messages| == 1 && At(x, p).messages[0].data == [0]
    ensures Post(At(x, p), OneByte(false, Some(WRITER)), 0).1 == StreamClosed
  {
    w := Created(p);
    v := Apply(w, PostStream(p, OneByte(false, Some(WRITER)), 0));
    x := Apply(v, PostStream(p, CLOSE_REQUEST, 0));
    TakenThenClosed();
    assert At(v, p) == Post(NewStream(), OneByte(false, Some(WRITER)), 0).0;
    assert At(x, p) == Post(At(v, p), CLOSE_REQUEST, 0).0;
  }

  lemma TakenThenClosed()
    ensures var (t, outcome) := Post(NewStream(), OneByte(false, Some(WRITER)), 0);
            var u := Post(t, CLOSE_REQUEST, 0).0;
            && outcome.Appended? && |u.messages| == 1 && u.messages[0].data == [0]
            && Post(u, OneByte(false, Some(WRITER)), 0).1 == StreamClosed
  {
    var next := RegularOffset();
    WriterAppends(next);
    SomebodyCloses(Post(NewStream(), OneByte(false, Some(WRITER)), 0).0);
  }

  lemma WriterAppends(next: string)
    requires AdvanceOffset(ZERO_OFFSET, 1) == Some(next)
    ensures Post(NewStream(), OneByte(false, Some(WRITER)), 0)
            == (Holding(next).(producers := map[WRITER.id := ProducerState(0, 0, 0)]), Appended(next))
  {
    FirstAppend(next);
    PlainTypes();
    NewWriter();
    ReachesTransaction(OneByte(false, Some(WRITER)));
  }

  lemma NewWriter()
    ensures CheckProducer(map[], WRITER, 0) == Accepted(ProducerState(0, 0, 0))
    ensures ProducersAfter(map[], WRITER, 0) == map[WRITER.id := ProducerState(0, 0, 0)]
  {
    SweepFindsRecent(map[], WRITER.id, ExpiredBefore(0));
    assert Sweep(map[], WRITER.id, ExpiredBefore(0)) == map[];
  }

  lemma SomebodyCloses(t: Tables)
    requires t.meta.Some? && !t.meta.value.closed && !t.meta.value.softDeleted && t.meta.value.closedBy.None?
    requires t.meta.value.ttlSeconds.None? && t.meta.value.expiresAt.None?
    ensures var u := Post(t, CLOSE_REQUEST, 0).0;
            u.messages == t.messages && Post(u, OneByte(false, Some(WRITER)), 0).1 == StreamClosed
  {}
}
