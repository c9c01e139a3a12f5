/**
 The tables one stream actor stores, and what each of its transactions does to
 them. Transactions are functions on table values; StreamActor.dfy holds the
 statement-by-statement methods and Cluster.dfy the distributed protocol.
 */
module Tables {
  import opened Options
  import opened Offsets

  type Path = string
  newtype byte = x: int | 0 <= x < 256
  type Blob = seq<byte>

  const MAX_BODY_BYTES: nat := 1_000_000
  const PRODUCER_STATE_TTL_MS: int := 604_800_000
  const SWEEP_LIMIT: nat := 64
  const I64_MAX: int := 0x7fff_ffff_ffff_ffff
  const I64_MIN: int := -0x8000_0000_0000_0000

  /** A fork edge's UUID: unique by the actor that minted it and a serial number. */
  datatype EdgeId = EdgeId(home: Path, serial: nat)

  datatype Message = Message(offset: string, data: Blob)

  datatype ClosedBy = ClosedBy(producerId: string, epoch: nat, seqNo: nat)

  datatype ProducerState = ProducerState(epoch: nat, lastSeq: nat, lastUpdated: int)

  datatype ForkRef = ForkRef(parent: Path, offset: string, subOffset: Option<nat>, edge: EdgeId, sourceGen: nat)

  datatype Meta = Meta(
    gen: nat,
    contentType: Option<string>,
    ttlSeconds: Option<int>,
    expiresAt: Option<int>,
    closed: bool,
    closedBy: Option<ClosedBy>,
    currentOffset: string,
    lastSeq: Option<string>,
    lastAccessed: int,
    fork: Option<ForkRef>,
    softDeleted: bool)

  datatype Intent = Intent(parent: Path, forkOffset: Option<string>)

  datatype Release = Release(parent: Path, sourceGen: Option<nat>)

  datatype Tables = Tables(
    meta: Option<Meta>,
    messages: seq<Message>,
    producers: map<string, ProducerState>,
    edges: map<EdgeId, string>,
    intents: map<EdgeId, Intent>,
    releases: map<EdgeId, Release>)

  const NO_TABLES := Tables(None, [], map[], map[], map[], map[])

  // ---------------------------------------------------------------- expiry

  function Saturate(x: int): int {
    if x > I64_MAX then I64_MAX else if x < I64_MIN then I64_MIN else x
  }

  /** The earlier of the absolute and the sliding expiry. */
  function ExpiryTime(meta: Meta): Option<int> {
    var sliding := if meta.ttlSeconds.Some?
                   then Some(Saturate(meta.lastAccessed + Saturate(meta.ttlSeconds.value * 1000)))
                   else None;
    match (meta.expiresAt, sliding)
    case (Some(a), Some(b)) => Some(if a < b then a else b)
    case (Some(a), None) => Some(a)
    case (None, b) => b
  }

  predicate IsExpired(meta: Meta, now: int) {
    var expiry := ExpiryTime(meta);
    expiry.Some? && now >= expiry.value
  }

  function EnqueueRelease(t: Tables, edge: EdgeId, r: Release): Tables {
    if edge in t.releases then t else t.(releases := t.releases[edge := r])
  }

  /** Drops the stream but keeps intents and releases; a fork's own edge becomes a release. */
  function PurgeStream(t: Tables): Tables
    requires t.meta.Some?
  {
    var queued := match t.meta.value.fork
                  case Some(f) => EnqueueRelease(t, f.edge, Release(f.parent, Some(f.sourceGen)))
                  case None => t;
    queued.(meta := None, messages := [], producers := map[], edges := map[])
  }

  function SoftDelete(t: Tables): Tables
    requires t.meta.Some?
  {
    t.(meta := Some(t.meta.value.(softDeleted := true)))
  }

  /** What remains of a stream whose owner gives it up: forks pin it, otherwise it goes. */
  function Retire(t: Tables): Tables
    requires t.meta.Some?
  {
    if |t.edges| > 0 then SoftDelete(t) else PurgeStream(t)
  }

  /** `visible_meta_while_locked`: an expired stream is retired first. */
  function Visible(t: Tables, now: int): Tables {
    if t.meta.Some? && IsExpired(t.meta.value, now) then Retire(t) else t
  }

  // ------------------------------------------------------------- fork edges

  predicate IsBlank(c: char) { c == ' ' || '\t' <= c <= '\r' }

  function TrimStart(s: string): string { if s != [] && IsBlank(s[0]) then TrimStart(s[1..]) else s }

  function TrimEnd(s: string): string
  { if s != [] && IsBlank(s[|s| - 1]) then TrimEnd(s[..|s| - 1]) else s }

  function Trim(s: string): string { TrimEnd(TrimStart(s)) }

  function Lower(s: string): string {
    seq(|s|, i requires 0 <= i < |s| => if 'A' <= s[i] <= 'Z' then s[i] + 32 as char else s[i])
  }

  function NormalizeContentType(value: Option<string>): string {
    var v := if value.Some? then value.value else "";
    Lower(Trim(v[..Find(v, ';')]))
  }

  predicate IsJson(contentType: Option<string>) { NormalizeContentType(contentType) == "application/json" }

  datatype AcquireError = NotFound | SourceSoftDeleted | ContentTypeMismatch | InvalidOffset

  datatype AcquireReply =
    | Acquired(offset: string, sourceGen: nat, contentType: Option<string>, ttlSeconds: Option<int>,
               expiresAt: Option<int>)
    | Refused(error: AcquireError)

  function Success(offset: string, m: Meta): AcquireReply {
    Acquired(offset, m.gen, m.contentType, m.ttlSeconds, m.expiresAt)
  }

  predicate ContentTypeClash(provided: Option<string>, m: Meta) {
    && provided.Some? && Trim(provided.value) != ""
    && NormalizeContentType(provided) != NormalizeContentType(m.contentType)
  }

  /** `fork_acquire` at the source: a known edge answers from its row, whatever the stream's state. */
  function ForkAcquire(t: Tables, edge: EdgeId, offset: Option<string>, contentType: Option<string>, now: int)
    : (Tables, AcquireReply)
  {
    if edge in t.edges && t.meta.Some? then (t, Success(t.edges[edge], t.meta.value))
    else
      var v := Visible(t, now);
      if v.meta.None? then (v, Refused(NotFound))
      else
        var m := v.meta.value;
        var at := if offset.Some? then offset.value else m.currentOffset;
        if m.softDeleted then (v, Refused(SourceSoftDeleted))
        else if ContentTypeClash(contentType, m) then (v, Refused(ContentTypeMismatch))
        else if !AcceptsForkOffset(at, m.currentOffset) then (v, Refused(InvalidOffset))
        else
          var recorded := if edge in v.edges then v.edges[edge] else at;
          (v.(edges := v.edges[edge := recorded]), Success(recorded, m))
  }

  /** `fork_release` at the source. */
  function ForkRelease(t: Tables, edge: EdgeId, sourceGen: Option<nat>): Tables {
    if t.meta.None? || (sourceGen.Some? && sourceGen.value != t.meta.value.gen) || edge !in t.edges then t
    else
      var released := t.(edges := t.edges - {edge});
      if t.meta.value.softDeleted && |released.edges| == 0 then PurgeStream(released) else released
  }

  function PutIntent(t: Tables, edge: EdgeId, intent: Intent): Tables {
    if edge in t.intents then t else t.(intents := t.intents[edge := intent])
  }

  function DropIntent(t: Tables, edge: EdgeId): Tables { t.(intents := t.intents - {edge}) }

  /** `release_acquired`, and a successful reconcile: the intent becomes a queued release. */
  function IntentToRelease(t: Tables, edge: EdgeId, parent: Path, sourceGen: nat): Tables {
    DropIntent(EnqueueRelease(t, edge, Release(parent, Some(sourceGen))), edge)
  }

  function Dequeue(t: Tables, edge: EdgeId): Tables { t.(releases := t.releases - {edge}) }

  // --------------------------------------------------------------- messages

  /** The messages table is ordered by its primary key. */
  function InsertRow(rows: seq<Message>, m: Message): seq<Message> {
    if rows == [] || Less(rows[|rows| - 1].offset, m.offset) then rows + [m]
    else InsertRow(rows[..|rows| - 1], m) + [rows[|rows| - 1]]
  }

  /** One append inside a transaction; None is an error, which rolls the transaction back. */
  function AppendMessage(t: Tables, payload: Blob): Option<Tables>
    requires t.meta.Some?
  {
    match AdvanceOffset(t.meta.value.currentOffset, |payload|)
    case None => None
    case Some(next) =>
      if exists m :: m in t.messages && m.offset == next then None
      else Some(t.(messages := InsertRow(t.messages, Message(next, payload)),
                   meta := Some(t.meta.value.(currentOffset := next))))
  }

  function AppendNonEmpty(t: Tables, payload: Blob): Option<Tables>
    requires t.meta.Some?
  {
    if payload == [] then Some(t) else AppendMessage(t, payload)
  }

  datatype CreateOptions = CreateOptions(
    contentType: Option<string>, ttlSeconds: Option<int>, expiresAt: Option<int>, closed: bool)

  const DEFAULT_CONTENT_TYPE := "application/octet-stream"

  /** A content type header that is blank or holds other than printable characters counts as absent. */
  function SanitizeContentType(value: Option<string>, isFork: bool): Option<string> {
    if value.Some? && Trim(value.value) != "" && (forall c :: c in value.value ==> c == '\t' || ' ' <= c <= '~')
    then value
    else if isFork then None
    else Some(DEFAULT_CONTENT_TYPE)
  }

  /** The options of a new fork: what the request leaves out comes from the source. */
  function ForkOptions(asked: CreateOptions, acquired: AcquireReply): CreateOptions
    requires acquired.Acquired?
  {
    var provided := SanitizeContentType(asked.contentType, true);
    var resolved := if provided.Some? then provided
                    else if acquired.contentType.Some? then acquired.contentType
                    else Some(DEFAULT_CONTENT_TYPE);
    if asked.ttlSeconds.Some? || asked.expiresAt.Some? then asked.(contentType := resolved)
    else if acquired.ttlSeconds.Some? then
      CreateOptions(resolved, acquired.ttlSeconds, None, asked.closed)
    else CreateOptions(resolved, None, acquired.expiresAt, asked.closed)
  }

  function NewMeta(gen: nat, o: CreateOptions, now: int, fork: Option<ForkRef>): Meta {
    var initial := if fork.Some? then fork.value.offset else ZERO_OFFSET;
    Meta(gen, o.contentType, o.ttlSeconds, o.expiresAt, o.closed, None, initial, None, now, fork, false)
  }

  /** A PUT without a source stream: an existing stream is left alone, otherwise one is created. */
  function CreateStream(t: Tables, gen: nat, o: CreateOptions, payload: Blob, now: int): Tables {
    var v := Visible(t, now);
    if v.meta.Some? then v
    else
      match AppendNonEmpty(v.(meta := Some(NewMeta(gen, o, now, None))), payload)
      case None => v
      case Some(created) => created
  }

  /** The configuration a PUT asks for: that of a stream, and for a fork its source and where to start in it. */
  datatype PutRequest = PutRequest(
    asked: CreateOptions, source: Option<Path>, forkOffset: Option<string>, subOffset: Option<nat>)

  datatype PutAnswer =
    | NothingThere
    | StillRead
    | OtherConfiguration
    | AlreadyThere(offset: string, closed: bool)

  function SourceOf(m: Meta): Option<Path> { if m.fork.Some? then Some(m.fork.value.parent) else None }

  function OrZero(n: Option<nat>): nat { if n.Some? then n.value else 0 }

  predicate SameConfiguration(r: PutRequest, m: Meta) {
    var sent := SanitizeContentType(r.asked.contentType, r.source.Some?);
    && (NormalizeContentType(sent) == NormalizeContentType(m.contentType)
        || (r.source.Some? && sent.None? && r.source == SourceOf(m)))
    && r.asked.ttlSeconds == m.ttlSeconds && r.asked.expiresAt == m.expiresAt && r.asked.closed == m.closed
    && r.source == SourceOf(m)
    && (r.forkOffset.Some? ==> m.fork.Some? && m.fork.value.offset == r.forkOffset.value)
    && OrZero(r.subOffset) == if m.fork.Some? then OrZero(m.fork.value.subOffset) else 0
  }

  /** What a PUT is told when it finds a stream. */
  function AnswerPut(t: Tables, r: PutRequest, now: int): PutAnswer {
    var v := Visible(t, now);
    if v.meta.None? then NothingThere
    else if v.meta.value.softDeleted then StillRead
    else if !SameConfiguration(r, v.meta.value) then OtherConfiguration
    else AlreadyThere(v.meta.value.currentOffset, v.meta.value.closed)
  }

  /** The transaction that makes an acquired fork exist and deletes its intent. */
  function CommitFork(t: Tables, gen: nat, o: CreateOptions, fork: ForkRef, prefix: Blob, payload: Blob, now: int)
    : Option<Tables>
  {
    if t.meta.Some? then None
    else
      match AppendNonEmpty(t.(meta := Some(NewMeta(gen, o, now, Some(fork)))), prefix)
      case None => None
      case Some(a) =>
        match AppendNonEmpty(a, payload)
        case None => None
        case Some(b) => Some(DropIntent(b, fork.edge))
  }

  // -------------------------------------------------------------- producers

  datatype ProducerHeaders = ProducerHeaders(id: string, epoch: nat, seqNo: nat)

  datatype ProducerValidation =
    | Accepted(state: ProducerState)
    | Duplicate(lastSeq: nat)
    | StaleEpoch(currentEpoch: nat)
    | InvalidEpochSeq
    | SequenceGap(expected: nat, received: nat)

  function ValidateProducer(state: Option<ProducerState>, p: ProducerHeaders, now: int): ProducerValidation {
    match state
    case None => if p.seqNo == 0 then Accepted(ProducerState(p.epoch, 0, now)) else SequenceGap(0, p.seqNo)
    case Some(s) =>
      if p.epoch < s.epoch then StaleEpoch(s.epoch)
      else if p.epoch > s.epoch then
        if p.seqNo == 0 then Accepted(ProducerState(p.epoch, 0, now)) else InvalidEpochSeq
      else if p.seqNo <= s.lastSeq then Duplicate(s.lastSeq)
      else if p.seqNo == s.lastSeq + 1 then Accepted(ProducerState(p.epoch, p.seqNo, now))
      else SequenceGap(s.lastSeq + 1, p.seqNo)
  }

  function ClosedByOf(p: ProducerHeaders): ClosedBy { ClosedBy(p.id, p.epoch, p.seqNo) }

  predicate ClosedByMatches(m: Meta, p: ProducerHeaders) { m.closedBy == Some(ClosedByOf(p)) }

  type Producers = map<string, ProducerState>

  function Stale(rows: Producers, before: int): set<string> {
    set id | id in rows && rows[id].lastUpdated < before
  }

  predicate Older(rows: Producers, a: string, b: string)
    requires a in rows && b in rows
  {
    rows[a].lastUpdated < rows[b].lastUpdated || (rows[a].lastUpdated == rows[b].lastUpdated && Less(a, b))
  }

  function OlderStale(rows: Producers, before: int, id: string): set<string>
    requires id in rows
  {
    set j | j in Stale(rows, before) && Older(rows, j, id)
  }

  /** The rows one sweep deletes: the oldest stale ones, at most SWEEP_LIMIT. */
  function Swept(rows: Producers, before: int): set<string> {
    set id | id in Stale(rows, before) && |OlderStale(rows, before, id)| < SWEEP_LIMIT
  }

  function ExpireOwn(rows: Producers, id: string, before: int): Producers {
    if id in rows && rows[id].lastUpdated < before then rows - {id} else rows
  }

  /** The producers table after `get_producer_state` for one producer. */
  function Sweep(rows: Producers, id: string, before: int): Producers {
    var own := ExpireOwn(rows, id, before);
    own - Swept(own, before)
  }

  function Lookup(rows: Producers, id: string): Option<ProducerState> {
    if id in rows then Some(rows[id]) else None
  }

  function ExpiredBefore(now: int): int { Saturate(now - PRODUCER_STATE_TTL_MS) }

  /** The addressed producer is found exactly when its row is recent enough. */
  lemma SweepFindsRecent(rows: Producers, id: string, before: int)
    ensures Lookup(Sweep(rows, id, before), id)
            == if id in rows && rows[id].lastUpdated >= before then Some(rows[id]) else None
    ensures forall j :: j in Sweep(rows, id, before) ==> j in rows && Sweep(rows, id, before)[j] == rows[j]
    ensures forall j :: j in rows && j !in Sweep(rows, id, before) ==> rows[j].lastUpdated < before
  {}

  // ----------------------------------------------------------------- writes

  /** The parse of a request body, each value given by its canonical serialisation. */
  datatype JsonBody = NotJson | JsonArray(values: seq<Blob>) | JsonValue(value: Blob)

  const COMMA: byte := 44
  const OPEN: byte := 91
  const CLOSE: byte := 93

  /** The stored form of a list of values: each serialisation followed by a comma. */
  function Stored(values: seq<Blob>): Blob {
    if values == [] then [] else values[0] + [COMMA] + Stored(values[1..])
  }

  datatype JsonError = InvalidJson | EmptyArray

  function ProcessJsonAppend(body: JsonBody, initialCreate: bool): Result<Blob, JsonError> {
    match body
    case NotJson => Err(InvalidJson)
    case JsonArray(values) =>
      if values == [] then (if initialCreate then Ok([]) else Err(EmptyArray)) else Ok(Stored(values))
    case JsonValue(value) => Ok(Stored([value]))
  }

  datatype PostRequest = PostRequest(
    body: Blob,
    json: JsonBody,
    contentType: Option<string>,
    close: bool,
    producer: Option<ProducerHeaders>,
    streamSeq: Option<string>)

  datatype WriteOutcome =
    | Appended(offset: string)
    | CloseSuccess(offset: string)
    | ProducerRejected(why: ProducerValidation)
    | PayloadTooLarge | EmptyBody | MissingContentType
    | StreamNotFound | StreamGone | StreamClosed | TypeMismatch
    | BadJson(error: JsonError) | SequenceConflict | AppendFailed

  /** Payload as stored, or the rejection of the body. */
  function PayloadOf(contentType: Option<string>, r: PostRequest): Result<Blob, WriteOutcome> {
    if !IsJson(contentType) then Ok(r.body)
    else
      match ProcessJsonAppend(r.json, false)
      case Ok(p) => if |p| <= MAX_BODY_BYTES then Ok(p) else Err(PayloadTooLarge)
      case Err(e) => Err(BadJson(e))
  }

  function SetClosed(m: Meta, closer: Option<ClosedBy>): Meta {
    m.(closed := true, closedBy := if closer.Some? then closer else m.closedBy)
  }

  /** Producer validation as the write transactions perform it. */
  function CheckProducer(rows: Producers, p: ProducerHeaders, now: int): ProducerValidation {
    ValidateProducer(Lookup(Sweep(rows, p.id, ExpiredBefore(now)), p.id), p, now)
  }

  function ProducersAfter(rows: Producers, p: ProducerHeaders, now: int): Producers
    requires CheckProducer(rows, p, now).Accepted?
  {
    Sweep(rows, p.id, ExpiredBefore(now))[p.id := CheckProducer(rows, p, now).state]
  }

  predicate SeqConflict(m: Meta, next: Option<string>) {
    m.lastSeq.Some? && next.Some? && !Less(m.lastSeq.value, next.value)
  }

  /** The committed part of a POST: append, producer row, Stream-Seq, closure, access time. */
  function CommitPost(t: Tables, r: PostRequest, payload: Blob, now: int): Option<Tables>
    requires t.meta.Some?
    requires r.producer.Some? ==> CheckProducer(t.producers, r.producer.value, now).Accepted?
  {
    match AppendMessage(t, payload)
    case None => None
    case Some(a) =>
      var producers := if r.producer.Some? then ProducersAfter(t.producers, r.producer.value, now) else t.producers;
      var m := a.meta.value.(lastSeq := if r.streamSeq.Some? then r.streamSeq else a.meta.value.lastSeq,
                             lastAccessed := now);
      var closer := if r.producer.Some? then Some(ClosedByOf(r.producer.value)) else None;
      Some(a.(producers := producers, meta := Some(if r.close then SetClosed(m, closer) else m)))
  }

  /** The transaction of `handle_post`: producer, then Stream-Seq, then everything or nothing. */
  function PostTransaction(t: Tables, r: PostRequest, payload: Blob, now: int): (Tables, WriteOutcome)
    requires t.meta.Some?
  {
    if r.producer.Some? && !CheckProducer(t.producers, r.producer.value, now).Accepted? then
      (t, ProducerRejected(CheckProducer(t.producers, r.producer.value, now)))
    else if SeqConflict(t.meta.value, r.streamSeq) then (t, SequenceConflict)
    else
      match CommitPost(t, r, payload, now)
      case None => (t, AppendFailed)
      case Some(c) => (c, Appended(c.meta.value.currentOffset))
  }

  /** `handle_close_only`: a POST with an empty body and Stream-Closed. */
  function CloseOnly(t: Tables, producer: Option<ProducerHeaders>, now: int): (Tables, WriteOutcome) {
    CloseSeen(Visible(t, now), producer, now)
  }

  /** The same, once expiry has been looked at. */
  function CloseSeen(v: Tables, producer: Option<ProducerHeaders>, now: int): (Tables, WriteOutcome) {
    if v.meta.None? then (v, StreamNotFound)
    else
      var m := v.meta.value;
      if m.softDeleted then (v, StreamGone)
      else if producer.None? then
        (v.(meta := Some(SetClosed(m, None).(lastAccessed := now))), CloseSuccess(m.currentOffset))
      else
        var p := producer.value;
        if m.closed then (v, if ClosedByMatches(m, p) then CloseSuccess(m.currentOffset) else StreamClosed)
        else
          var check := CheckProducer(v.producers, p, now);
          if !check.Accepted? then (v, ProducerRejected(check))
          else
            (v.(producers := ProducersAfter(v.producers, p, now),
                meta := Some(SetClosed(m, Some(ClosedByOf(p))).(lastAccessed := now))),
             CloseSuccess(m.currentOffset))
  }

  /** `handle_post`. */
  function Post(t: Tables, r: PostRequest, now: int): (Tables, WriteOutcome) {
    if |r.body| > MAX_BODY_BYTES then (t, PayloadTooLarge)
    else if r.body == [] && r.close then CloseOnly(t, r.producer, now)
    else if r.body == [] then (t, EmptyBody)
    else if r.contentType.None? then (t, MissingContentType)
    else
      var v := Visible(t, now);
      if v.meta.None? then (v, StreamNotFound)
      else (
        var m := v.meta.value;
        if m.softDeleted then (v, StreamGone)
        else if m.closed then
          (v, if r.producer.Some? && ClosedByMatches(m, r.producer.value) then CloseSuccess(m.currentOffset)
              else StreamClosed)
        else if NormalizeContentType(r.contentType) != NormalizeContentType(m.contentType) then (v, TypeMismatch)
        else
          match PayloadOf(m.contentType, r)
          case Err(e) => (v, e)
          case Ok(payload) => PostTransaction(v, r, payload, now)
      )
  }

  function Touch(t: Tables, now: int): Tables {
    if t.meta.Some? then t.(meta := Some(t.meta.value.(lastAccessed := now))) else t
  }
}
