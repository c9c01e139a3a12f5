/**
 One stream actor. Its fields are its tables; each method is a handler or a
 transaction of the program, statement by statement, and is proved to have the
 effect that the table functions, and so the steps of the protocol, say it has.
 */
module StreamActor {
  import opened Options
  import opened Orders
  import opened Offsets
  import opened Tables
  import T = Tables
  import opened Cluster

  const BIND_CHUNK_BYTES: nat := 64 * 1024

  type ChangeCount = x: nat | x < U64_LIMIT

  /** `notify_change` wraps around. */
  function Bump(x: ChangeCount): ChangeCount { (x + 1) % U64_LIMIT }

  /** A waiting reader was woken, once or twice. */
  predicate Woken(before: ChangeCount, after: ChangeCount) { after == Bump(before) || after == Bump(Bump(before)) }

  /** What a waiting reader waits for. */
  datatype Shown = Absent | Shown(gen: nat, currentOffset: string, closed: bool, softDeleted: bool)

  function ShownBy(t: Tables): Shown {
    match t.meta
    case None => Absent
    case Some(m) => Shown(m.gen, m.currentOffset, m.closed, m.softDeleted)
  }

  // ------------------------------------------------------- rows in the making

  /** `UPDATE messages SET data = data || chunk WHERE msg_offset = offset`. */
  function AppendToRow(rows: seq<Message>, offset: string, chunk: Blob): seq<Message> {
    if rows == [] then []
    else
      var last := rows[|rows| - 1];
      AppendToRow(rows[..|rows| - 1], offset, chunk)
      + [if last.offset == offset then last.(data := last.data + chunk) else last]
  }

  predicate HasRow(rows: seq<Message>, offset: string) { exists m :: m in rows && m.offset == offset }

  lemma {:induction false} NoRowToUpdate(rows: seq<Message>, offset: string, chunk: Blob)
    requires !HasRow(rows, offset)
    ensures AppendToRow(rows, offset, chunk) == rows
  {
    if rows != [] {
      var less, last := rows[..|rows| - 1], rows[|rows| - 1];
      assert last in rows && rows == less + [last];
      NoRowToUpdate(less, offset, chunk);
    }
  }

  /** Growing an inserted row is inserting the grown row. */
  lemma {:induction false} UpdateOfInserted(rows: seq<Message>, m: Message, chunk: Blob)
    requires !HasRow(rows, m.offset)
    ensures AppendToRow(InsertRow(rows, m), m.offset, chunk) == InsertRow(rows, m.(data := m.data + chunk))
  {
    if rows == [] || Less(rows[|rows| - 1].offset, m.offset) {
      NoRowToUpdate(rows, m.offset, chunk);
      assert (rows + [m])[..|rows|] == rows;
    } else {
      assert rows[|rows| - 1] in rows;
      var less := rows[..|rows| - 1];
      UpdateOfInserted(less, m, chunk);
      var inserted := InsertRow(rows, m);
      assert inserted[..|inserted| - 1] == InsertRow(less, m);
    }
  }

  // ------------------------------------------------------------ producer sweep

  /** Stale rows have an oldest one. */
  lemma OldestExists(rows: Producers, s: set<string>)
    requires s != {} && s <= rows.Keys
    ensures exists a :: a in s && forall b :: b in s && b != a ==> Older(rows, a, b)
  {
    StrictOrder();
    var older := (a, b) => a in rows && b in rows && Older(rows, a, b);
    LeastExists(s, older);
    var a :| IsLeast(a, s, older);
    assert forall b :: b in s && b != a ==> older(a, b);
  }

  /** The state of the sweep: the removed rows are stale and older than every stale row that is left. */
  ghost predicate Sweeping(rows: Producers, before: int, removed: set<string>, n: nat) {
    && removed <= Stale(rows, before) && |removed| == n <= SWEEP_LIMIT
    && (forall a, b :: a in removed && b in Stale(rows, before) - removed ==> Older(rows, a, b))
  }

  lemma SweepOneMore(rows: Producers, before: int, removed: set<string>, n: nat, oldest: string)
    requires Sweeping(rows, before, removed, n) && n < SWEEP_LIMIT
    requires oldest in Stale(rows, before) - removed
    requires forall b :: b in Stale(rows, before) - removed && b != oldest ==> Older(rows, oldest, b)
    ensures Sweeping(rows, before, removed + {oldest}, n + 1)
  {}

  lemma SubsetSize<T>(a: set<T>, b: set<T>)
    requires a <= b
    ensures |a| <= |b|
  {
    assert b == a + (b - a);
  }

  /** A finished sweep removed exactly the oldest stale rows up to the limit. */
  lemma SweepDone(rows: Producers, before: int, removed: set<string>, n: nat)
    requires Sweeping(rows, before, removed, n)
    requires n == SWEEP_LIMIT || Stale(rows, before) == removed
    ensures removed == Swept(rows, before)
  {
    StrictOrder();
    forall id | id in Stale(rows, before) ensures id in removed <==> id in Swept(rows, before) {
      var older := OlderStale(rows, before, id);
      if id in removed {
        forall j | j in older ensures j in removed - {id} {
          assert j !in removed ==> Older(rows, id, j);
        }
        SubsetSize(older, removed - {id});
      } else {
        assert removed <= older;
        SubsetSize(removed, older);
      }
    }
  }

  /** Appending reads and writes no producer row. */
  lemma AppendIgnoresProducers(t: Tables, rows: Producers, payload: Blob)
    requires t.meta.Some?
    ensures var a := T.AppendMessage(t, payload);
            T.AppendMessage(t.(producers := rows), payload)
            == if a.Some? then Some(a.value.(producers := rows)) else None
  {}

  /** An appended message, followed by the rest of the transaction, is the committed transaction. */
  lemma FinishedIsCommitted(saved: Tables, appended: Tables, done: Tables, r: PostRequest, payload: Blob, now: int)
    requires saved.meta.Some? && T.AppendMessage(saved, payload).Some? && !SeqConflict(saved.meta.value, r.streamSeq)
    requires r.producer.Some? ==> CheckProducer(saved.producers, r.producer.value, now).Accepted?
    requires appended == T.AppendMessage(saved, payload).value.(producers := appended.producers)
    requires done == appended.(meta := done.meta, producers := done.producers)
    requires done.producers == if r.producer.Some? then ProducersAfter(saved.producers, r.producer.value, now)
                               else saved.producers
    requires var m := appended.meta.value.(
                        lastSeq := if r.streamSeq.Some? then r.streamSeq else appended.meta.value.lastSeq,
                        lastAccessed := now);
             var closer := if r.producer.Some? then Some(ClosedByOf(r.producer.value)) else None;
             done.meta == Some(if r.close then SetClosed(m, closer) else m)
    ensures PostTransaction(saved, r, payload, now) == (done, Appended(appended.meta.value.currentOffset))
  {}

  class Actor {
    var meta: Option<Meta>
    var messages: seq<Message>
    var producers: Producers
    var edges: map<EdgeId, string>
    var intents: map<EdgeId, Intent>
    var releases: map<EdgeId, Release>
    var changes: ChangeCount

    function View(): Tables
      reads this
    {
      Tables(meta, messages, producers, edges, intents, releases)
    }

    constructor ()
      ensures View() == NO_TABLES && changes == 0
    {
      meta, messages, producers, edges, intents, releases, changes := None, [], map[], map[], map[], map[], 0;
    }

    /** A transaction that is rolled back leaves the tables as they were when it began. */
    method Rollback(saved: Tables)
      modifies this
      ensures View() == saved && changes == old(changes)
    {
      meta, messages, producers := saved.meta, saved.messages, saved.producers;
      edges, intents, releases := saved.edges, saved.intents, saved.releases;
    }

    method NotifyChange()
      modifies `changes
      ensures changes == Bump(old(changes))
    {
      changes := Bump(changes);
    }

    // --------------------------------------------------------------- appending

    /** `append_message`. */
    method AppendMessage(currentOffset: string, payload: Blob) returns (next: Option<string>)
      requires meta.Some? && currentOffset == meta.value.currentOffset
      modifies `meta, `messages
      ensures next.None? <==> T.AppendMessage(old(View()), payload).None?
      ensures next.Some? ==> T.AppendMessage(old(View()), payload) == Some(View())
      ensures next.Some? ==> meta.Some? && next.value == meta.value.currentOffset
    {
      next := AdvanceOffset(currentOffset, |payload|);
      if next.None? {
        return;
      }
      if HasRow(messages, next.value) {
        next := None;
        return;
      }
      InsertInChunks(next.value, payload);
      meta := Some(meta.value.(currentOffset := next.value));
    }

    /** One bind parameter holds at most BIND_CHUNK_BYTES, so a row grows to its payload chunk by chunk. */
    method InsertInChunks(offset: string, payload: Blob)
      requires !HasRow(messages, offset)
      modifies `messages
      ensures messages == InsertRow(old(messages), Message(offset, payload))
    {
      ghost var before := messages;
      messages := InsertRow(messages, Message(offset, []));
      var written := 0;
      while written < |payload|
        invariant written <= |payload|
        invariant messages == InsertRow(before, Message(offset, payload[..written]))
      {
        var end := if written + BIND_CHUNK_BYTES < |payload| then written + BIND_CHUNK_BYTES else |payload|;
        UpdateOfInserted(before, Message(offset, payload[..written]), payload[written..end]);
        messages := AppendToRow(messages, offset, payload[written..end]);
        assert payload[..written] + payload[written..end] == payload[..end];
        written := end;
      }
      assert payload[..|payload|] == payload;
    }

    // --------------------------------------------------------------- producers

    /** `get_producer_state`: expire the addressed row, sweep the oldest stale rows, then look. */
    method GetProducerState(id: string, expiredBefore: int) returns (state: Option<ProducerState>)
      modifies `producers
      ensures producers == Sweep(old(producers), id, expiredBefore)
      ensures state == Lookup(producers, id)
    {
      if id in producers && producers[id].lastUpdated < expiredBefore {
        producers := producers - {id};
      }
      SweepStale(expiredBefore);
      state := if id in producers then Some(producers[id]) else None;
    }

    /** The bounded sweep: the oldest stale row goes, at most SWEEP_LIMIT times. */
    method SweepStale(expiredBefore: int)
      modifies `producers
      ensures producers == old(producers) - Swept(old(producers), expiredBefore)
    {
      var rows := producers;
      var stale := Stale(rows, expiredBefore);
      ghost var removed: set<string> := {};
      var n := 0;
      while n < SWEEP_LIMIT && stale != {}
        invariant Sweeping(rows, expiredBefore, removed, n)
        invariant stale == Stale(rows, expiredBefore) - removed
        invariant producers == rows - removed
        decreases SWEEP_LIMIT - n
      {
        OldestExists(rows, stale);
        var oldest :| oldest in stale && forall b :: b in stale && b != oldest ==> Older(rows, oldest, b);
        SweepOneMore(rows, expiredBefore, removed, n, oldest);
        producers := producers - {oldest};
        stale := stale - {oldest};
        removed := removed + {oldest};
        n := n + 1;
      }
      SweepDone(rows, expiredBefore, removed, n);
    }

    // --------------------------------------------------------------- lifecycle

    method EnqueueGcRelease(edge: EdgeId, parent: Path, sourceGen: Option<nat>)
      modifies `releases
      ensures View() == EnqueueRelease(old(View()), edge, Release(parent, sourceGen))
    {
      if edge !in releases {
        releases := releases[edge := Release(parent, sourceGen)];
      }
    }

    /** `purge_stream_tx`: a fork's own edge becomes a duty; intents and duties survive. */
    method PurgeStreamTx(m: Meta)
      requires meta == Some(m)
      modifies this
      ensures View() == PurgeStream(old(View())) && changes == old(changes)
    {
      if m.fork.Some? {
        EnqueueGcRelease(m.fork.value.edge, m.fork.value.parent, Some(m.fork.value.sourceGen));
      }
      meta := None;
      messages := [];
      producers := map[];
      edges := map[];
    }

    /** `visible_meta_while_locked`. */
    method VisibleMeta(now: int) returns (visible: Option<Meta>)
      modifies this
      ensures View() == Visible(old(View()), now) && visible == meta
      ensures if old(meta).None? || !IsExpired(old(meta).value, now) then View() == old(View())
              else if old(edges) == map[] then visible.None?
              else visible.Some? && visible.value.softDeleted && edges == old(edges)
      ensures changes == if old(meta).Some? && IsExpired(old(meta).value, now) then Bump(old(changes)) else old(changes)
    {
      if meta.None? || !IsExpired(meta.value, now) {
        return meta;
      }
      var m := meta.value;
      if |edges| > 0 {
        meta := Some(m.(softDeleted := true));
        NotifyChange();
        return Some(m.(softDeleted := true));
      }
      PurgeStreamTx(m);
      NotifyChange();
      return None;
    }

    /** `handle_delete`. */
    method HandleDelete(now: int) returns (deleted: bool)
      modifies this
      ensures View() == Deleted(old(View()), now)
      ensures deleted <==> old(meta).Some? && !old(meta).value.softDeleted && !IsExpired(old(meta).value, now)
      ensures old(meta).Some? && (deleted || IsExpired(old(meta).value, now)) ==>
                if old(edges) == map[] then meta.None? else meta.Some? && meta.value.softDeleted && edges == old(edges)
      ensures ShownBy(View()) == ShownBy(old(View())) || Woken(old(changes), changes)
    {
      var visible := VisibleMeta(now);
      if visible.None? || visible.value.softDeleted {
        return false;
      }
      if |edges| > 0 {
        meta := Some(visible.value.(softDeleted := true));
      } else {
        PurgeStreamTx(visible.value);
      }
      NotifyChange();
      return true;
    }

    method TouchAccess(now: int)
      modifies `meta
      ensures View() == Touch(old(View()), now)
    {
      if meta.Some? {
        meta := Some(meta.value.(lastAccessed := now));
      }
    }

    // ------------------------------------------------------------------ forking

    /** `fork_acquire`, executed at the source. */
    method ForkAcquire(edge: EdgeId, forkOffset: Option<string>, contentType: Option<string>, now: int)
      returns (reply: AcquireReply)
      modifies this
      ensures (View(), reply) == T.ForkAcquire(old(View()), edge, forkOffset, contentType, now)
      ensures ShownBy(View()) == ShownBy(old(View())) || Woken(old(changes), changes)
    {
      if edge in edges && meta.Some? {
        return Success(edges[edge], meta.value);
      }
      var visible := VisibleMeta(now);
      if visible.None? {
        return Refused(NotFound);
      }
      var m := visible.value;
      if m.softDeleted {
        return Refused(SourceSoftDeleted);
      }
      if ContentTypeClash(contentType, m) {
        return Refused(ContentTypeMismatch);
      }
      var offset := if forkOffset.Some? then forkOffset.value else m.currentOffset;
      if !AcceptsForkOffset(offset, m.currentOffset) {
        return Refused(InvalidOffset);
      }
      if edge !in edges {
        edges := edges[edge := offset];
      }
      return Success(edges[edge], m);
    }

    /** `fork_release`, executed at the source: the last release of a soft-deleted stream purges it. */
    method ForkRelease(edge: EdgeId, sourceGen: Option<nat>)
      modifies this
      ensures View() == T.ForkRelease(old(View()), edge, sourceGen)
      ensures ShownBy(View()) == ShownBy(old(View())) || Woken(old(changes), changes)
    {
      if meta.None? {
        return;
      }
      var m := meta.value;
      if sourceGen.Some? && sourceGen.value != m.gen {
        return;
      }
      if edge !in edges {
        return;
      }
      edges := edges - {edge};
      if m.softDeleted && |edges| == 0 {
        PurgeStreamTx(m);
      }
      NotifyChange();
    }

    /** The first part of `create_fork`: a remembered identical attempt is resumed, otherwise one is persisted. */
    method RememberIntent(parent: Path, forkOffset: Option<string>, minted: EdgeId) returns (edge: EdgeId)
      modifies `intents
      ensures View() == PutIntent(old(View()), edge, Intent(parent, forkOffset))
      ensures (exists e :: e in old(intents) && old(intents)[e] == Intent(parent, forkOffset))
              ==> edge in old(intents) && old(intents)[edge] == Intent(parent, forkOffset)
      ensures !(exists e :: e in old(intents) && old(intents)[e] == Intent(parent, forkOffset)) ==> edge == minted
    {
      var intent := Intent(parent, forkOffset);
      if e :| e in intents && intents[e] == intent {
        return e;
      }
      if minted !in intents {
        intents := intents[minted := intent];
      }
      return minted;
    }

    method DeleteForkIntent(edge: EdgeId)
      modifies `intents
      ensures View() == DropIntent(old(View()), edge)
    {
      intents := intents - {edge};
    }

    /** `release_acquired`, and a reconciled intent whose acquire succeeded. */
    method ReleaseAcquired(edge: EdgeId, parent: Path, sourceGen: nat)
      modifies `intents, `releases
      ensures View() == IntentToRelease(old(View()), edge, parent, sourceGen)
    {
      EnqueueGcRelease(edge, parent, Some(sourceGen));
      DeleteForkIntent(edge);
    }

    /** The messages a creating transaction starts with: a prefix copied from the source, then the body. */
    method AppendInitial(payload: Blob) returns (ok: bool)
      requires meta.Some?
      modifies `meta, `messages
      ensures ok <==> AppendNonEmpty(old(View()), payload).Some?
      ensures ok ==> AppendNonEmpty(old(View()), payload) == Some(View()) && meta.Some?
    {
      if payload == [] {
        return true;
      }
      var next := AppendMessage(meta.value.currentOffset, payload);
      return next.Some?;
    }

    /** The last part of `create_fork`: the fork comes to exist, or its edge is given up. */
    method CommitFork(gen: nat, o: CreateOptions, fork: ForkRef, prefix: Blob, payload: Blob, now: int)
      returns (created: bool)
      modifies this
      ensures var c := T.CommitFork(old(View()), gen, o, fork, prefix, payload, now);
              created == c.Some?
              && View() == if c.Some? then c.value
                           else IntentToRelease(old(View()), fork.edge, fork.parent, fork.sourceGen)
      ensures ShownBy(View()) == ShownBy(old(View())) || Woken(old(changes), changes)
    {
      created := meta.None?;
      if created {
        var saved := View();
        meta := Some(NewMeta(gen, o, now, Some(fork)));
        created := AppendInitial(prefix);
        if created {
          created := AppendInitial(payload);
        }
        if created {
          DeleteForkIntent(fork.edge);
        } else {
          Rollback(saved);
        }
      }
      if created {
        NotifyChange();
      } else {
        ReleaseAcquired(fork.edge, fork.parent, fork.sourceGen);
      }
    }

    // ------------------------------------------------------------------ writing

    /** The first part of `handle_put`: a stream that is there is compared with what is asked for. */
    method ComparePut(r: PutRequest, now: int) returns (answer: PutAnswer)
      modifies this
      ensures View() == Visible(old(View()), now) && answer == AnswerPut(old(View()), r, now)
    {
      var visible := VisibleMeta(now);
      if visible.None? {
        return NothingThere;
      }
      var m := visible.value;
      if m.softDeleted {
        return StillRead;
      }
      var forkedFrom := SourceOf(m);
      var contentType := SanitizeContentType(r.asked.contentType, r.source.Some?);
      var typeMatches := true;
      if !(r.source.Some? && contentType.None? && r.source == forkedFrom) {
        typeMatches := NormalizeContentType(contentType) == NormalizeContentType(m.contentType);
      }
      var matches := typeMatches
        && r.asked.ttlSeconds == m.ttlSeconds && r.asked.expiresAt == m.expiresAt && r.asked.closed == m.closed
        && r.source == forkedFrom
        && (r.forkOffset.None? || (m.fork.Some? && r.forkOffset.value == m.fork.value.offset))
        && OrZero(r.subOffset) == (if m.fork.Some? then OrZero(m.fork.value.subOffset) else 0);
      return if matches then AlreadyThere(m.currentOffset, m.closed) else OtherConfiguration;
    }

    /** `handle_put` without a source stream, as far as it concerns the tables. */
    method HandlePut(gen: nat, o: CreateOptions, payload: Blob, now: int) returns (created: bool)
      modifies this
      ensures View() == CreateStream(old(View()), gen, o, payload, now)
      ensures created <==> Visible(old(View()), now).meta.None? && meta.Some?
      ensures ShownBy(View()) == ShownBy(old(View())) || Woken(old(changes), changes)
    {
      var visible := VisibleMeta(now);
      if visible.Some? {
        return false;
      }
      var saved := View();
      meta := Some(NewMeta(gen, o, now, None));
      created := AppendInitial(payload);
      if created {
        NotifyChange();
      } else {
        Rollback(saved);
      }
    }

    method CommitProducerState(id: string, state: ProducerState)
      modifies `producers
      ensures producers == old(producers)[id := state]
    {
      producers := producers[id := state];
    }

    /** `set_closed`: an earlier closer is kept when none is given. */
    method MarkClosed(closer: Option<ClosedBy>)
      requires meta.Some?
      modifies `meta
      ensures meta == Some(SetClosed(old(meta).value, closer))
    {
      meta := Some(meta.value.(closed := true));
      if closer.Some? {
        meta := Some(meta.value.(closedBy := closer));
      }
    }

    /** The producer's part of a write transaction; rejected producers roll back, and with them the sweep. */
    method AdmitProducer(p: ProducerHeaders, now: int) returns (check: ProducerValidation)
      modifies `producers
      ensures producers == Sweep(old(producers), p.id, ExpiredBefore(now))
      ensures check == CheckProducer(old(producers), p, now)
    {
      var prior := GetProducerState(p.id, ExpiredBefore(now));
      check := ValidateProducer(prior, p, now);
    }

    /** The transaction of `handle_post`. */
    method PostInTransaction(r: PostRequest, payload: Blob, now: int) returns (outcome: WriteOutcome)
      requires meta.Some?
      modifies this
      ensures (View(), outcome) == PostTransaction(old(View()), r, payload, now)
      ensures changes == if outcome.Appended? then Bump(old(changes)) else old(changes)
    {
      var saved := View();
      var state: Option<ProducerState> := None;
      if r.producer.Some? {
        var check := AdmitProducer(r.producer.value, now);
        if !check.Accepted? {
          Rollback(saved);
          return ProducerRejected(check);
        }
        state := Some(check.state);
      }
      if SeqConflict(saved.meta.value, r.streamSeq) {
        Rollback(saved);
        return SequenceConflict;
      }
      outcome := AppendInTransaction(saved, r, payload, state, now);
    }

    /** The rest of that transaction, once producer and Stream-Seq are admitted. */
    method AppendInTransaction(saved: Tables, r: PostRequest, payload: Blob, state: Option<ProducerState>, now: int)
      returns (outcome: WriteOutcome)
      requires saved.meta.Some? && View() == saved.(producers := producers) && r.producer.Some? == state.Some?
      requires !SeqConflict(saved.meta.value, r.streamSeq)
      requires if state.Some? then
                 var p := r.producer.value;
                 CheckProducer(saved.producers, p, now) == Accepted(state.value)
                 && producers == Sweep(saved.producers, p.id, ExpiredBefore(now))
               else producers == saved.producers
      modifies this
      ensures (View(), outcome) == PostTransaction(saved, r, payload, now)
      ensures changes == if outcome.Appended? then Bump(old(changes)) else old(changes)
    {
      AppendIgnoresProducers(saved, producers, payload);
      var next := AppendMessage(meta.value.currentOffset, payload);
      if next.None? {
        Rollback(saved);
        return AppendFailed;
      }
      ghost var appended := View();
      FinishPost(r, state, now);
      FinishedIsCommitted(saved, appended, View(), r, payload, now);
      NotifyChange();
      return Appended(next.value);
    }

    /** What follows a successful append: producer row, Stream-Seq, closure, access time. */
    method FinishPost(r: PostRequest, state: Option<ProducerState>, now: int)
      requires meta.Some? && r.producer.Some? == state.Some?
      modifies `meta, `producers
      ensures producers == if state.Some? then old(producers)[r.producer.value.id := state.value] else old(producers)
      ensures var m := old(meta).value.(lastSeq := if r.streamSeq.Some? then r.streamSeq else old(meta).value.lastSeq,
                                        lastAccessed := now);
              var closer := if r.producer.Some? then Some(ClosedByOf(r.producer.value)) else None;
              meta == Some(if r.close then SetClosed(m, closer) else m)
    {
      if r.producer.Some? {
        CommitProducerState(r.producer.value.id, state.value);
      }
      if r.streamSeq.Some? {
        meta := Some(meta.value.(lastSeq := r.streamSeq));
      }
      if r.close {
        MarkClosed(if r.producer.Some? then Some(ClosedByOf(r.producer.value)) else None);
      }
      TouchAccess(now);
    }

    /** `handle_post`. */
    method HandlePost(r: PostRequest, now: int) returns (outcome: WriteOutcome)
      modifies this
      ensures (View(), outcome) == Post(old(View()), r, now)
      ensures ShownBy(View()) == ShownBy(old(View())) || Woken(old(changes), changes)
    {
      if |r.body| > MAX_BODY_BYTES {
        return PayloadTooLarge;
      }
      if r.body == [] && r.close {
        outcome := HandleCloseOnly(r.producer, now);
        return;
      }
      if r.body == [] {
        return EmptyBody;
      }
      if r.contentType.None? {
        return MissingContentType;
      }
      var visible := VisibleMeta(now);
      if visible.None? {
        return StreamNotFound;
      }
      var m := visible.value;
      if m.softDeleted {
        return StreamGone;
      }
      if m.closed {
        if r.producer.Some? && ClosedByMatches(m, r.producer.value) {
          return CloseSuccess(m.currentOffset);
        }
        return StreamClosed;
      }
      if NormalizeContentType(r.contentType) != NormalizeContentType(m.contentType) {
        return TypeMismatch;
      }
      var payload := PayloadOf(m.contentType, r);
      if payload.Err? {
        return payload.error;
      }
      outcome := PostInTransaction(r, payload.value, now);
    }

    /** `handle_close_only`. */
    method HandleCloseOnly(producer: Option<ProducerHeaders>, now: int) returns (outcome: WriteOutcome)
      modifies this
      ensures (View(), outcome) == CloseOnly(old(View()), producer, now)
      ensures ShownBy(View()) == ShownBy(old(View())) || Woken(old(changes), changes)
    {
      var visible := VisibleMeta(now);
      if visible.None? {
        return StreamNotFound;
      }
      var m := visible.value;
      if m.softDeleted {
        return StreamGone;
      }
      if producer.None? {
        MarkClosed(None);
        TouchAccess(now);
        NotifyChange();
        return CloseSuccess(m.currentOffset);
      }
      var p := producer.value;
      if m.closed {
        return if ClosedByMatches(m, p) then CloseSuccess(m.currentOffset) else StreamClosed;
      }
      var saved := View();
      var check := AdmitProducer(p, now);
      if !check.Accepted? {
        Rollback(saved);
        return ProducerRejected(check);
      }
      CommitProducerState(p.id, check.state);
      MarkClosed(Some(ClosedByOf(p)));
      TouchAccess(now);
      NotifyChange();
      return CloseSuccess(m.currentOffset);
    }
  }
}
