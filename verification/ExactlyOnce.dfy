/**
 Exactly-once appends. A client numbers its requests and sends the first
 unacknowledged one again and again over a channel that loses, repeats and delays
 requests and loses replies, while everything else goes on in the system.
 */
module ExactlyOnce {
  import opened Options
  import opened Offsets
  import opened Tables
  import opened Cluster
  import opened ForkSafety
  import opened Logs
  import opened LogSafety
  import opened Isolation
  import opened Writers
  import opened Admission
  import opened StoredBodies

  /** Requests numbered from zero in one epoch. */
  datatype Client = Client(stream: Path, id: string, epoch: nat, requests: seq<PostRequest>)

  predicate Numbered(c: Client) {
    forall k :: 0 <= k < |c.requests| ==> c.requests[k].producer == Some(ProducerHeaders(c.id, c.epoch, k))
  }

  /**
   Requests acknowledged to the client, requests taken by the server, and where the
   client's messages are in the log.
   */
  datatype History = History(acked: nat, taken: nat, places: seq<nat>)

  datatype Event =
    | Delivered(k: nat, now: int, answered: bool)
    | Other(step: Step)

  function StepOf(c: Client, ev: Event): Step
    requires ev.Delivered? ==> ev.k < |c.requests|
  {
    match ev
    case Delivered(k, now, _) => PostStream(c.stream, c.requests[k], now)
    case Other(step) => step
  }

  /** No other writer uses the producer's id in this or a higher epoch; older instances may live on. */
  predicate Unfenced(c: Client, r: PostRequest) {
    r.producer.Some? && r.producer.value.id == c.id ==> r.producer.value.epoch < c.epoch
  }

  /** The client's row, if there is one, has not expired at this clock reading. */
  predicate Unexpired(c: Client, rows: Producers, now: int) {
    c.id in rows && rows[c.id].epoch == c.epoch ==> ExpiredBefore(now) <= rows[c.id].lastUpdated
  }

  /** An event may happen: only requests sent so far arrive, however late, and the stream stays and stays regular. */
  ghost predicate Happens(c: Client, w: World, h: History, ev: Event, v: World) {
    && (ev.Delivered? ==> ev.k < |c.requests| && ev.k <= h.acked)
    && Follows(w, StepOf(c, ev), v)
    && (ev.Other? && PostsTo(ev.step, c.stream) ==> Unfenced(c, ev.step.request))
    && (PostsTo(StepOf(c, ev), c.stream) ==> Unexpired(c, At(w, c.stream).producers, StepOf(c, ev).now))
    && Exists(w, c.stream) && Regular(At(v, c.stream)) && Gen(v, c.stream) == Gen(w, c.stream)
  }

  /** What the client takes for an acknowledgement. */
  predicate Acknowledges(outcome: WriteOutcome) {
    outcome.Appended? || outcome.CloseSuccess? || (outcome.ProducerRejected? && outcome.why.Duplicate?)
  }

  /** Bookkeeping of one delivered request. */
  function Recorded(c: Client, t: Tables, h: History, k: nat, answered: bool, outcome: WriteOutcome): History
    requires k < |c.requests|
  {
    History(
      if answered && k == h.acked && Acknowledges(outcome) then h.acked + 1 else h.acked,
      if Accepts(t, c.requests[k], outcome) then h.taken + 1 else h.taken,
      if outcome.Appended? then h.places + [|t.messages|] else h.places)
  }

  function NextHistory(c: Client, w: World, h: History, ev: Event): History
    requires ev.Delivered? ==> ev.k < |c.requests|
  {
    match ev
    case Delivered(k, now, answered) =>
      Recorded(c, At(w, c.stream), h, k, answered, Post(At(w, c.stream), c.requests[k], now).1)
    case Other(_) => h
  }

  // ---------------------------------------------------------------- invariant

  /** The stored payloads of requests, leaving out those that only close. */
  function Payloads(contentType: Option<string>, rs: seq<PostRequest>): seq<Blob> {
    if rs == [] then []
    else
      var last := rs[|rs| - 1];
      Payloads(contentType, rs[..|rs| - 1])
      + (if last.body == [] then [] else [StoredForm(contentType, last)])
  }

  /** These messages, in this order, are among the log's. */
  ghost predicate FoundAt(log: seq<Message>, places: seq<nat>, data: seq<Blob>) {
    && |places| == |data|
    && (forall i, j :: 0 <= i < j < |places| ==> places[i] < places[j])
    && (forall i :: 0 <= i < |places| ==> places[i] < |log| && log[places[i]].data == data[i])
  }

  /** The producer's row says how many requests were taken; before the first, at most an older epoch's row exists. */
  predicate RowTells(c: Client, rows: Producers, taken: nat) {
    if taken > 0 then c.id in rows && rows[c.id].epoch == c.epoch && rows[c.id].lastSeq == taken - 1
    else c.id in rows ==> rows[c.id].epoch < c.epoch
  }

  /** If this client closed the stream, it was with a request already taken. */
  predicate CloserTells(c: Client, closedBy: Option<ClosedBy>, taken: nat) {
    closedBy.Some? && closedBy.value.producerId == c.id && closedBy.value.epoch == c.epoch ==>
      closedBy.value.seqNo < taken
  }

  ghost predicate Kept(c: Client, t: Tables, h: History) {
    && t.meta.Some?
    && h.acked <= h.taken <= h.acked + 1 && h.taken <= |c.requests|
    && RowTells(c, t.producers, h.taken)
    && CloserTells(c, t.meta.value.closedBy, h.taken)
    && FoundAt(t.messages, h.places, Payloads(t.meta.value.contentType, c.requests[..h.taken]))
  }

  /** Before the client starts, neither a row nor a closure of its epoch exists. */
  lemma StartIsKept(c: Client, t: Tables)
    requires t.meta.Some? && RowTells(c, t.producers, 0) && CloserTells(c, t.meta.value.closedBy, 0)
    ensures Kept(c, t, History(0, 0, []))
  {}

  lemma FoundOneMore(log: seq<Message>, places: seq<nat>, data: seq<Blob>, m: Message)
    requires FoundAt(log, places, data)
    ensures FoundAt(log + [m], places + [|log|], data + [m.data])
  {}

  // ------------------------------------------------------ the server's answers

  /** Validation takes exactly the next request of the client. */
  lemma TakesExactlyNext(c: Client, rows: Producers, taken: nat, k: nat, now: int)
    requires RowTells(c, rows, taken) && Unexpired(c, rows, now)
    ensures var check := CheckProducer(rows, ProducerHeaders(c.id, c.epoch, k), now);
            && (check.Accepted? <==> k == taken)
            && (check.Duplicate? <==> k < taken)
            && (check.Accepted? ==> check.state == ProducerState(c.epoch, k, now))
  {}

  /** The row after the client's own request was taken. */
  lemma RowAfterOwn(c: Client, rows: Producers, k: nat, now: int)
    requires RowTells(c, rows, k) && Unexpired(c, rows, now)
    ensures CheckProducer(rows, ProducerHeaders(c.id, c.epoch, k), now).Accepted?
    ensures RowTells(c, ProducersAfter(rows, ProducerHeaders(c.id, c.epoch, k), now), k + 1)
  {}

  /** The client's row after somebody else's request was taken. */
  lemma RowAfterOther(c: Client, rows: Producers, taken: nat, p: ProducerHeaders, now: int)
    requires RowTells(c, rows, taken) && Unexpired(c, rows, now)
    requires CheckProducer(rows, p, now).Accepted? && (p.id == c.id ==> p.epoch < c.epoch)
    ensures RowTells(c, ProducersAfter(rows, p, now), taken)
  {}

  lemma DuplicateMeans(t: Tables, r: PostRequest, now: int)
    requires Post(t, r, now).1.ProducerRejected?
    ensures t.meta.Some? && r.producer.Some?
    ensures Post(t, r, now).1.why == CheckProducer(t.producers, r.producer.value, now)
  {}

  /** What the client may conclude from an acknowledgement of request k: it has been taken. */
  lemma AcknowledgedIsTaken(c: Client, t: Tables, h: History, k: nat, now: int)
    requires Numbered(c) && Kept(c, t, h) && k < |c.requests| && Unexpired(c, t.producers, now)
    requires Acknowledges(Post(t, c.requests[k], now).1)
    ensures if Accepts(t, c.requests[k], Post(t, c.requests[k], now).1) then k == h.taken else k < h.taken
  {
    var r := c.requests[k];
    TakesExactlyNext(c, t.producers, h.taken, k, now);
    var outcome := Post(t, r, now).1;
    if outcome.Appended? {
      AppendedMeans(t, r, now);
    } else if outcome.CloseSuccess? {
      CloseSuccessMeans(t, r, now);
    } else {
      DuplicateMeans(t, r, now);
    }
  }

  // ---------------------------------------------------------------- one event

  /** Rows, closer and own messages after an event that took nothing from the client. */
  lemma NothingTaken(c: Client, t: Tables, u: Tables, h: History, g: History)
    requires Kept(c, t, h) && u.meta.Some? && u.meta.value.contentType == t.meta.value.contentType
    requires RowTells(c, u.producers, h.taken) && CloserTells(c, u.meta.value.closedBy, h.taken)
    requires |t.messages| <= |u.messages| && u.messages[..|t.messages|] == t.messages
    requires g.taken == h.taken && g.places == h.places && g.acked <= g.taken <= g.acked + 1
    ensures Kept(c, u, g)
  {}

  lemma OtherPostKeeps(c: Client, t: Tables, r: PostRequest, now: int, h: History)
    requires Kept(c, t, h) && Post(t, r, now).0.meta.Some?
    requires Unfenced(c, r) && Unexpired(c, t.producers, now)
    ensures var u := Post(t, r, now).0;
            RowTells(c, u.producers, h.taken) && CloserTells(c, u.meta.value.closedBy, h.taken)
  {
    var outcome := Post(t, r, now).1;
    ProducersAfterPost(t, r, now);
    if Accepts(t, r, outcome) {
      RowAfterOther(c, t.producers, h.taken, r.producer.value, now);
    }
    CloserAfterPost(t, r, now);
  }

  /** Only the request that closes is recorded as the closer. */
  lemma CloserAfterPost(t: Tables, r: PostRequest, now: int)
    requires Post(t, r, now).0.meta.Some?
    ensures t.meta.Some?
    ensures var (u, outcome) := Post(t, r, now);
            u.meta.value.closedBy == t.meta.value.closedBy
            || (Accepts(t, r, outcome) && u.meta.value.closedBy == Some(ClosedByOf(r.producer.value)))
  {
    var outcome := Post(t, r, now).1;
    if outcome.Appended? {
      AppendedMeans(t, r, now);
    } else if outcome.CloseSuccess? {
      CloseSuccessMeans(t, r, now);
    } else {
      RejectedChangesNothing(t, r, now);
    }
  }

  lemma PayloadsOneMore(contentType: Option<string>, rs: seq<PostRequest>, k: nat)
    requires k < |rs|
    ensures Payloads(contentType, rs[..k + 1])
            == Payloads(contentType, rs[..k])
               + (if rs[k].body == [] then [] else [StoredForm(contentType, rs[k])])
  {
    assert rs[..k + 1][..k] == rs[..k];
  }

  /** The client's messages after a delivery. */
  lemma PlacesAfterOwn(c: Client, t: Tables, h: History, now: int)
    requires Numbered(c) && Kept(c, t, h) && h.taken < |c.requests| && LogOk(t)
    requires var (u, outcome) := Post(t, c.requests[h.taken], now);
             && Accepts(t, c.requests[h.taken], outcome)
             && Regular(u)
    ensures var (u, outcome) := Post(t, c.requests[h.taken], now);
            FoundAt(u.messages, if outcome.Appended? then h.places + [|t.messages|] else h.places,
                    Payloads(t.meta.value.contentType, c.requests[..h.taken + 1]))
  {
    var r, ct := c.requests[h.taken], t.meta.value.contentType;
    var (u, outcome) := Post(t, r, now);
    if outcome.Appended? {
      AppendedAtEnd(t, r, now);
      var m := Message(u.meta.value.currentOffset, StoredForm(ct, r));
      OnePlaceMore(c, ct, t.messages, h, m);
    } else {
      CloseSuccessMeans(t, r, now);
      NoPlaceMore(c, ct, t.messages, h);
    }
  }

  lemma OnePlaceMore(c: Client, contentType: Option<string>, log: seq<Message>, h: History, m: Message)
    requires h.taken < |c.requests| && FoundAt(log, h.places, Payloads(contentType, c.requests[..h.taken]))
    requires c.requests[h.taken].body != [] && StoredForm(contentType, c.requests[h.taken]) == m.data
    ensures FoundAt(log + [m], h.places + [|log|], Payloads(contentType, c.requests[..h.taken + 1]))
  {
    PayloadsOneMore(contentType, c.requests, h.taken);
    FoundOneMore(log, h.places, Payloads(contentType, c.requests[..h.taken]), m);
  }

  lemma NoPlaceMore(c: Client, contentType: Option<string>, log: seq<Message>, h: History)
    requires h.taken < |c.requests| && FoundAt(log, h.places, Payloads(contentType, c.requests[..h.taken]))
    requires c.requests[h.taken].body == []
    ensures FoundAt(log, h.places, Payloads(contentType, c.requests[..h.taken + 1]))
  {
    PayloadsOneMore(contentType, c.requests, h.taken);
  }

  /** A delivery keeps the client's invariant. */
  lemma DeliveryKeeps(c: Client, t: Tables, h: History, k: nat, now: int, answered: bool)
    requires Numbered(c) && Kept(c, t, h) && k < |c.requests| && k <= h.acked && Unexpired(c, t.producers, now)
    requires LogOk(t)
    requires var u := Post(t, c.requests[k], now).0;
             && Regular(u) && LogLater(t, u)
    ensures var (u, outcome) := Post(t, c.requests[k], now); Kept(c, u, Recorded(c, t, h, k, answered, outcome))
  {
    var r := c.requests[k];
    var (u, outcome) := Post(t, r, now);
    var g := Recorded(c, t, h, k, answered, outcome);
    ProducersAfterPost(t, r, now);
    CloserAfterPost(t, r, now);
    if Acknowledges(outcome) {
      AcknowledgedIsTaken(c, t, h, k, now);
    }
    if Accepts(t, r, outcome) {
      RowAfterOwn(c, t.producers, k, now);
      PlacesAfterOwn(c, t, h, now);
    } else {
      NotAppended(t, r, now);
      NothingTaken(c, t, u, h, g);
    }
  }

  /** A producer's request that is not taken appends nothing. */
  lemma NotAppended(t: Tables, r: PostRequest, now: int)
    requires t.meta.Some? && r.producer.Some? && !Accepts(t, r, Post(t, r, now).1)
    ensures !Post(t, r, now).1.Appended?
  {}

  /** Every event keeps the invariant. */
  lemma EventKeeps(c: Client, w: World, h: History, ev: Event, v: World)
    requires Numbered(c) && Good(w) && Kept(c, At(w, c.stream), h) && Happens(c, w, h, ev, v)
    ensures Good(v) && Kept(c, At(v, c.stream), NextHistory(c, w, h, ev))
  {
    var s, t, u := StepOf(c, ev), At(w, c.stream), At(v, c.stream);
    StepKeepsGood(w, s);
    StreamGoesOn(w, s, v, c.stream);
    if ev.Delivered? {
      DeliveryKeeps(c, t, h, ev.k, ev.now, ev.answered);
    } else if PostsTo(s, c.stream) {
      OtherPostKeeps(c, t, s.request, s.now, h);
      NothingTaken(c, t, u, h, h);
    } else {
      NothingTaken(c, t, u, h, h);
    }
  }

  /** What one step means for a stream that stays. */
  lemma StreamGoesOn(w: World, s: Step, v: World, q: Path)
    requires Good(w) && Follows(w, s, v) && Exists(w, q) && Exists(v, q) && Gen(v, q) == Gen(w, q)
    ensures LogOk(At(w, q)) && LogLater(At(w, q), At(v, q))
    ensures if PostsTo(s, q) then At(v, q) == Post(At(w, q), s.request, s.now).0
            else At(v, q).producers == At(w, q).producers
                 && At(v, q).meta.value.closedBy == At(w, q).meta.value.closedBy
  {
    assert StreamOk(w, q);
    StepIsLater(w, s);
    assert LogLater(At(w, q), At(v, q));
    OneStep(w, s, v, q);
  }

  // ---------------------------------------------------------------- whole runs

  ghost predicate Session(c: Client, run: seq<World>, events: seq<Event>, hs: seq<History>) {
    && |run| == |hs| == |events| + 1
    && Numbered(c) && Good(run[0]) && hs[0] == History(0, 0, []) && Exists(run[0], c.stream)
    && RowTells(c, At(run[0], c.stream).producers, 0) && CloserTells(c, At(run[0], c.stream).meta.value.closedBy, 0)
    && (forall i :: 0 <= i < |events| ==> Proceeds(c, run, events, hs, i))
  }

  ghost predicate Proceeds(c: Client, run: seq<World>, events: seq<Event>, hs: seq<History>, i: nat)
    requires i + 1 < |run| && i < |events| && i + 1 < |hs|
  {
    Happens(c, run[i], hs[i], events[i], run[i + 1]) && hs[i + 1] == NextHistory(c, run[i], hs[i], events[i])
  }

  lemma {:induction false} SessionKeeps(c: Client, run: seq<World>, events: seq<Event>, hs: seq<History>, i: nat)
    requires Session(c, run, events, hs) && i < |run|
    ensures Good(run[i]) && Kept(c, At(run[i], c.stream), hs[i])
  {
    if i == 0 {
      StartIsKept(c, At(run[0], c.stream));
    } else {
      SessionKeeps(c, run, events, hs, i - 1);
      assert Proceeds(c, run, events, hs, i - 1);
      EventKeeps(c, run[i - 1], hs[i - 1], events[i - 1], run[i]);
    }
  }

  /** The requests that carry a body; the others only close. */
  function WithBodies(rs: seq<PostRequest>): seq<PostRequest> {
    if rs == [] then []
    else WithBodies(rs[..|rs| - 1]) + (if rs[|rs| - 1].body == [] then [] else [rs[|rs| - 1]])
  }

  lemma {:induction false} PayloadsAreForms(contentType: Option<string>, rs: seq<PostRequest>)
    ensures Payloads(contentType, rs) == StoredForms(contentType, WithBodies(rs))
  {
    if rs != [] {
      PayloadsAreForms(contentType, rs[..|rs| - 1]);
    }
  }

  function DataAt(log: seq<Message>, places: seq<nat>): seq<Blob>
    requires forall i :: 0 <= i < |places| ==> places[i] < |log|
  {
    seq(|places|, i requires 0 <= i < |places| => log[places[i]].data)
  }

  /** The log holds these requests at these places, in order and once each, with whatever others wrote in between. */
  predicate LogHolds(t: Tables, places: seq<nat>, rs: seq<PostRequest>)
    requires t.meta.Some?
  {
    && (forall i, j :: 0 <= i < j < |places| ==> places[i] < places[j])
    && (forall i :: 0 <= i < |places| ==> places[i] < |t.messages|)
    && Holds(t.meta.value.contentType, DataAt(t.messages, places), WithBodies(rs))
  }

  lemma FoundIsHeld(t: Tables, places: seq<nat>, rs: seq<PostRequest>)
    requires t.meta.Some? && FoundAt(t.messages, places, Payloads(t.meta.value.contentType, rs))
    ensures LogHolds(t, places, rs)
  {
    PayloadsAreForms(t.meta.value.contentType, rs);
    FormsHold(t.meta.value.contentType, WithBodies(rs));
    assert DataAt(t.messages, places) == StoredForms(t.meta.value.contentType, WithBodies(rs));
  }

  /**
   At every moment the log holds exactly the bodies of the first n requests, in order
   and once each, where n is the number acknowledged or one more.
   */
  lemma ExactlyOnceInOrder(c: Client, run: seq<World>, events: seq<Event>, hs: seq<History>, i: nat)
    requires Session(c, run, events, hs) && i < |run|
    ensures Exists(run[i], c.stream)
    ensures var t, h := At(run[i], c.stream), hs[i];
            exists n :: h.acked <= n <= h.acked + 1 && n <= |c.requests| && LogHolds(t, h.places, c.requests[..n])
  {
    SessionKeeps(c, run, events, hs, i);
    FoundIsHeld(At(run[i], c.stream), hs[i].places, c.requests[..hs[i].taken]);
  }

  /** When everything has been acknowledged, everything is there once, and late repetitions change nothing. */
  lemma AllAcknowledgedIsAllThere(c: Client, run: seq<World>, events: seq<Event>, hs: seq<History>, i: nat)
    requires Session(c, run, events, hs) && i < |run| && hs[i].acked == |c.requests|
    ensures Exists(run[i], c.stream) && LogHolds(At(run[i], c.stream), hs[i].places, c.requests)
  {
    SessionKeeps(c, run, events, hs, i);
    assert c.requests[..|c.requests|] == c.requests;
    FoundIsHeld(At(run[i], c.stream), hs[i].places, c.requests);
  }

  // ------------------------------------------------------------------ progress

  /** Well-formed for this stream, apart from what changes with its log. */
  predicate WellFormed(t: Tables, r: PostRequest)
    requires t.meta.Some?
  {
    && |r.body| <= MAX_BODY_BYTES && (r.body == [] ==> r.close)
    && (r.body != [] ==>
          r.contentType.Some? && NormalizeContentType(r.contentType) == NormalizeContentType(t.meta.value.contentType)
          && PayloadOf(t.meta.value.contentType, r).Ok?)
  }

  /** Nothing stands against a first attempt. */
  predicate Appendable(t: Tables, r: PostRequest)
    requires t.meta.Some? && WellFormed(t, r)
  {
    r.body != [] ==>
      !SeqConflict(t.meta.value, r.streamSeq)
      && AppendMessage(t, PayloadOf(t.meta.value.contentType, r).value).Some?
  }

  /**
   Sending the first unacknowledged request is answered with an acknowledgement:
   on an open stream always, on one closed by that very request as well, and on
   one closed by anybody else never, even if the request had been taken.
   */
  lemma ResendIsAcknowledged(c: Client, t: Tables, h: History, now: int)
    requires Numbered(c) && Kept(c, t, h) && h.acked < |c.requests| && Unexpired(c, t.producers, now)
    requires !t.meta.value.softDeleted && !IsExpired(t.meta.value, now)
    requires var r := c.requests[h.acked]; WellFormed(t, r) && (h.taken == h.acked ==> Appendable(t, r))
    ensures Acknowledges(Post(t, c.requests[h.acked], now).1)
            <==> (!t.meta.value.closed || ClosedByMatches(t.meta.value, ProducerHeaders(c.id, c.epoch, h.acked)))
  {
    var r := c.requests[h.acked];
    TakesExactlyNext(c, t.producers, h.taken, h.acked, now);
    if t.meta.value.closed {
      ResendToClosed(t, r, now);
    } else if r.body != [] {
      ResendToOpen(t, r, now);
    }
  }

  lemma ResendToClosed(t: Tables, r: PostRequest, now: int)
    requires t.meta.Some? && t.meta.value.closed && !t.meta.value.softDeleted && !IsExpired(t.meta.value, now)
    requires r.producer.Some? && WellFormed(t, r)
    ensures Post(t, r, now).1
            == if ClosedByMatches(t.meta.value, r.producer.value) then CloseSuccess(t.meta.value.currentOffset)
               else StreamClosed
  {}

  lemma ResendToOpen(t: Tables, r: PostRequest, now: int)
    requires t.meta.Some? && !t.meta.value.closed && !t.meta.value.softDeleted && !IsExpired(t.meta.value, now)
    requires r.body != [] && WellFormed(t, r)
    ensures Post(t, r, now) == PostTransaction(t, r, PayloadOf(t.meta.value.contentType, r).value, now)
  {}
}
