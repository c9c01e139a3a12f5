/** A live reader over several rounds on a stream that keeps changing. */
module LiveRead {
  import opened Options
  import opened Offsets
  import opened Tables
  import opened Cluster
  import opened Logs
  import opened LogSafety
  import opened Isolation
  import opened Stitch
  import opened Snapshot
  import opened Tail

  /** One round: when the parts of its batch were read, and when its metadata was looked at. */
  datatype Round = Round(read: ReadTrace, metaAt: nat)

  predicate InOrder(rounds: seq<Round>, n: nat) {
    && (forall i :: 0 <= i < |rounds| ==>
          WellTimed(rounds[i].read, n) && EndTime(rounds[i].read) <= rounds[i].metaAt < n)
    && (forall i, j :: 0 <= i < j < |rounds| ==> rounds[i].metaAt <= rounds[j].read.at)
  }

  /** The stream stays the same one throughout and is sound at the end. */
  ghost predicate Watched(run: seq<World>, steps: seq<Step>, p: Path) {
    && Run(run, steps) && Good(run[0]) && Exists(run[0], p)
    && (forall i {:trigger Exists(run[i], p)} :: 0 <= i < |run| ==>
          Exists(run[i], p) && Gen(run[i], p) == Gen(run[0], p))
    && SoundNow(run[|run| - 1], p)
  }

  ghost predicate SoundNow(w: World, p: Path) { Good(w) && Sound(w, p) }

  /** What a round delivers to a reader at this offset. */
  ghost function BatchOf(run: seq<World>, p: Path, round: Round, from: string): Option<Batch>
    requires WellTimed(round.read, |run|)
  {
    Observe(run, round.read, p, Start(Some(from)), None, MAX_READ_ROWS, MAX_READ_BYTES)
  }

  /** What the rounds delivered, and where the next one would start; None if the reads would have gone another way. */
  ghost function Reached(run: seq<World>, p: Path, start: string, rounds: seq<Round>): Option<(seq<Message>, string)>
    requires InOrder(rounds, |run|)
  {
    if rounds == [] then Some(([], start))
    else
      var round := rounds[|rounds| - 1];
      match Reached(run, p, start, rounds[..|rounds| - 1])
      case None => None
      case Some((got, from)) =>
        var batch := BatchOf(run, p, round, from);
        if batch.None? || !Exists(run[round.metaAt], p) then None
        else
          Some((got + batch.value.messages, ReportOf(batch.value, At(run[round.metaAt], p).meta.value).nextOffset))
  }

  /** No empty batch raced with an append. */
  ghost predicate NoRace(run: seq<World>, p: Path, start: string, rounds: seq<Round>)
    requires InOrder(rounds, |run|) && Reached(run, p, start, rounds).Some?
  {
    rounds == [] ||
    var before, round := rounds[..|rounds| - 1], rounds[|rounds| - 1];
    && NoRace(run, p, start, before)
    && (BatchOf(run, p, round, Reached(run, p, start, before).value.1).value.messages != []
        || (assert WellTimed(round.read, |run|);
            InTime(run, round) && At(run[round.metaAt], p).messages == At(run[Moment(round.read)], p).messages))
  }

  predicate InTime(run: seq<World>, round: Round) { Moment(round.read) < |run| && round.metaAt < |run| }

  /** The messages between two offsets. */
  ghost function Between(w: World, p: Path, start: string, at: string): seq<Message>
    requires Good(w) && Attached(w, p)
  {
    Window(Logical(w, p), Some(start), Some(at))
  }

  /** A reader's offset: within the stream, and not taken for the start marker. */
  predicate Within(w: World, p: Path, start: string, at: string) {
    Exists(w, p) && AtMost(start, at) && AtMost(at, At(w, p).meta.value.currentOffset) && Start(Some(at)) == at
  }

  lemma {:induction false} WindowsJoin(log: seq<Message>, a: string, b: string, c: string)
    requires Sorted(log) && AtMost(a, b) && AtMost(b, c)
    ensures Window(log, Some(a), Some(b)) + Window(log, Some(b), Some(c)) == Window(log, Some(a), Some(c))
  {
    if log != [] {
      WindowsJoin(log[1..], a, b, c);
      StrictOrder();
      if Less(b, log[0].offset) {
        NothingBefore(log, a, b);
      }
    }
  }

  lemma NothingBefore(log: seq<Message>, a: string, b: string)
    requires Sorted(log) && log != [] && Less(b, log[0].offset)
    ensures Window(log, Some(a), Some(b)) == []
  {
    StrictOrder();
    forall m | m in log ensures !InWindow(m.offset, Some(a), Some(b)) {}
    WindowOfNone(log, Some(a), Some(b));
  }

  /** What lay below a reached offset still does, and nothing else. */
  lemma BetweenStays(w: World, v: World, p: Path, start: string, at: string)
    requires Good(w) && Good(v) && Later(w, v) && Sound(v, p) && Gen(v, p) < w.next
    requires Exists(w, p) && AtMost(at, At(w, p).meta.value.currentOffset)
    ensures Sound(w, p) && Between(v, p, start, at) == Between(w, p, start, at)
    ensures AtMost(at, At(v, p).meta.value.currentOffset)
  {
    LogicalGrowsByOwnAppends(w, v, p);
    var added := Added(w, v, p);
    StrictOrder();
    WindowSplits(Logical(w, p), added, Some(start), Some(at));
    WindowOfNone(added, Some(start), Some(at));
  }

  /** The offset a round reports lies between where it started and the end of the stream. */
  lemma NextIsAhead(w: World, v: World, p: Path, at: string, batch: Batch)
    requires Good(w) && Good(v) && Later(w, v) && Sound(v, p) && Gen(v, p) < w.next
    requires Sound(w, p) && AtMost(at, At(w, p).meta.value.currentOffset)
    requires batch == Stitched(w, p, at, None, MAX_READ_ROWS, MAX_READ_BYTES)
    ensures Within(v, p, at, ReportOf(batch, At(v, p).meta.value).nextOffset)
  {
    LogicalGrowsByOwnAppends(w, v, p);
    if batch.messages != [] {
      StitchedRefinesFlatLog(w, p, at, None, MAX_READ_ROWS, MAX_READ_BYTES);
      LastIsAhead(w, v, p, at, batch.messages[|batch.messages| - 1]);
    } else {
      StrictOrder();
      CurrentIsNoMarker(v, p);
    }
  }

  lemma CurrentIsNoMarker(w: World, p: Path)
    requires Good(w) && Exists(w, p)
    ensures Start(Some(At(w, p).meta.value.currentOffset)) == At(w, p).meta.value.currentOffset
  {
    var current := At(w, p).meta.value.currentOffset;
    assert StreamOk(w, p);
    assert current[0] == current[..17][0] == '0';
  }

  lemma LastIsAhead(w: World, v: World, p: Path, at: string, last: Message)
    requires Good(w) && Sound(w, p) && Exists(v, p) && last in Window(Logical(w, p), Some(at), None)
    requires AtMost(At(w, p).meta.value.currentOffset, At(v, p).meta.value.currentOffset)
    ensures Within(v, p, at, last.offset)
  {
    LogicalIsSorted(w, p);
    OffsetsAreNotMarkers(w, p, last);
    StrictOrder();
  }

  /** What one round adds: everything up to the offset it reports, unless an empty batch raced with an append. */
  lemma OneRound(w: World, v: World, p: Path, start: string, at: string, batch: Batch)
    requires Good(w) && Good(v) && Later(w, v) && Sound(v, p) && Gen(v, p) < w.next
    requires Sound(w, p) && AtMost(start, at) && AtMost(at, At(w, p).meta.value.currentOffset)
    requires batch == Stitched(w, p, at, None, MAX_READ_ROWS, MAX_READ_BYTES)
    ensures var next := ReportOf(batch, At(v, p).meta.value).nextOffset;
            && Within(v, p, start, next)
            && Between(v, p, start, next) == Between(w, p, start, at) + Between(v, p, at, next)
            && (if batch.messages != [] || At(v, p).messages == At(w, p).messages
                then Between(v, p, at, next) == batch.messages
                else Between(v, p, at, next) != [])
  {
    var next := ReportOf(batch, At(v, p).meta.value).nextOffset;
    NextIsAhead(w, v, p, at, batch);
    BetweenStays(w, v, p, start, at);
    ReportSkipsNothingIff(w, v, p, at, MAX_READ_ROWS, MAX_READ_BYTES);
    LogicalIsSorted(v, p);
    StrictOrder();
    WindowsJoin(Logical(v, p), start, at, next);
  }

  /** What holds of a watched stream at any two moments. */
  lemma WatchedAt(run: seq<World>, steps: seq<Step>, p: Path, i: nat, j: nat)
    requires Watched(run, steps, p) && i <= j < |run|
    ensures Good(run[i]) && Good(run[j]) && Later(run[i], run[j])
    ensures Sound(run[i], p) && Sound(run[j], p) && Gen(run[j], p) < run[i].next
  {
    var end := |run| - 1;
    assert Exists(run[i], p) && Exists(run[j], p) && Exists(run[end], p) && SoundNow(run[end], p);
    RunIsLater(run, steps, i, j);
    SoundPersists(run, steps, i, i, end, p);
    SoundPersists(run, steps, i, j, end, p);
    assert StreamOk(run[i], p);
  }

  /** A round read at different moments reads as at one of them. */
  lemma RoundIsAtomic(run: seq<World>, steps: seq<Step>, p: Path, round: Round, from: string)
    requires Watched(run, steps, p) && WellTimed(round.read, |run|) && BatchOf(run, p, round, from).Some?
    requires EndTime(round.read) <= round.metaAt < |run|
    ensures var at := Moment(round.read);
            && round.read.at <= at <= round.metaAt && Good(run[at]) && Sound(run[at], p)
            && BatchOf(run, p, round, from).value
               == Stitched(run[at], p, Start(Some(from)), None, MAX_READ_ROWS, MAX_READ_BYTES)
  {
    var end := |run| - 1;
    TimesAscend(round.read, |run|);
    assert Exists(run[round.read.at], p) && Exists(run[end], p) && SoundNow(run[end], p);
    InterleavedReadsAreAtomic(run, steps, round.read, p, Start(Some(from)), None, MAX_READ_ROWS, MAX_READ_BYTES, end);
  }

  /** What the rounds have delivered, compared with the flat log at the last look at the metadata. */
  ghost predicate Compares(v: World, p: Path, start: string, got: seq<Message>, next: string, complete: bool)
    requires Good(v) && Sound(v, p)
  {
    && Within(v, p, start, next)
    && (if complete then got == Between(v, p, start, next) else |got| < |Between(v, p, start, next)|)
  }

  lemma NextCompares(u: World, w: World, v: World, p: Path, start: string, got: seq<Message>, at: string,
                     complete: bool, batch: Batch)
    requires Good(u) && Good(w) && Good(v) && Later(u, w) && Later(w, v) && Sound(u, p) && Sound(w, p) && Sound(v, p)
    requires Gen(w, p) < u.next && Gen(v, p) < w.next && Compares(u, p, start, got, at, complete)
    requires batch == Stitched(w, p, at, None, MAX_READ_ROWS, MAX_READ_BYTES)
    ensures Compares(v, p, start, got + batch.messages, ReportOf(batch, At(v, p).meta.value).nextOffset,
                     complete && (batch.messages != [] || At(v, p).messages == At(w, p).messages))
  {
    BetweenStays(u, w, p, start, at);
    OneRound(w, v, p, start, at, batch);
  }

  lemma FirstCompares(w: World, v: World, p: Path, start: string, batch: Batch)
    requires Good(w) && Good(v) && Later(w, v) && Sound(w, p) && Sound(v, p) && Gen(v, p) < w.next
    requires AtMost(start, At(w, p).meta.value.currentOffset)
    requires batch == Stitched(w, p, start, None, MAX_READ_ROWS, MAX_READ_BYTES)
    ensures Compares(v, p, start, batch.messages, ReportOf(batch, At(v, p).meta.value).nextOffset,
                     batch.messages != [] || At(v, p).messages == At(w, p).messages)
  {
    StrictOrder();
    WindowOfNone(Logical(w, p), Some(start), Some(start));
    OneRound(w, v, p, start, start, batch);
  }

  /** The last round, taken apart from those before it. */
  lemma LastRound(run: seq<World>, steps: seq<Step>, p: Path, start: string, rounds: seq<Round>)
    requires Watched(run, steps, p) && InOrder(rounds, |run|) && rounds != []
    requires Reached(run, p, start, rounds).Some?
    ensures var round, before := rounds[|rounds| - 1], rounds[..|rounds| - 1];
            && InOrder(before, |run|) && Reached(run, p, start, before).Some?
            && round.read.at <= Moment(round.read) <= round.metaAt
            && var w, v := run[Moment(round.read)], run[round.metaAt];
            && Good(w) && Good(v) && Later(w, v) && Sound(w, p) && Sound(v, p) && Gen(v, p) < w.next
            && var (got, from) := Reached(run, p, start, before).value;
               var batch := Stitched(w, p, Start(Some(from)), None, MAX_READ_ROWS, MAX_READ_BYTES);
            && Reached(run, p, start, rounds).value
               == (got + batch.messages, ReportOf(batch, At(v, p).meta.value).nextOffset)
            && (NoRace(run, p, start, rounds) <==>
                  NoRace(run, p, start, before)
                  && (batch.messages != [] || At(v, p).messages == At(w, p).messages))
  {
    var round, before := rounds[|rounds| - 1], rounds[..|rounds| - 1];
    LastReached(run, p, start, rounds);
    var (_, from) := Reached(run, p, start, before).value;
    RoundIsAtomic(run, steps, p, round, from);
    WatchedAt(run, steps, p, Moment(round.read), round.metaAt);
    LastRace(run, p, start, rounds);
  }

  lemma LastReached(run: seq<World>, p: Path, start: string, rounds: seq<Round>)
    requires InOrder(rounds, |run|) && rounds != [] && Reached(run, p, start, rounds).Some?
    ensures var round, before := rounds[|rounds| - 1], rounds[..|rounds| - 1];
            && InOrder(before, |run|) && Reached(run, p, start, before).Some? && Exists(run[round.metaAt], p)
            && var (got, from) := Reached(run, p, start, before).value;
            && BatchOf(run, p, round, from).Some?
            && var batch := BatchOf(run, p, round, from).value;
               Reached(run, p, start, rounds).value
               == (got + batch.messages, ReportOf(batch, At(run[round.metaAt], p).meta.value).nextOffset)
  {}

  lemma LastRace(run: seq<World>, p: Path, start: string, rounds: seq<Round>)
    requires InOrder(rounds, |run|) && rounds != [] && Reached(run, p, start, rounds).Some?
    requires var round := rounds[|rounds| - 1]; Moment(round.read) < |run|
    ensures var round, before := rounds[|rounds| - 1], rounds[..|rounds| - 1];
            && InOrder(before, |run|) && Reached(run, p, start, before).Some?
            && BatchOf(run, p, round, Reached(run, p, start, before).value.1).Some?
            && var batch := BatchOf(run, p, round, Reached(run, p, start, before).value.1).value;
               NoRace(run, p, start, rounds) <==>
                 NoRace(run, p, start, before)
                 && (batch.messages != []
                     || At(run[round.metaAt], p).messages == At(run[Moment(round.read)], p).messages)
  {
    LastReached(run, p, start, rounds);
  }

  /**
   While the stream keeps changing, the batches of any number of rounds, each read at
   several moments, are together exactly its messages from the reader's start to the
   offset last reported, once each and in order, if and only if no empty batch raced
   with an append. After such a race messages are missing for good.
   */
  lemma {:induction false} RoundsAreOneWindowIff(run: seq<World>, steps: seq<Step>, p: Path, start: string,
                                                 rounds: seq<Round>)
    requires Watched(run, steps, p) && InOrder(rounds, |run|) && rounds != []
    requires Reached(run, p, start, rounds).Some?
    requires var first := Moment(rounds[0].read);
             first < |run| && Exists(run[first], p)
             && AtMost(Start(Some(start)), At(run[first], p).meta.value.currentOffset)
    ensures var v := run[rounds[|rounds| - 1].metaAt]; var (got, next) := Reached(run, p, start, rounds).value;
            && Good(v) && Sound(v, p)
            && Compares(v, p, Start(Some(start)), got, next, NoRace(run, p, start, rounds))
            && (got == Between(v, p, Start(Some(start)), next) <==> NoRace(run, p, start, rounds))
    decreases |rounds|
  {
    var round, before := rounds[|rounds| - 1], rounds[..|rounds| - 1];
    LastRound(run, steps, p, start, rounds);
    var w, v := run[Moment(round.read)], run[round.metaAt];
    var (got, from) := Reached(run, p, start, before).value;
    var batch := Stitched(w, p, Start(Some(from)), None, MAX_READ_ROWS, MAX_READ_BYTES);
    if before == [] {
      FirstCompares(w, v, p, Start(Some(start)), batch);
    } else {
      RoundsAreOneWindowIff(run, steps, p, start, before);
      var earlier := before[|before| - 1].metaAt;
      WatchedAt(run, steps, p, earlier, Moment(round.read));
      NextCompares(run[earlier], w, v, p, Start(Some(start)), got, from, NoRace(run, p, start, before), batch);
    }
  }
}
