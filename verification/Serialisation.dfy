/**
 Why an intent must be in the hands of one creation or one listed entry at a time:
 runs of enabled but unserialised steps that lose the history a fork reads, or leave
 an edge that nothing will ever release.
 */
module Serialisation {
  import opened Options
  import opened Offsets
  import opened Tables
  import opened Cluster
  import opened ClusterProofs

  /** The result of a run without the serialisation guard. */
  function Outcome(w: World, steps: seq<Step>): Option<World>
    decreases |steps|
  {
    if steps == [] then Some(w)
    else if Enabled(w, steps[0]) then Outcome(Apply(w, steps[0]), steps[1..])
    else None
  }

  lemma TakeStep(w: World, s: Step, rest: seq<Step>)
    requires Enabled(w, s)
    ensures Outcome(w, [s] + rest) == Outcome(Apply(w, s), rest)
  {}

  lemma {:induction false} OutcomeSplits(w: World, a: seq<Step>, b: seq<Step>)
    requires Outcome(w, a).Some?
    ensures Outcome(w, a + b) == Outcome(Outcome(w, a).value, b)
    decreases |a|
  {
    if a == [] {
      assert a + b == b;
    } else {
      assert (a + b)[1..] == a[1..] + b;
      OutcomeSplits(Apply(w, a[0]), a[1..], b);
    }
  }

  // ------------------------------------------------ a source and a new fork

  const EMPTY_WORLD := World(map[], map[], map[], 0)
  const PLAIN := CreateOptions(None, None, None, false)
  const SOURCE_META := NewMeta(0, PLAIN, 0, None)
  const HELD := Acquired(ZERO_OFFSET, 0, None, None, None)
  const INHERITED := ForkOptions(PLAIN, HELD)

  /** The two actors' tables and all volatile state. */
  predicate Is(w: World, source: Path, child: Path, s: Tables, c: Tables, jobs: map<nat, Job>, sends: map<nat, Send>,
               next: nat) {
    At(w, source) == s && At(w, child) == c && w.jobs == jobs && w.sends == sends && w.next == next
  }

  function Edge(child: Path): EdgeId { EdgeId(child, 1) }

  function Source(): Tables { NO_TABLES.(meta := Some(SOURCE_META)) }

  function HoldingSource(child: Path): Tables { Source().(edges := map[Edge(child) := ZERO_OFFSET]) }

  function Intending(source: Path, child: Path): Tables {
    NO_TABLES.(intents := map[Edge(child) := Intent(source, None)])
  }

  function Releasing(source: Path, child: Path): Tables {
    NO_TABLES.(releases := map[Edge(child) := Release(source, Some(0))])
  }

  function Committed(source: Path, child: Path, gen: nat): Tables {
    NO_TABLES.(meta := Some(NewMeta(gen, INHERITED, 0, Some(ForkRef(source, ZERO_OFFSET, None, Edge(child), 0)))))
  }

  function Creation(source: Path, child: Path, reply: Option<AcquireReply>): Job {
    Job(Creating(PLAIN), child, Edge(child), Intent(source, None), reply)
  }

  function Listed(source: Path, child: Path, reply: Option<AcquireReply>): Job {
    Job(Reconciling, child, Edge(child), Intent(source, None), reply)
  }

  function Acknowledged(source: Path, child: Path): Send { Send(Edge(child), Release(source, Some(0)), true) }

  lemma SourceAcquires(child: Path)
    ensures ForkAcquire(Source(), Edge(child), None, None, 0) == (HoldingSource(child), HELD)
    ensures ForkAcquire(HoldingSource(child), Edge(child), None, None, 0) == (HoldingSource(child), HELD)
  {
    InStreamOf(Zeros(16));
    InStreamParts(ZERO_OFFSET);
    LessTotal(ZERO_OFFSET, ZERO_OFFSET);
  }

  function Started(source: Path, child: Path): seq<Step> {
    [PutStream(source, PLAIN, [], 0)] + ([BeginFork(0, child, source, None, PLAIN, Edge(child))] + [])
  }

  /** A stream, and a fork of it whose intent is persisted. */
  lemma AfterStart(source: Path, child: Path) returns (w: World)
    requires source != child
    ensures Outcome(EMPTY_WORLD, Started(source, child)) == Some(w)
    ensures Is(w, source, child, Source(), Intending(source, child), map[0 := Creation(source, child, None)], map[], 2)
  {
    var s1, s2 := PutStream(source, PLAIN, [], 0), BeginFork(0, child, source, None, PLAIN, Edge(child));
    var w1 := Apply(EMPTY_WORLD, s1);
    assert Is(w1, source, child, Source(), NO_TABLES, map[], map[], 1);
    w := Apply(w1, s2);
    TakeStep(EMPTY_WORLD, s1, [s2] + []);
    TakeStep(w1, s2, []);
  }

  // -------------------------------------------- a listed entry is given up

  function GivingUp(child: Path, j: nat, lost: bool): seq<Step> {
    [SendAcquire(j, 0, false)] + ([AbandonJob(j)]
    + ([BeginFlush(child, map[0 := Edge(child)])] + ([SendRelease(0, lost)] + [])))
  }

  /** A listed entry is handled to the end: its edge, held or not, ends up released. */
  lemma AfterGivingUp(w: World, source: Path, child: Path, s: Tables, c: Tables, j: nat, lost: bool) returns (v: World)
    requires source != child && (s == Source() || s == HoldingSource(child)) && c.releases == map[]
    requires At(w, source) == s && At(w, child) == c && w.sends == map[]
    requires j in w.jobs && w.jobs[j] == Listed(source, child, None)
    ensures Outcome(w, GivingUp(child, j, lost)) == Some(v)
    ensures Is(v, source, child, Source(), IntentToRelease(c, Edge(child), source, 0), w.jobs - {j},
               if lost then map[] else map[0 := Acknowledged(source, child)], w.next)
  {
    var s2, rest := AbandonJob(j), [BeginFlush(child, map[0 := Edge(child)])] + ([SendRelease(0, lost)] + []);
    var w1 := EntryAcquires(w, source, child, s, c, j, [s2] + rest);
    var w2 := EntryGivesUp(w1, source, child, c, j, rest);
    assert w.jobs[j := Listed(source, child, Some(HELD))] - {j} == w.jobs - {j};
    v := FlushedOnce(w2, source, child, IntentToRelease(c, Edge(child), source, 0), lost);
  }

  lemma EntryAcquires(w: World, source: Path, child: Path, s: Tables, c: Tables, j: nat, rest: seq<Step>)
    returns (v: World)
    requires source != child && (s == Source() || s == HoldingSource(child))
    requires At(w, source) == s && At(w, child) == c && w.sends == map[]
    requires j in w.jobs && w.jobs[j] == Listed(source, child, None)
    ensures Is(v, source, child, HoldingSource(child), c, w.jobs[j := Listed(source, child, Some(HELD))], map[], w.next)
    ensures Outcome(w, [SendAcquire(j, 0, false)] + rest) == Outcome(v, rest)
  {
    SourceAcquires(child);
    v := Apply(w, SendAcquire(j, 0, false));
    TakeStep(w, SendAcquire(j, 0, false), rest);
  }

  lemma EntryGivesUp(w: World, source: Path, child: Path, c: Tables, j: nat, rest: seq<Step>) returns (v: World)
    requires source != child && Is(w, source, child, HoldingSource(child), c, w.jobs, map[], w.next)
    requires j in w.jobs && w.jobs[j] == Listed(source, child, Some(HELD))
    ensures Is(v, source, child, HoldingSource(child), IntentToRelease(c, Edge(child), source, 0), w.jobs - {j}, map[],
               w.next)
    ensures Outcome(w, [AbandonJob(j)] + rest) == Outcome(v, rest)
  {
    v := Apply(w, AbandonJob(j));
    TakeStep(w, AbandonJob(j), rest);
  }

  lemma FlushedOnce(w: World, source: Path, child: Path, c: Tables, lost: bool) returns (v: World)
    requires source != child && c.releases == map[Edge(child) := Release(source, Some(0))]
    requires Is(w, source, child, HoldingSource(child), c, w.jobs, map[], w.next)
    ensures Outcome(w, [BeginFlush(child, map[0 := Edge(child)])] + ([SendRelease(0, lost)] + [])) == Some(v)
    ensures Is(v, source, child, Source(), c, w.jobs, if lost then map[] else map[0 := Acknowledged(source, child)],
               w.next)
  {
    var s1, s2 := BeginFlush(child, map[0 := Edge(child)]), SendRelease(0, lost);
    var w1 := Apply(w, s1);
    assert w1.sends == map[0 := Send(Edge(child), Release(source, Some(0)), false)];
    v := ReleasedOnce(w1, source, child, c, lost);
    TakeStep(w, s1, [s2] + []);
  }

  lemma ReleasedOnce(w: World, source: Path, child: Path, c: Tables, lost: bool) returns (v: World)
    requires source != child
    requires Is(w, source, child, HoldingSource(child), c, w.jobs,
                map[0 := Send(Edge(child), Release(source, Some(0)), false)], w.next)
    ensures Outcome(w, [SendRelease(0, lost)] + []) == Some(v)
    ensures Is(v, source, child, Source(), c, w.jobs, if lost then map[] else map[0 := Acknowledged(source, child)],
               w.next)
  {
    v := Apply(w, SendRelease(0, lost));
    assert HoldingSource(child).edges - {Edge(child)} == map[];
    TakeStep(w, SendRelease(0, lost), []);
  }

  // ---------------------------------------------------- overlapping entries

  /** A pass gives up the edge a creation has acquired; the creation commits; the source is deleted. */
  function Overlap(source: Path, child: Path): seq<Step> {
    [SendAcquire(0, 0, false)] + ([BeginPass(child, map[1 := Edge(child)])]
    + (GivingUp(child, 1, true) + ([CommitJob(0, None, [], [], 0)] + ([DeleteStream(source, 0)] + []))))
  }

  predicate ForkWithoutSource(w: World, source: Path, child: Path) {
    IsFork(w, child) && Fork(w, child).parent == source && !Exists(w, source)
  }

  /** The fork exists, the stream whose history it reads does not. */
  lemma OverlapUnpinsAFork(source: Path, child: Path)
    requires source != child
    ensures var r := Outcome(EMPTY_WORLD, Started(source, child) + Overlap(source, child));
            r.Some? && ForkWithoutSource(r.value, source, child)
  {
    var w := AfterStart(source, child);
    OutcomeSplits(EMPTY_WORLD, Started(source, child), Overlap(source, child));
    var last := [CommitJob(0, None, [], [], 0)] + ([DeleteStream(source, 0)] + []);
    var w2 := AcquiredAndListed(w, source, child, GivingUp(child, 1, true) + last);
    ListedGivesUp(w2, source, child, last);
  }

  lemma ListedGivesUp(w: World, source: Path, child: Path, last: seq<Step>)
    requires source != child && last == [CommitJob(0, None, [], [], 0)] + ([DeleteStream(source, 0)] + [])
    requires Is(w, source, child, HoldingSource(child), Intending(source, child),
                map[0 := Creation(source, child, Some(HELD)), 1 := Listed(source, child, None)], map[], 2)
    ensures var r := Outcome(w, GivingUp(child, 1, true) + last);
            r.Some? && ForkWithoutSource(r.value, source, child)
  {
    var v := AfterGivingUp(w, source, child, HoldingSource(child), Intending(source, child), 1, true);
    OutcomeSplits(w, GivingUp(child, 1, true), last);
    assert v.jobs == map[0 := Creation(source, child, Some(HELD))];
    UnpinnedCommit(v, source, child);
  }

  lemma AcquiredAndListed(w: World, source: Path, child: Path, rest: seq<Step>) returns (v: World)
    requires source != child
    requires Is(w, source, child, Source(), Intending(source, child), map[0 := Creation(source, child, None)], map[], 2)
    ensures Is(v, source, child, HoldingSource(child), Intending(source, child),
               map[0 := Creation(source, child, Some(HELD)), 1 := Listed(source, child, None)], map[], 2)
    ensures Outcome(w, [SendAcquire(0, 0, false)] + ([BeginPass(child, map[1 := Edge(child)])] + rest))
            == Outcome(v, rest)
  {
    var w1 := CreationAcquires(w, source, child, [BeginPass(child, map[1 := Edge(child)])] + rest);
    v := ListedToo(w1, source, child, rest);
  }

  lemma ListedToo(w: World, source: Path, child: Path, rest: seq<Step>) returns (v: World)
    requires Is(w, source, child, HoldingSource(child), Intending(source, child),
                map[0 := Creation(source, child, Some(HELD))], map[], 2)
    ensures Is(v, source, child, HoldingSource(child), Intending(source, child),
               map[0 := Creation(source, child, Some(HELD)), 1 := Listed(source, child, None)], map[], 2)
    ensures Outcome(w, [BeginPass(child, map[1 := Edge(child)])] + rest) == Outcome(v, rest)
  {
    var s := BeginPass(child, map[1 := Edge(child)]);
    assert Edge(child) in At(w, child).intents;
    v := Apply(w, s);
    TakeStep(w, s, rest);
  }

  lemma CreationAcquires(w: World, source: Path, child: Path, rest: seq<Step>) returns (v: World)
    requires source != child
    requires Is(w, source, child, Source(), Intending(source, child), map[0 := Creation(source, child, None)], map[], 2)
    ensures Is(v, source, child, HoldingSource(child), Intending(source, child),
               map[0 := Creation(source, child, Some(HELD))], map[], 2)
    ensures Outcome(w, [SendAcquire(0, 0, false)] + rest) == Outcome(v, rest)
  {
    SourceAcquires(child);
    v := Apply(w, SendAcquire(0, 0, false));
    TakeStep(w, SendAcquire(0, 0, false), rest);
  }

  lemma UnpinnedCommit(w: World, source: Path, child: Path)
    requires source != child && At(w, source) == Source() && At(w, child).meta.None?
    requires w.jobs == map[0 := Creation(source, child, Some(HELD))]
    ensures var r := Outcome(w, [CommitJob(0, None, [], [], 0)] + ([DeleteStream(source, 0)] + []));
            r.Some? && ForkWithoutSource(r.value, source, child)
  {
    var s1, s2 := CommitJob(0, None, [], [], 0), DeleteStream(source, 0);
    var w1 := Apply(w, s1);
    assert IsFork(w1, child) && Fork(w1, child).parent == source && At(w1, source) == Source();
    SourceGoes(w1, source, child);
    TakeStep(w, s1, [s2] + []);
  }

  lemma SourceGoes(w: World, source: Path, child: Path)
    requires source != child && At(w, source) == Source() && IsFork(w, child) && Fork(w, child).parent == source
    ensures var r := Outcome(w, [DeleteStream(source, 0)] + []);
            r.Some? && ForkWithoutSource(r.value, source, child)
  {
    var v := Apply(w, DeleteStream(source, 0));
    assert At(v, child) == At(w, child);
    TakeStep(w, DeleteStream(source, 0), []);
  }

  // -------------------------------------------------------- stale entries

  /**
   A creation crashes; a pass lists its intent; before the pass comes to the entry the
   creation is repeated, resumes the intent and commits; the entry is then handled.
   */
  function Stale(source: Path, child: Path): seq<Step> {
    [DropJob(0)] + ([BeginPass(child, map[1 := Edge(child)])] + ([BeginFork(2, child, source, None, PLAIN, Edge(child))]
    + ([SendAcquire(2, 0, false)] + ([CommitJob(2, None, [], [], 0)]
    + (GivingUp(child, 1, true) + ([DeleteStream(source, 0)] + []))))))
  }

  /** No two creations or entries are ever between an acquire and their last transaction together. */
  lemma StaleEntryUnpinsAFork(source: Path, child: Path)
    requires source != child
    ensures var r := Outcome(EMPTY_WORLD, Started(source, child) + Stale(source, child));
            r.Some? && ForkWithoutSource(r.value, source, child)
  {
    var w := AfterStart(source, child);
    OutcomeSplits(EMPTY_WORLD, Started(source, child), Stale(source, child));
    var last := GivingUp(child, 1, true) + ([DeleteStream(source, 0)] + []);
    var resumed := [BeginFork(2, child, source, None, PLAIN, Edge(child))]
                   + ([SendAcquire(2, 0, false)] + ([CommitJob(2, None, [], [], 0)] + last));
    var w2 := CrashedAndListed(w, source, child, resumed);
    var w3 := ResumedAndCommitted(w2, source, child, last);
    StaleEntryHandled(w3, source, child);
  }

  lemma CrashedAndListed(w: World, source: Path, child: Path, rest: seq<Step>) returns (v: World)
    requires source != child
    requires Is(w, source, child, Source(), Intending(source, child), map[0 := Creation(source, child, None)], map[], 2)
    ensures Is(v, source, child, Source(), Intending(source, child), map[1 := Listed(source, child, None)], map[], 2)
    ensures Outcome(w, [DropJob(0)] + ([BeginPass(child, map[1 := Edge(child)])] + rest)) == Outcome(v, rest)
  {
    var s1, s2 := DropJob(0), BeginPass(child, map[1 := Edge(child)]);
    var w1 := Apply(w, s1);
    v := Apply(w1, s2);
    TakeStep(w, s1, [s2] + rest);
    TakeStep(w1, s2, rest);
  }

  lemma StaleEntryHandled(w: World, source: Path, child: Path)
    requires source != child
    requires Is(w, source, child, HoldingSource(child), Committed(source, child, 3),
                map[1 := Listed(source, child, None)], map[], 4)
    ensures var r := Outcome(w, GivingUp(child, 1, true) + ([DeleteStream(source, 0)] + []));
            r.Some? && ForkWithoutSource(r.value, source, child)
  {
    var v := AfterGivingUp(w, source, child, HoldingSource(child), Committed(source, child, 3), 1, true);
    OutcomeSplits(w, GivingUp(child, 1, true), [DeleteStream(source, 0)] + []);
    SourceGoes(v, source, child);
  }

  lemma ResumedAndCommitted(w: World, source: Path, child: Path, rest: seq<Step>) returns (v: World)
    requires source != child
    requires Is(w, source, child, Source(), Intending(source, child), map[1 := Listed(source, child, None)], map[], 2)
    ensures Is(v, source, child, HoldingSource(child), Committed(source, child, 3),
               map[1 := Listed(source, child, None)], map[], 4)
    ensures Outcome(w, [BeginFork(2, child, source, None, PLAIN, Edge(child))]
                       + ([SendAcquire(2, 0, false)] + ([CommitJob(2, None, [], [], 0)] + rest)))
            == Outcome(v, rest)
  {
    var s2, s3 := SendAcquire(2, 0, false), CommitJob(2, None, [], [], 0);
    var w1 := Resumed(w, source, child, [s2] + ([s3] + rest));
    var w2 := AcquiredAgain(w1, source, child, [s3] + rest);
    v := CommittedAgain(w2, source, child, rest);
  }

  lemma Resumed(w: World, source: Path, child: Path, rest: seq<Step>) returns (v: World)
    requires source != child
    requires Is(w, source, child, Source(), Intending(source, child), map[1 := Listed(source, child, None)], map[], 2)
    ensures Is(v, source, child, Source(), Intending(source, child),
               map[1 := Listed(source, child, None), 2 := Creation(source, child, None)], map[], 3)
    ensures Outcome(w, [BeginFork(2, child, source, None, PLAIN, Edge(child))] + rest) == Outcome(v, rest)
  {
    var s := BeginFork(2, child, source, None, PLAIN, Edge(child));
    assert Edge(child) in At(w, child).intents;
    v := Apply(w, s);
    TakeStep(w, s, rest);
  }

  lemma AcquiredAgain(w: World, source: Path, child: Path, rest: seq<Step>) returns (v: World)
    requires source != child
    requires Is(w, source, child, Source(), Intending(source, child),
                map[1 := Listed(source, child, None), 2 := Creation(source, child, None)], map[], 3)
    ensures Is(v, source, child, HoldingSource(child), Intending(source, child),
               map[1 := Listed(source, child, None), 2 := Creation(source, child, Some(HELD))], map[], 3)
    ensures Outcome(w, [SendAcquire(2, 0, false)] + rest) == Outcome(v, rest)
  {
    SourceAcquires(child);
    v := Apply(w, SendAcquire(2, 0, false));
    TakeStep(w, SendAcquire(2, 0, false), rest);
  }

  lemma CommittedAgain(w: World, source: Path, child: Path, rest: seq<Step>) returns (v: World)
    requires source != child
    requires Is(w, source, child, HoldingSource(child), Intending(source, child),
                map[1 := Listed(source, child, None), 2 := Creation(source, child, Some(HELD))], map[], 3)
    ensures Is(v, source, child, HoldingSource(child), Committed(source, child, 3),
               map[1 := Listed(source, child, None)], map[], 4)
    ensures Outcome(w, [CommitJob(2, None, [], [], 0)] + rest) == Outcome(v, rest)
  {
    var s := CommitJob(2, None, [], [], 0);
    v := Apply(w, s);
    assert Intending(source, child).intents - {Edge(child)} == map[];
    TakeStep(w, s, rest);
  }

  // -------------------------------------------------------- leaked edges

  /** Two passes list one intent: the second acquires again after the first has released, and is lost. */
  function DoubleListing(child: Path): seq<Step> {
    [DropJob(0)] + ([BeginPass(child, map[1 := Edge(child)])] + ([BeginPass(child, map[2 := Edge(child)])]
    + (GivingUp(child, 1, false) + ([DequeueRelease(0)] + ([SendAcquire(2, 0, true)] + [])))))
  }

  /** The source holds an edge, and the actor that minted it remembers nothing. */
  lemma DoubleListingLeaksAnEdge(source: Path, child: Path)
    requires source != child
    ensures var r := Outcome(EMPTY_WORLD, Started(source, child) + DoubleListing(child));
            r.Some? && Is(r.value, source, child, HoldingSource(child), NO_TABLES, map[], map[], 2)
  {
    var w := AfterStart(source, child);
    OutcomeSplits(EMPTY_WORLD, Started(source, child), DoubleListing(child));
    var last := [DequeueRelease(0)] + ([SendAcquire(2, 0, true)] + []);
    var w2 := CrashedAndListed(w, source, child,
                               [BeginPass(child, map[2 := Edge(child)])] + (GivingUp(child, 1, false) + last));
    FirstEntryReleases(w2, source, child, last);
  }

  lemma FirstEntryReleases(w: World, source: Path, child: Path, last: seq<Step>)
    requires source != child && last == [DequeueRelease(0)] + ([SendAcquire(2, 0, true)] + [])
    requires Is(w, source, child, Source(), Intending(source, child), map[1 := Listed(source, child, None)], map[], 2)
    ensures var r := Outcome(w, [BeginPass(child, map[2 := Edge(child)])] + (GivingUp(child, 1, false) + last));
            r.Some? && Is(r.value, source, child, HoldingSource(child), NO_TABLES, map[], map[], 2)
  {
    var w1 := ListedTwice(w, source, child, GivingUp(child, 1, false) + last);
    var w2 := FirstGivesUp(w1, source, child, last);
    SecondEntryAcquires(w2, source, child);
  }

  lemma FirstGivesUp(w: World, source: Path, child: Path, rest: seq<Step>) returns (v: World)
    requires source != child
    requires Is(w, source, child, Source(), Intending(source, child),
                map[1 := Listed(source, child, None), 2 := Listed(source, child, None)], map[], 2)
    ensures Is(v, source, child, Source(), Releasing(source, child), map[2 := Listed(source, child, None)],
               map[0 := Acknowledged(source, child)], 2)
    ensures Outcome(w, GivingUp(child, 1, false) + rest) == Outcome(v, rest)
  {
    v := AfterGivingUp(w, source, child, Source(), Intending(source, child), 1, false);
    IntentExchanged(source, child);
    assert w.jobs - {1} == map[2 := Listed(source, child, None)];
    OutcomeSplits(w, GivingUp(child, 1, false), rest);
  }

  lemma IntentExchanged(source: Path, child: Path)
    ensures IntentToRelease(Intending(source, child), Edge(child), source, 0) == Releasing(source, child)
  {
    assert Intending(source, child).intents - {Edge(child)} == map[];
  }

  lemma ListedTwice(w: World, source: Path, child: Path, rest: seq<Step>) returns (v: World)
    requires Is(w, source, child, Source(), Intending(source, child), map[1 := Listed(source, child, None)], map[], 2)
    ensures Is(v, source, child, Source(), Intending(source, child),
               map[1 := Listed(source, child, None), 2 := Listed(source, child, None)], map[], 2)
    ensures Outcome(w, [BeginPass(child, map[2 := Edge(child)])] + rest) == Outcome(v, rest)
  {
    var s := BeginPass(child, map[2 := Edge(child)]);
    assert Edge(child) in At(w, child).intents;
    v := Apply(w, s);
    TakeStep(w, s, rest);
  }

  lemma SecondEntryAcquires(w: World, source: Path, child: Path)
    requires source != child && At(w, source) == Source() && At(w, child).intents == map[]
    requires At(w, child) == Releasing(source, child)
    requires w.jobs == map[2 := Listed(source, child, None)] && w.sends == map[0 := Acknowledged(source, child)]
    requires w.next == 2
    ensures var r := Outcome(w, [DequeueRelease(0)] + ([SendAcquire(2, 0, true)] + []));
            r.Some? && Is(r.value, source, child, HoldingSource(child), NO_TABLES, map[], map[], 2)
  {
    var s1, s2 := DequeueRelease(0), SendAcquire(2, 0, true);
    var w1 := Apply(w, s1);
    assert Releasing(source, child).releases - {Edge(child)} == map[];
    SourceAcquires(child);
    var w2 := Apply(w1, s2);
    TakeStep(w, s1, [s2] + []);
    TakeStep(w1, s2, []);
  }
}
