/** Logical logs only grow, only by their own stream's appends, and never below a fork offset. */
module Isolation {
  import opened Options
  import opened Offsets
  import opened Tables
  import opened Cluster
  import opened ClusterProofs
  import opened ForkSafety
  import opened Logs
  import opened LogSafety

  // ------------------------------------------------------------ logical log

  /** The source this fork was made from is still there. */
  predicate SourceThere(w: World, p: Path)
    requires IsFork(w, p)
  {
    Exists(w, Fork(w, p).parent) && Gen(w, Fork(w, p).parent) == Fork(w, p).sourceGen
  }

  /** All the sources a stream reads through are there. */
  ghost predicate Attached(w: World, p: Path)
    requires Good(w)
    decreases if Exists(w, p) then Gen(w, p) + 1 else 0
  {
    IsFork(w, p) ==> SourceThere(w, p) && assert StreamOk(w, p); Attached(w, Fork(w, p).parent)
  }

  /** Where creations and passes do not get in each other's way, every stream is attached. */
  lemma {:induction false} PinnedIsAttached(w: World, p: Path)
    requires Inv(w) && Good(w)
    ensures Attached(w, p)
    decreases if Exists(w, p) then Gen(w, p) + 1 else 0
  {
    if IsFork(w, p) {
      assert Pinned(w, p) && StreamOk(w, p);
      PinnedIsAttached(w, Fork(w, p).parent);
    }
  }

  lemma GuardedStreamsAreAttached(run: seq<World>, steps: seq<Step>, i: nat, p: Path)
    requires Serial(run, steps) && Init(run[0]) && i < |run|
    ensures Good(run[i]) && Attached(run[i], p)
  {
    InitOk(run[0]);
    InitGood(run[0]);
    RunKeepsInv(run, steps, i);
    RunStaysGood(run, steps, i);
    PinnedIsAttached(run[i], p);
  }

  /** A fork reads as its source up to the fork offset, then its own messages. */
  ghost function Logical(w: World, p: Path): seq<Message>
    requires Good(w) && Attached(w, p)
    decreases if Exists(w, p) then Gen(w, p) + 1 else 0
  {
    if !Exists(w, p) then []
    else if IsFork(w, p) then
      assert StreamOk(w, p);
      Window(Logical(w, Fork(w, p).parent), None, Some(Fork(w, p).offset)) + At(w, p).messages
    else At(w, p).messages
  }

  /** The stream and all its sources are there and regular: what their offsets say, their order says. */
  ghost predicate Sound(w: World, p: Path)
    requires Good(w)
    ensures Sound(w, p) ==> Attached(w, p)
    decreases if Exists(w, p) then Gen(w, p) + 1 else 0
  {
    && Exists(w, p) && Regular(At(w, p))
    && (IsFork(w, p) ==> SourceThere(w, p) && assert StreamOk(w, p); Sound(w, Fork(w, p).parent))
  }

  lemma LogicalOfFork(w: World, p: Path)
    requires Good(w) && Attached(w, p) && IsFork(w, p)
    ensures SourceThere(w, p) && Attached(w, Fork(w, p).parent) && Fork(w, p).sourceGen < Gen(w, p)
    ensures Logical(w, p)
            == Window(Logical(w, Fork(w, p).parent), None, Some(Fork(w, p).offset)) + At(w, p).messages
    ensures Sound(w, p) ==> Sound(w, Fork(w, p).parent)
  {
    assert StreamOk(w, p);
  }

  /** The logical log is sorted and ends at the current offset. */
  lemma {:induction false} LogicalIsSorted(w: World, p: Path)
    requires Good(w) && Sound(w, p)
    ensures Sorted(Logical(w, p)) && AllAtMost(Logical(w, p), At(w, p).meta.value.currentOffset)
    decreases Gen(w, p)
  {
    var t := At(w, p);
    assert StreamOk(w, p);
    if IsFork(w, p) {
      var f := Fork(w, p);
      LogicalIsSorted(w, f.parent);
      var inherited := Window(Logical(w, f.parent), None, Some(f.offset));
      SortedWindow(Logical(w, f.parent), None, Some(f.offset));
      SortedConcat(inherited, t.messages, f.offset);
      StrictOrder();
    }
  }

  /** No stored message is empty. */
  lemma {:induction false} LogicalHasNoBlanks(w: World, p: Path)
    requires Good(w) && Sound(w, p)
    ensures forall m :: m in Logical(w, p) ==> m.data != []
    decreases Gen(w, p)
  {
    assert StreamOk(w, p);
    if IsFork(w, p) {
      LogicalHasNoBlanks(w, Fork(w, p).parent);
    }
  }

  // -------------------------------------------------------------- isolation

  /** The logical log at a later time is the earlier one followed by the stream's own new messages. */
  lemma {:induction false} LogicalGrowsByOwnAppends(w: World, v: World, p: Path)
    requires Good(w) && Good(v) && Later(w, v) && Sound(v, p) && Gen(v, p) < w.next
    ensures Sound(w, p) && Gen(w, p) == Gen(v, p) && Grown(At(w, p), At(v, p))
    ensures Logical(v, p) == Logical(w, p) + At(v, p).messages[|At(w, p).messages|..]
    decreases Gen(v, p)
  {
    assert LogLater(At(w, p), At(v, p));
    var t, u := At(w, p), At(v, p);
    if IsFork(v, p) {
      assert StreamOk(v, p) && StreamOk(w, p);
      LogicalGrowsByOwnAppends(w, v, Fork(v, p).parent);
      InheritedIsFrozen(w, v, Fork(v, p));
      Reassociate(Window(Logical(w, Fork(w, p).parent), None, Some(Fork(w, p).offset)), t.messages, u.messages);
    } else {
      Reassociate([], t.messages, u.messages);
    }
  }

  lemma Reassociate(a: seq<Message>, b: seq<Message>, c: seq<Message>)
    requires |b| <= |c| && c[..|b|] == b
    ensures a + c == (a + b) + c[|b|..] && b + c[|b|..] == c
  {}

  /** Appends to the source land above every recorded fork offset. */
  lemma InheritedIsFrozen(w: World, v: World, f: ForkRef)
    requires Good(w) && Good(v) && Exists(w, f.parent) && Exists(v, f.parent) && Regular(At(w, f.parent))
    requires Attached(w, f.parent) && Attached(v, f.parent)
    requires AtMost(f.offset, At(w, f.parent).meta.value.currentOffset)
    requires Grown(At(w, f.parent), At(v, f.parent))
    requires Logical(v, f.parent) == Logical(w, f.parent) + At(v, f.parent).messages[|At(w, f.parent).messages|..]
    ensures Window(Logical(v, f.parent), None, Some(f.offset)) == Window(Logical(w, f.parent), None, Some(f.offset))
  {
    var t := At(w, f.parent);
    var added := At(v, f.parent).messages[|t.messages|..];
    assert StreamOk(w, f.parent);
    StrictOrder();
    WindowSplits(Logical(w, f.parent), added, None, Some(f.offset));
    forall m | m in added ensures !InWindow(m.offset, None, Some(f.offset)) {
      assert Less(t.meta.value.currentOffset, m.offset);
    }
    WindowOfNone(added, None, Some(f.offset));
  }

  /**
   While a fork exists, whatever happens anywhere, what it reads up to its fork
   offset stays the same, and the rest only grows at the end by its own appends.
   */
  lemma ForkContentsAreFrozen(run: seq<World>, steps: seq<Step>, i: nat, j: nat, p: Path)
    requires Run(run, steps) && Good(run[0]) && i <= j < |run| && Good(run[i]) && Good(run[j])
    requires IsFork(run[i], p) && Sound(run[j], p) && Gen(run[j], p) == Gen(run[i], p)
    ensures Attached(run[i], p)
    ensures var offset := Fork(run[i], p).offset;
            Window(Logical(run[j], p), None, Some(offset)) == Window(Logical(run[i], p), None, Some(offset))
    ensures Logical(run[i], p) <= Logical(run[j], p)
  {
    RunIsLater(run, steps, i, j);
    var w, v, f := run[i], run[j], Fork(run[i], p);
    assert StreamOk(w, p) && StreamOk(v, p);
    LogicalGrowsByOwnAppends(w, v, p);
    var added := At(v, p).messages[|At(w, p).messages|..];
    StrictOrder();
    forall m | m in added ensures !InWindow(m.offset, None, Some(f.offset)) {
      assert m in At(v, p).messages;
    }
    WindowOfNone(added, None, Some(f.offset));
    WindowSplits(Logical(w, p), added, None, Some(f.offset));
  }

  /** A step at one actor leaves the logical log of every other existing stream exactly as it was. */
  lemma OtherLogsAreUntouched(w: World, s: Step, q: Path)
    requires Good(w) && Enabled(w, s) && Target(w, s) != Some(q)
    requires Good(Apply(w, s)) && Sound(Apply(w, s), q)
    ensures Exists(w, q) && Attached(w, q) && Logical(Apply(w, s), q) == Logical(w, q)
  {
    var v := Apply(w, s);
    StepIsLocal(w, s, q);
    StepIsLater(w, s);
    assert StreamOk(w, q);
    LogicalGrowsByOwnAppends(w, v, q);
    assert At(v, q).messages[|At(w, q).messages|..] == [];
  }
}
