/**
 Reads. A range read selects rows of one stream under a row limit and a byte
 budget; a stitched read joins the inherited prefix, read recursively at the
 source, with the fork's own rows. It refines reading the flat logical log.
 */
module Stitch {
  import opened Options
  import opened Offsets
  import opened Tables
  import opened Cluster
  import opened ForkSafety
  import opened Logs
  import opened LogSafety
  import opened Isolation

  const MAX_READ_ROWS: nat := 128
  const MAX_READ_BYTES: nat := 4_194_304

  datatype Batch = Batch(messages: seq<Message>, capped: bool)

  function Min(a: nat, b: nat): nat { if a < b then a else b }

  /** The size of the first k messages. */
  function SizeTo(ms: seq<Message>, k: nat): nat
    requires k <= |ms|
  {
    if k == 0 then 0 else SizeTo(ms, k - 1) + |ms[k - 1].data|
  }

  function Size(ms: seq<Message>): nat { SizeTo(ms, |ms|) }

  // -------------------------------------------------------------- range reads

  /** May the first k rows be returned? A first row alone may exceed the budget if that is allowed. */
  predicate Fits(rows: seq<Message>, k: nat, budget: nat, allowOversized: bool)
    requires k <= |rows|
  {
    k == 0 || (k == 1 && allowOversized) || SizeTo(rows, k) <= budget
  }

  /** The longest prefix within limit and budget. */
  predicate IsLongest(rows: seq<Message>, k: nat, limit: nat, budget: nat, allowOversized: bool) {
    && k <= |rows| && k <= limit && Fits(rows, k, budget, allowOversized)
    && (k == |rows| || k == limit || !Fits(rows, k + 1, budget, allowOversized))
  }

  function Longest(rows: seq<Message>, k: nat, limit: nat, budget: nat, allowOversized: bool): (r: nat)
    requires k <= |rows| && k <= limit && Fits(rows, k, budget, allowOversized)
    ensures k <= r && IsLongest(rows, r, limit, budget, allowOversized)
    decreases |rows| - k
  {
    if k < |rows| && k < limit && Fits(rows, k + 1, budget, allowOversized)
    then Longest(rows, k + 1, limit, budget, allowOversized)
    else k
  }

  function RangeRead(rows: seq<Message>, limit: nat, budget: nat, allowOversized: bool): Batch {
    var k := Longest(rows, 0, limit, budget, allowOversized);
    Batch(rows[..k], k < |rows|)
  }

  lemma {:induction false} SizeGrows(ms: seq<Message>, i: nat, j: nat)
    requires i <= j <= |ms|
    ensures SizeTo(ms, i) <= SizeTo(ms, j)
    decreases j
  {
    if i < j {
      SizeGrows(ms, i, j - 1);
    }
  }

  lemma {:induction false} SizeAgrees(a: seq<Message>, b: seq<Message>, k: nat)
    requires k <= |a| && k <= |b| && forall i :: 0 <= i < k ==> a[i] == b[i]
    ensures SizeTo(a, k) == SizeTo(b, k)
    decreases k
  {
    if k > 0 {
      SizeAgrees(a, b, k - 1);
    }
  }

  lemma SizeOfPrefix(ms: seq<Message>, k: nat)
    requires k <= |ms|
    ensures Size(ms[..k]) == SizeTo(ms, k)
  {
    SizeAgrees(ms[..k], ms, k);
  }

  lemma {:induction false} SizeAfter(a: seq<Message>, b: seq<Message>, k: nat)
    requires k <= |b|
    ensures SizeTo(a + b, |a| + k) == Size(a) + SizeTo(b, k)
    decreases k
  {
    if k == 0 {
      SizeAgrees(a + b, a, |a|);
    } else {
      SizeAfter(a, b, k - 1);
    }
  }

  /** There is only one longest prefix. */
  lemma LongestIsUnique(rows: seq<Message>, j: nat, k: nat, limit: nat, budget: nat, allowOversized: bool)
    requires IsLongest(rows, j, limit, budget, allowOversized) && IsLongest(rows, k, limit, budget, allowOversized)
    ensures j == k
  {
    if j < k {
      SizeGrows(rows, j + 1, k);
    } else if k < j {
      SizeGrows(rows, k + 1, j);
    }
  }

  /** Rows a query fetches: one more than wanted, never more than the row cap plus one. */
  function Scanned(rows: seq<Message>, limit: nat): seq<Message> {
    rows[..Min(|rows|, Min(limit + 1, MAX_READ_ROWS + 1))]
  }

  /** For limits up to the row cap, one extra row tells exactly whether anything remains. */
  lemma ScanIsEnough(rows: seq<Message>, limit: nat, budget: nat, allowOversized: bool)
    requires limit <= MAX_READ_ROWS
    ensures RangeRead(Scanned(rows, limit), limit, budget, allowOversized)
            == RangeRead(rows, limit, budget, allowOversized)
  {
    var few := Scanned(rows, limit);
    var k := Longest(few, 0, limit, budget, allowOversized);
    assert few[..k] == rows[..k];
    SizeAgrees(few, rows, k);
    if k < |few| {
      SizeAgrees(few, rows, k + 1);
    }
    LongestIsUnique(rows, k, Longest(rows, 0, limit, budget, allowOversized), limit, budget, allowOversized);
  }

  /** The selection loop of `read_messages_range`: take rows while row limit and byte budget last. */
  method SelectRows(rows: seq<Message>, limit: nat, byteBudget: nat, allowOversizedFirst: bool) returns (selected: nat)
    ensures IsLongest(rows, selected, limit, byteBudget, allowOversizedFirst)
  {
    selected := 0;
    var bytes := 0;
    while selected < |rows|
      invariant selected <= |rows| && selected <= limit
      invariant bytes == SizeTo(rows, selected)
      invariant Fits(rows, selected, byteBudget, allowOversizedFirst)
    {
      if selected == limit {
        break;
      }
      var length := |rows[selected].data|;
      if (selected > 0 || !allowOversizedFirst) && bytes + length > byteBudget {
        break;
      }
      bytes := bytes + length;
      selected := selected + 1;
    }
  }

  /** `read_messages_range`: scan lengths one row beyond the limit, select, and fetch what was selected. */
  method ReadMessagesRange(messages: seq<Message>, after: Option<string>, cap: Option<string>,
                           limit: nat, byteBudget: nat, allowOversizedFirst: bool) returns (batch: Batch)
    ensures batch == RangeRead(Scanned(Window(messages, Some(Start(after)), cap), limit), limit, byteBudget,
                               allowOversizedFirst)
    ensures limit <= MAX_READ_ROWS ==>
              batch == RangeRead(Window(messages, Some(Start(after)), cap), limit, byteBudget, allowOversizedFirst)
    ensures limit <= MAX_READ_ROWS ==>
              (batch.capped <==> batch.messages != Window(messages, Some(Start(after)), cap))
  {
    var found := Window(messages, Some(Start(after)), cap);
    var rows := Scanned(found, limit);
    var selected := SelectRows(rows, limit, byteBudget, allowOversizedFirst);
    LongestIsUnique(rows, selected, Longest(rows, 0, limit, byteBudget, allowOversizedFirst), limit, byteBudget,
                    allowOversizedFirst);
    batch := Batch(rows[..selected], |rows| > selected);
    if limit <= MAX_READ_ROWS {
      ScanIsEnough(found, limit, byteBudget, allowOversizedFirst);
    }
  }

  /** Where a read starts: `-1` and no offset mean the beginning. */
  function Start(after: Option<string>): string {
    if after.Some? && after.value != "-1" then after.value else ""
  }

  // ------------------------------------------------------------ stitched reads

  function LowerCap(cap: Option<string>, offset: string): string {
    if cap.Some? && Less(cap.value, offset) then cap.value else offset
  }

  function Monus(a: nat, b: nat): nat { if a < b then 0 else a - b }

  /** What a stitched read at one instant returns. */
  ghost function Stitched(w: World, p: Path, after: string, cap: Option<string>, limit: nat, budget: nat): Batch
    requires Good(w) && Attached(w, p)
    decreases if Exists(w, p) then Gen(w, p) + 1 else 0
  {
    if !Exists(w, p) then Batch([], false)
    else if IsFork(w, p) && Less(after, Fork(w, p).offset) then
      var f := Fork(w, p);
      assert StreamOk(w, p);
      Join(Stitched(w, f.parent, after, Some(LowerCap(cap, f.offset)), limit, budget),
           Window(At(w, p).messages, Some(after), cap), limit, budget)
    else RangeRead(Window(At(w, p).messages, Some(after), cap), limit, budget, true)
  }

  /** The inherited batch already uses up limit or budget. */
  predicate IsFull(inherited: Batch, limit: nat, budget: nat) {
    || inherited.capped || |inherited.messages| >= limit
    || (Monus(budget, Size(inherited.messages)) == 0 && inherited.messages != [])
  }

  function Continued(inherited: Batch, rest: Batch): Batch {
    Batch(inherited.messages + rest.messages, rest.capped)
  }

  /** The inherited batch, continued with own rows unless it is full. */
  function Join(inherited: Batch, own: seq<Message>, limit: nat, budget: nat): Batch {
    if IsFull(inherited, limit, budget) then Batch(inherited.messages, true)
    else
      Continued(inherited, RangeRead(own, limit - |inherited.messages|, Monus(budget, Size(inherited.messages)),
                                     inherited.messages == []))
  }

  /**
   Agreement with a flat log: a prefix, within limit and budget, complete unless capped,
   and capped batches move on.
   */
  predicate Refines(b: Batch, flat: seq<Message>, limit: nat, budget: nat) {
    && b.messages <= flat
    && |b.messages| <= limit
    && (Size(b.messages) <= budget || |b.messages| == 1)
    && (!b.capped ==> b.messages == flat)
    && (limit >= 1 && b.capped ==> b.messages != [])
  }

  lemma RangeRefines(rows: seq<Message>, limit: nat, budget: nat)
    ensures Refines(RangeRead(rows, limit, budget, true), rows, limit, budget)
  {
    SizeOfPrefix(rows, Longest(rows, 0, limit, budget, true));
  }

  lemma PrefixOfConcat(a: seq<Message>, b: seq<Message>, k: nat)
    requires k <= |b|
    ensures a + b[..k] <= a + b
    ensures k == |b| ==> a + b[..k] == a + b
  {}

  /** A complete inherited batch, continued with own rows. */
  lemma ContinuedRefines(above: seq<Message>, own: seq<Message>, limit: nat, budget: nat)
    requires |above| < limit && (Size(above) <= budget || |above| == 1)
    requires |above| > 0 ==> Monus(budget, Size(above)) > 0
    ensures var rest := RangeRead(own, limit - |above|, Monus(budget, Size(above)), above == []);
            Refines(Batch(above + rest.messages, rest.capped), above + own, limit, budget)
  {
    var k := Longest(own, 0, limit - |above|, Monus(budget, Size(above)), above == []);
    PrefixOfConcat(above, own, k);
    SizeOfJoined(above, own, k);
    RoomLeft(above, own, k, limit, budget);
  }

  lemma SizeOfJoined(above: seq<Message>, own: seq<Message>, k: nat)
    requires k <= |own|
    ensures Size(above + own[..k]) == Size(above) + SizeTo(own, k)
  {
    SizeAfter(above, own[..k], k);
    SizeAgrees(own[..k], own, k);
  }

  lemma JoinRefines(inherited: Batch, above: seq<Message>, own: seq<Message>, limit: nat, budget: nat)
    requires Refines(inherited, above, limit, budget)
    ensures Refines(Join(inherited, own, limit, budget), above + own, limit, budget)
  {
    if IsFull(inherited, limit, budget) {
      assert inherited.messages <= above + own;
    } else {
      ContinuedRefines(above, own, limit, budget);
    }
  }

  /** The own rows taken after the inherited ones keep the batch within budget. */
  lemma RoomLeft(above: seq<Message>, own: seq<Message>, k: nat, limit: nat, budget: nat)
    requires |above| <= limit && k <= |own| && (Size(above) <= budget || |above| == 1)
    requires |above| > 0 ==> Monus(budget, Size(above)) > 0
    requires IsLongest(own, k, limit - |above|, Monus(budget, Size(above)), above == [])
    ensures Size(above) + SizeTo(own, k) <= budget || |above| + k == 1
    ensures |above| < limit && k < |own| ==> |above| + k > 0
  {}

  /** The window of a fork's logical log splits at the fork offset. */
  lemma ForkWindow(w: World, p: Path, after: string, cap: Option<string>)
    requires Good(w) && IsFork(w, p) && Attached(w, p)
    ensures Exists(w, Fork(w, p).parent) && Attached(w, Fork(w, p).parent)
    ensures var f := Fork(w, p); var own := Window(At(w, p).messages, Some(after), cap);
            Window(Logical(w, p), Some(after), cap)
            == if Less(after, f.offset)
               then Window(Logical(w, f.parent), Some(after), Some(LowerCap(cap, f.offset))) + own
               else own
  {
    assert StreamOk(w, p);
    var f := Fork(w, p);
    var above := Logical(w, f.parent);
    var inherited := Window(above, None, Some(f.offset));
    StrictOrder();
    WindowSplits(inherited, At(w, p).messages, Some(after), cap);
    if Less(after, f.offset) {
      var low := LowerCap(cap, f.offset);
      forall m | m in inherited
        ensures InWindow(m.offset, Some(after), cap) <==> InWindow(m.offset, Some(after), Some(low))
      {}
      WindowAgrees(inherited, Some(after), cap, Some(after), Some(low));
      WindowOfWindow(above, None, Some(f.offset), Some(after), Some(low));
    } else {
      WindowOfNone(inherited, Some(after), cap);
    }
  }

  /** At any fork depth a stitched read refines the flat logical log filtered to (after, cap]. */
  lemma {:induction false} StitchedRefinesFlatLog(w: World, p: Path, after: string, cap: Option<string>, limit: nat,
                                                  budget: nat)
    requires Good(w) && Exists(w, p) && Attached(w, p)
    ensures Refines(Stitched(w, p, after, cap, limit, budget), Window(Logical(w, p), Some(after), cap), limit, budget)
    decreases Gen(w, p)
  {
    var own := Window(At(w, p).messages, Some(after), cap);
    if IsFork(w, p) {
      ForkWindow(w, p, after, cap);
      var f := Fork(w, p);
      if Less(after, f.offset) {
        assert StreamOk(w, p);
        var low := Some(LowerCap(cap, f.offset));
        StitchedRefinesFlatLog(w, f.parent, after, low, limit, budget);
        JoinRefines(Stitched(w, f.parent, after, low, limit, budget),
                    Window(Logical(w, f.parent), Some(after), low), own, limit, budget);
      } else {
        RangeRefines(own, limit, budget);
      }
    } else {
      RangeRefines(own, limit, budget);
    }
  }

  // ------------------------------------------------------ as much as fits

  /** Capped means that something is left, or that limit or budget is used up to the last. */
  predicate CapsForAReason(b: Batch, flat: seq<Message>, limit: nat, budget: nat) {
    b.capped ==> b.messages != flat || |b.messages| >= limit || (b.messages != [] && Size(b.messages) >= budget)
  }

  /** The batch is the longest prefix within limit and budget, or one oversized message. */
  predicate TakesAll(b: Batch, flat: seq<Message>, limit: nat, budget: nat) {
    && b.messages <= flat && IsLongest(flat, |b.messages|, limit, budget, true)
    && (!b.capped ==> b.messages == flat) && CapsForAReason(b, flat, limit, budget)
  }

  lemma RangeTakesAll(rows: seq<Message>, limit: nat, budget: nat)
    ensures TakesAll(RangeRead(rows, limit, budget, true), rows, limit, budget)
  {}

  lemma JoinTakesAll(inherited: Batch, above: seq<Message>, own: seq<Message>, limit: nat, budget: nat)
    requires TakesAll(inherited, above, limit, budget) && forall m :: m in own ==> m.data != []
    ensures TakesAll(Join(inherited, own, limit, budget), above + own, limit, budget)
  {
    if IsFull(inherited, limit, budget) {
      FullTakesAll(inherited, above, own, limit, budget);
    } else {
      ContinuedTakesAll(above, own, limit, budget);
    }
  }

  lemma FullTakesAll(inherited: Batch, above: seq<Message>, own: seq<Message>, limit: nat, budget: nat)
    requires TakesAll(inherited, above, limit, budget) && IsFull(inherited, limit, budget)
    requires forall m :: m in own ==> m.data != []
    ensures TakesAll(Batch(inherited.messages, true), above + own, limit, budget)
  {
    var flat, k := above + own, |inherited.messages|;
    SizeAgrees(flat, above, k);
    SizeAgrees(inherited.messages, above, k);
    if k < |above| {
      SizeAgrees(flat, above, k + 1);
    } else if own == [] {
      assert flat == above;
    } else {
      assert flat[k] == own[0] && own[0] in own;
    }
  }

  lemma ContinuedTakesAll(above: seq<Message>, own: seq<Message>, limit: nat, budget: nat)
    requires |above| < limit && Fits(above, |above|, budget, true)
    requires above != [] ==> Monus(budget, Size(above)) > 0
    ensures var rest := RangeRead(own, limit - |above|, Monus(budget, Size(above)), above == []);
            TakesAll(Continued(Batch(above, false), rest), above + own, limit, budget)
  {
    var room := Monus(budget, Size(above));
    var k := Longest(own, 0, limit - |above|, room, above == []);
    LongestAfter(above, own, k, limit, room, budget);
    PrefixOfConcat(above, own, k);
  }

  lemma LongestAfter(above: seq<Message>, own: seq<Message>, k: nat, limit: nat, room: nat, budget: nat)
    requires |above| < limit && budget == Size(above) + room
    requires IsLongest(own, k, limit - |above|, room, above == [])
    ensures IsLongest(above + own, |above| + k, limit, budget, true)
  {
    SizeAfter(above, own, k);
    if k < |own| {
      SizeAfter(above, own, k + 1);
    }
  }

  /** At any fork depth a stitched read takes as much of the flat log as limit and budget allow. */
  lemma {:induction false} StitchedTakesAll(w: World, p: Path, after: string, cap: Option<string>, limit: nat,
                                            budget: nat)
    requires Good(w) && Sound(w, p)
    ensures TakesAll(Stitched(w, p, after, cap, limit, budget), Window(Logical(w, p), Some(after), cap), limit, budget)
    decreases Gen(w, p)
  {
    var own := Window(At(w, p).messages, Some(after), cap);
    RangeTakesAll(own, limit, budget);
    if IsFork(w, p) {
      assert StreamOk(w, p);
      ForkWindow(w, p, after, cap);
      var f := Fork(w, p);
      if Less(after, f.offset) {
        var low := Some(LowerCap(cap, f.offset));
        StitchedTakesAll(w, f.parent, after, low, limit, budget);
        LogicalHasNoBlanks(w, p);
        OwnHasNoBlanks(w, p, after, cap);
        JoinTakesAll(Stitched(w, f.parent, after, low, limit, budget),
                     Window(Logical(w, f.parent), Some(after), low), own, limit, budget);
      }
    }
  }

  lemma OwnHasNoBlanks(w: World, p: Path, after: string, cap: Option<string>)
    requires Good(w) && Sound(w, p)
    ensures forall m :: m in Window(At(w, p).messages, Some(after), cap) ==> m.data != []
  {
    assert StreamOk(w, p);
  }

  /** A read below the fork offset continues at the source, whose generation is older. */
  lemma StitchedBelow(w: World, p: Path, after: string, cap: Option<string>, limit: nat, budget: nat)
    requires Good(w) && IsFork(w, p) && Attached(w, p) && Less(after, Fork(w, p).offset)
    ensures var f := Fork(w, p);
            && Exists(w, f.parent) && Attached(w, f.parent) && Gen(w, f.parent) < Gen(w, p)
            && Stitched(w, p, after, cap, limit, budget)
               == Join(Stitched(w, f.parent, after, Some(LowerCap(cap, f.offset)), limit, budget),
                       Window(At(w, p).messages, Some(after), cap), limit, budget)
  {
    assert StreamOk(w, p);
  }

  lemma StitchedOwn(w: World, p: Path, after: string, cap: Option<string>, limit: nat, budget: nat)
    requires Good(w) && Exists(w, p) && Attached(w, p) && !(IsFork(w, p) && Less(after, Fork(w, p).offset))
    ensures Stitched(w, p, after, cap, limit, budget)
            == RangeRead(Window(At(w, p).messages, Some(after), cap), limit, budget, true)
  {}

  /** The local part of a stitched read, once the source has answered. */
  method ContinueWithOwn(rows: seq<Message>, inherited: Batch, after: Option<string>, cap: Option<string>, limit: nat,
                         byteBudget: nat)
    returns (batch: Batch)
    requires limit <= MAX_READ_ROWS
    ensures batch == Join(inherited, Window(rows, Some(Start(after)), cap), limit, byteBudget)
  {
    var messages := inherited.messages;
    var remainingBytes := Monus(byteBudget, Size(messages));
    if inherited.capped || |messages| >= limit || (remainingBytes == 0 && messages != []) {
      batch := Batch(messages, true);
    } else {
      assert !IsFull(inherited, limit, byteBudget);
      var own := ReadMessagesRange(rows, after, cap, limit - |messages|, remainingBytes, messages == []);
      batch := Continued(inherited, own);
    }
  }

  /** `read_stitched`, read at one instant; the recursion is the remote read at the source. */
  method ReadStitched(w: World, p: Path, after: Option<string>, cap: Option<string>, rowLimit: nat, bytes: nat)
    returns (batch: Batch)
    requires Good(w) && Exists(w, p) && Attached(w, p)
    ensures batch == Stitched(w, p, Start(after), cap, Min(rowLimit, MAX_READ_ROWS), Min(bytes, MAX_READ_BYTES))
    decreases Gen(w, p)
  {
    var limit, byteBudget := Min(rowLimit, MAX_READ_ROWS), Min(bytes, MAX_READ_BYTES);
    var t := At(w, p);
    var fork := t.meta.value.fork;
    if fork.Some? && Less(Start(after), fork.value.offset) {
      StitchedBelow(w, p, Start(after), cap, limit, byteBudget);
      var inherited := ReadStitched(w, fork.value.parent, after, Some(LowerCap(cap, fork.value.offset)), limit,
                                    byteBudget);
      batch := ContinueWithOwn(t.messages, inherited, after, cap, limit, byteBudget);
    } else {
      StitchedOwn(w, p, Start(after), cap, limit, byteBudget);
      batch := ReadMessagesRange(t.messages, after, cap, limit, byteBudget, true);
    }
  }
}
