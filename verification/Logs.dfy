/** Ordered logs: windows of a log, and the order and size of one stream's own messages. */
module Logs {
  import opened Options
  import opened Offsets
  import opened Tables

  // ---------------------------------------------------------------- windows

  predicate InWindow(offset: string, after: Option<string>, cap: Option<string>) {
    (after.Some? ==> Less(after.value, offset)) && (cap.Some? ==> AtMost(offset, cap.value))
  }

  /** The messages after one offset and up to another, in log order. */
  function Window(log: seq<Message>, after: Option<string>, cap: Option<string>): (r: seq<Message>)
    ensures |r| <= |log|
    ensures forall m :: m in r <==> m in log && InWindow(m.offset, after, cap)
  {
    if log == [] then []
    else
      var rest := Window(log[1..], after, cap);
      assert log == [log[0]] + log[1..];
      if InWindow(log[0].offset, after, cap) then [log[0]] + rest else rest
  }

  lemma {:induction false} WindowSplits(a: seq<Message>, b: seq<Message>, after: Option<string>, cap: Option<string>)
    ensures Window(a + b, after, cap) == Window(a, after, cap) + Window(b, after, cap)
  {
    if a == [] {
      assert a + b == b;
    } else {
      assert (a + b)[1..] == a[1..] + b;
      WindowSplits(a[1..], b, after, cap);
    }
  }

  lemma {:induction false} WindowOfNone(log: seq<Message>, after: Option<string>, cap: Option<string>)
    requires forall m :: m in log ==> !InWindow(m.offset, after, cap)
    ensures Window(log, after, cap) == []
  {
    if log != [] {
      WindowOfNone(log[1..], after, cap);
    }
  }

  /** Two windows that agree on membership are the same messages. */
  lemma {:induction false} WindowAgrees(log: seq<Message>, a1: Option<string>, c1: Option<string>, a2: Option<string>,
                                        c2: Option<string>)
    requires forall m :: m in log ==> (InWindow(m.offset, a1, c1) <==> InWindow(m.offset, a2, c2))
    ensures Window(log, a1, c1) == Window(log, a2, c2)
  {
    if log != [] {
      assert log[0] in log;
      WindowAgrees(log[1..], a1, c1, a2, c2);
    }
  }

  lemma {:induction false} WindowOfWindow(log: seq<Message>, a1: Option<string>, c1: Option<string>,
                                          a2: Option<string>, c2: Option<string>)
    requires forall m :: m in log && InWindow(m.offset, a2, c2) ==> InWindow(m.offset, a1, c1)
    ensures Window(Window(log, a1, c1), a2, c2) == Window(log, a2, c2)
  {
    if log != [] {
      assert log[0] in log;
      WindowOfWindow(log[1..], a1, c1, a2, c2);
    }
  }

  // ------------------------------------------------------------------ order

  /** Strictly increasing offsets. */
  ghost predicate Sorted(log: seq<Message>) {
    forall i, j :: 0 <= i < j < |log| ==> Less(log[i].offset, log[j].offset)
  }

  ghost predicate AllAbove(log: seq<Message>, offset: string) {
    forall m :: m in log ==> Less(offset, m.offset)
  }

  ghost predicate AllAtMost(log: seq<Message>, offset: string) {
    forall m :: m in log ==> AtMost(m.offset, offset)
  }

  lemma SortedConcat(a: seq<Message>, b: seq<Message>, pivot: string)
    requires Sorted(a) && Sorted(b) && AllAtMost(a, pivot) && AllAbove(b, pivot)
    ensures Sorted(a + b)
  {
    StrictOrder();
    forall i, j | 0 <= i < |a| && |a| <= j < |a| + |b| ensures Less((a + b)[i].offset, (a + b)[j].offset) {
      assert a[i] in a && b[j - |a|] in b;
    }
  }

  lemma {:induction false} SortedWindow(log: seq<Message>, after: Option<string>, cap: Option<string>)
    requires Sorted(log)
    ensures Sorted(Window(log, after, cap))
  {
    if log != [] {
      SortedWindow(log[1..], after, cap);
      var rest := Window(log[1..], after, cap);
      forall j | 0 <= j < |rest| ensures Less(log[0].offset, rest[j].offset) {
        assert rest[j] in rest;
        var k :| 0 <= k < |log[1..]| && log[1..][k] == rest[j];
        assert log[k + 1] == rest[j];
      }
    }
  }

  // ---------------------------------------------------------- one stream's log

  function DataOf(log: seq<Message>): seq<Blob> { seq(|log|, i requires 0 <= i < |log| => log[i].data) }

  function TotalSize(log: seq<Message>): nat {
    if log == [] then 0 else TotalSize(log[..|log| - 1]) + 5 + |log[|log| - 1].data|
  }

  function InitialOffset(m: Meta): string { if m.fork.Some? then m.fork.value.offset else ZERO_OFFSET }

  /** Own messages are sorted, lie above the fork offset and account exactly for the current offset. */
  ghost predicate OwnLogOk(m: Meta, log: seq<Message>) {
    && InStream(InitialOffset(m)) && InStream(m.currentOffset)
    && Sorted(log) && (forall x :: x in log ==> x.data != [])
    && AllAbove(log, InitialOffset(m))
    && AllAtMost(log, m.currentOffset)
    && AtMost(InitialOffset(m), m.currentOffset)
    && m.currentOffset == (if log == [] then InitialOffset(m) else log[|log| - 1].offset)
    && Bytes(m.currentOffset) == Bytes(InitialOffset(m)) + TotalSize(log)
  }

  /** Held edges record offsets the stream has reached. */
  ghost predicate EdgesOk(t: Tables)
    requires t.meta.Some?
  {
    forall e :: e in t.edges ==> AtMost(t.edges[e], t.meta.value.currentOffset)
  }

  /** Where appends to a stream have got to from its initial offset. */
  predicate Reaches(initial: string, current: string) {
    && InStream(initial) && InStream(current)
    && (current == initial
        || (&& Bytes(initial) + 6 <= Bytes(current) < U64_LIMIT
            && |ByteDigits(current)| == Width(Bytes(current))))
  }

  /** All offsets an actor stores have the shape of stream offsets. */
  ghost predicate FormOk(t: Tables) {
    t.meta.Some? ==>
      && Reaches(InitialOffset(t.meta.value), t.meta.value.currentOffset)
      && (forall e :: e in t.edges ==> InStream(t.edges[e]))
  }

  /** The initial offset has digits enough, and all that was appended to has the same number of them. */
  predicate InStep(initial: string, current: string) {
    || current == initial
    || (&& InStream(initial) && InStream(current)
        && Width(Bytes(initial) + 6) == |ByteDigits(current)| <= |ByteDigits(initial)|)
  }

  /**
   A stream whose offsets sort. Every stream that is not a fork is regular below 10^16
   bytes, and every fork until its first append.
   */
  predicate Regular(t: Tables) {
    t.meta.Some? && InStep(InitialOffset(t.meta.value), t.meta.value.currentOffset)
  }

  /** What holds of every stored log. */
  ghost predicate LogOk(t: Tables) {
    FormOk(t) && (Regular(t) ==> OwnLogOk(t.meta.value, t.messages) && EdgesOk(t))
  }

  lemma ZeroIsWide()
    ensures Wide(ZERO_OFFSET) && Bytes(ZERO_OFFSET) == 0
  {
    InStreamOf(Zeros(16));
    assert Zeros(16) == Zeros(16) + "";
    ValueOfZeroPadded(16, "");
  }

  lemma NewLogOk(m: Meta)
    requires InStream(InitialOffset(m)) && m.currentOffset == InitialOffset(m)
    ensures OwnLogOk(m, [])
  {
    StrictOrder();
  }

  /** A row above the whole table goes to its end. */
  lemma InsertAtEnd(rows: seq<Message>, m: Message, current: string)
    requires AllAtMost(rows, current) && Less(current, m.offset)
    ensures InsertRow(rows, m) == rows + [m]
    ensures !exists r :: r in rows && r.offset == m.offset
  {
    StrictOrder();
    if rows != [] {
      assert rows[|rows| - 1] in rows;
    }
  }

  /** One more append to a stream in step leaves room for itself. */
  lemma InStepBefore(initial: string, current: string, next: string, b: nat, u: nat, v: nat)
    requires Reaches(initial, current) && InStream(next) && InStep(initial, next)
    requires Bytes(initial) == b && Bytes(current) == u && Bytes(next) == v && u + 6 <= v < U64_LIMIT
    requires |ByteDigits(next)| == Width(v)
    ensures InStep(initial, current) && Reaches(initial, next) && Width(v) <= |ByteDigits(current)|
  {
    if current != initial {
      WidthMonotone(b + 6, u);
      WidthMonotone(u, v);
    }
  }

  lemma ReachesOn(initial: string, current: string, next: string, u: nat, v: nat)
    requires Reaches(initial, current) && InStream(next) && |ByteDigits(next)| == Width(v)
    requires Bytes(current) == u && Bytes(next) == v && u + 6 <= v < U64_LIMIT
    ensures Reaches(initial, next)
  {}

  /** A stream that is regular after an append was regular before it. */
  lemma RegularBefore(t: Tables, payload: Blob)
    requires t.meta.Some? && FormOk(t) && payload != [] && AppendMessage(t, payload).Some?
    requires Regular(AppendMessage(t, payload).value)
    ensures var current := t.meta.value.currentOffset; var v := Bytes(current) + 5 + |payload|;
            Regular(t) && v < U64_LIMIT && Width(v) <= |ByteDigits(current)|
  {
    var current := t.meta.value.currentOffset;
    InStepBeforeAppend(InitialOffset(t.meta.value), current, Bytes(current), |payload|, Bytes(current) + 5 + |payload|);
  }

  lemma InStepBeforeAppend(initial: string, current: string, u: nat, n: nat, v: nat)
    requires Reaches(initial, current) && Bytes(current) == u && n >= 1 && v == u + 5 + n
    requires AdvanceOffset(current, n).Some? && InStep(initial, AdvanceOffset(current, n).value)
    ensures InStep(initial, current) && v < U64_LIMIT && Width(v) <= |ByteDigits(current)|
  {
    AdvanceForm(current, u, n, v);
    InStepBefore(initial, current, AdvanceOffset(current, n).value, Bytes(initial), u, v);
  }

  /** What an append does to a stream that stays regular. */
  lemma AppendGrows(t: Tables, payload: Blob)
    requires t.meta.Some? && LogOk(t) && payload != [] && AppendMessage(t, payload).Some?
    requires Regular(AppendMessage(t, payload).value)
    ensures Regular(t)
    ensures var u := AppendMessage(t, payload).value; var next := u.meta.value.currentOffset;
            && u.messages == t.messages + [Message(next, payload)]
            && Less(t.meta.value.currentOffset, next)
            && Wide(next) && Bytes(next) == Bytes(t.meta.value.currentOffset) + 5 + |payload|
            && OwnLogOk(u.meta.value, u.messages) && EdgesOk(u)
  {
    var m, next := t.meta.value, AppendMessage(t, payload).value.meta.value.currentOffset;
    NextOffset(t, payload);
    InsertAtEnd(t.messages, Message(next, payload), m.currentOffset);
    GrownLogOk(m, t.messages, payload, next);
    assert EdgesOk(AppendMessage(t, payload).value) by { StrictOrder(); }
  }

  /** The offset of an append to a stream that stays regular. */
  lemma NextOffset(t: Tables, payload: Blob)
    requires t.meta.Some? && FormOk(t) && payload != [] && AppendMessage(t, payload).Some?
    requires Regular(AppendMessage(t, payload).value)
    ensures var current, next := t.meta.value.currentOffset, AppendMessage(t, payload).value.meta.value.currentOffset;
            Regular(t) && Less(current, next) && Wide(next) && Bytes(next) == Bytes(current) + 5 + |payload|
  {
    var current := t.meta.value.currentOffset;
    RegularBefore(t, payload);
    AdvanceSortsAfter(current, |payload|);
    AdvanceForm(current, Bytes(current), |payload|, Bytes(current) + 5 + |payload|);
  }

  lemma AppendLogOk(t: Tables, payload: Blob)
    requires t.meta.Some? && LogOk(t) && payload != [] && AppendMessage(t, payload).Some?
    ensures LogOk(AppendMessage(t, payload).value)
  {
    AppendFormOk(t, payload);
    if Regular(AppendMessage(t, payload).value) {
      AppendGrows(t, payload);
    }
  }

  lemma AppendFormOk(t: Tables, payload: Blob)
    requires t.meta.Some? && FormOk(t) && payload != [] && AppendMessage(t, payload).Some?
    ensures FormOk(AppendMessage(t, payload).value)
  {
    var current := t.meta.value.currentOffset;
    var u := Bytes(current);
    AdvanceForm(current, u, |payload|, u + 5 + |payload|);
    ReachesOn(InitialOffset(t.meta.value), current, AdvanceOffset(current, |payload|).value, u, u + 5 + |payload|);
  }

  lemma GrownLogOk(m: Meta, log: seq<Message>, payload: Blob, next: string)
    requires OwnLogOk(m, log) && payload != [] && Less(m.currentOffset, next)
    requires InStream(next) && Bytes(next) == Bytes(m.currentOffset) + 5 + |payload|
    ensures OwnLogOk(m.(currentOffset := next), log + [Message(next, payload)])
  {
    var grown := log + [Message(next, payload)];
    SortedConcat(log, [Message(next, payload)], m.currentOffset);
    assert grown[..|grown| - 1] == log;
    GrownBounds(InitialOffset(m), m.currentOffset, log, payload, next);
  }

  lemma GrownBounds(initial: string, current: string, log: seq<Message>, payload: Blob, next: string)
    requires AllAbove(log, initial) && AllAtMost(log, current) && AtMost(initial, current) && Less(current, next)
    ensures AllAbove(log + [Message(next, payload)], initial) && AllAtMost(log + [Message(next, payload)], next)
    ensures AtMost(initial, next)
  {
    StrictOrder();
  }
}
