/**
 Which of the fork offsets that a source accepts are safe to append to: when all
 appends of a fork succeed and sort after its fork offset and after each other.
 */
module ForkOffsets {
  import opened Options
  import opened Offsets
  import opened Tables
  import opened Logs

  // ------------------------------------------------------- trails of appends

  /** The offsets reached by appending payloads of these sizes, the start included. */
  function Trail(f: string, sizes: seq<nat>): (r: Option<seq<string>>)
    ensures r.Some? ==> |r.value| == |sizes| + 1
  {
    if sizes == [] then Some([f])
    else
      match Trail(f, sizes[..|sizes| - 1])
      case None => None
      case Some(t) =>
        match AdvanceOffset(t[|t| - 1], sizes[|sizes| - 1])
        case None => None
        case Some(next) => Some(t + [next])
  }

  predicate Ascending(t: seq<string>) { forall i, j :: 0 <= i < j < |t| ==> Less(t[i], t[j]) }

  /** All appends succeed, and each offset sorts after all before it. */
  predicate Sorts(f: string, sizes: seq<nat>) { Trail(f, sizes).Some? && Ascending(Trail(f, sizes).value) }

  /** What a list of appends adds to the byte offset. */
  function Total(sizes: seq<nat>): (r: nat)
    ensures r >= 5 * |sizes|
  {
    if sizes == [] then 0 else Total(sizes[..|sizes| - 1]) + 5 + sizes[|sizes| - 1]
  }

  /** Payloads as requests bring them, adding at most this much. */
  predicate Fits(sizes: seq<nat>, room: nat) {
    (forall n :: n in sizes ==> 1 <= n <= MAX_BODY_BYTES) && Total(sizes) <= room
  }

  /** Checked before the fork is made: how many digits its offset has, its value, and the bytes to come. */
  predicate Roomy(digits: nat, start: nat, room: nat) {
    && start + room < U64_LIMIT
    && Width(start + room) <= digits
    && (room < 12 || Width(start + 6) == Width(start + room))
  }

  predicate RoomFor(f: string, room: nat)
    requires InStream(f)
  {
    Roomy(|ByteDigits(f)|, Bytes(f), room)
  }

  /** The last offset of a trail says how much was added. */
  ghost predicate EndsAt(t: seq<string>, v: nat) {
    t != [] && var last := t[|t| - 1];
    && v < U64_LIMIT && last == SEQ_PREFIX + Padded(v)
    && InStream(last) && Bytes(last) == v && |ByteDigits(last)| == Width(v)
  }

  lemma {:induction false} TrailEnd(f: string, start: nat, sizes: seq<nat>, v: nat)
    requires InStream(f) && Bytes(f) == start && sizes != [] && Trail(f, sizes).Some? && v == start + Total(sizes)
    ensures EndsAt(Trail(f, sizes).value, v)
  {
    var front, n := sizes[..|sizes| - 1], sizes[|sizes| - 1];
    var t, u := Trail(f, front).value, start + Total(front);
    if front != [] {
      TrailEnd(f, start, front, u);
    }
    StepEnd(t, u, n, v);
  }

  lemma StepEnd(t: seq<string>, u: nat, n: nat, v: nat)
    requires t != [] && InStream(t[|t| - 1]) && Bytes(t[|t| - 1]) == u && v == u + 5 + n
    requires AdvanceOffset(t[|t| - 1], n).Some?
    ensures EndsAt(t + [AdvanceOffset(t[|t| - 1], n).value], v)
  {
    AdvanceForm(t[|t| - 1], u, n, v);
  }

  lemma {:induction false} TotalOfConcat(a: seq<nat>, b: seq<nat>)
    ensures Total(a + b) == Total(a) + Total(b)
  {
    if b == [] {
      assert a + b == a;
    } else {
      assert (a + b)[..|a + b| - 1] == a + b[..|b| - 1];
      TotalOfConcat(a, b[..|b| - 1]);
    }
  }

  /** A trail passes through the end of each shorter one. */
  lemma {:induction false} TrailPrefix(f: string, a: seq<nat>, b: seq<nat>)
    requires Trail(f, a + b).Some?
    ensures Trail(f, a).Some? && Trail(f, a).value == Trail(f, a + b).value[..|a| + 1]
  {
    if b == [] {
      assert a + b == a;
    } else {
      assert (a + b)[..|a + b| - 1] == a + b[..|b| - 1];
      TrailPrefix(f, a, b[..|b| - 1]);
    }
  }

  // ------------------------------------------------------- room is enough

  lemma FitsFront(sizes: seq<nat>, room: nat)
    requires sizes != [] && Fits(sizes, room)
    ensures Fits(sizes[..|sizes| - 1], room) && sizes[|sizes| - 1] >= 1 && Total(sizes) >= 6
  {
    assert sizes[|sizes| - 1] in sizes;
    var front := sizes[..|sizes| - 1];
    assert sizes == front + [sizes[|sizes| - 1]];
    assert forall n :: n in front ==> n in sizes;
    assert Total(sizes) == Total(front) + 5 + sizes[|sizes| - 1];
  }

  lemma {:induction false} RoomSorts(f: string, start: nat, sizes: seq<nat>, room: nat)
    requires InStream(f) && Bytes(f) == start && Roomy(|ByteDigits(f)|, start, room) && Fits(sizes, room)
    ensures Sorts(f, sizes)
  {
    if sizes != [] {
      var front, n := sizes[..|sizes| - 1], sizes[|sizes| - 1];
      FitsFront(sizes, room);
      RoomSorts(f, start, front, room);
      var u, v := start + Total(front), start + Total(sizes);
      NextHasRoom(f, start, front, u, v, room);
      OneMoreSorts(Trail(f, front).value, u, n, v);
    }
  }

  /** The next offset needs no more digits than the last one has. */
  lemma NextHasRoom(f: string, start: nat, front: seq<nat>, u: nat, v: nat, room: nat)
    requires InStream(f) && Bytes(f) == start && Roomy(|ByteDigits(f)|, start, room) && Trail(f, front).Some?
    requires Fits(front, room) && u == start + Total(front) && u + 6 <= v <= start + room
    ensures var t := Trail(f, front).value; var last := t[|t| - 1];
            InStream(last) && Bytes(last) == u && v < U64_LIMIT && Width(v) <= |ByteDigits(last)|
  {
    if front == [] {
      WidthMonotone(v, start + room);
    } else {
      TrailEnd(f, start, front, u);
      FitsFront(front, room);
      RoomLeft(|ByteDigits(f)|, start, u, v, room);
    }
  }

  lemma RoomLeft(digits: nat, start: nat, u: nat, v: nat, room: nat)
    requires Roomy(digits, start, room) && start + 6 <= u && u + 6 <= v <= start + room
    ensures v < U64_LIMIT && Width(v) == Width(u)
  {
    WidthsBetween(start + 6, u, v, start + room);
  }

  lemma OneMoreSorts(t: seq<string>, u: nat, n: nat, v: nat)
    requires t != [] && Ascending(t) && InStream(t[|t| - 1]) && Bytes(t[|t| - 1]) == u
    requires v == u + 5 + n < U64_LIMIT && Width(v) <= |ByteDigits(t[|t| - 1])|
    ensures var next := AdvanceOffset(t[|t| - 1], n); next.Some? && Ascending(t + [next.value])
  {
    AdvanceSortsAfter(t[|t| - 1], n);
    OneMoreAscends(t, AdvanceOffset(t[|t| - 1], n).value);
  }

  lemma WidthsBetween(a: nat, b: nat, c: nat, d: nat)
    requires a <= b <= c <= d && Width(a) == Width(d)
    ensures Width(b) == Width(c) == Width(d)
  {
    WidthMonotone(a, b);
    WidthMonotone(b, c);
    WidthMonotone(c, d);
  }

  lemma OneMoreAscends(t: seq<string>, next: string)
    requires t != [] && Ascending(t) && Less(t[|t| - 1], next)
    ensures Ascending(t + [next])
  {
    StrictOrder();
  }

  // ------------------------------------------------------ room is needed

  /** Any growth of at least six bytes can be made up of appends. */
  function FillTo(m: nat): (sizes: seq<nat>)
    requires m >= 6
    ensures sizes != [] && Fits(sizes, m) && Total(sizes) == m
    decreases m
  {
    if m <= 5 + MAX_BODY_BYTES then
      assert [m - 5][..0] == [];
      [m - 5]
    else
      var front := FillTo(m - 500_000);
      assert (front + [499_995])[..|front|] == front;
      front + [499_995]
  }

  /** A number with more digits than another one, but not ten times as large, sorts before it. */
  lemma MoreDigitsSortBefore(d: string, v: nat)
    requires AllDigits(d) && |d| < Width(v) && v < 10 * Value(d)
    ensures Less(Padded(v), d)
  {
    PaddedShape(v);
    ShortSortsAfter(d, Padded(v));
  }

  lemma NoRoomForAll(f: string, start: nat, room: nat)
    requires InStream(f) && Bytes(f) == start && room >= 6 && start + room >= U64_LIMIT
    ensures !Sorts(f, FillTo(room))
  {
    if Trail(f, FillTo(room)).Some? {
      TrailEnd(f, start, FillTo(room), start + room);
    }
  }

  /** Appends that end at a value with too many digits sort before the fork offset. */
  lemma EndSortsBefore(f: string, start: nat, sizes: seq<nat>, v: nat)
    requires InStream(f) && Bytes(f) == start && sizes != [] && v == start + Total(sizes) < 10 * start
    requires |ByteDigits(f)| < Width(v)
    ensures !Sorts(f, sizes)
  {
    if Trail(f, sizes).Some? {
      TrailEnd(f, start, sizes, v);
      StartOfTrail(f, sizes);
      assert f == SEQ_PREFIX + ByteDigits(f);
      WrongWayRound(Trail(f, sizes).value, 0, ByteDigits(f), start, v);
    }
  }

  lemma {:induction false} StartOfTrail(f: string, sizes: seq<nat>)
    requires Trail(f, sizes).Some?
    ensures Trail(f, sizes).value[0] == f
  {
    if sizes != [] {
      StartOfTrail(f, sizes[..|sizes| - 1]);
    }
  }

  lemma NotBoth(a: string, b: string, d: string, e: string)
    requires a == SEQ_PREFIX + d && b == SEQ_PREFIX + e && Less(e, d)
    ensures !Less(a, b)
  {
    LessUnderPrefix(SEQ_PREFIX, e, d);
    LessTotal(a, b);
  }

  /** Where the number of digits changes, some appends straddle the change and sort the wrong way round. */
  lemma StraddleSortsBefore(f: string, start: nat, a: seq<nat>, b: seq<nat>, v: nat, next: nat)
    requires InStream(f) && Bytes(f) == start && a != [] && b != []
    requires v == start + Total(a) && next == v + Total(b) && Width(v) < Width(next) && next < 10 * v
    ensures !Sorts(f, a + b)
  {
    TotalOfConcat(a, b);
    var sizes := a + b;
    if Trail(f, sizes).Some? {
      var t := Trail(f, sizes).value;
      TrailEnd(f, start, sizes, next);
      MiddleOfTrail(f, start, a, b, v);
      PaddedShape(v);
      WrongWayRound(t, |a|, Padded(v), v, next);
    }
  }

  lemma MiddleOfTrail(f: string, start: nat, a: seq<nat>, b: seq<nat>, v: nat)
    requires InStream(f) && Bytes(f) == start && a != [] && v == start + Total(a) && Trail(f, a + b).Some?
    ensures Trail(f, a + b).value[|a|] == SEQ_PREFIX + Padded(v)
  {
    TrailPrefix(f, a, b);
    TrailEnd(f, start, a, v);
  }

  lemma WrongWayRound(t: seq<string>, i: nat, d: string, v: nat, next: nat)
    requires i < |t| - 1 && t[i] == SEQ_PREFIX + d && t[|t| - 1] == SEQ_PREFIX + Padded(next)
    requires AllDigits(d) && Value(d) == v && |d| < Width(next) && next < 10 * v
    ensures !Ascending(t)
  {
    MoreDigitsSortBefore(d, next);
    NotBoth(t[i], t[|t| - 1], d, Padded(next));
  }

  /** The last value below a power of ten, and the first one at or above it, that two appends can reach. */
  lemma Straddle(low: nat, high: nat) returns (v: nat, next: nat)
    requires low + 6 <= high && Width(low) < Width(high)
    ensures low <= v && v + 6 <= next <= high
    ensures Width(v) < Width(next) && next < 10 * v
  {
    var w := Width(high) - 1;
    var p := Pow10(w);
    PaddedShape(low);
    WidthIff(high, w);
    WidthIff(low, w);
    Pow10Of16();
    Pow10Monotone(16, w);
    v := if high - 6 < p - 1 then high - 6 else p - 1;
    next := if p < v + 6 then v + 6 else p;
    WidthIff(v, w);
    WidthIff(next, w);
  }

  /** Unless there is room, some appends that fit fail or sort wrongly. */
  lemma NoRoomFails(f: string, start: nat, room: nat) returns (sizes: seq<nat>)
    requires InStream(f) && Bytes(f) == start && (|ByteDigits(f)| < 16 ==> start >= 1)
    requires room >= 6 && !Roomy(|ByteDigits(f)|, start, room)
    ensures Fits(sizes, room) && !Sorts(f, sizes)
  {
    if start + room >= U64_LIMIT {
      sizes := FillTo(room);
      NoRoomForAll(f, start, room);
    } else if room >= 12 && Width(start + 6) != Width(start + room) {
      WidthMonotone(start + 6, start + room);
      sizes := StraddlingFails(f, start, room);
    } else {
      var growth := GrowthThatFails(|ByteDigits(f)|, start, room);
      sizes := FillTo(growth);
      EndSortsBefore(f, start, sizes, start + growth);
    }
  }

  lemma StraddlingFails(f: string, start: nat, room: nat) returns (sizes: seq<nat>)
    requires InStream(f) && Bytes(f) == start && room >= 12 && Width(start + 6) < Width(start + room)
    ensures Fits(sizes, room) && !Sorts(f, sizes)
  {
    var v, next := Straddle(start + 6, start + room);
    var a, b := FillTo(v - start), FillTo(next - v);
    sizes := a + b;
    TotalOfConcat(a, b);
    StraddleSortsBefore(f, start, a, b, v, next);
  }

  lemma GrowthThatFails(digits: nat, start: nat, room: nat) returns (growth: nat)
    requires digits < Width(start + room) && (digits < 16 ==> start >= 1) && room >= 6
    requires room >= 12 ==> Width(start + 6) == Width(start + room)
    ensures 6 <= growth <= room && digits < Width(start + growth) && growth < 9 * start
  {
    growth := if digits < Width(start + 6) then 6 else room;
    WidthIff(start + growth, 16);
    Pow10Of16();
    WidthMonotone(start + 6, start + room);
  }

  /**
   All appends of a fork succeed and sort after its fork offset and after each other,
   however the bytes to come are cut into messages, if and only if the accepted fork
   offset has room for them: enough digits, and no more digits needed on the way.
   */
  lemma ForkAppendsSortIff(f: string, current: string, room: nat)
    requires InStream(current) && AcceptsForkOffset(f, current) && room >= 6
    ensures InStream(f)
    ensures (forall sizes :: Fits(sizes, room) ==> Sorts(f, sizes)) <==> RoomFor(f, room)
  {
    AcceptedIsInStream(f, current);
    if RoomFor(f, room) {
      forall sizes | Fits(sizes, room) ensures Sorts(f, sizes) { RoomSorts(f, Bytes(f), sizes, room); }
    } else {
      if |ByteDigits(f)| < 16 {
        ShortIsPositive(ByteDigits(f), 16);
      }
      var sizes := NoRoomFails(f, Bytes(f), room);
    }
  }

  /** A fork that has been appended to is regular as long as it keeps within the room its offset had. */
  lemma RegularMeansRoom(t: Tables)
    requires t.meta.Some? && FormOk(t) && t.meta.value.currentOffset != InitialOffset(t.meta.value)
    ensures var f, current := InitialOffset(t.meta.value), t.meta.value.currentOffset;
            && Bytes(f) + 6 <= Bytes(current)
            && (Regular(t) ==> RoomFor(f, Bytes(current) - Bytes(f)))
            && (forall room :: room >= 12 && Bytes(current) <= Bytes(f) + room && RoomFor(f, room) ==> Regular(t))
  {
    var f, current := InitialOffset(t.meta.value), t.meta.value.currentOffset;
    var start, v := Bytes(f), Bytes(current);
    forall room | room >= 12 && v <= start + room && Roomy(|ByteDigits(f)|, start, room) ensures Regular(t) {
      WidthsBetween(start + 6, v, v, start + room);
    }
  }

  // -------------------------------------------------------------- examples

  /** Fifteen byte digits: accepted by a stream of sixteen bytes, and the first append sorts below. */
  lemma ShortForkOffsetExample()
    ensures var f := SEQ_PREFIX + (Zeros(14) + "1");
            && AcceptsForkOffset(f, FormatOffset(0, 16))
            && AdvanceOffset(f, 1) == Some(FormatOffset(0, 7))
            && Less(FormatOffset(0, 7), f)
  {
    var d := Zeros(14) + "1";
    ShortDigitsOrder();
    OneOfFifteen();
    InStreamOf(d);
    InStreamParts(SEQ_PREFIX + d);
    AdvanceParsed(SEQ_PREFIX + d, 1);
    FormattedInStream(16);
    FormattedInStream(7);
    LessUnderPrefix(SEQ_PREFIX, d, Zeros(16));
    LessUnderPrefix(SEQ_PREFIX, Padded(16), d);
    LessUnderPrefix(SEQ_PREFIX, Padded(7), d);
  }

  lemma ShortDigitsOrder()
    ensures var d := Zeros(14) + "1";
            !Less(d, Zeros(16)) && !Less(Padded(16), d) && Less(Padded(7), d)
  {
    assert Decimal(16) == "16" && Decimal(7) == "7";
    assert Zeros(16) == Zeros(14) + "00" && Padded(7) == Zeros(14) + "07";
    LessUnderPrefix(Zeros(14), "1", "00");
    LessUnderPrefix(Zeros(14), "16", "1");
    LessUnderPrefix(Zeros(14), "07", "1");
    assert "16"[1..] == "6" && "1"[1..] == "";
  }

  lemma OneOfFifteen()
    ensures AllDigits(Zeros(14) + "1") && Value(Zeros(14) + "1") == 1
  {
    ValueOfZeroPadded(14, "1");
    assert "1"[..0] == "";
  }

  /** Any digits may follow sixteen zeros in a fork offset, whatever they add up to. */
  lemma ExtraDigitsAccepted(tail: string, c: nat)
    requires AllDigits(tail) && 1 <= c < PADDED_LIMIT
    ensures var f := SEQ_PREFIX + (Zeros(16) + tail);
            AcceptsForkOffset(f, FormatOffset(0, c)) && InStream(f) && ByteDigits(f) == Zeros(16) + tail
            && Bytes(f) == Value(tail)
  {
    var d := Zeros(16) + tail;
    InStreamOf(d);
    InStreamParts(SEQ_PREFIX + d);
    ValueOfZeroPadded(16, tail);
    FormattedInStream(c);
    ZeroReadSeq();
    PaddedShape(c);
    ExtraDigitsBetween(tail, Padded(c));
    LessUnderPrefix(SEQ_PREFIX, d, Zeros(16));
    LessUnderPrefix(SEQ_PREFIX, Padded(c), d);
  }

  lemma ExtraDigitsBetween(tail: string, c: string)
    requires AllDigits(tail) && AllDigits(c) && |c| == 16 && Value(c) >= 1
    ensures !Less(Zeros(16) + tail, Zeros(16)) && !Less(c, Zeros(16) + tail)
  {
    assert Zeros(16) == Zeros(16) + "";
    ValueOfZeroPadded(16, "");
    EqualWidthOrder(Zeros(16), c);
    LessExtends(Zeros(16), c, tail);
    LessTotal(c, Zeros(16) + tail);
    LessUnderPrefix(Zeros(16), tail, "");
  }

  /** Forty-six byte digits: the fork is accepted and holds nothing, and no append to it ever succeeds. */
  lemma UnappendableExample(c: nat)
    requires 1 <= c < PADDED_LIMIT
    ensures var f := SEQ_PREFIX + (Zeros(16) + ("1" + Zeros(29)));
            && AcceptsForkOffset(f, FormatOffset(0, c)) && Wide(f)
            && forall n: nat :: AdvanceOffset(f, n).None?
  {
    var tail := "1" + Zeros(29);
    ExtraDigitsAccepted(tail, c);
    LargeTail();
    TooLargeToAppend(SEQ_PREFIX + (Zeros(16) + tail), Value(tail));
  }

  lemma LargeTail()
    ensures AllDigits("1" + Zeros(29)) && Value("1" + Zeros(29)) >= U64_LIMIT
  {
    var tail := "1" + Zeros(29);
    ValueOfLeading(tail);
    Pow10Monotone(20, 29);
    Pow10Of20();
  }

  lemma TooLargeToAppend(f: string, v: nat)
    requires InStream(f) && Bytes(f) == v >= U64_LIMIT
    ensures forall n: nat :: AdvanceOffset(f, n).None?
  {
    forall n: nat ensures AdvanceOffset(f, n).None? {
      if AdvanceOffset(f, n).Some? {
        NoOverflow(f, v, n);
      }
    }
  }

  lemma Pow10Of20()
    ensures Pow10(20) == 100_000_000_000_000_000_000
  {
    Pow10Of16();
    assert Pow10(18) == 1_000_000_000_000_000_000;
  }

  const BELOW_A_POWER: nat := 99_999_999_999_999_990

  /** Two one-byte appends to a fork at an accepted offset with extra digits: the second sorts below the first. */
  lemma SecondAppendBelowFirstExample(c: nat)
    requires 1 <= c < PADDED_LIMIT
    ensures var f := SEQ_PREFIX + (Zeros(16) + Decimal(BELOW_A_POWER));
            var one, two := FormatOffset(0, BELOW_A_POWER + 6), FormatOffset(0, BELOW_A_POWER + 12);
            && AcceptsForkOffset(f, FormatOffset(0, c)) && Wide(f)
            && AdvanceOffset(f, 1) == Some(one) && AdvanceOffset(one, 1) == Some(two) && Less(two, one)
  {
    var f := SEQ_PREFIX + (Zeros(16) + Decimal(BELOW_A_POWER));
    ExtraDigitsAccepted(Decimal(BELOW_A_POWER), c);
    TwoWidths();
    TwoAppends(f, BELOW_A_POWER, BELOW_A_POWER + 6, BELOW_A_POWER + 12);
  }

  lemma TwoAppends(f: string, start: nat, v: nat, next: nat)
    requires InStream(f) && Bytes(f) == start && v == start + 6 && next == v + 6 < U64_LIMIT
    requires Less(Padded(next), Padded(v))
    ensures var one, two := FormatOffset(0, v), FormatOffset(0, next);
            AdvanceOffset(f, 1) == Some(one) && AdvanceOffset(one, 1) == Some(two) && Less(two, one)
  {
    AdvanceKnown(f, start, 1, v);
    FormattedInStream(v);
    AdvanceKnown(FormatOffset(0, v), v, 1, next);
    FormattedInStream(next);
    LessUnderPrefix(SEQ_PREFIX, Padded(next), Padded(v));
  }

  lemma TwoWidths()
    ensures Less(Padded(BELOW_A_POWER + 12), Padded(BELOW_A_POWER + 6))
  {
    Pow10Of16();
    assert Pow10(17) == 10 * Pow10(16);
    WidthIff(BELOW_A_POWER + 6, 17);
    WidthIff(BELOW_A_POWER + 12, 17);
    ShorterSortsAfter(BELOW_A_POWER + 6, BELOW_A_POWER + 12);
  }

  lemma ShorterSortsAfter(v: nat, next: nat)
    requires Width(v) < Width(next) && next < 10 * v
    ensures Less(Padded(next), Padded(v))
  {
    PaddedShape(v);
    MoreDigitsSortBefore(Padded(v), next);
  }
}
