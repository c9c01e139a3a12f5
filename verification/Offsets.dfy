/**
 Stream offsets are strings `<read_seq>_<byte_offset>`, compared byte by byte
 both in Rust and in SQL. This module models the comparison, the parsing and the
 zero-padded formatting, and proves when string order is numeric order.
 */
module Offsets {
  import opened Options

  /** Every offset a stream can reach starts with this read sequence. */
  const SEQ_PREFIX := Zeros(16) + "_"
  const ZERO_OFFSET := SEQ_PREFIX + Zeros(16)
  const U64_LIMIT: nat := 0x1_0000_0000_0000_0000
  const PADDED_LIMIT: nat := 10_000_000_000_000_000

  // ---------------------------------------------------------------- order

  /** Byte-wise string comparison `a < b`. */
  predicate Less(a: string, b: string) {
    b != [] && (a == [] || a[0] < b[0] || (a[0] == b[0] && Less(a[1..], b[1..])))
  }

  predicate AtMost(a: string, b: string) { !Less(b, a) }

  lemma {:induction false} LessTransitive(a: string, b: string, c: string)
    requires Less(a, b) && Less(b, c)
    ensures Less(a, c)
  {
    if a != [] && a[0] == b[0] && b[0] == c[0] {
      LessTransitive(a[1..], b[1..], c[1..]);
    }
  }

  lemma {:induction false} LessTotal(a: string, b: string)
    ensures Less(a, b) || Less(b, a) || a == b
    ensures !(Less(a, b) && Less(b, a))
    ensures !Less(a, a)
  {
    if a != [] {
      LessTotal(a[1..], a[1..]);
    }
    if a != [] && b != [] && a[0] == b[0] {
      LessTotal(a[1..], b[1..]);
      assert a == [a[0]] + a[1..] && b == [b[0]] + b[1..];
    }
  }

  /** The order axioms in one place, for proofs about sorted tables. */
  lemma StrictOrder()
    ensures forall a, b, c {:trigger Less(a, b), Less(b, c)} :: Less(a, b) && Less(b, c) ==> Less(a, c)
    ensures forall a, b {:trigger Less(a, b)} :: !(Less(a, b) && Less(b, a))
    ensures forall a, b {:trigger Less(a, b)} :: Less(a, b) || Less(b, a) || a == b
    ensures forall a :: !Less(a, a)
    ensures forall a, b, c {:trigger Less(a, b), Less(c, b)} :: Less(a, b) && AtMost(c, a) ==> Less(c, b)
    ensures forall a, b, c {:trigger Less(a, b), Less(a, c)} :: Less(a, b) && AtMost(b, c) ==> Less(a, c)
  {
    forall a, b ensures !(Less(a, b) && Less(b, a)) && (Less(a, b) || Less(b, a) || a == b) && !Less(a, a) {
      LessTotal(a, b);
    }
    forall a, b, c | Less(a, b) && Less(b, c) ensures Less(a, c) { LessTransitive(a, b, c); }
  }

  lemma {:induction false} LessUnderPrefix(p: string, a: string, b: string)
    ensures Less(p + a, p + b) <==> Less(a, b)
  {
    if p == [] {
      assert p + a == a && p + b == b;
    } else {
      assert (p + a)[1..] == p[1..] + a && (p + b)[1..] == p[1..] + b;
      LessUnderPrefix(p[1..], a, b);
    }
  }

  /** A string between two strings with a common prefix has that prefix too. */
  lemma {:induction false} BetweenSharesPrefix(p: string, a: string, f: string, b: string)
    requires AtMost(p + a, f) && AtMost(f, p + b)
    ensures |f| >= |p| && f[..|p|] == p
    ensures AtMost(a, f[|p|..]) && AtMost(f[|p|..], b)
  {
    if p == [] {
      assert p + a == a && p + b == b && f[0..] == f;
    } else {
      assert (p + a)[0] == p[0] && (p + b)[0] == p[0];
      assert (p + a)[1..] == p[1..] + a && (p + b)[1..] == p[1..] + b;
      BetweenSharesPrefix(p[1..], a, f[1..], b);
      assert f[1..][|p| - 1..] == f[|p|..];
      assert f[..|p|] == [f[0]] + f[1..][..|p| - 1];
    }
  }

  // ---------------------------------------------------------------- digits

  predicate IsDigit(c: char) { '0' <= c <= '9' }

  predicate AllDigits(s: string) { forall i :: 0 <= i < |s| ==> IsDigit(s[i]) }

  function DigitValue(c: char): nat
    requires IsDigit(c)
  {
    c as nat - '0' as nat
  }

  function Digit(n: nat): (c: char)
    requires n < 10
    ensures IsDigit(c) && DigitValue(c) == n
  {
    '0' + n as char
  }

  function Pow10(n: nat): (r: nat)
    ensures r >= 1
  {
    if n == 0 then 1 else 10 * Pow10(n - 1)
  }

  function Value(s: string): (v: nat)
    requires AllDigits(s)
    ensures v < Pow10(|s|)
  {
    if s == [] then 0 else 10 * Value(s[..|s| - 1]) + DigitValue(s[|s| - 1])
  }

  /** How many digits a number has. */
  function Digits(n: nat): (r: nat)
    ensures r >= 1
  {
    if n < 10 then 1 else 1 + Digits(n / 10)
  }

  function Decimal(n: nat): (s: string)
    ensures AllDigits(s) && |s| == Digits(n) && Value(s) == n
    ensures n > 0 ==> s[0] != '0'
  {
    if n < 10 then [Digit(n)] else Decimal(n / 10) + [Digit(n % 10)]
  }

  function Zeros(n: nat): (s: string)
    ensures |s| == n && AllDigits(s)
    ensures forall i :: 0 <= i < n ==> s[i] == '0'
  {
    seq(n, _ => '0')
  }

  /** Rust's `{n:016}`. */
  function Padded(n: nat): string {
    var d := Decimal(n);
    if |d| < 16 then Zeros(16 - |d|) + d else d
  }

  lemma {:induction false} ValueOfLeading(s: string)
    requires AllDigits(s) && s != []
    ensures AllDigits(s[1..])
    ensures Value(s) == DigitValue(s[0]) * Pow10(|s| - 1) + Value(s[1..])
  {
    if |s| > 1 {
      var front, rest := s[..|s| - 1], s[1..];
      ValueOfLeading(front);
      assert rest[..|rest| - 1] == front[1..];
      TenTimesSum(DigitValue(s[0]), Pow10(|s| - 2), Value(front[1..]));
    } else {
      assert s[..0] == [] && s[1..] == [];
      assert Pow10(0) == 1;
    }
  }

  lemma TenTimesSum(d: nat, p: nat, v: nat)
    ensures 10 * (d * p + v) == d * (10 * p) + 10 * v
  {
    assert 10 * (d * p) == d * (10 * p);
  }

  lemma {:induction false} ValueOfZeroPadded(k: nat, s: string)
    requires AllDigits(s)
    ensures AllDigits(Zeros(k) + s) && Value(Zeros(k) + s) == Value(s)
  {
    if k == 0 {
      assert Zeros(0) + s == s;
    } else {
      var t := Zeros(k) + s;
      ValueOfLeading(t);
      assert t[1..] == Zeros(k - 1) + s;
      ValueOfZeroPadded(k - 1, s);
    }
  }

  /** Digit strings of equal length: string order is numeric order. */
  lemma {:induction false} EqualWidthOrder(a: string, b: string)
    requires AllDigits(a) && AllDigits(b) && |a| == |b|
    ensures Less(a, b) <==> Value(a) < Value(b)
    ensures Value(a) == Value(b) ==> a == b
  {
    if a != [] {
      ValueOfLeading(a);
      ValueOfLeading(b);
      EqualWidthOrder(a[1..], b[1..]);
      var x, y, p := DigitValue(a[0]), DigitValue(b[0]), Pow10(|a| - 1);
      LeadingDigitDecides(x, y, p, Value(a[1..]), Value(b[1..]));
      if x == y {
        assert a == [a[0]] + a[1..] && b == [b[0]] + b[1..];
      }
    }
  }

  lemma LeadingDigitDecides(x: nat, y: nat, p: nat, v: nat, w: nat)
    requires v < p && w < p
    ensures x < y ==> x * p + v < y * p + w
    ensures y < x ==> y * p + w < x * p + v
  {
    if x < y {
      assert (x + 1) * p <= y * p;
    } else if y < x {
      assert (y + 1) * p <= x * p;
    }
  }

  lemma {:induction false} DigitsIff(n: nat, w: nat)
    requires w >= 1
    ensures Digits(n) <= w <==> n < Pow10(w)
  {
    if n < 10 {
      assert Pow10(w) >= 10 by { assert Pow10(w) == 10 * Pow10(w - 1); }
    } else if w == 1 {
      assert Pow10(1) == 10 * Pow10(0);
    } else {
      DigitsIff(n / 10, w - 1);
    }
  }

  lemma Pow10Of16()
    ensures Pow10(15) == 1_000_000_000_000_000 && Pow10(16) == PADDED_LIMIT
  {
    assert Pow10(4) == 10_000;
    assert Pow10(8) == 100_000_000;
    assert Pow10(12) == 1_000_000_000_000;
  }

  /** How many digits formatting produces. */
  function Width(n: nat): nat { if Digits(n) < 16 then 16 else Digits(n) }

  lemma PaddedShape(n: nat)
    ensures AllDigits(Padded(n)) && Value(Padded(n)) == n
    ensures |Padded(n)| == Width(n) >= 16
    ensures Width(n) == 16 <==> n < PADDED_LIMIT
  {
    Pow10Of16();
    DigitsIff(n, 16);
    var d := Decimal(n);
    if |d| < 16 {
      ValueOfZeroPadded(16 - |d|, d);
    }
  }

  lemma WidthIff(n: nat, w: nat)
    requires w >= 16
    ensures Width(n) <= w <==> n < Pow10(w)
  {
    DigitsIff(n, w);
    if Digits(n) < 16 {
      DigitsIff(n, 16);
      Pow10Monotone(16, w);
    }
  }

  lemma WidthMonotone(a: nat, b: nat)
    requires a <= b
    ensures 16 <= Width(a) <= Width(b)
  {
    WidthIff(b, Width(b));
    WidthIff(a, Width(b));
  }

  lemma {:induction false} Pow10Monotone(a: nat, b: nat)
    requires a <= b
    ensures Pow10(a) <= Pow10(b)
    decreases b
  {
    if a < b {
      Pow10Monotone(a, b - 1);
    }
  }

  /** Below 10^16 the padded string order is the numeric order, in both directions. */
  lemma PaddedOrder(a: nat, b: nat)
    requires a < PADDED_LIMIT && b < PADDED_LIMIT
    ensures Less(Padded(a), Padded(b)) <==> a < b
  {
    PaddedShape(a);
    PaddedShape(b);
    EqualWidthOrder(Padded(a), Padded(b));
  }

  // ---------------------------------------------------------------- offsets

  function Find(s: string, c: char): (i: nat)
    ensures i <= |s|
    ensures i < |s| ==> s[i] == c
    ensures forall j :: 0 <= j < i ==> s[j] != c
  {
    if s == [] || s[0] == c then 0 else 1 + Find(s[1..], c)
  }

  /** Rust's `split_once('_')`. */
  function SplitOnce(s: string): Option<(string, string)> {
    var i := Find(s, '_');
    if i < |s| then Some((s[..i], s[i + 1..])) else None
  }

  predicate IsConcrete(s: string) {
    match SplitOnce(s)
    case None => false
    case Some((readSeq, bytes)) => readSeq != [] && bytes != [] && AllDigits(readSeq) && AllDigits(bytes)
  }

  /** `str::parse::<u64>` on strings without a sign. */
  function ParseU64(s: string): Option<nat> {
    if s != [] && AllDigits(s) && Value(s) < U64_LIMIT then Some(Value(s)) else None
  }

  function FormatOffset(readSeq: nat, bytes: nat): string { Padded(readSeq) + "_" + Padded(bytes) }

  function AdvanceOffset(current: string, payloadLen: nat): Option<string> {
    match SplitOnce(current)
    case None => None
    case Some((readSeq, bytes)) =>
      match (ParseU64(readSeq), ParseU64(bytes))
      case (Some(r), Some(b)) =>
        if b + 5 + payloadLen < U64_LIMIT then Some(FormatOffset(r, b + 5 + payloadLen)) else None
      case _ => None
  }

  /** Offsets with the common read sequence, whatever the width of the byte part. */
  predicate InStream(s: string) {
    |s| > 17 && s[..17] == SEQ_PREFIX && AllDigits(s[17..])
  }

  function ByteDigits(s: string): string
    requires InStream(s)
  {
    s[17..]
  }

  function Bytes(s: string): nat
    requires InStream(s)
  {
    Value(ByteDigits(s))
  }

  /** At least the sixteen digits that formatting produces. */
  predicate Wide(s: string) { InStream(s) && |ByteDigits(s)| >= 16 }

  lemma InStreamParts(s: string)
    requires InStream(s)
    ensures SplitOnce(s) == Some((Zeros(16), ByteDigits(s)))
    ensures ParseU64(Zeros(16)) == Some(0)
    ensures s == SEQ_PREFIX + ByteDigits(s)
    ensures IsConcrete(s)
  {
    SplitAtPrefix(s);
    assert Zeros(16) == Zeros(16) + "";
    ValueOfZeroPadded(16, "");
  }

  lemma SplitAtPrefix(s: string)
    requires |s| >= 17 && s[..17] == SEQ_PREFIX
    ensures SplitOnce(s) == Some((Zeros(16), s[17..]))
  {
    assert s[16] == s[..17][16] == '_';
    assert forall j :: 0 <= j < 16 ==> s[j] == s[..17][j] == '0';
    assert Find(s, '_') == 16;
    assert s[..16] == Zeros(16);
  }

  /** What one append does to an offset of the stream. */
  lemma AdvanceInStream(s: string, n: nat)
    requires InStream(s) && Bytes(s) + 5 + n < U64_LIMIT
    ensures AdvanceOffset(s, n) == Some(SEQ_PREFIX + Padded(Bytes(s) + 5 + n))
    ensures var r := AdvanceOffset(s, n).value; Wide(r) && Bytes(r) == Bytes(s) + 5 + n
  {
    AdvanceParsed(s, n);
    FormattedInStream(Bytes(s) + 5 + n);
  }

  lemma FormattedInStream(n: nat)
    ensures var r := FormatOffset(0, n);
            r == SEQ_PREFIX + Padded(n) && Wide(r) && ByteDigits(r) == Padded(n) && Bytes(r) == n
  {
    var d := Padded(n);
    PaddedShape(n);
    ZeroReadSeq();
    InStreamOf(d);
    assert (Padded(0) + "_") + d == Padded(0) + "_" + d;
  }

  /** An append that succeeds adds 5 and the payload length, without overflow. */
  lemma AdvanceForm(s: string, b: nat, n: nat, v: nat)
    requires InStream(s) && Bytes(s) == b && v == b + 5 + n && AdvanceOffset(s, n).Some?
    ensures v < U64_LIMIT && AdvanceOffset(s, n).value == SEQ_PREFIX + Padded(v)
    ensures var r := AdvanceOffset(s, n).value; Wide(r) && Bytes(r) == v && |ByteDigits(r)| == Width(v)
  {
    NoOverflow(s, b, n);
    AdvanceKnown(s, b, n, v);
    FormattedInStream(v);
    PaddedShape(v);
  }

  lemma NoOverflow(s: string, b: nat, n: nat)
    requires InStream(s) && Bytes(s) == b && AdvanceOffset(s, n).Some?
    ensures b + 5 + n < U64_LIMIT
  {
    InStreamParts(s);
  }

  lemma AdvanceKnown(s: string, b: nat, n: nat, v: nat)
    requires InStream(s) && Bytes(s) == b && v == b + 5 + n < U64_LIMIT
    ensures AdvanceOffset(s, n) == Some(FormatOffset(0, v))
  {
    AdvanceParsed(s, n);
  }

  lemma AdvanceParsed(s: string, n: nat)
    requires InStream(s) && Bytes(s) + 5 + n < U64_LIMIT
    ensures AdvanceOffset(s, n) == Some(FormatOffset(0, Bytes(s) + 5 + n))
  {
    InStreamParts(s);
    AdvanceSplit(s, Zeros(16), ByteDigits(s), 0, Bytes(s), n);
  }

  lemma AdvanceSplit(s: string, readSeq: string, bytes: string, r: nat, b: nat, n: nat)
    requires SplitOnce(s) == Some((readSeq, bytes)) && ParseU64(readSeq) == Some(r) && ParseU64(bytes) == Some(b)
    requires b + 5 + n < U64_LIMIT
    ensures AdvanceOffset(s, n) == Some(FormatOffset(r, b + 5 + n))
  {}

  lemma ZeroReadSeq()
    ensures Padded(0) + "_" == SEQ_PREFIX
    ensures ZERO_OFFSET == FormatOffset(0, 0)
  {
    assert Decimal(0) == "0";
    assert Padded(0) == Zeros(16);
  }

  /** Different strings of one width decide the order, whatever follows them. */
  lemma {:induction false} WidthDecides(a: string, b: string, x: string, y: string)
    requires |a| == |b| && a != b
    ensures Less(a + x, b + y) <==> Less(a, b)
  {
    if a[0] == b[0] {
      assert a == [a[0]] + a[1..] && b == [b[0]] + b[1..];
      assert (a + x)[1..] == a[1..] + x && (b + y)[1..] == b[1..] + y;
      WidthDecides(a[1..], b[1..], x, y);
    }
  }

  /** Offsets sort as pairs of numbers while both components stay below 10^16. */
  lemma FormattedOrder(r: nat, b: nat, s: nat, c: nat)
    requires r < PADDED_LIMIT && b < PADDED_LIMIT && s < PADDED_LIMIT && c < PADDED_LIMIT
    ensures Less(FormatOffset(r, b), FormatOffset(s, c)) <==> r < s || (r == s && b < c)
  {
    if r == s {
      LessUnderPrefix(Padded(r) + "_", Padded(b), Padded(c));
      PaddedOrder(b, c);
    } else {
      ReadSeqDecides(Padded(r), Padded(b), Padded(s), Padded(c)) by {
        PaddedDiffers(r, s);
      }
      PaddedOrder(r, s);
    }
  }

  lemma ReadSeqDecides(p: string, x: string, q: string, y: string)
    requires |p| == |q| && p != q
    ensures Less((p + "_") + x, (q + "_") + y) <==> Less(p, q)
  {
    assert (p + "_") + x == p + ("_" + x) && (q + "_") + y == q + ("_" + y);
    WidthDecides(p, q, "_" + x, "_" + y);
  }

  lemma PaddedDiffers(r: nat, s: nat)
    requires r < PADDED_LIMIT && s < PADDED_LIMIT && r != s
    ensures |Padded(r)| == |Padded(s)| && Padded(r) != Padded(s)
  {
    PaddedShape(r);
    PaddedShape(s);
  }

  lemma InStreamOf(d: string)
    requires AllDigits(d) && d != []
    ensures InStream(SEQ_PREFIX + d) && ByteDigits(SEQ_PREFIX + d) == d
  {
    var r := SEQ_PREFIX + d;
    assert r[..17] == SEQ_PREFIX && r[17..] == d;
  }

  /** An append sorts after the offset it starts from if it needs no more digits than that one has. */
  lemma AdvanceSortsAfter(s: string, n: nat)
    requires InStream(s) && Bytes(s) + 5 + n < U64_LIMIT && Width(Bytes(s) + 5 + n) <= |ByteDigits(s)|
    ensures var r := AdvanceOffset(s, n); r.Some? && InStream(r.value) && Less(s, r.value)
  {
    var next := Bytes(s) + 5 + n;
    SortsBefore(s, next);
    AdvanceInStream(s, n);
  }

  lemma SortsBefore(s: string, next: nat)
    requires InStream(s) && Bytes(s) < next && Width(next) <= |ByteDigits(s)|
    ensures Less(s, SEQ_PREFIX + Padded(next))
  {
    var d := ByteDigits(s);
    assert s == SEQ_PREFIX + d;
    LargerDigitsSortAfter(d, next);
    LessUnderPrefix(SEQ_PREFIX, d, Padded(next));
  }

  lemma LargerDigitsSortAfter(d: string, n: nat)
    requires AllDigits(d) && Width(n) <= |d| && Value(d) < n
    ensures Less(d, Padded(n))
  {
    PaddedShape(n);
    HeadDecides(d, Padded(n));
  }

  lemma HeadDecides(d: string, e: string)
    requires AllDigits(d) && AllDigits(e) && |e| <= |d| && Value(d) < Value(e)
    ensures Less(d, e)
  {
    var head, tail := d[..|e|], d[|e|..];
    assert d == head + tail;
    HeadAtMostValue(head, tail);
    EqualWidthOrder(head, e);
    LessExtends(head, e, tail);
  }

  lemma {:induction false} HeadAtMostValue(head: string, tail: string)
    requires AllDigits(head) && AllDigits(tail)
    ensures AllDigits(head + tail) && Value(head) <= Value(head + tail)
    decreases |tail|
  {
    if tail == [] {
      assert head + tail == head;
    } else {
      var t := tail[..|tail| - 1];
      HeadAtMostValue(head, t);
      assert (head + tail)[..|head + tail| - 1] == head + t;
    }
  }

  lemma {:induction false} LessExtends(a: string, b: string, tail: string)
    requires |a| == |b| && Less(a, b)
    ensures Less(a + tail, b)
  {
    assert (a + tail)[1..] == a[1..] + tail;
    if a[0] == b[0] {
      LessExtends(a[1..], b[1..], tail);
    }
  }

  // ------------------------------------------------- accepted fork offsets

  /** The check `fork_acquire` makes on a requested fork offset. */
  predicate AcceptsForkOffset(f: string, current: string) {
    IsConcrete(f) && !Less(f, ZERO_OFFSET) && !Less(current, f)
  }

  lemma AcceptedIsInStream(f: string, current: string)
    requires InStream(current) && AcceptsForkOffset(f, current)
    ensures InStream(f) && AtMost(Zeros(16), ByteDigits(f))
  {
    InStreamParts(current);
    BetweenSharesPrefix(SEQ_PREFIX, Zeros(16), f, ByteDigits(current));
    SplitAtPrefix(f);
  }

  /** A shorter digit string that is not below sixteen zeros has a nonzero digit. */
  lemma {:induction false} ShortIsPositive(d: string, k: nat)
    requires AllDigits(d) && |d| < k && AtMost(Zeros(k), d)
    ensures Value(d) >= 1
  {
    if d == [] {
      assert false;
    } else {
      ValueOfLeading(d);
      if d[0] == '0' {
        assert d == "0" + d[1..] && Zeros(k) == "0" + Zeros(k - 1);
        LessUnderPrefix("0", d[1..], Zeros(k - 1));
        ShortIsPositive(d[1..], k - 1);
      } else {
        PositiveProduct(DigitValue(d[0]), Pow10(|d| - 1));
      }
    }
  }

  lemma PositiveProduct(a: nat, b: nat)
    requires a >= 1 && b >= 1
    ensures a * b >= 1
  {
    assert a * b >= 1 * b;
  }

  /** Writing a zero after a digit string multiplies it by ten and sorts after it. */
  lemma {:induction false} ShortSortsAfter(d: string, e: string)
    requires AllDigits(d) && AllDigits(e) && |d| < |e|
    requires Value(e) < 10 * Value(d)
    ensures Less(e, d)
    decreases |e|
  {
    var front := e[..|e| - 1];
    assert Value(front) * 10 <= Value(e);
    assert e == front + [e[|e| - 1]];
    if |front| == |d| {
      EqualWidthOrder(front, d);
      LessExtends(front, d, [e[|e| - 1]]);
    } else {
      ShortSortsAfter(d, front);
      StillLess(front, d, [e[|e| - 1]]);
    }
  }

  lemma {:induction false} StillLess(a: string, b: string, tail: string)
    requires |b| <= |a| && Less(a, b)
    ensures Less(a + tail, b)
  {
    assert (a + tail)[1..] == a[1..] + tail;
    if a[0] == b[0] {
      StillLess(a[1..], b[1..], tail);
    }
  }

  /** Beyond 10^16 bytes the padding no longer keeps the order. */
  lemma OrderFailsAtSeventeenDigits()
    ensures Less(Padded(PADDED_LIMIT), Padded(PADDED_LIMIT - 1))
  {
    PaddedShape(PADDED_LIMIT);
    PaddedShape(PADDED_LIMIT - 1);
    ShortSortsAfter(Padded(PADDED_LIMIT - 1), Padded(PADDED_LIMIT));
  }
}
