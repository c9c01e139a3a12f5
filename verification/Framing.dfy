/**
 How stored messages become response bodies: JSON batches, plain concatenation and
 server-sent events. Values appear as their canonical serialisations; the JSON
 parser itself is a parameter with a stated law.
 */
module Framing {
  import opened Options
  import opened Tables

  // -------------------------------------------------------------------- JSON

  function Flatten<T>(parts: seq<seq<T>>): seq<T> {
    if parts == [] then [] else Flatten(parts[..|parts| - 1]) + parts[|parts| - 1]
  }

  /** Values separated by commas. */
  function CommaSeparated(values: seq<Blob>): Blob {
    if values == [] then [] else if |values| == 1 then values[0] else values[0] + [COMMA] + CommaSeparated(values[1..])
  }

  function ArrayOf(values: seq<Blob>): Blob { [OPEN] + CommaSeparated(values) + [CLOSE] }

  function StoredAll(groups: seq<seq<Blob>>): seq<Blob> {
    seq(|groups|, i requires 0 <= i < |groups| => Stored(groups[i]))
  }

  /** `process_json_append`. */
  method ProcessJson(body: JsonBody, initialCreate: bool) returns (r: Result<Blob, JsonError>)
    ensures r == ProcessJsonAppend(body, initialCreate)
  {
    var values;
    match body {
      case NotJson => return Err(InvalidJson);
      case JsonArray(vs) =>
        if vs == [] {
          return if initialCreate then Ok([]) else Err(EmptyArray);
        }
        values := vs;
      case JsonValue(v) => values := [v];
    }
    var output: Blob := [];
    for i := 0 to |values|
      invariant output + Stored(values[i..]) == Stored(values)
    {
      assert values[i..][1..] == values[i + 1..];
      output := output + values[i];
      output := output + [COMMA];
    }
    assert values[|values|..] == [];
    assert output == Stored(values);
    return Ok(output);
  }

  lemma {:induction false} StoredOfConcat(a: seq<Blob>, b: seq<Blob>)
    ensures Stored(a + b) == Stored(a) + Stored(b)
  {
    if a == [] {
      assert a + b == b;
    } else {
      assert (a + b)[1..] == a[1..] + b;
      StoredOfConcat(a[1..], b);
    }
  }

  /** Grouping does not show in the stored bytes. */
  lemma {:induction false} StoredFlat(groups: seq<seq<Blob>>)
    ensures Flatten(StoredAll(groups)) == Stored(Flatten(groups))
  {
    if groups != [] {
      var less, last := groups[..|groups| - 1], groups[|groups| - 1];
      assert StoredAll(groups)[..|groups| - 1] == StoredAll(less);
      StoredFlat(less);
      StoredOfConcat(Flatten(less), last);
    }
  }

  /** Stored values are the joined ones and a final comma. */
  lemma {:induction false} StoredIsJoined(values: seq<Blob>)
    requires values != []
    ensures Stored(values) == CommaSeparated(values) + [COMMA]
  {
    if |values| > 1 {
      StoredIsJoined(values[1..]);
    } else {
      assert values[1..] == [];
    }
  }

  function DropComma(bytes: Blob): Blob {
    if bytes != [] && bytes[|bytes| - 1] == COMMA then bytes[..|bytes| - 1] else bytes
  }

  /** The body for a batch of stored fragments, whatever they are. */
  function Formatted(messages: seq<Blob>): Blob { DropComma([OPEN] + Flatten(messages)) + [CLOSE] }

  /** `format_json_messages`. */
  method FormatJsonMessages(messages: seq<Blob>) returns (output: Blob)
    ensures output == Formatted(messages)
  {
    if messages == [] {
      assert [OPEN] + Flatten(messages) == [OPEN];
      return [OPEN, CLOSE];
    }
    output := [OPEN];
    for i := 0 to |messages|
      invariant output == [OPEN] + Flatten(messages[..i])
    {
      assert messages[..i + 1][..i] == messages[..i];
      output := output + messages[i];
    }
    assert messages[..|messages|] == messages;
    if output[|output| - 1] == COMMA {
      output := output[..|output| - 1];
    }
    output := output + [CLOSE];
  }

  /** Whatever the values and however they were grouped into appends, the body is one array of all of them in order. */
  lemma FormattedIsOneArray(groups: seq<seq<Blob>>)
    ensures Formatted(StoredAll(groups)) == ArrayOf(Flatten(groups))
  {
    StoredFlat(groups);
    var values := Flatten(groups);
    if values != [] {
      StoredIsJoined(values);
      var all := [OPEN] + Stored(values);
      assert all[|all| - 1] == COMMA && all[..|all| - 1] == [OPEN] + CommaSeparated(values);
    }
  }

  /** `concatenate`. */
  method Concatenate(messages: seq<Blob>) returns (output: Blob)
    ensures output == Flatten(messages)
  {
    output := [];
    for i := 0 to |messages|
      invariant output == Flatten(messages[..i])
    {
      assert messages[..i + 1][..i] == messages[..i];
      output := output + messages[i];
    }
    assert messages[..|messages|] == messages;
  }

  /** A JSON parser, as far as it matters here: an array of canonical serialisations parses to them. */
  ghost predicate ParsesArrays(parse: Blob -> Option<seq<Blob>>, canonical: Blob -> bool) {
    forall values :: (forall v :: v in values ==> canonical(v)) ==> parse(ArrayOf(values)) == Some(values)
  }

  /** Reading back any batch of JSON appends yields all their values in order. */
  lemma JsonRoundTrip(parse: Blob -> Option<seq<Blob>>, canonical: Blob -> bool, groups: seq<seq<Blob>>)
    requires ParsesArrays(parse, canonical)
    requires forall g, v :: g in groups && v in g ==> canonical(v)
    ensures parse(Formatted(StoredAll(groups))) == Some(Flatten(groups))
  {
    FormattedIsOneArray(groups);
    FlattenKeeps(groups, canonical);
  }

  lemma {:induction false} FlattenKeeps<T>(parts: seq<seq<T>>, ok: T -> bool)
    requires forall g, v :: g in parts && v in g ==> ok(v)
    ensures forall v :: v in Flatten(parts) ==> ok(v)
  {
    if parts != [] {
      FlattenKeeps(parts[..|parts| - 1], ok);
      assert parts[|parts| - 1] in parts;
    }
  }

  // --------------------------------------------------------------- line ends

  function ReplaceCrLf(s: string): string {
    if s == [] then []
    else if |s| > 1 && s[0] == '\r' && s[1] == '\n' then ['\n'] + ReplaceCrLf(s[2..])
    else [s[0]] + ReplaceCrLf(s[1..])
  }

  function ReplaceCr(s: string): string {
    if s == [] then [] else [if s[0] == '\r' then '\n' else s[0]] + ReplaceCr(s[1..])
  }

  /** Line ends as the encoder rewrites them. */
  function Normalised(s: string): (r: string)
  {
    ReplaceCr(ReplaceCrLf(s))
  }

  lemma {:induction false} NoCrLeft(s: string)
    ensures '\r' !in ReplaceCr(s)
  {
    if s != [] {
      NoCrLeft(s[1..]);
    }
  }

  lemma {:induction false} ReplaceCrIdle(s: string)
    requires '\r' !in s
    ensures ReplaceCr(s) == s && ReplaceCrLf(s) == s
  {
    if s != [] {
      assert s[0] in s;
      ReplaceCrIdle(s[1..]);
    }
  }

  /** Text survives unchanged exactly when it has no carriage return. */
  lemma UnchangedIffNoCr(s: string)
    ensures Normalised(s) == s <==> '\r' !in s
  {
    NoCrLeft(ReplaceCrLf(s));
    if '\r' !in s {
      ReplaceCrIdle(s);
    }
  }

  /** A carriage return and the line feed after it are one line end, wherever they stand. */
  lemma {:induction false} PairIsOneLineEnd(a: string, b: string)
    ensures Normalised(a + ['\r', '\n'] + b) == Normalised(a) + ['\n'] + Normalised(b)
  {
    PairReplaced(a, b);
    CrReplacedApart(ReplaceCrLf(a), ['\n'] + ReplaceCrLf(b));
    assert ReplaceCr(['\n'] + ReplaceCrLf(b)) == ['\n'] + ReplaceCr(ReplaceCrLf(b));
    assert ReplaceCrLf(a) + ['\n'] + ReplaceCrLf(b) == ReplaceCrLf(a) + (['\n'] + ReplaceCrLf(b));
  }

  lemma {:induction false} PairReplaced(a: string, b: string)
    ensures ReplaceCrLf(a + ['\r', '\n'] + b) == ReplaceCrLf(a) + ['\n'] + ReplaceCrLf(b)
    decreases |a|
  {
    var s := a + ['\r', '\n'] + b;
    if a == [] {
      assert s[2..] == b;
    } else if |a| > 1 && a[0] == '\r' && a[1] == '\n' {
      assert s[2..] == a[2..] + ['\r', '\n'] + b;
      PairReplaced(a[2..], b);
    } else {
      assert s[1..] == a[1..] + ['\r', '\n'] + b;
      PairReplaced(a[1..], b);
    }
  }

  lemma {:induction false} CrReplacedApart(a: string, b: string)
    ensures ReplaceCr(a + b) == ReplaceCr(a) + ReplaceCr(b)
  {
    if a == [] {
      assert a + b == b;
    } else {
      assert (a + b)[1..] == a[1..] + b;
      CrReplacedApart(a[1..], b);
    }
  }

  /** Anywhere else, a carriage return is a line end by itself, and every other character stays. */
  lemma OtherCharactersStay(a: string, c: char, b: string)
    requires a == [] || a[|a| - 1] != '\r' || c != '\n'
    requires c != '\r' || b == [] || b[0] != '\n'
    ensures Normalised(a + [c] + b) == Normalised(a) + [if c == '\r' then '\n' else c] + Normalised(b)
  {
    NoPairReplaced(a, c, b);
    CrReplacedApart(ReplaceCrLf(a), [c] + ReplaceCrLf(b));
    CrReplacedApart([c], ReplaceCrLf(b));
    assert ReplaceCr([c]) == [if c == '\r' then '\n' else c];
    assert ReplaceCrLf(a) + [c] + ReplaceCrLf(b) == ReplaceCrLf(a) + ([c] + ReplaceCrLf(b));
  }

  lemma {:induction false} NoPairReplaced(a: string, c: char, b: string)
    requires a == [] || a[|a| - 1] != '\r' || c != '\n'
    requires c != '\r' || b == [] || b[0] != '\n'
    ensures ReplaceCrLf(a + [c] + b) == ReplaceCrLf(a) + [c] + ReplaceCrLf(b)
    decreases |a|
  {
    var s := a + [c] + b;
    if a == [] {
      assert s[1..] == b;
    } else if |a| > 1 && a[0] == '\r' && a[1] == '\n' {
      assert s[2..] == a[2..] + [c] + b;
      NoPairReplaced(a[2..], c, b);
    } else {
      assert s[1..] == a[1..] + [c] + b;
      NoPairReplaced(a[1..], c, b);
    }
  }

  /** `split('\n')`. */
  function Lines(s: string): (r: seq<string>)
    ensures r != []
  {
    if s == [] then [[]]
    else
      var rest := Lines(s[1..]);
      if s[0] == '\n' then [[]] + rest else [[s[0]] + rest[0]] + rest[1..]
  }

  function JoinLines(lines: seq<string>): string
    requires lines != []
  {
    if |lines| == 1 then lines[0] else lines[0] + ['\n'] + JoinLines(lines[1..])
  }

  predicate IsLine(line: string) { '\r' !in line && '\n' !in line }

  lemma {:induction false} LinesJoin(s: string)
    requires '\r' !in s
    ensures JoinLines(Lines(s)) == s
    ensures forall line :: line in Lines(s) ==> IsLine(line)
  {
    if s != [] {
      assert s[0] in s;
      LinesJoin(s[1..]);
      FirstOfLines(s);
      var rest := Lines(s[1..]);
      if s[0] == '\n' {
        assert Lines(s)[1..] == rest;
      } else {
        assert Lines(s)[1..] == rest[1..];
      }
    }
  }

  /** A character in front ends an empty line or joins the first one. */
  lemma FirstOfLines(s: string)
    requires s != [] && s[0] != '\r' && forall line :: line in Lines(s[1..]) ==> IsLine(line)
    ensures forall line :: line in Lines(s) ==> IsLine(line)
  {
    var rest := Lines(s[1..]);
    assert rest[0] in rest;
  }

  // ------------------------------------------------------- server-sent events

  const DATA: string := ['d', 'a', 't', 'a', ':']
  const EVENT: string := ['e', 'v', 'e', 'n', 't', ':', ' ']

  function EncodedLines(lines: seq<string>): string {
    if lines == [] then ['\n'] else DATA + lines[0] + ['\n'] + EncodedLines(lines[1..])
  }

  lemma OneLineMore(encoded: string, lines: seq<string>)
    requires lines != []
    ensures encoded + EncodedLines(lines) == (((encoded + DATA) + lines[0]) + ['\n']) + EncodedLines(lines[1..])
  {
    var rest := EncodedLines(lines[1..]);
    assert encoded + (((DATA + lines[0]) + ['\n']) + rest) == (((encoded + DATA) + lines[0]) + ['\n']) + rest;
  }

  /** `encode_sse_data`. */
  method EncodeSseData(value: string) returns (encoded: string)
    ensures encoded == EncodedLines(Lines(Normalised(value)))
  {
    var lines := Lines(ReplaceCr(ReplaceCrLf(value)));
    encoded := [];
    for i := 0 to |lines|
      invariant encoded + EncodedLines(lines[i..]) == EncodedLines(lines)
    {
      assert lines[i..][1..] == lines[i + 1..];
      OneLineMore(encoded, lines[i..]);
      encoded := encoded + DATA;
      encoded := encoded + lines[i];
      encoded := encoded + ['\n'];
    }
    assert lines[|lines|..] == [];
    encoded := encoded + ['\n'];
  }

  datatype Event = Event(kind: string, data: string)

  function Frame(e: Event): string { EVENT + e.kind + ['\n'] + EncodedLines(Lines(Normalised(e.data))) }

  function Body(events: seq<Event>): string {
    if events == [] then [] else Frame(events[0]) + Body(events[1..])
  }

  /** A client's line reader: a line ends at a line feed, a carriage return, or both. */
  function TakeLine(s: string): (r: Option<(string, string)>)
    ensures r.Some? ==> |r.value.1| < |s|
  {
    if s == [] then None
    else if s[0] == '\n' then Some(([], s[1..]))
    else if s[0] == '\r' then Some(([], if |s| > 1 && s[1] == '\n' then s[2..] else s[1..]))
    else
      match TakeLine(s[1..])
      case None => None
      case Some((line, rest)) => Some(([s[0]] + line, rest))
  }

  function AddData(data: Option<string>, line: string): string {
    if data.None? then line else data.value + ['\n'] + line
  }

  /** A client's event reader: field lines up to the first blank line; data lines are joined by line feeds. */
  function DecodeEvent(s: string, kind: string, data: Option<string>): (r: Option<(Event, string)>)
    ensures r.Some? ==> |r.value.1| < |s|
    decreases |s|
  {
    match TakeLine(s)
    case None => None
    case Some((line, rest)) =>
      if line == [] then Some((Event(kind, if data.Some? then data.value else []), rest))
      else if DATA <= line then DecodeEvent(rest, kind, Some(AddData(data, line[|DATA|..])))
      else if EVENT <= line then DecodeEvent(rest, line[|EVENT|..], data)
      else DecodeEvent(rest, kind, data)
  }

  function DecodeBody(s: string): seq<Event>
    decreases |s|
  {
    match DecodeEvent(s, [], None)
    case None => []
    case Some((e, rest)) => [e] + DecodeBody(rest)
  }

  lemma {:induction false} TakeLineOf(line: string, rest: string)
    requires IsLine(line)
    ensures TakeLine(line + ['\n'] + rest) == Some((line, rest))
  {
    var s := line + ['\n'] + rest;
    if line == [] {
      assert s[1..] == rest;
    } else {
      assert line[0] in line;
      assert s[1..] == line[1..] + ['\n'] + rest;
      TakeLineOf(line[1..], rest);
      assert [s[0]] + line[1..] == line;
    }
  }

  lemma TakePrefixedLine(prefix: string, line: string, rest: string)
    requires IsLine(prefix) && IsLine(line)
    ensures TakeLine(prefix + line + ['\n'] + rest) == Some((prefix + line, rest))
    ensures (prefix + line)[|prefix|..] == line && prefix <= prefix + line
  {
    TakeLineOf(prefix + line, rest);
  }

  lemma AddDataAll(data: Option<string>, lines: seq<string>)
    requires |lines| > 1
    ensures AddData(Some(AddData(data, lines[0])), JoinLines(lines[1..])) == AddData(data, JoinLines(lines))
  {}

  /** Encoded data lines decode to the lines joined, and the event ends where its encoding ends. */
  lemma DecodeDataLine(line: string, tail: string, kind: string, data: Option<string>)
    requires IsLine(line)
    ensures DecodeEvent(DATA + line + ['\n'] + tail, kind, data) == DecodeEvent(tail, kind, Some(AddData(data, line)))
  {
    TakePrefixedLine(DATA, line, tail);
    assert DATA + line != [];
  }

  lemma {:induction false} DecodeDataLines(lines: seq<string>, rest: string, kind: string, data: Option<string>)
    requires lines != [] && forall line :: line in lines ==> IsLine(line)
    ensures DecodeEvent(EncodedLines(lines) + rest, kind, data)
            == Some((Event(kind, AddData(data, JoinLines(lines))), rest))
    decreases |lines|
  {
    var tail := EncodedLines(lines[1..]) + rest;
    assert lines[0] in lines;
    assert EncodedLines(lines) + rest == DATA + lines[0] + ['\n'] + tail;
    DecodeDataLine(lines[0], tail, kind, data);
    var next := Some(AddData(data, lines[0]));
    if |lines| == 1 {
      assert lines[1..] == [];
      assert tail == [] + ['\n'] + rest;
      TakeLineOf([], rest);
    } else {
      DecodeDataLines(lines[1..], rest, kind, next);
      AddDataAll(data, lines);
    }
  }

  /** A frame decodes to its kind and its data with line ends normalised, whatever follows it. */
  lemma FrameDecodes(e: Event, rest: string)
    requires IsLine(e.kind)
    ensures DecodeEvent(Frame(e) + rest, [], None) == Some((Event(e.kind, Normalised(e.data)), rest))
  {
    var lines := Lines(Normalised(e.data));
    var tail := EncodedLines(lines) + rest;
    assert Frame(e) + rest == EVENT + e.kind + ['\n'] + tail;
    TakePrefixedLine(EVENT, e.kind, tail);
    var line := EVENT + e.kind;
    assert line[0] == 'e' && !(DATA <= line);
    NoCrLeft(ReplaceCrLf(e.data));
    LinesJoin(Normalised(e.data));
    DecodeDataLines(lines, rest, e.kind, None);
  }

  /** A whole event stream decodes to its events in order: no frame ends early or runs into the next. */
  lemma {:induction false} BodyDecodes(events: seq<Event>)
    requires forall e :: e in events ==> IsLine(e.kind)
    ensures DecodeBody(Body(events))
            == seq(|events|, i requires 0 <= i < |events| => Event(events[i].kind, Normalised(events[i].data)))
  {
    if events != [] {
      FrameDecodes(events[0], Body(events[1..]));
      BodyDecodes(events[1..]);
    }
  }
}
