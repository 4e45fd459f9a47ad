// Cutting a captured event stream into events (splitWireEvents in
// apps/admin/src/lib/sse.ts). Unlike section 9.2 of the WHATWG HTML Living Standard it
// trims all leading white space of a field, reads a lone carriage return as text, and
// keeps an event that no blank line ends.
module SseWire {
  import opened JsonValues
  import Texts

  datatype WireEvent = WireEvent(event: Option<string>, data: string)

  // `raw.split(/\r?\n/)`.
  function Lines(raw: string): (lines: seq<string>)
    ensures lines != []
  {
    if raw == "" then [""]
    else if raw[0] == '\n' then [""] + Lines(raw[1..])
    else if raw[0] == '\r' && |raw| > 1 && raw[1] == '\n' then [""] + Lines(raw[2..])
    else
      var rest := Lines(raw[1..]);
      [[raw[0]] + rest[0]] + rest[1..]
  }

  // `data.join('\n')`.
  function Join(data: seq<string>): string {
    if data == [] then ""
    else if |data| == 1 then data[0]
    else Join(data[..|data| - 1]) + "\n" + data[|data| - 1]
  }

  const EVENT_FIELD := "event:"
  const DATA_FIELD := "data:"

  predicate StartsWith(line: string, prefix: string) {
    |prefix| <= |line| && line[..|prefix|] == prefix
  }

  // The events so far and the event being read.
  datatype Reading = Reading(events: seq<WireEvent>, event: Option<string>, data: seq<string>)

  const NOTHING_READ := Reading([], None, [])

  function Flush(r: Reading): Reading {
    Reading(if r.event.Some? || r.data != [] then r.events + [WireEvent(r.event, Join(r.data))] else r.events, None, [])
  }

  function ReadLine(r: Reading, line: string): Reading {
    if line == "" then Flush(r)
    else if StartsWith(line, ":") then r
    else if StartsWith(line, EVENT_FIELD) then r.(event := Some(Texts.TrimStart(line[|EVENT_FIELD|..])))
    else if StartsWith(line, DATA_FIELD) then r.(data := r.data + [Texts.TrimStart(line[|DATA_FIELD|..])])
    else r
  }

  function ReadLines(r: Reading, lines: seq<string>): Reading {
    if lines == [] then r else ReadLine(ReadLines(r, lines[..|lines| - 1]), lines[|lines| - 1])
  }

  function WireEvents(raw: string): seq<WireEvent> {
    Flush(ReadLines(NOTHING_READ, Lines(raw))).events
  }

  method SplitWireEvents(raw: string) returns (events: seq<WireEvent>)
    ensures events == WireEvents(raw)
  {
    hide Lines, Join, Texts.TrimStart;
    events := [];
    var event: Option<string> := None;
    var data: seq<string> := [];
    var lines := Lines(raw);
    var i := 0;
    while i < |lines|
      invariant 0 <= i <= |lines|
      invariant Reading(events, event, data) == ReadLines(NOTHING_READ, lines[..i])
    {
      var line := lines[i];
      assert lines[..i + 1][..i] == lines[..i];
      i := i + 1;
      if line == "" {
        if event.Some? || |data| > 0 { events := events + [WireEvent(event, Join(data))]; }
        event := None;
        data := [];
        continue;
      }
      if StartsWith(line, ":") { continue; }
      if StartsWith(line, EVENT_FIELD) {
        event := Some(Texts.TrimStart(line[|EVENT_FIELD|..]));
      } else if StartsWith(line, DATA_FIELD) {
        data := data + [Texts.TrimStart(line[|DATA_FIELD|..])];
      }
    }
    assert lines[..i] == lines;
    if event.Some? || |data| > 0 { events := events + [WireEvent(event, Join(data))]; }
  }

  // ---- Round trip -----------------------------------------------------------------------

  // An event as a server writes it: lines that a reader is to ignore, an optional name, the
  // data lines, then a blank line. There may be a space after the colons.
  datatype Sent = Sent(ignored: seq<string>, event: Option<string>, lines: seq<string>, spaced: bool)

  // A text that does not reach into the next line; carriage returns inside it are text.
  predicate IsOneLine(s: string) {
    '\n' !in s && (s != "" ==> s[|s| - 1] != '\r')
  }

  // A comment, or a field that the viewer does not know.
  predicate Ignorable(line: string) {
    line != "" && !StartsWith(line, EVENT_FIELD) && !StartsWith(line, DATA_FIELD) && IsOneLine(line)
  }

  predicate Sendable(e: Sent) {
    && (forall i :: 0 <= i < |e.ignored| ==> Ignorable(e.ignored[i]))
    && (e.event.Some? || e.lines != [])
    && (e.event.Some? ==> IsOneLine(e.event.value))
    && forall i :: 0 <= i < |e.lines| ==> IsOneLine(e.lines[i])
  }

  function FieldLine(field: string, spaced: bool, value: string): string {
    field + (if spaced then " " else "") + value
  }

  function DataLines(lines: seq<string>, spaced: bool): seq<string> {
    if lines == [] then []
    else DataLines(lines[..|lines| - 1], spaced) + [FieldLine(DATA_FIELD, spaced, lines[|lines| - 1])]
  }

  function NameLines(e: Sent): seq<string> {
    if e.event.Some? then [FieldLine(EVENT_FIELD, e.spaced, e.event.value)] else []
  }

  function FieldLines(e: Sent): seq<string> {
    e.ignored + NameLines(e) + DataLines(e.lines, e.spaced)
  }

  function EventLines(e: Sent): seq<string> {
    FieldLines(e) + [""]
  }

  function Terminated(lines: seq<string>, eol: string): string {
    if lines == [] then "" else lines[0] + eol + Terminated(lines[1..], eol)
  }

  function Encode(events: seq<Sent>, eol: string): string {
    if events == [] then "" else Encode(events[..|events| - 1], eol) + Terminated(EventLines(events[|events| - 1]), eol)
  }

  function TrimLines(lines: seq<string>): seq<string> {
    if lines == [] then [] else TrimLines(lines[..|lines| - 1]) + [Texts.TrimStart(lines[|lines| - 1])]
  }

  // What is read back of an event: the same fields without leading white space.
  function ReadBack(e: Sent): WireEvent {
    WireEvent(if e.event.Some? then Some(Texts.TrimStart(e.event.value)) else None, Join(TrimLines(e.lines)))
  }

  function ReadAllBack(events: seq<Sent>): seq<WireEvent> {
    if events == [] then [] else ReadAllBack(events[..|events| - 1]) + [ReadBack(events[|events| - 1])]
  }

  predicate IsEol(eol: string) {
    eol == "\n" || eol == "\r\n"
  }

  lemma {:induction false} LinesFirst(line: string, eol: string, rest: string)
    requires IsOneLine(line) && IsEol(eol)
    ensures Lines(line + eol + rest) == [line] + Lines(rest)
  {
    var raw := line + eol + rest;
    if line == "" {
      assert raw == eol + rest;
      assert raw[|eol|..] == rest;
    } else {
      assert raw[1..] == line[1..] + eol + rest;
      LinesFirst(line[1..], eol, rest);
      assert raw[0] == line[0] && raw[0] != '\n' && (|line| > 1 ==> raw[1] == line[1] && raw[1] != '\n');
      assert [line[0]] + line[1..] == line;
    }
  }

  lemma {:induction false} LinesOfTerminated(lines: seq<string>, eol: string, rest: string)
    requires IsEol(eol) && forall i :: 0 <= i < |lines| ==> IsOneLine(lines[i])
    ensures Lines(Terminated(lines, eol) + rest) == lines + Lines(rest)
  {
    hide Lines;
    if lines == [] {
      assert Terminated(lines, eol) + rest == rest;
      assert lines + Lines(rest) == Lines(rest);
    } else {
      var tail := Terminated(lines[1..], eol);
      assert Terminated(lines, eol) + rest == lines[0] + eol + (tail + rest);
      LinesFirst(lines[0], eol, tail + rest);
      LinesOfTerminated(lines[1..], eol, rest);
      assert [lines[0]] + (lines[1..] + Lines(rest)) == lines + Lines(rest);
    }
  }

  function AllLines(events: seq<Sent>): seq<string> {
    if events == [] then [] else AllLines(events[..|events| - 1]) + EventLines(events[|events| - 1])
  }

  lemma {:induction false} TerminatedAppend(a: seq<string>, b: seq<string>, eol: string)
    ensures Terminated(a + b, eol) == Terminated(a, eol) + Terminated(b, eol)
  {
    if a == [] {
      assert a + b == b;
    } else {
      var tail := Terminated(a[1..], eol);
      assert (a + b)[0] == a[0] && (a + b)[1..] == a[1..] + b;
      TerminatedAppend(a[1..], b, eol);
      assert a[0] + eol + (tail + Terminated(b, eol)) == a[0] + eol + tail + Terminated(b, eol);
    }
  }

  lemma {:induction false} EncodeIsLines(events: seq<Sent>, eol: string)
    ensures Encode(events, eol) == Terminated(AllLines(events), eol)
  {
    if events != [] {
      EncodeIsLines(events[..|events| - 1], eol);
      TerminatedAppend(AllLines(events[..|events| - 1]), EventLines(events[|events| - 1]), eol);
    }
  }

  lemma {:induction false} DataLinesAreLines(lines: seq<string>, spaced: bool)
    requires forall i :: 0 <= i < |lines| ==> IsOneLine(lines[i])
    ensures forall i :: 0 <= i < |DataLines(lines, spaced)| ==> IsOneLine(DataLines(lines, spaced)[i])
  {
    hide IsOneLine, FieldLine;
    if lines != [] {
      DataLinesAreLines(lines[..|lines| - 1], spaced);
      FieldIsOneLine(DATA_FIELD, spaced, lines[|lines| - 1]);
    }
  }

  lemma FieldIsOneLine(field: string, spaced: bool, value: string)
    requires IsOneLine(value) && (field == EVENT_FIELD || field == DATA_FIELD)
    ensures IsOneLine(FieldLine(field, spaced, value))
  {
    assert '\n' !in field && field[|field| - 1] != '\r';
    var front := field + if spaced then " " else "";
    assert FieldLine(field, spaced, value) == front + value;
    if value != "" { assert (front + value)[|front + value| - 1] == value[|value| - 1]; }
  }

  lemma EventLinesAreLines(e: Sent)
    requires Sendable(e)
    ensures forall i :: 0 <= i < |EventLines(e)| ==> IsOneLine(EventLines(e)[i])
  {
    DataLinesAreLines(e.lines, e.spaced);
    if e.event.Some? { FieldIsOneLine(EVENT_FIELD, e.spaced, e.event.value); }
    hide FieldLine, StartsWith;
    assert forall i :: 0 <= i < |e.ignored| ==> IsOneLine(e.ignored[i]);
    assert IsOneLine("");
    hide IsOneLine, Ignorable;
  }

  lemma {:induction false} AllLinesAreLines(events: seq<Sent>)
    requires forall k :: 0 <= k < |events| ==> Sendable(events[k])
    ensures forall i :: 0 <= i < |AllLines(events)| ==> IsOneLine(AllLines(events)[i])
  {
    hide EventLines, IsOneLine, Sendable;
    if events != [] {
      AllLinesAreLines(events[..|events| - 1]);
      EventLinesAreLines(events[|events| - 1]);
    }
  }

  lemma {:induction false} ReadLinesAppend(r: Reading, a: seq<string>, b: seq<string>)
    ensures ReadLines(r, a + b) == ReadLines(ReadLines(r, a), b)
  {
    hide ReadLine;
    if b == [] {
      assert a + b == a;
    } else {
      assert (a + b)[..|a + b| - 1] == a + b[..|b| - 1];
      ReadLinesAppend(r, a, b[..|b| - 1]);
    }
  }

  lemma {:induction false} FieldIsRead(r: Reading, spaced: bool, value: string)
    ensures ReadLine(r, FieldLine(DATA_FIELD, spaced, value)) == r.(data := r.data + [Texts.TrimStart(value)])
    ensures ReadLine(r, FieldLine(EVENT_FIELD, spaced, value)) == r.(event := Some(Texts.TrimStart(value)))
  {
    var gap := if spaced then " " else "";
    var d, e := FieldLine(DATA_FIELD, spaced, value), FieldLine(EVENT_FIELD, spaced, value);
    assert d == DATA_FIELD + (gap + value) && e == EVENT_FIELD + (gap + value);
    assert d[0] == 'd' && e[0] == 'e';
    assert d[..5] == DATA_FIELD && e[..6] == EVENT_FIELD;
    assert d[5..] == gap + value && e[6..] == gap + value;
    assert Texts.TrimStart(gap + value) == Texts.TrimStart(value) by {
      if spaced { assert (gap + value)[0] == ' ' && (gap + value)[1..] == value; } else { assert gap + value == value; }
    }
    assert d[..1] != ":" && e[..1] != ":";
    assert |d| >= 6 ==> d[..6][0] == 'd';
    assert EVENT_FIELD[0] == 'e';
  }

  lemma {:induction false} DataLinesAreRead(r: Reading, lines: seq<string>, spaced: bool)
    ensures ReadLines(r, DataLines(lines, spaced)) == r.(data := r.data + TrimLines(lines))
  {
    hide ReadLine, Texts.TrimStart, FieldLine;
    if lines == [] {
      assert r.data + TrimLines(lines) == r.data;
    } else {
      var init, last := lines[..|lines| - 1], lines[|lines| - 1];
      DataLinesAreRead(r, init, spaced);
      assert DataLines(lines, spaced)[..|DataLines(lines, spaced)| - 1] == DataLines(init, spaced);
      FieldIsRead(ReadLines(r, DataLines(init, spaced)), spaced, last);
      assert r.data + TrimLines(init) + [Texts.TrimStart(last)] == r.data + TrimLines(lines);
    }
  }

  lemma {:induction false} IgnoredLinesAreSkipped(r: Reading, ignored: seq<string>)
    requires forall i :: 0 <= i < |ignored| ==> Ignorable(ignored[i])
    ensures ReadLines(r, ignored) == r
  {
    hide StartsWith, IsOneLine;
    if ignored != [] {
      var init := ignored[..|ignored| - 1];
      assert forall i :: 0 <= i < |init| ==> init[i] == ignored[i];
      IgnoredLinesAreSkipped(r, init);
    }
  }

  lemma {:induction false} TrimLinesKeepsCount(lines: seq<string>)
    ensures |TrimLines(lines)| == |lines|
  {
    if lines != [] { TrimLinesKeepsCount(lines[..|lines| - 1]); }
  }

  lemma {:induction false} OneLineRead(r: Reading, line: string)
    ensures ReadLines(r, [line]) == ReadLine(r, line)
  {
    assert [line][..0] == [];
  }

  // The event as it stands after its fields.
  function Read(before: seq<WireEvent>, e: Sent): Reading {
    Reading(before, ReadBack(e).event, TrimLines(e.lines))
  }

  lemma FieldsAreRead(before: seq<WireEvent>, e: Sent)
    requires Sendable(e)
    ensures ReadLines(Reading(before, None, []), FieldLines(e)) == Read(before, e)
  {
    hide Texts.TrimStart, Join, ReadLine, DataLines, FieldLine, Ignorable, IsOneLine;
    var start := Reading(before, None, []);
    var named := start.(event := ReadBack(e).event);
    IgnoredLinesAreSkipped(start, e.ignored);
    ReadLinesAppend(start, e.ignored, NameLines(e));
    if e.event.Some? {
      OneLineRead(start, NameLines(e)[0]);
      FieldIsRead(start, e.spaced, e.event.value);
    }
    assert ReadLines(start, e.ignored + NameLines(e)) == named;
    ReadLinesAppend(start, e.ignored + NameLines(e), DataLines(e.lines, e.spaced));
    DataLinesAreRead(named, e.lines, e.spaced);
    assert [] + TrimLines(e.lines) == TrimLines(e.lines);
  }

  // After the lines of an event, that event is the last one read.
  lemma EventIsRead(before: seq<WireEvent>, e: Sent)
    requires Sendable(e)
    ensures ReadLines(Reading(before, None, []), EventLines(e)) == Reading(before + [ReadBack(e)], None, [])
  {
    hide Texts.TrimStart, Join, Sendable, ReadLine, FieldLines, TrimLines;
    FieldsAreRead(before, e);
    ReadLinesAppend(Reading(before, None, []), FieldLines(e), [""]);
    OneLineRead(Read(before, e), "");
    BlankLineFlushes(before, e);
  }

  lemma BlankLineFlushes(before: seq<WireEvent>, e: Sent)
    requires Sendable(e)
    ensures ReadLine(Read(before, e), "") == Reading(before + [ReadBack(e)], None, [])
  {
    hide Join;
    TrimLinesKeepsCount(e.lines);
  }

  lemma {:induction false} AllEventsAreRead(events: seq<Sent>)
    requires forall k :: 0 <= k < |events| ==> Sendable(events[k])
    ensures ReadLines(NOTHING_READ, AllLines(events)) == Reading(ReadAllBack(events), None, [])
  {
    hide EventLines, ReadBack, Sendable;
    if events != [] {
      AllEventsAreRead(events[..|events| - 1]);
      ReadLinesAppend(NOTHING_READ, AllLines(events[..|events| - 1]), EventLines(events[|events| - 1]));
      EventIsRead(ReadAllBack(events[..|events| - 1]), events[|events| - 1]);
    }
  }

  // Whatever a server sends, with either line ending, is read back event by event, each
  // field without its leading white space.
  lemma {:induction false} EncodedStreamIsReadBack(events: seq<Sent>, eol: string)
    requires IsEol(eol) && forall k :: 0 <= k < |events| ==> Sendable(events[k])
    ensures WireEvents(Encode(events, eol)) == ReadAllBack(events)
  {
    hide Terminated, EventLines, ReadBack, ReadLine, Sendable, IsOneLine;
    EncodeIsLines(events, eol);
    AllLinesAreLines(events);
    LinesOfTerminated(AllLines(events), eol, "");
    assert Encode(events, eol) + "" == Encode(events, eol);
    assert Lines("") == [""];
    ReadLinesAppend(NOTHING_READ, AllLines(events), [""]);
    AllEventsAreRead(events);
    OneLineRead(Reading(ReadAllBack(events), None, []), "");
    assert ReadLine(Reading(ReadAllBack(events), None, []), "") == Reading(ReadAllBack(events), None, []) by {
      BlankLineAlone(ReadAllBack(events));
    }
  }

  // A capture that breaks off before the blank line of its last event has that event too.
  lemma {:induction false} CutStreamIsReadBack(events: seq<Sent>, last: Sent, eol: string)
    requires IsEol(eol) && Sendable(last) && forall k :: 0 <= k < |events| ==> Sendable(events[k])
    ensures WireEvents(Encode(events, eol) + Terminated(FieldLines(last), eol)) ==
            ReadAllBack(events) + [ReadBack(last)]
  {
    hide Terminated, ReadBack, ReadLine, Sendable, IsOneLine, EventLines, FieldLines, Join, TrimLines;
    var lines, raw := AllLines(events) + FieldLines(last), Encode(events, eol) + Terminated(FieldLines(last), eol);
    EncodeIsLines(events, eol);
    TerminatedAppend(AllLines(events), FieldLines(last), eol);
    AllLinesAreLines(events);
    FieldLinesAreLines(last);
    LinesOfTerminated(lines, eol, "");
    assert raw + "" == raw;
    assert Lines("") == [""];
    ReadLinesAppend(NOTHING_READ, lines, [""]);
    ReadLinesAppend(NOTHING_READ, AllLines(events), FieldLines(last));
    AllEventsAreRead(events);
    FieldsAreRead(ReadAllBack(events), last);
    OneLineRead(Read(ReadAllBack(events), last), "");
    BlankLineFlushes(ReadAllBack(events), last);
  }

  lemma FieldLinesAreLines(e: Sent)
    requires Sendable(e)
    ensures forall i :: 0 <= i < |FieldLines(e)| ==> IsOneLine(FieldLines(e)[i])
  {
    hide Sendable, IsOneLine, FieldLines;
    EventLinesAreLines(e);
    assert forall i :: 0 <= i < |FieldLines(e)| ==> EventLines(e)[i] == FieldLines(e)[i];
  }

  lemma BlankLineAlone(before: seq<WireEvent>)
    ensures ReadLine(Reading(before, None, []), "") == Reading(before, None, [])
  {
  }

  function Faithful(e: Sent): WireEvent {
    WireEvent(e.event, Join(e.lines))
  }

  predicate Untrimmed(e: Sent) {
    && (e.event.Some? ==> Texts.TrimStart(e.event.value) == e.event.value)
    && forall i :: 0 <= i < |e.lines| ==> Texts.TrimStart(e.lines[i]) == e.lines[i]
  }

  lemma {:induction false} TrimLinesShrinks(lines: seq<string>)
    ensures |Join(TrimLines(lines))| <= |Join(lines)|
    ensures |Join(TrimLines(lines))| == |Join(lines)| <==>
            forall i :: 0 <= i < |lines| ==> Texts.TrimStart(lines[i]) == lines[i]
  {
    if lines != [] {
      var init, last := lines[..|lines| - 1], lines[|lines| - 1];
      TrimLinesShrinks(init);
      TrimLinesKeepsCount(lines);
      TrimLinesKeepsCount(init);
      TrimShrinks(last);
      assert TrimLines(lines)[..|lines| - 1] == TrimLines(init);
      assert forall i :: 0 <= i < |init| ==> lines[i] == init[i];
      if |lines| == 1 { assert init == [] && TrimLines(init) == []; }
    }
  }

  lemma {:induction false} TrimShrinks(s: string)
    ensures |Texts.TrimStart(s)| <= |s|
    ensures |Texts.TrimStart(s)| == |s| <==> Texts.TrimStart(s) == s
  {
    if s != "" && Texts.IsSpace(s[0]) { TrimShrinks(s[1..]); }
  }

  lemma {:induction false} TrimLinesIdentity(lines: seq<string>)
    requires forall i :: 0 <= i < |lines| ==> Texts.TrimStart(lines[i]) == lines[i]
    ensures TrimLines(lines) == lines
  {
    hide Texts.TrimStart;
    if lines != [] {
      var init := lines[..|lines| - 1];
      assert forall i :: 0 <= i < |init| ==> init[i] == lines[i];
      TrimLinesIdentity(init);
      assert init + [lines[|lines| - 1]] == lines;
    }
  }

  // An event comes back as it was sent exactly when none of its fields begins with white
  // space.
  lemma RoundTripIff(e: Sent)
    ensures ReadBack(e) == Faithful(e) <==> Untrimmed(e)
  {
    hide Texts.TrimStart, Join, TrimLines;
    TrimLinesShrinks(e.lines);
    if Untrimmed(e) { TrimLinesIdentity(e.lines); }
  }
}
