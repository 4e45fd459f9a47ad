// A whole captured stream from its server's side (parseSseStream in
// apps/admin/src/lib/sse.ts): events of any of the four protocols, written as text, and
// what the viewer makes of that text.
module StreamSender {
  import opened JsonValues
  import Texts
  import opened SseWire
  import opened ChatStream
  import opened ChatSender

  // ---- What a server sends ---------------------------------------------------------------

  // `named` puts the event's name on an event line, `typed` into the payload. A payload of
  // none of the protocols is read as a chat chunk.
  datatype SentEvent =
    | OfResponses(suffix: string, named: bool, typed: bool, fields: seq<Field>)
    | OfAnthropic(name: string, named: bool, typed: bool, fields: seq<Field>)
    | OfGemini(candidates: seq<Json>, fields: seq<Field>)
    | OfChat(chunk: SentChunk)
    | OfNone(fields: seq<Field>)
    | EndMark

  predicate IsName(name: string) {
    IsOneLine(name) && Texts.TrimStart(name) == name
  }

  predicate Proper(e: SentEvent) {
    match e
    case OfResponses(suffix, named, typed, fields) =>
      IsOneLine(suffix) && (named || (typed && Lookup(fields, "type").None?))
    case OfAnthropic(name, named, typed, fields) =>
      IsName(name) && (named || typed) && !("response." <= name) && Lookup(fields, "type").None?
    case OfGemini(_, fields) => Lookup(fields, "type").None? && Lookup(fields, "candidates").None?
    case OfNone(fields) =>
      && (Lookup(fields, "type").Some? ==> !Lookup(fields, "type").value.Str?)
      && (Lookup(fields, "candidates").Some? ==> !Lookup(fields, "candidates").value.Arr?)
    case _ => true
  }

  function Name(e: SentEvent): Option<string> {
    match e
    case OfResponses(suffix, named, _, _) => if named then Some("response." + suffix) else None
    case OfAnthropic(name, named, _, _) => if named then Some(name) else None
    case _ => None
  }

  function Body(e: SentEvent): seq<Field> {
    match e
    case OfResponses(suffix, _, typed, fields) =>
      (if typed then [Field("type", Str("response." + suffix))] else []) + fields
    case OfAnthropic(name, _, typed, fields) => (if typed then [Field("type", Str(name))] else []) + fields
    case OfGemini(candidates, fields) => [Field("candidates", Arr(candidates))] + fields
    case OfChat(chunk) => EncodeChunk(chunk)
    case OfNone(fields) => fields
    case EndMark => []
  }

  type Writer = seq<Field> -> string

  // JSON texts, written on one line, which the viewer's parser reads back.
  ghost predicate ReadsBack(write: Writer, parse: Parser) {
    forall fields ::
      && IsName(write(fields)) && write(fields) != DONE
      && parse(write(fields)) == Some(Obj(fields))
  }

  function Data(e: SentEvent, write: Writer): string {
    if e.EndMark? then DONE else write(Body(e))
  }

  function Lined(sent: seq<SentEvent>, write: Writer): seq<Sent> {
    if sent == [] then []
    else
      var last := sent[|sent| - 1];
      Lined(sent[..|sent| - 1], write) + [Sent([], Name(last), [Data(last, write)], true)]
  }

  function Wires(sent: seq<SentEvent>, write: Writer): seq<WireEvent> {
    if sent == [] then []
    else
      var last := sent[|sent| - 1];
      Wires(sent[..|sent| - 1], write) + [WireEvent(Name(last), Data(last, write))]
  }

  // ---- What a viewer should show of it ------------------------------------------------------

  // Each event goes to the consumer of the protocol it was sent in.
  function ShownOf(before: Assembly, seen: seq<WireEvent>, e: SentEvent, foreign: Foreign): Consumption
  {
    match e
    case OfResponses(_, _, _, _) => foreign(Responses, seen, before)
    case OfAnthropic(_, _, _, _) => foreign(Anthropic, seen, before)
    case OfGemini(_, _) => foreign(Gemini, seen, before)
    case OfChat(chunk) => Consumption(Consumed(before, EncodeChunk(chunk)), ShownKind(chunk), ShownEvent(chunk))
    case OfNone(fields) => Consumption(Consumed(before, fields), KindOf(ChunkOf(fields)), TextOf(ChunkOf(fields)))
    case EndMark => Consumption(before, Done, DONE)
  }

  function Shown(sent: seq<SentEvent>, write: Writer, foreign: Foreign): Parsing {
    if sent == [] then Parsing([], NOTHING)
    else
      var n := |sent| - 1;
      var before, e := Shown(sent[..n], write, foreign), sent[n];
      var c := ShownOf(before.assembly, Wires(sent, write), e, foreign);
      Parsing(before.events + [SseEvent(n, Name(e), c.kind, c.text, if e.EndMark? then None else Some(Obj(Body(e))),
                                        Data(e, write))], c.assembly)
  }

  // ---- The text is cut as it was sent ---------------------------------------------------

  lemma {:induction false} LinedIsReadBack(sent: seq<SentEvent>, write: Writer, parse: Parser)
    requires ReadsBack(write, parse) && forall k :: 0 <= k < |sent| ==> Proper(sent[k])
    ensures |Lined(sent, write)| == |sent|
    ensures forall k :: 0 <= k < |sent| ==> Sendable(Lined(sent, write)[k])
    ensures ReadAllBack(Lined(sent, write)) == Wires(sent, write)
  {
    hide Proper, Body, Texts.TrimStart;
    if sent != [] {
      var init, last := sent[..|sent| - 1], sent[|sent| - 1];
      LinedIsReadBack(init, write, parse);
      OneIsReadBack(last, write, parse);
      var lined := Lined(sent, write);
      assert lined[..|lined| - 1] == Lined(init, write);
    }
  }

  lemma OneIsReadBack(e: SentEvent, write: Writer, parse: Parser)
    requires ReadsBack(write, parse) && Proper(e)
    ensures var line := Sent([], Name(e), [Data(e, write)], true);
            Sendable(line) && ReadBack(line) == WireEvent(Name(e), Data(e, write))
  {
    var line := Sent([], Name(e), [Data(e, write)], true);
    DataIsName(e, write, parse);
    NameIsName(e);
    hide Texts.TrimStart, Proper, ReadsBack, Name, Data;
    RoundTripIff(line);
  }

  lemma DataIsName(e: SentEvent, write: Writer, parse: Parser)
    requires ReadsBack(write, parse)
    ensures IsName(Data(e, write))
  {
    hide Body;
  }

  lemma NameIsName(e: SentEvent)
    requires Proper(e)
    ensures Name(e).Some? ==> IsName(Name(e).value)
  {
  }

  // ---- Every event goes to its own consumer -------------------------------------------

  lemma EventGoesToItsConsumer(e: SentEvent)
    requires Proper(e) && !e.EndMark?
    ensures BranchOf(Name(e), Body(e)) ==
            match e
            case OfResponses(_, _, _, _) => Responses
            case OfAnthropic(_, _, _, _) => Anthropic
            case OfGemini(_, _) => Gemini
            case _ => Chat
  {
  }

  lemma OneIsShown(before: Assembly, seen: seq<WireEvent>, e: SentEvent, foreign: Foreign)
    requires seen != [] && seen[|seen| - 1].event == Name(e) && Proper(e) && !e.EndMark?
    ensures ConsumptionOf(before, seen, Body(e), foreign) == ShownOf(before, seen, e, foreign)
  {
    hide Proper, Name, Consumed, KindOf, TextOf, ChunkOf, ShownKind, ShownEvent, BranchOf, EncodeChunk;
    EventGoesToItsConsumer(e);
    if e.OfChat? { EventShowsTheChunk(e.chunk); }
  }

  lemma {:induction false} EverySentEventIsShown(sent: seq<SentEvent>, write: Writer, parse: Parser, foreign: Foreign)
    requires ReadsBack(write, parse) && forall k :: 0 <= k < |sent| ==> Proper(sent[k])
    ensures Parsed(Wires(sent, write), parse, foreign) == Shown(sent, write, foreign)
  {
    hide Proper, ShownOf, ConsumptionOf, Body, Name;
    if sent != [] {
      var init, last := sent[..|sent| - 1], sent[|sent| - 1];
      EverySentEventIsShown(init, write, parse, foreign);
      WiresCount(init, write);
      NextIsShown(init, last, write, parse, foreign);
      assert sent == init + [last];
    }
  }

  lemma {:induction false} NextIsShown(init: seq<SentEvent>, e: SentEvent, write: Writer, parse: Parser,
                                       foreign: Foreign)
    requires ReadsBack(write, parse) && Proper(e) && |Wires(init, write)| == |init|
    requires Parsed(Wires(init, write), parse, foreign) == Shown(init, write, foreign)
    ensures Parsed(Wires(init + [e], write), parse, foreign) == Shown(init + [e], write, foreign)
  {
    hide Proper, Body, Name, ConsumptionOf, ReadsBack;
    assert (init + [e])[..|init|] == init;
    var before, wires := Shown(init, write, foreign), Wires(init + [e], write);
    assert wires[..|init|] == Wires(init, write);
    if e.EndMark? {
      hide ShownOf, Data;
      EndIsShown(before.assembly, wires, e, write, foreign);
    } else {
      PayloadIsBody(e, write, parse);
      OneIsShown(before.assembly, wires, e, foreign);
      hide ShownOf;
    }
  }

  lemma EndIsShown(before: Assembly, seen: seq<WireEvent>, e: SentEvent, write: Writer, foreign: Foreign)
    requires e.EndMark?
    ensures Data(e, write) == DONE && ShownOf(before, seen, e, foreign) == Consumption(before, Done, DONE)
  {
  }

  lemma PayloadIsBody(e: SentEvent, write: Writer, parse: Parser)
    requires ReadsBack(write, parse) && !e.EndMark?
    ensures Data(e, write) != DONE && Payload(WireEvent(Name(e), Data(e, write)), parse) == Some(Body(e))
  {
    hide Body, Name;
  }

  lemma {:induction false} WiresCount(sent: seq<SentEvent>, write: Writer)
    ensures |Wires(sent, write)| == |sent|
  {
    if sent != [] { WiresCount(sent[..|sent| - 1], write); }
  }

  // Whatever a server sends in whatever protocols, with either line ending: the viewer reads
  // the text event by event and gives each to the consumer of its protocol.
  lemma {:induction false} SentStreamIsShown(sent: seq<SentEvent>, write: Writer, parse: Parser, foreign: Foreign,
                                             eol: string)
    requires ReadsBack(write, parse) && IsEol(eol) && forall k :: 0 <= k < |sent| ==> Proper(sent[k])
    ensures Parsed(WireEvents(Encode(Lined(sent, write), eol)), parse, foreign) == Shown(sent, write, foreign)
  {
    hide Proper, Sendable, ReadsBack;
    LinedIsReadBack(sent, write, parse);
    EncodedStreamIsReadBack(Lined(sent, write), eol);
    EverySentEventIsShown(sent, write, parse, foreign);
  }

  // ---- A chat stream, from end to end -----------------------------------------------------

  function ChatEvents(chunks: seq<SentChunk>): seq<SentEvent> {
    if chunks == [] then [] else ChatEvents(chunks[..|chunks| - 1]) + [OfChat(chunks[|chunks| - 1])]
  }

  lemma {:induction false} ChatIsConsumed(sent: seq<SentEvent>, chunk: SentChunk, write: Writer, foreign: Foreign)
    ensures Shown(sent + [OfChat(chunk)], write, foreign).assembly ==
            Consumed(Shown(sent, write, foreign).assembly, EncodeChunk(chunk))
  {
    hide Consumed, EncodeChunk, ShownKind, ShownEvent, Body, Wires, Data;
    assert (sent + [OfChat(chunk)])[..|sent|] == sent;
  }

  lemma {:induction false} ChatIsAssembled(chunks: seq<SentChunk>, write: Writer, foreign: Foreign)
    ensures Shown(ChatEvents(chunks), write, foreign).assembly == Assembled(EncodeAll(chunks))
  {
    hide Shown, EncodeAll, Consumed, EncodeChunk;
    if chunks == [] {
      NothingShown(write, foreign);
    } else {
      var init, last := chunks[..|chunks| - 1], chunks[|chunks| - 1];
      ChatIsAssembled(init, write, foreign);
      ChatIsConsumed(ChatEvents(init), last, write, foreign);
      EncodeNext(chunks);
    }
  }

  lemma NothingShown(write: Writer, foreign: Foreign)
    ensures Shown([], write, foreign).assembly == Assembled(EncodeAll([]))
  {
    NothingSent();
  }

  lemma {:induction false} ChatEventsAre(chunks: seq<SentChunk>)
    ensures |ChatEvents(chunks)| == |chunks|
    ensures forall k :: 0 <= k < |chunks| ==> ChatEvents(chunks)[k] == OfChat(chunks[k])
  {
    if chunks != [] {
      var init := chunks[..|chunks| - 1];
      ChatEventsAre(init);
      assert forall k :: 0 <= k < |init| ==> init[k] == chunks[k];
    }
  }

  lemma {:induction false} EndMarkAddsNothing(sent: seq<SentEvent>, write: Writer, foreign: Foreign)
    ensures Shown(sent + [EndMark], write, foreign).assembly == Shown(sent, write, foreign).assembly
  {
    assert (sent + [EndMark])[..|sent|] == sent;
  }

  // The text a chat server writes for its chunks, closed by its end mark, is assembled to
  // the texts, the finish reason, the model and the tool calls it sent.
  lemma {:induction false} ChatStreamArrivesAsSent(chunks: seq<SentChunk>, write: Writer, parse: Parser,
                                                   foreign: Foreign, eol: string)
    requires ReadsBack(write, parse) && IsEol(eol)
    ensures var raw := Encode(Lined(ChatEvents(chunks) + [EndMark], write), eol);
            var a, pieces := Parsed(WireEvents(raw), parse, foreign).assembly, Pieces(chunks);
            && a.content == AllText(chunks) && a.reasoning == AllReasoning(chunks)
            && a.finishReason == FinalReason(chunks) && a.model == NamedModel(chunks)
            && |a.tools.calls| == |SentIndices(pieces)|
            && forall p :: 0 <= p < |SentIndices(pieces)| ==>
                 var index := SentIndices(pieces)[p];
                 a.tools.calls[p] ==
                   AssembledToolCall(SentId(pieces, index), SentName(pieces, index), SentArguments(pieces, index))
  {
    hide Assembled, EncodeAll, AllText, AllReasoning, FinalReason, NamedModel, SentIndices, SentId, SentName,
      SentArguments, Pieces, ReadsBack, Encode, Lined, WireEvents, Parsed, Shown;
    var sent := ChatEvents(chunks) + [EndMark];
    ChatEventsAre(chunks);
    ChatIsAssembled(chunks, write, foreign);
    SentStreamIsShown(sent, write, parse, foreign, eol);
    EndMarkAddsNothing(ChatEvents(chunks), write, foreign);
    TextArrivesAsSent(chunks);
    ToolCallsArriveAsSent(chunks);
  }
}
