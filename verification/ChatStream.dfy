// Assembling a captured chat stream (consumeOpenAiChunk and parseSseStream in
// apps/admin/src/lib/sse.ts). JSON.parse is a parameter; its None stands for a throw.
module ChatStream {
  import opened JsonValues
  import opened SseWire

  datatype Kind = Reasoning | Content | ToolCall | Finish | Meta | Done | Other

  datatype SseEvent = SseEvent(index: nat, event: Option<string>, kind: Kind, text: string, data: Option<Json>,
                               raw: string)

  datatype AssembledToolCall = AssembledToolCall(id: Option<string>, name: string, arguments: string)

  // ---- Reading a chunk ------------------------------------------------------------------

  function Record(v: Option<Json>): Option<seq<Field>> {
    if v.Some? && v.value.Obj? then Some(v.value.fields) else None
  }

  function Text(v: Option<Json>): Option<string> {
    if v.Some? && v.value.Str? then Some(v.value.text) else None
  }

  // `value?.[0]`, as far as it can be a record.
  function First(v: Option<Json>): Option<Json> {
    if v.None? then None
    else
      match v.value
      case Arr(items) => if items == [] then None else Some(items[0])
      case Obj(fields) => Lookup(fields, "0")
      case _ => None
  }

  // One element of `tool_calls`.
  datatype Fragment = Fragment(index: real, id: Option<string>, name: string, arguments: string)

  function FragmentOf(call: seq<Field>): Fragment {
    var index := Lookup(call, "index");
    var fn := Record(Lookup(call, "function")).GetOr([]);
    Fragment(if index.Some? && index.value.Num? then index.value.number else 0.0,
             Text(Lookup(call, "id")), Text(Lookup(fn, "name")).GetOr(""), Text(Lookup(fn, "arguments")).GetOr(""))
  }

  // Elements that are no objects are skipped.
  function FragmentsOf(items: seq<Json>): seq<Fragment> {
    if items == [] then []
    else
      var last := items[|items| - 1];
      FragmentsOf(items[..|items| - 1]) + if last.Obj? then [FragmentOf(last.fields)] else []
  }

  // What the assembly reads of a chunk. An absent text and an empty one count the same.
  datatype Chunk = Chunk(model: Option<string>, usage: seq<Field>, finish: string, reasoning: string, content: string,
                         refusal: string, role: string, calls: Option<seq<Fragment>>)

  function Choice(chunk: seq<Field>): seq<Field> {
    Record(First(Lookup(chunk, "choices"))).GetOr([])
  }

  function Delta(chunk: seq<Field>): seq<Field> {
    Record(Lookup(Choice(chunk), "delta")).GetOr([])
  }

  function ToolItems(chunk: seq<Field>): Option<seq<Json>> {
    var calls := Lookup(Delta(chunk), "tool_calls");
    if calls.Some? && calls.value.Arr? then Some(calls.value.items) else None
  }

  function ChunkOf(chunk: seq<Field>): Chunk {
    var choice, delta := Choice(chunk), Delta(chunk);
    var reasoning := Text(Lookup(delta, "reasoning_content"));
    Chunk(Text(Lookup(chunk, "model")), Record(Lookup(chunk, "usage")).GetOr([]),
          Text(Lookup(choice, "finish_reason")).GetOr(""),
          (if reasoning.Some? then reasoning else Text(Lookup(delta, "reasoning"))).GetOr(""),
          Text(Lookup(delta, "content")).GetOr(""), Text(Lookup(delta, "refusal")).GetOr(""),
          Text(Lookup(delta, "role")).GetOr(""),
          if ToolItems(chunk).Some? then Some(FragmentsOf(ToolItems(chunk).value)) else None)
  }

  // ---- Tool calls -------------------------------------------------------------------------

  // The calls in the order they were opened, and where the call of each index is. (In the
  // source the map and the list share the call itself.)
  datatype Tools = Tools(calls: seq<AssembledToolCall>, byIndex: map<real, nat>)

  const NO_TOOLS := Tools([], map[])

  function Merged(call: AssembledToolCall, f: Fragment): AssembledToolCall {
    AssembledToolCall(if call.id.Some? then call.id else f.id, call.name + f.name, call.arguments + f.arguments)
  }

  function AddFragment(t: Tools, f: Fragment): Tools {
    if f.index in t.byIndex && t.byIndex[f.index] < |t.calls| then
      var at := t.byIndex[f.index];
      t.(calls := t.calls[at := Merged(t.calls[at], f)])
    else
      Tools(t.calls + [Merged(AssembledToolCall(None, "", ""), f)], t.byIndex[f.index := |t.calls|])
  }

  function AddFragments(t: Tools, fragments: seq<Fragment>): Tools {
    if fragments == [] then t
    else AddFragment(AddFragments(t, fragments[..|fragments| - 1]), fragments[|fragments| - 1])
  }

  // ---- The accumulator ----------------------------------------------------------------------

  datatype Assembly = Assembly(reasoning: string, content: string, tools: Tools, finishReason: Option<string>,
                               usage: Option<seq<Field>>, model: Option<string>)

  const NOTHING := Assembly("", "", NO_TOOLS, None, None, None)

  function MergeFields(earlier: seq<Field>, later: seq<Field>): seq<Field> {
    if later == [] then earlier
    else Put(MergeFields(earlier, later[..|later| - 1]), later[|later| - 1].key, later[|later| - 1].value)
  }

  // The kind of a chunk's event, by the first of its parts that counts.
  function KindOf(c: Chunk): Kind {
    if c.calls.Some? then ToolCall
    else if c.reasoning != "" then Reasoning
    else if c.content != "" || c.refusal != "" then Content
    else if c.finish != "" then Finish
    else Meta
  }

  function Label(fragments: seq<Fragment>): string {
    if fragments == [] then ""
    else Label(fragments[..|fragments| - 1]) + (fragments[|fragments| - 1].name + fragments[|fragments| - 1].arguments)
  }

  function TextOf(c: Chunk): string {
    match KindOf(c)
    case ToolCall => Label(c.calls.GetOr([]))
    case Reasoning => c.reasoning
    case Content => if c.content != "" then c.content else c.refusal
    case Finish => c.finish
    case _ => c.role
  }

  function Consumed(a: Assembly, chunk: seq<Field>): Assembly {
    var c := ChunkOf(chunk);
    var kind := KindOf(c);
    Assembly(a.reasoning + if kind == Reasoning then c.reasoning else "",
             a.content + if kind == Content then TextOf(c) else "",
             if c.calls.Some? then AddFragments(a.tools, c.calls.value) else a.tools,
             if c.finish != "" then Some(c.finish) else a.finishReason,
             if Record(Lookup(chunk, "usage")).Some? then Some(MergeFields(a.usage.GetOr([]), c.usage)) else a.usage,
             if a.model.Some? then a.model else c.model)
  }

  function Assembled(chunks: seq<seq<Field>>): Assembly {
    if chunks == [] then NOTHING else Consumed(Assembled(chunks[..|chunks| - 1]), chunks[|chunks| - 1])
  }

  lemma {:induction false} PartsOfChunk(chunk: seq<Field>)
    ensures ChunkOf(chunk).calls ==
            if ToolItems(chunk).Some? then Some(FragmentsOf(ToolItems(chunk).value)) else None
    ensures ChunkOf(chunk).usage == Record(Lookup(chunk, "usage")).GetOr([])
  {
  }

  class Accumulator {
    var reasoning: string
    var content: string
    var toolCalls: seq<AssembledToolCall>
    var toolsByIndex: map<real, nat>
    var finishReason: Option<string>
    var usage: Option<seq<Field>>
    var model: Option<string>

    ghost function View(): Assembly
      reads this
    {
      Assembly(reasoning, content, Tools(toolCalls, toolsByIndex), finishReason, usage, model)
    }

    constructor ()
      ensures View() == NOTHING
    {
      reasoning, content, toolCalls, toolsByIndex, finishReason, usage, model := "", "", [], map[], None, None, None;
    }

    method Snapshot() returns (a: Assembly)
      ensures a == View()
    {
      a := Assembly(reasoning, content, Tools(toolCalls, toolsByIndex), finishReason, usage, model);
    }

    method Load(a: Assembly)
      modifies this
      ensures View() == a
    {
      reasoning, content, toolCalls, toolsByIndex := a.reasoning, a.content, a.tools.calls, a.tools.byIndex;
      finishReason, usage, model := a.finishReason, a.usage, a.model;
    }

    // The loop over the elements of `tool_calls`.
    method ConsumeToolCalls(items: seq<Json>) returns (shown: string)
      modifies this`toolCalls, this`toolsByIndex
      ensures Tools(toolCalls, toolsByIndex) == AddFragments(old(Tools(toolCalls, toolsByIndex)), FragmentsOf(items))
      ensures shown == Label(FragmentsOf(items))
    {
      hide AddFragment, FragmentOf;
      shown := "";
      var k := 0;
      while k < |items|
        invariant 0 <= k <= |items|
        invariant Tools(toolCalls, toolsByIndex) ==
                  AddFragments(old(Tools(toolCalls, toolsByIndex)), FragmentsOf(items[..k]))
        invariant shown == Label(FragmentsOf(items[..k]))
      {
        var call := items[k];
        assert items[..k + 1][..k] == items[..k];
        k := k + 1;
        ghost var before := FragmentsOf(items[..k - 1]);
        if !call.Obj? {
          assert before + [] == before;
          continue;
        }
        var f := FragmentOf(call.fields);
        assert (before + [f])[..|before|] == before;
        MergeFragment(f);
        shown := shown + (f.name + f.arguments);
      }
      assert items[..k] == items;
    }

    method MergeFragment(f: Fragment)
      modifies this`toolCalls, this`toolsByIndex
      ensures Tools(toolCalls, toolsByIndex) == AddFragment(old(Tools(toolCalls, toolsByIndex)), f)
    {
      if f.index !in toolsByIndex || toolsByIndex[f.index] >= |toolCalls| {
        toolsByIndex := toolsByIndex[f.index := |toolCalls|];
        toolCalls := toolCalls + [AssembledToolCall(None, "", "")];
      }
      var at := toolsByIndex[f.index];
      var merged := toolCalls[at];
      if merged.id.None? { merged := merged.(id := f.id); }
      merged := merged.(name := merged.name + f.name);
      merged := merged.(arguments := merged.arguments + f.arguments);
      toolCalls := toolCalls[at := merged];
    }

    method MergeUsage(fields: seq<Field>)
      modifies this`usage
      ensures usage == Some(MergeFields(old(usage).GetOr([]), fields))
    {
      var merged := usage.GetOr([]);
      var k := 0;
      while k < |fields|
        invariant 0 <= k <= |fields|
        invariant merged == MergeFields(old(usage).GetOr([]), fields[..k])
      {
        assert fields[..k + 1][..k] == fields[..k];
        merged := Put(merged, fields[k].key, fields[k].value);
        k := k + 1;
      }
      assert fields[..k] == fields;
      usage := Some(merged);
    }

    method ConsumeOpenAiChunk(chunk: seq<Field>) returns (kind: Kind, text: string)
      modifies this
      ensures View() == Consumed(old(View()), chunk)
      ensures kind == KindOf(ChunkOf(chunk)) && text == TextOf(ChunkOf(chunk))
    {
      hide Lookup, FragmentsOf, AddFragments, MergeFields, Label, ChunkOf, ToolItems;
      PartsOfChunk(chunk);
      var c := ChunkOf(chunk);
      if model.None? { model := c.model; }
      var reported := Record(Lookup(chunk, "usage"));
      if reported.Some? { MergeUsage(reported.value); }
      if c.finish != "" { finishReason := Some(c.finish); }
      var calls := ToolItems(chunk);
      if calls.Some? {
        var shown := ConsumeToolCalls(calls.value);
        return ToolCall, shown;
      }
      if c.reasoning != "" {
        reasoning := reasoning + c.reasoning;
        return Reasoning, c.reasoning;
      }
      if c.content != "" {
        content := content + c.content;
        return Content, c.content;
      }
      if c.refusal != "" {
        content := content + c.refusal;
        return Content, c.refusal;
      }
      if c.finish != "" { return Finish, c.finish; }
      return Meta, c.role;
    }
  }

  // ---- The whole stream -----------------------------------------------------------------------

  type Parser = string -> Option<Json>

  const DONE := "[DONE]"

  // The JSON object an event carries, if it carries one.
  function Payload(w: WireEvent, parse: Parser): Option<seq<Field>> {
    if w.data == DONE then None else Record(parse(w.data))
  }

  // The consumer an event with a payload goes to.
  datatype Branch = Responses | Gemini | Anthropic | Chat

  const RESPONSE_PREFIX := "response."

  predicate NamesResponse(name: Option<string>) {
    name.Some? && StartsWith(name.value, RESPONSE_PREFIX)
  }

  function BranchOf(event: Option<string>, payload: seq<Field>): Branch {
    var kind, candidates := Text(Lookup(payload, "type")), Lookup(payload, "candidates");
    if NamesResponse(kind) || NamesResponse(event) then Responses
    else if kind.None? && event.None? && candidates.Some? && candidates.value.Arr? then Gemini
    else if kind.Some? || event.Some? then Anthropic
    else Chat
  }

  // An event that goes to the chat branch, or to none.
  predicate IsChat(w: WireEvent, parse: Parser) {
    Payload(w, parse).Some? ==> BranchOf(w.event, Payload(w, parse).value) == Chat
  }

  predicate IsChatStream(wires: seq<WireEvent>, parse: Parser) {
    forall k :: 0 <= k < |wires| ==> IsChat(wires[k], parse)
  }

  function Payloads(wires: seq<WireEvent>, parse: Parser): seq<seq<Field>> {
    if wires == [] then []
    else
      var last := Payload(wires[|wires| - 1], parse);
      Payloads(wires[..|wires| - 1], parse) + if last.Some? then [last.value] else []
  }

  function EventOf(index: nat, w: WireEvent, parse: Parser): SseEvent {
    var p := Payload(w, parse);
    if w.data == DONE then SseEvent(index, w.event, Done, DONE, None, w.data)
    else if p.None? then SseEvent(index, w.event, Other, w.data, None, w.data)
    else SseEvent(index, w.event, KindOf(ChunkOf(p.value)), TextOf(ChunkOf(p.value)), Some(Obj(p.value)), w.data)
  }

  lemma NextEvent(wires: seq<WireEvent>, k: nat, parse: Parser)
    requires k < |wires|
    ensures var p, before := Payload(wires[k], parse), Assembled(Payloads(wires[..k], parse));
            Assembled(Payloads(wires[..k + 1], parse)) == if p.Some? then Consumed(before, p.value) else before
  {
    hide Consumed, Payload;
    assert wires[..k + 1][..k] == wires[..k];
    var before, p := Payloads(wires[..k], parse), Payload(wires[k], parse);
    if p.Some? { assert (before + [p.value])[..|before|] == before; } else { assert before + [] == before; }
  }

  // What the consumers of the other branches make of the events so far, the last of which
  // is theirs, and of the assembly so far.
  datatype Consumption = Consumption(assembly: Assembly, kind: Kind, text: string)

  type Foreign = (Branch, seq<WireEvent>, Assembly) -> Consumption

  datatype Parsing = Parsing(events: seq<SseEvent>, assembly: Assembly)

  function ConsumptionOf(before: Assembly, seen: seq<WireEvent>, payload: seq<Field>, foreign: Foreign): Consumption
    requires seen != []
  {
    var branch := BranchOf(seen[|seen| - 1].event, payload);
    if branch != Chat then foreign(branch, seen, before)
    else Consumption(Consumed(before, payload), KindOf(ChunkOf(payload)), TextOf(ChunkOf(payload)))
  }

  function Parsed(wires: seq<WireEvent>, parse: Parser, foreign: Foreign): Parsing {
    if wires == [] then Parsing([], NOTHING)
    else
      var n := |wires| - 1;
      var before, w := Parsed(wires[..n], parse, foreign), wires[n];
      var p := Payload(w, parse);
      if w.data == DONE then before.(events := before.events + [SseEvent(n, w.event, Done, DONE, None, w.data)])
      else if p.None? then before.(events := before.events + [SseEvent(n, w.event, Other, w.data, None, w.data)])
      else
        var c := ConsumptionOf(before.assembly, wires, p.value, foreign);
        Parsing(before.events + [SseEvent(n, w.event, c.kind, c.text, Some(Obj(p.value)), w.data)], c.assembly)
  }

  lemma {:induction false} EveryWireHasAnEvent(wires: seq<WireEvent>, parse: Parser, foreign: Foreign)
    ensures var events := Parsed(wires, parse, foreign).events;
            && |events| == |wires|
            && (forall k :: 0 <= k < |events| ==>
                  events[k].index == k && events[k].event == wires[k].event && events[k].raw == wires[k].data)
  {
    hide ConsumptionOf, Payload;
    if wires != [] {
      var init := wires[..|wires| - 1];
      EveryWireHasAnEvent(init, parse, foreign);
      assert forall k :: 0 <= k < |init| ==> init[k] == wires[k];
    }
  }

  method ParseSseStream(raw: string, parse: Parser, foreign: Foreign)
    returns (events: seq<SseEvent>, assembled: Assembly)
    ensures Parsing(events, assembled) == Parsed(WireEvents(raw), parse, foreign)
  {
    hide Consumed, KindOf, TextOf, ChunkOf, WireEvents, Record, BranchOf;
    var acc := new Accumulator();
    events := [];
    var wires := SplitWireEvents(raw);
    var k := 0;
    assert wires[..0] == [];
    while k < |wires|
      invariant 0 <= k <= |wires| && |events| == k && fresh(acc)
      invariant Parsing(events, acc.View()) == Parsed(wires[..k], parse, foreign)
    {
      var wire, seen := wires[k], wires[..k + 1];
      assert seen[..k] == wires[..k] && seen[k] == wire;
      k := k + 1;
      if wire.data == DONE {
        events := events + [SseEvent(|events|, wire.event, Done, DONE, None, wire.data)];
        continue;
      }
      var payload := Record(parse(wire.data));
      if payload.None? {
        events := events + [SseEvent(|events|, wire.event, Other, wire.data, None, wire.data)];
        continue;
      }
      var branch := BranchOf(wire.event, payload.value);
      var kind, text;
      if branch == Chat {
        kind, text := acc.ConsumeOpenAiChunk(payload.value);
      } else {
        var before := acc.Snapshot();
        var consumed := foreign(branch, seen, before);
        acc.Load(consumed.assembly);
        kind, text := consumed.kind, consumed.text;
      }
      events := events + [SseEvent(|events|, wire.event, kind, text, Some(Obj(payload.value)), wire.data)];
    }
    assert wires[..k] == wires;
    assembled := acc.Snapshot();
  }

  lemma {:induction false} ParsedChat(wires: seq<WireEvent>, parse: Parser, foreign: Foreign)
    requires wires != [] && IsChat(wires[|wires| - 1], parse)
    ensures var n := |wires| - 1;
            var before, after := Parsed(wires[..n], parse, foreign), Parsed(wires, parse, foreign);
            var p := Payload(wires[n], parse);
            && after.events == before.events + [EventOf(n, wires[n], parse)]
            && after.assembly == if p.Some? then Consumed(before.assembly, p.value) else before.assembly
  {
    hide Consumed, KindOf, TextOf, ChunkOf, BranchOf, Record;
  }

  // Of a chat stream the other consumers see nothing: its events are read one by one and
  // its assembly is that of its chunks.
  lemma {:induction false} ChatStreamIsItsChunks(wires: seq<WireEvent>, parse: Parser, foreign: Foreign)
    requires IsChatStream(wires, parse)
    ensures var parsed := Parsed(wires, parse, foreign);
            && |parsed.events| == |wires|
            && (forall k :: 0 <= k < |wires| ==> parsed.events[k] == EventOf(k, wires[k], parse))
            && parsed.assembly == Assembled(Payloads(wires, parse))
  {
    hide Consumed, EventOf, Payload, Parsed, IsChat, Assembled, Payloads;
    if wires == [] {
      NothingAssembled(parse);
      NothingParsed(parse, foreign);
    } else {
      var n := |wires| - 1;
      var init := wires[..n];
      assert forall k :: 0 <= k < n ==> init[k] == wires[k];
      ChatStreamIsItsChunks(init, parse, foreign);
      NextEvent(wires, n, parse);
      assert wires[..n + 1] == wires;
      ParsedChat(wires, parse, foreign);
    }
  }

  lemma NothingParsed(parse: Parser, foreign: Foreign)
    ensures Parsed([], parse, foreign) == Parsing([], NOTHING)
  {
  }

  lemma NothingAssembled(parse: Parser)
    ensures Assembled(Payloads([], parse)) == NOTHING
  {
  }

  // ---- Tool calls, one index at a time ----------------------------------------------------------

  // Every fragment of the stream, in stream order.
  function StreamFragments(chunks: seq<seq<Field>>): seq<Fragment> {
    if chunks == [] then []
    else StreamFragments(chunks[..|chunks| - 1]) + ChunkOf(chunks[|chunks| - 1]).calls.GetOr([])
  }

  function ArgumentsOf(fragments: seq<Fragment>, index: real): string {
    if fragments == [] then ""
    else
      ArgumentsOf(fragments[..|fragments| - 1], index) +
      if fragments[|fragments| - 1].index == index then fragments[|fragments| - 1].arguments else ""
  }

  function NameOf(fragments: seq<Fragment>, index: real): string {
    if fragments == [] then ""
    else
      NameOf(fragments[..|fragments| - 1], index) +
      if fragments[|fragments| - 1].index == index then fragments[|fragments| - 1].name else ""
  }

  function FirstId(fragments: seq<Fragment>, index: real): Option<string> {
    if fragments == [] then None
    else
      var earlier := FirstId(fragments[..|fragments| - 1], index);
      if earlier.Some? || fragments[|fragments| - 1].index != index then earlier else fragments[|fragments| - 1].id
  }

  // The indices of the stream in the order of their first fragment.
  function Indices(fragments: seq<Fragment>): (indices: seq<real>)
    ensures forall index :: index in indices <==> exists k :: 0 <= k < |fragments| && fragments[k].index == index
    ensures forall i, j :: 0 <= i < j < |indices| ==> indices[i] != indices[j]
  {
    if fragments == [] then []
    else
      var init, last := fragments[..|fragments| - 1], fragments[|fragments| - 1];
      assert forall k :: 0 <= k < |init| ==> init[k] == fragments[k];
      assert fragments[|fragments| - 1].index == last.index;
      if last.index in Indices(init) then Indices(init) else Indices(init) + [last.index]
  }

  // One call for each index, in the order of Indices, made of that index's fragments only.
  ghost predicate CallsOf(t: Tools, fragments: seq<Fragment>) {
    var indices := Indices(fragments);
    && |t.calls| == |indices|
    && (forall index :: index in t.byIndex <==> index in indices)
    && (forall p :: 0 <= p < |indices| ==>
          && t.byIndex[indices[p]] == p
          && t.calls[p] == AssembledToolCall(FirstId(fragments, indices[p]), NameOf(fragments, indices[p]),
                                             ArgumentsOf(fragments, indices[p])))
  }

  lemma {:induction false} AbsentIndexIsEmpty(fragments: seq<Fragment>, index: real)
    requires index !in Indices(fragments)
    ensures ArgumentsOf(fragments, index) == "" && NameOf(fragments, index) == "" && FirstId(fragments, index) == None
  {
    if fragments != [] {
      assert fragments[|fragments| - 1].index != index;
      AbsentIndexIsEmpty(fragments[..|fragments| - 1], index);
    }
  }

  lemma AddFragmentKeepsCalls(t: Tools, fragments: seq<Fragment>, f: Fragment)
    requires CallsOf(t, fragments)
    ensures CallsOf(AddFragment(t, f), fragments + [f])
  {
    hide FirstId, NameOf, ArgumentsOf;
    var all, indices := fragments + [f], Indices(fragments);
    assert all[..|all| - 1] == fragments;
    forall p | 0 <= p < |indices| && indices[p] != f.index
      ensures PartsFrom(all, indices[p]) == PartsFrom(fragments, indices[p])
    {
      OtherFragment(fragments, f, indices[p]);
    }
    OwnFragment(fragments, f);
    if f.index in indices {
      var at :| 0 <= at < |indices| && indices[at] == f.index;
      assert t.byIndex[f.index] == at;
    } else {
      AbsentIndexIsEmpty(fragments, f.index);
    }
  }

  // The call that the fragments of one index make.
  function PartsFrom(fragments: seq<Fragment>, index: real): AssembledToolCall {
    AssembledToolCall(FirstId(fragments, index), NameOf(fragments, index), ArgumentsOf(fragments, index))
  }

  lemma OtherFragment(fragments: seq<Fragment>, f: Fragment, index: real)
    requires f.index != index
    ensures PartsFrom(fragments + [f], index) == PartsFrom(fragments, index)
  {
    assert (fragments + [f])[..|fragments|] == fragments;
    assert NameOf(fragments, index) + "" == NameOf(fragments, index);
    assert ArgumentsOf(fragments, index) + "" == ArgumentsOf(fragments, index);
  }

  lemma OwnFragment(fragments: seq<Fragment>, f: Fragment)
    ensures PartsFrom(fragments + [f], f.index) == Merged(PartsFrom(fragments, f.index), f)
  {
    assert (fragments + [f])[..|fragments|] == fragments;
  }

  lemma {:induction false} CallsFollowFragments(fragments: seq<Fragment>)
    ensures CallsOf(AddFragments(NO_TOOLS, fragments), fragments)
  {
    hide CallsOf, AddFragment;
    if fragments == [] {
      NoCalls();
    } else {
      var init := fragments[..|fragments| - 1];
      CallsFollowFragments(init);
      AddFragmentKeepsCalls(AddFragments(NO_TOOLS, init), init, fragments[|fragments| - 1]);
      assert init + [fragments[|fragments| - 1]] == fragments;
    }
  }

  lemma NoCalls()
    ensures CallsOf(NO_TOOLS, [])
  {
  }

  lemma {:induction false} AddFragmentsAppend(t: Tools, a: seq<Fragment>, b: seq<Fragment>)
    ensures AddFragments(t, a + b) == AddFragments(AddFragments(t, a), b)
  {
    hide AddFragment;
    if b == [] {
      assert a + b == a;
    } else {
      assert (a + b)[..|a + b| - 1] == a + b[..|b| - 1];
      AddFragmentsAppend(t, a, b[..|b| - 1]);
    }
  }

  lemma {:induction false} ToolsAreFragments(chunks: seq<seq<Field>>)
    ensures Assembled(chunks).tools == AddFragments(NO_TOOLS, StreamFragments(chunks))
  {
    hide ChunkOf, AddFragments, KindOf, TextOf, MergeFields;
    if chunks == [] {
      NoFragments();
    } else {
      var init := chunks[..|chunks| - 1];
      var calls := ChunkOf(chunks[|chunks| - 1]).calls;
      ToolsAreFragments(init);
      AddFragmentsAppend(NO_TOOLS, StreamFragments(init), calls.GetOr([]));
      NoFragments();
      assert StreamFragments(init) + [] == StreamFragments(init);
    }
  }

  lemma NoFragments()
    ensures AddFragments(NO_TOOLS, []) == NO_TOOLS
  {
  }

  // However the fragments of different indices are interleaved, and over however many
  // chunks: the stream has one tool call for each index, in the order the indices first
  // appear, whose arguments and name are those of that index's fragments in stream order
  // and whose id is the first one given.
  lemma {:induction false} ToolCallsAreAssembledByIndex(chunks: seq<seq<Field>>)
    ensures CallsOf(Assembled(chunks).tools, StreamFragments(chunks))
  {
    ToolsAreFragments(chunks);
    CallsFollowFragments(StreamFragments(chunks));
  }

  // ---- Visible text ------------------------------------------------------------------------------

  function TextOfKind(events: seq<SseEvent>, kind: Kind): string {
    if events == [] then ""
    else
      var last := events[|events| - 1];
      TextOfKind(events[..|events| - 1], kind) + if last.kind == kind then last.text else ""
  }

  lemma OneEventText(a: Assembly, w: WireEvent, index: nat, parse: Parser)
    ensures var p, e := Payload(w, parse), EventOf(index, w, parse);
            var t := if p.Some? then Consumed(a, p.value) else a;
            && t.content == a.content + (if e.kind == Content then e.text else "")
            && t.reasoning == a.reasoning + (if e.kind == Reasoning then e.text else "")
  {
    hide ChunkOf, AddFragments, MergeFields, Label, Lookup;
    assert a.content + "" == a.content && a.reasoning + "" == a.reasoning;
  }

  // The assembled content and reasoning are the texts of the content and the reasoning
  // events, in order.
  lemma {:induction false} AssemblyIsEventTexts(wires: seq<WireEvent>, parse: Parser, events: seq<SseEvent>)
    requires |events| == |wires| && forall k :: 0 <= k < |events| ==> events[k] == EventOf(k, wires[k], parse)
    ensures Assembled(Payloads(wires, parse)).content == TextOfKind(events, Content)
    ensures Assembled(Payloads(wires, parse)).reasoning == TextOfKind(events, Reasoning)
  {
    hide Consumed, EventOf, Payload, Assembled, Payloads;
    if wires == [] {
      NothingAssembled(parse);
    } else {
      var n := |wires| - 1;
      AssemblyIsEventTexts(wires[..n], parse, events[..n]);
      NextEvent(wires, n, parse);
      assert wires[..n + 1] == wires;
      OneEventText(Assembled(Payloads(wires[..n], parse)), wires[n], n, parse);
    }
  }

  // The visible text the deltas carry: content, then refusal.
  function Visible(chunks: seq<seq<Field>>): string {
    if chunks == [] then ""
    else
      var c := ChunkOf(chunks[|chunks| - 1]);
      Visible(chunks[..|chunks| - 1]) + (c.content + c.refusal)
  }

  // A chunk whose visible text is left out: it has a `tool_calls` array, even an empty
  // one, or reasoning, or both a content and a refusal.
  predicate DropsText(chunk: seq<Field>) {
    var c := ChunkOf(chunk);
    || ((c.content != "" || c.refusal != "") && (c.calls.Some? || c.reasoning != ""))
    || (c.content != "" && c.refusal != "")
  }

  lemma {:induction false} ContentIsNoLonger(chunks: seq<seq<Field>>)
    ensures |Assembled(chunks).content| <= |Visible(chunks)|
    ensures |Assembled(chunks).content| == |Visible(chunks)| <==>
            forall k :: 0 <= k < |chunks| ==> !DropsText(chunks[k])
  {
    hide ChunkOf, AddFragments, MergeFields, Label, Lookup;
    if chunks != [] {
      var init, last := chunks[..|chunks| - 1], chunks[|chunks| - 1];
      ContentIsNoLonger(init);
      assert forall k :: 0 <= k < |init| ==> init[k] == chunks[k];
      OneChunkContent(Assembled(init), last);
    }
  }

  lemma OneChunkContent(a: Assembly, chunk: seq<Field>)
    ensures var c, t := ChunkOf(chunk), Consumed(a, chunk);
            && |t.content| <= |a.content| + |c.content| + |c.refusal|
            && (|t.content| == |a.content| + |c.content| + |c.refusal| <==> !DropsText(chunk))
            && (!DropsText(chunk) ==> t.content == a.content + (c.content + c.refusal))
  {
    hide ChunkOf, AddFragments, MergeFields, Label, Lookup;
    var c := ChunkOf(chunk);
    assert "" + c.refusal == c.refusal && c.content + "" == c.content;
  }

  lemma {:induction false} ContentIsVisible(chunks: seq<seq<Field>>)
    requires forall k :: 0 <= k < |chunks| ==> !DropsText(chunks[k])
    ensures Assembled(chunks).content == Visible(chunks)
  {
    hide ChunkOf, Consumed, DropsText;
    if chunks != [] {
      var init := chunks[..|chunks| - 1];
      assert forall k :: 0 <= k < |init| ==> init[k] == chunks[k];
      ContentIsVisible(init);
      OneChunkContent(Assembled(init), chunks[|chunks| - 1]);
    }
  }

  // The content is everything visible that was sent exactly when no chunk drops text.
  lemma {:induction false} ContentIsCompleteIff(chunks: seq<seq<Field>>)
    ensures Assembled(chunks).content == Visible(chunks) <==> forall k :: 0 <= k < |chunks| ==> !DropsText(chunks[k])
  {
    hide DropsText, Assembled, Visible;
    ContentIsNoLonger(chunks);
    if forall k :: 0 <= k < |chunks| ==> !DropsText(chunks[k]) { ContentIsVisible(chunks); }
  }

  // A chunk whose delta has a content and an empty list of tool calls.
  function EmptyCallsChunk(): seq<Field> {
    [Field("choices", Arr([Obj([Field("delta", Obj(EmptyCallsDelta()))])]))]
  }

  function EmptyCallsDelta(): seq<Field> {
    [Field("content", Str("hi")), Field("tool_calls", Arr([]))]
  }

  lemma DeltaOfEmptyCalls()
    ensures Delta(EmptyCallsChunk()) == EmptyCallsDelta()
  {
    var delta := Field("delta", Obj(EmptyCallsDelta()));
    assert Lookup(EmptyCallsChunk(), "choices") == Some(Arr([Obj([delta])]));
    assert Lookup([delta], "delta") == Some(delta.value);
  }

  // Its text is visible and never reaches the content.
  lemma EmptyToolCallsHideContent()
    ensures Visible([EmptyCallsChunk()]) == "hi" && Assembled([EmptyCallsChunk()]).content == ""
  {
    hide AddFragments, MergeFields, Label;
    var delta := EmptyCallsDelta();
    DeltaOfEmptyCalls();
    KeysDiffer();
    assert delta[1..] == [Field("tool_calls", Arr([]))] && delta[1..][1..] == [];
    assert Lookup(delta, "content") == Some(Str("hi"));
    assert Lookup(delta[1..], "tool_calls") == Some(Arr([]));
    assert Lookup(delta, "tool_calls") == Some(Arr([]));
    assert Lookup([], "refusal") == None && Lookup(delta[1..], "refusal") == None && Lookup(delta, "refusal") == None;
    var c := ChunkOf(EmptyCallsChunk());
    assert c.content == "hi" && c.refusal == "" && c.calls.Some?;
    assert [EmptyCallsChunk()][..0] == [];
    assert "" + ("hi" + "") == "hi";
  }

  lemma KeysDiffer()
    ensures "content" != "tool_calls" && "content" != "refusal" && "tool_calls" != "refusal"
  {
    assert |"content"| == 7 && |"tool_calls"| == 10 && |"refusal"| == 7;
    assert "content"[0] == 'c' && "refusal"[0] == 'r';
  }

  // ---- Terminal status, model and usage ---------------------------------------------------------

  function LastFinish(chunks: seq<seq<Field>>): Option<string> {
    if chunks == [] then None
    else if ChunkOf(chunks[|chunks| - 1]).finish != "" then Some(ChunkOf(chunks[|chunks| - 1]).finish)
    else LastFinish(chunks[..|chunks| - 1])
  }

  function FirstModel(chunks: seq<seq<Field>>): Option<string> {
    if chunks == [] then None
    else
      var c := ChunkOf(chunks[0]);
      if c.model.Some? then c.model else FirstModel(chunks[1..])
  }

  lemma {:induction false} FirstModelSnoc(chunks: seq<seq<Field>>, last: seq<Field>)
    ensures FirstModel(chunks + [last]) ==
            if FirstModel(chunks).Some? then FirstModel(chunks) else ChunkOf(last).model
  {
    hide ChunkOf;
    if chunks == [] {
      assert FirstModel([]) == None;
      assert ([last])[1..] == [];
      assert chunks + [last] == [last];
    } else {
      assert (chunks + [last])[1..] == chunks[1..] + [last];
      FirstModelSnoc(chunks[1..], last);
    }
  }

  // The finish reason is the last one sent, also when it comes with text; the model is the
  // first one named.
  lemma {:induction false} FinishIsLastModelIsFirst(chunks: seq<seq<Field>>)
    ensures Assembled(chunks).finishReason == LastFinish(chunks)
    ensures Assembled(chunks).model == FirstModel(chunks)
  {
    hide ChunkOf, AddFragments, MergeFields, Label, Lookup, FirstModel;
    if chunks == [] {
      assert FirstModel([]) == None by { NoModel(); }
    } else {
      var init, last := chunks[..|chunks| - 1], chunks[|chunks| - 1];
      FinishIsLastModelIsFirst(init);
      FirstModelSnoc(init, last);
      assert init + [last] == chunks;
    }
  }

  lemma NoModel()
    ensures FirstModel([]) == None
  {
  }

  // In the merged usage a later chunk's entry replaces an earlier one, and no entry is lost.
  lemma {:induction false} UsageKeepsLatest(earlier: seq<Field>, fields: seq<Field>, key: string)
    requires DistinctKeys(fields)
    ensures Lookup(MergeFields(earlier, fields), key) ==
            if key in Keys(fields) then Lookup(fields, key) else Lookup(earlier, key)
  {
    if fields != [] {
      var init, last := fields[..|fields| - 1], fields[|fields| - 1];
      UsageKeepsLatest(earlier, init, key);
      LookupPut(MergeFields(earlier, init), last.key, last.value, key);
      assert forall i :: 0 <= i < |init| ==> init[i] == fields[i];
      if last.key == key {
        LookupAt(fields, |fields| - 1);
      } else if key in Keys(init) {
        var i :| 0 <= i < |init| && init[i].key == key;
        LookupAt(init, i);
        LookupAt(fields, i);
      }
    }
  }
}
