// A chat stream from the server's side: what the server put into its chunks, the JSON it
// made of them, and what the viewer assembles again (consumeOpenAiChunk in
// apps/admin/src/lib/sse.ts).
module ChatSender {
  import opened JsonValues
  import opened ChatStream

  // ---- What a server sends ---------------------------------------------------------------

  // A piece of a tool call; a call without an index is call 0.
  datatype SentCall = SentCall(index: Option<real>, id: Option<string>, name: Option<string>, arguments: Option<string>)

  datatype SentChunk = SentChunk(
    model: Option<string>,
    usage: Option<seq<Field>>,
    finish: Option<string>,
    role: Option<string>,
    content: Option<string>,
    refusal: Option<string>,
    reasoningContent: Option<string>,
    reasoning: Option<string>,
    calls: Option<seq<SentCall>>)

  function OptionalText(key: string, text: Option<string>): seq<Field> {
    if text.Some? then [Field(key, Str(text.value))] else []
  }

  function EncodeFunction(c: SentCall): Json {
    Obj(OptionalText("name", c.name) + OptionalText("arguments", c.arguments))
  }

  function EncodeCall(c: SentCall): Json {
    Obj((if c.index.Some? then [Field("index", Num(c.index.value))] else []) + OptionalText("id", c.id) +
        [Field("function", EncodeFunction(c))])
  }

  function EncodeCalls(calls: seq<SentCall>): seq<Json> {
    if calls == [] then [] else EncodeCalls(calls[..|calls| - 1]) + [EncodeCall(calls[|calls| - 1])]
  }

  function EncodeDelta(s: SentChunk): seq<Field> {
    OptionalText("role", s.role) + OptionalText("content", s.content) + OptionalText("refusal", s.refusal) +
    OptionalText("reasoning_content", s.reasoningContent) + OptionalText("reasoning", s.reasoning) +
    if s.calls.Some? then [Field("tool_calls", Arr(EncodeCalls(s.calls.value)))] else []
  }

  function EncodeChoice(s: SentChunk): seq<Field> {
    [Field("delta", Obj(EncodeDelta(s)))] + OptionalText("finish_reason", s.finish)
  }

  function EncodeChunk(s: SentChunk): seq<Field> {
    OptionalText("model", s.model) + [Field("choices", Arr([Obj(EncodeChoice(s))]))] +
    if s.usage.Some? then [Field("usage", Obj(s.usage.value))] else []
  }

  function EncodeAll(sent: seq<SentChunk>): seq<seq<Field>> {
    if sent == [] then [] else EncodeAll(sent[..|sent| - 1]) + [EncodeChunk(sent[|sent| - 1])]
  }

  // ---- What a viewer should show of it ------------------------------------------------------

  function IndexOf(c: SentCall): real {
    c.index.GetOr(0.0)
  }

  // Every piece of the stream, in the order sent.
  function Pieces(sent: seq<SentChunk>): seq<SentCall> {
    if sent == [] then [] else Pieces(sent[..|sent| - 1]) + sent[|sent| - 1].calls.GetOr([])
  }

  function SentArguments(pieces: seq<SentCall>, index: real): string {
    if pieces == [] then ""
    else
      var last := pieces[|pieces| - 1];
      SentArguments(pieces[..|pieces| - 1], index) + if IndexOf(last) == index then last.arguments.GetOr("") else ""
  }

  function SentName(pieces: seq<SentCall>, index: real): string {
    if pieces == [] then ""
    else
      var last := pieces[|pieces| - 1];
      SentName(pieces[..|pieces| - 1], index) + if IndexOf(last) == index then last.name.GetOr("") else ""
  }

  function SentId(pieces: seq<SentCall>, index: real): Option<string> {
    if pieces == [] then None
    else
      var last, earlier := pieces[|pieces| - 1], SentId(pieces[..|pieces| - 1], index);
      if earlier.Some? || IndexOf(last) != index then earlier else last.id
  }

  // The indices in the order of their first piece.
  function SentIndices(pieces: seq<SentCall>): seq<real> {
    if pieces == [] then []
    else
      var earlier, index := SentIndices(pieces[..|pieces| - 1]), IndexOf(pieces[|pieces| - 1]);
      if index in earlier then earlier else earlier + [index]
  }

  function SentReasoning(s: SentChunk): string {
    if s.reasoningContent.Some? then s.reasoningContent.value else s.reasoning.GetOr("")
  }

  // A chunk shows one thing: its tool calls, else its reasoning, else its text.
  function ShownReasoning(s: SentChunk): string {
    if s.calls.Some? then "" else SentReasoning(s)
  }

  function ShownText(s: SentChunk): string {
    if s.calls.Some? || SentReasoning(s) != "" then ""
    else if s.content.GetOr("") != "" then s.content.value
    else s.refusal.GetOr("")
  }

  function AllReasoning(sent: seq<SentChunk>): string {
    if sent == [] then "" else AllReasoning(sent[..|sent| - 1]) + ShownReasoning(sent[|sent| - 1])
  }

  function AllText(sent: seq<SentChunk>): string {
    if sent == [] then "" else AllText(sent[..|sent| - 1]) + ShownText(sent[|sent| - 1])
  }

  function FinalReason(sent: seq<SentChunk>): Option<string> {
    if sent == [] then None
    else if sent[|sent| - 1].finish.GetOr("") != "" then sent[|sent| - 1].finish
    else FinalReason(sent[..|sent| - 1])
  }

  function NamedModel(sent: seq<SentChunk>): Option<string> {
    if sent == [] then None
    else
      var earlier := NamedModel(sent[..|sent| - 1]);
      if earlier.Some? then earlier else sent[|sent| - 1].model
  }

  // The last value sent for an entry of the usage.
  function SentUsage(sent: seq<SentChunk>, key: string): Option<Json> {
    if sent == [] then None
    else
      var own := Lookup(sent[|sent| - 1].usage.GetOr([]), key);
      if own.Some? then own else SentUsage(sent[..|sent| - 1], key)
  }

  // The event that the viewer lists for a chunk.
  function ShownKind(s: SentChunk): Kind {
    if s.calls.Some? then ToolCall
    else if SentReasoning(s) != "" then Reasoning
    else if ShownText(s) != "" then Content
    else if s.finish.GetOr("") != "" then Finish
    else Meta
  }

  function CallTexts(calls: seq<SentCall>): string {
    if calls == [] then ""
    else
      var last := calls[|calls| - 1];
      CallTexts(calls[..|calls| - 1]) + (last.name.GetOr("") + last.arguments.GetOr(""))
  }

  function ShownEvent(s: SentChunk): string {
    match ShownKind(s)
    case ToolCall => CallTexts(s.calls.GetOr([]))
    case Reasoning => SentReasoning(s)
    case Content => ShownText(s)
    case Finish => s.finish.GetOr("")
    case _ => s.role.GetOr("")
  }

  // ---- Reading the JSON -----------------------------------------------------------------------

  lemma {:induction false} LookupAppend(a: seq<Field>, b: seq<Field>, key: string)
    ensures Lookup(a + b, key) == if Lookup(a, key).Some? then Lookup(a, key) else Lookup(b, key)
  {
    if a == [] {
      assert a + b == b;
    } else {
      LookupAppend(a[1..], b, key);
      assert (a + b)[0] == a[0] && (a + b)[1..] == a[1..] + b;
    }
  }

  lemma {:induction false} LookupOne(key: string, value: Json, other: string)
    ensures Lookup([Field(key, value)], other) == if key == other then Some(value) else None
  {
  }

  lemma {:induction false} LookupOptional(key: string, text: Option<string>, other: string)
    ensures Lookup(OptionalText(key, text), other) ==
            if key == other && text.Some? then Some(Str(text.value)) else None
  {
  }

  lemma CallKeysDiffer()
    ensures "index" != "id" && "index" != "function" && "id" != "function" && "name" != "arguments"
  {
    assert |"index"| == 5 && |"id"| == 2 && |"function"| == 8 && |"name"| == 4 && |"arguments"| == 9;
  }

  lemma CallIsRead(c: SentCall)
    ensures EncodeCall(c).Obj?
    ensures FragmentOf(EncodeCall(c).fields) ==
            Fragment(IndexOf(c), c.id, c.name.GetOr(""), c.arguments.GetOr(""))
  {
    CallKeysDiffer();
    var index := if c.index.Some? then [Field("index", Num(c.index.value))] else [];
    var id, fn := OptionalText("id", c.id), [Field("function", EncodeFunction(c))];
    var name, arguments := OptionalText("name", c.name), OptionalText("arguments", c.arguments);
    hide Lookup, OptionalText;
    CallFieldsAre(index, id, fn, "index");
    CallFieldsAre(index, id, fn, "id");
    CallFieldsAre(index, id, fn, "function");
    IndexFieldIs(c, "index");
    IndexFieldIs(c, "id");
    IndexFieldIs(c, "function");
    LookupOptional("id", c.id, "index");
    LookupOptional("id", c.id, "id");
    LookupOptional("id", c.id, "function");
    LookupOne("function", EncodeFunction(c), "index");
    LookupOne("function", EncodeFunction(c), "id");
    LookupOne("function", EncodeFunction(c), "function");
    LookupAppend(name, arguments, "name");
    LookupAppend(name, arguments, "arguments");
    LookupOptional("name", c.name, "name");
    LookupOptional("name", c.name, "arguments");
    LookupOptional("arguments", c.arguments, "name");
    LookupOptional("arguments", c.arguments, "arguments");
  }

  lemma IndexFieldIs(c: SentCall, key: string)
    ensures Lookup(if c.index.Some? then [Field("index", Num(c.index.value))] else [], key) ==
            if c.index.Some? && key == "index" then Some(Num(c.index.value)) else None
  {
    if c.index.Some? { LookupOne("index", Num(c.index.value), key); }
  }

  lemma {:induction false} CallFieldsAre(a: seq<Field>, b: seq<Field>, c: seq<Field>, key: string)
    ensures Lookup(a + b + c, key) ==
            if Lookup(a, key).Some? then Lookup(a, key)
            else if Lookup(b, key).Some? then Lookup(b, key)
            else Lookup(c, key)
  {
    LookupAppend(a + b, c, key);
    LookupAppend(a, b, key);
  }

  // The pieces as the assembly knows them.
  function Fragments(calls: seq<SentCall>): seq<Fragment> {
    if calls == [] then []
    else
      var last := calls[|calls| - 1];
      Fragments(calls[..|calls| - 1]) +
      [Fragment(IndexOf(last), last.id, last.name.GetOr(""), last.arguments.GetOr(""))]
  }

  lemma {:induction false} CallsAreRead(calls: seq<SentCall>)
    ensures FragmentsOf(EncodeCalls(calls)) == Fragments(calls)
  {
    hide FragmentOf, EncodeCall;
    if calls != [] {
      var init := calls[..|calls| - 1];
      CallsAreRead(init);
      CallIsRead(calls[|calls| - 1]);
      var encoded := EncodeCalls(calls);
      assert encoded[..|encoded| - 1] == EncodeCalls(init);
    }
  }

  lemma DeltaKeysDiffer()
    ensures "role" != "content" && "role" != "refusal" && "role" != "reasoning_content" && "role" != "reasoning"
    ensures "role" != "tool_calls" && "content" != "refusal" && "content" != "reasoning_content"
    ensures "content" != "reasoning" && "content" != "tool_calls" && "refusal" != "reasoning_content"
    ensures "refusal" != "reasoning" && "refusal" != "tool_calls" && "reasoning_content" != "reasoning"
    ensures "reasoning_content" != "tool_calls" && "reasoning" != "tool_calls"
  {
    assert |"role"| == 4 && |"content"| == 7 && |"refusal"| == 7 && |"reasoning_content"| == 17 && |"reasoning"| == 9;
    assert |"tool_calls"| == 10 && "content"[0] == 'c' && "refusal"[0] == 'r';
  }

  // What the delta of a chunk has under a key.
  function DeltaAt(s: SentChunk, key: string): Option<Json> {
    var text := if key == "role" then s.role
                else if key == "content" then s.content
                else if key == "refusal" then s.refusal
                else if key == "reasoning_content" then s.reasoningContent
                else if key == "reasoning" then s.reasoning
                else None;
    if key == "tool_calls" && s.calls.Some? then Some(Arr(EncodeCalls(s.calls.value)))
    else if text.Some? then Some(Str(text.value)) else None
  }

  lemma CallsFieldIs(s: SentChunk, key: string)
    ensures Lookup(if s.calls.Some? then [Field("tool_calls", Arr(EncodeCalls(s.calls.value)))] else [], key) ==
            if s.calls.Some? && key == "tool_calls" then Some(Arr(EncodeCalls(s.calls.value))) else None
  {
    if s.calls.Some? { LookupOne("tool_calls", Arr(EncodeCalls(s.calls.value)), key); }
  }

  lemma {:induction false} DeltaIsRead(s: SentChunk, key: string)
    ensures Lookup(EncodeDelta(s), key) == DeltaAt(s, key)
  {
    DeltaKeysDiffer();
    var role, content, refusal := OptionalText("role", s.role), OptionalText("content", s.content),
                                  OptionalText("refusal", s.refusal);
    var long, short := OptionalText("reasoning_content", s.reasoningContent), OptionalText("reasoning", s.reasoning);
    var calls := if s.calls.Some? then [Field("tool_calls", Arr(EncodeCalls(s.calls.value)))] else [];
    hide Lookup, OptionalText, EncodeCalls;
    LookupAppend(role + content + refusal + long + short, calls, key);
    LookupAppend(role + content + refusal + long, short, key);
    LookupAppend(role + content + refusal, long, key);
    LookupAppend(role + content, refusal, key);
    LookupAppend(role, content, key);
    LookupOptional("role", s.role, key);
    LookupOptional("content", s.content, key);
    LookupOptional("refusal", s.refusal, key);
    LookupOptional("reasoning_content", s.reasoningContent, key);
    LookupOptional("reasoning", s.reasoning, key);
    CallsFieldIs(s, key);
  }

  lemma ChunkKeysDiffer()
    ensures "model" != "choices" && "model" != "usage" && "choices" != "usage" && "delta" != "finish_reason"
  {
    assert |"model"| == 5 && |"choices"| == 7 && |"usage"| == 5 && |"delta"| == 5 && |"finish_reason"| == 13;
    assert "model"[0] == 'm' && "usage"[0] == 'u';
  }

  lemma UsageFieldIs(s: SentChunk, key: string)
    ensures Lookup(if s.usage.Some? then [Field("usage", Obj(s.usage.value))] else [], key) ==
            if s.usage.Some? && key == "usage" then Some(Obj(s.usage.value)) else None
  {
    if s.usage.Some? { LookupOne("usage", Obj(s.usage.value), key); }
  }

  lemma ChunkFieldsAre(s: SentChunk)
    ensures Text(Lookup(EncodeChunk(s), "model")) == s.model
    ensures Record(Lookup(EncodeChunk(s), "usage")) == s.usage
    ensures Lookup(EncodeChunk(s), "choices") == Some(Arr([Obj(EncodeChoice(s))]))
    ensures Lookup(EncodeChoice(s), "delta") == Some(Obj(EncodeDelta(s)))
    ensures Text(Lookup(EncodeChoice(s), "finish_reason")) == s.finish
  {
    ChunkKeysDiffer();
    var model, choices := OptionalText("model", s.model), [Field("choices", Arr([Obj(EncodeChoice(s))]))];
    var usage := if s.usage.Some? then [Field("usage", Obj(s.usage.value))] else [];
    hide Lookup, OptionalText, EncodeDelta;
    forall key | key == "model" || key == "choices" || key == "usage"
      ensures Lookup(EncodeChunk(s), key) ==
              if key == "model" then (if s.model.Some? then Some(Str(s.model.value)) else None)
              else if key == "choices" then Some(Arr([Obj(EncodeChoice(s))]))
              else if s.usage.Some? then Some(Obj(s.usage.value)) else None
    {
      CallFieldsAre(model, choices, usage, key);
      LookupOptional("model", s.model, key);
      LookupOne("choices", Arr([Obj(EncodeChoice(s))]), key);
      UsageFieldIs(s, key);
    }
    LookupAppend([Field("delta", Obj(EncodeDelta(s)))], OptionalText("finish_reason", s.finish), "delta");
    LookupAppend([Field("delta", Obj(EncodeDelta(s)))], OptionalText("finish_reason", s.finish), "finish_reason");
    LookupOne("delta", Obj(EncodeDelta(s)), "delta");
    LookupOne("delta", Obj(EncodeDelta(s)), "finish_reason");
    LookupOptional("finish_reason", s.finish, "finish_reason");
  }

  lemma DeltaOfChunk(s: SentChunk)
    ensures Choice(EncodeChunk(s)) == EncodeChoice(s) && Delta(EncodeChunk(s)) == EncodeDelta(s)
  {
    hide Lookup, EncodeChoice, EncodeDelta, EncodeChunk;
    ChunkFieldsAre(s);
  }

  lemma ChunkIsRead(s: SentChunk)
    ensures var c := ChunkOf(EncodeChunk(s));
            && c.model == s.model && c.usage == s.usage.GetOr([]) && c.finish == s.finish.GetOr("")
            && c.reasoning == SentReasoning(s) && c.content == s.content.GetOr("")
            && c.refusal == s.refusal.GetOr("") && c.role == s.role.GetOr("")
            && c.calls == if s.calls.Some? then Some(Fragments(s.calls.value)) else None
  {
    hide Lookup, EncodeChoice, EncodeDelta, EncodeChunk, EncodeCalls, FragmentsOf, Fragments;
    DeltaKeysDiffer();
    DeltaIsRead(s, "role");
    DeltaIsRead(s, "content");
    DeltaIsRead(s, "refusal");
    DeltaIsRead(s, "reasoning_content");
    DeltaIsRead(s, "reasoning");
    DeltaIsRead(s, "tool_calls");
    ChunkFieldsAre(s);
    DeltaOfChunk(s);
    if s.calls.Some? { CallsAreRead(s.calls.value); }
    hide Delta;
  }

  // ---- The stream as a whole -------------------------------------------------------------------

  // The event of a chunk shows what the server meant it to show.
  lemma EventShowsTheChunk(s: SentChunk)
    ensures KindOf(ChunkOf(EncodeChunk(s))) == ShownKind(s)
    ensures TextOf(ChunkOf(EncodeChunk(s))) == ShownEvent(s)
  {
    hide ChunkOf, EncodeChunk, Fragments, Label, CallTexts, SentReasoning;
    ChunkIsRead(s);
    if s.calls.Some? { LabelOfFragments(s.calls.value); }
  }

  lemma {:induction false} LabelOfFragments(calls: seq<SentCall>)
    ensures Label(Fragments(calls)) == CallTexts(calls)
  {
    if calls != [] {
      var init := calls[..|calls| - 1];
      LabelOfFragments(init);
      assert Fragments(calls)[..|init|] == Fragments(init) by { FragmentsCount(init); }
    }
  }

  lemma {:induction false} FragmentsCount(calls: seq<SentCall>)
    ensures |Fragments(calls)| == |calls|
  {
    if calls != [] { FragmentsCount(calls[..|calls| - 1]); }
  }

  lemma {:induction false} FragmentsAppend(a: seq<SentCall>, b: seq<SentCall>)
    ensures Fragments(a + b) == Fragments(a) + Fragments(b)
  {
    if b == [] {
      assert a + b == a && Fragments(a) + [] == Fragments(a);
    } else {
      assert (a + b)[..|a + b| - 1] == a + b[..|b| - 1];
      FragmentsAppend(a, b[..|b| - 1]);
    }
  }

  lemma {:induction false} EncodeNext(sent: seq<SentChunk>)
    requires sent != []
    ensures var all := EncodeAll(sent);
            all != [] && all[..|all| - 1] == EncodeAll(sent[..|sent| - 1]) &&
            all[|all| - 1] == EncodeChunk(sent[|sent| - 1])
  {
  }

  lemma {:induction false} StreamIsPieces(sent: seq<SentChunk>)
    ensures StreamFragments(EncodeAll(sent)) == Fragments(Pieces(sent))
  {
    hide ChunkOf, EncodeChunk, Fragments, EncodeAll;
    if sent == [] {
      NothingSent();
    } else {
      var init, last := sent[..|sent| - 1], sent[|sent| - 1];
      StreamIsPieces(init);
      EncodeNext(sent);
      ChunkIsRead(last);
      FragmentsAppend(Pieces(init), last.calls.GetOr([]));
      NothingSent();
      assert Fragments(Pieces(init)) + [] == Fragments(Pieces(init)) && Pieces(init) + [] == Pieces(init);
    }
  }

  lemma NothingSent()
    ensures EncodeAll([]) == [] && Fragments([]) == []
  {
  }

  lemma {:induction false} FragmentsNext(pieces: seq<SentCall>)
    requires pieces != []
    ensures var all, last := Fragments(pieces), pieces[|pieces| - 1];
            all != [] && all[..|all| - 1] == Fragments(pieces[..|pieces| - 1]) &&
            all[|all| - 1] == Fragment(IndexOf(last), last.id, last.name.GetOr(""), last.arguments.GetOr(""))
  {
  }

  lemma {:induction false} PiecesOfIndex(pieces: seq<SentCall>, index: real)
    ensures PartsFrom(Fragments(pieces), index) ==
            AssembledToolCall(SentId(pieces, index), SentName(pieces, index), SentArguments(pieces, index))
  {
    hide Fragments;
    if pieces == [] {
      NothingSent();
    } else {
      PiecesOfIndex(pieces[..|pieces| - 1], index);
      FragmentsNext(pieces);
    }
  }

  lemma {:induction false} IndicesAreSent(pieces: seq<SentCall>)
    ensures Indices(Fragments(pieces)) == SentIndices(pieces)
  {
    hide Fragments;
    if pieces == [] {
      NothingSent();
    } else {
      IndicesAreSent(pieces[..|pieces| - 1]);
      FragmentsNext(pieces);
    }
  }

  // For any chunks a server sends, however the pieces of different calls are interleaved:
  // the viewer has one call for each index, in the order of their first pieces, with all
  // the argument texts of that index joined in the order sent, likewise the names, and the
  // first id.
  lemma {:induction false} ToolCallsArriveAsSent(sent: seq<SentChunk>)
    ensures var calls, indices := Assembled(EncodeAll(sent)).tools.calls, SentIndices(Pieces(sent));
            && |calls| == |indices|
            && forall p :: 0 <= p < |indices| ==>
                 calls[p] == AssembledToolCall(SentId(Pieces(sent), indices[p]), SentName(Pieces(sent), indices[p]),
                                               SentArguments(Pieces(sent), indices[p]))
  {
    hide Assembled, StreamFragments, Fragments, Indices, SentIndices, FirstId, NameOf, ArgumentsOf, SentId, SentName,
      SentArguments, EncodeAll, Pieces;
    ToolCallsAreAssembledByIndex(EncodeAll(sent));
    StreamIsPieces(sent);
    IndicesAreSent(Pieces(sent));
    forall p | 0 <= p < |SentIndices(Pieces(sent))|
      ensures Assembled(EncodeAll(sent)).tools.calls[p] ==
              PartsFrom(Fragments(Pieces(sent)), SentIndices(Pieces(sent))[p])
    {
    }
    forall p | 0 <= p < |SentIndices(Pieces(sent))| {
      PiecesOfIndex(Pieces(sent), SentIndices(Pieces(sent))[p]);
    }
  }

  // The indices are those of the pieces, each once.
  lemma {:induction false} IndicesAreThoseSent(pieces: seq<SentCall>)
    ensures forall index ::
              index in SentIndices(pieces) <==> exists k :: 0 <= k < |pieces| && IndexOf(pieces[k]) == index
    ensures forall i, j :: 0 <= i < j < |SentIndices(pieces)| ==> SentIndices(pieces)[i] != SentIndices(pieces)[j]
  {
    if pieces != [] {
      var init := pieces[..|pieces| - 1];
      IndicesAreThoseSent(init);
      assert forall k :: 0 <= k < |init| ==> init[k] == pieces[k];
      assert IndexOf(pieces[|pieces| - 1]) in SentIndices(pieces);
    }
  }

  // Content, reasoning, finish reason and model are what the server sent as such.
  lemma {:induction false} TextArrivesAsSent(sent: seq<SentChunk>)
    ensures var a := Assembled(EncodeAll(sent));
            && a.content == AllText(sent) && a.reasoning == AllReasoning(sent)
            && a.finishReason == FinalReason(sent) && a.model == NamedModel(sent)
  {
    hide ChunkOf, EncodeChunk, EncodeAll, SentReasoning, AddFragments, MergeFields;
    if sent == [] {
      NothingSent();
    } else {
      TextArrivesAsSent(sent[..|sent| - 1]);
      EncodeNext(sent);
      ChunkIsRead(sent[|sent| - 1]);
    }
  }

  // Each usage entry is the last one sent under its key.
  lemma {:induction false} UsageArrivesAsSent(sent: seq<SentChunk>, key: string)
    requires forall k :: 0 <= k < |sent| ==> DistinctKeys(sent[k].usage.GetOr([]))
    ensures Lookup(Assembled(EncodeAll(sent)).usage.GetOr([]), key) == SentUsage(sent, key)
  {
    hide ChunkOf, EncodeChunk, EncodeAll, AddFragments, MergeFields, KindOf, TextOf;
    if sent == [] {
      NothingSent();
    } else {
      var init, last := sent[..|sent| - 1], sent[|sent| - 1];
      assert forall k :: 0 <= k < |init| ==> init[k] == sent[k];
      UsageArrivesAsSent(init, key);
      EncodeNext(sent);
      ChunkIsRead(last);
      ChunkFieldsAre(last);
      UsageKeepsLatest(Assembled(EncodeAll(init)).usage.GetOr([]), last.usage.GetOr([]), key);
    }
  }
}
