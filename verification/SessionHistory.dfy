// Whole session histories: what the capture side stores
// (packages/core/src/store/session-delta.ts, apps/gateway/src/routes/payload-capture.ts)
// against what the reading side of SessionDelta restores.
module SessionHistory {
  import opened JsonValues
  import opened SessionDelta
  import Texts

  // One captured request. `parent` is the position of its parent revision, `headKnown`
  // whether the session's event head was the parent's when it was captured, `retained` how
  // many leading events of the request were not stored again.
  datatype Version = Version(
    id: string,
    parent: Option<nat>,
    request: seq<Field>,
    headKnown: bool,
    retained: nat,
    responseId: Option<Option<string>>,
    responseJson: Option<JsonText>)

  function Carrier(request: seq<Field>): string {
    EventKey(request).GetOr("messages")
  }

  // The events of a request; a carrier that is no array counts as one event.
  function Events(request: seq<Field>): seq<Json> {
    match Lookup(request, Carrier(request))
    case None => []
    case Some(Arr(items)) => items
    case Some(event) => [event]
  }

  predicate IsContinuation(v: Version) {
    PreviousId(v.request).Some?
  }

  // The request without its events.
  function Envelope(request: seq<Field>): seq<Field> {
    Put(request, Carrier(request), Arr([]))
  }

  // What the store keeps of a version.
  function Stored(history: seq<Version>, i: nat): Revision
    requires i < |history|
  {
    var v := history[i];
    Revision(v.id,
             if v.parent.Some? && v.parent.value < |history| then Some(history[v.parent.value].id) else None,
             Whole(v.retained),
             Encoded(Arr(if v.retained <= |Events(v.request)| then Events(v.request)[v.retained..] else [])),
             Encoded(Obj(Envelope(v.request))),
             v.responseId, v.responseJson)
  }

  // Parents come first, and a root or a continuation stores all its events.
  ghost predicate ValidVersion(history: seq<Version>, i: nat)
    requires i < |history|
  {
    var v := history[i];
    && EventKey(v.request).Some?
    && v.retained <= |Events(v.request)|
    && (v.parent.Some? ==> v.parent.value < i)
    && (v.parent.None? || IsContinuation(v) ==> v.retained == 0)
  }

  // A continuation follows a stored response it names. A capture whose parent or response
  // is missing is stored all the same, as partial.
  ghost predicate Continues(parent: Version, v: Version) {
    && ResponseOutput(parent.responseJson).Ok?
    && (parent.responseId.Some? ==> parent.responseId.value == PreviousId(v.request))
  }

  ghost predicate Answered(history: seq<Version>, i: nat)
    requires i < |history|
  {
    var v := history[i];
    IsContinuation(v) ==> v.parent.Some? && v.parent.value < i && Continues(history[v.parent.value], v)
  }

  // No version on the way to the root is partial.
  ghost predicate Complete(history: seq<Version>, i: nat)
    requires i < |history|
    decreases i
  {
    Answered(history, i) &&
    var parent := history[i].parent;
    parent.Some? && parent.value < i ==> Complete(history, parent.value)
  }

  ghost predicate ValidHistory(history: seq<Version>) {
    && (forall i :: 0 <= i < |history| ==> ValidVersion(history, i))
    && (forall i, j :: 0 <= i < j < |history| ==> history[i].id != history[j].id)
  }

  ghost function Store(history: seq<Version>, n: nat): seq<Revision>
    requires n <= |history|
  {
    if n == 0 then [] else Store(history, n - 1) + [Stored(history, n - 1)]
  }

  ghost function StoredById(history: seq<Version>): map<string, Revision> {
    ById(Store(history, |history|))
  }

  function OutputOf(v: Version): seq<Json> {
    var output := ResponseOutput(v.responseJson);
    if output.Ok? then output.value else []
  }

  // The conversation a version stands for: its own events, or for a continuation those of
  // its parent, the response it continues and then its own.
  ghost function Original(history: seq<Version>, i: nat): seq<Json>
    requires i < |history|
    decreases i
  {
    var v := history[i];
    if IsContinuation(v) && v.parent.Some? && v.parent.value < i then
      Original(history, v.parent.value) + OutputOf(history[v.parent.value]) + Events(v.request)
    else Events(v.request)
  }

  ghost predicate Restores(history: seq<Version>, i: nat)
    requires i < |history|
  {
    Transcript(StoredById(history), history[i].id, {}) == Ok(Original(history, i))
  }

  // What was not stored again is a common prefix with the conversation of the parent.
  ghost predicate KeepsCommonPrefix(history: seq<Version>, i: nat)
    requires i < |history| && ValidVersion(history, i)
  {
    var v := history[i];
    v.parent.None? || IsContinuation(v) || Events(v.request)[..v.retained] <= Original(history, v.parent.value)
  }

  lemma StoredKeepsId(history: seq<Version>, i: nat)
    requires i < |history|
    ensures Stored(history, i).requestId == history[i].id
  {
  }

  lemma {:induction false} StoreHolds(history: seq<Version>, n: nat, i: nat)
    requires ValidHistory(history) && i < n <= |history|
    ensures history[i].id in ById(Store(history, n)) && ById(Store(history, n))[history[i].id] == Stored(history, i)
  {
    hide Stored, ValidVersion;
    var revisions := Store(history, n);
    assert revisions[..|revisions| - 1] == Store(history, n - 1);
    assert ById(revisions) == ById(Store(history, n - 1))[history[n - 1].id := Stored(history, n - 1)] by {
      StoredKeepsId(history, n - 1);
    }
    if i < n - 1 {
      StoreHolds(history, n - 1, i);
    }
  }

  ghost predicate OnlyLater(history: seq<Version>, i: nat, seen: set<string>) {
    i < |history| && forall j :: 0 <= j <= i ==> history[j].id !in seen
  }

  lemma {:induction false} SeenDoesNotMatter(history: seq<Version>, i: nat, seen: set<string>)
    requires ValidHistory(history) && OnlyLater(history, i, seen)
    ensures Transcript(StoredById(history), history[i].id, seen) == Transcript(StoredById(history), history[i].id, {})
    decreases i
  {
    var id := history[i].id;
    StoreHolds(history, |history|, i);
    assert ValidVersion(history, i);
    if history[i].parent.Some? {
      var p := history[i].parent.value;
      SeenDoesNotMatter(history, p, seen + {id});
      SeenDoesNotMatter(history, p, {} + {id});
    }
  }

  // A stored revision restores from the restored transcript of its parent.
  lemma TranscriptOf(history: seq<Version>, i: nat)
    requires ValidHistory(history) && i < |history|
    ensures ValidVersion(history, i)
    ensures var t := Transcript(StoredById(history), history[i].id, {});
            if history[i].parent.None? then t == Extend(Stored(history, i), None, [])
            else
              var p := history[i].parent.value;
              var events := Transcript(StoredById(history), history[p].id, {});
              t == if events.Err? then events
                   else Extend(Stored(history, i), Some(Stored(history, p)), events.value)
  {
    StoreHolds(history, |history|, i);
    assert ValidVersion(history, i);
    if history[i].parent.Some? {
      var p := history[i].parent.value;
      StoreHolds(history, |history|, p);
      SeenDoesNotMatter(history, p, {} + {history[i].id});
    }
  }

  // The stored envelope still tells whether the version is a continuation.
  lemma EnvelopeKeepsPreviousId(request: seq<Field>)
    requires EventKey(request).Some?
    ensures PreviousId(Envelope(request)) == PreviousId(request)
    ensures EventKey(Envelope(request)) == EventKey(request)
  {
    var key := Carrier(request);
    assert |PREVIOUS_ID| == 20;
    assert key != PREVIOUS_ID by { assert |key| != 20; }
    LookupPut(request, key, Arr([]), PREVIOUS_ID);
    LookupPut(request, key, Arr([]), "messages");
    LookupPut(request, key, Arr([]), "contents");
    LookupPut(request, key, Arr([]), "input");
  }

  // One step of the replay, in terms of the captured request.
  lemma ExtendStored(history: seq<Version>, i: nat, parent: Option<Revision>, before: seq<Json>)
    requires i < |history| && ValidVersion(history, i)
    requires parent == if history[i].parent.None? then None else Some(Stored(history, history[i].parent.value))
    ensures !Answered(history, i) ==> Extend(Stored(history, i), parent, before).Err?
    ensures var v := history[i];
            var own := Events(v.request);
            Answered(history, i) ==>
              Extend(Stored(history, i), parent, before) ==
              if IsContinuation(v) then Ok(before + OutputOf(history[v.parent.value]) + own)
              else if v.parent.None? then Ok(before + own)
              else if v.retained > |before| then Err(InvalidRetainCount)
              else Ok(before[..v.retained] + own[v.retained..])
  {
    hide PreviousId, EventKey, ResponseOutput, Events, Envelope, Put, Lookup;
    EnvelopeKeepsPreviousId(history[i].request);
  }

  lemma CutAndAppend(own: seq<Json>, before: seq<Json>, retained: nat)
    requires retained <= |own|
    ensures retained <= |before| && before[..retained] + own[retained..] == own <==> own[..retained] <= before
  {
    assert own == own[..retained] + own[retained..];
    if retained <= |before| {
      assert (before[..retained] + own[retained..])[..retained] == before[..retained];
    }
  }

  lemma RestoresFromParent(history: seq<Version>, i: nat)
    requires ValidHistory(history) && i < |history| && Answered(history, i)
    ensures ValidVersion(history, i)
    ensures (history[i].parent.Some? ==> Restores(history, history[i].parent.value)) ==>
              (Restores(history, i) <==> KeepsCommonPrefix(history, i))
  {
    var v := history[i];
    TranscriptOf(history, i);
    hide Transcript, Extend, Events, PreviousId, StoredById;
    if v.parent.None? {
      ExtendStored(history, i, None, []);
      assert [] + Events(v.request) == Events(v.request);
    } else if Restores(history, v.parent.value) {
      var before := Original(history, v.parent.value);
      ExtendStored(history, i, Some(Stored(history, v.parent.value)), before);
      CutAndAppend(Events(v.request), before, v.retained);
    }
  }

  // A partial version never restores, and nothing captured on top of one does.
  lemma {:induction false} PartialIsLost(history: seq<Version>, i: nat)
    requires ValidHistory(history) && i < |history| && !Complete(history, i)
    ensures Transcript(StoredById(history), history[i].id, {}).Err?
    decreases i
  {
    TranscriptOf(history, i);
    hide Transcript, Extend, StoredById, Answered;
    var p := history[i].parent;
    if p.Some? && !Complete(history, p.value) {
      PartialIsLost(history, p.value);
    } else {
      assert !Answered(history, i);
      var before := if p.None? then Ok([]) else Transcript(StoredById(history), history[p.value].id, {});
      if before.Ok? {
        ExtendStored(history, i, if p.None? then None else Some(Stored(history, p.value)), before.value);
      }
    }
  }

  lemma {:induction false} PrefixesSuffice(history: seq<Version>, i: nat)
    requires ValidHistory(history) && i < |history| && Complete(history, i)
    requires forall j :: 0 <= j <= i && Complete(history, j) ==> KeepsCommonPrefix(history, j)
    ensures Restores(history, i)
    decreases i
  {
    hide Restores, KeepsCommonPrefix, Answered;
    ParentComesFirst(history, i);
    RestoresFromParent(history, i);
    if history[i].parent.Some? {
      PrefixesSuffice(history, history[i].parent.value);
    }
  }

  // In every branch the versions that restore to their own conversation are exactly those
  // with nothing partial on the way to the root, if and only if each of these left out no
  // more than a common prefix with its parent's conversation.
  lemma {:induction false} EveryVersionRestores(history: seq<Version>)
    requires ValidHistory(history)
    ensures (forall i :: 0 <= i < |history| ==> (Restores(history, i) <==> Complete(history, i))) <==>
            (forall i :: 0 <= i < |history| && Complete(history, i) ==> KeepsCommonPrefix(history, i))
  {
    hide Restores, KeepsCommonPrefix, ValidVersion, Complete;
    forall i | 0 <= i < |history| && Restores(history, i) ensures Complete(history, i) {
      RestoredIsComplete(history, i);
    }
    if forall i :: 0 <= i < |history| && Complete(history, i) ==> KeepsCommonPrefix(history, i) {
      forall i | 0 <= i < |history| && Complete(history, i) ensures Restores(history, i) {
        PrefixesSuffice(history, i);
      }
    }
    if forall i :: 0 <= i < |history| ==> (Restores(history, i) <==> Complete(history, i)) {
      forall i | 0 <= i < |history| && Complete(history, i) ensures KeepsCommonPrefix(history, i) {
        CompleteParent(history, i);
        RestoresFromParent(history, i);
      }
    }
  }

  lemma {:induction false} RestoredIsComplete(history: seq<Version>, i: nat)
    requires ValidHistory(history) && i < |history|
    ensures Restores(history, i) ==> Complete(history, i)
  {
    hide Transcript, Complete;
    if !Complete(history, i) { PartialIsLost(history, i); }
  }

  lemma {:induction false} CompleteParent(history: seq<Version>, i: nat)
    requires ValidHistory(history) && i < |history| && Complete(history, i)
    ensures Answered(history, i)
    ensures history[i].parent.Some? ==> history[i].parent.value < i && Complete(history, history[i].parent.value)
  {
    assert ValidVersion(history, i);
  }

  lemma ParentComesFirst(history: seq<Version>, i: nat)
    requires ValidHistory(history) && i < |history|
    ensures history[i].parent.Some? ==> history[i].parent.value < i
  {
    assert ValidVersion(history, i);
  }

  // The restored request is the captured one with the whole conversation in its carrier
  // and without the pointer to the previous response.
  lemma {:induction false} RestoredRequest(history: seq<Version>, i: nat)
    requires ValidHistory(history) && i < |history| && Restores(history, i)
    ensures var request := history[i].request;
            var filled := Put(request, Carrier(request), Arr(Original(history, i)));
            Restored(StoredById(history), history[i].id) ==
            Ok(Obj(if IsContinuation(history[i]) then Remove(filled, PREVIOUS_ID) else filled))
  {
    var request := history[i].request;
    assert ValidVersion(history, i);
    StoreHolds(history, |history|, i);
    hide Transcript, StoredById;
    EnvelopeKeepsPreviousId(request);
    PutPut(request, Carrier(request), Arr([]), Arr(Original(history, i)));
  }

  // ---- A continuation in its own terms -----------------------------------------------

  // `key` is where a request has its events: the first of the three carriers it has.
  predicate CarriedIn(request: seq<Field>, key: string) {
    && key in Keys(request)
    && (key == "messages" ||
        (key == "contents" && "messages" !in Keys(request)) ||
        (key == "input" && "messages" !in Keys(request) && "contents" !in Keys(request)))
  }

  // A request that carries `own` events and continues the response `id`.
  predicate Continuing(request: seq<Field>, key: string, own: seq<Json>, id: string) {
    && CarriedIn(request, key) && Lookup(request, key) == Some(Arr(own))
    && Lookup(request, "previous_response_id") == Some(Str(id))
    && exists i :: 0 <= i < |id| && !Texts.IsSpace(id[i])
  }

  lemma CarrierIs(request: seq<Field>, key: string)
    requires CarriedIn(request, key)
    ensures EventKey(request) == Some(key) && Carrier(request) == key
  {
  }

  lemma ContinuingIsContinuation(request: seq<Field>, key: string, own: seq<Json>, id: string)
    requires Continuing(request, key, own, id)
    ensures PreviousId(request) == Some(id) && Events(request) == own && Carrier(request) == key
  {
    CarrierIs(request, key);
    Texts.BlankIsAllSpace(id);
  }

  // Where version i continues the response of its parent, by that response's id.
  ghost predicate ContinuesParent(history: seq<Version>, i: nat, key: string, own: seq<Json>, id: string)
    requires i < |history|
  {
    var v := history[i];
    && Continuing(v.request, key, own, id)
    && v.parent.Some? && v.parent.value < i
    && (history[v.parent.value].responseId == None || history[v.parent.value].responseId == Some(Some(id)))
  }

  // The events of a continuation are those of its parent, then the output items of the
  // response it continues, then its own; and so they are in the restored request, without
  // the pointer.
  lemma {:induction false} ContinuationTakesTheOutput(
    history: seq<Version>, i: nat, key: string, own: seq<Json>, id: string, before: seq<Json>,
    response: seq<Field>, output: seq<Json>)
    requires ValidHistory(history) && i < |history| && ContinuesParent(history, i, key, own, id)
    requires var p := history[history[i].parent.value];
             && p.responseJson == Some(Encoded(Obj(response))) && Lookup(response, "output") == Some(Arr(output))
             && Transcript(StoredById(history), p.id, {}) == Ok(before)
    ensures Transcript(StoredById(history), history[i].id, {}) == Ok(before + output + own)
    ensures var restored := Restored(StoredById(history), history[i].id);
            && restored.Ok? && restored.value.Obj?
            && Lookup(restored.value.fields, key) == Some(Arr(before + output + own))
            && (forall other :: other != key && other != "previous_response_id" ==>
                  Lookup(restored.value.fields, other) == Lookup(history[i].request, other))
            && (DistinctKeys(history[i].request) ==> Lookup(restored.value.fields, "previous_response_id") == None)
  {
    var v := history[i];
    ContinuingIsContinuation(v.request, key, own, id);
    TranscriptOf(history, i);
    ContinuationExtends(history, i, id, before);
    FilledRequest(history, i, key, id, before + output + own);
  }

  lemma ContinuationExtends(history: seq<Version>, i: nat, id: string, before: seq<Json>)
    requires i < |history| && ValidVersion(history, i) && PreviousId(history[i].request) == Some(id)
    requires var parent := history[i].parent;
             parent.Some? &&
             (history[parent.value].responseId == None || history[parent.value].responseId == Some(Some(id)))
    ensures var parent := history[history[i].parent.value];
            Extend(Stored(history, i), Some(Stored(history, history[i].parent.value)), before) ==
            match parent.responseJson
            case None => Err(ResponseOutputUnavailable)
            case Some(Malformed) => Err(SyntaxError)
            case Some(Encoded(Obj(fields))) =>
              (match Lookup(fields, "output")
               case Some(Arr(items)) => Ok(before + items + Events(history[i].request))
               case _ => Err(ResponseOutputUnavailable))
            case _ => Err(NotAnObject)
  {
    hide PreviousId, EventKey, Events, Envelope, Put, Lookup;
    EnvelopeKeepsPreviousId(history[i].request);
  }

  // Without an array of output items there is nothing to continue, and the restore fails.
  lemma ContinuationNeedsTheOutput(history: seq<Version>, i: nat, key: string, own: seq<Json>, id: string)
    requires ValidHistory(history) && i < |history| && ContinuesParent(history, i, key, own, id)
    requires var p := history[history[i].parent.value];
             && Transcript(StoredById(history), p.id, {}).Ok?
             && (p.responseJson == None ||
                 (p.responseJson.value.Encoded? && p.responseJson.value.value.Obj? &&
                  var found := Lookup(p.responseJson.value.value.fields, "output");
                  found.None? || !found.value.Arr?))
    ensures Transcript(StoredById(history), history[i].id, {}) == Err(ResponseOutputUnavailable)
    ensures Restored(StoredById(history), history[i].id) == Err(ResponseOutputUnavailable)
  {
    var p := history[history[i].parent.value];
    ContinuingIsContinuation(history[i].request, key, own, id);
    TranscriptOf(history, i);
    var before := Transcript(StoredById(history), p.id, {}).value;
    ContinuationExtends(history, i, id, before);
  }

  lemma {:induction false} FilledRequest(history: seq<Version>, i: nat, key: string, id: string, events: seq<Json>)
    requires ValidHistory(history) && i < |history| && Carrier(history[i].request) == key
    requires PreviousId(history[i].request) == Some(id)
    requires Transcript(StoredById(history), history[i].id, {}) == Ok(events)
    ensures var restored := Restored(StoredById(history), history[i].id);
            && restored.Ok? && restored.value.Obj?
            && Lookup(restored.value.fields, key) == Some(Arr(events))
            && (forall other :: other != key && other != PREVIOUS_ID ==>
                  Lookup(restored.value.fields, other) == Lookup(history[i].request, other))
            && (DistinctKeys(history[i].request) ==> Lookup(restored.value.fields, PREVIOUS_ID) == None)
  {
    var request := history[i].request;
    var filled := Put(request, key, Arr(events));
    assert ValidVersion(history, i);
    StoreHolds(history, |history|, i);
    EnvelopeKeepsPreviousId(request);
    PutPut(request, key, Arr([]), Arr(events));
    hide Transcript, StoredById, PreviousId, EventKey;
    assert Restored(StoredById(history), history[i].id) == Ok(Obj(Remove(filled, PREVIOUS_ID)));
    forall other ensures other != PREVIOUS_ID ==> Lookup(Remove(filled, PREVIOUS_ID), other) ==
                                                  if other == key then Some(Arr(events)) else Lookup(request, other)
    {
      LookupRemove(filled, PREVIOUS_ID, other);
      LookupPut(request, key, Arr(events), other);
    }
    CarrierIsNotThePointer(request);
    if DistinctKeys(request) {
      PutKeepsDistinct(request, key, Arr(events));
      RemovedIsGone(filled, PREVIOUS_ID);
    }
  }

  lemma CarrierIsNotThePointer(request: seq<Field>)
    ensures Carrier(request) != PREVIOUS_ID
  {
    assert |PREVIOUS_ID| == 20 && |Carrier(request)| != 20;
  }

  // ---- What the capture side leaves out ------------------------------------------

  // The head kept for a session: the events of its last request, as that request had them.
  // The digest of the source is taken as the digested events themselves.
  datatype Head = Head(eventKey: string, eventCount: nat, eventHash: seq<Json>)

  function HeadOf(request: seq<Field>): Head {
    Head(Carrier(request), |Events(request)|, Events(request))
  }

  function RetainCountOf(request: seq<Field>, previousHead: Option<Head>): (retained: nat)
    ensures retained <= |Events(request)|
  {
    var current := Events(request);
    if PreviousId(request).None? && previousHead.Some? &&
       previousHead.value.eventKey == Carrier(request) &&
       previousHead.value.eventCount <= |current| &&
       current[..previousHead.value.eventCount] == previousHead.value.eventHash
    then previousHead.value.eventCount else 0
  }

  // A request is split against the head of its parent, when that head is known.
  ghost predicate Captured(history: seq<Version>, i: nat)
    requires i < |history| && ValidVersion(history, i)
  {
    var v := history[i];
    v.retained ==
    RetainCountOf(v.request,
                  if v.parent.Some? && v.headKnown then Some(HeadOf(history[v.parent.value].request)) else None)
  }

  // The one capture that goes wrong: a full request on top of a continuation. It begins
  // with the continuation's own events, and the conversation they continue does not.
  ghost predicate RepeatsContinuation(history: seq<Version>, i: nat)
    requires i < |history|
  {
    var v := history[i];
    && !IsContinuation(v) && v.headKnown
    && v.parent.Some? && v.parent.value < i
    && var parent := history[v.parent.value];
       && IsContinuation(parent)
       && Carrier(v.request) == Carrier(parent.request)
       && Events(parent.request) != []
       && Events(parent.request) <= Events(v.request)
       && !(Events(parent.request) <= Original(history, v.parent.value))
  }

  lemma CapturedKeepsCommonPrefix(history: seq<Version>, i: nat)
    requires ValidHistory(history) && i < |history|
    ensures ValidVersion(history, i)
    ensures Captured(history, i) ==> (KeepsCommonPrefix(history, i) <==> !RepeatsContinuation(history, i))
  {
    hide Events, Carrier, PreviousId;
    assert ValidVersion(history, i);
    var v := history[i];
    if v.retained == 0 {
      assert Events(v.request)[..0] == [];
    } else if v.parent.Some? {
      assert ValidVersion(history, v.parent.value);
      var own := Events(history[v.parent.value].request);
      if Captured(history, i) { assert own == Events(v.request)[..v.retained]; }
    }
  }

  // Capturing and restoring are inverse on every complete version of a history exactly
  // when no complete version was captured in that way.
  lemma {:induction false} CapturedHistoryRestores(history: seq<Version>)
    requires ValidHistory(history)
    requires forall i :: 0 <= i < |history| ==> Captured(history, i)
    ensures (forall i :: 0 <= i < |history| ==> (Restores(history, i) <==> Complete(history, i))) <==>
            (forall i :: 0 <= i < |history| && Complete(history, i) ==> !RepeatsContinuation(history, i))
  {
    hide Restores, KeepsCommonPrefix, RepeatsContinuation, ValidVersion, Complete;
    EveryVersionRestores(history);
    forall i | 0 <= i < |history| ensures KeepsCommonPrefix(history, i) <==> !RepeatsContinuation(history, i) {
      CapturedKeepsCommonPrefix(history, i);
    }
  }

  // A continuation with the event "two", then a full request "two", "three": one event is
  // left out because it matches the head, but the parent's conversation begins with "one".
  function Resumed(): seq<Version> {
    [Version("a", None, [Field("input", Arr([Str("one")]))], false, 0, Some(Some("r")),
             Some(Encoded(Obj([Field("output", Arr([]))])))),
     Version("b", Some(0), [Field(PREVIOUS_ID, Str("r")), Field("input", Arr([Str("two")]))], true, 0, None, None),
     Version("c", Some(1), [Field("input", Arr([Str("two"), Str("three")]))], true, 1, None, None)]
  }

  lemma InputOnly(events: Json)
    ensures var request := [Field("input", events)];
            EventKey(request) == Some("input") && PreviousId(request) == None &&
                Lookup(request, "input") == Some(events)
  {
    var request := [Field("input", events)];
    assert |PREVIOUS_ID| == 20 && request[1..] == [];
    assert PREVIOUS_ID != "input" by { assert |"input"| == 5; }
    assert "messages" != "input" by { assert |"messages"| == 8; }
    assert "contents" != "input" by { assert |"contents"| == 8; }
  }

  lemma InputAfterPointer(events: Json)
    ensures var request := [Field(PREVIOUS_ID, Str("r")), Field("input", events)];
            EventKey(request) == Some("input") && PreviousId(request) == Some("r") &&
                Lookup(request, "input") == Some(events)
  {
    var request := [Field(PREVIOUS_ID, Str("r")), Field("input", events)];
    InputOnly(events);
    assert request[1..] == [Field("input", events)];
    assert |PREVIOUS_ID| == 20;
    assert "messages" != PREVIOUS_ID by { assert |"messages"| == 8; }
    assert "contents" != PREVIOUS_ID by { assert |"contents"| == 8; }
    assert "input" != PREVIOUS_ID by { assert |"input"| == 5; }
    assert Lookup(request, "messages") == Lookup(request[1..], "messages");
    assert Lookup(request, "contents") == Lookup(request[1..], "contents");
    assert Texts.Trim("r") == "r";
  }

  lemma ResumedRequests()
    ensures var h := Resumed();
            && EventKey(h[0].request) == EventKey(h[1].request) == EventKey(h[2].request) == Some("input")
            && Events(h[0].request) == [Str("one")]
            && Events(h[1].request) == [Str("two")]
            && Events(h[2].request) == [Str("two"), Str("three")]
            && !IsContinuation(h[0]) && IsContinuation(h[1]) && !IsContinuation(h[2])
            && h[0].responseId == Some(PreviousId(h[1].request))
            && ResponseOutput(h[0].responseJson) == Ok([]) && OutputOf(h[0]) == []
  {
    InputOnly(Arr([Str("one")]));
    InputAfterPointer(Arr([Str("two")]));
    InputOnly(Arr([Str("two"), Str("three")]));
    NoOutput();
    hide EventKey, PreviousId, Lookup;
  }

  lemma ResumedIsValid()
    ensures ValidHistory(Resumed())
    ensures forall i :: 0 <= i < 3 ==> Captured(Resumed(), i)
  {
    var h := Resumed();
    ResumedRequests();
    hide EventKey, PreviousId, Lookup, Events, OutputOf, ResponseOutput;
    assert ValidVersion(h, 0);
    assert ValidVersion(h, 1);
    assert ValidVersion(h, 2);
    assert Captured(h, 0) && Captured(h, 1);
    assert Events(h[2].request)[..1] == [Str("two")];
    assert RetainCountOf(h[2].request, Some(HeadOf(h[1].request))) == 1 by {
      NotAContinuation(h[2]);
    }
  }

  lemma NotAContinuation(v: Version)
    ensures !IsContinuation(v) <==> PreviousId(v.request).None?
  {
  }

  lemma ResumedIsNotRestored()
    ensures ValidHistory(Resumed())
    ensures forall i :: 0 <= i < 3 ==> Captured(Resumed(), i)
    ensures Complete(Resumed(), 2) && !Restores(Resumed(), 2)
  {
    var h := Resumed();
    ResumedIsValid();
    ResumedRequests();
    hide EventKey, PreviousId, Lookup, Transcript, Events, OutputOf, ResponseOutput, Captured;
    assert Original(h, 0) == [Str("one")];
    assert Original(h, 1) == [Str("one"), Str("two")];
    assert "two"[0] != "one"[0];
    assert Events(h[1].request)[0] != Original(h, 1)[0];
    assert ValidVersion(h, 2);
    assert IsContinuation(h[h[2].parent.value]);
    assert RepeatsContinuation(h, 2);
    hide Restores, KeepsCommonPrefix;
    RestoresFromParent(h, 0);
    RestoresFromParent(h, 1);
    RestoresFromParent(h, 2);
    CapturedKeepsCommonPrefix(h, 0);
    CapturedKeepsCommonPrefix(h, 2);
    ContinuationKeepsAll(h, 1);
    assert Complete(h, 0) && Complete(h, 1);
  }

  lemma ContinuationKeepsAll(history: seq<Version>, i: nat)
    requires i < |history| && ValidVersion(history, i) && IsContinuation(history[i])
    ensures KeepsCommonPrefix(history, i)
  {
  }

  lemma NoOutput()
    ensures ResponseOutput(Some(Encoded(Obj([Field("output", Arr([]))])))) == Ok([])
  {
  }

  // A continuation whose parent is unknown, then a full request that shares nothing with
  // it: all of that request is stored, and it does not restore.
  function Interrupted(): seq<Version> {
    [Version("b", None, [Field(PREVIOUS_ID, Str("r")), Field("input", Arr([Str("two")]))], false, 0, None, None),
     Version("c", Some(0), [Field("input", Arr([Str("three")]))], true, 0, None, None)]
  }

  lemma FullRequestAfterPartialIsLost()
    ensures ValidHistory(Interrupted())
    ensures forall i :: 0 <= i < 2 ==> Captured(Interrupted(), i)
    ensures var c := Interrupted()[1]; !IsContinuation(c) && c.retained == 0
    ensures !Restores(Interrupted(), 1)
  {
    var h := Interrupted();
    InputAfterPointer(Arr([Str("two")]));
    InputOnly(Arr([Str("three")]));
    assert Events(h[0].request) == [Str("two")] && Events(h[1].request) == [Str("three")];
    assert "two"[1] != "three"[1];
    hide EventKey, PreviousId, Lookup, Transcript, Events;
    assert ValidVersion(h, 0) && ValidVersion(h, 1);
    assert h[0].id[0] != h[1].id[0];
    assert IsContinuation(h[0]) && !Answered(h, 0);
    assert !Complete(h, 0) && !Complete(h, 1);
    assert Events(h[1].request)[..1] == [Str("three")];
    PartialIsLost(h, 1);
  }
}
