// Reconstruction of one session revision from its parent chain
// (packages/shared/src/session-delta.ts).
module SessionDelta {
  import opened JsonValues
  import Texts

  // A JSON text: JSON.parse throws on Malformed and returns the value otherwise.
  datatype JsonText = Malformed | Encoded(value: Json)

  datatype RetainCount = NotAnInteger | Whole(count: int)

  // responseId: None when the property is absent, Some(None) when it is null.
  // responseJson: None when it is null, undefined or empty.
  datatype Revision = Revision(
    requestId: string,
    parentRequestId: Option<string>,
    retainCount: RetainCount,
    requestDelta: JsonText,
    requestEnvelope: JsonText,
    responseId: Option<Option<string>>,
    responseJson: Option<JsonText>)

  datatype RestoreError =
    | UnknownRevision(id: string)
    | RevisionCycle
    | InvalidRetainCount
    | SyntaxError
    | NotAnObject
    | DeltaNotAnArray
    | NoEventCarrier
    | ContinuationParentUnavailable
    | InvalidContinuationRetainCount
    | ContinuationResponseMismatch
    | ResponseOutputUnavailable

  type Outcome<T> = Result<T, RestoreError>

  const PREVIOUS_ID := "previous_response_id"

  function ParseObject(text: JsonText): Outcome<seq<Field>> {
    if text.Malformed? then Err(SyntaxError)
    else if !text.value.Obj? then Err(NotAnObject)
    else Ok(text.value.fields)
  }

  function ParseEvents(text: JsonText): Outcome<seq<Json>> {
    if text.Malformed? then Err(SyntaxError)
    else if !text.value.Arr? then Err(DeltaNotAnArray)
    else Ok(text.value.items)
  }

  function EventKey(fields: seq<Field>): Option<string> {
    if Lookup(fields, "messages").Some? then Some("messages")
    else if Lookup(fields, "contents").Some? then Some("contents")
    else if Lookup(fields, "input").Some? then Some("input")
    else None
  }

  function PreviousId(fields: seq<Field>): Option<string> {
    var value := Lookup(fields, PREVIOUS_ID);
    if value.Some? && value.value.Str? && !Texts.IsBlank(value.value.text) then Some(value.value.text) else None
  }

  function ResponseOutput(text: Option<JsonText>): Outcome<seq<Json>> {
    if text.None? then Err(ResponseOutputUnavailable)
    else
      var response := ParseObject(text.value);
      if response.Err? then Err(response.error)
      else
        var output := Lookup(response.value, "output");
        if output.None? || !output.value.Arr? then Err(ResponseOutputUnavailable) else Ok(output.value.items)
  }

  // Later revisions with the same id win.
  function ById(revisions: seq<Revision>): (m: map<string, Revision>)
    ensures forall id :: id in m ==> m[id].requestId == id
  {
    if revisions == [] then map[]
    else
      var last := revisions[|revisions| - 1];
      ById(revisions[..|revisions| - 1])[last.requestId := last]
  }

  // ---- The recursive definition --------------------------------------------------

  // What one revision does to the transcript of its parent.
  function Extend(item: Revision, parent: Option<Revision>, events: seq<Json>): Outcome<seq<Json>> {
    if item.retainCount.NotAnInteger? || item.retainCount.count < 0 then Err(InvalidRetainCount)
    else
      var delta := ParseEvents(item.requestDelta);
      if delta.Err? then Err(delta.error)
      else
        var envelope := ParseObject(item.requestEnvelope);
        if envelope.Err? then Err(envelope.error)
        else if PreviousId(envelope.value).Some? then
          Continue(item, parent, events, PreviousId(envelope.value).value, delta.value)
        else if item.parentRequestId.None? then Ok(events + delta.value)
        else if item.retainCount.count > |events| then Err(InvalidRetainCount)
        else Ok(events[..item.retainCount.count] + delta.value)
  }

  function Continue(item: Revision, parent: Option<Revision>, events: seq<Json>, previousId: string,
                    delta: seq<Json>): Outcome<seq<Json>>
    requires item.retainCount.Whole?
  {
    if item.parentRequestId.None? || parent.None? then Err(ContinuationParentUnavailable)
    else if item.retainCount.count != 0 then Err(InvalidContinuationRetainCount)
    else if parent.value.responseId.Some? && parent.value.responseId.value != Some(previousId) then
      Err(ContinuationResponseMismatch)
    else
      var output := ResponseOutput(parent.value.responseJson);
      if output.Err? then Err(output.error) else Ok(events + output.value + delta)
  }

  // The transcript of a revision from the transcript of its parent. `seen` are the
  // revisions this walk has been through.
  function Transcript(byId: map<string, Revision>, id: string, seen: set<string>): Outcome<seq<Json>>
    decreases |byId.Keys - seen|
  {
    if id !in byId then Err(UnknownRevision(id))
    else if id in seen then Err(RevisionCycle)
    else
      assert byId.Keys - (seen + {id}) < byId.Keys - seen;
      SmallerSet(byId.Keys - (seen + {id}), byId.Keys - seen);
      var item := byId[id];
      if item.parentRequestId.None? then Extend(item, None, [])
      else
        var parent := item.parentRequestId.value;
        var events := Transcript(byId, parent, seen + {id});
        if events.Err? then events
        else Extend(item, if parent in byId then Some(byId[parent]) else None, events.value)
  }

  lemma SmallerSet<T>(a: set<T>, b: set<T>)
    requires a < b
    ensures |a| < |b|
  {
    assert b == a + (b - a);
  }

  // The restored request: the envelope with its carrier filled in.
  function Restored(byId: map<string, Revision>, id: string): Outcome<Json> {
    var events := Transcript(byId, id, {});
    if events.Err? then Err(events.error)
    else if id !in byId then Err(UnknownRevision(id))
    else Fill(byId[id].requestEnvelope, events.value)
  }

  function Fill(envelope: JsonText, events: seq<Json>): Outcome<Json> {
    var fields := ParseObject(envelope);
    if fields.Err? then Err(fields.error)
    else if EventKey(fields.value).None? then Err(NoEventCarrier)
    else
      var filled := Put(fields.value, EventKey(fields.value).value, Arr(events));
      Ok(Obj(if PreviousId(fields.value).Some? then Remove(filled, PREVIOUS_ID) else filled))
  }

  // ---- The algorithm -------------------------------------------------------------

  // The walk from a revision to its root, nearest first.
  ghost function Chain(byId: map<string, Revision>, id: string, seen: set<string>): Outcome<seq<Revision>>
    decreases |byId.Keys - seen|
  {
    if id !in byId then Err(UnknownRevision(id))
    else if id in seen then Err(RevisionCycle)
    else
      assert byId.Keys - (seen + {id}) < byId.Keys - seen;
      SmallerSet(byId.Keys - (seen + {id}), byId.Keys - seen);
      var item := byId[id];
      if item.parentRequestId.None? then Ok([item])
      else
        var rest := Chain(byId, item.parentRequestId.value, seen + {id});
        if rest.Err? then rest else Ok([item] + rest.value)
  }

  // Replaying revisions root first.
  ghost function Replay(chain: seq<Revision>): Outcome<seq<Json>> {
    if chain == [] then Ok([])
    else
      var n := |chain| - 1;
      var events := Replay(chain[..n]);
      if events.Err? then events
      else Extend(chain[n], if n == 0 then None else Some(chain[n - 1]), events.value)
  }

  function Reverse<T>(s: seq<T>): seq<T> {
    seq(|s|, i requires 0 <= i < |s| => s[|s| - 1 - i])
  }

  lemma {:induction false} TranscriptIsReplay(byId: map<string, Revision>, id: string, seen: set<string>)
    ensures var chain := Chain(byId, id, seen);
            Transcript(byId, id, seen) == if chain.Err? then Err(chain.error) else Replay(Reverse(chain.value))
    ensures Chain(byId, id, seen).Ok? ==>
              Chain(byId, id, seen).value != [] && id in byId && Chain(byId, id, seen).value[0] == byId[id]
    decreases |byId.Keys - seen|
  {
    if id in byId && id !in seen {
      SmallerSet(byId.Keys - (seen + {id}), byId.Keys - seen);
      var item := byId[id];
      if item.parentRequestId.None? {
        assert Reverse([item]) == [item];
        assert Replay([item][..0]) == Ok([]);
      } else {
        var parent := item.parentRequestId.value;
        TranscriptIsReplay(byId, parent, seen + {id});
        var rest := Chain(byId, parent, seen + {id});
        if rest.Ok? {
          var chain := [item] + rest.value;
          var rev := Reverse(chain);
          assert rev[..|rev| - 1] == Reverse(rest.value);
          assert rev[|rev| - 1] == item && rev[|rev| - 2] == byId[parent];
        }
      }
    }
  }

  method RestoreSessionRevision(revisions: seq<Revision>, requestId: string) returns (r: Outcome<Json>)
    ensures r == Restored(ById(revisions), requestId)
  {
    var byId := ById(revisions);
    TranscriptIsReplay(byId, requestId, {});
    if requestId !in byId {
      return Err(UnknownRevision(requestId));
    }
    var revision := byId[requestId];
    var walked := WalkChain(byId, revision);
    if walked.Err? {
      return Err(walked.error);
    }
    var restored := ReplayChain(walked.value);
    if restored.Err? {
      return Err(restored.error);
    }
    return Fill(revision.requestEnvelope, restored.value);
  }

  method WalkChain(byId: map<string, Revision>, revision: Revision) returns (r: Outcome<seq<Revision>>)
    requires revision.requestId in byId && byId[revision.requestId] == revision
    requires forall id :: id in byId ==> byId[id].requestId == id
    ensures r == Chain(byId, revision.requestId, {})
  {
    var chain: seq<Revision> := [];
    var seen: set<string> := {};
    var current := revision;
    ghost var whole := Chain(byId, revision.requestId, {});
    assert whole.Ok? ==> [] + whole.value == whole.value;
    while true
      invariant current.requestId in byId && byId[current.requestId] == current
      invariant var rest := Chain(byId, current.requestId, seen);
                Chain(byId, revision.requestId, {}) == if rest.Err? then rest else Ok(chain + rest.value)
      decreases |byId.Keys - seen|
    {
      if current.requestId in seen {
        return Err(RevisionCycle);
      }
      SmallerSet(byId.Keys - (seen + {current.requestId}), byId.Keys - seen);
      ghost var before := chain;
      seen := seen + {current.requestId};
      chain := chain + [current];
      if current.parentRequestId.None? {
        return Ok(chain);
      }
      if current.parentRequestId.value !in byId {
        return Err(UnknownRevision(current.parentRequestId.value));
      }
      ghost var rest := Chain(byId, current.parentRequestId.value, seen);
      assert rest.Ok? ==> before + ([current] + rest.value) == chain + rest.value;
      current := byId[current.parentRequestId.value];
    }
  }

  method ReplayChain(chain: seq<Revision>) returns (r: Outcome<seq<Json>>)
    ensures r == Replay(Reverse(chain))
  {
    var reversed := Reverse(chain);
    var events: seq<Json> := [];
    var parent: Option<Revision> := None;
    for i := 0 to |reversed|
      invariant Replay(reversed[..i]) == Ok(events)
      invariant parent == if i == 0 then None else Some(reversed[i - 1])
    {
      assert reversed[..i + 1][..i] == reversed[..i];
      var next := Extend(reversed[i], parent, events);
      if next.Err? {
        ReplayStops(reversed, i + 1);
        return next;
      }
      events := next.value;
      parent := Some(reversed[i]);
    }
    assert reversed[..|reversed|] == reversed;
    return Ok(events);
  }

  lemma {:induction false} ReplayStops(chain: seq<Revision>, i: nat)
    requires i <= |chain| && Replay(chain[..i]).Err?
    ensures Replay(chain) == Replay(chain[..i])
    decreases |chain| - i
  {
    if i == |chain| {
      assert chain[..i] == chain;
    } else {
      assert chain[..i + 1][..i] == chain[..i];
      ReplayStops(chain, i + 1);
    }
  }

  // ---- When the walk fails -------------------------------------------------------

  // The ids the parent walk goes through: 0 is the start, n + 1 the parent of n.
  ghost function Nth(byId: map<string, Revision>, id: string, n: nat): Option<string> {
    if n == 0 then Some(id)
    else
      var below := Nth(byId, id, n - 1);
      if below.Some? && below.value in byId then byId[below.value].parentRequestId else None
  }

  ghost predicate Revisits(byId: map<string, Revision>, id: string) {
    exists i: nat, j: nat :: i < j && Nth(byId, id, i).Some? && Nth(byId, id, i) == Nth(byId, id, j)
  }

  ghost predicate ReachesUnknown(byId: map<string, Revision>, id: string, unknown: string) {
    unknown !in byId && exists n: nat :: Nth(byId, id, n) == Some(unknown)
  }

  // The first k ids of the walk are exactly `seen`, all stored and all different.
  ghost predicate SeenSoFar(byId: map<string, Revision>, id: string, seen: set<string>, k: nat) {
    && (forall i: nat :: i < k ==>
        Nth(byId, id, i).Some? && Nth(byId, id, i).value in byId && Nth(byId, id, i).value in seen)
    && (forall x :: x in seen ==> exists i: nat :: i < k && Nth(byId, id, i) == Some(x))
    && (forall i: nat, j: nat :: i < j < k ==> Nth(byId, id, i) != Nth(byId, id, j))
  }

  lemma {:induction false} NothingAfter(byId: map<string, Revision>, id: string, k: nat, n: nat)
    requires Nth(byId, id, k).None? && k <= n
    ensures Nth(byId, id, n).None?
  {
    if k < n {
      NothingAfter(byId, id, k, n - 1);
    }
  }

  lemma EndedWalk(byId: map<string, Revision>, id: string, seen: set<string>, k: nat)
    requires SeenSoFar(byId, id, seen, k)
    requires Nth(byId, id, k + 1).None? && Nth(byId, id, k).Some? && Nth(byId, id, k).value !in seen
    ensures !Revisits(byId, id)
    ensures forall n: nat :: Nth(byId, id, n).Some? ==> n <= k
  {
    forall n: nat | k < n ensures Nth(byId, id, n).None? {
      NothingAfter(byId, id, k + 1, n);
    }
  }

  // What a finished walk says about the ids it met.
  ghost predicate Explains(chain: Outcome<seq<Revision>>, byId: map<string, Revision>, start: string) {
    && (chain == Err(RevisionCycle) <==> Revisits(byId, start))
    && (forall x :: chain == Err(UnknownRevision(x)) <==> ReachesUnknown(byId, start, x))
    && (chain.Err? ==> chain.error == RevisionCycle || chain.error.UnknownRevision?)
  }

  lemma {:induction false} EndsUnknown(byId: map<string, Revision>, start: string, id: string, seen: set<string>,
                                       k: nat)
    requires SeenSoFar(byId, start, seen, k) && Nth(byId, start, k) == Some(id) && id !in byId
    ensures Explains(Err(UnknownRevision(id)), byId, start)
  {
    assert Nth(byId, start, k + 1).None?;
    EndedWalk(byId, start, seen, k);
  }

  lemma {:induction false} EndsAtRoot(byId: map<string, Revision>, start: string, id: string, seen: set<string>, k: nat,
                                      chain: Outcome<seq<Revision>>)
    requires SeenSoFar(byId, start, seen, k) && Nth(byId, start, k) == Some(id)
    requires id in byId && id !in seen && byId[id].parentRequestId.None? && chain.Ok?
    ensures Explains(chain, byId, start)
  {
    assert Nth(byId, start, k + 1).None?;
    EndedWalk(byId, start, seen, k);
  }

  lemma {:induction false} EndsInCycle(byId: map<string, Revision>, start: string, id: string, seen: set<string>,
                                       k: nat)
    requires SeenSoFar(byId, start, seen, k) && Nth(byId, start, k) == Some(id) && id in seen
    ensures Explains(Err(RevisionCycle), byId, start)
  {
    var i: nat :| i < k && Nth(byId, start, i) == Some(id);
    Loops(byId, start, seen, i, k);
  }

  lemma SeenGrows(byId: map<string, Revision>, start: string, id: string, seen: set<string>, k: nat)
    requires SeenSoFar(byId, start, seen, k) && Nth(byId, start, k) == Some(id) && id in byId && id !in seen
    ensures SeenSoFar(byId, start, seen + {id}, k + 1)
    ensures Nth(byId, start, k + 1) == byId[id].parentRequestId
  {
  }

  lemma SameExplanation(rest: Outcome<seq<Revision>>, chain: Outcome<seq<Revision>>, byId: map<string, Revision>,
                        start: string)
    requires Explains(rest, byId, start)
    requires rest.Ok? <==> chain.Ok?
    requires rest.Err? ==> rest == chain
    ensures Explains(chain, byId, start)
  {
  }

  lemma {:induction false} WalkOutcome(byId: map<string, Revision>, start: string, id: string, seen: set<string>,
                                       k: nat)
    requires SeenSoFar(byId, start, seen, k) && Nth(byId, start, k) == Some(id)
    ensures Explains(Chain(byId, id, seen), byId, start)
    decreases |byId.Keys - seen|
  {
    hide Explains, SeenSoFar, Nth;
    if id !in byId {
      EndsUnknown(byId, start, id, seen, k);
    } else if id in seen {
      EndsInCycle(byId, start, id, seen, k);
    } else if byId[id].parentRequestId.None? {
      EndsAtRoot(byId, start, id, seen, k, Chain(byId, id, seen));
    } else {
      SmallerSet(byId.Keys - (seen + {id}), byId.Keys - seen);
      var parent := byId[id].parentRequestId.value;
      SeenGrows(byId, start, id, seen, k);
      WalkOutcome(byId, start, parent, seen + {id}, k + 1);
      SameExplanation(Chain(byId, parent, seen + {id}), Chain(byId, id, seen), byId, start);
    }
  }

  // Once the walk is back at position i it goes round for ever and meets stored ids only.
  lemma {:induction false} Loops(byId: map<string, Revision>, start: string, seen: set<string>, i: nat, k: nat)
    requires SeenSoFar(byId, start, seen, k) && i < k && Nth(byId, start, i) == Nth(byId, start, k)
    ensures forall n: nat :: Nth(byId, start, n).Some? && Nth(byId, start, n).value in byId
  {
    forall n: nat ensures Nth(byId, start, n).Some? && Nth(byId, start, n).value in byId {
      LoopsAt(byId, start, seen, i, k, n);
    }
  }

  lemma {:induction false} LoopsAt(byId: map<string, Revision>, start: string, seen: set<string>, i: nat, k: nat,
                                   n: nat)
    requires SeenSoFar(byId, start, seen, k) && i < k && Nth(byId, start, i) == Nth(byId, start, k)
    ensures exists m: nat :: m < k && Nth(byId, start, n) == Nth(byId, start, m)
    ensures Nth(byId, start, n).Some? && Nth(byId, start, n).value in byId
  {
    if n < k {
    } else {
      LoopsAt(byId, start, seen, i, k, n - 1);
      var m: nat :| m < k && Nth(byId, start, n - 1) == Nth(byId, start, m);
      assert Nth(byId, start, n) == Nth(byId, start, m + 1);
      if m + 1 == k {
        assert Nth(byId, start, n) == Nth(byId, start, i);
      }
    }
  }

  // A cycle is reported exactly when the parent walk comes back to an id, and an unknown
  // revision exactly when the walk leaves the stored revisions there; nothing else can
  // go wrong before the replay.
  lemma {:induction false} WalkErrors(byId: map<string, Revision>, id: string)
    ensures Chain(byId, id, {}) == Err(RevisionCycle) <==> Revisits(byId, id)
    ensures forall x :: Chain(byId, id, {}) == Err(UnknownRevision(x)) <==> ReachesUnknown(byId, id, x)
    ensures Restored(byId, id) == Err(RevisionCycle) <==> Revisits(byId, id)
  {
    WalkOutcome(byId, id, id, {}, 0);
    TranscriptIsReplay(byId, id, {});
    if Chain(byId, id, {}).Ok? {
      ReplayErrors(Reverse(Chain(byId, id, {}).value));
    }
  }

  lemma {:induction false} ReplayErrors(chain: seq<Revision>)
    ensures Replay(chain).Err? ==> Replay(chain).error != RevisionCycle
  {
    if chain != [] { ReplayErrors(chain[..|chain| - 1]); }
  }

  // ---- Branch isolation ----------------------------------------------------------

  ghost predicate SameOnWalk(a: map<string, Revision>, b: map<string, Revision>, id: string) {
    forall n: nat :: Nth(a, id, n).Some? ==>
      var x := Nth(a, id, n).value;
      (x in a <==> x in b) && (x in a ==> a[x] == b[x])
  }

  lemma {:induction false} SameTranscript(a: map<string, Revision>, b: map<string, Revision>, start: string,
                                          id: string, seen: set<string>, k: nat)
    requires SameOnWalk(a, b, start) && Nth(a, start, k) == Some(id)
    ensures Transcript(a, id, seen) == Transcript(b, id, seen)
    decreases |a.Keys - seen|
  {
    if id in a && id !in seen && a[id].parentRequestId.Some? {
      SmallerSet(a.Keys - (seen + {id}), a.Keys - seen);
      assert Nth(a, start, k + 1) == a[id].parentRequestId;
      SameTranscript(a, b, start, a[id].parentRequestId.value, seen + {id}, k + 1);
    }
  }

  // Storing a revision the walk never looks at changes nothing.
  lemma {:induction false} BranchesAreIsolated(revisions: seq<Revision>, extra: Revision, id: string)
    requires forall n: nat :: Nth(ById(revisions), id, n) != Some(extra.requestId)
    ensures Restored(ById(revisions + [extra]), id) == Restored(ById(revisions), id)
  {
    var a, b := ById(revisions), ById(revisions + [extra]);
    assert (revisions + [extra])[..|revisions|] == revisions;
    assert b == a[extra.requestId := extra];
    assert Nth(a, id, 0) == Some(id);
    SameTranscript(a, b, id, id, {}, 0);
  }
}
