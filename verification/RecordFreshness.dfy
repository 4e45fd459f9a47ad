// When a reader of the responses registry can be told of an older record: the exact
// condition on the writing calls, over all timings of calls, store and readers
// (createResponsesRegistry in apps/gateway/src/responses-registry.ts).
module RecordFreshness {
  import opened JsonValues
  import opened ResponsesRegistry

  // A writing call as its caller made it: put, or putIfAbsent.
  datatype Call = Call(record: Record, ref: nat, put: bool)

  predicate IsCall(e: Event) {
    e.BeginPut? || e.BeginInsert?
  }

  function CallsOf(e: Event): seq<Call> {
    if IsCall(e) then [Call(e.record, e.ref, e.BeginPut?)] else []
  }

  // The writing calls of a run, in the order they were made.
  function Calls(events: seq<Event>): seq<Call> {
    if events == [] then [] else Calls(events[..|events| - 1]) + CallsOf(events[|events| - 1])
  }

  predicate Deleted(record: Record) {
    record.status == "deleted"
  }

  // Where two puts share a record object, every call from the first to before the second
  // was given the second one's record, or a deletion.
  predicate Harmless(calls: seq<Call>) {
    forall i, m, k :: 0 <= i <= m < k < |calls| && calls[i].put && calls[k].put && calls[i].ref == calls[k].ref ==>
      Deleted(calls[m].record) || calls[m].record == calls[k].record
  }

  // A read begun at i, after the put begun at k, is told of nothing, or of the record of
  // some call made from k on, which is the caller's, alive and not deleted.
  ghost predicate TellsNoOlderRecord(events: seq<Event>, k: nat, i: nat, j: nat)
    requires PutThenRead(events, k, i, j)
  {
    var told := ToldAt(events, i, j);
    told.Some? ==>
      && VisibleTo(told.value.record, events[i].identity, events[i].now)
      && exists c :: k <= c < j && CallsWith(events[c], told.value.record)
  }

  predicate CallsWith(e: Event, record: Record) {
    IsCall(e) && e.record == record
  }

  ghost predicate AllFresh(events: seq<Event>) {
    forall k, i, j :: PutThenRead(events, k, i, j) ==> TellsNoOlderRecord(events, k, i, j)
  }

  // ---- Calls and events ------------------------------------------------------------

  lemma {:induction false} CallsAppend(a: seq<Event>, b: seq<Event>)
    ensures Calls(a + b) == Calls(a) + Calls(b)
  {
    hide CallsOf;
    if b == [] {
      assert a + b == a && Calls(a) + [] == Calls(a);
    } else {
      assert (a + b)[..|a + b| - 1] == a + b[..|b| - 1];
      CallsAppend(a, b[..|b| - 1]);
    }
  }

  lemma {:induction false} CallsSnoc(events: seq<Event>, e: Event)
    ensures Calls(events + [e]) == Calls(events) + CallsOf(e)
  {
    assert (events + [e])[..|events|] == events;
  }

  lemma CallsUpTo(events: seq<Event>, k: nat)
    requires k < |events|
    ensures Calls(events[..k + 1]) == Calls(events[..k]) + CallsOf(events[k])
  {
    assert events[..k + 1] == events[..k] + [events[k]];
    CallsSnoc(events[..k], events[k]);
  }

  lemma {:induction false} CallsPrefix(events: seq<Event>, k: nat)
    requires k <= |events|
    ensures Calls(events[..k]) <= Calls(events)
  {
    assert events == events[..k] + events[k..];
    CallsAppend(events[..k], events[k..]);
  }

  lemma {:induction false} CallsAreCounted(events: seq<Event>)
    ensures |Calls(events)| == CallsIn(events)
  {
    if events != [] { CallsAreCounted(events[..|events| - 1]); }
  }

  // The event of a call: after k if its number is not below those made by then.
  lemma {:induction false} EventOfCall(events: seq<Event>, k: nat, j: nat, n: nat) returns (c: nat)
    requires k <= j <= |events| && CallsIn(events[..k]) <= n < |Calls(events[..j])|
    ensures k <= c < j && CallsWith(events[c], Calls(events[..j])[n].record)
  {
    hide Calls, CallsIn;
    CallsAreCounted(events[..k]);
    assert j > k;
    CallsUpTo(events, j - 1);
    if n < |Calls(events[..j - 1])| {
      c := EventOfCall(events, k, j - 1, n);
    } else {
      c := j - 1;
    }
  }

  // ---- What every run keeps ----------------------------------------------------------

  function VersionAt(calls: seq<Call>, n: nat): Version
    requires n < |calls|
  {
    Version(n, calls[n].record, calls[n].ref)
  }

  predicate Genuine(v: Version, calls: seq<Call>) {
    v.number < |calls| && v == VersionAt(calls, v.number)
  }

  ghost predicate AllGenuine(queue: seq<Write>, row: Option<Version>, calls: seq<Call>) {
    && (row.Some? ==> Genuine(row.value, calls))
    && forall i :: 0 <= i < |queue| ==> Genuine(VersionOf(queue[i]), calls)
  }

  // The puts in flight are calls of put, and none is newer than the newest.
  ghost predicate PutsGenuine(unfinished: map<nat, Version>, newestPut: Option<nat>, calls: seq<Call>) {
    && (newestPut.Some? ==> newestPut.value < |calls| && calls[newestPut.value].put)
    && forall n :: n in unfinished ==>
         n < |calls| && calls[n].put && unfinished[n] == VersionAt(calls, n) && newestPut.Some? && n <= newestPut.value
  }

  ghost predicate PendingGenuine(s: Slot) {
    s.pending.Some? ==>
      s.newestPut == Some(s.pending.value.number) && s.pending.value.number in s.unfinished &&
      s.unfinished[s.pending.value.number] == s.pending.value
  }

  // Whatever the callers pass: numbers, records and objects in the slot are those of the
  // calls.
  ghost predicate Base(s: Slot, calls: seq<Call>) {
    && s.begun == |calls|
    && QueueInv(s.queue, s.row, s.begun) && PutInv(s.queue, s.row, s.unfinished, s.begun)
    && AllGenuine(s.queue, s.row, calls) && PutsGenuine(s.unfinished, s.newestPut, calls) && PendingGenuine(s)
  }

  lemma IssuingKeepsGenuine(queue: seq<Write>, row: Option<Version>, calls: seq<Call>, c: Call, w: Write)
    requires AllGenuine(queue, row, calls) && VersionOf(w) == VersionAt(calls + [c], |calls|)
    ensures AllGenuine(queue + [w], row, calls + [c])
  {
  }

  lemma PutsGenuineLater(unfinished: map<nat, Version>, newestPut: Option<nat>, calls: seq<Call>, c: Call)
    requires PutsGenuine(unfinished, newestPut, calls)
    ensures PutsGenuine(unfinished, newestPut, calls + [c])
    ensures c.put ==> PutsGenuine(unfinished[|calls| := VersionAt(calls + [c], |calls|)], Some(|calls|), calls + [c])
  {
  }

  lemma BeginKeepsBase(s: Slot, calls: seq<Call>, record: Record, ref: nat)
    requires Base(s, calls)
    ensures Base(BegunPut(s, record, ref), calls + [Call(record, ref, true)])
    ensures Base(Step(s, BeginInsert(record, ref)), calls + [Call(record, ref, false)])
  {
    hide QueueInv, PutInv, AllGenuine, PutsGenuine;
    var v := Version(s.begun, record, ref);
    IssuingKeepsQueue(s.queue, s.row, s.begun, Upsert(v));
    IssuingKeepsQueue(s.queue, s.row, s.begun, InsertIfAbsent(v));
    IssuingKeepsPuts(s.queue, s.row, s.unfinished, s.begun, v, true);
    IssuingKeepsPuts(s.queue, s.row, s.unfinished, s.begun, v, false);
    IssuingKeepsGenuine(s.queue, s.row, calls, Call(record, ref, true), Upsert(v));
    IssuingKeepsGenuine(s.queue, s.row, calls, Call(record, ref, false), InsertIfAbsent(v));
    PutsGenuineLater(s.unfinished, s.newestPut, calls, Call(record, ref, true));
    PutsGenuineLater(s.unfinished, s.newestPut, calls, Call(record, ref, false));
  }

  lemma ApplyKeepsBase(s: Slot, calls: seq<Call>)
    requires Base(s, calls)
    ensures Base(Applied(s), calls)
  {
    hide QueueInv, PutInv, PutsGenuine;
    ApplyingKeepsQueue(s);
    ApplyingKeepsPuts(s);
  }

  lemma FinishKeepsBase(s: Slot, calls: seq<Call>, number: nat)
    requires Base(s, calls)
    ensures Base(FinishedPut(s, number), calls)
  {
    hide QueueInv, AllGenuine;
    if !Waiting(s.queue, number) { EndingKeepsPuts(s.queue, s.row, s.unfinished, s.begun, number); }
  }

  lemma DropKeepsBase(s: Slot, calls: seq<Call>)
    requires Base(s, calls)
    ensures Base(s.(row := None), calls)
  {
  }

  lemma StepKeepsBase(s: Slot, calls: seq<Call>, e: Event)
    requires Base(s, calls)
    ensures Base(Step(s, e), calls + CallsOf(e))
  {
    hide QueueInv, PutInv, AllGenuine, PutsGenuine, Applied, FinishedPut, BegunPut;
    assert calls + [] == calls;
    match e
    case BeginPut(record, ref) => BeginKeepsBase(s, calls, record, ref);
    case FinishPut(number) => FinishKeepsBase(s, calls, number);
    case BeginInsert(record, ref) => BeginKeepsBase(s, calls, record, ref);
    case Apply => ApplyKeepsBase(s, calls);
    case DropRow => DropKeepsBase(s, calls);
    case BeginGet(_, _, _) => {}
    case ServeGet(_) => {}
  }

  lemma {:induction false} RunKeepsBase(events: seq<Event>, k: nat)
    requires k <= |events|
    ensures Base(Run(events[..k]), Calls(events[..k]))
  {
    hide Base, Step;
    if k == 0 {
      assert events[..0] == [];
      EmptyIsBase();
    } else {
      RunKeepsBase(events, k - 1);
      RunNext(events, k - 1);
      CallsUpTo(events, k - 1);
      StepKeepsBase(Run(events[..k - 1]), Calls(events[..k - 1]), events[k - 1]);
    }
  }

  lemma EmptyIsBase()
    ensures Base(Run([]), Calls([]))
  {
  }

  // ---- What harmless calls keep --------------------------------------------------------

  // A version older than `floor` that can still be read has floor's own record.
  predicate Covered(v: Version, floor: Option<nat>, calls: seq<Call>) {
    floor.Some? && floor.value < |calls| && v.number < floor.value ==>
      Deleted(v.record) || v.record == calls[floor.value].record
  }

  ghost predicate AllCovered(queue: seq<Write>, row: Option<Version>, floor: Option<nat>, calls: seq<Call>) {
    && (row.Some? ==> Covered(row.value, floor, calls))
    && forall i :: 0 <= i < |queue| ==> Covered(VersionOf(queue[i]), floor, calls)
  }

  ghost predicate ReadsCovered(s: Slot, calls: seq<Call>) {
    forall r :: r in s.openReads ==>
      && (s.openReads[r].floor.Some? ==> s.openReads[r].floor.value < |calls|)
      && AllCovered(s.queue, s.row, s.openReads[r].floor, calls)
  }

  ghost predicate FreshInv(s: Slot, calls: seq<Call>) {
    && (s.pending.None? ==> AllCovered(s.queue, s.row, s.newestPut, calls))
    && ReadsCovered(s, calls)
  }

  lemma IssuingKeepsCovered(queue: seq<Write>, row: Option<Version>, floor: Option<nat>, calls: seq<Call>, c: Call,
                            w: Write)
    requires AllCovered(queue, row, floor, calls) && VersionOf(w).number == |calls|
    requires floor.Some? ==> floor.value < |calls|
    ensures AllCovered(queue + [w], row, floor, calls + [c])
  {
  }

  lemma ApplyingKeepsCovered(s: Slot, floor: Option<nat>, calls: seq<Call>)
    requires AllCovered(s.queue, s.row, floor, calls)
    ensures AllCovered(Applied(s).queue, Applied(s).row, floor, calls)
  {
  }

  lemma BeginKeepsFresh(s: Slot, calls: seq<Call>, record: Record, ref: nat)
    requires Base(s, calls) && FreshInv(s, calls)
    ensures FreshInv(BegunPut(s, record, ref), calls + [Call(record, ref, true)])
    ensures FreshInv(Step(s, BeginInsert(record, ref)), calls + [Call(record, ref, false)])
  {
    hide AllCovered, AllGenuine, QueueInv, PutInv;
    var v := Version(s.begun, record, ref);
    var put, insert := Call(record, ref, true), Call(record, ref, false);
    forall r | r in s.openReads
      ensures AllCovered(s.queue + [Upsert(v)], s.row, s.openReads[r].floor, calls + [put])
      ensures AllCovered(s.queue + [InsertIfAbsent(v)], s.row, s.openReads[r].floor, calls + [insert])
    {
      IssuingKeepsCovered(s.queue, s.row, s.openReads[r].floor, calls, put, Upsert(v));
      IssuingKeepsCovered(s.queue, s.row, s.openReads[r].floor, calls, insert, InsertIfAbsent(v));
    }
    if s.pending.None? { IssuingKeepsCovered(s.queue, s.row, s.newestPut, calls, insert, InsertIfAbsent(v)); }
  }

  lemma ApplyKeepsFresh(s: Slot, calls: seq<Call>)
    requires FreshInv(s, calls)
    ensures FreshInv(Applied(s), calls)
  {
    hide AllCovered;
    forall r | r in s.openReads ensures AllCovered(Applied(s).queue, Applied(s).row, s.openReads[r].floor, calls) {
      ApplyingKeepsCovered(s, s.openReads[r].floor, calls);
    }
    if s.pending.None? { ApplyingKeepsCovered(s, s.newestPut, calls); }
  }

  // Taking the overlay of the newest put away does no harm: what the store holds is not
  // older than the put that ended, and so has the same record.
  lemma FinishKeepsFresh(s: Slot, calls: seq<Call>, number: nat)
    requires Base(s, calls) && FreshInv(s, calls) && Harmless(calls)
    ensures FreshInv(FinishedPut(s, number), calls)
  {
    hide AllCovered, AllGenuine, QueueInv, Harmless, PutInv;
    var t := FinishedPut(s, number);
    if t.pending.None? && s.pending.Some? {
      EndedPutReached(s, number);
      SharedRefCovers(s.queue, s.row, calls, number, s.pending.value.number);
    }
  }

  lemma EndedPutReached(s: Slot, number: nat)
    requires PutInv(s.queue, s.row, s.unfinished, s.begun) && number in s.unfinished && !Waiting(s.queue, number)
    ensures Reached(s.queue, s.row, Some(number))
  {
  }

  lemma SharedRefCovers(queue: seq<Write>, row: Option<Version>, calls: seq<Call>, i: nat, k: nat)
    requires AllGenuine(queue, row, calls) && Reached(queue, row, Some(i)) && Harmless(calls)
    requires i <= k < |calls| && calls[i].put && calls[k].put && calls[i].ref == calls[k].ref
    ensures AllCovered(queue, row, Some(k), calls)
  {
    hide Harmless;
    if row.Some? { SharedRefCoversOne(row.value, calls, i, k); }
    forall x | 0 <= x < |queue| ensures Covered(VersionOf(queue[x]), Some(k), calls) {
      SharedRefCoversOne(VersionOf(queue[x]), calls, i, k);
    }
  }

  lemma SharedRefCoversOne(v: Version, calls: seq<Call>, i: nat, k: nat)
    requires Harmless(calls) && Genuine(v, calls) && i <= v.number
    requires i <= k < |calls| && calls[i].put && calls[k].put && calls[i].ref == calls[k].ref
    ensures Covered(v, Some(k), calls)
  {
    var m := v.number;
    assert calls[m].record == v.record;
  }

  lemma StepKeepsFresh(s: Slot, calls: seq<Call>, e: Event)
    requires Base(s, calls) && FreshInv(s, calls) && Harmless(calls)
    ensures FreshInv(Step(s, e), calls + CallsOf(e))
  {
    assert calls + [] == calls;
    match e
    case BeginPut(record, ref) => BeginKeepsFresh(s, calls, record, ref);
    case FinishPut(number) => FinishKeepsFresh(s, calls, number);
    case BeginInsert(record, ref) => BeginKeepsFresh(s, calls, record, ref);
    case Apply => ApplyKeepsFresh(s, calls);
    case DropRow => DropKeepsFresh(s, calls);
    case BeginGet(_, _, _) => GetKeepsFresh(s, calls, e);
    case ServeGet(_) => {}
  }

  lemma DropKeepsFresh(s: Slot, calls: seq<Call>)
    requires FreshInv(s, calls)
    ensures FreshInv(s.(row := None), calls)
  {
  }

  lemma GetKeepsFresh(s: Slot, calls: seq<Call>, e: Event)
    requires Base(s, calls) && FreshInv(s, calls) && e.BeginGet?
    ensures FreshInv(Step(s, e), calls)
  {
    hide AllCovered, AllGenuine, QueueInv, PutInv;
  }

  lemma HarmlessPrefix(calls: seq<Call>, all: seq<Call>)
    requires calls <= all && Harmless(all)
    ensures Harmless(calls)
  {
  }

  lemma {:induction false} RunKeepsFresh(events: seq<Event>, k: nat)
    requires k <= |events| && Harmless(Calls(events))
    ensures FreshInv(Run(events[..k]), Calls(events[..k]))
  {
    hide Base, FreshInv, Harmless, Step;
    if k == 0 {
      assert events[..0] == [];
      EmptyIsFresh();
    } else {
      RunKeepsFresh(events, k - 1);
      RunKeepsBase(events, k - 1);
      CallsPrefix(events, k - 1);
      HarmlessPrefix(Calls(events[..k - 1]), Calls(events));
      RunNext(events, k - 1);
      CallsUpTo(events, k - 1);
      StepKeepsFresh(Run(events[..k - 1]), Calls(events[..k - 1]), events[k - 1]);
    }
  }

  lemma EmptyIsFresh()
    ensures FreshInv(Run([]), Calls([]))
  {
  }

  // ---- Harmless calls are never read stale ------------------------------------------------

  lemma GenuineFacts(s: Slot, calls: seq<Call>)
    requires Base(s, calls)
    ensures s.pending.Some? ==> Genuine(s.pending.value, calls) && s.newestPut == Some(s.pending.value.number)
    ensures s.row.Some? ==> Genuine(s.row.value, calls)
    ensures s.newestPut.Some? ==> s.newestPut.value < |calls|
  {
  }

  lemma OpenReadIsCovered(s: Slot, calls: seq<Call>, reader: nat)
    requires FreshInv(s, calls) && reader in s.openReads && s.row.Some?
    ensures Covered(s.row.value, s.openReads[reader].floor, calls)
  {
  }

  lemma {:induction false} HarmlessReadIsFresh(events: seq<Event>, k: nat, i: nat, j: nat)
    requires Harmless(Calls(events)) && PutThenRead(events, k, i, j)
    ensures TellsNoOlderRecord(events, k, i, j)
  {
    hide Run, Base, FreshInv, Harmless, Calls, CallsIn;
    var s, t, told := Run(events[..i]), Run(events[..j]), ToldAt(events, i, j);
    var calls := Calls(events[..j]);
    NewestPutOnlyGrows(events, k, i);
    RunKeepsBase(events, i);
    RunKeepsBase(events, j);
    GenuineFacts(s, Calls(events[..i]));
    GenuineFacts(t, calls);
    assert events[..j][..i] == events[..i];
    CallsPrefix(events[..j], i);
    if told.Some? {
      var n := told.value.number;
      if s.pending.None? {
        OpenReadStays(events, i, j);
        RunKeepsFresh(events, j);
        OpenReadIsCovered(t, calls, events[i].reader);
        if n < s.newestPut.value { n := s.newestPut.value; }
      }
      var c := EventOfCall(events, k, j, n);
    }
  }

  // ---- One step ---------------------------------------------------------------------------

  // Some caller, reading now, would be told of an older version than `newest`, with
  // another record.
  ghost predicate StaleNow(s: Slot, newest: Version) {
    exists identity: Identity, now: int :: ServesOlder(s, newest, identity, now)
  }

  ghost predicate ServesOlder(s: Slot, newest: Version, identity: Identity, now: int) {
    var answer := if s.pending.Some? then OverlayAnswer(s, identity, now).GetOr(None)
                  else StoreAnswer(s, Read(identity, now, s.newestPut));
    answer.Some? && answer.value.number < newest.number && answer.value.record != newest.record
  }

  // In any reachable slot, while the newest put is in flight: the end of a put makes reads
  // stale exactly when it takes the overlay of the newest one, which the store has not
  // applied, and the store's row is not deleted and has another record.
  lemma FinishedPutGoesStaleIff(s: Slot, calls: seq<Call>, number: nat)
    requires Base(s, calls) && s.pending.Some?
    ensures StaleNow(FinishedPut(s, number), s.pending.value) <==>
            LosesOverlay(s, number) && s.row.Some? && !Deleted(s.row.value.record) &&
            s.row.value.record != s.pending.value.record
  {
    hide QueueInv, PutInv, AllGenuine;
    var t, newest := FinishedPut(s, number), s.pending.value;
    if LosesOverlay(s, number) {
      WaitingIsNewerThanRow(s.queue, s.row, s.begun, newest.number);
      if s.row.Some? && !Deleted(s.row.value.record) && s.row.value.record != newest.record {
        assert ServesOlder(t, newest, s.row.value.record.owner, s.row.value.record.expiresAt - 1);
      }
    } else if t.pending.None? {
      EndedPutReached(s, newest.number);
    }
  }

  lemma WaitingIsNewerThanRow(queue: seq<Write>, row: Option<Version>, begun: nat, number: nat)
    requires QueueInv(queue, row, begun) && Waiting(queue, number)
    ensures row.Some? ==> row.value.number < number
  {
  }

  // ---- Harmful calls can be read stale -----------------------------------------------------

  function Begin(c: Call): Event {
    if c.put then BeginPut(c.record, c.ref) else BeginInsert(c.record, c.ref)
  }

  // Calls that are begun and reach an emptied row one after the other, and calls that are
  // only begun.
  function StoreAll(calls: seq<Call>, n: nat): seq<Event>
    requires n <= |calls|
  {
    if n == 0 then [] else StoreAll(calls, n - 1) + [Begin(calls[n - 1])] + [DropRow] + [Apply]
  }

  function BeginAll(calls: seq<Call>, from: nat, upTo: nat): seq<Event>
    requires from <= upTo <= |calls|
    decreases upTo
  {
    if from == upTo then [] else BeginAll(calls, from, upTo - 1) + [Begin(calls[upTo - 1])]
  }

  // Calls 0 to m have been applied, the others wait, and no put has ended.
  ghost predicate Underway(s: Slot, calls: seq<Call>, m: nat, upTo: nat)
    requires m < upTo <= |calls|
  {
    && s.begun == upTo && s.row == Some(VersionAt(calls, m)) && AllAfter(s.queue, Some(m))
    && (forall n :: 0 <= n < upTo && calls[n].put ==> n in s.unfinished && s.unfinished[n] == VersionAt(calls, n))
    && (calls[upTo - 1].put ==> s.pending == Some(VersionAt(calls, upTo - 1)) && s.newestPut == Some(upTo - 1))
  }

  // Nothing waits, and the puts among the first `n` calls are unfinished.
  ghost predicate Stored(s: Slot, calls: seq<Call>, n: nat)
    requires n <= |calls|
  {
    && s.queue == [] && s.begun == n
    && forall x :: 0 <= x < n && calls[x].put ==> x in s.unfinished && s.unfinished[x] == VersionAt(calls, x)
  }

  lemma {:induction false} RunSnoc(events: seq<Event>, e: Event)
    ensures Run(events + [e]) == Step(Run(events), e)
  {
    assert (events + [e])[..|events + [e]| - 1] == events;
  }

  lemma StoringOne(s: Slot, calls: seq<Call>, m: nat)
    requires m < |calls| && Stored(s, calls, m)
    ensures var t := Step(Step(Step(s, Begin(calls[m])), DropRow), Apply);
            Underway(t, calls, m, m + 1) && Stored(t, calls, m + 1)
  {
    hide Waiting;
    var begun := Step(s, Begin(calls[m]));
    assert begun.queue == [if calls[m].put then Upsert(VersionAt(calls, m)) else InsertIfAbsent(VersionAt(calls, m))];
  }

  lemma {:induction false} StoreAllRuns(calls: seq<Call>, m: nat)
    requires m < |calls|
    ensures Underway(Run(StoreAll(calls, m + 1)), calls, m, m + 1) && Stored(Run(StoreAll(calls, m + 1)), calls, m + 1)
  {
    hide Run, StoreAll, Underway, Stored, Step, Begin;
    var before := StoreAll(calls, m);
    if m > 0 { StoreAllRuns(calls, m - 1); } else { NothingRuns(calls); }
    RunSnoc(before, Begin(calls[m]));
    RunSnoc(before + [Begin(calls[m])], DropRow);
    RunSnoc(before + [Begin(calls[m])] + [DropRow], Apply);
    StoreAllNext(calls, m);
    StoringOne(Run(before), calls, m);
  }

  lemma {:induction false} NothingRuns(calls: seq<Call>)
    ensures Stored(Run(StoreAll(calls, 0)), calls, 0)
  {
  }

  lemma StoreAllNext(calls: seq<Call>, m: nat)
    requires m < |calls|
    ensures StoreAll(calls, m + 1) == StoreAll(calls, m) + [Begin(calls[m])] + [DropRow] + [Apply]
  {
  }

  lemma BeginningOne(s: Slot, calls: seq<Call>, m: nat, upTo: nat)
    requires m < upTo < |calls| && Underway(s, calls, m, upTo)
    ensures Underway(Step(s, Begin(calls[upTo])), calls, m, upTo + 1)
  {
  }

  lemma {:induction false} BeginAllRuns(calls: seq<Call>, m: nat, upTo: nat)
    requires m < upTo <= |calls|
    ensures Underway(Run(StoreAll(calls, m + 1) + BeginAll(calls, m + 1, upTo)), calls, m, upTo)
    decreases upTo
  {
    hide Run, StoreAll, Underway, Step, Begin;
    var before := StoreAll(calls, m + 1);
    if upTo == m + 1 {
      StoreAllRuns(calls, m);
      assert before + BeginAll(calls, m + 1, upTo) == before;
    } else {
      BeginAllRuns(calls, m, upTo - 1);
      var e := Begin(calls[upTo - 1]);
      RunSnoc(before + BeginAll(calls, m + 1, upTo - 1), e);
      assert before + BeginAll(calls, m + 1, upTo - 1) + [e] == before + BeginAll(calls, m + 1, upTo);
      BeginningOne(Run(before + BeginAll(calls, m + 1, upTo - 1)), calls, m, upTo - 1);
    }
  }

  lemma CallsOfBegin(c: Call)
    ensures CallsOf(Begin(c)) == [c]
  {
  }

  lemma NoCalls()
    ensures Calls([]) == []
  {
  }

  lemma {:induction false} CallsOfBeginAll(calls: seq<Call>, from: nat, upTo: nat)
    requires from <= upTo <= |calls|
    ensures Calls(BeginAll(calls, from, upTo)) == calls[from..upTo]
    decreases upTo
  {
    hide Calls, CallsOf, Begin;
    if from == upTo {
      NoCalls();
    } else {
      CallsOfBeginAll(calls, from, upTo - 1);
      CallsOfBegin(calls[upTo - 1]);
      CallsSnoc(BeginAll(calls, from, upTo - 1), Begin(calls[upTo - 1]));
      assert calls[from..upTo - 1] + [calls[upTo - 1]] == calls[from..upTo];
    }
  }

  lemma {:induction false} CallsSkip(events: seq<Event>, e: Event)
    requires !IsCall(e)
    ensures Calls(events + [e]) == Calls(events)
  {
    CallsSnoc(events, e);
  }

  lemma {:induction false} CallsOfStoreAll(calls: seq<Call>, n: nat)
    requires n <= |calls|
    ensures Calls(StoreAll(calls, n)) == calls[..n]
  {
    hide Calls, CallsOf, Begin;
    if n == 0 {
      NoCalls();
    } else {
      CallsOfStoreAll(calls, n - 1);
      CallsOfBegin(calls[n - 1]);
      var before, e := StoreAll(calls, n - 1), Begin(calls[n - 1]);
      CallsSnoc(before, e);
      CallsSkip(before + [e], DropRow);
      CallsSkip(before + [e] + [DropRow], Apply);
      assert calls[..n - 1] + [calls[n - 1]] == calls[..n];
    }
  }

  // The end of put i takes away the overlay of put k, and the row is still call m.
  lemma OverlayIsLost(s: Slot, calls: seq<Call>, i: nat, m: nat, k: nat)
    requires i <= m < k < |calls| && calls[i].put && calls[k].put && calls[i].ref == calls[k].ref
    requires Underway(s, calls, m, k + 1)
    ensures var t := FinishedPut(s, i);
            t.pending.None? && t.row == Some(VersionAt(calls, m)) && t.newestPut == Some(k)
  {
    assert s.unfinished[i] == VersionAt(calls, i);
  }

  // The run: calls up to m are stored, those up to k begun, put i ends, and somebody reads.
  function Schedule(calls: seq<Call>, i: nat, m: nat, k: nat, get: Event): seq<Event>
    requires m < k < |calls|
  {
    StoreAll(calls, m + 1) + BeginAll(calls, m + 1, k + 1) + [FinishPut(i)] + [get] + BeginAll(calls, k + 1, |calls|)
  }

  lemma CallsOfSchedule(calls: seq<Call>, i: nat, m: nat, k: nat, get: Event)
    requires m < k < |calls| && !IsCall(get)
    ensures Calls(Schedule(calls, i, m, k, get)) == calls
  {
    hide Calls, IsCall, StoreAll, BeginAll;
    CallsOfStoreAll(calls, m + 1);
    CallsOfBeginAll(calls, m + 1, k + 1);
    CallsOfBeginAll(calls, k + 1, |calls|);
    EndIsNoCall(i);
    CallsJoined(StoreAll(calls, m + 1), BeginAll(calls, m + 1, k + 1), FinishPut(i), get,
                BeginAll(calls, k + 1, |calls|));
    assert calls[..m + 1] + calls[m + 1..k + 1] + calls[k + 1..] == calls;
  }

  lemma {:induction false} CallsJoined(stored: seq<Event>, begun: seq<Event>, end: Event, get: Event, rest: seq<Event>)
    requires !IsCall(end) && !IsCall(get)
    ensures Calls(stored + begun + [end] + [get] + rest) == Calls(stored) + Calls(begun) + Calls(rest)
  {
    hide Calls, IsCall;
    CallsAppend(stored, begun);
    CallsSkip(stored + begun, end);
    CallsSkip(stored + begun + [end], get);
    CallsAppend(stored + begun + [end] + [get], rest);
  }

  lemma EndIsNoCall(i: nat)
    ensures !IsCall(FinishPut(i))
  {
  }

  // Whenever two puts i and k share an object and some call m, from i on and before k, was
  // given another record than k and no deletion, the same calls can run so that a read
  // begun after put k is told of m's record, which nobody has given since put k began.
  lemma SharedObjectGoesStale(calls: seq<Call>, i: nat, m: nat, k: nat)
    returns (events: seq<Event>, put: nat, read: nat)
    requires i <= m < k < |calls| && calls[i].put && calls[k].put && calls[i].ref == calls[k].ref
    requires !Deleted(calls[m].record) && calls[m].record != calls[k].record
    ensures Calls(events) == calls
    ensures PutThenRead(events, put, read, read + 1) && !TellsNoOlderRecord(events, put, read, read + 1)
    ensures events[put] == BeginPut(calls[k].record, calls[k].ref)
    ensures ToldAt(events, read, read + 1) == Some(VersionAt(calls, m))
  {
    hide Run, Calls, FinishedPut, StoreAll, Underway;
    var get := BeginGet(0, calls[m].record.owner, calls[m].record.expiresAt - 1);
    var head := StoreAll(calls, m + 1) + BeginAll(calls, m + 1, k);
    var begun := StoreAll(calls, m + 1) + BeginAll(calls, m + 1, k + 1);
    var ended := begun + [FinishPut(i)];
    events := Schedule(calls, i, m, k, get);
    put, read := |head|, |head| + 2;
    assert begun == head + [Begin(calls[k])];
    assert events[..put] == head && events[..read] == ended && events[..read + 1] == ended + [get];
    assert events[put] == Begin(calls[k]) && events[put + 1] == FinishPut(i) && events[read] == get;
    BeginAllRuns(calls, m, k + 1);
    RunSnoc(begun, FinishPut(i));
    OverlayIsLost(Run(begun), calls, i, m, k);
    RunSnoc(ended, get);
    CallsOfSchedule(calls, i, m, k, get);
    forall c | put <= c < read + 1 ensures !CallsWith(events[c], calls[m].record) {
    }
  }

  // ---- The exact condition ------------------------------------------------------------------

  // For any writing calls of an id: however they, the store, prunes and readers are timed,
  // no read that starts after a put began is told of an older record, exactly when the
  // calls are harmless.
  lemma FreshExactlyWhenHarmless(calls: seq<Call>)
    ensures Harmless(calls) <==> forall events :: Calls(events) == calls ==> AllFresh(events)
  {
    hide Calls, TellsNoOlderRecord, PutThenRead;
    if Harmless(calls) {
      forall events | Calls(events) == calls ensures AllFresh(events) {
        forall k, i, j | PutThenRead(events, k, i, j) ensures TellsNoOlderRecord(events, k, i, j) {
          HarmlessReadIsFresh(events, k, i, j);
        }
      }
    } else {
      var i, m, k :| 0 <= i <= m < k < |calls| && calls[i].put && calls[k].put && calls[i].ref == calls[k].ref &&
        !Deleted(calls[m].record) && calls[m].record != calls[k].record;
      var events, put, read := SharedObjectGoesStale(calls, i, m, k);
      assert !AllFresh(events);
    }
  }
}
