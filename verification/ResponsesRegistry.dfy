// The responses registry: a pending overlay over a durable keyed store
// (createResponsesRegistry in apps/gateway/src/responses-registry.ts), without a legacy
// blob and with a store that applies the writes it was given in the order it was given them.
module ResponsesRegistry {
  import opened JsonValues

  datatype Identity = Identity(accountId: string, keyId: string)

  datatype Record = Record(owner: Identity, expiresAt: int, status: string, payload: string)

  const PRUNE_INTERVAL_MS: int := 5 * 60_000

  predicate VisibleTo(record: Record, identity: Identity, now: int) {
    record.owner == identity && record.expiresAt > now && record.status != "deleted"
  }

  // Who may be shown a record: the account with the very key that made it, while it is
  // alive and not deleted.
  predicate Entitled(record: Record, identity: Identity, now: int) {
    && record.owner.accountId == identity.accountId && record.owner.keyId == identity.keyId
    && record.expiresAt > now
    && record.status != "deleted"
  }

  // A call of put or putIfAbsent for one response id; `number` is its place among them,
  // `ref` the record object the caller passed.
  datatype Version = Version(number: nat, record: Record, ref: nat)

  datatype Write = Upsert(version: Version) | InsertIfAbsent(version: Version)

  // A read that went to the store: what it asks for, and the newest put begun before it.
  datatype Read = Read(identity: Identity, now: int, floor: Option<nat>)

  // All there is about one response id. `queue` holds the writes the store has accepted
  // and not yet applied, `unfinished` the puts that have not returned.
  datatype Slot = Slot(
    pending: Option<Version>,
    queue: seq<Write>,
    row: Option<Version>,
    unfinished: map<nat, Version>,
    begun: nat,
    newestPut: Option<nat>,
    openReads: map<nat, Read>)

  const EMPTY := Slot(None, [], None, map[], 0, None, map[])

  datatype Event =
    | BeginPut(record: Record, ref: nat)
    | FinishPut(number: nat)                                  // its write is applied, pruning is over
    | BeginInsert(record: Record, ref: nat)
    | Apply                                                   // the store applies its oldest write
    | DropRow                                                 // a prune removes the row
    | BeginGet(reader: nat, identity: Identity, now: int)
    | ServeGet(reader: nat)                                   // the store answers an issued read

  function VersionOf(w: Write): Version {
    w.version
  }

  function BegunPut(s: Slot, record: Record, ref: nat): Slot {
    var v := Version(s.begun, record, ref);
    s.(pending := Some(v), queue := s.queue + [Upsert(v)], unfinished := s.unfinished[v.number := v],
       begun := s.begun + 1, newestPut := Some(v.number))
  }

  predicate Waiting(queue: seq<Write>, number: nat) {
    exists i :: 0 <= i < |queue| && VersionOf(queue[i]).number == number
  }

  // The finally clause removes the overlay only if it still holds this put's own object.
  function FinishedPut(s: Slot, number: nat): Slot {
    if number !in s.unfinished || Waiting(s.queue, number) then s
    else
      s.(unfinished := s.unfinished - {number},
         pending := if s.pending.Some? && s.pending.value.ref == s.unfinished[number].ref then None else s.pending)
  }

  function Applied(s: Slot): Slot {
    if s.queue == [] then s
    else
      var t := s.(queue := s.queue[1..]);
      match s.queue[0]
      case Upsert(v) => t.(row := Some(v))
      case InsertIfAbsent(v) => if s.row.None? then t.(row := Some(v)) else t
  }

  // What a read that starts now is told at once; None when it has to ask the store.
  function OverlayAnswer(s: Slot, identity: Identity, now: int): Option<Option<Version>> {
    if s.pending.None? then None
    else if VisibleTo(s.pending.value.record, identity, now) then Some(s.pending)
    else Some(None)
  }

  function StoreAnswer(s: Slot, read: Read): Option<Version> {
    if s.row.Some? && VisibleTo(s.row.value.record, read.identity, read.now) then s.row else None
  }

  function Step(s: Slot, e: Event): Slot {
    match e
    case BeginPut(record, ref) => BegunPut(s, record, ref)
    case FinishPut(number) => FinishedPut(s, number)
    case BeginInsert(record, ref) =>
      s.(queue := s.queue + [InsertIfAbsent(Version(s.begun, record, ref))], begun := s.begun + 1)
    case Apply => Applied(s)
    case DropRow => s.(row := None)
    case BeginGet(reader, identity, now) =>
      if s.pending.Some? then s else s.(openReads := s.openReads[reader := Read(identity, now, s.newestPut)])
    case ServeGet(reader) => s.(openReads := s.openReads - {reader})
  }

  function Run(events: seq<Event>): Slot {
    if events == [] then EMPTY
    else Step(Run(events[..|events| - 1]), events[|events| - 1])
  }

  // ---- Pruning -------------------------------------------------------------------

  predicate PruneIsDue(lastPrunedAt: int, now: int) {
    now - lastPrunedAt >= PRUNE_INTERVAL_MS
  }

  // When the last prune was issued, after calls that read the clock as `readings`.
  function LastPruned(start: int, readings: seq<int>): int {
    if readings == [] then start
    else
      var before, now := LastPruned(start, readings[..|readings| - 1]), readings[|readings| - 1];
      if PruneIsDue(before, now) then now else before
  }

  // The clock readings at which those calls issued a prune.
  function Prunes(start: int, readings: seq<int>): seq<int> {
    if readings == [] then []
    else
      var before, now := readings[..|readings| - 1], readings[|readings| - 1];
      Prunes(start, before) + if PruneIsDue(LastPruned(start, before), now) then [now] else []
  }

  ghost predicate Apart(start: int, prunes: seq<int>) {
    && (prunes != [] ==> prunes[0] - start >= PRUNE_INTERVAL_MS)
    && forall i :: 0 < i < |prunes| ==> prunes[i] - prunes[i - 1] >= PRUNE_INTERVAL_MS
  }

  lemma OneMorePrune(start: int, prunes: seq<int>, now: int)
    requires Apart(start, prunes)
    requires now - (if prunes == [] then start else prunes[|prunes| - 1]) >= PRUNE_INTERVAL_MS
    ensures Apart(start, prunes + [now])
  {
  }

  // Whatever the clock does, also backwards: the prunes of a registry are an interval
  // apart, and the first one comes an interval after the start; and no call that reads a
  // time an interval after the last prune goes without one.
  lemma {:induction false} PrunesAreApart(start: int, readings: seq<int>)
    ensures Apart(start, Prunes(start, readings))
    ensures var prunes := Prunes(start, readings);
            LastPruned(start, readings) == if prunes == [] then start else prunes[|prunes| - 1]
    ensures forall i :: 0 <= i < |readings| ==> !PruneIsDue(LastPruned(start, readings), readings[i])
  {
    hide Apart;
    if readings == [] {
      NothingPruned(start);
    } else {
      var init, now := readings[..|readings| - 1], readings[|readings| - 1];
      PrunesAreApart(start, init);
      assert forall i :: 0 <= i < |init| ==> readings[i] == init[i];
      if PruneIsDue(LastPruned(start, init), now) {
        OneMorePrune(start, Prunes(start, init), now);
      } else {
        assert Prunes(start, init) + [] == Prunes(start, init);
      }
    }
  }

  lemma NothingPruned(start: int)
    ensures Apart(start, [])
  {
  }

  // ---- The class -----------------------------------------------------------------

  class Registry {
    var pending: map<string, Version>
    var lastPrunedAt: int
    // The calls in progress and the store behind the port, per response id.
    var others: map<string, Slot>

    ghost function SlotOf(id: string): Slot
      reads this
    {
      var rest := if id in others then others[id] else EMPTY;
      rest.(pending := if id in pending then Some(pending[id]) else None)
    }

    constructor (now: int)
      ensures forall id :: SlotOf(id) == EMPTY
    {
      pending, others, lastPrunedAt := map[], map[], now;
    }

    function Rest(id: string): Slot
      reads this
    {
      if id in others then others[id] else EMPTY
    }

    // The part of put before its first await.
    method Put(id: string, record: Record, ref: nat)
      modifies this`pending, this`others
      ensures SlotOf(id) == BegunPut(old(SlotOf(id)), record, ref)
      ensures forall other :: other != id ==> SlotOf(other) == old(SlotOf(other))
    {
      var rest := Rest(id);
      var v := Version(rest.begun, record, ref);
      pending := pending[id := v];
      others := others[id := rest.(queue := rest.queue + [Upsert(v)], unfinished := rest.unfinished[v.number := v],
                                  begun := rest.begun + 1, newestPut := Some(v.number))];
    }

    // Its finally clause.
    method FinishPut(id: string, number: nat)
      modifies this`pending, this`others
      ensures SlotOf(id) == FinishedPut(old(SlotOf(id)), number)
      ensures forall other :: other != id ==> SlotOf(other) == old(SlotOf(other))
    {
      var rest := Rest(id);
      if number !in rest.unfinished || Waiting(rest.queue, number) { return; }
      if id in pending && pending[id].ref == rest.unfinished[number].ref {
        pending := pending - {id};
      }
      others := others[id := rest.(unfinished := rest.unfinished - {number})];
    }

    // Whether a prune is issued.
    method PruneIfDue(now: int) returns (due: bool)
      modifies this`lastPrunedAt
      ensures due <==> PruneIsDue(old(lastPrunedAt), now)
      ensures lastPrunedAt == LastPruned(old(lastPrunedAt), [now])
    {
      assert [now][..0] == [];
      if now - lastPrunedAt < PRUNE_INTERVAL_MS { return false; }
      lastPrunedAt := now;
      return true;
    }

    // The part of get before its first await: Some(answer) from the overlay, or None
    // after a read has been issued to the store.
    method Get(id: string, reader: nat, identity: Identity, now: int) returns (answer: Option<Option<Version>>)
      modifies this`others
      ensures answer == OverlayAnswer(old(SlotOf(id)), identity, now)
      ensures answer.Some? <==> id in old(pending)
      ensures answer.Some? && answer.value.Some? ==>
                answer.value.value == old(pending)[id] && Entitled(old(pending)[id].record, identity, now)
      ensures answer.Some? && answer.value.None? ==> !Entitled(old(pending)[id].record, identity, now)
      ensures SlotOf(id) == Step(old(SlotOf(id)), BeginGet(reader, identity, now))
      ensures forall other :: other != id ==> SlotOf(other) == old(SlotOf(other))
    {
      if id in pending {
        var record := pending[id].record;
        if record.owner != identity || record.expiresAt <= now || record.status == "deleted" {
          return Some(None);
        }
        return Some(Some(pending[id]));
      }
      var rest := Rest(id);
      others := others[id := rest.(openReads := rest.openReads[reader := Read(identity, now, rest.newestPut)])];
      return None;
    }
  }

  // ---- What every run keeps ------------------------------------------------------

  ghost predicate AtLeast(v: Option<Version>, floor: Option<nat>) {
    v.Some? && floor.Some? ==> v.value.number >= floor.value
  }

  // Every queued write was issued after the put `floor`.
  ghost predicate AllAfter(queue: seq<Write>, floor: Option<nat>) {
    floor.Some? ==> forall i :: 0 <= i < |queue| ==> VersionOf(queue[i]).number > floor.value
  }

  // Nothing older than `floor` can be found in the store any more.
  ghost predicate Reached(queue: seq<Write>, row: Option<Version>, floor: Option<nat>) {
    AtLeast(row, floor) && AllAfter(queue, floor)
  }

  ghost predicate QueueInv(queue: seq<Write>, row: Option<Version>, begun: nat) {
    && (forall i, j :: 0 <= i < j < |queue| ==> VersionOf(queue[i]).number < VersionOf(queue[j]).number)
    && (forall i :: 0 <= i < |queue| ==> VersionOf(queue[i]).number < begun)
    && (row.Some? ==> row.value.number < begun && AllAfter(queue, Some(row.value.number)))
  }

  ghost predicate PutInv(queue: seq<Write>, row: Option<Version>, unfinished: map<nat, Version>, begun: nat) {
    && (forall n :: n in unfinished ==> unfinished[n].number == n && n < begun)
    && (forall n :: n in unfinished ==> Waiting(queue, n) || Reached(queue, row, Some(n)))
    && (forall i :: 0 <= i < |queue| ==> (queue[i].Upsert? <==> VersionOf(queue[i]).number in unfinished))
  }

  ghost predicate OverlayInv(s: Slot) {
    && (s.newestPut.Some? ==> s.newestPut.value < s.begun)
    && (s.pending.Some? ==>
          s.newestPut == Some(s.pending.value.number) && s.pending.value.number in s.unfinished &&
          s.unfinished[s.pending.value.number] == s.pending.value)
    && (s.pending.None? ==> Reached(s.queue, s.row, s.newestPut))
  }

  ghost predicate ReadInv(queue: seq<Write>, row: Option<Version>, openReads: map<nat, Read>, begun: nat) {
    forall r :: r in openReads ==>
      Reached(queue, row, openReads[r].floor) && (openReads[r].floor.Some? ==> openReads[r].floor.value < begun)
  }

  ghost predicate Inv(s: Slot) {
    && QueueInv(s.queue, s.row, s.begun)
    && PutInv(s.queue, s.row, s.unfinished, s.begun)
    && OverlayInv(s)
    && ReadInv(s.queue, s.row, s.openReads, s.begun)
  }

  // Finishing this put would take away the overlay of a newer put that the store has not
  // applied yet: both were given the same record object.
  predicate LosesOverlay(s: Slot, number: nat) {
    && number in s.unfinished && !Waiting(s.queue, number)
    && s.pending.Some? && s.pending.value.number != number
    && s.pending.value.ref == s.unfinished[number].ref
    && Waiting(s.queue, s.pending.value.number)
  }

  predicate Sound(s: Slot, e: Event) {
    e.FinishPut? ==> !LosesOverlay(s, e.number)
  }

  predicate SoundRun(events: seq<Event>) {
    forall k :: 0 <= k < |events| ==> Sound(Run(events[..k]), events[k])
  }

  // Issuing one more write keeps what the store has reached.
  lemma IssuingKeepsQueue(queue: seq<Write>, row: Option<Version>, begun: nat, w: Write)
    requires QueueInv(queue, row, begun) && VersionOf(w).number == begun
    ensures QueueInv(queue + [w], row, begun + 1)
  {
  }

  lemma IssuingKeepsReached(queue: seq<Write>, row: Option<Version>, floor: Option<nat>, w: Write)
    requires Reached(queue, row, floor) && (floor.Some? ==> floor.value < VersionOf(w).number)
    ensures Reached(queue + [w], row, floor)
  {
  }

  lemma IssuingKeepsWaiting(queue: seq<Write>, n: nat, w: Write)
    ensures Waiting(queue + [w], n) <==> Waiting(queue, n) || VersionOf(w).number == n
  {
    if Waiting(queue, n) {
      var i :| 0 <= i < |queue| && VersionOf(queue[i]).number == n;
      assert VersionOf((queue + [w])[i]).number == n;
    }
    assert VersionOf((queue + [w])[|queue|]) == VersionOf(w);
  }

  lemma IssuingKeepsPuts(queue: seq<Write>, row: Option<Version>, unfinished: map<nat, Version>, begun: nat,
                         v: Version, put: bool)
    requires PutInv(queue, row, unfinished, begun) && QueueInv(queue, row, begun) && v.number == begun
    ensures PutInv(queue + [if put then Upsert(v) else InsertIfAbsent(v)], row,
                   if put then unfinished[begun := v] else unfinished, begun + 1)
  {
    hide Reached, Waiting;
    var w := if put then Upsert(v) else InsertIfAbsent(v);
    IssuingKeepsWaiting(queue, begun, w);
    forall n | n in unfinished ensures Waiting(queue + [w], n) || Reached(queue + [w], row, Some(n)) {
      IssuingKeepsWaiting(queue, n, w);
      if Reached(queue, row, Some(n)) { IssuingKeepsReached(queue, row, Some(n), w); }
    }
  }

  lemma IssuingKeepsReads(queue: seq<Write>, row: Option<Version>, openReads: map<nat, Read>, begun: nat, w: Write)
    requires ReadInv(queue, row, openReads, begun) && VersionOf(w).number == begun
    ensures ReadInv(queue + [w], row, openReads, begun + 1)
  {
    hide Reached;
    forall r | r in openReads ensures Reached(queue + [w], row, openReads[r].floor) {
      IssuingKeepsReached(queue, row, openReads[r].floor, w);
    }
  }

  lemma BegunPutKeepsInv(s: Slot, record: Record, ref: nat)
    requires Inv(s)
    ensures Inv(BegunPut(s, record, ref))
  {
    hide QueueInv, PutInv, ReadInv, Reached;
    var v := Version(s.begun, record, ref);
    IssuingKeepsQueue(s.queue, s.row, s.begun, Upsert(v));
    IssuingKeepsPuts(s.queue, s.row, s.unfinished, s.begun, v, true);
    IssuingKeepsReads(s.queue, s.row, s.openReads, s.begun, Upsert(v));
  }

  lemma BegunInsertKeepsInv(s: Slot, record: Record, ref: nat)
    requires Inv(s)
    ensures Inv(Step(s, BeginInsert(record, ref)))
  {
    hide QueueInv, PutInv, ReadInv, Reached;
    var v := Version(s.begun, record, ref);
    IssuingKeepsQueue(s.queue, s.row, s.begun, InsertIfAbsent(v));
    IssuingKeepsPuts(s.queue, s.row, s.unfinished, s.begun, v, false);
    IssuingKeepsReads(s.queue, s.row, s.openReads, s.begun, InsertIfAbsent(v));
    if s.pending.None? { IssuingKeepsReached(s.queue, s.row, s.newestPut, InsertIfAbsent(v)); }
  }

  // The store keeps what it has reached, whatever it applies next.
  lemma ApplyingKeepsReached(s: Slot, floor: Option<nat>)
    requires QueueInv(s.queue, s.row, s.begun) && Reached(s.queue, s.row, floor)
    ensures Reached(Applied(s).queue, Applied(s).row, floor)
  {
  }

  lemma ApplyingKeepsQueue(s: Slot)
    requires QueueInv(s.queue, s.row, s.begun)
    ensures QueueInv(Applied(s).queue, Applied(s).row, s.begun)
  {
    if s.queue != [] { assert VersionOf(s.queue[0]).number < s.begun; }
  }

  lemma ApplyingKeepsPuts(s: Slot)
    requires QueueInv(s.queue, s.row, s.begun) && PutInv(s.queue, s.row, s.unfinished, s.begun)
    ensures PutInv(Applied(s).queue, Applied(s).row, s.unfinished, s.begun)
  {
    if s.queue != [] {
      var t := Applied(s);
      forall n | n in t.unfinished ensures Waiting(t.queue, n) || Reached(t.queue, t.row, Some(n)) {
        if Waiting(s.queue, n) {
          var i :| 0 <= i < |s.queue| && VersionOf(s.queue[i]).number == n;
          if i > 0 { assert VersionOf(t.queue[i - 1]).number == n; } else { assert s.queue[0].Upsert?; }
        } else {
          ApplyingKeepsReached(s, Some(n));
        }
      }
    }
  }

  lemma AppliedKeepsInv(s: Slot)
    requires Inv(s)
    ensures Inv(Applied(s))
  {
    hide QueueInv, PutInv, Reached;
    ApplyingKeepsQueue(s);
    ApplyingKeepsPuts(s);
    var t := Applied(s);
    forall r | r in t.openReads ensures Reached(t.queue, t.row, t.openReads[r].floor) {
      ApplyingKeepsReached(s, s.openReads[r].floor);
    }
    if s.pending.None? { ApplyingKeepsReached(s, s.newestPut); }
  }

  lemma EndingKeepsPuts(queue: seq<Write>, row: Option<Version>, unfinished: map<nat, Version>, begun: nat, number: nat)
    requires PutInv(queue, row, unfinished, begun) && !Waiting(queue, number)
    ensures PutInv(queue, row, unfinished - {number}, begun)
  {
  }

  // Finishing a put is harmless exactly when it does not lose the overlay of a newer one.
  lemma FinishedPutKeepsInvIff(s: Slot, number: nat)
    requires Inv(s)
    ensures Inv(FinishedPut(s, number)) <==> !LosesOverlay(s, number)
  {
    var t := FinishedPut(s, number);
    if number in s.unfinished && !Waiting(s.queue, number) {
      assert Reached(s.queue, s.row, Some(number));
      if LosesOverlay(s, number) {
        var i :| 0 <= i < |s.queue| && VersionOf(s.queue[i]).number == s.pending.value.number;
        assert !AllAfter(t.queue, t.newestPut);
      } else {
        assert PutInv(t.queue, t.row, t.unfinished, t.begun);
        assert OverlayInv(t);
      }
    }
  }

  lemma StepKeepsInv(s: Slot, e: Event)
    requires Inv(s) && Sound(s, e)
    ensures Inv(Step(s, e))
  {
    hide QueueInv, PutInv;
    match e
    case BeginPut(record, ref) => BegunPutKeepsInv(s, record, ref);
    case FinishPut(number) => FinishedPutKeepsInvIff(s, number);
    case BeginInsert(record, ref) => BegunInsertKeepsInv(s, record, ref);
    case Apply => AppliedKeepsInv(s);
    case DropRow => DroppedRowKeepsInv(s);
    case BeginGet(_, _, _) => {}
    case ServeGet(_) => {}
  }

  lemma DroppedRowKeepsInv(s: Slot)
    requires Inv(s)
    ensures Inv(s.(row := None))
  {
  }

  lemma RunNext(events: seq<Event>, k: nat)
    requires k < |events|
    ensures Run(events[..k + 1]) == Step(Run(events[..k]), events[k])
  {
    assert events[..k + 1][..k] == events[..k];
  }

  lemma {:induction false} RunKeepsInv(events: seq<Event>, k: nat)
    requires SoundRun(events) && k <= |events|
    ensures Inv(Run(events[..k]))
  {
    if k > 0 {
      RunKeepsInv(events, k - 1);
      RunNext(events, k - 1);
      StepKeepsInv(Run(events[..k - 1]), events[k - 1]);
    } else {
      assert events[..0] == [];
    }
  }

  // ---- Reads ---------------------------------------------------------------------

  // How many writing calls a run has begun: the number the next one gets.
  function CallsIn(events: seq<Event>): nat {
    if events == [] then 0
    else CallsIn(events[..|events| - 1]) +
         (if events[|events| - 1].BeginPut? || events[|events| - 1].BeginInsert? then 1 else 0)
  }

  lemma {:induction false} CallsAreNumbered(events: seq<Event>)
    ensures Run(events).begun == CallsIn(events)
  {
    if events != [] { CallsAreNumbered(events[..|events| - 1]); }
  }

  // Once a put has begun, the newest put is that one or a later one, in every run.
  lemma {:induction false} NewestPutOnlyGrows(events: seq<Event>, k: nat, i: nat)
    requires k < i <= |events| && events[k].BeginPut?
    ensures Run(events[..i]).newestPut.Some?
    ensures CallsIn(events[..k]) <= Run(events[..i]).newestPut.value < Run(events[..i]).begun
  {
    hide Run, Step, CallsIn;
    RunNext(events, i - 1);
    CallsAreNumbered(events[..k]);
    if i > k + 1 {
      NewestPutOnlyGrows(events, k, i - 1);
      StepKeepsNewest(Run(events[..i - 1]), events[i - 1]);
    } else {
      PutIsNewest(Run(events[..k]), events[k]);
    }
  }

  lemma PutIsNewest(s: Slot, e: Event)
    ensures e.BeginPut? ==> Step(s, e).newestPut == Some(s.begun) && Step(s, e).begun == s.begun + 1
  {
  }

  lemma StepKeepsNewest(s: Slot, e: Event)
    requires s.newestPut.Some? && s.newestPut.value < s.begun
    ensures Step(s, e).newestPut.Some? && s.newestPut.value <= Step(s, e).newestPut.value < Step(s, e).begun
  {
    hide Waiting;
  }

  // A read keeps its terms until it is served or its number is used again.
  lemma {:induction false} OpenReadStays(events: seq<Event>, i: nat, j: nat)
    requires i < j <= |events| && events[i].BeginGet? && Run(events[..i]).pending.None?
    requires forall m :: i < m < j ==> !Reuses(events[m], events[i].reader)
    ensures events[i].reader in Run(events[..j]).openReads
    ensures Run(events[..j]).openReads[events[i].reader] ==
            Read(events[i].identity, events[i].now, Run(events[..i]).newestPut)
  {
    hide Run, Step;
    RunNext(events, j - 1);
    if j > i + 1 {
      OpenReadStays(events, i, j - 1);
      StepKeepsRead(Run(events[..j - 1]), events[j - 1], events[i].reader);
    } else {
      BeginGetAsks(Run(events[..i]), events[i]);
    }
  }

  lemma BeginGetAsks(s: Slot, e: Event)
    requires e.BeginGet? && s.pending.None?
    ensures e.reader in Step(s, e).openReads
    ensures Step(s, e).openReads[e.reader] == Read(e.identity, e.now, s.newestPut)
  {
  }

  lemma StepKeepsRead(s: Slot, e: Event, reader: nat)
    requires reader in s.openReads && !Reuses(e, reader)
    ensures reader in Step(s, e).openReads && Step(s, e).openReads[reader] == s.openReads[reader]
  {
  }

  predicate Reuses(e: Event, reader: nat) {
    (e.BeginGet? || e.ServeGet?) && e.reader == reader
  }

  // A put begun at k and a read begun at i, which the store, if asked, answers at j.
  predicate PutThenRead(events: seq<Event>, k: nat, i: nat, j: nat) {
    && k < i < j <= |events|
    && events[k].BeginPut? && events[i].BeginGet?
    && forall m :: i < m < j ==> !Reuses(events[m], events[i].reader)
  }

  // What the read is told: at once from the overlay, or by the store.
  function ToldAt(events: seq<Event>, i: nat, j: nat): Option<Version>
    requires i < j <= |events| && events[i].BeginGet?
  {
    var e, s := events[i], Run(events[..i]);
    if s.pending.Some? then OverlayAnswer(s, e.identity, e.now).GetOr(None)
    else StoreAnswer(Run(events[..j]), Read(e.identity, e.now, s.newestPut))
  }

  // It is not told of a call before the put, and what it is told of belongs to the caller,
  // is alive and is not deleted.
  predicate Fresh(events: seq<Event>, k: nat, i: nat, j: nat)
    requires PutThenRead(events, k, i, j)
  {
    var told := ToldAt(events, i, j);
    told.Some? ==>
      told.value.number >= CallsIn(events[..k]) && VisibleTo(told.value.record, events[i].identity, events[i].now)
  }

  lemma SoundReadIsFresh(events: seq<Event>, k: nat, i: nat, j: nat)
    requires SoundRun(events) && PutThenRead(events, k, i, j)
    ensures Fresh(events, k, i, j)
  {
    hide Run, QueueInv, PutInv;
    NewestPutOnlyGrows(events, k, i);
    RunKeepsInv(events, i);
    RunKeepsInv(events, j);
    if Run(events[..i]).pending.None? { OpenReadStays(events, i, j); }
  }

  // ---- Who is told what ---------------------------------------------------------------

  // In any run, what a read is told of is the reader's own: same account, same key, not
  // expired, not deleted.
  lemma ToldIsEntitled(events: seq<Event>, i: nat, j: nat)
    requires i < j <= |events| && events[i].BeginGet?
    ensures var told := ToldAt(events, i, j);
            told.Some? ==> Entitled(told.value.record, events[i].identity, events[i].now)
  {
    hide Run;
  }

  // And a reader so entitled is not turned away: neither by the overlay of a put, nor by
  // the store when there is none.
  lemma EntitledIsTold(events: seq<Event>, i: nat, j: nat)
    requires i < j <= |events| && events[i].BeginGet?
    ensures var s, t, e := Run(events[..i]), Run(events[..j]), events[i];
            && (s.pending.Some? && Entitled(s.pending.value.record, e.identity, e.now) ==>
                  ToldAt(events, i, j) == s.pending)
            && (s.pending.None? && t.row.Some? && Entitled(t.row.value.record, e.identity, e.now) ==>
                  ToldAt(events, i, j) == t.row)
  {
    hide Run;
  }

  // While a put is the last one begun and no put has ended since, a read is told of its
  // record if the reader is entitled to it, and of nothing otherwise.
  lemma {:induction false} PutInFlightIsSeen(events: seq<Event>, k: nat, i: nat)
    requires k < i <= |events| && events[k].BeginPut?
    requires forall m :: k < m < i ==> !events[m].BeginPut? && !events[m].FinishPut?
    ensures var s := Run(events[..i]); s.pending.Some? && s.pending.value.record == events[k].record
    ensures forall j :: i < j <= |events| && events[i].BeginGet? ==>
              var told, e := ToldAt(events, i, j), events[i];
              && (told.Some? <==> Entitled(events[k].record, e.identity, e.now))
              && (told.Some? ==> told.value.record == events[k].record)
  {
    hide Run;
    RunNext(events, i - 1);
    if i > k + 1 { PutInFlightIsSeen(events, k, i - 1); }
  }

  // The k-th event is the end of put n, whose write is through.
  ghost predicate Finishes(events: seq<Event>, k: nat, n: nat) {
    k < |events| && events[k] == FinishPut(n) && n < Run(events[..k]).begun && !Waiting(Run(events[..k]).queue, n)
  }

  ghost predicate OverlayOfUnfinished(s: Slot) {
    && (s.pending.Some? ==>
          s.pending.value.number in s.unfinished && s.unfinished[s.pending.value.number] == s.pending.value)
    && forall n :: n in s.unfinished ==> n < s.begun
  }

  lemma OverlayStep(s: Slot, e: Event, n: nat)
    requires OverlayOfUnfinished(s)
    ensures OverlayOfUnfinished(Step(s, e))
    ensures n < s.begun && n !in s.unfinished ==> n < Step(s, e).begun && n !in Step(s, e).unfinished
    ensures e == FinishPut(n) && n < s.begun && !Waiting(s.queue, n) ==>
              n < Step(s, e).begun && n !in Step(s, e).unfinished
  {
    hide Waiting;
  }

  // In any run, overlapping puts of one object included, the overlay is that of a put that
  // has not returned: once a put has returned nobody is told from its overlay.
  lemma {:induction false} OverlayIsInFlight(events: seq<Event>)
    ensures OverlayOfUnfinished(Run(events))
    ensures forall k: nat, n: nat :: Finishes(events, k, n) ==>
              n < Run(events).begun && n !in Run(events).unfinished &&
              (Run(events).pending.Some? ==> Run(events).pending.value.number != n)
  {
    hide Step, Waiting;
    if events == [] {
    } else {
      var init, last := events[..|events| - 1], |events| - 1;
      OverlayIsInFlight(init);
      forall k: nat, n: nat | Finishes(events, k, n)
        ensures n < Run(events).begun && n !in Run(events).unfinished
      {
        assert k < last ==> events[..k] == init[..k] && Finishes(init, k, n);
        OverlayStep(Run(init), events[last], n);
      }
      OverlayStep(Run(init), events[last], 0);
    }
  }

  // ---- Which calls are safe --------------------------------------------------------

  // Every put of this response id was given a record object of its own.
  predicate DistinctObjects(events: seq<Event>) {
    forall i, j :: 0 <= i < j < |events| && events[i].BeginPut? && events[j].BeginPut? ==>
        events[i].ref != events[j].ref
  }

  // The version was made by the put begun at `at`.
  predicate MadeAt(events: seq<Event>, at: nat, v: Version) {
    at < |events| && events[at].BeginPut? && events[at].ref == v.ref && CallsIn(events[..at]) == v.number
  }

  ghost predicate Made(events: seq<Event>, k: nat, v: Version) {
    exists at: nat :: at < k && MadeAt(events, at, v)
  }

  ghost predicate AllMade(events: seq<Event>, k: nat, pending: Option<Version>, unfinished: map<nat, Version>) {
    && (forall n :: n in unfinished ==> unfinished[n].number == n && Made(events, k, unfinished[n]))
    && (pending.Some? ==> Made(events, k, pending.value))
  }

  lemma {:induction false} VersionsAreMade(events: seq<Event>, k: nat)
    requires k <= |events|
    ensures AllMade(events, k, Run(events[..k]).pending, Run(events[..k]).unfinished)
  {
    hide Step, AllMade;
    if k == 0 {
      assert events[..0] == [];
      NothingMade(events);
    } else {
      VersionsAreMade(events, k - 1);
      RunNext(events, k - 1);
      CallsAreNumbered(events[..k - 1]);
      StepKeepsMade(events, k - 1, Run(events[..k - 1]));
    }
  }

  lemma NothingMade(events: seq<Event>)
    ensures AllMade(events, 0, EMPTY.pending, EMPTY.unfinished)
  {
  }

  lemma StepKeepsMade(events: seq<Event>, k: nat, s: Slot)
    requires k < |events| && s.begun == CallsIn(events[..k]) && AllMade(events, k, s.pending, s.unfinished)
    ensures AllMade(events, k + 1, Step(s, events[k]).pending, Step(s, events[k]).unfinished)
  {
    hide CallsIn;
    var t := Step(s, events[k]);
    if events[k].BeginPut? {
      assert MadeAt(events, k, t.pending.value);
    }
  }

  lemma OneObjectOneCall(events: seq<Event>, k: nat, u: Version, v: Version)
    requires DistinctObjects(events) && k <= |events| && Made(events, k, u) && Made(events, k, v)
    ensures u.ref == v.ref ==> u.number == v.number
  {
    var p: nat :| p < k && MadeAt(events, p, u);
    var q: nat :| q < k && MadeAt(events, q, v);
  }

  // Two versions with one object come from one call, so no put takes another's overlay.
  lemma DistinctIsSoundAt(events: seq<Event>, k: nat)
    requires DistinctObjects(events) && k < |events|
    ensures Sound(Run(events[..k]), events[k])
  {
    hide Run, Waiting, CallsIn, Made, DistinctObjects;
    VersionsAreMade(events, k);
    var s, e := Run(events[..k]), events[k];
    if e.FinishPut? && e.number in s.unfinished && s.pending.Some? {
      OneObjectOneCall(events, k, s.pending.value, s.unfinished[e.number]);
    }
  }

  lemma DistinctIsSound(events: seq<Event>)
    requires DistinctObjects(events)
    ensures SoundRun(events)
  {
    hide Sound, Run;
    forall k | 0 <= k < |events| ensures Sound(Run(events[..k]), events[k]) {
      DistinctIsSoundAt(events, k);
    }
  }

  // With a record object for each put, whatever else happens and however puts overlap: a
  // read that starts after a put began is never told of an older record.
  lemma ReadIsNeverStale(events: seq<Event>, k: nat, i: nat, j: nat)
    requires DistinctObjects(events) && PutThenRead(events, k, i, j)
    ensures Fresh(events, k, i, j)
  {
    hide Fresh, SoundRun;
    DistinctIsSound(events);
    SoundReadIsFresh(events, k, i, j);
  }

  // Two calls of put that pass the same record object, around a third: the first call
  // takes the overlay of the last away, and a later read is served the middle record.
  lemma SharedObjectServesOldRecord(a: Record, b: Record, identity: Identity, now: int)
    requires VisibleTo(a, identity, now) && VisibleTo(b, identity, now)
    ensures var before := Run([BeginPut(a, 1), Apply, BeginPut(b, 2), Apply, BeginPut(a, 1), FinishPut(0)]);
            before.newestPut == Some(2) && OverlayAnswer(before, identity, now).None? &&
            StoreAnswer(before, Read(identity, now, Some(2))) == Some(Version(1, b, 2))
  {
    var v0, v1, v2 := Version(0, a, 1), Version(1, b, 2), Version(2, a, 1);
    var events := [BeginPut(a, 1), Apply, BeginPut(b, 2), Apply, BeginPut(a, 1), FinishPut(0)];
    RunNext(events, 0);
    RunNext(events, 1);
    RunNext(events, 2);
    RunNext(events, 3);
    RunNext(events, 4);
    RunNext(events, 5);
    assert Run(events[..0]) == EMPTY;
    assert Run(events[..2]) == Slot(Some(v0), [], Some(v0), map[0 := v0], 1, Some(0), map[]);
    assert Run(events[..4]) == Slot(Some(v1), [], Some(v1), map[0 := v0, 1 := v1], 2, Some(1), map[]);
    assert Run(events[..5]) ==
        Slot(Some(v2), [Upsert(v2)], Some(v1), map[0 := v0, 1 := v1, 2 := v2], 3, Some(2), map[]);
    assert events[..6] == events;
  }
}
