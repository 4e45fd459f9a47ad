// The worker that persists the Codex quota snapshots of an account
// (captureCodexQuota in apps/gateway/src/server.ts).
//
// A worker runs between two awaits as one atomic step. The snapshots of an account are
// numbered in the order they arrive, its workers in the order they start.
module QuotaWorker {
  import opened JsonValues

  datatype Snapshot = Snapshot(number: nat, windows: string)

  datatype Phase =
    | Scheduled
    | Recording(snapshot: Snapshot)   // awaiting recordObservedQuotaResetPeriods
    | Upserting(snapshot: Snapshot)   // awaiting the store

  // What happened to an account: what arrived, what reached the store, what was dropped
  // because no worker could be started, and what was in hand when a step failed.
  datatype Log = Log(observed: seq<string>, persisted: seq<Snapshot>, refused: set<nat>, failed: set<nat>, started: nat)

  datatype Account = Account(pending: Option<Snapshot>, inFlight: Option<nat>, workers: map<nat, Phase>, log: Log)

  const FRESH := Account(None, None, map[], Log([], [], {}, {}, 0))

  datatype Event =
    | Capture(windows: string, admitted: bool)  // admitted: what backgroundTasks.run would say
    | Resume(worker: nat, ok: bool)             // the awaited step of a worker settles

  function Captured(a: Account, windows: string, admitted: bool): Account {
    if windows == "" then a
    else
      var snapshot := Snapshot(|a.log.observed|, windows);
      var log := a.log.(observed := a.log.observed + [windows]);
      if a.inFlight.Some? then a.(pending := Some(snapshot), log := log)
      else if admitted then
        Account(Some(snapshot), Some(log.started), a.workers[log.started := Scheduled],
                log.(started := log.started + 1))
      else a.(pending := None, log := log.(refused := log.refused + {snapshot.number}))
  }

  function Finished(a: Account, worker: nat): Account {
    a.(workers := a.workers - {worker}, inFlight := if a.inFlight == Some(worker) then None else a.inFlight)
  }

  function Failed(a: Account, worker: nat, snapshot: Snapshot): Account {
    Finished(a.(log := a.log.(failed := a.log.failed + {snapshot.number})), worker)
  }

  // The top of the loop: take the newest snapshot or stop.
  function LoopTop(a: Account, worker: nat): Account {
    if a.pending.None? then Finished(a, worker)
    else a.(pending := None, workers := a.workers[worker := Recording(a.pending.value)])
  }

  function Resumed(a: Account, worker: nat, ok: bool): Account {
    if worker !in a.workers then a
    else
      match a.workers[worker]
      case Scheduled => LoopTop(a, worker)
      case Recording(snapshot) =>
        if ok then a.(workers := a.workers[worker := Upserting(snapshot)]) else Failed(a, worker, snapshot)
      case Upserting(snapshot) =>
        if ok then LoopTop(a.(log := a.log.(persisted := a.log.persisted + [snapshot])), worker)
        else Failed(a, worker, snapshot)
  }

  function Step(a: Account, e: Event): Account {
    match e
    case Capture(windows, admitted) => Captured(a, windows, admitted)
    case Resume(worker, ok) => Resumed(a, worker, ok)
  }

  function Run(a: Account, events: seq<Event>): Account {
    if events == [] then a
    else Step(Run(a, events[..|events| - 1]), events[|events| - 1])
  }

  // ---- The class -----------------------------------------------------------------

  type Key = string

  function Get<T>(m: map<Key, T>, key: Key): Option<T> {
    if key in m then Some(m[key]) else None
  }

  class QuotaCapture {
    var pendingQuotaObservations: map<Key, Snapshot>
    var quotaObservationInFlight: map<Key, nat>
    var workers: map<Key, map<nat, Phase>>
    var logs: map<Key, Log>

    ghost function AccountOf(key: Key): Account
      reads this
    {
      Account(Get(pendingQuotaObservations, key), Get(quotaObservationInFlight, key),
              Get(workers, key).GetOr(map[]), Get(logs, key).GetOr(FRESH.log))
    }

    constructor ()
      ensures forall key :: AccountOf(key) == FRESH
    {
      pendingQuotaObservations, quotaObservationInFlight, workers, logs := map[], map[], map[], map[];
    }

    method CaptureCodexQuota(key: Key, windows: string, admitted: bool)
      modifies this
      ensures AccountOf(key) == Captured(old(AccountOf(key)), windows, admitted)
      ensures forall other :: other != key ==> AccountOf(other) == old(AccountOf(other))
    {
      if windows == "" { return; }
      var log := Get(logs, key).GetOr(FRESH.log);
      var running := Get(workers, key).GetOr(map[]);
      var snapshot := Snapshot(|log.observed|, windows);
      log := log.(observed := log.observed + [windows]);
      pendingQuotaObservations := pendingQuotaObservations[key := snapshot];
      if key !in quotaObservationInFlight {
        var done := log.started;
        quotaObservationInFlight := quotaObservationInFlight[key := done];
        if admitted {
          workers := workers[key := running[done := Scheduled]];
          log := log.(started := log.started + 1);
        } else {
          pendingQuotaObservations := pendingQuotaObservations - {key};
          quotaObservationInFlight := quotaObservationInFlight - {key};
          log := log.(refused := log.refused + {snapshot.number});
        }
      }
      logs := logs[key := log];
    }

    method Finish(key: Key, worker: nat)
      modifies this
      ensures AccountOf(key) == Finished(old(AccountOf(key)), worker)
      ensures forall other :: other != key ==> AccountOf(other) == old(AccountOf(other))
    {
      var running := Get(workers, key).GetOr(map[]);
      workers := workers[key := running - {worker}];
      if Get(quotaObservationInFlight, key) == Some(worker) {
        quotaObservationInFlight := quotaObservationInFlight - {key};
      }
    }

    method Fail(key: Key, worker: nat, snapshot: Snapshot)
      modifies this
      ensures AccountOf(key) == Failed(old(AccountOf(key)), worker, snapshot)
      ensures forall other :: other != key ==> AccountOf(other) == old(AccountOf(other))
    {
      var log := Get(logs, key).GetOr(FRESH.log);
      logs := logs[key := log.(failed := log.failed + {snapshot.number})];
      Finish(key, worker);
    }

    method Loop(key: Key, worker: nat)
      modifies this
      ensures AccountOf(key) == LoopTop(old(AccountOf(key)), worker)
      ensures forall other :: other != key ==> AccountOf(other) == old(AccountOf(other))
    {
      if key !in pendingQuotaObservations {
        Finish(key, worker);
        return;
      }
      var snapshot := pendingQuotaObservations[key];
      pendingQuotaObservations := pendingQuotaObservations - {key};
      workers := workers[key := Get(workers, key).GetOr(map[])[worker := Recording(snapshot)]];
    }

    method ResumeWorker(key: Key, worker: nat, ok: bool)
      modifies this
      ensures AccountOf(key) == Resumed(old(AccountOf(key)), worker, ok)
      ensures forall other :: other != key ==> AccountOf(other) == old(AccountOf(other))
    {
      var running := Get(workers, key).GetOr(map[]);
      if worker !in running { return; }
      match running[worker] {
        case Scheduled => Loop(key, worker);
        case Recording(snapshot) =>
          if ok {
            workers := workers[key := running[worker := Upserting(snapshot)]];
          } else {
            Fail(key, worker, snapshot);
          }
        case Upserting(snapshot) =>
          if ok {
            var log := Get(logs, key).GetOr(FRESH.log);
            logs := logs[key := log.(persisted := log.persisted + [snapshot])];
            Loop(key, worker);
          } else {
            Fail(key, worker, snapshot);
          }
      }
    }
  }

  // ---- What every run keeps ------------------------------------------------------

  // The snapshot a worker has in hand.
  function InHand(a: Account): Option<Snapshot> {
    if a.inFlight.Some? && a.inFlight.value in a.workers && !a.workers[a.inFlight.value].Scheduled? then
      Some(a.workers[a.inFlight.value].snapshot)
    else None
  }

  ghost predicate Observed(log: Log, snapshot: Snapshot) {
    snapshot.number < |log.observed| && log.observed[snapshot.number] == snapshot.windows
  }

  ghost predicate PersistedBelow(log: Log, bound: nat) {
    forall i :: 0 <= i < |log.persisted| ==> log.persisted[i].number < bound
  }

  ghost predicate Inv(a: Account) {
    // At most one worker, and the in-flight table knows it.
    && a.workers.Keys == (if a.inFlight.Some? then {a.inFlight.value} else {})
    && (a.inFlight.Some? ==> a.inFlight.value < a.log.started)
    && (a.inFlight.Some? && InHand(a).None? ==> a.pending.Some?)
    // Persisted snapshots arrived, and reached the store in the order they arrived.
    && (forall i :: 0 <= i < |a.log.persisted| ==> Observed(a.log, a.log.persisted[i]))
    && (forall i, j :: 0 <= i < j < |a.log.persisted| ==> a.log.persisted[i].number < a.log.persisted[j].number)
    // What waits is the newest snapshot; what is in hand lies between it and the store.
    && (a.pending.Some? ==> Observed(a.log, a.pending.value) && a.pending.value.number == |a.log.observed| - 1)
    && (a.pending.Some? ==> PersistedBelow(a.log, a.pending.value.number))
    && (InHand(a).Some? ==> Observed(a.log, InHand(a).value) && PersistedBelow(a.log, InHand(a).value.number))
    && (InHand(a).Some? && a.pending.Some? ==> InHand(a).value.number < a.pending.value.number)
    && (a.log.observed != [] ==> NewestAccountedFor(a, |a.log.observed| - 1))
    // Only a failed step leaves a snapshot without a worker.
    && (a.pending.Some? && a.inFlight.None? ==> a.log.failed != {})
  }

  ghost predicate NewestAccountedFor(a: Account, newest: nat) {
    || a.pending.Some?
    || (InHand(a).Some? && InHand(a).value.number == newest)
    || (a.log.persisted != [] && a.log.persisted[|a.log.persisted| - 1].number == newest)
    || newest in a.log.refused
    || newest in a.log.failed
  }

  lemma CaptureKeepsInv(a: Account, windows: string, admitted: bool)
    requires Inv(a)
    ensures Inv(Captured(a, windows, admitted))
  {
    var t := Captured(a, windows, admitted);
    assert forall x: Snapshot :: Observed(a.log, x) ==> Observed(t.log, x);
  }

  lemma ScheduledKeepsInv(a: Account, worker: nat)
    requires Inv(a) && worker in a.workers && a.workers[worker].Scheduled?
    ensures Inv(LoopTop(a, worker))
  {
    hide Observed, PersistedBelow;
    assert a.inFlight == Some(worker);
  }

  lemma FailedKeepsInv(a: Account, worker: nat)
    requires Inv(a) && worker in a.workers && !a.workers[worker].Scheduled?
    ensures Inv(Failed(a, worker, a.workers[worker].snapshot))
  {
    var t := Failed(a, worker, a.workers[worker].snapshot);
    assert a.inFlight == Some(worker) && t.workers.Keys == {};
    assert forall x: Snapshot :: Observed(a.log, x) ==> Observed(t.log, x);
    hide Observed;
  }

  lemma RecordedKeepsInv(a: Account, worker: nat)
    requires Inv(a) && worker in a.workers && a.workers[worker].Recording?
    ensures Inv(a.(workers := a.workers[worker := Upserting(a.workers[worker].snapshot)]))
  {
    hide Observed, PersistedBelow;
    assert a.inFlight == Some(worker);
  }

  lemma PersistedKeepsInv(a: Account, worker: nat)
    requires Inv(a) && worker in a.workers && a.workers[worker].Upserting?
    ensures Inv(LoopTop(a.(log := a.log.(persisted := a.log.persisted + [a.workers[worker].snapshot])), worker))
  {
    var t := LoopTop(a.(log := a.log.(persisted := a.log.persisted + [a.workers[worker].snapshot])), worker);
    assert a.inFlight == Some(worker);
    assert a.pending.None? ==> t.workers.Keys == {};
    assert forall x: Snapshot :: Observed(a.log, x) ==> Observed(t.log, x);
    hide Observed;
  }

  lemma StepKeepsInv(a: Account, e: Event)
    requires Inv(a)
    ensures Inv(Step(a, e))
  {
    hide Inv, LoopTop, Failed, Captured;
    match e
    case Capture(windows, admitted) => CaptureKeepsInv(a, windows, admitted);
    case Resume(worker, ok) =>
      if worker in a.workers {
        match a.workers[worker]
        case Scheduled => ScheduledKeepsInv(a, worker);
        case Recording(snapshot) =>
          if ok {
            RecordedKeepsInv(a, worker);
          } else {
            FailedKeepsInv(a, worker);
          }
        case Upserting(snapshot) =>
          if ok {
            PersistedKeepsInv(a, worker);
          } else {
            FailedKeepsInv(a, worker);
          }
      }
  }

  lemma {:induction false} RunKeepsInv(events: seq<Event>)
    ensures Inv(Run(FRESH, events))
  {
    hide Step;
    if events != [] {
      RunKeepsInv(events[..|events| - 1]);
      StepKeepsInv(Run(FRESH, events[..|events| - 1]), events[|events| - 1]);
    }
  }

  // The store sees a subsequence of what arrived, in order, and never two workers.
  lemma {:induction false} PersistsInOrder(events: seq<Event>)
    ensures var a := Run(FRESH, events);
            && |a.workers| <= 1
            && (forall i :: 0 <= i < |a.log.persisted| ==> Observed(a.log, a.log.persisted[i]))
            && (forall i, j :: 0 <= i < j < |a.log.persisted| ==> a.log.persisted[i].number < a.log.persisted[j].number)
  {
    hide Run;
    RunKeepsInv(events);
    assert |Run(FRESH, events).workers| == |Run(FRESH, events).workers.Keys|;
  }

  ghost predicate NoFailures(events: seq<Event>) {
    forall i :: 0 <= i < |events| && events[i].Resume? ==> events[i].ok
  }

  lemma {:induction false} FailuresComeFromSteps(events: seq<Event>)
    requires NoFailures(events)
    ensures Run(FRESH, events).log.failed == {}
  {
    if events != [] {
      var n := |events| - 1;
      assert NoFailures(events[..n]);
      FailuresComeFromSteps(events[..n]);
      assert events[n].Resume? ==> events[n].ok;
    }
  }

  // When no step fails, an account without a worker has nothing waiting, and its newest
  // snapshot is the last one in the store exactly when the background runner took it.
  lemma {:induction false} IdleAccountIsUpToDate(events: seq<Event>)
    requires NoFailures(events) && Run(FRESH, events).inFlight.None?
    ensures var a := Run(FRESH, events);
            && a.pending.None?
            && (a.log.observed != [] ==>
                 (a.log.persisted != [] && a.log.persisted[|a.log.persisted| - 1].number == |a.log.observed| - 1
                  <==> |a.log.observed| - 1 !in a.log.refused))
  {
    hide Run;
    RunKeepsInv(events);
    FailuresComeFromSteps(events);
    RefusedIsNotPersisted(events);
  }

  ghost predicate RefusedApart(a: Account) {
    && (forall i :: 0 <= i < |a.log.persisted| ==> a.log.persisted[i].number !in a.log.refused)
    && (a.pending.Some? ==> a.pending.value.number !in a.log.refused)
    && (InHand(a).Some? ==> InHand(a).value.number !in a.log.refused)
    && (forall n :: n in a.log.refused ==> n < |a.log.observed|)
  }

  lemma RefusedStep(a: Account, e: Event)
    requires Inv(a) && RefusedApart(a)
    ensures RefusedApart(Step(a, e))
  {
  }

  lemma {:induction false} RefusedIsNotPersisted(events: seq<Event>)
    ensures RefusedApart(Run(FRESH, events))
  {
    hide Step, Inv;
    if events != [] {
      var init := events[..|events| - 1];
      RefusedIsNotPersisted(init);
      RunKeepsInv(init);
      RefusedStep(Run(FRESH, init), events[|events| - 1]);
    }
  }

  // The background runner may refuse: then the snapshot is gone although no step failed.
  lemma RefusedSnapshotIsLost(windows: string)
    requires windows != ""
    ensures var a := Run(FRESH, [Capture(windows, false)]);
            a.inFlight.None? && a.pending.None? && a.log.observed == [windows] && a.log.persisted == [] &&
                a.log.failed == {}
  {
    assert [Capture(windows, false)][..0] == [];
  }

  // A snapshot stranded without a worker is the newest one, some step has failed, and the
  // next observation that gets a worker replaces it.
  lemma {:induction false} StrandedIsNewest(events: seq<Event>, windows: string)
    requires Run(FRESH, events).inFlight.None? && Run(FRESH, events).pending.Some? && windows != ""
    ensures var a := Run(FRESH, events);
            && a.pending.value.number == |a.log.observed| - 1
            && Observed(a.log, a.pending.value)
            && a.log.failed != {}
            && var t := Captured(a, windows, true);
               t.inFlight.Some? && t.pending == Some(Snapshot(|a.log.observed|, windows))
  {
    hide Run;
    RunKeepsInv(events);
  }

  // Four more settled steps bring a busy account to rest with its newest snapshot stored.
  function Settle(a: Account, worker: nat, steps: nat): Account
    decreases steps
  {
    if steps == 0 then a else Settle(Resumed(a, worker, true), worker, steps - 1)
  }

  lemma {:induction false} WorkerCatchesUp(a: Account)
    requires Inv(a) && a.inFlight.Some?
    ensures exists steps: nat :: steps <= 4 &&
              var t := Settle(a, a.inFlight.value, steps);
              t.inFlight.None? && t.pending.None? && t.log.observed == a.log.observed &&
              t.log.persisted != [] &&
              t.log.persisted[|t.log.persisted| - 1] == (if a.pending.Some? then a.pending.value else InHand(a).value)
  {
    var w := a.inFlight.value;
    var b := Resumed(a, w, true);
    var c := Resumed(b, w, true);
    var d := Resumed(c, w, true);
    var e := Resumed(d, w, true);
    assert Settle(a, w, 1) == b by { assert Settle(b, w, 0) == b; }
    assert Settle(a, w, 2) == c by { assert Settle(c, w, 0) == c; assert Settle(b, w, 1) == c; }
    assert Settle(a, w, 3) == d by {
      assert Settle(d, w, 0) == d;
      assert Settle(c, w, 1) == d;
      assert Settle(b, w, 2) == d;
    }
    assert Settle(a, w, 4) == e by {
      assert Settle(e, w, 0) == e;
      assert Settle(d, w, 1) == e;
      assert Settle(c, w, 2) == e;
      assert Settle(b, w, 3) == e;
    }
  }
}
