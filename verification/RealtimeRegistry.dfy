// The process-local registry of realtime calls (apps/gateway/src/realtime-call-registry.ts).
module RealtimeRegistry {
  import opened JsonValues

  const DEFAULT_MAX_ENTRIES: nat := 10_000
  const DEFAULT_TTL_MS: int := 5 * 60_000

  // `maxEntries` as the registry uses it; None stands for undefined or a non-finite number.
  function Capacity(maxEntries: Option<real>): (capacity: nat)
    ensures capacity >= 1
    ensures maxEntries.Some? && maxEntries.value >= 1.0 ==>
              capacity as real <= maxEntries.value < capacity as real + 1.0
  {
    if maxEntries.None? then DEFAULT_MAX_ENTRIES
    else if maxEntries.value < 1.0 then 1
    else maxEntries.value.Floor
  }

  type Target = string

  // The insertion-ordered map of calls, oldest first.
  datatype Entry = Entry(callId: string, keyId: string, target: Target, expiresAt: int)

  function Live(calls: seq<Entry>, now: int): seq<Entry> {
    if calls == [] then []
    else
      var e := calls[|calls| - 1];
      Live(calls[..|calls| - 1], now) + (if e.expiresAt <= now then [] else [e])
  }

  function Newest(calls: seq<Entry>, maxEntries: nat): seq<Entry> {
    if |calls| > maxEntries then calls[|calls| - maxEntries..] else calls
  }

  function Pruned(calls: seq<Entry>, now: int, maxEntries: nat): seq<Entry> {
    Newest(Live(calls, now), maxEntries)
  }

  function Without(calls: seq<Entry>, callId: string): seq<Entry> {
    if calls == [] then []
    else
      var e := calls[|calls| - 1];
      Without(calls[..|calls| - 1], callId) + (if e.callId == callId then [] else [e])
  }

  function Find(calls: seq<Entry>, callId: string): Option<Entry> {
    if calls == [] then None
    else if calls[|calls| - 1].callId == callId then Some(calls[|calls| - 1])
    else Find(calls[..|calls| - 1], callId)
  }

  datatype Event =
    | Put(now: int, callId: string, keyId: string, target: Target)
    | Take(now: int, callId: string, keyId: string)
    | Size(now: int)

  datatype Config = Config(ttlMs: int, maxEntries: nat)

  // The answer of a take: None is not_found.
  function Answer(calls: seq<Entry>, e: Event, config: Config): Option<Target>
    requires e.Take?
  {
    var call := Find(Pruned(calls, e.now, config.maxEntries), e.callId);
    if call.Some? && call.value.keyId == e.keyId then Some(call.value.target) else None
  }

  function EntryOf(put: Event, config: Config): Entry
    requires put.Put?
  {
    Entry(put.callId, put.keyId, put.target, put.now + config.ttlMs)
  }

  function Step(calls: seq<Entry>, e: Event, config: Config): seq<Entry> {
    var pruned := Pruned(calls, e.now, config.maxEntries);
    match e
    case Put(now, callId, _, _) => Pruned(Without(pruned, callId) + [EntryOf(e, config)], now, config.maxEntries)
    case Take(now, callId, keyId) => if Answer(calls, e, config).Some? then Without(pruned, callId) else pruned
    case Size(now) => pruned
  }

  function Run(events: seq<Event>, config: Config): seq<Entry> {
    if events == [] then []
    else Step(Run(events[..|events| - 1], config), events[|events| - 1], config)
  }

  // ---- The class -----------------------------------------------------------------

  class RealtimeCallRegistry {
    const ttlMs: int
    const maxEntries: nat
    var calls: seq<Entry>

    ghost function Settings(): Config {
      Config(ttlMs, maxEntries)
    }

    constructor (ttlMs: Option<int>, maxEntries: Option<real>)
      ensures calls == []
      ensures Settings() == Config(ttlMs.GetOr(DEFAULT_TTL_MS), Capacity(maxEntries))
    {
      this.ttlMs := ttlMs.GetOr(DEFAULT_TTL_MS);
      this.maxEntries := Capacity(maxEntries);
      calls := [];
    }

    method Prune(now: int)
      modifies this
      ensures calls == Pruned(old(calls), now, maxEntries)
    {
      DeleteExpired(now);
      ghost var live := calls;
      ghost var dropped := 0;
      while |calls| > maxEntries
        invariant dropped <= |live| && calls == live[dropped..]
        invariant dropped > 0 ==> |calls| >= maxEntries
      {
        calls := calls[1..];
        dropped := dropped + 1;
      }
    }

    method DeleteExpired(now: int)
      modifies this
      ensures calls == Live(old(calls), now)
    {
      var live: seq<Entry> := [];
      for i := 0 to |calls|
        invariant calls == old(calls)
        invariant live == Live(calls[..i], now)
      {
        assert calls[..i + 1][..i] == calls[..i];
        if calls[i].expiresAt > now {
          live := live + [calls[i]];
        }
      }
      assert calls[..|calls|] == calls;
      calls := live;
    }

    method Put(callId: string, keyId: string, target: Target, now: int)
      modifies this
      ensures calls == Step(old(calls), Event.Put(now, callId, keyId, target), Settings())
    {
      hide Pruned, Without;
      Prune(now);
      calls := Without(calls, callId);
      calls := calls + [Entry(callId, keyId, target, now + ttlMs)];
      Prune(now);
    }

    method Take(callId: string, keyId: string, now: int) returns (r: Option<Target>)
      modifies this
      ensures r == Answer(old(calls), Event.Take(now, callId, keyId), Settings())
      ensures calls == Step(old(calls), Event.Take(now, callId, keyId), Settings())
    {
      hide Pruned, Without, Find;
      Prune(now);
      var call := Find(calls, callId);
      if call.None? || call.value.keyId != keyId {
        return None;
      }
      calls := Without(calls, callId);
      return Some(call.value.target);
    }

    method Size(now: int) returns (n: nat)
      modifies this
      ensures calls == Step(old(calls), Event.Size(now), Settings()) && n == |calls|
    {
      Prune(now);
      n := |calls|;
    }
  }

  // ---- What every run keeps ------------------------------------------------------

  ghost predicate DistinctCalls(calls: seq<Entry>) {
    forall i, j :: 0 <= i < j < |calls| ==> calls[i].callId != calls[j].callId
  }

  ghost predicate ByExpiry(calls: seq<Entry>) {
    forall i, j :: 0 <= i < j < |calls| ==> calls[i].expiresAt <= calls[j].expiresAt
  }

  ghost predicate Clock(events: seq<Event>) {
    forall i, j :: 0 <= i < j < |events| ==> events[i].now <= events[j].now
  }

  // `small` is `large` with some entries left out.
  ghost predicate Thinner(small: seq<Entry>, large: seq<Entry>) {
    && |small| <= |large|
    && (forall i :: 0 <= i < |small| ==> small[i] in large)
    && (DistinctCalls(large) ==> DistinctCalls(small))
    && (ByExpiry(large) ==> ByExpiry(small))
  }

  lemma ThinnerNext(small: seq<Entry>, large: seq<Entry>, e: Entry)
    requires Thinner(small, large)
    ensures Thinner(small, large + [e]) && Thinner(small + [e], large + [e])
  {
    if DistinctCalls(large + [e]) {
      assert forall i :: 0 <= i < |large| ==> large[i] == (large + [e])[i];
      assert DistinctCalls(large);
      forall i | 0 <= i < |small| ensures small[i].callId != e.callId {
        var j :| 0 <= j < |large| && large[j] == small[i];
        assert (large + [e])[j].callId != (large + [e])[|large|].callId;
      }
    }
    if ByExpiry(large + [e]) {
      assert forall i :: 0 <= i < |large| ==> large[i] == (large + [e])[i];
      assert ByExpiry(large);
      forall i | 0 <= i < |small| ensures small[i].expiresAt <= e.expiresAt {
        var j :| 0 <= j < |large| && large[j] == small[i];
        assert (large + [e])[j].expiresAt <= (large + [e])[|large|].expiresAt;
      }
    }
  }

  lemma LastEntry(calls: seq<Entry>)
    requires calls != []
    ensures calls == calls[..|calls| - 1] + [calls[|calls| - 1]]
  {
  }

  lemma {:induction false} LiveIsThinner(calls: seq<Entry>, now: int)
    ensures Thinner(Live(calls, now), calls)
    ensures forall i :: 0 <= i < |Live(calls, now)| ==> Live(calls, now)[i].expiresAt > now
  {
    if calls == [] {
      assert Live(calls, now) == [];
    } else {
      hide Thinner;
      var n := |calls| - 1;
      LiveIsThinner(calls[..n], now);
      LastEntry(calls);
      ThinnerNext(Live(calls[..n], now), calls[..n], calls[n]);
      assert Live(calls[..n], now) + [] == Live(calls[..n], now);
    }
  }

  lemma {:induction false} WithoutIsThinner(calls: seq<Entry>, callId: string)
    ensures Thinner(Without(calls, callId), calls)
    ensures forall i :: 0 <= i < |Without(calls, callId)| ==> Without(calls, callId)[i].callId != callId
  {
    if calls == [] {
      assert Without(calls, callId) == [];
    } else {
      hide Thinner;
      var n := |calls| - 1;
      WithoutIsThinner(calls[..n], callId);
      LastEntry(calls);
      ThinnerNext(Without(calls[..n], callId), calls[..n], calls[n]);
      assert Without(calls[..n], callId) + [] == Without(calls[..n], callId);
    }
  }

  lemma NewestIsThinner(calls: seq<Entry>, maxEntries: nat)
    ensures Thinner(Newest(calls, maxEntries), calls) && |Newest(calls, maxEntries)| <= maxEntries
  {
  }

  lemma ThinnerStill(a: seq<Entry>, b: seq<Entry>, c: seq<Entry>)
    requires Thinner(a, b) && Thinner(b, c)
    ensures Thinner(a, c)
  {
    forall i | 0 <= i < |a| ensures a[i] in c {
      var j :| 0 <= j < |b| && b[j] == a[i];
    }
  }

  lemma PrunedIsThinner(calls: seq<Entry>, now: int, maxEntries: nat)
    ensures Thinner(Pruned(calls, now, maxEntries), calls) && |Pruned(calls, now, maxEntries)| <= maxEntries
    ensures forall i :: 0 <= i < |Pruned(calls, now, maxEntries)| ==> Pruned(calls, now, maxEntries)[i].expiresAt > now
  {
    hide Live;
    LiveIsThinner(calls, now);
    NewestIsThinner(Live(calls, now), maxEntries);
    ThinnerStill(Pruned(calls, now, maxEntries), Live(calls, now), calls);
  }

  // Entries never expire later than the last clock reading plus the time to live.
  ghost predicate Inv(calls: seq<Entry>, now: int, config: Config) {
    && DistinctCalls(calls) && ByExpiry(calls) && |calls| <= config.maxEntries
    && forall e :: e in calls ==> e.expiresAt <= now + config.ttlMs
  }

  lemma ThinnerKeepsInv(small: seq<Entry>, large: seq<Entry>, now: int, config: Config)
    requires Thinner(small, large) && Inv(large, now, config)
    ensures Inv(small, now, config)
  {
    forall e | e in small ensures e.expiresAt <= now + config.ttlMs {
      var i :| 0 <= i < |small| && small[i] == e;
    }
  }

  lemma AddedInOrder(rest: seq<Entry>, e: Event, config: Config)
    requires e.Put? && Inv(rest, e.now, config)
    requires forall i :: 0 <= i < |rest| ==> rest[i].callId != e.callId
    ensures var added := rest + [EntryOf(e, config)];
            DistinctCalls(added) && ByExpiry(added) && forall x :: x in added ==> x.expiresAt <= e.now + config.ttlMs
  {
    assert forall i :: 0 <= i < |rest| ==> rest[i] in rest;
  }

  lemma StepKeepsInv(calls: seq<Entry>, before: int, e: Event, config: Config)
    requires Inv(calls, before, config) && before <= e.now
    ensures Inv(Step(calls, e, config), e.now, config)
  {
    hide Pruned, Without, Thinner, Answer;
    var pruned := Pruned(calls, e.now, config.maxEntries);
    assert Inv(calls, e.now, config);
    PrunedIsThinner(calls, e.now, config.maxEntries);
    ThinnerKeepsInv(pruned, calls, e.now, config);
    if !e.Size? {
      var rest := Without(pruned, e.callId);
      WithoutIsThinner(pruned, e.callId);
      ThinnerKeepsInv(rest, pruned, e.now, config);
      if e.Put? {
        var added := rest + [EntryOf(e, config)];
        AddedInOrder(rest, e, config);
        AddedKeepsInv(added, e.now, config);
      }
    }
  }

  lemma AddedKeepsInv(added: seq<Entry>, now: int, config: Config)
    requires DistinctCalls(added) && ByExpiry(added) && forall x :: x in added ==> x.expiresAt <= now + config.ttlMs
    ensures Inv(Pruned(added, now, config.maxEntries), now, config)
  {
    hide Pruned;
    var pruned := Pruned(added, now, config.maxEntries);
    PrunedIsThinner(added, now, config.maxEntries);
    forall e | e in pruned ensures e.expiresAt <= now + config.ttlMs {
      var i :| 0 <= i < |pruned| && pruned[i] == e;
    }
  }

  // With a clock that does not run backwards, entries stay ordered by expiry, one per
  // call, and the cap holds after every operation.
  lemma {:induction false} RunKeepsInv(events: seq<Event>, config: Config)
    requires Clock(events)
    ensures events != [] ==> Inv(Run(events, config), events[|events| - 1].now, config)
  {
    if events != [] {
      hide Step;
      var n := |events| - 1;
      if n == 0 {
        assert Run(events[..0], config) == [];
        StepKeepsInv([], events[0].now, events[0], config);
      } else {
        RunKeepsInv(events[..n], config);
        StepKeepsInv(Run(events[..n], config), events[n - 1].now, events[n], config);
      }
    }
  }

  // ---- Who can take what ---------------------------------------------------------

  // The answer event i got in this run.
  function AnswerAt(events: seq<Event>, i: nat, config: Config): Option<Target>
    requires i < |events| && events[i].Take?
  {
    Answer(Run(events[..i], config), events[i], config)
  }

  ghost predicate TakenAt(events: seq<Event>, i: nat, callId: string, config: Config)
    requires i < |events|
  {
    events[i].Take? && events[i].callId == callId && AnswerAt(events, i, config).Some?
  }

  // Put p of `callId` is the last one, and nobody has taken it before event n.
  ghost predicate Unclaimed(events: seq<Event>, p: nat, n: nat, callId: string, config: Config)
    requires n <= |events|
  {
    && p < n && events[p].Put? && events[p].callId == callId
    && forall i: nat :: p < i < n ==>
         !(events[i].Put? && events[i].callId == callId) && !TakenAt(events, i, callId, config)
  }

  lemma {:induction false} FindIs(calls: seq<Entry>, callId: string)
    ensures Find(calls, callId).Some? ==>
            Find(calls, callId).value in calls && Find(calls, callId).value.callId == callId
    ensures Find(calls, callId).None? ==> forall i :: 0 <= i < |calls| ==> calls[i].callId != callId
  {
    if calls != [] {
      FindIs(calls[..|calls| - 1], callId);
      LastEntry(calls);
    }
  }

  lemma ThinnerHas(small: seq<Entry>, large: seq<Entry>, x: Entry)
    requires Thinner(small, large) && x in small
    ensures x in large
  {
    var i :| 0 <= i < |small| && small[i] == x;
  }

  // Where an entry comes from, one event back.
  lemma StepEntries(calls: seq<Entry>, e: Event, config: Config, x: Entry)
    requires x in Step(calls, e, config)
    ensures (e.Put? && x == EntryOf(e, config)) ||
            (x in calls && !(e.Put? && e.callId == x.callId) &&
             !(e.Take? && e.callId == x.callId && Answer(calls, e, config).Some?))
  {
    hide Pruned, Without, Thinner, Answer;
    var pruned := Pruned(calls, e.now, config.maxEntries);
    PrunedIsThinner(calls, e.now, config.maxEntries);
    if e.Size? {
      ThinnerHas(pruned, calls, x);
    } else {
      var rest := Without(pruned, e.callId);
      WithoutIsThinner(pruned, e.callId);
      ThinnerStill(rest, pruned, calls);
      if e.Put? {
        var added := rest + [EntryOf(e, config)];
        PrunedIsThinner(added, e.now, config.maxEntries);
        ThinnerHas(Pruned(added, e.now, config.maxEntries), added, x);
        if x != EntryOf(e, config) {
          assert x in rest;
          ThinnerHas(rest, calls, x);
        }
      } else if Answer(calls, e, config).Some? {
        ThinnerHas(rest, calls, x);
      } else {
        ThinnerHas(pruned, calls, x);
      }
    }
  }

  lemma {:induction false} RunStart(events: seq<Event>, config: Config)
    ensures Run(events[..0], config) == []
  {
  }

  lemma {:induction false} RunNext(events: seq<Event>, n: nat, config: Config)
    requires 0 < n <= |events|
    ensures Run(events[..n], config) == Step(Run(events[..n - 1], config), events[n - 1], config)
  {
    assert events[..n][..n - 1] == events[..n - 1];
  }

  // `x` is the binding of put p, still unclaimed before event n.
  ghost predicate BoundBy(events: seq<Event>, p: nat, n: nat, x: Entry, config: Config)
    requires n <= |events|
  {
    Unclaimed(events, p, n, x.callId, config) && EntryOf(events[p], config) == x
  }

  lemma {:induction false} EveryEntryIsUnclaimed(events: seq<Event>, n: nat, config: Config, x: Entry) returns (p: nat)
    requires n <= |events| && x in Run(events[..n], config)
    ensures BoundBy(events, p, n, x, config)
  {
    hide Step, Run, BoundBy, Answer;
    RunStart(events, config);
    var e, calls := events[n - 1], Run(events[..n - 1], config);
    RunNext(events, n, config);
    StepEntries(calls, e, config, x);
    if e.Put? && x == EntryOf(e, config) {
      BoundAtFirst(events, n - 1, config);
      p := n - 1;
    } else {
      p := EveryEntryIsUnclaimed(events, n - 1, config, x);
      StillBound(events, p, n - 1, x, config);
    }
  }

  lemma BoundAtFirst(events: seq<Event>, p: nat, config: Config)
    requires p < |events| && events[p].Put?
    ensures BoundBy(events, p, p + 1, EntryOf(events[p], config), config)
  {
  }

  lemma {:induction false} StillBound(events: seq<Event>, p: nat, n: nat, x: Entry, config: Config)
    requires n < |events| && BoundBy(events, p, n, x, config)
    requires !(events[n].Put? && events[n].callId == x.callId)
    requires !(events[n].Take? && events[n].callId == x.callId &&
            Answer(Run(events[..n], config), events[n], config).Some?)
    ensures BoundBy(events, p, n + 1, x, config)
  {
    hide Answer, Run;
  }

  // A take succeeds only with the key of the last put of its call, before that put
  // expires, and only if nobody took it since: no binding is handed out twice.
  lemma TakeIsEntitled(events: seq<Event>, i: nat, config: Config) returns (p: nat)
    requires i < |events| && events[i].Take? && AnswerAt(events, i, config).Some?
    ensures Unclaimed(events, p, i, events[i].callId, config)
    ensures events[p].keyId == events[i].keyId
    ensures AnswerAt(events, i, config) == Some(events[p].target)
    ensures events[i].now < events[p].now + config.ttlMs
  {
    hide Pruned, Find, Run, Thinner;
    var calls := Run(events[..i], config);
    var pruned := Pruned(calls, events[i].now, config.maxEntries);
    PrunedIsThinner(calls, events[i].now, config.maxEntries);
    FindIs(pruned, events[i].callId);
    var x := Find(pruned, events[i].callId).value;
    ThinnerHas(pruned, calls, x);
    p := EveryEntryIsUnclaimed(events, i, config, x);
  }

  // How many puts of other calls came after p.
  function RivalPuts(events: seq<Event>, p: nat, n: nat, callId: string): nat
    requires n <= |events|
  {
    if n <= p + 1 then 0
    else RivalPuts(events, p, n - 1, callId) +
         (if events[n - 1].Put? && events[n - 1].callId != callId then 1 else 0)
  }

  // `x` is stored and at most `rivals` newer entries could push it out.
  ghost predicate Holds(calls: seq<Entry>, x: Entry, rivals: nat) {
    exists q: nat :: q < |calls| && calls[q] == x && |calls| - 1 - q <= rivals
  }

  lemma {:induction false} LiveHolds(calls: seq<Entry>, now: int, x: Entry, rivals: nat)
    requires Holds(calls, x, rivals) && x.expiresAt > now
    ensures Holds(Live(calls, now), x, rivals)
    decreases |calls|
  {
    var q: nat :| q < |calls| && calls[q] == x && |calls| - 1 - q <= rivals;
    var n := |calls| - 1;
    var live := Live(calls, now);
    if q == n {
      assert live[|live| - 1] == x;
    } else {
      assert calls[..n][q] == x;
      LiveHolds(calls[..n], now, x, rivals - 1);
      var rest := Live(calls[..n], now);
      var r: nat :| r < |rest| && rest[r] == x && |rest| - 1 - r <= rivals - 1;
      assert live[r] == x;
    }
  }

  lemma {:induction false} WithoutHolds(calls: seq<Entry>, callId: string, x: Entry, rivals: nat)
    requires Holds(calls, x, rivals) && x.callId != callId
    ensures Holds(Without(calls, callId), x, rivals)
    decreases |calls|
  {
    var q: nat :| q < |calls| && calls[q] == x && |calls| - 1 - q <= rivals;
    var n := |calls| - 1;
    var left := Without(calls, callId);
    if q == n {
      assert left[|left| - 1] == x;
    } else {
      assert calls[..n][q] == x;
      WithoutHolds(calls[..n], callId, x, rivals - 1);
      var rest := Without(calls[..n], callId);
      var r: nat :| r < |rest| && rest[r] == x && |rest| - 1 - r <= rivals - 1;
      assert left[r] == x;
    }
  }

  lemma NewestHolds(calls: seq<Entry>, maxEntries: nat, x: Entry, rivals: nat)
    requires Holds(calls, x, rivals) && rivals < maxEntries
    ensures Holds(Newest(calls, maxEntries), x, rivals)
  {
    var q: nat :| q < |calls| && calls[q] == x && |calls| - 1 - q <= rivals;
    if |calls| > maxEntries {
      assert Newest(calls, maxEntries)[q - (|calls| - maxEntries)] == x;
    }
  }

  lemma PrunedHolds(calls: seq<Entry>, now: int, maxEntries: nat, x: Entry, rivals: nat)
    requires Holds(calls, x, rivals) && x.expiresAt > now && rivals < maxEntries
    ensures Holds(Pruned(calls, now, maxEntries), x, rivals)
  {
    LiveHolds(calls, now, x, rivals);
    NewestHolds(Live(calls, now), maxEntries, x, rivals);
  }

  lemma StepHolds(calls: seq<Entry>, e: Event, config: Config, x: Entry, rivals: nat)
    requires Holds(calls, x, rivals) && x.expiresAt > e.now
    requires !(e.Put? && e.callId == x.callId)
    requires !(e.Take? && e.callId == x.callId && Answer(calls, e, config).Some?)
    requires rivals + (if e.Put? then 1 else 0) < config.maxEntries
    ensures Holds(Step(calls, e, config), x, rivals + if e.Put? then 1 else 0)
  {
    hide Pruned, Without, Answer;
    var pruned := Pruned(calls, e.now, config.maxEntries);
    PrunedHolds(calls, e.now, config.maxEntries, x, rivals);
    if e.Put? {
      WithoutHolds(pruned, e.callId, x, rivals);
      var rest := Without(pruned, e.callId);
      var q: nat :| q < |rest| && rest[q] == x && |rest| - 1 - q <= rivals;
      var added := rest + [EntryOf(e, config)];
      assert added[q] == x;
      PrunedHolds(added, e.now, config.maxEntries, x, rivals + 1);
    } else if e.Take? && Answer(calls, e, config).Some? {
      TakenByOther(calls, e, config, x);
      WithoutHolds(pruned, e.callId, x, rivals);
    }
  }

  lemma TakenByOther(calls: seq<Entry>, e: Event, config: Config, x: Entry)
    requires e.Take? && Answer(calls, e, config).Some?
    requires !(e.Take? && e.callId == x.callId && Answer(calls, e, config).Some?)
    ensures x.callId != e.callId
  {
  }

  lemma JustPut(rest: seq<Entry>, x: Entry)
    ensures Holds(rest + [x], x, 0)
  {
    assert (rest + [x])[|rest|] == x;
  }

  lemma {:induction false} StaysTakeable(events: seq<Event>, p: nat, n: nat, callId: string, config: Config)
    requires n <= |events| && Clock(events) && Unclaimed(events, p, n, callId, config)
    requires RivalPuts(events, p, n, callId) < config.maxEntries
    requires events[n - 1].now < events[p].now + config.ttlMs
    ensures Holds(Run(events[..n], config), EntryOf(events[p], config), RivalPuts(events, p, n, callId))
    decreases n
  {
    hide Run, Pruned, Without, Holds;
    var x := EntryOf(events[p], config);
    RunNext(events, n, config);
    if n == p + 1 {
      var rest := Without(Pruned(Run(events[..p], config), events[p].now, config.maxEntries), callId);
      JustPut(rest, x);
      PrunedHolds(rest + [x], events[p].now, config.maxEntries, x, 0);
    } else {
      hide Step;
      StaysTakeable(events, p, n - 1, callId, config);
      StepHolds(Run(events[..n - 1], config), events[n - 1], config, x, RivalPuts(events, p, n - 1, callId));
    }
  }

  // A binding that nobody claimed can be taken with its key until it expires, as long as
  // fewer than maxEntries other calls were put since.
  lemma {:induction false} UnclaimedCanBeTaken(events: seq<Event>, p: nat, i: nat, config: Config)
    requires i < |events| && Clock(events) && events[i].Take?
    requires Unclaimed(events, p, i, events[i].callId, config) && events[p].keyId == events[i].keyId
    requires RivalPuts(events, p, i, events[i].callId) < config.maxEntries
    requires events[i].now < events[p].now + config.ttlMs
    ensures AnswerAt(events, i, config) == Some(events[p].target)
  {
    hide Run, Pruned, Find;
    var calls, x := Run(events[..i], config), EntryOf(events[p], config);
    StaysTakeable(events, p, i, events[i].callId, config);
    PrunedHolds(calls, events[i].now, config.maxEntries, x, RivalPuts(events, p, i, events[i].callId));
    var pruned := Pruned(calls, events[i].now, config.maxEntries);
    assert Clock(events[..i]);
    RunKeepsInv(events[..i], config);
    PrunedIsThinner(calls, events[i].now, config.maxEntries);
    FindIs(pruned, events[i].callId);
    StoredOnce(pruned, x, Find(pruned, x.callId));
  }

  lemma StoredOnce(calls: seq<Entry>, x: Entry, found: Option<Entry>)
    requires DistinctCalls(calls) && x in calls
    requires found.Some? ==> found.value in calls && found.value.callId == x.callId
    requires found.None? ==> forall i :: 0 <= i < |calls| ==> calls[i].callId != x.callId
    ensures found == Some(x)
  {
    var i :| 0 <= i < |calls| && calls[i] == x;
    if found.Some? {
      var j :| 0 <= j < |calls| && calls[j] == found.value;
    }
  }
}
