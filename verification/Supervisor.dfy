// The main loop of the historical reprice supervisor (runSupervisor in
// scripts/ops/historical-reprice-supervisor.ts). The host, the clock, the files and the
// stop signals are a script of replies, one for each operation the loop waits for; when
// the script is used up the process has been killed.
module Supervisor {
  import opened SupervisorGuards

  // What one operation meets: whether it throws, whether a stop signal arrives while it
  // runs, and the values it may deliver.
  datatype Reply = Reply(
    throws: bool,
    signal: bool,
    sample: Sample,              // collectSample
    windowActive: bool,          // findActiveWindow
    planned: bool,               // the active window has a manifest
    sameWindow: bool,            // it is the window that was being planned
    windowCompleted: bool,       // the checkpoint after a batch
    cooledDown: bool)            // the clock has passed the end of the cooldown

  datatype Purpose = Baseline | Preflight | Runtime | Cooling

  // What the supervisor does to the outside. `BatchStarted` is the call of applyBatch.
  datatype Action =
    | Took(purpose: Purpose, sample: Sample)
    | SafetyStopped
    | BatchStarted
    | CooledDown
    | Failed

  datatype Awaited = Went(reply: Reply) | Threw | Killed

  datatype Ending = Again | Complete | Stopped | ThrewError | WasKilled

  // ---- What a batch must rest on ----------------------------------------------------

  predicate InStage(a: Action) {
    a.BatchStarted? || (a.Took? && a.purpose == Runtime)
  }

  // The runtime samples at the end of a stage that found the processor busy.
  function HighCpuSamples(stage: seq<Action>, t: Thresholds): nat {
    if stage == [] then 0
    else
      var last, before := stage[|stage| - 1], stage[..|stage| - 1];
      if !last.Took? then HighCpuSamples(before, t)
      else if last.sample.helmCpuPercent >= t.stopCpuPercent then HighCpuSamples(before, t) + 1
      else 0
  }

  function Batches(stage: seq<Action>): nat {
    if stage == [] then 0
    else Batches(stage[..|stage| - 1]) + if stage[|stage| - 1].BatchStarted? then 1 else 0
  }

  ghost predicate PreflightSamples(triple: seq<Action>, t: Thresholds) {
    && |triple| == 3
    && (forall i :: 0 <= i < 3 ==> triple[i].Took? && triple[i].purpose == Preflight)
    && SafePreflight([triple[0].sample, triple[1].sample, triple[2].sample], t)
  }

  // `past` ends with a runtime sample that does not stop the stage; the stage began at
  // `start`, right after three safe preflight samples in a row, and since then there have
  // been runtime samples and batches only, fewer batches than the limit.
  ghost predicate Evidence(past: seq<Action>, start: nat, t: Thresholds, maxStageBatches: real) {
    && 3 <= start < |past|
    && PreflightSamples(past[start - 3..start], t)
    && (forall i :: start <= i < |past| ==> InStage(past[i]))
    && var last := past[|past| - 1];
       && last.Took?
       && NothingStops(last.sample, past[start - 1].sample.restarts, HighCpuSamples(past[start..], t), t)
       && (Batches(past[start..]) == 0 || Batches(past[start..]) as real < maxStageBatches)
  }

  ghost predicate Supported(past: seq<Action>, t: Thresholds, maxStageBatches: real) {
    exists start :: Evidence(past, start, t, maxStageBatches)
  }

  ghost predicate Backed(trace: seq<Action>, t: Thresholds, maxStageBatches: real) {
    trace != [] ==>
      && Backed(trace[..|trace| - 1], t, maxStageBatches)
      && (trace[|trace| - 1].BatchStarted? ==> Supported(trace[..|trace| - 1], t, maxStageBatches))
  }

  lemma {:induction false} BackedAt(trace: seq<Action>, k: nat, t: Thresholds, maxStageBatches: real)
    requires Backed(trace, t, maxStageBatches) && k < |trace| && trace[k].BatchStarted?
    ensures Supported(trace[..k], t, maxStageBatches)
  {
    var init := trace[..|trace| - 1];
    if k < |trace| - 1 {
      BackedAt(init, k, t, maxStageBatches);
      assert init[..k] == trace[..k];
    }
  }

  lemma {:induction false} BackedAppend(trace: seq<Action>, a: Action, t: Thresholds, maxStageBatches: real)
    requires Backed(trace, t, maxStageBatches)
    requires a.BatchStarted? ==> Supported(trace, t, maxStageBatches)
    ensures Backed(trace + [a], t, maxStageBatches)
  {
    hide Supported;
    assert (trace + [a])[..|trace + [a]| - 1] == trace;
  }

  // ---- A stage in progress -----------------------------------------------------------

  // The stage that began at `start` is still good: its samples say what the loop's own
  // counters say.
  ghost predicate Armed(trace: seq<Action>, start: nat, state: RuntimeState, stageBatches: nat, t: Thresholds) {
    && 3 <= start <= |trace|
    && PreflightSamples(trace[start - 3..start], t)
    && (forall i :: start <= i < |trace| ==> InStage(trace[i]))
    && state.baselineRestarts == trace[start - 1].sample.restarts
    && state.highCpuSamples == HighCpuSamples(trace[start..], t)
    && Batches(trace[start..]) <= stageBatches
  }

  // No batch has been started since the stage began.
  ghost predicate Unused(trace: seq<Action>, start: nat) {
    start <= |trace| && Batches(trace[start..]) == 0
  }

  lemma StageGrows(trace: seq<Action>, start: nat, a: Action)
    requires start <= |trace|
    ensures (trace + [a])[start..] == trace[start..] + [a]
    ensures (trace[start..] + [a])[..|trace[start..]|] == trace[start..]
  {
  }

  lemma TookKeepsArmed(trace: seq<Action>, start: nat, state: RuntimeState, stageBatches: nat, t: Thresholds,
                       sample: Sample)
    requires Armed(trace, start, state, stageBatches, t)
    ensures Armed(trace + [Took(Runtime, sample)], start,
                  RuntimeState(if sample.helmCpuPercent >= t.stopCpuPercent then state.highCpuSamples + 1 else 0,
                               state.baselineRestarts),
                  stageBatches, t)
    ensures start <= |trace|
  {
    hide PreflightSamples;
    var a := Took(Runtime, sample);
    StageGrows(trace, start, a);
    assert (trace + [a])[start - 3..start] == trace[start - 3..start];
  }

  lemma BatchKeepsArmed(trace: seq<Action>, start: nat, state: RuntimeState, stageBatches: nat, t: Thresholds)
    requires Armed(trace, start, state, stageBatches, t)
    ensures Armed(trace + [BatchStarted], start, state, stageBatches + 1, t)
  {
    hide PreflightSamples;
    StageGrows(trace, start, BatchStarted);
    assert (trace + [BatchStarted])[start - 3..start] == trace[start - 3..start];
  }

  lemma SafeSampleSupports(trace: seq<Action>, start: nat, state: RuntimeState, stageBatches: nat, t: Thresholds,
                           maxStageBatches: real)
    requires Armed(trace, start, state, stageBatches, t)
    requires start < |trace| && trace[|trace| - 1].Took?
    requires NothingStops(trace[|trace| - 1].sample, state.baselineRestarts, state.highCpuSamples, t)
    requires Batches(trace[start..]) == 0 || stageBatches as real < maxStageBatches
    ensures Supported(trace, t, maxStageBatches)
  {
    hide PreflightSamples, NothingStops;
    assert Evidence(trace, start, t, maxStageBatches);
  }

  lemma PreflightArms(trace: seq<Action>, samples: seq<Sample>, t: Thresholds, stageBatches: nat)
    requires |samples| == 3 <= |trace| && SafePreflight(samples, t)
    requires forall i :: 0 <= i < 3 ==> trace[|trace| - 3 + i] == Took(Preflight, samples[i])
    ensures Armed(trace, |trace|, RuntimeState(0, samples[2].restarts), stageBatches, t) && Unused(trace, |trace|)
  {
    hide Ready;
    var n := |trace|;
    assert trace[n - 3..n][0] == trace[n - 3] && trace[n - 3..n][1] == trace[n - 2] &&
        trace[n - 3..n][2] == trace[n - 1];
    assert samples == [samples[0], samples[1], samples[2]];
    assert trace[n..] == [];
  }

  // ---- A calm host -------------------------------------------------------------------

  // Nothing fails and nobody asks to stop; a planned window is left, and the host is one on
  // which a stage may begin and go on, restarted `restarts` times.
  ghost predicate CalmReply(r: Reply, restarts: int, t: Thresholds) {
    && !r.throws && !r.signal && r.windowActive && r.planned && !r.windowCompleted
    && Ready(r.sample, restarts, t) && NothingStops(r.sample, restarts, 0, t)
    && r.sample.helmCpuPercent < t.stopCpuPercent
  }

  ghost predicate Calm(script: seq<Reply>, from: nat, restarts: int, t: Thresholds) {
    forall i :: from <= i < |script| ==> CalmReply(script[i], restarts, t)
  }

  lemma CalmAt(script: seq<Reply>, from: nat, restarts: int, t: Thresholds, i: nat)
    requires Calm(script, from, restarts, t) && from <= i < |script|
    ensures CalmReply(script[i], restarts, t)
    ensures !script[i].throws && !script[i].signal && script[i].windowActive && script[i].planned
    ensures !script[i].windowCompleted && Ready(script[i].sample, restarts, t)
    ensures NothingStops(script[i].sample, restarts, 0, t) && script[i].sample.helmCpuPercent < t.stopCpuPercent
    ensures script[i].sample.restarts == restarts
  {
  }

  lemma CalmLater(script: seq<Reply>, from: nat, restarts: int, t: Thresholds)
    requires Calm(script, from, restarts, t)
    ensures Calm(script, from + 1, restarts, t)
  {
    hide CalmReply;
  }

  lemma CalmMuchLater(script: seq<Reply>, from: nat, more: nat, restarts: int, t: Thresholds)
    requires Calm(script, from, restarts, t)
    ensures Calm(script, from + more, restarts, t)
  {
    hide CalmReply;
  }

  // The last replies of a run that ends by itself: no window is left, or an operation threw
  // that nothing catches.
  predicate EndsARun(replies: seq<Reply>) {
    var n := |replies|;
    n > 0 && (replies[n - 1].throws || !replies[n - 1].windowActive || (n > 1 && !replies[n - 2].windowActive))
  }

  lemma RestartsOfReady(sample: Sample, restarts: int, t: Thresholds)
    ensures Ready(sample, restarts, t) ==> sample.restarts == restarts
  {
  }

  lemma {:induction false} NothingDone(t: Thresholds, maxStageBatches: real)
    ensures Backed([], t, maxStageBatches) && Batches([]) == 0
  {
  }

  lemma ReadyIsSafe(samples: seq<Sample>, restarts: int, t: Thresholds)
    requires forall i :: 0 <= i < |samples| ==> Ready(samples[i], restarts, t)
    ensures SafePreflight(samples, t) <==> |samples| == 3
  {
  }

  lemma {:induction false} BatchesAppend(trace: seq<Action>, a: Action)
    ensures Batches(trace + [a]) == Batches(trace) + if a.BatchStarted? then 1 else 0
  {
    assert (trace + [a])[..|trace|] == trace;
  }

  // ---- The supervisor ----------------------------------------------------------------

  class Supervisor {
    const t: Thresholds
    const maxStageBatches: real
    const script: seq<Reply>
    var at: nat
    var stopping: bool
    var stageBatches: nat
    var recoveryRequired: bool
    var runtimeState: RuntimeState
    var trace: seq<Action>
    // Where the actions of the current stage begin.
    ghost var start: nat

    constructor (thresholds: Thresholds, maxBatches: real, replies: seq<Reply>)
      ensures t == thresholds && maxStageBatches == maxBatches && script == replies && trace == []
      ensures at == 0 && !stopping && stageBatches == 0 && recoveryRequired
    {
      t, maxStageBatches, script := thresholds, maxBatches, replies;
      at, stopping, stageBatches, recoveryRequired := 0, false, 0, true;
      runtimeState, trace, start := RuntimeState(0, 0), [], 0;
    }

    ghost predicate Valid()
      reads this
    {
      && at <= |script|
      && Backed(trace, t, maxStageBatches)
      && (!ShouldRunPreflight(stageBatches, recoveryRequired) ==>
            && Armed(trace, start, runtimeState, stageBatches, t)
            && (Unused(trace, start) || stageBatches as real < maxStageBatches))
    }

    // An ending has its cause: the last operation threw, the script is used up, a stop was
    // asked for, or no window was left.
    ghost predicate Honest(end: Ending, from: nat)
      reads this
    {
      match end
      case ThrewError => from < at <= |script| && script[at - 1].throws
      case WasKilled => at == |script|
      case Stopped => stopping
      case Complete => from + 2 <= at <= |script| && !script[at - 2].windowActive
      case Again => true
    }

    // From `from` on, with `batches` batches behind it, the supervisor waited for `first`
    // operations and then started a batch; it finished the round unless the stage was full.
    // If the script was too short for that, it was used up.
    ghost predicate WentOn(end: Ending, from: nat, before: seq<Action>, batches: nat, first: nat, restarts: int)
      reads this
    {
      && (from + first < |script| ==> Batches(trace) == Batches(before) + 1)
      && (from + first >= |script| ==> Batches(trace) == Batches(before) && end == WasKilled)
      && ((batches + 1) as real < maxStageBatches ==>
            if from + first + 5 > |script| then end == WasKilled
            else
              end == Again && at == from + first + 5 && !stopping && !recoveryRequired &&
              stageBatches == batches + 1 && runtimeState == RuntimeState(0, restarts))
    }

    // Between two rounds on a calm host: a stage has been completed, or no batch or some of
    // the first stage have been started, one in each round.
    ghost predicate OnCourse(restarts: int)
      reads this
    {
      || (Batches(trace) >= 1 && Batches(trace) as real >= maxStageBatches)
      || (!stopping && at == 3 && stageBatches == 0 && recoveryRequired && Batches(trace) == 0)
      || (!stopping && at == 11 + 7 * stageBatches && 0 < stageBatches == Batches(trace) &&
          !recoveryRequired && runtimeState == RuntimeState(0, restarts))
    }

    // Waits for one operation; a stop signal may arrive meanwhile.
    method Await() returns (r: Awaited)
      requires at <= |script|
      modifies this`at, this`stopping
      ensures at <= |script|
      ensures r.Killed? ==> old(at) == |script| && at == old(at) && stopping == old(stopping)
      ensures !r.Killed? ==> old(at) < |script| && at == old(at) + 1
      ensures !r.Killed? ==> stopping == (old(stopping) || script[old(at)].signal)
      ensures r.Threw? ==> script[old(at)].throws
      ensures r.Went? ==> r.reply == script[old(at)] && !script[old(at)].throws
    {
      if at == |script| { return Killed; }
      var reply := script[at];
      at := at + 1;
      stopping := stopping || reply.signal;
      return if reply.throws then Threw else Went(reply);
    }

    method Act(a: Action)
      requires Backed(trace, t, maxStageBatches)
      requires a.BatchStarted? ==> Supported(trace, t, maxStageBatches)
      modifies this`trace
      ensures trace == old(trace) + [a] && Backed(trace, t, maxStageBatches)
      ensures Batches(trace) == Batches(old(trace)) + if a.BatchStarted? then 1 else 0
    {
      hide Backed, Supported;
      BackedAppend(trace, a, t, maxStageBatches);
      BatchesAppend(trace, a);
      trace := trace + [a];
    }

    // One more sample, and whether the last three are safe.
    method SamplePreflight(before: seq<Sample>, ghost restarts: int)
      returns (end: Ending, samples: seq<Sample>, safe: bool)
      requires at <= |script| && Backed(trace, t, maxStageBatches) && |before| <= 3 && |before| <= |trace|
      requires forall i :: 0 <= i < |before| ==> trace[|trace| - |before| + i] == Took(Preflight, before[i])
      modifies this`at, this`stopping, this`trace
      ensures Honest(end, old(at)) && (end == Again || end == ThrewError || end == WasKilled)
      ensures old(at) <= at <= |script| && Backed(trace, t, maxStageBatches) && Batches(trace) == Batches(old(trace))
      ensures |samples| <= 3 && |samples| <= |trace|
      ensures end == Again ==>
                && at == old(at) + 2 && |samples| == (if |before| == 3 then 3 else |before| + 1)
                && (safe <==> SafePreflight(samples, t)) && (safe ==> |samples| == 3)
                && forall i :: 0 <= i < |samples| ==> trace[|trace| - |samples| + i] == Took(Preflight, samples[i])
      ensures Calm(script, old(at), restarts, t) && !old(stopping) ==>
                !stopping && (end == Again <==> old(at) + 2 <= |script|) && (end == Again || end == WasKilled)
      ensures end == Again && Calm(script, old(at), restarts, t) &&
                (forall i :: 0 <= i < |before| ==> Ready(before[i], restarts, t)) ==>
                (safe <==> |samples| == 3) && forall i :: 0 <= i < |samples| ==> Ready(samples[i], restarts, t)
    {
      hide Backed, Supported, SafePreflight, Calm, CalmReply, Ready, NothingStops, Batches;
      if Calm(script, at, restarts, t) && at < |script| {
        CalmAt(script, at, restarts, t, at);
        if at + 1 < |script| { CalmAt(script, at, restarts, t, at + 1); }
      }
      samples, safe := [], false;
      var collected := Await();
      if !collected.Went? {
        end := if collected.Threw? then ThrewError else WasKilled;
        return;
      }
      var sample := collected.reply.sample;
      Act(Took(Preflight, sample));
      samples := before + [sample];
      if |samples| > 3 { samples := samples[1..]; }
      var reasons;
      safe, reasons := EvaluatePreflight(samples, t);
      if safe { SafeHasThree(samples, t); }
      if forall i :: 0 <= i < |samples| ==> Ready(samples[i], restarts, t) { ReadyIsSafe(samples, restarts, t); }
      var status := Await();
      end := if status.Went? then Again else if status.Threw? then ThrewError else WasKilled;
    }

    // Samples until three in a row are safe. `Again` means that they were.
    method RunPreflight(ghost restarts: int) returns (end: Ending)
      requires at <= |script| && Backed(trace, t, maxStageBatches)
      modifies this
      ensures Honest(end, old(at)) && Batches(trace) == Batches(old(trace))
      ensures Calm(script, old(at), restarts, t) && !old(stopping) ==>
                && !stopping
                && (if |script| - old(at) < 8 then end == WasKilled
                    else end == Again && at == old(at) + 8 && runtimeState == RuntimeState(0, restarts))
      ensures old(at) <= at <= |script| && Backed(trace, t, maxStageBatches) && stageBatches == old(stageBatches)
      ensures end == Again ==>
                !recoveryRequired && start == |trace| && Unused(trace, start) &&
                    Armed(trace, start, runtimeState, stageBatches, t)
      ensures end == Stopped ==> stopping
      ensures end != Complete
    {
      hide Backed, Armed, Supported, SafePreflight, Unused, Calm, CalmReply, Ready, NothingStops, Batches;
      var samples: seq<Sample> := [];
      while !stopping
        invariant old(at) <= at <= |script| && Backed(trace, t, maxStageBatches) && stageBatches == old(stageBatches)
        invariant Batches(trace) == Batches(old(trace))
        invariant Calm(script, old(at), restarts, t) && !old(stopping) ==>
                    && !stopping && |samples| < 3 && at == old(at) + 3 * |samples|
                    && forall i :: 0 <= i < |samples| ==> Ready(samples[i], restarts, t)
        invariant |samples| <= 3 && |samples| <= |trace|
        invariant forall i :: 0 <= i < |samples| ==> trace[|trace| - |samples| + i] == Took(Preflight, samples[i])
        decreases |script| - at
      {
        if Calm(script, old(at), restarts, t) { CalmMuchLater(script, old(at), at - old(at), restarts, t); }
        var sampled, safe;
        sampled, samples, safe := SamplePreflight(samples, restarts);
        if sampled != Again { return sampled; }
        if safe {
          PreflightArms(trace, samples, t, stageBatches);
          RestartsOfReady(samples[2], restarts, t);
          runtimeState := RuntimeState(0, samples[2].restarts);
          recoveryRequired := false;
          start := |trace|;
          return Again;
        }
        if Calm(script, old(at), restarts, t) && at < |script| { CalmAt(script, old(at), restarts, t, at); }
        var slept := Await();
        if !slept.Went? { return if slept.Threw? then ThrewError else WasKilled; }
      }
      return Stopped;
    }

    // Samples for the status only, until the cooldown is over or a stop is asked for.
    method CoolDown() returns (end: Ending)
      requires at <= |script| && Backed(trace, t, maxStageBatches)
      modifies this
      ensures old(at) <= at <= |script| && Backed(trace, t, maxStageBatches)
      ensures end == Again ==> stageBatches == 0 && recoveryRequired
      ensures end == Again || end == ThrewError || end == WasKilled
      ensures Honest(end, old(at)) && Batches(trace) == Batches(old(trace))
    {
      hide Backed, Supported, Batches;
      var verified := Await();                    // verifyRows over the whole stage or window
      if !verified.Went? { return if verified.Threw? then ThrewError else WasKilled; }
      var status := Await();
      if !status.Went? { return if status.Threw? then ThrewError else WasKilled; }
      while !stopping
        invariant old(at) <= at <= |script| && Backed(trace, t, maxStageBatches)
        invariant Batches(trace) == Batches(old(trace))
        decreases |script| - at
      {
        var sampled := Await();
        if !sampled.Went? { return if sampled.Threw? then ThrewError else WasKilled; }
        if sampled.reply.cooledDown { break; }
        Act(Took(Cooling, sampled.reply.sample));
        var slept := Await();
        if !slept.Went? { return if slept.Threw? then ThrewError else WasKilled; }
      }
      stageBatches := 0;
      recoveryRequired := true;
      Act(CooledDown);
      return Again;
    }

    // The safety stop of a stage.
    method StopStage() returns (end: Ending)
      requires at <= |script| && Backed(trace, t, maxStageBatches)
      modifies this
      ensures old(at) <= at <= |script| && Backed(trace, t, maxStageBatches)
      ensures stageBatches == 0 && recoveryRequired
      ensures end == Again || end == ThrewError || end == WasKilled
      ensures Honest(end, old(at)) && Batches(trace) == Batches(old(trace))
    {
      hide Backed, Supported, Batches;
      stageBatches := 0;
      recoveryRequired := true;
      Act(SafetyStopped);
      var status := Await();
      if !status.Went? { return if status.Threw? then ThrewError else WasKilled; }
      var slept := Await();
      return if slept.Went? then Again else if slept.Threw? then ThrewError else WasKilled;
    }

    // The runtime sample and, if it does not stop the stage, one batch.
    method RunBatch(ghost restarts: int) returns (end: Ending)
      requires at <= |script| && Backed(trace, t, maxStageBatches)
      requires !recoveryRequired && Armed(trace, start, runtimeState, stageBatches, t)
      requires Unused(trace, start) || stageBatches as real < maxStageBatches
      modifies this
      ensures old(at) <= at
      ensures end == Again ==> Valid() && old(at) < at
      ensures end == Again || end == ThrewError || end == WasKilled
      ensures at <= |script| && Backed(trace, t, maxStageBatches)
      ensures Honest(end, old(at)) && Batches(trace) >= Batches(old(trace))
      ensures Calm(script, old(at), restarts, t) && !old(stopping) && old(runtimeState) == RuntimeState(0, restarts) ==>
                WentOn(end, old(at), old(trace), old(stageBatches), 1, restarts)
    {
      hide Backed, Armed, Supported, Unused, NothingStops, Calm, CalmReply, Ready, Batches;
      if Calm(script, old(at), restarts, t) {
        forall i: nat | old(at) <= i < |script| { CalmAt(script, old(at), restarts, t, i); }
        assert Calm(script, old(at) + 1, restarts, t) by { CalmLater(script, old(at), restarts, t); }
      }
      var collected := Await();
      if !collected.Went? { return if collected.Threw? then ThrewError else WasKilled; }
      var sample := collected.reply.sample;
      TookKeepsArmed(trace, start, runtimeState, stageBatches, t, sample);
      ghost var before := trace;
      Act(Took(Runtime, sample));
      var stop, _, state := EvaluateRuntimeSafety(sample, runtimeState, t);
      runtimeState := state;
      if stop {
        end := StopStage();
        return;
      }
      BatchIsSupported(before, start, runtimeState, stageBatches, sample);
      end := StartBatch(restarts);
    }

    // One batch, its verification, and the cooldown when the stage or the window is full.
    method StartBatch(ghost restarts: int) returns (end: Ending)
      requires at <= |script| && Backed(trace, t, maxStageBatches) && Supported(trace, t, maxStageBatches)
      requires !recoveryRequired && Armed(trace, start, runtimeState, stageBatches, t)
      modifies this
      ensures old(at) <= at <= |script| && Backed(trace, t, maxStageBatches)
      ensures end == Again ==> Valid() && old(at) < at
      ensures end == Again || end == ThrewError || end == WasKilled
      ensures Honest(end, old(at)) && Batches(trace) >= Batches(old(trace))
      ensures Calm(script, old(at), restarts, t) && !old(stopping) && old(runtimeState) == RuntimeState(0, restarts) ==>
                WentOn(end, old(at), old(trace), old(stageBatches), 0, restarts)
    {
      hide Backed, Armed, Supported, Unused, Calm, CalmReply, Batches;
      if Calm(script, old(at), restarts, t) {
        forall i: nat | old(at) <= i < |script| { CalmAt(script, old(at), restarts, t, i); }
      }
      var applying := Await();
      if !applying.Went? { return if applying.Threw? then ThrewError else WasKilled; }
      BatchKeepsArmed(trace, start, runtimeState, stageBatches, t);
      Act(BatchStarted);
      var applied := Await();
      if !applied.Went? { return if applied.Threw? then ThrewError else WasKilled; }
      var verified := Await();
      if !verified.Went? { return if verified.Threw? then ThrewError else WasKilled; }
      stageBatches := stageBatches + 1;
      var status := Await();
      if !status.Went? { return if status.Threw? then ThrewError else WasKilled; }
      if applied.reply.windowCompleted || stageBatches as real >= maxStageBatches {
        end := CoolDown();
        return;
      }
      var slept := Await();
      return if slept.Went? then Again else if slept.Threw? then ThrewError else WasKilled;
    }

    lemma BatchIsSupported(before: seq<Action>, start: nat, state: RuntimeState, batches: nat, sample: Sample)
      requires Armed(before + [Took(Runtime, sample)], start, state, batches, t)
      requires start <= |before|
      requires Unused(before, start) || batches as real < maxStageBatches
      requires NothingStops(sample, state.baselineRestarts, state.highCpuSamples, t)
      ensures Supported(before + [Took(Runtime, sample)], t, maxStageBatches)
    {
      hide NothingStops, PreflightSamples;
      var trace := before + [Took(Runtime, sample)];
      StageGrows(before, start, Took(Runtime, sample));
      SafeSampleSupports(trace, start, state, batches, t, maxStageBatches);
    }

    // One pass through the try block of the main loop.
    method Round(ghost restarts: int) returns (end: Ending)
      requires Valid()
      modifies this
      ensures old(at) <= at <= |script| && Backed(trace, t, maxStageBatches)
      ensures end == Again ==> Valid() && old(at) < at
      ensures Honest(end, old(at)) && Batches(trace) >= Batches(old(trace))
      ensures Calm(script, old(at), restarts, t) && !old(stopping) ==>
                if ShouldRunPreflight(old(stageBatches), old(recoveryRequired)) then
                  WentOn(end, old(at), old(trace), old(stageBatches), 10, restarts)
                else
                  old(runtimeState) == RuntimeState(0, restarts) ==>
                    WentOn(end, old(at), old(trace), old(stageBatches), 2, restarts)
    {
      hide Backed, Armed, Supported, Unused, Calm, CalmReply, Batches;
      if Calm(script, old(at), restarts, t) {
        forall i: nat | old(at) <= i < |script| { CalmAt(script, old(at), restarts, t, i); }
        assert Calm(script, old(at) + 1, restarts, t) by { CalmLater(script, old(at), restarts, t); }
      }
      var found := Await();
      if !found.Went? { return if found.Threw? then ThrewError else WasKilled; }
      if !found.reply.windowActive {
        var finished := Await();
        return if finished.Went? then Complete else if finished.Threw? then ThrewError else WasKilled;
      }
      if ShouldRunPreflight(stageBatches, recoveryRequired) {
        if Calm(script, old(at) + 1, restarts, t) { CalmMuchLater(script, old(at) + 1, 8, restarts, t); }
        var passed := RunPreflight(restarts);
        if passed != Again { return passed; }
        if stopping { return Stopped; }
      }
      if !found.reply.planned {
        var planned, ready := PlanWindow();
        if planned != Again || !ready { return planned; }
      }
      end := RunBatch(restarts);
    }

    // Plans a window without a manifest; `ready` if the plan is for the window in hand.
    method PlanWindow() returns (end: Ending, ready: bool)
      requires at <= |script|
      modifies this`at, this`stopping
      ensures old(at) <= at <= |script|
      ensures end == Again || end == ThrewError || end == WasKilled
      ensures Honest(end, old(at))
    {
      var status := Await();
      if !status.Went? { return if status.Threw? then ThrewError else WasKilled, false; }
      var planned := Await();
      if !planned.Went? { return if planned.Threw? then ThrewError else WasKilled, false; }
      var found := Await();
      if !found.Went? { return if found.Threw? then ThrewError else WasKilled, false; }
      return Again, found.reply.windowActive && found.reply.planned && found.reply.sameWindow;
    }

    // What comes before the main loop.
    method Begin(ghost restarts: int) returns (started: bool)
      requires at == 0 && !stopping && stageBatches == 0 && recoveryRequired && trace == []
      modifies this`at, this`stopping, this`trace, this`runtimeState
      ensures at <= |script| && Backed(trace, t, maxStageBatches) && Batches(trace) == 0
      ensures forall k :: 0 <= k < |trace| ==> !trace[k].BatchStarted?
      ensures !started ==> at == |script| || EndsARun(script[..at])
      ensures Calm(script, 0, restarts, t) ==>
                if |script| < 3 then !started else started && at == 3 && !stopping
    {
      hide Supported, Calm, CalmReply, Batches, Backed;
      NothingDone(t, maxStageBatches);
      if Calm(script, 0, restarts, t) {
        forall i: nat | i < |script| { CalmAt(script, 0, restarts, t, i); }
      }
      var status := Await();
      if !status.Went? { return false; }
      var found := Await();
      if !found.Went? || !found.reply.windowActive { return false; }
      var baseline := Await();
      if !baseline.Went? { return false; }
      Act(Took(Baseline, baseline.reply.sample));
      runtimeState := RuntimeState(0, baseline.reply.sample.restarts);
      return true;
    }

    // The catch clause of the main loop: the next stage needs a preflight.
    method Recover() returns (recovered: bool)
      requires at <= |script| && Backed(trace, t, maxStageBatches)
      modifies this`at, this`stopping, this`trace, this`recoveryRequired
      ensures old(at) <= at <= |script| && Backed(trace, t, maxStageBatches) && Batches(trace) == Batches(old(trace))
      ensures recoveryRequired && trace == old(trace) + [Failed]
      ensures !recovered ==> at == |script| || EndsARun(script[..at])
    {
      hide Backed, Supported, Batches;
      recoveryRequired := true;
      Act(Failed);
      var failed := Await();
      if !failed.Went? { return false; }
      var slept := Await();
      return slept.Went?;
    }

    // The whole run. Every batch it starts rests on fresh evidence, it goes on until it has
    // a reason to end, and on a calm host, with any number of restarts behind it, it starts n
    // batches within 7 + 7 * n operations, up to the limit of a stage.
    method Run(ghost restarts: int)
      requires at == 0 && !stopping && stageBatches == 0 && recoveryRequired && trace == []
      modifies this
      ensures forall k :: 0 <= k < |trace| && trace[k].BatchStarted? ==> Supported(trace[..k], t, maxStageBatches)
      ensures at <= |script| && (at == |script| || stopping || EndsARun(script[..at]))
      ensures Calm(script, 0, restarts, t) ==>
                forall n: nat :: |script| >= 7 + 7 * n && (n <= 1 || n as real <= maxStageBatches) ==>
                  Batches(trace) >= n
    {
      hide Armed, Supported, Calm, CalmReply, Batches, Backed;
      var started := Begin(restarts);
      if !started { return; }
      while !stopping
        invariant Valid()
        invariant Calm(script, 0, restarts, t) ==> OnCourse(restarts)
        decreases |script| - at
      {
        if Calm(script, 0, restarts, t) { CalmMuchLater(script, 0, at, restarts, t); }
        var end := Round(restarts);
        match end {
          case Again =>
          case ThrewError =>
            var recovered := Recover();
            if !recovered { break; }
          case _ => break;
        }
      }
      forall k | 0 <= k < |trace| && trace[k].BatchStarted? ensures Supported(trace[..k], t, maxStageBatches) {
        BackedAt(trace, k, t, maxStageBatches);
      }
    }
  }

  lemma SafeHasThree(samples: seq<Sample>, t: Thresholds)
    requires SafePreflight(samples, t)
    ensures |samples| == 3
  {
  }
}
