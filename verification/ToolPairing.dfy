// Pairing tool calls with the results that answer them, and the clean-up pass after it
// (apps/admin/src/lib/conversation.ts).
module ToolPairing {
  import opened JsonValues
  import Texts

  // An `unknown` of the source; None is undefined.
  type Unknown = Option<Json>

  datatype Part =
    | Text(text: string)
    | Reasoning(text: string)
    | Image(url: string)
    | ToolCall(id: Option<string>, name: string, args: Unknown)
    | ToolResult(callId: Option<string>, resultName: Option<string>, output: Unknown)
    | ToolExchange(id: Option<string>, name: string, args: Unknown, hasResult: bool, output: Unknown)
    | Other(value: Unknown)

  datatype Role = System | User | Assistant | Tool
  datatype Origin = FromRequest | FromResponse
  datatype Turn = Turn(role: Role, parts: seq<Part>, raw: Unknown, origin: Origin)

  // ---- Positions in the document -------------------------------------------------

  datatype Loc = Loc(ti: nat, pi: nat)

  predicate Before(a: Loc, b: Loc) {
    a.ti < b.ti || (a.ti == b.ti && a.pi < b.pi)
  }

  predicate InDocument(turns: seq<Turn>, loc: Loc) {
    loc.ti < |turns| && loc.pi < |turns[loc.ti].parts|
  }

  function At(turns: seq<Turn>, loc: Loc): Part
    requires InDocument(turns, loc)
  {
    turns[loc.ti].parts[loc.pi]
  }

  predicate ValidPosition(turns: seq<Turn>, ti: nat, pi: nat) {
    (ti < |turns| && pi <= |turns[ti].parts|) || (ti == |turns| && pi == 0)
  }

  datatype Want = Calls | AnyResult | ResultsFor(id: string)

  predicate Wanted(p: Part, want: Want) {
    match want
    case Calls => p.ToolCall?
    case AnyResult => p.ToolResult?
    case ResultsFor(id) => p.ToolResult? && p.callId == Some(id)
  }

  // The wanted parts that stand before position (ti, pi), in document order.
  function LocsUpTo(turns: seq<Turn>, want: Want, ti: nat, pi: nat): seq<Loc>
    requires ValidPosition(turns, ti, pi)
    decreases ti, pi
  {
    if pi > 0 then
      LocsUpTo(turns, want, ti, pi - 1) +
      (if Wanted(turns[ti].parts[pi - 1], want) then [Loc(ti, pi - 1)] else [])
    else if ti > 0 then LocsUpTo(turns, want, ti - 1, |turns[ti - 1].parts|)
    else []
  }

  function Locs(turns: seq<Turn>, want: Want): seq<Loc> {
    LocsUpTo(turns, want, |turns|, 0)
  }

  ghost predicate Rising(locs: seq<Loc>) {
    forall i, j :: 0 <= i < j < |locs| ==> Before(locs[i], locs[j])
  }

  lemma {:induction false} LocsUpToAreRight(turns: seq<Turn>, want: Want, ti: nat, pi: nat)
    requires ValidPosition(turns, ti, pi)
    ensures Rising(LocsUpTo(turns, want, ti, pi))
    ensures forall loc :: loc in LocsUpTo(turns, want, ti, pi) <==>
              InDocument(turns, loc) && Before(loc, Loc(ti, pi)) && Wanted(At(turns, loc), want)
    decreases ti, pi
  {
    if pi > 0 {
      LocsUpToAreRight(turns, want, ti, pi - 1);
    } else if ti > 0 {
      LocsUpToAreRight(turns, want, ti - 1, |turns[ti - 1].parts|);
    }
  }

  // ---- The simple rule -----------------------------------------------------------

  // The id a call or a result is matched by; an empty id matches nothing.
  function IdOf(p: Part): Option<string> {
    if p.ToolCall? && p.id.Some? && p.id.value != "" then p.id else None
  }

  // The first result after `call` that nobody has taken.
  function FirstFree(results: seq<Loc>, call: Loc, taken: seq<Option<Loc>>): Option<Loc> {
    if results == [] then None
    else if Before(call, results[0]) && Some(results[0]) !in taken then Some(results[0])
    else FirstFree(results[1..], call, taken)
  }

  function Claim(turns: seq<Turn>, call: Loc, taken: seq<Option<Loc>>): Option<Loc>
  {
    var id := if InDocument(turns, call) then IdOf(At(turns, call)) else None;
    if id.None? then None else FirstFree(Locs(turns, ResultsFor(id.value)), call, taken)
  }

  // Each call, in document order, takes the first same-id result after it that no
  // earlier call took.
  ghost function Claims(turns: seq<Turn>, calls: seq<Loc>): (claims: seq<Option<Loc>>)
    ensures |claims| == |calls|
  {
    if calls == [] then []
    else
      var earlier := Claims(turns, calls[..|calls| - 1]);
      earlier + [Claim(turns, calls[|calls| - 1], earlier)]
  }

  lemma {:induction false} FirstFreeIs(results: seq<Loc>, call: Loc, taken: seq<Option<Loc>>, j: nat)
    requires j <= |results|
    requires forall i :: 0 <= i < j ==> !Before(call, results[i]) || Some(results[i]) in taken
    requires j < |results| ==> Before(call, results[j]) && Some(results[j]) !in taken
    ensures FirstFree(results, call, taken) == if j < |results| then Some(results[j]) else None
  {
    if j > 0 {
      FirstFreeIs(results[1..], call, taken, j - 1);
    }
  }

  lemma {:induction false} FirstFreeSpec(results: seq<Loc>, call: Loc, taken: seq<Option<Loc>>)
    requires Rising(results)
    ensures var r := FirstFree(results, call, taken);
            && (r.Some? ==> r.value in results && Before(call, r.value) && r !in taken)
            && (forall x :: x in results && Before(call, x) && Some(x) !in taken ==>
                  r.Some? && (r.value == x || Before(r.value, x)))
  {
    if results != [] {
      FirstFreeSpec(results[1..], call, taken);
    }
  }

  // ---- What the output is, given who claims what ---------------------------------

  function Emit(turns: seq<Turn>, loc: Loc, claimed: map<Loc, Option<Loc>>, consumed: set<Loc>): seq<Part>
    requires InDocument(turns, loc)
  {
    var p := At(turns, loc);
    if p.ToolCall? then
      var answer := if loc in claimed then claimed[loc] else None;
      [ToolExchange(p.id, p.name, p.args, answer.Some?,
                    if answer.Some? then OutputAt(turns, answer.value) else Some(Null))]
    else if p.ToolResult? && loc in consumed then []
    else [p]
  }

  function OutputAt(turns: seq<Turn>, loc: Loc): Unknown {
    if InDocument(turns, loc) && At(turns, loc).ToolResult? then At(turns, loc).output else Some(Null)
  }

  function PartsUpTo(turns: seq<Turn>, ti: nat, pi: nat, claimed: map<Loc, Option<Loc>>, consumed: set<Loc>): seq<Part>
    requires ti < |turns| && pi <= |turns[ti].parts|
  {
    if pi == 0 then []
    else PartsUpTo(turns, ti, pi - 1, claimed, consumed) + Emit(turns, Loc(ti, pi - 1), claimed, consumed)
  }

  function TurnsUpTo(turns: seq<Turn>, ti: nat, claimed: map<Loc, Option<Loc>>, consumed: set<Loc>): (out: seq<Turn>)
    requires ti <= |turns|
    ensures |out| == ti
  {
    if ti == 0 then []
    else TurnsUpTo(turns, ti - 1, claimed, consumed) +
         [turns[ti - 1].(parts := PartsUpTo(turns, ti - 1, |turns[ti - 1].parts|, claimed, consumed))]
  }

  ghost function ClaimMap(calls: seq<Loc>, claims: seq<Option<Loc>>): map<Loc, Option<Loc>>
    requires |calls| == |claims|
  {
    if calls == [] then map[]
    else ClaimMap(calls[..|calls| - 1], claims[..|claims| - 1])[calls[|calls| - 1] := claims[|claims| - 1]]
  }

  ghost function Taken(claims: seq<Option<Loc>>): set<Loc> {
    set i | 0 <= i < |claims| && claims[i].Some? :: claims[i].value
  }

  // The rule applied to a whole document.
  ghost function Paired(turns: seq<Turn>): seq<Turn> {
    var calls := Locs(turns, Calls);
    var claims := Claims(turns, calls);
    TurnsUpTo(turns, |turns|, ClaimMap(calls, claims), Taken(claims))
  }

  // ---- The algorithm -------------------------------------------------------------

  method PairToolExchanges(turns: seq<Turn>) returns (out: seq<Turn>)
    ensures out == Paired(turns)
  {
    var resultsById := IndexResults(turns);
    var claimed, consumed := ClaimResults(turns, resultsById);
    out := EmitTurns(turns, claimed, consumed);
  }

  ghost predicate Indexed(turns: seq<Turn>, ti: nat, pi: nat, resultsById: map<string, seq<Loc>>)
    requires ValidPosition(turns, ti, pi)
  {
    && (forall id :: id in resultsById ==>
          id != "" && resultsById[id] == LocsUpTo(turns, ResultsFor(id), ti, pi))
    && (forall id :: id != "" && id !in resultsById ==> LocsUpTo(turns, ResultsFor(id), ti, pi) == [])
  }

  function WithResult(resultsById: map<string, seq<Loc>>, p: Part, loc: Loc): map<string, seq<Loc>> {
    if p.ToolResult? && p.callId.Some? && p.callId.value != "" then
      var id := p.callId.value;
      resultsById[id := (if id in resultsById then resultsById[id] else []) + [loc]]
    else resultsById
  }

  lemma IndexedNext(turns: seq<Turn>, ti: nat, pi: nat, resultsById: map<string, seq<Loc>>)
    requires ti < |turns| && pi < |turns[ti].parts|
    requires Indexed(turns, ti, pi, resultsById)
    ensures Indexed(turns, ti, pi + 1, WithResult(resultsById, turns[ti].parts[pi], Loc(ti, pi)))
  {
    var p := turns[ti].parts[pi];
    var next := WithResult(resultsById, p, Loc(ti, pi));
    forall id: string | id != ""
      ensures id in next ==> next[id] == LocsUpTo(turns, ResultsFor(id), ti, pi + 1)
      ensures id !in next ==> LocsUpTo(turns, ResultsFor(id), ti, pi + 1) == []
    {
      assert LocsUpTo(turns, ResultsFor(id), ti, pi + 1)
          == LocsUpTo(turns, ResultsFor(id), ti, pi) + (if Wanted(p, ResultsFor(id)) then [Loc(ti, pi)] else []);
    }
  }

  lemma IndexedNextTurn(turns: seq<Turn>, ti: nat, resultsById: map<string, seq<Loc>>)
    requires ti < |turns| && Indexed(turns, ti, |turns[ti].parts|, resultsById)
    ensures Indexed(turns, ti + 1, 0, resultsById)
  {
    assert forall want :: LocsUpTo(turns, want, ti + 1, 0) == LocsUpTo(turns, want, ti, |turns[ti].parts|);
  }

  method IndexResults(turns: seq<Turn>) returns (resultsById: map<string, seq<Loc>>)
    ensures Indexed(turns, |turns|, 0, resultsById)
  {
    resultsById := map[];
    assert Indexed(turns, 0, 0, resultsById);
    hide Indexed;
    for ti := 0 to |turns|
      invariant Indexed(turns, ti, 0, resultsById)
    {
      for pi := 0 to |turns[ti].parts|
        invariant Indexed(turns, ti, pi, resultsById)
      {
        IndexedNext(turns, ti, pi, resultsById);
        var p := turns[ti].parts[pi];
        if p.ToolResult? && p.callId.Some? && p.callId.value != "" {
          var id := p.callId.value;
          var list := if id in resultsById then resultsById[id] else [];
          resultsById := resultsById[id := list + [Loc(ti, pi)]];
        }
      }
      IndexedNextTurn(turns, ti, resultsById);
    }
  }

  function Next(nextFree: map<string, nat>, id: string): nat {
    if id in nextFree then nextFree[id] else 0
  }

  // Everything left of a pointer is taken or already behind the walk, nothing right of
  // it is taken.
  ghost predicate PointersRight(turns: seq<Turn>, nextFree: map<string, nat>, claims: seq<Option<Loc>>, here: Loc) {
    forall id ::
      var results := Locs(turns, ResultsFor(id));
      && Next(nextFree, id) <= |results|
      && (forall j :: 0 <= j < Next(nextFree, id) ==> Some(results[j]) in claims || Before(results[j], here))
      && (forall j :: Next(nextFree, id) <= j < |results| ==> Some(results[j]) !in claims)
  }

  ghost predicate Walked(turns: seq<Turn>, ti: nat, pi: nat, nextFree: map<string, nat>,
                         claimed: map<Loc, Option<Loc>>, consumed: set<Loc>)
    requires ValidPosition(turns, ti, pi)
  {
    var calls := LocsUpTo(turns, Calls, ti, pi);
    var claims := Claims(turns, calls);
    && claimed == ClaimMap(calls, claims)
    && consumed == Taken(claims)
    && PointersRight(turns, nextFree, claims, Loc(ti, pi))
  }

  // What one visited part does to the calls and claims seen so far.
  lemma VisitPart(turns: seq<Turn>, ti: nat, pi: nat)
    requires ti < |turns| && pi < |turns[ti].parts|
    ensures var before, after := LocsUpTo(turns, Calls, ti, pi), LocsUpTo(turns, Calls, ti, pi + 1);
            var here := Loc(ti, pi);
            if !turns[ti].parts[pi].ToolCall? then after == before
            else
              && after == before + [here]
              && Claims(turns, after) == Claims(turns, before) + [Claim(turns, here, Claims(turns, before))]
              && ClaimMap(after, Claims(turns, after))
                 == ClaimMap(before, Claims(turns, before))[here := Claim(turns, here, Claims(turns, before))]
  {
    var before, after := LocsUpTo(turns, Calls, ti, pi), LocsUpTo(turns, Calls, ti, pi + 1);
    if turns[ti].parts[pi].ToolCall? {
      assert after[..|after| - 1] == before;
      var claims := Claims(turns, after);
      assert claims[..|claims| - 1] == Claims(turns, before);
    }
  }

  lemma TakenNext(claims: seq<Option<Loc>>, claim: Option<Loc>)
    ensures Taken(claims + [claim]) == Taken(claims) + (if claim.Some? then {claim.value} else {})
  {
    var next := claims + [claim];
    forall x | x in Taken(claims) ensures x in Taken(next) {
      var i :| 0 <= i < |claims| && claims[i] == Some(x);
      assert next[i] == Some(x);
    }
    if claim.Some? {
      assert next[|claims|] == claim;
    }
  }

  lemma StepPast(turns: seq<Turn>, nextFree: map<string, nat>, claims: seq<Option<Loc>>, ti: nat, pi: nat)
    requires PointersRight(turns, nextFree, claims, Loc(ti, pi))
    ensures PointersRight(turns, nextFree, claims, Loc(ti, pi + 1))
    ensures PointersRight(turns, nextFree, claims, Loc(ti + 1, 0))
    ensures PointersRight(turns, nextFree, claims + [None], Loc(ti, pi + 1))
  {
  }

  // The pointer finds what a scan from the start would find.
  lemma PointerFindsFirstFree(turns: seq<Turn>, nextFree: map<string, nat>, claims: seq<Option<Loc>>,
                              here: Loc, id: string, idx: nat)
    requires InDocument(turns, here) && IdOf(At(turns, here)) == Some(id)
    requires PointersRight(turns, nextFree, claims, here)
    requires Next(nextFree, id) <= idx <= |Locs(turns, ResultsFor(id))|
    requires forall j :: Next(nextFree, id) <= j < idx ==> Before(Locs(turns, ResultsFor(id))[j], here)
    requires idx < |Locs(turns, ResultsFor(id))| ==> !Before(Locs(turns, ResultsFor(id))[idx], here)
    ensures var results := Locs(turns, ResultsFor(id));
            Claim(turns, here, claims) == if idx < |results| then Some(results[idx]) else None
  {
    var results := Locs(turns, ResultsFor(id));
    LocsUpToAreRight(turns, ResultsFor(id), |turns|, 0);
    if idx < |results| {
      assert results[idx] in results;
      assert results[idx] != here;
    }
    FirstFreeIs(results, here, claims, idx);
  }

  lemma AdvancePointer(turns: seq<Turn>, nextFree: map<string, nat>, claims: seq<Option<Loc>>,
                       ti: nat, pi: nat, id: string, idx: nat)
    requires PointersRight(turns, nextFree, claims, Loc(ti, pi))
    requires Next(nextFree, id) <= idx < |Locs(turns, ResultsFor(id))|
    requires forall j :: Next(nextFree, id) <= j < idx ==> Before(Locs(turns, ResultsFor(id))[j], Loc(ti, pi))
    ensures PointersRight(turns, nextFree[id := idx + 1], claims + [Some(Locs(turns, ResultsFor(id))[idx])],
                          Loc(ti, pi + 1))
  {
    var loc := Locs(turns, ResultsFor(id))[idx];
    var nextFree', claims' := nextFree[id := idx + 1], claims + [Some(loc)];
    LocsUpToAreRight(turns, ResultsFor(id), |turns|, 0);
    assert loc in Locs(turns, ResultsFor(id));
    forall other: string
      ensures var results := Locs(turns, ResultsFor(other));
              && Next(nextFree', other) <= |results|
              && (forall j :: 0 <= j < Next(nextFree', other) ==>
                  Some(results[j]) in claims' || Before(results[j], Loc(ti, pi + 1)))
              && (forall j :: Next(nextFree', other) <= j < |results| ==> Some(results[j]) !in claims')
    {
      var results := Locs(turns, ResultsFor(other));
      LocsUpToAreRight(turns, ResultsFor(other), |turns|, 0);
      forall j | Next(nextFree', other) <= j < |results| ensures Some(results[j]) !in claims' {
        assert results[j] in results;
        assert other == id ==> Before(results[idx], results[j]);
      }
    }
  }

  lemma WalkedNextTurn(turns: seq<Turn>, ti: nat, nextFree: map<string, nat>,
                       claimed: map<Loc, Option<Loc>>, consumed: set<Loc>)
    requires ti < |turns| && Walked(turns, ti, |turns[ti].parts|, nextFree, claimed, consumed)
    ensures Walked(turns, ti + 1, 0, nextFree, claimed, consumed)
  {
    assert LocsUpTo(turns, Calls, ti + 1, 0) == LocsUpTo(turns, Calls, ti, |turns[ti].parts|);
    StepPast(turns, nextFree, Claims(turns, LocsUpTo(turns, Calls, ti + 1, 0)), ti, |turns[ti].parts|);
  }

  lemma WalkedOther(turns: seq<Turn>, ti: nat, pi: nat, nextFree: map<string, nat>,
                    claimed: map<Loc, Option<Loc>>, consumed: set<Loc>)
    requires ti < |turns| && pi < |turns[ti].parts| && !turns[ti].parts[pi].ToolCall?
    requires Walked(turns, ti, pi, nextFree, claimed, consumed)
    ensures Walked(turns, ti, pi + 1, nextFree, claimed, consumed)
  {
    VisitPart(turns, ti, pi);
    StepPast(turns, nextFree, Claims(turns, LocsUpTo(turns, Calls, ti, pi)), ti, pi);
  }

  lemma {:induction false} WalkedUnanswered(turns: seq<Turn>, ti: nat, pi: nat, nextFree: map<string, nat>,
                                            claimed: map<Loc, Option<Loc>>, consumed: set<Loc>)
    requires ti < |turns| && pi < |turns[ti].parts| && turns[ti].parts[pi].ToolCall?
    requires Walked(turns, ti, pi, nextFree, claimed, consumed)
    requires Claim(turns, Loc(ti, pi), Claims(turns, LocsUpTo(turns, Calls, ti, pi))) == None
    ensures Walked(turns, ti, pi + 1, nextFree, claimed[Loc(ti, pi) := None], consumed)
  {
    var earlier := Claims(turns, LocsUpTo(turns, Calls, ti, pi));
    VisitPart(turns, ti, pi);
    TakenNext(earlier, None);
    StepPast(turns, nextFree, earlier, ti, pi);
  }

  lemma {:induction false} WalkedAnswered(turns: seq<Turn>, ti: nat, pi: nat, nextFree: map<string, nat>,
                                          claimed: map<Loc, Option<Loc>>, consumed: set<Loc>, id: string, idx: nat)
    requires ti < |turns| && pi < |turns[ti].parts| && turns[ti].parts[pi].ToolCall?
    requires Walked(turns, ti, pi, nextFree, claimed, consumed)
    requires Next(nextFree, id) <= idx < |Locs(turns, ResultsFor(id))|
    requires forall j :: Next(nextFree, id) <= j < idx ==> Before(Locs(turns, ResultsFor(id))[j], Loc(ti, pi))
    requires Claim(turns, Loc(ti, pi), Claims(turns, LocsUpTo(turns, Calls, ti, pi)))
             == Some(Locs(turns, ResultsFor(id))[idx])
    ensures var loc := Locs(turns, ResultsFor(id))[idx];
            Walked(turns, ti, pi + 1, nextFree[id := idx + 1], claimed[Loc(ti, pi) := Some(loc)], consumed + {loc})
  {
    var earlier := Claims(turns, LocsUpTo(turns, Calls, ti, pi));
    VisitPart(turns, ti, pi);
    TakenNext(earlier, Some(Locs(turns, ResultsFor(id))[idx]));
    AdvancePointer(turns, nextFree, earlier, ti, pi, id, idx);
  }

  method ClaimResults(turns: seq<Turn>, resultsById: map<string, seq<Loc>>)
    returns (claimed: map<Loc, Option<Loc>>, consumed: set<Loc>)
    requires Indexed(turns, |turns|, 0, resultsById)
    ensures var calls := Locs(turns, Calls);
            var claims := Claims(turns, calls);
            claimed == ClaimMap(calls, claims) && consumed == Taken(claims)
  {
    var nextFree: map<string, nat> := map[];
    claimed, consumed := map[], {};
    assert Walked(turns, 0, 0, nextFree, claimed, consumed);
    for ti := 0 to |turns|
      invariant Walked(turns, ti, 0, nextFree, claimed, consumed)
    {
      hide Walked;
      for pi := 0 to |turns[ti].parts|
        invariant Walked(turns, ti, pi, nextFree, claimed, consumed)
      {
        if turns[ti].parts[pi].ToolCall? {
          nextFree, claimed, consumed := ClaimOne(turns, resultsById, ti, pi, nextFree, claimed, consumed);
        } else {
          WalkedOther(turns, ti, pi, nextFree, claimed, consumed);
        }
      }
      WalkedNextTurn(turns, ti, nextFree, claimed, consumed);
    }
  }

  method ClaimOne(turns: seq<Turn>, resultsById: map<string, seq<Loc>>, ti: nat, pi: nat, nextFree: map<string, nat>,
                  claimed: map<Loc, Option<Loc>>, consumed: set<Loc>)
    returns (nextFree': map<string, nat>, claimed': map<Loc, Option<Loc>>, consumed': set<Loc>)
    requires Indexed(turns, |turns|, 0, resultsById)
    requires ti < |turns| && pi < |turns[ti].parts| && turns[ti].parts[pi].ToolCall?
    requires Walked(turns, ti, pi, nextFree, claimed, consumed)
    ensures Walked(turns, ti, pi + 1, nextFree', claimed', consumed')
  {
    var p, here := turns[ti].parts[pi], Loc(ti, pi);
    ghost var earlier := Claims(turns, LocsUpTo(turns, Calls, ti, pi));
    assert PointersRight(turns, nextFree, earlier, here);
    nextFree', claimed', consumed' := nextFree, claimed, consumed;
    hide Walked, PointersRight;
    if p.id.None? || p.id.value == "" || p.id.value !in resultsById {
      claimed' := claimed[here := None];
      WalkedUnanswered(turns, ti, pi, nextFree, claimed, consumed);
      return;
    }
    var id := p.id.value;
    var list := resultsById[id];
    var idx := Next(nextFree, id);
    assert idx <= |list| by { PointerInRange(turns, nextFree, earlier, here, id); }
    while idx < |list| && Before(list[idx], here)
      invariant Next(nextFree, id) <= idx <= |list|
      invariant forall j :: Next(nextFree, id) <= j < idx ==> Before(list[j], here)
    {
      idx := idx + 1;
    }
    PointerFindsFirstFree(turns, nextFree, earlier, here, id, idx);
    if idx < |list| {
      var loc := list[idx];
      WalkedAnswered(turns, ti, pi, nextFree, claimed, consumed, id, idx);
      nextFree' := nextFree[id := idx + 1];
      consumed' := consumed + {loc};
      claimed' := claimed[here := Some(loc)];
    } else {
      claimed' := claimed[here := None];
      WalkedUnanswered(turns, ti, pi, nextFree, claimed, consumed);
    }
  }

  lemma PointerInRange(turns: seq<Turn>, nextFree: map<string, nat>, claims: seq<Option<Loc>>, here: Loc, id: string)
    requires PointersRight(turns, nextFree, claims, here)
    ensures Next(nextFree, id) <= |Locs(turns, ResultsFor(id))|
  {
  }

  method EmitTurns(turns: seq<Turn>, claimed: map<Loc, Option<Loc>>, consumed: set<Loc>) returns (out: seq<Turn>)
    ensures out == TurnsUpTo(turns, |turns|, claimed, consumed)
  {
    out := [];
    for ti := 0 to |turns|
      invariant out == TurnsUpTo(turns, ti, claimed, consumed)
    {
      var parts: seq<Part> := [];
      for pi := 0 to |turns[ti].parts|
        invariant parts == PartsUpTo(turns, ti, pi, claimed, consumed)
      {
        var p := turns[ti].parts[pi];
        if p.ToolCall? {
          var loc := if Loc(ti, pi) in claimed then claimed[Loc(ti, pi)] else None;
          parts := parts + [ToolExchange(p.id, p.name, p.args, loc.Some?,
                                         if loc.Some? then OutputAt(turns, loc.value) else Some(Null))];
        } else if p.ToolResult? && Loc(ti, pi) in consumed {
          // folded into the exchange of its call
        } else {
          parts := parts + [p];
        }
      }
      out := out + [turns[ti].(parts := parts)];
    }
  }

  // ---- The pairing is valid and as large as any ----------------------------------

  // `result` can answer `call`: same non-empty id, and it comes later.
  ghost predicate Answers(turns: seq<Turn>, call: Loc, result: Loc) {
    && InDocument(turns, call) && InDocument(turns, result)
    && IdOf(At(turns, call)).Some?
    && Wanted(At(turns, result), ResultsFor(IdOf(At(turns, call)).value))
    && Before(call, result)
  }

  lemma ClaimSpec(turns: seq<Turn>, call: Loc, taken: seq<Option<Loc>>)
    ensures var r := Claim(turns, call, taken);
            && (r.Some? ==> Answers(turns, call, r.value) && r !in taken)
            && (forall x :: Answers(turns, call, x) && Some(x) !in taken ==>
                  r.Some? && (r.value == x || Before(r.value, x)))
  {
    if InDocument(turns, call) && IdOf(At(turns, call)).Some? {
      var want := ResultsFor(IdOf(At(turns, call)).value);
      LocsUpToAreRight(turns, want, |turns|, 0);
      FirstFreeSpec(Locs(turns, want), call, taken);
      forall x | Answers(turns, call, x) ensures x in Locs(turns, want) {}
    }
  }

  // Claims answer their calls, nobody's result is claimed twice, and a result that stays
  // free has every call it could answer served by an earlier one.
  ghost predicate ClaimsRight(turns: seq<Turn>, calls: seq<Loc>, claims: seq<Option<Loc>>)
    requires |calls| == |claims|
  {
    && (forall k :: 0 <= k < |calls| && claims[k].Some? ==> Answers(turns, calls[k], claims[k].value))
    && (forall k, l :: 0 <= k < l < |calls| && claims[k].Some? ==> claims[k] != claims[l])
    && (forall k, x :: 0 <= k < |calls| && Answers(turns, calls[k], x) && Some(x) !in claims ==>
          claims[k].Some? && Before(claims[k].value, x))
  }

  lemma ClaimsRightNext(turns: seq<Turn>, calls: seq<Loc>, claims: seq<Option<Loc>>, call: Loc)
    requires |calls| == |claims| && ClaimsRight(turns, calls, claims)
    ensures ClaimsRight(turns, calls + [call], claims + [Claim(turns, call, claims)])
  {
    hide Answers, Claim;
    ClaimSpec(turns, call, claims);
    var claims' := claims + [Claim(turns, call, claims)];
    assert claims'[|claims|] in claims';
    forall k, l | 0 <= k < l < |claims'| && claims'[k].Some? ensures claims'[k] != claims'[l] {
      if l == |claims| {
        assert claims[k] in claims;
      }
    }
  }

  lemma {:induction false} NoClaims(turns: seq<Turn>)
    ensures ClaimsRight(turns, [], Claims(turns, []))
  {
  }

  lemma {:induction false} ClaimsSpec(turns: seq<Turn>, calls: seq<Loc>)
    ensures ClaimsRight(turns, calls, Claims(turns, calls))
  {
    hide ClaimsRight, Claim;
    if calls == [] {
      NoClaims(turns);
    } else {
      var n := |calls| - 1;
      ClaimsSpec(turns, calls[..n]);
      ClaimsRightNext(turns, calls[..n], Claims(turns, calls[..n]), calls[n]);
      assert calls == calls[..n] + [calls[n]];
    }
  }

  lemma {:induction false} ClaimMapSpec(calls: seq<Loc>, claims: seq<Option<Loc>>)
    requires |calls| == |claims| && Rising(calls)
    ensures forall c :: c in ClaimMap(calls, claims) <==> c in calls
    ensures forall k :: 0 <= k < |calls| ==> ClaimMap(calls, claims)[calls[k]] == claims[k]
  {
    if calls != [] {
      var n := |calls| - 1;
      var earlier := ClaimMap(calls[..n], claims[..n]);
      ClaimMapSpec(calls[..n], claims[..n]);
      var all := ClaimMap(calls, claims);
      assert all == earlier[calls[n] := claims[n]];
      hide ClaimMap;
      assert forall c :: c in calls <==> c in calls[..n] || c == calls[n];
      forall k | 0 <= k < n ensures all[calls[k]] == claims[k] {
        assert calls[..n][k] == calls[k] && claims[..n][k] == claims[k];
        assert Before(calls[k], calls[n]);
      }
    }
  }

  // A one-to-one pairing of calls with results that can answer them.
  ghost predicate ValidPairing(turns: seq<Turn>, m: map<Loc, Loc>) {
    && (forall c :: c in m ==> Answers(turns, c, m[c]))
    && (forall c, c' :: c in m && c' in m && c != c' ==> m[c] != m[c'])
  }

  // Who ends up with whose result.
  ghost function PairingOf(turns: seq<Turn>): map<Loc, Loc> {
    var calls := Locs(turns, Calls);
    var claimed := ClaimMap(calls, Claims(turns, calls));
    map c | c in claimed && claimed[c].Some? :: claimed[c].value
  }

  // A result the algorithm leaves in place.
  ghost predicate Free(turns: seq<Turn>, result: Loc) {
    result !in PairingOf(turns).Values
  }

  lemma {:induction false} ClaimedIsNotFree(turns: seq<Turn>, result: Loc)
    ensures result in Taken(Claims(turns, Locs(turns, Calls))) <==> !Free(turns, result)
    ensures Some(result) in Claims(turns, Locs(turns, Calls)) <==> !Free(turns, result)
  {
    hide LocsUpTo, Claims, ClaimMap, Rising;
    var calls, m := Locs(turns, Calls), PairingOf(turns);
    var claims := Claims(turns, calls);
    LocsUpToAreRight(turns, Calls, |turns|, 0);
    ClaimMapSpec(calls, claims);
    if Some(result) in claims {
      var l :| 0 <= l < |claims| && claims[l] == Some(result);
      assert calls[l] in m && m[calls[l]] == result;
    }
    if c :| c in m && m[c] == result {
      var k :| 0 <= k < |calls| && calls[k] == c;
      assert claims[k] == Some(result);
    }
  }

  lemma ClaimOfCall(turns: seq<Turn>, c: Loc) returns (k: nat)
    requires c in Locs(turns, Calls)
    ensures k < |Locs(turns, Calls)| && Locs(turns, Calls)[k] == c
    ensures var claim := Claims(turns, Locs(turns, Calls))[k];
            (claim.Some? <==> c in PairingOf(turns)) && (claim.Some? ==> PairingOf(turns)[c] == claim.value)
  {
    var calls := Locs(turns, Calls);
    LocsUpToAreRight(turns, Calls, |turns|, 0);
    ClaimMapSpec(calls, Claims(turns, calls));
    k :| 0 <= k < |calls| && calls[k] == c;
  }

  lemma PairingCallsAreCalls(turns: seq<Turn>)
    ensures forall c :: c in PairingOf(turns) ==> c in Locs(turns, Calls)
  {
    LocsUpToAreRight(turns, Calls, |turns|, 0);
    ClaimMapSpec(Locs(turns, Calls), Claims(turns, Locs(turns, Calls)));
  }

  lemma PairingIsValid(turns: seq<Turn>)
    ensures ValidPairing(turns, PairingOf(turns))
  {
    hide LocsUpTo, Claims, PairingOf, Answers;
    var m := PairingOf(turns);
    ClaimsSpec(turns, Locs(turns, Calls));
    PairingCallsAreCalls(turns);
    forall c | c in m ensures Answers(turns, c, m[c]) {
      var k := ClaimOfCall(turns, c);
    }
    forall c, c' | c in m && c' in m && c != c' ensures m[c] != m[c'] {
      var k := ClaimOfCall(turns, c);
      var k' := ClaimOfCall(turns, c');
    }
  }

  lemma FreeComesTooLate(turns: seq<Turn>, c: Loc, x: Loc)
    requires Answers(turns, c, x) && Free(turns, x)
    ensures c in PairingOf(turns) && Before(PairingOf(turns)[c], x)
  {
    LocsUpToAreRight(turns, Calls, |turns|, 0);
    hide LocsUpTo, Claims, PairingOf, Free;
    ClaimsSpec(turns, Locs(turns, Calls));
    ClaimedIsNotFree(turns, x);
    var k := ClaimOfCall(turns, c);
  }

  lemma PairingFacts(turns: seq<Turn>)
    ensures ValidPairing(turns, PairingOf(turns))
    ensures forall c, x :: Answers(turns, c, x) && Free(turns, x) ==>
              c in PairingOf(turns) && Before(PairingOf(turns)[c], x)
  {
    PairingIsValid(turns);
    forall c, x | Answers(turns, c, x) && Free(turns, x)
      ensures c in PairingOf(turns) && Before(PairingOf(turns)[c], x)
    {
      FreeComesTooLate(turns, c, x);
    }
  }

  lemma {:induction false} NotMoreThan(small: set<Loc>, large: set<Loc>, into: map<Loc, Loc>)
    requires small <= into.Keys
    requires forall a :: a in small ==> into[a] in large
    requires forall a, b :: a in small && b in small && a != b ==> into[a] != into[b]
    ensures |small| <= |large|
    decreases |small|
  {
    if small != {} {
      var a :| a in small;
      NotMoreThan(small - {a}, large - {into[a]}, into);
    }
  }

  // Call `c` is charged to itself when some later result it could take stays free, and
  // to the call that took its partner otherwise.
  ghost predicate Starved(turns: seq<Turn>, c: Loc) {
    exists x :: Answers(turns, c, x) && Free(turns, x)
  }

  ghost function TakerOf(turns: seq<Turn>, result: Loc): (c: Loc)
    requires !Free(turns, result)
    ensures c in PairingOf(turns) && PairingOf(turns)[c] == result
  {
    var c :| c in PairingOf(turns) && PairingOf(turns)[c] == result;
    c
  }

  lemma PairingIsMaximum(turns: seq<Turn>, m: map<Loc, Loc>)
    requires ValidPairing(turns, m)
    ensures ValidPairing(turns, PairingOf(turns))
    ensures |m.Keys| <= |PairingOf(turns).Keys|
  {
    PairingFacts(turns);
    var g := PairingOf(turns);
    forall c | c in m && !Starved(turns, c) ensures !Free(turns, m[c]) {
      assert Answers(turns, c, m[c]);
    }
    var charge := map c | c in m :: if Starved(turns, c) then c else TakerOf(turns, m[c]);
    forall c | c in m ensures charge[c] in g {
      if Starved(turns, c) {
        var x :| Answers(turns, c, x) && Free(turns, x);
      }
    }
    forall a, b | a in m && b in m && a != b ensures charge[a] != charge[b] {
      if Starved(turns, a) && !Starved(turns, b) {
        ChargesDiffer(turns, m, a, b);
      } else if !Starved(turns, a) && Starved(turns, b) {
        ChargesDiffer(turns, m, b, a);
      }
    }
    NotMoreThan(m.Keys, g.Keys, charge);
  }

  lemma ChargesDiffer(turns: seq<Turn>, m: map<Loc, Loc>, a: Loc, b: Loc)
    requires ValidPairing(turns, m) && a in m && b in m && a != b
    requires Starved(turns, a) && !Starved(turns, b) && !Free(turns, m[b])
    ensures TakerOf(turns, m[b]) != a
  {
    PairingFacts(turns);
    if TakerOf(turns, m[b]) == a {
      var x :| Answers(turns, a, x) && Free(turns, x);
      assert Before(m[b], x);
      assert Answers(turns, b, x);
    }
  }

  // ---- Nothing is lost -----------------------------------------------------------

  // The tool outputs a reader of the document can see.
  function Outputs(parts: seq<Part>): multiset<Unknown> {
    if parts == [] then multiset{}
    else
      var p := parts[|parts| - 1];
      Outputs(parts[..|parts| - 1]) +
      (if p.ToolResult? || (p.ToolExchange? && p.hasResult) then multiset{p.output} else multiset{})
  }

  function DocumentOutputs(turns: seq<Turn>): multiset<Unknown> {
    if turns == [] then multiset{}
    else DocumentOutputs(turns[..|turns| - 1]) + Outputs(turns[|turns| - 1].parts)
  }

  // What else is in a turn, part by part: an invocation, be it a call or the exchange it
  // became, or a part as it is.
  datatype Mark = Invoked(id: Option<string>, name: string, args: Unknown) | Same(part: Part)

  function MarkOf(p: Part): Mark {
    if p.ToolCall? || p.ToolExchange? then Invoked(p.id, p.name, p.args) else Same(p)
  }

  function Marks(parts: seq<Part>): seq<Mark> {
    if parts == [] then [] else Marks(parts[..|parts| - 1]) + [MarkOf(parts[|parts| - 1])]
  }

  // The marks of the first `pi` parts of a turn, without the results in `folded`.
  ghost function MarksWithout(turns: seq<Turn>, ti: nat, pi: nat, folded: set<Loc>): seq<Mark>
    requires ti < |turns| && pi <= |turns[ti].parts|
  {
    if pi == 0 then []
    else
      var p := turns[ti].parts[pi - 1];
      MarksWithout(turns, ti, pi - 1, folded) +
      if p.ToolResult? && Loc(ti, pi - 1) in folded then [] else [MarkOf(p)]
  }

  lemma {:induction false} OutputsConcat(a: seq<Part>, b: seq<Part>)
    ensures Outputs(a + b) == Outputs(a) + Outputs(b)
  {
    if b == [] {
      assert a + b == a;
    } else {
      assert (a + b)[..|a + b| - 1] == a + b[..|b| - 1];
      OutputsConcat(a, b[..|b| - 1]);
    }
  }

  // `after` has the marks of `before`, place by place, and no open call.
  ghost predicate SameRest(before: seq<Mark>, after: seq<Part>) {
    Marks(after) == before && forall i :: 0 <= i < |after| ==> !after[i].ToolCall?
  }

  lemma {:induction false} MarksNext(parts: seq<Part>, p: Part)
    ensures Marks(parts + [p]) == Marks(parts) + [MarkOf(p)]
  {
    assert (parts + [p])[..|parts|] == parts;
  }

  // A folded result is dropped, a call becomes its exchange, and other parts are kept.
  ghost predicate Replaces(p: Part, folded: bool, emitted: seq<Part>) {
    if p.ToolResult? && folded then emitted == []
    else |emitted| == 1 && MarkOf(emitted[0]) == MarkOf(p) && !emitted[0].ToolCall?
  }

  lemma EmitReplaces(turns: seq<Turn>, loc: Loc, claimed: map<Loc, Option<Loc>>, consumed: set<Loc>)
    requires InDocument(turns, loc)
    ensures Replaces(At(turns, loc), loc in consumed, Emit(turns, loc, claimed, consumed))
  {
  }

  lemma SameRestNext(before: seq<Mark>, after: seq<Part>, p: Part, folded: bool, emitted: seq<Part>)
    requires SameRest(before, after) && Replaces(p, folded, emitted)
    ensures SameRest(before + (if p.ToolResult? && folded then [] else [MarkOf(p)]), after + emitted)
  {
    hide Marks;
    if emitted == [] {
      assert after + emitted == after && before + [] == before;
    } else {
      assert emitted == [emitted[0]];
      MarksNext(after, emitted[0]);
    }
  }

  lemma {:induction false} PartsKeepTheRest(turns: seq<Turn>, ti: nat, pi: nat, claimed: map<Loc, Option<Loc>>,
                                            consumed: set<Loc>)
    requires ti < |turns| && pi <= |turns[ti].parts|
    ensures SameRest(MarksWithout(turns, ti, pi, consumed), PartsUpTo(turns, ti, pi, claimed, consumed))
  {
    if pi > 0 {
      hide SameRest, Emit, Replaces;
      PartsKeepTheRest(turns, ti, pi - 1, claimed, consumed);
      EmitReplaces(turns, Loc(ti, pi - 1), claimed, consumed);
      SameRestNext(MarksWithout(turns, ti, pi - 1, consumed), PartsUpTo(turns, ti, pi - 1, claimed, consumed),
                   turns[ti].parts[pi - 1], Loc(ti, pi - 1) in consumed,
                   Emit(turns, Loc(ti, pi - 1), claimed, consumed));
    }
  }

  lemma {:induction false} TurnsKeepTheRest(turns: seq<Turn>, n: nat, claimed: map<Loc, Option<Loc>>,
                                            consumed: set<Loc>, ti: nat)
    requires ti < n <= |turns|
    ensures var out := TurnsUpTo(turns, n, claimed, consumed);
            && out[ti] == turns[ti].(parts := out[ti].parts)
            && SameRest(MarksWithout(turns, ti, |turns[ti].parts|, consumed), out[ti].parts)
  {
    hide SameRest, MarksWithout, PartsUpTo;
    if ti == n - 1 {
      PartsKeepTheRest(turns, ti, |turns[ti].parts|, claimed, consumed);
    } else {
      TurnsKeepTheRest(turns, n - 1, claimed, consumed, ti);
    }
  }

  // Turns keep their place, and in each turn every part keeps its place: a call becomes
  // one exchange where it stood, a result that the pairing gave to a call is gone, and
  // everything else, results left over included, is there as it was.
  lemma {:induction false} PairingKeepsTheRest(turns: seq<Turn>, ti: nat)
    requires ti < |turns|
    ensures |Paired(turns)| == |turns|
    ensures var out := Paired(turns)[ti];
            && out == turns[ti].(parts := out.parts)
            && SameRest(MarksWithout(turns, ti, |turns[ti].parts|, PairingOf(turns).Values), out.parts)
  {
    hide LocsUpTo, Claims, PairingOf, SameRest, MarksWithout;
    var calls := Locs(turns, Calls);
    var claims := Claims(turns, calls);
    TurnsKeepTheRest(turns, |turns|, ClaimMap(calls, claims), Taken(claims), ti);
    forall x ensures x in Taken(claims) <==> x in PairingOf(turns).Values {
      ClaimedIsNotFree(turns, x);
    }
    assert Taken(claims) == PairingOf(turns).Values;
  }

  function OutputsOf(turns: seq<Turn>, locs: seq<Loc>): multiset<Unknown> {
    if locs == [] then multiset{}
    else OutputsOf(turns, locs[..|locs| - 1]) + multiset{OutputAt(turns, locs[|locs| - 1])}
  }

  lemma {:induction false} OutputsOfConcat(turns: seq<Turn>, a: seq<Loc>, b: seq<Loc>)
    ensures OutputsOf(turns, a + b) == OutputsOf(turns, a) + OutputsOf(turns, b)
  {
    if b == [] {
      assert a + b == a;
    } else {
      assert (a + b)[..|a + b| - 1] == a + b[..|b| - 1];
      OutputsOfConcat(turns, a, b[..|b| - 1]);
    }
  }

  lemma WithoutOne(locs: seq<Loc>, j: nat)
    requires j < |locs|
    ensures multiset(locs[..j] + locs[j + 1..]) == multiset(locs) - multiset{locs[j]}
  {
    assert locs == locs[..j] + [locs[j]] + locs[j + 1..];
  }

  lemma {:induction false} OutputsWithoutOne(turns: seq<Turn>, locs: seq<Loc>, j: nat)
    requires j < |locs|
    ensures OutputsOf(turns, locs) == OutputsOf(turns, locs[..j] + locs[j + 1..]) + OutputsOf(turns, [locs[j]])
  {
    hide OutputsOf;
    OutputsOfConcat(turns, locs[..j], locs[j + 1..]);
    OutputsOfConcat(turns, [locs[j]], locs[j + 1..]);
    OutputsOfConcat(turns, locs[..j], [locs[j]] + locs[j + 1..]);
    assert locs == locs[..j] + ([locs[j]] + locs[j + 1..]);
  }

  lemma SameMember(a: seq<Loc>, b: seq<Loc>) returns (j: nat)
    requires multiset(a) == multiset(b) && a != []
    ensures j < |b| && b[j] == a[0]
    ensures multiset(a[1..]) == multiset(b[..j] + b[j + 1..])
  {
    j := MemberAt(b, a[0], multiset(a));
    WithoutFirst(a);
    WithoutOne(b, j);
  }

  lemma WithoutFirst(locs: seq<Loc>)
    requires locs != []
    ensures multiset(locs[1..]) == multiset(locs) - multiset{locs[0]}
  {
    assert locs == [locs[0]] + locs[1..];
  }

  lemma MemberAt(b: seq<Loc>, x: Loc, members: multiset<Loc>) returns (j: nat)
    requires members == multiset(b) && x in members
    ensures j < |b| && b[j] == x
  {
    j :| 0 <= j < |b| && b[j] == x;
  }

  lemma {:induction false} OutputsOfPermutation(turns: seq<Turn>, a: seq<Loc>, b: seq<Loc>)
    requires multiset(a) == multiset(b)
    ensures OutputsOf(turns, a) == OutputsOf(turns, b)
    decreases |a|
  {
    hide OutputsOf;
    if a == [] {
      assert |multiset(b)| == |b|;
    } else {
      var j := SameMember(a, b);
      OutputsOfPermutation(turns, a[1..], b[..j] + b[j + 1..]);
      OutputsWithoutOne(turns, a, 0);
      OutputsWithoutOne(turns, b, j);
      assert a[..0] + a[0 + 1..] == a[1..];
    }
  }

  // Results left in place before (ti, pi), and results given to calls before (ti, pi).
  function KeptUpTo(locs: seq<Loc>, consumed: set<Loc>): seq<Loc> {
    if locs == [] then []
    else KeptUpTo(locs[..|locs| - 1], consumed) + (if locs[|locs| - 1] in consumed then [] else [locs[|locs| - 1]])
  }

  function GivenTo(calls: seq<Loc>, claimed: map<Loc, Option<Loc>>): seq<Loc> {
    if calls == [] then []
    else
      var c := calls[|calls| - 1];
      GivenTo(calls[..|calls| - 1], claimed) +
      (if c in claimed && claimed[c].Some? then [claimed[c].value] else [])
  }

  // Outputs already paired before this pass ran.
  function PairedBefore(turns: seq<Turn>, ti: nat, pi: nat): multiset<Unknown>
    requires ValidPosition(turns, ti, pi)
    decreases ti, pi
  {
    if pi > 0 then
      var p := turns[ti].parts[pi - 1];
      PairedBefore(turns, ti, pi - 1) + (if p.ToolExchange? && p.hasResult then multiset{p.output} else multiset{})
    else if ti > 0 then PairedBefore(turns, ti - 1, |turns[ti - 1].parts|)
    else multiset{}
  }

  lemma {:induction false} OutputsOfNext(turns: seq<Turn>, locs: seq<Loc>, here: Loc)
    ensures OutputsOf(turns, locs + [here]) == OutputsOf(turns, locs) + multiset{OutputAt(turns, here)}
  {
    assert (locs + [here])[..|locs|] == locs;
  }

  lemma {:induction false} KeptNext(locs: seq<Loc>, here: Loc, consumed: set<Loc>)
    ensures KeptUpTo(locs + [here], consumed) == KeptUpTo(locs, consumed) + (if here in consumed then [] else [here])
  {
    assert (locs + [here])[..|locs|] == locs;
  }

  lemma {:induction false} GivenNext(calls: seq<Loc>, here: Loc, claimed: map<Loc, Option<Loc>>)
    ensures GivenTo(calls + [here], claimed) ==
            GivenTo(calls, claimed) + (if here in claimed && claimed[here].Some? then [claimed[here].value] else [])
  {
    assert (calls + [here])[..|calls|] == calls;
  }

  function ResultOutput(turns: seq<Turn>, here: Loc): multiset<Unknown>
    requires InDocument(turns, here)
  {
    if At(turns, here).ToolResult? then multiset{OutputAt(turns, here)} else multiset{}
  }

  function OldExchangeOutput(turns: seq<Turn>, here: Loc): multiset<Unknown>
    requires InDocument(turns, here)
  {
    var p := At(turns, here);
    if p.ToolExchange? && p.hasResult then multiset{p.output} else multiset{}
  }

  lemma {:induction false} OutputsNext(parts: seq<Part>, p: Part)
    ensures Outputs(parts + [p]) == Outputs(parts) +
            (if p.ToolResult? || (p.ToolExchange? && p.hasResult) then multiset{p.output} else multiset{})
  {
    assert (parts + [p])[..|parts|] == parts;
  }

  ghost predicate InputsAgree(turns: seq<Turn>, ti: nat, pi: nat)
    requires ValidPosition(turns, ti, pi)
  {
    DocumentOutputs(turns[..ti]) + (if ti < |turns| then Outputs(turns[ti].parts[..pi]) else multiset{})
    == OutputsOf(turns, LocsUpTo(turns, AnyResult, ti, pi)) + PairedBefore(turns, ti, pi)
  }

  lemma NextLocs(turns: seq<Turn>, want: Want, ti: nat, pi: nat)
    requires ti < |turns| && pi < |turns[ti].parts|
    ensures var here := LocsUpTo(turns, want, ti, pi);
            LocsUpTo(turns, want, ti, pi + 1) ==
            if Wanted(turns[ti].parts[pi], want) then here + [Loc(ti, pi)] else here
    ensures PairedBefore(turns, ti, pi + 1) == PairedBefore(turns, ti, pi) + OldExchangeOutput(turns, Loc(ti, pi))
  {
  }

  // Adding the same outputs to both sides of a sum.
  lemma Regroup(a: multiset<Unknown>, b: multiset<Unknown>, kept: multiset<Unknown>, given: multiset<Unknown>,
                prior: multiset<Unknown>, k: multiset<Unknown>, g: multiset<Unknown>, o: multiset<Unknown>)
    requires a + b == kept + given + prior
    ensures a + (b + (g + k + o)) == (kept + k) + (given + g) + (prior + o)
  {
    assert a + (b + (g + k + o)) == (a + b) + (g + k + o);
    assert (kept + k) + (given + g) + (prior + o) == (kept + given + prior) + (g + k + o);
  }

  lemma RegroupTwo(a: multiset<Unknown>, b: multiset<Unknown>, c: multiset<Unknown>, d: multiset<Unknown>,
                   x: multiset<Unknown>, y: multiset<Unknown>)
    requires a + b == c + d
    ensures a + (b + (x + y)) == (c + x) + (d + y)
  {
    assert a + (b + (x + y)) == (a + b) + (x + y);
    assert (c + x) + (d + y) == (c + d) + (x + y);
  }

  lemma InputsAgreeNext(turns: seq<Turn>, ti: nat, pi: nat)
    requires ti < |turns| && pi < |turns[ti].parts| && InputsAgree(turns, ti, pi)
    ensures InputsAgree(turns, ti, pi + 1)
  {
    hide Outputs, OutputsOf, DocumentOutputs, LocsUpTo, PairedBefore;
    var here, results := Loc(ti, pi), LocsUpTo(turns, AnyResult, ti, pi);
    assert turns[ti].parts[..pi + 1] == turns[ti].parts[..pi] + [At(turns, here)];
    OutputsNext(turns[ti].parts[..pi], At(turns, here));
    OutputsOfNext(turns, results, here);
    NextLocs(turns, AnyResult, ti, pi);
    var added := ResultOutput(turns, here) + OldExchangeOutput(turns, here);
    assert Outputs(turns[ti].parts[..pi + 1]) == Outputs(turns[ti].parts[..pi]) + added;
    assert OutputsOf(turns, LocsUpTo(turns, AnyResult, ti, pi + 1))
        == OutputsOf(turns, results) + ResultOutput(turns, here);
    RegroupTwo(DocumentOutputs(turns[..ti]), Outputs(turns[ti].parts[..pi]), OutputsOf(turns, results),
               PairedBefore(turns, ti, pi), ResultOutput(turns, here), OldExchangeOutput(turns, here));
  }

  lemma InputsAgreeNextTurn(turns: seq<Turn>, ti: nat)
    requires ti < |turns| && InputsAgree(turns, ti, |turns[ti].parts|)
    ensures InputsAgree(turns, ti + 1, 0)
  {
    assert turns[..ti + 1][..ti] == turns[..ti];
    assert turns[ti].parts[..|turns[ti].parts|] == turns[ti].parts;
    assert Outputs([]) == multiset{};
  }

  lemma {:induction false} InputOutputs(turns: seq<Turn>, ti: nat, pi: nat)
    requires ValidPosition(turns, ti, pi)
    ensures InputsAgree(turns, ti, pi)
    decreases ti, pi
  {
    if pi > 0 {
      hide InputsAgree;
      InputOutputs(turns, ti, pi - 1);
      InputsAgreeNext(turns, ti, pi - 1);
    } else if ti > 0 {
      hide InputsAgree;
      InputOutputs(turns, ti - 1, |turns[ti - 1].parts|);
      InputsAgreeNextTurn(turns, ti - 1);
    } else {
      assert turns[..0] == [] && Outputs([]) == multiset{};
    }
  }

  lemma EmitOutputs(turns: seq<Turn>, here: Loc, claimed: map<Loc, Option<Loc>>, consumed: set<Loc>)
    requires InDocument(turns, here)
    ensures Outputs(Emit(turns, here, claimed, consumed)) ==
            ClaimOutput(turns, here, claimed) + KeptOutput(turns, here, consumed) + OldExchangeOutput(turns, here)
  {
    var parts := Emit(turns, here, claimed, consumed);
    if parts != [] {
      OutputsNext([], parts[0]);
      assert parts == [] + [parts[0]];
    }
    assert Outputs([]) == multiset{};
  }

  ghost predicate OutputsAgree(turns: seq<Turn>, ti: nat, pi: nat, claimed: map<Loc, Option<Loc>>, consumed: set<Loc>)
    requires ValidPosition(turns, ti, pi)
  {
    DocumentOutputs(TurnsUpTo(turns, ti, claimed, consumed)) +
    (if ti < |turns| then Outputs(PartsUpTo(turns, ti, pi, claimed, consumed)) else multiset{})
    == OutputsOf(turns, KeptUpTo(LocsUpTo(turns, AnyResult, ti, pi), consumed)) +
       OutputsOf(turns, GivenTo(LocsUpTo(turns, Calls, ti, pi), claimed)) + PairedBefore(turns, ti, pi)
  }

  function ClaimOutput(turns: seq<Turn>, here: Loc, claimed: map<Loc, Option<Loc>>): multiset<Unknown>
    requires InDocument(turns, here)
  {
    if At(turns, here).ToolCall? && here in claimed && claimed[here].Some?
    then multiset{OutputAt(turns, claimed[here].value)} else multiset{}
  }

  function KeptOutput(turns: seq<Turn>, here: Loc, consumed: set<Loc>): multiset<Unknown>
    requires InDocument(turns, here)
  {
    if here in consumed then multiset{} else ResultOutput(turns, here)
  }

  lemma KeptOutputs(turns: seq<Turn>, ti: nat, pi: nat, consumed: set<Loc>)
    requires ti < |turns| && pi < |turns[ti].parts|
    ensures OutputsOf(turns, KeptUpTo(LocsUpTo(turns, AnyResult, ti, pi + 1), consumed)) ==
            OutputsOf(turns, KeptUpTo(LocsUpTo(turns, AnyResult, ti, pi), consumed)) +
                KeptOutput(turns, Loc(ti, pi), consumed)
  {
    hide OutputsOf, KeptUpTo, LocsUpTo;
    var here, results := Loc(ti, pi), LocsUpTo(turns, AnyResult, ti, pi);
    NextLocs(turns, AnyResult, ti, pi);
    KeptNext(results, here, consumed);
    OutputsOfNext(turns, KeptUpTo(results, consumed), here);
    assert KeptUpTo(results, consumed) + [] == KeptUpTo(results, consumed);
  }

  lemma GivenOutputs(turns: seq<Turn>, ti: nat, pi: nat, claimed: map<Loc, Option<Loc>>)
    requires ti < |turns| && pi < |turns[ti].parts|
    ensures OutputsOf(turns, GivenTo(LocsUpTo(turns, Calls, ti, pi + 1), claimed)) ==
            OutputsOf(turns, GivenTo(LocsUpTo(turns, Calls, ti, pi), claimed)) +
                ClaimOutput(turns, Loc(ti, pi), claimed)
  {
    hide OutputsOf, GivenTo, LocsUpTo;
    var here, calls := Loc(ti, pi), LocsUpTo(turns, Calls, ti, pi);
    NextLocs(turns, Calls, ti, pi);
    GivenNext(calls, here, claimed);
    assert GivenTo(calls, claimed) + [] == GivenTo(calls, claimed);
    if here in claimed && claimed[here].Some? {
      OutputsOfNext(turns, GivenTo(calls, claimed), claimed[here].value);
    }
  }

  lemma OutputsAgreeNext(turns: seq<Turn>, ti: nat, pi: nat, claimed: map<Loc, Option<Loc>>, consumed: set<Loc>)
    requires ti < |turns| && pi < |turns[ti].parts| && OutputsAgree(turns, ti, pi, claimed, consumed)
    ensures OutputsAgree(turns, ti, pi + 1, claimed, consumed)
  {
    hide Outputs, OutputsOf, DocumentOutputs, KeptUpTo, GivenTo, Emit, LocsUpTo, PairedBefore,
         ClaimOutput, KeptOutput, OldExchangeOutput;
    OutputsConcat(PartsUpTo(turns, ti, pi, claimed, consumed), Emit(turns, Loc(ti, pi), claimed, consumed));
    EmitOutputs(turns, Loc(ti, pi), claimed, consumed);
    KeptOutputs(turns, ti, pi, consumed);
    GivenOutputs(turns, ti, pi, claimed);
    NextLocs(turns, Calls, ti, pi);
    Regroup(DocumentOutputs(TurnsUpTo(turns, ti, claimed, consumed)),
            Outputs(PartsUpTo(turns, ti, pi, claimed, consumed)),
            OutputsOf(turns, KeptUpTo(LocsUpTo(turns, AnyResult, ti, pi), consumed)),
            OutputsOf(turns, GivenTo(LocsUpTo(turns, Calls, ti, pi), claimed)),
            PairedBefore(turns, ti, pi),
            KeptOutput(turns, Loc(ti, pi), consumed), ClaimOutput(turns, Loc(ti, pi), claimed),
            OldExchangeOutput(turns, Loc(ti, pi)));
  }

  lemma OutputsAgreeNextTurn(turns: seq<Turn>, ti: nat, claimed: map<Loc, Option<Loc>>, consumed: set<Loc>)
    requires ti < |turns| && OutputsAgree(turns, ti, |turns[ti].parts|, claimed, consumed)
    ensures OutputsAgree(turns, ti + 1, 0, claimed, consumed)
  {
    hide OutputsOf, KeptUpTo, GivenTo, Emit;
    var out := TurnsUpTo(turns, ti + 1, claimed, consumed);
    assert out[..ti] == TurnsUpTo(turns, ti, claimed, consumed);
    assert Outputs([]) == multiset{};
  }

  lemma {:induction false} OutputOutputs(turns: seq<Turn>, ti: nat, pi: nat, claimed: map<Loc, Option<Loc>>,
                                         consumed: set<Loc>)
    requires ValidPosition(turns, ti, pi)
    ensures OutputsAgree(turns, ti, pi, claimed, consumed)
    decreases ti, pi
  {
    hide OutputsAgree;
    if pi > 0 {
      OutputOutputs(turns, ti, pi - 1, claimed, consumed);
      OutputsAgreeNext(turns, ti, pi - 1, claimed, consumed);
    } else if ti > 0 {
      OutputOutputs(turns, ti - 1, |turns[ti - 1].parts|, claimed, consumed);
      OutputsAgreeNextTurn(turns, ti - 1, claimed, consumed);
    } else {
      NoOutputsYet(turns, claimed, consumed);
    }
  }

  lemma NoOutputsYet(turns: seq<Turn>, claimed: map<Loc, Option<Loc>>, consumed: set<Loc>)
    ensures OutputsAgree(turns, 0, 0, claimed, consumed)
  {
    assert Outputs([]) == multiset{};
  }

  ghost predicate NoDuplicates(locs: seq<Loc>) {
    forall i, j :: 0 <= i < j < |locs| ==> locs[i] != locs[j]
  }

  lemma {:induction false} CountOf(locs: seq<Loc>, x: Loc)
    requires NoDuplicates(locs)
    ensures multiset(locs)[x] == if x in locs then 1 else 0
  {
    if locs != [] {
      var n := |locs| - 1;
      CountOf(locs[..n], x);
      assert locs == locs[..n] + [locs[n]];
    }
  }

  lemma {:induction false} KeptAre(locs: seq<Loc>, consumed: set<Loc>)
    requires NoDuplicates(locs)
    ensures NoDuplicates(KeptUpTo(locs, consumed))
    ensures forall x :: x in KeptUpTo(locs, consumed) <==> x in locs && x !in consumed
  {
    if locs != [] {
      var n := |locs| - 1;
      KeptAre(locs[..n], consumed);
      assert locs == locs[..n] + [locs[n]];
    }
  }

  lemma {:induction false} GivenAre(calls: seq<Loc>, claimed: map<Loc, Option<Loc>>)
    requires NoDuplicates(calls)
    requires forall c, d :: c in claimed && d in claimed && c != d && claimed[c].Some? ==> claimed[c] != claimed[d]
    ensures NoDuplicates(GivenTo(calls, claimed))
    ensures forall x :: x in GivenTo(calls, claimed) <==>
            exists c :: c in calls && c in claimed && claimed[c] == Some(x)
  {
    if calls != [] {
      var n := |calls| - 1;
      GivenAre(calls[..n], claimed);
      assert calls == calls[..n] + [calls[n]];
    }
  }

  // No tool output disappears and none is shown twice: what a reader sees before and
  // after the pass is the same bag of outputs.
  lemma {:induction false} PairingKeepsEveryOutput(turns: seq<Turn>)
    ensures DocumentOutputs(Paired(turns)) == DocumentOutputs(turns)
  {
    hide DocumentOutputs, Outputs, OutputsOf, KeptUpTo, GivenTo, ClaimMap, Claims, LocsUpTo, TurnsUpTo, PairedBefore,
        Taken;
    var n := |turns|;
    var calls, results := Locs(turns, Calls), Locs(turns, AnyResult);
    var claims := Claims(turns, calls);
    var claimed, consumed := ClaimMap(calls, claims), Taken(claims);
    InputOutputs(turns, n, 0);
    OutputOutputs(turns, n, 0, claimed, consumed);
    assert turns[..n] == turns;
    var kept, given := KeptUpTo(results, consumed), GivenTo(calls, claimed);
    KeptAndGivenAreAll(turns);
    OutputsOfPermutation(turns, results, kept + given);
    OutputsOfConcat(turns, kept, given);
    assert DocumentOutputs(turns) == OutputsOf(turns, kept) + OutputsOf(turns, given) + PairedBefore(turns, n, 0);
    assert DocumentOutputs(TurnsUpTo(turns, n, claimed, consumed))
        == OutputsOf(turns, kept) + OutputsOf(turns, given) + PairedBefore(turns, n, 0);
  }

  lemma {:induction false} KeptAndGivenAreAll(turns: seq<Turn>)
    ensures var calls := Locs(turns, Calls);
            var claims := Claims(turns, calls);
            multiset(Locs(turns, AnyResult)) ==
            multiset(KeptUpTo(Locs(turns, AnyResult), Taken(claims)) + GivenTo(calls, ClaimMap(calls, claims)))
  {
    var calls, results := Locs(turns, Calls), Locs(turns, AnyResult);
    var claims := Claims(turns, calls);
    var claimed, consumed, g := ClaimMap(calls, claims), Taken(claims), PairingOf(turns);
    LocsUpToAreRight(turns, Calls, |turns|, 0);
    LocsUpToAreRight(turns, AnyResult, |turns|, 0);
    PairingFacts(turns);
    ClaimMapSpec(calls, claims);
    var kept, given := KeptUpTo(results, consumed), GivenTo(calls, claimed);
    forall c, d | c in claimed && d in claimed && c != d && claimed[c].Some? ensures claimed[c] != claimed[d] {
      if claimed[d].Some? {
        assert c in g && d in g;
      }
    }
    KeptAre(results, consumed);
    GivenAre(calls, claimed);
    forall x ensures multiset(results)[x] == multiset(kept + given)[x] {
      CountOf(results, x);
      CountOf(kept, x);
      CountOf(given, x);
      ClaimedIsNotFree(turns, x);
      GivenIsNotFree(turns, x);
      assert multiset(kept + given) == multiset(kept) + multiset(given);
    }
  }

  lemma {:induction false} GivenIsNotFree(turns: seq<Turn>, x: Loc)
    ensures var calls := Locs(turns, Calls);
            var claimed := ClaimMap(calls, Claims(turns, calls));
            (exists c :: c in calls && c in claimed && claimed[c] == Some(x)) <==> !Free(turns, x)
    ensures !Free(turns, x) ==> x in Locs(turns, AnyResult)
  {
    hide LocsUpTo, Claims, ClaimMap, Rising;
    var calls, g := Locs(turns, Calls), PairingOf(turns);
    var claims := Claims(turns, calls);
    var claimed := ClaimMap(calls, claims);
    LocsUpToAreRight(turns, Calls, |turns|, 0);
    LocsUpToAreRight(turns, AnyResult, |turns|, 0);
    ClaimMapSpec(calls, claims);
    PairingFacts(turns);
    if c :| c in calls && c in claimed && claimed[c] == Some(x) {
      assert c in g && g[c] == x;
    }
    if !Free(turns, x) {
      var c :| c in g && g[c] == x;
      assert c in claimed && claimed[c] == Some(x);
      assert Answers(turns, c, x);
    }
  }

  // The exchange that replaces a call carries the result the pairing gave it.
  lemma {:induction false} ExchangeCarriesItsResult(turns: seq<Turn>, c: Loc)
    requires InDocument(turns, c) && At(turns, c).ToolCall?
    ensures var claims := Claims(turns, Locs(turns, Calls));
            var g, p := PairingOf(turns), At(turns, c);
            Emit(turns, c, ClaimMap(Locs(turns, Calls), claims), Taken(claims)) ==
            [ToolExchange(p.id, p.name, p.args, c in g, if c in g then OutputAt(turns, g[c]) else Some(Null))]
  {
    LocsUpToAreRight(turns, Calls, |turns|, 0);
    ClaimMapSpec(Locs(turns, Calls), Claims(turns, Locs(turns, Calls)));
    var k := ClaimOfCall(turns, c);
  }

  // ---- Dropping what has nothing to show -----------------------------------------

  predicate IsEmptyPart(p: Part) {
    match p
    case Text(text) => Texts.IsBlank(text)
    case Reasoning(text) => Texts.IsBlank(text)
    case Image(url) => url == ""
    case Other(value) => value == None || value == Some(Null) || value == Some(Str(""))
    case _ => false
  }

  function NonEmptyParts(parts: seq<Part>): seq<Part> {
    if parts == [] then []
    else
      var p := parts[|parts| - 1];
      NonEmptyParts(parts[..|parts| - 1]) + (if IsEmptyPart(p) then [] else [p])
  }

  function Cleaned(turns: seq<Turn>): seq<Turn> {
    if turns == [] then []
    else
      var turn := turns[|turns| - 1];
      var parts := NonEmptyParts(turn.parts);
      Cleaned(turns[..|turns| - 1]) + (if parts == [] then [] else [turn.(parts := parts)])
  }

  method CleanTurns(turns: seq<Turn>) returns (out: seq<Turn>)
    ensures out == Cleaned(turns)
  {
    out := [];
    for i := 0 to |turns|
      invariant out == Cleaned(turns[..i])
    {
      assert turns[..i + 1][..i] == turns[..i];
      var parts := NonEmptyParts(turns[i].parts);
      if parts == [] { continue; }
      out := out + [turns[i].(parts := parts)];
    }
    assert turns[..|turns|] == turns;
  }

  lemma TakeNext(parts: seq<Part>, i: nat)
    requires 0 < i <= |parts|
    ensures parts[..i] == parts[..i - 1] + [parts[i - 1]]
  {
  }

  lemma {:induction false} CleaningPartsKeepsOutputs(parts: seq<Part>)
    ensures Outputs(NonEmptyParts(parts)) == Outputs(parts)
  {
    if parts != [] {
      var n := |parts| - 1;
      assert IsEmptyPart(parts[n]) ==> !parts[n].ToolResult? && !parts[n].ToolExchange?;
      hide Outputs, IsEmptyPart;
      CleaningPartsKeepsOutputs(parts[..n]);
      OutputsNext(parts[..n], parts[n]);
      TakeNext(parts, |parts|);
      assert parts[..|parts|] == parts;
      OutputsNext(NonEmptyParts(parts[..n]), parts[n]);
      assert NonEmptyParts(parts[..n]) + [] == NonEmptyParts(parts[..n]);
    }
  }

  lemma {:induction false} DocumentOutputsNext(turns: seq<Turn>, turn: Turn)
    ensures DocumentOutputs(turns + [turn]) == DocumentOutputs(turns) + Outputs(turn.parts)
  {
    assert (turns + [turn])[..|turns|] == turns;
  }

  lemma NoPartsNoOutputs()
    ensures Outputs([]) == multiset{}
  {
  }

  lemma {:induction false} CleaningKeepsEveryOutput(turns: seq<Turn>)
    ensures DocumentOutputs(Cleaned(turns)) == DocumentOutputs(turns)
  {
    hide DocumentOutputs, NonEmptyParts, Outputs;
    if turns != [] {
      var n := |turns| - 1;
      var before, parts := Cleaned(turns[..n]), NonEmptyParts(turns[n].parts);
      CleaningKeepsEveryOutput(turns[..n]);
      CleaningPartsKeepsOutputs(turns[n].parts);
      assert turns == turns[..n] + [turns[n]];
      DocumentOutputsNext(turns[..n], turns[n]);
      DocumentOutputsNext(before, turns[n].(parts := parts));
      NoPartsNoOutputs();
      assert before + [] == before;
    }
  }

  // A part with something to show: a character that is no white space, an address, a
  // value; calls, results and exchanges always.
  predicate HasSignal(p: Part) {
    match p
    case Text(text) => exists i :: 0 <= i < |text| && !Texts.IsSpace(text[i])
    case Reasoning(text) => exists i :: 0 <= i < |text| && !Texts.IsSpace(text[i])
    case Image(url) => |url| > 0
    case Other(value) => value.Some? && !value.value.Null? && (value.value.Str? ==> |value.value.text| > 0)
    case _ => true
  }

  lemma EmptyPartHasNoSignal(p: Part)
    ensures IsEmptyPart(p) <==> !HasSignal(p)
  {
    if p.Text? || p.Reasoning? { Texts.BlankIsAllSpace(p.text); }
  }

  // Who said what, part by part: everything, and everything with something to show.
  datatype Said = Said(role: Role, origin: Origin, part: Part)

  function AllSaid(turn: Turn, n: nat, shown: Part -> bool): seq<Said>
    requires n <= |turn.parts|
  {
    if n == 0 then []
    else
      var p := turn.parts[n - 1];
      AllSaid(turn, n - 1, shown) + if shown(p) then [Said(turn.role, turn.origin, p)] else []
  }

  function Transcript(turns: seq<Turn>, shown: Part -> bool): seq<Said> {
    if turns == [] then []
    else
      var turn := turns[|turns| - 1];
      Transcript(turns[..|turns| - 1], shown) + AllSaid(turn, |turn.parts|, shown)
  }

  lemma {:induction false} AllSaidOfPrefix(turn: Turn, parts: seq<Part>, n: nat, shown: Part -> bool)
    requires n <= |turn.parts| && n <= |parts| && turn.parts[..n] == parts[..n]
    ensures AllSaid(turn, n, shown) == AllSaid(turn.(parts := parts), n, shown)
  {
    if n > 0 {
      assert turn.parts[n - 1] == turn.parts[..n][n - 1] && parts[n - 1] == parts[..n][n - 1];
      assert turn.parts[..n - 1] == turn.parts[..n][..n - 1] && parts[..n - 1] == parts[..n][..n - 1];
      AllSaidOfPrefix(turn, parts, n - 1, shown);
    }
  }

  lemma {:induction false} CleanedTurnSaysTheSame(turn: Turn, n: nat)
    requires n <= |turn.parts|
    ensures var kept := NonEmptyParts(turn.parts[..n]);
            AllSaid(turn.(parts := kept), |kept|, _ => true) == AllSaid(turn, n, HasSignal)
  {
    hide HasSignal, IsEmptyPart;
    if n == 0 {
      assert turn.parts[..0] == [];
    } else {
      var before, kept := NonEmptyParts(turn.parts[..n - 1]), NonEmptyParts(turn.parts[..n]);
      assert turn.parts[..n][..n - 1] == turn.parts[..n - 1];
      CleanedTurnSaysTheSame(turn, n - 1);
      EmptyPartHasNoSignal(turn.parts[n - 1]);
      assert kept[..|before|] == before;
      AllSaidOfPrefix(turn.(parts := before), kept, |before|, _ => true);
    }
  }

  // Cleaning keeps, in order and by the same speaker, everything with something to show,
  // and leaves no turn without parts.
  lemma {:induction false} CleaningKeepsEverySignal(turns: seq<Turn>)
    ensures Transcript(Cleaned(turns), _ => true) == Transcript(turns, HasSignal)
    ensures forall turn :: turn in Cleaned(turns) ==> turn.parts != []
  {
    hide HasSignal, NonEmptyParts, AllSaid;
    if turns != [] {
      var n := |turns| - 1;
      var before, kept := Cleaned(turns[..n]), NonEmptyParts(turns[n].parts);
      CleaningKeepsEverySignal(turns[..n]);
      CleanedTurnSaysTheSame(turns[n], |turns[n].parts|);
      assert turns[n].parts[..|turns[n].parts|] == turns[n].parts;
      if kept == [] {
        NothingSaid(turns[n].(parts := kept), _ => true);
        assert before + [] == before && Transcript(turns[..n], HasSignal) + [] == Transcript(turns[..n], HasSignal);
      } else {
        assert (before + [turns[n].(parts := kept)])[..|before|] == before;
      }
    }
  }

  lemma {:induction false} NothingSaid(turn: Turn, shown: Part -> bool)
    ensures AllSaid(turn, 0, shown) == []
  {
  }

  // The whole pass that ends extractConversation.
  lemma {:induction false} TranscriptKeepsEveryOutput(turns: seq<Turn>)
    ensures DocumentOutputs(Cleaned(Paired(turns))) == DocumentOutputs(turns)
  {
    PairingKeepsEveryOutput(turns);
    CleaningKeepsEveryOutput(Paired(turns));
  }
}
