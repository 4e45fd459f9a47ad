// The number of Responses sockets the bridge lets in (onUpgrade and close in
// installResponsesWebSocketBridge, apps/gateway/src/responses-websocket.ts). The
// WebSocket server's client set and the set of running preflights are counted apart; an
// upgrade is in both from its handshake until its preflight settles.
module UpgradeCapacity {

  // Upgrade requests are numbered by arrival. `stage` of a preflight in progress tells
  // whether its handshake was already tried.
  datatype State = State(preflights: map<nat, bool>, clients: set<nat>, seen: nat, refused: set<nat>, closed: bool)

  const EMPTY := State(map[], {}, 0, {}, false)

  datatype Event =
    | Upgrade
    | PreflightPassed(id: nat, handshakes: bool)   // the .then handler; a handshake may still fail
    | PreflightSettled(id: nat)                    // the .finally handler
    | ClientGone(id: nat)
    | Close

  function Upgraded(s: State, cap: nat): State {
    if s.closed then s
    else
      var t := s.(seen := s.seen + 1);
      if |s.clients| + |s.preflights| >= cap then t.(refused := t.refused + {s.seen})
      else t.(preflights := t.preflights[s.seen := false])
  }

  function Passed(s: State, id: nat, handshakes: bool): State {
    if id !in s.preflights || s.preflights[id] then s
    else
      var t := s.(preflights := s.preflights[id := true]);
      if handshakes && !s.closed then t.(clients := t.clients + {id}) else t
  }

  function Step(s: State, e: Event, cap: nat): State {
    match e
    case Upgrade => Upgraded(s, cap)
    case PreflightPassed(id, handshakes) => Passed(s, id, handshakes)
    case PreflightSettled(id) => s.(preflights := s.preflights - {id})
    case ClientGone(id) => s.(clients := s.clients - {id})
    case Close => s.(closed := true)
  }

  function Run(events: seq<Event>, cap: nat): State {
    if events == [] then EMPTY
    else Step(Run(events[..|events| - 1], cap), events[|events| - 1], cap)
  }

  class Bridge {
    const cap: nat
    var preflights: map<nat, bool>
    var clients: set<nat>
    var seen: nat
    var refused: set<nat>
    var closed: bool

    ghost function View(): State
      reads this
    {
      State(preflights, clients, seen, refused, closed)
    }

    // The configured limit is floored and at least 1.
    constructor (maxPreflightRequests: real)
      ensures cap >= 1 && (maxPreflightRequests >= 1.0 ==> cap == maxPreflightRequests.Floor)
      ensures View() == EMPTY
    {
      cap := if maxPreflightRequests.Floor < 1 then 1 else maxPreflightRequests.Floor;
      preflights, clients, seen, refused, closed := map[], {}, 0, {}, false;
    }

    method OnUpgrade()
      modifies this
      ensures View() == Upgraded(old(View()), cap)
    {
      if closed { return; }
      var id := seen;
      seen := seen + 1;
      if |clients| + |preflights| >= cap {
        refused := refused + {id};
        return;
      }
      preflights := preflights[id := false];
    }

    method OnPreflightPassed(id: nat, handshakes: bool)
      modifies this
      ensures View() == Passed(old(View()), id, handshakes)
    {
      if id !in preflights || preflights[id] { return; }
      preflights := preflights[id := true];
      if closed || !handshakes { return; }
      clients := clients + {id};
    }

    method OnPreflightSettled(id: nat)
      modifies this`preflights
      ensures View() == Step(old(View()), PreflightSettled(id), cap)
    {
      preflights := preflights - {id};
    }
  }

  // The upgrades that hold a socket or may still get one.
  function Admitted(s: State): set<nat> {
    s.preflights.Keys + s.clients
  }

  ghost predicate Inv(s: State, cap: nat) {
    && |Admitted(s)| <= cap
    && (forall id :: id in Admitted(s) || id in s.refused ==> id < s.seen)
    && Admitted(s) !! s.refused
    // An upgrade counted twice has had its handshake.
    && (forall id :: id in s.preflights && id in s.clients ==> s.preflights[id])
  }

  lemma UnionIsSmaller(a: set<nat>, b: set<nat>)
    ensures |a + b| <= |a| + |b|
  {
    assert a + b == a + (b - a);
    Shrink(b - a, b);
  }

  lemma Shrink(a: set<nat>, b: set<nat>)
    requires a <= b
    ensures |a| <= |b|
  {
    assert b == a + (b - a);
  }

  lemma RoomForOneMore(s: State, cap: nat)
    ensures |s.clients| + |s.preflights| < cap ==> |Admitted(s)| < cap
  {
    assert |s.preflights| == |s.preflights.Keys|;
    UnionIsSmaller(s.preflights.Keys, s.clients);
  }

  lemma RefusedKeepsInv(s: State, cap: nat)
    requires Inv(s, cap)
    ensures Inv(s.(seen := s.seen + 1, refused := s.refused + {s.seen}), cap)
  {
  }

  lemma StartedKeepsInv(s: State, cap: nat)
    requires Inv(s, cap) && |Admitted(s)| < cap
    ensures Inv(s.(seen := s.seen + 1, preflights := s.preflights[s.seen := false]), cap)
  {
    var t := s.(seen := s.seen + 1, preflights := s.preflights[s.seen := false]);
    assert Admitted(t) == Admitted(s) + {s.seen};
  }

  lemma UpgradedKeepsInv(s: State, cap: nat)
    requires Inv(s, cap)
    ensures Inv(Upgraded(s, cap), cap)
  {
    hide Inv, Admitted;
    RoomForOneMore(s, cap);
    RefusedKeepsInv(s, cap);
    if |s.clients| + |s.preflights| < cap { StartedKeepsInv(s, cap); }
  }

  lemma PassedKeepsInv(s: State, id: nat, handshakes: bool, cap: nat)
    requires Inv(s, cap)
    ensures Inv(Passed(s, id, handshakes), cap)
  {
    assert Admitted(Passed(s, id, handshakes)) == Admitted(s);
  }

  lemma LeavingKeepsInv(s: State, t: State, cap: nat)
    requires Inv(s, cap) && t.seen == s.seen && t.refused == s.refused
    requires t.clients <= s.clients && t.preflights.Keys <= s.preflights.Keys
    requires forall id :: id in t.preflights ==> t.preflights[id] == s.preflights[id]
    ensures Inv(t, cap)
  {
    assert Admitted(t) <= Admitted(s);
    Shrink(Admitted(t), Admitted(s));
  }

  lemma StepKeepsInv(s: State, e: Event, cap: nat)
    requires Inv(s, cap)
    ensures Inv(Step(s, e, cap), cap)
  {
    hide Inv, Upgraded, Passed;
    match e
    case Upgrade => UpgradedKeepsInv(s, cap);
    case PreflightPassed(id, handshakes) => PassedKeepsInv(s, id, handshakes, cap);
    case PreflightSettled(id) => LeavingKeepsInv(s, Step(s, e, cap), cap);
    case ClientGone(id) => LeavingKeepsInv(s, Step(s, e, cap), cap);
    case Close => LeavingKeepsInv(s, Step(s, e, cap), cap);
  }

  // In every run the distinct upgrades and connections never exceed the limit, however
  // preflights, handshakes and disconnects interleave.
  lemma {:induction false} NeverOverCapacity(events: seq<Event>, cap: nat)
    ensures Inv(Run(events, cap), cap)
  {
    if events != [] {
      NeverOverCapacity(events[..|events| - 1], cap);
      StepKeepsInv(Run(events[..|events| - 1], cap), events[|events| - 1], cap);
    } else {
      assert Admitted(EMPTY) == {};
    }
  }

  // Who holds a place, told from the events alone.

  // The k-th event is the upgrade numbered id, it comes before any close and finds room.
  ghost predicate LetIn(events: seq<Event>, k: nat, id: nat, cap: nat) {
    && k < |events| && events[k] == Upgrade && Close !in events[..k]
    && Run(events[..k], cap).seen == id
    && |Run(events[..k], cap).clients| + |Run(events[..k], cap).preflights| < cap
  }

  // Its preflight has not settled by the end of the events.
  ghost predicate Checking(events: seq<Event>, k: nat, id: nat, cap: nat) {
    LetIn(events, k, id, cap) && PreflightSettled(id) !in events[k + 1..]
  }

  // Its handshake was tried.
  ghost predicate Tried(events: seq<Event>, k: nat, id: nat) {
    k < |events| && (PreflightPassed(id, true) in events[k + 1..] || PreflightPassed(id, false) in events[k + 1..])
  }

  // The j-th event is a handshake that succeeds: the first one tried for a running
  // preflight, and the bridge is not closed.
  ghost predicate Connects(events: seq<Event>, j: nat, id: nat, cap: nat) {
    && j < |events| && events[j] == PreflightPassed(id, true) && Close !in events[..j]
    && exists k :: Checking(events[..j], k, id, cap) && !Tried(events[..j], k, id)
  }

  // It opened a socket that is still there.
  ghost predicate Connected(events: seq<Event>, j: nat, id: nat, cap: nat) {
    Connects(events, j, id, cap) && ClientGone(id) !in events[j + 1..]
  }

  lemma LetInExtends(before: seq<Event>, e: Event, k: nat, id: nat, cap: nat)
    ensures k < |before| ==> (LetIn(before + [e], k, id, cap) <==> LetIn(before, k, id, cap))
    ensures k < |before| ==> (Checking(before + [e], k, id, cap) <==>
                              Checking(before, k, id, cap) && e != PreflightSettled(id))
    ensures k < |before| ==> (Tried(before + [e], k, id) <==>
                              Tried(before, k, id) || (e.PreflightPassed? && e.id == id))
  {
    hide Run;
    if k < |before| {
      assert (before + [e])[..k] == before[..k];
      assert (before + [e])[k + 1..] == before[k + 1..] + [e];
    }
  }

  lemma ConnectsExtends(before: seq<Event>, e: Event, j: nat, id: nat, cap: nat)
    ensures j < |before| ==> (Connects(before + [e], j, id, cap) <==> Connects(before, j, id, cap))
    ensures j < |before| ==> (Connected(before + [e], j, id, cap) <==>
                              Connected(before, j, id, cap) && e != ClientGone(id))
  {
    hide Checking, Tried;
    if j < |before| {
      assert (before + [e])[..j] == before[..j];
      assert (before + [e])[j + 1..] == before[j + 1..] + [e];
    }
  }

  lemma {:induction false} RunOfNone(cap: nat)
    ensures Run([], cap) == EMPTY
  {
  }

  lemma {:induction false} RunExtends(before: seq<Event>, e: Event, cap: nat)
    ensures Run(before + [e], cap) == Step(Run(before, cap), e, cap)
  {
    assert (before + [e])[..|before|] == before;
  }

  lemma OnlyCloseCloses(s: State, e: Event, cap: nat)
    ensures Step(s, e, cap).closed <==> s.closed || e == Close
  {
  }

  // A bridge is closed exactly when close was called.
  lemma {:induction false} ClosedIffCloseCalled(events: seq<Event>, cap: nat)
    ensures Run(events, cap).closed <==> Close in events
  {
    hide Run, Step;
    if events != [] {
      var before, e := events[..|events| - 1], events[|events| - 1];
      ClosedIffCloseCalled(before, cap);
      RunExtends(before, e, cap);
      OnlyCloseCloses(Run(before, cap), e, cap);
      assert events == before + [e];
    } else {
      RunOfNone(cap);
    }
  }

  // A preflight is running exactly when its upgrade was let in and it has not settled, and
  // it may not open a socket any more exactly when that was tried.
  lemma {:induction false} CheckedAreLetIn(events: seq<Event>, id: nat, cap: nat)
    ensures forall k :: Checking(events, k, id, cap) ==>
                          && id in Run(events, cap).preflights
                          && (Run(events, cap).preflights[id] <==> Tried(events, k, id))
    ensures id in Run(events, cap).preflights ==> exists k :: Checking(events, k, id, cap)
  {
    if events != [] {
      var before, e := events[..|events| - 1], events[|events| - 1];
      assert events == before + [e];
      var s, t := Run(before, cap), Run(events, cap);
      RunExtends(before, e, cap);
      CheckedAreLetIn(before, id, cap);
      ClosedIffCloseCalled(before, cap);
      NeverOverCapacity(before, cap);
      assert events[..|before|] == before && events[|before| + 1..] == [];
      forall k | Checking(events, k, id, cap)
        ensures id in t.preflights && (t.preflights[id] <==> Tried(events, k, id))
      {
        LetInExtends(before, e, k, id, cap);
        NewPreflight(s, e, id, cap);
      }
      if id in t.preflights {
        if id in s.preflights {
          var k :| Checking(before, k, id, cap);
          LetInExtends(before, e, k, id, cap);
          NewPreflight(s, e, id, cap);
          assert Checking(events, k, id, cap);
        } else {
          NewPreflight(s, e, id, cap);
          assert Checking(events, |before|, id, cap);
        }
      }
    }
  }

  // What one event does to the preflight of id.
  lemma NewPreflight(s: State, e: Event, id: nat, cap: nat)
    requires id in s.preflights ==> id < s.seen
    ensures var t := Step(s, e, cap);
            if id in s.preflights then
              && (id in t.preflights <==> e != PreflightSettled(id))
              && (id in t.preflights ==>
                    (t.preflights[id] <==> s.preflights[id] || (e.PreflightPassed? && e.id == id)))
            else
              && (id in t.preflights <==>
                    e == Upgrade && !s.closed && s.seen == id && |s.clients| + |s.preflights| < cap)
              && (id in t.preflights ==> !t.preflights[id])
  {
  }

  lemma ConnectsInside(events: seq<Event>, j: nat, id: nat, cap: nat)
    ensures Connects(events, j, id, cap) ==> j < |events| && events[j] == PreflightPassed(id, true)
  {
  }

  // The last event opens a socket for id exactly when it connects.
  lemma {:induction false} ConnectsNow(before: seq<Event>, e: Event, id: nat, cap: nat)
    ensures var s := Run(before, cap);
            && (Connects(before + [e], |before|, id, cap) ==> id in Step(s, e, cap).clients)
            && (id in Step(s, e, cap).clients ==>
                  Connects(before + [e], |before|, id, cap) || (id in s.clients && e != ClientGone(id)))
            && (id in s.clients && e != ClientGone(id) ==> id in Step(s, e, cap).clients)
  {
    hide Run, Checking, Tried;
    var events := before + [e];
    assert events[..|before|] == before;
    CheckedAreLetIn(before, id, cap);
    ClosedIffCloseCalled(before, cap);
  }

  // A socket is open exactly when a handshake of its own running preflight succeeded
  // before any close and it has not gone since.
  lemma {:induction false} ClientsHaveConnected(events: seq<Event>, id: nat, cap: nat)
    ensures id in Run(events, cap).clients <==> exists j :: Connected(events, j, id, cap)
  {
    hide Connects, Run;
    if events != [] {
      var before, e := events[..|events| - 1], events[|events| - 1];
      assert events == before + [e];
      RunExtends(before, e, cap);
      ClientsHaveConnected(before, id, cap);
      ConnectsNow(before, e, id, cap);
      assert events[|before| + 1..] == [];
      if j: nat :| Connected(events, j, id, cap) {
        if j < |before| {
          ConnectsExtends(before, e, j, id, cap);
        } else {
          assert j == |before| by { ConnectsInside(events, j, id, cap); }
        }
      }
      if id in Run(events, cap).clients {
        if id in Run(before, cap).clients {
          var j :| Connected(before, j, id, cap);
          ConnectsInside(before, j, id, cap);
          ConnectsExtends(before, e, j, id, cap);
          assert Connected(events, j, id, cap);
        } else {
          assert Connected(events, |before|, id, cap);
        }
      }
    } else {
      assert Run(events, cap) == EMPTY by { RunOfNone(cap); }
      if j: nat :| Connected(events, j, id, cap) { ConnectsInside(events, j, id, cap); }
    }
  }

  // The two counters together do exceed it: with a limit of 1, between the handshake of
  // the only upgrade and the end of its preflight, they add up to 2.
  lemma CountersOverlap()
    ensures var s := Run([Upgrade, PreflightPassed(0, true)], 1);
            |s.clients| + |s.preflights| == 2 && |Admitted(s)| == 1
  {
    var events := [Upgrade, PreflightPassed(0, true)];
    assert events[..1] == [Upgrade] && [Upgrade][..0] == [];
    assert Run([Upgrade], 1) == State(map[0 := false], {}, 1, {}, false);
    var s := Run(events, 1);
    assert s == State(map[0 := true], {0}, 1, {}, false);
    assert Admitted(s) == {0};
    assert s.preflights.Keys == {0} && |s.preflights| == |s.preflights.Keys|;
  }
}
