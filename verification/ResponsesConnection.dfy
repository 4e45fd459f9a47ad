// One connection of the Responses bridge: its single turn, its leases, its idle timer and
// its upstream session (the connection handler of installResponsesWebSocketBridge in
// apps/gateway/src/responses-websocket.ts). Every callback is one step up to its next
// await; whether an admission grants a lease and when the socket stops being open are
// decided by the environment.
module ResponsesConnection {
  import opened JsonValues

  // The leases of one admission, numbered in the order they were acquired.
  datatype Ledger = Ledger(next: nat, released: multiset<nat>)

  function Acquire(l: Ledger): Ledger {
    l.(next := l.next + 1)
  }

  function Release(l: Ledger, lease: nat): Ledger {
    l.(released := l.released + multiset{lease})
  }

  // A turn's asynchronous body: its two leases, whether its signal is aborted, and whether
  // it is past a failure and sending the error to the client.
  datatype Turn = Turn(ingressLease: nat, admissionLease: nat, aborted: bool, replying: bool)

  // A session generation starts with the connection and with every accepted turn; `closes`
  // lists the generations that closeSession was called in. `turns` holds every body that
  // has not finished.
  datatype State = State(
    open: bool,
    aborted: bool,
    sessionClosed: bool,
    processing: bool,
    active: Option<nat>,
    idleTimer: bool,
    turns: map<nat, Turn>,
    ingress: Ledger,
    admission: Ledger,
    generation: nat,
    closes: seq<nat>,
    closeCodes: seq<int>)

  const NO_LEASES := Ledger(0, multiset{})

  // A connection starts with its idle timer armed.
  const CONNECTED := State(true, false, false, false, None, true, map[], NO_LEASES, NO_LEASES, 0, [], [])

  const IDLE_TIMEOUT_CODE := 1001
  const ONE_RESPONSE_CODE := 1008

  datatype Event =
    | Message(ingressOk: bool, admissionOk: bool)
    | ForwardEnded(turn: nat, invalidatesSession: bool)
    | ForwardThrew(turn: nat)
    | ErrorSent(turn: nat)
    | SocketClosing
    | SocketFailed                  // the close or the error event of the socket
    | IdleTimeout

  function CloseUpstream(s: State): State {
    if s.sessionClosed then s else s.(sessionClosed := true, closes := s.closes + [s.generation])
  }

  function AbortAll(turns: map<nat, Turn>): map<nat, Turn> {
    map t | t in turns :: turns[t].(aborted := true)
  }

  function Abort(s: State): State {
    CloseUpstream(s.(idleTimer := false, aborted := true, turns := AbortAll(s.turns)))
  }

  function CloseSocket(s: State, code: int): State {
    if s.open then s.(open := false, closeCodes := s.closeCodes + [code]) else s
  }

  // The finally clause of a turn.
  function EndTurn(s: State, turn: nat): State
    requires turn in s.turns
  {
    s.(turns := s.turns - {turn},
       active := if s.active == Some(turn) then None else s.active,
       processing := false,
       ingress := Release(s.ingress, s.turns[turn].ingressLease),
       admission := Release(s.admission, s.turns[turn].admissionLease),
       idleTimer := s.idleTimer || (!s.aborted && s.open))
  }

  function StartedTurn(s: State, ingressLease: nat): State {
    var turn := s.generation + 1;
    s.(processing := true, sessionClosed := false, idleTimer := false, active := Some(turn),
       generation := turn, admission := Acquire(s.admission),
       turns := s.turns[turn := Turn(ingressLease, s.admission.next, false, false)])
  }

  function AcceptTurn(s: State): State {
    StartedTurn(s.(ingress := Acquire(s.ingress)), s.ingress.next)
  }

  function Received(s: State, ingressOk: bool, admissionOk: bool): State {
    if s.aborted || !s.open then s
    else if s.processing then CloseSocket(Abort(s), ONE_RESPONSE_CODE)
    else if !ingressOk then s
    else if !admissionOk then s.(ingress := Release(Acquire(s.ingress), s.ingress.next))
    else AcceptTurn(s)
  }

  function Ended(s: State, turn: nat, invalidatesSession: bool): State {
    if turn !in s.turns || s.turns[turn].replying then s
    else EndTurn(if invalidatesSession then CloseUpstream(s) else s, turn)
  }

  function Threw(s: State, turn: nat): State {
    if turn !in s.turns || s.turns[turn].replying then s
    else if s.aborted || !s.open then EndTurn(s, turn)
    else s.(turns := s.turns[turn := s.turns[turn].(replying := true)])
  }

  function Replied(s: State, turn: nat): State {
    if turn !in s.turns || !s.turns[turn].replying then s
    else EndTurn(CloseUpstream(s), turn)
  }

  function TimedOut(s: State): State {
    if !s.idleTimer then s
    else
      var fired := s.(idleTimer := false);
      if s.processing then fired else CloseSocket(Abort(fired), IDLE_TIMEOUT_CODE)
  }

  function Step(s: State, e: Event): State {
    match e
    case Message(ingressOk, admissionOk) => Received(s, ingressOk, admissionOk)
    case ForwardEnded(turn, invalidatesSession) => Ended(s, turn, invalidatesSession)
    case ForwardThrew(turn) => Threw(s, turn)
    case ErrorSent(turn) => Replied(s, turn)
    case SocketClosing => s.(open := false)
    case SocketFailed => Abort(s)
    case IdleTimeout => TimedOut(s)
  }

  function Run(events: seq<Event>): State {
    if events == [] then CONNECTED
    else Step(Run(events[..|events| - 1]), events[|events| - 1])
  }

  // ---- The connection ------------------------------------------------------------

  class ResponsesConnection {
    var open: bool
    var aborted: bool
    var sessionClosed: bool
    var processing: bool
    var active: Option<nat>
    var idleTimer: bool
    var turns: map<nat, Turn>
    var ingress: Ledger
    var admission: Ledger
    var generation: nat
    var closes: seq<nat>
    var closeCodes: seq<int>

    ghost function View(): State
      reads this
    {
      State(open, aborted, sessionClosed, processing, active, idleTimer, turns, ingress, admission, generation,
            closes, closeCodes)
    }

    constructor ()
      ensures View() == CONNECTED
    {
      open, aborted, sessionClosed, processing, active := true, false, false, false, None;
      turns, ingress, admission, generation := map[], NO_LEASES, NO_LEASES, 0;
      closes, closeCodes, idleTimer := [], [], true;
    }

    method CloseUpstreamSession()
      modifies this
      ensures View() == CloseUpstream(old(View()))
    {
      if sessionClosed { return; }
      sessionClosed := true;
      closes := closes + [generation];
    }

    method AbortConnection()
      modifies this
      ensures View() == Abort(old(View()))
    {
      idleTimer := false;
      aborted := true;
      turns := AbortAll(turns);
      CloseUpstreamSession();
    }

    method Close(code: int)
      modifies this
      ensures View() == CloseSocket(old(View()), code)
    {
      if open {
        open := false;
        closeCodes := closeCodes + [code];
      }
    }

    method FinishTurn(turn: nat)
      requires turn in turns
      modifies this
      ensures View() == EndTurn(old(View()), turn)
    {
      var ending := turns[turn];
      turns := turns - {turn};
      if active == Some(turn) { active := None; }
      processing := false;
      admission := Release(admission, ending.admissionLease);
      ingress := Release(ingress, ending.ingressLease);
      if !aborted && open { idleTimer := true; }
    }

    method OnMessage(ingressOk: bool, admissionOk: bool)
      modifies this
      ensures View() == Received(old(View()), ingressOk, admissionOk)
    {
      hide StartedTurn, Abort, CloseSocket;
      if aborted || !open { return; }
      if processing {
        AbortConnection();
        Close(ONE_RESPONSE_CODE);
        return;
      }
      if !ingressOk { return; }
      var ingressLease := ingress.next;
      ingress := Acquire(ingress);
      if !admissionOk {
        ingress := Release(ingress, ingressLease);
        return;
      }
      StartTurn(ingressLease);
    }

    // Accepts a turn whose ingress lease is already taken.
    method StartTurn(ingressLease: nat)
      modifies this
      ensures View() == StartedTurn(old(View()), ingressLease)
    {
      var admissionLease := admission.next;
      admission := Acquire(admission);
      processing := true;
      sessionClosed := false;
      generation := generation + 1;
      idleTimer := false;
      turns := turns[generation := Turn(ingressLease, admissionLease, false, false)];
      active := Some(generation);
    }

    method OnForwardEnded(turn: nat, invalidatesSession: bool)
      modifies this
      ensures View() == Ended(old(View()), turn, invalidatesSession)
    {
      if turn !in turns || turns[turn].replying { return; }
      if invalidatesSession { CloseUpstreamSession(); }
      FinishTurn(turn);
    }

    method OnForwardThrew(turn: nat)
      modifies this
      ensures View() == Threw(old(View()), turn)
    {
      if turn !in turns || turns[turn].replying { return; }
      if aborted || !open {
        FinishTurn(turn);
        return;
      }
      turns := turns[turn := turns[turn].(replying := true)];
    }

    method OnErrorSent(turn: nat)
      modifies this
      ensures View() == Replied(old(View()), turn)
    {
      if turn !in turns || !turns[turn].replying { return; }
      CloseUpstreamSession();
      FinishTurn(turn);
    }

    method OnIdleTimeout()
      modifies this
      ensures View() == TimedOut(old(View()))
    {
      if !idleTimer { return; }
      idleTimer := false;
      if processing { return; }
      AbortConnection();
      Close(IDLE_TIMEOUT_CODE);
    }
  }

  // ---- What every run keeps ------------------------------------------------------

  // Every lease acquired has been released exactly once, but for the one still held.
  ghost predicate Settled(l: Ledger, held: Option<nat>) {
    && (held.Some? ==> held.value < l.next)
    && (forall id: nat :: l.released[id] == if id < l.next && held != Some(id) then 1 else 0)
  }

  // The only body in flight is the active turn; it is aborted when the connection is.
  ghost predicate OneTurn(turns: map<nat, Turn>, active: Option<nat>, processing: bool, aborted: bool,
                          generation: nat) {
    && (forall t :: t in turns <==> active == Some(t))
    && (processing <==> active.Some?)
    && (active.Some? ==> active.value == generation && (aborted <==> turns[active.value].aborted))
  }

  ghost predicate LeasesHeld(turns: map<nat, Turn>, active: Option<nat>, ingress: Ledger, admission: Ledger)
    requires active.Some? ==> active.value in turns
  {
    && Settled(ingress, if active.Some? then Some(turns[active.value].ingressLease) else None)
    && Settled(admission, if active.Some? then Some(turns[active.value].admissionLease) else None)
  }

  // closeSession runs at most once in a generation, and an aborted connection has run it
  // in the current one.
  ghost predicate SessionInv(closes: seq<nat>, generation: nat, sessionClosed: bool, aborted: bool) {
    && (forall i, j :: 0 <= i < j < |closes| ==> closes[i] < closes[j])
    && (forall i :: 0 <= i < |closes| ==> closes[i] <= generation)
    && (sessionClosed <==> generation in closes)
    && (aborted ==> sessionClosed)
  }

  // The idle timer waits for an open connection without a turn, and for no other.
  ghost predicate TimerInv(idleTimer: bool, processing: bool, aborted: bool, open: bool) {
    && (idleTimer ==> !processing && !aborted)
    && (open && !processing && !aborted ==> idleTimer)
  }

  ghost predicate Inv(s: State) {
    && OneTurn(s.turns, s.active, s.processing, s.aborted, s.generation)
    && LeasesHeld(s.turns, s.active, s.ingress, s.admission)
    && SessionInv(s.closes, s.generation, s.sessionClosed, s.aborted)
    && TimerInv(s.idleTimer, s.processing, s.aborted, s.open)
  }

  lemma AbortKeepsInv(s: State)
    requires Inv(s)
    ensures Inv(Abort(s)) && Abort(s).aborted
  {
    hide Settled;
    var cleared := s.(idleTimer := false, aborted := true, turns := AbortAll(s.turns));
    assert SessionInv(CloseUpstream(cleared).closes, s.generation, true, true) by {
      if !s.sessionClosed { assert (s.closes + [s.generation])[|s.closes|] == s.generation; }
    }
    assert forall t :: t in cleared.turns <==> t in s.turns;
  }

  lemma SettledRelease(l: Ledger, lease: nat)
    requires Settled(l, Some(lease))
    ensures Settled(Release(l, lease), None)
  {
  }

  lemma SettledAcquire(l: Ledger)
    requires Settled(l, None)
    ensures Settled(Acquire(l), Some(l.next))
  {
  }

  lemma EndTurnKeepsInv(s: State, turn: nat)
    requires Inv(s) && turn in s.turns
    ensures Inv(EndTurn(s, turn))
  {
    hide Settled, SessionInv, Release;
    assert s.active == Some(turn);
    SettledRelease(s.ingress, s.turns[turn].ingressLease);
    SettledRelease(s.admission, s.turns[turn].admissionLease);
  }

  lemma CloseThenEndKeepsInv(s: State, turn: nat)
    requires Inv(s) && turn in s.turns
    ensures Inv(EndTurn(CloseUpstream(s), turn))
  {
    hide Settled, EndTurn;
    assert SessionInv(CloseUpstream(s).closes, s.generation, true, s.aborted) by {
      if !s.sessionClosed { assert (s.closes + [s.generation])[|s.closes|] == s.generation; }
    }
    EndTurnKeepsInv(CloseUpstream(s), turn);
  }

  lemma ReceivedKeepsInv(s: State, ingressOk: bool, admissionOk: bool)
    requires Inv(s)
    ensures Inv(Received(s, ingressOk, admissionOk))
  {
    hide Settled, Acquire, Release;
    if s.aborted || !s.open {
    } else if s.processing {
      AbortKeepsInv(s);
    } else {
      SettledAcquire(s.ingress);
      SettledAcquire(s.admission);
      SettledRelease(Acquire(s.ingress), s.ingress.next);
    }
  }

  lemma StepKeepsInv(s: State, e: Event)
    requires Inv(s)
    ensures Inv(Step(s, e))
  {
    hide Settled, SessionInv, Abort, EndTurn, CloseUpstream, Received;
    match e
    case Message(ingressOk, admissionOk) => ReceivedKeepsInv(s, ingressOk, admissionOk);
    case ForwardEnded(turn, _) =>
      if turn in s.turns { EndTurnKeepsInv(s, turn); CloseThenEndKeepsInv(s, turn); }
    case ForwardThrew(turn) => if turn in s.turns { EndTurnKeepsInv(s, turn); }
    case ErrorSent(turn) => if turn in s.turns { CloseThenEndKeepsInv(s, turn); }
    case SocketClosing => {}
    case SocketFailed => AbortKeepsInv(s);
    case IdleTimeout =>
      if s.idleTimer { AbortKeepsInv(s); assert Abort(s.(idleTimer := false)) == Abort(s) by { AbortIgnoresTimer(s); } }
  }

  lemma AbortIgnoresTimer(s: State)
    ensures Abort(s.(idleTimer := false)) == Abort(s)
  {
  }

  lemma RunNext(events: seq<Event>, k: nat)
    requires k < |events|
    ensures Run(events[..k + 1]) == Step(Run(events[..k]), events[k])
  {
    assert events[..k + 1][..k] == events[..k];
  }

  lemma {:induction false} RunKeepsInv(events: seq<Event>)
    ensures Inv(Run(events))
  {
    if events != [] {
      RunKeepsInv(events[..|events| - 1]);
      StepKeepsInv(Run(events[..|events| - 1]), events[|events| - 1]);
    }
  }

  // ---- What a client and an operator can rely on -----------------------------------

  // In every reachable state at most one body runs. It holds one lease of each kind that
  // has never been released; with no body running every lease ever taken is back, once.
  lemma {:induction false} OneTurnHoldsItsLeases(events: seq<Event>)
    ensures var s := Run(events);
            && |s.turns| <= 1
            && (s.processing <==> |s.turns| == 1)
            && (forall t :: t in s.turns ==>
                  && Settled(s.ingress, Some(s.turns[t].ingressLease))
                  && Settled(s.admission, Some(s.turns[t].admissionLease)))
            && (!s.processing ==> Settled(s.ingress, None) && Settled(s.admission, None))
  {
    hide Settled, Run;
    RunKeepsInv(events);
    var s := Run(events);
    if s.active.Some? {
      assert s.turns.Keys == {s.active.value};
      assert |s.turns| == |s.turns.Keys|;
    } else {
      assert s.turns == map[];
    }
  }

  // After an abort nothing more is accepted: the session generation, and so the call of
  // closeSession made in it, is the last one.
  lemma {:induction false} AbortIsFinal(events: seq<Event>, more: seq<Event>)
    requires Run(events).aborted
    ensures var s, t := Run(events), Run(events + more);
            t.aborted && !t.idleTimer && t.generation == s.generation && t.generation in t.closes &&
                t.closes == s.closes
  {
    hide Settled, SessionInv, Received, Ended, Threw, Replied, TimedOut, Abort;
    RunKeepsInv(events);
    if more == [] {
      assert events + more == events;
      SessionClosed(Run(events));
    } else {
      var init := more[..|more| - 1];
      AbortIsFinal(events, init);
      assert (events + more)[..|events + more| - 1] == events + init;
      RunKeepsInv(events + init);
      SessionClosed(Run(events + init));
      StepAfterAbort(Run(events + init), more[|more| - 1]);
    }
  }

  lemma SessionClosed(s: State)
    requires Inv(s)
    ensures s.aborted ==> s.sessionClosed && s.generation in s.closes && !s.idleTimer
  {
  }

  lemma StepAfterAbort(s: State, e: Event)
    requires s.aborted && s.sessionClosed && !s.idleTimer
    ensures var t := Step(s, e);
            t.aborted && !t.idleTimer && t.generation == s.generation && t.closes == s.closes
  {
  }

  // A message during a turn ends the connection with code 1008 and aborts the turn; the
  // turn still runs to its end and gives its leases back.
  lemma {:induction false} SecondMessageEndsTheConnection(events: seq<Event>, ingressOk: bool, admissionOk: bool)
    requires var s := Run(events); s.open && !s.aborted && s.processing
    ensures var s, t := Run(events), Run(events + [Message(ingressOk, admissionOk)]);
            && t.aborted && !t.open && t.closeCodes == s.closeCodes + [ONE_RESPONSE_CODE]
            && t.turns.Keys == s.turns.Keys && (forall turn :: turn in t.turns ==> t.turns[turn].aborted)
            && t.ingress == s.ingress && t.admission == s.admission
            && (forall turn :: turn in s.turns ==> !s.turns[turn].aborted)
  {
    hide Settled;
    RunKeepsInv(events);
    var all := events + [Message(ingressOk, admissionOk)];
    assert all[..|all| - 1] == events;
  }

  // Each generation closes its upstream session at most once.
  lemma {:induction false} SessionClosesOnce(events: seq<Event>, generation: nat)
    ensures multiset(Run(events).closes)[generation] <= 1
  {
    hide Settled, Run;
    RunKeepsInv(events);
    IncreasingIsOnce(Run(events).closes, generation);
  }

  lemma {:induction false} IncreasingIsOnce(closes: seq<nat>, g: nat)
    requires forall i, j :: 0 <= i < j < |closes| ==> closes[i] < closes[j]
    ensures multiset(closes)[g] <= 1
  {
    if closes != [] {
      var init := closes[..|closes| - 1];
      IncreasingIsOnce(init, g);
      assert closes == init + [closes[|closes| - 1]];
      if closes[|closes| - 1] == g { assert g !in init; }
    }
  }

  // A turn that failed, once its error is sent, and a turn whose end invalidates its
  // session leave their upstream session closed; a turn that ends well leaves it as it was.
  lemma {:induction false} FailedTurnClosesItsSession(events: seq<Event>, turn: nat)
    requires turn in Run(events).turns
    ensures var s, t := Run(events), Run(events + [ErrorSent(turn)]);
            s.turns[turn].replying ==> turn !in t.turns && turn in t.closes
    ensures var s, t := Run(events), Run(events + [ForwardEnded(turn, true)]);
            !s.turns[turn].replying ==> turn !in t.turns && turn in t.closes
    ensures var s, t := Run(events), Run(events + [ForwardEnded(turn, false)]);
            !s.turns[turn].replying ==> turn !in t.turns && t.closes == s.closes
  {
    hide Run, Settled;
    RunKeepsInv(events);
    RunSnoc(events, ErrorSent(turn));
    RunSnoc(events, ForwardEnded(turn, true));
    RunSnoc(events, ForwardEnded(turn, false));
  }

  lemma {:induction false} RunSnoc(events: seq<Event>, e: Event)
    ensures Run(events + [e]) == Step(Run(events), e)
  {
    assert (events + [e])[..|events + [e]| - 1] == events;
  }

  // ---- When a turn begins and that it ends ---------------------------------------------

  // A message on an open connection without a turn begins one exactly when both admissions
  // grant a lease; otherwise the connection stays as it is, with every lease back.
  lemma {:induction false} MessageBeginsATurnIff(events: seq<Event>, ingressOk: bool, admissionOk: bool)
    requires var s := Run(events); s.open && !s.aborted && !s.processing
    ensures var s, t := Run(events), Run(events + [Message(ingressOk, admissionOk)]);
            && t.open && !t.aborted && t.closes == s.closes && t.closeCodes == s.closeCodes
            && (t.processing <==> ingressOk && admissionOk)
            && (t.processing ==>
                  t.active == Some(s.generation + 1) && t.generation == s.generation + 1 &&
                  t.generation in t.turns && !t.turns[t.generation].replying && !t.sessionClosed)
            && (!t.processing ==>
                  t.generation == s.generation && t.idleTimer && t.sessionClosed == s.sessionClosed &&
                  Settled(t.ingress, None) && Settled(t.admission, None))
  {
    hide Run, Settled;
    RunSnoc(events, Message(ingressOk, admissionOk));
    RunKeepsInv(events);
    RunKeepsInv(events + [Message(ingressOk, admissionOk)]);
  }

  // The event that the body of a turn waits for.
  predicate Awaits(s: State, turn: nat, e: Event) {
    turn in s.turns &&
    if s.turns[turn].replying then e == ErrorSent(turn)
    else e == ForwardThrew(turn) || (e.ForwardEnded? && e.turn == turn)
  }

  // How many awaits it has at most before it.
  function AwaitsLeft(s: State, turn: nat): nat {
    if turn !in s.turns then 0 else if s.turns[turn].replying then 1 else 2
  }

  lemma StoppingKeepsTurns(s: State, code: int, turn: nat)
    ensures AwaitsLeft(Abort(s), turn) == AwaitsLeft(s, turn) && Abort(s).generation == s.generation
    ensures AwaitsLeft(CloseSocket(s, code), turn) == AwaitsLeft(s, turn)
    ensures CloseSocket(s, code).generation == s.generation
  {
  }

  lemma EndedTurnIsGone(s: State, ending: nat, turn: nat)
    requires ending in s.turns
    ensures var t := EndTurn(s, ending);
            && t.generation == s.generation
            && AwaitsLeft(t, turn) == if turn == ending then 0 else AwaitsLeft(s, turn)
    ensures AwaitsLeft(CloseUpstream(s), turn) == AwaitsLeft(s, turn) && CloseUpstream(s).generation == s.generation
    ensures CloseUpstream(s).turns == s.turns
  {
    hide Release;
  }

  lemma MessageKeepsTurns(s: State, ingressOk: bool, admissionOk: bool, turn: nat)
    requires turn <= s.generation
    ensures var t := Received(s, ingressOk, admissionOk);
            turn <= t.generation && AwaitsLeft(t, turn) == AwaitsLeft(s, turn)
  {
    hide Abort, CloseSocket, Acquire, Release;
    StoppingKeepsTurns(s, ONE_RESPONSE_CODE, turn);
    StoppingKeepsTurns(Abort(s), ONE_RESPONSE_CODE, turn);
  }

  lemma TimeoutKeepsTurns(s: State, turn: nat)
    ensures AwaitsLeft(TimedOut(s), turn) == AwaitsLeft(s, turn) && TimedOut(s).generation == s.generation
  {
    hide Abort, CloseSocket;
    StoppingKeepsTurns(s.(idleTimer := false), IDLE_TIMEOUT_CODE, turn);
    StoppingKeepsTurns(Abort(s.(idleTimer := false)), IDLE_TIMEOUT_CODE, turn);
  }

  lemma BodyStep(s: State, e: Event, turn: nat)
    requires e.ForwardEnded? || e.ForwardThrew? || e.ErrorSent?
    ensures var t := Step(s, e);
            && t.generation == s.generation
            && (if Awaits(s, turn, e) then AwaitsLeft(t, turn) < AwaitsLeft(s, turn)
                else AwaitsLeft(t, turn) == AwaitsLeft(s, turn))
  {
    hide EndTurn, CloseUpstream;
    if e.turn in s.turns {
      EndedTurnIsGone(s, e.turn, turn);
      EndedTurnIsGone(CloseUpstream(s), e.turn, turn);
    }
  }

  lemma TurnStep(s: State, e: Event, turn: nat)
    requires turn <= s.generation
    ensures var t := Step(s, e);
            && turn <= t.generation
            && (if Awaits(s, turn, e) then AwaitsLeft(t, turn) < AwaitsLeft(s, turn)
                else AwaitsLeft(t, turn) == AwaitsLeft(s, turn))
  {
    match e
    case Message(ingressOk, admissionOk) =>
      hide Received, AwaitsLeft;
      MessageKeepsTurns(s, ingressOk, admissionOk, turn);
    case ForwardEnded(_, _) => hide Step, AwaitsLeft, Awaits; BodyStep(s, e, turn);
    case ForwardThrew(_) => hide Step, AwaitsLeft, Awaits; BodyStep(s, e, turn);
    case ErrorSent(_) => hide Step, AwaitsLeft, Awaits; BodyStep(s, e, turn);
    case SocketClosing =>
    case SocketFailed => hide Abort, AwaitsLeft; StoppingKeepsTurns(s, IDLE_TIMEOUT_CODE, turn);
    case IdleTimeout => hide TimedOut, AwaitsLeft; TimeoutKeepsTurns(s, turn);
  }

  ghost function TimesGoneOn(before: seq<Event>, after: seq<Event>, turn: nat): nat {
    if after == [] then 0
    else
      var init := after[..|after| - 1];
      TimesGoneOn(before, init, turn) + if Awaits(Run(before + init), turn, after[|after| - 1]) then 1 else 0
  }

  lemma {:induction false} TurnGoesOn(before: seq<Event>, after: seq<Event>, turn: nat)
    requires turn <= Run(before).generation
    ensures turn <= Run(before + after).generation
    ensures AwaitsLeft(Run(before + after), turn) + TimesGoneOn(before, after, turn) <= AwaitsLeft(Run(before), turn)
  {
    hide Run, Step, Awaits, AwaitsLeft;
    if after == [] {
      assert before + after == before;
    } else {
      var init, e := after[..|after| - 1], after[|after| - 1];
      TurnGoesOn(before, init, turn);
      assert before + after == before + init + [e];
      RunSnoc(before + init, e);
      TurnStep(Run(before + init), e, turn);
    }
  }

  // Whatever happens to the connection in between: a turn is over once its body has gone
  // on twice, all leases are back then unless a later turn holds some, and nothing but its
  // own steps ends it.
  lemma {:induction false} TurnEndsByItsOwnSteps(before: seq<Event>, after: seq<Event>, turn: nat)
    requires turn in Run(before).turns
    ensures var s := Run(before + after);
            && (TimesGoneOn(before, after, turn) == 0 ==> turn in s.turns)
            && (TimesGoneOn(before, after, turn) >= 2 ==> turn !in s.turns)
            && (!s.processing ==> Settled(s.ingress, None) && Settled(s.admission, None))
  {
    hide Run, Settled, Awaits, Step;
    RunKeepsInv(before);
    RunKeepsInv(before + after);
    TurnGoesOn(before, after, turn);
    if TimesGoneOn(before, after, turn) == 0 { TurnStays(before, after, turn); }
  }

  lemma {:induction false} TurnStays(before: seq<Event>, after: seq<Event>, turn: nat)
    requires turn in Run(before).turns && TimesGoneOn(before, after, turn) == 0
    ensures turn in Run(before + after).turns
  {
    hide Run, Step, Awaits;
    if after == [] {
      assert before + after == before;
    } else {
      var init, e := after[..|after| - 1], after[|after| - 1];
      TurnStays(before, init, turn);
      RunKeepsInv(before);
      RunKeepsInv(before + init);
      assert before + after == before + init + [e];
      RunSnoc(before + init, e);
      TurnStep(Run(before + init), e, turn);
    }
  }

  // A failed turn reports its error exactly when the connection is alive, and is over at
  // once otherwise.
  lemma {:induction false} ErrorsAreReportedToTheLiving(events: seq<Event>, turn: nat)
    requires turn in Run(events).turns && !Run(events).turns[turn].replying
    ensures var s, t := Run(events), Run(events + [ForwardThrew(turn)]);
            && (turn in t.turns <==> s.open && !s.aborted)
            && (turn in t.turns ==> t.turns[turn].replying && t.closes == s.closes)
            && (turn !in t.turns ==> Settled(t.ingress, None) && Settled(t.admission, None))
  {
    hide Run, Settled;
    RunSnoc(events, ForwardThrew(turn));
    RunKeepsInv(events);
    RunKeepsInv(events + [ForwardThrew(turn)]);
  }

  // ---- How a connection ends ------------------------------------------------------------

  // An idle timeout ends an open connection that has no turn, with code 1001, and leaves
  // every other one alone.
  lemma {:induction false} OnlyIdleConnectionsTimeOut(events: seq<Event>)
    ensures var s, t := Run(events), Run(events + [IdleTimeout]);
            if s.open && !s.aborted && !s.processing then
              !t.open && t.aborted && t.closeCodes == s.closeCodes + [IDLE_TIMEOUT_CODE]
            else s.open ==> t == s
  {
    hide Run, Settled;
    RunSnoc(events, IdleTimeout);
    RunKeepsInv(events);
  }

  // A socket that closes or fails takes no turn any more, and at most one close code is
  // ever sent; the one that is sent ends the connection.
  lemma {:induction false} ClosedSocketsTakeNoTurns(before: seq<Event>, after: seq<Event>)
    ensures |Run(before).closeCodes| <= 1 && (Run(before).closeCodes != [] ==> Run(before).aborted && !Run(before).open)
    ensures SocketClosing in before ==> !Run(before).open
    ensures SocketFailed in before ==> Run(before).aborted
    ensures var s, t := Run(before), Run(before + after);
            s.aborted || !s.open ==>
              (t.aborted || !t.open) && t.generation == s.generation && t.turns.Keys <= s.turns.Keys
    decreases |before| + |after|
  {
    hide Run, Step;
    if before == [] {
      FreshIsOpen();
    } else {
      var init, e := before[..|before| - 1], before[|before| - 1];
      assert before == init + [e];
      ClosedSocketsTakeNoTurns(init, []);
      RunSnoc(init, e);
      RunKeepsInv(init);
      EndStep(Run(init), e);
    }
    if after == [] {
      assert before + after == before;
    } else {
      var init, e := after[..|after| - 1], after[|after| - 1];
      ClosedSocketsTakeNoTurns(before, init);
      assert before + after == before + init + [e];
      RunSnoc(before + init, e);
      RunKeepsInv(before + init);
      EndStep(Run(before + init), e);
    }
  }

  lemma FreshIsOpen()
    ensures Run([]) == CONNECTED
  {
  }

  lemma EndStep(s: State, e: Event)
    requires Inv(s)
    ensures var t := Step(s, e);
            && |t.closeCodes| <= |s.closeCodes| + 1
            && (t.closeCodes != s.closeCodes ==> t.aborted && !t.open)
            && (!s.open ==> !t.open && t.closeCodes == s.closeCodes) && (s.aborted ==> t.aborted)
            && (e == SocketClosing ==> !t.open) && (e == SocketFailed ==> t.aborted)
            && (s.aborted || !s.open ==> t.generation == s.generation && t.turns.Keys <= s.turns.Keys)
  {
    hide Settled, Acquire, Release;
  }
}
