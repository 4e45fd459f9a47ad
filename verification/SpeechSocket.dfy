// One speech WebSocket from its upgrade to its end (the upgrade handler of
// mountAudioTtsWebSocket in apps/gateway/src/audio-tts-websocket.ts, and acquireSpeechLease
// in apps/gateway/src/routes/audio-speech.ts). The handler's body, the continuation of
// `end` and the callbacks of timers, sockets and the upstream session interleave at every
// await; each step here runs up to the next one.
module SpeechSocket {
  import opened JsonValues

  datatype Status = Completed | Error | Canceled

  // Where the body of the handler waits.
  datatype Place =
    | Admitting          // for the caller's identity
    | Acquiring          // for the concurrency gate
    | Granted            // acquireSpeechLease is returning a lease
    | Upgrading          // for the WebSocket handshake
    | Waiting            // for the next command
    | Selecting          // for the model selection
    | Opening            // for the upstream speech session
    | Commanding         // for the upstream session to take a command
    | ReportingError     // for the error message to be sent
    | Over

  // Where the continuation of `end` waits.
  datatype Accounting = NotBegun | Settling | Recording | Finished

  // How and when the session ended: `selected` if a model had been selected by then.
  datatype Ending = Ending(status: Status, selected: bool)

  datatype Lease = Lease(granted: bool, held: bool, released: bool, gateReleases: nat)

  datatype Session = Session(isSet: bool, opens: nat, closes: nat)

  datatype State = State(
    at: Place,
    aborted: bool,
    ended: Option<Ending>,               // the flag `done`
    active: bool,                        // in the set of running sockets
    identity: bool,
    budget: bool,                        // the key has a budget and settlement is configured
    lease: Lease,
    upgraded: bool,
    commandsEnded: bool,
    started: bool,
    selected: bool,
    session: Session,
    accounting: Accounting,
    settled: nat,
    recorded: nat)

  const NO_LEASE := Lease(false, false, false, 0)

  const FRESH := State(Admitting, false, None, true, false, false, NO_LEASE, false, false, false, false,
                       Session(false, 0, 0), NotBegun, 0, 0)

  datatype Command = Start | ToSession | Unsupported | Invalid

  datatype Event =
    // the body goes on
    | Admitted(budget: bool)
    | GateAnswered(ok: bool, lost: bool)   // lost: the gate's own signal is aborted already
    | LeaseReturned
    | HandshakeDone
    | Received(command: Command, clientOpen: bool)
    | CommandsDone
    | Selected(opensSessions: bool, clientOpen: bool)
    | SessionOpened
    | CommandTaken
    | BodyThrew(clientOpen: bool)
    | ErrorReported
    // end goes on
    | AccountingWent(ok: bool)
    // callbacks
    | AbortRequested                     // a timeout, the early close, a lost lease, a full queue, shutdown
    | ClientClosed
    | ClientFailed
    | BinaryMessage
    | UpstreamEnded(status: Status)

  function ReleaseLease(l: Lease): Lease {
    if l.held && !l.released then l.(released := true, gateReleases := l.gateReleases + 1) else l
  }

  function CloseSession(s: Session): Session {
    if s.isSet then s.(closes := s.closes + 1) else s
  }

  // `end` up to its first await: what it stops, and the accounting it begins.
  function Stop(s: State, status: Status): State {
    s.(ended := Some(Ending(status, s.identity && s.selected)), active := false, aborted := true,
       session := CloseSession(s.session))
  }

  function BeginAccounting(s: State): State {
    if !(s.identity && s.selected) then s.(accounting := Finished, lease := ReleaseLease(s.lease))
    else if s.budget then s.(accounting := Settling, settled := s.settled + 1)
    else s.(accounting := Recording, recorded := s.recorded + 1)
  }

  function End(s: State, status: Status): State {
    if s.ended.Some? then s else BeginAccounting(Stop(s, status))
  }

  function Accounted(s: State, ok: bool): State {
    match s.accounting
    case Settling =>
      if ok then s.(accounting := Recording, recorded := s.recorded + 1)
      else s.(accounting := Finished, lease := ReleaseLease(s.lease))
    case Recording => s.(accounting := Finished, lease := ReleaseLease(s.lease))
    case _ => s
  }

  // The catch clause of the body.
  function Caught(s: State, clientOpen: bool): State {
    if s.upgraded && clientOpen then s.(at := ReportingError)
    else End(s, Error).(at := Over)
  }

  function MoveTo(s: State, at: Place): State {
    s.(at := at)
  }

  predicate CanThrow(at: Place) {
    at.Admitting? || at.Acquiring? || at.Upgrading? || at.Waiting? || at.Selecting? || at.Opening? || at.Commanding?
  }

  function AdmittedStep(s: State, budget: bool): State {
    if !s.at.Admitting? then s
    else
      var t := s.(identity := true, budget := budget, at := Acquiring);
      if s.aborted then Caught(t, false) else t
  }

  // The gate's lease is given back at once when the session was aborted meanwhile or the
  // lease is already lost.
  function Gate(s: State, ok: bool, lost: bool): State {
    if !s.at.Acquiring? then s
    else if !ok then Caught(s, false)
    else if s.aborted || lost then
      var returned := s.lease.(granted := true, gateReleases := s.lease.gateReleases + 1);
      Caught(s.(lease := returned), false)
    else MoveTo(s.(lease := s.lease.(granted := true)), Granted)
  }

  function Returned(s: State): State {
    if !s.at.Granted? then s
    else
      var l := s.lease.(held := true);
      if s.ended.Some? || s.aborted then MoveTo(s.(lease := ReleaseLease(l)), Over)
      else MoveTo(s.(lease := l), Upgrading)
  }

  function Commanded(s: State, command: Command, clientOpen: bool): State {
    if !s.at.Waiting? then s
    else if s.ended.Some? then MoveTo(s, Over)
    else
      match command
      case Start => if s.started then Caught(s, clientOpen) else MoveTo(s.(started := true), Selecting)
      case Invalid => Caught(s, clientOpen)
      case _ => if !s.session.isSet then Caught(s, clientOpen) else MoveTo(s, Commanding)
  }

  function Chosen(s: State, opensSessions: bool, clientOpen: bool): State {
    if !s.at.Selecting? then s
    else
      var t := s.(selected := true);
      if !opensSessions then Caught(t, clientOpen) else t.(at := Opening)
  }

  function OpenedSession(s: State): State {
    if !s.at.Opening? then s
    else
      var opens := s.session.(isSet := true, opens := s.session.opens + 1);
      if s.ended.Some? then MoveTo(s.(session := CloseSession(opens)), Over)
      else MoveTo(s.(session := opens), Waiting)
  }

  function Step(s: State, e: Event): State {
    match e
    case Admitted(budget) => AdmittedStep(s, budget)
    case GateAnswered(ok, lost) => Gate(s, ok, lost)
    case LeaseReturned => Returned(s)
    case HandshakeDone => if s.at.Upgrading? then s.(upgraded := true, at := Waiting) else s
    case Received(command, clientOpen) => Commanded(s, command, clientOpen)
    case CommandsDone => if s.at.Waiting? && s.commandsEnded then s.(at := Over) else s
    case Selected(opensSessions, clientOpen) => Chosen(s, opensSessions, clientOpen)
    case SessionOpened => OpenedSession(s)
    case CommandTaken => if s.at.Commanding? then s.(at := Waiting) else s
    case BodyThrew(clientOpen) => if CanThrow(s.at) then Caught(s, clientOpen) else s
    case ErrorReported => if s.at.ReportingError? then End(s, Error).(at := Over) else s
    case AccountingWent(ok) => Accounted(s, ok)
    case AbortRequested => End(s, Canceled)
    case ClientClosed => if s.upgraded then End(s.(commandsEnded := true), Canceled) else s
    case ClientFailed => if s.upgraded then End(s.(commandsEnded := true), Error) else s
    case BinaryMessage => if s.upgraded then End(s, Error) else s
    case UpstreamEnded(status) => if s.session.isSet then End(s, status) else s
  }

  function Run(events: seq<Event>): State {
    if events == [] then FRESH
    else Step(Run(events[..|events| - 1]), events[|events| - 1])
  }

  // ---- The handler ---------------------------------------------------------------

  class SpeechHandler {
    var at: Place
    var aborted: bool
    var ended: Option<Ending>
    var active: bool
    var identity: bool
    var budget: bool
    var lease: Lease
    var upgraded: bool
    var commandsEnded: bool
    var started: bool
    var selected: bool
    var session: Session
    var accounting: Accounting
    var settled: nat
    var recorded: nat

    ghost function View(): State
      reads this
    {
      State(at, aborted, ended, active, identity, budget, lease, upgraded, commandsEnded, started, selected, session,
            accounting, settled, recorded)
    }

    constructor ()
      ensures View() == FRESH
    {
      at, aborted, ended, active, identity, budget := Admitting, false, None, true, false, false;
      lease, upgraded, commandsEnded := Lease(false, false, false, 0), false, false;
      started, selected, session := false, false, Session(false, 0, 0);
      accounting, settled, recorded := NotBegun, 0, 0;
    }

    method Finish()
      modifies this`accounting, this`lease
      ensures accounting == Finished && lease == ReleaseLease(old(lease))
    {
      accounting := Finished;
      if lease.held && !lease.released {
        lease := lease.(released := true, gateReleases := lease.gateReleases + 1);
      }
    }

    method StartAccounting()
      modifies this`accounting, this`lease, this`settled, this`recorded
      ensures View() == BeginAccounting(old(View()))
    {
      if identity && selected {
        if budget {
          settled := settled + 1;
          accounting := Settling;
        } else {
          recorded := recorded + 1;
          accounting := Recording;
        }
      } else {
        Finish();
      }
    }

    method DoEnd(status: Status)
      modifies this
      ensures View() == End(old(View()), status)
    {
      hide BeginAccounting;
      if ended.Some? { return; }
      ended := Some(Ending(status, identity && selected));
      active := false;
      aborted := true;
      session := CloseSession(session);
      assert View() == Stop(old(View()), status);
      StartAccounting();
    }

    method OnAccounting(ok: bool)
      modifies this
      ensures View() == Accounted(old(View()), ok)
    {
      hide ReleaseLease;
      match accounting {
        case Settling =>
          if ok {
            recorded := recorded + 1;
            accounting := Recording;
          } else {
            Finish();
          }
        case Recording => Finish();
        case _ =>
      }
    }

    method Catch(clientOpen: bool)
      modifies this
      ensures View() == Caught(old(View()), clientOpen)
    {
      if upgraded && clientOpen {
        at := ReportingError;
        return;
      }
      DoEnd(Error);
      at := Over;
    }

    method OnAdmitted(hasBudget: bool)
      modifies this
      ensures View() == AdmittedStep(old(View()), hasBudget)
    {
      hide Caught;
      if !at.Admitting? { return; }
      identity := true;
      budget := hasBudget;
      at := Acquiring;
      if aborted { Catch(false); }
    }

    method GoTo(next: Place)
      modifies this`at
      ensures View() == MoveTo(old(View()), next)
    {
      at := next;
    }

    method OnGate(ok: bool, lost: bool)
      modifies this
      ensures View() == Gate(old(View()), ok, lost)
    {
      hide Caught, MoveTo;
      if !at.Acquiring? { return; }
      if !ok {
        Catch(false);
        return;
      }
      if aborted || lost {
        lease := lease.(granted := true, gateReleases := lease.gateReleases + 1);
        assert View() == old(View()).(lease := lease);
        Catch(false);
        return;
      }
      lease := lease.(granted := true);
      assert View() == old(View()).(lease := lease);
      GoTo(Granted);
    }

    method OnLeaseReturned()
      modifies this
      ensures View() == Returned(old(View()))
    {
      if !at.Granted? { return; }
      lease := lease.(held := true);
      if ended.Some? || aborted {
        lease := ReleaseLease(lease);
        at := Over;
        return;
      }
      at := Upgrading;
    }

    method OnCommand(command: Command, clientOpen: bool)
      modifies this
      ensures View() == Commanded(old(View()), command, clientOpen)
    {
      hide Caught;
      if !at.Waiting? { return; }
      if ended.Some? {
        at := Over;
        return;
      }
      if command == Start && !started {
        started := true;
        at := Selecting;
      } else if (command == ToSession || command == Unsupported) && session.isSet {
        at := Commanding;
      } else {
        Catch(clientOpen);
      }
    }

    method OnSelected(opensSessions: bool, clientOpen: bool)
      modifies this
      ensures View() == Chosen(old(View()), opensSessions, clientOpen)
    {
      hide Caught;
      if !at.Selecting? { return; }
      selected := true;
      if opensSessions { at := Opening; } else { Catch(clientOpen); }
    }

    method OnSessionOpened()
      modifies this
      ensures View() == OpenedSession(old(View()))
    {
      if !at.Opening? { return; }
      session := session.(isSet := true, opens := session.opens + 1);
      if ended.Some? {
        session := CloseSession(session);
        at := Over;
        return;
      }
      at := Waiting;
    }
  }

  // ---- What every run keeps ------------------------------------------------------

  // An ended socket is aborted and out of the active set, and the other way around.
  ghost predicate EndInv(s: State) {
    && (s.ended.Some? <==> s.aborted) && (s.ended.Some? <==> !s.active)
    && (s.ended.Some? <==> !s.accounting.NotBegun?)
    && (s.at.Over? || s.commandsEnded ==> s.ended.Some?)
    && (s.ended.Some? && !s.ended.value.selected ==> s.accounting.Finished?)
  }

  // The body's variables are set in the order of its awaits.
  ghost predicate PlaceInv(s: State) {
    && (s.at.Admitting? ==> !s.identity)
    && (s.at.Admitting? || s.at.Acquiring? ==> !s.lease.granted)
    && (s.at.Acquiring? || s.at.Granted? || s.at.Upgrading? ==> s.identity)
    && (s.at.Granted? ==> s.lease.granted && !s.lease.held && s.lease.gateReleases == 0)
    && (s.at.Admitting? || s.at.Acquiring? || s.at.Granted? || s.at.Upgrading? ==> !s.upgraded && !s.started)
    && (s.at.Upgrading? || s.at.Waiting? || s.at.Selecting? || s.at.Opening? || s.at.Commanding? ==> s.lease.held)
    && (s.upgraded ==> s.lease.held && s.identity)
    && (s.at.Waiting? || s.at.Selecting? || s.at.Opening? || s.at.Commanding? || s.at.ReportingError? ==> s.upgraded)
    && (s.started ==> s.upgraded) && (s.selected ==> s.started)
    && (s.at.Selecting? || s.at.Opening? ==> s.started && !s.session.isSet)
  }

  // The gate's lease is released once: at once by the acquisition, or when the accounting
  // is over.
  ghost predicate LeaseInv(l: Lease, at: Place, accounting: Accounting) {
    && (l.held ==> l.granted && (l.released <==> accounting.Finished?))
    && (l.held ==> l.gateReleases == (if l.released then 1 else 0))
    && (!l.granted ==> l.gateReleases == 0)
    && (l.granted && !l.held && !at.Granted? ==> l.gateReleases == 1)
    && (!l.held ==> !l.released)
  }

  ghost predicate SessionInv(session: Session, started: bool, ended: bool) {
    && session.opens == (if session.isSet then 1 else 0)
    && session.closes == (if session.isSet && ended then 1 else 0)
    && (session.isSet ==> started)
  }

  ghost predicate BillInv(s: State) {
    && s.settled == (if s.ended.Some? && s.ended.value.selected && s.budget then 1 else 0)
    && s.recorded <= 1
    && (s.recorded == 1 ==> s.ended.Some? && s.ended.value.selected && !s.accounting.Settling?)
    && (s.accounting.Recording? ==> s.recorded == 1)
    && (s.ended.Some? && s.ended.value.selected ==> s.identity && s.selected)
  }

  ghost predicate Inv(s: State) {
    EndInv(s) && PlaceInv(s) && LeaseInv(s.lease, s.at, s.accounting) &&
    SessionInv(s.session, s.started, s.ended.Some?) && BillInv(s)
  }

  lemma EndKeepsInv(s: State, status: Status)
    requires Inv(s)
    ensures Inv(End(s, status)) && End(s, status).ended.Some? && End(s, status).at == s.at
  {
  }

  // The body may be over once the socket has ended.
  lemma OverKeepsInv(s: State)
    requires Inv(s) && s.ended.Some? && !s.at.Granted?
    ensures Inv(s.(at := Over))
  {
  }

  lemma CaughtKeepsInv(s: State, clientOpen: bool)
    requires Inv(s) && CanThrow(s.at)
    ensures Inv(Caught(s, clientOpen))
  {
    hide End;
    EndKeepsInv(s, Error);
    OverKeepsInv(End(s, Error));
  }

  lemma AdmittedKeepsInv(s: State, budget: bool)
    requires Inv(s)
    ensures Inv(AdmittedStep(s, budget))
  {
    hide Caught;
    if s.at.Admitting? { CaughtKeepsInv(s.(identity := true, budget := budget, at := Acquiring), false); }
  }

  lemma GateKeepsInv(s: State, ok: bool, lost: bool)
    requires Inv(s)
    ensures Inv(Gate(s, ok, lost))
  {
    if s.at.Acquiring? { CaughtKeepsInv(s, false); }
  }

  lemma ReturnedKeepsInv(s: State)
    requires Inv(s)
    ensures Inv(Returned(s))
  {
  }

  lemma CommandedKeepsInv(s: State, command: Command, clientOpen: bool)
    requires Inv(s)
    ensures Inv(Commanded(s, command, clientOpen))
  {
    hide Caught;
    if s.at.Waiting? { CaughtKeepsInv(s, clientOpen); }
  }

  lemma ChosenKeepsInv(s: State, opensSessions: bool, clientOpen: bool)
    requires Inv(s)
    ensures Inv(Chosen(s, opensSessions, clientOpen))
  {
    hide Caught;
    if s.at.Selecting? { CaughtKeepsInv(s.(selected := true), clientOpen); }
  }

  lemma OpenedKeepsInv(s: State)
    requires Inv(s)
    ensures Inv(OpenedSession(s))
  {
  }

  lemma AccountedKeepsInv(s: State, ok: bool)
    requires Inv(s)
    ensures Inv(Accounted(s, ok))
  {
  }

  lemma ClientGoneKeepsInv(s: State, status: Status)
    requires Inv(s)
    ensures Inv(End(s.(commandsEnded := true), status))
  {
    EndKeepsInv(s, status);
    assert End(s.(commandsEnded := true), status) == End(s, status).(commandsEnded := true);
  }

  lemma StepKeepsInv(s: State, e: Event)
    requires Inv(s)
    ensures Inv(Step(s, e))
  {
    hide End, Caught, Gate, Returned, Commanded, Chosen, OpenedSession, Accounted, AdmittedStep, EndInv, PlaceInv,
        LeaseInv,
      SessionInv, BillInv;
    match e
    case Admitted(budget) => AdmittedKeepsInv(s, budget);
    case GateAnswered(ok, lost) => GateKeepsInv(s, ok, lost);
    case LeaseReturned => ReturnedKeepsInv(s);
    case HandshakeDone => MovedKeepsInv(s);
    case Received(command, clientOpen) => CommandedKeepsInv(s, command, clientOpen);
    case CommandsDone => MovedKeepsInv(s);
    case Selected(opensSessions, clientOpen) => ChosenKeepsInv(s, opensSessions, clientOpen);
    case SessionOpened => OpenedKeepsInv(s);
    case CommandTaken => MovedKeepsInv(s);
    case BodyThrew(clientOpen) => if CanThrow(s.at) { CaughtKeepsInv(s, clientOpen); }
    case ErrorReported => MovedKeepsInv(s);
    case AccountingWent(ok) => AccountedKeepsInv(s, ok);
    case AbortRequested => EndKeepsInv(s, Canceled);
    case ClientClosed => ClientGoneKeepsInv(s, Canceled);
    case ClientFailed => ClientGoneKeepsInv(s, Error);
    case BinaryMessage => EndKeepsInv(s, Error);
    case UpstreamEnded(status) => EndKeepsInv(s, status);
  }

  lemma MovedKeepsInv(s: State)
    requires Inv(s)
    ensures Inv(Step(s, HandshakeDone)) && Inv(Step(s, CommandsDone)) && Inv(Step(s, CommandTaken))
    ensures Inv(Step(s, ErrorReported))
  {
    hide End;
    EndKeepsInv(s, Error);
    if s.at.ReportingError? { OverKeepsInv(End(s, Error)); }
  }

  lemma {:induction false} RunKeepsInv(events: seq<Event>)
    ensures Inv(Run(events))
  {
    hide Inv, Step;
    if events == [] {
      FreshIsValid();
    } else {
      RunKeepsInv(events[..|events| - 1]);
      StepKeepsInv(Run(events[..|events| - 1]), events[|events| - 1]);
    }
  }

  lemma FreshIsValid()
    ensures Inv(FRESH)
  {
  }

  // ---- Exactly once ----------------------------------------------------------------

  // Whatever ends a socket and whenever it does: once it has ended it has left the active
  // set and closed the upstream session it has; once its accounting is over, failed or
  // not, the gate has its lease back, exactly once (the body itself returns a lease that
  // it is still being handed). The budget is settled once if a model had been selected
  // and the key has a budget, and not at all otherwise.
  lemma {:induction false} EndedSocketHoldsNothing(events: seq<Event>)
    ensures var s := Run(events);
            s.ended.Some? ==>
              && !s.active
              && s.session.closes == s.session.opens <= 1
              && s.settled == (if s.ended.value.selected && s.budget then 1 else 0)
              && s.recorded <= 1
              && (s.accounting.Finished? && s.lease.granted && !s.at.Granted? ==> s.lease.gateReleases == 1)
  {
    hide Run;
    RunKeepsInv(events);
  }

  // A lease is never released twice, nor before the socket has ended; a body that has
  // returned has ended the socket.
  lemma {:induction false} NothingIsReleasedEarly(events: seq<Event>)
    ensures var s := Run(events);
            && s.lease.gateReleases <= 1
            && (s.lease.gateReleases == 1 ==> s.ended.Some? && s.accounting.Finished?)
            && (s.session.closes == 1 ==> s.ended.Some?)
            && (s.at.Over? ==> s.ended.Some?)
  {
    hide Run;
    RunKeepsInv(events);
  }

  // A lease on its way and a session being opens when the socket ends are given back as
  // soon as they arrive.
  lemma {:induction false} LateArrivalsAreReturned(events: seq<Event>, lost: bool)
    requires Run(events).ended.Some?
    ensures Run(events).at.Granted? ==>
              Run(events + [LeaseReturned]).lease.gateReleases == 1 && Run(events + [LeaseReturned]).at.Over?
    ensures Run(events).at.Opening? ==>
              var t := Run(events + [SessionOpened]); t.session.opens == t.session.closes == 1 && t.at.Over?
    ensures Run(events).at.Acquiring? ==> Run(events + [GateAnswered(true, lost)]).lease.gateReleases == 1
  {
    hide Run;
    RunKeepsInv(events);
    RunSnoc(events, LeaseReturned);
    RunSnoc(events, SessionOpened);
    RunSnoc(events, GateAnswered(true, lost));
  }

  lemma {:induction false} RunSnoc(events: seq<Event>, e: Event)
    ensures Run(events + [e]) == Step(Run(events), e)
  {
    assert (events + [e])[..|events + [e]| - 1] == events;
  }

  // ---- What is recorded, and as what ---------------------------------------------------

  // While no accounting step fails, a session that ended with a model selected and whose
  // accounting is over is recorded, once.
  ghost predicate Recorded(ended: Option<Ending>, accounting: Accounting, recorded: nat) {
    ended.Some? && ended.value.selected && accounting.Finished? ==> recorded == 1
  }

  ghost predicate RecordInv(s: State) {
    Recorded(s.ended, s.accounting, s.recorded)
  }

  predicate AccountingFails(e: Event) {
    e.AccountingWent? && !e.ok
  }

  lemma AccountedKeepsRecord(s: State, e: Event)
    requires RecordInv(s) && BillInv(s) && e.AccountingWent? && e.ok
    ensures RecordInv(Step(s, e))
  {
  }

  // What a callback makes of the session it ends.
  function StatusOf(e: Event): Status {
    match e
    case AbortRequested => Canceled
    case ClientClosed => Canceled
    case UpstreamEnded(status) => status
    case _ => Error
  }

  // The part of a state that an end changes for good.
  datatype Bill = Bill(ended: Option<Ending>, accounting: Accounting, recorded: nat, identity: bool, selected: bool)

  function BillOf(s: State): Bill {
    Bill(s.ended, s.accounting, s.recorded, s.identity, s.selected)
  }

  // Every step but those of the accounting is an end, with the event's status, or leaves
  // the bill open.
  ghost predicate Bills(s: State, t: State, e: Event) {
    || (t.ended == s.ended && t.accounting == s.accounting && t.recorded == s.recorded)
    || (s.ended.None? && t.ended == Some(Ending(StatusOf(e), t.identity && t.selected)) &&
        t.recorded == s.recorded + (if t.accounting.Recording? then 1 else 0) &&
        (t.identity && t.selected ==> !t.accounting.Finished?))
  }

  lemma EndBills(s: State, u: State, e: Event, status: Status)
    requires BillOf(u).(identity := s.identity, selected := s.selected) == BillOf(s) && status == StatusOf(e)
    ensures Bills(s, End(u, status), e)
  {
  }

  lemma MovedBills(s: State, t: State, u: State, e: Event)
    requires Bills(s, u, e) && BillOf(t) == BillOf(u)
    ensures Bills(s, t, e)
  {
  }

  lemma CaughtBills(s: State, u: State, e: Event, clientOpen: bool)
    requires BillOf(u).(identity := s.identity, selected := s.selected) == BillOf(s) && StatusOf(e) == Error
    ensures Bills(s, Caught(u, clientOpen), e)
  {
    hide Bills, End;
    EndBills(s, u, e, Error);
    MovedBills(s, End(u, Error).(at := Over), End(u, Error), e);
    StillOpen(s, u.(at := ReportingError), e);
  }

  lemma StillOpen(s: State, t: State, e: Event)
    ensures t.ended == s.ended && t.accounting == s.accounting && t.recorded == s.recorded ==> Bills(s, t, e)
  {
  }

  lemma MoveBills(s: State, u: State, at: Place, e: Event)
    requires BillOf(u) == BillOf(s)
    ensures Bills(s, MoveTo(u, at), e)
  {
  }

  lemma AdmittedBills(s: State, budget: bool, e: Event)
    requires StatusOf(e) == Error
    ensures Bills(s, AdmittedStep(s, budget), e)
  {
    hide Bills, Caught, StatusOf;
    var u := s.(identity := true, budget := budget, at := Acquiring);
    CaughtBills(s, u, e, false);
    StillOpen(s, u, e);
    StillOpen(s, s, e);
  }

  lemma GateBills(s: State, ok: bool, lost: bool, e: Event)
    requires StatusOf(e) == Error
    ensures Bills(s, Gate(s, ok, lost), e)
  {
    hide Bills, Caught, StatusOf, MoveTo;
    CaughtBills(s, s, e, false);
    CaughtBills(s, s.(lease := s.lease.(granted := true, gateReleases := s.lease.gateReleases + 1)), e, false);
    MoveBills(s, s.(lease := s.lease.(granted := true)), Granted, e);
    StillOpen(s, s, e);
  }

  lemma CommandBills(s: State, command: Command, open: bool, e: Event)
    requires StatusOf(e) == Error
    ensures Bills(s, Commanded(s, command, open), e)
  {
    hide Bills, Caught, StatusOf, MoveTo;
    StillOpen(s, s, e);
    CaughtBills(s, s, e, open);
    MoveBills(s, s, Over, e);
    MoveBills(s, s.(started := true), Selecting, e);
    MoveBills(s, s, Commanding, e);
  }

  lemma ChosenBills(s: State, opensSessions: bool, open: bool, e: Event)
    requires StatusOf(e) == Error
    ensures Bills(s, Chosen(s, opensSessions, open), e)
  {
    hide Bills, Caught, StatusOf;
    CaughtBills(s, s.(selected := true), e, open);
    StillOpen(s, Chosen(s, opensSessions, open), e);
  }

  lemma BodyBills(s: State, e: Event)
    requires e.Admitted? || e.GateAnswered? || e.Received? || e.Selected? || e.BodyThrew?
    ensures Bills(s, Step(s, e), e)
  {
    hide Bills, Caught, AdmittedStep, Gate, Commanded, Chosen;
    match e
    case Admitted(budget) => AdmittedBills(s, budget, e);
    case GateAnswered(ok, lost) => GateBills(s, ok, lost, e);
    case Received(command, open) => CommandBills(s, command, open, e);
    case Selected(opensSessions, open) => ChosenBills(s, opensSessions, open, e);
    case BodyThrew(open) =>
      CaughtBills(s, s, e, open);
      StillOpen(s, s, e);
  }

  lemma CallbackBills(s: State, e: Event)
    requires e.AbortRequested? || e.ClientClosed? || e.ClientFailed? || e.BinaryMessage? || e.UpstreamEnded?
    ensures Bills(s, Step(s, e), e)
  {
    hide Bills, End;
    StillOpen(s, s, e);
    EndBills(s, s, e, StatusOf(e));
    EndBills(s, s.(commandsEnded := true), e, StatusOf(e));
  }

  lemma ReportedBills(s: State, e: Event)
    requires e.ErrorReported?
    ensures Bills(s, Step(s, e), e)
  {
    hide Bills, End;
    StillOpen(s, s, e);
    EndBills(s, s, e, Error);
    MovedBills(s, End(s, Error).(at := Over), End(s, Error), e);
  }

  lemma ReturnedBills(s: State, e: Event)
    ensures Bills(s, Returned(s), e)
  {
    hide Bills, MoveTo, ReleaseLease;
    var l := s.lease.(held := true);
    StillOpen(s, s, e);
    MoveBills(s, s.(lease := ReleaseLease(l)), Over, e);
    MoveBills(s, s.(lease := l), Upgrading, e);
  }

  lemma OpenedBills(s: State, e: Event)
    ensures Bills(s, OpenedSession(s), e)
  {
    hide Bills, MoveTo, CloseSession;
    var opens := s.session.(isSet := true, opens := s.session.opens + 1);
    StillOpen(s, s, e);
    MoveBills(s, s.(session := CloseSession(opens)), Over, e);
    MoveBills(s, s.(session := opens), Waiting, e);
  }

  lemma MovingBills(s: State, e: Event)
    requires e.LeaseReturned? || e.HandshakeDone? || e.CommandsDone? || e.SessionOpened? || e.CommandTaken?
    ensures Bills(s, Step(s, e), e)
  {
    hide Bills, Returned, OpenedSession;
    ReturnedBills(s, e);
    OpenedBills(s, e);
    StillOpen(s, s, e);
    StillOpen(s, s.(upgraded := true, at := Waiting), e);
    StillOpen(s, s.(at := Over), e);
    StillOpen(s, s.(at := Waiting), e);
  }

  lemma StepBills(s: State, e: Event)
    requires !e.AccountingWent?
    ensures Bills(s, Step(s, e), e)
  {
    hide Bills, Step;
    match e
    case Admitted(_) => BodyBills(s, e);
    case GateAnswered(_, _) => BodyBills(s, e);
    case Received(_, _) => BodyBills(s, e);
    case Selected(_, _) => BodyBills(s, e);
    case BodyThrew(_) => BodyBills(s, e);
    case LeaseReturned => MovingBills(s, e);
    case HandshakeDone => MovingBills(s, e);
    case CommandsDone => MovingBills(s, e);
    case SessionOpened => MovingBills(s, e);
    case CommandTaken => MovingBills(s, e);
    case ErrorReported => ReportedBills(s, e);
    case _ => CallbackBills(s, e);
  }

  lemma StepKeepsRecord(s: State, e: Event)
    requires Inv(s) && RecordInv(s) && !AccountingFails(e)
    ensures RecordInv(Step(s, e))
  {
    hide EndInv, PlaceInv, LeaseInv, SessionInv, Step;
    if e.AccountingWent? { AccountedKeepsRecord(s, e); } else { StepBills(s, e); }
  }

  lemma {:induction false} EndedSessionIsRecorded(events: seq<Event>)
    requires forall k :: 0 <= k < |events| ==> !AccountingFails(events[k])
    ensures var s := Run(events);
            s.ended.Some? && s.ended.value.selected && s.accounting.Finished? ==> s.recorded == 1
  {
    hide Step, Inv;
    if events != [] {
      var init, last := events[..|events| - 1], events[|events| - 1];
      assert forall k :: 0 <= k < |init| ==> init[k] == events[k];
      EndedSessionIsRecorded(init);
      RunKeepsInv(init);
      StepKeepsRecord(Run(init), last);
    }
  }

  lemma EndingStep(s: State, e: Event)
    ensures s.ended.Some? ==> Step(s, e).ended == s.ended
    ensures s.ended.None? && Step(s, e).ended.Some? ==>
              Step(s, e).ended.value.status == StatusOf(e) &&
              Step(s, e).ended.value.selected == (Step(s, e).identity && Step(s, e).selected)
  {
    hide Step, StatusOf;
    if e.AccountingWent? { AccountingKeepsEnding(s, e); } else { StepBills(s, e); }
  }

  lemma AccountingKeepsEnding(s: State, e: Event)
    requires e.AccountingWent?
    ensures Step(s, e).ended == s.ended
  {
    assert Step(s, e) == Accounted(s, e.ok);
    hide *;
    AccountedKeepsEnding(s, e.ok);
  }

  lemma AccountedKeepsEnding(s: State, ok: bool)
    ensures Accounted(s, ok).ended == s.ended
  {
    hide ReleaseLease;
  }

  // The first event that ends a session decides how it ended, for good: a client that
  // leaves and an abort cancel it, the upstream session says how it went, and everything
  // else is an error.
  lemma {:induction false} FirstEndDecides(before: seq<Event>, e: Event, after: seq<Event>)
    requires Run(before).ended.None? && Run(before + [e]).ended.Some?
    ensures Run(before + [e] + after).ended == Run(before + [e]).ended
    ensures var t := Run(before + [e]);
            t.ended.value.status == StatusOf(e) && t.ended.value.selected == (t.identity && t.selected)
  {
    hide Step, StatusOf;
    RunSnoc(before, e);
    EndingStep(Run(before), e);
    if after == [] {
      assert before + [e] + after == before + [e];
    } else {
      var init, last := after[..|after| - 1], after[|after| - 1];
      FirstEndDecides(before, e, init);
      assert before + [e] + after == before + [e] + init + [last];
      RunSnoc(before + [e] + init, last);
      EndingStep(Run(before + [e] + init), last);
    }
  }

  // ---- An ended socket comes to rest ----------------------------------------------------

  // The event that the await at this place is waiting for.
  predicate Awaits(s: State, e: Event) {
    match e
    case Admitted(_) => s.at.Admitting?
    case GateAnswered(_, _) => s.at.Acquiring?
    case LeaseReturned => s.at.Granted?
    case HandshakeDone => s.at.Upgrading?
    case Received(_, _) => s.at.Waiting?
    case CommandsDone => s.at.Waiting? && s.commandsEnded
    case Selected(_, _) => s.at.Selecting?
    case SessionOpened => s.at.Opening?
    case CommandTaken => s.at.Commanding?
    case BodyThrew(_) => CanThrow(s.at)
    case ErrorReported => s.at.ReportingError?
    case _ => false
  }

  // How many awaits an ended body has at most before it.
  function AwaitsLeft(at: Place): nat {
    match at
    case Over => 0
    case Admitting => 1
    case Acquiring => 1
    case Granted => 1
    case ReportingError => 1
    case Waiting => 2
    case Opening => 2
    case _ => 3
  }

  lemma EndedStepGoesOn(s: State, e: Event)
    requires Inv(s) && s.ended.Some?
    ensures var t := Step(s, e);
            if Awaits(s, e) then AwaitsLeft(t.at) < AwaitsLeft(s.at) else t.at == s.at
  {
    hide BeginAccounting, Stop, ReleaseLease, CloseSession, Accounted, LeaseInv, SessionInv, BillInv;
    if e.AccountingWent? { AccountingStaysPut(s, e.ok); }
  }

  lemma AccountingStaysPut(s: State, ok: bool)
    ensures Accounted(s, ok).at == s.at
  {
  }

  // How often the body went on among the events after some others.
  ghost function TimesGoneOn(before: seq<Event>, after: seq<Event>): nat {
    if after == [] then 0
    else
      var init := after[..|after| - 1];
      TimesGoneOn(before, init) + if Awaits(Run(before + init), after[|after| - 1]) then 1 else 0
  }

  lemma {:induction false} EndedBodyGoesOn(before: seq<Event>, after: seq<Event>)
    requires Run(before).ended.Some?
    ensures var s := Run(before + after);
            && s.ended.Some?
            && AwaitsLeft(s.at) + TimesGoneOn(before, after) <= AwaitsLeft(Run(before).at)
            && (TimesGoneOn(before, after) == 0 ==> s.at == Run(before).at)
  {
    hide Step, Run, Awaits, AwaitsLeft;
    if after == [] {
      assert before + after == before;
    } else {
      var init, e := after[..|after| - 1], after[|after| - 1];
      EndedBodyGoesOn(before, init);
      assert before + after == before + init + [e];
      RunSnoc(before + init, e);
      RunKeepsInv(before + init);
      EndedStepGoesOn(Run(before + init), e);
      EndingStep(Run(before + init), e);
    }
  }

  lemma EndedIsAborted(s: State)
    requires Inv(s)
    ensures s.ended.Some? ==> s.aborted && !s.accounting.NotBegun?
  {
  }

  function StepsLeft(a: Accounting): nat {
    match a
    case Settling => 2
    case Recording => 1
    case _ => 0
  }

  function AccountingSteps(events: seq<Event>): nat {
    if events == [] then 0
    else AccountingSteps(events[..|events| - 1]) + if events[|events| - 1].AccountingWent? then 1 else 0
  }

  lemma AccountingGoesOn(s: State, e: Event)
    requires s.ended.Some?
    ensures var t := Step(s, e);
            if e.AccountingWent? && StepsLeft(s.accounting) > 0 then StepsLeft(t.accounting) < StepsLeft(s.accounting)
            else t.accounting == s.accounting
  {
    hide Step;
    if e.AccountingWent? { AccountingStepped(s, e.ok); } else { StepBills(s, e); }
  }

  lemma AccountingStepped(s: State, ok: bool)
    ensures var t := Step(s, AccountingWent(ok));
            if StepsLeft(s.accounting) > 0 then StepsLeft(t.accounting) < StepsLeft(s.accounting)
            else t.accounting == s.accounting
  {
    hide ReleaseLease, End;
  }

  lemma {:induction false} AccountingFinishes(before: seq<Event>, after: seq<Event>)
    requires Run(before).ended.Some?
    ensures var s := Run(before + after);
            s.ended.Some? &&
            (StepsLeft(s.accounting) == 0 ||
             StepsLeft(s.accounting) + AccountingSteps(after) <= StepsLeft(Run(before).accounting))
  {
    hide Step, Run, StepsLeft;
    if after == [] {
      assert before + after == before;
    } else {
      var init, e := after[..|after| - 1], after[|after| - 1];
      AccountingFinishes(before, init);
      assert before + after == before + init + [e];
      RunSnoc(before + init, e);
      AccountingGoesOn(Run(before + init), e);
      EndingStep(Run(before + init), e);
    }
  }

  // However a socket ends and whatever is still under way: when its body has gone on three
  // times and two accounting steps are through, failed or not, the body has returned, the
  // accounting is over, and whatever the socket got is given back, once.
  lemma {:induction false} EndedSocketComesToRest(before: seq<Event>, after: seq<Event>)
    requires Run(before).ended.Some?
    ensures var s := Run(before + after);
            && (TimesGoneOn(before, after) >= 3 ==> s.at.Over?)
            && (AccountingSteps(after) >= 2 ==> s.accounting.Finished?)
            && (TimesGoneOn(before, after) >= 3 && AccountingSteps(after) >= 2 ==>
                  s.lease.gateReleases == (if s.lease.granted then 1 else 0) && s.session.closes == s.session.opens)
  {
    hide Run;
    EndedBodyGoesOn(before, after);
    AccountingFinishes(before, after);
    RunKeepsInv(before + after);
    EndedSocketHoldsNothing(before + after);
    NothingIsReleasedEarly(before + after);
    hide Inv;
    GrantedBeforeRelease(before + after);
    RunKeepsInv(before + after);
    EndedIsAborted(Run(before + after));
  }

  lemma {:induction false} GrantedBeforeRelease(events: seq<Event>)
    ensures Run(events).lease.gateReleases > 0 ==> Run(events).lease.granted
  {
    hide Run;
    RunKeepsInv(events);
  }

  // ---- What a session needs, and who is told of an error -----------------------------------

  // A model that opens sessions was selected.
  ghost predicate SessionsOffered(events: seq<Event>) {
    Selected(true, true) in events || Selected(true, false) in events
  }

  // A step of the body that finds the client's socket open.
  predicate FromOpenClient(e: Event) {
    (e.Received? || e.Selected? || e.BodyThrew?) && e.clientOpen
  }

  // What one step may do to the session, to the place of the body and to the handshake.
  ghost predicate SessionMoves(s: State, t: State, e: Event) {
    && (t.at.Opening? ==> s.at.Opening? || (e.Selected? && e.opensSessions))
    && (t.session.opens > s.session.opens || (t.session.isSet && !s.session.isSet) ==>
          s.at.Opening? && e == SessionOpened)
    && (t.at.Commanding? ==> s.at.Commanding? || s.session.isSet)
    && (s.session.isSet ==> t.session.isSet)
    && (t.upgraded ==> s.upgraded || e == HandshakeDone)
    && (t.at.ReportingError? && !s.at.ReportingError? ==> s.upgraded && FromOpenClient(e))
  }

  // States whose session has not changed but for being closed.
  ghost predicate SameSession(s: State, t: State) {
    && t.session.isSet == s.session.isSet && t.session.opens == s.session.opens && t.upgraded == s.upgraded
  }

  lemma EndKeepsSession(s: State, status: Status)
    ensures SameSession(s, End(s, status)) && End(s, status).at == s.at
  {
    hide ReleaseLease;
  }

  lemma SameMoves(s: State, t: State, e: Event)
    ensures SameSession(s, t) && (t.at == s.at || t.at.Over?) ==> SessionMoves(s, t, e)
  {
  }

  lemma CaughtMoves(s: State, u: State, e: Event, clientOpen: bool)
    requires SameSession(s, u) && (clientOpen ==> FromOpenClient(e))
    ensures SessionMoves(s, Caught(u, clientOpen), e)
  {
    hide End;
    EndKeepsSession(u, Error);
  }

  lemma AdmittedMoves(s: State, budget: bool, e: Event)
    ensures SessionMoves(s, AdmittedStep(s, budget), e)
  {
    hide Caught;
    CaughtMoves(s, s.(identity := true, budget := budget, at := Acquiring), e, false);
  }

  lemma PlaceMoves(s: State, u: State, at: Place, e: Event)
    requires SameSession(s, u) && !at.Opening? && !at.ReportingError? && (at.Commanding? ==> s.session.isSet)
    ensures SessionMoves(s, MoveTo(u, at), e)
  {
  }

  lemma GateMoves(s: State, ok: bool, lost: bool, e: Event)
    ensures SessionMoves(s, Gate(s, ok, lost), e)
  {
    hide Caught, MoveTo, SessionMoves;
    SameMoves(s, s, e);
    CaughtMoves(s, s, e, false);
    CaughtMoves(s, s.(lease := s.lease.(granted := true, gateReleases := s.lease.gateReleases + 1)), e, false);
    PlaceMoves(s, s.(lease := s.lease.(granted := true)), Granted, e);
  }

  lemma CommandMoves(s: State, command: Command, clientOpen: bool)
    ensures SessionMoves(s, Commanded(s, command, clientOpen), Received(command, clientOpen))
  {
    hide Caught, SessionMoves, MoveTo;
    var e := Received(command, clientOpen);
    SameMoves(s, s, e);
    CaughtMoves(s, s, e, clientOpen);
    PlaceMoves(s, s, Over, e);
    PlaceMoves(s, s.(started := true), Selecting, e);
    if s.session.isSet { PlaceMoves(s, s, Commanding, e); }
  }

  lemma ChosenMoves(s: State, opensSessions: bool, clientOpen: bool)
    ensures SessionMoves(s, Chosen(s, opensSessions, clientOpen), Selected(opensSessions, clientOpen))
  {
    hide Caught;
    CaughtMoves(s, s.(selected := true), Selected(opensSessions, clientOpen), clientOpen);
  }

  lemma ReturnedMoves(s: State, e: Event)
    ensures SessionMoves(s, Returned(s), e)
  {
    hide ReleaseLease, MoveTo, SessionMoves;
    var l := s.lease.(held := true);
    SameMoves(s, s, e);
    PlaceMoves(s, s.(lease := ReleaseLease(l)), Over, e);
    PlaceMoves(s, s.(lease := l), Upgrading, e);
  }

  lemma ArrivalMoves(s: State, opens: Session, at: Place)
    requires s.at.Opening? && opens.isSet && (at.Over? || at.Waiting?)
    ensures SessionMoves(s, MoveTo(s.(session := opens), at), SessionOpened)
  {
  }

  lemma OpenedMoves(s: State)
    ensures SessionMoves(s, OpenedSession(s), SessionOpened)
  {
    hide SessionMoves, MoveTo;
    if s.at.Opening? {
      var opens := s.session.(isSet := true, opens := s.session.opens + 1);
      ArrivalMoves(s, CloseSession(opens), Over);
      ArrivalMoves(s, opens, Waiting);
    } else {
      SameMoves(s, s, SessionOpened);
    }
  }

  lemma AccountedMoves(s: State, ok: bool)
    ensures SameSession(s, Accounted(s, ok)) && Accounted(s, ok).at == s.at
  {
    hide ReleaseLease;
  }

  lemma CallbackMoves(s: State, e: Event)
    requires e.AbortRequested? || e.ClientClosed? || e.ClientFailed? || e.BinaryMessage? || e.UpstreamEnded?
    ensures SessionMoves(s, Step(s, e), e)
  {
    hide End, SessionMoves;
    SameMoves(s, Step(s, e), e);
    EndKeepsSession(s, StatusOf(e));
    EndKeepsSession(s.(commandsEnded := true), StatusOf(e));
  }

  lemma SessionStep(s: State, e: Event)
    ensures SessionMoves(s, Step(s, e), e)
  {
    hide End, SessionMoves, Caught, AdmittedStep, Gate, Commanded, Chosen, Returned, OpenedSession, Accounted;
    SameMoves(s, Step(s, e), e);
    match e
    case Admitted(budget) => AdmittedMoves(s, budget, e);
    case GateAnswered(ok, lost) => GateMoves(s, ok, lost, e);
    case LeaseReturned => ReturnedMoves(s, e);
    case HandshakeDone => HandshakeMoves(s);
    case Received(command, clientOpen) => CommandMoves(s, command, clientOpen);
    case CommandsDone =>
    case Selected(opensSessions, clientOpen) => ChosenMoves(s, opensSessions, clientOpen);
    case SessionOpened => OpenedMoves(s);
    case CommandTaken => TakenMoves(s);
    case BodyThrew(clientOpen) => CaughtMoves(s, s, e, clientOpen);
    case ErrorReported => EndKeepsSession(s, Error);
    case AccountingWent(ok) => AccountedMoves(s, ok);
    case _ => CallbackMoves(s, e);
  }

  lemma HandshakeMoves(s: State)
    ensures SessionMoves(s, Step(s, HandshakeDone), HandshakeDone)
  {
  }

  lemma TakenMoves(s: State)
    ensures SessionMoves(s, Step(s, CommandTaken), CommandTaken)
  {
  }

  // An upstream session is opened only for a model that offers them, and takes commands
  // only once it is there; an error is reported only to a client whose socket is open.
  lemma {:induction false} SessionsAreOffered(events: seq<Event>, e: Event)
    ensures var s := Run(events);
            && (s.at.Opening? || s.session.opens > 0 ==> SessionsOffered(events))
            && (s.at.Commanding? ==> s.session.isSet)
            && (s.session.isSet ==> SessionOpened in events) && (s.upgraded ==> HandshakeDone in events)
    ensures !Run(events).at.ReportingError? && Run(events + [e]).at.ReportingError? ==>
              Run(events).upgraded && FromOpenClient(e)
    decreases |events|
  {
    hide Step;
    RunSnoc(events, e);
    SessionStep(Run(events), e);
    if events != [] {
      var init, last := events[..|events| - 1], events[|events| - 1];
      SessionsAreOffered(init, last);
      SessionStep(Run(init), last);
      assert events == init + [last];
      if last.Selected? && last.opensSessions { assert last == Selected(true, last.clientOpen); }
    }
  }

  // Who may end a socket: an abort always, the client once its socket is upgraded, the
  // upstream session once it is there, and neither of the two before.
  lemma {:induction false} CallbacksEndTheSocket(events: seq<Event>, status: Status)
    ensures var s := Run(events);
            && Run(events + [AbortRequested]).ended.Some?
            && (s.upgraded ==> Run(events + [ClientClosed]).ended.Some? && Run(events + [ClientFailed]).ended.Some?)
            && (s.upgraded ==> Run(events + [BinaryMessage]).ended.Some?)
            && (s.session.isSet ==> Run(events + [UpstreamEnded(status)]).ended.Some?)
    ensures forall e ::
              Run(events).ended.None? && Run(events + [e]).ended.Some? ==>
                && (e.ClientClosed? || e.ClientFailed? || e.BinaryMessage? ==> HandshakeDone in events)
                && (e.UpstreamEnded? ==> SessionOpened in events)
  {
    hide Run, Step;
    SessionsAreOffered(events, AbortRequested);
    forall e { RunSnoc(events, e); }
    forall e { CallbackEnds(Run(events), e); }
  }

  lemma EndEnds(s: State, status: Status)
    ensures End(s, status).ended.Some?
  {
    hide ReleaseLease;
  }

  lemma CallbackEnds(s: State, e: Event)
    ensures s.ended.Some? ==> Step(s, e).ended.Some?
    ensures e.AbortRequested? ==> Step(s, e).ended.Some?
    ensures e.ClientClosed? || e.ClientFailed? || e.BinaryMessage? ==>
              (Step(s, e).ended.Some? <==> s.ended.Some? || s.upgraded)
    ensures e.UpstreamEnded? ==> (Step(s, e).ended.Some? <==> s.ended.Some? || s.session.isSet)
  {
    EndingStep(s, e);
    EndEnds(s, StatusOf(e));
    EndEnds(s.(commandsEnded := true), StatusOf(e));
    hide End, Caught, AdmittedStep, Gate, Commanded, Chosen, Returned, OpenedSession, Accounted;
  }
}
