// The receiving side of one upstream Codex socket
// (apps/gateway/src/codex-responses-websocket.ts, WsCodexConnection).
//
// Every callback of the socket and every call of a reader is one atomic event. A lease
// is named by the order in which the admission granted it, a reader by the order in
// which it called receive.
module CodexConnection {
  import opened JsonValues

  datatype Failure =
    | CapacityExceeded
    | KeepAliveTimedOut
    | PingFailed
    | InvalidMessage
    | TransportFailed(message: string)

  // The three values of `terminal`: undefined, null and an Error.
  datatype Terminal = Open | Ended | Failed(error: Failure)

  datatype Frame = Frame(text: string, bytes: nat, lease: nat)

  datatype Outcome = Delivered(frame: Frame) | EndOfStream | Rejected(error: Failure)

  datatype Answer = Answer(reader: nat, outcome: Outcome)

  datatype CloseDetails = CloseDetails(code: int, reason: string)

  datatype Event =
    | Message(text: Option<string>, bytes: nat, admitted: bool)  // text None: decoding threw
    | TransportClosed(details: CloseDetails)
    | TransportError(message: string)
    | Pong
    | IntervalFired(socketOpen: bool, pingThrows: bool)
    | TimeoutFired
    | ReadWithWork
    | ReadText                    // receive(): releases the lease once it has the text
    | FinishReadText(reader: nat) // the continuation of that receive() call
    | Dispose                     // close()

  // `answers` and `released` record what the connection did to readers and leases, in
  // order. `accepted`, `discarded` and `held` are history: frames that entered the queue
  // or went straight to a reader, frames thrown away unread, and leases owned by readers.
  datatype State = State(
    pending: seq<Frame>,
    pendingBytes: int,
    waiters: seq<nat>,
    terminal: Terminal,
    closeDetails: Option<CloseDetails>,
    intervalArmed: bool,
    timeoutArmed: bool,
    answers: seq<Answer>,
    released: seq<nat>,
    acquired: nat,
    readCount: nat,
    textReads: set<nat>,
    accepted: seq<Frame>,
    discarded: seq<Frame>,
    held: multiset<nat>)

  function Initial(): State {
    State([], 0, [], Open, None, true, false, [], [], 0, 0, {}, [], [], multiset{})
  }

  function Leases(frames: seq<Frame>): seq<nat> {
    seq(|frames|, i requires 0 <= i < |frames| => frames[i].lease)
  }

  lemma LeasesAppend(frames: seq<Frame>, frame: Frame)
    ensures Leases(frames + [frame]) == Leases(frames) + [frame.lease]
  {
  }

  function Bytes(frames: seq<Frame>): nat {
    if frames == [] then 0 else frames[0].bytes + Bytes(frames[1..])
  }

  function OutcomeOf(value: Terminal): Outcome
    requires value != Open
  {
    if value.Failed? then Rejected(value.error) else EndOfStream
  }

  function AnswerAll(readers: seq<nat>, outcome: Outcome): seq<Answer> {
    seq(|readers|, i requires 0 <= i < |readers| => Answer(readers[i], outcome))
  }

  function Discarded(s: State): State {
    s.(pending := [], pendingBytes := 0,
       released := s.released + Leases(s.pending), discarded := s.discarded + s.pending)
  }

  function Closed(s: State, value: Terminal): State
    requires value != Open
  {
    if s.terminal != Open then s else
    s.(intervalArmed := false, timeoutArmed := false, terminal := value,
       waiters := [], answers := s.answers + AnswerAll(s.waiters, OutcomeOf(value)))
  }

  function Terminated(s: State, value: Terminal, discardPending: bool): State
    requires value != Open
  {
    Closed(if discardPending then Discarded(s) else s, value)
  }

  // A decoded frame goes to the longest waiting reader, or into the buffer if it fits.
  function Admitted(s: State, frame: Frame, maxPendingBytes: int): State {
    if s.waiters != [] then
      s.(waiters := s.waiters[1..], answers := s.answers + [Answer(s.waiters[0], Delivered(frame))],
         accepted := s.accepted + [frame], held := s.held + multiset{frame.lease})
    else if maxPendingBytes > 0 && s.pendingBytes + frame.bytes > maxPendingBytes then
      Terminated(s.(released := s.released + [frame.lease]), Failed(CapacityExceeded), true)
    else
      s.(pending := s.pending + [frame], pendingBytes := s.pendingBytes + frame.bytes,
         accepted := s.accepted + [frame])
  }

  function Enqueued(s: State, text: Option<string>, bytes: nat, admitted: bool, maxPendingBytes: int): State {
    if s.terminal != Open then s
    else if !admitted then Terminated(s, Failed(CapacityExceeded), true)
    else
      var lease := s.acquired;
      var t := s.(acquired := s.acquired + 1);
      if text.None? then Terminated(t.(released := t.released + [lease]), Failed(InvalidMessage), false)
      else
        Admitted(t, Frame(text.value, bytes, lease), maxPendingBytes)
  }

  function Received(s: State): State {
    var reader := s.readCount;
    var t := s.(readCount := s.readCount + 1);
    if t.pending != [] then
      var next := t.pending[0];
      t.(pending := t.pending[1..], pendingBytes := t.pendingBytes - next.bytes,
         answers := t.answers + [Answer(reader, Delivered(next))], held := t.held + multiset{next.lease})
    else if t.terminal != Open then
      t.(answers := t.answers + [Answer(reader, OutcomeOf(t.terminal))])
    else
      t.(waiters := t.waiters + [reader])
  }

  // The continuation of a receive() call runs once, after its message has arrived.
  predicate ReadyToFinish(s: State, reader: nat) {
    reader in s.textReads && reader < |s.answers| && s.answers[reader].outcome.Delivered?
  }

  function Step(s: State, e: Event, maxPendingBytes: int): State {
    match e
    case Message(text, bytes, admitted) => Enqueued(s, text, bytes, admitted, maxPendingBytes)
    case TransportClosed(details) => Terminated(s.(closeDetails := Some(details)), Ended, false)
    case TransportError(message) => Terminated(s, Failed(TransportFailed(message)), false)
    case Pong => if s.timeoutArmed then s.(timeoutArmed := false, intervalArmed := true) else s
    case IntervalFired(socketOpen, pingThrows) =>
      if !s.intervalArmed then s else
      var t := s.(intervalArmed := false);
      if t.terminal != Open || !socketOpen then t
      else if pingThrows then Terminated(t.(timeoutArmed := true), Failed(PingFailed), false)
      else t.(timeoutArmed := true)
    case TimeoutFired =>
      if !s.timeoutArmed then s else Terminated(s.(timeoutArmed := false), Failed(KeepAliveTimedOut), false)
    case ReadWithWork => Received(s)
    case ReadText => Received(s).(textReads := s.textReads + {s.readCount})
    case FinishReadText(reader) =>
      if !ReadyToFinish(s, reader) then s else
      var lease := s.answers[reader].outcome.frame.lease;
      s.(textReads := s.textReads - {reader}, released := s.released + [lease], held := s.held - multiset{lease})
    case Dispose => Terminated(s, Ended, true)
  }

  function Run(s: State, events: seq<Event>, maxPendingBytes: int): State
    decreases |events|
  {
    if events == [] then s
    else Step(Run(s, events[..|events| - 1], maxPendingBytes), events[|events| - 1], maxPendingBytes)
  }

  // ---- The class -----------------------------------------------------------------

  class WsCodexConnection {
    const maxPendingBytes: int
    var pending: seq<Frame>
    var pendingBytes: int
    var waiters: seq<nat>
    var terminal: Terminal
    var closeDetails: Option<CloseDetails>
    var intervalArmed: bool
    var timeoutArmed: bool
    // What the outside has seen of the connection.
    var answers: seq<Answer>
    var released: seq<nat>
    var acquired: nat
    var readCount: nat
    var textReads: set<nat>
    ghost var accepted: seq<Frame>
    ghost var discarded: seq<Frame>
    ghost var held: multiset<nat>

    ghost function View(): State
      reads this
    {
      State(pending, pendingBytes, waiters, terminal, closeDetails, intervalArmed, timeoutArmed,
            answers, released, acquired, readCount, textReads, accepted, discarded, held)
    }

    constructor (maxPendingBytes: int)
      ensures View() == Initial() && this.maxPendingBytes == maxPendingBytes
    {
      this.maxPendingBytes := maxPendingBytes;
      pending, pendingBytes, waiters, terminal, closeDetails := [], 0, [], Open, None;
      intervalArmed, timeoutArmed := true, false;
      answers, released, acquired, readCount, textReads := [], [], 0, 0, {};
      accepted, discarded, held := [], [], multiset{};
    }

    method Terminate(value: Terminal, discardPending: bool)
      requires value != Open
      modifies this
      ensures View() == Terminated(old(View()), value, discardPending)
    {
      if discardPending {
        ReleasePending();
      }
      if terminal != Open { return; }
      ClearKeepAlive();
      terminal := value;
      AnswerWaiters();
    }

    method ReleasePending()
      modifies this
      ensures View() == Discarded(old(View()))
    {
      var batch := pending;
      pending := [];
      for i := 0 to |batch|
        modifies `released
        invariant released == old(released) + Leases(batch[..i])
      {
        assert Leases(batch[..i + 1]) == Leases(batch[..i]) + [batch[i].lease];
        released := released + [batch[i].lease];
      }
      assert batch[..|batch|] == batch;
      pendingBytes := 0;
      discarded := discarded + batch;
    }

    method AnswerWaiters()
      requires terminal != Open
      modifies this`waiters, this`answers
      ensures waiters == []
      ensures answers == old(answers) + AnswerAll(old(waiters), OutcomeOf(terminal))
    {
      var batch := waiters;
      waiters := [];
      for i := 0 to |batch|
        modifies `answers
        invariant answers == old(answers) + AnswerAll(batch[..i], OutcomeOf(terminal))
      {
        assert AnswerAll(batch[..i + 1], OutcomeOf(terminal))
            == AnswerAll(batch[..i], OutcomeOf(terminal)) + [Answer(batch[i], OutcomeOf(terminal))];
        answers := answers + [Answer(batch[i], OutcomeOf(terminal))];
      }
      assert batch[..|batch|] == batch;
    }

    method ClearKeepAlive()
      modifies this`intervalArmed, this`timeoutArmed
      ensures !intervalArmed && !timeoutArmed
    {
      intervalArmed := false;
      timeoutArmed := false;
    }

    method FailCapacity(currentRelease: Option<nat>)
      modifies this
      ensures View() == Terminated(
                          old(View()).(released := if currentRelease.None? then old(released)
                                                   else old(released) + [currentRelease.value]),
                          Failed(CapacityExceeded), true)
    {
      if currentRelease.Some? {
        released := released + [currentRelease.value];
      }
      Terminate(Failed(CapacityExceeded), true);
    }

    method EnqueueMessage(text: Option<string>, bytes: nat, admitted: bool)
      modifies this
      ensures View() == Enqueued(old(View()), text, bytes, admitted, maxPendingBytes)
    {
      hide Terminated, Admitted;
      if terminal != Open { return; }
      if !admitted {
        FailCapacity(None);
        return;
      }
      var lease := acquired;
      acquired := acquired + 1;
      assert View() == old(View()).(acquired := lease + 1);
      if text.None? {
        released := released + [lease];
        assert View() == old(View()).(acquired := lease + 1, released := old(released) + [lease]);
        Terminate(Failed(InvalidMessage), false);
        return;
      }
      Admit(Frame(text.value, bytes, lease));
    }

    method Admit(message: Frame)
      modifies this
      ensures View() == Admitted(old(View()), message, maxPendingBytes)
    {
      if waiters != [] {
        var waiter := waiters[0];
        waiters := waiters[1..];
        answers := answers + [Answer(waiter, Delivered(message))];
        accepted, held := accepted + [message], held + multiset{message.lease};
        return;
      }
      if maxPendingBytes > 0 && pendingBytes + message.bytes > maxPendingBytes {
        FailCapacity(Some(message.lease));
        return;
      }
      pending := pending + [message];
      pendingBytes := pendingBytes + message.bytes;
      accepted := accepted + [message];
    }

    method ReceiveWithWork() returns (reader: nat)
      modifies this
      ensures View() == Step(old(View()), ReadWithWork, maxPendingBytes) && reader == old(readCount)
    {
      hide Leases, Bytes, AnswerAll, Terminated;
      reader := readCount;
      if pending != [] {
        TakeFrame();
      } else if terminal != Open {
        TellEnd();
      } else {
        AwaitFrame();
      }
    }

    method TakeFrame()
      requires pending != []
      modifies this
      ensures View() == Received(old(View()))
    {
      hide Leases, Bytes, AnswerAll, Terminated, OutcomeOf;
      var next := ShiftPending();
      answers := answers + [Answer(readCount, Delivered(next))];
      held := held + multiset{next.lease};
      readCount := readCount + 1;
    }

    method ShiftPending() returns (next: Frame)
      requires pending != []
      modifies this`pending, this`pendingBytes
      ensures next == old(pending)[0] && pending == old(pending)[1..] && pendingBytes == old(pendingBytes) - next.bytes
    {
      next := pending[0];
      pending := pending[1..];
      pendingBytes := pendingBytes - next.bytes;
    }

    method TellEnd()
      requires pending == [] && terminal != Open
      modifies this
      ensures View() == Received(old(View()))
    {
      answers := answers + [Answer(readCount, if terminal.Failed? then Rejected(terminal.error) else EndOfStream)];
      readCount := readCount + 1;
    }

    method AwaitFrame()
      requires pending == [] && terminal == Open
      modifies this
      ensures View() == Received(old(View()))
    {
      waiters := waiters + [readCount];
      readCount := readCount + 1;
    }

    method Receive() returns (reader: nat)
      modifies this
      ensures View() == Step(old(View()), ReadText, maxPendingBytes) && reader == old(readCount)
    {
      reader := ReceiveWithWork();
      textReads := textReads + {reader};
    }

    method FinishReceive(reader: nat)
      modifies this
      ensures View() == Step(old(View()), FinishReadText(reader), maxPendingBytes)
    {
      if reader in textReads && reader < |answers| && answers[reader].outcome.Delivered? {
        var message := answers[reader].outcome.frame;
        textReads := textReads - {reader};
        released := released + [message.lease];
        held := held - multiset{message.lease};
      }
    }

    method OnClose(details: CloseDetails)
      modifies this
      ensures View() == Step(old(View()), TransportClosed(details), maxPendingBytes)
    {
      closeDetails := Some(details);
      Terminate(Ended, false);
    }

    method OnError(message: string)
      modifies this
      ensures View() == Step(old(View()), TransportError(message), maxPendingBytes)
    {
      Terminate(Failed(TransportFailed(message)), false);
    }

    method HandlePong()
      modifies this
      ensures View() == Step(old(View()), Pong, maxPendingBytes)
    {
      if !timeoutArmed { return; }
      timeoutArmed := false;
      intervalArmed := true;
    }

    method OnInterval(socketOpen: bool, pingThrows: bool)
      modifies this
      ensures View() == Step(old(View()), IntervalFired(socketOpen, pingThrows), maxPendingBytes)
    {
      if !intervalArmed { return; }
      intervalArmed := false;
      if terminal != Open || !socketOpen { return; }
      timeoutArmed := true;
      if pingThrows {
        Terminate(Failed(PingFailed), false);
      }
    }

    method OnTimeout()
      modifies this
      ensures View() == Step(old(View()), TimeoutFired, maxPendingBytes)
    {
      if !timeoutArmed { return; }
      timeoutArmed := false;
      Terminate(Failed(KeepAliveTimedOut), false);
    }

    method Close()
      modifies this
      ensures View() == Step(old(View()), Dispose, maxPendingBytes)
    {
      Terminate(Ended, true);
    }
  }

  // ---- What every run keeps ------------------------------------------------------

  ghost predicate QueueInv(pending: seq<Frame>, pendingBytes: int, waiters: seq<nat>, maxPendingBytes: int) {
    && (pending == [] || waiters == [])
    && pendingBytes == Bytes(pending)
    && (maxPendingBytes > 0 ==> pendingBytes <= maxPendingBytes)
  }

  function DeliveredCount(s: State): int {
    |s.accepted| - |s.discarded| - |s.pending|
  }

  // The first `delivered` readers have the first accepted frames, the others saw the end.
  ghost predicate InOrder(answers: seq<Answer>, accepted: seq<Frame>, delivered: int, terminal: Terminal) {
    && 0 <= delivered <= |answers|
    && delivered <= |accepted|
    && (forall i :: 0 <= i < delivered ==> answers[i] == Answer(i, Delivered(accepted[i])))
    && (delivered < |answers| ==> terminal != Open)
    && (forall i :: delivered <= i < |answers| ==> answers[i] == Answer(i, OutcomeOf(terminal)))
  }

  ghost predicate WaitersInOrder(waiters: seq<nat>, answered: nat, readCount: nat) {
    && readCount == answered + |waiters|
    && forall i :: 0 <= i < |waiters| ==> waiters[i] == answered + i
  }

  ghost function Granted(n: nat): multiset<nat> {
    multiset(seq(n, i requires 0 <= i < n => i))
  }

  ghost predicate LeasesRise(accepted: seq<Frame>, acquired: nat) {
    && (forall i, j :: 0 <= i < j < |accepted| ==> accepted[i].lease < accepted[j].lease)
    && (forall i :: 0 <= i < |accepted| ==> accepted[i].lease < acquired)
  }

  ghost predicate ReadsHold(textReads: set<nat>, answers: seq<Answer>, readCount: nat, held: multiset<nat>) {
    && (forall r :: r in textReads ==> r < readCount)
    && (forall r :: r in textReads && r < |answers| && answers[r].outcome.Delivered? ==>
          answers[r].outcome.frame.lease in held)
  }

  ghost predicate Inv(s: State, maxPendingBytes: int) {
    && QueueInv(s.pending, s.pendingBytes, s.waiters, maxPendingBytes)
    // Terminal: nobody waits and no timer is left.
    && (s.terminal != Open ==> s.waiters == [] && !s.intervalArmed && !s.timeoutArmed)
    && !(s.intervalArmed && s.timeoutArmed)
    // Order.
    && InOrder(s.answers, s.accepted, DeliveredCount(s), s.terminal)
    && s.accepted[DeliveredCount(s)..] == s.discarded + s.pending
    && WaitersInOrder(s.waiters, |s.answers|, s.readCount)
    && (DeliveredCount(s) < |s.answers| ==> s.pending == [])
    && (s.discarded != [] ==> s.terminal != Open && s.pending == [])
    // Every granted lease is in exactly one place.
    && multiset(s.released) + multiset(Leases(s.pending)) + s.held == Granted(s.acquired)
    && LeasesRise(s.accepted, s.acquired)
    && ReadsHold(s.textReads, s.answers, s.readCount, s.held)
  }

  lemma {:induction false} BytesAppend(frames: seq<Frame>, frame: Frame)
    ensures Bytes(frames + [frame]) == Bytes(frames) + frame.bytes
  {
    if frames != [] {
      assert (frames + [frame])[1..] == frames[1..] + [frame];
      BytesAppend(frames[1..], frame);
    }
  }

  lemma GrantedNext(n: nat)
    ensures Granted(n + 1) == Granted(n) + multiset{n}
  {
    assert seq(n + 1, i requires 0 <= i < n + 1 => i) == seq(n, i requires 0 <= i < n => i) + [n];
  }

  lemma GrantedOnce(n: nat, lease: nat)
    ensures Granted(n)[lease] == if lease < n then 1 else 0
  {
    if n > 0 {
      GrantedNext(n - 1);
      GrantedOnce(n - 1, lease);
    }
  }

  lemma ClosedKeepsInv(s: State, value: Terminal, maxPendingBytes: int)
    requires Inv(s, maxPendingBytes) && value != Open
    ensures Inv(Closed(s, value), maxPendingBytes)
  {
    var t := Closed(s, value);
    assert DeliveredCount(t) == DeliveredCount(s);
    assert InOrder(t.answers, t.accepted, DeliveredCount(s), t.terminal);
  }

  lemma DiscardedKeepsInv(s: State, maxPendingBytes: int)
    requires Inv(s, maxPendingBytes) && s.terminal != Open
    ensures Inv(Discarded(s), maxPendingBytes)
  {
    assert multiset(s.released + Leases(s.pending)) == multiset(s.released) + multiset(Leases(s.pending));
    assert Leases([]) == [];
    assert DeliveredCount(Discarded(s)) == DeliveredCount(s);
  }

  lemma TerminatedKeepsInv(s: State, value: Terminal, discardPending: bool, maxPendingBytes: int)
    requires Inv(s, maxPendingBytes) && value != Open
    ensures Inv(Terminated(s, value, discardPending), maxPendingBytes)
  {
    ClosedKeepsInv(s, value, maxPendingBytes);
    if discardPending {
      DiscardedKeepsInv(Closed(s, value), maxPendingBytes);
      assert Discarded(Closed(s, value)) == Terminated(s, value, true);
    }
  }

  lemma DeliverKeepsOrder(answers: seq<Answer>, accepted: seq<Frame>, frame: Frame, terminal: Terminal)
    requires InOrder(answers, accepted, |answers|, terminal)
    requires |answers| < |accepted| && accepted[|answers|] == frame
    ensures InOrder(answers + [Answer(|answers|, Delivered(frame))], accepted, |answers| + 1, terminal)
  {
  }

  // A read that finds a buffered frame takes its lease over.
  lemma TakenKeepsInv(s: State, maxPendingBytes: int)
    requires Inv(s, maxPendingBytes) && s.pending != []
    ensures Inv(Received(s), maxPendingBytes)
  {
    hide Granted, LeasesRise, InOrder, ReadsHold;
    var t := Received(s);
    var d, next := DeliveredCount(s), s.pending[0];
    OrderBounds(s.answers, s.accepted, d, s.terminal);
    assert s.discarded == [] && d == |s.answers|;
    assert s.accepted[d..][0] == next;
    assert t.accepted[d + 1..] == s.accepted[d..][1..];
    assert s.pending == [next] + s.pending[1..];
    assert Leases(s.pending) == [next.lease] + Leases(s.pending[1..]);
    assert multiset(Leases(s.pending)) == multiset{next.lease} + multiset(Leases(s.pending[1..]));
    DeliverKeepsOrder(s.answers, s.accepted, next, s.terminal);
    ReadsHoldNext(s.textReads, s.answers, s.readCount, s.readCount + 1, s.held, Answer(s.readCount, Delivered(next)),
                  next.lease);
  }

  lemma OrderBounds(answers: seq<Answer>, accepted: seq<Frame>, delivered: int, terminal: Terminal)
    requires InOrder(answers, accepted, delivered, terminal)
    ensures 0 <= delivered <= |answers| && delivered <= |accepted|
  {
  }

  lemma ReadsHoldNext(textReads: set<nat>, answers: seq<Answer>, readCount: nat, newCount: nat, held: multiset<nat>,
                      answer: Answer, lease: nat)
    requires ReadsHold(textReads, answers, readCount, held) && readCount <= newCount
    requires answer.outcome.Delivered? ==> answer.outcome.frame.lease == lease
    ensures ReadsHold(textReads, answers + [answer], newCount, held + multiset{lease})
  {
  }

  lemma ReceivedKeepsInv(s: State, maxPendingBytes: int)
    requires Inv(s, maxPendingBytes)
    ensures Inv(Received(s), maxPendingBytes)
  {
    hide Granted, LeasesRise;
    if s.pending != [] { TakenKeepsInv(s, maxPendingBytes); }
  }

  lemma EnqueuedKeepsInv(s: State, text: Option<string>, bytes: nat, admitted: bool, maxPendingBytes: int)
    requires Inv(s, maxPendingBytes)
    ensures Inv(Enqueued(s, text, bytes, admitted, maxPendingBytes), maxPendingBytes)
  {
    hide Inv, Terminated;
    if s.terminal != Open {
    } else if !admitted {
      TerminatedKeepsInv(s, Failed(CapacityExceeded), true, maxPendingBytes);
    } else if text.None? {
      RefusedKeepsInv(s, maxPendingBytes);
      TerminatedKeepsInv(Refused(s), Failed(InvalidMessage), false, maxPendingBytes);
    } else if s.waiters != [] {
      HandedKeepsInv(s, text.value, bytes, maxPendingBytes);
    } else if maxPendingBytes > 0 && s.pendingBytes + bytes > maxPendingBytes {
      RefusedKeepsInv(s, maxPendingBytes);
      TerminatedKeepsInv(Refused(s), Failed(CapacityExceeded), true, maxPendingBytes);
    } else {
      BufferedKeepsInv(s, text.value, bytes, maxPendingBytes);
    }
  }

  // A frame whose lease was granted and given back at once.
  function Refused(s: State): State {
    s.(acquired := s.acquired + 1, released := s.released + [s.acquired])
  }

  lemma RefusedKeepsInv(s: State, maxPendingBytes: int)
    requires Inv(s, maxPendingBytes)
    ensures Inv(Refused(s), maxPendingBytes)
  {
    GrantedNext(s.acquired);
    assert DeliveredCount(Refused(s)) == DeliveredCount(s);
  }

  // A frame that arrives while the connection is open changes nothing for earlier readers.
  lemma ArrivalKeepsOrder(answers: seq<Answer>, accepted: seq<Frame>, frame: Frame, delivered: int, terminal: Terminal)
    requires InOrder(answers, accepted, delivered, terminal) && LeasesRise(accepted, frame.lease)
    ensures InOrder(answers, accepted + [frame], delivered, terminal)
    ensures LeasesRise(accepted + [frame], frame.lease + 1)
  {
  }

  lemma HandedKeepsInv(s: State, text: string, bytes: nat, maxPendingBytes: int)
    requires Inv(s, maxPendingBytes) && s.terminal == Open && s.waiters != []
    ensures Inv(Enqueued(s, Some(text), bytes, true, maxPendingBytes), maxPendingBytes)
  {
    hide Granted, LeasesRise, InOrder, ReadsHold;
    var t := Enqueued(s, Some(text), bytes, true, maxPendingBytes);
    var frame := Frame(text, bytes, s.acquired);
    GrantedNext(s.acquired);
    OrderBounds(s.answers, s.accepted, DeliveredCount(s), s.terminal);
    NobodyWaitsLonger(s.answers, s.accepted, DeliveredCount(s));
    assert s.accepted[DeliveredCount(s)..] == [];
    ArrivalKeepsOrder(s.answers, s.accepted, frame, |s.answers|, Open);
    DeliverKeepsOrder(s.answers, t.accepted, frame, Open);
    assert t.accepted[DeliveredCount(t)..] == [];
    ReadsHoldNext(s.textReads, s.answers, s.readCount, s.readCount, s.held, Answer(s.waiters[0], Delivered(frame)),
                  frame.lease);
  }

  lemma NobodyWaitsLonger(answers: seq<Answer>, accepted: seq<Frame>, delivered: int)
    requires InOrder(answers, accepted, delivered, Open)
    ensures delivered == |answers|
  {
  }

  lemma BufferedKeepsInv(s: State, text: string, bytes: nat, maxPendingBytes: int)
    requires Inv(s, maxPendingBytes) && s.terminal == Open && s.waiters == []
    requires maxPendingBytes > 0 ==> s.pendingBytes + bytes <= maxPendingBytes
    ensures Inv(Enqueued(s, Some(text), bytes, true, maxPendingBytes), maxPendingBytes)
  {
    var t := Enqueued(s, Some(text), bytes, true, maxPendingBytes);
    var frame := Frame(text, bytes, s.acquired);
    GrantedNext(s.acquired);
    BytesAppend(s.pending, frame);
    LeasesAppend(s.pending, frame);
    hide InOrder, LeasesRise, ReadsHold, Granted, WaitersInOrder, Leases, Bytes;
    ArrivalKeepsOrder(s.answers, s.accepted, frame, DeliveredCount(s), Open);
    assert DeliveredCount(t) == DeliveredCount(s);
    assert t.accepted[DeliveredCount(s)..] == s.accepted[DeliveredCount(s)..] + [frame];
  }

  lemma FinishKeepsInv(s: State, reader: nat, maxPendingBytes: int)
    requires Inv(s, maxPendingBytes) && ReadyToFinish(s, reader)
    ensures Inv(Step(s, FinishReadText(reader), maxPendingBytes), maxPendingBytes)
  {
    var t := Step(s, FinishReadText(reader), maxPendingBytes);
    var lease := s.answers[reader].outcome.frame.lease;
    assert lease in s.held;
    assert DeliveredCount(t) == DeliveredCount(s);
    forall r | r in t.textReads && r < |t.answers| && t.answers[r].outcome.Delivered?
      ensures t.answers[r].outcome.frame.lease in t.held
    {
      assert r in s.textReads && r != reader;
      assert s.answers[r] == Answer(r, Delivered(s.accepted[r]));
      assert s.answers[reader] == Answer(reader, Delivered(s.accepted[reader]));
    }
  }

  lemma ReadTextHolds(s: State, maxPendingBytes: int)
    requires Inv(s, maxPendingBytes)
    ensures var t := Received(s); ReadsHold(s.textReads + {s.readCount}, t.answers, t.readCount, t.held)
  {
  }

  lemma TextReadsKeepInv(t: State, textReads: set<nat>, maxPendingBytes: int)
    requires Inv(t, maxPendingBytes)
    requires ReadsHold(textReads, t.answers, t.readCount, t.held)
    ensures Inv(t.(textReads := textReads), maxPendingBytes)
  {
    assert DeliveredCount(t.(textReads := textReads)) == DeliveredCount(t);
  }

  lemma ReadTextKeepsInv(s: State, maxPendingBytes: int)
    requires Inv(s, maxPendingBytes)
    ensures Inv(Step(s, ReadText, maxPendingBytes), maxPendingBytes)
  {
    hide Inv, Received, ReadsHold;
    ReceivedKeepsInv(s, maxPendingBytes);
    ReadTextHolds(s, maxPendingBytes);
    TextReadsKeepInv(Received(s), s.textReads + {s.readCount}, maxPendingBytes);
  }

  // Close details and keepalive timers are independent of the queue.
  lemma TimersKeepInv(s: State, t: State, maxPendingBytes: int)
    requires Inv(s, maxPendingBytes)
    requires t == s.(closeDetails := t.closeDetails, intervalArmed := t.intervalArmed, timeoutArmed := t.timeoutArmed)
    requires !(t.intervalArmed && t.timeoutArmed)
    requires s.terminal != Open ==> !t.intervalArmed && !t.timeoutArmed
    ensures Inv(t, maxPendingBytes)
  {
    assert DeliveredCount(t) == DeliveredCount(s);
  }

  lemma TimersOfInv(s: State, maxPendingBytes: int)
    requires Inv(s, maxPendingBytes)
    ensures !(s.intervalArmed && s.timeoutArmed)
    ensures s.terminal != Open ==> !s.intervalArmed && !s.timeoutArmed
  {
  }

  lemma StepKeepsInv(s: State, e: Event, maxPendingBytes: int)
    requires Inv(s, maxPendingBytes)
    ensures Inv(Step(s, e, maxPendingBytes), maxPendingBytes)
  {
    hide Inv, Terminated, Enqueued, Received;
    TimersOfInv(s, maxPendingBytes);
    match e
    case Message(text, bytes, admitted) => EnqueuedKeepsInv(s, text, bytes, admitted, maxPendingBytes);
    case TransportClosed(details) =>
      TimersKeepInv(s, s.(closeDetails := Some(details)), maxPendingBytes);
      TerminatedKeepsInv(s.(closeDetails := Some(details)), Ended, false, maxPendingBytes);
    case TransportError(message) => TerminatedKeepsInv(s, Failed(TransportFailed(message)), false, maxPendingBytes);
    case Pong =>
      if s.timeoutArmed {
        TimersKeepInv(s, s.(timeoutArmed := false, intervalArmed := true), maxPendingBytes);
      }
    case IntervalFired(socketOpen, pingThrows) => IntervalKeepsInv(s, socketOpen, pingThrows, maxPendingBytes);
    case TimeoutFired =>
      if s.timeoutArmed {
        TimersKeepInv(s, s.(timeoutArmed := false), maxPendingBytes);
        TerminatedKeepsInv(s.(timeoutArmed := false), Failed(KeepAliveTimedOut), false, maxPendingBytes);
      }
    case ReadWithWork => ReceivedKeepsInv(s, maxPendingBytes);
    case ReadText => ReadTextKeepsInv(s, maxPendingBytes);
    case FinishReadText(reader) =>
      if ReadyToFinish(s, reader) {
        FinishKeepsInv(s, reader, maxPendingBytes);
      }
    case Dispose => TerminatedKeepsInv(s, Ended, true, maxPendingBytes);
  }

  lemma IntervalKeepsInv(s: State, socketOpen: bool, pingThrows: bool, maxPendingBytes: int)
    requires Inv(s, maxPendingBytes)
    ensures Inv(Step(s, IntervalFired(socketOpen, pingThrows), maxPendingBytes), maxPendingBytes)
  {
    hide Inv, Terminated;
    TimersOfInv(s, maxPendingBytes);
    if s.intervalArmed {
      TimersKeepInv(s, s.(intervalArmed := false), maxPendingBytes);
      if socketOpen {
        TimersKeepInv(s, s.(intervalArmed := false, timeoutArmed := true), maxPendingBytes);
        if pingThrows {
          TerminatedKeepsInv(s.(intervalArmed := false, timeoutArmed := true), Failed(PingFailed), false,
                             maxPendingBytes);
        }
      }
    }
  }

  lemma {:induction false} RunKeepsInv(events: seq<Event>, maxPendingBytes: int)
    ensures Inv(Run(Initial(), events, maxPendingBytes), maxPendingBytes)
    decreases |events|
  {
    if events == [] {
      assert Leases([]) == [] && Granted(0) == multiset{};
    } else {
      hide Step, Inv;
      RunKeepsInv(events[..|events| - 1], maxPendingBytes);
      StepKeepsInv(Run(Initial(), events[..|events| - 1], maxPendingBytes), events[|events| - 1], maxPendingBytes);
    }
  }

  // ---- The plain queue the connection refines ------------------------------------

  // What readers 0, 1, 2, ... are told when `frames` is all that survives: reader i gets
  // frame i; the rest wait while the connection is open and see the end once it is not.
  function FifoAnswers(frames: seq<Frame>, readCount: nat, terminal: Terminal): seq<Answer> {
    var answered := if terminal == Open && |frames| < readCount then |frames| else readCount;
    seq(answered, i requires 0 <= i < answered =>
      Answer(i, if i < |frames| then Delivered(frames[i]) else
                if terminal == Open then EndOfStream else OutcomeOf(terminal)))
  }

  ghost predicate MatchesFifo(s: State) {
    && |s.discarded| <= |s.accepted|
    && s.answers == FifoAnswers(s.accepted[..|s.accepted| - |s.discarded|], s.readCount, s.terminal)
    && s.discarded == s.accepted[|s.accepted| - |s.discarded|..]
  }

  lemma {:induction false} RefinesFifo(events: seq<Event>, maxPendingBytes: int)
    ensures MatchesFifo(Run(Initial(), events, maxPendingBytes))
  {
    hide Run;
    RunKeepsInv(events, maxPendingBytes);
    var s := Run(Initial(), events, maxPendingBytes);
    var kept := s.accepted[..|s.accepted| - |s.discarded|];
    var expected := FifoAnswers(kept, s.readCount, s.terminal);
    var d := DeliveredCount(s);
    assert |expected| == |s.answers|;
    forall i | 0 <= i < |s.answers| ensures s.answers[i] == expected[i] {
      if i < d {
        assert kept[i] == s.accepted[i];
      } else {
        assert s.pending == [];
      }
    }
    if s.discarded != [] {
      assert s.accepted[d..] == s.discarded;
    }
  }

  function Texts(frames: seq<Frame>): seq<Option<string>> {
    seq(|frames|, i requires 0 <= i < |frames| => Some(frames[i].text))
  }

  // The messages the socket delivered, None where the bytes could not be decoded.
  function Messages(events: seq<Event>): seq<Option<string>>
    decreases |events|
  {
    if events == [] then []
    else
      var e := events[|events| - 1];
      Messages(events[..|events| - 1]) + (if e.Message? then [e.text] else [])
  }

  // What counts as accepted, told from the outside: every message up to the first
  // failure, and all of them while the connection is open.
  ghost predicate AcceptedMatches(s: State, messages: seq<Option<string>>) {
    && Texts(s.accepted) <= messages
    && (s.terminal == Open ==> Texts(s.accepted) == messages)
  }

  // A step accepts the message it brings, if the connection stays open, and nothing else.
  lemma StepAccepts(s: State, e: Event, maxPendingBytes: int)
    ensures var t := Step(s, e, maxPendingBytes);
            && (t.terminal == Open ==> s.terminal == Open)
            && (t.accepted == s.accepted ||
                (e.Message? && s.terminal == Open && |t.accepted| == |s.accepted| + 1 &&
                 t.accepted[..|s.accepted|] == s.accepted && Some(t.accepted[|s.accepted|].text) == e.text))
            && (t.terminal == Open && e.Message? ==> t.accepted != s.accepted)
  {
    hide Leases, AnswerAll;
  }

  lemma AcceptedStep(s: State, e: Event, messages: seq<Option<string>>, maxPendingBytes: int)
    requires AcceptedMatches(s, messages)
    ensures AcceptedMatches(Step(s, e, maxPendingBytes), messages + (if e.Message? then [e.text] else []))
  {
    hide Step;
    StepAccepts(s, e, maxPendingBytes);
    var t := Step(s, e, maxPendingBytes);
    if t.accepted != s.accepted {
      assert Texts(t.accepted) == Texts(s.accepted) + [e.text];
    }
  }

  lemma {:induction false} AcceptedIsWhatArrived(events: seq<Event>, maxPendingBytes: int)
    ensures AcceptedMatches(Run(Initial(), events, maxPendingBytes), Messages(events))
    decreases |events|
  {
    hide Step;
    if events != [] {
      var init := events[..|events| - 1];
      AcceptedIsWhatArrived(init, maxPendingBytes);
      AcceptedStep(Run(Initial(), init, maxPendingBytes), events[|events| - 1], Messages(init), maxPendingBytes);
    }
  }

  // The first end is the last word: no later event changes it or lets a frame in.
  ghost predicate SameEnd(s: State, t: State) {
    t.terminal == s.terminal && t.accepted == s.accepted && t.acquired == s.acquired
  }

  lemma TerminalStep(s: State, e: Event, maxPendingBytes: int)
    requires Inv(s, maxPendingBytes) && s.terminal != Open
    ensures SameEnd(s, Step(s, e, maxPendingBytes))
  {
    hide Leases, AnswerAll;
  }

  lemma {:induction false} TerminalIsFinal(before: seq<Event>, after: seq<Event>, maxPendingBytes: int)
    requires Run(Initial(), before, maxPendingBytes).terminal != Open
    ensures SameEnd(Run(Initial(), before, maxPendingBytes), Run(Initial(), before + after, maxPendingBytes))
    decreases |after|
  {
    hide Step, Inv;
    if after == [] {
      assert before + after == before;
    } else {
      var init := after[..|after| - 1];
      TerminalIsFinal(before, init, maxPendingBytes);
      assert (before + after)[..|before + after| - 1] == before + init;
      RunKeepsInv(before + init, maxPendingBytes);
      TerminalStep(Run(Initial(), before + init, maxPendingBytes), after[|after| - 1], maxPendingBytes);
    }
  }

  lemma DiscardStep(s: State, e: Event, maxPendingBytes: int)
    requires Inv(s, maxPendingBytes) && e != Dispose
    requires s.discarded != [] ==> s.terminal == Failed(CapacityExceeded)
    ensures var t := Step(s, e, maxPendingBytes); t.discarded != [] ==> t.terminal == Failed(CapacityExceeded)
  {
    hide Leases, AnswerAll;
  }

  lemma {:induction false} OnlyDisposalDiscards(events: seq<Event>, maxPendingBytes: int)
    requires Dispose !in events
    ensures var s := Run(Initial(), events, maxPendingBytes);
            s.discarded != [] ==> s.terminal == Failed(CapacityExceeded)
    decreases |events|
  {
    hide Step, Inv;
    if events != [] {
      var init := events[..|events| - 1];
      OnlyDisposalDiscards(init, maxPendingBytes);
      RunKeepsInv(init, maxPendingBytes);
      assert events[|events| - 1] in events;
      DiscardStep(Run(Initial(), init, maxPendingBytes), events[|events| - 1], maxPendingBytes);
    }
  }

  // ---- What ends a connection, and what its readers are told ------------------------

  // Whether an event ends a connection that is open.
  ghost predicate Ends(s: State, e: Event, maxPendingBytes: int) {
    match e
    case Message(text, bytes, admitted) =>
      !admitted || text.None? || (s.waiters == [] && maxPendingBytes > 0 && s.pendingBytes + bytes > maxPendingBytes)
    case TransportClosed(_) => true
    case TransportError(_) => true
    case IntervalFired(socketOpen, pingThrows) => s.intervalArmed && socketOpen && pingThrows
    case TimeoutFired => s.timeoutArmed
    case Dispose => true
    case _ => false
  }

  // What that event tells every reader for whom there is no frame.
  function Farewell(e: Event): Outcome {
    match e
    case Message(text, _, admitted) => Rejected(if admitted && text.None? then InvalidMessage else CapacityExceeded)
    case TransportError(message) => Rejected(TransportFailed(message))
    case IntervalFired(_, _) => Rejected(PingFailed)
    case TimeoutFired => Rejected(KeepAliveTimedOut)
    case _ => EndOfStream
  }

  lemma EndingStep(s: State, e: Event, maxPendingBytes: int)
    requires s.terminal == Open
    ensures var t := Step(s, e, maxPendingBytes);
            && (t.terminal != Open <==> Ends(s, e, maxPendingBytes))
            && (t.terminal != Open ==> OutcomeOf(t.terminal) == Farewell(e))
  {
    hide Leases, AnswerAll;
  }

  lemma EndAnswers(s: State, maxPendingBytes: int, reader: nat)
    requires Inv(s, maxPendingBytes) && reader < |s.answers|
    ensures s.answers[reader].outcome.Delivered? ||
            (s.terminal != Open && s.answers[reader].outcome == OutcomeOf(s.terminal))
  {
  }

  // The event that ends an open connection decides, for every reader now or later who gets
  // no frame, whether the response has ended cleanly or failed, and with which failure.
  lemma {:induction false} ReadersAreToldWhatEndedIt(before: seq<Event>, e: Event, after: seq<Event>,
                                                     maxPendingBytes: int, reader: nat)
    requires Run(Initial(), before, maxPendingBytes).terminal == Open
    ensures Run(Initial(), before + [e], maxPendingBytes).terminal != Open <==>
            Ends(Run(Initial(), before, maxPendingBytes), e, maxPendingBytes)
    ensures var s := Run(Initial(), before + [e] + after, maxPendingBytes);
            Run(Initial(), before + [e], maxPendingBytes).terminal != Open && reader < |s.answers| ==>
              s.answers[reader].outcome.Delivered? || s.answers[reader].outcome == Farewell(e)
  {
    hide Step, Inv, Ends, Farewell, OutcomeOf;
    assert (before + [e])[..|before|] == before;
    EndingStep(Run(Initial(), before, maxPendingBytes), e, maxPendingBytes);
    var s := Run(Initial(), before + [e] + after, maxPendingBytes);
    if Run(Initial(), before + [e], maxPendingBytes).terminal != Open && reader < |s.answers| {
      TerminalIsFinal(before + [e], after, maxPendingBytes);
      RunKeepsInv(before + [e] + after, maxPendingBytes);
      EndAnswers(s, maxPendingBytes, reader);
    }
  }

  // A close or error of the transport loses nothing: a reader sees the end only after
  // every accepted frame has been delivered, to readers who called earlier.
  lemma {:induction false} EndComesAfterEveryFrame(events: seq<Event>, maxPendingBytes: int, reader: nat)
    requires Dispose !in events
    requires Run(Initial(), events, maxPendingBytes).terminal != Failed(CapacityExceeded)
    requires reader < |Run(Initial(), events, maxPendingBytes).answers|
    ensures var s := Run(Initial(), events, maxPendingBytes);
            if reader < |s.accepted| then s.answers[reader] == Answer(reader, Delivered(s.accepted[reader]))
            else s.terminal != Open && s.answers[reader] == Answer(reader, OutcomeOf(s.terminal)) && s.pending == [] &&
                 forall i :: 0 <= i < |s.accepted| ==> s.answers[i] == Answer(i, Delivered(s.accepted[i]))
  {
    hide Run;
    OnlyDisposalDiscards(events, maxPendingBytes);
    RefinesFifo(events, maxPendingBytes);
    RunKeepsInv(events, maxPendingBytes);
  }

  // Each lease the admission granted is released once, or waits in the buffer, or belongs
  // to one reader.
  lemma {:induction false} EveryLeaseHasOneOwner(events: seq<Event>, maxPendingBytes: int, lease: nat)
    ensures var s := Run(Initial(), events, maxPendingBytes);
            multiset(s.released)[lease] + multiset(Leases(s.pending))[lease] + s.held[lease]
            == if lease < s.acquired then 1 else 0
  {
    hide Run;
    RunKeepsInv(events, maxPendingBytes);
    var s := Run(Initial(), events, maxPendingBytes);
    GrantedOnce(s.acquired, lease);
    assert (multiset(s.released) + multiset(Leases(s.pending)) + s.held)[lease]
        == multiset(s.released)[lease] + multiset(Leases(s.pending))[lease] + s.held[lease];
  }

  // After a disposal nothing is buffered: what no reader holds has been released.
  lemma {:induction false} DisposalReleasesUnread(events: seq<Event>, maxPendingBytes: int, lease: nat)
    ensures var s := Run(Initial(), events + [Dispose], maxPendingBytes);
            && s.pending == [] && s.terminal != Open
            && (lease < s.acquired && lease !in s.held ==> multiset(s.released)[lease] == 1)
  {
    assert (events + [Dispose])[..|events|] == events;
    EveryLeaseHasOneOwner(events + [Dispose], maxPendingBytes, lease);
  }

  // ---- Whose lease it is ----------------------------------------------------------

  // From s to t answers and releases are only added, and who gets a frame gets its lease.
  ghost predicate Answers(s: State, t: State) {
    && s.answers <= t.answers && s.released <= t.released
    && forall r: nat :: |s.answers| <= r < |t.answers| && t.answers[r].outcome.Delivered? ==>
         t.answers[r].outcome.frame.lease in t.held
  }

  lemma TerminatedAnswers(s: State, value: Terminal, discardPending: bool)
    requires value != Open
    ensures Answers(s, Terminated(s, value, discardPending))
    ensures s.held == Terminated(s, value, discardPending).held
  {
    hide Leases;
  }

  lemma AnswersAfterRelease(s: State, value: Terminal, discardPending: bool, lease: nat)
    requires value != Open
    ensures var t := s.(acquired := s.acquired + 1, released := s.released + [lease]);
            Answers(s, Terminated(t, value, discardPending)) && s.held == Terminated(t, value, discardPending).held
  {
    hide Leases, Answers, Terminated;
    var t := s.(acquired := s.acquired + 1, released := s.released + [lease]);
    TerminatedAnswers(t, value, discardPending);
    assert Answers(s, Terminated(t, value, discardPending)) by {
      AnswersFrom(s, t, Terminated(t, value, discardPending));
    }
  }

  lemma AnswersFrom(s: State, t: State, u: State)
    requires Answers(t, u) && t.answers == s.answers && s.released <= t.released
    ensures Answers(s, u)
  {
  }

  lemma EnqueuedAnswers(s: State, text: Option<string>, bytes: nat, admitted: bool, maxPendingBytes: int)
    ensures Answers(s, Enqueued(s, text, bytes, admitted, maxPendingBytes))
    ensures s.held <= Enqueued(s, text, bytes, admitted, maxPendingBytes).held
  {
    hide Terminated;
    TerminatedAnswers(s, Failed(CapacityExceeded), true);
    AnswersAfterRelease(s, Failed(InvalidMessage), false, s.acquired);
    AnswersAfterRelease(s, Failed(CapacityExceeded), true, s.acquired);
  }

  lemma ReceivedAnswers(s: State)
    ensures Answers(s, Received(s)) && s.held <= Received(s).held && Received(s).readCount == s.readCount + 1
    ensures Received(s).textReads == s.textReads
  {
  }

  // What one step does to answers, and to the leases readers hold.
  lemma AnswersStay(s: State, e: Event, maxPendingBytes: int)
    ensures var t := Step(s, e, maxPendingBytes);
            && Answers(s, t) && s.readCount <= t.readCount
            && (!e.FinishReadText? || !ReadyToFinish(s, e.reader) ==> s.held <= t.held)
            && t.textReads <= s.textReads + (if e == ReadText then {s.readCount} else {})
  {
    hide Terminated, Received, Enqueued, Answers;
    match e
    case Message(text, bytes, admitted) =>
      EnqueuedAnswers(s, text, bytes, admitted, maxPendingBytes);
      EnqueuedReads(s, text, bytes, admitted, maxPendingBytes);
    case TransportClosed(details) => EndedAnswers(s, s.(closeDetails := Some(details)), Ended, false);
    case TransportError(message) => EndedAnswers(s, s, Failed(TransportFailed(message)), false);
    case Pong => SameAnswers(s, Step(s, e, maxPendingBytes));
    case IntervalFired(socketOpen, pingThrows) =>
      var t := s.(intervalArmed := false, timeoutArmed := true);
      EndedAnswers(s, t, Failed(PingFailed), false);
      if !(s.intervalArmed && s.terminal == Open && socketOpen && pingThrows) {
        SameAnswers(s, Step(s, e, maxPendingBytes));
      }
    case TimeoutFired =>
      EndedAnswers(s, s.(timeoutArmed := false), Failed(KeepAliveTimedOut), false);
      if !s.timeoutArmed { SameAnswers(s, s); }
    case ReadWithWork => ReceivedAnswers(s);
    case ReadText =>
      ReceivedAnswers(s);
      TextReadAnswers(s);
    case FinishReadText(reader) => SameAnswers(s, Step(s, e, maxPendingBytes));
    case Dispose => EndedAnswers(s, s, Ended, true);
  }

  lemma SameAnswers(s: State, t: State)
    requires t.answers == s.answers && s.released <= t.released
    ensures Answers(s, t)
  {
  }

  lemma TextReadAnswers(s: State)
    requires Answers(s, Received(s))
    ensures Answers(s, Received(s).(textReads := s.textReads + {s.readCount}))
  {
    hide Received;
  }

  lemma EnqueuedReads(s: State, text: Option<string>, bytes: nat, admitted: bool, maxPendingBytes: int)
    ensures var t := Enqueued(s, text, bytes, admitted, maxPendingBytes);
            t.readCount == s.readCount && t.textReads == s.textReads
  {
    hide Leases, AnswerAll;
  }

  lemma EndedAnswers(s: State, t: State, value: Terminal, discardPending: bool)
    requires value != Open && t.answers == s.answers && t.released == s.released && t.held == s.held
    requires t.readCount == s.readCount && t.textReads == s.textReads
    ensures var u := Terminated(t, value, discardPending);
            Answers(s, u) && u.held == s.held && u.readCount == s.readCount && u.textReads == s.textReads
  {
    hide Leases, Answers;
    TerminatedAnswers(t, value, discardPending);
    AnswersFrom(s, t, Terminated(t, value, discardPending));
    hide AnswerAll;
  }

  ghost predicate GivenBack(s: State, reader: nat) {
    && reader < |s.answers| && s.answers[reader].outcome.Delivered?
    && s.answers[reader].outcome.frame.lease in s.released
  }

  lemma TextReadStep(s: State, e: Event, maxPendingBytes: int, reader: nat)
    requires Inv(s, maxPendingBytes) && (reader in s.textReads || GivenBack(s, reader))
    ensures var t := Step(s, e, maxPendingBytes);
            && (reader in t.textReads || GivenBack(t, reader))
            && (e == FinishReadText(reader) && reader < |s.answers| && s.answers[reader].outcome.Delivered? ==>
                  GivenBack(t, reader))
  {
    AnswersStay(s, e, maxPendingBytes);
    hide Leases, AnswerAll, Inv;
    var t := Step(s, e, maxPendingBytes);
    if GivenBack(s, reader) {
      assert t.answers[reader] == s.answers[reader];
      var i :| 0 <= i < |s.released| && s.released[i] == s.answers[reader].outcome.frame.lease;
      assert t.released[i] == s.released[i];
    } else if e == FinishReadText(reader) && ReadyToFinish(s, reader) {
      assert t.released[|s.released|] == s.answers[reader].outcome.frame.lease;
    }
  }

  lemma {:induction false} TextReadStays(before: seq<Event>, after: seq<Event>, maxPendingBytes: int)
    ensures var reader := Run(Initial(), before, maxPendingBytes).readCount;
            var s := Run(Initial(), before + [ReadText] + after, maxPendingBytes);
            reader in s.textReads || GivenBack(s, reader)
    decreases |after|
  {
    hide GivenBack, Inv, Initial;
    if after == [] {
      assert before + [ReadText] + after == before + [ReadText];
      assert (before + [ReadText])[..|before|] == before;
    } else {
      var init, e := after[..|after| - 1], after[|after| - 1];
      TextReadStays(before, init, maxPendingBytes);
      RunNext(before + [ReadText] + init, e, maxPendingBytes);
      assert before + [ReadText] + after == before + [ReadText] + init + [e];
      RunKeepsInv(before + [ReadText] + init, maxPendingBytes);
      hide Step, Run;
      TextReadStep(Run(Initial(), before + [ReadText] + init, maxPendingBytes), e, maxPendingBytes,
                   Run(Initial(), before, maxPendingBytes).readCount);
    }
  }

  lemma {:induction false} RunNext(events: seq<Event>, e: Event, maxPendingBytes: int)
    ensures Run(Initial(), events + [e], maxPendingBytes) ==
            Step(Run(Initial(), events, maxPendingBytes), e, maxPendingBytes)
  {
    assert (events + [e])[..|events|] == events;
  }

  // A text read that got its message gives the lease back when it goes on, whatever
  // happened in between.
  lemma {:induction false} TextReadGivesItsLeaseBack(before: seq<Event>, between: seq<Event>, maxPendingBytes: int)
    ensures var reader := Run(Initial(), before, maxPendingBytes).readCount;
            var s := Run(Initial(), before + [ReadText] + between, maxPendingBytes);
            var t := Run(Initial(), before + [ReadText] + between + [FinishReadText(reader)], maxPendingBytes);
            reader < |s.answers| && s.answers[reader].outcome.Delivered? ==>
              s.answers[reader].outcome.frame.lease in t.released
  {
    hide Step, Inv, Run, Initial;
    var reader := Run(Initial(), before, maxPendingBytes).readCount;
    var events := before + [ReadText] + between;
    TextReadStays(before, between, maxPendingBytes);
    RunNext(events, FinishReadText(reader), maxPendingBytes);
    RunKeepsInv(events, maxPendingBytes);
    AnswersStay(Run(Initial(), events, maxPendingBytes), FinishReadText(reader), maxPendingBytes);
    TextReadStep(Run(Initial(), events, maxPendingBytes), FinishReadText(reader), maxPendingBytes, reader);
  }

  ghost predicate Holds(s: State, reader: nat) {
    reader < |s.answers| && s.answers[reader].outcome.Delivered? ==> s.answers[reader].outcome.frame.lease in s.held
  }

  lemma OthersKeepTheirs(s: State, maxPendingBytes: int, reader: nat, other: nat)
    requires Inv(s, maxPendingBytes) && Holds(s, other) && reader != other && ReadyToFinish(s, reader)
    ensures Holds(Step(s, FinishReadText(reader), maxPendingBytes), other)
  {
    hide Leases, Granted, QueueInv, ReadsHold;
    if other < |s.answers| && s.answers[other].outcome.Delivered? {
      var d := DeliveredCount(s);
      assert reader < d && other < d;
      assert s.accepted[reader].lease != s.accepted[other].lease;
    }
  }

  lemma HolderStep(s: State, e: Event, maxPendingBytes: int, reader: nat)
    requires Inv(s, maxPendingBytes) && Holds(s, reader)
    requires e == FinishReadText(reader) ==> reader !in s.textReads
    ensures Holds(Step(s, e, maxPendingBytes), reader)
  {
    AnswersStay(s, e, maxPendingBytes);
    if e.FinishReadText? && ReadyToFinish(s, e.reader) {
      OthersKeepTheirs(s, maxPendingBytes, e.reader, reader);
    } else {
      hide Leases, AnswerAll, Inv;
      var t := Step(s, e, maxPendingBytes);
      assert s.held <= t.held;
    }
  }

  lemma {:induction false} HoldersHold(before: seq<Event>, after: seq<Event>, maxPendingBytes: int, reader: nat)
    requires Holds(Run(Initial(), before, maxPendingBytes), reader)
    requires reader < Run(Initial(), before, maxPendingBytes).readCount
    requires reader !in Run(Initial(), before, maxPendingBytes).textReads || FinishReadText(reader) !in after
    ensures var s := Run(Initial(), before + after, maxPendingBytes);
            && Holds(s, reader) && reader < s.readCount
            && (reader !in Run(Initial(), before, maxPendingBytes).textReads ==> reader !in s.textReads)
    decreases |after|
  {
    hide Step, Inv, Run, Initial, Holds;
    if after == [] {
      assert before + after == before;
    } else {
      var init, e := after[..|after| - 1], after[|after| - 1];
      HoldersHold(before, init, maxPendingBytes, reader);
      RunNext(before + init, e, maxPendingBytes);
      assert before + after == before + init + [e];
      RunKeepsInv(before + init, maxPendingBytes);
      AnswersStay(Run(Initial(), before + init, maxPendingBytes), e, maxPendingBytes);
      HolderStep(Run(Initial(), before + init, maxPendingBytes), e, maxPendingBytes, reader);
    }
  }

  lemma NewReaderHolds(s: State, e: Event, maxPendingBytes: int)
    requires Inv(s, maxPendingBytes) && (e == ReadWithWork || e == ReadText)
    ensures var t := Step(s, e, maxPendingBytes);
            && Holds(t, s.readCount) && t.readCount == s.readCount + 1
            && (e == ReadWithWork ==> s.readCount !in t.textReads)
  {
    hide Leases, Granted, LeasesRise, QueueInv, InOrder;
    AnswersStay(s, e, maxPendingBytes);
    ReceivedAnswers(s);
    hide Received;
  }

  // A lease handed to a reader stays with it until the text read that got it goes on; a
  // reader that took its message as work keeps it.
  lemma {:induction false} ReadersKeepTheirLeases(before: seq<Event>, after: seq<Event>, maxPendingBytes: int)
    ensures var reader := Run(Initial(), before, maxPendingBytes).readCount;
            && Holds(Run(Initial(), before + [ReadWithWork] + after, maxPendingBytes), reader)
            && (FinishReadText(reader) !in after ==>
                  Holds(Run(Initial(), before + [ReadText] + after, maxPendingBytes), reader))
  {
    hide Step, Inv, Run, Initial, Holds;
    var s := Run(Initial(), before, maxPendingBytes);
    RunKeepsInv(before, maxPendingBytes);
    RunNext(before, ReadWithWork, maxPendingBytes);
    NewReaderHolds(s, ReadWithWork, maxPendingBytes);
    HoldersHold(before + [ReadWithWork], after, maxPendingBytes, s.readCount);
    if FinishReadText(s.readCount) !in after {
      RunNext(before, ReadText, maxPendingBytes);
      NewReaderHolds(s, ReadText, maxPendingBytes);
      HoldersHold(before + [ReadText], after, maxPendingBytes, s.readCount);
    }
  }

  // ---- Keepalive, told from the events alone -------------------------------------------

  // The interval timer runs: it has not fired at all, or not since a pong that answered a
  // ping.
  ghost predicate IntervalRunning(events: seq<Event>)
    decreases |events|
  {
    || (forall k :: 0 <= k < |events| ==> !events[k].IntervalFired?)
    || exists j :: 0 <= j < |events| && events[j] == Pong && Pinged(events[..j]) &&
                   forall k :: j < k < |events| ==> !events[k].IntervalFired?
  }

  // A ping is out: the running interval sent it, and there was no pong since.
  ghost predicate Pinged(events: seq<Event>)
    decreases |events|
  {
    exists k :: 0 <= k < |events| && events[k] == IntervalFired(true, false) && IntervalRunning(events[..k]) &&
                Pong !in events[k + 1..]
  }

  lemma {:induction false} IntervalNext(events: seq<Event>, e: Event)
    ensures IntervalRunning(events + [e]) <==>
            !e.IntervalFired? && (IntervalRunning(events) || (e == Pong && Pinged(events)))
  {
    hide Pinged;
    var all := events + [e];
    assert forall k :: 0 <= k < |events| ==> all[k] == events[k] && all[..k] == events[..k];
    assert all[|events|] == e && all[..|events|] == events;
  }

  lemma {:induction false} PingNext(events: seq<Event>, e: Event)
    ensures Pinged(events + [e]) <==>
            (e == IntervalFired(true, false) && IntervalRunning(events)) || (e != Pong && Pinged(events))
  {
    hide IntervalRunning;
    var all := events + [e];
    assert forall k :: 0 <= k < |events| ==>
             all[k] == events[k] && all[..k] == events[..k] && all[k + 1..] == events[k + 1..] + [e];
    assert all[|events|] == e && all[..|events|] == events && all[|events| + 1..] == [];
  }

  lemma TimersStep(s: State, e: Event, maxPendingBytes: int)
    ensures var t := Step(s, e, maxPendingBytes);
            t.terminal == Open ==>
              && s.terminal == Open
              && (t.intervalArmed <==> !e.IntervalFired? && (s.intervalArmed || (e == Pong && s.timeoutArmed)))
              && (t.timeoutArmed <==>
                    (e == IntervalFired(true, false) && s.intervalArmed) || (e != Pong && s.timeoutArmed))
  {
    hide Leases, AnswerAll;
  }

  // While a connection is open the interval runs and the timeout waits exactly as the
  // pings and pongs say; so a ping without a pong ends the connection when the timeout fires,
  // and a timeout that fires after its pong does not.
  lemma {:induction false} KeepAliveFollowsThePings(events: seq<Event>, maxPendingBytes: int)
    ensures var s := Run(Initial(), events, maxPendingBytes);
            && (s.terminal == Open ==>
                  (s.intervalArmed <==> IntervalRunning(events)) && (s.timeoutArmed <==> Pinged(events)))
            && (s.terminal == Open ==>
                  (Run(Initial(), events + [TimeoutFired], maxPendingBytes).terminal ==
                   if Pinged(events) then Failed(KeepAliveTimedOut) else Open))
    decreases |events|
  {
    hide Step, IntervalRunning, Pinged;
    if events == [] {
      NothingFired();
    } else {
      var init, e := events[..|events| - 1], events[|events| - 1];
      assert events == init + [e];
      KeepAliveFollowsThePings(init, maxPendingBytes);
      IntervalNext(init, e);
      PingNext(init, e);
      TimersStep(Run(Initial(), init, maxPendingBytes), e, maxPendingBytes);
    }
    RunNext(events, TimeoutFired, maxPendingBytes);
    if Run(Initial(), events, maxPendingBytes).terminal == Open {
      TimeoutStep(Run(Initial(), events, maxPendingBytes), maxPendingBytes);
    }
  }

  lemma NothingFired()
    ensures IntervalRunning([]) && !Pinged([])
  {
  }

  lemma TimeoutStep(s: State, maxPendingBytes: int)
    requires s.terminal == Open
    ensures Step(s, TimeoutFired, maxPendingBytes).terminal ==
            if s.timeoutArmed then Failed(KeepAliveTimedOut) else Open
  {
  }

  // ---- What the transport said at its close -----------------------------------------------

  function LastClose(events: seq<Event>): Option<CloseDetails> {
    if events == [] then None
    else if events[|events| - 1].TransportClosed? then Some(events[|events| - 1].details)
    else LastClose(events[..|events| - 1])
  }

  lemma DetailsStep(s: State, e: Event, maxPendingBytes: int)
    ensures Step(s, e, maxPendingBytes).closeDetails == if e.TransportClosed? then Some(e.details) else s.closeDetails
  {
    hide Leases, AnswerAll;
  }

  // The code and reason of the transport's close are kept, also when the connection had
  // ended before.
  lemma {:induction false} CloseDetailsAreKept(events: seq<Event>, maxPendingBytes: int)
    ensures Run(Initial(), events, maxPendingBytes).closeDetails == LastClose(events)
    decreases |events|
  {
    hide Step;
    if events != [] {
      CloseDetailsAreKept(events[..|events| - 1], maxPendingBytes);
      DetailsStep(Run(Initial(), events[..|events| - 1], maxPendingBytes), events[|events| - 1], maxPendingBytes);
    }
  }
}
