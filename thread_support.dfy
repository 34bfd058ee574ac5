/** The two ends of a thread/GUI tie: `ThreadSide` (thread_support/thread_side.py),
    which lives in a worker thread and emits messages through a Qt signal, and
    `GuiSide` (thread_support/gui_side.py), whose `receiver` slot runs the
    connection state machine in the GUI thread.

    The Qt signal is modelled as the queue of emissions not yet delivered to
    the connected slot (`ThreadSide.pending`); `GuiSide.DeliverNext` is the
    event loop handing the oldest one to `receiver`. */
module ThreadSupport {
  import opened Wrappers
  import opened Side
  import opened Messages
  import opened OrderedMaps
  import opened HttpApi

  /** The two ways `receiver` fails: a failed `assert` and `raise ValueError`. */
  datatype Failure = AssertionError | ValueError

  /** The outcome of one call of `receiver`. */
  datatype Step = Accepted(newState: int) | Failed(error: Failure)

  /** What `receiver` does with one message, from the side's `state`, whether
      a thread side is tied (`thread_side is not None`) and whether the
      message is a `HelloMessage`. An accepted message always leaves the
      side CONNECTED. */
  function Receive(state: int, tied: bool, hello: bool): (r: Step)
    ensures r.Accepted? ==> r.newState == Connected
  {
    if state == Disconnected then Failed(AssertionError)
    else if state == Connecting then
      (if hello && tied then Accepted(Connected) else Failed(AssertionError))
    else if state == Connected then
      (if tied then Accepted(Connected) else Failed(AssertionError))
    else Failed(ValueError)
  }

  /** The transition table of `receiver`, state by state. */
  lemma ReceiveTable(state: int, tied: bool, hello: bool)
    ensures state == Disconnected ==> Receive(state, tied, hello) == Failed(AssertionError)
    ensures state == Connecting ==>
              (Receive(state, tied, hello).Accepted? <==> hello && tied)
    ensures state == Connecting && !(hello && tied) ==>
              Receive(state, tied, hello) == Failed(AssertionError)
    ensures state == Connected ==>
              (Receive(state, tied, hello).Accepted? <==> tied)
    ensures !IsState(state) <==> Receive(state, tied, hello) == Failed(ValueError)
  {
  }

  /** `receiver` never lowers the state and never leaves the three constants. */
  lemma ReceiveMonotone(state: int, tied: bool, hello: bool)
    requires IsState(state)
    ensures Receive(state, tied, hello).Accepted? ==>
              state <= Receive(state, tied, hello).newState && IsState(Receive(state, tied, hello).newState)
    ensures Receive(state, tied, hello).Failed? ==> Receive(state, tied, hello).error == AssertionError
  {
  }

  /** The result of delivering a run of queued messages in order: the
      messages passed to `message_accepted`, the final state, and the failure
      that ended the run, if any (an exception in the slot is fatal). */
  datatype RunResult<M> = RunResult(delivered: seq<M>, state: int, failure: Option<Failure>)

  /** Delivering `msgs` one by one, oldest first, to a side in `state`. */
  function Run<M>(state: int, tied: bool, msgs: seq<M>, isHello: M -> bool): (r: RunResult<M>)
    ensures |r.delivered| <= |msgs|
    decreases |msgs|
  {
    if |msgs| == 0 then RunResult([], state, None)
    else match Receive(state, tied, isHello(msgs[0]))
      case Failed(e) => RunResult([], state, Some(e))
      case Accepted(s) =>
        var rest := Run(s, tied, msgs[1..], isHello);
        RunResult([msgs[0]] + rest.delivered, rest.state, rest.failure)
  }

  /** FIFO, no loss, no duplication: what reaches `message_accepted` is a
      prefix of the queue, all of it unless a failure stopped the run. */
  lemma {:induction false} RunDeliversPrefix<M>(state: int, tied: bool, msgs: seq<M>, isHello: M -> bool)
    ensures var r := Run(state, tied, msgs, isHello);
            && |r.delivered| <= |msgs|
            && r.delivered == msgs[..|r.delivered|]
            && (r.failure.None? <==> r.delivered == msgs)
    decreases |msgs|
  {
    if |msgs| > 0 {
      match Receive(state, tied, isHello(msgs[0]))
      case Failed(e) =>
      case Accepted(s) =>
        RunDeliversPrefix(s, tied, msgs[1..], isHello);
        var rest := Run(s, tied, msgs[1..], isHello);
        assert msgs == [msgs[0]] + msgs[1..];
        assert msgs[..|rest.delivered| + 1] == [msgs[0]] + msgs[1..][..|rest.delivered|];
    }
  }

  /** Once CONNECTED, every queued message is delivered, in order, and the
      state stays CONNECTED. */
  lemma {:induction false} RunConnected<M>(msgs: seq<M>, isHello: M -> bool)
    ensures Run(Connected, true, msgs, isHello) == RunResult(msgs, Connected, None)
    decreases |msgs|
  {
    if |msgs| > 0 {
      RunConnected(msgs[1..], isHello);
      assert msgs == [msgs[0]] + msgs[1..];
    }
  }

  /** A tied side in CONNECTING whose queue starts with a Hello delivers the
      whole queue, Hello first, and ends CONNECTED. */
  lemma RunHandshake<M>(msgs: seq<M>, isHello: M -> bool)
    requires |msgs| > 0 && isHello(msgs[0])
    ensures Run(Connecting, true, msgs, isHello) == RunResult(msgs, Connected, None)
  {
    RunConnected(msgs[1..], isHello);
    assert msgs == [msgs[0]] + msgs[1..];
  }

  /** Nothing is delivered before the Hello: from CONNECTING, a run that
      delivers anything delivers a Hello first; a queue whose first message
      is not a Hello fails at once; in DISCONNECTED every message fails. */
  lemma RunHelloFirst<M>(state: int, tied: bool, msgs: seq<M>, isHello: M -> bool)
    requires state == Connecting || state == Disconnected
    ensures var r := Run(state, tied, msgs, isHello);
            && (|r.delivered| > 0 ==> state == Connecting && isHello(r.delivered[0]))
            && (|msgs| > 0 && (state == Disconnected || !isHello(msgs[0])) ==>
                  r == RunResult([], state, Some(AssertionError)))
  {
  }

  /** Along a run the state only rises and stays one of the three constants. */
  lemma {:induction false} RunStateRises<M>(state: int, tied: bool, msgs: seq<M>, isHello: M -> bool)
    requires IsState(state)
    ensures var r := Run(state, tied, msgs, isHello);
            IsState(r.state) && state <= r.state
            && (r.failure.Some? ==> r.failure.value == AssertionError)
    decreases |msgs|
  {
    if |msgs| > 0 {
      match Receive(state, tied, isHello(msgs[0]))
      case Failed(e) =>
      case Accepted(s) =>
        RunStateRises(s, tied, msgs[1..], isHello);
    }
  }

  /** One more message of a run: accepted, it joins the delivered ones and
      the run goes on from the new state; failed, the run ends there. */
  /** `total` is the run that delivered `done` and goes on from `state`
      with `pending`. */
  ghost predicate Resumes<M>(total: RunResult<M>, done: seq<M>, state: int, pending: seq<M>, isHello: M -> bool) {
    var rest := Run(state, true, pending, isHello);
    total == RunResult(done + rest.delivered, rest.state, rest.failure)
  }

  lemma RunAfterStep<M>(total: RunResult<M>, done: seq<M>, state: int, pending: seq<M>, isHello: M -> bool,
                        hello: bool)
    requires pending != [] && Resumes(total, done, state, pending, isHello)
    requires hello == isHello(pending[0])
    ensures var step := Receive(state, true, hello);
            && (step.Accepted? ==> Resumes(total, done + [pending[0]], step.newState, pending[1..], isHello))
            && (step.Failed? ==> total == RunResult(done, state, Some(step.error)))
  {
    match Receive(state, true, isHello(pending[0]))
    case Accepted(s) =>
      var rest := Run(s, true, pending[1..], isHello);
      assert done + ([pending[0]] + rest.delivered) == (done + [pending[0]]) + rest.delivered;
    case Failed(e) =>
      assert done + [] == done;
  }

  lemma ResumesEnd<M>(total: RunResult<M>, done: seq<M>, state: int, isHello: M -> bool)
    requires Resumes(total, done, state, [], isHello)
    ensures total == RunResult(done, state, None)
  {
    assert done + [] == done;
  }

  class ThreadSide {
    var state: int
    /** `self.gui_side`. */
    var guiSide: GuiSide?
    /** Emissions of `self.sig` not yet delivered to the connected slot, oldest first. */
    var pending: seq<TsMessage>

    /** `ThreadSide.__init__`: DISCONNECTED, no GUI side, nothing emitted. */
    constructor ()
      ensures state == InitialState() && guiSide == null && pending == []
    {
      state := Disconnected;
      guiSide := null;
      pending := [];
    }

    /** `send_to_gui`: the message's `on_thread_side` hook runs exactly once,
        then the message is emitted, behind every earlier emission. An
        emission reaches nobody while no slot is connected (before `tie`). */
    method SendToGui(message: TsMessage, log: Log)
      modifies this`pending, log
      ensures log.records == old(log.records) + [SentFromThread(message.messageId)]
      ensures pending == if guiSide != null then old(pending) + [message] else old(pending)
    {
      message.OnThreadSide(log);
      if guiSide != null {
        pending := pending + [message];
      }
    }

    /** `thread_side_started`: move to CONNECTING and send one fresh
        `HelloMessage` (returned here so that callers can name it). */
    method ThreadSideStarted(gen: IdGenerator, log: Log) returns (hello: TsMessage)
      modifies this, gen, log
      ensures state == Connecting && guiSide == old(guiSide)
      ensures fresh(hello) && hello.kind == Kind.Hello
      ensures hello.messageId == old(gen.next) && gen.next == old(gen.next) + 1
      ensures log.records == old(log.records) + [SentFromThread(hello.messageId)]
      ensures pending == if guiSide != null then old(pending) + [hello] else old(pending)
    {
      state := Connecting;
      hello := new TsMessage.Hello(gen);
      SendToGui(hello, log);
    }
  }

  class GuiSide {
    var state: int
    /** `self.thread_side`. */
    var threadSide: ThreadSide?
    /** Set when this GUI side is an `HttpServer`, so that `message_accepted`
        is that class's override; null for a plain `GuiSide`. */
    const server: HttpServer?

    /** `GuiSide.__init__`: DISCONNECTED, no thread side. */
    constructor ()
      ensures state == InitialState() && threadSide == null && server == null
    {
      state := Disconnected;
      threadSide := null;
      server := null;
    }

    /** The `GuiSide` part of `HttpServer.__init__`. */
    constructor Serving(httpServer: HttpServer)
      ensures state == InitialState() && threadSide == null && server == httpServer
    {
      state := Disconnected;
      threadSide := null;
      server := httpServer;
    }

    /** `tie`: link both ways, move to CONNECTING and connect the slot; the
        thread side's own state and queue are untouched. */
    method Tie(t: ThreadSide)
      modifies this`state, this`threadSide, t`guiSide
      ensures t.guiSide == this && threadSide == t && state == Connecting
    {
      t.guiSide := this;
      threadSide := t;
      state := Connecting;
    }

    /** `message_accepted`: the default calls `on_gui_side` exactly once; an
        `HttpServer` also stores the message when told `ADD_TO_QUEUE`. */
    method MessageAccepted(message: TsMessage, log: Log)
      requires server != null ==> Valid(server.messages)
      modifies log, server
      ensures log.records == old(log.records) + [ReceivedOnGui(message.messageId)]
      ensures server != null ==> server.messagesLimit == old(server.messagesLimit)
      ensures server != null ==>
                server.messages == AfterAccept(old(server.messages), message, server.messagesLimit)
    {
      if server != null {
        server.MessageAccepted(message, log);
      } else {
        var _ := message.OnGuiSide(log);
      }
    }

    /** `receiver`, the slot: runs `Receive`'s transition. On acceptance the
        side (and, coming from CONNECTING, its thread side) is CONNECTED and
        the message went to `message_accepted` once; on failure nothing changed. */
    method Receiver(message: TsMessage, log: Log) returns (step: Step)
      requires server != null ==> Valid(server.messages)
      modifies this`state, threadSide, log, server
      ensures step == Receive(old(state), threadSide != null, message.kind.Hello?)
      ensures threadSide != null ==>
                threadSide.pending == old(threadSide.pending) && threadSide.guiSide == old(threadSide.guiSide)
      ensures server != null ==> server.messagesLimit == old(server.messagesLimit)
      ensures step.Failed? ==>
                && state == old(state)
                && log.records == old(log.records)
                && (threadSide != null ==> threadSide.state == old(threadSide.state))
                && (server != null ==> server.messages == old(server.messages))
      ensures step.Accepted? ==>
                && state == Connected
                && threadSide != null
                && threadSide.state == (if old(state) == Connecting then Connected else old(threadSide.state))
                && log.records == old(log.records) + [ReceivedOnGui(message.messageId)]
                && (server != null ==>
                      server.messages == AfterAccept(old(server.messages), message, server.messagesLimit))
    {
      if state == Disconnected {
        step := Failed(AssertionError);
      } else if state == Connecting {
        if !message.kind.Hello? || threadSide == null {
          step := Failed(AssertionError);
        } else {
          state := Connected;
          threadSide.state := Connected;
          MessageAccepted(message, log);
          step := Accepted(Connected);
        }
      } else if state == Connected {
        if threadSide == null {
          step := Failed(AssertionError);
        } else {
          MessageAccepted(message, log);
          step := Accepted(Connected);
        }
      } else {
        step := Failed(ValueError);
      }
    }

    /** The event loop handing the oldest queued emission of the tied
        thread side's signal to `receiver`. */
    method DeliverOne(log: Log) returns (message: TsMessage, step: Step)
      requires threadSide != null && threadSide.pending != []
      requires server != null ==> Valid(server.messages)
      modifies this`state, threadSide, log, server
      ensures threadSide == old(threadSide)
      ensures message == old(threadSide.pending)[0] && threadSide.pending == old(threadSide.pending)[1..]
      ensures threadSide.guiSide == old(threadSide.guiSide)
      ensures step == Receive(old(state), true, message.kind.Hello?)
      ensures server != null ==> server.messagesLimit == old(server.messagesLimit) && Valid(server.messages)
      ensures step.Accepted? ==>
                && state == Connected
                && threadSide.state == (if old(state) == Connecting then Connected else old(threadSide.state))
                && log.records == old(log.records) + [ReceivedOnGui(message.messageId)]
                && (server != null ==>
                      server.messages == AfterAccept(old(server.messages), message, server.messagesLimit))
      ensures step.Failed? ==>
                && state == old(state)
                && threadSide.state == old(threadSide.state)
                && log.records == old(log.records)
                && (server != null ==> server.messages == old(server.messages))
    {
      message := threadSide.pending[0];
      threadSide.pending := threadSide.pending[1..];
      step := Receiver(message, log);
    }

    /** One turn of the event loop: nothing happens when no thread side is
        tied or nothing is queued, else the oldest emission is delivered. A
        failed step aborts the application, so no turn follows one; `DeliverAll`
        is the loop of turns up to that point. */
    method DeliverNext(log: Log) returns (delivered: Option<(TsMessage, Step)>)
      requires server != null ==> Valid(server.messages)
      modifies this`state, threadSide, log, server
      ensures threadSide == old(threadSide)
      ensures server != null ==> server.messagesLimit == old(server.messagesLimit) && Valid(server.messages)
      ensures delivered.None? <==> threadSide == null || old(threadSide.pending) == []
      ensures delivered.None? ==>
                && state == old(state)
                && log.records == old(log.records)
                && (threadSide != null ==> threadSide.state == old(threadSide.state)
                                           && threadSide.pending == old(threadSide.pending))
                && (server != null ==> server.messages == old(server.messages))
      ensures delivered.Some? ==>
                && threadSide != null
                && old(threadSide.pending) != []
                && delivered.value.0 == old(threadSide.pending)[0]
                && threadSide.pending == old(threadSide.pending)[1..]
                && threadSide.guiSide == old(threadSide.guiSide)
                && delivered.value.1 == Receive(old(state), true, delivered.value.0.kind.Hello?)
                && (delivered.value.1.Accepted? ==>
                      && state == Connected
                      && threadSide.state == (if old(state) == Connecting then Connected else old(threadSide.state))
                      && log.records == old(log.records) + [ReceivedOnGui(delivered.value.0.messageId)])
                && (delivered.value.1.Failed? ==>
                      && state == old(state)
                      && threadSide.state == old(threadSide.state)
                      && log.records == old(log.records))
                && (server != null ==>
                      server.messages == if delivered.value.1.Accepted?
                                         then AfterAccept(old(server.messages), delivered.value.0, server.messagesLimit)
                                         else old(server.messages))
    {
      if threadSide == null || threadSide.pending == [] {
        delivered := None;
      } else {
        var message, step := DeliverOne(log);
        delivered := Some((message, step));
      }
    }

    /** How far a drain has got that started in `start`, with the trace
        `records0`, the thread side in `threadState0` and the server table
        `table0`: `done` went to `message_accepted`, the rest of the run
        `total` is still to come, and the trace, the thread side and the
        table are as `done` leaves them. */
    ghost predicate DrainedSoFar(log: Log, total: RunResult<TsMessage>, done: seq<TsMessage>, start: int,
                                 records0: seq<Record>, threadState0: int, table0: OrderedMap<string, TsMessage>)
      reads this, threadSide, log, server
    {
      && threadSide != null
      && Resumes(total, done, state, threadSide.pending, IsHelloMessage)
      && DrainEffects(log, done, start, records0, threadState0, table0)
    }

    /** The GUI side, the thread side, the trace and the table as delivering
        `done` leaves them. */
    ghost predicate DrainEffects(log: Log, done: seq<TsMessage>, start: int,
                                 records0: seq<Record>, threadState0: int, table0: OrderedMap<string, TsMessage>)
      reads this, threadSide, log, server
    {
      && threadSide != null
      && state == (if |done| > 0 then Connected else start)
      && threadSide.state == (if |done| > 0 && start == Connecting then Connected else threadState0)
      && log.records == records0 + ReceivedRecords(done)
      && (server != null ==>
            Valid(table0) && Valid(server.messages)
            && server.messages == AcceptAll(table0, done, server.messagesLimit))
    }

    /** One turn of `DeliverAll`: the oldest emission is delivered, and the
        drain gets one message further, or ends with the run's failure. */
    method DrainStep(log: Log, ghost total: RunResult<TsMessage>, ghost done: seq<TsMessage>, ghost start: int,
                     ghost records0: seq<Record>, ghost threadState0: int,
                     ghost table0: OrderedMap<string, TsMessage>)
      returns (message: TsMessage, step: Step)
      requires DrainedSoFar(log, total, done, start, records0, threadState0, table0)
      requires threadSide.pending != []
      modifies this`state, threadSide, log, server
      ensures threadSide == old(threadSide) && threadSide.guiSide == old(threadSide.guiSide)
      ensures server != null ==> server.messagesLimit == old(server.messagesLimit)
      ensures message == old(threadSide.pending)[0] && threadSide.pending == old(threadSide.pending)[1..]
      ensures step.Accepted? ==>
                DrainedSoFar(log, total, done + [message], start, records0, threadState0, table0)
      ensures step.Failed? ==>
                && total == RunResult(done, state, Some(step.error))
                && DrainEffects(log, done, start, records0, threadState0, table0)
    {
      RunAfterStep(total, done, state, threadSide.pending, IsHelloMessage, threadSide.pending[0].kind.Hello?);
      message, step := DeliverOne(log);
      if step.Accepted? {
        ReceivedRecordsAppend(done, message);
        if server != null {
          AcceptAllAppend(table0, done, message, server.messagesLimit);
        }
      } else {
        assert done + [] == done;
      }
    }

    /** The event loop running until the tied thread side's queue is empty
        or `receiver` raises. An exception escaping a PyQt5 slot aborts the
        application, so nothing after the failing message is delivered: the
        loop delivers what `Run` delivers, ends in its state, and stops with
        its failure, having taken the failing message off the queue. */
    method DeliverAll(log: Log) returns (delivered: seq<TsMessage>, failure: Option<Failure>)
      requires threadSide != null
      requires server != null ==> Valid(server.messages)
      modifies this`state, threadSide, log, server
      ensures threadSide == old(threadSide)
      ensures var r := Run(old(state), true, old(threadSide.pending), IsHelloMessage);
              delivered == r.delivered && state == r.state && failure == r.failure
      ensures |delivered| + (if failure.Some? then 1 else 0) <= |old(threadSide.pending)|
      ensures threadSide.pending == old(threadSide.pending)[|delivered| + (if failure.Some? then 1 else 0)..]
      ensures threadSide.guiSide == old(threadSide.guiSide)
      ensures threadSide.state
              == if |delivered| > 0 && old(state) == Connecting then Connected else old(threadSide.state)
      ensures log.records == old(log.records) + ReceivedRecords(delivered)
      ensures server != null ==> server.messagesLimit == old(server.messagesLimit)
      ensures server != null ==>
                server.messages == AcceptAll(old(server.messages), delivered, server.messagesLimit)
    {
      delivered := [];
      failure := None;
      ghost var queue := threadSide.pending;
      ghost var start := state;
      ghost var total := Run(start, true, queue, IsHelloMessage);
      ghost var table0 := if server != null then server.messages else Empty();
      assert [] + total.delivered == total.delivered;
      while threadSide.pending != []
        invariant threadSide == old(threadSide) && failure.None?
        invariant threadSide.guiSide == old(threadSide.guiSide)
        invariant server != null ==> server.messagesLimit == old(server.messagesLimit)
        invariant |delivered| <= |queue| && threadSide.pending == queue[|delivered|..]
        invariant DrainedSoFar(log, total, delivered, start, old(log.records), old(threadSide.state), table0)
        decreases |threadSide.pending|
      {
        ghost var before := threadSide.pending;
        var message, step := DrainStep(log, total, delivered, start, old(log.records), old(threadSide.state), table0);
        assert before == [message] + threadSide.pending;
        if step.Failed? {
          failure := Some(step.error);
          break;
        }
        delivered := delivered + [message];
      }
      if failure.None? {
        ResumesEnd(total, delivered, state, IsHelloMessage);
      }
    }
  }

  /** The trace `message_accepted` logs for each of `msgs`, in order. */
  function ReceivedRecords(msgs: seq<TsMessage>): seq<Record> {
    seq(|msgs|, i requires 0 <= i < |msgs| => ReceivedOnGui(msgs[i].messageId))
  }

  lemma ReceivedRecordsAppend(msgs: seq<TsMessage>, m: TsMessage)
    ensures ReceivedRecords(msgs + [m]) == ReceivedRecords(msgs) + [ReceivedOnGui(m.messageId)]
  {
  }

  /** Whether a queued message is a `HelloMessage`. */
  function IsHelloMessage(m: TsMessage): bool {
    m.kind.Hello?
  }

  /** The scenario of tests/integration/thread_support/test_run.py: tie a
      fresh worker, start it, deliver its Hello, then send and deliver an
      application message. Both sides end CONNECTED and each hook ran once
      per message, in order. */
  method HandshakeScenario() returns (guiState: int, threadState: int, records: seq<Record>)
    ensures guiState == Connected && threadState == Connected
    ensures records == [SentFromThread(1), ReceivedOnGui(1), SentFromThread(2), ReceivedOnGui(2)]
  {
    var gen := new IdGenerator();
    var log := new Log();
    var worker := new ThreadSide();
    var gui := new GuiSide();
    gui.Tie(worker);
    var hello := worker.ThreadSideStarted(gen, log);
    var first := gui.DeliverNext(log);
    assert first.Some? && first.value.0 == hello;
    var message := new TsMessage.Custom(gen, NoDirective, false);
    worker.SendToGui(message, log);
    var second := gui.DeliverNext(log);
    guiState, threadState, records := gui.state, worker.state, log.records;
  }
}
