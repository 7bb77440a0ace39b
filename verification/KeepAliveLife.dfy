/**
 * What became of one keep-alive, told from the events of its run alone. Every part of its state is matched with a count of
 * events, so that nothing can happen without its event, and every event has its effect: frames reach the wire, items are
 * passed on, tasks leave their loops and end, and the flag is raised.
 */
module KeepAliveLife {
  import opened Messages
  import opened KeepAliveProtocol

  /** How often each kind of event took place. */
  datatype Tally = Tally(
    offers: nat, takes: nat, closes: nat, detaches: nat,
    begun: nat, done: nat, failed: nat, left: nat, raisedByWriter: nat, closedWell: nat, closedBadly: nat,
    yielded: nat, yieldedForUsers: nat, passed: nat, refused: nat, stopped: nat, raisedByReader: nat)

  const NOTHING := Tally(0, 0, 0, 0, 0, 0, 0, 0, 0, 0, 0, 0, 0, 0, 0, 0, 0)

  function Counted(t: Tally, e: Event): Tally {
    match e
    case Offer(_) => t.(offers := t.offers + 1)
    case Take => t.(takes := t.takes + 1)
    case CloseHandle => t.(closes := t.closes + 1)
    case Detach => t.(detaches := t.detaches + 1)
    case WriterDisconnected => t.(left := t.left + 1)
    case WriterReceived => t.(begun := t.begun + 1)
    case WriterChannelClosed => t.(left := t.left + 1)
    case PingDue => t.(begun := t.begun + 1)
    case WriteDone => t.(done := t.done + 1)
    case WriteFailed => t.(failed := t.failed + 1, left := t.left + 1)
    case WriterRaises => t.(raisedByWriter := t.raisedByWriter + 1)
    case SocketClosed(ok) =>
      if ok then t.(closedWell := t.closedWell + 1) else t.(closedBadly := t.closedBadly + 1)
    case SocketYields(item) =>
      t.(yielded := t.yielded + 1,
         yieldedForUsers := t.yieldedForUsers + if item.Received? && (item.message.Ping? || item.message.Pong?) then 0 else 1)
    case SocketEnds => t.(stopped := t.stopped + 1)
    case ReaderDisconnected => t.(stopped := t.stopped + 1)
    case ItemPassed => t.(passed := t.passed + 1)
    case PassRefused => t.(refused := t.refused + 1, stopped := t.stopped + 1)
    case ReaderRaises => t.(raisedByReader := t.raisedByReader + 1)
  }

  function TallyOf(es: seq<Event>): Tally {
    if es == [] then NOTHING else Counted(TallyOf(es[..|es| - 1]), es[|es| - 1])
  }

  /** Where the write task stands: each stage is reached by its one event, and not before. */
  ghost predicate WriterAgrees(k: KeepAlive, t: Tally) {
    && t.left <= 1 && t.raisedByWriter <= t.left && t.closedWell + t.closedBadly <= t.raisedByWriter
    && (InLoop(k.writer) <==> t.left == 0)
    && (k.writer.Leaving? <==> t.left == 1 && t.raisedByWriter == 0)
    && (k.writer.ClosingSocket? <==> t.raisedByWriter == 1 && t.closedWell + t.closedBadly == 0)
    && (k.writer.Ended? <==> t.closedWell + t.closedBadly == 1)
    && t.begun == t.done + t.failed + (if k.writer.Writing? then 1 else 0)
  }

  /** What is on the wire: one frame per write that returned well, and the closing frame iff the socket closed well. */
  ghost predicate WireAgrees(k: KeepAlive, t: Tally) {
    && |k.wire| == t.done + t.closedWell
    && (t.closedWell == 1 <==> k.wire != [] && k.wire[|k.wire| - 1] == ClosingFrame)
    && |k.accepted| == t.offers
  }

  /** Where the read task stands, and what it has passed on. */
  ghost predicate ReaderAgrees(k: KeepAlive, t: Tally) {
    && t.stopped <= 1 && t.raisedByReader <= t.stopped && t.refused <= t.stopped
    && (k.reader.Listening? || k.reader.Passing? <==> t.stopped == 0)
    && (k.reader.Stopping? <==> t.stopped == 1 && t.raisedByReader == 0)
    && (k.reader.Stopped? <==> t.raisedByReader == 1)
    && t.yieldedForUsers == t.passed + t.refused + (if k.reader.Passing? then 1 else 0)
    && |k.stream| == t.yielded && |k.passed| == t.passed && |k.taken| == t.takes
    && (t.refused > 0 ==> t.detaches > 0)
  }

  /** The flag is up iff somebody sent it, and each sending is a version of its own; the handles are gone iff dropped. */
  ghost predicate FlagAgrees(k: KeepAlive, t: Tally) {
    && k.disconnect.version == t.closes + t.raisedByWriter + t.raisedByReader
    && (k.disconnect.value <==> t.closes + t.raisedByWriter + t.raisedByReader > 0)
    && (k.attached <==> t.detaches == 0)
  }

  ghost predicate Agrees(k: KeepAlive, t: Tally) {
    WriterAgrees(k, t) && WireAgrees(k, t) && ReaderAgrees(k, t) && FlagAgrees(k, t)
  }

  lemma WriterStepAgrees(k: KeepAlive, t: Tally, e: Event)
    requires Enabled(k, e) && WriterAgrees(k, t)
    ensures WriterAgrees(Apply(k, e), Counted(t, e))
  {
  }

  lemma WireStepAgrees(k: KeepAlive, t: Tally, e: Event)
    requires WriterValid(k) && Enabled(k, e) && WriterAgrees(k, t) && WireAgrees(k, t)
    ensures WireAgrees(Apply(k, e), Counted(t, e))
  {
  }

  lemma ReaderStepAgrees(k: KeepAlive, t: Tally, e: Event)
    requires Enabled(k, e) && ReaderAgrees(k, t) && FlagAgrees(k, t)
    ensures ReaderAgrees(Apply(k, e), Counted(t, e))
  {
  }

  lemma FlagStepAgrees(k: KeepAlive, t: Tally, e: Event)
    requires Enabled(k, e) && FlagAgrees(k, t)
    ensures FlagAgrees(Apply(k, e), Counted(t, e))
  {
  }

  lemma StepAgrees(k: KeepAlive, t: Tally, e: Event)
    requires WriterValid(k) && Enabled(k, e) && Agrees(k, t)
    ensures Agrees(Apply(k, e), Counted(t, e))
  {
    WriterStepAgrees(k, t, e);
    WireStepAgrees(k, t, e);
    ReaderStepAgrees(k, t, e);
    FlagStepAgrees(k, t, e);
  }

  lemma TallyStep(es: seq<Event>, j: nat)
    requires 0 < j <= |es|
    ensures TallyOf(es[..j]) == Counted(TallyOf(es[..j - 1]), es[j - 1])
  {
    assert es[..j][..j - 1] == es[..j - 1];
  }

  /** The whole life of a keep-alive: at every point of every run, its state agrees with the count of its events. */
  lemma {:induction false} StateAgreesWithEvents(r: Run, j: nat)
    requires IsRun(r) && r.states[0] == NEW && j < |r.states|
    ensures Agrees(r.states[j], TallyOf(r.events[..j]))
    decreases j
  {
    if j > 0 {
      StateAgreesWithEvents(r, j - 1);
      RunKeepsValid(r, j - 1);
      assert IsStep(r.states[j - 1], r.events[j - 1], r.states[j]);
      StepAgrees(r.states[j - 1], TallyOf(r.events[..j - 1]), r.events[j - 1]);
      TallyStep(r.events, j);
    }
  }

  /** The closing frame, and the end of the write task. */
  ghost predicate ClosingAgrees(k: KeepAlive, t: Tally) {
    && (ClosingFrame in k.wire <==> t.closedWell == 1)
    && (ClosingFrame in k.wire ==> k.wire == BeforeClosing(k.wire) + [ClosingFrame])
    && (k.writer.Ended? <==> t.closedWell + t.closedBadly == 1) && t.closedWell + t.closedBadly <= 1
  }

  lemma ClosingFrameOf(k: KeepAlive, t: Tally)
    requires WriterValid(k) && WriterAgrees(k, t) && WireAgrees(k, t)
    ensures ClosingAgrees(k, t)
  {
    if i :| 0 <= i < |k.wire| && k.wire[i] == ClosingFrame {
      assert k.wire == k.wire[..|k.wire| - 1] + [k.wire[|k.wire| - 1]];
    }
  }

  /**
   * The closing frame is sent: it is on the wire, as its last frame, iff the socket was closed without error; and the write
   * task has ended iff it has closed the socket, well or badly, exactly once.
   */
  lemma {:induction false} ClosingFrameIff(r: Run, j: nat)
    requires IsRun(r) && r.states[0] == NEW && j < |r.states|
    ensures ClosingAgrees(r.states[j], TallyOf(r.events[..j]))
  {
    var k, t := r.states[j], TallyOf(r.events[..j]);
    StateAgreesWithEvents(r, j);
    RunKeepsValid(r, j);
    ClosingFrameOf(k, t);
  }

  /**
   * Where the items are: what the socket yielded for users is what was taken, what waits in the queue, and the one in the
   * reader's hand. Only a reader refused for want of handles drops one.
   */
  lemma {:induction false} EveryItemIsSomewhere(r: Run, j: nat)
    requires IsRun(r) && r.states[0] == NEW && j < |r.states|
    ensures var k, t := r.states[j], TallyOf(r.events[..j]);
      && k.taken + k.incoming <= Passed(k.stream)
      && |Passed(k.stream)| == |k.taken| + |k.incoming| + t.refused + (if k.reader.Passing? then 1 else 0)
      && (k.attached ==> t.refused == 0)
      && (k.reader.Passing? ==> Passed(k.stream) == k.taken + k.incoming + [k.reader.item])
  {
    StateAgreesWithEvents(r, j);
    RunKeepsValid(r, j);
    PassedIsYielded(r, j);
  }

  lemma {:induction false} PassedIsYielded(r: Run, j: nat)
    requires IsRun(r) && j < |r.states| && r.states[0] == NEW
    ensures |Passed(r.states[j].stream)| == TallyOf(r.events[..j]).yieldedForUsers
    decreases j
  {
    if j > 0 {
      PassedIsYielded(r, j - 1);
      TallyStep(r.events, j);
      assert IsStep(r.states[j - 1], r.events[j - 1], r.states[j]);
      if r.events[j - 1].SocketYields? {
        PassedAppend(r.states[j - 1].stream, r.events[j - 1].item);
      }
    }
  }

  /** The events of the write task, but for the timer, and those of the read task, but for what the socket does. */
  predicate IsWriterEvent(e: Event) {
    e.WriterDisconnected? || e.WriterReceived? || e.WriterChannelClosed? || e.WriteDone? || e.WriteFailed? || e.WriterRaises?
    || e.SocketClosed?
  }

  predicate IsReaderEvent(e: Event) {
    e.ReaderDisconnected? || e.ItemPassed? || e.PassRefused? || e.ReaderRaises?
  }

  /** When the tasks have to wait: for a message or the timer, for the socket or for room, and for good when they have ended. */
  lemma TasksWaitIff(k: KeepAlive)
    ensures (forall e :: IsWriterEvent(e) ==> !Enabled(k, e)) <==>
      || (k.writer.Idle? && k.disconnect.version == k.writerSeen && k.outgoing == [] && k.attached)
      || k.writer.Ended?
    ensures Enabled(k, PingDue) <==>
      k.writer.Idle? && k.disconnect.version == k.writerSeen && k.outgoing == [] && k.attached
    ensures (forall e :: IsReaderEvent(e) ==> !Enabled(k, e)) <==>
      || (k.reader.Listening? && k.disconnect.version == k.readerSeen)
      || (k.reader.Passing? && k.attached && k.incoming != [])
      || k.reader.Stopped?
    ensures forall item :: Enabled(k, SocketYields(item)) <==> k.reader.Listening?
    ensures Enabled(k, SocketEnds) <==> k.reader.Listening?
    ensures forall m :: Enabled(k, Offer(m)) <==> k.attached && !k.writer.Ended? && k.outgoing == []
    ensures k.attached ==> Enabled(k, CloseHandle) && (Enabled(k, Take) <==> k.incoming != [])
  {
    WriterWaitsIff(k);
    ReaderWaitsIff(k);
  }

  lemma WriterWaitsIff(k: KeepAlive)
    ensures (forall e :: IsWriterEvent(e) ==> !Enabled(k, e)) <==>
      || (k.writer.Idle? && k.disconnect.version == k.writerSeen && k.outgoing == [] && k.attached)
      || k.writer.Ended?
  {
    match k.writer
    case Idle =>
      assert Enabled(k, WriterDisconnected) || Enabled(k, WriterReceived) || Enabled(k, WriterChannelClosed)
        <==> !(k.disconnect.version == k.writerSeen && k.outgoing == [] && k.attached);
    case Writing(_) => assert Enabled(k, WriteDone);
    case Leaving => assert Enabled(k, WriterRaises);
    case ClosingSocket => assert Enabled(k, SocketClosed(true));
    case Ended =>
  }

  lemma ReaderWaitsIff(k: KeepAlive)
    ensures (forall e :: IsReaderEvent(e) ==> !Enabled(k, e)) <==>
      || (k.reader.Listening? && k.disconnect.version == k.readerSeen)
      || (k.reader.Passing? && k.attached && k.incoming != [])
      || k.reader.Stopped?
  {
    match k.reader
    case Listening => assert Enabled(k, ReaderDisconnected) <==> k.disconnect.version != k.readerSeen;
    case Passing(_) => assert Enabled(k, ItemPassed) || Enabled(k, PassRefused) <==> !(k.attached && k.incoming != []);
    case Stopping => assert Enabled(k, ReaderRaises);
    case Stopped =>
  }
}
