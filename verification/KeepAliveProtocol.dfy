/**
 * One WebSocketKeepAlive and the two tasks it spawns, as a transition system with one event per
 * `select_biased!` arm or await point. A guard spells out the arm order: an arm fires only when
 * every earlier arm is not ready.
 */
module KeepAliveProtocol {
  import opened Messages
  import opened Watches

  /** The write task: in its loop (`Idle`, `Writing`), or somewhere in its clean-up. */
  datatype Writer = Idle | Writing(frame: Frame) | Leaving | ClosingSocket | Ended

  /** The read task. */
  datatype Reader = Listening | Passing(item: Item) | Stopping | Stopped

  /** Why the write task left its loop. */
  datatype Exit = ByDisconnect | ByChannelClosed | ByWriteError

  datatype KeepAlive = KeepAlive(
    outgoing: seq<Message>,
    incoming: seq<Item>,
    disconnect: Watch,
    attached: bool,
    writer: Writer,
    writerSeen: nat,
    reader: Reader,
    readerSeen: nat,
    // histories
    accepted: seq<Message>,
    wire: seq<Frame>,
    failed: seq<Message>,
    exit: Option<Exit>,
    stream: seq<Item>,
    passed: seq<Item>,
    taken: seq<Item>)

  const NEW := KeepAlive([], [], FRESH, true, Idle, 0, Listening, 0, [], [], [], None, [], [], [])

  datatype Event =
    // holders of the handle
    | Offer(message: Message)
    | Take
    | CloseHandle
    | Detach
    // write task
    | WriterDisconnected
    | WriterReceived
    | WriterChannelClosed
    | PingDue
    | WriteDone
    | WriteFailed
    | WriterRaises
    | SocketClosed(ok: bool)
    // read task
    | SocketYields(item: Item)
    | SocketEnds
    | ReaderDisconnected
    | ItemPassed
    | PassRefused
    | ReaderRaises

  predicate InLoop(w: Writer) {
    w.Idle? || w.Writing?
  }

  predicate Enabled(k: KeepAlive, e: Event) {
    match e
    // The queue is bounded(1), and it stays open until the write task has ended.
    case Offer(_) => k.attached && !k.writer.Ended? && k.outgoing == []
    case Take => k.attached && k.incoming != []
    case CloseHandle => k.attached
    case Detach => true
    case WriterDisconnected => k.writer.Idle? && k.disconnect.ChangedSince(k.writerSeen)
    case WriterReceived => k.writer.Idle? && !k.disconnect.ChangedSince(k.writerSeen) && k.outgoing != []
    case WriterChannelClosed =>
      k.writer.Idle? && !k.disconnect.ChangedSince(k.writerSeen) && k.outgoing == [] && !k.attached
    case PingDue => k.writer.Idle? && !k.disconnect.ChangedSince(k.writerSeen) && k.outgoing == [] && k.attached
    case WriteDone => k.writer.Writing?
    case WriteFailed => k.writer.Writing?
    case WriterRaises => k.writer.Leaving?
    case SocketClosed(_) => k.writer.ClosingSocket?
    case SocketYields(_) => k.reader.Listening?
    case SocketEnds => k.reader.Listening?
    case ReaderDisconnected => k.reader.Listening? && k.disconnect.ChangedSince(k.readerSeen)
    case ItemPassed => k.reader.Passing? && k.attached && k.incoming == []
    case PassRefused => k.reader.Passing? && !k.attached
    case ReaderRaises => k.reader.Stopping?
  }

  function Apply(k: KeepAlive, e: Event): KeepAlive
    requires Enabled(k, e)
  {
    match e
    case Offer(m) => k.(outgoing := [m], accepted := k.accepted + [m])
    case Take => k.(incoming := k.incoming[1..], taken := k.taken + [k.incoming[0]])
    case CloseHandle => k.(disconnect := k.disconnect.Replace(true))
    case Detach => k.(attached := false)
    case WriterDisconnected =>
      k.(writerSeen := k.disconnect.version, writer := Leaving, exit := Some(ByDisconnect))
    case WriterReceived => k.(outgoing := k.outgoing[1..], writer := Writing(Carried(k.outgoing[0])))
    case WriterChannelClosed => k.(writer := Leaving, exit := Some(ByChannelClosed))
    case PingDue => k.(writer := Writing(KeepAlivePing))
    case WriteDone => k.(wire := k.wire + [k.writer.frame], writer := Idle)
    case WriteFailed => k.(failed := Hand(k.writer), writer := Leaving, exit := Some(ByWriteError))
    case WriterRaises => k.(disconnect := k.disconnect.Replace(true), writer := ClosingSocket)
    case SocketClosed(ok) => k.(wire := if ok then k.wire + [ClosingFrame] else k.wire, writer := Ended)
    case SocketYields(i) =>
      k.(stream := k.stream + [i], reader := if IsPassed(i) then Passing(i) else Listening)
    case SocketEnds => k.(reader := Stopping)
    case ReaderDisconnected => k.(readerSeen := k.disconnect.version, reader := Stopping)
    case ItemPassed =>
      k.(incoming := [k.reader.item], passed := k.passed + [k.reader.item], reader := Listening)
    case PassRefused => k.(reader := Stopping)
    case ReaderRaises => k.(disconnect := k.disconnect.Replace(true), reader := Stopped)
  }

  /** The message the write task holds outside the queue. */
  function Hand(w: Writer): seq<Message> {
    if w.Writing? && w.frame.Carried? then [w.frame.message] else []
  }

  /** The messages this keep-alive accepted and can no longer put on its wire. */
  function Lost(k: KeepAlive): seq<Message> {
    k.failed + if k.writer.Ended? then k.outgoing else []
  }

  /** The accepted messages whose fate is still open. */
  function InFlight(k: KeepAlive): seq<Message> {
    Hand(k.writer) + if k.writer.Ended? then [] else k.outgoing
  }

  ghost predicate WriterValid(k: KeepAlive) {
    && |k.outgoing| <= 1
    && |k.failed| <= 1
    && k.accepted == Payload(k.wire) + k.failed + Hand(k.writer) + k.outgoing
    && (k.exit == None <==> InLoop(k.writer))
    && (InLoop(k.writer) ==> k.writerSeen == 0 && k.failed == [])
    && (k.writer.Writing? ==> k.writer.frame != ClosingFrame)
    && (k.exit == Some(ByChannelClosed) ==> !k.attached && k.outgoing == [] && k.failed == [])
    && (k.exit == Some(ByDisconnect) ==> k.failed == [])
    && (forall i :: 0 <= i < |k.wire| && k.wire[i] == ClosingFrame ==> i == |k.wire| - 1 && k.writer.Ended?)
  }

  ghost predicate FlagValid(k: KeepAlive) {
    && (k.disconnect.value <==> k.disconnect.version > 0)
    && (k.writer.ClosingSocket? || k.writer.Ended? || k.exit == Some(ByDisconnect) ==> k.disconnect.value)
    && (k.reader.Listening? || k.reader.Passing? ==> k.readerSeen == 0)
    && (k.reader.Stopped? ==> k.disconnect.value)
  }

  ghost predicate ReaderValid(k: KeepAlive) {
    && |k.incoming| <= 1
    && k.passed == k.taken + k.incoming
    && k.passed <= Passed(k.stream)
    && |Passed(k.stream)| <= |k.passed| + 1
    && (k.reader.Listening? ==> k.passed == Passed(k.stream))
    && (k.reader.Passing? ==> k.passed + [k.reader.item] == Passed(k.stream))
  }

  ghost predicate Valid(k: KeepAlive) {
    WriterValid(k) && FlagValid(k) && ReaderValid(k)
  }

  lemma {:induction false} DoneStep(k: KeepAlive)
    requires WriterValid(k) && Enabled(k, WriteDone)
    ensures WriterValid(Apply(k, WriteDone))
  {
    PayloadAppend(k.wire, k.writer.frame);
  }

  lemma {:induction false} ClosedStep(k: KeepAlive, ok: bool)
    requires WriterValid(k) && Enabled(k, SocketClosed(ok))
    ensures WriterValid(Apply(k, SocketClosed(ok)))
  {
    PayloadAppend(k.wire, ClosingFrame);
  }

  lemma {:induction false} ReceivedStep(k: KeepAlive)
    requires WriterValid(k) && Enabled(k, WriterReceived)
    ensures WriterValid(Apply(k, WriterReceived))
  {
    assert k.outgoing == [k.outgoing[0]];
  }

  lemma {:induction false} FailedStep(k: KeepAlive)
    requires WriterValid(k) && Enabled(k, WriteFailed)
    ensures WriterValid(Apply(k, WriteFailed))
  {
  }

  /** The events that leave the wire and the accepted messages alone, but for an offer. */
  lemma {:induction false} OtherWriterStep(k: KeepAlive, e: Event)
    requires WriterValid(k) && FlagValid(k) && Enabled(k, e)
    requires !e.WriteDone? && !e.SocketClosed? && !e.WriterReceived? && !e.WriteFailed?
    ensures WriterValid(Apply(k, e))
  {
    if e.Offer? {
      assert k.accepted + [e.message] == Payload(k.wire) + k.failed + Hand(k.writer) + [e.message];
    }
  }

  lemma {:induction false} WriterStep(k: KeepAlive, e: Event)
    requires WriterValid(k) && FlagValid(k) && Enabled(k, e)
    ensures WriterValid(Apply(k, e))
  {
    match e
    case WriteDone => DoneStep(k);
    case SocketClosed(ok) => ClosedStep(k, ok);
    case WriterReceived => ReceivedStep(k);
    case WriteFailed => FailedStep(k);
    case _ => OtherWriterStep(k, e);
  }

  lemma ReaderStep(k: KeepAlive, e: Event)
    requires ReaderValid(k) && Enabled(k, e)
    ensures ReaderValid(Apply(k, e))
  {
    match e
    case SocketYields(i) => PassedAppend(k.stream, i);
    case Take => assert k.incoming == [k.incoming[0]];
    case _ =>
  }

  /** Every event of every task and every holder keeps the invariant. */
  lemma StepKeepsValid(k: KeepAlive, e: Event)
    requires Valid(k) && Enabled(k, e)
    ensures Valid(Apply(k, e))
  {
    WriterStep(k, e);
    ReaderStep(k, e);
  }

  /** A run: the states it goes through and the events in between. */
  datatype Run = Run(states: seq<KeepAlive>, events: seq<Event>)

  ghost predicate IsStep(k: KeepAlive, e: Event, k': KeepAlive) {
    Enabled(k, e) && k' == Apply(k, e)
  }

  ghost predicate IsRun(r: Run) {
    && |r.states| == |r.events| + 1
    && forall i {:trigger r.events[i]} :: 0 <= i < |r.events| ==> IsStep(r.states[i], r.events[i], r.states[i + 1])
  }

  /** Some run goes from `k` to `k'`. */
  ghost predicate Leads(k: KeepAlive, k': KeepAlive) {
    exists r :: IsRun(r) && r.states[0] == k && r.states[|r.states| - 1] == k'
  }

  lemma Stays(k: KeepAlive)
    ensures Leads(k, k)
  {
    assert IsRun(Run([k], []));
  }

  lemma LeadsOn(o: KeepAlive, k: KeepAlive, e: Event, k': KeepAlive)
    requires Leads(o, k) && IsStep(k, e, k')
    ensures Leads(o, k')
  {
    var r :| IsRun(r) && r.states[0] == o && r.states[|r.states| - 1] == k;
    var r' := Run(r.states + [k'], r.events + [e]);
    forall i | 0 <= i < |r'.events| ensures IsStep(r'.states[i], r'.events[i], r'.states[i + 1]) {
      if i < |r.events| {
        assert IsStep(r.states[i], r.events[i], r.states[i + 1]);
      }
    }
  }

  lemma {:induction false} RunKeepsValid(r: Run, j: nat)
    requires IsRun(r) && Valid(r.states[0]) && j < |r.states|
    ensures Valid(r.states[j])
  {
    if j > 0 {
      RunKeepsValid(r, j - 1);
      assert IsStep(r.states[j - 1], r.events[j - 1], r.states[j]);
      StepKeepsValid(r.states[j - 1], r.events[j - 1]);
    }
  }

  lemma Accounting(k: KeepAlive)
    requires Valid(k)
    ensures k.accepted == Payload(k.wire) + Lost(k) + InFlight(k)
    ensures |Lost(k)| <= 2
    ensures InLoop(k.writer) ==> Lost(k) == []
  {
  }

  /**
   * Exact loss accounting: at any point of any run, what a keep-alive accepted is, in order, what is on its wire,
   * then what it lost, then what is still in flight. It loses at most two messages, and none while its write loop
   * has not been left.
   */
  lemma {:induction false} AcceptedIsWireThenLost(r: Run, j: nat)
    requires IsRun(r) && r.states[0] == NEW && j < |r.states|
    ensures var k := r.states[j];
      && k.accepted == Payload(k.wire) + Lost(k) + InFlight(k)
      && |Lost(k)| <= 2
      && (InLoop(k.writer) ==> Lost(k) == [])
  {
    RunKeepsValid(r, j);
    Accounting(r.states[j]);
  }

  /** The two events that lose a message: a failed write of one, and the end of the task with one in the queue. */
  predicate Loses(k: KeepAlive, e: Event) {
    || (e.WriteFailed? && Hand(k.writer) != [])
    || (e.SocketClosed? && k.outgoing != [])
  }

  lemma StepLosesIff(k: KeepAlive, e: Event)
    requires Valid(k) && Enabled(k, e)
    ensures Lost(k) <= Lost(Apply(k, e))
    ensures Lost(Apply(k, e)) != Lost(k) <==> Loses(k, e)
  {
  }

  /** Exactly when resending is lossless for a keep-alive: neither of those two events took place. */
  lemma {:induction false} LosslessIff(r: Run, j: nat)
    requires IsRun(r) && r.states[0] == NEW && j < |r.states|
    ensures Lost(r.states[j]) == [] <==>
      forall i {:trigger r.events[i]} :: 0 <= i < j ==> !Loses(r.states[i], r.events[i])
  {
    if j > 0 {
      LosslessIff(r, j - 1);
      RunKeepsValid(r, j - 1);
      assert IsStep(r.states[j - 1], r.events[j - 1], r.states[j]);
      StepLosesIff(r.states[j - 1], r.events[j - 1]);
    }
  }

  /** Two losses do happen: one message in hand when the write fails, one left in the queue. */
  lemma LossBoundIsTight(m: Message, n: Message)
    ensures exists k :: Leads(NEW, k) && Lost(k) == [m, n]
  {
    InDanger(m, n);
    var k3 := NEW.(outgoing := [n], accepted := [m, n], writer := Writing(Carried(m)));
    var k4 := k3.(failed := [m], writer := Leaving, exit := Some(ByWriteError));
    LeadsOn(NEW, k3, WriteFailed, k4);
    var k5 := k4.(disconnect := Watch(1, true), writer := ClosingSocket);
    LeadsOn(NEW, k4, WriterRaises, k5);
    var k6 := k5.(writer := Ended);
    LeadsOn(NEW, k5, SocketClosed(false), k6);
    assert Lost(k6) == [m] + [n];
  }

  /** One message is being written while the next is already in the queue. */
  lemma InDanger(m: Message, n: Message)
    ensures Leads(NEW, NEW.(outgoing := [n], accepted := [m, n], writer := Writing(Carried(m))))
  {
    Stays(NEW);
    var k1 := NEW.(outgoing := [m], accepted := [m]);
    LeadsOn(NEW, NEW, Offer(m), k1);
    var k2 := k1.(outgoing := [], writer := Writing(Carried(m)));
    assert k1.outgoing[1..] == [];
    LeadsOn(NEW, k1, WriterReceived, k2);
    assert [m] + [n] == [m, n];
    LeadsOn(NEW, k2, Offer(n), k2.(outgoing := [n], accepted := [m, n]));
  }

  /**
   * No step lowers the disconnect flag, and no `changed()` arm fires while the flag is down.
   */
  lemma FlagOnlyRises(k: KeepAlive, e: Event)
    requires Valid(k) && Enabled(k, e)
    ensures k.disconnect.value ==> Apply(k, e).disconnect.value
    ensures e.WriterDisconnected? || e.ReaderDisconnected? ==> k.disconnect.value
  {
  }

  /** Over runs: once raised the flag stays raised, and nobody leaves through a `changed()` arm before. */
  lemma {:induction false} DisconnectIsForGood(r: Run, i: nat, j: nat)
    requires IsRun(r) && Valid(r.states[0]) && i <= j < |r.states|
    ensures r.states[i].disconnect.value ==> r.states[j].disconnect.value
    ensures j < |r.events| && (r.events[j].WriterDisconnected? || r.events[j].ReaderDisconnected?) ==>
      r.states[j].disconnect.value
  {
    RunKeepsValid(r, j);
    if j < |r.events| {
      assert IsStep(r.states[j], r.events[j], r.states[j + 1]);
    }
    if i < j {
      DisconnectIsForGood(r, i, j - 1);
      RunKeepsValid(r, j - 1);
      assert IsStep(r.states[j - 1], r.events[j - 1], r.states[j]);
      FlagOnlyRises(r.states[j - 1], r.events[j - 1]);
    }
  }

  /** From `i` on the flag is up; at `j` the write of then is still under way, or over for good. */
  ghost predicate QuietSince(k: KeepAlive, k': KeepAlive) {
    && Valid(k') && k'.disconnect.value
    && if k.writer.Writing? && k'.writer == k.writer then k'.wire == k.wire
       else
         && !k'.writer.Writing?
         && (BeforeClosing(k'.wire) == BeforeClosing(k.wire)
            || (k.writer.Writing? && BeforeClosing(k'.wire) == BeforeClosing(k.wire) + [k.writer.frame]))
  }

  lemma {:induction false} StaysQuiet(r: Run, i: nat, j: nat)
    requires IsRun(r) && Valid(r.states[0]) && i <= j < |r.states| && r.states[i].disconnect.value
    ensures QuietSince(r.states[i], r.states[j])
  {
    RunKeepsValid(r, i);
    if i < j {
      StaysQuiet(r, i, j - 1);
      assert IsStep(r.states[j - 1], r.events[j - 1], r.states[j]);
      StepKeepsValid(r.states[j - 1], r.events[j - 1]);
      QuietStep(r.states[i], r.states[j - 1], r.events[j - 1]);
    }
  }

  lemma {:induction false} QuietClosing(k: KeepAlive, mid: KeepAlive, ok: bool)
    requires QuietSince(k, mid) && Enabled(mid, SocketClosed(ok)) && Valid(Apply(mid, SocketClosed(ok)))
    ensures QuietSince(k, Apply(mid, SocketClosed(ok)))
  {
    assert (mid.wire + [ClosingFrame])[..|mid.wire|] == mid.wire;
    assert BeforeClosing(mid.wire) == mid.wire;
  }

  /** Once the flag is up, no write is begun. */
  lemma {:induction false} QuietSelect(k: KeepAlive, mid: KeepAlive, e: Event)
    requires QuietSince(k, mid) && Enabled(mid, e) && mid.writer.Idle?
    ensures Apply(mid, e).wire == mid.wire && !Apply(mid, e).writer.Writing?
  {
  }

  lemma {:induction false} QuietWriting(k: KeepAlive, mid: KeepAlive, e: Event)
    requires QuietSince(k, mid) && Enabled(mid, e) && mid.writer.Writing? && Valid(Apply(mid, e))
    ensures QuietSince(k, Apply(mid, e))
  {
    if e.WriteDone? {
      assert BeforeClosing(mid.wire) == mid.wire;
      assert BeforeClosing(mid.wire + [mid.writer.frame]) == mid.wire + [mid.writer.frame];
    }
  }

  lemma {:induction false} QuietStep(k: KeepAlive, mid: KeepAlive, e: Event)
    requires Valid(k) && k.disconnect.value && QuietSince(k, mid) && Enabled(mid, e) && Valid(Apply(mid, e))
    ensures QuietSince(k, Apply(mid, e))
  {
    FlagOnlyRises(mid, e);
    if mid.writer.Writing? {
      QuietWriting(k, mid, e);
    } else if mid.writer.Idle? {
      QuietSelect(k, mid, e);
    } else if e.SocketClosed? {
      QuietClosing(k, mid, e.ok);
    }
  }

  /** Once the flag is raised the wire gains at most the frame whose write was already in progress. */
  lemma {:induction false} AtMostOneMoreFrame(r: Run, i: nat, j: nat)
    requires IsRun(r) && Valid(r.states[0]) && i <= j < |r.states| && r.states[i].disconnect.value
    ensures var k, k' := r.states[i], r.states[j];
      && k'.disconnect.value
      && (BeforeClosing(k'.wire) == BeforeClosing(k.wire)
          || (k.writer.Writing? && BeforeClosing(k'.wire) == BeforeClosing(k.wire) + [k.writer.frame]))
  {
    StaysQuiet(r, i, j);
  }

  /**
   * A keep-alive whose write loop was left because every handle was gone lost nothing: all it accepted is on the wire,
   * and the closing frame can only come after that.
   */
  lemma {:induction false} DrainedKeepAlive(r: Run, j: nat)
    requires IsRun(r) && r.states[0] == NEW && j < |r.states| && r.states[j].exit == Some(ByChannelClosed)
    ensures var k := r.states[j];
      && Payload(BeforeClosing(k.wire)) == k.accepted
      && ClosingFrame !in BeforeClosing(k.wire)
  {
    RunKeepsValid(r, j);
    PayloadBeforeClosing(r.states[j].wire);
  }

  lemma PayloadBeforeClosing(wire: seq<Frame>)
    ensures Payload(BeforeClosing(wire)) == Payload(wire)
  {
  }
}
