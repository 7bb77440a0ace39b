/**
 * WebSocketKeepAlive in the form of the program: an object with a queue and a flag, and two tasks that advance from
 * one await point to the next. Every method is proved against `KeepAliveProtocol`. For the two `select_biased!`s that
 * means: the arm the `if`s below pick is the one arm the protocol's guards enable, and a poll that picks none finds
 * none enabled.
 */
module WebSocketKeepAlives {
  import opened Messages
  import opened Watches
  import opened KeepAliveProtocol

  datatype SendResult = Sent | ConnectionClosed | Pending

  /** The arms of the write task's select; the last one is ready when the ping timer has fired. */
  predicate IsWriteArm(e: Event, timer: bool) {
    e.WriterDisconnected? || e.WriterReceived? || e.WriterChannelClosed? || (e.PingDue? && timer)
  }

  /** The arms of the read task's select; the first one is ready when the socket has something to say. */
  predicate IsReadArm(e: Event, next: Option<Option<Item>>) {
    match e
    case SocketYields(item) => next == Some(Some(item))
    case SocketEnds => next == Some(None)
    case ReaderDisconnected => next == None
    case _ => false
  }

  /** The guards leave a select at most one arm. */
  lemma OneWriteArm(k: KeepAlive, x: Event, y: Event, timer: bool)
    requires k.writer.Idle? && IsWriteArm(x, timer) && IsWriteArm(y, timer) && Enabled(k, x) && Enabled(k, y)
    ensures x == y
  {
  }

  class WebSocketKeepAlive {
    var outgoing: seq<Message>
    var incoming: seq<Item>
    var disconnect: Watch
    var attached: bool
    var writer: Writer
    var writerSeen: nat
    var reader: Reader
    var readerSeen: nat
    ghost var accepted: seq<Message>
    ghost var wire: seq<Frame>
    ghost var failed: seq<Message>
    ghost var exit: Option<Exit>
    ghost var stream: seq<Item>
    ghost var passed: seq<Item>
    ghost var taken: seq<Item>

    ghost function View(): KeepAlive
      reads this
    {
      KeepAlive(outgoing, incoming, disconnect, attached, writer, writerSeen, reader, readerSeen,
                accepted, wire, failed, exit, stream, passed, taken)
    }

    constructor ()
      ensures View() == NEW && Valid(View())
    {
      outgoing, incoming, disconnect, attached := [], [], FRESH, true;
      writer, writerSeen, reader, readerSeen := Idle, 0, Listening, 0;
      accepted, wire, failed, exit, stream, passed, taken := [], [], [], None, [], [], [];
    }

    /** One poll of `send`: its own receiver of the flag is a fresh clone, which has seen version 0. */
    method Send(m: Message) returns (r: SendResult)
      requires Valid(View()) && attached
      modifies this
      ensures r == ConnectionClosed <==> old(disconnect.value)
      ensures r == Sent <==> !old(disconnect.value) && Enabled(old(View()), Offer(m))
      ensures View() == if r == Sent then Apply(old(View()), Offer(m)) else old(View())
    {
      if disconnect.value || disconnect.ChangedSince(0) {
        return ConnectionClosed;
      }
      if writer.Ended? {
        return ConnectionClosed;
      }
      if outgoing != [] {
        return Pending;
      }
      outgoing := [m];
      accepted := accepted + [m];
      return Sent;
    }

    method Close()
      requires attached
      modifies this
      ensures View() == Apply(old(View()), CloseHandle)
    {
      disconnect := disconnect.Replace(true);
    }

    /** Connected exactly as long as nobody has ever raised the flag. */
    method IsConnected() returns (connected: bool)
      requires Valid(View())
      ensures connected <==> disconnect.version == 0
    {
      connected := !disconnect.value;
    }

    /** One poll of the write task's `select_biased!`. */
    method SelectWrite(timer: bool) returns (e: Option<Event>)
      requires writer.Idle?
      modifies this
      ensures e.Some? ==>
        && IsWriteArm(e.value, timer) && Enabled(old(View()), e.value) && View() == Apply(old(View()), e.value)
      ensures e == None ==>
        View() == old(View()) && forall x :: IsWriteArm(x, timer) ==> !Enabled(old(View()), x)
    {
      if disconnect.ChangedSince(writerSeen) {
        writerSeen, writer, exit := disconnect.version, Leaving, Some(ByDisconnect);
        return Some(WriterDisconnected);
      } else if outgoing != [] {
        writer, outgoing := Writing(Carried(outgoing[0])), outgoing[1..];
        return Some(WriterReceived);
      } else if !attached {
        writer, exit := Leaving, Some(ByChannelClosed);
        return Some(WriterChannelClosed);
      } else if timer {
        writer := Writing(KeepAlivePing);
        return Some(PingDue);
      }
      return None;
    }

    /** `write_ws.send` returns: back to the select, or out of the loop with the message lost. */
    method WriteReturns(ok: bool)
      requires writer.Writing?
      modifies this
      ensures View() == Apply(old(View()), if ok then WriteDone else WriteFailed)
    {
      if ok {
        wire, writer := wire + [writer.frame], Idle;
      } else {
        failed, writer, exit := Hand(writer), Leaving, Some(ByWriteError);
      }
    }

    /** The clean-up after the loop. */
    method RaiseFlagAfterWriting()
      requires writer.Leaving?
      modifies this
      ensures View() == Apply(old(View()), WriterRaises)
    {
      disconnect := disconnect.Replace(true);
      writer := ClosingSocket;
    }

    /** `write_ws.close` returns and the task ends; only now is the queue closed. */
    method CloseReturns(ok: bool)
      requires writer.ClosingSocket?
      modifies this
      ensures View() == Apply(old(View()), SocketClosed(ok))
    {
      if ok {
        wire := wire + [ClosingFrame];
      }
      writer := Ended;
    }

    /** One poll of the read task's `select_biased!`; `next` is what the socket yields, if it is ready. */
    method SelectRead(next: Option<Option<Item>>) returns (e: Option<Event>)
      requires reader.Listening?
      modifies this
      ensures e.Some? ==>
        && IsReadArm(e.value, next) && Enabled(old(View()), e.value) && View() == Apply(old(View()), e.value)
      ensures e == None ==>
        View() == old(View()) && forall x :: IsReadArm(x, next) ==> !Enabled(old(View()), x)
    {
      match next
      case Some(Some(item)) =>
        stream := stream + [item];
        if IsPassed(item) {
          reader := Passing(item);
        }
        return Some(SocketYields(item));
      case Some(None) =>
        reader := Stopping;
        return Some(SocketEnds);
      case None =>
        if disconnect.ChangedSince(readerSeen) {
          readerSeen, reader := disconnect.version, Stopping;
          return Some(ReaderDisconnected);
        }
        return None;
    }

    /** One poll of the read task's wait for room in the bounded(1) incoming channel. */
    method PassItem() returns (passedOn: bool)
      requires reader.Passing?
      modifies this
      ensures passedOn ==> Enabled(old(View()), ItemPassed) && View() == Apply(old(View()), ItemPassed)
      ensures !passedOn && !old(attached) ==> View() == Apply(old(View()), PassRefused)
      ensures !passedOn && old(attached) ==> View() == old(View()) && !Enabled(old(View()), ItemPassed)
    {
      if !attached {
        reader := Stopping;
        return false;
      }
      if incoming != [] {
        return false;
      }
      incoming, passed, reader := [reader.item], passed + [reader.item], Listening;
      return true;
    }

    method RaiseFlagAfterReading()
      requires reader.Stopping?
      modifies this
      ensures View() == Apply(old(View()), ReaderRaises)
    {
      disconnect := disconnect.Replace(true);
      reader := Stopped;
    }

    /** `recv` on the bounded(1) incoming channel: an item, the end of the stream, or nothing yet. */
    method Recv() returns (r: Option<Option<Item>>)
      requires Valid(View()) && attached
      modifies this
      ensures r == Some(None) <==> old(incoming) == [] && reader.Stopped?
      ensures r.Some? && r.value.Some? ==>
        && Enabled(old(View()), Take) && View() == Apply(old(View()), Take) && taken == old(taken) + [r.value.value]
      ensures !(r.Some? && r.value.Some?) ==> View() == old(View()) && !Enabled(old(View()), Take)
    {
      if incoming != [] {
        var item := incoming[0];
        incoming, taken := incoming[1..], taken + [item];
        return Some(Some(item));
      }
      return if reader.Stopped? then Some(None) else None;
    }

    /** The last handle goes. */
    method Detach()
      modifies this
      ensures View() == Apply(old(View()), Event.Detach)
    {
      attached := false;
    }
  }

  /** One call by a holder of the handle, or one poll of a task, which is told what the socket or the timer says. */
  datatype Call =
    | CallSend(message: Message)
    | CallRecv
    | CallClose
    | CallDetach
    | PollWriter(timer: bool, ok: bool)
    | PollReader(next: Option<Option<Item>>)

  /** What one call does: one event, or nothing. */
  ghost predicate Follows(k: KeepAlive, e: Option<Event>, k': KeepAlive) {
    match e
    case None => k' == k
    case Some(event) => IsStep(k, event, k')
  }

  method PerformCall(ws: WebSocketKeepAlive, c: Call) returns (ghost e: Option<Event>)
    requires Valid(ws.View())
    modifies ws
    ensures Follows(old(ws.View()), e, ws.View())
  {
    e := None;
    match c
    case CallSend(m) =>
      if ws.attached {
        var result := ws.Send(m);
        e := if result == Sent then Some(Offer(m)) else None;
      }
    case CallRecv =>
      if ws.attached {
        var result := ws.Recv();
        e := if result.Some? && result.value.Some? then Some(Take) else None;
      }
    case CallClose =>
      if ws.attached {
        ws.Close();
        e := Some(CloseHandle);
      }
    case CallDetach =>
      ws.Detach();
      e := Some(Event.Detach);
    case _ =>
  }

  /** One poll of the write task, wherever it stands; `ok` is the outcome of a write or of closing the socket. */
  method PerformWrite(ws: WebSocketKeepAlive, timer: bool, ok: bool) returns (ghost e: Option<Event>)
    modifies ws
    ensures Follows(old(ws.View()), e, ws.View())
  {
    match ws.writer
    case Idle =>
      e := ws.SelectWrite(timer);
    case Writing(_) =>
      ws.WriteReturns(ok);
      e := Some(if ok then WriteDone else WriteFailed);
    case Leaving =>
      ws.RaiseFlagAfterWriting();
      e := Some(WriterRaises);
    case ClosingSocket =>
      ws.CloseReturns(ok);
      e := Some(SocketClosed(ok));
    case Ended =>
      e := None;
  }

  /** One poll of the read task, wherever it stands; `next` is what the socket yields, if it is ready. */
  method PerformRead(ws: WebSocketKeepAlive, next: Option<Option<Item>>) returns (ghost e: Option<Event>)
    modifies ws
    ensures Follows(old(ws.View()), e, ws.View())
  {
    e := None;
    match ws.reader
    case Listening =>
      e := ws.SelectRead(next);
    case Passing(_) =>
      ghost var attached := ws.attached;
      var passedOn := ws.PassItem();
      e := if passedOn then Some(ItemPassed) else if attached then None else Some(PassRefused);
    case Stopping =>
      ws.RaiseFlagAfterReading();
      e := Some(ReaderRaises);
    case Stopped =>
  }

  method Perform(ws: WebSocketKeepAlive, c: Call) returns (ghost e: Option<Event>)
    requires Valid(ws.View())
    modifies ws
    ensures Follows(old(ws.View()), e, ws.View())
  {
    match c
    case PollWriter(timer, ok) => e := PerformWrite(ws, timer, ok);
    case PollReader(next) => e := PerformRead(ws, next);
    case _ => e := PerformCall(ws, c);
  }

  ghost function Extended(r: Run, e: Option<Event>, k: KeepAlive): Run {
    match e
    case None => r
    case Some(event) => Run(r.states + [k], r.events + [event])
  }

  lemma ExtendedIsRun(r: Run, e: Option<Event>, k: KeepAlive)
    requires IsRun(r) && Follows(r.states[|r.states| - 1], e, k)
    ensures var r' := Extended(r, e, k);
      IsRun(r') && r'.states[0] == r.states[0] && r'.states[|r'.states| - 1] == k
  {
    var r' := Extended(r, e, k);
    forall i {:trigger r'.events[i]} | 0 <= i < |r'.events| ensures IsStep(r'.states[i], r'.events[i], r'.states[i + 1]) {
      if i < |r.events| {
        assert IsStep(r.states[i], r.events[i], r.states[i + 1]);
      }
    }
  }

  method Schedule(calls: seq<Call>) returns (ws: WebSocketKeepAlive, ghost r: Run)
    ensures fresh(ws) && IsRun(r) && r.states[0] == NEW && ws.View() == r.states[|r.states| - 1]
  {
    ws := new WebSocketKeepAlive();
    r := Run([ws.View()], []);
    for i := 0 to |calls|
      invariant fresh(ws) && IsRun(r) && r.states[0] == NEW && ws.View() == r.states[|r.states| - 1]
    {
      RunKeepsValid(r, |r.events|);
      ghost var e := Perform(ws, calls[i]);
      ExtendedIsRun(r, e, ws.View());
      r := Extended(r, e, ws.View());
    }
  }

  /**
   * The program under an arbitrary schedule of calls and polls goes through a run of the protocol, so the theorems about
   * runs hold of the object; here, the exact loss accounting, and exactly when nothing was lost.
   */
  method Execute(calls: seq<Call>) returns (ws: WebSocketKeepAlive, ghost r: Run)
    ensures fresh(ws) && IsRun(r) && r.states[0] == NEW && ws.View() == r.states[|r.states| - 1]
    ensures var k := ws.View();
      && k.accepted == Payload(k.wire) + Lost(k) + InFlight(k)
      && |Lost(k)| <= 2
      && (Lost(k) == [] <==>
           forall i {:trigger r.events[i]} :: 0 <= i < |r.events| ==> !Loses(r.states[i], r.events[i]))
  {
    ws, r := Schedule(calls);
    AcceptedIsWireThenLost(r, |r.events|);
    LosslessIff(r, |r.events|);
  }
}
