/**
 * ReconnectingWebSocket in the form of the program: the shared `Inner` with its channels and flags, and the loops of
 * each connection generation, advanced from one await point to the next. Every method is proved against
 * `ReconnectingProtocol`; a select picks the arm that the protocol's guards enable, or finds none enabled. `Execute`
 * carries the theorems about runs over to the object.
 */
module ReconnectingWebSockets {
  import opened Messages
  import opened Watches
  import opened ReconnectingProtocol
  import opened ConnectedFlag
  import opened Conservation
  import opened Ordering
  import K = KeepAliveProtocol

  datatype SendStart = Queued | AlreadyClosed

  datatype Receipt = Got(item: Item) | ClosedNormally | NothingYet

  predicate IsWriteArm(w: WriteEvent) {
    w.TakeRetry? || w.TakeOutgoing? || w.OutgoingClosed? || w.WriteDisconnectArm? || w.WriteCloseArm?
  }

  predicate IsReadArm(r: ReadEvent) {
    r.TakeItem? || r.ItemsEnd? || r.ReadDisconnectArm? || r.ReadCloseArm?
  }

  /** The items `recv` swallows. */
  predicate IsSwallowed(item: Item) {
    item == Failed(ResetWithoutClosingHandshake)
  }

  class ReconnectingWebSocket {
    const maxRetries: nat
    var handle: bool
    var outgoing: seq<Message>
    var retry: seq<Message>
    var incoming: seq<Item>
    var close: Watch
    var disconnect: Watch
    var sending: multiset<Message>
    var dials: seq<Dial>
    var gens: seq<Generation>
    ghost var accepted: seq<Message>
    ghost var delivered: seq<Item>
    ghost var received: seq<Item>

    ghost function View(): State
      reads this
    {
      State(maxRetries, handle, outgoing, retry, incoming, close, disconnect, sending, dials, gens,
            accepted, delivered, received)
    }

    /** `Builder::build`. */
    constructor (maxRetries: nat)
      ensures View() == Initial(maxRetries) && Valid(View())
    {
      this.maxRetries := maxRetries;
      handle, outgoing, retry, incoming := true, [], [], [];
      close, disconnect, sending, dials, gens := FRESH, FRESH, multiset{}, [], [];
      accepted, delivered, received := [], [], [];
    }

    /** The start of `send`: refused exactly if the handle was closed. */
    method StartSend(m: Message) returns (r: SendStart)
      requires handle
      modifies this
      ensures r == AlreadyClosed <==> old(close.value)
      ensures View() == if r == AlreadyClosed then old(View())
                        else Apply(old(View()), User(UserEvent.StartSend(m)))
    {
      if close.value {
        return AlreadyClosed;
      }
      sending := sending + multiset{m};
      return Queued;
    }

    /** One poll of a waiting `send`. */
    method PollSend(m: Message) returns (sent: bool)
      requires m in sending
      modifies this
      ensures sent <==> Enabled(old(View()), User(Accept(m)))
      ensures View() == if sent then Apply(old(View()), User(Accept(m))) else old(View())
    {
      sent := outgoing == [];
      if sent {
        sending, outgoing, accepted := sending - multiset{m}, [m], accepted + [m];
      }
    }

    method Close()
      requires handle
      modifies this
      ensures View() == Apply(old(View()), User(UserEvent.Close))
    {
      close := close.Replace(true);
    }

    /**
     * `is_connected`, asked after the run `r`. The answer yes is right, both loops of the newest connection are there,
     * unless the flag has been out of touch since the handle was built or since a read loop started too late.
     */
    method IsConnected(ghost r: Run) returns (connected: bool)
      requires handle && IsRunFromStart(maxRetries, r) && View() == r.states[|r.states| - 1]
      ensures connected <==> ReportsConnected(View())
      ensures connected ==> (NewestLives(View()) <==> !OutOfTouch(r, |r.events|))
    {
      MisreportsIff(maxRetries, r, |r.events|);
      connected := !close.value && !disconnect.value;
    }

    /** The last handle goes, when no `send` or `connect` on it is pending. */
    method DropHandle()
      requires Enabled(View(), User(UserEvent.DropHandle))
      modifies this
      ensures View() == Apply(old(View()), User(UserEvent.DropHandle))
    {
      handle := false;
    }

    /**
     * One poll of `recv`, whose own receiver of the close flag has seen version `seen`. It takes items until it finds
     * one to return; what it took, in order, is the swallowed resets followed by the result.
     */
    method PollReceive(seen: nat) returns (r: Receipt, ghost took: seq<Item>, seen': nat)
      requires handle && seen <= close.version
      modifies `incoming, `received
      ensures old(incoming) == took + incoming && received == old(received) + took
      ensures match r
        case Got(i) => took != [] && took[|took| - 1] == i && i != Failed(ResetWithoutClosingHandshake)
                       && forall j :: 0 <= j < |took| - 1 ==> took[j] == Failed(ResetWithoutClosingHandshake)
        case _ => incoming == [] && forall j :: 0 <= j < |took| ==> took[j] == Failed(ResetWithoutClosingHandshake)
      ensures r == ClosedNormally ==> close.value && close.ChangedSince(seen)
      ensures r == NothingYet ==> !close.ChangedSince(seen) || !close.value
      ensures r.Got? ==> seen' == seen
      ensures !r.Got? ==> seen' == close.version
    {
      took, seen' := [], seen;
      while incoming != []
        invariant old(incoming) == took + incoming && received == old(received) + took
        invariant forall j :: 0 <= j < |took| ==> IsSwallowed(took[j])
        decreases |incoming|
      {
        var item := incoming[0];
        took, received, incoming := took + [item], received + [item], incoming[1..];
        if !IsSwallowed(item) {
          return Got(item), took, seen';
        }
      }
      if close.ChangedSince(seen) {
        seen' := close.version;
        if close.value {
          return ClosedNormally, took, seen';
        }
      }
      return NothingYet, took, seen';
    }

    /** A `connect` begins; its attempts return one by one. */
    method StartConnect() returns (dial: nat)
      requires handle
      modifies this
      ensures dial < |dials| && View() == Apply(old(View()), User(Connect)) && dials[dial] == Dialing(0)
    {
      dial := |dials|;
      dials := dials + [Dialing(0)];
    }

    method DialReturns(dial: nat, connected: bool, clientError: bool)
      requires dial < |dials| && dials[dial].Dialing?
      modifies this
      ensures View() == Apply(old(View()), User(if connected then DialSucceeds(dial) else DialFails(dial, clientError)))
    {
      var attempt := dials[dial].attempt;
      if connected {
        gens, dials := gens + [NewGeneration(None)], dials[dial := DialEnded];
      } else if attempt == maxRetries || clientError {
        dials := dials[dial := DialEnded];
      } else {
        dials := dials[dial := Dialing(attempt + 1)];
      }
    }

    predicate Alive()
      reads this
      ensures Alive() == InnerAlive(View())
    {
      handle || exists i :: 0 <= i < |gens| && gens[i].read.Redialing?
    }

    /** One poll of the write loop's `select_biased!`. */
    method SelectWrite(g: nat) returns (e: Option<WriteEvent>)
      requires g < |gens| && gens[g].write.Waiting?
      modifies this
      ensures e.Some? ==>
        && IsWriteArm(e.value) && Enabled(old(View()), Write(g, e.value))
        && View() == Apply(old(View()), Write(g, e.value))
      ensures e == None ==>
        View() == old(View()) && forall w :: IsWriteArm(w) ==> !Enabled(old(View()), Write(g, w))
    {
      var gen := gens[g];
      var alive := Alive();
      if retry != [] {
        var message := retry[0];
        retry, gens := retry[1..], gens[g := gen.(write := Forwarding(message))];
        return Some(TakeRetry);
      } else if outgoing != [] {
        var message := outgoing[0];
        outgoing, gens := outgoing[1..], gens[g := gen.(write := Forwarding(message))];
        return Some(TakeOutgoing);
      } else if !alive {
        gens := gens[g := gen.(write := LeftWrite)];
        return Some(OutgoingClosed);
      } else if disconnect.ChangedSince(gen.writeSeen.disconnect) {
        var seen := gen.writeSeen.(disconnect := disconnect.version);
        gens := gens[g := gen.(write := if disconnect.value then LeftWrite else Waiting, writeSeen := seen)];
        return Some(WriteDisconnectArm);
      } else if close.ChangedSince(gen.writeSeen.close) {
        var seen := gen.writeSeen.(close := close.version);
        gens := gens[g := gen.(write := if close.value then LeftWrite else Waiting, writeSeen := seen)];
        return Some(WriteCloseArm);
      }
      return None;
    }

    /** One poll of the write loop's wait for the keep-alive's bounded(1) queue. */
    method ForwardMessage(g: nat) returns (e: Option<WriteEvent>)
      requires g < |gens| && gens[g].write.Forwarding? && gens[g].keepAlive.attached
      modifies this
      ensures e.Some? ==>
        Enabled(old(View()), Write(g, e.value)) && View() == Apply(old(View()), Write(g, e.value))
      ensures e == None ==> View() == old(View()) && forall w :: !Enabled(old(View()), Write(g, w))
    {
      var gen := gens[g];
      var message := gen.write.message;
      if gen.keepAlive.writer.Ended? {
        gens := gens[g := gen.(write := Requeuing(message))];
        return Some(Refused);
      } else if gen.keepAlive.outgoing == [] {
        var k := gen.keepAlive.(outgoing := [message], accepted := gen.keepAlive.accepted + [message]);
        gens := gens[g := gen.(write := Waiting, keepAlive := k)];
        return Some(Forwarded);
      }
      return None;
    }

    /** One poll of the write loop's wait for the bounded(1) retry channel. */
    method RequeueMessage(g: nat) returns (requeued: bool)
      requires g < |gens| && gens[g].write.Requeuing?
      modifies this
      ensures requeued <==> Enabled(old(View()), Write(g, Requeued))
      ensures View() == if requeued then Apply(old(View()), Write(g, Requeued)) else old(View())
    {
      requeued := retry == [];
      if requeued {
        retry, gens := [gens[g].write.message], gens[g := gens[g].(write := LeftWrite)];
      }
    }

    /** The end of the write task: tell the read loop to stop, and drop the keep-alive handle. */
    method FinishWriting(g: nat)
      requires g < |gens| && gens[g].write.LeftWrite?
      modifies this
      ensures View() == Apply(old(View()), Write(g, WriteEnds))
    {
      if Alive() {
        disconnect := disconnect.Replace(true);
      }
      var gen := gens[g];
      var k := if gen.read.ReadEnded? then gen.keepAlive.(attached := false) else gen.keepAlive;
      gens := gens[g := gen.(write := WriteEnded, keepAlive := k)];
    }

    /** The start of the read task: announce the new connection. */
    method StartReading(g: nat)
      requires g < |gens| && gens[g].read.Starting?
      modifies this
      ensures View() == Apply(old(View()), Read(g, Starts))
    {
      if Alive() {
        disconnect := disconnect.Replace(false);
      }
      gens := gens[g := gens[g].(read := Reading)];
    }

    /** One poll of the read loop's `select_biased!`. */
    method SelectRead(g: nat) returns (e: Option<ReadEvent>)
      requires g < |gens| && gens[g].read.Reading? && gens[g].keepAlive.attached
      modifies this
      ensures e.Some? ==>
        && IsReadArm(e.value) && Enabled(old(View()), Read(g, e.value))
        && View() == Apply(old(View()), Read(g, e.value))
      ensures e == None ==>
        View() == old(View()) && forall r :: IsReadArm(r) ==> !Enabled(old(View()), Read(g, r))
    {
      var gen := gens[g];
      var alive := Alive();
      if gen.keepAlive.incoming != [] {
        var item := gen.keepAlive.incoming[0];
        var k := gen.keepAlive.(incoming := gen.keepAlive.incoming[1..], taken := gen.keepAlive.taken + [item]);
        gens := gens[g := gen.(read := if item == CLOSE_ITEM then LeftRead(false) else Delivering(item),
                               keepAlive := k)];
        return Some(TakeItem);
      } else if gen.keepAlive.reader.Stopped? {
        gens := gens[g := gen.(read := LeftRead(true))];
        return Some(ItemsEnd);
      } else if disconnect.ChangedSince(gen.readSeen.disconnect) {
        var seen := gen.readSeen.(disconnect := disconnect.version);
        gens := gens[g := gen.(read := if disconnect.value then LeftRead(true) else Reading, readSeen := seen)];
        return Some(ReadDisconnectArm);
      } else if !alive {
        gens := gens[g := gen.(read := LeftRead(true))];
        return Some(ReadDisconnectArm);
      } else if close.ChangedSince(gen.readSeen.close) {
        var seen := gen.readSeen.(close := close.version);
        gens := gens[g := gen.(read := if close.value then LeftRead(false) else Reading, readSeen := seen)];
        return Some(ReadCloseArm);
      }
      return None;
    }

    /** One poll of the read loop's wait for room in the bounded(1) incoming channel. */
    method DeliverItem(g: nat) returns (e: Option<ReadEvent>)
      requires g < |gens| && gens[g].read.Delivering?
      modifies this
      ensures e.Some? ==>
        Enabled(old(View()), Read(g, e.value)) && View() == Apply(old(View()), Read(g, e.value))
      ensures e == None ==> View() == old(View()) && forall r :: !Enabled(old(View()), Read(g, r))
    {
      var gen := gens[g];
      var item := gen.read.item;
      if !Alive() {
        gens := gens[g := gen.(read := LeftRead(false))];
        return Some(DeliveryFails);
      } else if incoming == [] {
        incoming, delivered := [item], delivered + [item];
        gens := gens[g := gen.(read := Reading, forwarded := gen.forwarded + [item])];
        return Some(Delivered);
      }
      return None;
    }

    /** The end of the read task: tell the write loop to stop, then reconnect if that is called for. */
    method FinishReading(g: nat)
      requires g < |gens| && gens[g].read.LeftRead?
      modifies this
      ensures View() == Apply(old(View()), Read(g, ReadEnds))
    {
      var alive := Alive();
      if alive {
        disconnect := disconnect.Replace(true);
      }
      if alive && gens[g].read.reconnect {
        gens := gens[g := gens[g].(read := Redialing(0))];
      } else {
        gens := gens[g := EndRead(gens[g])];
      }
    }

    /** One attempt of the reconnecting read loop returns. */
    method RedialReturns(g: nat, connected: bool, clientError: bool)
      requires g < |gens| && gens[g].read.Redialing?
      modifies this
      ensures View() == Apply(old(View()), Read(g, if connected then RedialSucceeds else RedialFails(clientError)))
    {
      var attempt := gens[g].read.attempt;
      if connected {
        gens := gens[g := EndRead(gens[g])] + [NewGeneration(Some(g))];
      } else if attempt == maxRetries || clientError {
        gens := gens[g := EndRead(gens[g])];
      } else {
        gens := gens[g := gens[g].(read := Redialing(attempt + 1))];
      }
    }

    /**
     * The keep-alive of generation `g` is moved by its own tasks. Generations are values here, so this is the step of
     * `KeepAliveProtocol` itself; the program form of those tasks, proved against it, is in `WebSocketKeepAlives`.
     */
    method KeepAliveMoves(g: nat, e: K.Event)
      requires g < |gens| && IsTaskEvent(e) && K.Enabled(gens[g].keepAlive, e)
      modifies this
      ensures View() == Apply(old(View()), KeepAlive(g, e))
    {
      gens := gens[g := gens[g].(keepAlive := K.Apply(gens[g].keepAlive, e))];
    }
  }

  /** One poll or call, by whoever may make it: users of the handle, the tasks of a generation, its keep-alive's tasks. */
  datatype Call =
    | CallSend(message: Message)
    | CallPollSend(message: Message)
    | CallClose
    | CallReceive(seen: nat)
    | CallConnect
    | CallDialReturns(dial: nat, connected: bool, clientError: bool)
    | CallDrop
    | PollWriteLoop(gen: nat)
    | PollReadLoop(gen: nat)
    | CallRedialReturns(gen: nat, connected: bool, clientError: bool)
    | PollKeepAlive(gen: nat, event: K.Event)

  /** What one call does to the whole: one event, or nothing. */
  ghost predicate Follows(s: State, e: Option<Event>, s': State) {
    match e
    case None => s' == s
    case Some(event) => IsStep(s, event, s')
  }

  method PerformUser(ws: ReconnectingWebSocket, c: Call) returns (ghost e: Option<Event>)
    requires Valid(ws.View())
    modifies ws
    ensures Follows(old(ws.View()), e, ws.View())
  {
    e := None;
    match c
    case CallSend(m) =>
      if ws.handle {
        var start := ws.StartSend(m);
        e := if start == AlreadyClosed then None else Some(User(StartSend(m)));
      }
    case CallPollSend(m) =>
      if m in ws.sending {
        var sent := ws.PollSend(m);
        e := if sent then Some(User(Accept(m))) else None;
      }
    case CallClose =>
      if ws.handle {
        ws.Close();
        e := Some(User(UserEvent.Close));
      }
    case CallReceive(seen) =>
      if ws.handle && seen <= ws.close.version {
        var receipt, took, _ := ws.PollReceive(seen);
        e := if took == [] then None else Some(User(Receive));
        ReceivesAtMostOne(old(ws.View()), took, ws.View());
      }
    case CallDrop =>
      if ws.handle && ws.sending == multiset{} && forall i :: 0 <= i < |ws.dials| ==> ws.dials[i].DialEnded? {
        ws.DropHandle();
        e := Some(User(UserEvent.DropHandle));
      }
    case _ =>
  }

  /** The incoming channel is bounded(1), so one poll of `recv` takes at most one item. */
  lemma ReceivesAtMostOne(s: State, took: seq<Item>, s': State)
    requires QueuesValid(s) && s.handle && s.incoming == took + s'.incoming
    requires s' == s.(incoming := s'.incoming, received := s.received + took)
    ensures Follows(s, if took == [] then None else Some(User(Receive)), s')
  {
    if took != [] {
      assert took == [s.incoming[0]] && s'.incoming == s.incoming[1..];
    }
  }

  method PerformDial(ws: ReconnectingWebSocket, c: Call) returns (ghost e: Option<Event>)
    modifies ws
    ensures Follows(old(ws.View()), e, ws.View())
  {
    e := None;
    match c
    case CallConnect =>
      if ws.handle {
        var dial := ws.StartConnect();
        e := Some(User(Connect));
      }
    case CallDialReturns(dial, connected, clientError) =>
      if dial < |ws.dials| && ws.dials[dial].Dialing? {
        ws.DialReturns(dial, connected, clientError);
        e := Some(User(if connected then DialSucceeds(dial) else DialFails(dial, clientError)));
      }
    case CallRedialReturns(g, connected, clientError) =>
      if g < |ws.gens| && ws.gens[g].read.Redialing? {
        ws.RedialReturns(g, connected, clientError);
        e := Some(Read(g, if connected then RedialSucceeds else RedialFails(clientError)));
      }
    case PollKeepAlive(g, k) =>
      if g < |ws.gens| && IsTaskEvent(k) && K.Enabled(ws.gens[g].keepAlive, k) {
        ws.KeepAliveMoves(g, k);
        e := Some(KeepAlive(g, k));
      }
    case _ =>
  }

  /** One poll of a write task, wherever it stands. */
  method PerformWrite(ws: ReconnectingWebSocket, g: nat) returns (ghost e: Option<Event>)
    requires Valid(ws.View()) && g < |ws.gens|
    modifies ws
    ensures Follows(old(ws.View()), e, ws.View())
  {
    e := None;
    match ws.gens[g].write
    case Waiting =>
      var arm := ws.SelectWrite(g);
      e := if arm.Some? then Some(Write(g, arm.value)) else None;
    case Forwarding(_) =>
      assert GenValid(ws.gens[g]);
      var w := ws.ForwardMessage(g);
      e := if w.Some? then Some(Write(g, w.value)) else None;
    case Requeuing(_) =>
      var requeued := ws.RequeueMessage(g);
      e := if requeued then Some(Write(g, Requeued)) else None;
    case LeftWrite =>
      ws.FinishWriting(g);
      e := Some(Write(g, WriteEnds));
    case WriteEnded =>
  }

  /** One poll of a read task that is not dialing. */
  method PerformRead(ws: ReconnectingWebSocket, g: nat) returns (ghost e: Option<Event>)
    requires Valid(ws.View()) && g < |ws.gens|
    modifies ws
    ensures Follows(old(ws.View()), e, ws.View())
  {
    e := None;
    match ws.gens[g].read
    case Starting =>
      ws.StartReading(g);
      e := Some(Read(g, Starts));
    case Reading =>
      assert GenValid(ws.gens[g]);
      var arm := ws.SelectRead(g);
      e := if arm.Some? then Some(Read(g, arm.value)) else None;
    case Delivering(_) =>
      var d := ws.DeliverItem(g);
      e := if d.Some? then Some(Read(g, d.value)) else None;
    case LeftRead(_) =>
      ws.FinishReading(g);
      e := Some(Read(g, ReadEnds));
    case _ =>
  }

  method Perform(ws: ReconnectingWebSocket, c: Call) returns (ghost e: Option<Event>)
    requires Valid(ws.View())
    modifies ws
    ensures Follows(old(ws.View()), e, ws.View())
  {
    match c
    case PollWriteLoop(g) =>
      if g < |ws.gens| {
        e := PerformWrite(ws, g);
      } else {
        e := None;
      }
    case PollReadLoop(g) =>
      if g < |ws.gens| {
        e := PerformRead(ws, g);
      } else {
        e := None;
      }
    case CallConnect | CallDialReturns(_, _, _) | CallRedialReturns(_, _, _) | PollKeepAlive(_, _) =>
      e := PerformDial(ws, c);
    case _ =>
      e := PerformUser(ws, c);
  }

  ghost function Extended(r: Run, e: Option<Event>, s': State): Run {
    match e
    case None => r
    case Some(event) => Run(r.states + [s'], r.events + [event])
  }

  lemma ExtendedIsRun(n: nat, r: Run, e: Option<Event>, s': State)
    requires IsRunFromStart(n, r) && Follows(r.states[|r.states| - 1], e, s')
    ensures IsRunFromStart(n, Extended(r, e, s'))
    ensures var r' := Extended(r, e, s'); r'.states[|r'.states| - 1] == s'
  {
    var r' := Extended(r, e, s');
    forall i {:trigger r'.events[i]} | 0 <= i < |r'.events| ensures IsStep(r'.states[i], r'.events[i], r'.states[i + 1]) {
      if i < |r.events| {
        assert IsStep(r.states[i], r.events[i], r.states[i + 1]);
      }
    }
  }

  method Schedule(maxRetries: nat, calls: seq<Call>) returns (ws: ReconnectingWebSocket, ghost r: Run)
    ensures fresh(ws) && IsRunFromStart(maxRetries, r) && ws.View() == r.states[|r.states| - 1]
  {
    ws := new ReconnectingWebSocket(maxRetries);
    r := Run([ws.View()], []);
    for i := 0 to |calls|
      invariant fresh(ws) && IsRunFromStart(maxRetries, r) && ws.View() == r.states[|r.states| - 1]
    {
      RunKeepsValid(r, |r.events|);
      ghost var e := Perform(ws, calls[i]);
      ExtendedIsRun(maxRetries, r, e, ws.View());
      r := Extended(r, e, ws.View());
    }
  }

  /**
   * The program under an arbitrary schedule of calls and polls goes through a run of the protocol. So every theorem about
   * runs holds of the object; here, that each message it ever accepted is in exactly one place, that none is written more
   * often than it was accepted, and that all are in order if the run was orderly.
   */
  method Execute(maxRetries: nat, calls: seq<Call>) returns (ws: ReconnectingWebSocket, ghost r: Run)
    ensures fresh(ws) && IsRunFromStart(maxRetries, r) && ws.View() == r.states[|r.states| - 1]
    ensures var s := ws.View();
      multiset(s.accepted) ==
        multiset(s.outgoing) + multiset(s.retry) + multiset(Concat(Hands(s.gens)))
        + multiset(Concat(InFlight(s.gens))) + multiset(Concat(Written(s.gens))) + multiset(Concat(Lost(s.gens)))
    ensures forall m :: multiset(Concat(Written(ws.gens)))[m] <= multiset(ws.accepted)[m]
    ensures IsOrderly(r) ==> ws.accepted == Concat(Fates(ws.gens)) + Limbo(ws.View()) + ws.outgoing
  {
    ws, r := Schedule(maxRetries, calls);
    EveryAcceptedMessageIsSomewhere(maxRetries, r, |r.events|);
    if IsOrderly(r) {
      AcceptedOrderIsWireOrder(maxRetries, r, |r.events|);
    }
  }
}
