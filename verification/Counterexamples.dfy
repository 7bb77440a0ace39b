/**
 * Runs the protocol does allow: where a promise one might read into the code fails, and the exact guard behind it.
 * The lemmas up to `Retries` are short stretches of a run, each described by the state it leads to.
 */
module Counterexamples {
  import opened Messages
  import opened Watches
  import opened ReconnectingProtocol
  import opened Conservation
  import opened ConnectedFlag
  import K = KeepAliveProtocol

  /** Some run goes from `o` to `s`. */
  ghost predicate Leads(o: State, s: State) {
    exists r :: IsRun(r) && r.states[0] == o && r.states[|r.states| - 1] == s
  }

  lemma Stays(o: State)
    ensures Leads(o, o)
  {
    assert IsRun(Run([o], []));
  }

  lemma Step(o: State, s: State, e: Event, s': State)
    requires Leads(o, s) && Enabled(s, e) && Apply(s, e) == s'
    ensures Leads(o, s')
  {
    var r :| IsRun(r) && r.states[0] == o && r.states[|r.states| - 1] == s;
    var r' := Run(r.states + [s'], r.events + [e]);
    forall i | 0 <= i < |r'.events| ensures IsStep(r'.states[i], r'.events[i], r'.states[i + 1]) {
      if i < |r.events| {
        assert IsStep(r.states[i], r.events[i], r.states[i + 1]);
      }
    }
  }

  /** The state right after the first connection: the read loop has started, the write loop has not looked yet. */
  function Connected(): State {
    Initial(0).(disconnect := Watch(1, false), dials := [DialEnded],
                gens := [NewGeneration(None).(read := Reading)])
  }

  lemma Connects()
    ensures Leads(Initial(0), Connected())
  {
    var s0 := Initial(0);
    Stays(s0);
    var s1 := s0.(dials := [Dialing(0)]);
    Step(s0, s0, User(Connect), s1);
    var s2 := s1.(dials := [DialEnded], gens := [NewGeneration(None)]);
    Step(s0, s1, User(DialSucceeds(0)), s2);
    Step(s0, s2, Read(0, Starts), Connected());
  }

  lemma Sends(o: State, s: State, m: Message, s': State)
    requires Leads(o, s) && s.handle && !s.close.value && s.sending == multiset{} && s.outgoing == []
    requires s' == s.(outgoing := [m], accepted := s.accepted + [m])
    ensures Leads(o, s')
  {
    var s1 := s.(sending := multiset{m});
    Step(o, s, User(StartSend(m)), s1);
    Step(o, s1, User(Accept(m)), s');
  }

  lemma Takes(o: State, s: State, g: nat, m: Message, s': State)
    requires Leads(o, s) && g < |s.gens| && s.gens[g].write.Waiting? && s.retry == [] && s.outgoing == [m]
    requires s' == s.(outgoing := [], gens := s.gens[g := s.gens[g].(write := Forwarding(m))])
    ensures Leads(o, s')
  {
    Step(o, s, Write(g, TakeOutgoing), s');
  }

  function Offered(gen: Generation, m: Message): Generation {
    gen.(write := Waiting,
         keepAlive := gen.keepAlive.(outgoing := [m], accepted := gen.keepAlive.accepted + [m]))
  }

  lemma Forwards(o: State, s: State, g: nat, m: Message, s': State)
    requires Leads(o, s) && g < |s.gens| && s.gens[g].write == Forwarding(m)
    requires K.Enabled(s.gens[g].keepAlive, K.Offer(m))
    requires s' == s.(gens := s.gens[g := Offered(s.gens[g], m)])
    ensures Leads(o, s')
  {
    Step(o, s, Write(g, Forwarded), s');
  }

  function Wrote(gen: Generation, m: Message): Generation {
    gen.(keepAlive := gen.keepAlive.(outgoing := [], wire := gen.keepAlive.wire + [Carried(m)]))
  }

  lemma Writes(o: State, s: State, g: nat, m: Message, s': State)
    requires Leads(o, s) && g < |s.gens| && s.gens[g].keepAlive.outgoing == [m]
    requires K.Enabled(s.gens[g].keepAlive, K.WriterReceived)
    requires s' == s.(gens := s.gens[g := Wrote(s.gens[g], m)])
    ensures Leads(o, s')
  {
    var k := s.gens[g].keepAlive.(outgoing := [], writer := K.Writing(Carried(m)));
    var s1 := s.(gens := s.gens[g := s.gens[g].(keepAlive := k)]);
    assert s.gens[g].keepAlive.outgoing[1..] == [];
    Step(o, s, KeepAlive(g, K.WriterReceived), s1);
    Step(o, s1, KeepAlive(g, K.WriteDone), s');
  }

  function Unplugged(gen: Generation): Generation {
    gen.(keepAlive := gen.keepAlive.(reader := K.Stopped, disconnect := gen.keepAlive.disconnect.Replace(true)))
  }

  /** The socket's read half ends. */
  lemma Unplugs(o: State, s: State, g: nat, s': State)
    requires Leads(o, s) && g < |s.gens| && s.gens[g].keepAlive.reader.Listening?
    requires s' == s.(gens := s.gens[g := Unplugged(s.gens[g])])
    ensures Leads(o, s')
  {
    var k := s.gens[g].keepAlive.(reader := K.Stopping);
    var s1 := s.(gens := s.gens[g := s.gens[g].(keepAlive := k)]);
    Step(o, s, KeepAlive(g, K.SocketEnds), s1);
    Step(o, s1, KeepAlive(g, K.ReaderRaises), s');
  }

  /** The read loop notices, raises the shared flag and reconnects at its first attempt. */
  lemma Reconnects(o: State, s: State, g: nat, s': State)
    requires Leads(o, s) && g < |s.gens| && s.handle && s.gens[g].read.Reading? && !s.gens[g].write.WriteEnded?
    requires s.gens[g].keepAlive.incoming == [] && s.gens[g].keepAlive.reader.Stopped?
    requires s' == s.(disconnect := s.disconnect.Replace(true),
                      gens := s.gens[g := s.gens[g].(read := ReadEnded)] + [NewGeneration(Some(g))])
    ensures Leads(o, s')
  {
    var gen := s.gens[g];
    var s1 := s.(gens := s.gens[g := gen.(read := LeftRead(true))]);
    Step(o, s, Read(g, ItemsEnd), s1);
    var s2 := s.(disconnect := s.disconnect.Replace(true), gens := s.gens[g := gen.(read := Redialing(0))]);
    Step(o, s1, Read(g, ReadEnds), s2);
    Step(o, s2, Read(g, RedialSucceeds), s');
  }

  function Dead(gen: Generation): Generation {
    var k := gen.keepAlive;
    gen.(keepAlive := k.(writer := K.Ended, exit := Some(K.ByWriteError), disconnect := k.disconnect.Replace(true)))
  }

  /** The ping's write fails at last, and the keep-alive's write task ends. */
  lemma Dies(o: State, s: State, g: nat, s': State)
    requires Leads(o, s) && g < |s.gens|
    requires s.gens[g].keepAlive.writer == K.Writing(KeepAlivePing) && s.gens[g].keepAlive.failed == []
    requires s' == s.(gens := s.gens[g := Dead(s.gens[g])])
    ensures Leads(o, s')
  {
    var k := s.gens[g].keepAlive;
    var k1 := k.(writer := K.Leaving, exit := Some(K.ByWriteError));
    var s1 := s.(gens := s.gens[g := s.gens[g].(keepAlive := k1)]);
    Step(o, s, KeepAlive(g, K.WriteFailed), s1);
    var k2 := k1.(writer := K.ClosingSocket, disconnect := k.disconnect.Replace(true));
    var s2 := s.(gens := s.gens[g := s.gens[g].(keepAlive := k2)]);
    Step(o, s1, KeepAlive(g, K.WriterRaises), s2);
    Step(o, s2, KeepAlive(g, K.SocketClosed(false)), s');
  }

  /** The dead keep-alive refuses the message, and the write loop puts it into the retry slot. */
  lemma Refuses(o: State, s: State, g: nat, m: Message, s': State)
    requires Leads(o, s) && g < |s.gens| && s.gens[g].write == Forwarding(m)
    requires s.gens[g].keepAlive.writer.Ended? && s.retry == []
    requires s' == s.(retry := [m], gens := s.gens[g := s.gens[g].(write := LeftWrite)])
    ensures Leads(o, s')
  {
    var s1 := s.(gens := s.gens[g := s.gens[g].(write := Requeuing(m))]);
    Step(o, s, Write(g, Refused), s1);
    Step(o, s1, Write(g, Requeued), s');
  }

  lemma Retries(o: State, s: State, g: nat, m: Message, s': State)
    requires Leads(o, s) && g < |s.gens| && s.gens[g].write.Waiting? && s.retry == [m]
    requires K.Enabled(s.gens[g].keepAlive, K.Offer(m))
    requires s' == s.(retry := [], gens := s.gens[g := Offered(s.gens[g], m)])
    ensures Leads(o, s')
  {
    var s1 := s.(retry := [], gens := s.gens[g := s.gens[g].(write := Forwarding(m))]);
    Step(o, s, Write(g, TakeRetry), s1);
    Step(o, s1, Write(g, Forwarded), s');
  }

  /** A keep-alive that waits for the write of `m` to return. */
  function Hung(m: Message): Generation {
    var gen := Offered(Connected().gens[0], m);
    gen.(keepAlive := gen.keepAlive.(outgoing := [], writer := K.Writing(Carried(m))))
  }

  lemma Hangs(m: Message)
    ensures Leads(Initial(0), Connected().(accepted := [m], gens := [Hung(m)]))
  {
    Connects();
    var o, s := Initial(0), Connected();
    var gen := s.gens[0];
    var s1 := s.(outgoing := [m], accepted := [m]);
    Sends(o, s, m, s1);
    var s2 := s.(accepted := [m], gens := [gen.(write := Forwarding(m))]);
    Takes(o, s1, 0, m, s2);
    var s3 := s.(accepted := [m], gens := [Offered(gen, m)]);
    Forwards(o, s2, 0, m, s3);
    assert s3.gens[0].keepAlive.outgoing[1..] == [];
    Step(o, s3, KeepAlive(0, K.WriterReceived), s.(accepted := [m], gens := [Hung(m)]));
  }

  /** The keep-alive's writer waits for a ping's write to return. */
  function Stuck(gen: Generation): Generation {
    gen.(keepAlive := gen.keepAlive.(writer := K.Writing(KeepAlivePing)))
  }

  /** Behind that write, one message in the first keep-alive's queue, and one in its write loop's hand. */
  function Stalled(m0: Message, m1: Message): Generation {
    Offered(Stuck(NewGeneration(None).(read := Reading)), m0).(write := Forwarding(m1))
  }

  lemma Sticks()
    ensures Leads(Initial(0), Connected().(gens := [Stuck(Connected().gens[0])]))
  {
    Connects();
    Step(Initial(0), Connected(), KeepAlive(0, K.PingDue), Connected().(gens := [Stuck(Connected().gens[0])]));
  }

  lemma Stalls(m0: Message, m1: Message)
    ensures Leads(Initial(0), Connected().(accepted := [m0, m1], gens := [Stalled(m0, m1)]))
  {
    Sticks();
    var o := Initial(0);
    var gen := Stuck(Connected().gens[0]);
    var s := Connected().(gens := [gen]);
    var s1 := s.(outgoing := [m0], accepted := [m0]);
    Sends(o, s, m0, s1);
    var s2 := s.(accepted := [m0], gens := [gen.(write := Forwarding(m0))]);
    Takes(o, s1, 0, m0, s2);
    var s3 := s.(accepted := [m0], gens := [Offered(gen, m0)]);
    Forwards(o, s2, 0, m0, s3);
    var s4 := s3.(outgoing := [m1], accepted := [m0, m1]);
    Sends(o, s3, m1, s4);
    Takes(o, s4, 0, m1, s4.(outgoing := [], gens := [Stalled(m0, m1)]));
  }

  /** A second connection is installed while the first write loop still holds `m1`; the new one writes `m2`. */
  lemma Overtakes(m0: Message, m1: Message, m2: Message)
    ensures Leads(Initial(0), Connected().(
      disconnect := Watch(2, true), accepted := [m0, m1, m2],
      gens := [Unplugged(Stalled(m0, m1)).(read := ReadEnded), Wrote(Offered(NewGeneration(Some(0)), m2), m2)]))
  {
    Stalls(m0, m1);
    var o, next := Initial(0), NewGeneration(Some(0));
    var gen := Stalled(m0, m1);
    var s := Connected().(accepted := [m0, m1], gens := [gen]);
    var s1 := s.(gens := [Unplugged(gen)]);
    Unplugs(o, s, 0, s1);
    gen := Unplugged(gen).(read := ReadEnded);
    var s2 := s1.(disconnect := Watch(2, true), gens := [gen, next]);
    Reconnects(o, s1, 0, s2);
    var s3 := s2.(outgoing := [m2], accepted := [m0, m1, m2]);
    Sends(o, s2, m2, s3);
    var s4 := s3.(outgoing := [], gens := [gen, next.(write := Forwarding(m2))]);
    Takes(o, s3, 1, m2, s4);
    var s5 := s4.(gens := [gen, Offered(next, m2)]);
    Forwards(o, s4, 1, m2, s5);
    Writes(o, s5, 1, m2, s5.(gens := [gen, Wrote(Offered(next, m2), m2)]));
  }

  /** The first keep-alive dies, and the message its write loop still held comes back to the retry slot. */
  lemma OlderComesBack(m0: Message, m1: Message, m2: Message) returns (s: State)
    ensures Leads(Initial(0), s) && s.accepted == [m0, m1, m2] && s.retry == [m1] && |s.gens| == 2
    ensures s.gens[0].keepAlive.wire == [] && s.gens[1] == Wrote(Offered(NewGeneration(Some(0)), m2), m2)
  {
    Overtakes(m0, m1, m2);
    var o := Initial(0);
    var prior, newer := Unplugged(Stalled(m0, m1)).(read := ReadEnded), Wrote(Offered(NewGeneration(Some(0)), m2), m2);
    var s0 := Connected().(disconnect := Watch(2, true), accepted := [m0, m1, m2], gens := [prior, newer]);
    var s1 := s0.(gens := [Dead(prior), newer]);
    Dies(o, s0, 0, s1);
    s := s1.(retry := [m1], gens := [Dead(prior).(write := LeftWrite), newer]);
    Refuses(o, s1, 0, m1, s);
  }

  /**
   * Order across reconnects needs the orderly-run hypothesis of `Ordering`: when a connection is installed before the
   * old write loop has left, a message accepted later can be written first. Here the first connection's write half
   * hangs in a ping while its read half ends. `WireOrder` has the exact condition for the order on the wires.
   */
  lemma OverlapReorders(m0: Message, m1: Message, m2: Message) returns (end: State)
    ensures Leads(Initial(0), end) && end.accepted == [m0, m1, m2] && Concat(Written(end.gens)) == [m2, m1]
  {
    var o := Initial(0);
    var s := OlderComesBack(m0, m1, m2);
    var s1 := s.(retry := [], gens := s.gens[1 := Offered(s.gens[1], m1)]);
    Retries(o, s, 1, m1, s1);
    end := s1.(gens := s1.gens[1 := Wrote(s1.gens[1], m1)]);
    Writes(o, s1, 1, m1, end);
    TwoWires(end.gens, m1, m2);
  }

  lemma TwoFrames(m1: Message, m2: Message)
    ensures Payload([Carried(m2), Carried(m1)]) == [m2, m1]
  {
    assert [] + [Carried(m2)] == [Carried(m2)];
    PayloadAppend([], Carried(m2));
    assert [Carried(m2)] + [Carried(m1)] == [Carried(m2), Carried(m1)];
    PayloadAppend([Carried(m2)], Carried(m1));
  }

  lemma ConcatOfTwo(a: seq<Message>, b: seq<Message>)
    ensures Concat([a, b]) == a + b
  {
    ConcatAppend([a], b);
    ConcatAppend([], a);
    assert [a, b] == [a] + [b] && [a] == [] + [a];
  }

  lemma TwoWires(gens: seq<Generation>, m1: Message, m2: Message)
    requires |gens| == 2 && gens[0].keepAlive.wire == []
    requires gens[1].keepAlive.wire == [Carried(m2), Carried(m1)]
    ensures Concat(Written(gens)) == [m2, m1]
  {
    TwoFrames(m1, m2);
    assert Written(gens) == [[], [m2, m1]];
    ConcatOfTwo([], [m2, m1]);
  }

  /** After `close`, the write loop leaves through its close arm and raises the shared disconnect flag. */
  lemma ClosesWriting()
    ensures Leads(Initial(0), Connected().(close := Watch(1, true), disconnect := Watch(2, true),
      gens := [NewGeneration(None).(read := Reading, write := WriteEnded, writeSeen := Seen(1, 1))]))
  {
    Connects();
    var o, s := Initial(0), Connected();
    var gen := s.gens[0];
    var s1 := s.(gens := [gen.(writeSeen := Seen(1, 0))]);
    Step(o, s, Write(0, WriteDisconnectArm), s1);
    var s2 := s1.(close := Watch(1, true));
    Step(o, s1, User(UserEvent.Close), s2);
    var s3 := s2.(gens := [gen.(write := LeftWrite, writeSeen := Seen(1, 1))]);
    Step(o, s2, Write(0, WriteCloseArm), s3);
    Step(o, s3, Write(0, WriteEnds),
         s3.(disconnect := Watch(2, true), gens := [gen.(write := WriteEnded, writeSeen := Seen(1, 1))]));
  }

  /**
   * `close` does not always close for good: the write loop may leave first and raise the disconnect flag, and the
   * read loop looks at that flag before the close flag, so it reconnects. Here a whole new generation is installed
   * although no connection attempt was under way when the closed handle's write loop ended. `Reopening` says exactly
   * when this happens.
   */
  lemma CloseMayReconnect()
    ensures exists s, t ::
      && Leads(Initial(0), s) && s.close.value && |s.gens| == 1 && s.gens[0].read.Reading?
      && Leads(s, t) && |t.gens| == 2
  {
    ClosesWriting();
    var gen := NewGeneration(None).(read := Reading, write := WriteEnded, writeSeen := Seen(1, 1));
    var s := Connected().(close := Watch(1, true), disconnect := Watch(2, true), gens := [gen]);
    Stays(s);
    var s1 := s.(gens := [gen.(read := LeftRead(true), readSeen := Seen(2, 0))]);
    Step(s, s, Read(0, ReadDisconnectArm), s1);
    var s2 := s.(disconnect := Watch(3, true), gens := [gen.(read := Redialing(0), readSeen := Seen(2, 0))]);
    Step(s, s1, Read(0, ReadEnds), s2);
    var ended := gen.(read := ReadEnded, readSeen := Seen(2, 0), keepAlive := K.Apply(gen.keepAlive, K.Detach));
    var t := s2.(gens := [ended, NewGeneration(Some(0))]);
    Step(s, s2, Read(0, RedialSucceeds), t);
  }

  /**
   * A new write loop may see the disconnect flag its predecessors raised, before its own read loop has lowered it, and
   * leave. The handle then reports itself connected although the newest write loop, like every older one, has ended.
   * The run needs a scheduler that polls the new write loop before the new read loop, which was spawned first. See
   * `ConnectedFlag` for exactly when this happens, and a proof that it cannot where tasks are first polled in the order of
   * spawning.
   */
  lemma ConnectedWithoutWriter()
    ensures exists s ::
      && Leads(Initial(0), s) && s.gens != [] && s.gens[|s.gens| - 1].read.Reading?
      && ReportsConnected(s) && ConnectionLost(s)
      && forall i :: 0 <= i < |s.gens| ==> s.gens[i].write.WriteEnded?
  {
    NewWriterEnds();
    var o := Initial(0);
    var prior := Unplugged(NewGeneration(None)).(read := ReadEnded);
    var newer := NewGeneration(Some(0)).(write := WriteEnded, writeSeen := Seen(2, 0));
    var s := Connected().(disconnect := Watch(3, true), gens := [prior, newer]);
    OldWriterEnds(o, s);
    var over := prior.(write := WriteEnded, writeSeen := Seen(3, 0), keepAlive := K.Apply(prior.keepAlive, K.Detach));
    var s1 := s.(disconnect := Watch(4, true), gens := [over, newer]);
    Step(o, s1, Read(1, Starts), s.(disconnect := Watch(5, false), gens := [over, newer.(read := Reading)]));
  }

  /** It may also start while an older write loop, of a connection that is gone, still waits: the same misreport. */
  lemma ConnectedWithOldWriter()
    ensures exists s ::
      && Leads(Initial(0), s) && |s.gens| == 2 && ReportsConnected(s) && ConnectionLost(s)
      && s.gens[0].write.Waiting? && s.gens[0].read.ReadEnded? && s.gens[1].write.WriteEnded?
  {
    NewWriterEnds();
    var o := Initial(0);
    var prior := Unplugged(NewGeneration(None)).(read := ReadEnded);
    var newer := NewGeneration(Some(0)).(write := WriteEnded, writeSeen := Seen(2, 0));
    var s := Connected().(disconnect := Watch(3, true), gens := [prior, newer]);
    Step(o, s, Read(1, Starts), s.(disconnect := Watch(4, false), gens := [prior, newer.(read := Reading)]));
  }

  /**
   * The signal of an older connection's write loop, which was late, tears down the newest connection: its read loop leaves
   * in order to reconnect, while both its own loops and its keep-alive are in good order. `StopSignals` says exactly when.
   */
  lemma StaleSignalTearsDown()
    ensures exists s, t ::
      && Leads(Initial(0), s) && |s.gens| == 2 && Lives(s.gens[1]) && s.gens[1].keepAlive == K.NEW
      && IsStep(s, Read(1, ReadDisconnectArm), t) && t.gens[1].read == LeftRead(true)
  {
    Connects();
    var o, s := Initial(0), Connected();
    var gen, next := Unplugged(s.gens[0]), NewGeneration(Some(0));
    var s1 := s.(gens := [gen]);
    Unplugs(o, s, 0, s1);
    gen := gen.(read := ReadEnded);
    var s2 := s1.(disconnect := Watch(2, true), gens := [gen, next]);
    Reconnects(o, s1, 0, s2);
    gen := gen.(write := LeftWrite, writeSeen := Seen(2, 0));
    var s3 := s2.(gens := [gen, next]);
    Step(o, s2, Write(0, WriteDisconnectArm), s3);
    next := next.(read := Reading);
    var s4 := s3.(disconnect := Watch(3, false), gens := [gen, next]);
    Step(o, s3, Read(1, Starts), s4);
    gen := gen.(write := WriteEnded, keepAlive := K.Apply(gen.keepAlive, K.Detach));
    var s5 := s4.(disconnect := Watch(4, true), gens := [gen, next]);
    Step(o, s4, Write(0, WriteEnds), s5);
    assert IsStep(s5, Read(1, ReadDisconnectArm), Apply(s5, Read(1, ReadDisconnectArm)));
  }

  /** Under any scheduler: a `connect` that gives up leaves a handle that reports itself connected. */
  lemma ConnectedWithoutConnection()
    ensures exists s :: Leads(Initial(0), s) && s.dials == [DialEnded] && s.gens == []
                        && ReportsConnected(s) && Misreports(s)
  {
    var o := Initial(0);
    Stays(o);
    var s1 := o.(dials := [Dialing(0)]);
    Step(o, o, User(Connect), s1);
    Step(o, s1, User(DialFails(0, false)), o.(dials := [DialEnded]));
  }

  lemma NewWriterEnds()
    ensures Leads(Initial(0), Connected().(disconnect := Watch(3, true), gens := [
      Unplugged(NewGeneration(None)).(read := ReadEnded),
      NewGeneration(Some(0)).(write := WriteEnded, writeSeen := Seen(2, 0))]))
  {
    Connects();
    var o, s := Initial(0), Connected();
    var gen, next := Unplugged(s.gens[0]), NewGeneration(Some(0));
    var s1 := s.(gens := [gen]);
    Unplugs(o, s, 0, s1);
    var prior := gen.(read := ReadEnded);
    var s2 := s1.(disconnect := Watch(2, true), gens := [prior, next]);
    Reconnects(o, s1, 0, s2);
    var left := next.(write := LeftWrite, writeSeen := Seen(2, 0));
    var s3 := s2.(gens := [prior, left]);
    Step(o, s2, Write(1, WriteDisconnectArm), s3);
    Step(o, s3, Write(1, WriteEnds), s3.(disconnect := Watch(3, true), gens := [prior, left.(write := WriteEnded)]));
  }

  /** A write loop whose read loop has ended sees the raised flag, leaves and ends. */
  lemma OldWriterEnds(o: State, s: State)
    requires Leads(o, s) && |s.gens| == 2 && s.handle && s.retry == [] && s.outgoing == []
    requires s.disconnect == Watch(3, true)
    requires s.gens[0].write.Waiting? && s.gens[0].writeSeen == UNSEEN && s.gens[0].read.ReadEnded?
    ensures var over := s.gens[0].(write := WriteEnded, writeSeen := Seen(3, 0),
                                   keepAlive := K.Apply(s.gens[0].keepAlive, K.Detach));
      Leads(o, s.(disconnect := Watch(4, true), gens := [over, s.gens[1]]))
  {
    var left := s.gens[0].(write := LeftWrite, writeSeen := Seen(3, 0));
    var s1 := s.(gens := [left, s.gens[1]]);
    Step(o, s, Write(0, WriteDisconnectArm), s1);
    var over := left.(write := WriteEnded, keepAlive := K.Apply(left.keepAlive, K.Detach));
    Step(o, s1, Write(0, WriteEnds), s.(disconnect := Watch(4, true), gens := [over, s.gens[1]]));
  }
}
