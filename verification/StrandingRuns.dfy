/** Runs that strand messages: the plain cases, one that attains the bound on losses, and a deadlock of write loops. */
module StrandingRuns {
  import opened Messages
  import opened Watches
  import opened ReconnectingProtocol
  import opened Conservation
  import opened Counterexamples
  import opened Stranding
  import K = KeepAliveProtocol

  /** The shortest: a message is accepted, and the handle dropped before there was any connection. */
  lemma DroppedHandleStrands(m: Message)
    ensures exists s :: Leads(Initial(0), s) && s.accepted == [m] && Stranded(s) == [m] && AllLost(s) == [m]
  {
    var o := Initial(0);
    Stays(o);
    var s1 := o.(outgoing := [m], accepted := [m]);
    Sends(o, o, m, s1);
    var s2 := s1.(handle := false);
    Step(o, s1, User(DropHandle), s2);
    assert Hands([]) == [] && Lost([]) == [];
  }

  /** Both loops of the first connection have left; the read loop dials anew. */
  function Redialing(): State {
    Connected().(disconnect := Watch(3, true), gens := [
      Unplugged(Connected().gens[0]).(read := ReadLoop.Redialing(0), write := WriteEnded, writeSeen := Seen(2, 0))])
  }

  lemma Disconnects()
    ensures Leads(Initial(0), Redialing())
  {
    Connects();
    var o, s := Initial(0), Connected();
    var gen := Unplugged(s.gens[0]);
    var s1 := s.(gens := [gen]);
    Unplugs(o, s, 0, s1);
    var s2 := s.(gens := [gen.(read := LeftRead(true))]);
    Step(o, s1, Read(0, ItemsEnd), s2);
    gen := gen.(read := ReadLoop.Redialing(0));
    var s3 := s.(disconnect := Watch(2, true), gens := [gen]);
    Step(o, s2, Read(0, ReadEnds), s3);
    gen := gen.(write := LeftWrite, writeSeen := Seen(2, 0));
    Step(o, s3, Write(0, WriteDisconnectArm), s3.(gens := [gen]));
    Step(o, s3.(gens := [gen]), Write(0, WriteEnds), Redialing());
  }

  lemma OnlyChannels(s: State)
    requires !s.handle && |s.gens| == 1 && s.gens[0].write.WriteEnded? && s.gens[0].read.ReadEnded?
    ensures Stranded(s) == s.retry + s.outgoing
  {
    assert Abandoned(s);
    SomeHand(s.gens);
  }

  /** A message is accepted while the handle reconnects; the handle is dropped, and the reconnecting read loop gives up. */
  lemma GivingUpStrands(m: Message)
    ensures exists s :: Leads(Initial(0), s) && s.gens != [] && s.accepted == [m] && Stranded(s) == [m]
  {
    Disconnects();
    var o, s := Initial(0), Redialing();
    var s1 := s.(outgoing := [m], accepted := [m]);
    Sends(o, s, m, s1);
    var s2 := s1.(handle := false);
    Step(o, s1, User(DropHandle), s2);
    var s3 := s2.(gens := [EndRead(s2.gens[0])]);
    Step(o, s2, Read(0, RedialFails(false)), s3);
    OnlyChannels(s3);
  }

  /** One message hangs in its write, the next is queued, one is in the loop's hand, one in the outgoing channel. */
  function Crowded(m0: Message, m1: Message, m2: Message, m3: Message): State {
    Connected().(outgoing := [m3], accepted := [m0, m1, m2, m3],
                 gens := [Offered(Hung(m0), m1).(write := Forwarding(m2))])
  }

  lemma Crowds(m0: Message, m1: Message, m2: Message, m3: Message)
    ensures Leads(Initial(0), Crowded(m0, m1, m2, m3))
  {
    Hangs(m0);
    var o := Initial(0);
    var s := Connected().(accepted := [m0], gens := [Hung(m0)]);
    var s1 := s.(outgoing := [m1], accepted := [m0, m1]);
    Sends(o, s, m1, s1);
    var s2 := s.(accepted := [m0, m1], gens := [Hung(m0).(write := Forwarding(m1))]);
    Takes(o, s1, 0, m1, s2);
    var s3 := s2.(gens := [Offered(Hung(m0), m1)]);
    Forwards(o, s2, 0, m1, s3);
    var s4 := s3.(outgoing := [m2], accepted := [m0, m1, m2]);
    Sends(o, s3, m2, s4);
    var s5 := s4.(outgoing := [], gens := [Offered(Hung(m0), m1).(write := Forwarding(m2))]);
    Takes(o, s4, 0, m2, s5);
    Sends(o, s5, m3, Crowded(m0, m1, m2, m3));
  }

  /** The write fails, and the loop requeues the message in its hand and ends. */
  function Failed(m0: Message, m1: Message, m2: Message, m3: Message): State {
    var gen := Offered(Hung(m0), m1);
    var k := gen.keepAlive.(writer := K.Ended, failed := [m0], exit := Some(K.ByWriteError), disconnect := Watch(1, true));
    Crowded(m0, m1, m2, m3).(retry := [m2], disconnect := Watch(2, true),
                             gens := [gen.(write := WriteEnded, keepAlive := k)])
  }

  /** The keep-alive's task ends after its write failed. */
  lemma FailsToWrite(o: State, s: State, g: nat, s': State)
    requires Leads(o, s) && g < |s.gens| && s.gens[g].keepAlive.writer.Writing?
    requires var k := s.gens[g].keepAlive;
      s' == s.(gens := s.gens[g := s.gens[g].(keepAlive := k.(
        writer := K.Ended, failed := K.Hand(k.writer), exit := Some(K.ByWriteError),
        disconnect := k.disconnect.Replace(true)))])
    ensures Leads(o, s')
  {
    var s1 := Apply(s, KeepAlive(g, K.WriteFailed));
    Step(o, s, KeepAlive(g, K.WriteFailed), s1);
    var s2 := Apply(s1, KeepAlive(g, K.WriterRaises));
    Step(o, s1, KeepAlive(g, K.WriterRaises), s2);
    Step(o, s2, KeepAlive(g, K.SocketClosed(false)), s');
  }

  lemma Fails(m0: Message, m1: Message, m2: Message, m3: Message)
    ensures Leads(Initial(0), Failed(m0, m1, m2, m3))
  {
    Crowds(m0, m1, m2, m3);
    var o, s := Initial(0), Crowded(m0, m1, m2, m3);
    var gen := s.gens[0].(keepAlive := Failed(m0, m1, m2, m3).gens[0].keepAlive);
    var s3 := s.(gens := [gen]);
    FailsToWrite(o, s, 0, s3);
    var s4 := s3.(retry := [m2], gens := [s3.gens[0].(write := LeftWrite)]);
    Refuses(o, s3, 0, m2, s4);
    Step(o, s4, Write(0, WriteEnds), Failed(m0, m1, m2, m3));
  }

  lemma Reconnecting(m0: Message, m1: Message, m2: Message, m3: Message) returns (s: State)
    ensures Leads(Initial(0), s) && s.handle && s.maxRetries == 0 && |s.gens| == 1
    ensures s == Failed(m0, m1, m2, m3).(disconnect := s.disconnect, gens := s.gens)
    ensures s.gens[0].read == ReadLoop.Redialing(0) && s.gens[0].write.WriteEnded?
    ensures s.gens[0].keepAlive == Failed(m0, m1, m2, m3).gens[0].keepAlive
  {
    Fails(m0, m1, m2, m3);
    var o, s0 := Initial(0), Failed(m0, m1, m2, m3);
    var s1 := Apply(s0, Read(0, ReadDisconnectArm));
    Step(o, s0, Read(0, ReadDisconnectArm), s1);
    s := Apply(s1, Read(0, ReadEnds));
    Step(o, s1, Read(0, ReadEnds), s);
  }

  /** The handle is dropped while the only read loop reconnects, and that gives up: the bound on losses is attained. */
  lemma BoundIsAttained(m0: Message, m1: Message, m2: Message, m3: Message)
    ensures exists s :: Leads(Initial(0), s) && Finished(s.gens) == 1
                        && s.accepted == [m0, m1, m2, m3] && AllLost(s) == [m0, m1, m2, m3]
  {
    var o := Initial(0);
    var s := Reconnecting(m0, m1, m2, m3);
    var s1 := s.(handle := false);
    Step(o, s, User(DropHandle), s1);
    var s2 := s1.(gens := [EndRead(s1.gens[0])]);
    Step(o, s1, Read(0, RedialFails(false)), s2);
    LossesOfOne(s2, m0, m1, m2, m3);
  }

  lemma {:induction false} LossesOfOne(s: State, m0: Message, m1: Message, m2: Message, m3: Message)
    requires |s.gens| == 1 && Abandoned(s) && s.retry == [m2] && s.outgoing == [m3] && s.gens[0].write.WriteEnded?
    requires var k := s.gens[0].keepAlive; k.writer.Ended? && k.failed == [m0] && k.outgoing == [m1]
    ensures AllLost(s) == [m0, m1, m2, m3] && Finished(s.gens) == 1
  {
    SomeHand(s.gens);
    assert Stranded(s) == [m2, m3];
    LostOfOne(s.gens, m0, m1);
  }

  lemma {:induction false} LostOfOne(gens: seq<Generation>, m0: Message, m1: Message)
    requires |gens| == 1
    requires var k := gens[0].keepAlive; k.writer.Ended? && k.failed == [m0] && k.outgoing == [m1]
    ensures Concat(Lost(gens)) == [m0, m1] && Finished(gens) == 1
  {
    assert K.Lost(gens[0].keepAlive) == [m0, m1];
    assert Lost(gens)[..0] == [] && gens[..0] == [];
    assert Finished([]) == 0;
  }

  // ----- Write loops that wait for ever: overlapping generations. -----

  /** Two connections hang in a ping, and each write loop has a message in its hand. */
  function Overlap(m0: Message, m1: Message): State {
    Connected().(disconnect := Watch(3, false), accepted := [m0, m1], gens := [
      Unplugged(Stuck(Connected().gens[0])).(write := Forwarding(m0), read := ReadEnded),
      Stuck(NewGeneration(Some(0))).(write := Forwarding(m1), read := Reading)])
  }

  /** The first connection hangs, and the second is installed. */
  function Second(m0: Message): State {
    Connected().(disconnect := Watch(3, false), accepted := [m0], gens := [
      Unplugged(Stuck(Connected().gens[0])).(write := Forwarding(m0), read := ReadEnded),
      NewGeneration(Some(0)).(read := Reading)])
  }

  lemma Seconds(m0: Message)
    ensures Leads(Initial(0), Second(m0))
  {
    Sticks();
    var o := Initial(0);
    var gen := Stuck(Connected().gens[0]);
    var s := Connected().(gens := [gen]);
    var s1 := s.(outgoing := [m0], accepted := [m0]);
    Sends(o, s, m0, s1);
    gen := gen.(write := Forwarding(m0));
    var s2 := s.(accepted := [m0], gens := [gen]);
    Takes(o, s1, 0, m0, s2);
    gen := Unplugged(gen);
    var s3 := s2.(gens := [gen]);
    Unplugs(o, s2, 0, s3);
    gen := gen.(read := ReadEnded);
    var next := NewGeneration(Some(0));
    var s4 := s3.(disconnect := Watch(2, true), gens := [gen, next]);
    Reconnects(o, s3, 0, s4);
    Step(o, s4, Read(1, Starts), Second(m0));
  }

  lemma Overlaps(m0: Message, m1: Message)
    ensures Leads(Initial(0), Overlap(m0, m1))
  {
    Seconds(m0);
    var o, s5 := Initial(0), Second(m0);
    var s6 := s5.(gens := [s5.gens[0], Stuck(s5.gens[1])]);
    Step(o, s5, KeepAlive(1, K.PingDue), s6);
    var s7 := s6.(outgoing := [m1], accepted := [m0, m1]);
    Sends(o, s6, m1, s7);
    Takes(o, s7, 1, m1, Overlap(m0, m1));
  }

  /** Both writes fail; the newer loop fills the retry slot with its message, and the older one waits for it. */
  function Jam(m0: Message, m1: Message): State {
    var s := Overlap(m0, m1);
    s.(disconnect := Watch(4, true), retry := [m1], gens := [
      Dead(s.gens[0]).(write := Requeuing(m0)), Dead(s.gens[1]).(write := WriteEnded)])
  }

  lemma Jams(m0: Message, m1: Message)
    ensures Leads(Initial(0), Jam(m0, m1))
  {
    Overlaps(m0, m1);
    var o, s := Initial(0), Overlap(m0, m1);
    var s1 := s.(gens := [Dead(s.gens[0]), s.gens[1]]);
    Dies(o, s, 0, s1);
    var s2 := s.(gens := [Dead(s.gens[0]), Dead(s.gens[1])]);
    Dies(o, s1, 1, s2);
    var s3 := s.(gens := [Dead(s.gens[0]).(write := Requeuing(m0)), Dead(s.gens[1])]);
    Step(o, s2, Write(0, Refused), s3);
    var s4 := s3.(retry := [m1], gens := [s3.gens[0], s3.gens[1].(write := LeftWrite)]);
    Refuses(o, s3, 1, m1, s4);
    Step(o, s4, Write(1, WriteEnds), Jam(m0, m1));
  }

  /** Then the newest connection's socket ends, the handle is dropped, and the reconnect gives up. */
  function Deadlock(m0: Message, m1: Message): State {
    var s := Jam(m0, m1);
    s.(handle := false, disconnect := Watch(5, true), gens := [s.gens[0], EndRead(Unplugged(s.gens[1]))])
  }

  lemma Deadlocks(m0: Message, m1: Message)
    ensures Leads(Initial(0), Deadlock(m0, m1))
  {
    Jams(m0, m1);
    var o, s := Initial(0), Jam(m0, m1);
    var gen := Unplugged(s.gens[1]);
    var s1 := s.(gens := [s.gens[0], gen]);
    Unplugs(o, s, 1, s1);
    var s2 := s.(gens := [s.gens[0], gen.(read := LeftRead(true))]);
    Step(o, s1, Read(1, ItemsEnd), s2);
    var s3 := s.(disconnect := Watch(5, true), gens := [s.gens[0], gen.(read := ReadLoop.Redialing(0))]);
    Step(o, s2, Read(1, ReadEnds), s3);
    var s4 := s3.(handle := false);
    Step(o, s3, User(DropHandle), s4);
    Step(o, s4, Read(1, RedialFails(false)), Deadlock(m0, m1));
  }

  lemma OverAtRest(s: State, e: Event)
    requires !s.handle && s.sending == multiset{} && forall i :: 0 <= i < |s.dials| ==> s.dials[i].DialEnded?
    requires s.retry != [] && forall g :: 0 <= g < |s.gens| ==> IsOver(s.gens[g])
    ensures !Enabled(s, e)
  {
    assert !InnerAlive(s);
    match e
    case User(_) =>
    case Write(_, _) =>
    case Read(_, _) =>
    case KeepAlive(_, _) =>
  }

  /** Everything about this generation has ended, but that its write loop may wait to requeue. */
  predicate IsOver(gen: Generation) {
    && (gen.write.Requeuing? || gen.write.WriteEnded?) && gen.read.ReadEnded?
    && gen.keepAlive.writer.Ended? && gen.keepAlive.reader.Stopped?
  }

  /**
   * When generations overlap, a write loop can wait for ever for the retry slot that nobody reads any more. Nothing is
   * written, nothing can happen, and both messages are lost, one of them in the hand of that loop. `RequeuingNeverBlocks`
   * rules this out on orderly runs.
   */
  lemma RequeuesDeadlock(m0: Message, m1: Message) returns (s: State)
    ensures Leads(Initial(0), s) && AtRest(s) && s.accepted == [m0, m1] && Concat(Written(s.gens)) == []
    ensures s.gens != [] && s.gens[0].write == Requeuing(m0) && AllLost(s) == [m1, m0]
  {
    Deadlocks(m0, m1);
    s := Deadlock(m0, m1);
    forall e ensures !Enabled(s, e) {
      OverAtRest(s, e);
    }
    assert Abandoned(s);
    LossesOfDeadlock(s, m0, m1);
  }

  lemma {:induction false} LossesOfDeadlock(s: State, m0: Message, m1: Message)
    requires Abandoned(s) && s.retry == [m1] && s.outgoing == []
    requires |s.gens| == 2 && HandOf(s.gens[0].write) == [m0] && HandOf(s.gens[1].write) == []
    requires forall g :: 0 <= g < 2 ==>
      var k := s.gens[g].keepAlive; k.wire == [] && k.failed == [] && k.outgoing == []
    ensures Concat(Written(s.gens)) == [] && AllLost(s) == [m1, m0]
  {
    HandsOfDeadlock(s.gens, m0);
    assert Stranded(s) == [m1] + [] + [m0];
    ConcatAllEmpty(Written(s.gens));
    ConcatAllEmpty(Lost(s.gens));
  }

  lemma {:induction false} HandsOfDeadlock(gens: seq<Generation>, m0: Message)
    requires |gens| == 2 && HandOf(gens[0].write) == [m0] && HandOf(gens[1].write) == []
    ensures Concat(Hands(gens)) == [m0]
  {
    assert Hands(gens) == [[m0], []];
    ConcatOfTwo([m0], []);
  }
}
