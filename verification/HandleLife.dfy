/**
 * What became of the handle, told from the events of its run alone: every message whose `send` began is waiting or accepted,
 * once; the flags and the handle are as the calls left them; and a write loop moves and leaves for the program's reasons only.
 */
module HandleLife {
  import opened Messages
  import opened ReconnectingProtocol
  import K = KeepAliveProtocol

  /** What the calls, and the events they lead to, amount to. */
  datatype Tally = Tally(
    begun: multiset<Message>, accepted: seq<Message>, closes: nat, drops: nat,
    receives: nat, deliveries: nat, connects: nat, installs: nat)

  const NOTHING := Tally(multiset{}, [], 0, 0, 0, 0, 0, 0)

  function Counted(t: Tally, e: Event): Tally {
    match e
    case User(StartSend(m)) => t.(begun := t.begun + multiset{m})
    case User(Accept(m)) => t.(accepted := t.accepted + [m])
    case User(Close) => t.(closes := t.closes + 1)
    case User(DropHandle) => t.(drops := t.drops + 1)
    case User(Receive) => t.(receives := t.receives + 1)
    case User(Connect) => t.(connects := t.connects + 1)
    case User(DialSucceeds(_)) => t.(installs := t.installs + 1)
    case Read(_, Delivered) => t.(deliveries := t.deliveries + 1)
    case Read(_, RedialSucceeds) => t.(installs := t.installs + 1)
    case _ => t
  }

  function TallyOf(es: seq<Event>): Tally {
    if es == [] then NOTHING else Counted(TallyOf(es[..|es| - 1]), es[|es| - 1])
  }

  ghost predicate Agrees(s: State, t: Tally) {
    && s.accepted == t.accepted && multiset(s.accepted) + s.sending == t.begun
    && (s.handle <==> t.drops == 0)
    && s.close.version == t.closes && (s.close.value <==> t.closes > 0)
    && |s.received| == t.receives && |s.delivered| == t.deliveries
    && |s.dials| == t.connects && |s.gens| == t.installs
  }

  lemma UserStepAgrees(s: State, t: Tally, u: UserEvent)
    requires UserEnabled(s, u) && Agrees(s, t)
    ensures Agrees(UserApply(s, u), Counted(t, User(u)))
  {
  }

  lemma WriteStepAgrees(s: State, t: Tally, g: nat, w: WriteEvent)
    requires g < |s.gens| && WriteEnabled(s, g, w) && Agrees(s, t)
    ensures Agrees(WriteApply(s, g, w), Counted(t, Write(g, w)))
  {
  }

  lemma ReadStepAgrees(s: State, t: Tally, g: nat, r: ReadEvent)
    requires g < |s.gens| && ReadEnabled(s, g, r) && Agrees(s, t)
    ensures Agrees(ReadApply(s, g, r), Counted(t, Read(g, r)))
  {
  }

  lemma StepAgrees(s: State, t: Tally, e: Event)
    requires Enabled(s, e) && Agrees(s, t)
    ensures Agrees(Apply(s, e), Counted(t, e))
  {
    match e
    case User(u) => UserStepAgrees(s, t, u);
    case Write(g, w) => WriteStepAgrees(s, t, g, w);
    case Read(g, r) => ReadStepAgrees(s, t, g, r);
    case KeepAlive(_, _) =>
  }

  lemma TallyStep(es: seq<Event>, j: nat)
    requires 0 < j <= |es|
    ensures TallyOf(es[..j]) == Counted(TallyOf(es[..j - 1]), es[j - 1])
  {
    assert es[..j][..j - 1] == es[..j - 1];
  }

  lemma RunStepAgrees(r: Run, j: nat)
    requires IsRun(r) && j < |r.events| && Agrees(r.states[j], TallyOf(r.events[..j]))
    ensures Agrees(r.states[j + 1], TallyOf(r.events[..j + 1]))
  {
    assert IsStep(r.states[j], r.events[j], r.states[j + 1]);
    StepAgrees(r.states[j], TallyOf(r.events[..j]), r.events[j]);
    TallyStep(r.events, j + 1);
  }

  /**
   * The whole life of a handle: at every point of every run, each message sent is waiting for room or was accepted exactly
   * once; the close flag is raised iff `close` was called; the handle is there until it is dropped; and there are as many
   * received items, delivered items, `connect`s and connections as events that make them.
   */
  lemma {:induction false} StateAgreesWithEvents(n: nat, r: Run, j: nat)
    requires IsRunFromStart(n, r) && j < |r.states|
    ensures Agrees(r.states[j], TallyOf(r.events[..j]))
    decreases j
  {
    if j > 0 {
      StateAgreesWithEvents(n, r, j - 1);
      RunStepAgrees(r, j - 1);
    }
  }

  lemma NothingBegins(s: State, t: Tally, m: Message)
    requires Agrees(s, t) && UserEnabled(s, StartSend(m))
    ensures t.closes == 0 && t.drops == 0
  {
  }

  /** No `send` begins after `close`, or after the handle is dropped. */
  lemma {:induction false} SendsBeginBeforeClose(n: nat, r: Run, j: nat)
    requires IsRunFromStart(n, r) && j < |r.events| && r.events[j].User? && r.events[j].user.StartSend?
    ensures TallyOf(r.events[..j]).closes == 0 && TallyOf(r.events[..j]).drops == 0
  {
    StateAgreesWithEvents(n, r, j);
    assert IsStep(r.states[j], r.events[j], r.states[j + 1]);
    NothingBegins(r.states[j], TallyOf(r.events[..j]), r.events[j].user.message);
  }

  /**
   * Where each step of a write loop leads. It leaves only when the channel is closed, when it has requeued its message, or
   * when a raised flag is news; and what it had in hand is then where it should be.
   */
  lemma WriteLoopGoesOn(s: State, g: nat, w: WriteEvent)
    requires g < |s.gens| && WriteEnabled(s, g, w)
    ensures |WriteApply(s, g, w).gens| == |s.gens|
    ensures var before, after := s.gens[g].write, WriteApply(s, g, w).gens[g].write;
      && (after == LeftWrite <==>
           || w.OutgoingClosed? || w.Requeued?
           || (w.WriteDisconnectArm? && s.disconnect.value)
           || (w.WriteCloseArm? && s.close.value))
      && (after.Waiting? <==>
           || w.Forwarded?
           || (w.WriteDisconnectArm? && !s.disconnect.value)
           || (w.WriteCloseArm? && !s.close.value))
      && (after.Forwarding? <==> w.TakeRetry? || w.TakeOutgoing?)
      && (w.TakeRetry? ==> after == Forwarding(s.retry[0])) && (w.TakeOutgoing? ==> after == Forwarding(s.outgoing[0]))
      && (after.Requeuing? <==> w.Refused?) && (w.Refused? ==> after == Requeuing(before.message))
      && (after.WriteEnded? <==> w.WriteEnds?)
      && (w.Requeued? ==> WriteApply(s, g, w).retry == [before.message])
    ensures w.OutgoingClosed? ==> !InnerAlive(s) && s.retry == [] && s.outgoing == []
    ensures w.Refused? ==> s.gens[g].keepAlive.writer.Ended?
    ensures w.TakeOutgoing? ==> s.retry == []
    ensures w.WriteDisconnectArm? || w.WriteCloseArm? ==> InnerAlive(s) && s.retry == [] && s.outgoing == []
    ensures w.WriteDisconnectArm? ==> s.disconnect.ChangedSince(s.gens[g].writeSeen.disconnect)
    ensures w.WriteCloseArm? ==> s.close.ChangedSince(s.gens[g].writeSeen.close)
    ensures var seen, seen' := s.gens[g].writeSeen, WriteApply(s, g, w).gens[g].writeSeen;
      && seen'.disconnect == (if w.WriteDisconnectArm? then s.disconnect.version else seen.disconnect)
      && seen'.close == (if w.WriteCloseArm? then s.close.version else seen.close)
  {
  }

  /** The end of the loops: each flag goes up or down as it must, and the read loop that has left dials or ends. */
  lemma LoopsEnd(s: State, g: nat, r: ReadEvent)
    requires g < |s.gens| && ReadEnabled(s, g, r)
    ensures g < |ReadApply(s, g, r).gens|
    ensures var before, after := s.gens[g].read, ReadApply(s, g, r).gens[g].read;
      && (r.ReadEnds? ==>
           && (InnerAlive(s) ==> ReadApply(s, g, r).disconnect.value)
           && after == if InnerAlive(s) && before.reconnect then Redialing(0) else ReadEnded)
      && (r.RedialSucceeds? ==> after == ReadEnded && |ReadApply(s, g, r).gens| == |s.gens| + 1)
      && (r.Starts? ==> after == Reading && (InnerAlive(s) ==> !ReadApply(s, g, r).disconnect.value))
    ensures var seen, seen' := s.gens[g].readSeen, ReadApply(s, g, r).gens[g].readSeen;
      && (r.ReadDisconnectArm? && s.disconnect.ChangedSince(seen.disconnect) ==> seen'.disconnect == s.disconnect.version)
      && (r.ReadCloseArm? ==> seen'.close == s.close.version)
      && (!r.ReadDisconnectArm? && !r.ReadCloseArm? ==> seen' == seen)
  {
  }

  /**
   * When a write loop has to wait: at its select with nothing to take, the handle there and no flag news; for room in its
   * keep-alive's queue; for the retry slot; or for good.
   */
  lemma WriteLoopWaitsIff(s: State, g: nat)
    requires g < |s.gens| && GenValid(s.gens[g])
    ensures var gen := s.gens[g];
      (forall w :: !WriteEnabled(s, g, w)) <==>
        match gen.write
        case Waiting =>
          && s.retry == [] && s.outgoing == [] && InnerAlive(s)
          && s.disconnect.version == gen.writeSeen.disconnect && s.close.version == gen.writeSeen.close
        case Forwarding(_) => !gen.keepAlive.writer.Ended? && gen.keepAlive.outgoing != []
        case Requeuing(_) => s.retry != []
        case LeftWrite => false
        case WriteEnded => true
  {
    var gen := s.gens[g];
    match gen.write
    case Waiting =>
      assert WriteEnabled(s, g, TakeRetry) || WriteEnabled(s, g, TakeOutgoing) || WriteEnabled(s, g, OutgoingClosed)
             || WriteEnabled(s, g, WriteDisconnectArm) || WriteEnabled(s, g, WriteCloseArm)
        <==> !(s.retry == [] && s.outgoing == [] && InnerAlive(s)
               && s.disconnect.version == gen.writeSeen.disconnect && s.close.version == gen.writeSeen.close);
    case Forwarding(_) =>
      assert WriteEnabled(s, g, Forwarded) || WriteEnabled(s, g, Refused)
        <==> gen.keepAlive.writer.Ended? || gen.keepAlive.outgoing == [];
    case Requeuing(_) => assert WriteEnabled(s, g, Requeued) <==> s.retry == [];
    case LeftWrite => assert WriteEnabled(s, g, WriteEnds);
    case WriteEnded =>
  }

  /**
   * When a read loop has to wait: at its select with no item, its reader not stopped, the handle there and no flag news; for
   * users to make room; or for good.
   */
  lemma ReadLoopWaitsIff(s: State, g: nat)
    requires g < |s.gens| && GenValid(s.gens[g])
    ensures var gen := s.gens[g];
      (forall r :: !ReadEnabled(s, g, r)) <==>
        match gen.read
        case Reading =>
          && gen.keepAlive.incoming == [] && !gen.keepAlive.reader.Stopped? && InnerAlive(s)
          && s.disconnect.version == gen.readSeen.disconnect && s.close.version == gen.readSeen.close
        case Delivering(_) => InnerAlive(s) && s.incoming != []
        case ReadEnded => true
        case _ => false
  {
    var gen := s.gens[g];
    match gen.read
    case Starting => assert ReadEnabled(s, g, Starts);
    case Reading =>
      assert ReadEnabled(s, g, TakeItem) || ReadEnabled(s, g, ItemsEnd) || ReadEnabled(s, g, ReadDisconnectArm)
             || ReadEnabled(s, g, ReadCloseArm)
        <==> !(gen.keepAlive.incoming == [] && !gen.keepAlive.reader.Stopped? && InnerAlive(s)
               && s.disconnect.version == gen.readSeen.disconnect && s.close.version == gen.readSeen.close);
    case Delivering(_) =>
      assert ReadEnabled(s, g, Delivered) || ReadEnabled(s, g, DeliveryFails) <==> !(InnerAlive(s) && s.incoming != []);
    case LeftRead(_) => assert ReadEnabled(s, g, ReadEnds);
    case Redialing(_) => assert ReadEnabled(s, g, RedialSucceeds);
    case ReadEnded =>
  }

  /**
   * What users may do: with the handle everything but a send after `close` and a receive from an empty channel, whatever
   * the connections are doing; and the handle goes only when nothing pending borrows it.
   */
  lemma UsersMay(s: State)
    ensures s.handle ==> UserEnabled(s, UserEvent.Close) && UserEnabled(s, Connect)
    ensures forall m :: UserEnabled(s, StartSend(m)) <==> s.handle && !s.close.value
    ensures forall m :: UserEnabled(s, Accept(m)) <==> m in s.sending && |s.outgoing| == 0
    ensures UserEnabled(s, Receive) <==> s.handle && |s.incoming| > 0
    ensures UserEnabled(s, DropHandle) <==> s.handle && |s.sending| == 0 && forall d :: d in s.dials ==> d == DialEnded
    ensures forall i, c :: UserEnabled(s, DialSucceeds(i)) == UserEnabled(s, DialFails(i, c))
    ensures forall i :: 0 <= i < |s.dials| ==> (UserEnabled(s, DialSucceeds(i)) <==> s.dials[i] != DialEnded)
  {
    assert forall i :: 0 <= i < |s.dials| ==> s.dials[i] in s.dials;
  }
}
