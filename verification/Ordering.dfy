/**
 * Order of outgoing messages across reconnects. The order holds on orderly runs: whenever a new connection
 * is installed, every older write loop has left its loop. (`Counterexamples` shows a run that is not orderly.)
 * Here the order is told generation by generation; for the order in time on all wires, see `Overtaking` and `WireOrder`.
 */
module Ordering {
  import opened Messages
  import opened ReconnectingProtocol
  import opened Conservation
  import K = KeepAliveProtocol

  predicate HasLeft(w: WriteLoop) {
    w.LeftWrite? || w.WriteEnded?
  }

  predicate Installs(e: Event) {
    (e.User? && e.user.DialSucceeds?) || (e.Read? && e.read.RedialSucceeds?)
  }

  /** What a caller can check before a connection is installed. */
  predicate OrderlyStep(s: State, e: Event) {
    Installs(e) ==> forall i :: 0 <= i < |s.gens| ==> HasLeft(s.gens[i].write)
  }

  ghost predicate IsOrderly(r: Run)
    requires |r.states| == |r.events| + 1
  {
    forall i {:trigger r.events[i]} :: 0 <= i < |r.events| ==> OrderlyStep(r.states[i], r.events[i])
  }

  /** The accepted messages that are neither in the outgoing channel nor with a keep-alive. */
  function Limbo(s: State): seq<Message> {
    (if s.gens == [] then [] else HandOf(s.gens[|s.gens| - 1].write)) + s.retry
  }

  ghost predicate OlderLoopsLeft(gens: seq<Generation>) {
    forall i :: 0 <= i < |gens| - 1 ==> HasLeft(gens[i].write)
  }

  ghost predicate InOrder(s: State) {
    && OlderLoopsLeft(s.gens)
    && |Limbo(s)| <= 1
    && Concat(Handed(s.gens)) + Limbo(s) + s.outgoing == s.accepted
  }

  /** A write loop that has left moves no message any more. */
  lemma LeftLoopsMoveNothing(s: State, g: nat, w: WriteEvent)
    requires g < |s.gens| && WriteEnabled(s, g, w) && HasLeft(s.gens[g].write)
    ensures var s' := WriteApply(s, g, w);
      && |s'.gens| == |s.gens| && HasLeft(s'.gens[g].write)
      && s'.outgoing == s.outgoing && s'.retry == s.retry
      && s'.gens[g].keepAlive.accepted == s.gens[g].keepAlive.accepted
  {
  }

  lemma LastLoopKeepsOrder(s: State, w: WriteEvent)
    requires QueuesValid(s) && InOrder(s) && s.gens != [] && WriteEnabled(s, |s.gens| - 1, w)
    ensures InOrder(WriteApply(s, |s.gens| - 1, w))
  {
    var last := |s.gens| - 1;
    var s' := WriteApply(s, last, w);
    WriteTouchesOneGeneration(s, last, w);
    WriteMoves(s, last, w);
    var p, p' := PlacesOf(s, last), PlacesOf(s', last);
    var more := if p'.handed == p.handed then [] else p.hand;
    MoveKeepsSequence(p, p', more);
    LastMoveKeepsOrder(s, s', more);
  }

  lemma LastMoveKeepsOrder(s: State, s': State, more: seq<Message>)
    requires InOrder(s) && s.gens != [] && s'.accepted == s.accepted
    requires |s'.gens| == |s.gens| && s'.gens == s.gens[|s.gens| - 1 := s'.gens[|s.gens| - 1]]
    requires s'.gens[|s.gens| - 1].keepAlive.accepted == s.gens[|s.gens| - 1].keepAlive.accepted + more
    requires more + Limbo(s') + s'.outgoing == Limbo(s) + s.outgoing && |Limbo(s')| <= 1
    ensures InOrder(s')
  {
    HandedAfterMove(s.gens, s'.gens, more);
    Regroup(Concat(Handed(s.gens)), more, Limbo(s'), s'.outgoing, Limbo(s), s.outgoing);
  }

  lemma Regroup(front: seq<Message>, more: seq<Message>, limbo': seq<Message>, queue': seq<Message>,
                limbo: seq<Message>, queue: seq<Message>)
    requires more + limbo' + queue' == limbo + queue
    ensures (front + more) + limbo' + queue' == front + limbo + queue
  {
    assert (front + more) + limbo' + queue' == front + (more + limbo' + queue');
    assert front + limbo + queue == front + (limbo + queue);
  }

  lemma HandedAfterMove(gens: seq<Generation>, gens': seq<Generation>, more: seq<Message>)
    requires gens != [] && |gens'| == |gens| && gens' == gens[|gens| - 1 := gens'[|gens| - 1]]
    requires gens'[|gens| - 1].keepAlive.accepted == gens[|gens| - 1].keepAlive.accepted + more
    ensures Concat(Handed(gens')) == Concat(Handed(gens)) + more
  {
    var last := |gens| - 1;
    assert Handed(gens') == Handed(gens)[last := Handed(gens)[last] + more];
    ConcatExtendLast(Handed(gens), more);
  }

  /** The arm order at work: the retry slot is emptied before the outgoing channel is looked at. */
  lemma MoveKeepsSequence(p: Places, p': Places, more: seq<Message>)
    requires OneMove(p, p') && |p.hand + p.retry| <= 1 && |p.outgoing| <= 1
    requires more == if p'.handed == p.handed then [] else p.hand
    ensures more + (p'.hand + p'.retry) + p'.outgoing == p.hand + p.retry + p.outgoing
    ensures |p'.hand + p'.retry| <= 1
    ensures p'.handed == p.handed + more
  {
    if p' == p.(hand := [], handed := p.handed + p.hand) {
      assert p.hand != [] ==> |p.handed + p.hand| > |p.handed|;
    }
  }

  /** Steps that leave write loops alone, and at most add a generation after all loops have left. */
  lemma UnmovedKeepsOrder(s: State, s': State)
    requires InOrder(s) && LeavesWritingAlone(s, s')
    requires |s'.gens| > |s.gens| ==> forall i :: 0 <= i < |s.gens| ==> HasLeft(s.gens[i].write)
    ensures InOrder(s')
  {
    NothingMoved(s, s');
  }

  /** Only installing events add a generation. */
  lemma OtherReadsInstallNothing(s: State, g: nat, r: ReadEvent)
    requires g < |s.gens| && ReadEnabled(s, g, r) && !r.RedialSucceeds?
    ensures |ReadApply(s, g, r).gens| == |s.gens|
  {
  }

  lemma OnlyInstallersInstall(s: State, e: Event)
    requires Enabled(s, e) && !Installs(e)
    ensures |Apply(s, e).gens| == |s.gens|
  {
    match e
    case User(_) =>
    case Write(g, w) => WriteTouchesOneGeneration(s, g, w);
    case Read(g, r) => OtherReadsInstallNothing(s, g, r);
    case KeepAlive(_, _) =>
  }

  lemma WriteKeepsOrder(s: State, g: nat, w: WriteEvent)
    requires QueuesValid(s) && InOrder(s) && g < |s.gens| && WriteEnabled(s, g, w)
    ensures InOrder(WriteApply(s, g, w))
  {
    if g == |s.gens| - 1 {
      LastLoopKeepsOrder(s, w);
    } else {
      var s' := WriteApply(s, g, w);
      WriteTouchesOneGeneration(s, g, w);
      LeftLoopsMoveNothing(s, g, w);
      assert Handed(s'.gens) == Handed(s.gens);
    }
  }

  lemma AcceptKeepsOrder(s: State, m: Message)
    requires InOrder(s) && UserEnabled(s, Accept(m))
    ensures InOrder(UserApply(s, Accept(m)))
  {
    assert s.accepted + [m] == Concat(Handed(s.gens)) + Limbo(s) + [m];
  }

  lemma StepKeepsOrder(s: State, e: Event)
    requires QueuesValid(s) && InOrder(s) && Enabled(s, e) && OrderlyStep(s, e)
    ensures InOrder(Apply(s, e))
  {
    if e.Write? {
      WriteKeepsOrder(s, e.gen, e.write);
    } else if e.User? && e.user.Accept? {
      AcceptKeepsOrder(s, e.user.message);
    } else {
      OthersLeaveWritingAlone(s, e);
      if !Installs(e) {
        OnlyInstallersInstall(s, e);
      }
      UnmovedKeepsOrder(s, Apply(s, e));
    }
  }

  lemma RunStepKeepsOrder(r: Run, j: nat)
    requires IsRun(r) && IsOrderly(r) && j < |r.events| && Valid(r.states[j]) && InOrder(r.states[j])
    ensures InOrder(r.states[j + 1])
  {
    assert IsStep(r.states[j], r.events[j], r.states[j + 1]);
    StepKeepsOrder(r.states[j], r.events[j]);
  }

  lemma {:induction false} RunKeepsOrder(n: nat, r: Run, j: nat)
    requires IsRunFromStart(n, r) && IsOrderly(r) && j < |r.states|
    ensures InOrder(r.states[j])
    decreases j
  {
    if j > 0 {
      RunKeepsOrder(n, r, j - 1);
      RunKeepsValid(r, j - 1);
      RunStepKeepsOrder(r, j - 1);
    }
  }

  /** Generation by generation: what is on the wire, then what was lost, then what is in flight. */
  function Fates(gens: seq<Generation>): seq<seq<Message>> {
    seq(|gens|, i requires 0 <= i < |gens| =>
      Payload(gens[i].keepAlive.wire) + K.Lost(gens[i].keepAlive) + K.InFlight(gens[i].keepAlive))
  }

  lemma HandedAreFates(gens: seq<Generation>)
    requires forall i :: 0 <= i < |gens| ==> GenValid(gens[i])
    ensures Handed(gens) == Fates(gens)
  {
    forall i | 0 <= i < |gens| ensures Handed(gens)[i] == Fates(gens)[i] {
      K.Accounting(gens[i].keepAlive);
    }
  }

  /**
   * FIFO across reconnects, with exact loss accounting: on every orderly run the accepted sequence is, generation
   * by generation, the messages on that wire, those lost with that keep-alive and those it still holds, followed by
   * the one message in the write loop's hand or in the retry slot, followed by the outgoing channel.
   */
  lemma {:induction false} AcceptedOrderIsWireOrder(n: nat, r: Run, j: nat)
    requires IsRunFromStart(n, r) && IsOrderly(r) && j < |r.states|
    ensures var s := r.states[j]; s.accepted == Concat(Fates(s.gens)) + Limbo(s) + s.outgoing
  {
    RunKeepsOrder(n, r, j);
    RunKeepsValid(r, j);
    HandedAreFates(r.states[j].gens);
  }

  lemma OneInLimbo(s: State)
    requires InOrder(s)
    ensures |Concat(Hands(s.gens)) + s.retry| <= 1
    ensures forall g :: 0 <= g < |s.gens| && s.gens[g].write.Requeuing? ==> s.retry == []
  {
    if s.gens != [] {
      ConcatAllEmpty(Hands(s.gens)[..|s.gens| - 1]);
    }
  }

  /**
   * Bounded limbo: on every orderly run the write loops' hands and the retry slot together hold at most one
   * message, so a write loop that has to requeue its message never waits for the bounded(1) retry channel.
   */
  lemma {:induction false} RequeuingNeverBlocks(n: nat, r: Run, j: nat, g: nat)
    requires IsRunFromStart(n, r) && IsOrderly(r) && j < |r.states|
    ensures var s := r.states[j];
      && |Concat(Hands(s.gens)) + s.retry| <= 1
      && (g < |s.gens| && s.gens[g].write.Requeuing? ==> Enabled(s, Write(g, Requeued)))
  {
    RunKeepsOrder(n, r, j);
    OneInLimbo(r.states[j]);
  }
}
