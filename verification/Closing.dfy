/** What `close` promises: the messages accepted before it are drained, in order, before the closing frame. */
module Closing {
  import opened Messages
  import opened ReconnectingProtocol
  import opened Conservation
  import opened Ordering
  import K = KeepAliveProtocol

  ghost predicate Grew(s: State, t: State) {
    && s.accepted <= t.accepted
    && |s.gens| <= |t.gens|
    && forall i :: 0 <= i < |s.gens| ==> |s.gens[i].keepAlive.accepted| <= |t.gens[i].keepAlive.accepted|
  }

  lemma StepGrows(s: State, e: Event)
    requires Enabled(s, e)
    ensures Grew(s, Apply(s, e))
  {
    var s' := Apply(s, e);
    StepInstalls(s, e);
    AcceptedOnlyGrows(s, e);
    forall i | 0 <= i < |s.gens| ensures |s.gens[i].keepAlive.accepted| <= |s'.gens[i].keepAlive.accepted| {
      StepRefinesKeepAlive(s, e, i);
      KeepAliveOnlyGrows(s.gens[i].keepAlive, KeepAliveEvent(s, e, i), s'.gens[i].keepAlive);
    }
  }

  lemma AcceptedOnlyGrows(s: State, e: Event)
    requires Enabled(s, e)
    ensures s.accepted <= Apply(s, e).accepted
  {
  }

  lemma KeepAliveOnlyGrows(k: K.KeepAlive, e: Option<K.Event>, k': K.KeepAlive)
    requires Moves(k, e, k')
    ensures |k.accepted| <= |k'.accepted|
  {
  }

  lemma GrewTransitive(s: State, t: State, u: State)
    requires Grew(s, t) && Grew(t, u)
    ensures Grew(s, u)
  {
  }

  lemma {:induction false} RunGrows(r: Run, i: nat, j: nat)
    requires IsRun(r) && i <= j < |r.states|
    ensures Grew(r.states[i], r.states[j])
  {
    if i < j {
      RunGrows(r, i, j - 1);
      assert IsStep(r.states[j - 1], r.events[j - 1], r.states[j]);
      StepGrows(r.states[j - 1], r.events[j - 1]);
      GrewTransitive(r.states[i], r.states[j - 1], r.states[j]);
    }
  }

  /** Event `e` makes a write loop leave through its disconnect or its close arm. */
  predicate LeavesByFlag(s: State, e: Event)
    requires Enabled(s, e)
  {
    && e.Write? && (e.write.WriteDisconnectArm? || e.write.WriteCloseArm?)
    && Apply(s, e).gens[e.gen].write.LeftWrite?
  }

  /** Those two arms come last, so they fire only when retry slot and outgoing channel are empty. */
  lemma LeavingFindsNothing(s: State, e: Event)
    requires InOrder(s) && Enabled(s, e) && LeavesByFlag(s, e)
    ensures s.outgoing == [] && Limbo(s) == [] && Concat(Handed(s.gens)) == s.accepted
  {
    assert e.gen == |s.gens| - 1;
  }

  /** If all accepted messages were with keep-alives at `s`, they are the first ones handed at `t`. */
  lemma DrainedStaysDrained(s: State, t: State)
    requires Grew(s, t) && Concat(Handed(s.gens)) == s.accepted
    requires InOrder(t)
    ensures s.accepted <= Concat(Handed(t.gens))
  {
    ConcatLonger(Handed(s.gens), Handed(t.gens));
    var all := Concat(Handed(t.gens)) + Limbo(t) + t.outgoing;
    assert s.accepted <= all;
    assert Concat(Handed(t.gens)) == all[..|Concat(Handed(t.gens))|];
  }

  /** Keep-alives that have ended, and lost nothing, wrote all they accepted. */
  lemma LosslessWroteAll(gens: seq<Generation>)
    requires forall i :: 0 <= i < |gens| ==>
      GenValid(gens[i]) && gens[i].keepAlive.writer.Ended? && K.Lost(gens[i].keepAlive) == []
    ensures Written(gens) == Handed(gens)
    ensures forall i :: 0 <= i < |gens| ==>
      Payload(BeforeClosing(gens[i].keepAlive.wire)) == gens[i].keepAlive.accepted
  {
    forall i | 0 <= i < |gens|
      ensures Payload(gens[i].keepAlive.wire) == gens[i].keepAlive.accepted
      ensures Payload(BeforeClosing(gens[i].keepAlive.wire)) == gens[i].keepAlive.accepted
    {
      K.Accounting(gens[i].keepAlive);
      K.PayloadBeforeClosing(gens[i].keepAlive.wire);
    }
  }

  lemma NoHands(s: State)
    requires OlderLoopsLeft(s.gens) && Limbo(s) == []
    ensures Concat(Hands(s.gens)) == []
  {
    ConcatAllEmpty(Hands(s.gens));
  }

  /** Step `j` of the run makes a write loop leave through its disconnect or its close arm. */
  ghost predicate LeavesAt(r: Run, j: nat)
    requires |r.states| == |r.events| + 1
  {
    j < |r.events| && Enabled(r.states[j], r.events[j]) && LeavesByFlag(r.states[j], r.events[j])
  }

  /**
   * Orderly or not: when a write loop leaves through its close or disconnect arm, both queues are empty and its hand is
   * too, so every message accepted so far has reached a keep-alive or is in another write loop's hand.
   */
  lemma {:induction false} LeavingEmptiesQueues(n: nat, r: Run, j: nat)
    requires IsRunFromStart(n, r) && LeavesAt(r, j)
    ensures var s := r.states[j];
      && s.outgoing == [] && s.retry == [] && Hands(s.gens)[r.events[j].gen] == []
      && multiset(s.accepted) == multiset(Concat(Hands(s.gens)))
         + multiset(Concat(InFlight(s.gens))) + multiset(Concat(Written(s.gens))) + multiset(Concat(Lost(s.gens)))
  {
    EveryAcceptedMessageIsSomewhere(n, r, j);
    QueuesAreEmpty(r.states[j], r.events[j]);
    assert multiset(r.states[j].outgoing) + multiset(r.states[j].retry) == multiset{};
  }

  lemma QueuesAreEmpty(s: State, e: Event)
    requires Enabled(s, e) && LeavesByFlag(s, e)
    ensures s.outgoing == [] && s.retry == [] && s.gens[e.gen].write.Waiting?
  {
  }

  /** When a write loop leaves through its close or disconnect arm, every message accepted so far is with a keep-alive. */
  lemma {:induction false} LeavingDrains(n: nat, r: Run, j: nat)
    requires IsRunFromStart(n, r) && IsOrderly(r) && LeavesAt(r, j)
    ensures var s := r.states[j];
      && s.outgoing == [] && s.retry == [] && Concat(Hands(s.gens)) == []
      && Concat(Handed(s.gens)) == s.accepted
  {
    RunKeepsOrder(n, r, j);
    LeavingFindsNothing(r.states[j], r.events[j]);
    NoHands(r.states[j]);
  }

  lemma {:induction false} DrainedSince(n: nat, r: Run, i: nat, j: nat, k: nat)
    requires IsRunFromStart(n, r) && IsOrderly(r) && LeavesAt(r, j) && i <= j <= k < |r.states|
    ensures r.states[i].accepted <= Concat(Handed(r.states[k].gens))
  {
    LeavingDrains(n, r, j);
    RunGrows(r, i, j);
    RunGrows(r, j, k);
    RunKeepsOrder(n, r, k);
    DrainedStaysDrained(r.states[j], r.states[k]);
  }

  /**
   * Close drains. On an orderly run, let `close` be called at state `i` (any state will do) and let a write loop leave
   * through its close or disconnect arm at state `j`. Ever after, at every state `k`, the messages accepted before `i`
   * are, in order and ahead of all later ones, on a wire, lost with a keep-alive, or still held by one.
   */
  lemma {:induction false} CloseDrains(n: nat, r: Run, i: nat, j: nat, k: nat)
    requires IsRunFromStart(n, r) && IsOrderly(r) && LeavesAt(r, j) && i <= j <= k < |r.states|
    ensures r.states[i].accepted <= Concat(Fates(r.states[k].gens))
  {
    DrainedSince(n, r, i, j, k);
    RunKeepsValid(r, k);
    HandedAreFates(r.states[k].gens);
  }

  /** Up to state `j`, the socket of generation `g` was not closed without error. */
  ghost predicate NeverClosesWell(r: Run, j: nat, g: nat)
    requires |r.states| == |r.events| + 1 && j < |r.states|
  {
    forall i {:trigger r.events[i]} :: 0 <= i < j ==> r.events[i] != KeepAlive(g, K.SocketClosed(true))
  }

  lemma KeepAliveClosesIff(k: K.KeepAlive, e: K.Event)
    requires K.Valid(k) && K.Enabled(k, e)
    ensures ClosingFrame in K.Apply(k, e).wire <==> ClosingFrame in k.wire || e == K.SocketClosed(true)
  {
    var k' := K.Apply(k, e);
    if e.SocketClosed? && e.ok {
      assert k'.wire[|k.wire|] == ClosingFrame;
    }
  }

  lemma StepClosesIff(s: State, e: Event, g: nat)
    requires g < |s.gens| && GenValid(s.gens[g]) && Enabled(s, e)
    ensures g < |Apply(s, e).gens|
    ensures ClosingFrame in Apply(s, e).gens[g].keepAlive.wire
       <==> ClosingFrame in s.gens[g].keepAlive.wire || e == KeepAlive(g, K.SocketClosed(true))
  {
    StepRefinesKeepAlive(s, e, g);
    match KeepAliveEvent(s, e, g)
    case None =>
    case Some(ke) => KeepAliveClosesIff(s.gens[g].keepAlive, ke);
  }

  lemma NewIsNotClosed(r: Run, j: nat, g: nat)
    requires IsRun(r) && 0 < j < |r.states| && |r.states[j - 1].gens| <= g < |r.states[j].gens|
    ensures r.states[j].gens[g].keepAlive.wire == [] && NeverClosesWell(r, j, g)
  {
    assert IsStep(r.states[j - 1], r.events[j - 1], r.states[j]);
    StepInstalls(r.states[j - 1], r.events[j - 1]);
    var p :| r.states[j].gens[g] == NewGeneration(p);
    forall i {:trigger r.events[i]} | 0 <= i < j ensures r.events[i] != KeepAlive(g, K.SocketClosed(true)) {
      GensOnlyGrow(r, i, j - 1);
      assert IsStep(r.states[i], r.events[i], r.states[i + 1]);
    }
  }

  lemma RunStepClosesIff(r: Run, j: nat, g: nat)
    requires IsRun(r) && j < |r.events| && Valid(r.states[j]) && g < |r.states[j].gens|
    ensures g < |r.states[j + 1].gens|
    ensures ClosingFrame in r.states[j + 1].gens[g].keepAlive.wire
       <==> ClosingFrame in r.states[j].gens[g].keepAlive.wire || r.events[j] == KeepAlive(g, K.SocketClosed(true))
  {
    assert IsStep(r.states[j], r.events[j], r.states[j + 1]);
    StepClosesIff(r.states[j], r.events[j], g);
  }

  lemma NeverClosesWellStep(r: Run, j: nat, g: nat)
    requires |r.states| == |r.events| + 1 && 0 < j < |r.states|
    ensures NeverClosesWell(r, j, g)
       <==> NeverClosesWell(r, j - 1, g) && r.events[j - 1] != KeepAlive(g, K.SocketClosed(true))
  {
  }

  /** A wire has its closing frame iff its socket was closed without error. */
  lemma {:induction false} ClosingFrameIsSentIff(n: nat, r: Run, j: nat, g: nat)
    requires IsRunFromStart(n, r) && j < |r.states| && g < |r.states[j].gens|
    ensures ClosingFrame in r.states[j].gens[g].keepAlive.wire <==> !NeverClosesWell(r, j, g)
    decreases j
  {
    if j > 0 {
      if g < |r.states[j - 1].gens| {
        ClosingFrameIsSentIff(n, r, j - 1, g);
        RunKeepsValid(r, j - 1);
        RunStepClosesIff(r, j - 1, g);
        NeverClosesWellStep(r, j, g);
      } else {
        NewIsNotClosed(r, j, g);
      }
    }
  }

  lemma WireSplits(gen: Generation)
    requires GenValid(gen)
    ensures var wire := gen.keepAlive.wire;
      wire == BeforeClosing(wire) + if ClosingFrame in wire then [ClosingFrame] else []
  {
    var wire := gen.keepAlive.wire;
    if ClosingFrame in wire {
      assert wire == wire[..|wire| - 1] + [wire[|wire| - 1]];
    }
  }

  /**
   * If moreover every keep-alive has ended, however it did, and none ever met a losing event, all of those messages are on
   * the wires, in order, each before that wire's closing frame, which is there if its socket was closed without error, and
   * nothing follows a closing frame.
   */
  lemma {:induction false} CloseWritesEverything(n: nat, r: Run, i: nat, j: nat, k: nat)
    requires IsRunFromStart(n, r) && IsOrderly(r) && LeavesAt(r, j) && i <= j <= k < |r.states|
    requires forall g :: 0 <= g < |r.states[k].gens| ==>
      r.states[k].gens[g].keepAlive.writer.Ended? && NeverLoses(r, k, g)
    ensures var t := r.states[k];
      && r.states[i].accepted <= Concat(Written(t.gens))
      && forall g :: 0 <= g < |t.gens| ==>
           && Payload(BeforeClosing(t.gens[g].keepAlive.wire)) == t.gens[g].keepAlive.accepted
           && ClosingFrame !in BeforeClosing(t.gens[g].keepAlive.wire)
           && t.gens[g].keepAlive.wire == BeforeClosing(t.gens[g].keepAlive.wire)
                                          + if NeverClosesWell(r, k, g) then [] else [ClosingFrame]
  {
    DrainedSince(n, r, i, j, k);
    RunKeepsValid(r, k);
    forall g | 0 <= g < |r.states[k].gens| ensures K.Lost(r.states[k].gens[g].keepAlive) == [] {
      GenerationIsLosslessIff(n, r, k, g);
    }
    LosslessWroteAll(r.states[k].gens);
    NothingAfterClosing(r.states[k]);
    forall g: nat | g < |r.states[k].gens|
      ensures r.states[k].gens[g].keepAlive.wire == BeforeClosing(r.states[k].gens[g].keepAlive.wire)
                                                    + if NeverClosesWell(r, k, g) then [] else [ClosingFrame]
    {
      ClosingFrameIsSentIff(n, r, k, g);
      WireSplits(r.states[k].gens[g]);
    }
  }

  lemma NothingAfterClosing(s: State)
    requires Valid(s)
    ensures forall g :: 0 <= g < |s.gens| ==> ClosingFrame !in BeforeClosing(s.gens[g].keepAlive.wire)
  {
  }
}
