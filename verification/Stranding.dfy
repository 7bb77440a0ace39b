/**
 * Messages that nobody will ever take again. When the handle is gone, nobody is reconnecting and no write loop goes back to
 * its select, the messages in the outgoing channel, in the retry slot and in the hands of write loops that wait to requeue
 * are lost although no keep-alive ever kept them. When this happens, and what is lost in all, is exact here.
 */
module Stranding {
  import opened Messages
  import opened ReconnectingProtocol
  import opened Conservation
  import opened Ordering
  import K = KeepAliveProtocol

  /**
   * A write loop that never takes a message again. One that requeues ends after that; and it may wait for ever, since the
   * retry slot it waits for is read by write loops only, itself included.
   */
  predicate TakesNoMore(w: WriteLoop) {
    w.Requeuing? || HasLeft(w)
  }

  ghost predicate NobodyTakes(s: State) {
    forall g :: 0 <= g < |s.gens| ==> TakesNoMore(s.gens[g].write)
  }

  /** Nobody is left who could take a message, or bring somebody who could. */
  ghost predicate Abandoned(s: State) {
    !InnerAlive(s) && NobodyTakes(s)
  }

  /** The accepted messages that are not with a keep-alive. */
  function OnTheWay(s: State): seq<Message> {
    s.retry + s.outgoing + Concat(Hands(s.gens))
  }

  ghost function Stranded(s: State): seq<Message> {
    if Abandoned(s) then OnTheWay(s) else []
  }

  /** The messages on the way of which somebody may still take some. */
  ghost function Waiting(s: State): seq<Message> {
    if Abandoned(s) then [] else OnTheWay(s)
  }

  /** Pending `send`s and `connect`s borrow the handle. */
  ghost predicate PendingNeedsHandle(s: State) {
    !s.handle ==> s.sending == multiset{} && forall i :: 0 <= i < |s.dials| ==> s.dials[i].DialEnded?
  }

  ghost predicate OthersTakeNoMore(s: State, g: nat) {
    forall i :: 0 <= i < |s.gens| && i != g ==> TakesNoMore(s.gens[i].write)
  }

  ghost predicate OthersDoNotRedial(s: State, g: nat) {
    forall i :: 0 <= i < |s.gens| && i != g ==> !s.gens[i].read.Redialing?
  }

  /**
   * The four events that strand messages. The handle is dropped, or the last reconnecting read loop gives up, when no write
   * loop takes messages any more and some are on the way. Or, when the handle is gone, the last write loop that took
   * messages is refused its own, or leaves while another still has one in hand.
   */
  ghost predicate Strands(s: State, e: Event)
    requires Enabled(s, e)
  {
    match e
    case User(DropHandle) =>
      NobodyTakes(s) && OnTheWay(s) != [] && forall i :: 0 <= i < |s.gens| ==> !s.gens[i].read.Redialing?
    case Read(g, RedialFails(c)) =>
      && GivesUp(s, s.gens[g].read.attempt, c) && !s.handle && OthersDoNotRedial(s, g)
      && NobodyTakes(s) && OnTheWay(s) != []
    case Write(g, Refused) => !InnerAlive(s) && OthersTakeNoMore(s, g)
    case Write(g, OutgoingClosed) => OthersTakeNoMore(s, g) && Concat(Hands(s.gens)) != []
    case _ => false
  }

  lemma UserStrandsIff(s: State, u: UserEvent)
    requires PendingNeedsHandle(s) && UserEnabled(s, u)
    ensures PendingNeedsHandle(UserApply(s, u))
    ensures Stranded(UserApply(s, u)) != [] <==> Stranded(s) != [] || Strands(s, User(u))
  {
    var s' := UserApply(s, u);
    if u.DropHandle? {
      assert s'.gens == s.gens;
    } else if u.DialSucceeds? {
      assert s.handle;
    }
  }

  lemma SomeHand(gens: seq<Generation>)
    ensures Concat(Hands(gens)) == [] <==> forall g :: 0 <= g < |gens| ==> HandOf(gens[g].write) == []
  {
    var hands := Hands(gens);
    ConcatEmptyIff(hands);
    assert forall g :: 0 <= g < |gens| ==> hands[g] == HandOf(gens[g].write);
  }

  /** What a write loop's step may do to abandonment, by event. */
  lemma WriteAndAbandoned(s: State, g: nat, w: WriteEvent)
    requires g < |s.gens| && WriteEnabled(s, g, w)
    ensures var s' := WriteApply(s, g, w);
      && (InnerAlive(s') <==> InnerAlive(s))
      && (NobodyTakes(s') <==> OthersTakeNoMore(s, g) && TakesNoMore(s'.gens[g].write))
      && (NobodyTakes(s) <==> OthersTakeNoMore(s, g) && TakesNoMore(s.gens[g].write))
  {
    var s' := WriteApply(s, g, w);
    WriteRefinesKeepAlive(s, g, w);
    assert s'.gens[g].read == s.gens[g].read;
    SameReaders(s, s');
    TakersSplit(s, g);
    TakersSplit(s', g);
    assert OthersTakeNoMore(s', g) <==> OthersTakeNoMore(s, g);
  }

  lemma TakersSplit(s: State, g: nat)
    requires g < |s.gens|
    ensures NobodyTakes(s) <==> OthersTakeNoMore(s, g) && TakesNoMore(s.gens[g].write)
  {
  }

  lemma SameReaders(s: State, s': State)
    requires s'.handle == s.handle && |s'.gens| == |s.gens|
    requires forall i :: 0 <= i < |s.gens| ==> s'.gens[i].read.Redialing? == s.gens[i].read.Redialing?
    ensures InnerAlive(s') <==> InnerAlive(s)
  {
    if InnerAlive(s) && !s.handle {
      var i :| 0 <= i < |s.gens| && s.gens[i].read.Redialing?;
      assert s'.gens[i].read.Redialing?;
    }
  }

  lemma SameWriters(s: State, s': State)
    requires |s'.gens| == |s.gens| && forall i :: 0 <= i < |s.gens| ==> s'.gens[i].write == s.gens[i].write
    ensures (NobodyTakes(s') <==> NobodyTakes(s)) && Hands(s'.gens) == Hands(s.gens)
  {
    if NobodyTakes(s') {
      forall g | 0 <= g < |s.gens| ensures TakesNoMore(s.gens[g].write) {
        assert TakesNoMore(s'.gens[g].write);
      }
    }
  }

  /** The events of a write loop that leave the hands of other loops alone, and whether any message is on the way. */
  lemma WriteAndOnTheWay(s: State, g: nat, w: WriteEvent)
    requires g < |s.gens| && WriteEnabled(s, g, w)
    ensures var s' := WriteApply(s, g, w);
      && (w.OutgoingClosed? || w.WriteEnds? || w.WriteDisconnectArm? || w.WriteCloseArm? ==>
           s'.retry == s.retry && s'.outgoing == s.outgoing && Hands(s'.gens) == Hands(s.gens))
      && (w.Refused? ==> OnTheWay(s') != [])
      && (w.Requeued? ==> OnTheWay(s) != [] && OnTheWay(s') != [])
  {
    var s' := WriteApply(s, g, w);
    WriteRefinesKeepAlive(s, g, w);
    if w.Refused? || w.Requeued? {
      SomeHand(s.gens);
      SomeHand(s'.gens);
    }
  }

  lemma WriteStrandsIff(s: State, g: nat, w: WriteEvent)
    requires PendingNeedsHandle(s) && g < |s.gens| && WriteEnabled(s, g, w)
    ensures PendingNeedsHandle(WriteApply(s, g, w))
    ensures Stranded(WriteApply(s, g, w)) != [] <==> Stranded(s) != [] || Strands(s, Write(g, w))
  {
    WriteAndAbandoned(s, g, w);
    WriteAndOnTheWay(s, g, w);
  }

  /** A read loop that goes on or ends, but does not install a connection. */
  lemma ReadAndInner(s: State, g: nat, r: ReadEvent)
    requires g < |s.gens| && ReadEnabled(s, g, r) && !r.RedialSucceeds?
    ensures var s' := ReadApply(s, g, r);
      && (NobodyTakes(s') <==> NobodyTakes(s)) && OnTheWay(s') == OnTheWay(s) && s'.handle == s.handle
      && (!r.RedialFails? ==> (InnerAlive(s') <==> InnerAlive(s)))
      && (r.RedialFails? ==>
           (InnerAlive(s') <==> !GivesUp(s, s.gens[g].read.attempt, r.clientError)
                                || s.handle || !OthersDoNotRedial(s, g)))
  {
    var s' := ReadApply(s, g, r);
    ReadRefinesKeepAlive(s, g, r);
    assert forall i :: 0 <= i < |s.gens| && i != g ==> s'.gens[i] == s.gens[i];
    SameWriters(s, s');
    if r.RedialFails? {
      assert InnerAlive(s') <==> s.handle || s'.gens[g].read.Redialing? || !OthersDoNotRedial(s, g);
    } else if r.ReadEnds? && s'.gens[g].read.Redialing? {
      assert InnerAlive(s);
    } else {
      SameReaders(s, s');
    }
  }

  lemma ReadStrandsIff(s: State, g: nat, r: ReadEvent)
    requires PendingNeedsHandle(s) && g < |s.gens| && ReadEnabled(s, g, r)
    ensures PendingNeedsHandle(ReadApply(s, g, r))
    ensures Stranded(ReadApply(s, g, r)) != [] <==> Stranded(s) != [] || Strands(s, Read(g, r))
  {
    if r.RedialSucceeds? {
      assert ReadApply(s, g, r).gens[|s.gens|].write.Waiting?;
    } else {
      ReadAndInner(s, g, r);
    }
  }

  lemma KeepAliveStrandsNothing(s: State, g: nat, k: K.Event)
    requires Enabled(s, KeepAlive(g, k))
    ensures var s' := Apply(s, KeepAlive(g, k));
      && (Abandoned(s') <==> Abandoned(s)) && OnTheWay(s') == OnTheWay(s)
  {
    var s' := Apply(s, KeepAlive(g, k));
    assert forall i :: 0 <= i < |s.gens| ==> s'.gens[i].write == s.gens[i].write && s'.gens[i].read == s.gens[i].read;
    SameReaders(s, s');
    SameWriters(s, s');
  }

  /** Step by step: a step leads to stranded messages iff there were some before, or it is one of the four. */
  lemma StepStrandsIff(s: State, e: Event)
    requires PendingNeedsHandle(s) && Enabled(s, e)
    ensures PendingNeedsHandle(Apply(s, e))
    ensures Stranded(Apply(s, e)) != [] <==> Stranded(s) != [] || Strands(s, e)
  {
    match e
    case User(u) => UserStrandsIff(s, u);
    case Write(g, w) => WriteStrandsIff(s, g, w);
    case Read(g, r) => ReadStrandsIff(s, g, r);
    case KeepAlive(g, k) => KeepAliveStrandsNothing(s, g, k);
  }

  /** Up to state `j`, no event stranded a message. */
  ghost predicate NeverStrands(r: Run, j: nat)
    requires IsRun(r) && j < |r.states|
  {
    forall i {:trigger r.events[i]} :: 0 <= i < j ==>
      IsStep(r.states[i], r.events[i], r.states[i + 1]) && !Strands(r.states[i], r.events[i])
  }

  lemma RunStepStrandsIff(r: Run, j: nat)
    requires IsRun(r) && j < |r.events| && PendingNeedsHandle(r.states[j])
    ensures Enabled(r.states[j], r.events[j]) && PendingNeedsHandle(r.states[j + 1])
    ensures Stranded(r.states[j + 1]) != [] <==> Stranded(r.states[j]) != [] || Strands(r.states[j], r.events[j])
  {
    assert IsStep(r.states[j], r.events[j], r.states[j + 1]);
    StepStrandsIff(r.states[j], r.events[j]);
  }

  lemma NeverStrandsStep(r: Run, j: nat)
    requires IsRun(r) && 0 < j < |r.states|
    ensures Enabled(r.states[j - 1], r.events[j - 1])
    ensures NeverStrands(r, j) <==> NeverStrands(r, j - 1) && !Strands(r.states[j - 1], r.events[j - 1])
  {
    assert IsStep(r.states[j - 1], r.events[j - 1], r.states[j]);
  }

  lemma NothingStrandedYet(n: nat)
    ensures PendingNeedsHandle(Initial(n)) && Stranded(Initial(n)) == []
  {
  }

  /** Exactly when a run strands messages. */
  lemma {:induction false} StrandedIff(n: nat, r: Run, j: nat)
    requires IsRunFromStart(n, r) && j < |r.states|
    ensures PendingNeedsHandle(r.states[j])
    ensures Stranded(r.states[j]) == [] <==> NeverStrands(r, j)
    decreases j
  {
    if j == 0 {
      NothingStrandedYet(n);
    } else {
      StrandedIff(n, r, j - 1);
      RunStepStrandsIff(r, j - 1);
      NeverStrandsStep(r, j);
    }
  }

  // ----- Abandoned for good. -----

  lemma AbandonedStep(s: State, e: Event)
    requires PendingNeedsHandle(s) && Enabled(s, e) && Abandoned(s)
    ensures var s' := Apply(s, e);
      Abandoned(s') && s'.accepted == s.accepted && |s'.gens| == |s.gens| && Handed(s'.gens) == Handed(s.gens)
  {
    match e
    case User(u) =>
    case Write(g, w) =>
      WriteAndAbandoned(s, g, w);
      WriteRefinesKeepAlive(s, g, w);
    case Read(g, r) =>
      ReadAndInner(s, g, r);
      ReadLeavesWritingAlone(s, g, r);
    case KeepAlive(g, k) =>
      KeepAliveStrandsNothing(s, g, k);
      KeepAliveLeavesWritingAlone(s, g, k);
  }

  lemma RunStepAbandoned(r: Run, j: nat)
    requires IsRun(r) && j < |r.events| && PendingNeedsHandle(r.states[j]) && Abandoned(r.states[j])
    ensures var s, s' := r.states[j], r.states[j + 1];
      Abandoned(s') && s'.accepted == s.accepted && Handed(s'.gens) == Handed(s.gens)
  {
    assert IsStep(r.states[j], r.events[j], r.states[j + 1]);
    AbandonedStep(r.states[j], r.events[j]);
  }

  lemma {:induction false} StaysAbandoned(n: nat, r: Run, j: nat, k: nat)
    requires IsRunFromStart(n, r) && j <= k < |r.states| && Abandoned(r.states[j])
    ensures var s, s' := r.states[j], r.states[k];
      Abandoned(s') && s'.accepted == s.accepted && Handed(s'.gens) == Handed(s.gens)
    decreases k
  {
    if j < k {
      StaysAbandoned(n, r, j, k - 1);
      StrandedIff(n, r, k - 1);
      RunStepAbandoned(r, k - 1);
    }
  }

  lemma TimesOnTheWay(s: State, m: Message)
    requires Conserved(s)
    ensures Times(OnTheWay(s), m) == Times(s.accepted, m) - Times(Concat(Handed(s.gens)), m)
  {
    assert Times(s.accepted, m) == Located(s, m);
    TimesOfSum(s.retry + s.outgoing, Concat(Hands(s.gens)), m);
    TimesOfSum(s.retry, s.outgoing, m);
  }

  /**
   * What is stranded stays stranded, whatever happens: from an abandoned state on no connection is installed, nothing is
   * accepted or handed to a keep-alive, and the stranded messages are the same. At most they change places, when a waiting
   * loop finds the retry slot free.
   */
  lemma {:induction false} StrandedForGood(n: nat, r: Run, j: nat, k: nat)
    requires IsRunFromStart(n, r) && j <= k < |r.states| && Abandoned(r.states[j])
    ensures Abandoned(r.states[k]) && multiset(Stranded(r.states[k])) == multiset(Stranded(r.states[j]))
    ensures r.states[k].accepted == r.states[j].accepted && Handed(r.states[k].gens) == Handed(r.states[j].gens)
  {
    StaysAbandoned(n, r, j, k);
    ConservedInRun(n, r, j);
    ConservedInRun(n, r, k);
    SameOnTheWay(r.states[j], r.states[k]);
  }

  lemma SameOnTheWay(s: State, s': State)
    requires Conserved(s) && Conserved(s') && s'.accepted == s.accepted && Handed(s'.gens) == Handed(s.gens)
    ensures multiset(OnTheWay(s')) == multiset(OnTheWay(s))
  {
    forall m: Message ensures multiset(OnTheWay(s'))[m] == multiset(OnTheWay(s))[m] {
      TimesOnTheWay(s, m);
      TimesOnTheWay(s', m);
    }
  }

  lemma ConservedInRun(n: nat, r: Run, j: nat)
    requires IsRunFromStart(n, r) && j < |r.states|
    ensures Conserved(r.states[j])
  {
    NothingToConserve(n);
    RunConserves(r, j);
  }

  // ----- All losses. -----

  /** All that a run has lost. */
  ghost function AllLost(s: State): seq<Message> {
    Concat(Lost(s.gens)) + Stranded(s)
  }

  /**
   * Conservation, with all losses named: in every reachable state the accepted messages are exactly those on the way of
   * which somebody may still take some, in flight, on the wires, and lost.
   */
  lemma {:induction false} EveryAcceptedMessageIsSomewhereOrLost(n: nat, r: Run, j: nat)
    requires IsRunFromStart(n, r) && j < |r.states|
    ensures var s := r.states[j];
      multiset(s.accepted) ==
        multiset(Waiting(s)) + multiset(Concat(InFlight(s.gens))) + multiset(Concat(Written(s.gens)))
        + multiset(AllLost(s))
  {
    EveryAcceptedMessageIsSomewhere(n, r, j);
    WaitingOrStranded(r.states[j]);
  }

  lemma WaitingOrStranded(s: State)
    ensures multiset(s.outgoing) + multiset(s.retry) + multiset(Concat(Hands(s.gens)))
         == multiset(Waiting(s)) + multiset(Stranded(s))
    ensures multiset(AllLost(s)) == multiset(Concat(Lost(s.gens))) + multiset(Stranded(s))
  {
    assert multiset(OnTheWay(s)) == multiset(s.retry) + multiset(s.outgoing) + multiset(Concat(Hands(s.gens)));
  }

  /**
   * Exactly when a run has lost nothing: no write of a message failed, no keep-alive's write task ended with a message in
   * its queue, and no event stranded a message.
   */
  lemma {:induction false} NothingIsLostIff(n: nat, r: Run, j: nat)
    requires IsRunFromStart(n, r) && j < |r.states|
    ensures AllLost(r.states[j]) == [] <==>
      && (forall g {:trigger NeverLoses(r, j, g)} :: 0 <= g < |r.states[j].gens| ==> NeverLoses(r, j, g))
      && NeverStrands(r, j)
  {
    RunIsLosslessIff(n, r, j);
    StrandedIff(n, r, j);
  }

  /** No event is enabled any more, of any user or task. */
  ghost predicate AtRest(s: State) {
    forall e :: !Enabled(s, e)
  }

  lemma GenerationAtRest(s: State, g: nat)
    requires Valid(s) && AtRest(s) && g < |s.gens| && !InnerAlive(s)
    ensures s.gens[g].keepAlive.writer.Ended? && TakesNoMore(s.gens[g].write)
  {
    var gen := s.gens[g];
    assert GenValid(gen);
    KeepAliveAtRest(s, g);
    assert !Enabled(s, Write(g, Refused)) && !Enabled(s, Write(g, TakeRetry)) && !Enabled(s, Write(g, TakeOutgoing));
    assert !Enabled(s, Write(g, OutgoingClosed));
  }

  lemma KeepAliveAtRest(s: State, g: nat)
    requires AtRest(s) && g < |s.gens|
    ensures s.gens[g].keepAlive.writer.Ended?
  {
    var k := s.gens[g].keepAlive;
    assert !Enabled(s, KeepAlive(g, K.WriteDone)) && !Enabled(s, KeepAlive(g, K.WriterRaises));
    assert !Enabled(s, KeepAlive(g, K.SocketClosed(true))) && !Enabled(s, KeepAlive(g, K.WriterDisconnected));
    assert !Enabled(s, KeepAlive(g, K.WriterReceived)) && !Enabled(s, KeepAlive(g, K.PingDue));
    assert !Enabled(s, KeepAlive(g, K.WriterChannelClosed));
  }

  lemma RestIsAbandoned(s: State)
    requires Valid(s) && AtRest(s)
    ensures Abandoned(s) && Concat(InFlight(s.gens)) == []
  {
    assert !Enabled(s, User(UserEvent.Close));
    forall g: nat | g < |s.gens| ensures !s.gens[g].read.Redialing? {
      assert !Enabled(s, Read(g, RedialSucceeds));
    }
    forall g: nat | g < |s.gens| ensures s.gens[g].keepAlive.writer.Ended? && TakesNoMore(s.gens[g].write) {
      GenerationAtRest(s, g);
    }
    ConcatAllEmpty(InFlight(s.gens));
  }

  /** The losses are complete: when nothing can happen any more, every accepted message is on a wire or counted as lost. */
  lemma {:induction false} RunsAtRestAreAccountedFor(n: nat, r: Run, j: nat)
    requires IsRunFromStart(n, r) && j < |r.states| && AtRest(r.states[j])
    ensures var s := r.states[j]; multiset(s.accepted) == multiset(Concat(Written(s.gens))) + multiset(AllLost(s))
  {
    EveryAcceptedMessageIsSomewhereOrLost(n, r, j);
    RunKeepsValid(r, j);
    RestIsAbandoned(r.states[j]);
  }

  // ----- The bound on all losses. -----

  predicate IsGone(gen: Generation) {
    HasLeft(gen.write) && gen.keepAlive.writer.Ended?
  }

  /** Only a loop whose keep-alive has ended requeues; and what is in the retry slot was put there by one. */
  ghost predicate RequeuesAreRefusals(s: State) {
    && (forall g :: 0 <= g < |s.gens| && s.gens[g].write.Requeuing? ==> s.gens[g].keepAlive.writer.Ended?)
    && (s.retry != [] ==> exists g :: 0 <= g < |s.gens| && IsGone(s.gens[g]))
  }

  lemma EndedStaysEnded(s: State, e: Event, g: nat)
    requires g < |s.gens| && Enabled(s, e) && s.gens[g].keepAlive.writer.Ended?
    ensures g < |Apply(s, e).gens| && Apply(s, e).gens[g].keepAlive.writer.Ended?
  {
    StepRefinesKeepAlive(s, e, g);
  }

  lemma WriteLoopsGoOnly(s: State, e: Event, g: nat)
    requires g < |s.gens| && Enabled(s, e)
    ensures g < |Apply(s, e).gens|
    ensures HasLeft(s.gens[g].write) ==> HasLeft(Apply(s, e).gens[g].write)
    ensures Apply(s, e).gens[g].write.Requeuing? ==>
      s.gens[g].write.Requeuing? || (e == Write(g, Refused) && s.gens[g].keepAlive.writer.Ended?)
  {
    match e
    case User(_) =>
    case Write(h, w) => WriteRefinesKeepAlive(s, h, w);
    case Read(h, r) => ReadLeavesWritingAlone(s, h, r);
    case KeepAlive(_, _) =>
  }

  lemma RetryStep(s: State, e: Event)
    requires Enabled(s, e)
    ensures s.retry == [] && !(e.Write? && e.write.Requeued?) ==> Apply(s, e).retry == []
  {
  }

  lemma RequeuingIsRefused(s: State, e: Event, g: nat)
    requires Enabled(s, e) && g < |s.gens| && (s.gens[g].write.Requeuing? ==> s.gens[g].keepAlive.writer.Ended?)
    ensures g < |Apply(s, e).gens|
    ensures Apply(s, e).gens[g].write.Requeuing? ==> Apply(s, e).gens[g].keepAlive.writer.Ended?
  {
    WriteLoopsGoOnly(s, e, g);
    if s.gens[g].keepAlive.writer.Ended? {
      EndedStaysEnded(s, e, g);
    }
  }

  lemma StepKeepsRefusals(s: State, e: Event)
    requires RequeuesAreRefusals(s) && Enabled(s, e) && |s.retry| <= 1
    ensures RequeuesAreRefusals(Apply(s, e))
  {
    var s' := Apply(s, e);
    StepInstalls(s, e);
    forall g | 0 <= g < |s'.gens| ensures s'.gens[g].write.Requeuing? ==> s'.gens[g].keepAlive.writer.Ended? {
      if g < |s.gens| {
        RequeuingIsRefused(s, e, g);
      } else {
        var p :| s'.gens[g] == NewGeneration(p);
      }
    }
    if s'.retry != [] {
      GoneAfter(s, e);
    }
  }

  lemma GoneAfter(s: State, e: Event)
    requires RequeuesAreRefusals(s) && Enabled(s, e) && |s.retry| <= 1 && Apply(s, e).retry != []
    ensures exists g :: 0 <= g < |Apply(s, e).gens| && IsGone(Apply(s, e).gens[g])
  {
    if e.Write? && e.write.Requeued? {
      WriteRefinesKeepAlive(s, e.gen, e.write);
      assert IsGone(Apply(s, e).gens[e.gen]);
    } else {
      RetryStep(s, e);
      var g :| 0 <= g < |s.gens| && IsGone(s.gens[g]);
      WriteLoopsGoOnly(s, e, g);
      EndedStaysEnded(s, e, g);
      assert IsGone(Apply(s, e).gens[g]);
    }
  }

  lemma RunStepKeepsRefusals(r: Run, j: nat)
    requires IsRun(r) && j < |r.events| && Valid(r.states[j]) && RequeuesAreRefusals(r.states[j])
    ensures RequeuesAreRefusals(r.states[j + 1])
  {
    assert IsStep(r.states[j], r.events[j], r.states[j + 1]);
    StepKeepsRefusals(r.states[j], r.events[j]);
  }

  lemma {:induction false} RunKeepsRefusals(n: nat, r: Run, j: nat)
    requires IsRunFromStart(n, r) && j < |r.states|
    ensures RequeuesAreRefusals(r.states[j])
    decreases j
  {
    if j > 0 {
      RunKeepsRefusals(n, r, j - 1);
      RunKeepsValid(r, j - 1);
      RunStepKeepsRefusals(r, j - 1);
    }
  }

  /** A loop that holds a message to requeue, and one that put its message into the retry slot, each cost a keep-alive. */
  lemma {:induction false} HandsAndGone(gens: seq<Generation>)
    requires forall g :: 0 <= g < |gens| ==>
      TakesNoMore(gens[g].write) && (gens[g].write.Requeuing? ==> gens[g].keepAlive.writer.Ended?)
    ensures |Concat(Hands(gens))| <= Finished(gens)
    ensures (exists g :: 0 <= g < |gens| && IsGone(gens[g])) ==> |Concat(Hands(gens))| + 1 <= Finished(gens)
  {
    if gens != [] {
      var n := |gens| - 1;
      HandsAndGone(gens[..n]);
      assert Hands(gens)[..n] == Hands(gens[..n]);
      if g :| 0 <= g < |gens| && IsGone(gens[g]) && g < n {
        assert IsGone(gens[..n][g]);
      }
    }
  }

  lemma StrandedIsBounded(s: State)
    requires QueuesValid(s) && RequeuesAreRefusals(s)
    ensures |Stranded(s)| <= Finished(s.gens) + 1
  {
    if Abandoned(s) {
      HandsAndGone(s.gens);
    }
  }

  /** The bound on all losses: three messages per finished keep-alive, and one in the outgoing channel. */
  lemma {:induction false} AllLossesAreBounded(n: nat, r: Run, j: nat)
    requires IsRunFromStart(n, r) && j < |r.states|
    ensures |AllLost(r.states[j])| <= 3 * Finished(r.states[j].gens) + 1
  {
    AtMostTwoLostPerFinishedKeepAlive(n, r, j);
    RunKeepsValid(r, j);
    RunKeepsRefusals(n, r, j);
    StrandedIsBounded(r.states[j]);
  }
}
