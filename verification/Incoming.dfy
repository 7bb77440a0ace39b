/**
 * What the read loops owe to the users: every item a read loop takes is handed on, unless it is a Close or nobody is left
 * to receive it, and a read loop leaves for no other reason than the program's.
 */
module Incoming {
  import opened Messages
  import opened ReconnectingProtocol
  import K = KeepAliveProtocol

  /** Once the shared part is gone, it is gone for good. */
  lemma InnerNeverReturns(s: State, e: Event)
    requires Enabled(s, e) && InnerAlive(Apply(s, e))
    ensures InnerAlive(s)
  {
    var s' := Apply(s, e);
    if !s'.handle {
      var i :| 0 <= i < |s'.gens| && s'.gens[i].read.Redialing?;
      match e
      case User(_) =>
      case Write(g, w) => WriteRefinesKeepAlive(s, g, w);
      case Read(g, r) => ReadRefinesKeepAlive(s, g, r);
      case KeepAlive(_, _) =>
    }
  }

  /** How what was forwarded follows from what was taken, by where the loop stands. */
  ghost predicate HandsOn(s: State, gen: Generation) {
    var taken, forwarded := gen.keepAlive.taken, gen.forwarded;
    && Received(Message.Close) !in forwarded
    && match gen.read
       case Delivering(item) => item != Received(Message.Close) && taken == forwarded + [item]
       case LeftRead(false) => IsSettled(s, taken, forwarded)
       case ReadEnded => IsSettled(s, taken, forwarded)
       case _ => taken == forwarded
  }

  /** Everything was forwarded, or all but a Close at the end, or all but one item for which nobody was left. */
  ghost predicate IsSettled(s: State, taken: seq<Item>, forwarded: seq<Item>) {
    || taken == forwarded
    || taken == forwarded + [Received(Message.Close)]
    || (!InnerAlive(s) && |taken| == |forwarded| + 1 && forwarded <= taken)
  }

  lemma ReadHandsOn(s: State, g: nat, r: ReadEvent)
    requires g < |s.gens| && ReadEnabled(s, g, r) && HandsOn(s, s.gens[g])
    ensures var s' := ReadApply(s, g, r);
      |s.gens| <= |s'.gens| && (InnerAlive(s) || !InnerAlive(s') ==> HandsOn(s', s'.gens[g]))
  {
    ReadRefinesKeepAlive(s, g, r);
    if r.DeliveryFails? {
      var s' := ReadApply(s, g, r);
      assert !InnerAlive(s);
      assert forall i :: 0 <= i < |s.gens| && i != g ==> s'.gens[i] == s.gens[i];
    }
  }

  /** The loops of other generations: what they handed on stays so, and a vanished `Inner` only excuses more. */
  lemma OtherHandsOn(s: State, s': State, gen: Generation, gen': Generation)
    requires HandsOn(s, gen) && (InnerAlive(s') ==> InnerAlive(s))
    requires gen'.read == gen.read && gen'.forwarded == gen.forwarded && gen'.keepAlive.taken == gen.keepAlive.taken
    ensures HandsOn(s', gen')
  {
  }

  lemma NewHandsOn(s: State, e: Event, i: nat)
    requires Enabled(s, e) && |s.gens| <= i < |Apply(s, e).gens|
    ensures HandsOn(Apply(s, e), Apply(s, e).gens[i])
  {
    StepInstalls(s, e);
    var p :| Apply(s, e).gens[i] == NewGeneration(p);
  }

  /** What a step changes in the reading of a generation it does not read for. */
  ghost predicate ReadsAlike(gen: Generation, gen': Generation) {
    gen'.read == gen.read && gen'.forwarded == gen.forwarded && gen'.keepAlive.taken == gen.keepAlive.taken
  }

  lemma WriteReadsAlike(s: State, g: nat, w: WriteEvent, i: nat)
    requires g < |s.gens| && WriteEnabled(s, g, w) && i < |s.gens|
    ensures i < |WriteApply(s, g, w).gens| && ReadsAlike(s.gens[i], WriteApply(s, g, w).gens[i])
  {
    WriteRefinesKeepAlive(s, g, w);
  }

  lemma KeepAliveReadsAlike(s: State, g: nat, k: K.Event, i: nat)
    requires Enabled(s, KeepAlive(g, k)) && i < |s.gens|
    ensures ReadsAlike(s.gens[i], Apply(s, KeepAlive(g, k)).gens[i])
  {
  }

  lemma StepHandsOn(s: State, e: Event, i: nat)
    requires Enabled(s, e) && i < |s.gens| && HandsOn(s, s.gens[i])
    ensures i < |Apply(s, e).gens| && HandsOn(Apply(s, e), Apply(s, e).gens[i])
  {
    var s' := Apply(s, e);
    if InnerAlive(s') {
      InnerNeverReturns(s, e);
    }
    match e
    case User(_) => OtherHandsOn(s, s', s.gens[i], s'.gens[i]);
    case Write(g, w) =>
      WriteReadsAlike(s, g, w, i);
      OtherHandsOn(s, s', s.gens[i], s'.gens[i]);
    case Read(g, r) =>
      ReadRefinesKeepAlive(s, g, r);
      if g == i {
        ReadHandsOn(s, g, r);
      } else {
        OtherHandsOn(s, s', s.gens[i], s'.gens[i]);
      }
    case KeepAlive(g, k) =>
      KeepAliveReadsAlike(s, g, k, i);
      OtherHandsOn(s, s', s.gens[i], s'.gens[i]);
  }

  ghost predicate AllHandOn(s: State) {
    forall i :: 0 <= i < |s.gens| ==> HandsOn(s, s.gens[i])
  }

  lemma {:induction false} StepAllHandOn(s: State, e: Event, s': State)
    requires IsStep(s, e, s') && AllHandOn(s)
    ensures AllHandOn(s')
  {
    forall i | 0 <= i < |s'.gens| ensures HandsOn(s', s'.gens[i]) {
      if i < |s.gens| {
        StepHandsOn(s, e, i);
      } else {
        NewHandsOn(s, e, i);
      }
    }
  }

  lemma RunStepAllHandOn(r: Run, j: nat)
    requires IsRun(r) && j < |r.events| && AllHandOn(r.states[j])
    ensures AllHandOn(r.states[j + 1])
  {
    StepAllHandOn(r.states[j], r.events[j], r.states[j + 1]);
  }

  /**
   * In every reachable state each read loop has forwarded all it took; or it is delivering exactly the one missing item; or
   * it has left, and the one missing item is a Close, or there was nobody left to receive it.
   */
  lemma {:induction false} EveryTakenItemIsHandedOn(n: nat, r: Run, j: nat)
    requires IsRunFromStart(n, r) && j < |r.states|
    ensures AllHandOn(r.states[j])
    decreases j
  {
    if j > 0 {
      EveryTakenItemIsHandedOn(n, r, j - 1);
      RunStepAllHandOn(r, j - 1);
    }
  }

  lemma {:induction false} CutKeeps(items: seq<Item>)
    requires Received(Message.Close) !in items
    ensures CutAtClose(items) == items && CutAtClose(items + [Received(Message.Close)]) == items
  {
    if items != [] {
      var rest := items[1..];
      CutKeeps(rest);
      assert (items + [Received(Message.Close)])[1..] == rest + [Received(Message.Close)];
      assert items == [items[0]] + rest;
    }
  }

  lemma HandedOnIsCut(s: State, gen: Generation)
    requires HandsOn(s, gen) && InnerAlive(s) && !gen.read.Delivering?
    ensures gen.forwarded == CutAtClose(gen.keepAlive.taken)
  {
    CutKeeps(gen.forwarded);
  }

  /** While the shared part lives, a loop that is not just delivering has forwarded exactly what it took before any Close. */
  lemma {:induction false} ForwardedIsTakenCutAtClose(n: nat, r: Run, j: nat, g: nat)
    requires IsRunFromStart(n, r) && j < |r.states| && g < |r.states[j].gens|
    requires InnerAlive(r.states[j]) && !r.states[j].gens[g].read.Delivering?
    ensures r.states[j].gens[g].forwarded == CutAtClose(r.states[j].gens[g].keepAlive.taken)
  {
    EveryTakenItemIsHandedOn(n, r, j);
    HandedOnIsCut(r.states[j], r.states[j].gens[g]);
  }

  /**
   * Why a read loop leaves its loop: a Close was taken, the items ended, the shared part is gone, or a raised flag is news
   * (the disconnect flag, or only then the close flag). In all other cases it goes on.
   */
  lemma LeavesOnlyIf(s: State, g: nat, r: ReadEvent)
    requires g < |s.gens| && ReadEnabled(s, g, r) && (s.gens[g].read.Reading? || s.gens[g].read.Delivering?)
    ensures |ReadApply(s, g, r).gens| == |s.gens|
    ensures var k, after := s.gens[g].keepAlive, ReadApply(s, g, r).gens[g].read;
      && (after == LeftRead(false) <==>
           || (r.TakeItem? && k.incoming[0] == Received(Message.Close))
           || r.DeliveryFails?
           || (r.ReadCloseArm? && s.close.value))
      && (after == LeftRead(true) <==>
           || r.ItemsEnd?
           || (r.ReadDisconnectArm? && (s.disconnect.value || !s.disconnect.ChangedSince(s.gens[g].readSeen.disconnect))))
      && (!after.LeftRead? ==> after == if r.TakeItem? then Delivering(k.incoming[0]) else Reading)
      && (r.ItemsEnd? ==> k.incoming == [] && k.reader.Stopped?) && (r.DeliveryFails? ==> !InnerAlive(s))
      && (r.Delivered? ==> s.incoming == []) && (r.ReadCloseArm? ==> s.close.ChangedSince(s.gens[g].readSeen.close))
  {
  }

  /** Neither the read loop of `g` nor its keep-alive's reader can do anything, unless the socket yields more. */
  ghost predicate ReadersRest(s: State, g: nat) {
    && (forall r :: !Enabled(s, Read(g, r)))
    && !Enabled(s, KeepAlive(g, K.ItemPassed)) && !Enabled(s, KeepAlive(g, K.PassRefused))
    && !Enabled(s, KeepAlive(g, K.ReaderRaises))
  }

  lemma RestingReader(s: State, g: nat)
    requires Valid(s) && g < |s.gens| && ReadersRest(s, g) && HandsOn(s, s.gens[g])
    ensures var gen := s.gens[g];
      && (gen.read.Reading? || gen.read.ReadEnded? || (gen.read.Delivering? && InnerAlive(s) && s.incoming != []))
      && (gen.read.Reading? ==> gen.forwarded == Passed(gen.keepAlive.stream))
  {
    var gen := s.gens[g];
    assert GenValid(gen);
    assert !Enabled(s, Read(g, Starts)) && !Enabled(s, Read(g, TakeItem)) && !Enabled(s, Read(g, ItemsEnd));
    assert !Enabled(s, Read(g, Delivered)) && !Enabled(s, Read(g, DeliveryFails)) && !Enabled(s, Read(g, ReadEnds));
    assert !Enabled(s, Read(g, RedialSucceeds));
  }

  /**
   * Nothing is held back: when the readers of a connection cannot go on, its read loop has ended, or it waits for users to
   * make room, or everything its socket has yielded for users has been put into the incoming channel.
   */
  lemma {:induction false} NothingIsHeldBack(n: nat, r: Run, j: nat, g: nat)
    requires IsRunFromStart(n, r) && j < |r.states| && g < |r.states[j].gens| && ReadersRest(r.states[j], g)
    ensures var s := r.states[j]; var gen := s.gens[g];
      && (gen.read.Reading? || gen.read.ReadEnded? || (gen.read.Delivering? && InnerAlive(s) && s.incoming != []))
      && (gen.read.Reading? ==> gen.forwarded == Passed(gen.keepAlive.stream))
  {
    EveryTakenItemIsHandedOn(n, r, j);
    RunKeepsValid(r, j);
    RestingReader(r.states[j], g);
  }
}
