/**
 * The order in which messages do reach the wires. `Overtaking` speaks of messages that may still be written; here they are:
 * what is written after some message was, is what was accepted after it, iff connections are installed under the exact
 * condition found there.
 */
module WireOrder {
  import opened Messages
  import opened ReconnectingProtocol
  import opened Conservation
  import opened Ordering
  import opened Counterexamples
  import opened Overtaking
  import K = KeepAliveProtocol

  /**
   * The `b`-th accepted message, which was not accepted before, is on a wire at `t`; and from there to `u` more is written
   * than was accepted after it: so some message that was accepted before it is written after it.
   */
  ghost predicate IsWrittenLate(t: State, u: State, b: nat) {
    && b < |t.accepted| <= |u.accepted|
    && t.accepted[b] !in t.accepted[..b] && t.accepted[b] in Concat(Written(t.gens))
    && !(multiset(Concat(Written(u.gens))) <= multiset(Concat(Written(t.gens))) + multiset(u.accepted[b + 1..]))
  }

  ghost predicate OutOfOrder(t: State, u: State) {
    exists b: nat :: IsWrittenLate(t, u, b)
  }

  // ----- Nothing is written that was not waiting to be written or accepted since. -----

  /** What a generation has written, or may still write. */
  function ChanceOf(gen: Generation): seq<Message> {
    HandOf(gen.write) + DueOf(gen.keepAlive) + Payload(gen.keepAlive.wire)
  }

  function Chances(gens: seq<Generation>): seq<seq<Message>> {
    seq(|gens|, i requires 0 <= i < |gens| => ChanceOf(gens[i]))
  }

  ghost function Chance(s: State, m: Message): nat {
    Times(s.outgoing, m) + Times(s.retry, m) + Times(Concat(Chances(s.gens)), m)
  }

  lemma {:induction false} ChanceIsAwaitingOrWritten(s: State, m: Message)
    ensures Chance(s, m) == Awaiting(s)[m] + Times(Concat(Written(s.gens)), m)
  {
    var gens := s.gens;
    forall i | 0 <= i < |gens|
      ensures Times(Chances(gens)[i], m) == Times(Hands(gens)[i], m) + Times(Dues(gens)[i], m) + Times(Written(gens)[i], m)
    {
      var gen := gens[i];
      TimesOfSum(HandOf(gen.write) + DueOf(gen.keepAlive), Payload(gen.keepAlive.wire), m);
      TimesOfSum(HandOf(gen.write), DueOf(gen.keepAlive), m);
    }
    TimesOfParts(Chances(gens), Hands(gens), Dues(gens), Written(gens), m);
  }

  lemma {:induction false} ChanceAfterExchange(gens: seq<Generation>, gens': seq<Generation>, g: nat, m: Message)
    requires g < |gens| && |gens'| == |gens| && gens' == gens[g := gens'[g]]
    ensures Times(Concat(Chances(gens')), m) + Times(ChanceOf(gens[g]), m)
         == Times(Concat(Chances(gens)), m) + Times(ChanceOf(gens'[g]), m)
  {
    assert Chances(gens') == Chances(gens)[g := ChanceOf(gens'[g])];
    ConcatExchange(Chances(gens), g, ChanceOf(gens'[g]));
    var a, b := multiset(Concat(Chances(gens'))) + multiset(ChanceOf(gens[g])),
                multiset(Concat(Chances(gens))) + multiset(ChanceOf(gens'[g]));
    assert a[m] == b[m];
  }

  lemma ChanceOfNew(gens: seq<Generation>, p: Option<nat>)
    ensures Concat(Chances(gens + [NewGeneration(p)])) == Concat(Chances(gens))
  {
    assert Chances(gens + [NewGeneration(p)]) == Chances(gens) + [[]];
    ConcatAppend(Chances(gens), []);
  }

  /** The select takes the message it would take next, or a write is done; the other events write nothing. */
  lemma KeepAliveTakes(k: K.KeepAlive)
    requires K.Valid(k) && K.Enabled(k, K.WriterReceived)
    ensures DueOf(K.Apply(k, K.WriterReceived)) == DueOf(k)
  {
    assert k.outgoing == [k.outgoing[0]];
  }

  lemma KeepAliveWrites(k: K.KeepAlive)
    requires K.Enabled(k, K.WriteDone)
    ensures var k' := K.Apply(k, K.WriteDone);
      Payload(k'.wire) == Payload(k.wire) + K.Hand(k.writer) && DueOf(k) == K.Hand(k.writer) + DueOf(k')
  {
    PayloadAppend(k.wire, k.writer.frame);
  }

  lemma KeepAliveOther(k: K.KeepAlive, e: K.Event)
    requires K.Valid(k) && K.Enabled(k, e) && !e.Offer? && !e.WriterReceived? && !e.WriteDone?
    ensures var k' := K.Apply(k, e);
      && Payload(k'.wire) == Payload(k.wire)
      && (DueOf(k') == DueOf(k) || DueOf(k') == K.Hand(k.writer) || DueOf(k') == [])
  {
    if e.SocketClosed? {
      PayloadAppend(k.wire, ClosingFrame);
    }
  }

  lemma HandIsDue(k: K.KeepAlive, m: Message)
    ensures Times(K.Hand(k.writer), m) <= Times(DueOf(k), m)
  {
    TimesOfSum(K.Hand(k.writer), if K.InLoop(k.writer) && !k.disconnect.ChangedSince(k.writerSeen) then k.outgoing else [], m);
  }

  lemma {:induction false} KeepAliveChance(k: K.KeepAlive, e: K.Event, m: Message)
    requires K.Valid(k) && K.Enabled(k, e) && !e.Offer?
    ensures var k' := K.Apply(k, e);
      Times(DueOf(k'), m) + Times(Payload(k'.wire), m) <= Times(DueOf(k), m) + Times(Payload(k.wire), m)
  {
    if e.WriterReceived? {
      KeepAliveTakes(k);
    } else if e.WriteDone? {
      var k' := K.Apply(k, e);
      KeepAliveWrites(k);
      TimesOfSum(Payload(k.wire), K.Hand(k.writer), m);
      TimesOfSum(K.Hand(k.writer), DueOf(k'), m);
    } else {
      KeepAliveOther(k, e);
      HandIsDue(k, m);
    }
  }

  lemma OfferChance(k: K.KeepAlive, m0: Message, m: Message)
    requires K.Enabled(k, K.Offer(m0))
    ensures var k' := K.Apply(k, K.Offer(m0));
      && Times(DueOf(k'), m) <= Times(DueOf(k), m) + Times([m0], m) && k'.wire == k.wire
  {
  }

  lemma ChanceSplits(gen: Generation, m: Message)
    ensures Times(ChanceOf(gen), m)
         == Times(HandOf(gen.write), m) + Times(DueOf(gen.keepAlive), m) + Times(Payload(gen.keepAlive.wire), m)
  {
    TimesOfSum(HandOf(gen.write) + DueOf(gen.keepAlive), Payload(gen.keepAlive.wire), m);
    TimesOfSum(HandOf(gen.write), DueOf(gen.keepAlive), m);
  }

  /** A step of a write loop writes nothing; and only by forwarding does it change what its keep-alive has to write. */
  lemma WriteAndDue(s: State, g: nat, w: WriteEvent)
    requires g < |s.gens| && WriteEnabled(s, g, w)
    ensures var s' := WriteApply(s, g, w); |s'.gens| == |s.gens| && var k, k' := s.gens[g].keepAlive, s'.gens[g].keepAlive;
      && k'.wire == k.wire
      && (w.Forwarded? ==> HandOf(s.gens[g].write) == [s.gens[g].write.message]
                           && k'.accepted == k.accepted + [s.gens[g].write.message])
      && (!w.Forwarded? ==> DueOf(k') == DueOf(k) && k'.accepted == k.accepted)
  {
  }

  /** The chances in the channels and in the hand of one loop, around one step of it. */
  lemma WriteMovesChances(s: State, g: nat, w: WriteEvent, m: Message)
    requires |s.outgoing| <= 1 && |s.retry| <= 1 && g < |s.gens| && WriteEnabled(s, g, w)
    ensures var s' := WriteApply(s, g, w);
      && |s'.gens| == |s.gens|
      && Times(s'.outgoing, m) + Times(s'.retry, m) + Times(HandOf(s'.gens[g].write), m)
         + (if w.Forwarded? then Times(HandOf(s.gens[g].write), m) else 0)
         == Times(s.outgoing, m) + Times(s.retry, m) + Times(HandOf(s.gens[g].write), m)
  {
    var s' := WriteApply(s, g, w);
    WriteMoves(s, g, w);
    OneMoveConserves(PlacesOf(s, g), PlacesOf(s', g), m);
    WriteAndDue(s, g, w);
    if w.Forwarded? {
      TimesOfSum(s.gens[g].keepAlive.accepted, [s.gens[g].write.message], m);
    }
  }

  lemma {:induction false} WriteKeepsChance(s: State, g: nat, w: WriteEvent, m: Message)
    requires Valid(s) && g < |s.gens| && WriteEnabled(s, g, w)
    ensures Chance(WriteApply(s, g, w), m) <= Chance(s, m)
  {
    var s' := WriteApply(s, g, w);
    WriteTouchesOneGeneration(s, g, w);
    WriteMovesChances(s, g, w, m);
    WriteAndDue(s, g, w);
    ChanceAfterExchange(s.gens, s'.gens, g, m);
    ChanceSplits(s.gens[g], m);
    ChanceSplits(s'.gens[g], m);
    if w.Forwarded? {
      OfferChance(s.gens[g].keepAlive, s.gens[g].write.message, m);
    }
  }

  lemma {:induction false} KeepAliveKeepsChance(s: State, g: nat, k: K.Event, m: Message)
    requires Valid(s) && Enabled(s, KeepAlive(g, k))
    ensures Chance(Apply(s, KeepAlive(g, k)), m) <= Chance(s, m)
  {
    var s' := Apply(s, KeepAlive(g, k));
    assert GenValid(s.gens[g]);
    KeepAliveChance(s.gens[g].keepAlive, k, m);
    ChanceAfterExchange(s.gens, s'.gens, g, m);
    ChanceSplits(s.gens[g], m);
    ChanceSplits(s'.gens[g], m);
  }

  /** All chances are as before; at most, a new generation is there. */
  lemma {:induction false} SameChances(s: State, s': State, m: Message)
    requires s'.outgoing == s.outgoing && s'.retry == s.retry && InstallsAtMostOne(s, s')
    requires forall i :: 0 <= i < |s.gens| ==> ChanceOf(s'.gens[i]) == ChanceOf(s.gens[i])
    ensures Chance(s', m) == Chance(s, m)
  {
    var n := |s.gens|;
    assert Chances(s'.gens[..n]) == Chances(s.gens);
    if |s'.gens| > n {
      var p :| s'.gens[n] == NewGeneration(p);
      assert s'.gens == s'.gens[..n] + [NewGeneration(p)];
      ChanceOfNew(s'.gens[..n], p);
    } else {
      assert s'.gens == s'.gens[..n];
    }
  }

  lemma {:induction false} ReadKeepsChance(s: State, g: nat, r: ReadEvent, m: Message)
    requires g < |s.gens| && ReadEnabled(s, g, r)
    ensures Chance(ReadApply(s, g, r), m) == Chance(s, m)
  {
    ReadInstalls(s, g, r);
    ReadRefinesKeepAlive(s, g, r);
    assert ChanceOf(ReadApply(s, g, r).gens[g]) == ChanceOf(s.gens[g]);
    SameChances(s, ReadApply(s, g, r), m);
  }

  lemma {:induction false} UserKeepsChance(s: State, u: UserEvent, m: Message)
    requires UserEnabled(s, u)
    ensures var s' := UserApply(s, u);
      && s.accepted <= s'.accepted
      && Chance(s', m) == Chance(s, m) + Times(s'.accepted[|s.accepted|..], m)
  {
    var s' := UserApply(s, u);
    UserInstalls(s, u);
    if u.Accept? {
      assert s'.accepted[|s.accepted|..] == [u.message];
    } else {
      assert s'.accepted[|s.accepted|..] == [];
      SameChances(s, s', m);
    }
  }

  lemma {:induction false} StepKeepsChance(s: State, e: Event, s': State, m: Message)
    requires Valid(s) && IsStep(s, e, s')
    ensures s.accepted <= s'.accepted
    ensures Chance(s', m) <= Chance(s, m) + Times(s'.accepted[|s.accepted|..], m)
  {
    match e
    case User(u) => UserKeepsChance(s, u, m);
    case Write(g, w) => WriteKeepsChance(s, g, w, m);
    case Read(g, r) => ReadKeepsChance(s, g, r, m);
    case KeepAlive(g, k) => KeepAliveKeepsChance(s, g, k, m);
  }

  lemma RunStepKeepsChance(r: Run, j: nat, m: Message)
    requires IsRun(r) && j < |r.events| && Valid(r.states[j])
    ensures var s, s' := r.states[j], r.states[j + 1];
      s.accepted <= s'.accepted && Chance(s', m) <= Chance(s, m) + Times(s'.accepted[|s.accepted|..], m)
  {
    assert IsStep(r.states[j], r.events[j], r.states[j + 1]);
    StepKeepsChance(r.states[j], r.events[j], r.states[j + 1], m);
  }

  lemma TimesOfRest(a: seq<Message>, b: seq<Message>, c: seq<Message>, m: Message)
    requires a <= b <= c
    ensures Times(c[|a|..], m) == Times(b[|a|..], m) + Times(c[|b|..], m)
  {
    assert c[|a|..] == b[|a|..] + c[|b|..];
    TimesOfSum(b[|a|..], c[|b|..], m);
  }

  /** Over any run: what is written or may be written later was so before, or was accepted meanwhile. */
  lemma {:induction false} RunKeepsChance(r: Run, j: nat, m: Message)
    requires IsRun(r) && Valid(r.states[0]) && j < |r.states|
    ensures var s, s' := r.states[0], r.states[j];
      s.accepted <= s'.accepted && Chance(s', m) <= Chance(s, m) + Times(s'.accepted[|s.accepted|..], m)
    decreases j
  {
    if j > 0 {
      RunKeepsChance(r, j - 1, m);
      RunKeepsValid(r, j - 1);
      RunStepKeepsChance(r, j - 1, m);
      TimesOfRest(r.states[0].accepted, r.states[j - 1].accepted, r.states[j].accepted, m);
    }
  }

  lemma {:induction false} LaterIsEnoughOf(t: State, u: State, b: nat, m: Message)
    requires b < |t.accepted| && t.accepted <= u.accepted && Awaiting(t)[m] <= Times(t.accepted[b + 1..], m)
    requires Chance(u, m) <= Chance(t, m) + Times(u.accepted[|t.accepted|..], m)
    ensures Times(Concat(Written(u.gens)), m) <= Times(Concat(Written(t.gens)), m) + Times(u.accepted[b + 1..], m)
  {
    ChanceIsAwaitingOrWritten(t, m);
    ChanceIsAwaitingOrWritten(u, m);
    Rest(t.accepted, u.accepted, b + 1);
    TimesOfSum(t.accepted[b + 1..], u.accepted[|t.accepted|..], m);
  }

  lemma Rest(a: seq<Message>, b: seq<Message>, i: nat)
    requires a <= b && i <= |a|
    ensures b[i..] == a[i..] + b[|a|..]
  {
  }

  lemma {:induction false} LaterIsEnough(t: State, u: State, b: nat)
    requires b < |t.accepted| && t.accepted <= u.accepted && Awaiting(t) <= multiset(t.accepted[b + 1..])
    requires forall m :: Chance(u, m) <= Chance(t, m) + Times(u.accepted[|t.accepted|..], m)
    ensures multiset(Concat(Written(u.gens))) <= multiset(Concat(Written(t.gens))) + multiset(u.accepted[b + 1..])
  {
    var written, later := multiset(Concat(Written(u.gens))), multiset(Concat(Written(t.gens))) + multiset(u.accepted[b + 1..]);
    forall m: Message ensures written[m] <= later[m] {
      LaterIsEnoughOf(t, u, b, m);
    }
  }

  /** What is written out of order was written too early. */
  lemma {:induction false} NotTooEarlyIsInOrder(r: Run)
    requires IsRun(r) && Valid(r.states[0]) && !WrittenTooEarly(r.states[0])
    ensures !OutOfOrder(r.states[0], r.states[|r.states| - 1])
  {
    var t, u := r.states[0], r.states[|r.states| - 1];
    forall m: Message ensures t.accepted <= u.accepted && Chance(u, m) <= Chance(t, m) + Times(u.accepted[|t.accepted|..], m) {
      RunKeepsChance(r, |r.events|, m);
    }
    RunKeepsChance(r, |r.events|, Message.Close);
    forall b: nat ensures !IsWrittenLate(t, u, b) {
      if b < |t.accepted| && t.accepted[b] !in t.accepted[..b] && t.accepted[b] in Concat(Written(t.gens)) {
        assert !IsTooEarly(t, b);
        LaterIsEnough(t, u, b);
      }
    }
  }

  // ----- From where a message is overtaken, it can be written after the later one. -----

  /** One event of the keep-alive of generation `g`, which is not the newest. */
  lemma KeepAliveStep(o: State, s: State, g: nat, e: K.Event) returns (s': State)
    requires Open(o, s) && g < |s.gens| - 1 && IsTaskEvent(e) && K.Enabled(s.gens[g].keepAlive, e)
    ensures Open(o, s') && s' == s.(gens := s.gens[g := s.gens[g].(keepAlive := K.Apply(s.gens[g].keepAlive, e))])
  {
    s' := Apply(s, KeepAlive(g, e));
    Step(o, s, KeepAlive(g, e), s');
  }

  /** Only the keep-alive of generation `g` has moved, and it wrote nothing. */
  ghost predicate OnlyKeepAlive(s: State, s': State, g: nat)
    requires g < |s.gens|
  {
    && |s'.gens| == |s.gens| && s' == s.(gens := s.gens[g := s'.gens[g]])
    && s'.gens[g] == s.gens[g].(keepAlive := s'.gens[g].keepAlive)
    && s'.gens[g].keepAlive.wire == s.gens[g].keepAlive.wire
  }

  /** The write task can always be made to leave its loop without writing anything. */
  lemma LeavesLoop(o: State, s: State, g: nat) returns (s': State)
    requires Open(o, s) && g < |s.gens| - 1 && s.gens[g].keepAlive.attached
    ensures Open(o, s') && OnlyKeepAlive(s, s', g) && !K.InLoop(s'.gens[g].keepAlive.writer)
  {
    s' := s;
    var k := s.gens[g].keepAlive;
    if k.writer.Idle? {
      if k.disconnect.ChangedSince(k.writerSeen) {
        s' := KeepAliveStep(o, s, g, K.WriterDisconnected);
      } else {
        s' := KeepAliveStep(o, s, g, if k.outgoing != [] then K.WriterReceived else K.PingDue);
      }
    }
    if s'.gens[g].keepAlive.writer.Writing? {
      s' := KeepAliveStep(o, s', g, K.WriteFailed);
    }
  }

  lemma EndsTask(o: State, s: State, g: nat) returns (s': State)
    requires Open(o, s) && g < |s.gens| - 1 && !K.InLoop(s.gens[g].keepAlive.writer)
    ensures Open(o, s') && OnlyKeepAlive(s, s', g) && s'.gens[g].keepAlive.writer.Ended?
  {
    s' := s;
    if s'.gens[g].keepAlive.writer.Leaving? {
      s' := KeepAliveStep(o, s', g, K.WriterRaises);
    }
    if s'.gens[g].keepAlive.writer.ClosingSocket? {
      s' := KeepAliveStep(o, s', g, K.SocketClosed(false));
    }
  }

  /** Every wire has kept what it had, and wire `g` has more. */
  ghost predicate WroteMore(s: State, s': State, g: nat) {
    && g < |s.gens| == |s'.gens|
    && (forall i :: 0 <= i < |s.gens| ==> |Written(s.gens)[i]| <= |Written(s'.gens)[i]|)
    && |Written(s.gens)[g]| < |Written(s'.gens)[g]|
  }

  lemma {:induction false} ConcatStrictlyLonger(parts: seq<seq<Message>>, parts': seq<seq<Message>>, g: nat)
    requires g < |parts| == |parts'| && |parts[g]| < |parts'[g]|
    requires forall i :: 0 <= i < |parts| ==> |parts[i]| <= |parts'[i]|
    ensures |Concat(parts)| < |Concat(parts')|
  {
    var n := |parts| - 1;
    if g == n {
      ConcatLonger(parts[..n], parts'[..n]);
    } else {
      ConcatStrictlyLonger(parts[..n], parts'[..n], g);
    }
  }

  lemma WithinIsShorter(a: seq<Message>, b: seq<Message>)
    ensures multiset(a) <= multiset(b) ==> |a| <= |b|
  {
    if multiset(a) <= multiset(b) {
      assert multiset(b) == multiset(a) + (multiset(b) - multiset(a));
      assert |multiset(b)| == |multiset(a)| + |multiset(b) - multiset(a)|;
    }
  }

  /** The message in the older loop's hand comes back from its keep-alive, and goes to the retry slot. */
  lemma HandIsRequeued(o: State, s: State, g: nat) returns (s': State)
    requires Open(o, s) && g < |s.gens| - 1 && GenValid(s.gens[g]) && s.gens[g].write.Forwarding? && Pending(s) == 0
    ensures Open(o, s') && Pending(s') > 0 && s'.accepted == s.accepted && |s'.gens| == |s.gens|
    ensures forall i :: 0 <= i < |s.gens| ==> s'.gens[i].keepAlive.wire == s.gens[i].keepAlive.wire
  {
    var s1 := LeavesLoop(o, s, g);
    var s2 := EndsTask(o, s1, g);
    var s3 := Apply(s2, Write(g, Refused));
    Step(o, s2, Write(g, Refused), s3);
    s' := Requeues(o, s3, g);
  }

  lemma Requeues(o: State, s: State, g: nat) returns (s': State)
    requires Open(o, s) && g < |s.gens| - 1 && s.gens[g].write.Requeuing? && Pending(s) == 0
    ensures Open(o, s') && Pending(s') > 0 && s'.accepted == s.accepted && |s'.gens| == |s.gens|
    ensures forall i :: 0 <= i < |s.gens| ==> s'.gens[i].keepAlive.wire == s.gens[i].keepAlive.wire
  {
    s' := Apply(s, Write(g, Requeued));
    Step(o, s, Write(g, Requeued), s');
  }

  lemma NewestWroteMore(s: State, s1: State, u: State, m: Message)
    requires s.gens != [] && |s.gens| == |s1.gens| == |u.gens|
    requires forall i :: 0 <= i < |s.gens| ==> s1.gens[i].keepAlive.wire == s.gens[i].keepAlive.wire
    requires var n := |s.gens| - 1;
      u.gens[..n] == s1.gens[..n] && u.gens[n].keepAlive.wire == s1.gens[n].keepAlive.wire + [Carried(m)]
    ensures WroteMore(s, u, |s.gens| - 1)
  {
    var n := |s.gens| - 1;
    PayloadAppend(s1.gens[n].keepAlive.wire, Carried(m));
    assert forall i :: 0 <= i < n ==> u.gens[i] == u.gens[..n][i] == s1.gens[..n][i];
  }

  /** A message in an older loop's hand can be written, by the newest connection. */
  lemma HandIsWritten(o: State, s: State, g: nat) returns (u: State)
    requires Open(o, s) && g < |s.gens| - 1 && GenValid(s.gens[g]) && HandOf(s.gens[g].write) != [] && Pending(s) == 0
    ensures GoesOn(o, u) && u.accepted == s.accepted && WroteMore(s, u, |s.gens| - 1)
  {
    var s1;
    if s.gens[g].write.Requeuing? {
      s1 := Requeues(o, s, g);
    } else {
      s1 := HandIsRequeued(o, s, g);
    }
    u := WriteOne(o, s1);
    NewestWroteMore(s, s1, u, NextMessage(s1));
  }

  /** Only the keep-alive of generation `g` has moved, and as a sequence of messages its wire is the same. */
  ghost predicate SamePayload(s: State, s': State, g: nat)
    requires g < |s.gens|
  {
    && |s'.gens| == |s.gens| && s'.gens == s.gens[g := s'.gens[g]] && s'.accepted == s.accepted
    && Payload(s'.gens[g].keepAlive.wire) == Payload(s.gens[g].keepAlive.wire)
  }

  /** The write task comes to its select, with the message still in the queue. */
  lemma PingIsWritten(o: State, s: State, g: nat) returns (s': State)
    requires Open(o, s) && g < |s.gens| - 1
    requires var k := s.gens[g].keepAlive; DueOf(k) != [] && K.Hand(k.writer) == []
    ensures Open(o, s') && SamePayload(s, s', g)
    ensures var k := s'.gens[g].keepAlive;
      k.writer.Idle? && k.outgoing != [] && !k.disconnect.ChangedSince(k.writerSeen)
  {
    s' := s;
    if s.gens[g].keepAlive.writer.Writing? {
      s' := KeepAliveStep(o, s, g, K.WriteDone);
      PayloadAppend(s.gens[g].keepAlive.wire, s.gens[g].keepAlive.writer.frame);
    }
  }

  /** A message that an older keep-alive has to write comes into its writer's hand. */
  lemma DueIsTaken(o: State, s: State, g: nat) returns (s': State)
    requires Open(o, s) && g < |s.gens| - 1 && DueOf(s.gens[g].keepAlive) != []
    ensures Open(o, s') && SamePayload(s, s', g) && K.Hand(s'.gens[g].keepAlive.writer) != []
  {
    s' := s;
    if K.Hand(s.gens[g].keepAlive.writer) == [] {
      var s1 := PingIsWritten(o, s, g);
      s' := KeepAliveStep(o, s1, g, K.WriterReceived);
    }
  }

  /** A message that an older keep-alive has to write can be written. */
  lemma DueIsWritten(o: State, s: State, g: nat) returns (u: State)
    requires Open(o, s) && g < |s.gens| - 1 && DueOf(s.gens[g].keepAlive) != []
    ensures GoesOn(o, u) && u.accepted == s.accepted && WroteMore(s, u, g)
  {
    var s1 := DueIsTaken(o, s, g);
    u := KeepAliveStep(o, s1, g, K.WriteDone);
    PayloadAppend(s1.gens[g].keepAlive.wire, s1.gens[g].keepAlive.writer.frame);
  }

  lemma OpenFromHere(o: State, t: State)
    requires Open(o, t)
    ensures Open(t, t)
  {
    Stays(t);
  }

  /** Whatever an older generation still has can be written. */
  lemma OpenIsWritten(t: State, g: nat) returns (u: State, h: nat)
    requires Open(t, t) && Pending(t) == 0 && g < |t.gens| - 1 && GenValid(t.gens[g]) && HasOpen(t.gens[g])
    ensures GoesOn(t, u) && u.accepted == t.accepted && WroteMore(t, u, h)
  {
    if HandOf(t.gens[g].write) != [] {
      u := HandIsWritten(t, t, g);
      h := |t.gens| - 1;
    } else {
      u := DueIsWritten(t, t, g);
      h := g;
    }
  }

  /** So it goes on to write an earlier message after the latest one. */
  lemma OvertookGetsLate(o: State, t: State, g: nat) returns (u: State)
    requires Valid(t) && Overtook(o, t, g)
    ensures GoesOn(t, u) && OutOfOrder(t, u)
  {
    OpenFromHere(o, t);
    var h;
    u, h := OpenIsWritten(t, g);
    MoreIsLate(t, u, h);
  }

  lemma {:induction false} MoreIsLate(t: State, u: State, h: nat)
    requires LatestIsWritten(t) && u.accepted == t.accepted && WroteMore(t, u, h)
    ensures OutOfOrder(t, u)
  {
    ConcatStrictlyLonger(Written(t.gens), Written(u.gens), h);
    WithinIsShorter(Concat(Written(u.gens)), Concat(Written(t.gens)));
    var b := |t.accepted| - 1;
    assert multiset(Concat(Written(t.gens))) + multiset(u.accepted[b + 1..]) == multiset(Concat(Written(t.gens)));
    assert IsWrittenLate(t, u, b);
  }

  // ----- The exact condition. -----

  /** However the protocol goes on from `s` with the connections it has, messages are written in order. */
  ghost predicate WritesInOrder(s: State) {
    forall t, u :: GoesOn(s, t) && GoesOn(t, u) ==> !OutOfOrder(t, u)
  }

  lemma NotTooEarlyWritesInOrder(s: State)
    requires Valid(s) && forall t :: GoesOn(s, t) ==> !WrittenTooEarly(t)
    ensures WritesInOrder(s)
  {
    forall t, u | GoesOn(s, t) && GoesOn(t, u) ensures !OutOfOrder(t, u) {
      LeadsKeepsValid(s, t);
      var r :| IsRun(r) && r.states[0] == t && r.states[|r.states| - 1] == u;
      NotTooEarlyIsInOrder(r);
    }
  }

  lemma LeadsKeepsValid(s: State, t: State)
    requires Valid(s) && Leads(s, t)
    ensures Valid(t)
  {
    var r :| IsRun(r) && r.states[0] == s && r.states[|r.states| - 1] == t;
    RunKeepsValid(r, |r.events|);
  }

  lemma OvertakenDoesNotWriteInOrder(s0: State, e: Event)
    requires Valid(s0) && Enabled(s0, e) && Installs(e) && Apply(s0, e).handle && !Apply(s0, e).close.value
    ensures !AllDone(s0.gens) ==> !WritesInOrder(Apply(s0, e))
  {
    var s := Apply(s0, e);
    if !AllDone(s0.gens) {
      var g, t := OtherInstallIsOvertaken(s0, e);
      StepKeepsValid(s0, e);
      LeadsKeepsValid(s, t);
      var u := OvertookGetsLate(s, t, g);
    }
  }

  /**
   * The exact condition for the order on the wires, in terms of what is written. When event `e` installs a connection at
   * the end of an orderly run, and messages can still be sent: all older write loops have left, and their keep-alives have
   * nothing to write any more, iff however the protocol goes on with this connection, no message is written after one that
   * was accepted later.
   */
  lemma WritesInOrderIff(n: nat, r: Run, e: Event, s: State)
    requires IsRunFromStart(n, r) && IsOrderly(r) && Installs(e) && IsStep(r.states[|r.states| - 1], e, s)
    requires s.handle && !s.close.value
    ensures AllDone(r.states[|r.states| - 1].gens) <==> WritesInOrder(s)
  {
    var s0 := r.states[|r.states| - 1];
    RunKeepsValid(r, |r.events|);
    StepKeepsValid(s0, e);
    OvertakenDoesNotWriteInOrder(s0, e);
    if AllDone(s0.gens) {
      OrderSurvivesIff(n, r, e, s);
      NotTooEarlyWritesInOrder(s);
    }
  }
}
