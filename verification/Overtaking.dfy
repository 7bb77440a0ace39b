/**
 * The order in which messages reach the wires, over all connections. It needs more than orderly runs: an older keep-alive
 * may still be writing after its write loop has left. The exact condition on the moment a connection is installed is
 * proved here: without it, the protocol can go on, without another connection, to write a later message first.
 */
module Overtaking {
  import opened Messages
  import opened Watches
  import opened ReconnectingProtocol
  import opened Conservation
  import opened Ordering
  import opened Counterexamples
  import K = KeepAliveProtocol

  /** The messages a keep-alive may still write: the one in hand, and the one its select would take next. */
  function DueOf(k: K.KeepAlive): seq<Message> {
    K.Hand(k.writer)
    + if K.InLoop(k.writer) && !k.disconnect.ChangedSince(k.writerSeen) then k.outgoing else []
  }

  function Dues(gens: seq<Generation>): seq<seq<Message>> {
    seq(|gens|, i requires 0 <= i < |gens| => DueOf(gens[i].keepAlive))
  }

  /** All accepted messages that may still be written, by any generation. */
  ghost function Awaiting(s: State): multiset<Message> {
    multiset(s.outgoing) + multiset(s.retry) + multiset(Concat(Hands(s.gens))) + multiset(Concat(Dues(s.gens)))
  }

  /**
   * The `b`-th accepted message, which was not accepted before, is on a wire, while more messages may still be written
   * than were accepted after it: so one that was accepted before it.
   */
  ghost predicate IsTooEarly(s: State, b: nat) {
    && b < |s.accepted|
    && s.accepted[b] !in s.accepted[..b]
    && s.accepted[b] in Concat(Written(s.gens))
    && !(Awaiting(s) <= multiset(s.accepted[b + 1..]))
  }

  ghost predicate WrittenTooEarly(s: State) {
    exists b: nat :: IsTooEarly(s, b)
  }

  /** The write loop has left, and its keep-alive has nothing to write any more. */
  predicate IsDone(gen: Generation) {
    HasLeft(gen.write) && DueOf(gen.keepAlive) == []
  }

  /** What a caller can check before a connection is installed. */
  predicate AllDone(gens: seq<Generation>) {
    forall i :: 0 <= i < |gens| ==> IsDone(gens[i])
  }

  ghost predicate StrictlyInOrder(s: State) {
    InOrder(s) && forall i :: 0 <= i < |s.gens| - 1 ==> IsDone(s.gens[i])
  }

  predicate StrictStep(s: State, e: Event) {
    Installs(e) ==> AllDone(s.gens)
  }

  /** The protocol may go from `s` to `t` without installing a connection. */
  ghost predicate GoesOn(s: State, t: State) {
    Leads(s, t) && |t.gens| == |s.gens|
  }

  // ----- In order, nothing is overtaken. -----

  lemma {:induction false} ElementOfConcat(parts: seq<seq<Message>>, m: Message)
    ensures m in Concat(parts) <==> exists i :: 0 <= i < |parts| && m in parts[i]
  {
    if parts != [] {
      var n := |parts| - 1;
      ElementOfConcat(parts[..n], m);
      if i :| 0 <= i < |parts| && m in parts[i] && i < n {
        assert m in parts[..n][i];
      }
    }
  }

  lemma OnlyLast(parts: seq<seq<Message>>)
    requires parts != [] && forall i :: 0 <= i < |parts| - 1 ==> parts[i] == []
    ensures Concat(parts) == parts[|parts| - 1]
  {
    ConcatAllEmpty(parts[..|parts| - 1]);
  }

  /** What is written was handed to an older keep-alive, or is on the newest wire. */
  lemma WrittenIsInFront(gens: seq<Generation>, m: Message)
    requires (forall i :: 0 <= i < |gens| ==> GenValid(gens[i])) && gens != [] && m in Concat(Written(gens))
    ensures m in Concat(Handed(gens)[..|gens| - 1]) + Payload(gens[|gens| - 1].keepAlive.wire)
  {
    var older := Handed(gens)[..|gens| - 1];
    ElementOfConcat(Written(gens), m);
    ElementOfConcat(older, m);
    var i :| 0 <= i < |gens| && m in Written(gens)[i];
    if i < |gens| - 1 {
      K.Accounting(gens[i].keepAlive);
      assert m in older[i];
    }
  }

  lemma TailIsLater(front: seq<Message>, tail: seq<Message>, all: seq<Message>, b: nat)
    requires all == front + tail && b < |all| && all[b] in front
    requires all[b] !in all[..b]
    ensures multiset(tail) <= multiset(all[b + 1..])
  {
    var i :| 0 <= i < |front| && front[i] == all[b];
    assert forall j :: 0 <= j < b ==> all[j] in all[..b];
    assert all[i] == all[b];
    assert all[b + 1..] == front[b + 1..] + tail;
  }

  /** What the newest keep-alive accepted and has not written, then what is in limbo, then the outgoing channel. */
  function Tail(s: State): seq<Message>
    requires s.gens != []
  {
    var k := s.gens[|s.gens| - 1].keepAlive;
    (k.failed + K.Hand(k.writer) + k.outgoing) + Limbo(s) + s.outgoing
  }

  lemma AwaitingIsInTail(s: State)
    requires StrictlyInOrder(s) && s.gens != []
    ensures Awaiting(s) <= multiset(Tail(s))
  {
    var gen := s.gens[|s.gens| - 1];
    OnlyLast(Hands(s.gens));
    OnlyLast(Dues(s.gens));
    assert Concat(Hands(s.gens)) == HandOf(gen.write);
    assert Concat(Dues(s.gens)) == DueOf(gen.keepAlive);
    DueIsUnwritten(gen.keepAlive);
  }

  lemma DueIsUnwritten(k: K.KeepAlive)
    ensures multiset(DueOf(k)) <= multiset(k.failed + K.Hand(k.writer) + k.outgoing)
  {
  }

  lemma Reassociate(older: seq<Message>, wire: seq<Message>, rest: seq<Message>, limbo: seq<Message>, queue: seq<Message>)
    ensures (older + (wire + rest)) + limbo + queue == (older + wire) + (rest + limbo + queue)
  {
  }

  lemma AcceptedSplits(s: State)
    requires Valid(s) && InOrder(s) && s.gens != []
    ensures var n := |s.gens| - 1;
      s.accepted == (Concat(Handed(s.gens)[..n]) + Payload(s.gens[n].keepAlive.wire)) + Tail(s)
  {
    var n := |s.gens| - 1;
    var k := s.gens[n].keepAlive;
    UnwrittenIsRest(s.gens[n]);
    var older, rest := Concat(Handed(s.gens)[..n]), k.failed + K.Hand(k.writer) + k.outgoing;
    Reassociate(older, Payload(k.wire), rest, Limbo(s), s.outgoing);
  }

  lemma UnwrittenIsRest(gen: Generation)
    requires GenValid(gen)
    ensures var k := gen.keepAlive; k.accepted == Payload(k.wire) + (k.failed + K.Hand(k.writer) + k.outgoing)
  {
  }

  lemma StrictOrderIsNotTooEarly(s: State)
    requires Valid(s) && StrictlyInOrder(s)
    ensures !WrittenTooEarly(s)
  {
    forall b: nat ensures !IsTooEarly(s, b) {
      if s.gens != [] && b < |s.accepted| && s.accepted[b] in Concat(Written(s.gens)) {
        LaterCoversAwaiting(s, b);
      }
    }
  }

  lemma LaterCoversAwaiting(s: State, b: nat)
    requires Valid(s) && StrictlyInOrder(s) && s.gens != []
    requires b < |s.accepted| && s.accepted[b] in Concat(Written(s.gens))
    ensures s.accepted[b] !in s.accepted[..b] ==>
      Awaiting(s) <= multiset(s.accepted[b + 1..])
  {
    var n := |s.gens| - 1;
    WrittenIsInFront(s.gens, s.accepted[b]);
    AcceptedSplits(s);
    AwaitingIsInTail(s);
    if s.accepted[b] !in s.accepted[..b] {
      TailIsLater(Concat(Handed(s.gens)[..n]) + Payload(s.gens[n].keepAlive.wire), Tail(s), s.accepted, b);
    }
  }

  lemma DoneStaysDone(k: K.KeepAlive, e: K.Event)
    requires K.Valid(k) && DueOf(k) == [] && K.Enabled(k, e) && !e.Offer?
    ensures DueOf(K.Apply(k, e)) == []
  {
  }

  lemma DoneGenerationStaysDone(s: State, e: Event, g: nat)
    requires g < |s.gens| && GenValid(s.gens[g]) && IsDone(s.gens[g]) && Enabled(s, e)
    ensures g < |Apply(s, e).gens| && DueOf(Apply(s, e).gens[g].keepAlive) == []
  {
    StepRefinesKeepAlive(s, e, g);
    match KeepAliveEvent(s, e, g)
    case None =>
    case Some(ke) => DoneStaysDone(s.gens[g].keepAlive, ke);
  }

  lemma StepKeepsStrictOrder(s: State, e: Event)
    requires Valid(s) && StrictlyInOrder(s) && Enabled(s, e) && StrictStep(s, e)
    ensures StrictlyInOrder(Apply(s, e))
  {
    var s' := Apply(s, e);
    StepKeepsOrder(s, e);
    if Installs(e) {
      InstallingGrows(s, e);
    } else {
      OnlyInstallersInstall(s, e);
    }
    forall i | 0 <= i < |s'.gens| - 1 ensures IsDone(s'.gens[i]) {
      DoneGenerationStaysDone(s, e, i);
    }
  }

  ghost predicate IsStrictlyOrderly(r: Run)
    requires |r.states| == |r.events| + 1
  {
    forall i {:trigger r.events[i]} :: 0 <= i < |r.events| ==> StrictStep(r.states[i], r.events[i])
  }

  lemma RunStepKeepsStrictOrder(r: Run, j: nat)
    requires IsRun(r) && j < |r.events| && StrictStep(r.states[j], r.events[j])
    requires Valid(r.states[j]) && StrictlyInOrder(r.states[j])
    ensures StrictlyInOrder(r.states[j + 1])
  {
    assert IsStep(r.states[j], r.events[j], r.states[j + 1]);
    StepKeepsStrictOrder(r.states[j], r.events[j]);
  }

  lemma {:induction false} RunKeepsStrictOrder(r: Run, j: nat)
    requires IsRun(r) && IsStrictlyOrderly(r) && j < |r.states|
    requires Valid(r.states[0]) && StrictlyInOrder(r.states[0])
    ensures StrictlyInOrder(r.states[j])
    decreases j
  {
    if j > 0 {
      var e := r.events[j - 1];
      RunKeepsStrictOrder(r, j - 1);
      RunKeepsValid(r, j - 1);
      RunStepKeepsStrictOrder(r, j - 1);
    }
  }

  /**
   * FIFO on the wires: if every connection is installed only when all older write loops have left and their keep-alives
   * have nothing to write any more, then no message is ever written while one accepted before it may still be.
   */
  lemma {:induction false} StrictRunsAreNeverTooEarly(n: nat, r: Run, j: nat)
    requires IsRunFromStart(n, r) && IsStrictlyOrderly(r) && j < |r.states|
    ensures !WrittenTooEarly(r.states[j])
  {
    RunKeepsStrictOrder(r, j);
    RunKeepsValid(r, j);
    StrictOrderIsNotTooEarly(r.states[j]);
  }

  /** Without installing a connection, every step is strict. */
  lemma GoingOnIsStrict(r: Run)
    requires IsRun(r) && |r.states[|r.states| - 1].gens| == |r.states[0].gens|
    ensures IsStrictlyOrderly(r)
  {
    forall i {:trigger r.events[i]} | 0 <= i < |r.events| ensures StrictStep(r.states[i], r.events[i]) {
      GensOnlyGrow(r, 0, i);
      GensOnlyGrow(r, i + 1, |r.states| - 1);
      assert IsStep(r.states[i], r.events[i], r.states[i + 1]);
      if Installs(r.events[i]) {
        InstallingGrows(r.states[i], r.events[i]);
      }
    }
  }

  lemma InstallingGrows(s: State, e: Event)
    requires Enabled(s, e) && Installs(e)
    ensures |Apply(s, e).gens| == |s.gens| + 1
    ensures exists p :: Apply(s, e).gens[|s.gens|] == NewGeneration(p)
    ensures forall i :: 0 <= i < |s.gens| ==>
      && Apply(s, e).gens[i].write == s.gens[i].write
      && DueOf(Apply(s, e).gens[i].keepAlive) == DueOf(s.gens[i].keepAlive)
  {
    StepInstalls(s, e);
  }

  // ----- Out of order, a later message can be written first. -----

  /** The newest generation's loop and keep-alive wait for messages. */
  predicate Ready(gen: Generation) {
    && gen.write.Waiting? && gen.keepAlive.attached && gen.keepAlive.writer.Idle?
    && gen.keepAlive.outgoing == [] && !gen.keepAlive.disconnect.ChangedSince(gen.keepAlive.writerSeen)
  }

  /** The protocol went on from `o` to `s`, a message can be sent, and the newest generation is ready. */
  ghost predicate Open(o: State, s: State) {
    GoesOn(o, s) && QueuesValid(s) && s.handle && !s.close.value && s.gens != [] && Ready(s.gens[|s.gens| - 1])
  }

  /** A message is sent and accepted. */
  lemma SendOne(o: State, s: State, m: Message) returns (s': State)
    requires Open(o, s) && s.outgoing == []
    ensures Open(o, s') && s'.gens == s.gens && s'.retry == s.retry
    ensures s'.outgoing == [m] && s'.accepted == s.accepted + [m]
  {
    var s1 := Apply(s, User(StartSend(m)));
    Step(o, s, User(StartSend(m)), s1);
    s' := Apply(s1, User(Accept(m)));
    Step(o, s1, User(Accept(m)), s');
  }

  function Pending(s: State): nat {
    |s.retry| + |s.outgoing|
  }

  function NextMessage(s: State): Message
    requires Pending(s) > 0
  {
    if s.retry != [] then s.retry[0] else s.outgoing[0]
  }

  /** A generation that has taken a message up to its keep-alive's queue. */
  function Queued(gen: Generation, m: Message): Generation {
    gen.(keepAlive := gen.keepAlive.(outgoing := [m], accepted := gen.keepAlive.accepted + [m]))
  }

  lemma QueueOne(o: State, s: State) returns (s': State)
    requires Open(o, s) && Pending(s) > 0
    ensures Leads(o, s')
    ensures var n := |s.gens| - 1;
      s' == s.(retry := if s.retry != [] then [] else s.retry, outgoing := if s.retry != [] then s.outgoing else [],
               gens := s.gens[n := Queued(s.gens[n], NextMessage(s))])
  {
    var n := |s.gens| - 1;
    var take := Write(n, if s.retry != [] then TakeRetry else TakeOutgoing);
    var s1 := Apply(s, take);
    Step(o, s, take, s1);
    s' := Apply(s1, Write(n, Forwarded));
    Step(o, s1, Write(n, Forwarded), s');
  }

  /** The newest keep-alive takes the message from its queue and writes it. */
  lemma WriteQueued(o: State, s: State, gen: Generation, m: Message) returns (s': State)
    requires Leads(o, s) && s.gens != [] && Ready(gen) && s.gens[|s.gens| - 1] == Queued(gen, m)
    ensures Leads(o, s') && s' == s.(gens := s'.gens) && |s'.gens| == |s.gens|
    ensures var n := |s.gens| - 1;
      && s'.gens[..n] == s.gens[..n] && Ready(s'.gens[n])
      && s'.gens[n].keepAlive.wire == gen.keepAlive.wire + [Carried(m)]
  {
    var n := |s.gens| - 1;
    var s1 := Apply(s, KeepAlive(n, K.WriterReceived));
    Step(o, s, KeepAlive(n, K.WriterReceived), s1);
    s' := Apply(s1, KeepAlive(n, K.WriteDone));
    Step(o, s1, KeepAlive(n, K.WriteDone), s');
  }

  /** The newest loop takes the message that is next, and its keep-alive writes it. */
  lemma WriteOne(o: State, s: State) returns (s': State)
    requires Open(o, s) && Pending(s) > 0
    ensures Open(o, s') && Pending(s') == Pending(s) - 1 && s'.accepted == s.accepted
    ensures var n := |s.gens| - 1;
      && s'.gens[..n] == s.gens[..n]
      && s'.gens[n].keepAlive.wire == s.gens[n].keepAlive.wire + [Carried(NextMessage(s))]
  {
    var n := |s.gens| - 1;
    var s1 := QueueOne(o, s);
    s' := WriteQueued(o, s1, s.gens[n], NextMessage(s));
  }

  lemma {:induction false} WriteAll(o: State, s: State) returns (s': State)
    requires Open(o, s)
    ensures Open(o, s') && Pending(s') == 0 && s'.accepted == s.accepted
    ensures s'.gens[..|s.gens| - 1] == s.gens[..|s.gens| - 1]
    decreases Pending(s)
  {
    s' := s;
    if Pending(s) > 0 {
      var s1 := WriteOne(o, s);
      s' := WriteAll(o, s1);
    }
  }

  /** An older loop that has not left holds a message already, or takes one. */
  lemma OlderHolds(o: State, s: State, g: nat) returns (s': State)
    requires Open(o, s) && g < |s.gens| - 1 && !HasLeft(s.gens[g].write)
    ensures Open(o, s') && HandOf(s'.gens[g].write) != []
  {
    s' := s;
    if s.gens[g].write.Waiting? {
      if Pending(s) == 0 {
        s' := SendOne(o, s, Message.Close);
      }
      var s1 := s';
      var take := Write(g, if s1.retry != [] then TakeRetry else TakeOutgoing);
      s' := Apply(s1, take);
      Step(o, s1, take, s');
    }
  }

  lemma {:induction false} LongerThanAll(ms: seq<Message>) returns (n: nat)
    ensures forall m :: m in ms && m.Text? ==> |m.text| < n
  {
    n := 0;
    if ms != [] {
      var last := ms[|ms| - 1];
      n := LongerThanAll(ms[..|ms| - 1]);
      if last.Text? && n <= |last.text| {
        n := |last.text| + 1;
      }
    }
  }

  lemma NewMessage(ms: seq<Message>) returns (m: Message)
    ensures m !in ms
  {
    var n := LongerThanAll(ms);
    m := Text(seq(n, _ => 'a'));
  }

  /** The older generation holds a message, or its keep-alive may still write one. */
  predicate HasOpen(gen: Generation) {
    HandOf(gen.write) != [] || DueOf(gen.keepAlive) != []
  }

  lemma PartOfConcat(parts: seq<seq<Message>>, g: nat)
    requires g < |parts| && parts[g] != []
    ensures |multiset(Concat(parts))| > 0
  {
    ConcatEmptyIff(parts);
  }

  lemma OpenIsAwaiting(s: State, g: nat)
    requires g < |s.gens| && HasOpen(s.gens[g])
    ensures |Awaiting(s)| > 0
  {
    if HandOf(s.gens[g].write) != [] {
      PartOfConcat(Hands(s.gens), g);
    } else {
      PartOfConcat(Dues(s.gens), g);
    }
  }

  /** The message accepted last, and never before, is on a wire. */
  ghost predicate LatestIsWritten(s: State) {
    && s.accepted != [] && s.accepted[|s.accepted| - 1] !in s.accepted[..|s.accepted| - 1]
    && s.accepted[|s.accepted| - 1] in Concat(Written(s.gens))
  }

  lemma LatestIsTooEarly(s: State, g: nat)
    requires g < |s.gens| && HasOpen(s.gens[g]) && LatestIsWritten(s)
    ensures WrittenTooEarly(s)
  {
    OpenIsAwaiting(s, g);
    assert s.accepted[|s.accepted|..] == [];
    assert IsTooEarly(s, |s.accepted| - 1);
  }

  /** The latest message is written, and older generation `g` still has an earlier one. */
  ghost predicate Overtook(o: State, s: State, g: nat) {
    Open(o, s) && Pending(s) == 0 && g < |s.gens| - 1 && HasOpen(s.gens[g]) && LatestIsWritten(s)
  }

  /** The later message: sent now, taken by the newest loop, written while generation `g` still has an earlier one. */
  lemma LaterIsWritten(o: State, s: State, g: nat) returns (t: State)
    requires Open(o, s) && g < |s.gens| - 1 && HasOpen(s.gens[g]) && Pending(s) == 0
    ensures Overtook(o, t, g)
  {
    var n := |s.gens| - 1;
    var m := NewMessage(s.accepted);
    var s1 := SendOne(o, s, m);
    t := WriteOne(o, s1);
    PayloadAppend(s1.gens[n].keepAlive.wire, Carried(m));
    assert m in Written(t.gens)[n];
    ElementOfConcat(Written(t.gens), m);
    assert t.gens[g] == t.gens[..n][g] == s1.gens[..n][g];
    assert t.accepted[..|s.accepted|] == s.accepted;
  }

  /** An older generation that is not done has a message open already, or its loop takes one. */
  lemma OlderOpens(o: State, s: State, g: nat) returns (s': State)
    requires Open(o, s) && g < |s.gens| - 1 && !IsDone(s.gens[g])
    ensures Open(o, s') && HasOpen(s'.gens[g])
  {
    if DueOf(s.gens[g].keepAlive) != [] {
      s' := s;
    } else {
      s' := OlderHolds(o, s, g);
    }
  }

  lemma OlderIsOvertaken(s: State, g: nat) returns (t: State)
    requires Open(s, s) && g < |s.gens| - 1 && !IsDone(s.gens[g])
    ensures Overtook(s, t, g)
  {
    var s1 := OlderOpens(s, s, g);
    var s2 := WriteAll(s, s1);
    assert s2.gens[g] == s2.gens[..|s1.gens| - 1][g] == s1.gens[..|s1.gens| - 1][g];
    t := LaterIsWritten(s, s2, g);
  }

  /**
   * The exact condition for the order on the wires. When event `e` installs a connection at the end of an orderly run, and
   * messages can still be sent: all older write loops have left, and their keep-alives have nothing to write any more, iff
   * however the protocol goes on with this connection, no message is written while one accepted before it may still be.
   */
  lemma OrderSurvivesIff(n: nat, r: Run, e: Event, s: State)
    requires IsRunFromStart(n, r) && IsOrderly(r) && Installs(e) && IsStep(r.states[|r.states| - 1], e, s)
    requires s.handle && !s.close.value
    ensures AllDone(r.states[|r.states| - 1].gens) <==> forall t :: GoesOn(s, t) ==> !WrittenTooEarly(t)
  {
    var s0 := r.states[|r.states| - 1];
    RunKeepsValid(r, |r.events|);
    RunKeepsOrder(n, r, |r.events|);
    StrictInstallKeepsOrder(s0, e);
    OtherInstallBreaksOrder(s0, e);
  }

  lemma StrictlyInOrderAfterInstall(s0: State, e: Event)
    requires Valid(s0) && InOrder(s0) && Enabled(s0, e) && Installs(e) && AllDone(s0.gens)
    ensures Valid(Apply(s0, e)) && StrictlyInOrder(Apply(s0, e))
  {
    StepKeepsStrictOrder(s0, e);
    StepKeepsValid(s0, e);
  }

  lemma StrictInstallKeepsOrder(s0: State, e: Event)
    requires Valid(s0) && InOrder(s0) && Enabled(s0, e) && Installs(e)
    ensures AllDone(s0.gens) ==> forall t :: GoesOn(Apply(s0, e), t) ==> !WrittenTooEarly(t)
  {
    var s := Apply(s0, e);
    if AllDone(s0.gens) {
      StrictlyInOrderAfterInstall(s0, e);
      forall t | GoesOn(s, t) ensures !WrittenTooEarly(t) {
        var r :| IsRun(r) && r.states[0] == s && r.states[|r.states| - 1] == t;
        GoingOnIsStrict(r);
        RunKeepsStrictOrder(r, |r.events|);
        RunKeepsValid(r, |r.events|);
        StrictOrderIsNotTooEarly(t);
      }
    }
  }

  lemma OtherInstallIsOvertaken(s0: State, e: Event) returns (g: nat, t: State)
    requires Valid(s0) && Enabled(s0, e) && Installs(e) && Apply(s0, e).handle && !Apply(s0, e).close.value
    requires !AllDone(s0.gens)
    ensures Overtook(Apply(s0, e), t, g)
  {
    var s := Apply(s0, e);
    g :| 0 <= g < |s0.gens| && !IsDone(s0.gens[g]);
    InstallingGrows(s0, e);
    StepKeepsValid(s0, e);
    Stays(s);
    t := OlderIsOvertaken(s, g);
  }

  lemma OtherInstallBreaksOrder(s0: State, e: Event)
    requires Valid(s0) && Enabled(s0, e) && Installs(e) && Apply(s0, e).handle && !Apply(s0, e).close.value
    ensures !AllDone(s0.gens) ==> exists t :: GoesOn(Apply(s0, e), t) && WrittenTooEarly(t)
  {
    if !AllDone(s0.gens) {
      var g, t := OtherInstallIsOvertaken(s0, e);
      LatestIsTooEarly(t, g);
    }
  }

  // ----- A run that is orderly, and out of order on the wires. -----

  /** Both its loops have left; the read loop dials anew, while the write still hangs. */
  function Redials(m: Message): State {
    Connected().(disconnect := Watch(3, true), accepted := [m], gens := [
      Unplugged(Hung(m)).(read := Redialing(0), write := WriteEnded, writeSeen := Seen(2, 0))])
  }

  lemma BothLoopsLeave(m: Message)
    ensures Leads(Initial(0), Redials(m))
  {
    Hangs(m);
    var o, s := Initial(0), Connected().(accepted := [m], gens := [Hung(m)]);
    var gen := Unplugged(Hung(m));
    var s1 := s.(gens := [gen]);
    Unplugs(o, s, 0, s1);
    var s2 := s.(gens := [gen.(read := LeftRead(true))]);
    Step(o, s1, Read(0, ItemsEnd), s2);
    gen := gen.(read := Redialing(0));
    var s3 := s.(disconnect := Watch(2, true), gens := [gen]);
    Step(o, s2, Read(0, ReadEnds), s3);
    gen := gen.(write := LeftWrite, writeSeen := Seen(2, 0));
    var s4 := s3.(gens := [gen]);
    Step(o, s3, Write(0, WriteDisconnectArm), s4);
    Step(o, s4, Write(0, WriteEnds), Redials(m));
  }

  /** The new connection accepts and writes the later message. */
  function Reordered(s1: State, m0: Message, m1: Message): State
    requires |s1.gens| == 2
  {
    s1.(accepted := [m0, m1], gens := [s1.gens[0], Wrote(Offered(NewGeneration(Some(0)), m1), m1)])
  }

  lemma LaterIsWrittenFirst(s1: State, m0: Message, m1: Message)
    requires |s1.gens| == 2 && s1.gens[1] == NewGeneration(Some(0)) && s1.accepted == [m0]
    requires s1.handle && !s1.close.value && s1.sending == multiset{} && s1.outgoing == [] && s1.retry == []
    ensures GoesOn(s1, Reordered(s1, m0, m1))
  {
    var gen, next := s1.gens[0], s1.gens[1];
    Stays(s1);
    var s2 := s1.(outgoing := [m1], accepted := [m0, m1]);
    Sends(s1, s1, m1, s2);
    var s3 := s1.(accepted := [m0, m1], gens := [gen, next.(write := Forwarding(m1))]);
    Takes(s1, s2, 1, m1, s3);
    var s4 := s3.(gens := [gen, Offered(next, m1)]);
    Forwards(s1, s3, 1, m1, s4);
    Writes(s1, s4, 1, m1, Reordered(s1, m0, m1));
  }

  lemma HungWriteReturns(s: State, m: Message)
    requires |s.gens| == 2 && s.gens[0].keepAlive.writer == K.Writing(Carried(m)) && s.gens[0].keepAlive.wire == []
    ensures exists t :: GoesOn(s, t) && t.accepted == s.accepted && t.gens[1] == s.gens[1]
                        && t.gens[0].keepAlive.wire == [Carried(m)]
  {
    Stays(s);
    var t := Apply(s, KeepAlive(0, K.WriteDone));
    Step(s, s, KeepAlive(0, K.WriteDone), t);
    assert t.gens[0].keepAlive.wire == [] + [Carried(m)];
  }

  /**
   * Orderly is not enough: the only connection is installed when the only older write loop has left, nothing is lost, and
   * the later message is written first.
   */
  lemma LateWriteReorders(m0: Message, m1: Message) returns (s0: State, s1: State, s: State, t: State)
    ensures Leads(Initial(0), s0) && |s0.gens| == 1
    ensures OrderlyStep(s0, Read(0, RedialSucceeds)) && IsStep(s0, Read(0, RedialSucceeds), s1)
    ensures GoesOn(s1, s) && s.accepted == [m0, m1] && Written(s.gens) == [[], [m1]]
    ensures GoesOn(s, t) && t.accepted == [m0, m1] && Written(t.gens) == [[m0], [m1]]
  {
    BothLoopsLeave(m0);
    s0 := Redials(m0);
    s1 := Apply(s0, Read(0, RedialSucceeds));
    LaterIsWrittenFirst(s1, m0, m1);
    s := Reordered(s1, m0, m1);
    HungWriteReturns(s, m0);
    OneFrame(m0);
    OneFrame(m1);
    assert s.gens[1].keepAlive.wire == [Carried(m1)];
    assert Written(s.gens) == [[], [m1]];
    t :| GoesOn(s, t) && t.accepted == s.accepted && t.gens[1] == s.gens[1]
             && t.gens[0].keepAlive.wire == [Carried(m0)];
    assert Written(t.gens) == [[m0], [m1]];
  }

  lemma OneFrame(m: Message)
    ensures Payload([Carried(m)]) == [m]
  {
    assert [] + [Carried(m)] == [Carried(m)];
    PayloadAppend([], Carried(m));
  }
}
