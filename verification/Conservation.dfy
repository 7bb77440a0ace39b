/**
 * Where every accepted message is, in every interleaving, with any number of overlapping generations. Losses here are
 * those of keep-alives; messages left in channels that nobody reads any more are the subject of `Stranding`.
 */
module Conservation {
  import opened Messages
  import opened ReconnectingProtocol
  import K = KeepAliveProtocol

  function HandOf(w: WriteLoop): seq<Message> {
    match w
    case Forwarding(m) => [m]
    case Requeuing(m) => [m]
    case _ => []
  }

  /** Per generation: the message in the write loop's hand, and what the keep-alive accepted, wrote, holds, lost. */
  function Hands(gens: seq<Generation>): seq<seq<Message>> {
    seq(|gens|, i requires 0 <= i < |gens| => HandOf(gens[i].write))
  }

  function Handed(gens: seq<Generation>): seq<seq<Message>> {
    seq(|gens|, i requires 0 <= i < |gens| => gens[i].keepAlive.accepted)
  }

  function Written(gens: seq<Generation>): seq<seq<Message>> {
    seq(|gens|, i requires 0 <= i < |gens| => Payload(gens[i].keepAlive.wire))
  }

  function InFlight(gens: seq<Generation>): seq<seq<Message>> {
    seq(|gens|, i requires 0 <= i < |gens| => K.InFlight(gens[i].keepAlive))
  }

  function Lost(gens: seq<Generation>): seq<seq<Message>> {
    seq(|gens|, i requires 0 <= i < |gens| => K.Lost(gens[i].keepAlive))
  }

  /** The number of keep-alives whose write task has left its loop. */
  function Finished(gens: seq<Generation>): nat {
    if gens == [] then 0
    else
      Finished(gens[..|gens| - 1]) + if K.InLoop(gens[|gens| - 1].keepAlive.writer) then 0 else 1
  }

  ghost function Times(ms: seq<Message>, m: Message): nat {
    multiset(ms)[m]
  }

  ghost function Located(s: State, m: Message): nat {
    Times(s.outgoing, m) + Times(s.retry, m) + Times(Concat(Hands(s.gens)), m) + Times(Concat(Handed(s.gens)), m)
  }

  ghost predicate Conserved(s: State) {
    forall m :: Times(s.accepted, m) == Located(s, m)
  }

  /** Replacing one generation changes the two totals by what that generation holds. */
  lemma ReplaceGeneration(gens: seq<Generation>, g: nat, gen: Generation, m: Message)
    requires g < |gens|
    ensures var gens' := gens[g := gen];
      && Times(Concat(Hands(gens')), m) + Times(HandOf(gens[g].write), m)
         == Times(Concat(Hands(gens)), m) + Times(HandOf(gen.write), m)
      && Times(Concat(Handed(gens')), m) + Times(gens[g].keepAlive.accepted, m)
         == Times(Concat(Handed(gens)), m) + Times(gen.keepAlive.accepted, m)
  {
    var gens' := gens[g := gen];
    assert Hands(gens') == Hands(gens)[g := HandOf(gen.write)];
    ConcatExchange(Hands(gens), g, HandOf(gen.write));
    assert Handed(gens') == Handed(gens)[g := gen.keepAlive.accepted];
    ConcatExchange(Handed(gens), g, gen.keepAlive.accepted);
    var a, b := multiset(Concat(Hands(gens'))) + multiset(HandOf(gens[g].write)),
                multiset(Concat(Hands(gens))) + multiset(HandOf(gen.write));
    assert a[m] == b[m];
    var c, d := multiset(Concat(Handed(gens'))) + multiset(gens[g].keepAlive.accepted),
                multiset(Concat(Handed(gens))) + multiset(gen.keepAlive.accepted);
    assert c[m] == d[m];
  }

  lemma AddGeneration(gens: seq<Generation>, p: Option<nat>)
    ensures Concat(Hands(gens + [NewGeneration(p)])) == Concat(Hands(gens))
    ensures Concat(Handed(gens + [NewGeneration(p)])) == Concat(Handed(gens))
  {
    var gens' := gens + [NewGeneration(p)];
    assert Hands(gens') == Hands(gens) + [[]];
    ConcatAppend(Hands(gens), []);
    assert Handed(gens') == Handed(gens) + [[]];
    ConcatAppend(Handed(gens), []);
  }

  lemma TimesOfSum(a: seq<Message>, b: seq<Message>, m: Message)
    ensures Times(a + b, m) == Times(a, m) + Times(b, m)
  {
    assert multiset(a + b) == multiset(a) + multiset(b);
  }

  lemma WriteTouchesOneGeneration(s: State, g: nat, w: WriteEvent)
    requires g < |s.gens| && WriteEnabled(s, g, w)
    ensures var s' := WriteApply(s, g, w);
      && |s'.gens| == |s.gens| && s'.gens == s.gens[g := s'.gens[g]]
      && s'.accepted == s.accepted
  {
  }

  /** The four places a write loop moves messages between. */
  datatype Places = Places(outgoing: seq<Message>, retry: seq<Message>, hand: seq<Message>, handed: seq<Message>)

  function PlacesOf(s: State, g: nat): Places
    requires g < |s.gens|
  {
    Places(s.outgoing, s.retry, HandOf(s.gens[g].write), s.gens[g].keepAlive.accepted)
  }

  /** One step of a write loop moves nothing, or exactly one message one place on (or back to the retry slot). */
  ghost predicate OneMove(p: Places, p': Places) {
    || p' == p
    || (p.hand == [] && p' == p.(retry := [], hand := p.retry))
    || (p.hand == [] && p.retry == [] && p' == p.(outgoing := [], hand := p.outgoing))
    || p' == p.(hand := [], handed := p.handed + p.hand)
    || (p.retry == [] && p' == p.(hand := [], retry := p.hand))
  }

  lemma WriteMoves(s: State, g: nat, w: WriteEvent)
    requires |s.outgoing| <= 1 && |s.retry| <= 1 && g < |s.gens| && WriteEnabled(s, g, w)
    ensures |WriteApply(s, g, w).gens| == |s.gens|
    ensures OneMove(PlacesOf(s, g), PlacesOf(WriteApply(s, g, w), g))
  {
    match w
    case TakeRetry => assert s.retry == [s.retry[0]];
    case TakeOutgoing => assert s.outgoing == [s.outgoing[0]];
    case _ =>
  }

  ghost function TimesIn(p: Places, m: Message): nat {
    Times(p.outgoing, m) + Times(p.retry, m) + Times(p.hand, m) + Times(p.handed, m)
  }

  lemma OneMoveConserves(p: Places, p': Places, m: Message)
    requires OneMove(p, p')
    ensures TimesIn(p', m) == TimesIn(p, m)
  {
    TimesOfSum(p.handed, p.hand, m);
  }

  /** A move between the places of one generation keeps every message located. */
  lemma MoveConserves(s: State, s': State, g: nat, m: Message)
    requires g < |s.gens| && |s'.gens| == |s.gens| && s'.gens == s.gens[g := s'.gens[g]] && s'.accepted == s.accepted
    requires OneMove(PlacesOf(s, g), PlacesOf(s', g)) && Times(s.accepted, m) == Located(s, m)
    ensures Times(s'.accepted, m) == Located(s', m)
  {
    OneMoveConserves(PlacesOf(s, g), PlacesOf(s', g), m);
    ReplaceGeneration(s.gens, g, s'.gens[g], m);
  }

  lemma WriteConserves(s: State, g: nat, w: WriteEvent)
    requires Valid(s) && Conserved(s) && g < |s.gens| && WriteEnabled(s, g, w)
    ensures Conserved(WriteApply(s, g, w))
  {
    var s' := WriteApply(s, g, w);
    WriteMoves(s, g, w);
    WriteTouchesOneGeneration(s, g, w);
    forall m ensures Times(s'.accepted, m) == Located(s', m) {
      MoveConserves(s, s', g, m);
    }
  }

  lemma UnmovedConserves(s: State, s': State)
    requires Conserved(s) && s'.accepted == s.accepted && s'.outgoing == s.outgoing && s'.retry == s.retry
    requires Concat(Hands(s'.gens)) == Concat(Hands(s.gens))
    requires Concat(Handed(s'.gens)) == Concat(Handed(s.gens))
    ensures Conserved(s')
  {
    forall m ensures Times(s'.accepted, m) == Located(s', m) {
      assert Times(s.accepted, m) == Located(s, m);
    }
  }

  /** Queues, write loops and acceptances are as before; at most, a new generation is there. */
  ghost predicate LeavesWritingAlone(s: State, s': State) {
    && s'.outgoing == s.outgoing && s'.retry == s.retry && s'.accepted == s.accepted
    && InstallsAtMostOne(s, s')
    && forall i :: 0 <= i < |s.gens| ==>
         s'.gens[i].write == s.gens[i].write && s'.gens[i].keepAlive.accepted == s.gens[i].keepAlive.accepted
  }

  lemma ReadLeavesWritingAlone(s: State, g: nat, r: ReadEvent)
    requires g < |s.gens| && ReadEnabled(s, g, r)
    ensures LeavesWritingAlone(s, ReadApply(s, g, r))
  {
    ReadInstalls(s, g, r);
  }

  lemma TaskAcceptsNothing(k: K.KeepAlive, e: K.Event)
    requires IsTaskEvent(e) && K.Enabled(k, e)
    ensures K.Apply(k, e).accepted == k.accepted
  {
  }

  lemma KeepAliveLeavesWritingAlone(s: State, g: nat, k: K.Event)
    requires Enabled(s, KeepAlive(g, k))
    ensures LeavesWritingAlone(s, Apply(s, KeepAlive(g, k)))
  {
    TaskAcceptsNothing(s.gens[g].keepAlive, k);
  }

  lemma UserLeavesWritingAlone(s: State, u: UserEvent)
    requires UserEnabled(s, u) && !u.Accept?
    ensures LeavesWritingAlone(s, UserApply(s, u))
  {
    UserInstalls(s, u);
  }

  /** Every step but a write loop's and an acceptance. */
  lemma OthersLeaveWritingAlone(s: State, e: Event)
    requires Enabled(s, e) && !e.Write? && !(e.User? && e.user.Accept?)
    ensures LeavesWritingAlone(s, Apply(s, e))
  {
    match e
    case User(u) => UserLeavesWritingAlone(s, u);
    case Read(g, r) => ReadLeavesWritingAlone(s, g, r);
    case KeepAlive(g, k) => KeepAliveLeavesWritingAlone(s, g, k);
  }

  lemma NothingMoved(s: State, s': State)
    requires LeavesWritingAlone(s, s')
    ensures Concat(Hands(s'.gens)) == Concat(Hands(s.gens))
    ensures Concat(Handed(s'.gens)) == Concat(Handed(s.gens))
  {
    var n := |s.gens|;
    assert Hands(s'.gens[..n]) == Hands(s.gens);
    assert Handed(s'.gens[..n]) == Handed(s.gens);
    if |s'.gens| > n {
      var p :| s'.gens[n] == NewGeneration(p);
      assert s'.gens == s'.gens[..n] + [NewGeneration(p)];
      AddGeneration(s'.gens[..n], p);
    } else {
      assert s'.gens == s'.gens[..n];
    }
  }

  lemma AcceptConserves(s: State, x: Message)
    requires Conserved(s) && UserEnabled(s, Accept(x))
    ensures Conserved(UserApply(s, Accept(x)))
  {
    var s' := UserApply(s, Accept(x));
    forall m ensures Times(s'.accepted, m) == Located(s', m) {
      assert Times(s.accepted, m) == Located(s, m);
      TimesOfSum(s.accepted, [x], m);
    }
  }

  lemma StepConserves(s: State, e: Event)
    requires Valid(s) && Conserved(s) && Enabled(s, e)
    ensures Conserved(Apply(s, e))
  {
    if e.Write? {
      WriteConserves(s, e.gen, e.write);
    } else if e.User? && e.user.Accept? {
      AcceptConserves(s, e.user.message);
    } else {
      OthersLeaveWritingAlone(s, e);
      NothingMoved(s, Apply(s, e));
      UnmovedConserves(s, Apply(s, e));
    }
  }

  lemma NothingToConserve(n: nat)
    ensures Conserved(Initial(n))
  {
    forall m ensures Times(Initial(n).accepted, m) == Located(Initial(n), m) {
      assert Hands([]) == [] && Handed([]) == [];
    }
  }

  lemma RunStepConserves(r: Run, i: nat)
    requires IsRun(r) && i < |r.events| && Valid(r.states[i]) && Conserved(r.states[i])
    ensures Conserved(r.states[i + 1])
  {
    assert IsStep(r.states[i], r.events[i], r.states[i + 1]);
    StepConserves(r.states[i], r.events[i]);
  }

  lemma {:induction false} RunConserves(r: Run, j: nat)
    requires IsRun(r) && j < |r.states| && Valid(r.states[0]) && Conserved(r.states[0])
    ensures Conserved(r.states[j])
    decreases j
  {
    if j > 0 {
      RunConserves(r, j - 1);
      RunKeepsValid(r, j - 1);
      RunStepConserves(r, j - 1);
    }
  }

  lemma TimesOfLast(parts: seq<seq<Message>>, m: Message)
    requires parts != []
    ensures Times(Concat(parts), m) == Times(Concat(parts[..|parts| - 1]), m) + Times(parts[|parts| - 1], m)
  {
    TimesOfSum(Concat(parts[..|parts| - 1]), parts[|parts| - 1], m);
  }

  lemma TimesInKeepAlive(k: K.KeepAlive, m: Message)
    requires K.Valid(k)
    ensures Times(k.accepted, m) == Times(Payload(k.wire), m) + Times(K.InFlight(k), m) + Times(K.Lost(k), m)
  {
    K.Accounting(k);
    TimesOfSum(Payload(k.wire) + K.Lost(k), K.InFlight(k), m);
    TimesOfSum(Payload(k.wire), K.Lost(k), m);
  }

  /** An equation between the parts holds of the concatenations. */
  lemma {:induction false} TimesOfParts(all: seq<seq<Message>>, a: seq<seq<Message>>, b: seq<seq<Message>>,
                                        c: seq<seq<Message>>, m: Message)
    requires |all| == |a| == |b| == |c|
    requires forall i :: 0 <= i < |all| ==> Times(all[i], m) == Times(a[i], m) + Times(b[i], m) + Times(c[i], m)
    ensures Times(Concat(all), m) == Times(Concat(a), m) + Times(Concat(b), m) + Times(Concat(c), m)
  {
    if all != [] {
      var n := |all| - 1;
      TimesOfParts(all[..n], a[..n], b[..n], c[..n], m);
      TimesOfLast(all, m);
      TimesOfLast(a, m);
      TimesOfLast(b, m);
      TimesOfLast(c, m);
    }
  }

  /** What the keep-alives accepted is what they wrote, hold, or lost. */
  lemma HandedIsWrittenOrLost(gens: seq<Generation>, m: Message)
    requires forall i :: 0 <= i < |gens| ==> GenValid(gens[i])
    ensures Times(Concat(Handed(gens)), m)
         == Times(Concat(Written(gens)), m) + Times(Concat(InFlight(gens)), m) + Times(Concat(Lost(gens)), m)
  {
    forall i | 0 <= i < |gens|
      ensures Times(Handed(gens)[i], m)
           == Times(Written(gens)[i], m) + Times(InFlight(gens)[i], m) + Times(Lost(gens)[i], m)
    {
      TimesInKeepAlive(gens[i].keepAlive, m);
    }
    TimesOfParts(Handed(gens), Written(gens), InFlight(gens), Lost(gens), m);
  }

  /** The state form of conservation. */
  lemma ConservedEverywhere(s: State)
    requires Valid(s) && Conserved(s)
    ensures multiset(s.accepted) ==
        multiset(s.outgoing) + multiset(s.retry) + multiset(Concat(Hands(s.gens)))
        + multiset(Concat(InFlight(s.gens))) + multiset(Concat(Written(s.gens))) + multiset(Concat(Lost(s.gens)))
  {
    var all := multiset(s.outgoing) + multiset(s.retry) + multiset(Concat(Hands(s.gens)))
      + multiset(Concat(InFlight(s.gens))) + multiset(Concat(Written(s.gens))) + multiset(Concat(Lost(s.gens)));
    forall m: Message ensures multiset(s.accepted)[m] == all[m] {
      HandedIsWrittenOrLost(s.gens, m);
      assert Times(s.accepted, m) == Located(s, m);
    }
  }

  /**
   * Conservation: in every reachable state, the messages accepted into the outgoing channel are exactly
   * those in the outgoing channel, the retry slot, the write loops' hands, the keep-alives (queue and hand),
   * on the wires, and lost in keep-alives; each counted once.
   */
  lemma {:induction false} EveryAcceptedMessageIsSomewhere(n: nat, r: Run, j: nat)
    requires IsRunFromStart(n, r) && j < |r.states|
    ensures var s := r.states[j];
      multiset(s.accepted) ==
        multiset(s.outgoing) + multiset(s.retry) + multiset(Concat(Hands(s.gens)))
        + multiset(Concat(InFlight(s.gens))) + multiset(Concat(Written(s.gens))) + multiset(Concat(Lost(s.gens)))
  {
    NothingToConserve(n);
    RunConserves(r, j);
    RunKeepsValid(r, j);
    ConservedEverywhere(r.states[j]);
  }

  /** At most once: no message is on the wires more often than it was accepted, resending included. */
  lemma {:induction false} AtMostOnce(n: nat, r: Run, j: nat, m: Message)
    requires IsRunFromStart(n, r) && j < |r.states|
    ensures multiset(Concat(Written(r.states[j].gens)))[m] <= multiset(r.states[j].accepted)[m]
  {
    EveryAcceptedMessageIsSomewhere(n, r, j);
  }

  lemma {:induction false} LostIsBounded(gens: seq<Generation>)
    requires forall i :: 0 <= i < |gens| ==> GenValid(gens[i])
    ensures |Concat(Lost(gens))| <= 2 * Finished(gens)
  {
    if gens != [] {
      var n := |gens| - 1;
      LostIsBounded(gens[..n]);
      assert Lost(gens)[..n] == Lost(gens[..n]);
      K.Accounting(gens[n].keepAlive);
    }
  }

  /** Loss bound: over any run, at most two messages are lost per keep-alive whose write loop has been left. */
  lemma {:induction false} AtMostTwoLostPerFinishedKeepAlive(n: nat, r: Run, j: nat)
    requires IsRunFromStart(n, r) && j < |r.states|
    ensures |Concat(Lost(r.states[j].gens))| <= 2 * Finished(r.states[j].gens)
  {
    RunKeepsValid(r, j);
    LostIsBounded(r.states[j].gens);
  }

  /** Event `e` makes the keep-alive of generation `g` lose a message. */
  predicate LosesFrom(s: State, e: Event, g: nat) {
    e.KeepAlive? && e.gen == g && g < |s.gens| && K.Loses(s.gens[g].keepAlive, e.inner)
  }

  lemma StepLosesFromIff(s: State, e: Event, g: nat)
    requires g < |s.gens| && GenValid(s.gens[g]) && Enabled(s, e)
    ensures g < |Apply(s, e).gens|
    ensures K.Lost(Apply(s, e).gens[g].keepAlive) == [] <==> K.Lost(s.gens[g].keepAlive) == [] && !LosesFrom(s, e, g)
  {
    StepRefinesKeepAlive(s, e, g);
    match KeepAliveEvent(s, e, g)
    case None =>
    case Some(ke) => K.StepLosesIff(s.gens[g].keepAlive, ke);
  }

  /** A generation installed by this step has lost nothing, and the step is no loss. */
  lemma NewLosesNothing(s: State, e: Event, g: nat)
    requires Enabled(s, e) && |s.gens| <= g < |Apply(s, e).gens|
    ensures K.Lost(Apply(s, e).gens[g].keepAlive) == [] && !LosesFrom(s, e, g)
  {
    StepInstalls(s, e);
    var p :| Apply(s, e).gens[g] == NewGeneration(p);
  }

  /** Up to state `j`, no event made the keep-alive of generation `g` lose a message. */
  ghost predicate NeverLoses(r: Run, j: nat, g: nat)
    requires |r.states| == |r.events| + 1 && j < |r.states|
  {
    forall i {:trigger r.events[i]} :: 0 <= i < j ==> !LosesFrom(r.states[i], r.events[i], g)
  }

  /** Exactly when one generation of a run loses nothing: no failed write of a message, no message left behind. */
  lemma {:induction false} GenerationIsLosslessIff(n: nat, r: Run, j: nat, g: nat)
    requires IsRunFromStart(n, r) && j < |r.states| && g < |r.states[j].gens|
    ensures K.Lost(r.states[j].gens[g].keepAlive) == [] <==> NeverLoses(r, j, g)
    decreases j
  {
    if j > 0 {
      assert IsStep(r.states[j - 1], r.events[j - 1], r.states[j]);
      if g < |r.states[j - 1].gens| {
        GenerationIsLosslessIff(n, r, j - 1, g);
        RunKeepsValid(r, j - 1);
        StepLosesFromIff(r.states[j - 1], r.events[j - 1], g);
      } else {
        NewLosesNothing(r.states[j - 1], r.events[j - 1], g);
        NotYetThere(r, j - 1, g);
      }
    }
  }

  lemma NotYetThere(r: Run, j: nat, g: nat)
    requires IsRun(r) && j < |r.states| && |r.states[j].gens| <= g
    ensures NeverLoses(r, j, g)
  {
    forall i {:trigger r.events[i]} | 0 <= i < j ensures !LosesFrom(r.states[i], r.events[i], g) {
      GensOnlyGrow(r, i, j);
    }
  }

  lemma {:induction false} ConcatEmptyIff(parts: seq<seq<Message>>)
    ensures Concat(parts) == [] <==> forall i :: 0 <= i < |parts| ==> parts[i] == []
  {
    if parts != [] {
      var n := |parts| - 1;
      ConcatEmptyIff(parts[..n]);
      assert forall i :: 0 <= i < n ==> parts[..n][i] == parts[i];
    }
  }

  lemma LostIffSome(gens: seq<Generation>)
    ensures Concat(Lost(gens)) == [] <==> forall g :: 0 <= g < |gens| ==> K.Lost(gens[g].keepAlive) == []
  {
    var lost := Lost(gens);
    ConcatEmptyIff(lost);
    assert forall g :: 0 <= g < |gens| ==> lost[g] == K.Lost(gens[g].keepAlive);
  }

  /**
   * Exactly when no keep-alive of a whole run has lost a message, however many generations it has: no write of a message
   * failed, and no keep-alive's task ended with a message in its queue.
   */
  lemma {:induction false} RunIsLosslessIff(n: nat, r: Run, j: nat)
    requires IsRunFromStart(n, r) && j < |r.states|
    ensures Concat(Lost(r.states[j].gens)) == [] <==>
      forall g {:trigger NeverLoses(r, j, g)} :: 0 <= g < |r.states[j].gens| ==> NeverLoses(r, j, g)
  {
    LostIffSome(r.states[j].gens);
    forall g: nat | g < |r.states[j].gens|
      ensures K.Lost(r.states[j].gens[g].keepAlive) == [] <==> NeverLoses(r, j, g)
    {
      GenerationIsLosslessIff(n, r, j, g);
    }
  }
}
