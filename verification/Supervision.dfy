/**
 * Who may start a connection, and what that means for the order of incoming messages. The results are about
 * runs in which `connect` was called at most once on the handle (`dials` records every call).
 */
module Supervision {
  import opened Messages
  import opened ReconnectingProtocol
  import K = KeepAliveProtocol

  function DialingCount(dials: seq<Dial>): nat {
    if dials == [] then 0 else DialingCount(dials[..|dials| - 1]) + if dials[|dials| - 1].Dialing? then 1 else 0
  }

  function ReadingCount(gens: seq<Generation>): nat {
    if gens == [] then 0
    else ReadingCount(gens[..|gens| - 1]) + if gens[|gens| - 1].read.ReadEnded? then 0 else 1
  }

  /** The tasks that may install a connection, now or later: `connect` calls and live read loops. */
  function Supervisors(s: State): nat {
    DialingCount(s.dials) + ReadingCount(s.gens)
  }

  ghost predicate Chain(gens: seq<Generation>) {
    forall i :: 0 <= i < |gens| ==> gens[i].parent == if i == 0 then None else Some(i - 1)
  }

  ghost predicate Supervised(s: State) {
    && |s.dials| <= 1
    && (s.dials == [] || s.dials[0].Dialing? ==> s.gens == [])
    && (forall i :: 0 <= i < |s.gens| - 1 ==> s.gens[i].read.ReadEnded?)
    && Chain(s.gens)
  }

  /** What a step may do to the read loops: only the stepping loop moves, and a loop that ended stays ended. */
  lemma StepAndReadLoops(s: State, e: Event)
    requires Enabled(s, e)
    ensures var s' := Apply(s, e);
      && |s.gens| <= |s'.gens| <= |s.gens| + 1
      && (forall i :: 0 <= i < |s.gens| ==>
           && s'.gens[i].parent == s.gens[i].parent
           && (s.gens[i].read.ReadEnded? ==> s'.gens[i].read.ReadEnded?))
  {
    if e.Read? {
      ReadRefinesKeepAlive(s, e.gen, e.read);
    }
    if e.Write? {
      WriteRefinesKeepAlive(s, e.gen, e.write);
    }
  }

  /**
   * What a step does to `connect` calls and generations: a new generation is the work of the one task that installs
   * it, and that task is then done.
   */
  ghost predicate InstallerIsDone(s: State, e: Event, s': State) {
    && |s.dials| <= |s'.dials|
    && (|s'.gens| > |s.gens| ==>
         || (e.User? && e.user.DialSucceeds? && s'.gens == s.gens + [NewGeneration(None)]
             && e.user.dial < |s.dials| && s.dials[e.user.dial].Dialing?
             && s'.dials == s.dials[e.user.dial := DialEnded])
         || (e.Read? && |s'.gens| == |s.gens| + 1 && s'.gens[|s.gens|] == NewGeneration(Some(e.gen))
             && e.gen < |s.gens| && s.gens[e.gen].read.Redialing? && s'.gens[e.gen].read.ReadEnded?
             && s'.dials == s.dials))
    && (|s'.gens| == |s.gens| && |s'.dials| == |s.dials| ==>
         forall i :: 0 <= i < |s.dials| ==> s.dials[i].DialEnded? ==> s'.dials[i].DialEnded?)
    && (e.User? && e.user.Connect? ==> s'.gens == s.gens && s'.dials == s.dials + [Dialing(0)])
    && (!(e.User? && e.user.Connect?) ==> |s'.dials| == |s.dials|)
  }

  lemma UserInstallerIsDone(s: State, u: UserEvent)
    requires UserEnabled(s, u)
    ensures InstallerIsDone(s, User(u), UserApply(s, u))
  {
  }

  lemma ReadInstallerIsDone(s: State, g: nat, r: ReadEvent)
    requires g < |s.gens| && ReadEnabled(s, g, r)
    ensures InstallerIsDone(s, Read(g, r), ReadApply(s, g, r))
  {
  }

  lemma StepAndInstallers(s: State, e: Event)
    requires Enabled(s, e)
    ensures InstallerIsDone(s, e, Apply(s, e))
  {
    match e
    case User(u) => UserInstallerIsDone(s, u);
    case Write(g, w) => WriteRefinesKeepAlive(s, g, w);
    case Read(g, r) => ReadInstallerIsDone(s, g, r);
    case KeepAlive(_, _) =>
  }

  lemma StepKeepsSupervised(s: State, e: Event)
    requires Supervised(s) && Enabled(s, e) && |Apply(s, e).dials| <= 1
    ensures Supervised(Apply(s, e))
  {
    StepAndReadLoops(s, e);
    StepAndInstallers(s, e);
  }

  lemma {:induction false} DialsOnlyGrow(r: Run, i: nat, j: nat)
    requires IsRun(r) && i <= j < |r.states|
    ensures |r.states[i].dials| <= |r.states[j].dials|
  {
    if i < j {
      DialsOnlyGrow(r, i, j - 1);
      assert IsStep(r.states[j - 1], r.events[j - 1], r.states[j]);
      StepAndInstallers(r.states[j - 1], r.events[j - 1]);
    }
  }

  lemma {:induction false} RunKeepsSupervised(n: nat, r: Run, j: nat)
    requires IsRunFromStart(n, r) && j < |r.states| && |r.states[j].dials| <= 1
    ensures Supervised(r.states[j])
  {
    if j > 0 {
      DialsOnlyGrow(r, j - 1, j);
      RunKeepsSupervised(n, r, j - 1);
      assert IsStep(r.states[j - 1], r.events[j - 1], r.states[j]);
      StepKeepsSupervised(r.states[j - 1], r.events[j - 1]);
    }
  }

  lemma {:induction false} EndedLoopsDoNotCount(gens: seq<Generation>)
    requires forall i :: 0 <= i < |gens| ==> gens[i].read.ReadEnded?
    ensures ReadingCount(gens) == 0
  {
    if gens != [] {
      EndedLoopsDoNotCount(gens[..|gens| - 1]);
    }
  }

  lemma SupervisedByOne(s: State)
    requires Supervised(s)
    ensures Supervisors(s) <= 1
  {
    if s.gens != [] {
      EndedLoopsDoNotCount(s.gens[..|s.gens| - 1]);
    }
    if s.dials == [] {
    } else {
      assert s.dials[..|s.dials| - 1] == [] && s.dials[|s.dials| - 1] == s.dials[0];
      assert DialingCount([]) == 0;
      assert DialingCount(s.dials) == if s.dials[0].Dialing? then 1 else 0;
    }
  }

  /**
   * Single supervisor: at any moment at most one task, a `connect` call or a read loop, is connecting or may
   * reconnect; and each generation was started by the read loop of the one before it.
   */
  lemma {:induction false} AtMostOneSupervisor(n: nat, r: Run, j: nat)
    requires IsRunFromStart(n, r) && j < |r.states| && |r.states[j].dials| <= 1
    ensures Supervisors(r.states[j]) <= 1 && Chain(r.states[j].gens)
  {
    RunKeepsSupervised(n, r, j);
    SupervisedByOne(r.states[j]);
  }

  /** Nobody is left who could start another generation. */
  ghost predicate Resigned(s: State) {
    && (forall i :: 0 <= i < |s.dials| ==> s.dials[i].DialEnded?)
    && (forall i :: 0 <= i < |s.gens| ==> s.gens[i].read.ReadEnded? || s.gens[i].read == LeftRead(false))
  }

  lemma StepKeepsResigned(s: State, e: Event)
    requires Resigned(s) && Enabled(s, e) && |Apply(s, e).dials| == |s.dials|
    ensures Resigned(Apply(s, e)) && |Apply(s, e).gens| == |s.gens|
  {
    StepAndReadLoops(s, e);
    StepAndInstallers(s, e);
    if e.Read? {
      ReadRefinesKeepAlive(s, e.gen, e.read);
    }
  }

  /**
   * The steps that end supervision: the read loop receives a Close frame, sees the close flag raised, cannot forward an
   * item, or ends without reconnecting, as it does when the handle is gone; or a `connect` gives up.
   */
  predicate Resigns(s: State, e: Event)
    requires Enabled(s, e)
  {
    match e
    case Read(g, TakeItem) => s.gens[g].keepAlive.incoming[0] == CLOSE_ITEM
    case Read(g, ReadCloseArm) => s.close.value
    case Read(g, DeliveryFails) => true
    case Read(g, ReadEnds) => ReadStops(s, s.gens[g])
    case Read(g, RedialFails(c)) => GivesUp(s, s.gens[g].read.attempt, c)
    case User(DialFails(i, c)) => GivesUp(s, s.dials[i].attempt, c)
    case _ => false
  }

  lemma ResigningStep(s: State, e: Event)
    requires Supervised(s) && Enabled(s, e) && Resigns(s, e)
    ensures Resigned(Apply(s, e)) && |Apply(s, e).gens| == |s.gens| && |Apply(s, e).dials| == |s.dials|
  {
    if e.Read? {
      ReadRefinesKeepAlive(s, e.gen, e.read);
    }
  }

  /**
   * Once everybody has resigned (state `j`), no generation is ever started again, unless `connect` is called anew: such
   * a call adds to `dials`.
   */
  lemma {:induction false} NoGenerationAfterResigning(r: Run, j: nat, k: nat)
    requires IsRun(r) && j <= k < |r.states| && Resigned(r.states[j])
    requires |r.states[k].dials| == |r.states[j].dials|
    ensures Resigned(r.states[k]) && |r.states[k].gens| == |r.states[j].gens|
  {
    if j < k {
      DialsOnlyGrow(r, j, k - 1);
      DialsOnlyGrow(r, k - 1, k);
      NoGenerationAfterResigning(r, j, k - 1);
      assert IsStep(r.states[k - 1], r.events[k - 1], r.states[k]);
      StepKeepsResigned(r.states[k - 1], r.events[k - 1]);
    }
  }

  lemma StepResigns(s: State, e: Event, s': State)
    requires Supervised(s) && IsStep(s, e, s') && Resigns(s, e)
    ensures Resigned(s') && |s'.gens| == |s.gens| && |s'.dials| == |s.dials| == 1
  {
    ResigningStep(s, e);
  }

  /** With one `connect`, a resigning step at `j` is final: no generation is ever started again. */
  lemma {:induction false} ResignedForGood(n: nat, r: Run, j: nat, k: nat)
    requires IsRunFromStart(n, r) && j < k < |r.states| && |r.states[k].dials| <= 1
    requires Enabled(r.states[j], r.events[j]) && Resigns(r.states[j], r.events[j])
    ensures Resigned(r.states[k]) && |r.states[k].gens| == |r.states[j].gens|
  {
    DialsOnlyGrow(r, j, k);
    DialsOnlyGrow(r, j + 1, k);
    RunKeepsSupervised(n, r, j);
    StepResigns(r.states[j], r.events[j], r.states[j + 1]);
    NoGenerationAfterResigning(r, j + 1, k);
  }

  /** The items each generation put into the incoming channel. */
  function Forwards(gens: seq<Generation>): seq<seq<Item>> {
    seq(|gens|, i requires 0 <= i < |gens| => gens[i].forwarded)
  }

  ghost predicate ForwardsPrefix(gen: Generation) {
    && CLOSE_ITEM !in gen.forwarded
    && gen.forwarded <= gen.keepAlive.taken
    && |gen.keepAlive.taken| <= |gen.forwarded| + 1
    && (gen.read.Starting? || gen.read.Reading? ==> gen.forwarded == gen.keepAlive.taken)
    && (gen.read.Delivering? ==>
         gen.read.item != CLOSE_ITEM && gen.forwarded + [gen.read.item] == gen.keepAlive.taken)
  }

  lemma ReadForwards(s: State, g: nat, r: ReadEvent)
    requires g < |s.gens| && ForwardsPrefix(s.gens[g]) && ReadEnabled(s, g, r)
    ensures var s' := ReadApply(s, g, r);
      && |s.gens| <= |s'.gens| && ForwardsPrefix(s'.gens[g])
      && (!r.Delivered? ==> s'.delivered == s.delivered && s'.gens[g].forwarded == s.gens[g].forwarded)
      && (r.Delivered? ==>
           && s'.delivered == s.delivered + [s.gens[g].read.item]
           && s'.gens[g].forwarded == s.gens[g].forwarded + [s.gens[g].read.item]
           && !s.gens[g].read.ReadEnded? && |s'.gens| == |s.gens|)
  {
  }

  ghost predicate ForwardsNothing(s: State, s': State) {
    && s'.delivered == s.delivered && InstallsAtMostOne(s, s')
    && forall i :: 0 <= i < |s.gens| ==>
         && s'.gens[i].forwarded == s.gens[i].forwarded && s'.gens[i].read == s.gens[i].read
         && s'.gens[i].keepAlive.taken == s.gens[i].keepAlive.taken
  }

  lemma WriteForwardsNothing(s: State, g: nat, w: WriteEvent)
    requires g < |s.gens| && WriteEnabled(s, g, w)
    ensures ForwardsNothing(s, WriteApply(s, g, w))
  {
    WriteRefinesKeepAlive(s, g, w);
  }

  lemma UserForwardsNothing(s: State, u: UserEvent)
    requires UserEnabled(s, u)
    ensures ForwardsNothing(s, UserApply(s, u))
  {
    UserInstalls(s, u);
  }

  lemma OthersForwardNothing(s: State, e: Event)
    requires Enabled(s, e) && !e.Read?
    ensures ForwardsNothing(s, Apply(s, e))
  {
    match e
    case User(u) => UserForwardsNothing(s, u);
    case Write(g, w) => WriteForwardsNothing(s, g, w);
    case KeepAlive(_, _) =>
  }

  ghost predicate IncomingInOrder(s: State) {
    && (forall i :: 0 <= i < |s.gens| ==> ForwardsPrefix(s.gens[i]))
    && s.delivered == Concat(Forwards(s.gens))
  }

  /** A new generation has forwarded nothing. */
  lemma NothingForwarded(s: State, s': State)
    requires InstallsAtMostOne(s, s')
    requires forall i :: 0 <= i < |s.gens| ==> s'.gens[i].forwarded == s.gens[i].forwarded
    ensures Concat(Forwards(s'.gens)) == Concat(Forwards(s.gens))
  {
    if |s'.gens| > |s.gens| {
      assert Forwards(s'.gens) == Forwards(s.gens) + [[]];
      ConcatAppend(Forwards(s.gens), []);
    } else {
      assert Forwards(s'.gens) == Forwards(s.gens);
    }
  }

  lemma DeliveryExtendsLast(gens: seq<Generation>, gens': seq<Generation>, item: Item)
    requires gens != [] && |gens'| == |gens|
    requires forall i :: 0 <= i < |gens| - 1 ==> gens'[i].forwarded == gens[i].forwarded
    requires gens'[|gens| - 1].forwarded == gens[|gens| - 1].forwarded + [item]
    ensures Concat(Forwards(gens')) == Concat(Forwards(gens)) + [item]
  {
    assert Forwards(gens') == Forwards(gens)[|gens| - 1 := Forwards(gens)[|gens| - 1] + [item]];
    ConcatExtendLast(Forwards(gens), [item]);
  }

  /** Only the last generation's read loop can deliver, since all others have ended. */
  lemma ReadKeepsIncomingOrder(s: State, g: nat, r: ReadEvent)
    requires Supervised(s) && IncomingInOrder(s) && g < |s.gens| && ReadEnabled(s, g, r)
    ensures ReadApply(s, g, r).delivered == Concat(Forwards(ReadApply(s, g, r).gens))
  {
    var s' := ReadApply(s, g, r);
    ReadRefinesKeepAlive(s, g, r);
    ReadForwards(s, g, r);
    if r.Delivered? {
      DeliveryExtendsLast(s.gens, s'.gens, s.gens[g].read.item);
    } else {
      ReadInstalls(s, g, r);
      NothingForwarded(s, s');
    }
  }

  lemma ReadKeepsPrefixes(s: State, g: nat, r: ReadEvent)
    requires IncomingInOrder(s) && g < |s.gens| && ReadEnabled(s, g, r)
    ensures forall i :: 0 <= i < |ReadApply(s, g, r).gens| ==> ForwardsPrefix(ReadApply(s, g, r).gens[i])
  {
    var s' := ReadApply(s, g, r);
    ReadRefinesKeepAlive(s, g, r);
    ReadForwards(s, g, r);
    ReadInstalls(s, g, r);
    forall i | 0 <= i < |s'.gens| ensures ForwardsPrefix(s'.gens[i]) {
      if i == |s.gens| {
        var p :| s'.gens[i] == NewGeneration(p);
      } else if i != g {
        assert s'.gens[i] == s.gens[i];
      }
    }
  }

  lemma OthersKeepIncomingOrder(s: State, s': State)
    requires IncomingInOrder(s) && ForwardsNothing(s, s')
    ensures IncomingInOrder(s')
  {
    NothingForwarded(s, s');
    forall i | 0 <= i < |s'.gens| ensures ForwardsPrefix(s'.gens[i]) {
      if i < |s.gens| {
        assert ForwardsPrefix(s.gens[i]);
      } else {
        var p :| s'.gens[i] == NewGeneration(p);
      }
    }
  }

  lemma StepKeepsIncomingOrder(s: State, e: Event)
    requires Supervised(s) && IncomingInOrder(s) && Enabled(s, e)
    ensures IncomingInOrder(Apply(s, e))
  {
    if e.Read? {
      ReadKeepsIncomingOrder(s, e.gen, e.read);
      ReadKeepsPrefixes(s, e.gen, e.read);
    } else {
      OthersForwardNothing(s, e);
      OthersKeepIncomingOrder(s, Apply(s, e));
    }
  }

  lemma {:induction false} RunKeepsIncomingOrder(n: nat, r: Run, j: nat)
    requires IsRunFromStart(n, r) && j < |r.states| && |r.states[j].dials| <= 1
    ensures IncomingInOrder(r.states[j])
  {
    if j > 0 {
      DialsOnlyGrow(r, j - 1, j);
      RunKeepsSupervised(n, r, j - 1);
      RunKeepsIncomingOrder(n, r, j - 1);
      assert IsStep(r.states[j - 1], r.events[j - 1], r.states[j]);
      StepKeepsIncomingOrder(r.states[j - 1], r.events[j - 1]);
    }
  }

  /** A generation forwards a prefix of its socket's stream, without pings and pongs, cut before any Close. */
  lemma ForwardsStream(gen: Generation)
    requires GenValid(gen) && ForwardsPrefix(gen)
    ensures gen.forwarded <= CutAtClose(Passed(gen.keepAlive.stream))
    ensures |Passed(gen.keepAlive.stream)| <= |gen.forwarded| + 3
  {
    PrefixOfCut(gen.forwarded, Passed(gen.keepAlive.stream));
  }

  /**
   * Incoming order across reconnects: what users received, followed by what still waits in the incoming channel,
   * is the concatenation, in generation order, of one prefix per generation of that socket's stream with pings
   * and pongs removed and cut before any Close. At most three items per generation are not, or not yet, forwarded: one
   * in the keep-alive reader's hand, one in its queue, one in the read loop's hand.
   */
  lemma {:induction false} ReceivedOrderIsStreamOrder(n: nat, r: Run, j: nat)
    requires IsRunFromStart(n, r) && j < |r.states| && |r.states[j].dials| <= 1
    ensures var s := r.states[j];
      && s.received + s.incoming == Concat(Forwards(s.gens))
      && forall i :: 0 <= i < |s.gens| ==>
           && Forwards(s.gens)[i] <= CutAtClose(Passed(s.gens[i].keepAlive.stream))
           && |Passed(s.gens[i].keepAlive.stream)| <= |Forwards(s.gens)[i]| + 3
  {
    RunKeepsIncomingOrder(n, r, j);
    RunKeepsValid(r, j);
    var s := r.states[j];
    forall i | 0 <= i < |s.gens|
      ensures s.gens[i].forwarded <= CutAtClose(Passed(s.gens[i].keepAlive.stream))
      ensures |Passed(s.gens[i].keepAlive.stream)| <= |s.gens[i].forwarded| + 3
    {
      ForwardsStream(s.gens[i]);
    }
  }
}
