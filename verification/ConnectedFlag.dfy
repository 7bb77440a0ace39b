/**
 * What `is_connected` says, and what is the case. It looks at two flags only, so it can say "connected" while the newest
 * connection has lost a loop, or before there ever was a connection. Exactly when, is proved here.
 */
module ConnectedFlag {
  import opened Messages
  import opened ReconnectingProtocol
  import opened Supervision

  /** What `is_connected` returns. */
  predicate ReportsConnected(s: State) {
    !s.close.value && !s.disconnect.value
  }

  /** Both loops of a connection are there; a read loop that dials has given its connection up. */
  predicate Lives(gen: Generation) {
    !gen.write.WriteEnded? && !gen.read.ReadEnded? && !gen.read.Redialing?
  }

  predicate NewestLives(s: State) {
    s.gens != [] && Lives(s.gens[|s.gens| - 1])
  }

  /** A handle is there to be asked, the disconnect flag is down, and there is no connection whose loops are both there. */
  predicate Misreports(s: State) {
    s.handle && !s.disconnect.value && !NewestLives(s)
  }

  /** A read loop announces its connection when the newest one is not alive any more. */
  predicate StartsTooLate(s: State, e: Event) {
    e.Read? && e.read.Starts? && s.handle && !NewestLives(s)
  }

  /** The events that end a misreport: they raise the flag, bring a connection, or take the last handle. */
  predicate Corrects(e: Event) {
    match e
    case User(u) => u.DropHandle? || u.DialSucceeds?
    case Write(_, w) => w.WriteEnds?
    case Read(_, r) => r.ReadEnds? || r.RedialSucceeds?
    case KeepAlive(_, _) => false
  }

  lemma UserMisreportsIff(s: State, u: UserEvent)
    requires UserEnabled(s, u)
    ensures Misreports(UserApply(s, u)) <==> Misreports(s) && !Corrects(User(u))
  {
  }

  lemma WriteMisreportsIff(s: State, g: nat, w: WriteEvent)
    requires g < |s.gens| && WriteEnabled(s, g, w)
    ensures Misreports(WriteApply(s, g, w)) <==> Misreports(s) && !Corrects(Write(g, w))
  {
  }

  lemma ReadMisreportsIff(s: State, g: nat, r: ReadEvent)
    requires g < |s.gens| && ReadEnabled(s, g, r)
    ensures Misreports(ReadApply(s, g, r)) <==>
      StartsTooLate(s, Read(g, r)) || (Misreports(s) && !Corrects(Read(g, r)))
  {
  }

  /** Step by step: a misreport begins with a read loop starting too late, and lasts until it is corrected. */
  lemma StepMisreportsIff(s: State, e: Event)
    requires Enabled(s, e)
    ensures Misreports(Apply(s, e)) <==> StartsTooLate(s, e) || (Misreports(s) && !Corrects(e))
  {
    match e
    case User(u) => UserMisreportsIff(s, u);
    case Write(g, w) => WriteMisreportsIff(s, g, w);
    case Read(g, r) => ReadMisreportsIff(s, g, r);
    case KeepAlive(_, _) =>
  }

  /** With one `connect`, the read loop that starts too late is that of a connection whose own write loop has ended. */
  lemma TooLateForItself(s: State, e: Event)
    requires Supervised(s) && Enabled(s, e)
    ensures StartsTooLate(s, e) <==> e.Read? && e.read.Starts? && s.handle && s.gens[e.gen].write.WriteEnded?
  {
  }

  /** A misreport begins at `j`: with the fresh handle, or with a read loop that starts too late. */
  ghost predicate BeginsAt(r: Run, j: nat)
    requires |r.states| == |r.events| + 1 && j < |r.states|
  {
    j == 0 || StartsTooLate(r.states[j - 1], r.events[j - 1])
  }

  ghost predicate Uncorrected(r: Run, j: nat, k: nat)
    requires |r.states| == |r.events| + 1 && k < |r.states|
  {
    forall i :: j <= i < k ==> !Corrects(r.events[i])
  }

  /** Some misreport has begun and has not been corrected since. */
  ghost predicate OutOfTouch(r: Run, k: nat)
    requires |r.states| == |r.events| + 1 && k < |r.states|
  {
    exists j: nat :: j <= k && BeginsAt(r, j) && Uncorrected(r, j, k)
  }

  lemma FreshHandleMisreports(n: nat, r: Run)
    requires IsRunFromStart(n, r)
    ensures Misreports(r.states[0]) && OutOfTouch(r, 0)
  {
    assert BeginsAt(r, 0) && Uncorrected(r, 0, 0);
  }

  lemma OutOfTouchStep(r: Run, k: nat)
    requires |r.states| == |r.events| + 1 && 0 < k < |r.states|
    ensures OutOfTouch(r, k) <==> BeginsAt(r, k) || (OutOfTouch(r, k - 1) && !Corrects(r.events[k - 1]))
  {
    if BeginsAt(r, k) {
      assert Uncorrected(r, k, k);
    }
    if OutOfTouch(r, k - 1) && !Corrects(r.events[k - 1]) {
      var j: nat :| j <= k - 1 && BeginsAt(r, j) && Uncorrected(r, j, k - 1);
      assert Uncorrected(r, j, k);
    }
    if OutOfTouch(r, k) && !BeginsAt(r, k) {
      var j: nat :| j <= k && BeginsAt(r, j) && Uncorrected(r, j, k);
      assert Uncorrected(r, j, k - 1);
    }
  }

  lemma RunStepMisreportsIff(r: Run, j: nat)
    requires IsRun(r) && j < |r.events|
    ensures Misreports(r.states[j + 1]) <==>
      StartsTooLate(r.states[j], r.events[j]) || (Misreports(r.states[j]) && !Corrects(r.events[j]))
  {
    assert IsStep(r.states[j], r.events[j], r.states[j + 1]);
    StepMisreportsIff(r.states[j], r.events[j]);
  }

  lemma MisreportsIffStep(r: Run, k: nat)
    requires IsRun(r) && 0 < k < |r.states|
    requires Misreports(r.states[k - 1]) <==> OutOfTouch(r, k - 1)
    ensures Misreports(r.states[k]) <==> OutOfTouch(r, k)
  {
    RunStepMisreportsIff(r, k - 1);
    OutOfTouchStep(r, k);
  }

  /**
   * Exactly when the flag misreports, in any reachable state, with any number of `connect`s: since the handle was built
   * nothing has corrected it (no connection yet, also after a `connect` that gave up), or since a read loop started too
   * late.
   */
  lemma {:induction false} MisreportsIff(n: nat, r: Run, k: nat)
    requires IsRunFromStart(n, r) && k < |r.states|
    ensures Misreports(r.states[k]) <==> OutOfTouch(r, k)
    decreases k
  {
    if k == 0 {
      FreshHandleMisreports(n, r);
    } else {
      MisreportsIff(n, r, k - 1);
      MisreportsIffStep(r, k);
    }
  }

  /** There have been connections, and the flag misreports. */
  predicate ConnectionLost(s: State) {
    Misreports(s) && s.gens != []
  }

  ghost predicate NobodyStartsTooLate(r: Run, k: nat)
    requires |r.states| == |r.events| + 1 && k < |r.states|
  {
    forall j {:trigger r.events[j]} :: 0 <= j < k ==> !StartsTooLate(r.states[j], r.events[j])
  }

  lemma StepConnectionLostIff(s: State, e: Event)
    requires Enabled(s, e)
    ensures ConnectionLost(Apply(s, e)) <==> StartsTooLate(s, e) || (ConnectionLost(s) && !Corrects(e))
  {
    StepMisreportsIff(s, e);
    StepAndInstallers(s, e);
    StepInstalls(s, e);
  }

  lemma RunStepConnectionLostIff(r: Run, j: nat)
    requires IsRun(r) && j < |r.events|
    ensures ConnectionLost(r.states[j + 1]) <==>
      StartsTooLate(r.states[j], r.events[j]) || (ConnectionLost(r.states[j]) && !Corrects(r.events[j]))
  {
    assert IsStep(r.states[j], r.events[j], r.states[j + 1]);
    StepConnectionLostIff(r.states[j], r.events[j]);
  }

  /** After the first connection: the flag is always right iff no read loop starts too late. */
  lemma {:induction false} NeverLostIff(n: nat, r: Run, k: nat)
    requires IsRunFromStart(n, r) && k < |r.states|
    ensures (forall j :: 0 <= j <= k ==> !ConnectionLost(r.states[j])) <==> NobodyStartsTooLate(r, k)
    decreases k
  {
    if k > 0 {
      NeverLostIff(n, r, k - 1);
      RunStepConnectionLostIff(r, k - 1);
      var e := r.events[k - 1];
    }
  }

  /**
   * The schedule that decides it. A connection's read task is spawned before its write task, and both before the tasks of
   * later connections. A scheduler that first polls tasks in the order in which they were spawned, as tokio's
   * current-thread runtime does, lets each read loop announce its connection before any of those makes its first step.
   */
  predicate InSpawnOrder(s: State, e: Event) {
    match e
    case Write(g, _) => forall h :: 0 <= h <= g && h < |s.gens| ==> !s.gens[h].read.Starting?
    case Read(g, _) => forall h :: 0 <= h < g && h < |s.gens| ==> !s.gens[h].read.Starting?
    case _ => true
  }

  ghost predicate SpawnOrder(r: Run)
    requires |r.states| == |r.events| + 1
  {
    forall i {:trigger r.events[i]} :: 0 <= i < |r.events| ==> InSpawnOrder(r.states[i], r.events[i])
  }

  /** A connection none of whose loops has made a step. */
  predicate Untouched(gen: Generation) {
    gen.read.Starting? && gen.write.Waiting?
  }

  ghost predicate LaterUntouched(s: State) {
    forall h, g :: 0 <= h <= g < |s.gens| && s.gens[h].read.Starting? ==> Untouched(s.gens[g])
  }

  lemma WriteKeepsUntouched(s: State, g: nat, w: WriteEvent)
    requires LaterUntouched(s) && g < |s.gens| && WriteEnabled(s, g, w) && InSpawnOrder(s, Write(g, w))
    ensures LaterUntouched(WriteApply(s, g, w))
  {
    WriteRefinesKeepAlive(s, g, w);
    assert WriteApply(s, g, w).gens[g].read == s.gens[g].read;
  }

  lemma ReadKeepsUntouched(s: State, g: nat, r: ReadEvent)
    requires LaterUntouched(s) && g < |s.gens| && ReadEnabled(s, g, r) && InSpawnOrder(s, Read(g, r))
    ensures LaterUntouched(ReadApply(s, g, r)) && !StartsTooLate(s, Read(g, r))
  {
    ReadRefinesKeepAlive(s, g, r);
    assert !ReadApply(s, g, r).gens[g].read.Starting?;
  }

  lemma StepKeepsUntouched(s: State, e: Event, s': State)
    requires LaterUntouched(s) && IsStep(s, e, s') && InSpawnOrder(s, e)
    ensures LaterUntouched(s') && !StartsTooLate(s, e)
  {
    match e
    case User(_) =>
    case Write(g, w) => WriteKeepsUntouched(s, g, w);
    case Read(g, r) => ReadKeepsUntouched(s, g, r);
    case KeepAlive(_, _) =>
  }

  lemma {:induction false} SpawnOrderStartsInTime(n: nat, r: Run, k: nat)
    requires IsRunFromStart(n, r) && SpawnOrder(r) && k < |r.states|
    ensures LaterUntouched(r.states[k]) && NobodyStartsTooLate(r, k)
    decreases k
  {
    if k > 0 {
      SpawnOrderStartsInTime(n, r, k - 1);
      var e := r.events[k - 1];
      StepKeepsUntouched(r.states[k - 1], e, r.states[k]);
    }
  }

  /**
   * On such a schedule, with any number of `connect`s: once there has been a connection, a flag that is down means that
   * both loops of the newest connection are there.
   */
  lemma {:induction false} ConnectedMeansNewestLives(n: nat, r: Run, k: nat)
    requires IsRunFromStart(n, r) && SpawnOrder(r) && k < |r.states|
    requires var s := r.states[k]; s.handle && s.gens != [] && !s.disconnect.value
    ensures NewestLives(r.states[k])
  {
    SpawnOrderStartsInTime(n, r, k);
    NeverLostIff(n, r, k);
  }
}
