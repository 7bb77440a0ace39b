/**
 * How a write loop can miss the signal to stop. The loops of all connections share one disconnect flag: a loop that ends
 * raises it, but the read loop of the next connection lowers it again, and a write loop that was busy in between sees only
 * the lowered flag and goes on. This is where overlapping generations come from.
 */
module StopSignals {
  import opened Messages
  import opened ReconnectingProtocol
  import opened ConnectedFlag

  /** The event sends the signal to stop. */
  ghost predicate Raises(s: State, e: Event) {
    InnerAlive(s) && ((e.Write? && e.write.WriteEnds?) || (e.Read? && e.read.ReadEnds?))
  }

  /** The event withdraws it. */
  ghost predicate Lowers(s: State, e: Event) {
    InnerAlive(s) && e.Read? && e.read.Starts?
  }

  ghost predicate WithdrawnSince(r: Run, i: nat, j: nat)
    requires |r.states| == |r.events| + 1 && j < |r.states|
  {
    exists h :: i < h < j && Lowers(r.states[h], r.events[h])
  }

  /** Every signal up to state `j` was withdrawn. */
  ghost predicate AllWithdrawn(r: Run, j: nat)
    requires |r.states| == |r.events| + 1 && j < |r.states|
  {
    forall i: nat {:trigger r.events[i]} :: i < j && Raises(r.states[i], r.events[i]) ==> WithdrawnSince(r, i, j)
  }

  lemma FlagStep(s: State, e: Event, s': State)
    requires IsStep(s, e, s')
    ensures s'.disconnect.value <==> Raises(s, e) || (s.disconnect.value && !Lowers(s, e))
    ensures s'.disconnect == s.disconnect <==> !Raises(s, e) && !Lowers(s, e)
  {
  }

  lemma AllWithdrawnStep(r: Run, j: nat)
    requires |r.states| == |r.events| + 1 && j < |r.events|
    ensures var s, e := r.states[j], r.events[j];
      AllWithdrawn(r, j + 1) <==> !Raises(s, e) && (Lowers(s, e) || AllWithdrawn(r, j))
  {
    var s, e := r.states[j], r.events[j];
    if AllWithdrawn(r, j + 1) {
      assert Raises(s, e) ==> WithdrawnSince(r, j, j + 1);
      if !Lowers(s, e) {
        forall i: nat {:trigger r.events[i]} | i < j && Raises(r.states[i], r.events[i]) ensures WithdrawnSince(r, i, j) {
          var h :| i < h < j + 1 && Lowers(r.states[h], r.events[h]);
        }
      }
    }
    if !Raises(s, e) && (Lowers(s, e) || AllWithdrawn(r, j)) {
      forall i: nat {:trigger r.events[i]} | i < j + 1 && Raises(r.states[i], r.events[i])
        ensures WithdrawnSince(r, i, j + 1)
      {
        if !Lowers(s, e) {
          var h :| i < h < j && Lowers(r.states[h], r.events[h]);
        }
      }
    }
  }

  lemma {:induction false} FlagRunStep(r: Run, j: nat)
    requires IsRun(r) && j < |r.events| && (r.states[j].disconnect.value <==> !AllWithdrawn(r, j))
    ensures r.states[j + 1].disconnect.value <==> !AllWithdrawn(r, j + 1)
  {
    StepAtRaises(r, j);
    AllWithdrawnStep(r, j);
  }

  lemma StepAtRaises(r: Run, j: nat)
    requires IsRun(r) && j < |r.events|
    ensures var s, e := r.states[j], r.events[j];
      r.states[j + 1].disconnect.value <==> Raises(s, e) || (s.disconnect.value && !Lowers(s, e))
  {
    assert IsStep(r.states[j], r.events[j], r.states[j + 1]);
    FlagStep(r.states[j], r.events[j], r.states[j + 1]);
  }

  lemma {:induction false} FlagIsUpIff(n: nat, r: Run, j: nat)
    requires IsRunFromStart(n, r) && j < |r.states|
    ensures r.states[j].disconnect.value <==> !AllWithdrawn(r, j)
    decreases j
  {
    if j > 0 {
      FlagIsUpIff(n, r, j - 1);
      FlagRunStep(r, j - 1);
    }
  }

  lemma ArmFollowsFlag(s: State, g: nat, s': State)
    requires g < |s.gens| && IsStep(s, Write(g, WriteDisconnectArm), s')
    ensures |s'.gens| == |s.gens|
    ensures s'.gens[g].write == if s.disconnect.value then LeftWrite else WriteLoop.Waiting
  {
  }

  /**
   * Exactly when a write loop misses its stop signal: the arm by which it notices that the flag was sent lets it go on iff
   * every signal sent so far was withdrawn by the start of some read loop.
   */
  lemma {:induction false} GoesOnIff(n: nat, r: Run, j: nat, g: nat)
    requires IsRunFromStart(n, r) && j < |r.events| && r.events[j] == Write(g, WriteDisconnectArm)
    ensures g < |r.states[j].gens| == |r.states[j + 1].gens|
    ensures r.states[j + 1].gens[g].write.Waiting? <==> AllWithdrawn(r, j)
  {
    FlagIsUpIff(n, r, j);
    assert IsStep(r.states[j], r.events[j], r.states[j + 1]);
    ArmFollowsFlag(r.states[j], g, r.states[j + 1]);
  }

  // ----- Signals meant for others. -----

  /** The signal sent at `i` by a loop of another generation than `g` was not withdrawn before `j`. */
  ghost predicate StandsFromOther(r: Run, i: nat, j: nat, g: nat)
    requires |r.states| == |r.events| + 1 && j < |r.states|
  {
    i < j && Raises(r.states[i], r.events[i]) && !WithdrawnSince(r, i, j) && r.events[i].gen != g
  }

  /** A loop that has sent a signal is gone from its connection. */
  lemma RaisingEndsLife(s: State, e: Event, s': State)
    requires IsStep(s, e, s') && Raises(s, e)
    ensures e.gen < |s'.gens| && !Lives(s'.gens[e.gen])
  {
  }

  lemma LifeEndsOnce(s: State, e: Event, g: nat)
    requires g < |s.gens| && Enabled(s, e) && !Lives(s.gens[g])
    ensures g < |Apply(s, e).gens| && !Lives(Apply(s, e).gens[g])
  {
    match e
    case User(_) =>
    case Write(h, w) => WriteRefinesKeepAlive(s, h, w);
    case Read(h, r) => ReadRefinesKeepAlive(s, h, r);
    case KeepAlive(_, _) =>
  }

  lemma {:induction false} RaisersDoNotLive(r: Run, i: nat, j: nat)
    requires IsRun(r) && i < j < |r.states| && Raises(r.states[i], r.events[i])
    ensures r.events[i].gen < |r.states[j].gens| && !Lives(r.states[j].gens[r.events[i].gen])
    decreases j
  {
    assert IsStep(r.states[j - 1], r.events[j - 1], r.states[j]);
    if i == j - 1 {
      RaisingEndsLife(r.states[i], r.events[i], r.states[j]);
    } else {
      RaisersDoNotLive(r, i, j - 1);
      LifeEndsOnce(r.states[j - 1], r.events[j - 1], r.events[i].gen);
    }
  }

  /**
   * Exactly when the flag is up while a connection still has both its loops: a signal stands that was sent by a loop of
   * another connection. With the newest connection as `g` this is when `is_connected` says no although it is there.
   */
  lemma {:induction false} FalseAlarmIff(n: nat, r: Run, j: nat, g: nat)
    requires IsRunFromStart(n, r) && j < |r.states| && g < |r.states[j].gens| && Lives(r.states[j].gens[g])
    ensures r.states[j].disconnect.value <==> exists i: nat :: StandsFromOther(r, i, j, g)
  {
    FlagIsUpIff(n, r, j);
    if !AllWithdrawn(r, j) {
      var i: nat :| i < j && Raises(r.states[i], r.events[i]) && !WithdrawnSince(r, i, j);
      RaisersDoNotLive(r, i, j);
      assert StandsFromOther(r, i, j, g);
    }
    if i: nat :| StandsFromOther(r, i, j, g) {
      var e := r.events[i];
    }
  }

  /** The arm of either loop by which it notices that the flag was sent. */
  predicate IsDisconnectArm(e: Event) {
    (e.Write? && e.write.WriteDisconnectArm?) || (e.Read? && e.read.ReadDisconnectArm?)
  }

  /** The loop that takes event `e` is no longer at its select afterwards. */
  predicate LeavesSelect(e: Event, s': State) {
    match e
    case Write(g, _) => g < |s'.gens| && s'.gens[g].write == LeftWrite
    case Read(g, _) => g < |s'.gens| && s'.gens[g].read == LeftRead(true)
    case _ => false
  }

  lemma ArmsFollowFlag(s: State, e: Event, s': State)
    requires IsStep(s, e, s') && IsDisconnectArm(e) && InnerAlive(s)
    ensures LeavesSelect(e, s') <==> s.disconnect.value
  {
  }

  /**
   * Exactly when a connection in good order is torn down by a signal meant for another one: one of its loops, while both
   * are there, leaves through its disconnect arm iff a signal stands that was sent by a loop of another connection.
   */
  lemma {:induction false} StaleSignalIff(n: nat, r: Run, j: nat)
    requires IsRunFromStart(n, r) && j < |r.events| && IsDisconnectArm(r.events[j]) && InnerAlive(r.states[j])
    requires var g := r.events[j].gen; g < |r.states[j].gens| && Lives(r.states[j].gens[g])
    ensures LeavesSelect(r.events[j], r.states[j + 1])
       <==> exists i: nat :: StandsFromOther(r, i, j, r.events[j].gen)
  {
    FalseAlarmIff(n, r, j, r.events[j].gen);
    assert IsStep(r.states[j], r.events[j], r.states[j + 1]);
    ArmsFollowFlag(r.states[j], r.events[j], r.states[j + 1]);
  }
}
