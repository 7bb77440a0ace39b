/** Exactly when a handle that nobody is connecting, closed or not, starts to reconnect. */
module Reopening {
  import opened Messages
  import opened ReconnectingProtocol
  import opened Supervision
  import opened Counterexamples

  predicate SeeksConnection(gen: Generation) {
    gen.read.Redialing? || gen.read == LeftRead(true)
  }

  /** No connection attempt is under way or about to be. */
  ghost predicate Settled(s: State) {
    && (forall i :: 0 <= i < |s.dials| ==> s.dials[i].DialEnded?)
    && (forall i :: 0 <= i < |s.gens| ==> !SeeksConnection(s.gens[i]))
  }

  /**
   * The guard: a read loop at its select finds no item, and its keep-alive's reader has stopped, the disconnect flag is
   * news and raised, or it is no news and the handle is gone. The close flag plays no part: its arm comes after these.
   */
  ghost predicate MustReconnect(s: State, g: nat) {
    && g < |s.gens| && s.gens[g].read.Reading? && s.gens[g].keepAlive.incoming == []
    && (s.gens[g].keepAlive.reader.Stopped?
        || (if s.disconnect.ChangedSince(s.gens[g].readSeen.disconnect) then s.disconnect.value else !InnerAlive(s)))
  }

  /** Event `e` is a select of a read loop in that situation. */
  ghost predicate LeavesToReconnect(s: State, e: Event) {
    e.Read? && MustReconnect(s, e.gen)
  }

  /** The select leaves in order to reconnect iff the guard holds, whatever else it sees. */
  lemma SelectReconnectsIff(s: State, g: nat, r: ReadEvent)
    requires g < |s.gens| && ReadEnabled(s, g, r) && !SeeksConnection(s.gens[g])
    ensures var s' := ReadApply(s, g, r);
      && |s'.gens| == |s.gens| && s'.dials == s.dials
      && (forall i :: 0 <= i < |s.gens| && i != g ==> s'.gens[i] == s.gens[i])
      && (SeeksConnection(s'.gens[g]) <==> MustReconnect(s, g))
  {
  }

  lemma OthersStaySettled(s: State, e: Event)
    requires Settled(s) && Enabled(s, e) && !e.Read? && |Apply(s, e).dials| == |s.dials|
    ensures Settled(Apply(s, e)) && |Apply(s, e).gens| == |s.gens|
  {
    StepAndInstallers(s, e);
    if e.Write? {
      WriteRefinesKeepAlive(s, e.gen, e.write);
    }
  }

  lemma StepSettledIff(s: State, e: Event, s': State)
    requires Settled(s) && IsStep(s, e, s') && |s'.dials| == |s.dials|
    ensures |s'.gens| == |s.gens|
    ensures Settled(s') <==> !LeavesToReconnect(s, e)
  {
    if e.Read? {
      SelectReconnectsIff(s, e.gen, e.read);
    } else {
      OthersStaySettled(s, e);
    }
  }

  ghost predicate StaysSettled(r: Run, i: nat, k: nat)
    requires k < |r.states|
  {
    forall j :: i <= j <= k ==> Settled(r.states[j])
  }

  ghost predicate NobodyLeavesToReconnect(r: Run, i: nat, k: nat)
    requires |r.states| == |r.events| + 1 && k < |r.states|
  {
    forall j {:trigger r.events[j]} :: i <= j < k ==> !LeavesToReconnect(r.states[j], r.events[j])
  }

  lemma LastStepSettles(r: Run, j: nat)
    requires IsRun(r) && j < |r.events| && |r.states[j + 1].dials| == |r.states[j].dials|
    ensures Settled(r.states[j]) ==>
      && |r.states[j + 1].gens| == |r.states[j].gens|
      && (Settled(r.states[j + 1]) <==> !LeavesToReconnect(r.states[j], r.events[j]))
  {
    assert IsStep(r.states[j], r.events[j], r.states[j + 1]);
    if Settled(r.states[j]) {
      StepSettledIff(r.states[j], r.events[j], r.states[j + 1]);
    }
  }

  lemma OneMoreState(r: Run, i: nat, k: nat)
    requires |r.states| == |r.events| + 1 && i < k < |r.states|
    ensures StaysSettled(r, i, k) <==> StaysSettled(r, i, k - 1) && Settled(r.states[k])
    ensures NobodyLeavesToReconnect(r, i, k)
       <==> NobodyLeavesToReconnect(r, i, k - 1) && !LeavesToReconnect(r.states[k - 1], r.events[k - 1])
  {
    var e := r.events[k - 1];
  }

  lemma NoDialBefore(r: Run, i: nat, k: nat)
    requires IsRun(r) && i < k < |r.states| && |r.states[k].dials| == |r.states[i].dials|
    ensures |r.states[k - 1].dials| == |r.states[i].dials|
  {
    DialsOnlyGrow(r, i, k - 1);
    DialsOnlyGrow(r, k - 1, k);
  }

  /** No attempt starts from `i` to `k` iff no read loop meets the guard, and then no generation is started. */
  ghost predicate ClosedIff(r: Run, i: nat, k: nat)
    requires |r.states| == |r.events| + 1 && i <= k < |r.states|
  {
    && (StaysSettled(r, i, k) <==> NobodyLeavesToReconnect(r, i, k))
    && (StaysSettled(r, i, k) ==> |r.states[k].gens| == |r.states[i].gens|)
  }

  lemma ClosedIffStep(r: Run, i: nat, k: nat)
    requires IsRun(r) && i < k < |r.states| && |r.states[k].dials| == |r.states[k - 1].dials|
    requires ClosedIff(r, i, k - 1)
    ensures ClosedIff(r, i, k)
  {
    LastStepSettles(r, k - 1);
    OneMoreState(r, i, k);
    assert StaysSettled(r, i, k - 1) ==> Settled(r.states[k - 1]);
  }

  lemma {:induction false} ClosedIffHolds(r: Run, i: nat, k: nat)
    requires IsRun(r) && i <= k < |r.states| && Settled(r.states[i])
    requires |r.states[k].dials| == |r.states[i].dials|
    ensures ClosedIff(r, i, k)
    decreases k
  {
    if i < k {
      NoDialBefore(r, i, k);
      ClosedIffHolds(r, i, k - 1);
      ClosedIffStep(r, i, k);
    }
  }

  /**
   * Say nobody is connecting at state `i`, for instance when `close` returns, and `connect` is not called again. No
   * connection attempt starts up to state `k` iff no read loop has met the guard at its select; and then no generation
   * was started either.
   */
  lemma {:induction false} StaysClosedIff(r: Run, i: nat, k: nat)
    requires IsRun(r) && i <= k < |r.states| && Settled(r.states[i])
    requires |r.states[k].dials| == |r.states[i].dials|
    ensures StaysSettled(r, i, k) <==> NobodyLeavesToReconnect(r, i, k)
    ensures StaysSettled(r, i, k) ==> |r.states[k].gens| == |r.states[i].gens|
  {
    ClosedIffHolds(r, i, k);
  }

  lemma RedialMayReopen(o: State, s: State, g: nat)
    requires Leads(o, s) && g < |s.gens| && s.gens[g].read.Redialing?
    requires |s.gens| == |o.gens| && s.close == o.close && s.dials == o.dials
    ensures exists t :: Leads(o, t) && |t.gens| == |o.gens| + 1 && t.close == o.close && |t.dials| == |o.dials|
  {
    Step(o, s, Read(g, RedialSucceeds), Apply(s, Read(g, RedialSucceeds)));
  }

  /**
   * While an attempt is under way, or a read loop has left in order to make one, `close` does not stop it: from any such
   * state, without another `connect`, some continuation installs a generation, although the close flag stays as it is.
   */
  lemma UnsettledMayReopen(s: State)
    requires !Settled(s) && InnerAlive(s)
    ensures exists t :: Leads(s, t) && |t.gens| == |s.gens| + 1 && t.close == s.close && |t.dials| == |s.dials|
  {
    Stays(s);
    if i :| 0 <= i < |s.dials| && s.dials[i].Dialing? {
      Step(s, s, User(DialSucceeds(i)), Apply(s, User(DialSucceeds(i))));
    } else {
      var g :| 0 <= g < |s.gens| && SeeksConnection(s.gens[g]);
      var s1 := s;
      if s.gens[g].read == LeftRead(true) {
        s1 := Apply(s, Read(g, ReadEnds));
        Step(s, s, Read(g, ReadEnds), s1);
      }
      RedialMayReopen(s, s1, g);
    }
  }
}
