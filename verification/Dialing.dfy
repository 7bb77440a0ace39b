/**
 * The attempts of every `connect` in the protocol, whether called on the handle or by a reconnecting read loop: they are
 * counted, and end as the loop in `ConnectLoop` does.
 */
module Dialing {
  import opened Messages
  import opened ReconnectingProtocol
  import C = ConnectLoop

  /** Whose attempts: a call of `connect`, or the read loop of a generation. */
  datatype Dialer = Call(dial: nat) | Loop(gen: nat)

  /** What an event yields for a dialer, if it is an attempt of that dialer. */
  function OutcomeOf(e: Event, d: Dialer): Option<C.Outcome> {
    match (d, e)
    case (Call(i), User(DialFails(k, clientError))) => if k == i then Some(Failure(clientError)) else None
    case (Call(i), User(DialSucceeds(k))) => if k == i then Some(C.Connected) else None
    case (Loop(g), Read(h, RedialFails(clientError))) => if h == g then Some(Failure(clientError)) else None
    case (Loop(g), Read(h, RedialSucceeds)) => if h == g then Some(C.Connected) else None
    case _ => None
  }

  function Failure(clientError: bool): C.Outcome {
    if clientError then C.ClientError(400) else C.OtherFailure(0)
  }

  /** The outcomes of a dialer's attempts, in order. */
  function Attempts(es: seq<Event>, d: Dialer): seq<C.Outcome> {
    if es == [] then []
    else
      match OutcomeOf(es[|es| - 1], d)
      case None => Attempts(es[..|es| - 1], d)
      case Some(outcome) => Attempts(es[..|es| - 1], d) + [outcome]
  }

  /** The attempts as `ConnectLoop` takes them; those that were not made do not matter. */
  function Outcomes(made: seq<C.Outcome>): nat -> C.Outcome {
    (i: nat) => if i < |made| then made[i] else C.OtherFailure(0)
  }

  predicate IsDialing(s: State, d: Dialer) {
    match d
    case Call(i) => i < |s.dials| && s.dials[i].Dialing?
    case Loop(g) => g < |s.gens| && s.gens[g].read.Redialing?
  }

  function AttemptNumber(s: State, d: Dialer): nat
    requires IsDialing(s, d)
  {
    match d
    case Call(i) => s.dials[i].attempt
    case Loop(g) => s.gens[g].read.attempt
  }

  /** The call is still to come, or the read loop has not come to reconnecting. */
  predicate IsBeforeDialing(s: State, d: Dialer) {
    match d
    case Call(i) => |s.dials| <= i
    case Loop(g) => g < |s.gens| ==> !s.gens[g].read.Redialing? && !s.gens[g].read.ReadEnded?
  }

  predicate AllRetryable(made: seq<C.Outcome>) {
    forall k :: 0 <= k < |made| ==> made[k].OtherFailure?
  }

  /** While it dials, the stored number is the number of attempts made, all failed and within the limit. */
  ghost predicate Counts(n: nat, s: State, made: seq<C.Outcome>, d: Dialer) {
    && s.maxRetries == n
    && (IsBeforeDialing(s, d) ==> made == [])
    && (IsDialing(s, d) ==> AttemptNumber(s, d) == |made| <= n && AllRetryable(made))
  }

  /** What the step of an attempt does, by its outcome: only the failures up to the limit are followed by another. */
  ghost predicate EndsRightly(n: nat, s': State, made: seq<C.Outcome>, d: Dialer) {
    && made != []
    && (!IsDialing(s', d) <==>
         made[|made| - 1].Connected? || made[|made| - 1].ClientError? || |made| == n + 1)
    && !IsBeforeDialing(s', d)
  }

  function MadeAfter(made: seq<C.Outcome>, e: Event, d: Dialer): seq<C.Outcome> {
    match OutcomeOf(e, d)
    case None => made
    case Some(outcome) => made + [outcome]
  }

  lemma CallStep(n: nat, s: State, u: UserEvent, made: seq<C.Outcome>, i: nat)
    requires UserEnabled(s, u) && Counts(n, s, made, Call(i))
    ensures Counts(n, UserApply(s, u), MadeAfter(made, User(u), Call(i)), Call(i))
    ensures OutcomeOf(User(u), Call(i)).Some? ==>
      IsDialing(s, Call(i)) && EndsRightly(n, UserApply(s, u), MadeAfter(made, User(u), Call(i)), Call(i))
  {
  }

  lemma LoopStep(n: nat, s: State, g: nat, r: ReadEvent, made: seq<C.Outcome>, h: nat)
    requires g < |s.gens| && ReadEnabled(s, g, r) && Counts(n, s, made, Loop(h))
    ensures Counts(n, ReadApply(s, g, r), MadeAfter(made, Read(g, r), Loop(h)), Loop(h))
    ensures OutcomeOf(Read(g, r), Loop(h)).Some? ==>
      && IsDialing(s, Loop(h))
      && EndsRightly(n, ReadApply(s, g, r), MadeAfter(made, Read(g, r), Loop(h)), Loop(h))
  {
    ReadRefinesKeepAlive(s, g, r);
    ReadInstalls(s, g, r);
  }

  /** Nothing about dialing is different. */
  ghost predicate DialsAlike(s: State, s': State) {
    && s'.maxRetries == s.maxRetries && s'.dials == s.dials && |s.gens| == |s'.gens|
    && forall i :: 0 <= i < |s.gens| ==> s'.gens[i].read == s.gens[i].read
  }

  lemma WriteDialsAlike(s: State, g: nat, w: WriteEvent)
    requires g < |s.gens| && WriteEnabled(s, g, w)
    ensures DialsAlike(s, WriteApply(s, g, w))
  {
    WriteRefinesKeepAlive(s, g, w);
  }

  lemma AlikeCounts(n: nat, s: State, s': State, made: seq<C.Outcome>, d: Dialer)
    requires Counts(n, s, made, d) && DialsAlike(s, s')
    ensures Counts(n, s', made, d)
  {
  }

  lemma UserAndLoops(n: nat, s: State, u: UserEvent, made: seq<C.Outcome>, g: nat)
    requires UserEnabled(s, u) && Counts(n, s, made, Loop(g))
    ensures Counts(n, UserApply(s, u), made, Loop(g))
  {
    UserInstalls(s, u);
  }

  lemma ReadAndCalls(n: nat, s: State, g: nat, r: ReadEvent, made: seq<C.Outcome>, i: nat)
    requires g < |s.gens| && ReadEnabled(s, g, r) && Counts(n, s, made, Call(i))
    ensures Counts(n, ReadApply(s, g, r), made, Call(i))
  {
  }

  /** Steps that are no attempts of this dialer's kind. */
  lemma OtherStep(n: nat, s: State, e: Event, made: seq<C.Outcome>, d: Dialer)
    requires Enabled(s, e) && Counts(n, s, made, d)
    requires e.Write? || e.KeepAlive? || (e.User? && d.Loop?) || (e.Read? && d.Call?)
    ensures OutcomeOf(e, d) == None && Counts(n, Apply(s, e), made, d)
  {
    match e
    case User(u) => UserAndLoops(n, s, u, made, d.gen);
    case Write(g, w) =>
      WriteDialsAlike(s, g, w);
      AlikeCounts(n, s, Apply(s, e), made, d);
    case Read(g, r) => ReadAndCalls(n, s, g, r, made, d.dial);
    case KeepAlive(_, _) => AlikeCounts(n, s, Apply(s, e), made, d);
  }

  lemma StepCounts(n: nat, s: State, e: Event, made: seq<C.Outcome>, d: Dialer)
    requires Enabled(s, e) && Counts(n, s, made, d)
    ensures Counts(n, Apply(s, e), MadeAfter(made, e, d), d)
    ensures OutcomeOf(e, d).Some? ==> IsDialing(s, d) && EndsRightly(n, Apply(s, e), MadeAfter(made, e, d), d)
  {
    if e.User? && d.Call? {
      CallStep(n, s, e.user, made, d.dial);
    } else if e.Read? && d.Loop? {
      LoopStep(n, s, e.gen, e.read, made, d.gen);
    } else {
      OtherStep(n, s, e, made, d);
    }
  }

  lemma AttemptsStep(es: seq<Event>, j: nat, d: Dialer)
    requires 0 < j <= |es|
    ensures Attempts(es[..j], d) == MadeAfter(Attempts(es[..j - 1], d), es[j - 1], d)
  {
    assert es[..j][..j - 1] == es[..j - 1];
  }

  lemma RunStepCounts(n: nat, r: Run, j: nat, d: Dialer)
    requires IsRun(r) && j < |r.events| && Counts(n, r.states[j], Attempts(r.events[..j], d), d)
    ensures var made := Attempts(r.events[..j + 1], d);
      && Counts(n, r.states[j + 1], made, d)
      && (OutcomeOf(r.events[j], d).Some? ==> IsDialing(r.states[j], d) && EndsRightly(n, r.states[j + 1], made, d))
  {
    assert IsStep(r.states[j], r.events[j], r.states[j + 1]);
    StepCounts(n, r.states[j], r.events[j], Attempts(r.events[..j], d), d);
    AttemptsStep(r.events, j + 1, d);
  }

  /**
   * Attempts are counted: in every reachable state, a dialer that dials has made exactly as many attempts as it says, all
   * of them failures that allow a retry, and no more than the limit.
   */
  lemma {:induction false} AttemptsAreCounted(n: nat, r: Run, j: nat, d: Dialer)
    requires IsRunFromStart(n, r) && j < |r.states|
    ensures Counts(n, r.states[j], Attempts(r.events[..j], d), d)
    decreases j
  {
    if j > 0 {
      AttemptsAreCounted(n, r, j - 1, d);
      RunStepCounts(n, r, j - 1, d);
    }
  }

  /** The end of dialing, as `ConnectLoop` has it. */
  lemma LastAttempt(n: nat, s': State, made: seq<C.Outcome>, d: Dialer)
    requires EndsRightly(n, s', made, d) && |made| <= n + 1 && AllRetryable(made[..|made| - 1])
    ensures !IsDialing(s', d) <==> C.IsLast(n, Outcomes(made), |made| - 1)
  {
    var last := |made| - 1;
    assert forall k :: 0 <= k < last ==> made[k] == made[..last][k];
  }

  /**
   * When dialing ends: when event `j` is an attempt of dialer `d`, then it dials no more exactly if that attempt succeeded,
   * was a client error, or was number `n + 1`; which is to say exactly if it is the last attempt of `ConnectLoop.Connect`.
   */
  lemma {:induction false} DialingEndsIff(n: nat, r: Run, j: nat, d: Dialer)
    requires IsRunFromStart(n, r) && j < |r.events| && OutcomeOf(r.events[j], d).Some?
    ensures var made := Attempts(r.events[..j + 1], d);
      && made != [] && Some(made[|made| - 1]) == OutcomeOf(r.events[j], d)
      && (!IsDialing(r.states[j + 1], d) <==>
           made[|made| - 1].Connected? || made[|made| - 1].ClientError? || |made| == n + 1)
      && (!IsDialing(r.states[j + 1], d) <==> C.IsLast(n, Outcomes(made), |made| - 1))
  {
    AttemptsAreCounted(n, r, j, d);
    RunStepCounts(n, r, j, d);
    AttemptsStep(r.events, j + 1, d);
    var before := Attempts(r.events[..j], d);
    var made := Attempts(r.events[..j + 1], d);
    assert made[..|made| - 1] == before;
    LastAttempt(n, r.states[j + 1], made, d);
  }
}
