/**
 * The keep-alive's write loop in time: runs of `KeepAliveProtocol` whose events carry times, where writes are
 * instantaneous and the scheduler is prompt; and, for given arrivals, the loop itself, which goes through such a run.
 * Times and the ping timeout are in one unit, say nanoseconds.
 */
module PingTiming {
  import opened Messages
  import K = KeepAliveProtocol

  datatype Arrival = Arrival(time: nat, message: Message)

  datatype Write = Write(time: nat, frame: Frame)

  predicate InTimeOrder(arrivals: seq<Arrival>) {
    forall i, j :: 0 <= i <= j < |arrivals| ==> arrivals[i].time <= arrivals[j].time
  }

  function Frames(log: seq<Write>): seq<Frame> {
    seq(|log|, i requires 0 <= i < |log| => log[i].frame)
  }

  function MessagesOf(arrivals: seq<Arrival>): seq<Message> {
    seq(|arrivals|, i requires 0 <= i < |arrivals| => arrivals[i].message)
  }

  /** When the loop came to its select before its `k`-th write. */
  function Since(log: seq<Write>, start: nat, k: nat): nat
    requires k <= |log|
  {
    if k == 0 then start else log[k - 1].time
  }

  // ----- Timed runs of the keep-alive. -----

  function LastWrite(log: seq<Write>, start: nat): nat {
    Since(log, start, |log|)
  }

  /** A keep-alive, the time of its latest event, and its writes so far. */
  datatype Clocked = Clocked(k: K.KeepAlive, now: nat, log: seq<Write>)

  datatype Turn = Turn(event: K.Event, now: nat)

  datatype TimedRun = TimedRun(states: seq<Clocked>, turns: seq<Turn>)

  /**
   * Event `e` at time `now`, after an event at `before`: a write takes no time, a message in the queue is taken at once,
   * and the select does not oversleep its timer, which is started anew after each write and goes off only when it is due.
   */
  predicate OnTime(k: K.KeepAlive, e: K.Event, since: nat, before: nat, now: nat, timeout: nat) {
    && before <= now
    && (k.writer.Writing? || (k.writer.Idle? && k.outgoing != []) ==> now == before)
    && (k.writer.Idle? ==> now <= since + timeout)
    && (e.PingDue? ==> now == since + timeout)
  }

  function After(c: Clocked, e: K.Event, now: nat): Clocked
    requires K.Enabled(c.k, e)
  {
    Clocked(K.Apply(c.k, e), now, if e.WriteDone? then c.log + [Write(now, c.k.writer.frame)] else c.log)
  }

  ghost predicate IsStep(c: Clocked, turn: Turn, c': Clocked, start: nat, timeout: nat) {
    && K.Enabled(c.k, turn.event)
    && OnTime(c.k, turn.event, LastWrite(c.log, start), c.now, turn.now, timeout)
    && c' == After(c, turn.event, turn.now)
  }

  /** A run from a new keep-alive at time `start`, with every event on time. */
  ghost predicate IsTimedRun(t: TimedRun, start: nat, timeout: nat) {
    && |t.states| == |t.turns| + 1
    && t.states[0] == Clocked(K.NEW, start, [])
    && forall i {:trigger t.turns[i]} :: 0 <= i < |t.turns| ==>
         IsStep(t.states[i], t.turns[i], t.states[i + 1], start, timeout)
  }

  function Untimed(t: TimedRun): K.Run {
    K.Run(seq(|t.states|, i requires 0 <= i < |t.states| => t.states[i].k),
          seq(|t.turns|, i requires 0 <= i < |t.turns| => t.turns[i].event))
  }

  /** Timed runs are runs: what is proved of all runs of a keep-alive holds of them. */
  lemma TimedRunsAreRuns(t: TimedRun, start: nat, timeout: nat)
    requires IsTimedRun(t, start, timeout)
    ensures K.IsRun(Untimed(t)) && Untimed(t).states[0] == K.NEW
  {
    var r := Untimed(t);
    forall i {:trigger r.events[i]} | 0 <= i < |r.events| ensures K.IsStep(r.states[i], r.events[i], r.states[i + 1]) {
      assert IsStep(t.states[i], t.turns[i], t.states[i + 1], start, timeout);
    }
  }

  /** Write `k` comes at most the timeout after the one before, and a ping exactly the timeout after it. */
  predicate IsInTime(log: seq<Write>, start: nat, timeout: nat, k: nat)
    requires k < |log|
  {
    && Since(log, start, k) <= log[k].time <= Since(log, start, k) + timeout
    && (log[k].frame == KeepAlivePing ==> log[k].time == Since(log, start, k) + timeout)
  }

  ghost predicate Timed(c: Clocked, start: nat, timeout: nat) {
    && K.Valid(c.k)
    && Frames(c.log) == BeforeClosing(c.k.wire)
    && LastWrite(c.log, start) <= c.now
    && (K.InLoop(c.k.writer) ==> c.now <= LastWrite(c.log, start) + timeout)
    && (c.k.writer == K.Writing(KeepAlivePing) ==> c.now == LastWrite(c.log, start) + timeout)
    && (forall i :: 0 <= i < |c.log| ==> IsInTime(c.log, start, timeout, i))
  }

  lemma WriteKeepsTimed(c: Clocked, start: nat, timeout: nat)
    requires Timed(c, start, timeout) && c.k.writer.Writing?
    ensures Timed(After(c, K.WriteDone, c.now), start, timeout)
  {
    var log' := c.log + [Write(c.now, c.k.writer.frame)];
    K.StepKeepsValid(c.k, K.WriteDone);
    assert BeforeClosing(c.k.wire) == c.k.wire;
    assert Frames(log') == Frames(c.log) + [c.k.writer.frame];
    forall i | 0 <= i < |log'| ensures IsInTime(log', start, timeout, i) {
      if i < |c.log| {
        assert IsInTime(c.log, start, timeout, i);
      }
    }
  }

  lemma OtherEventsKeepTimed(c: Clocked, e: K.Event, now: nat, start: nat, timeout: nat)
    requires Timed(c, start, timeout) && K.Enabled(c.k, e) && !e.WriteDone?
    requires OnTime(c.k, e, LastWrite(c.log, start), c.now, now, timeout)
    ensures Timed(After(c, e, now), start, timeout)
  {
    K.StepKeepsValid(c.k, e);
    if e.SocketClosed? {
      assert BeforeClosing(c.k.wire) == c.k.wire;
      assert (c.k.wire + [ClosingFrame])[..|c.k.wire|] == c.k.wire;
    }
  }

  lemma StepKeepsTimed(c: Clocked, turn: Turn, c': Clocked, start: nat, timeout: nat)
    requires Timed(c, start, timeout) && IsStep(c, turn, c', start, timeout)
    ensures Timed(c', start, timeout)
  {
    if turn.event.WriteDone? {
      WriteKeepsTimed(c, start, timeout);
    } else {
      OtherEventsKeepTimed(c, turn.event, turn.now, start, timeout);
    }
  }

  lemma {:induction false} RunKeepsTimed(t: TimedRun, start: nat, timeout: nat, j: nat)
    requires IsTimedRun(t, start, timeout) && j < |t.states|
    ensures Timed(t.states[j], start, timeout)
    decreases j
  {
    if j > 0 {
      RunKeepsTimed(t, start, timeout, j - 1);
      StepKeepsTimed(t.states[j - 1], t.turns[j - 1], t.states[j], start, timeout);
    }
  }

  /**
   * The keep-alive promise, on every timed run: while the write loop lives, no more than the timeout passes without a
   * write; consecutive writes are at most the timeout apart; a ping is written exactly the timeout after the last write.
   * What is written before the closing frame is exactly the log, and without pings it is a prefix of what was accepted.
   */
  lemma {:induction false} NeverIdleForLong(t: TimedRun, start: nat, timeout: nat, j: nat)
    requires IsTimedRun(t, start, timeout) && j < |t.states|
    ensures var c := t.states[j];
      && (forall i :: 0 <= i < |c.log| ==> IsInTime(c.log, start, timeout, i))
      && (K.InLoop(c.k.writer) ==> c.now <= LastWrite(c.log, start) + timeout)
      && Frames(c.log) == BeforeClosing(c.k.wire)
      && Payload(Frames(c.log)) <= c.k.accepted
  {
    RunKeepsTimed(t, start, timeout, j);
    K.Accounting(t.states[j].k);
    K.PayloadBeforeClosing(t.states[j].k.wire);
  }

  /** A ping is begun only when every message accepted so far is on the wire, and the timeout is exactly over. */
  lemma {:induction false} PingsAreLastResort(t: TimedRun, start: nat, timeout: nat, j: nat)
    requires IsTimedRun(t, start, timeout) && j < |t.turns| && t.turns[j].event.PingDue?
    ensures t.states[j].k.accepted == Payload(t.states[j].k.wire)
    ensures t.turns[j].now == LastWrite(t.states[j].log, start) + timeout
  {
    RunKeepsTimed(t, start, timeout, j);
    assert IsStep(t.states[j], t.turns[j], t.states[j + 1], start, timeout);
  }

  // ----- The loop, for given arrivals. -----

  /** Write `k` carries arrival `sent`: as soon as it is there, and before the timeout is over. */
  predicate IsTimelyMessage(w: Write, since: nat, timeout: nat, a: Arrival) {
    && w.frame == Carried(a.message)
    && w.time == (if a.time <= since then since else a.time)
    && w.time <= since + timeout
  }

  /** Write `k` is a ping: exactly when the timeout is over, and only if no message was there by then. */
  predicate IsTimelyPing(w: Write, since: nat, timeout: nat, waiting: seq<Arrival>) {
    && w.frame == KeepAlivePing
    && w.time == since + timeout
    && (waiting != [] ==> waiting[0].time > since + timeout)
  }

  /** The number of messages among the first `k` writes. */
  function SentBefore(log: seq<Write>, k: nat): nat
    requires k <= |log|
  {
    |Payload(Frames(log)[..k])|
  }

  ghost predicate Timely(log: seq<Write>, arrivals: seq<Arrival>, start: nat, timeout: nat, k: nat)
    requires k < |log|
  {
    var sent, since := SentBefore(log, k), Since(log, start, k);
    || (sent < |arrivals| && IsTimelyMessage(log[k], since, timeout, arrivals[sent]))
    || (sent <= |arrivals| && IsTimelyPing(log[k], since, timeout, arrivals[sent..]))
  }

  lemma TimelyPrefix(log: seq<Write>, w: Write, arrivals: seq<Arrival>, start: nat, timeout: nat, k: nat)
    requires k < |log| && Timely(log, arrivals, start, timeout, k)
    ensures Timely(log + [w], arrivals, start, timeout, k)
  {
    assert Frames(log + [w])[..k] == Frames(log)[..k];
  }

  /** Some timed run leads to `c`. */
  ghost predicate Reaches(c: Clocked, start: nat, timeout: nat) {
    exists t :: IsTimedRun(t, start, timeout) && t.states[|t.states| - 1] == c
  }

  lemma ReachesNext(c: Clocked, e: K.Event, now: nat, start: nat, timeout: nat)
    requires Reaches(c, start, timeout) && K.Enabled(c.k, e)
    requires OnTime(c.k, e, LastWrite(c.log, start), c.now, now, timeout)
    ensures Reaches(After(c, e, now), start, timeout)
  {
    var t :| IsTimedRun(t, start, timeout) && t.states[|t.states| - 1] == c;
    var t' := TimedRun(t.states + [After(c, e, now)], t.turns + [Turn(e, now)]);
    forall i {:trigger t'.turns[i]} | 0 <= i < |t'.turns|
      ensures IsStep(t'.states[i], t'.turns[i], t'.states[i + 1], start, timeout)
    {
      if i < |t.turns| {
        assert IsStep(t.states[i], t.turns[i], t.states[i + 1], start, timeout);
      }
    }
  }

  /** Between two writes: the loop is at its select with an empty queue, and the log is what it wrote. */
  ghost predicate Rests(c: Clocked, start: nat, timeout: nat) {
    && Reaches(c, start, timeout) && c.now == LastWrite(c.log, start)
    && c.k.writer.Idle? && c.k.outgoing == [] && c.k.attached && !c.k.disconnect.ChangedSince(c.k.writerSeen)
  }

  lemma MessageThenRests(c: Clocked, m: Message, now: nat, start: nat, timeout: nat) returns (c': Clocked)
    requires Rests(c, start, timeout) && c.now <= now <= c.now + timeout
    ensures Rests(c', start, timeout) && c'.log == c.log + [Write(now, Carried(m))]
  {
    ReachesNext(c, K.Offer(m), now, start, timeout);
    var c1 := After(c, K.Offer(m), now);
    ReachesNext(c1, K.WriterReceived, now, start, timeout);
    var c2 := After(c1, K.WriterReceived, now);
    ReachesNext(c2, K.WriteDone, now, start, timeout);
    c' := After(c2, K.WriteDone, now);
  }

  lemma PingThenRests(c: Clocked, start: nat, timeout: nat) returns (c': Clocked)
    requires Rests(c, start, timeout)
    ensures Rests(c', start, timeout) && c'.log == c.log + [Write(c.now + timeout, KeepAlivePing)]
  {
    var now := c.now + timeout;
    ReachesNext(c, K.PingDue, now, start, timeout);
    var c1 := After(c, K.PingDue, now);
    ReachesNext(c1, K.WriteDone, now, start, timeout);
    c' := After(c1, K.WriteDone, now);
  }

  lemma NewRests(start: nat, timeout: nat) returns (c: Clocked)
    ensures Rests(c, start, timeout) && c.log == []
  {
    c := Clocked(K.NEW, start, []);
    assert IsTimedRun(TimedRun([c], []), start, timeout);
  }

  lemma LogGrows(log: seq<Write>, w: Write, arrivals: seq<Arrival>, sent: nat)
    requires sent <= |arrivals| && Payload(Frames(log)) == MessagesOf(arrivals[..sent])
    ensures SentBefore(log + [w], |log|) == sent
    ensures Payload(Frames(log + [w])) == Payload(Frames(log)) + (if w.frame.Carried? then [w.frame.message] else [])
  {
    assert Frames(log + [w]) == Frames(log) + [w.frame];
    assert Frames(log + [w])[..|log|] == Frames(log);
    PayloadAppend(Frames(log), w.frame);
  }

  /**
   * The first `n` writes of a loop that starts at time `start` and is not told to disconnect. Each write is a timely
   * message or a timely ping; without the pings, the wire is a prefix of the arrivals; and it all happens in a timed run
   * of the keep-alive.
   */
  method FirstWrites(arrivals: seq<Arrival>, start: nat, timeout: nat, n: nat) returns (log: seq<Write>, ghost c: Clocked)
    requires InTimeOrder(arrivals)
    ensures |log| == n
    ensures forall k :: 0 <= k < n ==> Timely(log, arrivals, start, timeout, k)
    ensures Payload(Frames(log)) <= MessagesOf(arrivals)
    ensures Reaches(c, start, timeout) && c.log == log
  {
    log := [];
    c := NewRests(start, timeout);
    var now, sent := start, 0;
    while |log| < n
      invariant |log| <= n && sent <= |arrivals| && now == LastWrite(log, start)
      invariant Payload(Frames(log)) == MessagesOf(arrivals[..sent])
      invariant forall k :: 0 <= k < |log| ==> Timely(log, arrivals, start, timeout, k)
      invariant Rests(c, start, timeout) && c.log == log
      decreases n - |log|
    {
      var w;
      if sent < |arrivals| && arrivals[sent].time <= now + timeout {
        // The message arm precedes the timer arm, also when both are ready.
        w := Write(if arrivals[sent].time <= now then now else arrivals[sent].time, Carried(arrivals[sent].message));
        c := MessageThenRests(c, w.frame.message, w.time, start, timeout);
        assert MessagesOf(arrivals[..sent + 1]) == MessagesOf(arrivals[..sent]) + [w.frame.message];
      } else {
        w := Write(now + timeout, KeepAlivePing);
        c := PingThenRests(c, start, timeout);
      }
      forall k | 0 <= k < |log| ensures Timely(log + [w], arrivals, start, timeout, k) {
        TimelyPrefix(log, w, arrivals, start, timeout, k);
      }
      LogGrows(log, w, arrivals, sent);
      log := log + [w];
      now := w.time;
      if w.frame.Carried? {
        sent := sent + 1;
      }
    }
    assert MessagesOf(arrivals[..sent]) == MessagesOf(arrivals)[..sent];
  }

  /** A ping goes out exactly if no message came within the timeout. */
  lemma PingIffSilent(log: seq<Write>, arrivals: seq<Arrival>, start: nat, timeout: nat, k: nat)
    requires k < |log| && Timely(log, arrivals, start, timeout, k)
    ensures log[k].frame == KeepAlivePing <==>
      && SentBefore(log, k) <= |arrivals|
      && (SentBefore(log, k) < |arrivals| ==> arrivals[SentBefore(log, k)].time > Since(log, start, k) + timeout)
  {
  }
}
