/**
 * ReconnectingWebSocket: the shared handle, its channels and watch flags, and one read loop and one
 * write loop per connection generation, each pair on top of its own keep-alive. A transition system
 * with one event per `select_biased!` arm or await point; guards spell out the arm order.
 */
module ReconnectingProtocol {
  import opened Messages
  import opened Watches
  import K = KeepAliveProtocol

  datatype WriteLoop =
    | Waiting
    | Forwarding(message: Message)
    | Requeuing(message: Message)
    | LeftWrite
    | WriteEnded

  datatype ReadLoop =
    | Starting
    | Reading
    | Delivering(item: Item)
    | LeftRead(reconnect: bool)
    | Redialing(attempt: nat)
    | ReadEnded

  /** What a select arm on a watch flag sees through a loop's own receivers. */
  datatype Seen = Seen(disconnect: nat, close: nat)

  datatype Generation = Generation(
    keepAlive: K.KeepAlive,
    write: WriteLoop,
    writeSeen: Seen,
    read: ReadLoop,
    readSeen: Seen,
    // histories: what was forwarded to the incoming channel, and which read loop started this generation
    forwarded: seq<Item>,
    parent: Option<nat>)

  /** A `connect` called on the handle. */
  datatype Dial = Dialing(attempt: nat) | DialEnded

  datatype State = State(
    maxRetries: nat,
    handle: bool,
    outgoing: seq<Message>,
    retry: seq<Message>,
    incoming: seq<Item>,
    close: Watch,
    disconnect: Watch,
    sending: multiset<Message>,
    dials: seq<Dial>,
    gens: seq<Generation>,
    // histories
    accepted: seq<Message>,
    delivered: seq<Item>,
    received: seq<Item>)

  function Initial(maxRetries: nat): State {
    State(maxRetries, true, [], [], [], FRESH, FRESH, multiset{}, [], [], [], [], [])
  }

  /** The receivers in `Inner` never mark anything seen, and a loop clones them. */
  const UNSEEN := Seen(0, 0)

  function NewGeneration(parent: Option<nat>): Generation {
    Generation(K.NEW, Waiting, UNSEEN, Starting, UNSEEN, [], parent)
  }

  datatype UserEvent =
    | StartSend(message: Message)
    | Accept(message: Message)
    | Close
    | Receive
    | Connect
    | DialFails(dial: nat, clientError: bool)
    | DialSucceeds(dial: nat)
    | DropHandle

  datatype WriteEvent =
    | TakeRetry
    | TakeOutgoing
    | OutgoingClosed
    | WriteDisconnectArm
    | WriteCloseArm
    | Forwarded
    | Refused
    | Requeued
    | WriteEnds

  datatype ReadEvent =
    | Starts
    | TakeItem
    | ItemsEnd
    | ReadDisconnectArm
    | ReadCloseArm
    | Delivered
    | DeliveryFails
    | ReadEnds
    | RedialFails(clientError: bool)
    | RedialSucceeds

  datatype Event =
    | User(user: UserEvent)
    | Write(gen: nat, write: WriteEvent)
    | Read(gen: nat, read: ReadEvent)
    | KeepAlive(gen: nat, inner: K.Event)

  /** `Inner` lives while the user holds a handle or some read loop is reconnecting. */
  predicate InnerAlive(s: State) {
    s.handle || exists i :: 0 <= i < |s.gens| && s.gens[i].read.Redialing?
  }

  predicate UserEnabled(s: State, e: UserEvent) {
    match e
    // `send` looks at the close flag once and then waits for room in the bounded(1) channel.
    case StartSend(_) => s.handle && !s.close.value
    case Accept(m) => m in s.sending && s.outgoing == []
    case Close => s.handle
    case Receive => s.handle && s.incoming != []
    case Connect => s.handle
    case DialFails(i, _) => i < |s.dials| && s.dials[i].Dialing?
    case DialSucceeds(i) => i < |s.dials| && s.dials[i].Dialing?
    // Pending `send`s and `connect`s borrow the handle.
    case DropHandle =>
      s.handle && s.sending == multiset{} && forall i :: 0 <= i < |s.dials| ==> s.dials[i].DialEnded?
  }

  function UserApply(s: State, e: UserEvent): State
    requires UserEnabled(s, e)
  {
    match e
    case StartSend(m) => s.(sending := s.sending + multiset{m})
    case Accept(m) => s.(sending := s.sending - multiset{m}, outgoing := [m], accepted := s.accepted + [m])
    case Close => s.(close := s.close.Replace(true))
    case Receive => s.(incoming := s.incoming[1..], received := s.received + [s.incoming[0]])
    case Connect => s.(dials := s.dials + [Dialing(0)])
    case DialFails(i, clientError) =>
      s.(dials := s.dials[i :=
        if GivesUp(s, s.dials[i].attempt, clientError) then DialEnded else Dialing(s.dials[i].attempt + 1)])
    case DialSucceeds(i) => s.(dials := s.dials[i := DialEnded], gens := s.gens + [NewGeneration(None)])
    case DropHandle => s.(handle := false)
  }

  /** `connect` gives up after `max_retries` retries, and at once on an HTTP client error. */
  predicate GivesUp(s: State, attempt: nat, clientError: bool) {
    attempt == s.maxRetries || clientError
  }

  predicate WriteEnabled(s: State, g: nat, e: WriteEvent)
    requires g < |s.gens|
  {
    var gen := s.gens[g];
    match e
    case TakeRetry => gen.write.Waiting? && s.retry != []
    case TakeOutgoing => gen.write.Waiting? && s.retry == [] && s.outgoing != []
    case OutgoingClosed => gen.write.Waiting? && s.retry == [] && s.outgoing == [] && !InnerAlive(s)
    case WriteDisconnectArm =>
      && gen.write.Waiting? && s.retry == [] && s.outgoing == [] && InnerAlive(s)
      && s.disconnect.ChangedSince(gen.writeSeen.disconnect)
    case WriteCloseArm =>
      && gen.write.Waiting? && s.retry == [] && s.outgoing == [] && InnerAlive(s)
      && !s.disconnect.ChangedSince(gen.writeSeen.disconnect)
      && s.close.ChangedSince(gen.writeSeen.close)
    case Forwarded => gen.write.Forwarding? && K.Enabled(gen.keepAlive, K.Offer(gen.write.message))
    case Refused => gen.write.Forwarding? && gen.keepAlive.writer.Ended?
    case Requeued => gen.write.Requeuing? && s.retry == []
    case WriteEnds => gen.write.LeftWrite?
  }

  function WriteApply(s: State, g: nat, e: WriteEvent): State
    requires g < |s.gens| && WriteEnabled(s, g, e)
  {
    var gen := s.gens[g];
    match e
    case TakeRetry =>
      s.(retry := s.retry[1..], gens := s.gens[g := gen.(write := Forwarding(s.retry[0]))])
    case TakeOutgoing =>
      s.(outgoing := s.outgoing[1..], gens := s.gens[g := gen.(write := Forwarding(s.outgoing[0]))])
    case OutgoingClosed => s.(gens := s.gens[g := gen.(write := LeftWrite)])
    case WriteDisconnectArm =>
      s.(gens := s.gens[g := gen.(write := if s.disconnect.value then LeftWrite else Waiting,
                                  writeSeen := gen.writeSeen.(disconnect := s.disconnect.version))])
    case WriteCloseArm =>
      s.(gens := s.gens[g := gen.(write := if s.close.value then LeftWrite else Waiting,
                                  writeSeen := gen.writeSeen.(close := s.close.version))])
    case Forwarded =>
      s.(gens := s.gens[g := gen.(write := Waiting,
                                  keepAlive := K.Apply(gen.keepAlive, K.Offer(gen.write.message)))])
    case Refused => s.(gens := s.gens[g := gen.(write := Requeuing(gen.write.message))])
    case Requeued => s.(retry := [gen.write.message], gens := s.gens[g := gen.(write := LeftWrite)])
    case WriteEnds =>
      s.(disconnect := if InnerAlive(s) then s.disconnect.Replace(true) else s.disconnect,
         gens := s.gens[g := gen.(write := WriteEnded,
                                  keepAlive := if gen.read.ReadEnded? then K.Apply(gen.keepAlive, K.Detach)
                                               else gen.keepAlive)])
  }

  predicate ReadEnabled(s: State, g: nat, e: ReadEvent)
    requires g < |s.gens|
  {
    var gen := s.gens[g];
    var k := gen.keepAlive;
    match e
    case Starts => gen.read.Starting?
    case TakeItem => gen.read.Reading? && K.Enabled(k, K.Take)
    case ItemsEnd => gen.read.Reading? && k.incoming == [] && k.reader.Stopped?
    case ReadDisconnectArm =>
      && gen.read.Reading? && k.incoming == [] && !k.reader.Stopped?
      && (s.disconnect.ChangedSince(gen.readSeen.disconnect) || !InnerAlive(s))
    case ReadCloseArm =>
      && gen.read.Reading? && k.incoming == [] && !k.reader.Stopped? && InnerAlive(s)
      && !s.disconnect.ChangedSince(gen.readSeen.disconnect)
      && s.close.ChangedSince(gen.readSeen.close)
    case Delivered => gen.read.Delivering? && InnerAlive(s) && s.incoming == []
    case DeliveryFails => gen.read.Delivering? && !InnerAlive(s)
    case ReadEnds => gen.read.LeftRead?
    case RedialFails(_) => gen.read.Redialing?
    case RedialSucceeds => gen.read.Redialing?
  }

  /** A read loop that has left its loop ends unless it is to reconnect and the handle is still there. */
  predicate ReadStops(s: State, gen: Generation)
    requires gen.read.LeftRead?
  {
    !InnerAlive(s) || !gen.read.reconnect
  }

  /** The read loop's task ends; the last of the two loops to end drops the keep-alive handle. */
  function EndRead(gen: Generation): Generation
  {
    gen.(read := ReadEnded,
         keepAlive := if gen.write.WriteEnded? then K.Apply(gen.keepAlive, K.Detach) else gen.keepAlive)
  }

  function ReadApply(s: State, g: nat, e: ReadEvent): State
    requires g < |s.gens| && ReadEnabled(s, g, e)
  {
    var gen := s.gens[g];
    match e
    case Starts =>
      s.(disconnect := if InnerAlive(s) then s.disconnect.Replace(false) else s.disconnect,
         gens := s.gens[g := gen.(read := Reading)])
    case TakeItem =>
      var item := gen.keepAlive.incoming[0];
      s.(gens := s.gens[g := gen.(read := if item == CLOSE_ITEM then LeftRead(false) else Delivering(item),
                                  keepAlive := K.Apply(gen.keepAlive, K.Take))])
    case ItemsEnd => s.(gens := s.gens[g := gen.(read := LeftRead(true))])
    case ReadDisconnectArm =>
      if s.disconnect.ChangedSince(gen.readSeen.disconnect) then
        s.(gens := s.gens[g := gen.(read := if s.disconnect.value then LeftRead(true) else Reading,
                                    readSeen := gen.readSeen.(disconnect := s.disconnect.version))])
      else
        s.(gens := s.gens[g := gen.(read := LeftRead(true))])
    case ReadCloseArm =>
      s.(gens := s.gens[g := gen.(read := if s.close.value then LeftRead(false) else Reading,
                                  readSeen := gen.readSeen.(close := s.close.version))])
    case Delivered =>
      s.(incoming := [gen.read.item], delivered := s.delivered + [gen.read.item],
         gens := s.gens[g := gen.(read := Reading, forwarded := gen.forwarded + [gen.read.item])])
    case DeliveryFails => s.(gens := s.gens[g := gen.(read := LeftRead(false))])
    case ReadEnds =>
      s.(disconnect := if InnerAlive(s) then s.disconnect.Replace(true) else s.disconnect,
         gens := s.gens[g := if ReadStops(s, gen) then EndRead(gen) else gen.(read := Redialing(0))])
    case RedialFails(clientError) =>
      s.(gens := s.gens[g := if GivesUp(s, gen.read.attempt, clientError) then EndRead(gen)
                             else gen.(read := Redialing(gen.read.attempt + 1))])
    case RedialSucceeds => s.(gens := s.gens[g := EndRead(gen)] + [NewGeneration(Some(g))])
  }

  /** The keep-alive's own tasks; its handle is only used by the two loops. */
  predicate IsTaskEvent(e: K.Event) {
    !(e.Offer? || e.Take? || e.CloseHandle? || e.Detach?)
  }

  predicate Enabled(s: State, e: Event) {
    match e
    case User(u) => UserEnabled(s, u)
    case Write(g, w) => g < |s.gens| && WriteEnabled(s, g, w)
    case Read(g, r) => g < |s.gens| && ReadEnabled(s, g, r)
    case KeepAlive(g, k) => g < |s.gens| && IsTaskEvent(k) && K.Enabled(s.gens[g].keepAlive, k)
  }

  function Apply(s: State, e: Event): State
    requires Enabled(s, e)
  {
    match e
    case User(u) => UserApply(s, u)
    case Write(g, w) => WriteApply(s, g, w)
    case Read(g, r) => ReadApply(s, g, r)
    case KeepAlive(g, k) =>
      s.(gens := s.gens[g := s.gens[g].(keepAlive := K.Apply(s.gens[g].keepAlive, k))])
  }

  /** A run: the states it goes through and the events in between. */
  datatype Run = Run(states: seq<State>, events: seq<Event>)

  ghost predicate IsStep(s: State, e: Event, s': State) {
    Enabled(s, e) && s' == Apply(s, e)
  }

  ghost predicate IsRun(r: Run) {
    && |r.states| == |r.events| + 1
    && forall i {:trigger r.events[i]} :: 0 <= i < |r.events| ==> IsStep(r.states[i], r.events[i], r.states[i + 1])
  }

  /** A run from the beginning. */
  ghost predicate IsRunFromStart(n: nat, r: Run) {
    IsRun(r) && r.states[0] == Initial(n)
  }

  function WriteKeepAliveEvent(gen: Generation, w: WriteEvent): Option<K.Event> {
    match w
    case Forwarded => if gen.write.Forwarding? then Some(K.Offer(gen.write.message)) else None
    case WriteEnds => if gen.read.ReadEnded? then Some(K.Detach) else None
    case _ => None
  }

  function ReadKeepAliveEvent(s: State, gen: Generation, r: ReadEvent): Option<K.Event> {
    match r
    case TakeItem => Some(K.Take)
    case ReadEnds =>
      if gen.read.LeftRead? && ReadStops(s, gen) && gen.write.WriteEnded? then Some(K.Detach) else None
    case RedialFails(c) =>
      if gen.read.Redialing? && GivesUp(s, gen.read.attempt, c) && gen.write.WriteEnded? then Some(K.Detach)
      else None
    case RedialSucceeds => if gen.write.WriteEnded? then Some(K.Detach) else None
    case _ => None
  }

  /** The event by which a step moves the keep-alive of generation `g`, if it moves it at all. */
  function KeepAliveEvent(s: State, e: Event, g: nat): Option<K.Event>
    requires g < |s.gens|
  {
    match e
    case User(_) => None
    case Write(h, w) => if h == g then WriteKeepAliveEvent(s.gens[g], w) else None
    case Read(h, r) => if h == g then ReadKeepAliveEvent(s, s.gens[g], r) else None
    case KeepAlive(h, k) => if h == g then Some(k) else None
  }

  ghost predicate Moves(k: K.KeepAlive, e: Option<K.Event>, k': K.KeepAlive) {
    match e
    case None => k' == k
    case Some(ke) => K.Enabled(k, ke) && k' == K.Apply(k, ke)
  }

  lemma WriteRefinesKeepAlive(s: State, g: nat, w: WriteEvent)
    requires g < |s.gens| && WriteEnabled(s, g, w)
    ensures |WriteApply(s, g, w).gens| == |s.gens|
    ensures Moves(s.gens[g].keepAlive, WriteKeepAliveEvent(s.gens[g], w), WriteApply(s, g, w).gens[g].keepAlive)
    ensures forall i :: 0 <= i < |s.gens| && i != g ==> WriteApply(s, g, w).gens[i] == s.gens[i]
  {
  }

  lemma ReadRefinesKeepAlive(s: State, g: nat, r: ReadEvent)
    requires g < |s.gens| && ReadEnabled(s, g, r)
    ensures |s.gens| <= |ReadApply(s, g, r).gens| <= |s.gens| + 1
    ensures Moves(s.gens[g].keepAlive, ReadKeepAliveEvent(s, s.gens[g], r), ReadApply(s, g, r).gens[g].keepAlive)
    ensures forall i :: 0 <= i < |s.gens| && i != g ==> ReadApply(s, g, r).gens[i] == s.gens[i]
  {
  }

  /**
   * Each step of the whole protocol is, for each keep-alive, one step of the keep-alive protocol or none.
   * So everything proved of one keep-alive in isolation holds of every generation.
   */
  lemma StepRefinesKeepAlive(s: State, e: Event, g: nat)
    requires g < |s.gens| && Enabled(s, e)
    ensures |s.gens| <= |Apply(s, e).gens|
    ensures Moves(s.gens[g].keepAlive, KeepAliveEvent(s, e, g), Apply(s, e).gens[g].keepAlive)
  {
    match e
    case User(_) =>
    case Write(h, w) => WriteRefinesKeepAlive(s, h, w);
    case Read(h, r) => ReadRefinesKeepAlive(s, h, r);
    case KeepAlive(_, _) =>
  }

  ghost predicate Attachment(gen: Generation) {
    gen.keepAlive.attached <==> !(gen.read.ReadEnded? && gen.write.WriteEnded?)
  }

  ghost predicate GenValid(gen: Generation) {
    K.Valid(gen.keepAlive) && Attachment(gen)
  }

  ghost predicate QueuesValid(s: State) {
    |s.outgoing| <= 1 && |s.retry| <= 1 && |s.incoming| <= 1 && s.delivered == s.received + s.incoming
  }

  ghost predicate Valid(s: State) {
    QueuesValid(s) && forall i :: 0 <= i < |s.gens| ==> GenValid(s.gens[i])
  }

  lemma WriteKeepsAttachment(s: State, g: nat, w: WriteEvent)
    requires g < |s.gens| && WriteEnabled(s, g, w) && Attachment(s.gens[g])
    ensures |WriteApply(s, g, w).gens| == |s.gens| && Attachment(WriteApply(s, g, w).gens[g])
  {
  }

  lemma ReadKeepsAttachment(s: State, g: nat, r: ReadEvent)
    requires g < |s.gens| && ReadEnabled(s, g, r) && Attachment(s.gens[g])
    ensures |s.gens| <= |ReadApply(s, g, r).gens| && Attachment(ReadApply(s, g, r).gens[g])
  {
  }

  lemma StepKeepsGenValid(s: State, e: Event, g: nat)
    requires g < |s.gens| && GenValid(s.gens[g]) && Enabled(s, e)
    ensures |s.gens| <= |Apply(s, e).gens| && GenValid(Apply(s, e).gens[g])
  {
    StepRefinesKeepAlive(s, e, g);
    if KeepAliveEvent(s, e, g).Some? {
      K.StepKeepsValid(s.gens[g].keepAlive, KeepAliveEvent(s, e, g).value);
    }
    match e
    case User(_) =>
    case Write(h, w) =>
      WriteRefinesKeepAlive(s, h, w);
      if h == g { WriteKeepsAttachment(s, g, w); }
    case Read(h, r) =>
      ReadRefinesKeepAlive(s, h, r);
      if h == g { ReadKeepsAttachment(s, g, r); }
    case KeepAlive(_, _) =>
  }

  /** A generation that a step adds is new. */
  ghost predicate InstallsAtMostOne(s: State, s': State) {
    && |s.gens| <= |s'.gens| <= |s.gens| + 1
    && (|s'.gens| > |s.gens| ==> exists p :: s'.gens[|s.gens|] == NewGeneration(p))
  }

  lemma UserInstalls(s: State, u: UserEvent)
    requires UserEnabled(s, u)
    ensures InstallsAtMostOne(s, UserApply(s, u))
  {
  }

  lemma ReadInstalls(s: State, g: nat, r: ReadEvent)
    requires g < |s.gens| && ReadEnabled(s, g, r)
    ensures InstallsAtMostOne(s, ReadApply(s, g, r))
  {
  }

  lemma StepInstalls(s: State, e: Event)
    requires Enabled(s, e)
    ensures InstallsAtMostOne(s, Apply(s, e))
  {
    match e
    case User(u) => UserInstalls(s, u);
    case Write(g, w) => WriteRefinesKeepAlive(s, g, w);
    case Read(g, r) => ReadInstalls(s, g, r);
    case KeepAlive(_, _) =>
  }

  lemma UserKeepsQueues(s: State, u: UserEvent)
    requires QueuesValid(s) && UserEnabled(s, u)
    ensures QueuesValid(UserApply(s, u))
  {
    if u.Receive? {
      assert s.incoming == [s.incoming[0]];
    }
  }

  lemma WriteKeepsQueues(s: State, g: nat, w: WriteEvent)
    requires QueuesValid(s) && g < |s.gens| && WriteEnabled(s, g, w)
    ensures QueuesValid(WriteApply(s, g, w))
  {
  }

  lemma ReadKeepsQueues(s: State, g: nat, r: ReadEvent)
    requires QueuesValid(s) && g < |s.gens| && ReadEnabled(s, g, r)
    ensures QueuesValid(ReadApply(s, g, r))
  {
  }

  lemma StepKeepsQueues(s: State, e: Event)
    requires QueuesValid(s) && Enabled(s, e)
    ensures QueuesValid(Apply(s, e))
  {
    match e
    case User(u) => UserKeepsQueues(s, u);
    case Write(g, w) => WriteKeepsQueues(s, g, w);
    case Read(g, r) => ReadKeepsQueues(s, g, r);
    case KeepAlive(_, _) =>
  }

  lemma NewGenIsValid(s: State, e: Event, i: nat)
    requires Enabled(s, e) && |s.gens| <= i < |Apply(s, e).gens|
    ensures GenValid(Apply(s, e).gens[i])
  {
    StepInstalls(s, e);
    var p :| Apply(s, e).gens[i] == NewGeneration(p);
  }

  lemma {:induction false} StepKeepsGens(s: State, e: Event)
    requires (forall i :: 0 <= i < |s.gens| ==> GenValid(s.gens[i])) && Enabled(s, e)
    ensures forall i :: 0 <= i < |Apply(s, e).gens| ==> GenValid(Apply(s, e).gens[i])
  {
    var gens' := Apply(s, e).gens;
    forall i | 0 <= i < |gens'| ensures GenValid(gens'[i]) {
      if i < |s.gens| {
        StepKeepsGenValid(s, e, i);
      } else {
        NewGenIsValid(s, e, i);
      }
    }
  }

  lemma StepKeepsValid(s: State, e: Event)
    requires Valid(s) && Enabled(s, e)
    ensures Valid(Apply(s, e))
  {
    StepKeepsQueues(s, e);
    StepKeepsGens(s, e);
  }

  lemma {:induction false} RunKeepsValid(r: Run, j: nat)
    requires IsRun(r) && Valid(r.states[0]) && j < |r.states|
    ensures Valid(r.states[j])
  {
    if j > 0 {
      RunKeepsValid(r, j - 1);
      assert IsStep(r.states[j - 1], r.events[j - 1], r.states[j]);
      StepKeepsValid(r.states[j - 1], r.events[j - 1]);
    }
  }

  lemma {:induction false} GensOnlyGrow(r: Run, i: nat, j: nat)
    requires IsRun(r) && i <= j < |r.states|
    ensures |r.states[i].gens| <= |r.states[j].gens|
  {
    if i < j {
      GensOnlyGrow(r, i, j - 1);
      assert IsStep(r.states[j - 1], r.events[j - 1], r.states[j]);
      StepInstalls(r.states[j - 1], r.events[j - 1]);
    }
  }

  /**
   * Refinement over runs: whatever the whole protocol does from state `i` to state `j`, each keep-alive goes through a
   * run of its own protocol. So every theorem about the runs of one keep-alive holds of each generation, however many
   * overlap.
   */
  lemma {:induction false} EachKeepAliveRunsItsProtocol(r: Run, i: nat, j: nat, g: nat)
    requires IsRun(r) && i <= j < |r.states| && g < |r.states[i].gens|
    ensures g < |r.states[j].gens|
    ensures K.Leads(r.states[i].gens[g].keepAlive, r.states[j].gens[g].keepAlive)
  {
    GensOnlyGrow(r, i, j);
    if i == j {
      K.Stays(r.states[i].gens[g].keepAlive);
    } else {
      EachKeepAliveRunsItsProtocol(r, i, j - 1, g);
      assert IsStep(r.states[j - 1], r.events[j - 1], r.states[j]);
      var k, k' := r.states[j - 1].gens[g].keepAlive, r.states[j].gens[g].keepAlive;
      StepRefinesKeepAlive(r.states[j - 1], r.events[j - 1], g);
      match KeepAliveEvent(r.states[j - 1], r.events[j - 1], g)
      case None =>
      case Some(ke) => K.LeadsOn(r.states[i].gens[g].keepAlive, k, ke, k');
    }
  }

  /**
   * Once a generation's keep-alive has raised its flag, its wire gains at most the frame being written, and the closing
   * frame.
   */
  lemma {:induction false} QuietAfterDisconnect(r: Run, i: nat, j: nat, g: nat)
    requires IsRun(r) && Valid(r.states[0]) && i <= j < |r.states|
    requires g < |r.states[i].gens| && r.states[i].gens[g].keepAlive.disconnect.value
    ensures g < |r.states[j].gens|
    ensures var k, k' := r.states[i].gens[g].keepAlive, r.states[j].gens[g].keepAlive;
      || BeforeClosing(k'.wire) == BeforeClosing(k.wire)
      || (k.writer.Writing? && BeforeClosing(k'.wire) == BeforeClosing(k.wire) + [k.writer.frame])
  {
    RunKeepsValid(r, i);
    EachKeepAliveRunsItsProtocol(r, i, j, g);
    var kr: K.Run :| K.IsRun(kr) && kr.states[0] == r.states[i].gens[g].keepAlive
                     && kr.states[|kr.states| - 1] == r.states[j].gens[g].keepAlive;
    K.AtMostOneMoreFrame(kr, 0, |kr.states| - 1);
  }
}
