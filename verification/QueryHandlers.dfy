/**
 * Handlers of relay messages and status checks, running as interleaved tasks that share the metrics and the reply queue.
 * A handler is cut at every point where another task may get in between: also between two metric updates.
 */
module QueryHandlers {
  import opened Messages

  datatype Payload =
    | Invoke(data: nat)
    | CreateCells(data: nat)
    | ExtractData(data: nat)
    | GetConfigSchema
    | GetSupportedQueryTypes
    | Unsupported(data: nat)

  datatype Failure =
    | UnsupportedVersion(version: nat)
    | NotFound
    | ModuleFailure(code: nat)
    | UnsupportedPayload(payload: Payload)
    | ProviderFailure(code: nat)

  /** A provider's answer to a call. */
  datatype Result = Ok(data: nat) | Err(code: nat)

  datatype Body = Response(to: Payload, data: nat) | ErrorResponse(failure: Failure)

  datatype Reply = Reply(opId: nat, body: Body)

  datatype Request = Request(opId: Option<nat>, version: nat, source: string, payload: Payload)

  /** The outcome of loading a provider's module. */
  datatype Module = Loaded(id: nat) | Broken(code: nat)

  datatype Labels = Labels(version: nat, providerType: string, source: string)

  datatype Origin = Relay | StatusCheck

  datatype Phase =
    | Arrived
    | Rejected                               // the message has no operation id
    | Panicked                               // a lookup failed
    | Started(labels: Labels)                // counted as started
    | Calling(labels: Labels)                // and in the gauge of concurrent queries
    | Returned(labels: Labels, reply: Reply) // out of the gauge, duration not yet observed
    | Replying(reply: Reply)
    | Done(reply: Reply)
    | Undeliverable(reply: Reply)

  /** `result` is a history: what the provider returned to this handler's call. */
  datatype Handler = Handler(origin: Origin, request: Request, phase: Phase, result: Option<Result>)

  datatype Service = Service(
    sources: map<string, string>,
    modules: map<string, Module>,
    handlers: seq<Handler>,
    startedTotal: multiset<Labels>,
    concurrent: map<Labels, int>,
    observed: multiset<Labels>,
    replies: seq<Reply>,
    open: bool)

  datatype Event =
    | Spawn(origin: Origin, request: Request)
    | Inspect(h: nat)
    | EnterGauge(h: nat)
    | CallReturns(h: nat, result: Result)
    | Observe(h: nat)
    | SendReply(h: nat)
    | StopSending

  /** The simple form of a handler: why it returns early, if it does. */
  function EarlyFailure(sources: map<string, string>, modules: map<string, Module>, r: Request): Option<Failure>
    requires r.version == 2 && r.source in sources ==> sources[r.source] in modules
  {
    if r.version != 2 then Some(UnsupportedVersion(r.version))
    else if r.source !in sources then Some(NotFound)
    else
      match modules[sources[r.source]]
      case Loaded(_) => None
      case Broken(code) => Some(ModuleFailure(code))
  }

  function BodyOf(p: Payload, result: Result): Body {
    if p.Unsupported? then ErrorResponse(UnsupportedPayload(p))
    else
      match result
      case Ok(data) => Response(p, data)
      case Err(code) => ErrorResponse(ProviderFailure(code))
  }

  function LabelsOf(sources: map<string, string>, r: Request): Labels
    requires r.source in sources
  {
    Labels(r.version, sources[r.source], r.source)
  }

  function Gauge(s: Service, l: Labels): int {
    if l in s.concurrent then s.concurrent[l] else 0
  }

  predicate Enabled(s: Service, e: Event) {
    match e
    // A status check builds its own request, with an operation id, for a configured source.
    case Spawn(origin, r) => origin.StatusCheck? ==> r.opId.Some? && r.version == 2 && r.payload.Invoke?
    case Inspect(h) => h < |s.handlers| && s.handlers[h].phase.Arrived?
    case EnterGauge(h) => h < |s.handlers| && s.handlers[h].phase.Started?
    case CallReturns(h, _) => h < |s.handlers| && s.handlers[h].phase.Calling? && s.handlers[h].request.opId.Some?
    case Observe(h) => h < |s.handlers| && s.handlers[h].phase.Returned?
    case SendReply(h) => h < |s.handlers| && s.handlers[h].phase.Replying?
    case StopSending => s.open
  }

  function Moved(s: Service, h: nat, phase: Phase): Service
    requires h < |s.handlers|
  {
    s.(handlers := s.handlers[h := s.handlers[h].(phase := phase)])
  }

  /** `handle_message_inner` up to the first metric. The lookup of the provider's module may panic. */
  function Inspected(s: Service, r: Request): Phase {
    if r.opId == None then Rejected
    else if r.version == 2 && r.source in s.sources && s.sources[r.source] !in s.modules then Panicked
    else
      match EarlyFailure(s.sources, s.modules, r)
      case Some(failure) => Replying(Reply(r.opId.value, ErrorResponse(failure)))
      case None => Started(LabelsOf(s.sources, r))
  }

  function Apply(s: Service, e: Event): Service
    requires Enabled(s, e)
  {
    match e
    case Spawn(origin, r) => s.(handlers := s.handlers + [Handler(origin, r, Arrived, None)])
    case Inspect(h) =>
      var phase := Inspected(s, s.handlers[h].request);
      Moved(s, h, phase).(
        startedTotal := s.startedTotal + if phase.Started? then multiset{phase.labels} else multiset{})
    case EnterGauge(h) =>
      var l := s.handlers[h].phase.labels;
      Moved(s, h, Calling(l)).(concurrent := s.concurrent[l := Gauge(s, l) + 1])
    case CallReturns(h, result) =>
      var l, r := s.handlers[h].phase.labels, s.handlers[h].request;
      var returned := s.handlers[h].(phase := Returned(l, Reply(r.opId.value, BodyOf(r.payload, result))),
                                     result := Some(result));
      s.(handlers := s.handlers[h := returned], concurrent := s.concurrent[l := Gauge(s, l) - 1])
    case Observe(h) =>
      var l := s.handlers[h].phase.labels;
      Moved(s, h, Replying(s.handlers[h].phase.reply)).(observed := s.observed + multiset{l})
    case SendReply(h) =>
      var reply := s.handlers[h].phase.reply;
      if s.handlers[h].origin.StatusCheck? then Moved(s, h, Done(reply))
      else if s.open then Moved(s, h, Done(reply)).(replies := s.replies + [reply])
      else Moved(s, h, Undeliverable(reply))
    case StopSending => s.(open := false)
  }

  /** A run: the states it goes through and the events in between. */
  datatype Run = Run(states: seq<Service>, events: seq<Event>)

  ghost predicate IsStep(s: Service, e: Event, s': Service) {
    Enabled(s, e) && s' == Apply(s, e)
  }

  ghost predicate IsRun(r: Run) {
    && |r.states| == |r.events| + 1
    && forall i {:trigger r.events[i]} :: 0 <= i < |r.events| ==> IsStep(r.states[i], r.events[i], r.states[i + 1])
  }

  function Initial(sources: map<string, string>, modules: map<string, Module>): Service {
    Service(sources, modules, [], multiset{}, map[], multiset{}, [], true)
  }

  // ----- Metrics -----

  predicate InGauge(h: Handler, l: Labels) {
    h.phase.Calling? && h.phase.labels == l
  }

  predicate Measured(p: Phase) {
    p.Started? || p.Calling? || p.Returned?
  }

  predicate InMetrics(h: Handler, l: Labels) {
    Measured(h.phase) && h.phase.labels == l
  }

  function One(b: bool): nat {
    if b then 1 else 0
  }

  /** The number of handlers between the increment and the decrement of the gauge. */
  function CallingCount(hs: seq<Handler>, l: Labels): nat {
    if hs == [] then 0 else CallingCount(hs[..|hs| - 1], l) + One(InGauge(hs[|hs| - 1], l))
  }

  /** The number of handlers between their first and their last metric update. */
  function MeasuredCount(hs: seq<Handler>, l: Labels): nat {
    if hs == [] then 0 else MeasuredCount(hs[..|hs| - 1], l) + One(InMetrics(hs[|hs| - 1], l))
  }

  lemma {:induction false} CountsAfterMove(hs: seq<Handler>, i: nat, h: Handler, l: Labels)
    requires i < |hs|
    ensures CallingCount(hs[i := h], l) == CallingCount(hs, l) - One(InGauge(hs[i], l)) + One(InGauge(h, l))
    ensures MeasuredCount(hs[i := h], l) == MeasuredCount(hs, l) - One(InMetrics(hs[i], l)) + One(InMetrics(h, l))
  {
    var n := |hs| - 1;
    if i == n {
      assert hs[i := h][..n] == hs[..n];
    } else {
      assert hs[i := h][..n] == hs[..n][i := h];
      CountsAfterMove(hs[..n], i, h, l);
    }
  }

  lemma CountsAfterSpawn(hs: seq<Handler>, h: Handler, l: Labels)
    ensures CallingCount(hs + [h], l) == CallingCount(hs, l) + One(InGauge(h, l))
    ensures MeasuredCount(hs + [h], l) == MeasuredCount(hs, l) + One(InMetrics(h, l))
  {
    assert (hs + [h])[..|hs|] == hs;
  }

  ghost predicate MetricsAgree(s: Service) {
    forall l :: MetricsAgreeOn(s, l)
  }

  ghost predicate MetricsAgreeOn(s: Service, l: Labels) {
    && Gauge(s, l) == CallingCount(s.handlers, l)
    && s.startedTotal[l] == s.observed[l] + MeasuredCount(s.handlers, l)
  }

  /** A move of one handler changes the metrics as it changes that handler's place in them. */
  ghost predicate MovesMetrics(s: Service, s': Service, i: nat, l: Labels)
    requires i < |s.handlers|
  {
    && |s'.handlers| == |s.handlers| && s'.handlers == s.handlers[i := s'.handlers[i]]
    && Gauge(s', l) + One(InGauge(s.handlers[i], l)) == Gauge(s, l) + One(InGauge(s'.handlers[i], l))
    && s'.startedTotal[l] + s.observed[l] + One(InMetrics(s.handlers[i], l))
       == s.startedTotal[l] + s'.observed[l] + One(InMetrics(s'.handlers[i], l))
  }

  lemma MoveKeepsMetrics(s: Service, s': Service, i: nat, l: Labels)
    requires MetricsAgreeOn(s, l) && i < |s.handlers| && MovesMetrics(s, s', i, l)
    ensures MetricsAgreeOn(s', l)
  {
    CountsAfterMove(s.handlers, i, s'.handlers[i], l);
  }

  lemma UnmeasuredMove(s: Service, h: nat, phase: Phase, l: Labels)
    requires h < |s.handlers| && !Measured(s.handlers[h].phase) && !Measured(phase)
    ensures MovesMetrics(s, Moved(s, h, phase), h, l)
  {
  }

  lemma StartingMove(s: Service, h: nat, labels: Labels, l: Labels)
    requires h < |s.handlers| && s.handlers[h].phase.Arrived?
    ensures MovesMetrics(s, Moved(s, h, Started(labels)).(startedTotal := s.startedTotal + multiset{labels}), h, l)
  {
  }

  lemma EndingMove(s: Service, h: nat, l: Labels)
    requires h < |s.handlers| && s.handlers[h].phase.Returned?
    ensures MovesMetrics(s, Apply(s, Observe(h)), h, l)
  {
  }

  /**
   * Every early return, or panic, comes before the first metric: it leaves all metrics and the replies as they were. A
   * handler goes on exactly if its message has an operation id and no early failure, and is then counted as started once.
   */
  lemma EarlyReturnsMoveNoMetric(s: Service, h: nat)
    requires Enabled(s, Inspect(h))
    ensures var s', r := Apply(s, Inspect(h)), s.handlers[h].request;
      && s'.observed == s.observed && s'.concurrent == s.concurrent && s'.replies == s.replies
      && (s'.startedTotal == s.startedTotal <==> !s'.handlers[h].phase.Started?)
      && (s'.handlers[h].phase.Started? ==> s'.startedTotal == s.startedTotal + multiset{LabelsOf(s.sources, r)})
      && (ModulesComplete(s) ==>
           (s'.handlers[h].phase.Started? <==> r.opId.Some? && EarlyFailure(s.sources, s.modules, r) == None))
  {
    var phase := Inspected(s, s.handlers[h].request);
    if phase.Started? {
      assert (s.startedTotal + multiset{phase.labels})[phase.labels] == s.startedTotal[phase.labels] + 1;
    } else {
      assert s.startedTotal + multiset{} == s.startedTotal;
    }
  }

  lemma InspectMovesMetrics(s: Service, h: nat, l: Labels)
    requires Enabled(s, Inspect(h))
    ensures MovesMetrics(s, Apply(s, Inspect(h)), h, l)
  {
    var phase := Inspected(s, s.handlers[h].request);
    if phase.Started? {
      StartingMove(s, h, phase.labels, l);
    } else {
      assert s.startedTotal + multiset{} == s.startedTotal;
      UnmeasuredMove(s, h, phase, l);
    }
  }

  lemma SendMovesMetrics(s: Service, h: nat, l: Labels)
    requires Enabled(s, SendReply(h))
    ensures MovesMetrics(s, Apply(s, SendReply(h)), h, l)
  {
    UnmeasuredMove(s, h, Apply(s, SendReply(h)).handlers[h].phase, l);
  }

  lemma GaugeMovesMetrics(s: Service, e: Event, l: Labels)
    requires Enabled(s, e) && (e.EnterGauge? || e.CallReturns?)
    ensures MovesMetrics(s, Apply(s, e), e.h, l)
  {
  }

  lemma StepMovesMetrics(s: Service, e: Event, l: Labels)
    requires Enabled(s, e) && !e.Spawn? && !e.StopSending?
    ensures MovesMetrics(s, Apply(s, e), e.h, l)
  {
    match e
    case Inspect(h) => InspectMovesMetrics(s, h, l);
    case EnterGauge(_) => GaugeMovesMetrics(s, e, l);
    case CallReturns(_, _) => GaugeMovesMetrics(s, e, l);
    case Observe(h) => EndingMove(s, h, l);
    case SendReply(h) => SendMovesMetrics(s, h, l);
  }

  lemma StepKeepsMetrics(s: Service, e: Event)
    requires MetricsAgree(s) && Enabled(s, e)
    ensures MetricsAgree(Apply(s, e))
  {
    forall l ensures MetricsAgreeOn(Apply(s, e), l) {
      assert MetricsAgreeOn(s, l);
      match e
      case Spawn(origin, r) => CountsAfterSpawn(s.handlers, Handler(origin, r, Arrived, None), l);
      case StopSending =>
      case _ =>
        StepMovesMetrics(s, e, l);
        MoveKeepsMetrics(s, Apply(s, e), e.h, l);
    }
  }

  lemma {:induction false} NobodyMeasured(hs: seq<Handler>, l: Labels)
    requires forall i :: 0 <= i < |hs| ==> !InMetrics(hs[i], l)
    ensures CallingCount(hs, l) == 0 && MeasuredCount(hs, l) == 0
  {
    if hs != [] {
      NobodyMeasured(hs[..|hs| - 1], l);
    }
  }

  // ----- Replies -----

  predicate CarriesReply(p: Phase) {
    p.Returned? || p.Replying? || p.Done? || p.Undeliverable?
  }

  /**
   * The simple form's answer to a handler's request: its early failure, without any call, or what the result of this
   * handler's own call makes it.
   */
  predicate Answers(s: Service, h: Handler, body: Body)
    requires ModulesComplete(s)
  {
    match EarlyFailure(s.sources, s.modules, h.request)
    case Some(failure) => h.result == None && body == ErrorResponse(failure)
    case None => h.result.Some? && body == BodyOf(h.request.payload, h.result.value)
  }

  /** Every configured source's provider type has a module, loaded or broken. */
  predicate ModulesComplete(s: Service) {
    forall name :: name in s.sources ==> s.sources[name] in s.modules
  }

  /** A handler's reply answers its own request, and nothing is done for a request without an operation id. */
  ghost predicate Matches(s: Service, h: Handler)
    requires ModulesComplete(s)
  {
    && (CarriesReply(h.phase) ==>
         h.request.opId == Some(h.phase.reply.opId) && Answers(s, h, h.phase.reply.body))
    && (!CarriesReply(h.phase) ==> h.result == None)
    && (Measured(h.phase) ==>
         && h.request.version == 2 && h.request.source in s.sources
         && h.phase.labels == Labels(2, s.sources[h.request.source], h.request.source))
    && (h.phase.Started? || h.phase.Calling? ==> EarlyFailure(s.sources, s.modules, h.request) == None)
    && (h.request.opId == None ==> h.phase.Arrived? || h.phase.Rejected?)
    && (h.phase.Rejected? ==> h.request.opId == None)
    && (h.origin.StatusCheck? ==> h.request.opId.Some?)
    && !h.phase.Panicked?
    && (s.open ==> !h.phase.Undeliverable?)
  }

  /** Per handler, what it put into the reply queue. */
  function SentBy(h: Handler): seq<Reply> {
    if h.origin.Relay? && h.phase.Done? then [h.phase.reply] else []
  }

  function Sent(hs: seq<Handler>): seq<seq<Reply>> {
    seq(|hs|, i requires 0 <= i < |hs| => SentBy(hs[i]))
  }

  ghost predicate RepliesAgree(s: Service) {
    && ModulesComplete(s)
    && (forall i :: 0 <= i < |s.handlers| ==> Matches(s, s.handlers[i]))
    && multiset(s.replies) == multiset(Concat(Sent(s.handlers)))
  }

  lemma MoveAndReplies(s: Service, s': Service, i: nat)
    requires RepliesAgree(s) && i < |s.handlers| && |s'.handlers| == |s.handlers|
    requires s'.handlers == s.handlers[i := s'.handlers[i]]
    requires s'.open == s.open && s'.sources == s.sources && s'.modules == s.modules
    requires Matches(s, s'.handlers[i])
    requires SentBy(s.handlers[i]) == [] && s'.replies == s.replies + SentBy(s'.handlers[i])
    ensures RepliesAgree(s')
  {
    assert ModulesComplete(s');
    forall j | 0 <= j < |s'.handlers| ensures Matches(s', s'.handlers[j]) {
      assert Matches(s, s'.handlers[j]);
    }
    assert Sent(s'.handlers) == Sent(s.handlers)[i := SentBy(s'.handlers[i])];
    ConcatExchange(Sent(s.handlers), i, SentBy(s'.handlers[i]));
  }

  lemma InspectKeepsReplies(s: Service, h: nat)
    requires RepliesAgree(s) && Enabled(s, Inspect(h))
    ensures RepliesAgree(Apply(s, Inspect(h)))
  {
    assert Matches(s, s.handlers[h]);
    MoveAndReplies(s, Apply(s, Inspect(h)), h);
  }

  lemma CallKeepsReplies(s: Service, h: nat, result: Result)
    requires RepliesAgree(s) && Enabled(s, CallReturns(h, result))
    ensures RepliesAgree(Apply(s, CallReturns(h, result)))
  {
    assert Matches(s, s.handlers[h]);
    MoveAndReplies(s, Apply(s, CallReturns(h, result)), h);
  }

  lemma EnterKeepsReplies(s: Service, h: nat)
    requires RepliesAgree(s) && Enabled(s, EnterGauge(h))
    ensures RepliesAgree(Apply(s, EnterGauge(h)))
  {
    assert Matches(s, s.handlers[h]);
    MoveAndReplies(s, Apply(s, EnterGauge(h)), h);
  }

  lemma ObserveKeepsReplies(s: Service, h: nat)
    requires RepliesAgree(s) && Enabled(s, Observe(h))
    ensures RepliesAgree(Apply(s, Observe(h)))
  {
    assert Matches(s, s.handlers[h]);
    MoveAndReplies(s, Apply(s, Observe(h)), h);
  }

  lemma SendKeepsReplies(s: Service, h: nat)
    requires RepliesAgree(s) && Enabled(s, SendReply(h))
    ensures RepliesAgree(Apply(s, SendReply(h)))
  {
    assert Matches(s, s.handlers[h]);
    MoveAndReplies(s, Apply(s, SendReply(h)), h);
  }

  lemma StepKeepsReplies(s: Service, e: Event)
    requires RepliesAgree(s) && Enabled(s, e)
    ensures RepliesAgree(Apply(s, e))
  {
    var s' := Apply(s, e);
    match e
    case Spawn(origin, r) =>
      assert ModulesComplete(s');
      forall j | 0 <= j < |s'.handlers| ensures Matches(s', s'.handlers[j]) {
        assert j < |s.handlers| ==> Matches(s, s.handlers[j]);
      }
      assert Sent(s'.handlers) == Sent(s.handlers) + [[]];
      ConcatAppend(Sent(s.handlers), []);
    case StopSending =>
      assert ModulesComplete(s');
      forall j | 0 <= j < |s'.handlers| ensures Matches(s', s'.handlers[j]) {
        assert Matches(s, s.handlers[j]);
      }
    case Inspect(h) => InspectKeepsReplies(s, h);
    case SendReply(h) => SendKeepsReplies(s, h);
    case CallReturns(h, result) => CallKeepsReplies(s, h, result);
    case EnterGauge(h) => EnterKeepsReplies(s, h);
    case Observe(h) => ObserveKeepsReplies(s, h);
  }

  lemma InitialAgrees(sources: map<string, string>, modules: map<string, Module>)
    requires ModulesComplete(Initial(sources, modules))
    ensures MetricsAgree(Initial(sources, modules)) && RepliesAgree(Initial(sources, modules))
  {
    assert Sent([]) == [];
  }

  lemma {:induction false} RunKeepsMetrics(r: Run, j: nat)
    requires IsRun(r) && MetricsAgree(r.states[0]) && j < |r.states|
    ensures MetricsAgree(r.states[j])
  {
    if j > 0 {
      RunKeepsMetrics(r, j - 1);
      assert IsStep(r.states[j - 1], r.events[j - 1], r.states[j]);
      StepKeepsMetrics(r.states[j - 1], r.events[j - 1]);
    }
  }

  lemma {:induction false} RunKeepsReplies(r: Run, j: nat)
    requires IsRun(r) && RepliesAgree(r.states[0]) && j < |r.states|
    ensures RepliesAgree(r.states[j])
  {
    if j > 0 {
      RunKeepsReplies(r, j - 1);
      assert IsStep(r.states[j - 1], r.events[j - 1], r.states[j]);
      StepKeepsReplies(r.states[j - 1], r.events[j - 1]);
    }
  }

  /** A run of the handlers of a service whose modules were loaded for its sources. */
  ghost predicate IsRunFromStart(sources: map<string, string>, modules: map<string, Module>, r: Run) {
    IsRun(r) && r.states[0] == Initial(sources, modules) && ModulesComplete(r.states[0])
  }

  /**
   * Gauge conservation: in every interleaving, for every label triple, the gauge is the number of handlers between its
   * increment and its decrement, and the started total is the number of observed durations plus the handlers in between.
   * So the gauge is back at zero, and all started queries are observed, whenever no handler is being measured.
   */
  lemma {:induction false} GaugeCountsRunningCalls(sources: map<string, string>, modules: map<string, Module>,
                                                   r: Run, j: nat, l: Labels)
    requires IsRunFromStart(sources, modules, r) && j < |r.states|
    ensures var s := r.states[j];
      && Gauge(s, l) == CallingCount(s.handlers, l)
      && s.startedTotal[l] == s.observed[l] + MeasuredCount(s.handlers, l)
      && ((forall i :: 0 <= i < |s.handlers| ==> !InMetrics(s.handlers[i], l)) ==>
           Gauge(s, l) == 0 && s.startedTotal[l] == s.observed[l])
  {
    InitialAgrees(sources, modules);
    RunKeepsMetrics(r, j);
    var s := r.states[j];
    assert MetricsAgreeOn(s, l);
    if forall i :: 0 <= i < |s.handlers| ==> !InMetrics(s.handlers[i], l) {
      NobodyMeasured(s.handlers, l);
    }
  }

  /**
   * Requests and replies: in every interleaving, the queued replies are exactly, one for one, those of the finished relay
   * handlers, and each carries its own request's operation id and the simple form's answer to that request, made from the
   * result of that handler's own provider call, however the handlers were interleaved; a request without an id gets none;
   * a status check is never rejected (so its `expect` cannot fail), and no lookup fails (so the handler's `unwrap` cannot).
   * While the outgoing task listens no reply is lost.
   */
  lemma {:induction false} RepliesMatchRequests(sources: map<string, string>, modules: map<string, Module>,
                                                r: Run, j: nat)
    requires IsRunFromStart(sources, modules, r) && j < |r.states|
    ensures var s := r.states[j];
      && ModulesComplete(s) && multiset(s.replies) == multiset(Concat(Sent(s.handlers)))
      && (s.open ==> forall i :: 0 <= i < |s.handlers| ==> !s.handlers[i].phase.Undeliverable?)
      && forall i :: 0 <= i < |s.handlers| ==> var h := s.handlers[i];
           && (SentBy(h) != [] ==>
                h.request.opId == Some(SentBy(h)[0].opId) && Answers(s, h, SentBy(h)[0].body))
           && (h.request.opId == None ==> SentBy(h) == [])
           && !h.phase.Panicked? && (h.origin.StatusCheck? ==> !h.phase.Rejected?)
  {
    InitialAgrees(sources, modules);
    RunKeepsReplies(r, j);
    var s := r.states[j];
    assert forall i :: 0 <= i < |s.handlers| ==> Matches(s, s.handlers[i]);
  }

  /** Why a request is turned down: the first of three reasons that applies. */
  ghost predicate IsTurnedDown(sources: map<string, string>, modules: map<string, Module>, r: Request, why: Failure)
    requires r.version == 2 && r.source in sources ==> sources[r.source] in modules
  {
    if r.version != 2 then why == UnsupportedVersion(r.version)
    else if r.source !in sources then why == NotFound
    else modules[sources[r.source]].Broken? && why == ModuleFailure(modules[sources[r.source]].code)
  }

  /** Nothing speaks against calling the provider. */
  predicate IsAdmitted(sources: map<string, string>, modules: map<string, Module>, r: Request)
    requires r.version == 2 && r.source in sources ==> sources[r.source] in modules
  {
    r.version == 2 && r.source in sources && modules[sources[r.source]].Loaded?
  }

  /** What the reply to an admitted request says, by payload and provider result. */
  ghost predicate Tells(payload: Payload, result: Result, body: Body) {
    && (forall d :: body == Response(payload, d) <==> !payload.Unsupported? && result == Ok(d))
    && (forall c :: body == ErrorResponse(ProviderFailure(c)) <==> !payload.Unsupported? && result == Err(c))
    && (body == ErrorResponse(UnsupportedPayload(payload)) <==> payload.Unsupported?)
  }

  lemma BodyTells(payload: Payload, result: Result)
    ensures Tells(payload, result, BodyOf(payload, result))
  {
  }

  lemma EarlyFailureIff(sources: map<string, string>, modules: map<string, Module>, r: Request)
    requires r.version == 2 && r.source in sources ==> sources[r.source] in modules
    ensures EarlyFailure(sources, modules, r) == None <==> IsAdmitted(sources, modules, r)
    ensures forall why :: EarlyFailure(sources, modules, r) == Some(why) ==> IsTurnedDown(sources, modules, r, why)
  {
  }

  /**
   * What each queued reply says, in every interleaving: a wrong version, an unknown source and a broken module each bring
   * their own error, in that order; otherwise a supported payload brings the provider's data or the provider's error, as
   * this handler's call returned, and an unsupported one its own error. The labels under which a handler is measured are
   * its version, its source's provider type, and its source.
   */
  lemma {:induction false} RepliesSayWhatHappened(sources: map<string, string>, modules: map<string, Module>,
                                                  r: Run, j: nat, i: nat)
    requires IsRunFromStart(sources, modules, r) && j < |r.states| && i < |r.states[j].handlers|
    ensures var s := r.states[j]; var h := s.handlers[i];
      && ModulesComplete(s)
      && (SentBy(h) != [] ==>
           if IsAdmitted(s.sources, s.modules, h.request)
           then h.result.Some? && Tells(h.request.payload, h.result.value, SentBy(h)[0].body)
           else exists why :: SentBy(h)[0].body == ErrorResponse(why) && IsTurnedDown(s.sources, s.modules, h.request, why))
      && (Measured(h.phase) ==>
           h.request.source in s.sources && h.phase.labels == Labels(2, s.sources[h.request.source], h.request.source))
  {
    InitialAgrees(sources, modules);
    RunKeepsReplies(r, j);
    var s := r.states[j];
    assert Matches(s, s.handlers[i]);
    if SentBy(s.handlers[i]) != [] {
      MatchingSays(s, s.handlers[i]);
    }
  }

  lemma {:induction false} MatchingSays(s: Service, h: Handler)
    requires ModulesComplete(s) && Matches(s, h) && SentBy(h) != []
    ensures if IsAdmitted(s.sources, s.modules, h.request)
            then h.result.Some? && Tells(h.request.payload, h.result.value, SentBy(h)[0].body)
            else exists why :: SentBy(h)[0].body == ErrorResponse(why) && IsTurnedDown(s.sources, s.modules, h.request, why)
  {
    EarlyFailureIff(s.sources, s.modules, h.request);
    match EarlyFailure(s.sources, s.modules, h.request)
    case None => BodyTells(h.request.payload, h.result.value);
    case Some(why) => assert IsTurnedDown(s.sources, s.modules, h.request, why);
  }

  lemma {:induction false} StepAndSending(s: Service, e: Event)
    requires Enabled(s, e)
    ensures Apply(s, e).open <==> s.open && !e.StopSending?
    ensures !s.open ==> Apply(s, e).replies == s.replies
    ensures e.SendReply? && s.handlers[e.h].origin.Relay? ==>
      Apply(s, e).handlers[e.h].phase == (if s.open then Done(s.handlers[e.h].phase.reply)
                                          else Undeliverable(s.handlers[e.h].phase.reply))
  {
  }

  /** After the outgoing task has stopped, no reply is queued any more. */
  lemma {:induction false} StoppedForGood(r: Run, i: nat, j: nat)
    requires IsRun(r) && i < j < |r.states| && r.events[i].StopSending?
    ensures !r.states[j].open && r.states[j].replies == r.states[i + 1].replies
    decreases j
  {
    assert IsStep(r.states[j - 1], r.events[j - 1], r.states[j]);
    StepAndSending(r.states[j - 1], r.events[j - 1]);
    if i < j - 1 {
      StoppedForGood(r, i, j - 1);
    }
  }

  // ----- Start-up: which modules are loaded -----

  /** A configured data source: its name and its provider type. */
  datatype Configured = Configured(name: string, providerType: string)

  /** Collecting the list into a map: of two entries with one name the later one stays. */
  function CollectSources(list: seq<Configured>): map<string, string> {
    if list == [] then map[]
    else CollectSources(list[..|list| - 1])[list[|list| - 1].name := list[|list| - 1].providerType]
  }

  /** Each name has the provider type of its last entry, and no other name is there. */
  lemma {:induction false} LastEntryStays(list: seq<Configured>, name: string)
    ensures name in CollectSources(list) <==> exists i :: 0 <= i < |list| && list[i].name == name
    ensures forall i :: 0 <= i < |list| && list[i].name == name && (forall k :: i < k < |list| ==> list[k].name != name) ==>
      CollectSources(list)[name] == list[i].providerType
  {
    if list != [] {
      var n := |list| - 1;
      LastEntryStays(list[..n], name);
      assert list == list[..n] + [list[n]];
    }
  }

  /** Zipping the provider types with their load results, and collecting: again the later one stays. */
  function CollectModules(types: seq<string>, results: seq<Module>): map<string, Module>
    requires |types| == |results|
  {
    if types == [] then map[]
    else
      var n := |types| - 1;
      CollectModules(types[..n], results[..n])[types[n] := results[n]]
  }

  /** The values of the source map, in the order in which its keys happen to be visited. */
  function TypesOf(sources: map<string, string>, order: seq<string>): seq<string>
    requires forall name :: name in order ==> name in sources
  {
    seq(|order|, i requires 0 <= i < |order| => sources[order[i]])
  }

  lemma {:induction false} ModulesHaveTheTypes(types: seq<string>, results: seq<Module>)
    requires |types| == |results|
    ensures forall t :: t in CollectModules(types, results) <==> t in types
  {
    if types != [] {
      var n := |types| - 1;
      ModulesHaveTheTypes(types[..n], results[..n]);
      assert types == types[..n] + [types[n]];
    }
  }

  /** Each provider type has the load result of its last occurrence. */
  lemma {:induction false} LastResultStays(types: seq<string>, results: seq<Module>, i: nat)
    requires |types| == |results| && i < |types| && forall k :: i < k < |types| ==> types[k] != types[i]
    ensures types[i] in CollectModules(types, results) && CollectModules(types, results)[types[i]] == results[i]
  {
    var n := |types| - 1;
    if i < n {
      LastResultStays(types[..n], results[..n], i);
    }
  }

  /**
   * Lookup totality: for any list of data sources, with duplicate names or types, in whatever order the map is visited and
   * whatever the modules' load results, the modules' domain is exactly the set of configured provider types.
   */
  lemma {:induction false} LookupIsTotal(list: seq<Configured>, order: seq<string>, results: seq<Module>)
    requires var sources := CollectSources(list);
      (forall name :: name in order <==> name in sources) && |results| == |order|
    ensures var sources := CollectSources(list); var modules := CollectModules(TypesOf(sources, order), results);
      && (forall name :: name in sources ==> sources[name] in modules)
      && (forall t :: t in modules ==> exists name :: name in sources && sources[name] == t)
  {
    var sources := CollectSources(list);
    var types := TypesOf(sources, order);
    ModulesHaveTheTypes(types, results);
    forall name | name in sources ensures sources[name] in types {
      assert name in order;
      var i :| 0 <= i < |order| && order[i] == name;
      assert types[i] == sources[name];
    }
    forall t | t in types ensures exists name :: name in sources && sources[name] == t {
      var i :| 0 <= i < |types| && types[i] == t;
      assert order[i] in sources && sources[order[i]] == t;
    }
  }

  // ----- One handler on its own, in the form of the program -----

  /** The metrics and the configuration that `handle_message_inner` works with. */
  class QueryService {
    const sources: map<string, string>
    const modules: map<string, Module>
    var startedTotal: multiset<Labels>
    var concurrent: map<Labels, int>
    var observed: multiset<Labels>

    constructor (sources: map<string, string>, modules: map<string, Module>)
      ensures this.sources == sources && this.modules == modules
      ensures startedTotal == multiset{} && concurrent == map[] && observed == multiset{}
    {
      this.sources, this.modules := sources, modules;
      startedTotal, concurrent, observed := multiset{}, map[], multiset{};
    }

    function InProgress(l: Labels): int
      reads this
    {
      if l in concurrent then concurrent[l] else 0
    }

    /**
     * `handle_message_inner` when no other handler gets in between: no reply without an operation id, an early failure
     * that leaves the metrics alone, or the provider's answer, counted once, observed once, and out of the gauge again.
     */
    method HandleMessageInner(r: Request, provider: Payload -> Result) returns (reply: Option<Reply>)
      requires r.version == 2 && r.source in sources ==> sources[r.source] in modules
      modifies this
      ensures reply.Some? <==> r.opId.Some?
      ensures reply.Some? ==> Some(reply.value.opId) == r.opId
      ensures r.opId.Some? && !IsAdmitted(sources, modules, r) ==>
        reply.value.body.ErrorResponse? && IsTurnedDown(sources, modules, r, reply.value.body.failure)
      ensures r.opId == None || !IsAdmitted(sources, modules, r) ==> unchanged(this)
      ensures r.opId.Some? && IsAdmitted(sources, modules, r) ==>
        && Tells(r.payload, provider(r.payload), reply.value.body)
        && startedTotal == old(startedTotal) + multiset{Labels(2, sources[r.source], r.source)}
        && observed == old(observed) + multiset{Labels(2, sources[r.source], r.source)}
      ensures forall l :: InProgress(l) == old(InProgress(l))
    {
      if r.opId == None {
        return None;
      }
      var opId := r.opId.value;
      if r.version != 2 {
        return Some(Reply(opId, ErrorResponse(UnsupportedVersion(r.version))));
      }
      if r.source !in sources {
        return Some(Reply(opId, ErrorResponse(NotFound)));
      }
      var providerType := sources[r.source];
      match modules[providerType] {
        case Broken(code) => return Some(Reply(opId, ErrorResponse(ModuleFailure(code))));
        case Loaded(_) =>
      }
      var labels := Labels(r.version, providerType, r.source);
      startedTotal := startedTotal + multiset{labels};
      concurrent := concurrent[labels := InProgress(labels) + 1];
      var body;
      if r.payload.Unsupported? {
        body := ErrorResponse(UnsupportedPayload(r.payload));
      } else {
        match provider(r.payload) {
          case Ok(data) => body := Response(r.payload, data);
          case Err(code) => body := ErrorResponse(ProviderFailure(code));
        }
      }
      concurrent := concurrent[labels := InProgress(labels) - 1];
      observed := observed + multiset{labels};
      return Some(Reply(opId, body));
    }
  }
}
