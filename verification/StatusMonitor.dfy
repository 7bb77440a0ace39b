/**
 * The status task of a connected proxy: the periodic check of all data sources, the delayed retries it queues, the map
 * of the latest states, and the lists published to the relay. Retries may be handled late and in any order; the timed
 * results at the end assume instantaneous checks and prompt delivery.
 */
module StatusMonitor {
  import opened Messages
  import opened StatusCheck

  datatype DataSource = DataSource(providerType: string, description: Option<string>)

  datatype Status = Connected | Error(code: nat) | ProxyDisconnected

  datatype Upsert = Upsert(name: string, providerType: string, status: Status, description: Option<string>)

  /** A finished check: which source, and the provider's error if there was one. */
  datatype Check = Check(name: string, error: Option<nat>)

  /** A spawned retry: asleep until `due`, then in the task queue until it is handled. */
  datatype Retry = Retry(due: real, task: CheckTask)

  datatype Monitor = Monitor(
    sources: map<string, DataSource>,
    interval: real,
    nextTick: real,
    retries: seq<Retry>,
    states: map<string, Upsert>,
    stopped: bool,
    // histories: finished checks, outcomes per source since the last tick, and published lists
    log: seq<Check>,
    recent: map<string, seq<bool>>,
    published: seq<map<string, Upsert>>)

  const INITIAL_DELAY := 10.0
  const BACKOFF_FACTOR := 1.5

  function Initial(sources: map<string, DataSource>, interval: real): Monitor {
    Monitor(sources, interval, 0.0, [], map[], false, [], map[], [])
  }

  function FirstTask(m: Monitor, name: string): CheckTask
    requires m.interval > 0.0
  {
    New(name, m.interval, INITIAL_DELAY, BACKOFF_FACTOR)
  }

  function StatusOf(error: Option<nat>): Status {
    match error
    case None => Connected
    case Some(code) => Error(code)
  }

  function UpsertOf(m: Monitor, name: string, status: Status): Upsert
    requires name in m.sources
  {
    Upsert(name, m.sources[name].providerType, status, m.sources[name].description)
  }

  /** `update_data_source`: check the task's source, queue a retry if it failed and may be retried, record the state. */
  function Update(m: Monitor, task: CheckTask, error: Option<nat>, now: real): Monitor
    requires task.name in m.sources
  {
    var name := task.name;
    m.(retries := m.retries + (if error.Some? && Next(task).Some?
                               then [Retry(now + Next(task).value.0, Next(task).value.1)] else []),
       states := m.states[name := UpsertOf(m, name, StatusOf(error))],
       log := m.log + [Check(name, error)],
       recent := m.recent[name := Recent(m, name) + [error.None?]])
  }

  /** Whether each check of a source since the last tick succeeded, in order. */
  function Recent(m: Monitor, name: string): seq<bool> {
    if name in m.recent then m.recent[name] else []
  }

  /** `update_all_data_sources`: one first check per source, in whatever order they finish. */
  function UpdateAll(m: Monitor, checks: seq<Check>, now: real): Monitor
    requires m.interval > 0.0 && forall c :: c in checks ==> c.name in m.sources
    ensures var r := UpdateAll(m, checks, now); r.sources == m.sources && r.interval == m.interval
  {
    if checks == [] then m
    else
      var last := checks[|checks| - 1];
      Update(UpdateAll(m, checks[..|checks| - 1], now), FirstTask(m, last.name), last.error, now)
  }

  function Publish(m: Monitor): Monitor {
    m.(published := m.published + [m.states])
  }

  datatype Event =
    | Tick(checks: seq<Check>)
    | HandleRetry(k: nat, error: Option<nat>)
    | Shutdown

  function NamesOf(checks: seq<Check>): set<string> {
    if checks == [] then {} else NamesOf(checks[..|checks| - 1]) + {checks[|checks| - 1].name}
  }

  predicate AllDifferent(checks: seq<Check>) {
    forall i, j :: 0 <= i < j < |checks| ==> checks[i].name != checks[j].name
  }

  /** Each configured source is checked exactly once per tick. */
  predicate ChecksAll(m: Monitor, checks: seq<Check>) {
    AllDifferent(checks) && NamesOf(checks) == m.sources.Keys && forall c :: c in checks ==> c.name in m.sources
  }

  predicate Enabled(m: Monitor, e: Event) {
    !m.stopped && m.interval > 0.0 && match e
    case Tick(checks) => ChecksAll(m, checks)
    case HandleRetry(k, _) => k < |m.retries| && m.retries[k].task.name in m.sources
    case Shutdown => true
  }

  /** The list sent when the proxy goes down. */
  function Offline(m: Monitor): map<string, Upsert> {
    map name | name in m.sources :: UpsertOf(m, name, ProxyDisconnected)
  }

  /** The queue without its `k`-th retry. */
  function Without(m: Monitor, k: nat): Monitor
    requires k < |m.retries|
  {
    m.(retries := m.retries[..k] + m.retries[k + 1..])
  }

  /** The state in which the checks of a tick at time `now` start. */
  function Reset(m: Monitor): Monitor {
    m.(nextTick := m.nextTick + m.interval, recent := map[])
  }

  /** One turn of the status loop at time `now`. */
  function Apply(m: Monitor, e: Event, now: real): Monitor
    requires Enabled(m, e)
  {
    match e
    case Tick(checks) =>
      Publish(UpdateAll(Reset(m), checks, now))
    case HandleRetry(k, error) =>
      Publish(Update(Without(m, k), m.retries[k].task, error, now))
    case Shutdown => m.(stopped := true, published := m.published + [Offline(m)])
  }

  /** One turn of the loop, and the time at which it takes place. */
  datatype Turn = Turn(event: Event, now: real)

  /** A run: the states it goes through and the turns in between. */
  datatype Run = Run(states: seq<Monitor>, turns: seq<Turn>)

  ghost predicate IsStep(m: Monitor, t: Turn, m': Monitor) {
    Enabled(m, t.event) && m' == Apply(m, t.event, t.now)
  }

  ghost predicate IsRun(r: Run) {
    && |r.states| == |r.turns| + 1
    && forall i {:trigger r.turns[i]} :: 0 <= i < |r.turns| ==> IsStep(r.states[i], r.turns[i], r.states[i + 1])
  }

  ghost predicate IsRunFromStart(sources: map<string, DataSource>, interval: real, r: Run) {
    IsRun(r) && r.states[0] == Initial(sources, interval)
  }

  /** The error, if any, of the latest finished check of `name`. */
  function Latest(log: seq<Check>, name: string): Option<Option<nat>> {
    if log == [] then None
    else if log[|log| - 1].name == name then Some(log[|log| - 1].error)
    else Latest(log[..|log| - 1], name)
  }

  /** What the state map must say, given the history of checks. */
  ghost predicate StatesAgree(m: Monitor) {
    forall name :: match Latest(m.log, name)
      case None => name !in m.states
      case Some(error) =>
        name in m.sources && name in m.states && m.states[name] == UpsertOf(m, name, StatusOf(error))
  }

  ghost predicate TasksAreConfigured(m: Monitor) {
    forall r :: r in m.retries ==> r.task.name in m.sources
  }

  /** A list with exactly one entry per configured source, each under its own name. */
  predicate IsFullList(m: Monitor, list: map<string, Upsert>) {
    list.Keys == m.sources.Keys && forall name :: name in list ==> list[name].name == name
  }

  ghost predicate Valid(m: Monitor) {
    && StatesAgree(m)
    && TasksAreConfigured(m)
    && (m.log == [] ==> m.retries == [])
    && (m.log != [] ==> m.states.Keys == m.sources.Keys)
    && (forall i :: 0 <= i < |m.published| ==> IsFullList(m, m.published[i]))
    && (m.stopped ==> m.published != [] && m.published[|m.published| - 1] == Offline(m))
  }

  lemma LatestAppend(log: seq<Check>, c: Check, name: string)
    ensures Latest(log + [c], name) == if c.name == name then Some(c.error) else Latest(log, name)
  {
    assert (log + [c])[..|log|] == log;
  }

  lemma UpdateKeepsAgreement(m: Monitor, task: CheckTask, error: Option<nat>, now: real)
    requires task.name in m.sources && StatesAgree(m) && TasksAreConfigured(m)
    ensures StatesAgree(Update(m, task, error, now)) && TasksAreConfigured(Update(m, task, error, now))
  {
    forall name ensures Latest(m.log + [Check(task.name, error)], name)
        == if task.name == name then Some(error) else Latest(m.log, name) {
      LatestAppend(m.log, Check(task.name, error), name);
    }
  }

  lemma {:induction false} UpdateAllFrame(m: Monitor, checks: seq<Check>, now: real)
    requires m.interval > 0.0 && forall c :: c in checks ==> c.name in m.sources
    ensures var m' := UpdateAll(m, checks, now);
      && m'.published == m.published && m'.stopped == m.stopped && m'.nextTick == m.nextTick
      && |m'.log| == |m.log| + |checks|
      && m'.states.Keys == m.states.Keys + NamesOf(checks)
      && m'.recent.Keys == m.recent.Keys + NamesOf(checks)
  {
    if checks != [] {
      UpdateAllFrame(m, checks[..|checks| - 1], now);
    }
  }

  lemma {:induction false} UpdateAllKeepsAgreement(m: Monitor, checks: seq<Check>, now: real)
    requires m.interval > 0.0 && (forall c :: c in checks ==> c.name in m.sources)
    requires StatesAgree(m) && TasksAreConfigured(m)
    ensures StatesAgree(UpdateAll(m, checks, now)) && TasksAreConfigured(UpdateAll(m, checks, now))
  {
    if checks != [] {
      var n := |checks| - 1;
      UpdateAllKeepsAgreement(m, checks[..n], now);
      UpdateKeepsAgreement(UpdateAll(m, checks[..n], now), FirstTask(m, checks[n].name), checks[n].error, now);
    }
  }

  lemma StatesAreFull(m: Monitor)
    requires StatesAgree(m) && m.states.Keys == m.sources.Keys
    ensures IsFullList(m, m.states)
  {
    forall name | name in m.states ensures m.states[name].name == name {
      assert match Latest(m.log, name) case None => name !in m.states case Some(_) => true;
    }
  }

  lemma KnownSources(m: Monitor)
    requires StatesAgree(m)
    ensures m.states.Keys <= m.sources.Keys
  {
    forall name | name in m.states ensures name in m.sources {
      assert match Latest(m.log, name) case None => name !in m.states case Some(_) => name in m.sources;
    }
  }

  lemma PublishKeepsValid(m: Monitor, u: Monitor)
    requires Valid(m) && u.sources == m.sources && u.published == m.published && !u.stopped
    requires StatesAgree(u) && TasksAreConfigured(u)
    requires u.states.Keys == u.sources.Keys && (u.log == [] ==> u.retries == [])
    ensures Valid(Publish(u))
  {
    StatesAreFull(u);
    assert forall i :: 0 <= i < |m.published| ==> IsFullList(m, m.published[i]) && IsFullList(u, m.published[i]);
  }

  lemma TickKeepsValid(m: Monitor, checks: seq<Check>, now: real)
    requires Valid(m) && Enabled(m, Tick(checks))
    ensures Valid(Apply(m, Tick(checks), now))
  {
    var reset := Reset(m);
    assert StatesAgree(reset) && TasksAreConfigured(reset);
    UpdateAllFrame(reset, checks, now);
    UpdateAllKeepsAgreement(reset, checks, now);
    KnownSources(m);
    assert checks == [] ==> UpdateAll(reset, checks, now) == reset;
    PublishKeepsValid(m, UpdateAll(reset, checks, now));
  }

  lemma RetryKeepsValid(m: Monitor, k: nat, error: Option<nat>, now: real)
    requires Valid(m) && Enabled(m, HandleRetry(k, error))
    ensures Valid(Apply(m, HandleRetry(k, error), now))
  {
    var rest := Without(m, k);
    assert StatesAgree(rest) && TasksAreConfigured(rest);
    UpdateKeepsAgreement(rest, m.retries[k].task, error, now);
    var u := Update(rest, m.retries[k].task, error, now);
    assert u.states.Keys == m.states.Keys + {m.retries[k].task.name};
    PublishKeepsValid(m, u);
  }

  lemma StepKeepsValid(m: Monitor, e: Event, now: real)
    requires Valid(m) && Enabled(m, e)
    ensures Valid(Apply(m, e, now))
  {
    match e
    case Tick(checks) => TickKeepsValid(m, checks, now);
    case HandleRetry(k, error) => RetryKeepsValid(m, k, error, now);
    case Shutdown => assert StatesAgree(Apply(m, e, now));
  }

  lemma {:induction false} RunKeepsValid(sources: map<string, DataSource>, interval: real, r: Run, j: nat)
    requires IsRunFromStart(sources, interval, r) && j < |r.states|
    ensures Valid(r.states[j]) && r.states[j].sources == sources && r.states[j].interval == interval
  {
    if j > 0 {
      RunKeepsValid(sources, interval, r, j - 1);
      assert IsStep(r.states[j - 1], r.turns[j - 1], r.states[j]);
      StepKeepsValid(r.states[j - 1], r.turns[j - 1].event, r.turns[j - 1].now);
    }
  }

  /**
   * The state map agrees with history, however late the retries come: each entry is the outcome of the latest finished
   * check of that source with its configured type and description, every queued task names a configured source (so the
   * handler's `unwrap` cannot fail), every published list has exactly one entry per configured source, and after the
   * shutdown the last published list, which no turn follows, says that all sources are disconnected.
   */
  lemma {:induction false} StateMapAgreesWithHistory(sources: map<string, DataSource>, interval: real, r: Run, j: nat)
    requires IsRunFromStart(sources, interval, r) && j < |r.states|
    ensures var m := r.states[j];
      && m.sources == sources && StatesAgree(m) && TasksAreConfigured(m)
      && (forall i :: 0 <= i < |m.published| ==> IsFullList(m, m.published[i]))
      && (m.stopped ==>
           && m.published != [] && m.published[|m.published| - 1] == Offline(m)
           && forall e :: !Enabled(m, e))
  {
    RunKeepsValid(sources, interval, r, j);
  }

  /** What the map and the published lists must say about a source, field by field, after its latest check. */
  ghost predicate Tells(m: Monitor, name: string, error: Option<nat>, upsert: Upsert)
    requires name in m.sources
  {
    && upsert.name == name && upsert.providerType == m.sources[name].providerType
    && upsert.description == m.sources[name].description
    && (upsert.status == Connected <==> error == None)
    && forall code: nat :: upsert.status == Error(code) <==> error == Some(code)
  }

  /** Published statuses are what the checks found: each entry of the state map tells its source's latest check. */
  lemma {:induction false} StatusesTellLatestChecks(sources: map<string, DataSource>, interval: real, r: Run, j: nat,
                                                    name: string)
    requires IsRunFromStart(sources, interval, r) && j < |r.states|
    ensures var m := r.states[j]; match Latest(m.log, name)
      case None => name !in m.states
      case Some(error) => name in m.sources && name in m.states && Tells(m, name, error, m.states[name])
  {
    RunKeepsValid(sources, interval, r, j);
    EntryTells(r.states[j], name);
  }

  lemma {:induction false} EntryTells(m: Monitor, name: string)
    requires StatesAgree(m)
    ensures match Latest(m.log, name)
      case None => name !in m.states
      case Some(error) => name in m.sources && name in m.states && Tells(m, name, error, m.states[name])
  {
  }

  /** What turn `t` adds to the log: its checks as they finished. */
  function Logged(m: Monitor, t: Turn): seq<Check> {
    match t.event
    case Tick(checks) => checks
    case HandleRetry(k, error) => if k < |m.retries| then [Check(m.retries[k].task.name, error)] else []
    case Shutdown => []
  }

  lemma {:induction false} UpdateAllLogs(m: Monitor, checks: seq<Check>, now: real)
    requires m.interval > 0.0 && forall c :: c in checks ==> c.name in m.sources
    ensures UpdateAll(m, checks, now).log == m.log + checks
  {
    if checks != [] {
      var n := |checks| - 1;
      UpdateAllLogs(m, checks[..n], now);
      assert checks == checks[..n] + [checks[n]];
    }
  }

  /** The list a shutdown publishes: every source, and each disconnected. */
  ghost predicate TellsOffline(m: Monitor, list: map<string, Upsert>) {
    && list.Keys == m.sources.Keys
    && forall name :: name in list ==>
         list[name] == Upsert(name, m.sources[name].providerType, ProxyDisconnected, m.sources[name].description)
  }

  /** Each turn publishes exactly one list: the state map as it is then, or at the shutdown that all are disconnected. */
  lemma {:induction false} StepPublishes(m: Monitor, t: Turn, m': Monitor)
    requires IsStep(m, t, m')
    ensures |m'.published| == |m.published| + 1 && m'.published[..|m.published|] == m.published
    ensures var list := m'.published[|m.published|];
      if t.event.Shutdown? then TellsOffline(m, list) && m'.states == m.states else list == m'.states
    ensures m'.log == m.log + Logged(m, t)
    ensures m'.nextTick == m.nextTick + (if t.event.Tick? then m.interval else 0.0)
    ensures m'.sources == m.sources && m'.interval == m.interval
    ensures m'.stopped <==> t.event.Shutdown?
  {
    if t.event.Tick? {
      UpdateAllFrame(Reset(m), t.event.checks, t.now);
      UpdateAllLogs(Reset(m), t.event.checks, t.now);
    }
  }

  /** One list per turn, and what it said stays said: the `i`-th list is that of the `i`-th turn. */
  lemma {:induction false} ListsFollowTurns(sources: map<string, DataSource>, interval: real, r: Run, j: nat, i: nat)
    requires IsRunFromStart(sources, interval, r) && i < j < |r.states|
    ensures |r.states[j].published| == j
    ensures var list := r.states[j].published[i];
      if r.turns[i].event.Shutdown? then TellsOffline(r.states[0], list) else list == r.states[i + 1].states
    decreases j
  {
    PublishedCount(sources, interval, r, j - 1);
    StepPublishes(r.states[j - 1], r.turns[j - 1], r.states[j]);
    RunKeepsValid(sources, interval, r, j - 1);
    if i < j - 1 {
      ListsFollowTurns(sources, interval, r, j - 1, i);
      assert r.states[j].published[i] == r.states[j].published[..j - 1][i];
    }
  }

  lemma {:induction false} PublishedCount(sources: map<string, DataSource>, interval: real, r: Run, j: nat)
    requires IsRunFromStart(sources, interval, r) && j < |r.states|
    ensures |r.states[j].published| == j
    decreases j
  {
    if j > 0 {
      PublishedCount(sources, interval, r, j - 1);
      StepPublishes(r.states[j - 1], r.turns[j - 1], r.states[j]);
    }
  }

  /**
   * What the relay is told: the list published by turn `i` has, for every source, the latest check of that source up to
   * then with its configured type and description; or, at the shutdown, that the source is disconnected.
   */
  lemma {:induction false} ListsTellLatestChecks(sources: map<string, DataSource>, interval: real, r: Run, j: nat, i: nat,
                                                 name: string)
    requires IsRunFromStart(sources, interval, r) && i < j < |r.states| && name in sources
    ensures |r.states[j].published| == j
    ensures var m := r.states[i + 1]; var list := r.states[j].published[i];
      if r.turns[i].event.Shutdown? then
        && name in list
        && list[name] == Upsert(name, sources[name].providerType, ProxyDisconnected, sources[name].description)
      else match Latest(m.log, name)
        case None => name !in list
        case Some(error) => name in m.sources && name in list && Tells(m, name, error, list[name])
  {
    ListsFollowTurns(sources, interval, r, j, i);
    StatusesTellLatestChecks(sources, interval, r, i + 1, name);
  }

  // ----- Time: checks are instantaneous, and neither a tick nor a retry is handled late. -----

  predicate OnTime(m: Monitor, e: Event, now: real) {
    match e
    case Tick(_) => now == m.nextTick && forall i :: 0 <= i < |m.retries| ==> now <= m.retries[i].due
    case HandleRetry(k, _) =>
      && k < |m.retries| && now == m.retries[k].due && now <= m.nextTick
      && forall i :: 0 <= i < |m.retries| ==> now <= m.retries[i].due
    case Shutdown => true
  }

  ghost predicate IsOnTime(r: Run)
    requires |r.states| == |r.turns| + 1
  {
    forall i {:trigger r.turns[i]} :: 0 <= i < |r.turns| ==> OnTime(r.states[i], r.turns[i].event, r.turns[i].now)
  }

  /** The number of retries a failing source gets between two ticks. */
  function Budget(m: Monitor): int
    requires m.interval > 0.0
  {
    FirstTask(m, "").retriesLeft
  }

  function AllFailed(s: seq<bool>): bool {
    forall i :: 0 <= i < |s| ==> !s[i]
  }

  /** How long after the tick the check that follows `n` failures takes place. */
  function Offset(n: nat): real {
    Geometric(INITIAL_DELAY, BACKOFF_FACTOR, n)
  }

  /** The next check of source `name`, if all its checks since the tick at `tick` failed, is at this time with this task. */
  predicate IsNextCheck(m: Monitor, tick: real, task: CheckTask, at: real)
    requires m.interval > 0.0
  {
    var n := |Recent(m, task.name)|;
    n <= Budget(m) && AllFailed(Recent(m, task.name))
    && task == After(FirstTask(m, task.name), n) && at == tick + Offset(n)
  }

  predicate HasRetry(m: Monitor, name: string) {
    exists i :: 0 <= i < |m.retries| && m.retries[i].task.name == name
  }

  /** The checks of one source since the tick: failures, then perhaps a success, or a failure that exhausts the budget. */
  predicate SourceOnTime(m: Monitor, name: string)
    requires m.interval > 0.0
  {
    var s := Recent(m, name);
    && 1 <= |s| <= Budget(m) + 1
    && AllFailed(s[..|s| - 1])
    && (!s[|s| - 1] && |s| <= Budget(m) ==> HasRetry(m, name))
  }

  predicate OneRetryEach(m: Monitor) {
    forall i, j :: 0 <= i < j < |m.retries| ==> m.retries[i].task.name != m.retries[j].task.name
  }

  /** The timed invariant, relative to the time `tick` of the last tick. */
  ghost predicate Timed(m: Monitor, tick: real) {
    && m.interval > 0.0
    && OneRetryEach(m)
    && (forall i :: 0 <= i < |m.retries| ==>
         && IsNextCheck(m, tick, m.retries[i].task, m.retries[i].due)
         && m.retries[i].task.name in m.recent)
    && (forall name :: name in m.recent ==> SourceOnTime(m, name))
  }

  lemma BudgetIsNotNegative(m: Monitor)
    requires m.interval > 0.0
    ensures Budget(m) >= 0
    ensures forall name :: FirstTask(m, name) == FirstTask(m, "").(name := name)
  {
    RetriesStayWithinBudget("", m.interval, INITIAL_DELAY, BACKOFF_FACTOR);
  }

  /** Whether `next` yields another retry is a matter of the budget. */
  lemma NextWithinBudget(m: Monitor, name: string, n: nat)
    requires m.interval > 0.0 && n <= Budget(m)
    ensures Next(After(FirstTask(m, name), n)) ==
      if n == Budget(m) then None
      else Some((Offset(n + 1) - Offset(n), After(FirstTask(m, name), n + 1)))
  {
    BudgetIsNotNegative(m);
    if n < Budget(m) {
      AfterOneMore(FirstTask(m, name), n);
    }
  }

  /** The timed invariant while the check of `name` is under way. */
  ghost predicate TimedBut(m: Monitor, tick: real, name: string) {
    && m.interval > 0.0
    && OneRetryEach(m)
    && !HasRetry(m, name)
    && (forall i :: 0 <= i < |m.retries| ==>
         && IsNextCheck(m, tick, m.retries[i].task, m.retries[i].due)
         && m.retries[i].task.name in m.recent)
    && (forall other :: other in m.recent && other != name ==> SourceOnTime(m, other))
  }

  /** A failed check within the budget queues its successor for exactly the right time. */
  lemma SuccessorIsNextCheck(m: Monitor, tick: real, task: CheckTask, error: Option<nat>, now: real)
    requires m.interval > 0.0 && task.name in m.sources && IsNextCheck(m, tick, task, now)
    ensures Next(task).Some? <==> |Recent(m, task.name)| < Budget(m)
    ensures error.Some? && Next(task).Some? ==>
      && Next(task).value.1.name == task.name
      && IsNextCheck(Update(m, task, error, now), tick, Next(task).value.1, now + Next(task).value.0)
  {
    NextWithinBudget(m, task.name, |Recent(m, task.name)|);
    assert Recent(Update(m, task, error, now), task.name) == Recent(m, task.name) + [error.None?];
  }

  lemma UpdateKeepsRetries(m: Monitor, tick: real, task: CheckTask, error: Option<nat>, now: real)
    requires TimedBut(m, tick, task.name) && task.name in m.sources && IsNextCheck(m, tick, task, now)
    ensures var m' := Update(m, task, error, now);
      && OneRetryEach(m')
      && forall i :: 0 <= i < |m'.retries| ==>
           IsNextCheck(m', tick, m'.retries[i].task, m'.retries[i].due) && m'.retries[i].task.name in m'.recent
  {
    var m' := Update(m, task, error, now);
    SuccessorIsNextCheck(m, tick, task, error, now);
    forall i | 0 <= i < |m'.retries|
      ensures IsNextCheck(m', tick, m'.retries[i].task, m'.retries[i].due) && m'.retries[i].task.name in m'.recent
      ensures i < |m.retries| ==> m'.retries[i] == m.retries[i] && m.retries[i].task.name != task.name
    {
      if i < |m.retries| {
        assert IsNextCheck(m, tick, m.retries[i].task, m.retries[i].due);
      }
    }
  }

  lemma UpdateKeepsSources(m: Monitor, tick: real, task: CheckTask, error: Option<nat>, now: real, name: string)
    requires TimedBut(m, tick, task.name) && task.name in m.sources && IsNextCheck(m, tick, task, now)
    requires name in Update(m, task, error, now).recent
    ensures SourceOnTime(Update(m, task, error, now), name)
  {
    var m' := Update(m, task, error, now);
    if name == task.name {
      SuccessorIsNextCheck(m, tick, task, error, now);
      assert Recent(m', name)[..|Recent(m, name)|] == Recent(m, name);
      if error.Some? && Next(task).Some? {
        assert m'.retries[|m.retries|].task.name == name;
      }
    } else {
      assert SourceOnTime(m, name) && Recent(m', name) == Recent(m, name);
      if HasRetry(m, name) {
        var i :| 0 <= i < |m.retries| && m.retries[i].task.name == name;
        assert m'.retries[i].task.name == name;
      }
    }
  }

  /** A check at its time, of a source without an outstanding retry, keeps the timed invariant. */
  lemma UpdateKeepsTimed(m: Monitor, tick: real, task: CheckTask, error: Option<nat>, now: real)
    requires TimedBut(m, tick, task.name) && task.name in m.sources && IsNextCheck(m, tick, task, now)
    ensures Timed(Update(m, task, error, now), tick)
  {
    var m' := Update(m, task, error, now);
    UpdateKeepsRetries(m, tick, task, error, now);
    forall name | name in m'.recent ensures SourceOnTime(m', name) {
      UpdateKeepsSources(m, tick, task, error, now, name);
    }
  }

  lemma FirstCheckKeepsTimed(m: Monitor, c: Check, now: real)
    requires Timed(m, now) && c.name !in m.recent && c.name in m.sources
    ensures Timed(Update(m, FirstTask(m, c.name), c.error, now), now)
  {
    BudgetIsNotNegative(m);
    FreshSource(m, c.name, now);
    UpdateKeepsTimed(m, now, FirstTask(m, c.name), c.error, now);
  }

  lemma {:induction false} UpdateAllKeepsTimed(m: Monitor, checks: seq<Check>, now: real)
    requires Timed(m, now) && m.recent == map[]
    requires AllDifferent(checks) && forall c :: c in checks ==> c.name in m.sources
    ensures Timed(UpdateAll(m, checks, now), now)
  {
    if checks != [] {
      var n := |checks| - 1;
      UpdateAllFrame(m, checks[..n], now);
      UpdateAllKeepsTimed(m, checks[..n], now);
      NotAmong(checks[..n], checks[n].name);
      FirstCheckKeepsTimed(UpdateAll(m, checks[..n], now), checks[n], now);
    }
  }

  lemma {:induction false} NotAmong(checks: seq<Check>, name: string)
    requires forall i :: 0 <= i < |checks| ==> checks[i].name != name
    ensures name !in NamesOf(checks)
  {
    if checks != [] {
      NotAmong(checks[..|checks| - 1], name);
    }
  }

  /** A source that was not checked since the tick is due for its first check right at the tick. */
  lemma FreshSource(m: Monitor, name: string, now: real)
    requires Timed(m, now) && name !in m.recent && Budget(m) >= 0
    ensures TimedBut(m, now, name) && IsNextCheck(m, now, FirstTask(m, name), now)
  {
    assert After(FirstTask(m, name), 0) == FirstTask(m, name) && FirstTask(m, name).name == name;
  }

  /** The time of the last tick; before the first one there is nothing to time. */
  function LastTick(m: Monitor): real {
    m.nextTick - m.interval
  }

  ghost predicate TimedSinceTick(m: Monitor) {
    Timed(m, LastTick(m)) && (m.recent.Keys == m.sources.Keys || (m.recent == map[] && m.retries == [] && m.log == []))
  }

  /** Every outstanding retry fires strictly before the next tick: this is what the budget is for. */
  lemma RetriesBeforeNextTick(m: Monitor, i: nat)
    requires Timed(m, LastTick(m)) && i < |m.retries|
    ensures LastTick(m) < m.retries[i].due < m.nextTick
  {
    var n := |Recent(m, m.retries[i].task.name)|;
    assert IsNextCheck(m, LastTick(m), m.retries[i].task, m.retries[i].due);
    assert SourceOnTime(m, m.retries[i].task.name);
    NoRetryPastTheTotal("", m.interval, INITIAL_DELAY, BACKOFF_FACTOR, n);
    GeometricGrows(INITIAL_DELAY, BACKOFF_FACTOR, 0, n);
  }

  /** When a tick is due on time, no retry is outstanding. */
  lemma NoRetryAtTick(m: Monitor, checks: seq<Check>, now: real)
    requires Timed(m, LastTick(m)) && OnTime(m, Tick(checks), now)
    ensures m.retries == []
  {
    if m.retries != [] {
      RetriesBeforeNextTick(m, 0);
    }
  }

  lemma TickKeepsTimed(m: Monitor, checks: seq<Check>, now: real)
    requires TimedSinceTick(m) && Enabled(m, Tick(checks)) && OnTime(m, Tick(checks), now)
    ensures TimedSinceTick(Apply(m, Tick(checks), now))
  {
    NoRetryAtTick(m, checks, now);
    ChecksOfTick(Reset(m), checks, now);
  }

  lemma {:induction false} TimedAfterChecks(m: Monitor, checks: seq<Check>, now: real)
    requires m.interval > 0.0 && m.retries == [] && m.recent == map[] && now == LastTick(m) && ChecksAll(m, checks)
    ensures Timed(UpdateAll(m, checks, now), now)
  {
    assert Timed(m, now);
    UpdateAllKeepsTimed(m, checks, now);
  }

  lemma {:induction false} ChecksOfTick(m: Monitor, checks: seq<Check>, now: real)
    requires m.interval > 0.0 && m.retries == [] && m.recent == map[] && now == LastTick(m) && ChecksAll(m, checks)
    ensures TimedSinceTick(Publish(UpdateAll(m, checks, now)))
  {
    var u := UpdateAll(m, checks, now);
    UpdateAllFrame(m, checks, now);
    TimedAfterChecks(m, checks, now);
    PublishKeepsTimed(u, now);
    assert LastTick(Publish(u)) == now;
  }

  lemma PublishKeepsTimed(m: Monitor, tick: real)
    requires Timed(m, tick)
    ensures Timed(Publish(m), tick)
  {
    forall name | name in m.recent ensures SourceOnTime(Publish(m), name) {
      assert SourceOnTime(m, name);
      if HasRetry(m, name) {
        var i :| 0 <= i < |m.retries| && m.retries[i].task.name == name;
        assert Publish(m).retries[i].task.name == name;
      }
    }
  }

  lemma OtherRetriesRemain(m: Monitor, k: nat, name: string)
    requires k < |m.retries| && OneRetryEach(m)
    ensures OneRetryEach(Without(m, k))
    ensures HasRetry(Without(m, k), name) <==> HasRetry(m, name) && name != m.retries[k].task.name
  {
    var rest := Without(m, k);
    assert forall i :: 0 <= i < |rest.retries| ==> rest.retries[i] == m.retries[if i < k then i else i + 1];
    if HasRetry(m, name) && name != m.retries[k].task.name {
      var i :| 0 <= i < |m.retries| && m.retries[i].task.name == name;
      assert rest.retries[if i < k then i else i - 1] == m.retries[i];
    }
  }

  /** Taking a retry out of the queue leaves its source, and no other, without one. */
  lemma TakingRetry(m: Monitor, tick: real, k: nat)
    requires Timed(m, tick) && k < |m.retries|
    ensures TimedBut(Without(m, k), tick, m.retries[k].task.name)
    ensures IsNextCheck(Without(m, k), tick, m.retries[k].task, m.retries[k].due)
  {
    var rest := Without(m, k);
    OtherRetriesRemain(m, k, m.retries[k].task.name);
    forall other | other in rest.recent && other != m.retries[k].task.name ensures SourceOnTime(rest, other) {
      assert SourceOnTime(m, other);
      OtherRetriesRemain(m, k, other);
    }
    RetriesWithout(m, tick, k);
    assert IsNextCheck(m, tick, m.retries[k].task, m.retries[k].due);
  }

  lemma RetriesWithout(m: Monitor, tick: real, k: nat)
    requires Timed(m, tick) && k < |m.retries|
    ensures var rest := Without(m, k); forall i :: 0 <= i < |rest.retries| ==>
      IsNextCheck(rest, tick, rest.retries[i].task, rest.retries[i].due) && rest.retries[i].task.name in rest.recent
  {
    var rest := Without(m, k);
    forall i | 0 <= i < |rest.retries|
      ensures IsNextCheck(rest, tick, rest.retries[i].task, rest.retries[i].due)
      ensures rest.retries[i].task.name in rest.recent
    {
      var j := if i < k then i else i + 1;
      assert rest.retries[i] == m.retries[j];
      assert IsNextCheck(m, tick, m.retries[j].task, m.retries[j].due);
    }
  }

  lemma RetryKeepsTimed(m: Monitor, k: nat, error: Option<nat>, now: real)
    requires TimedSinceTick(m) && Enabled(m, HandleRetry(k, error)) && OnTime(m, HandleRetry(k, error), now)
    ensures TimedSinceTick(Apply(m, HandleRetry(k, error), now))
  {
    var rest := Without(m, k);
    TakingRetry(m, LastTick(m), k);
    UpdateKeepsTimed(rest, LastTick(m), m.retries[k].task, error, now);
    PublishKeepsTimed(Update(rest, m.retries[k].task, error, now), LastTick(m));
    assert m.retries[k].task.name in m.recent;
  }

  lemma ShutdownKeepsTimed(m: Monitor)
    requires TimedSinceTick(m) && Enabled(m, Shutdown)
    ensures TimedSinceTick(Apply(m, Shutdown, 0.0))
  {
    var m' := Apply(m, Shutdown, 0.0);
    forall name | name in m.recent ensures SourceOnTime(m', name) {
      assert SourceOnTime(m, name);
      if HasRetry(m, name) {
        var i :| 0 <= i < |m.retries| && m.retries[i].task.name == name;
        assert m'.retries[i].task.name == name;
      }
    }
    forall i | 0 <= i < |m.retries| ensures IsNextCheck(m', LastTick(m), m'.retries[i].task, m'.retries[i].due) {
      assert IsNextCheck(m, LastTick(m), m.retries[i].task, m.retries[i].due);
    }
  }

  lemma StepKeepsTimed(m: Monitor, e: Event, now: real)
    requires TimedSinceTick(m) && Enabled(m, e) && OnTime(m, e, now)
    ensures TimedSinceTick(Apply(m, e, now))
  {
    match e
    case Tick(checks) => TickKeepsTimed(m, checks, now);
    case HandleRetry(k, error) => RetryKeepsTimed(m, k, error, now);
    case Shutdown => ShutdownKeepsTimed(m);
  }

  lemma {:induction false} RunKeepsTimed(sources: map<string, DataSource>, interval: real, r: Run, j: nat)
    requires interval > 0.0
    requires IsRunFromStart(sources, interval, r) && IsOnTime(r) && j < |r.states|
    ensures TimedSinceTick(r.states[j])
  {
    if j > 0 {
      RunKeepsTimed(sources, interval, r, j - 1);
      assert IsStep(r.states[j - 1], r.turns[j - 1], r.states[j]);
      StepKeepsTimed(r.states[j - 1], r.turns[j - 1].event, r.turns[j - 1].now);
    }
  }

  /** No overlapping retry chains: each source has at most one outstanding retry, due strictly before the next tick. */
  lemma {:induction false} RetryChainsNeverOverlap(sources: map<string, DataSource>, interval: real, r: Run, j: nat)
    requires interval > 0.0
    requires IsRunFromStart(sources, interval, r) && IsOnTime(r) && j < |r.states|
    ensures var m := r.states[j];
      && OneRetryEach(m)
      && forall i :: 0 <= i < |m.retries| ==> LastTick(m) < m.retries[i].due < m.nextTick
  {
    RunKeepsTimed(sources, interval, r, j);
    var m := r.states[j];
    forall i | 0 <= i < |m.retries| ensures LastTick(m) < m.retries[i].due < m.nextTick {
      RetriesBeforeNextTick(m, i);
    }
  }

  /** The failures before the first success. */
  function Failures(s: seq<bool>): nat {
    if s == [] || s[0] then 0 else 1 + Failures(s[1..])
  }

  lemma {:induction false} FailuresOf(s: seq<bool>)
    requires s != [] && AllFailed(s[..|s| - 1])
    ensures Failures(s) == if s[|s| - 1] then |s| - 1 else |s|
  {
    if |s| > 1 {
      assert !s[..|s| - 1][0];
      assert forall i :: 0 <= i < |s[1..]| - 1 ==> s[1..][i] == s[..|s| - 1][i + 1];
      FailuresOf(s[1..]);
    }
  }

  /** The checks of a source whose retries for this interval are all over. */
  lemma ChecksWhenNoRetryIsLeft(m: Monitor, name: string)
    requires TimedSinceTick(m) && m.retries == [] && m.log != [] && name in m.sources
    ensures var f := Failures(Recent(m, name));
      |Recent(m, name)| == 1 + (if f <= Budget(m) then f else Budget(m))
  {
    assert name in m.recent.Keys;
    assert SourceOnTime(m, name) && !HasRetry(m, name);
    FailuresOf(Recent(m, name));
  }

  /**
   * Checks per interval: when a tick may be handled on time, and it is not the first, each source has been checked, since
   * the tick before, exactly once plus once for each failure, up to the budget of retries.
   */
  lemma {:induction false} ChecksPerInterval(sources: map<string, DataSource>, interval: real, r: Run, j: nat,
                                             name: string)
    requires interval > 0.0
    requires IsRunFromStart(sources, interval, r) && IsOnTime(r) && j < |r.states|
    requires r.states[j].log != [] && name in sources
    requires forall i :: 0 <= i < |r.states[j].retries| ==> r.states[j].nextTick <= r.states[j].retries[i].due
    ensures var m := r.states[j];
      && m.interval == interval
      && var f := Failures(Recent(m, name)); |Recent(m, name)| == 1 + (if f <= Budget(m) then f else Budget(m))
    ensures interval < 10.0 ==> Budget(r.states[j]) == 0
  {
    RunKeepsTimed(sources, interval, r, j);
    RunKeepsValid(sources, interval, r, j);
    NoRetryAtTick(r.states[j], [], r.states[j].nextTick);
    ChecksWhenNoRetryIsLeft(r.states[j], name);
    RetriesStayWithinBudget("", interval, INITIAL_DELAY, BACKOFF_FACTOR);
  }

  /**
   * When retries are due, in seconds: the retry that follows `n` failures of a source since the tick is due
   * 10 + 10 * 1.5 + ... + 10 * 1.5^(n - 1) after that tick.
   */
  lemma {:induction false} RetriesAreDueAt(sources: map<string, DataSource>, interval: real, r: Run, j: nat, i: nat)
    requires interval > 0.0
    requires IsRunFromStart(sources, interval, r) && IsOnTime(r) && j < |r.states| && i < |r.states[j].retries|
    ensures var m := r.states[j]; var n := |Recent(m, m.retries[i].task.name)|;
      m.retries[i].due == LastTick(m) + Geometric(10.0, 1.5, n)
  {
    RunKeepsTimed(sources, interval, r, j);
    var m := r.states[j];
    assert IsNextCheck(m, LastTick(m), m.retries[i].task, m.retries[i].due);
  }
}
