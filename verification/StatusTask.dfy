/**
 * The status task in the form of the program: an object whose state map, retry queue and outgoing list change in place.
 * Each method is proved against `StatusMonitor`, and `Execute` carries its theorems over to every sequence of these
 * calls.
 */
module StatusTasks {
  import opened Messages
  import opened StatusCheck
  import opened StatusMonitor

  class StatusTask {
    const sources: map<string, DataSource>
    const interval: real
    var nextTick: real
    var retries: seq<Retry>
    var states: map<string, Upsert>
    var stopped: bool
    var published: seq<map<string, Upsert>>
    ghost var log: seq<Check>
    ghost var recent: map<string, seq<bool>>

    ghost function View(): Monitor
      reads this
    {
      Monitor(sources, interval, nextTick, retries, states, stopped, log, recent, published)
    }

    constructor (sources: map<string, DataSource>, interval: real)
      requires interval > 0.0
      ensures View() == Initial(sources, interval) && Valid(View())
    {
      this.sources, this.interval := sources, interval;
      nextTick, retries, states, stopped, published := 0.0, [], map[], false, [];
      log, recent := [], map[];
    }

    /** `update_data_source`; `error` is what the check yields. */
    method UpdateDataSource(task: CheckTask, error: Option<nat>, now: real)
      requires task.name in sources
      modifies `retries, `states, `log, `recent
      ensures View() == Update(old(View()), task, error, now)
    {
      var name := task.name;
      var status := if error == None then Connected else Error(error.value);
      var next := Next(task);
      if next.Some? {
        if error.Some? {
          retries := retries + [Retry(now + next.value.0, next.value.1)];
        }
      }
      states := states[name := Upsert(name, sources[name].providerType, status, sources[name].description)];
      log, recent := log + [Check(name, error)], recent[name := Recent(View(), name) + [error.None?]];
    }

    /** `update_all_data_sources`: the joined checks, in the order in which they finish. */
    method UpdateAllDataSources(checks: seq<Check>, now: real)
      requires interval > 0.0 && forall c :: c in checks ==> c.name in sources
      modifies `retries, `states, `log, `recent
      ensures View() == UpdateAll(old(View()), checks, now)
    {
      assert checks[..0] == [];
      for i := 0 to |checks|
        invariant View() == UpdateAll(old(View()), checks[..i], now)
      {
        UpdateDataSource(New(checks[i].name, interval, INITIAL_DELAY, BACKOFF_FACTOR), checks[i].error, now);
        assert checks[..i + 1][..i] == checks[..i];
      }
      assert checks[..|checks|] == checks;
    }

    /** The tick arm of the status loop. */
    method OnTick(checks: seq<Check>, now: real)
      requires Enabled(View(), Tick(checks))
      modifies this
      ensures View() == Apply(old(View()), Tick(checks), now)
    {
      nextTick, recent := nextTick + interval, map[];
      UpdateAllDataSources(checks, now);
      published := published + [states];
    }

    /** The retry arm: a queued task arrives. */
    method OnRetry(k: nat, error: Option<nat>, now: real)
      requires Enabled(View(), HandleRetry(k, error))
      modifies this
      ensures View() == Apply(old(View()), HandleRetry(k, error), now)
    {
      var task := retries[k].task;
      retries := retries[..k] + retries[k + 1..];
      UpdateDataSource(task, error, now);
      published := published + [states];
    }

    /** The shutdown arm. */
    method OnShutdown(now: real)
      requires Enabled(View(), Shutdown)
      modifies this
      ensures View() == Apply(old(View()), Shutdown, now)
    {
      var offline := map name | name in sources ::
        Upsert(name, sources[name].providerType, ProxyDisconnected, sources[name].description);
      assert offline == Offline(View());
      published := published + [offline];
      stopped := true;
    }
  }

  method Perform(task: StatusTask, t: Turn) returns (ghost performed: bool)
    modifies task
    ensures performed <==> Enabled(old(task.View()), t.event)
    ensures if performed then IsStep(old(task.View()), t, task.View()) else task.View() == old(task.View())
  {
    performed := false;
    if !task.stopped && task.interval > 0.0 {
      match t.event
      case Tick(checks) =>
        if ChecksAll(Initial(task.sources, task.interval), checks) {
          task.OnTick(checks, t.now);
          performed := true;
        }
      case HandleRetry(k, error) =>
        if k < |task.retries| && task.retries[k].task.name in task.sources {
          task.OnRetry(k, error, t.now);
          performed := true;
        }
      case Shutdown =>
        task.OnShutdown(t.now);
        performed := true;
    }
  }

  lemma ExtendedIsRun(sources: map<string, DataSource>, interval: real, r: Run, t: Turn, m: Monitor)
    requires IsRunFromStart(sources, interval, r) && IsStep(r.states[|r.states| - 1], t, m)
    ensures IsRunFromStart(sources, interval, Run(r.states + [m], r.turns + [t]))
  {
    var r' := Run(r.states + [m], r.turns + [t]);
    forall i {:trigger r'.turns[i]} | 0 <= i < |r'.turns| ensures IsStep(r'.states[i], r'.turns[i], r'.states[i + 1]) {
      if i < |r.turns| {
        assert IsStep(r.states[i], r.turns[i], r.states[i + 1]);
      }
    }
  }

  method Schedule(sources: map<string, DataSource>, interval: real, turns: seq<Turn>)
    returns (task: StatusTask, ghost r: Run)
    requires interval > 0.0
    ensures fresh(task) && IsRunFromStart(sources, interval, r) && task.View() == r.states[|r.states| - 1]
  {
    task := new StatusTask(sources, interval);
    r := Run([task.View()], []);
    for i := 0 to |turns|
      invariant fresh(task) && IsRunFromStart(sources, interval, r) && task.View() == r.states[|r.states| - 1]
    {
      ghost var performed := Perform(task, turns[i]);
      if performed {
        ExtendedIsRun(sources, interval, r, turns[i], task.View());
        r := Run(r.states + [task.View()], r.turns + [turns[i]]);
      }
    }
  }

  /**
   * The task under an arbitrary schedule of turns goes through a run of the monitor, so the theorems about runs hold of
   * the object; here, that the state map agrees with history and every published list is complete, and, if no turn was
   * late, that each source has at most one outstanding retry.
   */
  method Execute(sources: map<string, DataSource>, interval: real, turns: seq<Turn>)
    returns (task: StatusTask, ghost r: Run)
    requires interval > 0.0
    ensures fresh(task) && IsRunFromStart(sources, interval, r) && task.View() == r.states[|r.states| - 1]
    ensures var m := task.View();
      && StatesAgree(m) && TasksAreConfigured(m)
      && (forall i :: 0 <= i < |m.published| ==> IsFullList(m, m.published[i]))
      && (IsOnTime(r) ==> OneRetryEach(m))
  {
    task, r := Schedule(sources, interval, turns);
    StateMapAgreesWithHistory(sources, interval, r, |r.turns|);
    if IsOnTime(r) {
      RetryChainsNeverOverlap(sources, interval, r, |r.turns|);
    }
  }
}
