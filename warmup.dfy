/**
 * Cache warm-up: tasks that name a query, their cache keys, the progress
 * counter, the warm-up loop (skip what is cached, fetch and store the
 * rest) and the two strategies that produce task lists.
 */
module Warmup {
  import opened Wrappers
  import opened Models
  import opened Strings
  import opened Errors
  import opened ProcessingConfig
  import opened Cache

  /** `WarmupTask`: one query to run ahead of time. */
  datatype WarmupTask = WarmupTask(
    table: string,
    startTime: string,
    endTime: string,
    tags: Option<seq<string>>,
    processingConfig: Option<DataProcessingConfig>,
    description: string)

  /**
   * `WarmupTask::new`: the processing configuration is the default one,
   * so that the key matches a query sent with the default configuration.
   */
  function NewTask(table: string, startTime: string, endTime: string, tags: Option<seq<string>>, description: string): (t: WarmupTask)
    ensures t.processingConfig == Some(Default())
    ensures t.table == table && t.startTime == startTime && t.endTime == endTime
    ensures t.tags == tags && t.description == description
  {
    WarmupTask(table, startTime, endTime, tags, Some(Default()), description)
  }

  /** `WarmupTask::with_processing_config`. */
  function TaskWithConfig(table: string, startTime: string, endTime: string, tags: Option<seq<string>>,
                          config: Option<DataProcessingConfig>, description: string): (t: WarmupTask)
    ensures t.processingConfig == config && t.tags == tags && t.table == table
  {
    WarmupTask(table, startTime, endTime, tags, config, description)
  }

  /** `to_cache_key`: the key a query for the same table, range, tags and configuration uses. */
  function ToCacheKey(t: WarmupTask): CacheKey {
    NewCacheKey(t.table, t.startTime, t.endTime, t.tags, t.processingConfig)
  }

  /** The key ignores the description and the order of the tags. */
  lemma ToCacheKeyFacts(a: WarmupTask, b: WarmupTask)
    requires a.table == b.table && a.startTime == b.startTime && a.endTime == b.endTime
    requires a.processingConfig == b.processingConfig
    requires a.tags.Some? && b.tags.Some? && multiset(a.tags.value) == multiset(b.tags.value)
    ensures ToCacheKey(a) == ToCacheKey(b)
  {
    KeyIgnoresTagOrder(a.table, a.startTime, a.endTime, a.tags.value, b.tags.value, a.processingConfig);
  }

  /** `WarmupProgress` as a value (the copy sent on the progress channel). */
  datatype Progress = Progress(
    total: nat,
    completed: nat,
    currentTask: Option<string>,
    isDone: bool,
    successCount: nat,
    failureCount: nat)

  function NewProgress(total: nat): Progress {
    Progress(total, 0, None, false, 0, 0)
  }

  /**
   * Every finished task is a success or a failure; once a task has
   * finished, `isDone` says whether all have; a finished run names no
   * current task and an unfinished one names the last.
   */
  predicate ProgressInv(p: Progress) {
    && p.completed == p.successCount + p.failureCount
    && (p.completed == 0 ==> !p.isDone)
    && (p.completed > 0 ==> (p.isDone <==> p.completed >= p.total))
    && (p.isDone ==> p.currentTask.None?)
    && (!p.isDone && p.completed > 0 ==> p.currentTask.Some?)
  }

  /** `update`: one more task finished; once all have, the run is done and names no task. */
  function UpdateProgress(p: Progress, task: string, success: bool): Progress {
    var c := p.completed + 1;
    var done := c >= p.total;
    Progress(p.total, c, if done then None else Some(task), done || p.isDone,
             p.successCount + (if success then 1 else 0),
             p.failureCount + (if success then 0 else 1))
  }

  /**
   * An update counts one more finished task, as a success or a failure,
   * and keeps the progress invariant.
   */
  lemma UpdateProgressFacts(p: Progress, task: string, success: bool)
    ensures var r := UpdateProgress(p, task, success);
      && r.completed == p.completed + 1 && r.total == p.total
      && r.successCount == p.successCount + (if success then 1 else 0)
      && r.failureCount == p.failureCount + (if success then 0 else 1)
      && (ProgressInv(p) ==> ProgressInv(r))
      && (r.completed >= r.total ==> r.isDone && r.currentTask == None)
      && (ProgressInv(p) && r.completed < r.total ==> !r.isDone && r.currentTask == Some(task))
  {
  }

  /** `percentage`: 100 for an empty run, otherwise the finished share. */
  function Percentage(p: Progress): real {
    if p.total == 0 then 100.0 else (p.completed as real / p.total as real) * 100.0
  }

  /** Multiplying by a positive factor keeps a strict order. */
  lemma ScaleKeepsOrder(q: real, d: real, t: real)
    requires t > 0.0 && q > d
    ensures q * t > d * t
  {
    assert (q - d) * t > 0.0;
  }

  /** A positive whole is all of itself. */
  lemma WholeShare(t: real)
    requires t > 0.0
    ensures t / t == 1.0
  {
  }

  /** A share of a positive whole that is no larger than the whole lies between 0 and 1. */
  lemma ShareBounds(c: real, t: real)
    requires 0.0 <= c <= t && t > 0.0
    ensures 0.0 <= c / t <= 1.0
    ensures c == t ==> c / t == 1.0
  {
    var q := c / t;
    assert q * t == c;
    if q > 1.0 {
      ScaleKeepsOrder(q, 1.0, t);
    }
    if q < 0.0 {
      ScaleKeepsOrder(0.0, q, t);
    }
    if c == t {
      WholeShare(t);
    }
  }

  /** The share lies between 0 and 100 while no more than all tasks have finished, and is 100 when all have. */
  lemma PercentageBounds(p: Progress)
    ensures p.total == 0 ==> Percentage(p) == 100.0
    ensures p.completed <= p.total ==> 0.0 <= Percentage(p) <= 100.0
    ensures p.completed == p.total ==> Percentage(p) == 100.0
  {
    if p.total > 0 && p.completed <= p.total {
      ShareBounds(p.completed as real, p.total as real);
    }
  }

  /** The source's progress test: of ten tasks, one success makes 10%... */
  lemma ProgressExample(task: string)
    ensures Percentage(NewProgress(10)) == 0.0
    ensures UpdateProgress(NewProgress(10), task, true).successCount == 1
    ensures Percentage(UpdateProgress(NewProgress(10), task, true)) == 10.0
  {
    var p0 := NewProgress(10);
    assert Percentage(p0) == (0.0 / 10.0) * 100.0;
    var p1 := UpdateProgress(p0, task, true);
    assert p1.completed == 1 && p1.total == 10;
    assert Percentage(p1) == (1.0 / 10.0) * 100.0;
  }

  /** ...and a failure after it is counted as such. */
  lemma ProgressFailureExample(first: string, second: string)
    ensures UpdateProgress(UpdateProgress(NewProgress(10), first, true), second, false).completed == 2
    ensures UpdateProgress(UpdateProgress(NewProgress(10), first, true), second, false).failureCount == 1
    ensures UpdateProgress(UpdateProgress(NewProgress(10), first, true), second, false).successCount == 1
  {
    var p1 := UpdateProgress(NewProgress(10), first, true);
    assert p1.completed == 1 && p1.successCount == 1 && p1.failureCount == 0;
  }

  /** The progress counter, updated in place as the run goes on. */
  class WarmupProgress {
    var total: nat
    var completed: nat
    var currentTask: Option<string>
    var isDone: bool
    var successCount: nat
    var failureCount: nat

    function Snapshot(): Progress
      reads this
    {
      Progress(total, completed, currentTask, isDone, successCount, failureCount)
    }

    constructor (total: nat)
      ensures Snapshot() == NewProgress(total)
    {
      this.total := total;
      completed := 0;
      currentTask := None;
      isDone := false;
      successCount := 0;
      failureCount := 0;
    }

    method Update(task: string, success: bool)
      modifies this
      ensures Snapshot() == UpdateProgress(old(Snapshot()), task, success)
    {
      completed := completed + 1;
      currentTask := Some(task);
      if success {
        successCount := successCount + 1;
      } else {
        failureCount := failureCount + 1;
      }
      if completed >= total {
        isDone := true;
        currentTask := None;
      }
    }
  }

  /** The source of warm-up data: the query a task names, run against the database. */
  type Fetcher = WarmupTask -> Result<seq<HistoryRecord>>

  /**
   * One task of the warm-up loop: a cached key is a success without a
   * fetch; otherwise the fetched records are stored, and a failed fetch is
   * a failure that stores nothing.
   */
  function TaskStep(st: CacheState, p: Progress, capacity: nat, ttlMs: nat, task: WarmupTask, fetch: Fetcher, now: int)
    : (CacheState, Progress)
    requires capacity > 0
  {
    var key := ToCacheKey(task);
    var (st1, cached) := GetStep(st, key, now);
    if cached.Some? then (st1, UpdateProgress(p, task.description, true))
    else match fetch(task)
      case Ok(records) => (PutStep(st1, capacity, key, records, now, ttlMs), UpdateProgress(p, task.description, true))
      case Err(_) => (st1, UpdateProgress(p, task.description, false))
  }

  /** The warm-up loop from progress `p`: the tasks taken in order, starting from the cache state `st`. */
  function RunTasks(st: CacheState, p: Progress, capacity: nat, ttlMs: nat, tasks: seq<WarmupTask>, fetch: Fetcher, now: int)
    : (CacheState, Progress)
    requires capacity > 0
    decreases |tasks|
  {
    if |tasks| == 0 then (st, p)
    else
      var n := |tasks| - 1;
      var (s, q) := RunTasks(st, p, capacity, ttlMs, tasks[..n], fetch, now);
      TaskStep(s, q, capacity, ttlMs, tasks[n], fetch, now)
  }

  /** `warmup` as a value: a run over all tasks, the progress total fixed at their number. */
  function WarmupRun(st: CacheState, capacity: nat, ttlMs: nat, tasks: seq<WarmupTask>, fetch: Fetcher, now: int)
    : (CacheState, Progress)
    requires capacity > 0
  {
    RunTasks(st, NewProgress(|tasks|), capacity, ttlMs, tasks, fetch, now)
  }

  /** The number of tasks whose fetch fails. */
  function FailingFetches(tasks: seq<WarmupTask>, fetch: Fetcher): (n: nat)
    ensures n <= |tasks|
    decreases |tasks|
  {
    if |tasks| == 0 then 0
    else FailingFetches(tasks[..|tasks| - 1], fetch) + (if fetch(tasks[|tasks| - 1]).Err? then 1 else 0)
  }

  /** One task keeps the cache valid and the progress invariant, and counts one finished task. */
  lemma TaskStepFacts(st: CacheState, p: Progress, capacity: nat, ttlMs: nat, task: WarmupTask, fetch: Fetcher, now: int)
    requires capacity > 0 && Valid(st, capacity) && ProgressInv(p)
    ensures var (st', q) := TaskStep(st, p, capacity, ttlMs, task, fetch, now);
      && Valid(st', capacity)
      && ProgressInv(q)
      && q.total == p.total
      && q.completed == p.completed + 1
      && q.failureCount <= p.failureCount + (if fetch(task).Err? then 1 else 0)
  {
    var key := ToCacheKey(task);
    UpdateProgressFacts(p, task.description, true);
    UpdateProgressFacts(p, task.description, false);
    GetStepFacts(st, capacity, key, now);
    var (s1, cached) := GetStep(st, key, now);
    if cached.None? && fetch(task).Ok? {
      PutStepFacts(s1, capacity, key, fetch(task).value, now, ttlMs);
    }
  }

  /**
   * Each task finishes once, as a success or a failure, never a failure
   * unless its fetch failed; the progress invariant and the validity of
   * the cache are kept.
   */
  lemma {:induction false} RunTasksFacts(st: CacheState, p: Progress, capacity: nat, ttlMs: nat, tasks: seq<WarmupTask>, fetch: Fetcher, now: int)
    requires capacity > 0 && Valid(st, capacity) && ProgressInv(p)
    ensures var (st', q) := RunTasks(st, p, capacity, ttlMs, tasks, fetch, now);
      && Valid(st', capacity)
      && ProgressInv(q)
      && q.total == p.total
      && q.completed == p.completed + |tasks|
      && q.failureCount <= p.failureCount + FailingFetches(tasks, fetch)
    decreases |tasks|
  {
    if |tasks| > 0 {
      var n := |tasks| - 1;
      RunTasksFacts(st, p, capacity, ttlMs, tasks[..n], fetch, now);
      var r := RunTasks(st, p, capacity, ttlMs, tasks[..n], fetch, now);
      TaskStepFacts(r.0, r.1, capacity, ttlMs, tasks[n], fetch, now);
    }
  }

  /**
   * After a run every task has finished, as a success or a failure; there
   * are no more failures than failing fetches; a non-empty run is done,
   * names no current task and is at 100%; the cache stays valid.
   */
  lemma WarmupRunFacts(st: CacheState, capacity: nat, ttlMs: nat, tasks: seq<WarmupTask>, fetch: Fetcher, now: int)
    requires capacity > 0 && Valid(st, capacity)
    ensures var (st', p) := WarmupRun(st, capacity, ttlMs, tasks, fetch, now);
      && Valid(st', capacity)
      && p.completed == p.total == |tasks|
      && p.successCount + p.failureCount == |tasks|
      && p.failureCount <= FailingFetches(tasks, fetch)
      && (|tasks| > 0 ==> p.isDone && p.currentTask == None)
      && Percentage(p) == 100.0
  {
    RunTasksFacts(st, NewProgress(|tasks|), capacity, ttlMs, tasks, fetch, now);
    PercentageBounds(WarmupRun(st, capacity, ttlMs, tasks, fetch, now).1);
  }

  /** When every fetch succeeds, nothing fails. */
  lemma WarmupWithoutFailures(st: CacheState, capacity: nat, ttlMs: nat, tasks: seq<WarmupTask>, fetch: Fetcher, now: int)
    requires capacity > 0 && Valid(st, capacity)
    requires forall i :: 0 <= i < |tasks| ==> fetch(tasks[i]).Ok?
    ensures WarmupRun(st, capacity, ttlMs, tasks, fetch, now).1.failureCount == 0
    ensures WarmupRun(st, capacity, ttlMs, tasks, fetch, now).1.successCount == |tasks|
  {
    WarmupRunFacts(st, capacity, ttlMs, tasks, fetch, now);
    NoFailingFetches(tasks, fetch);
  }

  lemma {:induction false} NoFailingFetches(tasks: seq<WarmupTask>, fetch: Fetcher)
    requires forall i :: 0 <= i < |tasks| ==> fetch(tasks[i]).Ok?
    ensures FailingFetches(tasks, fetch) == 0
    decreases |tasks|
  {
    if |tasks| > 0 {
      NoFailingFetches(tasks[..|tasks| - 1], fetch);
    }
  }

  /**
   * The point of warming: once a task has been warmed, the query it names
   * hits the cache for as long as the entry is fresh, and returns the
   * records fetched for it.
   */
  lemma WarmedTaskHits(st: CacheState, capacity: nat, ttlMs: nat, task: WarmupTask, fetch: Fetcher, now: int, later: int)
    requires capacity > 0 && Valid(st, capacity)
    requires ToCacheKey(task) !in Keys(st.slots) && fetch(task).Ok?
    requires later - now <= ttlMs
    ensures var st' := WarmupRun(st, capacity, ttlMs, [task], fetch, now).0;
      GetStep(st', ToCacheKey(task), later).1 == Some(fetch(task).value)
  {
    var key := ToCacheKey(task);
    assert [task][..0] == [];
    assert RunTasks(st, NewProgress(1), capacity, ttlMs, [task][..0], fetch, now) == (st, NewProgress(1));
    GetStepFacts(st, capacity, key, now);
    var s1 := GetStep(st, key, now).0;
    assert GetStep(st, key, now).1 == None;
    var s2 := PutStep(s1, capacity, key, fetch(task).value, now, ttlMs);
    assert WarmupRun(st, capacity, ttlMs, [task], fetch, now).0 == s2;
    GetAfterPut(s1, capacity, key, fetch(task).value, now, ttlMs, later);
  }

  /**
   * `CacheWarmer`: runs tasks against the shared cache. The progress
   * channel is not part of this model.
   */
  class CacheWarmer {
    const cache: QueryCache

    constructor (cache: QueryCache)
      ensures this.cache == cache
    {
      this.cache := cache;
    }

    /**
     * `warmup`: every task in turn. The data fetcher is a parameter; all
     * steps of one run see the same clock reading `now`.
     */
    method Warmup(tasks: seq<WarmupTask>, fetch: Fetcher, now: int) returns (progress: WarmupProgress)
      requires cache.Inv()
      modifies cache
      ensures cache.Inv() && fresh(progress)
      ensures (cache.State(), progress.Snapshot())
        == WarmupRun(old(cache.State()), cache.capacity, cache.config.ttlSeconds * 1000, tasks, fetch, now)
    {
      ghost var st0 := cache.State();
      ghost var ttlMs := cache.config.ttlSeconds * 1000;
      progress := new WarmupProgress(|tasks|);
      for i := 0 to |tasks|
        invariant cache.Inv() && fresh(progress)
        invariant (cache.State(), progress.Snapshot())
          == RunTasks(st0, NewProgress(|tasks|), cache.capacity, ttlMs, tasks[..i], fetch, now)
      {
        assert tasks[..i + 1][..i] == tasks[..i];
        var task := tasks[i];
        var key := ToCacheKey(task);
        var cached := cache.Get(key, now);
        if cached.Some? {
          progress.Update(task.description, true);
          continue;
        }
        var fetched := fetch(task);
        match fetched {
          case Ok(records) =>
            cache.Put(key, records, now);
            progress.Update(task.description, true);
          case Err(_) =>
            progress.Update(task.description, false);
        }
      }
      assert tasks[..|tasks|] == tasks;
    }
  }

  const RecentTimeRangeName: string := "RecentTimeRange"
  const FixedTimeRangeName: string := "FixedTimeRange"

  /**
   * `RecentTimeRangeStrategy`. The clock and chrono's formatting are
   * parameters: `midnight(d)` is the `%Y-%m-%dT00:00:00` text of the day
   * `d` days before now, `date(d)` its `%Y-%m-%d` text.
   */
  datatype RecentTimeRange = RecentTimeRange(table: string, tags: seq<string>, days: nat)

  /** The task for day offset `d`: from one day before to `d` days before now. */
  function DayTask(s: RecentTimeRange, d: nat, midnight: nat -> string, date: nat -> string): WarmupTask {
    NewTask(s.table, midnight(d + 1), midnight(d), Some(s.tags),
            "最近" + NatToString(d + 1) + "天数据 (" + date(d + 1) + ")")
  }

  /** `generate_tasks`: one task per day, newest first. */
  function RecentTasks(s: RecentTimeRange, midnight: nat -> string, date: nat -> string): (ts: seq<WarmupTask>)
    ensures |ts| == s.days
    ensures forall d :: 0 <= d < |ts| ==> ts[d] == DayTask(s, d, midnight, date)
  {
    seq(s.days, d requires 0 <= d < s.days => DayTask(s, d, midnight, date))
  }

  /** The `for day_offset in 0..days` loop of `generate_tasks`. */
  method GenerateRecentTasks(s: RecentTimeRange, midnight: nat -> string, date: nat -> string) returns (tasks: seq<WarmupTask>)
    ensures tasks == RecentTasks(s, midnight, date)
  {
    tasks := [];
    for d := 0 to s.days
      invariant tasks == RecentTasks(s, midnight, date)[..d]
    {
      tasks := tasks + [DayTask(s, d, midnight, date)];
    }
  }

  /**
   * The days tile the range without gaps: each task ends where the next
   * older one starts, every task carries all the strategy's tags and the
   * default processing configuration.
   */
  lemma RecentTasksTile(s: RecentTimeRange, midnight: nat -> string, date: nat -> string)
    ensures var ts := RecentTasks(s, midnight, date);
      && (forall d :: 0 <= d < |ts| - 1 ==> ts[d].startTime == ts[d + 1].endTime)
      && (forall d :: 0 <= d < |ts| ==> ts[d].tags == Some(s.tags) && ts[d].processingConfig == Some(Default()))
      && (|ts| > 0 ==> ts[0].endTime == midnight(0))
  {
  }

  /** `FixedTimeRangeStrategy`: a list the caller fills with `add_task`. */
  datatype FixedTimeRange = FixedTimeRange(tasks: seq<WarmupTask>)

  function AddTask(s: FixedTimeRange, t: WarmupTask): (r: FixedTimeRange)
    ensures r.tasks == s.tasks + [t]
  {
    FixedTimeRange(s.tasks + [t])
  }

  /** The source's strategy tests: 3 days give 3 tasks, two added tasks are returned in order. */
  lemma StrategyExamples(midnight: nat -> string, date: nat -> string, t1: WarmupTask, t2: WarmupTask)
    ensures |RecentTasks(RecentTimeRange("历史表", ["Tag1", "Tag2"], 3), midnight, date)| == 3
    ensures AddTask(AddTask(FixedTimeRange([]), t1), t2).tasks == [t1, t2]
  {
  }
}
