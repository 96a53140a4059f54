/**
 * The patrol task runner of the backend: a bounded per-task log, the status transitions of
 * one patrol task, and the table of tasks.
 * The background thread is not modelled: `PatrolTask.Start` records that it was launched,
 * and `PatrolTask.RunTask` is the body that thread runs. `datetime.now()` readings of the
 * log come from a clock the log is given; the task's start and end times are parameters.
 */
module TaskManagement {
  import opened Wrappers
  import opened Text
  import opened Seqs

  /** One `datetime.now()` reading, as `isoformat()` and as `strftime("%H:%M:%S")`. */
  datatype Stamp = Stamp(iso: string, display: string)

  /** A log entry dictionary: `id`, `timestamp`, `timestamp_display`, `level`, `message`. */
  datatype LogEntry = LogEntry(id: string, timestamp: string, timestampDisplay: string, level: string, message: string)

  /** The whole state of a `TaskLog`: its entries, the real-time queue and the clock readings taken. */
  datatype LogState = LogState(logs: seq<LogEntry>, queue: seq<LogEntry>, ticks: nat)

  /** One `add_log(message, level)` call. */
  datatype LogLine = LogLine(level: string, message: string)

  const MaxLogs := 1000
  const KeptLogs := 500

  function EntryId(taskId: string, n: nat): string
  {
    taskId + "_" + NatToString(n)
  }

  /** The list after `logs.append(entry)` and the cap: beyond 1000 entries, only the last 500 stay. */
  function Append(logs: seq<LogEntry>, entry: LogEntry): seq<LogEntry>
  {
    var l := logs + [entry];
    if |l| > MaxLogs then l[|l| - KeptLogs..] else l
  }

  /**
   * The cap: the list never holds more than 1000 entries and the new entry is always last;
   * below the cap earlier entries stay as they were, and crossing it keeps exactly the last 500.
   */
  lemma AppendSpec(logs: seq<LogEntry>, entry: LogEntry)
    ensures |Append(logs, entry)| <= MaxLogs
    ensures Append(logs, entry) != [] && Append(logs, entry)[|Append(logs, entry)| - 1] == entry
    ensures |logs| < MaxLogs ==> Append(logs, entry) == logs + [entry]
    ensures |logs| >= MaxLogs ==> |Append(logs, entry)| == KeptLogs
    ensures |logs| >= MaxLogs ==> Append(logs, entry) == logs[|logs| + 1 - KeptLogs..] + [entry]
  {
    var l := logs + [entry];
    if |l| > MaxLogs {
      assert l[|l| - KeptLogs..] == logs[|logs| + 1 - KeptLogs..] + [entry];
    }
  }

  /** The new entry of an `add_log` call: its id counts the entries held before it. */
  function NewEntry(taskId: string, clock: nat -> Stamp, s: LogState, line: LogLine): LogEntry
  {
    LogEntry(EntryId(taskId, |s.logs|), clock(s.ticks).iso, clock(s.ticks).display, line.level, line.message)
  }

  /** The state after one `add_log`: the entry is appended under the cap and queued. */
  function Added(taskId: string, clock: nat -> Stamp, s: LogState, line: LogLine): LogState
  {
    var e := NewEntry(taskId, clock, s, line);
    LogState(Append(s.logs, e), s.queue + [e], s.ticks + 1)
  }

  /** The state after a run of `add_log` calls, in order. */
  function AddedAll(taskId: string, clock: nat -> Stamp, s: LogState, lines: seq<LogLine>): LogState
    decreases |lines|
  {
    if lines == [] then s else AddedAll(taskId, clock, Added(taskId, clock, s, lines[0]), lines[1..])
  }

  /** Every call queues its entry, so the queue grows by one entry per call; the list stays within the cap. */
  lemma {:induction false} AddedAllBounds(taskId: string, clock: nat -> Stamp, s: LogState, lines: seq<LogLine>)
    requires |s.logs| <= MaxLogs
    ensures |AddedAll(taskId, clock, s, lines).logs| <= MaxLogs
    ensures |AddedAll(taskId, clock, s, lines).queue| == |s.queue| + |lines|
    ensures AddedAll(taskId, clock, s, lines).ticks == s.ticks + |lines|
    ensures lines != [] ==> AddedAll(taskId, clock, s, lines).logs != []
    decreases |lines|
  {
    if lines != [] {
      var s1 := Added(taskId, clock, s, lines[0]);
      AppendSpec(s.logs, NewEntry(taskId, clock, s, lines[0]));
      AddedAllBounds(taskId, clock, s1, lines[1..]);
    }
  }

  /**
   * Ids can repeat once the cap has cut the list: with 1000 entries numbered by position,
   * three more calls leave a list whose first and last entries share an id.
   */
  lemma IdsRepeatAfterCap(taskId: string, clock: nat -> Stamp, s: LogState, a: LogLine, b: LogLine, c: LogLine)
    requires |s.logs| == MaxLogs
    requires forall k :: 0 <= k < |s.logs| ==> s.logs[k].id == EntryId(taskId, k)
    ensures var s3 := AddedAll(taskId, clock, s, [a, b, c]);
      |s3.logs| == KeptLogs + 2 && s3.logs[0].id == s3.logs[|s3.logs| - 1].id
  {
    var s1 := Added(taskId, clock, s, a);
    AppendSpec(s.logs, NewEntry(taskId, clock, s, a));
    assert s1.logs[0] == s.logs[501];
    var s2 := Added(taskId, clock, s1, b);
    AppendSpec(s1.logs, NewEntry(taskId, clock, s1, b));
    var s3 := Added(taskId, clock, s2, c);
    AppendSpec(s2.logs, NewEntry(taskId, clock, s2, c));
    assert s3.logs[0] == s1.logs[0];
    assert [a, b, c][1..] == [b, c] && [b, c][1..] == [c] && [c][1..] == [];
    assert AddedAll(taskId, clock, s3, []) == s3;
    assert AddedAll(taskId, clock, s2, [c]) == s3;
    assert AddedAll(taskId, clock, s1, [b, c]) == s3;
    assert AddedAll(taskId, clock, s, [a, b, c]) == s3;
  }

  /** `get_logs(since_id)`: nothing from `since_id` on, otherwise `logs[since_id:]` with Python's negative indices. */
  function LogsSince(logs: seq<LogEntry>, since: int): (r: seq<LogEntry>)
    ensures since >= |logs| ==> r == []
    ensures 0 <= since < |logs| ==> r == logs[since..] && |r| == |logs| - since
    ensures since < 0 ==> r == logs[if |logs| + since < 0 then 0 else |logs| + since..]
  {
    if since >= |logs| then [] else PyDrop(logs, since)
  }

  /** A client that has seen `n` entries and asks from `n` gets exactly the entries appended since. */
  lemma LogsSinceIncremental(logs: seq<LogEntry>, more: seq<LogEntry>)
    ensures LogsSince(logs + more, |logs|) == more
    ensures LogsSince(logs, 0) == logs
  {
    assert (logs + more)[|logs|..] == more;
  }

  /** `TaskLog`: the entries of one task and the queue the real-time consumer drains. */
  class TaskLog {
    const taskId: string
    /** The wall clock: the reading taken by the `n`-th `add_log` call. */
    const clock: nat -> Stamp
    var logs: seq<LogEntry>
    var queue: seq<LogEntry>
    var ticks: nat

    function State(): LogState
      reads this
    {
      LogState(logs, queue, ticks)
    }

    ghost predicate Valid()
      reads this
    {
      |logs| <= MaxLogs
    }

    constructor(taskId: string, clock: nat -> Stamp)
      ensures this.taskId == taskId && this.clock == clock
      ensures State() == LogState([], [], 0) && Valid()
    {
      this.taskId := taskId;
      this.clock := clock;
      logs := [];
      queue := [];
      ticks := 0;
    }

    /** `add_log(message, level)`; the queue is unbounded, so `put` never drops an entry. */
    method AddLog(message: string, level: string)
      modifies this
      ensures State() == Added(taskId, clock, old(State()), LogLine(level, message))
      ensures Valid()
      ensures logs[|logs| - 1].id == EntryId(taskId, |old(logs)|)
      ensures |old(logs)| < MaxLogs ==> logs == old(logs) + [logs[|logs| - 1]]
    {
      var entry := LogEntry(EntryId(taskId, |logs|), clock(ticks).iso, clock(ticks).display, level, message);
      AppendSpec(logs, entry);
      logs := logs + [entry];
      if |logs| > MaxLogs {
        logs := logs[|logs| - KeptLogs..];
      }
      queue := queue + [entry];
      ticks := ticks + 1;
    }

    /** `get_logs(since_id)` */
    method GetLogs(since: int) returns (r: seq<LogEntry>)
      ensures r == LogsSince(logs, since)
    {
      if since >= |logs| {
        return [];
      }
      r := PyDrop(logs, since);
    }

    /** `get_new_logs()`: drains the queue, oldest entry first. */
    method GetNewLogs() returns (r: seq<LogEntry>)
      modifies this
      ensures r == old(queue) && queue == []
      ensures logs == old(logs) && ticks == old(ticks)
    {
      r := [];
      while queue != []
        invariant r + queue == old(queue)
        invariant logs == old(logs) && ticks == old(ticks)
        decreases |queue|
      {
        r := r + [queue[0]];
        queue := queue[1..];
      }
    }
  }

  // ---------------------------------------------------------------- one patrol task

  /** `PatrolTask.status` */
  datatype TaskState = Pending | Running | Completed | Failed
  {
    function Name(): string
    {
      match this
      case Pending => "pending"
      case Running => "running"
      case Completed => "completed"
      case Failed => "failed"
    }
  }

  /** `PatrolTask.result`: the three counts. */
  datatype Counts = Counts(checkedCount: int, piracyCount: int, reportedCount: int)

  /** How the agent's `start_patrol` ended: the dictionary it returned or the text of the exception. */
  datatype AgentOutcome = Returned(summary: map<string, int>) | Raised(error: string)

  /** `result.get(key, 0)` */
  function CountOr0(summary: map<string, int>, key: string): int
  {
    if key in summary then summary[key] else 0
  }

  /** The recorded result: exactly the three counts, each defaulting to 0. */
  function CountsOf(summary: map<string, int>): Counts
  {
    Counts(CountOr0(summary, "checked_count"), CountOr0(summary, "piracy_count"), CountOr0(summary, "reported_count"))
  }

  /** `min(max_items, 10)`: how many items the simulated run pretends to check. */
  function SimulatedItems(maxItems: int): int
  {
    if maxItems < 10 then maxItems else 10
  }

  /** `range(min(max_items, 10))` as a count: empty for a negative bound. */
  function SimCount(maxItems: int): nat
  {
    var n := SimulatedItems(maxItems);
    if n < 0 then 0 else n
  }

  /** The simulated result. Dafny's `/` by 3 rounds down, as Python's `//` does. */
  function SimulatedCounts(maxItems: int, testMode: bool): Counts
  {
    var n := SimulatedItems(maxItems);
    Counts(n, n / 3, if testMode then 0 else n / 3)
  }

  /** The simulated run never reports more than it flags, nor flags more than it checks, and reports nothing in test mode. */
  lemma SimulatedCountsBounds(maxItems: int, testMode: bool)
    requires maxItems >= 0
    ensures var c := SimulatedCounts(maxItems, testMode);
      0 <= c.reportedCount <= c.piracyCount <= c.checkedCount <= 10
      && c.checkedCount <= maxItems
      && (testMode ==> c.reportedCount == 0)
      && (!testMode ==> c.reportedCount == c.piracyCount)
  {
  }

  const SimCheckLead := "\U{1F4E6} 模拟检查第 "
  const SimCheckTail := " 个商品..."
  const SimSuspect := Warn + " 模拟发现疑似盗版商品: 价格异常"

  /** The log lines of the first `n` simulated checks: one per item, plus a warning for every item `i` with `i % 3 == 1`. */
  function SimLines(n: nat): seq<LogLine>
  {
    if n == 0 then []
    else
      var i := n - 1;
      SimLines(i) + [LogLine("info", SimCheckLead + NatToString(i + 1) + SimCheckTail)]
        + (if i % 3 == 1 then [LogLine("warning", SimSuspect)] else [])
  }

  /** Every simulated item is logged, and one item in three also raises a warning. */
  lemma {:induction false} SimLinesCount(n: nat)
    ensures |SimLines(n)| == n + (n + 1) / 3
    decreases n
  {
    if n > 0 {
      var i := n - 1;
      SimLinesCount(i);
      assert |SimLines(n)| == |SimLines(i)| + 1 + (if i % 3 == 1 then 1 else 0);
      ThirdsStep(i);
    }
  }

  lemma ThirdsStep(i: nat)
    ensures (i + 2) / 3 == (i + 1) / 3 + (if i % 3 == 1 then 1 else 0)
  {
  }

  function YesNo(b: bool): string
  {
    if b then "是" else "否"
  }

  function StartLine(platform: string, keyword: string, maxItems: int, testMode: bool): LogLine
  {
    LogLine("info", "开始巡查任务: 平台=" + platform + ", 关键词=" + keyword + ", 最大检查数=" + IntToString(maxItems)
                    + ", 测试模式=" + YesNo(testMode))
  }

  /** The lines the simulation logs before its checks. */
  function SimIntro(platform: string, keyword: string): seq<LogLine>
  {
    [LogLine("warning", Warn + " 反盗版系统模块不可用，运行模拟模式"),
     LogLine("info", "\U{1F4F1} 模拟启动 " + platform + " 应用..."),
     LogLine("info", "\U{1F50D} 模拟搜索关键词: " + keyword)]
  }

  const SimDone := LogLine("info", Tick + " 模拟巡查完成")

  function DoneLine(c: Counts): LogLine
  {
    LogLine("info", "巡查任务完成: 检查" + IntToString(c.checkedCount) + "个商品, 发现" + IntToString(c.piracyCount)
                    + "个疑似盗版, 举报" + IntToString(c.reportedCount) + "个")
  }

  function FailLines(error: string, traceback: string): seq<LogLine>
  {
    [LogLine("error", "巡查任务失败: " + error), LogLine("error", traceback)]
  }

  function EndLine(duration: string): LogLine
  {
    LogLine("info", "任务结束，耗时" + duration + "秒")
  }

  /** The environment of one run: whether the agent modules imported, how the agent ended, and the texts of the clock and the traceback. */
  datatype RunEnv = RunEnv(available: bool, outcome: AgentOutcome, traceback: string, duration: string)

  /** Whether the run ends in `completed`: the simulation always does, the agent unless it raised. */
  predicate Succeeds(env: RunEnv)
  {
    !env.available || env.outcome.Returned?
  }

  /** The counts a successful run records. */
  function RunCounts(env: RunEnv, maxItems: int, testMode: bool): Counts
    requires Succeeds(env)
  {
    if !env.available then SimulatedCounts(maxItems, testMode) else CountsOf(env.outcome.summary)
  }

  /** The lines `_run_task` logs between its start line and its end line. */
  function BodyLines(env: RunEnv, platform: string, keyword: string, maxItems: int, testMode: bool): seq<LogLine>
  {
    if !env.available then
      SimIntro(platform, keyword) + SimLines(SimCount(maxItems)) + [SimDone, DoneLine(SimulatedCounts(maxItems, testMode))]
    else if env.outcome.Returned? then [DoneLine(CountsOf(env.outcome.summary))]
    else FailLines(env.outcome.error, env.traceback)
  }

  /** Every line `_run_task` logs, in order. */
  function RunLines(env: RunEnv, platform: string, keyword: string, maxItems: int, testMode: bool): seq<LogLine>
  {
    [StartLine(platform, keyword, maxItems, testMode)] + BodyLines(env, platform, keyword, maxItems, testMode)
      + [EndLine(env.duration)]
  }

  lemma SimBodyLines(env: RunEnv, platform: string, keyword: string, maxItems: int, testMode: bool,
                     done: seq<LogLine>, mid: seq<LogLine>, last: seq<LogLine>)
    requires !env.available
    requires mid == done + SimIntro(platform, keyword) + SimLines(SimCount(maxItems)) + [SimDone]
    requires last == mid + [DoneLine(SimulatedCounts(maxItems, testMode))]
    ensures last == done + BodyLines(env, platform, keyword, maxItems, testMode)
  {
    var a := SimIntro(platform, keyword);
    var b := SimLines(SimCount(maxItems));
    var d := DoneLine(SimulatedCounts(maxItems, testMode));
    assert BodyLines(env, platform, keyword, maxItems, testMode) == a + b + [SimDone, d];
    assert last == done + (a + b + [SimDone, d]);
  }

  lemma RunLinesShape(env: RunEnv, platform: string, keyword: string, maxItems: int, testMode: bool,
                      d1: seq<LogLine>, d2: seq<LogLine>, d3: seq<LogLine>)
    requires d1 == [] + [StartLine(platform, keyword, maxItems, testMode)]
    requires d2 == d1 + BodyLines(env, platform, keyword, maxItems, testMode)
    requires d3 == d2 + [EndLine(env.duration)]
    ensures d3 == RunLines(env, platform, keyword, maxItems, testMode)
  {
    assert d1 == [StartLine(platform, keyword, maxItems, testMode)];
  }

  /** `PatrolTask` */
  class PatrolTask {
    const taskId: string
    const platform: string
    const keyword: string
    const maxItems: int
    const testMode: bool
    const logManager: TaskLog
    var status: TaskState
    var startTime: Option<string>
    var endTime: Option<string>
    var result: Option<Counts>
    var error: Option<string>
    /** Whether `start` launched the background thread. */
    var launched: bool

    constructor(taskId: string, platform: string, keyword: string, maxItems: int, testMode: bool, clock: nat -> Stamp)
      ensures this.taskId == taskId && this.platform == platform && this.keyword == keyword
      ensures this.maxItems == maxItems && this.testMode == testMode
      ensures status == Pending && startTime == None && endTime == None && result == None && error == None
      ensures !launched && fresh(logManager)
      ensures logManager.taskId == taskId && logManager.clock == clock && logManager.State() == LogState([], [], 0)
    {
      this.taskId := taskId;
      this.platform := platform;
      this.keyword := keyword;
      this.maxItems := maxItems;
      this.testMode := testMode;
      logManager := new TaskLog(taskId, clock);
      status := Pending;
      startTime := None;
      endTime := None;
      result := None;
      error := None;
      launched := false;
    }

    /** `start()`: launches the run only from `pending`. */
    method Start()
      modifies this
      ensures launched == (old(launched) || old(status) == Pending)
      ensures status == old(status) && result == old(result) && error == old(error)
      ensures startTime == old(startTime) && endTime == old(endTime)
    {
      if status != Pending {
        return;
      }
      launched := true;
    }

    /** The first two statements of `_run_task`. */
    method Begin(start: string)
      modifies this
      ensures status == Running && startTime == Some(start)
      ensures result == old(result) && error == old(error) && endTime == old(endTime) && launched == old(launched)
    {
      status := Running;
      startTime := Some(start);
    }

    /** The logging of the simulated checks: `for i in range(min(max_items, 10))`. */
    method Simulate()
      modifies logManager
      ensures logManager.State() ==
        AddedAll(logManager.taskId, logManager.clock, old(logManager.State()), SimLines(SimCount(maxItems)))
    {
      var count := SimCount(maxItems);
      ghost var s0 := logManager.State();
      ghost var t := logManager.taskId;
      ghost var clock := logManager.clock;
      var i := 0;
      while i < count
        invariant 0 <= i <= count
        invariant logManager.State() == AddedAll(t, clock, s0, SimLines(i))
      {
        ghost var done := SimLines(i);
        var line := LogLine("info", SimCheckLead + NatToString(i + 1) + SimCheckTail);
        logManager.AddLog(line.message, line.level);
        AddedAllSnoc(t, clock, s0, done, line);
        done := done + [line];
        if i % 3 == 1 {
          var warning := LogLine("warning", SimSuspect);
          logManager.AddLog(warning.message, warning.level);
          AddedAllSnoc(t, clock, s0, done, warning);
          done := done + [warning];
        }
        assert done == SimLines(i + 1);
        i := i + 1;
      }
    }

    /** Logs one line and extends the record of what has been logged since `s0`. */
    method Log(line: LogLine, ghost s0: LogState, ghost done: seq<LogLine>) returns (ghost done': seq<LogLine>)
      requires logManager.State() == AddedAll(logManager.taskId, logManager.clock, s0, done)
      modifies logManager
      ensures done' == done + [line]
      ensures logManager.State() == AddedAll(logManager.taskId, logManager.clock, s0, done')
    {
      logManager.AddLog(line.message, line.level);
      AddedAllSnoc(logManager.taskId, logManager.clock, s0, done, line);
      done' := done + [line];
    }

    /** The simulation branch of `_run_task`, up to its result. */
    method SimulatedRun(ghost s0: LogState, ghost done: seq<LogLine>) returns (ghost done': seq<LogLine>)
      requires logManager.State() == AddedAll(logManager.taskId, logManager.clock, s0, done)
      modifies logManager
      ensures done' == done + SimIntro(platform, keyword) + SimLines(SimCount(maxItems)) + [SimDone]
      ensures logManager.State() == AddedAll(logManager.taskId, logManager.clock, s0, done')
    {
      var intro := SimIntro(platform, keyword);
      done' := Log(intro[0], s0, done);
      done' := Log(intro[1], s0, done');
      done' := Log(intro[2], s0, done');
      assert done' == done + intro;
      Simulate();
      AddedAllAppend(logManager.taskId, logManager.clock, s0, done', SimLines(SimCount(maxItems)));
      done' := done' + SimLines(SimCount(maxItems));
      done' := Log(SimDone, s0, done');
    }

    /** The simulation: its logging, then `completed` with the simulated counts. */
    method SimulatedBody(env: RunEnv, ghost s0: LogState, ghost done: seq<LogLine>) returns (ghost done': seq<LogLine>)
      requires !env.available
      requires logManager.State() == AddedAll(logManager.taskId, logManager.clock, s0, done)
      modifies this, logManager
      ensures done' == done + BodyLines(env, platform, keyword, maxItems, testMode)
      ensures logManager.State() == AddedAll(logManager.taskId, logManager.clock, s0, done')
      ensures status == Completed && result == Some(SimulatedCounts(maxItems, testMode)) && error == old(error)
      ensures endTime == old(endTime) && startTime == old(startTime) && launched == old(launched)
    {
      ghost var mid := SimulatedRun(s0, done);
      var counts := SimulatedCounts(maxItems, testMode);
      result := Some(counts);
      done' := Log(DoneLine(counts), s0, mid);
      status := Completed;
      SimBodyLines(env, platform, keyword, maxItems, testMode, done, mid, done');
    }

    /** The agent's run: `completed` with the counts it returned, or `failed` with the text of its exception. */
    method AgentBody(env: RunEnv, ghost s0: LogState, ghost done: seq<LogLine>) returns (ghost done': seq<LogLine>)
      requires env.available
      requires logManager.State() == AddedAll(logManager.taskId, logManager.clock, s0, done)
      modifies this, logManager
      ensures done' == done + BodyLines(env, platform, keyword, maxItems, testMode)
      ensures logManager.State() == AddedAll(logManager.taskId, logManager.clock, s0, done')
      ensures env.outcome.Returned? ==> status == Completed && result == Some(CountsOf(env.outcome.summary)) && error == old(error)
      ensures env.outcome.Raised? ==> status == Failed && result == old(result) && error == Some(env.outcome.error)
      ensures endTime == old(endTime) && startTime == old(startTime) && launched == old(launched)
    {
      match env.outcome
      case Returned(summary) =>
        var counts := CountsOf(summary);
        result := Some(counts);
        done' := Log(DoneLine(counts), s0, done);
        status := Completed;
      case Raised(e) =>
        status := Failed;
        error := Some(e);
        var lines := FailLines(e, env.traceback);
        done' := Log(lines[0], s0, done);
        done' := Log(lines[1], s0, done');
    }

    /** The `try` block of `_run_task` after its start line. */
    method Body(env: RunEnv, ghost s0: LogState, ghost done: seq<LogLine>) returns (ghost done': seq<LogLine>)
      requires logManager.State() == AddedAll(logManager.taskId, logManager.clock, s0, done)
      modifies this, logManager
      ensures done' == done + BodyLines(env, platform, keyword, maxItems, testMode)
      ensures logManager.State() == AddedAll(logManager.taskId, logManager.clock, s0, done')
      ensures status == (if Succeeds(env) then Completed else Failed)
      ensures Succeeds(env) ==> result == Some(RunCounts(env, maxItems, testMode)) && error == old(error)
      ensures !Succeeds(env) ==> result == old(result) && error == Some(env.outcome.error)
      ensures endTime == old(endTime) && startTime == old(startTime) && launched == old(launched)
    {
      if !env.available {
        done' := SimulatedBody(env, s0, done);
      } else {
        done' := AgentBody(env, s0, done);
      }
    }

    /**
     * The rest of `_run_task`: the start line, the simulated or the agent's run, `completed`
     * with the three counts or `failed` with the error, and, in every case, the end time and
     * the duration line.
     */
    method Finish(env: RunEnv, end: string)
      modifies this, logManager
      ensures status == (if Succeeds(env) then Completed else Failed)
      ensures Succeeds(env) ==> result == Some(RunCounts(env, maxItems, testMode)) && error == old(error)
      ensures !Succeeds(env) ==> result == old(result) && error == Some(env.outcome.error)
      ensures endTime == Some(end) && startTime == old(startTime) && launched == old(launched)
      ensures logManager.State() ==
        AddedAll(logManager.taskId, logManager.clock, old(logManager.State()), RunLines(env, platform, keyword, maxItems, testMode))
    {
      ghost var s0 := logManager.State();
      ghost var d1 := Log(StartLine(platform, keyword, maxItems, testMode), s0, []);
      ghost var d2 := Body(env, s0, d1);
      endTime := Some(end);
      ghost var d3 := Log(EndLine(env.duration), s0, d2);
      RunLinesShape(env, platform, keyword, maxItems, testMode, d1, d2, d3);
    }

    /** `_run_task()` */
    method RunTask(env: RunEnv, start: string, end: string)
      modifies this, logManager
      ensures status in {Completed, Failed}
      ensures status == Completed <==> Succeeds(env)
      ensures status == Completed ==> result == Some(RunCounts(env, maxItems, testMode)) && error == old(error)
      ensures status == Failed ==> error == Some(env.outcome.error) && result == old(result)
      ensures startTime == Some(start) && endTime == Some(end) && launched == old(launched)
      ensures logManager.State() ==
        AddedAll(logManager.taskId, logManager.clock, old(logManager.State()), RunLines(env, platform, keyword, maxItems, testMode))
    {
      Begin(start);
      Finish(env, end);
    }
  }

  /** Logging `a` and then `b` is logging `a + b`. */
  lemma {:induction false} AddedAllAppend(taskId: string, clock: nat -> Stamp, s: LogState, a: seq<LogLine>, b: seq<LogLine>)
    ensures AddedAll(taskId, clock, s, a + b) == AddedAll(taskId, clock, AddedAll(taskId, clock, s, a), b)
    decreases |a|
  {
    if a != [] {
      assert a + b != [];
      assert (a + b)[0] == a[0] && (a + b)[1..] == a[1..] + b;
      AddedAllAppend(taskId, clock, Added(taskId, clock, s, a[0]), a[1..], b);
    } else {
      assert a + b == b;
    }
  }

  /** Logging `a` and then `line` is logging `a + [line]`. */
  lemma AddedAllSnoc(taskId: string, clock: nat -> Stamp, s: LogState, a: seq<LogLine>, line: LogLine)
    ensures AddedAll(taskId, clock, s, a + [line]) == Added(taskId, clock, AddedAll(taskId, clock, s, a), line)
  {
    AddedAllAppend(taskId, clock, s, a, [line]);
    assert [line][1..] == [];
  }

  // ---------------------------------------------------------------- the task table

  /** `patrol_<stamp>_<number of tasks>` */
  function TaskId(stamp: string, n: nat): string
  {
    "patrol_" + stamp + "_" + NatToString(n)
  }

  /** The length of the run of characters other than `_` that ends `x`. */
  function TrailLen(x: string): nat
  {
    if x == [] || x[|x| - 1] == '_' then 0 else 1 + TrailLen(x[..|x| - 1])
  }

  lemma {:induction false} TrailLenDigits(p: string, d: string)
    requires p != [] && p[|p| - 1] == '_' && AllDigits(d)
    ensures TrailLen(p + d) == |d|
    decreases |d|
  {
    if d == [] {
      assert p + d == p;
    } else {
      assert (p + d)[..|p + d| - 1] == p + d[..|d| - 1];
      TrailLenDigits(p, d[..|d| - 1]);
    }
  }

  /** Two strings that end in `_` followed by digits end in the same digits. */
  lemma DigitTails(a: string, b: string, d1: string, d2: string)
    requires a + "_" + d1 == b + "_" + d2
    requires AllDigits(d1) && AllDigits(d2)
    ensures d1 == d2
  {
    var x := a + "_" + d1;
    TrailLenDigits(a + "_", d1);
    TrailLenDigits(b + "_", d2);
    assert |d1| == |d2|;
    assert x[|x| - |d1|..] == d1;
    assert x[|x| - |d2|..] == d2;
  }

  /** Task ids made at different table sizes differ, whatever the clock read. */
  lemma TaskIdsDiffer(s1: string, n1: nat, s2: string, n2: nat)
    requires n1 != n2
    ensures TaskId(s1, n1) != TaskId(s2, n2)
  {
    if TaskId(s1, n1) == TaskId(s2, n2) {
      assert TaskId(s1, n1) == ("patrol_" + s1) + "_" + NatToString(n1);
      assert TaskId(s2, n2) == ("patrol_" + s2) + "_" + NatToString(n2);
      DigitTails("patrol_" + s1, "patrol_" + s2, NatToString(n1), NatToString(n2));
      DigitsOfNat(n1);
      DigitsOfNat(n2);
    }
  }

  /** The ids handed out so far: the `j`-th was made from the `j`-th clock reading and size `j`, and none repeats. */
  ghost predicate IdsMade(ids: seq<string>, stamps: seq<string>)
  {
    |ids| == |stamps|
    && (forall j :: 0 <= j < |ids| ==> ids[j] == TaskId(stamps[j], j))
    && Distinct(ids)
  }

  /** The next id is new: the table has as many entries as ids were made, and it carries a size no earlier id carries. */
  lemma NextIdFresh(ids: seq<string>, stamps: seq<string>, stamp: string, keys: set<string>)
    requires IdsMade(ids, stamps) && forall k :: k in keys <==> k in ids
    ensures |keys| == |ids|
    ensures TaskId(stamp, |ids|) !in keys
    ensures IdsMade(ids + [TaskId(stamp, |ids|)], stamps + [stamp])
  {
    DistinctCard(ids);
    assert (set x | x in ids) == keys;
    var id := TaskId(stamp, |ids|);
    forall j | 0 <= j < |ids|
      ensures ids[j] != id
    {
      TaskIdsDiffer(stamps[j], j, stamp, |ids|);
    }
  }

  /** `TaskManager`: the table of tasks, keyed by id. */
  class TaskManager {
    var tasks: map<string, PatrolTask>
    /** The ids handed out, in order, and the clock readings they were made from. */
    ghost var ids: seq<string>
    ghost var stamps: seq<string>

    ghost predicate Valid()
      reads this
    {
      IdsMade(ids, stamps) && (forall k :: k in tasks <==> k in ids)
    }

    constructor()
      ensures Valid() && tasks == map[]
    {
      tasks := map[];
      ids := [];
      stamps := [];
    }

    /**
     * `create_task(...)`: a new pending task under `patrol_<stamp>_<number of tasks>`, which
     * no earlier task holds, is stored and started.
     */
    method CreateTask(platform: string, keyword: string, maxItems: int, testMode: bool, stamp: string,
                      clock: nat -> Stamp) returns (taskId: string)
      requires Valid()
      modifies this
      ensures Valid()
      ensures taskId == TaskId(stamp, |old(tasks)|)
      ensures taskId !in old(tasks) && taskId in tasks
      ensures tasks == old(tasks)[taskId := tasks[taskId]] && |tasks| == |old(tasks)| + 1
      ensures fresh(tasks[taskId]) && fresh(tasks[taskId].logManager)
      ensures tasks[taskId].status == Pending && tasks[taskId].launched
      ensures tasks[taskId].platform == platform && tasks[taskId].keyword == keyword
      ensures tasks[taskId].maxItems == maxItems && tasks[taskId].testMode == testMode
    {
      NextIdFresh(ids, stamps, stamp, tasks.Keys);
      taskId := TaskId(stamp, |tasks|);
      var task := new PatrolTask(taskId, platform, keyword, maxItems, testMode, clock);
      task.Start();
      tasks := tasks[taskId := task];
      ids := ids + [taskId];
      stamps := stamps + [stamp];
    }

    /** `get_task(task_id)` */
    method GetTask(taskId: string) returns (r: Option<PatrolTask>)
      ensures taskId in tasks <==> r.Some?
      ensures r.Some? ==> r.value == tasks[taskId]
    {
      if taskId in tasks {
        return Some(tasks[taskId]);
      }
      return None;
    }

    /** `get_task_logs(task_id, since_id)`: no entries for an unknown task. */
    method GetTaskLogs(taskId: string, since: int) returns (r: seq<LogEntry>)
      ensures taskId !in tasks ==> r == []
      ensures taskId in tasks ==> r == LogsSince(tasks[taskId].logManager.logs, since)
    {
      var task := GetTask(taskId);
      if task.None? {
        return [];
      }
      r := task.value.logManager.GetLogs(since);
    }

    /** `get_new_task_logs(task_id)`: drains the task's queue; no entries for an unknown task. */
    method GetNewTaskLogs(taskId: string) returns (r: seq<LogEntry>)
      modifies if taskId in tasks then {tasks[taskId].logManager} else {}
      ensures taskId !in tasks ==> r == []
      ensures taskId in tasks ==> r == old(tasks[taskId].logManager.queue) && tasks[taskId].logManager.queue == []
      ensures taskId in tasks ==> tasks[taskId].logManager.logs == old(tasks[taskId].logManager.logs)
    {
      var task := GetTask(taskId);
      if task.None? {
        return [];
      }
      r := task.value.logManager.GetNewLogs();
    }
  }
}
