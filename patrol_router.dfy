/**
 * The patrol routes of the backend API: an in-memory table of patrol tasks with start, status,
 * history and cancel, and the background run that drives a task from pending to completed or failed.
 */
module PatrolRouter {
  import opened Wrappers
  import opened Text
  import opened Seqs

  // ---------------------------------------------------------------- status and parameters

  datatype TaskStatus = Pending | Running | Completed | Failed | Cancelled
  {
    /** The enum's string value. */
    function Value(): string
    {
      match this
      case Pending => "pending"
      case Running => "running"
      case Completed => "completed"
      case Failed => "failed"
      case Cancelled => "cancelled"
    }
  }

  /** `TaskStatus(s)`: the member whose value is `s`. */
  function StatusOf(s: string): (r: Option<TaskStatus>)
    ensures r.Some? ==> r.value.Value() == s
  {
    if s == "pending" then Some(Pending)
    else if s == "running" then Some(Running)
    else if s == "completed" then Some(Completed)
    else if s == "failed" then Some(Failed)
    else if s == "cancelled" then Some(Cancelled)
    else None
  }

  /** Every member is read back from its value, so no two members share one. */
  lemma StatusRoundTrip(t: TaskStatus, u: TaskStatus)
    ensures StatusOf(t.Value()) == Some(t)
    ensures t.Value() == u.Value() ==> t == u
  {
  }

  /** The states a task cannot be cancelled from. */
  predicate Finished(s: TaskStatus)
  {
    s == Completed || s == Failed || s == Cancelled
  }

  const MinItems: int := 1
  const MaxItems: int := 100
  const DefaultItems: int := 10
  const DefaultDeviceType: string := "adb"

  datatype PatrolParams = PatrolParams(platform: string, keyword: string, maxItems: int, testMode: bool,
                                       deviceId: Option<string>, deviceType: Option<string>)

  /** What the field constraints admit: `max_items` between 1 and 100. */
  predicate ValidParams(p: PatrolParams)
  {
    MinItems <= p.maxItems <= MaxItems
  }

  /** A request body as sent: an absent field is `None` (`deviceType == Some(None)` is an explicit null). */
  datatype ParamsRequest = ParamsRequest(platform: string, keyword: string, maxItems: Option<int>,
                                         testMode: Option<bool>, deviceId: Option<string>,
                                         deviceType: Option<Option<string>>)

  datatype ParamError = BelowMinimum(field: string, ge: int) | AboveMaximum(field: string, le: int)

  datatype ParamsParse = ParamsOk(params: PatrolParams) | ParamsRejected(error: ParamError)

  /** The body validation: defaults for the absent fields, then the bounds on `max_items`. */
  function ParseParams(req: ParamsRequest): (r: ParamsParse)
    ensures r.ParamsOk? <==> req.maxItems.None? || MinItems <= req.maxItems.value <= MaxItems
    ensures r.ParamsOk? ==> ValidParams(r.params)
    ensures r.ParamsOk? ==> r.params.platform == req.platform && r.params.keyword == req.keyword
                            && r.params.maxItems == req.maxItems.GetOr(DefaultItems)
                            && r.params.testMode == req.testMode.GetOr(true)
                            && r.params.deviceId == req.deviceId
                            && r.params.deviceType == req.deviceType.GetOr(Some(DefaultDeviceType))
    ensures r.ParamsRejected? ==> (r.error == BelowMinimum("max_items", MinItems) <==> req.maxItems.value < MinItems)
    ensures r.ParamsRejected? ==> (r.error == AboveMaximum("max_items", MaxItems) <==> req.maxItems.value > MaxItems)
  {
    var n := req.maxItems.GetOr(DefaultItems);
    if n < MinItems then ParamsRejected(BelowMinimum("max_items", MinItems))
    else if n > MaxItems then ParamsRejected(AboveMaximum("max_items", MaxItems))
    else ParamsOk(PatrolParams(req.platform, req.keyword, n, req.testMode.GetOr(true), req.deviceId,
                               req.deviceType.GetOr(Some(DefaultDeviceType))))
  }

  /** The body that sends every field of `p`. */
  function RequestOf(p: PatrolParams): ParamsRequest
  {
    ParamsRequest(p.platform, p.keyword, Some(p.maxItems), Some(p.testMode), p.deviceId, Some(p.deviceType))
  }

  /** Valid parameters survive being sent in full and validated again; invalid ones are refused. */
  lemma ParamsRoundTrip(p: PatrolParams)
    ensures ValidParams(p) <==> ParseParams(RequestOf(p)) == ParamsOk(p)
  {
  }

  // ---------------------------------------------------------------- records

  datatype DetectionResult = DetectionResult(title: string, shopName: string, price: real, isPiracy: bool,
                                             confidence: real, reasons: seq<string>, reportStatus: Option<string>)

  /** A task's result; times are clock readings. */
  datatype PatrolResult = PatrolResult(checkedCount: int, piracyCount: int, reportedCount: int,
                                       details: seq<DetectionResult>, startTime: int, endTime: Option<int>,
                                       errorMessage: Option<string>)

  /** A task as stored; `createdAt`, `startedAt` and `completedAt` are clock readings, ordered as numbers. */
  datatype TaskRecord = TaskRecord(taskId: string, status: TaskStatus, params: PatrolParams,
                                   result: Option<PatrolResult>, progress: real, createdAt: int,
                                   startedAt: Option<int>, completedAt: Option<int>, errorMessage: Option<string>)

  /** The stored invariants of a record: its progress lies in [0, 1] and its parameters passed validation. */
  predicate Sound(t: TaskRecord)
  {
    0.0 <= t.progress <= 1.0 && ValidParams(t.params)
  }

  datatype HttpError = HttpError(code: int, detail: string)

  const NotFound: HttpError := HttpError(404, "任务不存在")
  const AlreadyFinished: HttpError := HttpError(400, "任务已结束，无法取消")
  const CancelReason: string := "任务被用户取消"
  const CancelledMessage: string := "任务已取消"

  /** A route's answer, or the HTTP error it raises. */
  datatype Reply<T> = Ok(value: T) | Raised(error: HttpError)

  /** The `{"message": ..., "task_id": ...}` answer of a cancel. */
  datatype CancelReply = CancelReply(message: string, taskId: string)

  // ---------------------------------------------------------------- transitions of one record

  function NewTask(taskId: string, params: PatrolParams, now: int): TaskRecord
  {
    TaskRecord(taskId, Pending, params, None, 0.0, now, None, None, None)
  }

  function AfterBegin(t: TaskRecord, now: int): TaskRecord
  {
    t.(status := Running, startedAt := Some(now))
  }

  /** After the `step`-th of the ten progress updates (counting from 0). */
  function StepProgress(step: nat): real
  {
    (step + 1) as real / 10.0
  }

  /** After all ten progress updates. */
  function Simulated(t: TaskRecord): TaskRecord
  {
    t.(progress := StepProgress(9))
  }

  function AfterComplete(t: TaskRecord, now: int): TaskRecord
  {
    t.(status := Completed, progress := 1.0, completedAt := Some(now))
  }

  function AfterFailure(t: TaskRecord, message: string, now: int): TaskRecord
  {
    t.(status := Failed, errorMessage := Some(message), completedAt := Some(now))
  }

  /** The cancel of one stored task: refused once it has finished. */
  function CancelOf(t: TaskRecord, now: int): Reply<TaskRecord>
  {
    if Finished(t.status) then Raised(AlreadyFinished)
    else Ok(t.(status := Cancelled, completedAt := Some(now), errorMessage := Some(CancelReason)))
  }

  /**
   * A cancel succeeds exactly on an unfinished task; it leaves the task finished, so a second cancel
   * is refused with 400, and it touches nothing but the status, the completion time and the message.
   */
  lemma CancelOnce(t: TaskRecord, now: int, later: int)
    ensures CancelOf(t, now).Ok? <==> !Finished(t.status)
    ensures CancelOf(t, now).Raised? ==> CancelOf(t, now).error == AlreadyFinished
    ensures CancelOf(t, now).Ok? ==>
              var c := CancelOf(t, now).value;
              c.status == Cancelled && c.completedAt == Some(now) && c.errorMessage == Some(CancelReason)
              && c == t.(status := c.status, completedAt := c.completedAt, errorMessage := c.errorMessage)
              && CancelOf(c, later) == Raised(AlreadyFinished)
  {
  }

  /**
   * Completing does not look at the status: a task cancelled while its run was under way becomes
   * completed at the later time, and keeps the cancel message.
   */
  lemma CompleteAfterCancel(t: TaskRecord, now: int, later: int)
    requires CancelOf(t, now).Ok?
    ensures var c := AfterComplete(CancelOf(t, now).value, later);
            c.status == Completed && c.progress == 1.0 && c.completedAt == Some(later)
            && c.errorMessage == Some(CancelReason)
  {
  }

  /** How a run's end leaves the record: completed with `result`, or failed with the raised message. */
  function RunEnd(t: TaskRecord, result: PatrolResult, raised: Option<string>, completedAt: int): TaskRecord
  {
    if raised.Some? then AfterFailure(t, raised.value, completedAt)
    else AfterComplete(t.(result := Some(result)), completedAt)
  }

  /** The record a whole run leaves: begun, progressed to 1.0, then ended. */
  function RunOutcome(t: TaskRecord, result: PatrolResult, raised: Option<string>, startedAt: int,
                      completedAt: int): TaskRecord
  {
    RunEnd(Simulated(AfterBegin(t, startedAt)), result, raised, completedAt)
  }

  /**
   * A run ends completed with its result exactly when nothing was raised, and failed with the
   * message otherwise; either way it has started and ended, reached progress 1.0, and kept the
   * id, the parameters and the creation time.
   */
  lemma RunOutcomeSpec(t: TaskRecord, result: PatrolResult, raised: Option<string>, startedAt: int,
                       completedAt: int)
    ensures var o := RunOutcome(t, result, raised, startedAt, completedAt);
            (o.status == Completed <==> raised.None?)
            && (o.status == Failed <==> raised.Some?)
            && (raised.None? ==> o.result == Some(result) && o.errorMessage == t.errorMessage)
            && (raised.Some? ==> o.result == t.result && o.errorMessage == raised)
            && o.startedAt == Some(startedAt) && o.completedAt == Some(completedAt) && o.progress == 1.0
            && o.taskId == t.taskId && o.params == t.params && o.createdAt == t.createdAt
            && (Sound(t) ==> Sound(o))
  {
    assert StepProgress(9) == 1.0;
  }

  // ---------------------------------------------------------------- the simulated result

  /** The random choices behind one simulated detail. */
  datatype SimDraw = SimDraw(shop: char, price: real, isPiracy: bool, confidence: real, withReasons: bool,
                             reported: bool)

  const ItemTitleLead: string := "测试商品 "
  const ShopLead: string := "测试店铺 "
  const SuspectReasons: seq<string> := ["价格异常", "非官方店铺"]
  const ReportedMark: string := "已举报"

  /** The detail of the `i`-th simulated item (counting from 0). */
  function SimDetail(i: nat, testMode: bool, d: SimDraw): DetectionResult
  {
    DetectionResult(ItemTitleLead + NatToString(i + 1), ShopLead + [d.shop], d.price, d.isPiracy, d.confidence,
                    if d.withReasons then SuspectReasons else [],
                    if !testMode && d.reported then Some(ReportedMark) else None)
  }

  function SimDetails(n: nat, testMode: bool, draw: nat -> SimDraw): (r: seq<DetectionResult>)
    ensures |r| == n
  {
    if n == 0 then [] else SimDetails(n - 1, testMode, draw) + [SimDetail(n - 1, testMode, draw(n - 1))]
  }

  /** `range(n)` of a possibly negative `n` runs `max(n, 0)` times. */
  function Times(n: int): nat
  {
    if n < 0 then 0 else n
  }

  /** The result a simulated run records, `piracy` and `reported` being the drawn counts. */
  function SimResult(params: PatrolParams, piracy: int, reported: int, draw: nat -> SimDraw, now: int): PatrolResult
  {
    PatrolResult(params.maxItems, piracy, if params.testMode then 0 else reported,
                 SimDetails(Times(params.maxItems), params.testMode, draw), now, Some(now), None)
  }

  /**
   * One detail per item, titled by its 1-based number; in test mode nothing is reported, neither in
   * the count nor in any detail; with counts drawn as `randint(0, max_items // 2)` and
   * `randint(0, max_items // 3)` both stay below the number checked.
   */
  lemma SimResultSpec(params: PatrolParams, piracy: int, reported: int, draw: nat -> SimDraw, now: int)
    requires ValidParams(params)
    requires 0 <= piracy <= params.maxItems / 2 && 0 <= reported <= params.maxItems / 3
    ensures var r := SimResult(params, piracy, reported, draw, now);
            |r.details| == r.checkedCount == params.maxItems
            && (forall i :: 0 <= i < |r.details| ==> r.details[i].title == ItemTitleLead + NatToString(i + 1))
            && (params.testMode ==> r.reportedCount == 0
                                    && forall i :: 0 <= i < |r.details| ==> r.details[i].reportStatus.None?)
            && 0 <= r.piracyCount <= r.checkedCount && 0 <= r.reportedCount <= r.checkedCount
  {
    var r := SimResult(params, piracy, reported, draw, now);
    forall i | 0 <= i < |r.details|
      ensures r.details[i] == SimDetail(i, params.testMode, draw(i))
    {
      SimDetailsAt(Times(params.maxItems), params.testMode, draw, i);
    }
  }

  lemma {:induction false} SimDetailsAt(n: nat, testMode: bool, draw: nat -> SimDraw, i: nat)
    requires i < n
    ensures SimDetails(n, testMode, draw)[i] == SimDetail(i, testMode, draw(i))
  {
    if i < n - 1 {
      SimDetailsAt(n - 1, testMode, draw, i);
    }
  }

  /** The two counts are drawn independently, so more items can be reported than were found pirated. */
  lemma ReportedMayExceedPiracy(draw: nat -> SimDraw)
    ensures var p := PatrolParams("xianyu", "book", 10, false, None, Some(DefaultDeviceType));
            var r := SimResult(p, 0, 3, draw, 0);
            ValidParams(p) && 0 <= 0 <= p.maxItems / 2 && 0 <= 3 <= p.maxItems / 3
            && r.reportedCount > r.piracyCount
  {
  }

  /** `simulate_patrol_task`'s result: the details appended one per item. */
  method BuildResult(params: PatrolParams, piracy: int, reported: int, draw: nat -> SimDraw, now: int)
    returns (result: PatrolResult)
    ensures result == SimResult(params, piracy, reported, draw, now)
  {
    result := PatrolResult(params.maxItems, piracy, if params.testMode then 0 else reported, [], now, Some(now), None);
    var n := Times(params.maxItems);
    for i := 0 to n
      invariant result == SimResult(params, piracy, reported, draw, now).(details := SimDetails(i, params.testMode, draw))
    {
      result := result.(details := result.details + [SimDetail(i, params.testMode, draw(i))]);
    }
  }

  // ---------------------------------------------------------------- the task table

  /**
   * The table's invariants: `order` lists the keys once each in insertion order, every record is
   * stored under its own id, and every record is sound.
   */
  ghost predicate TableOk(tasks: map<string, TaskRecord>, order: seq<string>)
  {
    Distinct(order)
    && (forall k :: k in tasks <==> k in order)
    && (forall k | k in tasks :: tasks[k].taskId == k && Sound(tasks[k]))
  }

  /** Replacing a stored record by a sound one under the same id keeps the table sound. */
  lemma Replace(tasks: map<string, TaskRecord>, order: seq<string>, k: string, t: TaskRecord)
    requires TableOk(tasks, order) && k in tasks && t.taskId == k && Sound(t)
    ensures TableOk(tasks[k := t], order)
  {
  }

  /** `_tasks.values()`: the records in insertion order. */
  function ValuesOf(order: seq<string>, tasks: map<string, TaskRecord>): (r: seq<TaskRecord>)
    ensures |r| <= |order|
  {
    if order == [] then []
    else (if order[0] in tasks then [tasks[order[0]]] else []) + ValuesOf(order[1..], tasks)
  }

  lemma {:induction false} ValuesAll(order: seq<string>, tasks: map<string, TaskRecord>)
    requires forall i :: 0 <= i < |order| ==> order[i] in tasks
    ensures |ValuesOf(order, tasks)| == |order|
    ensures forall i :: 0 <= i < |order| ==> ValuesOf(order, tasks)[i] == tasks[order[i]]
  {
    if order != [] {
      ValuesAll(order[1..], tasks);
    }
  }

  /** In a sound table the values are exactly the records, one per key. */
  lemma ValuesOfTable(tasks: map<string, TaskRecord>, order: seq<string>)
    requires TableOk(tasks, order)
    ensures |ValuesOf(order, tasks)| == |tasks|
    ensures forall k :: k in tasks ==> tasks[k] in ValuesOf(order, tasks)
    ensures forall t :: t in ValuesOf(order, tasks) ==> t.taskId in tasks && tasks[t.taskId] == t
  {
    var v := ValuesOf(order, tasks);
    ValuesAll(order, tasks);
    DistinctCard(order);
    assert (set x | x in order) == tasks.Keys;
    forall k | k in tasks
      ensures tasks[k] in v
    {
      var i :| 0 <= i < |order| && order[i] == k;
      assert v[i] == tasks[k];
    }
  }

  /** The history's sort key, newest first. */
  function Newer(a: TaskRecord, b: TaskRecord): bool
  {
    a.createdAt >= b.createdAt
  }

  lemma NewerPreorder()
    ensures TotalPreorder(Newer)
  {
  }

  /** An element of a newest-first list that is not among its first `b` is no newer than any of them. */
  lemma {:induction false} OutsidePrefix(s: seq<TaskRecord>, b: nat, x: TaskRecord, i: nat)
    requires Sorted(s, Newer) && b <= |s| && x in s && x !in s[..b] && i < b
    ensures x.createdAt <= s[i].createdAt
  {
    var m :| 0 <= m < |s| && s[m] == x;
    assert forall j :: 0 <= j < b ==> s[..b][j] == s[j];
    assert Newer(s[i], s[m]);
  }

  /**
   * `sorted(all, key=created_at, reverse=True)[:limit]`: as many records as the slice bound says,
   * newest first, all taken from `all`, and none of `all` left out is newer than one kept.
   */
  lemma NewestPrefix(all: seq<TaskRecord>, limit: int)
    ensures var r := PyTake(Sort(all, Newer), limit);
            |r| == PyBound(|all|, limit)
            && (forall i, j :: 0 <= i < j < |r| ==> r[i].createdAt >= r[j].createdAt)
            && (forall t :: t in r ==> t in all)
            && (forall x, i :: x in all && x !in r && 0 <= i < |r| ==> x.createdAt <= r[i].createdAt)
  {
    var sorted := Sort(all, Newer);
    NewerPreorder();
    SortSorted(all, Newer);
    SortPermutes(all, Newer);
    assert |sorted| == |all| by {
      assert |multiset(sorted)| == |multiset(all)|;
    }
    var b := PyBound(|sorted|, limit);
    var r := sorted[..b];
    forall t | t in r
      ensures t in all
    {
      assert t in multiset(sorted);
    }
    forall x, i | x in all && x !in r && 0 <= i < |r|
      ensures x.createdAt <= r[i].createdAt
    {
      assert x in multiset(sorted);
      OutsidePrefix(sorted, b, x, i);
    }
  }

  class Router {
    /** `_tasks`, keyed by task id. */
    var tasks: map<string, TaskRecord>
    /** The order the ids entered `_tasks`, which `values()` follows. */
    var order: seq<string>

    ghost predicate Valid()
      reads this
    {
      TableOk(tasks, order)
    }

    constructor()
      ensures Valid() && tasks == map[] && order == []
    {
      tasks := map[];
      order := [];
    }

    /**
     * `POST /start`: a pending task with progress 0, created now and stored under the drawn id; an id
     * already present is overwritten in place. The background run is the caller's next step.
     */
    method StartPatrol(params: PatrolParams, taskId: string, now: int) returns (task: TaskRecord)
      requires Valid() && ValidParams(params)
      modifies this
      ensures Valid()
      ensures task == NewTask(taskId, params, now)
      ensures task.status == Pending && task.progress == 0.0 && task.result.None? && task.startedAt.None?
      ensures tasks == old(tasks)[taskId := task]
      ensures order == if taskId in old(tasks) then old(order) else old(order) + [taskId]
    {
      task := NewTask(taskId, params, now);
      if taskId !in tasks {
        order := order + [taskId];
      }
      tasks := tasks[taskId := task];
    }

    /** `GET /{task_id}`: the stored record, or 404. */
    method GetTaskStatus(taskId: string) returns (r: Reply<TaskRecord>)
      ensures r.Ok? <==> taskId in tasks
      ensures r.Ok? ==> r.value == tasks[taskId]
      ensures r.Raised? ==> r.error == NotFound
    {
      if taskId !in tasks {
        return Raised(NotFound);
      }
      return Ok(tasks[taskId]);
    }

    /**
     * `GET /`: the records sorted newest first (stable), cut to `limit` with Python slicing: the
     * answer has `min(limit, n)` records for a non-negative `limit`, each a stored record, newest
     * first, and no record left out is newer than one returned.
     */
    method GetTaskHistory(limit: int) returns (r: seq<TaskRecord>)
      requires Valid()
      ensures r == PyTake(Sort(ValuesOf(order, tasks), Newer), limit)
      ensures |r| == PyBound(|tasks|, limit)
      ensures forall i, j :: 0 <= i < j < |r| ==> r[i].createdAt >= r[j].createdAt
      ensures forall t :: t in r ==> t.taskId in tasks && tasks[t.taskId] == t
      ensures forall k, i :: k in tasks && tasks[k] !in r && 0 <= i < |r| ==> tasks[k].createdAt <= r[i].createdAt
    {
      var all := ValuesOf(order, tasks);
      ValuesOfTable(tasks, order);
      NewestPrefix(all, limit);
      r := PyTake(Sort(all, Newer), limit);
    }

    /**
     * `DELETE /{task_id}`: 404 for an unknown id; 400 and no change for a finished task; otherwise
     * the task is cancelled now with the cancel message.
     */
    method CancelTask(taskId: string, now: int) returns (r: Reply<CancelReply>)
      requires Valid()
      modifies this
      ensures Valid() && order == old(order)
      ensures taskId !in old(tasks) ==> r == Raised(NotFound) && tasks == old(tasks)
      ensures taskId in old(tasks) && Finished(old(tasks[taskId].status)) ==>
                r == Raised(AlreadyFinished) && tasks == old(tasks)
      ensures taskId in old(tasks) && !Finished(old(tasks[taskId].status)) ==>
                r == Ok(CancelReply(CancelledMessage, taskId))
                && tasks == old(tasks)[taskId := CancelOf(old(tasks[taskId]), now).value]
    {
      if taskId !in tasks {
        return Raised(NotFound);
      }
      var c := CancelOf(tasks[taskId], now);
      if c.Raised? {
        return Raised(c.error);
      }
      Replace(tasks, order, taskId, c.value);
      tasks := tasks[taskId := c.value];
      return Ok(CancelReply(CancelledMessage, taskId));
    }

    /** The run's first step: an unknown id changes nothing, otherwise the task is running since now. */
    method RunBegin(taskId: string, now: int)
      requires Valid()
      modifies this
      ensures Valid() && order == old(order)
      ensures tasks == if taskId in old(tasks) then old(tasks)[taskId := AfterBegin(old(tasks[taskId]), now)]
                       else old(tasks)
    {
      if taskId in tasks {
        Replace(tasks, order, taskId, AfterBegin(tasks[taskId], now));
        tasks := tasks[taskId := AfterBegin(tasks[taskId], now)];
      }
    }

    /**
     * The ten progress updates of the simulation: the progress values published are 0.1, 0.2, ...,
     * 1.0 in that order, each in [0, 1], and nothing else of the table changes.
     */
    method SimulateProgress(taskId: string) returns (ghost published: seq<real>)
      requires Valid() && taskId in tasks
      modifies this
      ensures Valid() && order == old(order)
      ensures tasks == old(tasks)[taskId := Simulated(old(tasks[taskId]))] && tasks[taskId].progress == 1.0
      ensures |published| == 10 && published[9] == 1.0
      ensures forall i :: 0 <= i < 10 ==> 0.0 < published[i] <= 1.0
      ensures forall i, j :: 0 <= i < j < 10 ==> published[i] < published[j]
    {
      published := [];
      ghost var t0 := tasks[taskId];
      for i := 0 to 10
        invariant Valid() && order == old(order) && taskId in tasks
        invariant tasks == old(tasks)[taskId := tasks[taskId]]
        invariant tasks[taskId] == if i == 0 then t0 else t0.(progress := StepProgress(i - 1))
        invariant |published| == i && forall j :: 0 <= j < i ==> published[j] == StepProgress(j)
      {
        var t := tasks[taskId].(progress := StepProgress(i));
        Replace(tasks, order, taskId, t);
        tasks := tasks[taskId := t];
        published := published + [StepProgress(i)];
      }
      assert StepProgress(9) == 1.0;
    }

    /** `task.result = result` at the end of the simulation. */
    method RecordResult(taskId: string, result: PatrolResult)
      requires Valid() && taskId in tasks
      modifies this
      ensures Valid() && order == old(order)
      ensures tasks == old(tasks)[taskId := old(tasks[taskId]).(result := Some(result))]
    {
      Replace(tasks, order, taskId, tasks[taskId].(result := Some(result)));
      tasks := tasks[taskId := tasks[taskId].(result := Some(result))];
    }

    /** The run's success step: completed, progress 1.0 and completed now, whatever the status was. */
    method RunComplete(taskId: string, now: int)
      requires Valid() && taskId in tasks
      modifies this
      ensures Valid() && order == old(order)
      ensures tasks == old(tasks)[taskId := AfterComplete(old(tasks[taskId]), now)]
      ensures tasks[taskId].status == Completed
    {
      Replace(tasks, order, taskId, AfterComplete(tasks[taskId], now));
      tasks := tasks[taskId := AfterComplete(tasks[taskId], now)];
    }

    /** The run's exception handler: a stored task fails with the message; an unknown id changes nothing. */
    method RunFail(taskId: string, message: string, now: int)
      requires Valid()
      modifies this
      ensures Valid() && order == old(order)
      ensures tasks == if taskId in old(tasks) then old(tasks)[taskId := AfterFailure(old(tasks[taskId]), message, now)]
                       else old(tasks)
    {
      if taskId in tasks {
        Replace(tasks, order, taskId, AfterFailure(tasks[taskId], message, now));
        tasks := tasks[taskId := AfterFailure(tasks[taskId], message, now)];
      }
    }

    /** The start of a run on a stored task: running since now, then the ten progress updates. */
    method RunStarting(taskId: string, startedAt: int)
      requires Valid() && taskId in tasks
      modifies this
      ensures Valid() && order == old(order)
      ensures tasks == old(tasks)[taskId := Simulated(AfterBegin(old(tasks[taskId]), startedAt))]
    {
      RunBegin(taskId, startedAt);
      ghost var _ := SimulateProgress(taskId);
    }

    /** The end of a run on a stored task: fail with the raised message, or record the result and complete. */
    method RunEnding(taskId: string, params: PatrolParams, piracy: int, reported: int, draw: nat -> SimDraw,
                     raised: Option<string>, resultAt: int, completedAt: int)
      requires Valid() && taskId in tasks
      modifies this
      ensures Valid() && order == old(order)
      ensures tasks == old(tasks)[taskId := RunEnd(old(tasks[taskId]), SimResult(params, piracy, reported, draw, resultAt),
                                                   raised, completedAt)]
    {
      if raised.Some? {
        RunFail(taskId, raised.value, completedAt);
        return;
      }
      var result := BuildResult(params, piracy, reported, draw, resultAt);
      RecordResult(taskId, result);
      RunComplete(taskId, completedAt);
    }

    /**
     * `run_patrol_task` run without interruption: nothing happens for an unknown id; otherwise the
     * task ends as `RunOutcome` says, `raised` being the message of an exception raised while the
     * result was built.
     */
    method RunPatrolTask(taskId: string, params: PatrolParams, piracy: int, reported: int, draw: nat -> SimDraw,
                         raised: Option<string>, startedAt: int, resultAt: int, completedAt: int)
      requires Valid()
      modifies this
      ensures Valid() && order == old(order)
      ensures taskId !in old(tasks) ==> tasks == old(tasks)
      ensures taskId in old(tasks) ==>
                tasks == old(tasks)[taskId := RunOutcome(old(tasks[taskId]), SimResult(params, piracy, reported, draw, resultAt),
                                                         raised, startedAt, completedAt)]
    {
      if taskId !in tasks {
        return;
      }
      RunStarting(taskId, startedAt);
      RunEnding(taskId, params, piracy, reported, draw, raised, resultAt, completedAt);
    }
  }
}
