/**
 The timer-scheduling tables of the persistence container's timer service
 executor, with the daemon thread, the locking and the logging removed.

 Three keyed stores are kept: `scheduledTimers` (timer id to the primary key
 of the owning timer service), `tasksToExecute` (task id to the wrapper that
 says when the timer is due) and `timerTasks` (task id to the running task).
 A task id moves Scheduled (in `tasksToExecute`) -> Dispatched (in
 `timerTasks`) -> Reaped (removed once it no longer runs).

 Time is an integer count of microseconds supplied by the caller. Resolving a
 timer to its running task (registry lookup, `getTimers()->get`,
 `getTimerTask`) and asking a task whether it still runs are foreign calls;
 they are passed in as functions.
 */
module TimerService {

  type TimerId = string
  type TaskId = string

  /** A timer service's primary key, as far as PHP's truthiness test sees it. */
  datatype PrimaryKey = NullKey | IntKey(number: int) | StringKey(text: string)

  /** PHP truthiness: null, 0, "" and "0" are false, everything else true. */
  predicate Truthy(pk: PrimaryKey)
  {
    match pk
    case NullKey => false
    case IntKey(n) => n != 0
    case StringKey(s) => s != "" && s != "0"
  }

  /** The parts of a timer that scheduling reads. */
  datatype Timer = Timer(id: TimerId, servicePrimaryKey: PrimaryKey, timeRemaining: int)

  /**
   A value stored in `tasksToExecute`: the wrapper built by `schedule`, or a
   value of some other class, which the scan rejects as malformed.
   */
  datatype Entry =
    | Wrapper(executeAt: int, taskId: TaskId, timerId: TimerId)
    | Malformed(className: string)

  /** The three stores, as one value. */
  datatype Stores<Task> = Stores(
    scheduledTimers: map<TimerId, PrimaryKey>,
    tasksToExecute: map<TaskId, Entry>,
    timerTasks: map<TaskId, Task>)

  /** The caller-supplied context of one `iterate` call. */
  datatype Tick<!Task> = Tick(
    now: int,
    resolve: (PrimaryKey, TimerId) -> Task,
    isRunning: Task -> bool)

  /** Reading a timer id from `scheduledTimers`: a missing id reads as null. */
  function PrimaryKeyOf(scheduledTimers: map<TimerId, PrimaryKey>, timerId: TimerId): (pk: PrimaryKey)
    ensures timerId !in scheduledTimers ==> !Truthy(pk)
    ensures timerId in scheduledTimers ==> pk == scheduledTimers[timerId]
  {
    if timerId in scheduledTimers then scheduledTimers[timerId] else NullKey
  }

  /** A wrapper is due only once its deadline lies strictly in the past. */
  predicate Due(e: Entry, now: int)
  {
    e.Wrapper? && e.executeAt < now
  }

  /** A due wrapper whose timer has a truthy primary key is moved by the scan. */
  predicate Dispatchable(e: Entry, scheduledTimers: map<TimerId, PrimaryKey>, now: int)
  {
    Due(e, now) && Truthy(PrimaryKeyOf(scheduledTimers, e.timerId))
  }

  /** The running task a dispatchable wrapper is turned into. */
  function Materialize<Task>(e: Entry, scheduledTimers: map<TimerId, PrimaryKey>,
                             resolve: (PrimaryKey, TimerId) -> Task): Task
    requires e.Wrapper?
  {
    resolve(PrimaryKeyOf(scheduledTimers, e.timerId), e.timerId)
  }

  /** No task id is both waiting and dispatched. */
  predicate Disjoint<Task>(s: Stores<Task>)
  {
    s.tasksToExecute.Keys !! s.timerTasks.Keys
  }

  /** A task id that neither store holds yet. */
  predicate FreshTaskId<Task>(s: Stores<Task>, taskId: TaskId)
  {
    taskId !in s.tasksToExecute && taskId !in s.timerTasks
  }

  // ---------------------------------------------------------------------------
  // The specification of each operation, as a function of the old stores
  // ---------------------------------------------------------------------------

  /** The stores after `schedule(timer)` at time `now` with fresh id `taskId`. */
  function Scheduled<Task>(s: Stores<Task>, timer: Timer, now: int, taskId: TaskId): (r: Stores<Task>)
    requires FreshTaskId(s, taskId)
    ensures r.scheduledTimers.Keys == s.scheduledTimers.Keys + {timer.id}
    ensures r.scheduledTimers[timer.id] == timer.servicePrimaryKey
    ensures forall id :: id in s.scheduledTimers && id != timer.id ==>
              r.scheduledTimers[id] == s.scheduledTimers[id]
    ensures r.tasksToExecute.Keys == s.tasksToExecute.Keys + {taskId}
    ensures r.tasksToExecute[taskId] == Wrapper(now + timer.timeRemaining, taskId, timer.id)
    ensures forall k :: k in s.tasksToExecute ==> r.tasksToExecute[k] == s.tasksToExecute[k]
    ensures r.timerTasks == s.timerTasks
  {
    Stores(
      s.scheduledTimers[timer.id := timer.servicePrimaryKey],
      s.tasksToExecute[taskId := Wrapper(now + timer.timeRemaining, taskId, timer.id)],
      s.timerTasks)
  }

  /** The stores after the scan of `iterate`, before garbage collection. */
  function Scanned<Task>(s: Stores<Task>, now: int, resolve: (PrimaryKey, TimerId) -> Task): Stores<Task>
  {
    Stores(
      s.scheduledTimers,
      map k | k in s.tasksToExecute && !Dispatchable(s.tasksToExecute[k], s.scheduledTimers, now)
        :: s.tasksToExecute[k],
      s.timerTasks + map k | k in s.tasksToExecute && Dispatchable(s.tasksToExecute[k], s.scheduledTimers, now)
        :: Materialize(s.tasksToExecute[k], s.scheduledTimers, resolve))
  }

  /** The stores after `collectGarbage`: only the running tasks are kept. */
  function Collected<Task>(s: Stores<Task>, isRunning: Task -> bool): Stores<Task>
  {
    Stores(
      s.scheduledTimers,
      s.tasksToExecute,
      map k | k in s.timerTasks && isRunning(s.timerTasks[k]) :: s.timerTasks[k])
  }

  /** The stores after one `iterate` call: the scan, then garbage collection. */
  function Iterated<Task>(s: Stores<Task>, t: Tick<Task>): Stores<Task>
  {
    Collected(Scanned(s, t.now, t.resolve), t.isRunning)
  }

  /** The stores after a run of consecutive `iterate` calls. */
  function IteratedAll<Task>(s: Stores<Task>, ticks: seq<Tick<Task>>): Stores<Task>
    decreases |ticks|
  {
    if ticks == [] then s else IteratedAll(Iterated(s, ticks[0]), ticks[1..])
  }

  // ---------------------------------------------------------------------------
  // The executor: the three stores as fields, updated in place
  // ---------------------------------------------------------------------------

  class TimerServiceExecutor<Task> {
    var scheduledTimers: map<TimerId, PrimaryKey>
    var tasksToExecute: map<TaskId, Entry>
    var timerTasks: map<TaskId, Task>

    ghost function State(): Stores<Task>
      reads this
    {
      Stores(scheduledTimers, tasksToExecute, timerTasks)
    }

    /** The executor with its three stores injected. */
    constructor (scheduledTimers: map<TimerId, PrimaryKey>, tasksToExecute: map<TaskId, Entry>,
                 timerTasks: map<TaskId, Task>)
      ensures this.scheduledTimers == scheduledTimers
      ensures this.tasksToExecute == tasksToExecute
      ensures this.timerTasks == timerTasks
    {
      this.scheduledTimers := scheduledTimers;
      this.tasksToExecute := tasksToExecute;
      this.timerTasks := timerTasks;
    }

    method GetScheduledTimers() returns (r: map<TimerId, PrimaryKey>)
      ensures r == scheduledTimers
    {
      r := scheduledTimers;
    }

    method GetTasksToExecute() returns (r: map<TaskId, Entry>)
      ensures r == tasksToExecute
    {
      r := tasksToExecute;
    }

    /**
     Records the timer's primary key under its id and queues one wrapper,
     due `timer.timeRemaining` microseconds after `now`, under the fresh id
     `taskId`.
     */
    method Schedule(timer: Timer, now: int, taskId: TaskId)
      requires FreshTaskId(State(), taskId)
      modifies this
      ensures State() == Scheduled(old(State()), timer, now, taskId)
    {
      scheduledTimers := scheduledTimers[timer.id := timer.servicePrimaryKey];
      var wrapper := Wrapper(now + timer.timeRemaining, taskId, timer.id);
      tasksToExecute := tasksToExecute[wrapper.taskId := wrapper];
    }

    /** Drops every dispatched task that no longer runs. */
    method CollectGarbage(isRunning: Task -> bool)
      modifies this
      ensures State() == Collected(old(State()), isRunning)
    {
      ghost var tasks0 := timerTasks;
      var pending := timerTasks.Keys;
      while pending != {}
        invariant pending <= tasks0.Keys
        invariant scheduledTimers == old(scheduledTimers) && tasksToExecute == old(tasksToExecute)
        invariant timerTasks == KeptSoFar(tasks0, isRunning, pending)
        decreases pending
      {
        var taskId :| taskId in pending;
        KeptStep(tasks0, isRunning, pending, taskId);
        if !isRunning(timerTasks[taskId]) {
          timerTasks := timerTasks - {taskId};
        }
        pending := pending - {taskId};
      }
    }

    /**
     One tick of the daemon: every due wrapper whose timer has a truthy
     primary key is replaced by its running task under the same task id;
     malformed, not yet due and unresolvable wrappers stay; then the
     finished tasks are collected.
     */
    method Iterate(tick: Tick<Task>)
      modifies this
      ensures State() == Iterated(old(State()), tick)
    {
      ghost var s0 := State();
      var pending := tasksToExecute.Keys;
      ScanStart(s0, tick.now, tick.resolve);
      while pending != {}
        invariant pending <= s0.tasksToExecute.Keys
        invariant scheduledTimers == s0.scheduledTimers
        invariant tasksToExecute == StillQueued(s0.tasksToExecute, s0.scheduledTimers, tick.now, pending)
        invariant timerTasks == s0.timerTasks + MovedSoFar(s0.tasksToExecute, s0.scheduledTimers, tick.now, tick.resolve, pending)
        decreases pending
      {
        var taskId :| taskId in pending;
        QueuedStep(s0.tasksToExecute, s0.scheduledTimers, tick.now, pending, taskId);
        MovedStep(s0.tasksToExecute, s0.scheduledTimers, tick.now, tick.resolve, pending, taskId);
        var wrapper := tasksToExecute[taskId];
        if wrapper.Malformed? {
          // logged and skipped
        } else if wrapper.executeAt < tick.now {
          var pk := PrimaryKeyOf(scheduledTimers, wrapper.timerId);
          if Truthy(pk) {
            MergeUpdate(s0.timerTasks, MovedSoFar(s0.tasksToExecute, s0.scheduledTimers, tick.now, tick.resolve, pending),
                        taskId, tick.resolve(pk, wrapper.timerId));
            timerTasks := timerTasks[taskId := tick.resolve(pk, wrapper.timerId)];
            tasksToExecute := tasksToExecute - {taskId};
          } else {
            // logged; the wrapper stays queued
          }
        }
        pending := pending - {taskId};
      }
      ScanDone(s0, tick.now, tick.resolve);
      CollectGarbage(tick.isRunning);
    }
  }

  // ---------------------------------------------------------------------------
  // Loop states of the two scans (helpers for the methods above)
  // ---------------------------------------------------------------------------

  /** The dispatched tasks once every id outside `pending` has been looked at. */
  ghost function KeptSoFar<Task>(tasks: map<TaskId, Task>, isRunning: Task -> bool, pending: set<TaskId>): map<TaskId, Task>
  {
    map k | k in tasks && (k in pending || isRunning(tasks[k])) :: tasks[k]
  }

  lemma KeptStep<Task>(tasks: map<TaskId, Task>, isRunning: Task -> bool, pending: set<TaskId>, k: TaskId)
    requires k in pending && pending <= tasks.Keys
    ensures k in KeptSoFar(tasks, isRunning, pending) && KeptSoFar(tasks, isRunning, pending)[k] == tasks[k]
    ensures KeptSoFar(tasks, isRunning, pending - {k}) ==
              if isRunning(tasks[k]) then KeptSoFar(tasks, isRunning, pending)
              else KeptSoFar(tasks, isRunning, pending) - {k}
    ensures pending == tasks.Keys ==> KeptSoFar(tasks, isRunning, pending) == tasks
  {
  }

  /** The queue once every id outside `pending` has been looked at. */
  ghost function StillQueued(queue: map<TaskId, Entry>, scheduledTimers: map<TimerId, PrimaryKey>, now: int,
                             pending: set<TaskId>): map<TaskId, Entry>
  {
    map k | k in queue && (k in pending || !Dispatchable(queue[k], scheduledTimers, now)) :: queue[k]
  }

  /** The tasks moved out of the queue once every id outside `pending` has been looked at. */
  ghost function MovedSoFar<Task>(queue: map<TaskId, Entry>, scheduledTimers: map<TimerId, PrimaryKey>, now: int,
                                  resolve: (PrimaryKey, TimerId) -> Task, pending: set<TaskId>): map<TaskId, Task>
  {
    map k | k in queue && k !in pending && Dispatchable(queue[k], scheduledTimers, now)
      :: Materialize(queue[k], scheduledTimers, resolve)
  }

  /** The stores once every queued id outside `pending` has been looked at. */
  ghost function ScannedSoFar<Task>(s: Stores<Task>, now: int, resolve: (PrimaryKey, TimerId) -> Task,
                                    pending: set<TaskId>): Stores<Task>
  {
    Stores(
      s.scheduledTimers,
      StillQueued(s.tasksToExecute, s.scheduledTimers, now, pending),
      s.timerTasks + MovedSoFar(s.tasksToExecute, s.scheduledTimers, now, resolve, pending))
  }

  lemma ScanStart<Task>(s: Stores<Task>, now: int, resolve: (PrimaryKey, TimerId) -> Task)
    ensures ScannedSoFar(s, now, resolve, s.tasksToExecute.Keys) == s
  {
    var keys := s.tasksToExecute.Keys;
    assert StillQueued(s.tasksToExecute, s.scheduledTimers, now, keys) == s.tasksToExecute;
    assert MovedSoFar(s.tasksToExecute, s.scheduledTimers, now, resolve, keys) == map[];
    assert s.timerTasks + map[] == s.timerTasks;
  }

  lemma ScanDone<Task>(s: Stores<Task>, now: int, resolve: (PrimaryKey, TimerId) -> Task)
    ensures ScannedSoFar(s, now, resolve, {}) == Scanned(s, now, resolve)
  {
  }

  /** Adding one more moved task commutes with the merge into the dispatched tasks. */
  lemma MergeUpdate<Task>(tasks: map<TaskId, Task>, moved: map<TaskId, Task>, k: TaskId, task: Task)
    ensures tasks + moved[k := task] == (tasks + moved)[k := task]
  {
  }

  lemma QueuedStep(queue: map<TaskId, Entry>, scheduledTimers: map<TimerId, PrimaryKey>, now: int,
                   pending: set<TaskId>, k: TaskId)
    requires k in pending && pending <= queue.Keys
    ensures k in StillQueued(queue, scheduledTimers, now, pending)
    ensures StillQueued(queue, scheduledTimers, now, pending)[k] == queue[k]
    ensures StillQueued(queue, scheduledTimers, now, pending - {k}) ==
              if Dispatchable(queue[k], scheduledTimers, now)
              then StillQueued(queue, scheduledTimers, now, pending) - {k}
              else StillQueued(queue, scheduledTimers, now, pending)
  {
  }

  lemma MovedStep<Task>(queue: map<TaskId, Entry>, scheduledTimers: map<TimerId, PrimaryKey>, now: int,
                        resolve: (PrimaryKey, TimerId) -> Task, pending: set<TaskId>, k: TaskId)
    requires k in pending && pending <= queue.Keys
    ensures MovedSoFar(queue, scheduledTimers, now, resolve, pending - {k}) ==
              if Dispatchable(queue[k], scheduledTimers, now)
              then MovedSoFar(queue, scheduledTimers, now, resolve, pending)[k := Materialize(queue[k], scheduledTimers, resolve)]
              else MovedSoFar(queue, scheduledTimers, now, resolve, pending)
  {
  }

  // ---------------------------------------------------------------------------
  // Properties of the specification
  // ---------------------------------------------------------------------------

  /** Scheduling with a fresh id keeps the waiting and dispatched ids apart. */
  lemma ScheduleKeepsDisjoint<Task>(s: Stores<Task>, timer: Timer, now: int, taskId: TaskId)
    requires Disjoint(s) && FreshTaskId(s, taskId)
    ensures Disjoint(Scheduled(s, timer, now, taskId))
  {
  }

  /** Scheduling adds exactly one queued wrapper and leaves the number of running tasks alone. */
  lemma ScheduleAddsOneEntry<Task>(s: Stores<Task>, timer: Timer, now: int, taskId: TaskId)
    requires FreshTaskId(s, taskId)
    ensures |Scheduled(s, timer, now, taskId).tasksToExecute| == |s.tasksToExecute| + 1
    ensures |Scheduled(s, timer, now, taskId).timerTasks| == |s.timerTasks|
  {
    var r := Scheduled(s, timer, now, taskId);
    assert r.tasksToExecute.Keys == s.tasksToExecute.Keys + {taskId};
    assert |r.tasksToExecute.Keys| == |s.tasksToExecute.Keys| + 1;
  }

  /** A wrapper that is malformed or not yet due stays where it is, unchanged. */
  lemma ScanKeepsNotDue<Task>(s: Stores<Task>, now: int, resolve: (PrimaryKey, TimerId) -> Task, k: TaskId)
    requires k in s.tasksToExecute && !Due(s.tasksToExecute[k], now)
    ensures k in Scanned(s, now, resolve).tasksToExecute
    ensures Scanned(s, now, resolve).tasksToExecute[k] == s.tasksToExecute[k]
    ensures k in Scanned(s, now, resolve).timerTasks <==> k in s.timerTasks
  {
  }

  /** A due wrapper whose timer has no truthy primary key is left queued and adds no task. */
  lemma ScanKeepsUnresolvable<Task>(s: Stores<Task>, now: int, resolve: (PrimaryKey, TimerId) -> Task, k: TaskId)
    requires k in s.tasksToExecute && s.tasksToExecute[k].Wrapper?
    requires !Truthy(PrimaryKeyOf(s.scheduledTimers, s.tasksToExecute[k].timerId))
    ensures k in Scanned(s, now, resolve).tasksToExecute
    ensures Scanned(s, now, resolve).tasksToExecute[k] == s.tasksToExecute[k]
    ensures k in Scanned(s, now, resolve).timerTasks <==> k in s.timerTasks
  {
  }

  /** A due, resolvable wrapper leaves the queue and its task appears under the same id. */
  lemma ScanMovesDispatchable<Task>(s: Stores<Task>, now: int, resolve: (PrimaryKey, TimerId) -> Task, k: TaskId)
    requires k in s.tasksToExecute && Dispatchable(s.tasksToExecute[k], s.scheduledTimers, now)
    ensures k !in Scanned(s, now, resolve).tasksToExecute
    ensures k in Scanned(s, now, resolve).timerTasks
    ensures Scanned(s, now, resolve).timerTasks[k] ==
              resolve(s.scheduledTimers[s.tasksToExecute[k].timerId], s.tasksToExecute[k].timerId)
  {
  }

  /**
   The scan changes no primary key, removes no task, queues nothing new, and
   keeps waiting and dispatched ids apart.
   */
  lemma ScanFrame<Task>(s: Stores<Task>, now: int, resolve: (PrimaryKey, TimerId) -> Task)
    requires Disjoint(s)
    ensures Scanned(s, now, resolve).scheduledTimers == s.scheduledTimers
    ensures Scanned(s, now, resolve).tasksToExecute.Keys <= s.tasksToExecute.Keys
    ensures s.timerTasks.Keys <= Scanned(s, now, resolve).timerTasks.Keys
    ensures forall k :: k in s.timerTasks ==> Scanned(s, now, resolve).timerTasks[k] == s.timerTasks[k]
    ensures Disjoint(Scanned(s, now, resolve))
  {
  }

  /**
   The scan only moves: every id it took from the queue is now dispatched,
   and every id waiting before is in exactly one of the two stores after.
   */
  lemma ScanPartitions<Task>(s: Stores<Task>, now: int, resolve: (PrimaryKey, TimerId) -> Task)
    requires Disjoint(s)
    ensures var r := Scanned(s, now, resolve);
      forall k :: k in s.tasksToExecute ==> (k in r.tasksToExecute <==> k !in r.timerTasks)
  {
  }

  /** Garbage collection removes exactly the tasks that no longer run and touches nothing else. */
  lemma CollectExact<Task>(s: Stores<Task>, isRunning: Task -> bool)
    ensures Collected(s, isRunning).scheduledTimers == s.scheduledTimers
    ensures Collected(s, isRunning).tasksToExecute == s.tasksToExecute
    ensures forall k :: k in Collected(s, isRunning).timerTasks <==> k in s.timerTasks && isRunning(s.timerTasks[k])
    ensures forall k :: k in Collected(s, isRunning).timerTasks ==> Collected(s, isRunning).timerTasks[k] == s.timerTasks[k]
  {
  }

  /** A second garbage collection with nothing changed in between is a no-op. */
  lemma CollectIdempotent<Task>(s: Stores<Task>, isRunning: Task -> bool)
    ensures Collected(Collected(s, isRunning), isRunning) == Collected(s, isRunning)
  {
  }

  /** Every operation keeps waiting and dispatched ids apart. */
  lemma IterateKeepsDisjoint<Task>(s: Stores<Task>, t: Tick<Task>)
    requires Disjoint(s)
    ensures Disjoint(Iterated(s, t))
    ensures Iterated(s, t).scheduledTimers == s.scheduledTimers
  {
    ScanFrame(s, t.now, t.resolve);
  }

  /** Over any number of ticks the primary keys stay and the stores stay disjoint. */
  lemma {:induction false} IteratedAllKeepsDisjoint<Task>(s: Stores<Task>, ticks: seq<Tick<Task>>)
    requires Disjoint(s)
    ensures Disjoint(IteratedAll(s, ticks))
    ensures IteratedAll(s, ticks).scheduledTimers == s.scheduledTimers
    decreases |ticks|
  {
    if ticks != [] {
      IterateKeepsDisjoint(s, ticks[0]);
      IteratedAllKeepsDisjoint(Iterated(s, ticks[0]), ticks[1..]);
    }
  }

  /**
   A wrapper whose timer has no truthy primary key is never dispatched: it
   stays queued, unchanged, across every later tick.
   */
  lemma {:induction false} UnresolvableStaysForever<Task>(s: Stores<Task>, ticks: seq<Tick<Task>>, k: TaskId)
    requires k in s.tasksToExecute && s.tasksToExecute[k].Wrapper?
    requires !Truthy(PrimaryKeyOf(s.scheduledTimers, s.tasksToExecute[k].timerId))
    ensures k in IteratedAll(s, ticks).tasksToExecute
    ensures IteratedAll(s, ticks).tasksToExecute[k] == s.tasksToExecute[k]
    decreases |ticks|
  {
    if ticks != [] {
      var t := ticks[0];
      ScanKeepsUnresolvable(s, t.now, t.resolve, k);
      UnresolvableStaysForever(Iterated(s, t), ticks[1..], k);
    }
  }

  /**
   A queued wrapper stays queued, unchanged, through every tick at or before
   its deadline, and no tick changes a primary key.
   */
  lemma {:induction false} NotYetDueStaysAll<Task>(s: Stores<Task>, ticks: seq<Tick<Task>>, k: TaskId)
    requires k in s.tasksToExecute && s.tasksToExecute[k].Wrapper?
    requires forall i :: 0 <= i < |ticks| ==> ticks[i].now <= s.tasksToExecute[k].executeAt
    ensures k in IteratedAll(s, ticks).tasksToExecute
    ensures IteratedAll(s, ticks).tasksToExecute[k] == s.tasksToExecute[k]
    ensures IteratedAll(s, ticks).scheduledTimers == s.scheduledTimers
    decreases |ticks|
  {
    if ticks != [] {
      var t := ticks[0];
      ScanKeepsNotDue(s, t.now, t.resolve, k);
      assert forall i :: 0 <= i < |ticks[1..]| ==> ticks[1..][i].now == ticks[i + 1].now;
      NotYetDueStaysAll(Iterated(s, t), ticks[1..], k);
    }
  }

  /**
   A timer scheduled with a truthy primary key waits through every tick at
   or before its deadline and is dispatched by the first tick strictly after
   it: its task leaves the queue, and it is still tracked afterwards exactly
   when the resolved task runs.
   */
  lemma ScheduleThenIterate<Task>(s: Stores<Task>, timer: Timer, now: int, taskId: TaskId,
                                  earlier: seq<Tick<Task>>, t: Tick<Task>)
    requires FreshTaskId(s, taskId) && Truthy(timer.servicePrimaryKey)
    requires forall i :: 0 <= i < |earlier| ==> earlier[i].now <= now + timer.timeRemaining
    requires now + timer.timeRemaining < t.now
    ensures var waiting := IteratedAll(Scheduled(s, timer, now, taskId), earlier);
      && taskId in waiting.tasksToExecute
      && waiting.tasksToExecute[taskId] == Wrapper(now + timer.timeRemaining, taskId, timer.id)
    ensures var r := Iterated(IteratedAll(Scheduled(s, timer, now, taskId), earlier), t);
      && taskId !in r.tasksToExecute
      && (taskId in r.timerTasks <==> t.isRunning(t.resolve(timer.servicePrimaryKey, timer.id)))
      && (taskId in r.timerTasks ==> r.timerTasks[taskId] == t.resolve(timer.servicePrimaryKey, timer.id))
  {
    var s1 := Scheduled(s, timer, now, taskId);
    NotYetDueStaysAll(s1, earlier, taskId);
    var s2 := IteratedAll(s1, earlier);
    assert s2.scheduledTimers[timer.id] == timer.servicePrimaryKey;
    ScanMovesDispatchable(s2, t.now, t.resolve, taskId);
  }
}
