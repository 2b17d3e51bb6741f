# Timer scheduling and request dispatch of the appserver.io runtime, in Dafny

This project models two pieces of sequential bookkeeping inside the application server's thread classes. The threading is removed, so each operation is atomic.

**Timer service executor** (`timer_service.dfy`, module `TimerService`). The daemon keeps three keyed stores:

- `scheduledTimers`: timer id to the timer service's primary key.
- `tasksToExecute`: task id to a wrapper `{executeAt, taskId, timerId}`.
- `timerTasks`: task id to the running timer task.

`TimerServiceExecutor` is a class whose three `map` fields its methods update in place:

- `Schedule` records the primary key and queues one wrapper under a fresh task id.
- `Iterate` scans the queue. It skips malformed wrappers and wrappers whose deadline has not strictly passed. It moves each due wrapper whose timer has a truthy primary key into `timerTasks`, under the same key, and leaves the other due wrappers queued. Then it calls `CollectGarbage`.
- `CollectGarbage` drops every task that no longer runs.

Each method is proved equal to a specification function on the `Stores` value: `Scheduled`, `Iterated` (that is, `Scanned` followed by `Collected`), and `Collected`. The lemmas state the properties of those functions. A task moves Scheduled → Dispatched → Reaped.

Time is an integer count of microseconds, supplied by the caller. The fresh task id is supplied by the caller too. Two foreign calls are function parameters, bundled in a `Tick`:

- turning a primary key and a timer id into a running task (the registry lookup, `getTimers()->get` and `getTimerTask`);
- asking a task whether it still runs (`isRunning`).

**Request handler** (`request_handler.dfy`, module `ServletEngine`). `RequestHandler` is a class holding the injected valves, application, request and response. The request and the response are objects (`Request`, `Response`). `Run` first binds the response and the application into the request. It then invokes the valves in array order and stops right after the first valve that throws or leaves the request dispatched. A thrown `\Exception` is stored on the response. `Shutdown` takes the last error as input. An `E_ERROR` (1) or `E_USER_ERROR` (256) error sets status 500 and appends the error message to the body.

A valve is foreign code. It is modelled as a function from the exchange it sees (dispatched flag, status, body, exception) to an `Outcome`: it returns normally with the exchange it leaves behind, or it throws. The ghost field `invoked` records every invocation: the valve, the request and response objects passed in, the bindings in force at that moment, and the exchange the valve saw. `Run` is proved equal to the spec function `Chain`, and the lemmas about `Chain` state the order and the short-circuit.

## Model

| member | source | states |
|---|---|---|
| `TimerService.TimerServiceExecutor.constructor` | src/AppserverIo/Appserver/PersistenceContainer/TimerServiceExecutor.php:70-97 | the three injected stores become the executor's fields as given |
| `TimerService.TimerServiceExecutor.GetScheduledTimers` | src/AppserverIo/Appserver/PersistenceContainer/TimerServiceExecutor.php:114-117 | returns the timer-id ↦ primary-key store as it currently stands |
| `TimerService.TimerServiceExecutor.GetTasksToExecute` | src/AppserverIo/Appserver/PersistenceContainer/TimerServiceExecutor.php:124-127 | returns the queue of waiting wrappers as it currently stands |
| `TimerService.TimerServiceExecutor.Schedule` | src/AppserverIo/Appserver/PersistenceContainer/TimerServiceExecutor.php:136-155 | given a task id that neither store holds, the new stores are exactly `Scheduled` of the old ones |
| `TimerService.Scheduled` | src/AppserverIo/Appserver/PersistenceContainer/TimerServiceExecutor.php:143-152 | the timer's id maps to its service's primary key (overwriting an earlier value, other ids kept); exactly one wrapper is added, under the fresh id, with `timerId` the timer's id and `executeAt = now + timeRemaining`; every earlier wrapper and every running task is unchanged |
| `TimerService.ScheduleAddsOneEntry` | src/AppserverIo/Appserver/PersistenceContainer/TimerServiceExecutor.php:146-152 | with a fresh task id, the queue grows by exactly one entry and the number of running tasks is unchanged |
| `TimerService.ScheduleKeepsDisjoint` | src/AppserverIo/Appserver/PersistenceContainer/TimerServiceExecutor.php:148-152 | scheduling under a fresh id keeps waiting and dispatched task ids apart |
| `TimerService.PrimaryKeyOf` | src/AppserverIo/Appserver/PersistenceContainer/TimerServiceExecutor.php:235 | reading a timer id that `scheduledTimers` lacks yields a value that is not truthy; a present id yields its stored key |
| `TimerService.TimerServiceExecutor.Iterate` | src/AppserverIo/Appserver/PersistenceContainer/TimerServiceExecutor.php:216-264 | the scan over every queued wrapper, in any order, followed by garbage collection, leaves exactly `Iterated` of the old stores |
| `TimerService.ScanKeepsNotDue` | src/AppserverIo/Appserver/PersistenceContainer/TimerServiceExecutor.php:223-233 | a malformed wrapper, or one with `executeAt >= now`, stays queued with the same value, and its id does not enter `timerTasks` |
| `TimerService.ScanKeepsUnresolvable` | src/AppserverIo/Appserver/PersistenceContainer/TimerServiceExecutor.php:235-251 | a wrapper whose timer has no truthy primary key stays queued, unchanged, and no task is added for it |
| `TimerService.ScanMovesDispatchable` | src/AppserverIo/Appserver/PersistenceContainer/TimerServiceExecutor.php:233-246 | a due wrapper with a truthy primary key leaves the queue, and `timerTasks` under the same key holds the task resolved from that key and timer id |
| `TimerService.ScanFrame` | src/AppserverIo/Appserver/PersistenceContainer/TimerServiceExecutor.php:223-253 | the scan leaves `scheduledTimers` unchanged, queues nothing new, keeps every running task, and keeps the waiting and dispatched ids disjoint |
| `TimerService.ScanPartitions` | src/AppserverIo/Appserver/PersistenceContainer/TimerServiceExecutor.php:240-246 | every id queued before the scan is afterwards in exactly one of `tasksToExecute` and `timerTasks` |
| `TimerService.TimerServiceExecutor.CollectGarbage` | src/AppserverIo/Appserver/PersistenceContainer/TimerServiceExecutor.php:195-206 | the new stores are exactly `Collected` of the old ones |
| `TimerService.CollectExact` | src/AppserverIo/Appserver/PersistenceContainer/TimerServiceExecutor.php:197-205 | a task id stays in `timerTasks` if and only if its task is running, with its task unchanged; the other two stores are untouched |
| `TimerService.CollectIdempotent` | src/AppserverIo/Appserver/PersistenceContainer/TimerServiceExecutor.php:197-205 | collecting twice with no change in between is the same as collecting once |
| `TimerService.IterateKeepsDisjoint` | src/AppserverIo/Appserver/PersistenceContainer/TimerServiceExecutor.php:216-256 | one tick keeps `scheduledTimers` and keeps the waiting and dispatched ids disjoint |
| `TimerService.IteratedAllKeepsDisjoint` | src/AppserverIo/Appserver/PersistenceContainer/TimerServiceExecutor.php:216-256 | over any sequence of ticks, `scheduledTimers` is unchanged and the two task stores stay disjoint |
| `TimerService.UnresolvableStaysForever` | src/AppserverIo/Appserver/PersistenceContainer/TimerServiceExecutor.php:248-251 | a wrapper whose timer has no truthy primary key stays queued, unchanged, through any number of ticks |
| `TimerService.ScheduleThenIterate` | src/AppserverIo/Appserver/PersistenceContainer/TimerServiceExecutor.php:136-256 | a timer scheduled with a truthy primary key stays queued, unchanged, through any ticks at or before its deadline, and leaves the queue on the next tick strictly after it; afterwards it is tracked, as its resolved task, exactly when that task runs |
| `TimerService.NotYetDueStaysAll` | src/AppserverIo/Appserver/PersistenceContainer/TimerServiceExecutor.php:233 | a queued wrapper stays queued, unchanged, through any number of ticks whose time is at or before its deadline, and `scheduledTimers` is unchanged |
| `ServletEngine.RequestHandler.constructor` | src/AppserverIo/Appserver/ServletEngine/RequestHandler.php:48-87 | the valves, application, request and response are injected as given |
| `ServletEngine.RequestHandler.Run` | src/AppserverIo/Appserver/ServletEngine/RequestHandler.php:94-139 | the response and application are bound into the request before any valve runs; each invocation gets this handler's request and response objects; the invocations are those of `Chain`, in valve order; a thrown exception is stored on the response; the request and response objects kept are the ones injected |
| `ServletEngine.RequestHandler.InvokeValves` | src/AppserverIo/Appserver/ServletEngine/RequestHandler.php:119-124 | the loop makes exactly the invocations of `Chain` from the current exchange, leaves its final exchange, and returns its exception |
| `ServletEngine.ChainInOrder` | src/AppserverIo/Appserver/ServletEngine/RequestHandler.php:119-120 | at most one invocation per valve, in array order, each seeing the exchange its predecessor left, the first seeing the starting one |
| `ServletEngine.ChainShortCircuits` | src/AppserverIo/Appserver/ServletEngine/RequestHandler.php:121-123 | no invocation before the last one threw or dispatched; the chain ends early only because its last invocation did |
| `ServletEngine.ChainInvokesAll` | src/AppserverIo/Appserver/ServletEngine/RequestHandler.php:119-124 | if no invocation throws or dispatches, every valve is invoked exactly once, in order |
| `ServletEngine.ChainThrows` | src/AppserverIo/Appserver/ServletEngine/RequestHandler.php:132-135 | the pass reports an exception exactly when its last invocation threw, and it is that exception |
| `ServletEngine.RequestHandler.GetServletResponse` | src/AppserverIo/Appserver/ServletEngine/RequestHandler.php:146-149 | returns the response object as last stored by `Run` or `Shutdown` |
| `ServletEngine.RequestHandler.Shutdown` | src/AppserverIo/Appserver/ServletEngine/RequestHandler.php:157-173 | a last error of type `E_ERROR` or `E_USER_ERROR` sets status 500 and appends its message to the body; any other last error, or none, leaves status and body unchanged; the exception and the other fields are never touched |

## Left out

- Threads and locking: the `synchronized` blocks, `wait` in `sleep`, `\Thread`, and the daemon loop of `AbstractDaemonThread`, including `parent::iterate`. Each operation is treated as atomic.
- `bootstrap`, `log` and `getApplication`/`injectApplication` of the executor. They set up the autoloader, the global environment attributes and random session ids, and they log. The application is used only through the resolve function of a `Tick`.
- Logging and profiling: the `\error` calls, the profile logger's `debug` output and `appendThreadContext`. Malformed and unresolvable wrappers are skipped without a log record.
- Floating-point time. `microtime(true)` plus `timeRemaining / 1000000` seconds becomes integer microseconds. `Iterate` compares every wrapper against one `now`, whereas the source reads the clock again for each wrapper.
- `uniqid()` becomes a caller-supplied task id that neither store holds yet.
- Registry `search`/`lookup`, `getTimers()->get` and `getTimerTask` are one total function. A failing lookup is not modelled.
- `register_shutdown_function` and `error_get_last`: `Shutdown` takes the last error as a parameter.
- `registerClassLoaders` is not modelled and is assumed not to throw. If it threw, the catch at src/AppserverIo/Appserver/ServletEngine/RequestHandler.php:134 would call `setException` on `$servletResponse` before line 110 assigns it.
- PHP `\Error` throwables that a valve raises (not `\Exception`) escape `run` in the source. Only `\Exception` is modelled.
- The profile-logger lookup in `run` (`getInitialContext()->getLogger`) is not modelled. It is assumed not to throw.
- Valves are modelled only by what they read and write of the exchange: the dispatched flag, status, body and exception. Their other effects on the request and the response are not modelled.
- A due wrapper is dispatched only when its timer's primary key is truthy (src/AppserverIo/Appserver/PersistenceContainer/TimerServiceExecutor.php:235), not merely present; a present but falsy key such as `0` or `"0"` leaves the wrapper queued like a missing one.
- TelnetFactory.php, DtoNormalizer.php, ManagerConfigurationInterface.php and ServletMappingNodeInterface.php are not part of this model. They only construct objects, wrap reflective instantiation, or declare getters.
