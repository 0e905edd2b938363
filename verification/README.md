# Producer/consumer task harness — Dafny model

Three periodic tasks (`Task10`, `Task20`, `Task40`) exchange coordinate and angle samples through
per-task message queues. A registry maps each task name to its queue. A shared store keeps the
six most recently received values (x, y, z, roll, pitch, yaw).

This project models the sequential behaviour of that harness:

- **`Queues`** (`thread_safe_queue.dfy`): the unbounded FIFO `ThreadSafeQueue<T>`.
  - It is a class over a `seq<T>`.
  - `Enqueue` appends at the back.
  - `Dequeue` either fails on an empty queue, leaving the queue and the caller's variable as
    they were, or pops the front into it.
  - `FifoOrder` states FIFO order end to end.
- **`QueueManager`** (`task_queue_manager.dfy`): the named-queue registry `TaskQueueManager`.
  - It is a class holding `map<string, ThreadSafeQueue<Message>>`, so "the same queue" is
    reference equality.
  - `CreateQueue` never replaces an existing queue. It keeps the invariant that no two names
    share a queue instance.
  - `GetQueue` is a read-only lookup that yields null for an unknown name.
  - The ghost `Contents()` gives the items waiting under every name. The map-level functions
    `Deliver`, `Pop` and `Front` describe sending to a name and dequeuing from it.
- **`Storage`** (`main_storage.dfy`): the six-field store.
  - Its setters' range check is the abstract predicate `accepts`.
  - `Set(k, v)` stands for the six setters `setX` … `setYaw`.
  - `Snapshot()` stands for the consumer's `getData`.
- **`Tasks`** (`task.dfy`): the task itself.
  - The lifecycle (`Start`, `Stop`, the destructor `Destroy`) is specified by `Started` and
    `Stopped` over a `Lifecycle` value.
  - The start-time latch of `calculate`.
  - The three routing tables of `sendMessages`, and `name()`.
  - One iteration of the worker loop (`Iterate`), specified by the functions `Iteration` (queues)
    and `Received` (store). The lemmas `IterationEffects`, `SendEffects`, `RouteReachesOthers`
    and `EachFieldFedOnce` state what those mean.

The static map of the source is one explicit registry object, handed to the task methods. The
store singleton is one explicit store object. The values a task computes each period (`coord`,
`angle`) and the two clock readings of `calculate` (`latchAt`, `now`) are parameters of `Iterate`.

Two behaviours of the code that the model keeps:

- A missing own queue skips the whole iteration with `continue` (task.cc:41-44): no dequeue,
  no `calculate`, no sending.
- `start` after `stop` spawns a new worker, because the joined handle is no longer joinable
  (task.cc:24-28, 33-35).

`Messages.DataType` and `Messages.Message` model the message kinds and the message record of
message.h:12-20; `TASK10_NAME`, `TASK20_NAME` and `TASK40_NAME` are the names of common.h:17-19.

## Model

| member | source | states |
|---|---|---|
| `Queues.ThreadSafeQueue.constructor` | thread_safe_queue.hpp:31-33 | a new queue is empty |
| `Queues.ThreadSafeQueue.Enqueue` | thread_safe_queue.hpp:16-19 | always succeeds with no capacity bound; the item is appended at the back, so the length grows by exactly one |
| `Queues.ThreadSafeQueue.Dequeue` | thread_safe_queue.hpp:21-29 | fails exactly on an empty queue and then changes neither the queue nor the caller's variable; otherwise it yields the old front and leaves the old tail |
| `Queues.FifoOrder` | thread_safe_queue.hpp:16-29 | enqueuing e1..en into a fresh queue and then dequeuing n times yields e1..en in order, every one of the n dequeues succeeding; the next dequeue fails |
| `QueueManager.TaskQueueManager.constructor` | task_queue_manager.cc:3 | the registry starts with no queues and satisfies its invariant |
| `QueueManager.TaskQueueManager.CreateQueue` | task_queue_manager.cc:5-9 | afterwards the name is registered; an existing name leaves the map and its queue instance as they were; a new name gets a fresh empty queue, and every other entry is unchanged; no two names share a queue |
| `QueueManager.TaskQueueManager.GetQueue` | task_queue_manager.cc:11-16 | null exactly for an unregistered name, else the registered instance; being a read-only function, it never inserts, and two lookups give the same reference |
| `QueueManager.CreateThenGetTwice` | task_queue_manager.cc:5-16 | create, look up, create again, look up: both lookups give the same non-null queue |
| `QueueManager.Deliver` | task.cc:119-125 | a message sent to a name lands at the back of that name's queue if there is one and is dropped otherwise; no other queue changes and no name is added |
| `QueueManager.Pop` | thread_safe_queue.hpp:21-29 | dequeuing under a name removes that queue's front if it has one, and changes nothing else |
| `QueueManager.Front` | task.cc:46-47 | a message is taken exactly when the owner's queue exists and is non-empty; it is the front, and front followed by the popped queue gives the old queue back |
| `Storage.Fields.With` | main_storage.h:20-31 | setting the field of one kind changes that field only |
| `Storage.MainStorage.constructor` | main_storage.h:39-44 | all six fields start at zero |
| `Storage.MainStorage.Snapshot` | main_storage.h:19 | the consumer's getter: the six current field values, one per kind through `Fields.Get` |
| `Storage.MainStorage.Set` | main_storage.h:20-31 | the setter reports whether it accepted the value; if it did, only that kind's field takes the value, otherwise nothing changes |
| `Tasks.Variant.Name` | task.cc:114-116 | the name each task registers its queue under (task.cc:114-116, 143-145, 172-174); `NamesIdentifyTasks` proves the three names distinct |
| `Tasks.Variant.Route` | task.cc:118-192 | the routing table of each task's sendMessages: Task10 sends Z to Task20 and Roll to Task40, Task20 sends X to Task10 and Pitch to Task40, Task40 sends Y to Task10 and Yaw to Task20; `RouteReachesOthers` and `EachFieldFedOnce` state what it guarantees |
| `Tasks.Send` | task.cc:118-134 | the queue contents after a task sends its two messages along its route; `SendEffects` states its meaning |
| `Tasks.Iteration` | task.cc:39-86 | the queue contents after one loop iteration, the identity when the own queue is missing; `IterationEffects` states its meaning |
| `Tasks.Latched` | task.cc:90-92 | the start time after calculate: the new reading only while it is unset; `LatchedOnce` states its meaning |
| `Tasks.NamesIdentifyTasks` | common.h:17-19 | the three task names are pairwise different |
| `Tasks.RouteReachesOthers` | task.cc:118-192 | each task sends to the two other tasks (never itself, never the same one twice, always a registered task name); its coordinate goes as X, Y or Z and its angle as Roll, Pitch or Yaw |
| `Tasks.EachFieldFedOnce` | task.cc:118-192 | each of the six kinds is produced by exactly one sending slot of exactly one task |
| `Tasks.SendEffects` | task.cc:118-134 | a missing destination drops only its own message; the other destination still gets its message; no other queue is touched |
| `Tasks.IterationEffects` | task.cc:39-86 | without its own queue an iteration changes no queue; otherwise it removes at most the front of its own queue and adds nothing to it; it appends one message to each existing destination in its routing table; it leaves every other queue and the set of names unchanged |
| `Tasks.Received` | task.cc:47-80 | a dequeued message of kind K can change only the store field for K, and does so exactly when the setter accepts the value; with no message the store is unchanged |
| `Tasks.Started` | task.cc:24-28 | start leaves the task working; on a working task it changes nothing; otherwise it spawns exactly one worker; it keeps "joinable exactly while working" |
| `Tasks.Stopped` | task.cc:30-36 | stop leaves the task not working with no joinable worker; it changes nothing if the task was not working |
| `Tasks.LifecycleIdempotent` | task.cc:24-36 | starting twice equals starting once (one worker); stopping twice equals stopping once |
| `Tasks.StartThenStop` | task.cc:24-36 | an idle task that is started and stopped is idle again, with one worker spawned and joined |
| `Tasks.LatchedOnce` | task.cc:89-92 | the first call records its clock reading; after that, later calls leave the start time unchanged |
| `Tasks.SendTo` | task.cc:119-125 | looking up a destination and enqueuing into it if it exists is `Deliver` on the registry's contents |
| `Tasks.Receive` | task.cc:46-80 | at most one message is dequeued from the task's own queue; it is dispatched to its kind's setter; a rejected value does not stop the iteration |
| `Tasks.Task.constructor` | task.h:29-36 | a new task is not working, has no joinable worker and has no start time yet |
| `Tasks.Task.Start` | task.cc:24-28 | the new lifecycle state is `Started` of the old one; the thread handle is assigned only when not joinable |
| `Tasks.Task.Stop` | task.cc:30-36 | the new lifecycle state is `Stopped` of the old one |
| `Tasks.Task.Destroy` | task.cc:20-22 | destruction always leaves the task not working and with no joinable worker |
| `Tasks.Task.Calculate` | task.cc:89-94 | the first clock reading is recorded as the start time only while it is unset; the elapsed time is the second reading minus the start time |
| `Tasks.Task.SendMessages` | task.cc:118-192 | the registry's contents become `Send` of the task's routing table (Task10: Z to Task20, Roll to Task40; Task20: X to Task10, Pitch to Task40; Task40: Y to Task10, Yaw to Task20) |
| `Tasks.Task.Iterate` | task.cc:39-86 | one iteration: it consumes the front of its own queue if any; the queues become `Iteration`, the store becomes `Received`, and the start time is latched (from the first of calculate's two clock readings) only when the own queue exists |

## Left out

- Mutexes, `std::lock_guard`, `std::atomic_bool` and thread spawning and joining: every operation is one sequential step. The worker thread is a joinable flag plus a ghost count of spawned workers.
- The outer `while (working_)` repetition of the worker loop, and cooperative cancellation through the flag: one iteration is modelled.
- `mySleep` (the 10, 20 and 40 ms periods and the yield): timing only.
- `makeStep` and the seconds arithmetic in `calculate`: floating point and a real clock. `coord` and `angle` are parameters, and `Calculate` reports the elapsed time in integer clock ticks.
- Payloads are `real`: 32-bit float rounding is not modelled, and the float constants of `common.h` are not used.
- The setter range checks: the store's implementation file is not part of this model. The abstract predicate `accepts` stands for them.
- The individual `getX` … `getYaw` getters are `Snapshot().Get(k)`. Per-field locking and the torn six-field reads are not modelled.
- The `once_flag` singleton of the store, and the static storage of the registry: both are explicit objects.
- All diagnostic output to `std::cerr`.
- The driver and its mock consumer loop in `main.cc`.
- Tasks.LatchedOnce: assumes the first clock reading differs from the clock's epoch, because the source uses the epoch as its "not yet set" marker. A reading equal to the epoch would leave the latch armed.
