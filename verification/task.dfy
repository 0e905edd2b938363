/** The periodic tasks: their start/stop lifecycle, their routing tables, and one iteration of
    their worker loop. Threads, sleeping and the waveform are not modelled: the worker's values
    `coord` and `angle` and the clock reading `now` come in as parameters. */
module Tasks {
  import opened Messages
  import opened Queues
  import opened QueueManager
  import opened Storage

  // ---------------------------------------------------------------------------------------
  // Variants and their routing tables

  /** Where a task sends its coordinate and its angle, and as which kind. */
  datatype Routing = Routing(coordTo: string, coordAs: DataType, angleTo: string, angleAs: DataType)

  /** The three concrete tasks. */
  datatype Variant = Task10 | Task20 | Task40 {

    /** The name the task's own queue is registered under. */
    function Name(): string {
      match this
      case Task10 => TASK10_NAME
      case Task20 => TASK20_NAME
      case Task40 => TASK40_NAME
    }

    /** The fixed routing table of the task's message sending. */
    function Route(): Routing {
      match this
      case Task10 => Routing(TASK20_NAME, Z, TASK40_NAME, Roll)
      case Task20 => Routing(TASK10_NAME, X, TASK40_NAME, Pitch)
      case Task40 => Routing(TASK10_NAME, Y, TASK20_NAME, Yaw)
    }
  }

  /** The kind a task emits in one of its two sending slots. */
  function Emits(v: Variant, coordSlot: bool): DataType {
    if coordSlot then v.Route().coordAs else v.Route().angleAs
  }

  /** The three names are pairwise different, so a name identifies its task. */
  lemma NamesIdentifyTasks(v: Variant, w: Variant)
    ensures v.Name() == w.Name() <==> v == w
  {
  }

  /** Every task sends its two messages to the two OTHER tasks, a coordinate kind to one and an
      angle kind to the other. */
  lemma RouteReachesOthers(v: Variant)
    ensures v.Route().coordTo != v.Name() && v.Route().angleTo != v.Name()
    ensures v.Route().coordTo != v.Route().angleTo
    ensures exists w: Variant :: w.Name() == v.Route().coordTo
    ensures exists w: Variant :: w.Name() == v.Route().angleTo
    ensures v.Route().coordAs.IsCoordinate() && !v.Route().angleAs.IsCoordinate()
  {
    var r := v.Route();
    match v
    case Task10 =>
      NamesIdentifyTasks(Task10, Task20);
      NamesIdentifyTasks(Task10, Task40);
      NamesIdentifyTasks(Task20, Task40);
      assert Task20.Name() == r.coordTo && Task40.Name() == r.angleTo;
    case Task20 =>
      NamesIdentifyTasks(Task20, Task10);
      NamesIdentifyTasks(Task20, Task40);
      NamesIdentifyTasks(Task10, Task40);
      assert Task10.Name() == r.coordTo && Task40.Name() == r.angleTo;
    case Task40 =>
      NamesIdentifyTasks(Task40, Task10);
      NamesIdentifyTasks(Task40, Task20);
      NamesIdentifyTasks(Task10, Task20);
      assert Task10.Name() == r.coordTo && Task20.Name() == r.angleTo;
  }

  /** Each of the six store fields is fed by exactly one sending slot of exactly one task. */
  lemma EachFieldFedOnce(k: DataType) returns (v: Variant, coordSlot: bool)
    ensures Emits(v, coordSlot) == k
    ensures forall w, s :: Emits(w, s) == k ==> w == v && s == coordSlot
  {
    match k
    case X => v, coordSlot := Task20, true;
    case Y => v, coordSlot := Task40, true;
    case Z => v, coordSlot := Task10, true;
    case Roll => v, coordSlot := Task10, false;
    case Pitch => v, coordSlot := Task20, false;
    case Yaw => v, coordSlot := Task40, false;
  }

  // ---------------------------------------------------------------------------------------
  // What one iteration does to the queues and to the store

  /** The queue contents after a task with routing `r` sends `coord` and `angle`. */
  function Send(qs: map<string, seq<Message>>, r: Routing, coord: Payload, angle: Payload): map<string, seq<Message>>
  {
    Deliver(Deliver(qs, r.coordTo, Message(coord, r.coordAs)), r.angleTo, Message(angle, r.angleAs))
  }

  /** The queue contents after one iteration of task `v`: without its own queue the task skips
      the whole iteration, sending included. */
  function Iteration(qs: map<string, seq<Message>>, v: Variant, coord: Payload, angle: Payload): map<string, seq<Message>>
  {
    if v.Name() !in qs then qs else Send(Pop(qs, v.Name()), v.Route(), coord, angle)
  }

  /** Sending: each message reaches its destination if that queue exists and is dropped
      otherwise, without affecting the other message, and no other queue changes. */
  lemma SendEffects(qs: map<string, seq<Message>>, r: Routing, coord: Payload, angle: Payload)
    requires r.coordTo != r.angleTo
    ensures Send(qs, r, coord, angle).Keys == qs.Keys
    ensures r.coordTo in qs ==> Send(qs, r, coord, angle)[r.coordTo] == qs[r.coordTo] + [Message(coord, r.coordAs)]
    ensures r.angleTo in qs ==> Send(qs, r, coord, angle)[r.angleTo] == qs[r.angleTo] + [Message(angle, r.angleAs)]
    ensures forall n :: n in qs && n != r.coordTo && n != r.angleTo ==> Send(qs, r, coord, angle)[n] == qs[n]
  {
  }

  /** One iteration of task `v`: without its own queue nothing changes; otherwise the task takes
      at most the front of its own queue, which receives nothing in the same iteration, appends
      one message to each existing destination of its routing table, and leaves every other
      queue alone. No queue is created or removed. */
  lemma IterationEffects(qs: map<string, seq<Message>>, v: Variant, coord: Payload, angle: Payload)
    ensures Iteration(qs, v, coord, angle).Keys == qs.Keys
    ensures v.Name() !in qs ==> Iteration(qs, v, coord, angle) == qs
    ensures v.Name() in qs ==>
      Iteration(qs, v, coord, angle)[v.Name()] == if qs[v.Name()] == [] then [] else qs[v.Name()][1..]
    ensures v.Name() in qs && v.Route().coordTo in qs ==>
      Iteration(qs, v, coord, angle)[v.Route().coordTo] == qs[v.Route().coordTo] + [Message(coord, v.Route().coordAs)]
    ensures v.Name() in qs && v.Route().angleTo in qs ==>
      Iteration(qs, v, coord, angle)[v.Route().angleTo] == qs[v.Route().angleTo] + [Message(angle, v.Route().angleAs)]
    ensures forall n :: n in qs && n != v.Name() && n != v.Route().coordTo && n != v.Route().angleTo ==>
      Iteration(qs, v, coord, angle)[n] == qs[n]
  {
  }

  /** The store after the dispatch of a dequeued message: only the field of the message's kind
      can change, and only when its setter accepts the value. */
  function Received(f: Fields, m: Option<Message>, accepts: (DataType, Payload) -> bool): (r: Fields)
    ensures m.None? ==> r == f
    ensures m.Some? ==> r.Get(m.value.kind) == if accepts(m.value.kind, m.value.data) then m.value.data else f.Get(m.value.kind)
    ensures m.Some? ==> forall k :: k != m.value.kind ==> r.Get(k) == f.Get(k)
  {
    match m
    case None => f
    case Some(msg) => if accepts(msg.kind, msg.data) then f.With(msg.kind, msg.data) else f
  }

  // ---------------------------------------------------------------------------------------
  // Lifecycle and the start-time latch

  /** The thread-related state of a task: its running flag, whether its worker thread handle
      is joinable, and how many workers it has spawned so far. */
  datatype Lifecycle = Lifecycle(working: bool, joinable: bool, spawned: nat)

  /** A task has a joinable worker exactly while it is working. */
  predicate Consistent(s: Lifecycle) {
    s.joinable == s.working
  }

  /** start(): nothing when already working; otherwise set the flag and spawn one worker. */
  function Started(s: Lifecycle): (r: Lifecycle)
    ensures r.working && r.spawned == s.spawned + (if s.working then 0 else 1)
    ensures s.working ==> r == s
    ensures Consistent(s) ==> Consistent(r)
  {
    if s.working then s else Lifecycle(true, true, s.spawned + 1)
  }

  /** stop(): nothing when not working; otherwise clear the flag and join the worker. */
  function Stopped(s: Lifecycle): (r: Lifecycle)
    ensures !r.working && r.spawned == s.spawned
    ensures Consistent(s) ==> Consistent(r)
    ensures !s.working ==> r == s
  {
    if !s.working then s else Lifecycle(false, false, s.spawned)
  }

  /** Starting twice spawns one worker, and stopping twice is the same as stopping once. */
  lemma LifecycleIdempotent(s: Lifecycle)
    ensures Started(Started(s)) == Started(s)
    ensures Stopped(Stopped(s)) == Stopped(s)
  {
  }

  /** A task that was idle and is started and then stopped is idle again with one more
      worker spawned and joined. */
  lemma StartThenStop(s: Lifecycle)
    requires Consistent(s) && !s.working
    ensures Stopped(Started(s)) == s.(spawned := s.spawned + 1)
  {
  }

  /** A clock reading; the clock's epoch doubles as "not yet set". */
  type TimePoint = int
  const EPOCH: TimePoint := 0

  /** The start time after a call to calculate at time `now`. */
  function Latched(start: TimePoint, now: TimePoint): TimePoint {
    if start == EPOCH then now else start
  }

  /** The first call on an unset start time records its reading, and once a reading other than
      the epoch has been recorded, no later call moves the start time. */
  lemma LatchedOnce(start: TimePoint, first: TimePoint, later: TimePoint)
    requires first != EPOCH
    ensures start == EPOCH ==> Latched(start, first) == first
    ensures Latched(Latched(start, first), later) == Latched(start, first)
  {
  }

  // ---------------------------------------------------------------------------------------
  // The task object

  /** Enqueues `m` into the queue registered under `to`; drops it when there is none. */
  method SendTo(reg: TaskQueueManager, to: string, m: Message)
    requires reg.Valid()
    modifies reg.queueMap.Values
    ensures reg.Contents() == Deliver(old(reg.Contents()), to, m)
  {
    var q := reg.GetQueue(to);
    if q != null {
      q.Enqueue(m);
    }
  }

  /** Dequeues at most one message from `myQueue`, the queue registered under `name`, and
      hands it to the store setter of its kind; a rejected value is only logged. */
  method Receive(reg: TaskQueueManager, store: MainStorage, myQueue: ThreadSafeQueue<Message>, ghost name: string)
    returns (consumed: Option<Message>)
    requires reg.Valid() && name in reg.queueMap && reg.queueMap[name] == myQueue
    modifies store, myQueue
    ensures consumed == Front(old(reg.Contents()), name)
    ensures reg.Contents() == Pop(old(reg.Contents()), name)
    ensures store.Snapshot() == Received(old(store.Snapshot()), consumed, store.accepts)
  {
    var msg := Message(0.0, X);  // stands for the uninitialised local of the source
    var ok;
    ok, msg := myQueue.Dequeue(msg);
    if ok {
      var accepted := store.Set(msg.kind, msg.data);
      consumed := Some(msg);
    } else {
      consumed := None;
    }
  }

  class Task {
    const variant: Variant
    var working: bool
    /** Whether the worker thread handle is joinable. */
    var joinable: bool
    ghost var spawned: nat
    var startTime: TimePoint

    ghost function State(): Lifecycle
      reads this
    {
      Lifecycle(working, joinable, spawned)
    }

    ghost predicate Valid()
      reads this
    {
      Consistent(State())
    }

    constructor (v: Variant)
      ensures Valid()
      ensures variant == v
      ensures State() == Lifecycle(false, false, 0)
      ensures startTime == EPOCH
    {
      variant := v;
      working, joinable := false, false;
      spawned := 0;
      startTime := EPOCH;
    }

    method Start()
      requires Valid()
      modifies this`working, this`joinable, this`spawned
      ensures Valid()
      ensures State() == Started(old(State()))
    {
      if working {
        return;
      }
      working := true;
      // the thread handle is assigned only when it is not joinable
      assert !joinable;
      joinable := true;
      spawned := spawned + 1;
    }

    method Stop()
      requires Valid()
      modifies this`working, this`joinable
      ensures Valid()
      ensures State() == Stopped(old(State()))
    {
      if !working {
        return;
      }
      working := false;
      if joinable {
        joinable := false;
      }
    }

    /** The destructor stops the task, so it never leaves a running worker behind. */
    method Destroy()
      requires Valid()
      modifies this`working, this`joinable
      ensures Valid()
      ensures State() == Stopped(old(State()))
      ensures !working && !joinable
    {
      Stop();
    }

    /** Latches the start time on the first call and reports the time elapsed since it. The
        clock is read twice: `latchAt` is the reading taken only when the start time is unset,
        `now` the one the elapsed time is measured at. */
    method Calculate(latchAt: TimePoint, now: TimePoint) returns (elapsed: int)
      modifies this`startTime
      ensures startTime == Latched(old(startTime), latchAt)
      ensures elapsed == now - startTime
    {
      if startTime == EPOCH {
        startTime := latchAt;
      }
      elapsed := now - startTime;
    }

    /** Sends `coord` and `angle` as the task's routing table says. */
    method SendMessages(reg: TaskQueueManager, coord: Payload, angle: Payload)
      requires reg.Valid()
      modifies reg.queueMap.Values
      ensures reg.Contents() == Send(old(reg.Contents()), variant.Route(), coord, angle)
    {
      var r := variant.Route();
      SendTo(reg, r.coordTo, Message(coord, r.coordAs));
      SendTo(reg, r.angleTo, Message(angle, r.angleAs));
    }

    /** One iteration of the worker loop, with `coord` and `angle` the values computed this
        iteration and `latchAt`, `now` the two clock readings of calculate. Returns the message
        it consumed, if any. */
    method Iterate(reg: TaskQueueManager, store: MainStorage, latchAt: TimePoint, now: TimePoint, coord: Payload, angle: Payload)
      returns (consumed: Option<Message>)
      requires reg.Valid()
      modifies this`startTime, store, reg.queueMap.Values
      ensures consumed == Front(old(reg.Contents()), variant.Name())
      ensures reg.Contents() == Iteration(old(reg.Contents()), variant, coord, angle)
      ensures store.Snapshot() == Received(old(store.Snapshot()), consumed, store.accepts)
      ensures startTime == if variant.Name() in old(reg.Contents()) then Latched(old(startTime), latchAt) else old(startTime)
    {
      var myQueue := reg.GetQueue(variant.Name());
      if myQueue == null {
        // the whole iteration is skipped, sending included
        return None;
      }
      consumed := Receive(reg, store, myQueue, variant.Name());
      // the two lines about `popped` only keep the proof cheap: they pin down that calculate
      // leaves every queue as it was
      ghost var popped := reg.Contents();
      var elapsed := Calculate(latchAt, now);
      assert reg.Contents() == popped;
      SendMessages(reg, coord, angle);
      assert Iteration(old(reg.Contents()), variant, coord, angle)
          == Send(Pop(old(reg.Contents()), variant.Name()), variant.Route(), coord, angle);
    }
  }
}
