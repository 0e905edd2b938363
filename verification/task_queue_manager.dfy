/** The registry of named message queues. In the source it is a class with a static map;
    here it is one object that the tasks are handed explicitly. */
module QueueManager {
  import opened Messages
  import opened Queues

  type MessageQueue = ThreadSafeQueue<Message>

  /** The queue contents a name registry describes, after `to` receives `m`.
      A name with no queue drops the message. */
  function Deliver<T>(qs: map<string, seq<T>>, to: string, m: T): (r: map<string, seq<T>>)
    ensures r.Keys == qs.Keys
    ensures to in qs ==> r[to] == qs[to] + [m]
    ensures forall n :: n in qs && n != to ==> r[n] == qs[n]
  {
    if to in qs then qs[to := qs[to] + [m]] else qs
  }

  /** The queue contents after the owner of `from` dequeues once: the front is gone if there
      was one, and no other queue changes. */
  function Pop<T>(qs: map<string, seq<T>>, from: string): (r: map<string, seq<T>>)
    ensures r.Keys == qs.Keys
    ensures from in qs && qs[from] != [] ==> r[from] == qs[from][1..]
    ensures from in qs && qs[from] == [] ==> r[from] == []
    ensures forall n :: n in qs && n != from ==> r[n] == qs[n]
  {
    if from in qs && qs[from] != [] then qs[from := qs[from][1..]] else qs
  }

  /** What the owner of `from` dequeues: the front of its queue, if it has a non-empty one. */
  function Front<T>(qs: map<string, seq<T>>, from: string): (r: Option<T>)
    ensures r.Some? <==> from in qs && qs[from] != []
    ensures r.Some? ==> [r.value] + Pop(qs, from)[from] == qs[from]
  {
    if from in qs && qs[from] != [] then Some(qs[from][0]) else None
  }

  class TaskQueueManager {
    var queueMap: map<string, MessageQueue>

    /** Every name has its own queue: no two names share one instance. */
    ghost predicate Valid()
      reads this
    {
      forall a, b :: a in queueMap && b in queueMap && a != b ==> queueMap[a] != queueMap[b]
    }

    /** The items waiting in each registered queue. */
    ghost function Contents(): map<string, seq<Message>>
      reads this, queueMap.Values
    {
      map n | n in queueMap :: queueMap[n].items
    }

    constructor ()
      ensures Valid()
      ensures queueMap == map[]
    {
      queueMap := map[];
    }

    /** Registers a fresh, empty queue under `name` unless one is already there. */
    method CreateQueue(name: string)
      requires Valid()
      modifies this
      ensures Valid()
      ensures name in queueMap
      ensures name in old(queueMap) ==> queueMap == old(queueMap)
      ensures name !in old(queueMap) ==>
        && queueMap.Keys == old(queueMap).Keys + {name}
        && fresh(queueMap[name])
        && (forall n :: n in old(queueMap) ==> queueMap[n] == old(queueMap)[n])
      ensures Contents() == if name in old(queueMap) then old(Contents()) else old(Contents())[name := []]
    {
      if name !in queueMap {
        var q := new ThreadSafeQueue<Message>();
        queueMap := queueMap[name := q];
      }
    }

    /** The queue registered under `name`, or null. A lookup never registers anything. */
    function GetQueue(name: string): (q: ThreadSafeQueue?<Message>)
      reads this
      ensures q == null <==> name !in queueMap
      ensures q != null ==> q == queueMap[name]
    {
      if name in queueMap then queueMap[name] else null
    }
  }

  /** Creating a queue and then looking its name up twice gives one and the same instance,
      and creating it again does not replace it. */
  method CreateThenGetTwice(reg: TaskQueueManager, name: string) returns (first: ThreadSafeQueue?<Message>, second: ThreadSafeQueue?<Message>)
    requires reg.Valid()
    modifies reg
    ensures reg.Valid()
    ensures first != null && first == second
  {
    reg.CreateQueue(name);
    first := reg.GetQueue(name);
    reg.CreateQueue(name);
    second := reg.GetQueue(name);
  }
}
