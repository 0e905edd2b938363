/** The unbounded FIFO queue every task owns. The mutex that guards it is not modelled:
    every call here is one atomic step. */
module Queues {

  class ThreadSafeQueue<T> {
    /** The queued items, front first. */
    var items: seq<T>

    constructor ()
      ensures items == []
    {
      items := [];
    }

    /** Appends at the back; there is no capacity bound, so it always succeeds. */
    method Enqueue(item: T)
      modifies this
      ensures items == old(items) + [item]
      ensures |items| == |old(items)| + 1
    {
      items := items + [item];
    }

    /** `result` is the caller's in-out variable: on an empty queue it comes back unchanged,
        otherwise it receives the old front. */
    method Dequeue(result: T) returns (ok: bool, out: T)
      modifies this
      ensures ok <==> old(items) != []
      ensures !ok ==> items == old(items) && out == result
      ensures ok ==> out == old(items)[0] && items == old(items)[1..]
    {
      if items == [] {
        return false, result;
      }
      out := items[0];
      items := items[1..];
      ok := true;
    }
  }

  /** FIFO order: whatever is enqueued into a fresh queue comes out of it in the same order,
      one item per successful dequeue, and the dequeue after the last item fails. */
  method FifoOrder<T>(es: seq<T>, filler: T) returns (out: seq<T>, oks: seq<bool>, lastOk: bool)
    ensures out == es
    ensures |oks| == |es| && forall i :: 0 <= i < |es| ==> oks[i]
    ensures !lastOk
  {
    var q := new ThreadSafeQueue<T>();
    var i := 0;
    while i < |es|
      invariant 0 <= i <= |es|
      invariant q.items == es[..i]
    {
      q.Enqueue(es[i]);
      i := i + 1;
    }
    out, oks := [], [];
    var j := 0;
    while j < |es|
      invariant 0 <= j <= |es|
      invariant q.items == es[j..]
      invariant out == es[..j]
      invariant |oks| == j && forall i :: 0 <= i < j ==> oks[i]
    {
      var ok, x := q.Dequeue(filler);
      out, oks := out + [x], oks + [ok];
      j := j + 1;
    }
    var last;
    lastOk, last := q.Dequeue(filler);
  }
}
