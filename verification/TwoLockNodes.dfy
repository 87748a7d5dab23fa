/** The two-lock queue as objects: real nodes linked by references and updated in place.

    Each method is one statement of src/OptimizedThreadSafeQueue.h, the grain at which
    `TwoLockQueue` interleaves threads, and changes `Memory()` exactly as that model says.
    `Push` and `TryPop` then run those statements in order with no other thread in between. */
module TwoLockNodes {
  import opened Common
  import TLQ = TwoLockQueue

  class Node<T> {
    var data: Option<T>
    var next: Node?<T>

    constructor ()
      ensures data == None && next == null
    {
      data := None;
      next := null;
    }
  }

  function Ptr<T>(n: Node?<T>): Option<Node<T>> {
    if n == null then None else Some(n)
  }

  class OptimizedQueue<T> {
    var head: Node?<T>
    var tail: Node<T>
    /** The allocated nodes. */
    ghost var nodes: set<Node<T>>

    ghost function Memory(): TLQ.Mem<Node<T>, T>
      reads this, nodes
    {
      TLQ.Mem(map n | n in nodes :: TLQ.Cell(n.data, Ptr(n.next)), Ptr(head), tail)
    }

    /** The queue between operations: a chain holding q, ending in an empty dummy. */
    ghost predicate Holds(chain: seq<Node<T>>, q: seq<T>)
      reads this, nodes
    {
      TLQ.Quiescent(Memory(), TLQ.View(chain, q))
    }

    constructor ()
      ensures Memory() == TLQ.Mem<Node<T>, T>.Mem(map[tail := TLQ.Cell(None, None)], Some(tail), tail)
      ensures Holds([tail], []) && fresh(nodes)
    {
      var dummy := new Node<T>();
      head := dummy;
      tail := dummy;
      nodes := {dummy};
    }

    method AllocNode() returns (p: Node<T>)
      modifies this`nodes
      ensures fresh(p) && p !in old(nodes) && nodes == old(nodes) + {p}
      ensures Memory() == TLQ.AllocNode(old(Memory()), p)
    {
      p := new Node<T>();
      nodes := nodes + {p};
    }

    method WriteData(v: T)
      requires tail in nodes
      modifies tail`data
      ensures Memory() == TLQ.WriteData(old(Memory()), v)
    {
      tail.data := Some(v);
    }

    method LinkNext(p: Node<T>)
      requires tail in nodes
      modifies tail`next
      ensures Memory() == TLQ.LinkNext(old(Memory()), p)
    {
      tail.next := p;
    }

    method MoveTail(p: Node<T>)
      modifies this`tail
      ensures Memory() == TLQ.MoveTail(old(Memory()), p)
    {
      tail := p;
    }

    method TakeHead() returns (was: Node<T>)
      requires head != null
      modifies this`head
      ensures was == old(head) && Memory() == TLQ.TakeHead(old(Memory()))
    {
      was := head;
      head := null;
    }

    method AdvanceHead(was: Node<T>)
      requires was in nodes
      modifies this`head, was`next
      ensures Memory() == TLQ.AdvanceHead(old(Memory()), was)
    {
      head := was.next;
      was.next := null;
    }

    ghost method FreeNode(was: Node<T>)
      modifies this`nodes
      ensures nodes == old(nodes) - {was}
      ensures Memory() == TLQ.FreeNode(old(Memory()), was)
    {
      nodes := nodes - {was};
    }

    /** A push run without interference appends its value. */
    method Push(v: T, ghost chain: seq<Node<T>>, ghost q: seq<T>) returns (p: Node<T>)
      requires Holds(chain, q)
      modifies this, nodes
      ensures Holds(chain + [p], q + [v])
      ensures fresh(nodes - old(nodes))
    {
      ghost var m, v0 := Memory(), TLQ.View(chain, q);
      p := AllocNode();
      TLQ.WholePush(m, v0, p, v);
      WriteData(v);
      LinkNext(p);
      MoveTail(p);
    }

    /** A pop run without interference takes the first value, or reports the empty queue. */
    method TryPop(ghost chain: seq<Node<T>>, ghost q: seq<T>) returns (r: Option<T>)
      requires Holds(chain, q)
      modifies this, nodes
      ensures if q == [] then r == None && Holds(chain, q) else r == Some(q[0]) && Holds(chain[1..], q[1..])
      ensures nodes <= old(nodes)
    {
      r := None;
      TLQ.WholePop(Memory(), TLQ.View(chain, q));
      if head != tail {
        var was := TakeHead();
        AdvanceHead(was);
        r := was.data;
        FreeNode(was);
      }
    }
  }
}
