/** The singly linked lists behind both queues of the repository (Final/queue.c and
    Midterm/queue.h). */
module LinkedNodes {
  import opened Sequences

  class Node<T> {
    const value: T
    var next: Node?<T>

    constructor (value: T)
      ensures this.value == value && next == null
    {
      this.value := value;
      next := null;
    }
  }

  function At<T>(nodes: seq<Node<T>>, i: int): Node?<T> {
    if 0 <= i < |nodes| then nodes[i] else null
  }

  /** `nodes` is the chain from `first` to `last`: acyclic, and ending in null. */
  ghost predicate Chain<T>(nodes: seq<Node<T>>, first: Node?<T>, last: Node?<T>)
    reads nodes
  {
    && NoRepeats(nodes)
    && (forall i {:trigger nodes[i].next} :: 0 <= i < |nodes| ==> nodes[i].next == At(nodes, i + 1))
    && first == At(nodes, 0)
    && last == At(nodes, |nodes| - 1)
  }

  /** The nodes carry the values `vs`, in order. */
  ghost predicate Carry<T(!new)>(nodes: seq<Node<T>>, vs: seq<T>) {
    |nodes| == |vs| && forall i :: 0 <= i < |nodes| ==> nodes[i].value == vs[i]
  }

  lemma ChainTail<T>(nodes: seq<Node<T>>, first: Node?<T>, last: Node?<T>)
    requires Chain(nodes, first, last) && 0 < |nodes|
    ensures Chain(nodes[1..], nodes[0].next, if |nodes| == 1 then null else last)
  {
    var rest := nodes[1..];
    forall i | 0 <= i < |rest| ensures rest[i].next == At(rest, i + 1) {
      assert rest[i] == nodes[i + 1];
    }
  }

  lemma NoRepeatsWithout<T>(s: seq<T>, k: nat, rest: seq<T>)
    requires k < |s| && NoRepeats(s) && rest == s[..k] + s[k + 1..]
    ensures NoRepeats(rest)
  {
    forall i, j | 0 <= i < j < |rest| ensures rest[i] != rest[j] {
      var i', j' := if i < k then i else i + 1, if j < k then j else j + 1;
      assert rest[i] == s[i'] && rest[j] == s[j'];
    }
  }

  /** A chain whose `k`-th node has been bypassed is the chain without it. */
  lemma ChainBypass<T>(nodes: seq<Node<T>>, k: nat, rest: seq<Node<T>>)
    requires k < |nodes| && NoRepeats(nodes) && rest == nodes[..k] + nodes[k + 1..]
    requires forall i {:trigger nodes[i].next} :: 0 <= i < |nodes| && i != k && i + 1 != k ==> nodes[i].next == At(nodes, i + 1)
    requires k > 0 ==> nodes[k - 1].next == At(nodes, k + 1)
    ensures Chain(rest, At(rest, 0), At(rest, |rest| - 1))
  {
    NoRepeatsWithout(nodes, k, rest);
    forall i | 0 <= i < |rest| ensures rest[i].next == At(rest, i + 1) {
      if i < k {
        assert rest[i] == nodes[i];
      } else {
        assert rest[i] == nodes[i + 1];
      }
    }
  }
}

/** `queue_t` of the server and its cancellation (Final/queue.c, Final/server.c). */
module OrderQueues {
  import opened LinkedNodes
  import opened Sequences

  /** The fields of `order_t` that travel with an order through a queue. */
  datatype Order = Order(orderId: int, requestType: int, sock: int, address: string)

  class OrderQueue {
    var head: Node?<Order>
    var tail: Node?<Order>
    var size: int
    ghost var nodes: seq<Node<Order>>
    ghost var contents: seq<Order>

    ghost predicate Valid()
      reads this, nodes
    {
      Chain(nodes, head, tail) && Carry(nodes, contents) && size == |nodes|
    }

    /** `init_queue`. */
    constructor ()
      ensures Valid() && contents == [] && nodes == []
    {
      head, tail, size, nodes, contents := null, null, 0, [], [];
    }

    predicate IsEmpty()
      reads this
    {
      head == null
    }

    method Enqueue(order: Order)
      requires Valid()
      modifies this, nodes
      ensures Valid() && contents == old(contents) + [order]
      ensures |nodes| == |old(nodes)| + 1 && nodes == old(nodes) + [nodes[|old(nodes)|]] && fresh(nodes[|old(nodes)|])
    {
      var node := new Node(order);
      if IsEmpty() {
        head := node;
        tail := node;
      } else {
        tail.next := node;
        tail := node;
      }
      size := size + 1;
      nodes, contents := nodes + [node], contents + [order];
    }

    /** An empty queue gives an order whose id is -1. */
    method Dequeue() returns (order: Order)
      requires Valid()
      modifies this
      ensures Valid()
      ensures if old(nodes) == [] then order.orderId == -1 && nodes == []
              else order == old(contents)[0] && nodes == old(nodes)[1..] && contents == old(contents)[1..]
    {
      if IsEmpty() {
        return Order(-1, 0, 0, "");
      }
      ChainTail(nodes, head, tail);
      var temp := head;
      order := temp.value;
      head := head.next;
      if head == null {
        tail := null;
      }
      size := size - 1;
      nodes, contents := nodes[1..], contents[1..];
    }
  }

  function HasId(id: int): Order -> bool {
    (o: Order) => o.orderId == id
  }

  /** The orders of `s` whose id is not `id`, in the same order. */
  function Without(s: seq<Order>, id: int): seq<Order> {
    Reject(s, HasId(id))
  }

  lemma WithoutAppend(a: seq<Order>, b: seq<Order>, id: int)
    ensures Without(a + b, id) == Without(a, id) + Without(b, id)
  {
    RejectAppend(a, b, HasId(id));
  }

  /** Nothing with the id is left, nothing else is lost or duplicated, a second cancellation of
      the same id changes nothing. With `WithoutAppend` (survivors keep their order) this is what a
      cancellation promises. */
  lemma {:induction false} WithoutExact(s: seq<Order>, id: int)
    ensures forall o: Order :: multiset(Without(s, id))[o] == if o.orderId == id then 0 else multiset(s)[o]
    ensures Without(Without(s, id), id) == Without(s, id)
  {
    if s != [] {
      WithoutExact(s[1..], id);
      assert s == [s[0]] + s[1..];
      WithoutAppend([s[0]], s[1..], id);
      WithoutAppend(if s[0].orderId == id then [] else [s[0]], Without(s[1..], id), id);
    }
  }

  /** `remove_order_from_queue`: drain into a temporary queue, skipping the id, and pour back. */
  method RemoveOrder(queue: OrderQueue, orderId: int)
    requires queue.Valid()
    modifies queue, queue.nodes
    ensures queue.Valid() && queue.contents == Without(old(queue.contents), orderId)
    ensures queue.size == |Without(old(queue.contents), orderId)|
    ensures fresh(NodeSet(queue.nodes))
  {
    var temp := new OrderQueue();
    DrainWithout(queue, temp, orderId);
    PourBack(temp, queue);
  }

  /** No node is in both. */
  ghost predicate Apart(a: seq<Node<Order>>, b: seq<Node<Order>>) {
    forall i :: 0 <= i < |a| ==> a[i] !in b
  }

  /** One round of either loop: the head of `from` comes off and, unless its id is to be skipped,
      goes to the end of `to`. */
  method Transfer(from: OrderQueue, to: OrderQueue, skip: set<int>)
    requires from.Valid() && to.Valid() && from != to && from.nodes != [] && Apart(from.nodes, to.nodes)
    modifies from, to, NodeSet(to.nodes)
    ensures from.Valid() && to.Valid() && Apart(from.nodes, to.nodes)
    ensures from.contents == old(from.contents)[1..]
    ensures if old(from.contents)[0].orderId in skip then to.nodes == old(to.nodes) && to.contents == old(to.contents)
            else to.contents == old(to.contents) + [old(from.contents)[0]]
    ensures fresh(NodeSet(to.nodes) - NodeSet(old(to.nodes)))
  {
    assert forall x :: x in to.nodes ==> x in NodeSet(to.nodes);
    var order := from.Dequeue();
    if order.orderId !in skip {
      to.Enqueue(order);
    }
  }

  lemma OneAcross(a: seq<Order>, b: seq<Order>, whole: seq<Order>)
    requires a + b == whole
    ensures b != [] ==> (a + [b[0]]) + b[1..] == whole
  {
  }

  lemma OneFiltered(a: seq<Order>, b: seq<Order>, id: int)
    ensures b != [] ==> a + Without(b, id) == (if b[0].orderId == id then a else a + [b[0]]) + Without(b[1..], id)
  {
  }

  function NodeSet(nodes: seq<Node<Order>>): set<Node<Order>> { set x | x in nodes }

  /** The first loop of `remove_order_from_queue`. */
  method DrainWithout(queue: OrderQueue, temp: OrderQueue, orderId: int)
    requires queue.Valid() && temp.Valid() && queue != temp && temp.nodes == []
    modifies queue, temp
    ensures queue.Valid() && queue.nodes == []
    ensures temp.Valid() && fresh(NodeSet(temp.nodes)) && temp.contents == Without(old(queue.contents), orderId)
  {
    while !queue.IsEmpty()
      invariant queue.Valid() && temp.Valid() && fresh(NodeSet(temp.nodes)) && Apart(queue.nodes, temp.nodes)
      invariant Without(old(queue.contents), orderId) == temp.contents + Without(queue.contents, orderId)
      decreases |queue.nodes|
    {
      OneFiltered(temp.contents, queue.contents, orderId);
      Transfer(queue, temp, {orderId});
    }
  }

  /** The second loop of `remove_order_from_queue`. */
  method PourBack(temp: OrderQueue, queue: OrderQueue)
    requires queue.Valid() && temp.Valid() && queue != temp && queue.nodes == []
    modifies queue, temp
    ensures queue.Valid() && fresh(NodeSet(queue.nodes)) && queue.contents == old(temp.contents)
    ensures temp.Valid() && temp.nodes == []
  {
    ghost var all := temp.contents;
    while !temp.IsEmpty()
      invariant queue.Valid() && temp.Valid() && fresh(NodeSet(queue.nodes)) && Apart(temp.nodes, queue.nodes)
      invariant queue.contents + temp.contents == all
      decreases |temp.contents|
    {
      OneAcross(queue.contents, temp.contents, all);
      Transfer(temp, queue, {});
    }
  }
}

/** `queue_t` of the file server, with removal from the middle (Midterm/queue.h). */
module ClientQueues {
  import opened LinkedNodes

  const INT_MIN := -0x8000_0000

  /** The position of the first `pid` in `s`, or the length of `s`. */
  function FirstAt(s: seq<int>, pid: int): (k: nat)
    ensures k <= |s|
    ensures k < |s| ==> s[k] == pid
    ensures forall i :: 0 <= i < k ==> s[i] != pid
  {
    if s == [] || s[0] == pid then 0 else 1 + FirstAt(s[1..], pid)
  }

  lemma FirstUnique(s: seq<int>, pid: int, k: nat)
    requires k <= |s| && pid !in s[..k] && (k < |s| ==> s[k] == pid)
    ensures FirstAt(s, pid) == k
  {
    assert forall i :: 0 <= i < k ==> s[i] == s[..k][i] != pid;
  }

  class ClientQueue {
    var front: Node?<int>
    var rear: Node?<int>
    var size: int
    ghost var nodes: seq<Node<int>>
    ghost var contents: seq<int>

    ghost predicate Valid()
      reads this, nodes
    {
      Chain(nodes, front, rear) && Carry(nodes, contents) && size == |nodes|
    }

    /** `create_queue`. */
    constructor ()
      ensures Valid() && contents == []
    {
      front, rear, size, nodes, contents := null, null, 0, [], [];
    }

    predicate IsEmpty()
      reads this
    {
      size == 0
    }

    method Enqueue(pid: int)
      requires Valid()
      modifies this, nodes
      ensures Valid() && contents == old(contents) + [pid]
      ensures |nodes| == |old(nodes)| + 1 && nodes == old(nodes) + [nodes[|old(nodes)|]] && fresh(nodes[|old(nodes)|])
    {
      var node := new Node(pid);
      if rear == null {
        front := node;
        rear := node;
      } else {
        rear.next := node;
        rear := node;
      }
      size := size + 1;
      nodes, contents := nodes + [node], contents + [pid];
    }

    method Dequeue() returns (pid: int)
      requires Valid()
      modifies this
      ensures Valid()
      ensures if old(nodes) == [] then pid == -0x8000_0000 && nodes == []
              else pid == old(contents)[0] && nodes == old(nodes)[1..] && contents == old(contents)[1..]
    {
      if IsEmpty() {
        return INT_MIN;
      }
      ChainTail(nodes, front, rear);
      var temp := front;
      pid := temp.value;
      front := front.next;
      if front == null {
        rear := null;
      }
      size := size - 1;
      nodes, contents := nodes[1..], contents[1..];
    }

    /** Takes the `k`-th node out of the chain. */
    method Unlink(prev: Node?<int>, current: Node<int>, ghost k: nat)
      requires Valid() && k < |nodes| && current == nodes[k] && prev == At(nodes, k - 1)
      modifies this, nodes
      ensures Valid()
      ensures nodes == old(nodes)[..k] + old(nodes)[k + 1..]
      ensures contents == old(contents)[..k] + old(contents)[k + 1..]
    {
      assert current.next == At(nodes, k + 1);
      if prev == null {
        front := current.next;
      } else {
        prev.next := current.next;
      }
      if current == rear {
        rear := prev;
      }
      size := size - 1;
      ghost var rest := nodes[..k] + nodes[k + 1..];
      ChainBypass(nodes, k, rest);
      assert k > 0 ==> rest[0] == nodes[0];
      assert k + 1 < |nodes| ==> rest[k] == nodes[k + 1] && rest[|rest| - 1] == nodes[|nodes| - 1];
      nodes, contents := rest, contents[..k] + contents[k + 1..];
    }

    /** Unlinks the first node with this pid and returns it; null, and nothing changed, if there is
        none. */
    method RemoveClient(pid: int) returns (found: Node?<int>)
      requires Valid()
      modifies this, nodes
      ensures Valid()
      ensures var k := FirstAt(old(contents), pid);
              if k == |old(nodes)| then found == null && nodes == old(nodes) && contents == old(contents)
              else && found == old(nodes)[k]
                   && nodes == old(nodes)[..k] + old(nodes)[k + 1..]
                   && contents == old(contents)[..k] + old(contents)[k + 1..]
    {
      if IsEmpty() {
        return null;
      }
      var current := front;
      var prev: Node?<int> := null;
      ghost var k := 0;
      while current != null
        invariant Valid() && nodes == old(nodes) && contents == old(contents)
        invariant 0 <= k <= |nodes|
        invariant current == At(nodes, k)
        invariant prev == At(nodes, k - 1)
        invariant pid !in contents[..k]
        decreases |nodes| - k
      {
        if current.value == pid {
          assert contents[k] == pid;
          FirstUnique(contents, pid, k);
          Unlink(prev, current, k);
          return current;
        }
        prev := current;
        current := current.next;
        k := k + 1;
      }
      return null;
    }

    method IsClientInQueue(pid: int) returns (found: bool)
      requires Valid()
      ensures found <==> pid in contents
    {
      if IsEmpty() {
        return false;
      }
      var current := front;
      ghost var k := 0;
      while current != null
        invariant 0 <= k <= |nodes|
        invariant current == At(nodes, k)
        invariant pid !in contents[..k]
        decreases |nodes| - k
      {
        if current.value == pid {
          assert contents[k] == pid;
          return true;
        }
        current := current.next;
        k := k + 1;
      }
      return false;
    }
  }

  /** Removal on the sequence takes one client of the pid, the first, and no other. */
  lemma RemoveTakesOne(s: seq<int>, pid: int)
    ensures var k := FirstAt(s, pid);
            if pid in s then k < |s| && pid !in s[..k] && multiset(s[..k] + s[k + 1..]) == multiset(s) - multiset{pid}
            else k == |s|
  {
    var k := FirstAt(s, pid);
    if k < |s| { OneLess(s, k); }
  }

  lemma OneLess(s: seq<int>, k: nat)
    requires k < |s|
    ensures multiset(s[..k] + s[k + 1..]) == multiset(s) - multiset{s[k]}
  {
    var a, b := s[..k], s[k + 1..];
    assert s == (a + [s[k]]) + b;
    assert multiset(a + [s[k]]) == multiset(a) + multiset{s[k]};
  }

  /** And it undoes an insertion that was the first of its pid, wherever other clients have joined
      since. */
  lemma RemoveUndoesEnqueue(s: seq<int>, pid: int, later: seq<int>)
    requires pid !in s
    ensures var q := s + [pid] + later; var k := FirstAt(q, pid);
            k == |s| && q[..k] + q[k + 1..] == s + later
  {
    var q := s + [pid] + later;
    var k := FirstAt(q, pid);
    assert q[|s|] == pid;
    assert forall i :: 0 <= i < |s| ==> q[i] in s;
    assert q[..|s|] == s && q[|s| + 1..] == later;
  }
}
