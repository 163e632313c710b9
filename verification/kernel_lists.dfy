/**
  The scheduler's queues on the heap: each queue is an intrusive list, each thread owns the one node
  all queues share. What the list operations do to the heap is what the steps do to the queues.
*/
module KernelLists {
  import opened KernelState
  import opened KernelSteps
  import opened KernelInvariant
  import L = IntrusiveList

  /** Where the queue node of each thread and the header of each queue are. */
  datatype Layout = Layout(node: map<Tid, L.ListNode>, header: map<QueueId, L.ListNode>)

  /** Different threads and queues have different nodes. */
  ghost predicate Apart(a: Layout) {
    && (forall t, u | t in a.node && u in a.node && t != u :: a.node[t] != a.node[u])
    && (forall v, w | v in a.header && w in a.header && v != w :: a.header[v] != a.header[w])
    && (forall t, w | t in a.node && w in a.header :: a.node[t] != a.header[w])
  }

  /** The threads of the queue have nodes. */
  predicate OfThreads(a: Layout, q: seq<Tid>) {
    forall t | t in q :: t in a.node
  }

  function Nodes(a: Layout, q: seq<Tid>): (s: seq<L.ListNode>)
    requires OfThreads(a, q)
    ensures |s| == |q| && forall i | 0 <= i < |q| :: s[i] == a.node[q[i]]
  {
    seq(|q|, i requires 0 <= i < |q| => a.node[q[i]])
  }

  /** The lists are the queues of `k`. */
  ghost predicate Lays(l: L.Lists, a: Layout, k: Kernel) {
    && Apart(a) && l.rings.Keys == a.header.Values
    && (forall w: QueueId {:trigger Q(k, w)} :: Q(k, w) != [] ==> w in a.header)
    && (forall w | w in a.header :: OfThreads(a, Q(k, w)) && l.rings[a.header[w]] == Nodes(a, Q(k, w)))
  }

  lemma ListOf(l: L.Lists, a: Layout, k: Kernel, w: QueueId)
    requires Lays(l, a, k) && w in a.header
    ensures a.header[w] in l.rings && OfThreads(a, Q(k, w)) && l.rings[a.header[w]] == Nodes(a, Q(k, w))
    ensures |l.rings[a.header[w]]| == |Q(k, w)|
  {
    assert a.header[w] in a.header.Values;
  }

  /** A thread that belongs in no queue has a free node, as the insertions ask for. */
  lemma NodeIsFree(l: L.Lists, a: Layout, k: Kernel, x: set<Tid>, t: Tid)
    requires Lays(l, a, k) && Placed(k, x) && t in x && t in a.node
    ensures !l.Linked(a.node[t])
  {
    forall h | h in l.rings ensures a.node[t] !in l.Cycle(h) {
      var w :| w in a.header && a.header[w] == h;
      ListOf(l, a, k, w);
      var q := Q(k, w);
      assert t !in q;
      forall i | 0 <= i < |l.Cycle(h)| ensures l.Cycle(h)[i] != a.node[t] {
        if i > 0 { assert l.Cycle(h)[i] == l.rings[h][i - 1] == a.node[q[i - 1]] && q[i - 1] in q; }
      }
    }
  }

  /** Changing one list changes one queue. */
  lemma OneQueue(l: L.Lists, a: Layout, k: Kernel, w: QueueId, q: seq<Tid>, l': L.Lists)
    requires Lays(l, a, k) && w in a.header && Valid(k, w)
    requires OfThreads(a, q)
    requires l'.rings == l.rings[a.header[w] := Nodes(a, q)]
    ensures Lays(l', a, SetQ(k, w, q))
  {
    hide Q, SetQ, Nodes, Lays;
    var k' := SetQ(k, w, q);
    forall v ensures Q(k', v) == if v == w then q else Q(k, v) {
      QOfSetQ(k, w, q, v);
    }
    ListOf(l, a, k, w);
    LaysParts(l, a, k);
    assert l'.rings.Keys == l.rings.Keys;
    forall v: QueueId | Q(k', v) != [] ensures v in a.header {
      assert v != w ==> Q(k, v) != [];
    }
    forall v | v in a.header
      ensures a.header[v] in l'.rings && OfThreads(a, Q(k', v)) && l'.rings[a.header[v]] == Nodes(a, Q(k', v))
    {
      ListOf(l, a, k, v);
      assert v != w ==> a.header[v] != a.header[w];
    }
    LaysIf(l', a, k');
  }

  lemma LaysParts(l: L.Lists, a: Layout, k: Kernel)
    requires Lays(l, a, k)
    ensures Apart(a) && l.rings.Keys == a.header.Values
    ensures forall w: QueueId {:trigger Q(k, w)} :: Q(k, w) != [] ==> w in a.header
  {
  }

  lemma LaysIf(l: L.Lists, a: Layout, k: Kernel)
    requires Apart(a) && l.rings.Keys == a.header.Values
    requires forall w: QueueId {:trigger Q(k, w)} :: Q(k, w) != [] ==> w in a.header
    requires forall w | w in a.header ::
      a.header[w] in l.rings && OfThreads(a, Q(k, w)) && l.rings[a.header[w]] == Nodes(a, Q(k, w))
    ensures Lays(l, a, k)
  {
  }

  /** list_add_head on a queue's header puts the thread first. */
  lemma HeadAdded(l: L.Lists, a: Layout, k: Kernel, w: QueueId, t: Tid)
    requires Lays(l, a, k) && w in a.header && Valid(k, w) && t in a.node
    ensures Lays(l.Insert(a.header[w], 0, a.node[t]), a, SetQ(k, w, [t] + Q(k, w)))
  {
    hide Lays, Q, SetQ, Apart, L.Lists.Insert;
    ListOf(l, a, k, w);
    LaysParts(l, a, k);
    L.AtTheEnds(l, a.header[w], a.node[t]);
    NodesHead(a, t, Q(k, w));
    OneQueue(l, a, k, w, [t] + Q(k, w), l.Insert(a.header[w], 0, a.node[t]));
  }

  lemma NodesHead(a: Layout, t: Tid, q: seq<Tid>)
    requires OfThreads(a, [t]) && OfThreads(a, q)
    ensures OfThreads(a, [t] + q) && Nodes(a, [t] + q) == [a.node[t]] + Nodes(a, q)
  {
  }

  /** list_add_tail on a queue's header puts the thread last. */
  lemma TailAdded(l: L.Lists, a: Layout, k: Kernel, w: QueueId, t: Tid)
    requires Lays(l, a, k) && w in a.header && Valid(k, w) && t in a.node
    ensures var h := a.header[w];
      Lays(l.Insert(h, L.Before(0, |l.Cycle(h)|), a.node[t]), a, SetQ(k, w, Q(k, w) + [t]))
  {
    hide Lays, Q, SetQ, Apart, L.Lists.Insert;
    ListOf(l, a, k, w);
    LaysParts(l, a, k);
    var h := a.header[w];
    L.AtTheEnds(l, h, a.node[t]);
    assert Nodes(a, Q(k, w) + [t]) == Nodes(a, Q(k, w)) + [a.node[t]];
    OneQueue(l, a, k, w, Q(k, w) + [t], l.Insert(h, L.Before(0, |l.Cycle(h)|), a.node[t]));
  }

  /** list_delete on a thread's node takes the thread out of the queue it is in, wherever that is. */
  lemma ThreadDeleted(l: L.Lists, a: Layout, k: Kernel, w: QueueId, p: nat)
    requires Lays(l, a, k) && w in a.header && Valid(k, w) && NoDup(Q(k, w)) && p < |Q(k, w)|
    ensures p < |l.rings[a.header[w]]| && Q(k, w)[p] in a.node && l.rings[a.header[w]][p] == a.node[Q(k, w)[p]]
    ensures Lays(l.Remove(a.header[w], p), a, SetQ(k, w, Without(Q(k, w), Q(k, w)[p])))
  {
    hide Lays, Q, SetQ, Apart;
    ListOf(l, a, k, w);
    LaysParts(l, a, k);
    var q := Q(k, w);
    assert q[p] in q;
    var r := q[..p] + q[p + 1..];
    WithoutAt(q, p);
    assert Nodes(a, r) == Nodes(a, q)[..p] + Nodes(a, q)[p + 1..];
    OneQueue(l, a, k, w, r, l.Remove(a.header[w], p));
  }

  lemma {:induction false} WithoutAt(q: seq<Tid>, p: nat)
    requires NoDup(q) && p < |q|
    ensures Without(q, q[p]) == q[..p] + q[p + 1..]
  {
    if p > 0 {
      WithoutAt(q[1..], p - 1);
      assert q[..p] + q[p + 1..] == [q[0]] + (q[1..][..p - 1] + q[1..][p..]);
    }
  }

  /** The heap and the layout determine the queues. */
  lemma HeapDeterminesQueues(l: L.Lists, l': L.Lists, a: Layout, k: Kernel, k': Kernel, w: QueueId)
    requires L.Holds(l) && L.Holds(l') && Lays(l, a, k) && Lays(l', a, k') && w in a.header
    ensures Q(k, w) == Q(k', w)
  {
    hide L.Holds, Q;
    ListOf(l, a, k, w);
    ListOf(l', a, k', w);
    L.PointersDetermineLists(l, l', a.header[w]);
    SameNodes(a, Q(k, w), Q(k', w));
  }

  lemma SameNodes(a: Layout, q: seq<Tid>, q': seq<Tid>)
    requires Apart(a) && OfThreads(a, q) && OfThreads(a, q')
    requires Nodes(a, q) == Nodes(a, q')
    ensures q == q'
  {
    assert |q| == |Nodes(a, q)| == |q'|;
    forall i | 0 <= i < |q| ensures q[i] == q'[i] {
      assert q[i] in q && q'[i] in q';
      assert Nodes(a, q)[i] == Nodes(a, q')[i];
    }
  }

  // ----- on the heap -----

  /** The nodes of a queue and their neighbours belong to threads and queues. */
  lemma InLayout(l: L.Lists, a: Layout, k: Kernel, w: QueueId)
    requires L.Holds(l) && Lays(l, a, k) && w in a.header
    ensures var h, all := a.header[w], a.node.Values + a.header.Values;
      && h in all && h.next in all && h.next.next in all && h.next.prev in all
  {
    hide L.Holds, Lays;
    ListOf(l, a, k, w);
    L.Ends(l, a.header[w]);
    MembersInLayout(l, a, k, w);
  }

  lemma MembersInLayout(l: L.Lists, a: Layout, k: Kernel, w: QueueId)
    requires Lays(l, a, k) && w in a.header && a.header[w] in l.rings
    ensures a.header[w] in a.header.Values
    ensures forall i | 0 <= i < |l.rings[a.header[w]]| :: l.rings[a.header[w]][i] in a.node.Values
  {
    hide Lays, Q;
    ListOf(l, a, k, w);
    LaysParts(l, a, k);
    var q := Q(k, w);
    forall i | 0 <= i < |q| ensures l.rings[a.header[w]][i] in a.node.Values { assert q[i] in q; }
  }

  /** list_remove_head on a queue. */
  method PopNode(a: Layout, w: QueueId, ghost l: L.Lists, ghost k: Kernel)
    returns (item: L.ListNode?, ghost l': L.Lists)
    requires L.Holds(l) && Lays(l, a, k) && w in a.header && Valid(k, w) && NoDup(Q(k, w))
    modifies a.node.Values, a.header.Values
    ensures L.Holds(l')
    ensures Q(k, w) == [] ==> item == null && l' == l
    ensures Q(k, w) != [] ==> Q(k, w)[0] in a.node && item == a.node[Q(k, w)[0]]
    ensures Q(k, w) != [] ==> Lays(l', a, SetQ(k, w, Q(k, w)[1..])) && !l'.Linked(item)
  {
    hide L.Holds, Lays, Q, SetQ, L.Lists.Remove, L.Lists.Linked;
    InLayout(l, a, k, w);
    ListOf(l, a, k, w);
    var header := a.header[w];
    if Q(k, w) != [] {
      ThreadDeleted(l, a, k, w, 0);
      L.RemovedIsFree(l, header, 0);
      FirstOut(Q(k, w));
    }
    item := L.RemoveHead(header, l);
    l' := if item == null then l else l.Remove(header, 0);
  }

  lemma FirstOut(q: seq<Tid>)
    requires q != []
    ensures Without(q, q[0]) == q[1..]
  {
  }

  /** list_add_head on a queue. */
  method PushNode(a: Layout, w: QueueId, item: L.ListNode, ghost t: Tid, ghost l: L.Lists, ghost k: Kernel)
    returns (ghost l': L.Lists)
    requires L.Holds(l) && Lays(l, a, k) && w in a.header && Valid(k, w)
    requires t in a.node && a.node[t] == item && !l.Linked(item)
    modifies a.node.Values, a.header.Values
    ensures L.Holds(l') && Lays(l', a, SetQ(k, w, [t] + Q(k, w)))
  {
    hide L.Holds, Lays, Q, SetQ, L.Lists.Insert, L.Lists.Linked;
    InLayout(l, a, k, w);
    ListOf(l, a, k, w);
    HeadAdded(l, a, k, w, t);
    assert item in a.node.Values;
    L.AddHead(a.header[w], item, l, a.header[w], 0);
    l' := l.Insert(a.header[w], 0, item);
  }

  /** Every thread can be found from its node, and has a run queue. */
  predicate Complete(a: Layout, owner: map<L.ListNode, Tid>, priority: map<Tid, nat>, k: Kernel) {
    forall t | t in a.node ::
      && a.node[t] in owner && owner[a.node[t]] == t
      && t in priority && T(k, t).priority == priority[t] < |k.rq| && RunQ(priority[t]) in a.header
  }

  /** The wake-up loop of wait_queue_wake_all: as long as there is a node at the head of the wait queue, unlink
      it and link it in at the head of its thread's run queue. `owner` is containerof. The heap then holds
      the queues MakeAllReady leaves. */
  method PourOnHeap(a: Layout, owner: map<L.ListNode, Tid>, priority: map<Tid, nat>, w: QueueId,
      ghost err: int, ghost l: L.Lists, ghost k: Kernel)
    returns (ghost l': L.Lists)
    requires L.Holds(l) && Lays(l, a, k) && Complete(a, owner, priority, k)
    requires w in a.header && !w.RunQ? && NoDup(Q(k, w))
    modifies a.node.Values, a.header.Values
    ensures L.Holds(l') && Lays(l', a, MakeAllReady(SetQ(k, w, []), Q(k, w), err))
  {
    hide L.Holds, Lays, MakeAllReady, MakeReady, Q, SetQ, Complete, L.Lists.Linked;
    ghost var m := k;
    l' := l;
    while true
      invariant L.Holds(l') && Lays(l', a, m) && Complete(a, owner, priority, m) && NoDup(Q(m, w))
      invariant MakeAllReady(SetQ(m, w, []), Q(m, w), err) == MakeAllReady(SetQ(k, w, []), Q(k, w), err)
      decreases |Q(m, w)|
    {
      var item: L.ListNode?;
      item, l' := PopNode(a, w, l', m);
      if item == null { break; }
      ghost var t, m1 := Q(m, w)[0], SetQ(m, w, Q(m, w)[1..]);
      FoundThread(a, owner, priority, m, t);
      PouredOne(m, w, err);
      ghost var m2 := SetT(m1, t, Woken(T(m1, t), err));
      SameQueues(l', a, m1, m2);
      ReadySteps(m, w, t, err);
      l' := PushNode(a, RunQ(priority[owner[item]]), item, t, l', m2);
      StillComplete(a, owner, priority, m, w, t, err);
      m := MakeReady(m1, t, err);
    }
    NothingLeft(l', a, m, w, err);
  }

  lemma FoundThread(a: Layout, owner: map<L.ListNode, Tid>, priority: map<Tid, nat>, k: Kernel, t: Tid)
    requires Complete(a, owner, priority, k) && t in a.node
    ensures a.node[t] in owner && owner[a.node[t]] == t && t in priority
    ensures T(k, t).priority == priority[t] < |k.rq| && RunQ(priority[t]) in a.header
  {
  }

  lemma SameQueues(l: L.Lists, a: Layout, k: Kernel, k': Kernel)
    requires Lays(l, a, k) && k'.rq == k.rq && k'.wq == k.wq
    ensures Lays(l, a, k')
  {
    forall v: QueueId ensures Q(k', v) == Q(k, v) {}
    hide Q;
    LaysIf(l, a, k') by {
      LaysParts(l, a, k);
      forall v | v in a.header
        ensures a.header[v] in l.rings && OfThreads(a, Q(k', v)) && l.rings[a.header[v]] == Nodes(a, Q(k', v))
      {
        ListOf(l, a, k, v);
      }
    }
  }

  lemma ReadySteps(k: Kernel, w: QueueId, t: Tid, err: int)
    requires !w.RunQ? && Q(k, w) != []
    ensures var k1 := SetQ(k, w, Q(k, w)[1..]);
      var k2 := SetT(k1, t, Woken(T(k1, t), err));
      var r := RunQ(T(k, t).priority);
      |k2.rq| == |k.rq| && k2.rq == k1.rq && k2.wq == k1.wq && MakeReady(k1, t, err) == SetQ(k2, r, [t] + Q(k2, r))
  {
  }

  lemma StillComplete(a: Layout, owner: map<L.ListNode, Tid>, priority: map<Tid, nat>, k: Kernel, w: QueueId, t: Tid,
      err: int)
    requires Complete(a, owner, priority, k) && !w.RunQ? && Q(k, w) != []
    ensures Complete(a, owner, priority, MakeReady(SetQ(k, w, Q(k, w)[1..]), t, err))
  {
  }

  lemma NothingLeft(l: L.Lists, a: Layout, k: Kernel, w: QueueId, err: int)
    requires Lays(l, a, k) && Q(k, w) == [] && !w.RunQ? && w in a.header
    ensures Lays(l, a, MakeAllReady(SetQ(k, w, []), Q(k, w), err))
  {
    var k' := SetQ(k, w, []);
    forall v: QueueId ensures Q(k', v) == Q(k, v) {}
    hide Q, SetQ;
    LaysIf(l, a, k') by {
      LaysParts(l, a, k);
      forall v | v in a.header
        ensures a.header[v] in l.rings && OfThreads(a, Q(k', v)) && l.rings[a.header[v]] == Nodes(a, Q(k', v))
      {
        ListOf(l, a, k, v);
      }
    }
  }
}
