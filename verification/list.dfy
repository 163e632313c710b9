/**
  The intrusive circular doubly linked lists of Include/lk/list.h. A list is a header node and the
  member nodes reached from it; a node carries no trace of the list it is in. The contracts describe
  all the lists on the heap at once, so each says what an operation does to its own list and that no
  other list changes.
*/
module IntrusiveList {

  class ListNode {
    var prev: ListNode?
    var next: ListNode?

    constructor ()
      ensures prev == null && next == null
    {
      prev, next := null, null;
    }
  }

  /** The members of every list, by header, and nodes known to be cleared. */
  datatype Lists = Lists(rings: map<ListNode, seq<ListNode>>, loose: set<ListNode>)
  {
    /** The header and the members after it. */
    function Cycle(h: ListNode): (c: seq<ListNode>)
      requires h in rings
      ensures |c| == |rings[h]| + 1 && c[0] == h && c[1..] == rings[h]
    {
      [h] + rings[h]
    }

    /** `x` is a header or a member of some list. */
    ghost predicate Linked(x: ListNode) {
      exists h :: h in rings && x in Cycle(h)
    }

    ghost predicate Disjoint() {
      forall h, g | h in rings && g in rings && h != g :: forall x | x in Cycle(h) :: x !in Cycle(g)
    }

    /** The lists after `x` entered list `h` as member number `p`. */
    function Insert(h: ListNode, p: nat, x: ListNode): Lists
      requires h in rings && p <= |rings[h]|
    {
      Lists(rings[h := rings[h][..p] + [x] + rings[h][p..]], loose - {x})
    }

    /** The lists after member number `p` left list `h`. */
    function Remove(h: ListNode, p: nat): Lists
      requires h in rings && p < |rings[h]|
    {
      Lists(rings[h := rings[h][..p] + rings[h][p + 1..]], loose + {rings[h][p]})
    }
  }

  ghost predicate NoDup(c: seq<ListNode>) {
    forall i, j | 0 <= i < j < |c| :: c[i] != c[j]
  }

  function After(i: nat, n: nat): nat
    requires i < n
  {
    if i + 1 == n then 0 else i + 1
  }

  function Before(i: nat, n: nat): nat
    requires i < n
  {
    if i == 0 then n - 1 else i - 1
  }

  /** The nodes of `c` are linked in a circle in this order. */
  ghost predicate Ring(c: seq<ListNode>)
    reads c
  {
    && NoDup(c)
    && (forall i {:trigger c[i].next} | 0 <= i < |c| :: c[i].next == c[After(i, |c|)])
    && (forall i {:trigger c[i].prev} | 0 <= i < |c| :: c[i].prev == c[Before(i, |c|)])
  }

  /** The heap holds exactly these lists. */
  ghost predicate Holds(l: Lists)
    reads *
  {
    && (forall h | h in l.rings :: Ring(l.Cycle(h)))
    && l.Disjoint()
    && (forall x | x in l.loose :: x.prev == null && x.next == null)
  }

  // ----- operations -----

  /** list_initialize */
  method Initialize(list: ListNode, ghost l: Lists)
    requires Holds(l) && !l.Linked(list)
    modifies list
    ensures Holds(Lists(l.rings[list := []], l.loose - {list}))
  {
    list.prev, list.next := list, list;
    ghost var l' := Lists(l.rings[list := []], l.loose - {list});
    forall h | h in l'.rings ensures Ring(l'.Cycle(h)) {
      if h != list {
        OutsideUnchanged(l, h, list);
        assert l'.Cycle(h) == l.Cycle(h);
      }
    }
  }

  lemma OutsideUnchanged(l: Lists, h: ListNode, x: ListNode)
    requires h in l.rings && !l.Linked(x)
    ensures x !in l.Cycle(h)
  {
  }

  /** list_clear_node, for a node that is in no list */
  method ClearNode(item: ListNode, ghost l: Lists)
    requires Holds(l) && !l.Linked(item)
    modifies item
    ensures Holds(Lists(l.rings, l.loose + {item}))
  {
    item.prev, item.next := null, null;
    ghost var l' := Lists(l.rings, l.loose + {item});
    forall h | h in l'.rings ensures Ring(l'.Cycle(h)) {
      OutsideUnchanged(l, h, item);
      assert l'.Cycle(h) == l.Cycle(h);
    }
  }

  /** list_in_list tells a linked node from a cleared one. */
  function InList(item: ListNode, ghost l: Lists): (r: bool)
    requires Holds(l) && (l.Linked(item) || item in l.loose)
    reads *
    ensures r <==> l.Linked(item)
  {
    LinkedHasNext(item, l);
    if item.prev == null && item.next == null then false else true
  }

  lemma LinkedHasNext(x: ListNode, l: Lists)
    requires Holds(l)
    ensures l.Linked(x) ==> x.next != null
  {
    forall h | h in l.rings && x in l.Cycle(h) ensures x.next != null { MemberHasNext(l, h, x); }
  }

  lemma MemberHasNext(l: Lists, h: ListNode, x: ListNode)
    requires Holds(l) && h in l.rings && x in l.Cycle(h)
    ensures x.next != null
  {
    var i :| 0 <= i < |l.Cycle(h)| && l.Cycle(h)[i] == x;
    assert Ring(l.Cycle(h));
  }

  // ----- circles -----

  /** A sequence with `x` put in after position `i`. */
  function With<X>(c: seq<X>, i: nat, x: X): (c': seq<X>)
    requires i < |c|
    ensures |c'| == |c| + 1
    ensures forall j | 0 <= j <= |c| :: c'[j] == if j <= i then c[j] else if j == i + 1 then x else c[j - 1]
  {
    c[..i + 1] + [x] + c[i + 1..]
  }

  function WithoutNode<X>(c: seq<X>, i: nat): (c': seq<X>)
    requires i < |c|
    ensures |c'| == |c| - 1
    ensures forall j | 0 <= j < |c'| :: c'[j] == if j < i then c[j] else c[j + 1]
  {
    c[..i] + c[i + 1..]
  }

  /** Linking `item` in after node `i` of a circle. */
  lemma RingWith(c: seq<ListNode>, i: nat, item: ListNode)
    requires NoDup(c) && i < |c| && item !in c
    requires forall j {:trigger c[j].next} | 0 <= j < |c| :: c[j].next == if j == i then item else c[After(j, |c|)]
    requires forall j {:trigger c[j].prev} | 0 <= j < |c| ::
      c[j].prev == if j == After(i, |c|) then item else c[Before(j, |c|)]
    requires item.prev == c[i] && item.next == c[After(i, |c|)]
    ensures Ring(With(c, i, item))
  {
    NoDupWith(c, i, item);
    LinkedBetween(c, i, item);
    NodesWith(c, i, item);
    hide With, NoDup, After, Before;
  }

  lemma NodesWith(c: seq<ListNode>, i: nat, item: ListNode)
    requires i < |c|
    requires forall j {:trigger c[j].next} | 0 <= j < |c| :: c[j].next == if j == i then item else c[After(j, |c|)]
    requires forall j {:trigger c[j].prev} | 0 <= j < |c| ::
      c[j].prev == if j == After(i, |c|) then item else c[Before(j, |c|)]
    ensures var n, c' := |c| + 1, With(c, i, item);
      forall j {:trigger c'[j].next} {:trigger c'[j].prev} | 0 <= j < n && j != i + 1 ::
        c'[j].next == c'[After(j, n)] && c'[j].prev == c'[Before(j, n)]
  {
    var n, c' := |c| + 1, With(c, i, item);
    forall j | 0 <= j < n && j != i + 1 ensures c'[j].next == c'[After(j, n)] && c'[j].prev == c'[Before(j, n)] {
      if j <= i { LinkedBefore(c, i, item, j); } else { LinkedAfter(c, i, item, j); }
    }
    hide With;
  }

  lemma NoDupWith(c: seq<ListNode>, i: nat, item: ListNode)
    requires NoDup(c) && i < |c| && item !in c
    ensures NoDup(With(c, i, item))
  {
  }

  lemma LinkedBetween(c: seq<ListNode>, i: nat, item: ListNode)
    requires i < |c| && item.prev == c[i] && item.next == c[After(i, |c|)]
    ensures var c' := With(c, i, item);
      c'[i + 1].next == c'[After(i + 1, |c'|)] && c'[i + 1].prev == c'[Before(i + 1, |c'|)]
  {
  }

  lemma LinkedBefore(c: seq<ListNode>, i: nat, item: ListNode, j: nat)
    requires j <= i < |c|
    requires c[j].next == if j == i then item else c[After(j, |c|)]
    requires c[j].prev == if j == After(i, |c|) then item else c[Before(j, |c|)]
    ensures var c' := With(c, i, item); c'[j].next == c'[After(j, |c'|)] && c'[j].prev == c'[Before(j, |c'|)]
  {
  }

  lemma LinkedAfter(c: seq<ListNode>, i: nat, item: ListNode, j: nat)
    requires i + 1 < j <= |c|
    requires c[j - 1].next == c[After(j - 1, |c|)]
    requires c[j - 1].prev == if j - 1 == After(i, |c|) then item else c[Before(j - 1, |c|)]
    ensures var c' := With(c, i, item); c'[j].next == c'[After(j, |c'|)] && c'[j].prev == c'[Before(j, |c'|)]
  {
  }

  /** Linking the neighbours of node `i` of a circle to each other. */
  lemma RingWithout(c: seq<ListNode>, i: nat)
    requires NoDup(c) && 0 < i < |c|
    requires forall j {:trigger c[j].next} | 0 <= j < |c| && j != i ::
      c[j].next == c[After(if j == Before(i, |c|) then i else j, |c|)]
    requires forall j {:trigger c[j].prev} | 0 <= j < |c| && j != i ::
      c[j].prev == c[Before(if j == After(i, |c|) then i else j, |c|)]
    ensures Ring(WithoutNode(c, i))
  {
    var c' := WithoutNode(c, i);
    forall j | 0 <= j < |c'| ensures c'[j].next == c'[After(j, |c'|)] && c'[j].prev == c'[Before(j, |c'|)] {
      hide NoDup, WithoutNode;
      LinkedPast(c, i, j);
    }
  }

  /** Node `j` of the circle without node `i`, which was number `m` before. */
  lemma LinkedPast(c: seq<ListNode>, i: nat, j: nat)
    requires 0 < i < |c| && j < |c| - 1
    requires var m := if j < i then j else j + 1;
      && c[m].next == c[After(if m == Before(i, |c|) then i else m, |c|)]
      && c[m].prev == c[Before(if m == After(i, |c|) then i else m, |c|)]
    ensures var c' := WithoutNode(c, i); c'[j].next == c'[After(j, |c'|)] && c'[j].prev == c'[Before(j, |c'|)]
  {
  }

  /** The heap holds `l'` if it holds one circle of it and, as before, the others. */
  lemma HoldsWith(l: Lists, h: ListNode, l': Lists)
    requires h in l.rings && l'.rings.Keys == l.rings.Keys && l.Disjoint()
    requires Ring(l'.Cycle(h))
    requires forall g | g in l.rings && g != h :: l'.rings[g] == l.rings[g] && Ring(l.Cycle(g))
    requires forall g | g in l.rings && g != h :: forall x | x in l'.Cycle(h) :: x !in l.Cycle(g)
    requires forall x | x in l'.loose :: x.prev == null && x.next == null
    ensures Holds(l')
  {
    forall g | g in l'.rings ensures Ring(l'.Cycle(g)) {
      if g != h { assert l'.Cycle(g) == l.Cycle(g); }
    }
    forall f, g | f in l'.rings && g in l'.rings && f != g ensures forall x | x in l'.Cycle(f) :: x !in l'.Cycle(g) {
      if f != h { assert l'.Cycle(f) == l.Cycle(f); }
      if g != h { assert l'.Cycle(g) == l.Cycle(g); }
    }
  }

  /** Where the circle leads from node `i`. */
  lemma Neighbours(c: seq<ListNode>, i: nat)
    requires Ring(c) && i < |c|
    ensures c[i].next == c[After(i, |c|)] && c[i].prev == c[Before(i, |c|)]
    ensures After(Before(i, |c|), |c|) == i
  {
  }

  // ----- linking and unlinking -----

  /** The four writes of list_add_head, on the circle `list` is node number `i` of. */
  method LinkAfter(list: ListNode, item: ListNode, ghost c: seq<ListNode>, ghost i: nat)
    requires Ring(c) && i < |c| && c[i] == list && item !in c
    modifies list`next, list.next`prev, item
    ensures Ring(With(c, i, item))
  {
    Neighbours(c, i);
    item.next := list.next;
    item.prev := list;
    list.next.prev := item;
    list.next := item;
    RingWith(c, i, item);
  }

  /** The four writes of list_add_tail. */
  method LinkBefore(list: ListNode, item: ListNode, ghost c: seq<ListNode>, ghost i: nat)
    requires Ring(c) && i < |c| && c[i] == list && item !in c
    modifies list`prev, list.prev`next, item
    ensures Ring(With(c, Before(i, |c|), item))
  {
    Neighbours(c, i);
    item.prev := list.prev;
    item.next := list;
    list.prev.next := item;
    list.prev := item;
    RingWith(c, Before(i, |c|), item);
  }

  /** list_add_head; with a member for `list` it is list_add_after. The new node becomes the one after
      node number `i` of the circle. */
  method AddHead(list: ListNode, item: ListNode, ghost l: Lists, ghost h: ListNode, ghost i: nat)
    requires Holds(l) && !l.Linked(item)
    requires h in l.rings && i < |l.Cycle(h)| && l.Cycle(h)[i] == list
    modifies list`next, list.next`prev, item
    ensures Holds(l.Insert(h, i, item))
  {
    hide Ring, Holds, With, Lists.Insert, Lists.Disjoint, Lists.Linked;
    BeforeLinking(l, h, i, item);
    assert list in l.Cycle(h) && list.next in l.Cycle(h);
    LinkAfter(list, item, l.Cycle(h), i);
    forall g | g in l.rings && g != h ensures Ring(l.Cycle(g)) { assert old(Ring(l.Cycle(g))); }
    Inserted(l, h, i, item);
  }

  /** list_add_tail; with a member for `list` it is list_add_before. */
  method AddTail(list: ListNode, item: ListNode, ghost l: Lists, ghost h: ListNode, ghost i: nat)
    requires Holds(l) && !l.Linked(item)
    requires h in l.rings && i < |l.Cycle(h)| && l.Cycle(h)[i] == list
    modifies list`prev, list.prev`next, item
    ensures Holds(l.Insert(h, Before(i, |l.Cycle(h)|), item))
  {
    hide Ring, Holds, With, Lists.Insert, Lists.Disjoint, Lists.Linked;
    BeforeLinking(l, h, i, item);
    assert list in l.Cycle(h) && list.prev in l.Cycle(h);
    LinkBefore(list, item, l.Cycle(h), i);
    forall g | g in l.rings && g != h ensures Ring(l.Cycle(g)) { assert old(Ring(l.Cycle(g))); }
    Inserted(l, h, Before(i, |l.Cycle(h)|), item);
  }

  /** What is known of the nodes that are about to be written. */
  lemma BeforeLinking(l: Lists, h: ListNode, i: nat, item: ListNode)
    requires Holds(l) && !l.Linked(item) && h in l.rings && i < |l.Cycle(h)|
    ensures var c := l.Cycle(h);
      Ring(c) && item !in c && l.Disjoint() && c[i].next == c[After(i, |c|)] && c[i].prev == c[Before(i, |c|)]
    ensures forall g | g in l.rings && g != h ::
        Ring(l.Cycle(g)) && item !in l.Cycle(g) && forall x | x in l.Cycle(h) :: x !in l.Cycle(g)
    ensures forall x | x in l.loose :: x.prev == null && x.next == null && x !in l.Cycle(h)
  {
    forall g | g in l.rings ensures item !in l.Cycle(g) { OutsideUnchanged(l, g, item); }
    Neighbours(l.Cycle(h), i);
    forall x | x in l.Cycle(h) ensures x.next != null { MemberHasNext(l, h, x); }
  }

  lemma Inserted(l: Lists, h: ListNode, i: nat, x: ListNode)
    requires h in l.rings && i < |l.Cycle(h)| && !l.Linked(x) && l.Disjoint()
    requires Ring(With(l.Cycle(h), i, x))
    requires forall g | g in l.rings && g != h :: Ring(l.Cycle(g))
    requires forall y | y in l.loose && y != x :: y.prev == null && y.next == null
    ensures Holds(l.Insert(h, i, x))
  {
    var l', c := l.Insert(h, i, x), l.Cycle(h);
    assert l'.Cycle(h) == With(c, i, x);
    forall g | g in l.rings && g != h ensures forall y | y in l'.Cycle(h) :: y !in l.Cycle(g) {
      forall y | y in l'.Cycle(h) ensures y !in l.Cycle(g) {
        if y == x { OutsideUnchanged(l, g, x); } else { assert y in c; }
      }
    }
    HoldsWith(l, h, l');
  }

  /** The three writes of list_delete, which needs no header. */
  method Unlink(item: ListNode, ghost c: seq<ListNode>, ghost i: nat)
    requires Ring(c) && 0 < i < |c| && c[i] == item
    modifies item, item.next`prev, item.prev`next
    ensures Ring(WithoutNode(c, i)) && item.prev == null && item.next == null
  {
    Neighbours(c, i);
    item.next.prev := item.prev;
    item.prev.next := item.next;
    item.prev, item.next := null, null;
    RingWithout(c, i);
  }

  /** list_delete */
  method Delete(item: ListNode, ghost l: Lists, ghost h: ListNode, ghost p: nat)
    requires Holds(l) && h in l.rings && p < |l.rings[h]| && l.rings[h][p] == item
    modifies item, item.next`prev, item.prev`next
    ensures Holds(l.Remove(h, p))
  {
    hide Ring, Holds, WithoutNode, Lists.Remove, Lists.Disjoint;
    BeforeUnlinking(l, h, p);
    UnlinkAmong(item, l, h, p);
    Removed(l, h, p);
  }

  /** The same with the other lists in view: their circles, and the nodes in no list, are left alone. */
  method UnlinkAmong(item: ListNode, ghost l: Lists, ghost h: ListNode, ghost p: nat)
    requires h in l.rings && p < |l.rings[h]| && l.rings[h][p] == item && Ring(l.Cycle(h))
    requires item in l.Cycle(h) && item.next in l.Cycle(h) && item.prev in l.Cycle(h)
    requires forall g | g in l.rings && g != h :: Ring(l.Cycle(g)) && forall x | x in l.Cycle(h) :: x !in l.Cycle(g)
    requires forall x | x in l.loose :: x.prev == null && x.next == null && x !in l.Cycle(h)
    modifies item, item.next`prev, item.prev`next
    ensures Ring(WithoutNode(l.Cycle(h), p + 1))
    ensures forall g | g in l.rings && g != h :: Ring(l.Cycle(g))
    ensures forall y | y in l.loose || y == item :: y.prev == null && y.next == null
  {
    hide Ring, WithoutNode;
    Unlink(item, l.Cycle(h), p + 1);
    forall g | g in l.rings && g != h ensures Ring(l.Cycle(g)) { assert old(Ring(l.Cycle(g))); }
  }

  lemma BeforeUnlinking(l: Lists, h: ListNode, p: nat)
    requires Holds(l) && h in l.rings && p < |l.rings[h]|
    ensures var c := l.Cycle(h);
      && Ring(c) && l.Disjoint() && c[p + 1] == l.rings[h][p]
      && c[p + 1].next == c[After(p + 1, |c|)] && c[p + 1].prev == c[p]
      && c[p + 1] in c && c[p + 1].next in c && c[p + 1].prev in c
    ensures forall g | g in l.rings && g != h :: Ring(l.Cycle(g)) && forall x | x in l.Cycle(h) :: x !in l.Cycle(g)
    ensures forall x | x in l.loose :: x.prev == null && x.next == null && x !in l.Cycle(h)
  {
    Neighbours(l.Cycle(h), p + 1);
    forall x | x in l.Cycle(h) ensures x.next != null { MemberHasNext(l, h, x); }
  }

  lemma Removed(l: Lists, h: ListNode, p: nat)
    requires h in l.rings && p < |l.rings[h]| && l.Disjoint()
    requires Ring(WithoutNode(l.Cycle(h), p + 1))
    requires forall g | g in l.rings && g != h :: Ring(l.Cycle(g))
    requires forall y | y in l.loose || y == l.rings[h][p] :: y.prev == null && y.next == null
    ensures Holds(l.Remove(h, p))
  {
    var l', c := l.Remove(h, p), l.Cycle(h);
    assert l'.Cycle(h) == WithoutNode(c, p + 1);
    assert forall y | y in l'.Cycle(h) :: y in c;
    hide Ring;
    HoldsWith(l, h, l');
  }

  /** list_remove_head */
  method RemoveHead(list: ListNode, ghost l: Lists) returns (item: ListNode?)
    requires Holds(l) && list in l.rings
    modifies list, list.next, if list.next == null then {} else {list.next.next}
    ensures l.rings[list] == [] ==> item == null && Holds(l) && unchanged(list)
    ensures l.rings[list] != [] ==> item == l.rings[list][0] && Holds(l.Remove(list, 0))
  {
    hide Holds;
    Ends(l, list);
    if list.next != list {
      item := list.next;
      Delete(item, l, list, 0);
    } else {
      item := null;
    }
  }

  /** list_remove_tail */
  method RemoveTail(list: ListNode, ghost l: Lists) returns (item: ListNode?)
    requires Holds(l) && list in l.rings
    modifies list, list.prev, if list.prev == null then {} else {list.prev.prev}
    ensures var n := |l.rings[list]|;
      && (n == 0 ==> item == null && Holds(l) && unchanged(list))
      && (n > 0 ==> item == l.rings[list][n - 1] && Holds(l.Remove(list, n - 1)))
  {
    hide Holds;
    Ends(l, list);
    if list.prev != list {
      item := list.prev;
      Delete(item, l, list, |l.rings[list]| - 1);
    } else {
      item := null;
    }
  }

  /** Both ends of a list seen from its header, and the nodes beside them. */
  lemma Ends(l: Lists, h: ListNode)
    requires Holds(l) && h in l.rings
    ensures var s, n := l.rings[h], |l.rings[h]|;
      && (n == 0 ==> h.next == h && h.prev == h)
      && (n > 0 ==> h.next == s[0] && h.prev == s[n - 1] && h.next != h && h.prev != h)
      && (n > 0 ==> s[0].prev == h && s[0].next == (if n == 1 then h else s[1]))
      && (n > 0 ==> s[n - 1].next == h && s[n - 1].prev == (if n == 1 then h else s[n - 2]))
  {
    var c := l.Cycle(h);
    Neighbours(c, 0);
    if |c| > 1 {
      Neighbours(c, 1);
      Neighbours(c, |c| - 1);
      assert c[0] != c[1] && c[0] != c[|c| - 1];
    }
  }

  // ----- reading -----

  /** list_is_empty */
  function IsEmpty(list: ListNode, ghost l: Lists): (r: bool)
    requires Holds(l) && list in l.rings
    reads *
    ensures r <==> l.rings[list] == []
  {
    Ends(l, list);
    list.next == list
  }

  /** list_peek_head */
  function PeekHead(list: ListNode, ghost l: Lists): (r: ListNode?)
    requires Holds(l) && list in l.rings
    reads *
    ensures r == if l.rings[list] == [] then null else l.rings[list][0]
  {
    Ends(l, list);
    if list.next != list then list.next else null
  }

  /** list_peek_tail */
  function PeekTail(list: ListNode, ghost l: Lists): (r: ListNode?)
    requires Holds(l) && list in l.rings
    reads *
    ensures r == if l.rings[list] == [] then null else l.rings[list][|l.rings[list]| - 1]
  {
    Ends(l, list);
    if list.prev != list then list.prev else null
  }

  /** list_next: the member after node number `i` of the circle, if there is one. */
  function Next(list: ListNode, item: ListNode, ghost l: Lists, ghost i: nat): (r: ListNode?)
    requires Holds(l) && list in l.rings && i < |l.Cycle(list)| && l.Cycle(list)[i] == item
    reads *
    ensures var c := l.Cycle(list); r == if i + 1 < |c| then c[i + 1] else null
  {
    Beside(l, list, i);
    if item.next != list then item.next else null
  }

  /** list_prev */
  function Prev(list: ListNode, item: ListNode, ghost l: Lists, ghost i: nat): (r: ListNode?)
    requires Holds(l) && list in l.rings && i < |l.Cycle(list)| && l.Cycle(list)[i] == item
    reads *
    ensures var c := l.Cycle(list); r == if i == 1 || |c| == 1 then null else c[Before(i, |c|)]
  {
    Beside(l, list, i);
    if item.prev != list then item.prev else null
  }

  /** list_next_wrap goes round the members for ever, passing over the header. */
  function NextWrap(list: ListNode, item: ListNode, ghost l: Lists, ghost i: nat): (r: ListNode?)
    requires Holds(l) && list in l.rings && i < |l.Cycle(list)| && l.Cycle(list)[i] == item
    reads *
    ensures var s := l.rings[list];
      r == if s == [] then null else if i == 0 then s[0] else s[After(i - 1, |s|)]
  {
    WrapsRound(l, list, i);
    if item.next != list then item.next
    else if item.next.next != list then item.next.next
    else null
  }

  /** list_prev_wrap */
  function PrevWrap(list: ListNode, item: ListNode, ghost l: Lists, ghost i: nat): (r: ListNode?)
    requires Holds(l) && list in l.rings && i < |l.Cycle(list)| && l.Cycle(list)[i] == item
    reads *
    ensures var s := l.rings[list];
      r == if s == [] then null else if i == 0 then s[|s| - 1] else s[Before(i - 1, |s|)]
  {
    WrapsRound(l, list, i);
    if item.prev != list then item.prev
    else if item.prev.prev != list then item.prev.prev
    else null
  }

  lemma WrapsRound(l: Lists, h: ListNode, i: nat)
    requires Holds(l) && h in l.rings && i < |l.Cycle(h)|
    ensures var s, x := l.rings[h], l.Cycle(h)[i];
      && x.next != null && x.prev != null
      && (s == [] ==> x.next == h && x.prev == h && h.next == h && h.prev == h)
      && (s != [] ==> h.next != h && h.prev != h)
      && (s != [] ==>
        && (if x.next == h then h.next else x.next) == (if i == 0 then s[0] else s[After(i - 1, |s|)])
        && (if x.prev == h then h.prev else x.prev) == (if i == 0 then s[|s| - 1] else s[Before(i - 1, |s|)]))
  {
    hide Holds;
    Beside(l, h, i);
    Ends(l, h);
  }

  lemma Beside(l: Lists, h: ListNode, i: nat)
    requires Holds(l) && h in l.rings && i < |l.Cycle(h)|
    ensures var c := l.Cycle(h);
      && c[i].next == c[After(i, |c|)] && c[i].prev == c[Before(i, |c|)]
      && (c[i].next == h <==> i + 1 == |c|) && (c[i].prev == h <==> i == 1 || |c| == 1)
  {
    var c := l.Cycle(h);
    assert Ring(c);
    Neighbours(c, i);
    assert forall j | 0 < j < |c| :: c[j] != c[0];
  }

  /** list_length */
  method Length(list: ListNode, ghost l: Lists) returns (cnt: nat)
    requires Holds(l) && list in l.rings
    ensures cnt == |l.rings[list]|
  {
    hide Holds, Ring;
    Ends(l, list);
    cnt := 0;
    var node := list.next;
    while node != list
      invariant cnt <= |l.rings[list]|
      invariant node == if cnt < |l.rings[list]| then l.rings[list][cnt] else list
      decreases |l.rings[list]| - cnt
    {
      Beside(l, list, cnt + 1);
      cnt := cnt + 1;
      node := node.next;
    }
    if cnt < |l.rings[list]| { Beside(l, list, cnt); }
  }

  // ----- what the lists are -----

  /** At the header, adding is prepending or appending, and removing takes an end off. */
  lemma AtTheEnds(l: Lists, h: ListNode, x: ListNode)
    requires h in l.rings
    ensures var s := l.rings[h];
      && l.Insert(h, 0, x).rings == l.rings[h := [x] + s]
      && l.Insert(h, Before(0, |l.Cycle(h)|), x).rings == l.rings[h := s + [x]]
      && (s != [] ==>
        && l.Remove(h, 0).rings == l.rings[h := s[1..]]
        && l.Remove(h, |s| - 1).rings == l.rings[h := s[..|s| - 1]])
  {
    var s := l.rings[h];
    assert s[..0] + [x] + s[0..] == [x] + s && s[..|s|] + [x] + s[|s|..] == s + [x];
    if s != [] { assert s[..0] + s[1..] == s[1..] && s[..|s| - 1] + s[|s|..] == s[..|s| - 1]; }
  }

  /** In every list next and prev undo each other. */
  lemma NextPrevInverse(l: Lists, x: ListNode)
    requires Holds(l) && l.Linked(x)
    ensures x.next != null && x.prev != null && x.next.prev == x && x.prev.next == x
  {
    var h :| h in l.rings && x in l.Cycle(h);
    var c := l.Cycle(h);
    var i :| 0 <= i < |c| && c[i] == x;
    Circle(c, i);
  }

  lemma Circle(c: seq<ListNode>, i: nat)
    requires Ring(c) && i < |c|
    ensures var x := c[i]; x.next != null && x.prev != null && x.next.prev == x && x.prev.next == x
  {
    Neighbours(c, i);
    Neighbours(c, After(i, |c|));
    Neighbours(c, Before(i, |c|));
    hide Ring;
  }

  /** A node is in at most one list, at one place. */
  lemma InOnePlace(l: Lists, h: ListNode, i: nat, g: ListNode, j: nat)
    requires Holds(l) && h in l.rings && g in l.rings && i < |l.Cycle(h)| && j < |l.Cycle(g)|
    requires l.Cycle(h)[i] == l.Cycle(g)[j]
    ensures h == g && i == j
  {
    assert l.Cycle(h)[i] in l.Cycle(h) && l.Cycle(g)[j] in l.Cycle(g);
    assert Ring(l.Cycle(h));
  }

  /** A member that was removed is in no list. */
  lemma RemovedIsFree(l: Lists, h: ListNode, p: nat)
    requires Holds(l) && h in l.rings && p < |l.rings[h]|
    ensures !l.Remove(h, p).Linked(l.rings[h][p])
  {
    var l', x := l.Remove(h, p), l.rings[h][p];
    assert x == l.Cycle(h)[p + 1] && Ring(l.Cycle(h));
    forall g | g in l'.rings ensures x !in l'.Cycle(g) {
      forall j | 0 <= j < |l'.Cycle(g)| ensures l'.Cycle(g)[j] != x {
        if g != h {
          assert l'.Cycle(g) == l.Cycle(g);
          assert x in l.Cycle(h) && l.Cycle(g)[j] in l.Cycle(g);
        } else {
          var i := if j <= p then j else j + 1;
          assert l'.Cycle(h)[j] == l.Cycle(h)[i];
        }
      }
    }
  }

  /** The pointers determine the members: the same heap does not hold two different lists behind one
      header. */
  lemma PointersDetermineLists(l: Lists, l': Lists, h: ListNode)
    requires Holds(l) && Holds(l') && h in l.rings && h in l'.rings
    ensures l.rings[h] == l'.rings[h]
  {
    var c, c' := l.Cycle(h), l'.Cycle(h);
    assert Ring(c) && Ring(c');
    var n := if |c| < |c'| then |c| else |c'|;
    SameWalk(c, c', n);
    Neighbours(c, n - 1);
    Neighbours(c', n - 1);
    assert |c| == |c'|;
    assert c == c';
  }

  lemma {:induction false} SameWalk(c: seq<ListNode>, c': seq<ListNode>, n: nat)
    requires Ring(c) && Ring(c') && c != [] && c' != [] && c[0] == c'[0] && n <= |c| && n <= |c'|
    ensures forall i | 0 <= i < n :: c[i] == c'[i]
  {
    if n > 1 {
      SameWalk(c, c', n - 1);
      Neighbours(c, n - 2);
      Neighbours(c', n - 2);
    }
  }
}
