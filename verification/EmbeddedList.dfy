/**
 The sentinel-linked intrusive list that every wait list, ready list and child list is made of.
 Each list carries the sequence of nodes it stands for; `Valid` says that the links of the
 sentinel and of those nodes, followed in either direction, spell exactly that sequence.
 */
module EmbeddedList {
  import opened Basics

  /** A node off every list has null neighbours, the debug build's poison. */
  class Node {
    var prev: Node?
    var next: Node?

    constructor ()
      ensures prev == null && next == null
    {
      prev, next := null, null;
    }

    predicate Disconnected()
      reads this
    {
      next == null
    }

    /** Unlinks this node through its own links, whichever list it sits on. */
    method Pop()
      requires prev != null && next != null && prev != this && next != this
      modifies this, prev`next, next`prev
      ensures prev == null && next == null
      ensures old(prev).next == old(next) && old(next).prev == old(prev)
    {
      prev.next := next;
      next.prev := prev;
      prev, next := null, null;
    }
  }

  /** The sequence without its element at index i. */
  function Drop<T>(s: seq<T>, i: nat): seq<T>
    requires i < |s|
  {
    s[..i] + s[i + 1..]
  }

  class List {
    const sentinel: Node
    ghost var items: seq<Node>

    ghost predicate Valid()
      reads this, sentinel, items
    {
      && sentinel !in items && Once(items)
      && (items == [] ==> sentinel.next == sentinel && sentinel.prev == sentinel)
      && (items != [] ==>
            && sentinel.next == items[0] && items[0].prev == sentinel
            && sentinel.prev == items[|items| - 1] && items[|items| - 1].next == sentinel)
      && (forall i, j :: 0 <= i < j < |items| && j == i + 1 ==>
            items[i].next == items[j] && items[j].prev == items[i])
    }

    constructor ()
      ensures Valid() && items == [] && fresh(sentinel)
    {
      sentinel := new Node();
      items := [];
      new;
      sentinel.next := sentinel;
      sentinel.prev := sentinel;
    }

    predicate IsEmpty()
      requires Valid()
      reads this, sentinel, items
      ensures IsEmpty() <==> items == []
    {
      sentinel.next == sentinel
    }

    method Push(item: Node)
      requires Valid() && item !in items && item != sentinel && item.Disconnected()
      modifies this, sentinel, items, item
      ensures Valid() && items == old(items) + [item]
    {
      var last := sentinel.prev;
      last.next := item;
      item.prev := last;
      item.next := sentinel;
      sentinel.prev := item;
      items := items + [item];
    }

    method Pop() returns (first: Node?)
      requires Valid()
      modifies this, sentinel, items
      ensures Valid()
      ensures if old(items) == [] then first == null && items == []
              else first == old(items)[0] && items == old(items)[1..] && first.Disconnected() && first !in items
    {
      var head := sentinel.next;
      if head == sentinel {
        return null;
      }
      assert |items| > 1 ==> items[0].next == items[1];
      var second := head.next;
      sentinel.next := second;
      second.prev := sentinel;
      head.next, head.prev := null, null;
      items := items[1..];
      first := head;
    }

    method Remove(h: Node, ghost i: nat)
      requires Valid() && i < |items| && items[i] == h
      modifies this, sentinel, items
      ensures Valid() && items == Drop(old(items), i) && h.Disconnected() && h !in items
    {
      assert i > 0 ==> items[i - 1].next == items[i];
      assert i + 1 < |items| ==> items[i].next == items[i + 1];
      h.Pop();
      items := Drop(items, i);
    }

    /** The node at position i, found by walking. */
    method At(i: nat) returns (at: Node)
      requires Valid() && i < |items|
      ensures at == items[i]
    {
      at := sentinel.next;
      for k := 0 to i
        invariant at == items[k]
      {
        assert items[k].next == items[k + 1];
        at := at.next;
      }
    }

    method Peek() returns (first: Node)
      requires Valid() && items != []
      ensures first == items[0]
    {
      first := sentinel.next;
    }

    /** The element after h, or null when h is the last one. */
    method Next(h: Node, ghost i: nat) returns (n: Node?)
      requires Valid() && i < |items| && items[i] == h
      ensures n == if i + 1 < |items| then items[i + 1] else null
    {
      n := h.next;
      if n == sentinel { n := null; }
    }

    method Size() returns (n: nat)
      requires Valid()
      ensures n == |items|
    {
      n := 0;
      var at := sentinel.next;
      while at != sentinel
        invariant n <= |items| && at == if n < |items| then items[n] else sentinel
        decreases |items| - n
      {
        at := at.next;
        n := n + 1;
      }
    }

    method Contains(h: Node) returns (found: bool)
      requires Valid() && h != sentinel
      ensures found <==> h in items
    {
      var at := sentinel.next;
      ghost var n := 0;
      while at != sentinel
        invariant n <= |items| && at == (if n < |items| then items[n] else sentinel) && h !in items[..n]
        decreases |items| - n
      {
        if at == h { return true; }
        at := at.next;
        n := n + 1;
      }
      return false;
    }

    /** Walks forwards and then backwards; the backward walk never outruns the forward count. */
    method SanityCheck()
      requires Valid()
    {
      var n: int := Size();
      var at := sentinel.prev;
      ghost var left := |items|;
      while at != sentinel
        invariant n == left && 0 <= left <= |items| && at == if left > 0 then items[left - 1] else sentinel
        decreases left
      {
        at := at.prev;
        left := left - 1;
        assert !(0 > n);
        n := n - 1;
      }
    }

    /** Takes over every node of `other`, which is left empty. */
    method Steal(other: List)
      requires Valid() && other.Valid() && items == []
      requires other != this ==> sentinel != other.sentinel && sentinel !in other.items
      modifies this, sentinel, other, other.sentinel, other.items
      ensures Valid() && other.Valid()
      ensures items == old(other.items) && other.items == []
    {
      if other.IsEmpty() {
        return;
      }
      sentinel.next := other.sentinel.next;
      sentinel.prev := other.sentinel.prev;
      sentinel.next.prev := sentinel;
      sentinel.prev.next := sentinel;
      other.sentinel.next := other.sentinel;
      other.sentinel.prev := other.sentinel;
      items, other.items := other.items, [];
    }
  }

  // ---------------------------------------------------------------------------------------
  // Programs over several lists
  // ---------------------------------------------------------------------------------------

  /** Lists are named by position. */
  datatype Op = Push(l: nat, item: Node) | Pop(l: nat) | Remove(l: nat, i: nat) | Steal(dst: nat, src: nat)

  type Contents = seq<seq<Node>>

  /** What the C++ asserts before each operation: a pushed node is off every list, a thief is empty. */
  ghost predicate Allowed(c: Contents, op: Op) {
    match op
    case Push(l, item) => l < |c| && forall k :: 0 <= k < |c| ==> item !in c[k]
    case Pop(l) => l < |c|
    case Remove(l, i) => l < |c| && i < |c[l]|
    case Steal(dst, src) => dst < |c| && src < |c| && c[dst] == []
  }

  ghost function Apply(c: Contents, op: Op): Contents
    requires Allowed(c, op)
  {
    match op
    case Push(l, item) => c[l := c[l] + [item]]
    case Pop(l) => if c[l] == [] then c else c[l := c[l][1..]]
    case Remove(l, i) => c[l := Drop(c[l], i)]
    case Steal(dst, src) => c[src := []][dst := c[src]]
  }

  ghost predicate AllAllowed(c: Contents, program: seq<Op>)
    decreases |program|
  {
    program == [] || (Allowed(c, program[0]) && AllAllowed(Apply(c, program[0]), program[1..]))
  }

  ghost function Exec(c: Contents, program: seq<Op>): Contents
    requires AllAllowed(c, program)
    decreases |program|
  {
    if program == [] then c else Exec(Apply(c, program[0]), program[1..])
  }

  ghost function ContentsOf(lists: seq<List>): Contents
    reads lists
  {
    seq(|lists|, k requires 0 <= k < |lists| reads lists => lists[k].items)
  }

  ghost predicate Owns(items: seq<Node>, owner: map<Node, nat>, k: nat) {
    forall n :: n in items ==> n in owner && owner[n] == k
  }

  /** Every node on a list, sentinels included, has one list as its owner and stands on it once. */
  ghost predicate Ownership(c: Contents, sentinels: seq<Node>, owner: map<Node, nat>) {
    && |c| == |sentinels|
    && (forall k :: 0 <= k < |c| ==> sentinels[k] in owner && owner[sentinels[k]] == k && sentinels[k] !in c[k])
    && (forall k :: 0 <= k < |c| ==> Once(c[k]) && Owns(c[k], owner, k))
    && (forall n :: n in owner ==> owner[n] < |c| && (n == sentinels[owner[n]] || n in c[owner[n]]))
  }

  ghost function NextOwner(c: Contents, owner: map<Node, nat>, op: Op): map<Node, nat>
    requires Allowed(c, op)
  {
    match op
    case Push(l, item) => owner[item := l]
    case Pop(l) => if c[l] == [] then owner else owner - {c[l][0]}
    case Remove(l, i) => owner - {c[l][i]}
    case Steal(dst, src) => map n | n in owner :: if n in c[src] then dst else owner[n]
  }

  lemma PushOwnership(c: Contents, sentinels: seq<Node>, owner: map<Node, nat>, l: nat, item: Node)
    requires Ownership(c, sentinels, owner) && Allowed(c, Push(l, item)) && item !in sentinels
    ensures item !in owner
    ensures Ownership(Apply(c, Push(l, item)), sentinels, owner[item := l])
  {
    assert forall k :: 0 <= k < |c| ==> item !in c[k];
    var c', owner' := Apply(c, Push(l, item)), owner[item := l];
    forall k | 0 <= k < |c'| ensures Once(c'[k]) && Owns(c'[k], owner', k) { assert Owns(c[k], owner, k); }
    assert item in c'[l];
  }

  /** Taking the node at index i off list l. */
  lemma DropOwnership(c: Contents, sentinels: seq<Node>, owner: map<Node, nat>, l: nat, i: nat)
    requires Ownership(c, sentinels, owner) && l < |c| && i < |c[l]|
    ensures Ownership(c[l := Drop(c[l], i)], sentinels, owner - {c[l][i]})
    ensures c[l][i] in owner && c[l][i] !in Drop(c[l], i)
  {
    var h := c[l][i];
    var c', owner' := c[l := Drop(c[l], i)], owner - {h};
    assert h in c[l] && Owns(c[l], owner, l);
    assert c[l] == c[l][..i] + [h] + c[l][i + 1..];
    forall k | 0 <= k < |c'| ensures Once(c'[k]) && Owns(c'[k], owner', k) { assert Owns(c[k], owner, k); }
    forall n | n in owner' ensures owner'[n] < |c'| && (n == sentinels[owner'[n]] || n in c'[owner'[n]]) {
      assert n in c[l] && n != h ==> n in c[l][..i] || n in c[l][i + 1..];
    }
  }

  lemma StealOwnership(c: Contents, sentinels: seq<Node>, owner: map<Node, nat>, dst: nat, src: nat)
    requires Ownership(c, sentinels, owner) && Allowed(c, Steal(dst, src))
    ensures Ownership(Apply(c, Steal(dst, src)), sentinels, NextOwner(c, owner, Steal(dst, src)))
  {
    var c', owner' := Apply(c, Steal(dst, src)), NextOwner(c, owner, Steal(dst, src));
    assert Owns(c[src], owner, src);
    assert sentinels[dst] !in c[src];
    forall k | 0 <= k < |c'| ensures Once(c'[k]) && Owns(c'[k], owner', k) {
      assert Owns(c[k], owner, k);
    }
  }

  lemma OwnershipKept(c: Contents, sentinels: seq<Node>, owner: map<Node, nat>, op: Op)
    requires Ownership(c, sentinels, owner) && Allowed(c, op)
    requires op.Push? ==> op.item !in sentinels
    ensures Ownership(Apply(c, op), sentinels, NextOwner(c, owner, op))
    ensures op.Push? ==> op.item !in owner
    ensures NextOwner(c, owner, op).Keys <= owner.Keys + if op.Push? then {op.item} else {}
  {
    hide Ownership;
    match op
    case Push(l, item) => PushOwnership(c, sentinels, owner, l, item);
    case Pop(l) =>
      if c[l] != [] {
        DropOwnership(c, sentinels, owner, l, 0);
        assert Drop(c[l], 0) == c[l][1..];
      }
    case Remove(l, i) => DropOwnership(c, sentinels, owner, l, i);
    case Steal(dst, src) => StealOwnership(c, sentinels, owner, dst, src);
  }

  ghost function SentinelsOf(lists: seq<List>): seq<Node> {
    seq(|lists|, k requires 0 <= k < |lists| => lists[k].sentinel)
  }

  ghost predicate Within(items: seq<Node>, nodes: set<Node>) {
    forall n :: n in items ==> n in nodes
  }

  /** The links of every list spell its contents, lists share nothing, other nodes are off every list. */
  ghost predicate World(lists: seq<List>, nodes: set<Node>, owner: map<Node, nat>)
    reads lists, nodes
  {
    && owner.Keys <= nodes
    && Ownership(ContentsOf(lists), SentinelsOf(lists), owner)
    && (forall k :: 0 <= k < |lists| ==> lists[k].sentinel in owner && Within(lists[k].items, owner.Keys))
    && (forall k :: 0 <= k < |lists| ==> lists[k].Valid())
    && (forall n :: n in nodes && n !in owner ==> n.Disconnected())
  }

  ghost predicate Known(lists: seq<List>, nodes: set<Node>, op: Op) {
    op.Push? ==> op.item in nodes && op.item !in SentinelsOf(lists)
  }

  twostate lemma StillValid(l: List)
    requires old(l.Valid()) && l.items == old(l.items)
    requires l.sentinel.next == old(l.sentinel.next) && l.sentinel.prev == old(l.sentinel.prev)
    requires forall n :: n in l.items ==> n.next == old(n.next) && n.prev == old(n.prev)
    ensures l.Valid()
  {
    assert forall i :: 0 <= i < |l.items| ==> l.items[i] in l.items;
  }

  lemma Linked(lists: seq<List>, owner: map<Node, nat>)
    requires Ownership(ContentsOf(lists), SentinelsOf(lists), owner)
    ensures forall k :: 0 <= k < |lists| ==> lists[k].sentinel in owner && Within(lists[k].items, owner.Keys)
  {
    forall k | 0 <= k < |lists| ensures lists[k].sentinel in owner && Within(lists[k].items, owner.Keys) {
      assert Owns(ContentsOf(lists)[k], owner, k) && SentinelsOf(lists)[k] in owner;
    }
  }

  /** The two lists share no node, sentinels included. */
  ghost predicate Apart(a: List, b: List)
    reads a, b
  {
    && a != b && a.sentinel != b.sentinel && a.sentinel !in b.items && b.sentinel !in a.items
    && forall n :: n in b.items ==> n !in a.items
  }

  lemma KeptApart(lists: seq<List>, nodes: set<Node>, owner: map<Node, nat>, l: nat, k: nat)
    requires World(lists, nodes, owner) && l < |lists| && k < |lists| && k != l
    ensures Apart(lists[l], lists[k])
  {
    hide List.Valid;
    var c := ContentsOf(lists);
    assert Owns(c[l], owner, l) && Owns(c[k], owner, k);
    assert SentinelsOf(lists)[l] == lists[l].sentinel && SentinelsOf(lists)[k] == lists[k].sentinel;
  }

  method PushStep(lists: seq<List>, ghost nodes: set<Node>, ghost owner: map<Node, nat>, l: nat, item: Node)
    returns (ghost owner': map<Node, nat>)
    requires World(lists, nodes, owner) && Allowed(ContentsOf(lists), Push(l, item)) && Known(lists, nodes, Push(l, item))
    modifies lists, nodes
    ensures World(lists, nodes, owner') && ContentsOf(lists) == Apply(old(ContentsOf(lists)), Push(l, item))
  {
    hide List.Valid; hide Ownership;
    ghost var c := ContentsOf(lists);
    OwnershipKept(c, SentinelsOf(lists), owner, Push(l, item));
    assert forall k :: 0 <= k < |lists| ==> item != SentinelsOf(lists)[k] && item !in c[k];
    forall k | 0 <= k < |lists| && k != l ensures Apart(lists[l], lists[k]) { KeptApart(lists, nodes, owner, l, k); }
    lists[l].Push(item);
    forall k | 0 <= k < |lists| && k != l ensures lists[k].items == old(lists[k].items) && lists[k].Valid() {
      StillValid(lists[k]);
    }
    owner' := NextOwner(c, owner, Push(l, item));
    OwnershipKept(c, SentinelsOf(lists), owner, Push(l, item));
    assert ContentsOf(lists) == Apply(c, Push(l, item));
    Linked(lists, owner');
  }

  method PopStep(lists: seq<List>, ghost nodes: set<Node>, ghost owner: map<Node, nat>, l: nat)
    returns (ghost owner': map<Node, nat>)
    requires World(lists, nodes, owner) && Allowed(ContentsOf(lists), Pop(l))
    modifies lists, nodes
    ensures World(lists, nodes, owner') && ContentsOf(lists) == Apply(old(ContentsOf(lists)), Pop(l))
  {
    hide List.Valid; hide Ownership;
    ghost var c := ContentsOf(lists);
    forall k | 0 <= k < |lists| && k != l ensures Apart(lists[l], lists[k]) { KeptApart(lists, nodes, owner, l, k); }
    var first := lists[l].Pop();
    forall k | 0 <= k < |lists| && k != l ensures lists[k].items == old(lists[k].items) && lists[k].Valid() {
      StillValid(lists[k]);
    }
    owner' := NextOwner(c, owner, Pop(l));
    OwnershipKept(c, SentinelsOf(lists), owner, Pop(l));
    assert ContentsOf(lists) == Apply(c, Pop(l));
    Linked(lists, owner');
  }

  method RemoveStep(lists: seq<List>, ghost nodes: set<Node>, ghost owner: map<Node, nat>, l: nat, i: nat)
    returns (ghost owner': map<Node, nat>)
    requires World(lists, nodes, owner) && Allowed(ContentsOf(lists), Remove(l, i))
    modifies lists, nodes
    ensures World(lists, nodes, owner') && ContentsOf(lists) == Apply(old(ContentsOf(lists)), Remove(l, i))
  {
    hide List.Valid; hide Ownership;
    ghost var c := ContentsOf(lists);
    forall k | 0 <= k < |lists| && k != l ensures Apart(lists[l], lists[k]) { KeptApart(lists, nodes, owner, l, k); }
    var h := lists[l].At(i);
    lists[l].Remove(h, i);
    forall k | 0 <= k < |lists| && k != l ensures lists[k].items == old(lists[k].items) && lists[k].Valid() {
      StillValid(lists[k]);
    }
    owner' := NextOwner(c, owner, Remove(l, i));
    OwnershipKept(c, SentinelsOf(lists), owner, Remove(l, i));
    assert ContentsOf(lists) == Apply(c, Remove(l, i));
    Linked(lists, owner');
  }

  method StealStep(lists: seq<List>, ghost nodes: set<Node>, ghost owner: map<Node, nat>, dst: nat, src: nat)
    returns (ghost owner': map<Node, nat>)
    requires World(lists, nodes, owner) && Allowed(ContentsOf(lists), Steal(dst, src))
    modifies lists, nodes
    ensures World(lists, nodes, owner') && ContentsOf(lists) == Apply(old(ContentsOf(lists)), Steal(dst, src))
  {
    hide List.Valid; hide Ownership;
    ghost var c := ContentsOf(lists);
    forall k | 0 <= k < |lists| && k != dst ensures Apart(lists[dst], lists[k]) { KeptApart(lists, nodes, owner, dst, k); }
    forall k | 0 <= k < |lists| && k != src ensures Apart(lists[src], lists[k]) { KeptApart(lists, nodes, owner, src, k); }
    lists[dst].Steal(lists[src]);
    forall k | 0 <= k < |lists| && k != dst && k != src
      ensures lists[k].items == old(lists[k].items) && lists[k].Valid()
    {
      StillValid(lists[k]);
    }
    owner' := NextOwner(c, owner, Steal(dst, src));
    OwnershipKept(c, SentinelsOf(lists), owner, Steal(dst, src));
    assert ContentsOf(lists) == Apply(c, Steal(dst, src));
    Linked(lists, owner');
  }

  method Step(lists: seq<List>, ghost nodes: set<Node>, ghost owner: map<Node, nat>, op: Op)
    returns (ghost owner': map<Node, nat>)
    requires World(lists, nodes, owner) && Allowed(ContentsOf(lists), op) && Known(lists, nodes, op)
    modifies lists, nodes
    ensures World(lists, nodes, owner') && ContentsOf(lists) == Apply(old(ContentsOf(lists)), op)
  {
    hide World;
    match op
    case Push(l, item) => owner' := PushStep(lists, nodes, owner, l, item);
    case Pop(l) => owner' := PopStep(lists, nodes, owner, l);
    case Remove(l, i) => owner' := RemoveStep(lists, nodes, owner, l, i);
    case Steal(dst, src) => owner' := StealStep(lists, nodes, owner, dst, src);
  }

  /** Any program of list operations does to the links what `Exec` does to the sequences. */
  method Run(lists: seq<List>, ghost nodes: set<Node>, ghost owner: map<Node, nat>, program: seq<Op>)
    returns (ghost owner': map<Node, nat>)
    requires World(lists, nodes, owner) && AllAllowed(ContentsOf(lists), program)
    requires forall k :: 0 <= k < |program| ==> Known(lists, nodes, program[k])
    modifies lists, nodes
    ensures World(lists, nodes, owner') && ContentsOf(lists) == Exec(old(ContentsOf(lists)), program)
  {
    hide World;
    ghost var start := ContentsOf(lists);
    owner' := owner;
    var k := 0;
    while k < |program|
      invariant 0 <= k <= |program|
      invariant World(lists, nodes, owner')
      invariant AllAllowed(ContentsOf(lists), program[k..])
      invariant Exec(ContentsOf(lists), program[k..]) == Exec(start, program)
    {
      assert program[k..][0] == program[k] && program[k..][1..] == program[k + 1..];
      owner' := Step(lists, nodes, owner', program[k]);
      k := k + 1;
    }
  }

  // ---------------------------------------------------------------------------------------
  // Making lists and nodes
  // ---------------------------------------------------------------------------------------

  method NewList(lists: seq<List>, ghost nodes: set<Node>, ghost owner: map<Node, nat>)
    returns (l: List, ghost nodes': set<Node>, ghost owner': map<Node, nat>)
    requires World(lists, nodes, owner)
    ensures fresh(l) && fresh(l.sentinel) && nodes' == nodes + {l.sentinel}
    ensures World(lists + [l], nodes', owner') && ContentsOf(lists + [l]) == ContentsOf(lists) + [[]]
  {
    l := new List();
    nodes', owner' := nodes + {l.sentinel}, owner[l.sentinel := |lists|];
    hide List.Valid;
    assert l.sentinel !in owner;
    ListAdded(lists, l, owner);
  }

  lemma ListAdded(lists: seq<List>, l: List, owner: map<Node, nat>)
    requires Ownership(ContentsOf(lists), SentinelsOf(lists), owner) && l.sentinel !in owner && l.items == []
    ensures ContentsOf(lists + [l]) == ContentsOf(lists) + [[]] && SentinelsOf(lists + [l]) == SentinelsOf(lists) + [l.sentinel]
    ensures Ownership(ContentsOf(lists + [l]), SentinelsOf(lists + [l]), owner[l.sentinel := |lists|])
  {
    var c, c' := ContentsOf(lists), ContentsOf(lists + [l]);
    assert c' == c + [[]] && SentinelsOf(lists + [l]) == SentinelsOf(lists) + [l.sentinel];
    forall k | 0 <= k < |c'| ensures Once(c'[k]) && Owns(c'[k], owner[l.sentinel := |lists|], k) {
      if k < |c| { assert Owns(c[k], owner, k); }
    }
  }

  method NewNode(lists: seq<List>, ghost nodes: set<Node>, ghost owner: map<Node, nat>)
    returns (n: Node, ghost nodes': set<Node>)
    requires World(lists, nodes, owner)
    ensures fresh(n) && nodes' == nodes + {n} && World(lists, nodes', owner)
    ensures ContentsOf(lists) == old(ContentsOf(lists)) && n !in SentinelsOf(lists)
  {
    hide List.Valid; hide Ownership;
    n := new Node();
    nodes' := nodes + {n};
  }

  /** Any number of empty lists and of loose nodes, ready for any program. */
  method Build(listCount: nat, nodeCount: nat)
    returns (lists: seq<List>, items: seq<Node>, ghost nodes: set<Node>, ghost owner: map<Node, nat>)
    ensures World(lists, nodes, owner) && |lists| == listCount && |items| == nodeCount
    ensures ContentsOf(lists) == seq(listCount, _ => [])
    ensures Once(items) && forall n :: n in items ==> n in nodes && n !in SentinelsOf(lists)
  {
    lists, items, nodes, owner := [], [], {}, map[];
    assert World(lists, nodes, owner);
    while |lists| < listCount
      invariant World(lists, nodes, owner) && |lists| <= listCount && ContentsOf(lists) == seq(|lists|, _ => [])
    {
      var l;
      l, nodes, owner := NewList(lists, nodes, owner);
      lists := lists + [l];
    }
    while |items| < nodeCount
      invariant World(lists, nodes, owner) && |items| <= nodeCount && ContentsOf(lists) == seq(listCount, _ => [])
      invariant Once(items) && forall n :: n in items ==> n in nodes && n !in SentinelsOf(lists)
    {
      var n;
      n, nodes := NewNode(lists, nodes, owner);
      items := items + [n];
    }
  }
}
