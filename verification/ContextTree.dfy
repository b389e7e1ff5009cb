/**
 The contexts of a cooperator as a forest: each context lists its children and points to its parent.
 Killing a context walks its subtree without recursion; a context is destroyed only after its children.
 */
module ContextTree {
  import opened Basics
  import opened Runs
  import S = Scheduler

  type Ctx = S.Ctx

  /**
   A running context, or one whose destructor has detached it and killed its subtree, waits for its last
   child, or has just been given it.
   */
  datatype Phase = Live | Dying | Waiting | Woken

  /** `held` is the lastChild coordinator; `born` (history) orders contexts by creation. */
  datatype Node = Node(parent: Option<Ctx>, children: seq<Ctx>, held: bool, killed: bool, phase: Phase, born: nat)

  datatype Forest = Forest(nodes: map<Ctx, Node>, clock: nat)

  // ---------------------------------------------------------------------------------------
  // The shape
  // ---------------------------------------------------------------------------------------

  /** A context's children point back to it, and it is among the children of its parent. */
  ghost predicate NodeOk(nodes: map<Ctx, Node>, c: Ctx)
    requires c in nodes
  {
    && Once(nodes[c].children)
    && (forall d :: d in nodes[c].children ==> d in nodes && nodes[d].parent == Some(c) && nodes[c].born < nodes[d].born)
    && (nodes[c].parent.Some? ==> nodes[c].parent.value in nodes && c in nodes[nodes[c].parent.value].children)
  }

  ghost predicate Shape(f: Forest) {
    forall c :: c in f.nodes ==> NodeOk(f.nodes, c) && f.nodes[c].born < f.clock
  }

  /** The recursive post-order: the subtrees of the children in order, then the context. */
  function Post(f: Forest, c: Ctx): seq<Ctx>
    requires Shape(f) && c in f.nodes
    decreases f.clock - f.nodes[c].born, |f.nodes[c].children| + 1
  {
    Posts(f, c, 0) + [c]
  }

  /** The post-orders of the children of c from the i-th on. */
  function Posts(f: Forest, c: Ctx, i: nat): seq<Ctx>
    requires Shape(f) && c in f.nodes && i <= |f.nodes[c].children|
    decreases f.clock - f.nodes[c].born, |f.nodes[c].children| - i
  {
    assert NodeOk(f.nodes, c);
    if i == |f.nodes[c].children| then [] else Post(f, f.nodes[c].children[i]) + Posts(f, c, i + 1)
  }

  /** c is `top` or below it. */
  predicate Under(f: Forest, top: Ctx, c: Ctx)
    requires Shape(f) && c in f.nodes
    decreases f.nodes[c].born
  {
    assert NodeOk(f.nodes, c);
    c == top || (f.nodes[c].parent.Some? &&
                 assert NodeOk(f.nodes, f.nodes[c].parent.value); Under(f, top, f.nodes[c].parent.value))
  }

  function IndexOf(s: seq<Ctx>, c: Ctx): (i: nat)
    requires c in s
    ensures i < |s| && s[i] == c && c !in s[..i]
  {
    if s[0] == c then 0 else 1 + IndexOf(s[1..], c)
  }

  /** What the walk from `top` still visits after c: later siblings' subtrees, the parent, and so on up. */
  function After(f: Forest, top: Ctx, c: Ctx): seq<Ctx>
    requires Shape(f) && c in f.nodes && Under(f, top, c)
    decreases f.nodes[c].born
  {
    if c == top then []
    else
      var p := f.nodes[c].parent.value;
      assert NodeOk(f.nodes, c) && NodeOk(f.nodes, p);
      Posts(f, p, IndexOf(f.nodes[p].children, c) + 1) + [p] + After(f, top, p)
  }

  // ---------------------------------------------------------------------------------------
  // The walk
  // ---------------------------------------------------------------------------------------

  function Descend(f: Forest, c: Ctx): (leaf: Ctx)
    requires Shape(f) && c in f.nodes
    ensures leaf in f.nodes
    decreases f.clock - f.nodes[c].born
  {
    assert NodeOk(f.nodes, c);
    if f.nodes[c].children == [] then c else Descend(f, f.nodes[c].children[0])
  }

  lemma ChildUnder(f: Forest, top: Ctx, c: Ctx, i: nat)
    requires Shape(f) && c in f.nodes && Under(f, top, c) && i < |f.nodes[c].children|
    ensures f.nodes[c].children[i] in f.nodes && Under(f, top, f.nodes[c].children[i])
  {
    assert NodeOk(f.nodes, c);
  }

  /** What is under `top` was created no earlier. */
  lemma {:induction false} BornBelow(f: Forest, top: Ctx, c: Ctx)
    requires Shape(f) && c in f.nodes && Under(f, top, c) && top in f.nodes
    ensures f.nodes[top].born <= f.nodes[c].born && (c != top ==> f.nodes[top].born < f.nodes[c].born)
    decreases f.nodes[c].born
  {
    assert NodeOk(f.nodes, c);
    if c != top {
      assert NodeOk(f.nodes, f.nodes[c].parent.value);
      BornBelow(f, top, f.nodes[c].parent.value);
    }
  }

  /** After the i-th child come the later children's subtrees, then the parent. */
  lemma AfterChild(f: Forest, top: Ctx, c: Ctx, i: nat)
    requires Shape(f) && c in f.nodes && Under(f, top, c) && top in f.nodes && i < |f.nodes[c].children|
    ensures var d := f.nodes[c].children[i];
            && d in f.nodes && Under(f, top, d) && d != top
            && After(f, top, d) == Posts(f, c, i + 1) + [c] + After(f, top, c)
  {
    assert NodeOk(f.nodes, c);
    var d := f.nodes[c].children[i];
    assert NodeOk(f.nodes, d);
    ChildUnder(f, top, c, i);
    BornBelow(f, top, c);
    assert IndexOf(f.nodes[c].children, d) == i;
  }

  lemma Regroup(a: seq<Ctx>, b: seq<Ctx>, c: seq<Ctx>, d: seq<Ctx>)
    ensures ((a + b) + c) + d == a + ((b + c) + d)
  {
  }

  /** Going down to the leftmost leaf skips nothing. */
  lemma {:induction false} DescendKeeps(f: Forest, top: Ctx, c: Ctx)
    requires Shape(f) && c in f.nodes && Under(f, top, c) && top in f.nodes
    ensures var leaf := Descend(f, c);
            Under(f, top, leaf) && Post(f, c) + After(f, top, c) == [leaf] + After(f, top, leaf)
    decreases f.clock - f.nodes[c].born
  {
    var children := f.nodes[c].children;
    if children == [] {
      assert Post(f, c) == [c];
    } else {
      var d := children[0];
      AfterChild(f, top, c, 0);
      assert f.nodes[c].born < f.nodes[d].born < f.clock by { assert NodeOk(f.nodes, c); }
      DescendKeeps(f, top, d);
      assert Post(f, c) == Post(f, d) + Posts(f, c, 1) + [c];
      hide After; hide Post; hide Posts; hide NodeOk;
      Regroup(Post(f, d), Posts(f, c, 1), [c], After(f, top, c));
      assert Descend(f, c) == Descend(f, d);
    }
  }

  /** The walk's next stop: the leftmost leaf of the next sibling, or the parent. */
  function NextStop(f: Forest, c: Ctx): (n: Ctx)
    requires Shape(f) && c in f.nodes && f.nodes[c].parent.Some?
    ensures n in f.nodes
  {
    assert NodeOk(f.nodes, c);
    var p := f.nodes[c].parent.value;
    assert NodeOk(f.nodes, p);
    var i := IndexOf(f.nodes[p].children, c);
    if i + 1 < |f.nodes[p].children| then Descend(f, f.nodes[p].children[i + 1]) else p
  }

  lemma NextStopIsNext(f: Forest, top: Ctx, c: Ctx)
    requires Shape(f) && c in f.nodes && top in f.nodes && Under(f, top, c) && c != top
    ensures f.nodes[c].parent.Some?
    ensures var n := NextStop(f, c); Under(f, top, n) && After(f, top, c) == [n] + After(f, top, n)
  {
    assert NodeOk(f.nodes, c);
    var p := f.nodes[c].parent.value;
    assert NodeOk(f.nodes, p);
    var i := IndexOf(f.nodes[p].children, c);
    AfterChild(f, top, p, i);
    if i + 1 < |f.nodes[p].children| {
      var d := f.nodes[p].children[i + 1];
      AfterChild(f, top, p, i + 1);
      DescendKeeps(f, top, d);
      assert Posts(f, p, i + 1) == Post(f, d) + Posts(f, p, i + 2);
      hide After; hide Posts; hide Post;
      Regroup(Post(f, d), Posts(f, p, i + 2), [p], After(f, top, p));
    } else {
      assert Posts(f, p, i + 1) == [];
      hide After; hide Posts;
      assert ([] + [p]) + After(f, top, p) == [p] + After(f, top, p);
    }
  }

  // ---------------------------------------------------------------------------------------
  // The post-order visits the subtree, once each, children first
  // ---------------------------------------------------------------------------------------

  lemma {:induction false} UnderTrans(f: Forest, top: Ctx, mid: Ctx, c: Ctx)
    requires Shape(f) && c in f.nodes && mid in f.nodes && Under(f, mid, c) && Under(f, top, mid)
    ensures Under(f, top, c)
    decreases f.nodes[c].born
  {
    assert NodeOk(f.nodes, c);
    if c != mid {
      assert NodeOk(f.nodes, f.nodes[c].parent.value);
      UnderTrans(f, top, mid, f.nodes[c].parent.value);
    }
  }

  /** The child of `top` through which c hangs below it. */
  lemma {:induction false} Branch(f: Forest, top: Ctx, c: Ctx) returns (k: nat)
    requires Shape(f) && c in f.nodes && top in f.nodes && Under(f, top, c) && c != top
    ensures k < |f.nodes[top].children| && f.nodes[top].children[k] in f.nodes && Under(f, f.nodes[top].children[k], c)
    decreases f.nodes[c].born
  {
    assert NodeOk(f.nodes, c);
    var p := f.nodes[c].parent.value;
    assert NodeOk(f.nodes, p);
    if p == top {
      k := IndexOf(f.nodes[p].children, c);
    } else {
      k := Branch(f, top, p);
    }
  }

  lemma {:induction false} PostsMembers(f: Forest, c: Ctx, i: nat, x: Ctx)
    requires Shape(f) && c in f.nodes && i <= |f.nodes[c].children|
    ensures forall d :: d in f.nodes[c].children ==> d in f.nodes
    ensures x in Posts(f, c, i) <==> exists k :: i <= k < |f.nodes[c].children| && x in Post(f, f.nodes[c].children[k])
    decreases |f.nodes[c].children| - i
  {
    assert NodeOk(f.nodes, c);
    if i < |f.nodes[c].children| {
      PostsMembers(f, c, i + 1, x);
      hide Post;
    }
  }

  lemma {:induction false} PostMembers(f: Forest, c: Ctx, x: Ctx)
    requires Shape(f) && c in f.nodes
    ensures x in Post(f, c) <==> x in f.nodes && Under(f, c, x)
    decreases f.clock - f.nodes[c].born
  {
    assert NodeOk(f.nodes, c);
    PostsMembers(f, c, 0, x);
    var children := f.nodes[c].children;
    forall k | 0 <= k < |children| ensures x in Post(f, children[k]) <==> x in f.nodes && Under(f, children[k], x) {
      assert children[k] in f.nodes && f.nodes[c].born < f.nodes[children[k]].born < f.clock;
      PostMembers(f, children[k], x);
    }
    if x in f.nodes && Under(f, c, x) && x != c {
      var k := Branch(f, c, x);
    }
    forall k | 0 <= k < |children| && x in Post(f, children[k]) ensures Under(f, c, x) {
      ChildUnder(f, c, c, k);
      UnderTrans(f, c, children[k], x);
    }
  }

  /** The subtrees of two children have nothing in common. */
  lemma {:induction false} Siblings(f: Forest, c: Ctx, k: nat, m: nat, x: Ctx)
    requires Shape(f) && c in f.nodes && x in f.nodes && k < |f.nodes[c].children| && m < |f.nodes[c].children| && k != m
    ensures f.nodes[c].children[k] in f.nodes && f.nodes[c].children[m] in f.nodes
    ensures !(Under(f, f.nodes[c].children[k], x) && Under(f, f.nodes[c].children[m], x))
    decreases f.nodes[x].born
  {
    assert NodeOk(f.nodes, c) && NodeOk(f.nodes, x);
    var dk, dm := f.nodes[c].children[k], f.nodes[c].children[m];
    assert dk != dm;
    if Under(f, dk, x) && Under(f, dm, x) {
      if x == dk {
        BornBelow(f, dm, c);
      } else if x == dm {
        BornBelow(f, dk, c);
      } else {
        assert NodeOk(f.nodes, f.nodes[x].parent.value);
        Siblings(f, c, k, m, f.nodes[x].parent.value);
      }
    }
  }

  /** y is neither x nor below it. */
  ghost predicate Apart(f: Forest, x: Ctx, y: Ctx)
    requires Shape(f)
  {
    x in f.nodes && y in f.nodes && !Under(f, x, y)
  }

  /** Nothing in the sequence is below (or the same as) something earlier in it. */
  ghost predicate ChildrenFirst(f: Forest, s: seq<Ctx>)
    requires Shape(f)
  {
    forall i, j :: 0 <= i < j < |s| ==> Apart(f, s[i], s[j])
  }

  lemma ChildrenFirstConcat(f: Forest, a: seq<Ctx>, b: seq<Ctx>)
    requires Shape(f) && ChildrenFirst(f, a) && ChildrenFirst(f, b)
    requires forall x, y :: x in a && y in b ==> Apart(f, x, y)
    ensures ChildrenFirst(f, a + b)
  {
    var s := a + b;
    forall i, j | 0 <= i < j < |s| ensures Apart(f, s[i], s[j]) {
      if j < |a| {
        assert s[i] == a[i] && s[j] == a[j];
      } else if |a| <= i {
        assert s[i] == b[i - |a|] && s[j] == b[j - |a|];
      } else {
        assert s[i] in a && s[j] in b;
      }
    }
  }

  lemma SubtreesApart(f: Forest, c: Ctx, i: nat, x: Ctx, y: Ctx)
    requires Shape(f) && c in f.nodes && i < |f.nodes[c].children| && f.nodes[c].children[i] in f.nodes
    requires x in Post(f, f.nodes[c].children[i]) && y in Posts(f, c, i + 1)
    ensures Apart(f, x, y)
  {
    hide Post; hide Posts;
    var d := f.nodes[c].children[i];
    PostsMembers(f, c, i + 1, y);
    var k :| i + 1 <= k < |f.nodes[c].children| && y in Post(f, f.nodes[c].children[k]);
    PostMembers(f, d, x);
    PostMembers(f, f.nodes[c].children[k], y);
    Siblings(f, c, i, k, y);
    if Under(f, x, y) { UnderTrans(f, d, x, y); }
  }

  lemma {:induction false} PostsChildrenFirst(f: Forest, c: Ctx, i: nat)
    requires Shape(f) && c in f.nodes && i <= |f.nodes[c].children|
    requires forall k :: i <= k < |f.nodes[c].children| ==>
               f.nodes[c].children[k] in f.nodes && ChildrenFirst(f, Post(f, f.nodes[c].children[k]))
    ensures ChildrenFirst(f, Posts(f, c, i))
    decreases |f.nodes[c].children| - i
  {
    hide Apart; hide Shape; hide Under;
    if i < |f.nodes[c].children| {
      PostsChildrenFirst(f, c, i + 1);
      var d := f.nodes[c].children[i];
      forall x, y | x in Post(f, d) && y in Posts(f, c, i + 1) ensures Apart(f, x, y) {
        SubtreesApart(f, c, i, x, y);
      }
      ChildrenFirstConcat(f, Post(f, d), Posts(f, c, i + 1));
    }
  }

  lemma {:induction false} PostChildrenFirst(f: Forest, c: Ctx)
    requires Shape(f) && c in f.nodes
    ensures ChildrenFirst(f, Post(f, c))
    decreases f.clock - f.nodes[c].born
  {
    assert NodeOk(f.nodes, c);
    forall k | 0 <= k < |f.nodes[c].children|
      ensures f.nodes[c].children[k] in f.nodes && ChildrenFirst(f, Post(f, f.nodes[c].children[k]))
    {
      var d := f.nodes[c].children[k];
      assert d in f.nodes && f.nodes[c].born < f.nodes[d].born < f.clock;
      PostChildrenFirst(f, d);
    }
    PostsChildrenFirst(f, c, 0);
    forall x | x in Posts(f, c, 0) ensures Apart(f, x, c) {
      NotAbove(f, c, x);
    }
    ChildrenFirstConcat(f, Posts(f, c, 0), [c]);
  }

  lemma NotAbove(f: Forest, c: Ctx, x: Ctx)
    requires Shape(f) && c in f.nodes && x in Posts(f, c, 0)
    ensures x in f.nodes && !Under(f, x, c)
  {
    assert NodeOk(f.nodes, c);
    PostsMembers(f, c, 0, x);
    var k :| 0 <= k < |f.nodes[c].children| && x in Post(f, f.nodes[c].children[k]);
    PostMembers(f, f.nodes[c].children[k], x);
    BornBelow(f, f.nodes[c].children[k], x);
    if Under(f, x, c) { BornBelow(f, x, c); }
  }

  // ---------------------------------------------------------------------------------------
  // Lifetime
  // ---------------------------------------------------------------------------------------

  function SetNode(f: Forest, c: Ctx, n: Node): Forest {
    f.(nodes := f.nodes[c := n])
  }

  /** A context spawned from a killed one is refused; otherwise it becomes the last child. */
  function Spawn(f: Forest, parent: Option<Ctx>, c: Ctx): Forest {
    if parent.Some? && (parent.value !in f.nodes || f.nodes[parent.value].killed) then f
    else
      var f1 := SetNode(f, c, Node(parent, [], false, false, Live, f.clock)).(clock := f.clock + 1);
      if parent.None? then f1
      else
        var p := f.nodes[parent.value];
        SetNode(f1, parent.value, p.(children := p.children + [c], held := true))
  }

  /** Releasing lastChild wakes a waiting destructor, which then holds it. */
  function ReleaseLast(n: Node): Node {
    if !n.held then n
    else if n.phase == Waiting then n.(phase := Woken)
    else n.(held := false)
  }

  function Detach(f: Forest, c: Ctx): Forest
    requires c in f.nodes
  {
    var n := f.nodes[c];
    if n.parent.None? || n.parent.value !in f.nodes then f
    else
      var p := f.nodes[n.parent.value];
      var p1 := p.(children := S.Without(p.children, c));
      var p2 := if p1.children == [] then ReleaseLast(p1) else p1;
      SetNode(SetNode(f, n.parent.value, p2), c, n.(parent := None))
  }

  function MarkKilled(f: Forest, doomed: set<Ctx>): Forest {
    f.(nodes := map c | c in f.nodes :: if c in doomed then f.nodes[c].(killed := true) else f.nodes[c])
  }

  function Kill(f: Forest, c: Ctx): Forest
    requires Shape(f) && c in f.nodes
  {
    MarkKilled(f, S.Members(Post(f, c)))
  }

  /** The end of the destructor: take lastChild, or wait for it; with it taken the context leaves the list. */
  function Join(f: Forest, c: Ctx): Forest
    requires c in f.nodes
  {
    if f.nodes[c].held then SetNode(f, c, f.nodes[c].(phase := Waiting))
    else f.(nodes := f.nodes - {c})
  }

  ghost predicate Init(f: Forest) { f == Forest(map[], 0) }

  /**
   The destructor up to the notification of the context's own kill signal, which may switch away: detach,
   then kill the subtree unless it is killed already.
   */
  ghost predicate Destroys(f: Forest, g: Forest, c: Ctx) {
    && c in f.nodes && f.nodes[c].phase == Live
    && var f1 := Detach(f, c);
       c in f1.nodes && Shape(f1) &&
       var f2 := if f1.nodes[c].killed then f1 else Kill(f1, c);
       c in f2.nodes && g == SetNode(f2, c, f2.nodes[c].(phase := Dying))
  }

  ghost predicate Next(f: Forest, g: Forest) {
    || (exists parent: Option<Ctx>, c :: c !in f.nodes && (parent.Some? ==> parent.value in f.nodes && f.nodes[parent.value].phase == Live)
          && g == Spawn(f, parent, c))
    || (exists c :: c in f.nodes && f.nodes[c].phase == Live && g == Detach(f, c))
    || (exists c :: c in f.nodes && Shape(f) && g == Kill(f, c))
    || (exists c :: Destroys(f, g, c))
    || (exists c :: c in f.nodes && f.nodes[c].phase == Dying && g == Join(f, c))
    || (exists c :: c in f.nodes && f.nodes[c].phase == Woken && g == f.(nodes := f.nodes - {c}))
  }

  /** The lastChild coordinator, and what a destructor in progress has already done. */
  ghost predicate PhaseOk(n: Node) {
    match n.phase
    case Live => n.held <==> n.children != []
    case Dying => (n.held <==> n.children != []) && n.parent.None? && n.killed
    case Waiting => n.held && n.children != [] && n.parent.None? && n.killed
    case Woken => n.held && n.children == [] && n.parent.None? && n.killed
  }

  /** A killed context's children are killed. */
  ghost predicate KillOk(nodes: map<Ctx, Node>, c: Ctx)
    requires c in nodes
  {
    nodes[c].killed ==> forall d :: d in nodes[c].children && d in nodes ==> nodes[d].killed
  }

  ghost predicate Inv(f: Forest) {
    Shape(f) && forall c :: c in f.nodes ==> PhaseOk(f.nodes[c]) && KillOk(f.nodes, c)
  }

  lemma SpawnKeeps(f: Forest, parent: Option<Ctx>, c: Ctx)
    requires Inv(f) && c !in f.nodes
    requires parent.Some? ==> parent.value in f.nodes && f.nodes[parent.value].phase == Live
    ensures Inv(Spawn(f, parent, c))
  {
    var g := Spawn(f, parent, c);
    if g != f {
      forall x | x in g.nodes ensures NodeOk(g.nodes, x) && g.nodes[x].born < g.clock && PhaseOk(g.nodes[x]) && KillOk(g.nodes, x) {
        if x in f.nodes { assert NodeOk(f.nodes, x) && PhaseOk(f.nodes[x]) && KillOk(f.nodes, x); }
      }
    }
  }

  /** What detaching c from its parent p changes. */
  ghost predicate Detached(f: map<Ctx, Node>, g: map<Ctx, Node>, c: Ctx, p: Ctx) {
    && c in f && p in f && c != p && g.Keys == f.Keys
    && g[c] == f[c].(parent := None)
    && g[p] == f[p].(children := S.Without(f[p].children, c), held := g[p].held, phase := g[p].phase)
    && (forall x :: x in f && x != c && x != p ==> g[x] == f[x])
  }

  lemma DetachEffect(f: Forest, c: Ctx)
    requires Shape(f) && c in f.nodes && f.nodes[c].parent.Some?
    ensures Detached(f.nodes, Detach(f, c).nodes, c, f.nodes[c].parent.value)
    ensures Detach(f, c).clock == f.clock
  {
    assert NodeOk(f.nodes, c);
    assert NodeOk(f.nodes, f.nodes[c].parent.value);
  }

  lemma DetachedNode(f: map<Ctx, Node>, g: map<Ctx, Node>, c: Ctx, p: Ctx, x: Ctx)
    requires Detached(f, g, c, p) && f[c].parent == Some(p) && x in f
    requires NodeOk(f, x) && NodeOk(f, c)
    ensures NodeOk(g, x)
  {
    S.WithoutOnce(f[x].children, c);
    if x == p {
      assert forall d :: d in g[x].children ==> d in f[x].children && d != c;
    }
  }

  lemma DetachKeeps(f: Forest, c: Ctx)
    requires Inv(f) && c in f.nodes && f.nodes[c].phase == Live
    ensures Inv(Detach(f, c)) && c in Detach(f, c).nodes && Detach(f, c).nodes[c] == f.nodes[c].(parent := None)
  {
    var g := Detach(f, c);
    assert NodeOk(f.nodes, c);
    if f.nodes[c].parent.Some? {
      var p := f.nodes[c].parent.value;
      DetachEffect(f, c);
      DetachPhase(f, c);
      hide NodeOk; hide PhaseOk; hide Detach; hide KillOk;
      forall x | x in g.nodes ensures NodeOk(g.nodes, x) && g.nodes[x].born < g.clock && PhaseOk(g.nodes[x]) && KillOk(g.nodes, x) {
        assert NodeOk(f.nodes, x) && PhaseOk(f.nodes[x]) && KillOk(f.nodes, x);
        DetachedNode(f.nodes, g.nodes, c, p, x);
        DetachedKill(f.nodes, g.nodes, c, p, x);
      }
    }
  }

  lemma DetachedKill(f: map<Ctx, Node>, g: map<Ctx, Node>, c: Ctx, p: Ctx, x: Ctx)
    requires Detached(f, g, c, p) && x in f && KillOk(f, x)
    ensures KillOk(g, x)
  {
  }

  lemma DetachPhase(f: Forest, c: Ctx)
    requires Inv(f) && c in f.nodes && f.nodes[c].phase == Live && f.nodes[c].parent.Some?
    ensures f.nodes[c].parent.value in f.nodes
    ensures PhaseOk(Detach(f, c).nodes[c]) && PhaseOk(Detach(f, c).nodes[f.nodes[c].parent.value])
  {
    var p := f.nodes[c].parent.value;
    assert NodeOk(f.nodes, c) && PhaseOk(f.nodes[c]);
    assert NodeOk(f.nodes, p) && PhaseOk(f.nodes[p]);
  }

  lemma KillKeeps(f: Forest, c: Ctx)
    requires Inv(f) && c in f.nodes
    ensures Inv(Kill(f, c)) && c in Kill(f, c).nodes && Kill(f, c).nodes[c] == f.nodes[c].(killed := true)
  {
    hide Post;
    var g := Kill(f, c);
    PostMembers(f, c, c);
    forall x | x in g.nodes ensures NodeOk(g.nodes, x) && g.nodes[x].born < g.clock && PhaseOk(g.nodes[x]) && KillOk(g.nodes, x) {
      assert NodeOk(f.nodes, x) && PhaseOk(f.nodes[x]) && KillOk(f.nodes, x);
      if x in S.Members(Post(f, c)) {
        forall d | d in f.nodes[x].children ensures d in S.Members(Post(f, c)) {
          PostMembers(f, c, x);
          ChildUnder(f, c, x, IndexOf(f.nodes[x].children, d));
          PostMembers(f, c, d);
        }
      }
    }
  }

  lemma LeaveKeeps(f: Forest, c: Ctx)
    requires Inv(f) && c in f.nodes && f.nodes[c].children == [] && f.nodes[c].parent.None?
    ensures Inv(f.(nodes := f.nodes - {c}))
  {
    var g := f.(nodes := f.nodes - {c});
    forall x | x in g.nodes ensures NodeOk(g.nodes, x) && g.nodes[x].born < g.clock && PhaseOk(g.nodes[x]) && KillOk(g.nodes, x) {
      assert NodeOk(f.nodes, x) && PhaseOk(f.nodes[x]) && KillOk(f.nodes, x);
    }
  }

  /** A context in its destructor moves on to another phase that suits its children. */
  lemma PhaseKeeps(f: Forest, c: Ctx, phase: Phase)
    requires Inv(f) && c in f.nodes && f.nodes[c].parent.None? && PhaseOk(f.nodes[c].(phase := phase))
    ensures Inv(SetNode(f, c, f.nodes[c].(phase := phase)))
  {
    hide PhaseOk;
    var g := SetNode(f, c, f.nodes[c].(phase := phase));
    forall x | x in g.nodes ensures NodeOk(g.nodes, x) && g.nodes[x].born < g.clock && PhaseOk(g.nodes[x]) && KillOk(g.nodes, x) {
      assert NodeOk(f.nodes, x) && PhaseOk(f.nodes[x]) && KillOk(f.nodes, x);
    }
  }

  lemma DestroyKeeps(f: Forest, g: Forest, c: Ctx)
    requires Inv(f) && Destroys(f, g, c)
    ensures Inv(g) && g.nodes[c] == f.nodes[c].(parent := None, killed := true, phase := Dying)
  {
    hide Shape; hide NodeOk; hide KillOk; hide Detach; hide Kill;
    DetachKeeps(f, c);
    var f1 := Detach(f, c);
    if !f1.nodes[c].killed { KillKeeps(f1, c); }
    var f2 := if f1.nodes[c].killed then f1 else Kill(f1, c);
    assert PhaseOk(f2.nodes[c]);
    PhaseKeeps(f2, c, Dying);
  }

  /** The wait for the last child: the context leaves at once exactly when it has no children. */
  lemma JoinKeeps(f: Forest, c: Ctx)
    requires Inv(f) && c in f.nodes && f.nodes[c].phase == Dying
    ensures Inv(Join(f, c)) && (c !in Join(f, c).nodes <==> f.nodes[c].children == [])
  {
    hide Shape; hide NodeOk; hide KillOk;
    assert PhaseOk(f.nodes[c]);
    if f.nodes[c].held { PhaseKeeps(f, c, Waiting); } else { LeaveKeeps(f, c); }
  }

  lemma StepKeeps(f: Forest, g: Forest)
    requires Inv(f) && Next(f, g)
    ensures Inv(g)
  {
    hide Shape; hide NodeOk; hide KillOk; hide Detach; hide Kill; hide Spawn; hide Destroys;
    if parent: Option<Ctx>, c :|
        && c !in f.nodes && (parent.Some? ==> parent.value in f.nodes && f.nodes[parent.value].phase == Live)
        && g == Spawn(f, parent, c)
    {
      SpawnKeeps(f, parent, c);
    } else if c :| c in f.nodes && f.nodes[c].phase == Live && g == Detach(f, c) {
      DetachKeeps(f, c);
    } else if c :| c in f.nodes && Shape(f) && g == Kill(f, c) {
      KillKeeps(f, c);
    } else if c :| Destroys(f, g, c) {
      DestroyKeeps(f, g, c);
    } else if c :| c in f.nodes && f.nodes[c].phase == Dying && g == Join(f, c) {
      JoinKeeps(f, c);
    } else {
      var c :| c in f.nodes && f.nodes[c].phase == Woken && g == f.(nodes := f.nodes - {c});
      assert PhaseOk(f.nodes[c]);
      LeaveKeeps(f, c);
    }
  }

  lemma InvOnEveryRun(run: seq<Forest>, k: nat)
    requires IsRun(Init, Next, run) && k < |run|
    ensures Inv(run[k])
  {
    hide Next;
    forall f, g | Inv(f) && Next(f, g) ensures Inv(g) { StepKeeps(f, g); }
    InvariantOnRun(Init, Next, Inv, run, k);
  }

  /**
   On every run: a context's parent exists and lists it; lastChild is held exactly while there are
   children, until the destructor takes it; a destructor waits only while children remain; and a
   killed context's children are killed.
   */
  lemma LifetimeOnEveryRun(run: seq<Forest>, k: nat, c: Ctx)
    requires IsRun(Init, Next, run) && k < |run| && c in run[k].nodes
    ensures var nodes, n := run[k].nodes, run[k].nodes[c];
            && (n.parent.Some? ==> n.parent.value in nodes && c in nodes[n.parent.value].children)
            && (forall d :: d in n.children ==> d in nodes && nodes[d].parent == Some(c))
            && (n.phase == Live || n.phase == Dying ==> (n.held <==> n.children != []))
            && (n.phase == Waiting ==> n.held && n.children != [])
            && (n.killed ==> forall d :: d in n.children ==> nodes[d].killed)
  {
    hide IsRun; hide Init; hide Next;
    InvOnEveryRun(run, k);
    assert NodeOk(run[k].nodes, c) && PhaseOk(run[k].nodes[c]) && KillOk(run[k].nodes, c);
  }

  lemma StepLeavesChildless(f: Forest, g: Forest, c: Ctx)
    requires Inv(f) && Next(f, g) && c in f.nodes && c !in g.nodes
    ensures f.nodes[c].children == []
  {
    hide Shape; hide NodeOk; hide KillOk; hide Destroys; hide Spawn; hide Detach; hide Kill;
    OnlyTheDestructorRemoves(f, g, c);
    assert PhaseOk(f.nodes[c]);
  }

  lemma OnlyTheDestructorRemoves(f: Forest, g: Forest, c: Ctx)
    requires c in f.nodes
    ensures forall parent, d :: d !in f.nodes ==> c in Spawn(f, parent, d).nodes
    ensures forall d :: d in f.nodes ==> c in Detach(f, d).nodes
    ensures Shape(f) ==> forall d :: d in f.nodes ==> c in Kill(f, d).nodes
    ensures forall d :: Destroys(f, g, d) ==> c in g.nodes
  {
    hide Shape; hide Post;
  }

  /** On every run a context leaves the list of all contexts only once it has no children. */
  lemma LeavesChildless(run: seq<Forest>, k: nat, c: Ctx)
    requires IsRun(Init, Next, run) && k + 1 < |run| && c in run[k].nodes && c !in run[k + 1].nodes
    ensures run[k].nodes[c].children == []
  {
    hide Init; hide Next; hide Inv;
    InvOnEveryRun(run, k);
    assert Next(run[k + 1 - 1], run[k + 1]);
    StepLeavesChildless(run[k], run[k + 1], c);
  }

  /** Killing reaches every context at or below the target, and no other. */
  lemma KillReaches(f: Forest, c: Ctx, x: Ctx)
    requires Shape(f) && c in f.nodes && x in f.nodes
    ensures Kill(f, c).nodes[x] == f.nodes[x].(killed := f.nodes[x].killed || Under(f, c, x))
  {
    hide Post;
    PostMembers(f, c, x);
  }

  /** The links are those of f, whatever has been marked since. */
  ghost predicate SameLinks(nodes: map<Ctx, Node>, f: Forest) {
    nodes.Keys == f.nodes.Keys && forall x :: x in nodes ==> nodes[x].children == f.nodes[x].children && nodes[x].parent == f.nodes[x].parent
  }

  lemma MarkOne(f: Forest, order: seq<Ctx>, c: Ctx)
    requires c in f.nodes
    ensures var g := MarkKilled(f, S.Members(order));
            var h := MarkKilled(f, S.Members(order + [c]));
            c in g.nodes && g.nodes[c := g.nodes[c].(killed := true)] == h.nodes && h.clock == f.clock && SameLinks(h.nodes, f)
  {
  }

  lemma MarkNone(f: Forest)
    ensures MarkKilled(f, S.Members([])) == f && SameLinks(f.nodes, f)
  {
    assert MarkKilled(f, S.Members([])).nodes == f.nodes;
  }

  lemma WalkStart(f: Forest, top: Ctx)
    requires Shape(f) && top in f.nodes
    ensures Under(f, top, top) && [top] + After(f, top, top) == [top]
    ensures Under(f, top, Descend(f, top)) && [] + ([Descend(f, top)] + After(f, top, Descend(f, top))) == Post(f, top)
    ensures MarkKilled(f, S.Members([])) == f && SameLinks(f.nodes, f)
  {
    DescendKeeps(f, top, top);
    MarkNone(f);
    assert Post(f, top) + [] == Post(f, top);
  }

  /** The next stop in terms of the links alone. */
  lemma NextStopByLinks(f: Forest, c: Ctx)
    requires Shape(f) && c in f.nodes && f.nodes[c].parent.Some?
    ensures var p := f.nodes[c].parent.value;
            && p in f.nodes && c in f.nodes[p].children && Once(f.nodes[p].children)
            && var i := IndexOf(f.nodes[p].children, c);
               if i + 1 < |f.nodes[p].children|
               then f.nodes[p].children[i + 1] in f.nodes && NextStop(f, c) == Descend(f, f.nodes[p].children[i + 1])
               else NextStop(f, c) == p
  {
    assert NodeOk(f.nodes, c);
    assert NodeOk(f.nodes, f.nodes[c].parent.value);
  }

  lemma ParentApart(f: Forest, c: Ctx)
    requires Shape(f) && c in f.nodes
    ensures f.nodes[c].parent.Some? ==> f.nodes[c].parent.value in f.nodes && f.nodes[c].parent.value != c
  {
    assert NodeOk(f.nodes, c);
    if f.nodes[c].parent.Some? { assert NodeOk(f.nodes, f.nodes[c].parent.value); }
  }

  // ---------------------------------------------------------------------------------------
  // The contexts in memory
  // ---------------------------------------------------------------------------------------

  class Contexts {
    var nodes: map<Ctx, Node>
    var clock: nat

    ghost function View(): Forest
      reads this
    {
      Forest(nodes, clock)
    }

    constructor ()
      ensures Init(View())
    {
      nodes, clock := map[], 0;
    }

    /** A spawn from a killed context is refused. */
    method SpawnContext(parent: Option<Ctx>, c: Ctx) returns (ok: bool)
      requires c !in nodes && (parent.Some? ==> parent.value in nodes)
      modifies this
      ensures View() == Spawn(old(View()), parent, c)
      ensures ok == !(parent.Some? && old(nodes)[parent.value].killed)
    {
      if parent.Some? && nodes[parent.value].killed {
        return false;
      }
      nodes := nodes[c := Node(parent, [], false, false, Live, clock)];
      clock := clock + 1;
      if parent.Some? {
        var p := nodes[parent.value];
        nodes := nodes[parent.value := p.(children := p.children + [c], held := true)];
      }
      return true;
    }

    method DetachContext(c: Ctx)
      requires c in nodes && (nodes[c].parent.Some? ==> nodes[c].parent.value in nodes && nodes[c].parent.value != c)
      modifies `nodes
      ensures View() == Detach(old(View()), c)
    {
      if nodes[c].parent.None? {
        return;
      }
      var parent := nodes[c].parent.value;
      var p := nodes[parent].(children := S.Without(nodes[parent].children, c));
      if p.children == [] && p.held {
        p := if p.phase == Waiting then p.(phase := Woken) else p.(held := false);
      }
      nodes := nodes[parent := p];
      nodes := nodes[c := nodes[c].(parent := None)];
    }

    /** The destructor up to its own kill signal. */
    method DestructStart(c: Ctx)
      requires Inv(View()) && c in nodes && nodes[c].phase == Live
      modifies `nodes
      ensures Destroys(old(View()), View(), c)
    {
      hide Shape; hide NodeOk; hide KillOk; hide PhaseOk; hide Kill; hide Detach;
      DetachKeeps(View(), c);
      ParentApart(View(), c);
      DetachContext(c);
      if !nodes[c].killed {
        KillKeeps(View(), c);
        var _ := KillFrom(c);
      }
      nodes := nodes[c := nodes[c].(phase := Dying)];
    }

    /** The wait for the last child; without children the context is gone. */
    method JoinChildren(c: Ctx) returns (gone: bool)
      requires c in nodes && nodes[c].phase == Dying
      modifies `nodes
      ensures View() == Join(old(View()), c) && gone == !old(nodes[c].held)
    {
      gone := !nodes[c].held;
      if gone {
        nodes := nodes - {c};
      } else {
        nodes := nodes[c := nodes[c].(phase := Waiting)];
      }
    }

    method LeftmostLeaf(ghost f: Forest, c: Ctx) returns (leaf: Ctx)
      requires Shape(f) && c in f.nodes && SameLinks(nodes, f)
      ensures leaf == Descend(f, c)
    {
      leaf := c;
      while nodes[leaf].children != []
        invariant leaf in f.nodes && Descend(f, leaf) == Descend(f, c)
        decreases f.clock - f.nodes[leaf].born
      {
        assert NodeOk(f.nodes, leaf);
        leaf := nodes[leaf].children[0];
        assert f.nodes[leaf].born < f.clock;
      }
    }

    method NextSibling(children: seq<Ctx>, c: Ctx) returns (next: Option<Ctx>)
      requires c in children && Once(children)
      ensures var i := IndexOf(children, c); next == if i + 1 < |children| then Some(children[i + 1]) else None
    {
      var i := 0;
      while children[i] != c
        invariant i < |children| && c !in children[..i]
        decreases |children| - i
      {
        assert children[..i + 1] == children[..i] + [children[i]];
        i := i + 1;
      }
      assert i == IndexOf(children, c);
      next := if i + 1 < |children| then Some(children[i + 1]) else None;
    }

    method Mark(c: Ctx)
      requires c in nodes
      modifies `nodes
      ensures nodes == old(nodes)[c := old(nodes[c]).(killed := true)]
    {
      nodes := nodes[c := nodes[c].(killed := true)];
    }

    method Advance(ghost f: Forest, c: Ctx) returns (next: Ctx)
      requires Shape(f) && c in f.nodes && SameLinks(nodes, f) && f.nodes[c].parent.Some?
      ensures next == NextStop(f, c)
    {
      hide Descend; hide NextStop; hide Shape; hide IndexOf;
      NextStopByLinks(f, c);
      var p := nodes[c].parent.value;
      var sibling := NextSibling(nodes[p].children, c);
      if sibling.Some? {
        next := LeftmostLeaf(f, sibling.value);
      } else {
        next := p;
      }
    }

    /** The iterative walk notifies exactly the recursive post-order. */
    method KillFrom(other: Ctx) returns (order: seq<Ctx>)
      requires Shape(View()) && other in nodes
      modifies `nodes
      ensures order == Post(old(View()), other)
      ensures View() == Kill(old(View()), other)
    {
      hide Post; hide After; hide NextStop; hide Descend; hide Shape; hide Under; hide MarkKilled; hide S.Members; hide SameLinks;
      ghost var f := View();
      WalkStart(f, other);
      var ctx := LeftmostLeaf(f, other);
      order := [];
      while ctx != other
        invariant ctx in f.nodes && Under(f, other, ctx) && SameLinks(nodes, f)
        invariant order + ([ctx] + After(f, other, ctx)) == Post(f, other)
        invariant nodes == MarkKilled(f, S.Members(order)).nodes && clock == f.clock
        decreases |After(f, other, ctx)|
      {
        NextStopIsNext(f, other, ctx);
        MarkOne(f, order, ctx);
        Mark(ctx);
        order := order + [ctx];
        ctx := Advance(f, ctx);
      }
      MarkOne(f, order, other);
      Mark(other);
      order := order + [other];
    }
  }
}
