/**
 The life of a multishot receive. The kernel picks a pool buffer for each delivery, reports it in a
 completion event (CQE), and ends the stream with an event that announces no more; events wait in a
 queue of chunks until the consumer takes them.
 */
module ArmedHandle {
  import opened Basics
  import opened RingBuffer

  /** A receive event. */
  datatype Cqe = Cqe(res: int, more: bool, bid: Option<nat>)

  datatype Chunk = Chunk(len: int, bid: Option<nat>)

  /** The owning context: in Next or in the destructor's Flash it may be blocked, or woken and not yet running. */
  datatype Owner = Running | BlockedNext | WokenNext | BlockedFlash | WokenFlash | Gone

  /**
   `live`, `cqes` and `cancelOwed` are the kernel's side: whether the multishot is still armed there, the
   events posted and not yet reaped, and whether a cancel is unanswered. `mayArm` says the caller may
   arm: nothing was armed yet, or Next just returned an error.
   */
  datatype Armed = Armed(
    queue: seq<Chunk>,
    returnBid: Option<nat>,
    finalResult: int,
    armed: bool,
    cancelPending: bool,
    parked: bool,
    tearingDown: bool,
    held: bool,
    owner: Owner,
    live: bool,
    cqes: seq<Cqe>,
    cancelOwed: bool,
    mayArm: bool)

  /** A handle and the buffers the kernel can pick from. */
  datatype Stream = Stream(a: Armed, pool: multiset<nat>)

  function Initial(): Armed {
    Armed([], None, 0, false, false, false, false, false, Running, false, [], false, true)
  }

  /** How much the handle counts in the ring's number of pending operations. */
  function Ops(a: Armed): nat { (if a.armed then 1 else 0) + (if a.cancelPending then 1 else 0) }

  function One(bid: Option<nat>): multiset<nat> {
    if bid.Some? then multiset{bid.value} else multiset{}
  }

  function CqeBids(cqes: seq<Cqe>): multiset<nat> {
    if cqes == [] then multiset{} else One(cqes[0].bid) + CqeBids(cqes[1..])
  }

  function QueueBids(queue: seq<Chunk>): multiset<nat> {
    if queue == [] then multiset{} else One(queue[0].bid) + QueueBids(queue[1..])
  }

  /** The buffers out of the pool on behalf of this handle: in events, in the queue, or lent to the caller. */
  function Buffers(a: Armed): multiset<nat> {
    CqeBids(a.cqes) + QueueBids(a.queue) + One(a.returnBid)
  }

  // ---------------------------------------------------------------------------------------
  // The kernel's steps
  // ---------------------------------------------------------------------------------------

  /**
   What the kernel posts: data comes in a buffer, an error has none, and both an error and the end of
   the stream are final.
   */
  ghost predicate CqeOk(e: Cqe) {
    (e.res > 0 ==> e.bid.Some?) && (e.res < 0 ==> e.bid.None?) && (e.res <= 0 ==> !e.more)
  }

  function Post(s: Stream, e: Cqe): Stream {
    Stream(s.a.(cqes := s.a.cqes + [e], live := e.more), s.pool - One(e.bid))
  }

  // ---------------------------------------------------------------------------------------
  // The handle's steps
  // ---------------------------------------------------------------------------------------

  function Arm(a: Armed): Armed {
    a.(held := true, armed := true, live := true, mayArm := false)
  }

  /** Releasing the coordinator wakes a blocked owner, which then holds it. */
  function Release(a: Armed): (r: Armed)
    ensures r == a.(held := r.held, owner := r.owner)
  {
    if !a.held then a
    else if a.owner == BlockedNext then a.(owner := WokenNext)
    else if a.owner == BlockedFlash then a.(owner := WokenFlash)
    else a.(held := false)
  }

  function WakeConsumer(a: Armed): Armed {
    if a.parked then Release(a.(parked := false)) else a
  }

  function MaybeReleaseForTeardown(a: Armed): Armed {
    if !a.armed && !a.cancelPending then Release(a) else a
  }

  function Enqueue(a: Armed, c: Chunk): Armed {
    a.(queue := a.queue + [c])
  }

  function OnRecv(s: Stream, e: Cqe): Stream {
    var a1 := if !e.more then s.a.(armed := false) else s.a;
    if a1.tearingDown then
      Stream(MaybeReleaseForTeardown(a1), s.pool + One(e.bid))
    else if e.res < 0 then
      s.(a := WakeConsumer(Enqueue(a1.(finalResult := e.res), Chunk(e.res, None))))
    else
      var a2 := Enqueue(a1, Chunk(e.res, e.bid));
      var a3 := if e.res == 0 then a2.(finalResult := 0) else if !e.more then Arm(a2) else a2;
      s.(a := WakeConsumer(a3))
  }

  function Reap(s: Stream): Stream
    requires s.a.cqes != []
  {
    OnRecv(s.(a := s.a.(cqes := s.a.cqes[1..])), s.a.cqes[0])
  }

  function OnCancelAck(a: Armed): Armed {
    MaybeReleaseForTeardown(a.(cancelPending := false, cancelOwed := false))
  }

  /** The loop of Next: hand out the first chunk, report the end, or park. */
  function NextLoop(a: Armed): Armed {
    if a.queue != [] then
      var c := a.queue[0];
      a.(queue := a.queue[1..], returnBid := if c.bid.Some? then c.bid else a.returnBid, mayArm := c.len < 0)
    else if !a.armed then a
    else a.(parked := true, held := true, owner := BlockedNext)
  }

  function Recycle(s: Stream): Stream {
    Stream(s.a.(returnBid := None), s.pool + One(s.a.returnBid))
  }

  function Next(s: Stream): Stream {
    var s1 := Recycle(s);
    s1.(a := NextLoop(s1.a))
  }

  function ResumeNext(a: Armed): Armed {
    NextLoop(a.(parked := false, owner := Running))
  }

  function Destroy(s: Stream): Stream {
    var a1 := s.a.(tearingDown := true);
    if a1.armed then
      var a2 := a1.(cancelPending := true, cancelOwed := true);
      if a2.held then s.(a := a2.(owner := BlockedFlash)) else Finish(s.(a := a2))
    else Finish(s.(a := Release(a1)))
  }

  function Finish(s: Stream): Stream {
    var s1 := Recycle(s);
    s1.(a := s1.a.(owner := Gone))
  }

  function ResumeFlash(s: Stream): Stream {
    Finish(s.(a := Release(s.a)))
  }

  ghost predicate KernelStep(s: Stream, t: Stream) {
    s.a.live && exists e :: CqeOk(e) && (e.bid.Some? ==> e.bid.value in s.pool) && t == Post(s, e)
  }

  /** What reaping an event adds to the ring's count: a final event ends the multishot, which may be re-armed at once. */
  function ReapDelta(a: Armed): int
    requires a.cqes != []
  {
    var e := a.cqes[0];
    (if !e.more then -1 else 0) + (if !a.tearingDown && e.res > 0 && !e.more then 1 else 0)
  }

  /** One step; `d` is what it adds to the ring's count of pending operations. */
  ghost predicate Step(s: Stream, t: Stream, d: int) {
    || (KernelStep(s, t) && d == 0)
    || (s.a.cqes != [] && t == Reap(s) && d == ReapDelta(s.a))
    || (s.a.cancelOwed && t == s.(a := OnCancelAck(s.a)) && d == -1)
    || (s.a.owner == Running && s.a.mayArm && t == s.(a := Arm(s.a)) && d == 1)
    || (s.a.owner == Running && t == Next(s) && d == 0)
    || (s.a.owner == WokenNext && t == s.(a := ResumeNext(s.a)) && d == 0)
    || (s.a.owner == Running && t == Destroy(s) && d == if s.a.armed then 1 else 0)
    || (s.a.owner == WokenFlash && t == ResumeFlash(s) && d == 0)
  }

  // ---------------------------------------------------------------------------------------
  // The invariant
  // ---------------------------------------------------------------------------------------

  /** Posted events: only the last can be final, and it is unless the multishot is still live. */
  ghost predicate Posted(cqes: seq<Cqe>, live: bool) {
    && (forall i :: 0 <= i < |cqes| ==> CqeOk(cqes[i]) && (cqes[i].more <==> i < |cqes| - 1 || live))
  }

  /** Queued chunks: a chunk with data has a buffer, and an end marker is last and ends an armed stream. */
  ghost predicate Surfaced(queue: seq<Chunk>, armed: bool) {
    forall i :: 0 <= i < |queue| ==>
      (queue[i].len > 0 ==> queue[i].bid.Some?) && (queue[i].len <= 0 ==> i == |queue| - 1 && !armed)
  }

  ghost predicate OwnerOk(a: Armed) {
    match a.owner
    case Running => !a.tearingDown && !a.parked
    case BlockedNext => !a.tearingDown && a.parked && a.queue == [] && a.armed && a.returnBid.None?
    case WokenNext => !a.tearingDown && !a.parked && a.queue != [] && a.held && a.returnBid.None?
    case BlockedFlash => a.tearingDown && !a.parked && a.held && (a.armed || a.cancelPending)
    case WokenFlash => a.tearingDown && !a.parked && a.held && !a.armed && !a.cancelPending
    case Gone => a.tearingDown && !a.parked && !a.armed && !a.cancelPending && a.returnBid.None?
  }

  ghost predicate Valid(a: Armed) {
    && (a.armed <==> a.live || a.cqes != [])
    && Posted(a.cqes, a.live)
    && Surfaced(a.queue, a.armed)
    && (a.cancelPending <==> a.cancelOwed) && (a.cancelPending ==> a.tearingDown)
    && (a.armed ==> a.held)
    && (a.mayArm ==> !a.armed && a.queue == [])
    && OwnerOk(a)
  }

  /** The step moves buffers between the pool and the handle and loses none. */
  ghost predicate Conserves(s: Stream, t: Stream) {
    s.pool + Buffers(s.a) == t.pool + Buffers(t.a)
  }

  lemma {:induction false} CqeAppend(cqes: seq<Cqe>, e: Cqe)
    ensures CqeBids(cqes + [e]) == CqeBids(cqes) + One(e.bid)
  {
    if cqes == [] {
      assert (cqes + [e])[1..] == [];
    } else {
      CqeAppend(cqes[1..], e);
      assert (cqes + [e])[1..] == cqes[1..] + [e];
    }
  }

  lemma {:induction false} QueueAppend(queue: seq<Chunk>, c: Chunk)
    ensures QueueBids(queue + [c]) == QueueBids(queue) + One(c.bid)
  {
    if queue == [] {
      assert (queue + [c])[1..] == [];
    } else {
      QueueAppend(queue[1..], c);
      assert (queue + [c])[1..] == queue[1..] + [c];
    }
  }

  lemma PostedAppend(cqes: seq<Cqe>, e: Cqe, live: bool)
    requires Posted(cqes, true) && CqeOk(e) && (e.more <==> live)
    ensures Posted(cqes + [e], live)
  {
  }

  lemma PostedNone(live: bool)
    ensures Posted([], live)
  {
  }

  lemma PostedTail(cqes: seq<Cqe>, live: bool)
    requires Posted(cqes, live) && cqes != []
    ensures Posted(cqes[1..], live) && CqeOk(cqes[0]) && (cqes[0].more <==> live || cqes[1..] != [])
  {
    assert forall i :: 0 <= i < |cqes| - 1 ==> cqes[1..][i] == cqes[i + 1];
  }

  lemma SurfacedAppend(queue: seq<Chunk>, c: Chunk, armed: bool)
    requires Surfaced(queue, true) && (c.len > 0 ==> c.bid.Some?) && (c.len <= 0 ==> !armed)
    ensures Surfaced(queue + [c], armed)
  {
  }

  lemma SurfacedTail(queue: seq<Chunk>, armed: bool)
    requires Surfaced(queue, armed) && queue != []
    ensures Surfaced(queue[1..], armed) && (queue[0].len <= 0 ==> queue[1..] == [] && !armed)
  {
    assert forall i :: 0 <= i < |queue| - 1 ==> queue[1..][i] == queue[i + 1];
  }

  lemma PostConserves(pool: multiset<nat>, rest: multiset<nat>, bid: Option<nat>)
    requires bid.Some? ==> bid.value in pool
    ensures pool + rest == (pool - One(bid)) + (rest + One(bid))
  {
  }

  lemma KernelKeeps(s: Stream, t: Stream)
    requires Valid(s.a) && KernelStep(s, t)
    ensures Valid(t.a) && Conserves(s, t) && Ops(t.a) == Ops(s.a)
  {
    hide Posted; hide Surfaced; hide CqeBids; hide QueueBids; hide One; hide CqeOk;
    var e :| CqeOk(e) && (e.bid.Some? ==> e.bid.value in s.pool) && t == Post(s, e);
    PostedAppend(s.a.cqes, e, e.more);
    CqeAppend(s.a.cqes, e);
    PostConserves(s.pool, Buffers(s.a), e.bid);
    assert Buffers(t.a) == Buffers(s.a) + One(e.bid);
  }

  lemma ReapKeeps(s: Stream)
    requires Valid(s.a) && s.a.cqes != []
    ensures Valid(Reap(s).a) && Ops(Reap(s).a) == Ops(s.a) + ReapDelta(s.a)
  {
    hide Posted; hide Surfaced; hide CqeOk;
    var e := s.a.cqes[0];
    PostedTail(s.a.cqes, s.a.live);
    FinalHasNoMore(e);
    PostedNone(true);
    if !s.a.tearingDown {
      var c := Chunk(e.res, if e.res < 0 then None else e.bid);
      SurfacedAppend(s.a.queue, c, Reap(s).a.armed);
    } else if !e.more {
      SurfacedWeaken(s.a.queue);
    }
  }

  lemma FinalHasNoMore(e: Cqe)
    requires CqeOk(e)
    ensures (e.res <= 0 ==> !e.more) && (e.res > 0 ==> e.bid.Some?) && (e.res < 0 ==> e.bid.None?)
  {
  }

  lemma SurfacedWeaken(queue: seq<Chunk>)
    requires Surfaced(queue, true)
    ensures Surfaced(queue, false)
  {
  }

  /** Reaping an event moves its buffer to the queue, or back to the pool during teardown. */
  lemma ReapMoves(s: Stream)
    requires Valid(s.a) && s.a.cqes != []
    ensures var e, t := s.a.cqes[0], Reap(s);
            && t.a.cqes == s.a.cqes[1..] && t.a.returnBid == s.a.returnBid && t.a.tearingDown == s.a.tearingDown
            && (s.a.tearingDown ==> t.a.queue == s.a.queue && t.pool == s.pool + One(e.bid))
            && (!s.a.tearingDown ==> t.a.queue == s.a.queue + [Chunk(e.res, e.bid)] && t.pool == s.pool)
  {
    hide Posted; hide Surfaced; hide One; hide CqeOk;
    PostedTail(s.a.cqes, s.a.live);
    FinalHasNoMore(s.a.cqes[0]);
  }

  lemma ReapConserves(s: Stream)
    requires Valid(s.a) && s.a.cqes != []
    ensures Conserves(s, Reap(s))
  {
    hide QueueBids; hide One; hide Reap; hide Valid;
    ReapMoves(s);
    var e := s.a.cqes[0];
    QueueAppend(s.a.queue, Chunk(e.res, e.bid));
  }

  lemma NextKeeps(s: Stream)
    requires Valid(s.a) && s.a.owner == Running
    ensures Valid(Next(s).a) && Ops(Next(s).a) == Ops(s.a)
  {
    hide Posted; hide Surfaced; hide One;
    if s.a.queue != [] { SurfacedTail(s.a.queue, s.a.armed); }
  }

  lemma NextConserves(s: Stream)
    ensures Conserves(s, Next(s))
  {
    hide CqeBids;
    assert One(None) == multiset{};
    if s.a.queue != [] {
      assert QueueBids(s.a.queue) == One(s.a.queue[0].bid) + QueueBids(s.a.queue[1..]);
      hide One; hide QueueBids;
    }
  }

  lemma ResumeNextKeeps(s: Stream)
    requires Valid(s.a) && s.a.owner == WokenNext
    ensures var t := s.(a := ResumeNext(s.a)); Valid(t.a) && Conserves(s, t) && Ops(t.a) == Ops(s.a)
  {
    hide Posted; hide Surfaced; hide CqeBids;
    SurfacedTail(s.a.queue, s.a.armed);
  }

  lemma ArmKeeps(s: Stream)
    requires Valid(s.a) && s.a.owner == Running && s.a.mayArm
    ensures var t := s.(a := Arm(s.a)); Valid(t.a) && Conserves(s, t) && Ops(t.a) == Ops(s.a) + 1
  {
  }

  lemma DestroyKeeps(s: Stream)
    requires Valid(s.a) && s.a.owner == Running
    ensures Valid(Destroy(s).a) && Conserves(s, Destroy(s)) && Ops(Destroy(s).a) == Ops(s.a) + Ops(s.a)
  {
    hide Posted; hide Surfaced; hide CqeBids; hide QueueBids;
  }

  lemma StepKeeps(s: Stream, t: Stream, d: int)
    requires Valid(s.a) && Step(s, t, d)
    ensures Valid(t.a) && Conserves(s, t) && Ops(t.a) == Ops(s.a) + d
  {
    hide KernelStep; hide Reap; hide Next; hide Destroy; hide ResumeNext; hide Arm; hide Posted; hide Surfaced; hide CqeBids; hide QueueBids;
    if KernelStep(s, t) && d == 0 {
      KernelKeeps(s, t);
    } else if s.a.cqes != [] && t == Reap(s) && d == ReapDelta(s.a) {
      ReapKeeps(s);
      ReapConserves(s);
    } else if s.a.owner == Running && s.a.mayArm && t == s.(a := Arm(s.a)) && d == 1 {
      ArmKeeps(s);
    } else if s.a.owner == Running && t == Next(s) && d == 0 {
      NextKeeps(s);
      NextConserves(s);
    } else if s.a.owner == WokenNext && t == s.(a := ResumeNext(s.a)) && d == 0 {
      ResumeNextKeeps(s);
    } else if s.a.owner == Running && t == Destroy(s) && d == (if s.a.armed then 1 else 0) {
      DestroyKeeps(s);
    }
  }

  // ---------------------------------------------------------------------------------------
  // The order of chunks
  // ---------------------------------------------------------------------------------------

  function AsChunks(cqes: seq<Cqe>): seq<Chunk> {
    if cqes == [] then [] else [Chunk(cqes[0].res, cqes[0].bid)] + AsChunks(cqes[1..])
  }

  /** Everything the kernel has posted and the consumer has not yet taken, oldest first. */
  function Untaken(a: Armed): seq<Chunk> { a.queue + AsChunks(a.cqes) }

  lemma {:induction false} AsChunksAppend(cqes: seq<Cqe>, e: Cqe)
    ensures AsChunks(cqes + [e]) == AsChunks(cqes) + [Chunk(e.res, e.bid)]
  {
    if cqes == [] {
      assert (cqes + [e])[1..] == [];
    } else {
      AsChunksAppend(cqes[1..], e);
      assert (cqes + [e])[1..] == cqes[1..] + [e];
    }
  }

  lemma ReapInOrder(s: Stream)
    requires Valid(s.a) && s.a.cqes != [] && !s.a.tearingDown
    ensures Untaken(Reap(s).a) == Untaken(s.a)
  {
    hide Valid; hide Reap;
    ReapMoves(s);
    var e := s.a.cqes[0];
    assert s.a.queue + ([Chunk(e.res, e.bid)] + AsChunks(s.a.cqes[1..])) == s.a.queue + [Chunk(e.res, e.bid)] + AsChunks(s.a.cqes[1..]);
  }

  lemma NextInOrder(a: Armed)
    ensures Untaken(NextLoop(a)) == if a.queue == [] then Untaken(a) else Untaken(a)[1..]
    ensures a.queue != [] ==> a.queue[0] == Untaken(a)[0]
  {
    hide AsChunks;
  }

  /**
   Outside teardown the consumer sees the events in the order the kernel posted them: a step adds one at
   the end, or hands the oldest to the consumer, or leaves the sequence as it is.
   */
  lemma InOrder(s: Stream, t: Stream, d: int)
    requires Valid(s.a) && Step(s, t, d) && !t.a.tearingDown
    ensures || Untaken(t.a) == Untaken(s.a)
            || (exists e :: Untaken(t.a) == Untaken(s.a) + [e] && t == Post(s, Cqe(e.len, t.a.live, e.bid)))
            || (s.a.queue != [] && Untaken(t.a) == Untaken(s.a)[1..] && (t == Next(s) || t == s.(a := ResumeNext(s.a))))
  {
    hide Valid; hide Reap; hide NextLoop; hide AsChunks; hide One; hide OnCancelAck; hide Arm; hide Destroy; hide ResumeFlash;
    if KernelStep(s, t) {
      var e :| CqeOk(e) && (e.bid.Some? ==> e.bid.value in s.pool) && t == Post(s, e);
      AsChunksAppend(s.a.cqes, e);
      var c := Chunk(e.res, e.bid);
      assert Untaken(t.a) == Untaken(s.a) + [c];
    } else if s.a.cqes != [] && t == Reap(s) {
      ReapMoves(s);
      ReapInOrder(s);
    } else if t == Next(s) {
      NextInOrder(Recycle(s).a);
    } else if t == s.(a := ResumeNext(s.a)) {
      NextInOrder(s.a.(parked := false, owner := Running));
    } else {
      AckAndArmLeave(s.a);
      assert OwnerOk(s.a) by { OwnerIsOk(s.a); }
      DestroyTearsDown(s);
    }
  }

  /** The other steps touch neither the events nor the queue. */
  lemma AckAndArmLeave(a: Armed)
    ensures OnCancelAck(a).queue == a.queue && OnCancelAck(a).cqes == a.cqes
    ensures Arm(a).queue == a.queue && Arm(a).cqes == a.cqes
  {
    hide Release;
  }

  lemma OwnerIsOk(a: Armed)
    requires Valid(a)
    ensures OwnerOk(a)
  {
  }

  lemma DestroyTearsDown(s: Stream)
    requires OwnerOk(s.a)
    ensures Destroy(s).a.tearingDown && (s.a.owner == WokenFlash ==> ResumeFlash(s).a.tearingDown)
  {
    hide Release; hide One;
  }

  // ---------------------------------------------------------------------------------------
  // The bound on the queue
  // ---------------------------------------------------------------------------------------

  /** Every buffer id of a pool of n, once. */
  function All(n: nat): (m: multiset<nat>)
    ensures |m| == n && forall b: nat :: b in m <==> b < n
    ensures forall b: nat :: m[b] <= 1
  {
    if n == 0 then multiset{} else All(n - 1) + multiset{n - 1}
  }

  lemma Within(m: multiset<nat>, all: multiset<nat>)
    requires m <= all
    ensures |m| <= |all|
  {
    assert all == m + (all - m);
  }

  lemma {:induction false} OneMarker(queue: seq<Chunk>, armed: bool)
    requires Surfaced(queue, armed)
    ensures |queue| <= |QueueBids(queue)| + 1
  {
    if queue != [] {
      SurfacedTail(queue, armed);
      OneMarker(queue[1..], armed);
    }
  }

  /** The queue never needs more than one slot beyond the size of the pool; it is given four. */
  lemma QueueBound(a: Armed, others: multiset<nat>, entries: nat)
    requires Valid(a) && others + Buffers(a) == All(entries)
    ensures |a.queue| <= entries + 1
  {
    hide Posted; hide Surfaced; hide CqeBids; hide QueueBids; hide One; hide OwnerOk;
    OneMarker(a.queue, a.armed);
    assert QueueBids(a.queue) <= Buffers(a) <= others + Buffers(a);
    Within(QueueBids(a.queue), All(entries));
  }

  // ---------------------------------------------------------------------------------------
  // The handle in memory
  // ---------------------------------------------------------------------------------------

  /** The circular queue of surfaced chunks, allocated when the first one comes. */
  class ChunkQueue {
    const entries: nat
    var cells: array<Chunk>
    var head: nat
    var tail: nat
    var count: nat

    ghost predicate Shape()
      reads this
    {
      if cells.Length == 0 then head == 0 && tail == 0 && count == 0
      else cells.Length == entries + 4 && head < cells.Length && count <= cells.Length && tail == Wrap(head + count, cells.Length)
    }

    ghost function Contents(): (q: seq<Chunk>)
      requires Shape()
      reads this, cells
      ensures |q| == count
    {
      if cells.Length == 0 then [] else Unwrapped(cells[..], head, count)
    }

    constructor (entries: nat)
      ensures Shape() && this.entries == entries && Contents() == [] && fresh(cells)
    {
      this.entries := entries;
      cells := new Chunk[0];
      head, tail, count := 0, 0, 0;
    }

    method Allocate()
      requires Shape()
      modifies this
      ensures Shape() && cells.Length == entries + 4 && Contents() == old(Contents())
      ensures cells == old(cells) || fresh(cells)
    {
      if cells.Length == 0 {
        cells := new Chunk[entries + 4](i => Chunk(0, None));
      }
    }

    /** A full queue would be an assertion failure. */
    method Put(c: Chunk)
      requires Shape() && count < entries + 4
      modifies this, cells
      ensures Shape() && Contents() == old(Contents()) + [c] && (cells == old(cells) || fresh(cells))
    {
      hide Unwrapped; hide Succ;
      Allocate();
      RingPut(cells[..], head, count, c);
      cells[tail] := c;
      tail := Succ(tail, cells.Length);
      count := count + 1;
    }

    method Take() returns (c: Chunk)
      requires Shape() && count > 0
      modifies this
      ensures Shape() && old(Contents()) == [c] + Contents() && cells == old(cells)
    {
      hide Unwrapped; hide Succ;
      RingGet(cells[..], head, count);
      c := cells[head];
      head := Succ(head, cells.Length);
      count := count - 1;
    }
  }

  /** An event taken off; a final one ends the multishot. */
  function Popped(s: Stream): Stream
    requires s.a.cqes != []
  {
    s.(a := s.a.(cqes := s.a.cqes[1..], armed := s.a.cqes[0].more && s.a.armed))
  }

  lemma ReapIsReceive(s: Stream)
    requires s.a.cqes != []
    ensures Reap(s) == OnRecv(Popped(s), s.a.cqes[0])
  {
  }

  class Multishot {
    const queue: ChunkQueue
    var returnBid: Option<nat>
    var finalResult: int
    var armed: bool
    var cancelPending: bool
    var parked: bool
    var tearingDown: bool
    var held: bool
    var owner: Owner
    var pool: multiset<nat>
    var pendingOps: int
    ghost var chunks: seq<Chunk>
    ghost var live: bool
    var cqes: seq<Cqe>
    ghost var cancelOwed: bool
    ghost var mayArm: bool

    /** The queue in memory holds the chunks. */
    ghost predicate Linked()
      reads this, queue, queue.cells
    {
      queue.Shape() && chunks == queue.Contents()
    }

    ghost function Now(): Stream
      reads this
    {
      Stream(Armed(chunks, returnBid, finalResult, armed, cancelPending, parked, tearingDown, held, owner, live, cqes, cancelOwed, mayArm),
             pool)
    }

    constructor (entries: nat, pool: multiset<nat>)
      ensures Linked() && queue.entries == entries && fresh(queue) && fresh(queue.cells)
      ensures Now() == Stream(Initial(), pool) && pendingOps == 0
    {
      queue := new ChunkQueue(entries);
      this.pool := pool;
      returnBid, finalResult, pendingOps := None, 0, 0;
      armed, cancelPending, parked, tearingDown, held, owner := false, false, false, false, false, Running;
      chunks, live, cqes, cancelOwed, mayArm := [], false, [], false, true;
    }

    method ReleaseCoord()
      modifies `held, `owner
      ensures Now() == old(Now()).(a := Release(old(Now().a)))
    {
      if held {
        match owner {
          case BlockedNext => owner := WokenNext;
          case BlockedFlash => owner := WokenFlash;
          case _ => held := false;
        }
      }
    }

    method ArmOp()
      requires !armed
      modifies `held, `pendingOps, `armed, `live, `mayArm
      ensures Now() == old(Now()).(a := Arm(old(Now().a))) && pendingOps == old(pendingOps) + 1
    {
      held := true;
      pendingOps := pendingOps + 1;
      armed := true;
      live, mayArm := true, false;
    }

    method ReleaseForTeardown()
      modifies `held, `owner
      ensures Now() == old(Now()).(a := MaybeReleaseForTeardown(old(Now().a)))
    {
      if !armed && !cancelPending {
        ReleaseCoord();
      }
    }

    method Wake()
      modifies `parked, `held, `owner
      ensures Now() == old(Now()).(a := WakeConsumer(old(Now().a)))
    {
      if parked {
        parked := false;
        ReleaseCoord();
      }
    }

    method Push(c: Chunk)
      requires Linked() && queue.count < queue.entries + 4
      modifies `chunks, queue, queue.cells
      ensures Linked() && (queue.cells == old(queue.cells) || fresh(queue.cells)) && chunks == old(chunks) + [c]
    {
      queue.Put(c);
      chunks := chunks + [c];
    }

    /** What OnRecv does outside teardown: surface the event, re-arm a benign end, wake the consumer. */
    method Surface(e: Cqe)
      requires Linked() && queue.count < queue.entries + 4 && !tearingDown && (!e.more ==> !armed)
      modifies this, queue, queue.cells
      ensures Linked() && (queue.cells == old(queue.cells) || fresh(queue.cells))
      ensures Now() == OnRecv(old(Now()), e)
      ensures pendingOps == old(pendingOps) + if e.res > 0 && !e.more then 1 else 0
    {
      if e.res < 0 {
        SurfaceError(e);
      } else {
        SurfaceData(e);
      }
    }

    method SurfaceError(e: Cqe)
      requires Linked() && queue.count < queue.entries + 4 && !tearingDown && (!e.more ==> !armed) && e.res < 0
      modifies this, queue, queue.cells
      ensures Linked() && (queue.cells == old(queue.cells) || fresh(queue.cells))
      ensures Now() == OnRecv(old(Now()), e) && pendingOps == old(pendingOps)
    {
      hide WakeConsumer; hide MaybeReleaseForTeardown; hide Unwrapped;
      finalResult := e.res;
      Push(Chunk(e.res, None));
      Wake();
    }

    method SurfaceData(e: Cqe)
      requires Linked() && queue.count < queue.entries + 4 && !tearingDown && (!e.more ==> !armed) && e.res >= 0
      modifies this, queue, queue.cells
      ensures Linked() && (queue.cells == old(queue.cells) || fresh(queue.cells))
      ensures Now() == OnRecv(old(Now()), e)
      ensures pendingOps == old(pendingOps) + if e.res > 0 && !e.more then 1 else 0
    {
      hide WakeConsumer; hide MaybeReleaseForTeardown; hide Unwrapped;
      Push(Chunk(e.res, e.bid));
      if e.res == 0 {
        finalResult := 0;
      } else if !e.more {
        ArmOp();
      }
      Wake();
    }

    /** What OnRecv does during teardown: the buffer goes straight back. */
    method Drop(e: Cqe)
      requires tearingDown && (!e.more ==> !armed)
      modifies `pool, `held, `owner
      ensures Now() == OnRecv(old(Now()), e)
    {
      hide MaybeReleaseForTeardown; hide One;
      pool := pool + One(e.bid);
      ReleaseForTeardown();
    }

    method TakeEvent() returns (e: Cqe)
      requires cqes != []
      modifies `cqes, `armed, `pendingOps
      ensures e == old(cqes)[0] && Now() == Popped(old(Now())) && (!e.more ==> !armed)
      ensures pendingOps == old(pendingOps) - if e.more then 0 else 1
    {
      e := cqes[0];
      cqes := cqes[1..];
      armed := e.more && armed;
      pendingOps := pendingOps - if e.more then 0 else 1;
    }

    method Receive()
      requires Linked() && queue.count < queue.entries + 4 && cqes != []
      modifies this, queue, queue.cells
      ensures Linked() && Now() == Reap(old(Now()))
      ensures pendingOps == old(pendingOps) + ReapDelta(old(Now().a))
    {
      hide OnRecv; hide Unwrapped; hide Reap; hide Popped;
      ReapIsReceive(Now());
      var e := TakeEvent();
      if tearingDown {
        Drop(e);
      } else {
        Surface(e);
      }
    }

    /** The next event is reaped; with every buffer in one place the queue has room for it. */
    method OnRecvEvent(ghost others: multiset<nat>)
      requires Linked() && Valid(Now().a) && cqes != []
      requires others + Buffers(Now().a) == All(queue.entries)
      modifies this, queue, queue.cells
      ensures Linked() && Now() == Reap(old(Now())) && Valid(Now().a)
      ensures pendingOps == old(pendingOps) + ReapDelta(old(Now().a))
    {
      hide Valid; hide Buffers; hide Reap;
      ReapKeeps(Now());
      QueueBound(Now().a, others, queue.entries);
      Receive();
    }

    method OnCancelAckEvent()
      modifies `cancelPending, `cancelOwed, `pendingOps, `held, `owner
      ensures Now() == old(Now()).(a := OnCancelAck(old(Now().a))) && pendingOps == old(pendingOps) - 1
    {
      hide MaybeReleaseForTeardown;
      cancelPending := false;
      cancelOwed := false;
      pendingOps := pendingOps - 1;
      ReleaseForTeardown();
    }
  
    method ReturnLent()
      modifies `returnBid, `pool
      ensures Now() == Recycle(old(Now()))
    {
      hide One;
      pool := pool + One(returnBid);
      returnBid := None;
    }

    method PopChunk() returns (c: Chunk)
      requires Linked() && chunks != []
      modifies `chunks, queue
      ensures Linked() && c == old(chunks)[0] && chunks == old(chunks)[1..]
    {
      c := queue.Take();
      chunks := chunks[1..];
    }

    /** One turn of Next's loop: a chunk, the end, or a park. */
    method NextTurn() returns (c: Option<Chunk>)
      requires Linked()
      modifies this, queue
      ensures Linked() && Now() == old(Now()).(a := NextLoop(old(Now().a))) && pendingOps == old(pendingOps)
      ensures c == if old(chunks) == [] then None else Some(old(chunks)[0])
    {
      hide Unwrapped;
      if queue.count > 0 {
        var first := PopChunk();
        if first.bid.Some? { returnBid := first.bid; }
        mayArm := first.len < 0;
        return Some(first);
      }
      if armed {
        parked, held, owner := true, true, BlockedNext;
      }
      return None;
    }

    method NextChunk() returns (c: Option<Chunk>)
      requires Linked()
      modifies this, queue
      ensures Linked() && Now() == Next(old(Now())) && pendingOps == old(pendingOps)
    {
      hide NextLoop; hide Recycle; hide Unwrapped;
      ReturnLent();
      c := NextTurn();
    }

    method Leave()
      modifies `returnBid, `pool, `owner
      ensures Now() == Finish(old(Now()))
    {
      hide Recycle;
      ReturnLent();
      owner := Gone;
    }

    method Destruct()
      modifies `tearingDown, `cancelPending, `cancelOwed, `pendingOps, `owner, `held, `returnBid, `pool
      ensures Now() == Destroy(old(Now()))
      ensures pendingOps == old(pendingOps) + if old(armed) then 1 else 0
    {
      hide Finish; hide Release;
      tearingDown := true;
      if armed {
        cancelPending, cancelOwed := true, true;
        pendingOps := pendingOps + 1;
        if held {
          owner := BlockedFlash;
          return;
        }
      } else {
        ReleaseCoord();
      }
      Leave();
    }
  }
}
