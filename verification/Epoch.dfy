/**
 Epoch-based reclamation in one manager: contexts pin epochs, the manager publishes the lowest pin as
 its watermark, and retired entries are freed in order once no watermark protects them.
 */
module Epoch {
  import opened Runs

  /** An epoch bound; None is "alive", above every epoch. */
  datatype Bound = None | At(epoch: nat)

  /** A live context's pins, 0 meaning not pinned. `since` (history) is when the traversal pin was taken. */
  datatype Slot = Slot(ctx: nat, traversal: nat, application: nat, since: nat)

  /** A retired entry; `at` (history) is when. */
  datatype Entry = Entry(id: nat, stamp: nat, at: nat)

  /** `others` are the watermarks of the other registered cooperators; `freed` is history. */
  datatype State = State(
    current: nat,
    slots: seq<Slot>,
    watermark: Bound,
    others: seq<Bound>,
    queue: seq<Entry>,
    freed: seq<Entry>,
    clock: nat)

  predicate Below(e: nat, b: Bound) { b.None? || e < b.epoch }

  function Min(a: Bound, b: Bound): Bound {
    if b.At? && Below(b.epoch, a) then b else a
  }

  function PinOf(e: nat): Bound { if e == 0 then None else At(e) }

  /** The scan that computes the watermark: the lowest pin of either kind. */
  function Lowest(slots: seq<Slot>): Bound {
    if slots == [] then None
    else
      var last := slots[|slots| - 1];
      Min(Min(Lowest(slots[..|slots| - 1]), PinOf(last.traversal)), PinOf(last.application))
  }

  function Safe(s: State): Bound { Min(s.watermark, Least(s.others)) }

  function Least(bs: seq<Bound>): Bound {
    if bs == [] then None else Min(Least(bs[..|bs| - 1]), bs[|bs| - 1])
  }

  /** How many entries the reclaim loop takes off the front. */
  function Reclaimable(queue: seq<Entry>, b: Bound): (n: nat)
    ensures n <= |queue|
    ensures forall i :: 0 <= i < n ==> Below(queue[i].stamp, b)
    ensures n < |queue| ==> !Below(queue[n].stamp, b)
  {
    if queue == [] || !Below(queue[0].stamp, b) then 0 else 1 + Reclaimable(queue[1..], b)
  }

  // ---------------------------------------------------------------------------------------
  // Operations
  // ---------------------------------------------------------------------------------------

  function Publish(s: State): State { s.(watermark := Lowest(s.slots)) }

  function SetSlot(s: State, i: nat, slot: Slot): State
    requires i < |s.slots|
  {
    Publish(s.(slots := s.slots[i := slot]))
  }

  function Enter(s: State, i: nat): State
    requires i < |s.slots|
  {
    SetSlot(s, i, s.slots[i].(traversal := s.current, since := s.clock))
  }

  function Exit(s: State, i: nat): State
    requires i < |s.slots|
  {
    SetSlot(s, i, s.slots[i].(traversal := 0))
  }

  function Pin(s: State, i: nat, e: nat): State
    requires i < |s.slots|
  {
    SetSlot(s, i, s.slots[i].(application := e))
  }

  function Retire(s: State, id: nat): State {
    s.(queue := s.queue + [Entry(id, s.current, s.clock)])
  }

  function ReclaimBelow(s: State, b: Bound): State {
    var n := Reclaimable(s.queue, b);
    s.(queue := s.queue[n..], freed := s.freed + s.queue[..n])
  }

  function Reclaim(s: State): State { ReclaimBelow(s, Safe(s)) }

  function Tick(s: State): State { s.(clock := s.clock + 1) }

  ghost predicate Init(s: State) {
    s == State(1, [], None, s.others, [], [], 0)
  }

  ghost predicate PinStep(s: State, t: State) {
    || (exists i :: 0 <= i < |s.slots| && s.slots[i].traversal == 0 && t == Tick(Enter(s, i)))
    || (exists i :: 0 <= i < |s.slots| && s.slots[i].traversal > 0 && t == Tick(Exit(s, i)))
    || (exists i, e :: 0 <= i < |s.slots| && s.slots[i].application == 0 && 1 <= e <= s.current && t == Tick(Pin(s, i, e)))
    || (exists i :: 0 <= i < |s.slots| && s.slots[i].application > 0 && t == Tick(Pin(s, i, 0)))
  }

  ghost predicate QueueStep(s: State, t: State) {
    || (exists id :: t == Tick(Retire(s, id)))
    || t == Tick(Reclaim(s))
    || (exists b :: t == Tick(ReclaimBelow(s, b)))
  }

  /** Contexts come unpinned and may go without unpinning; other cooperators publish what they like. */
  ghost predicate OuterStep(s: State, t: State) {
    || t == Tick(s.(current := s.current + 1))
    || (exists ctx :: t == Tick(s.(slots := s.slots + [Slot(ctx, 0, 0, s.clock)])))
    || (exists i :: 0 <= i < |s.slots| && t == Tick(s.(slots := s.slots[..i] + s.slots[i + 1..])))
    || (exists others :: t == Tick(s.(others := others)))
  }

  ghost predicate Next(s: State, t: State) {
    PinStep(s, t) || QueueStep(s, t) || OuterStep(s, t)
  }

  // ---------------------------------------------------------------------------------------
  // The watermark
  // ---------------------------------------------------------------------------------------

  /** The bound is at or below the pin. */
  predicate Covers(b: Bound, e: nat) { b.At? && b.epoch <= e }

  predicate SlotCovered(b: Bound, slot: Slot) {
    (slot.traversal > 0 ==> Covers(b, slot.traversal)) && (slot.application > 0 ==> Covers(b, slot.application))
  }

  /** The scan's result is at or below every pin, and is one of them when there is any. */
  lemma {:induction false} LowestCovers(slots: seq<Slot>)
    ensures forall i :: 0 <= i < |slots| ==> SlotCovered(Lowest(slots), slots[i])
    ensures Lowest(slots).At? ==>
              exists i :: 0 <= i < |slots| && Lowest(slots).epoch > 0 &&
                (slots[i].traversal == Lowest(slots).epoch || slots[i].application == Lowest(slots).epoch)
  {
    if slots != [] {
      var n := |slots| - 1;
      LowestCovers(slots[..n]);
      var before := Lowest(slots[..n]);
      assert forall i :: 0 <= i < n ==> slots[..n][i] == slots[i] && SlotCovered(before, slots[..n][i]);
      if before.At? && Lowest(slots) == before {
        var i :| 0 <= i < n && (slots[..n][i].traversal == before.epoch || slots[..n][i].application == before.epoch);
        assert slots[i].traversal == before.epoch || slots[i].application == before.epoch;
      }
    }
  }

  ghost predicate Covered(watermark: Bound, slots: seq<Slot>) {
    forall i :: 0 <= i < |slots| ==> SlotCovered(watermark, slots[i])
  }

  // ---------------------------------------------------------------------------------------
  // The queue
  // ---------------------------------------------------------------------------------------

  ghost predicate Sorted(queue: seq<Entry>) {
    forall i, j :: 0 <= i < j < |queue| ==> queue[i].stamp <= queue[j].stamp
  }

  /** The entries stamped below the bound, in order. */
  function Stamped(queue: seq<Entry>, b: Bound, below: bool): seq<Entry> {
    if queue == [] then []
    else (if Below(queue[0].stamp, b) == below then [queue[0]] else []) + Stamped(queue[1..], b, below)
  }

  lemma {:induction false} AllProtected(queue: seq<Entry>, b: Bound)
    requires Sorted(queue) && (queue != [] ==> !Below(queue[0].stamp, b))
    ensures Stamped(queue, b, true) == [] && Stamped(queue, b, false) == queue
  {
    if queue != [] {
      AllProtected(queue[1..], b);
    }
  }

  /** On a sorted queue, stopping at the first protected entry frees exactly the entries below the bound. */
  lemma {:induction false} ReclaimIsExact(queue: seq<Entry>, b: Bound)
    requires Sorted(queue)
    ensures var n := Reclaimable(queue, b);
            queue[..n] == Stamped(queue, b, true) && queue[n..] == Stamped(queue, b, false)
  {
    hide Reclaimable;
    if queue != [] && Below(queue[0].stamp, b) {
      ReclaimIsExact(queue[1..], b);
      ReclaimStep(queue, b);
      TailSlices(queue, Reclaimable(queue, b));
    } else {
      ReclaimStop(queue, b);
      AllProtected(queue, b);
      assert queue[..0] == [] && queue[0..] == queue;
    }
  }

  lemma TailSlices(queue: seq<Entry>, n: nat)
    requires 0 < n <= |queue|
    ensures queue[..n] == [queue[0]] + queue[1..][..n - 1] && queue[n..] == queue[1..][n - 1..]
  {
  }

  // ---------------------------------------------------------------------------------------
  // The invariant
  // ---------------------------------------------------------------------------------------

  /** What was retired since the slot's Enter is stamped at or above its pin. */
  ghost predicate Newer(slot: Slot, queue: seq<Entry>) {
    slot.traversal > 0 ==> forall j :: 0 <= j < |queue| && queue[j].at >= slot.since ==> queue[j].stamp >= slot.traversal
  }

  ghost predicate SlotsOk(slots: seq<Slot>, queue: seq<Entry>, current: nat, clock: nat) {
    forall i :: 0 <= i < |slots| ==>
      slots[i].traversal <= current && slots[i].application <= current && Newer(slots[i], queue)
  }

  ghost predicate QueueOk(queue: seq<Entry>, current: nat, clock: nat) {
    Sorted(queue) && forall j :: 0 <= j < |queue| ==> 1 <= queue[j].stamp <= current && queue[j].at < clock
  }

  ghost predicate Inv(s: State) {
    && s.current >= 1
    && Covered(s.watermark, s.slots)
    && SlotsOk(s.slots, s.queue, s.current, s.clock)
    && QueueOk(s.queue, s.current, s.clock)
  }

  lemma SetSlotKeeps(s: State, i: nat, slot: Slot)
    requires Inv(s) && i < |s.slots| && slot.traversal <= s.current && slot.application <= s.current && Newer(slot, s.queue)
    ensures Inv(Tick(SetSlot(s, i, slot)))
  {
    hide Newer; hide Lowest; hide SlotCovered; hide Sorted;
    LowestCovers(s.slots[i := slot]);
  }

  lemma PinStepKeeps(s: State, t: State)
    requires Inv(s) && PinStep(s, t)
    ensures Inv(t)
  {
    hide SetSlot; hide Sorted; hide Covered;
    if i :| 0 <= i < |s.slots| && s.slots[i].traversal == 0 && t == Tick(Enter(s, i)) {
      SetSlotKeeps(s, i, s.slots[i].(traversal := s.current, since := s.clock));
    } else if i :| 0 <= i < |s.slots| && s.slots[i].traversal > 0 && t == Tick(Exit(s, i)) {
      SetSlotKeeps(s, i, s.slots[i].(traversal := 0));
    } else if i, e :| 0 <= i < |s.slots| && s.slots[i].application == 0 && 1 <= e <= s.current && t == Tick(Pin(s, i, e)) {
      SetSlotKeeps(s, i, s.slots[i].(application := e));
    } else {
      var i :| 0 <= i < |s.slots| && s.slots[i].application > 0 && t == Tick(Pin(s, i, 0));
      SetSlotKeeps(s, i, s.slots[i].(application := 0));
    }
  }

  lemma RetireKeeps(s: State, id: nat)
    requires Inv(s)
    ensures Inv(Tick(Retire(s, id)))
  {
    hide Covered;
    forall i | 0 <= i < |s.slots| ensures Newer(s.slots[i], Retire(s, id).queue) {
      assert Newer(s.slots[i], s.queue);
    }
  }

  lemma ReclaimKeeps(s: State, b: Bound)
    requires Inv(s)
    ensures Inv(Tick(ReclaimBelow(s, b)))
  {
    hide Covered;
    var n := Reclaimable(s.queue, b);
    DropOk(s.queue, n, s.current, s.clock);
    forall i | 0 <= i < |s.slots| ensures Newer(s.slots[i], s.queue[n..]) {
      DropNewer(s.slots[i], s.queue, n);
    }
    hide Newer; hide Sorted; hide Reclaimable;
  }

  lemma DropOk(queue: seq<Entry>, n: nat, current: nat, clock: nat)
    requires QueueOk(queue, current, clock) && n <= |queue|
    ensures QueueOk(queue[n..], current, clock + 1)
  {
  }

  lemma DropNewer(slot: Slot, queue: seq<Entry>, n: nat)
    requires Newer(slot, queue) && n <= |queue|
    ensures Newer(slot, queue[n..])
  {
  }

  lemma OuterStepKeeps(s: State, t: State)
    requires Inv(s) && OuterStep(s, t)
    ensures Inv(t)
  {
    hide Newer; hide SlotCovered; hide Sorted;
    assert forall ctx, clock :: SlotCovered(s.watermark, Slot(ctx, 0, 0, clock)) && Newer(Slot(ctx, 0, 0, clock), s.queue) by {
      FreshSlot(s.watermark, s.queue);
    }
  }

  lemma FreshSlot(watermark: Bound, queue: seq<Entry>)
    ensures forall ctx, clock :: SlotCovered(watermark, Slot(ctx, 0, 0, clock)) && Newer(Slot(ctx, 0, 0, clock), queue)
  {
  }

  lemma StepKeeps(s: State, t: State)
    requires Inv(s) && Next(s, t)
    ensures Inv(t)
  {
    hide Inv; hide PinStep; hide OuterStep; hide ReclaimBelow;
    if PinStep(s, t) {
      PinStepKeeps(s, t);
    } else if OuterStep(s, t) {
      OuterStepKeeps(s, t);
    } else if id :| t == Tick(Retire(s, id)) {
      RetireKeeps(s, id);
    } else if t == Tick(Reclaim(s)) {
      ReclaimKeeps(s, Safe(s));
    } else {
      var b :| t == Tick(ReclaimBelow(s, b));
      ReclaimKeeps(s, b);
    }
  }

  /** Entries leave the queue only by being freed, and in the order they came. */
  lemma FreedInOrder(s: State, t: State)
    requires Next(s, t)
    ensures t.freed + t.queue == s.freed + s.queue
         || exists id :: t.freed + t.queue == s.freed + s.queue + [Entry(id, s.current, s.clock)]
    ensures s.freed <= t.freed && s.current <= t.current
  {
    hide PinStep; hide OuterStep; hide ReclaimBelow;
    if PinStep(s, t) || OuterStep(s, t) {
      QuietSteps(s, t);
    } else if id :| t == Tick(Retire(s, id)) {
      assert t.freed + t.queue == s.freed + s.queue + [Entry(id, s.current, s.clock)];
    } else if t == Tick(Reclaim(s)) {
      ReclaimInOrder(s, Safe(s));
    } else {
      var b :| t == Tick(ReclaimBelow(s, b));
      ReclaimInOrder(s, b);
    }
  }

  lemma ReclaimInOrder(s: State, b: Bound)
    ensures var t := ReclaimBelow(s, b);
            t.freed + t.queue == s.freed + s.queue && s.freed <= t.freed && t.current == s.current && t.clock == s.clock
  {
    hide Reclaimable; hide Below;
    var n := Reclaimable(s.queue, b);
    assert s.queue[..n] + s.queue[n..] == s.queue;
    Regroup(s.freed, s.queue[..n], s.queue[n..]);
  }

  lemma Regroup(a: seq<Entry>, b: seq<Entry>, c: seq<Entry>)
    ensures (a + b) + c == a + (b + c) && a <= a + b
  {
  }

  lemma QuietSteps(s: State, t: State)
    requires PinStep(s, t) || OuterStep(s, t)
    ensures t.freed == s.freed && t.queue == s.queue && s.current <= t.current
  {
    hide Lowest;
  }

  lemma InvOnEveryRun(run: seq<State>, k: nat)
    requires IsRun(Init, Next, run) && k < |run|
    ensures Inv(run[k])
  {
    hide Next;
    forall s, t | Inv(s) && Next(s, t) ensures Inv(t) { StepKeeps(s, t); }
    InvariantOnRun(Init, Next, Inv, run, k);
  }

  /**
   On every run, whatever the other cooperators publish: a no-argument Reclaim keeps every entry stamped at
   or above a live pin, hence every entry retired since a context entered that has not exited.
   */
  lemma PinsProtectOnEveryRun(run: seq<State>, k: nat, i: nat, j: nat)
    requires IsRun(Init, Next, run) && k < |run| && i < |run[k].slots| && j < |run[k].queue|
    requires var slot, e := run[k].slots[i], run[k].queue[j];
             || (slot.traversal > 0 && (e.at >= slot.since || e.stamp >= slot.traversal))
             || (slot.application > 0 && e.stamp >= slot.application)
    ensures run[k].queue[j] in Reclaim(run[k]).queue
  {
    hide IsRun; hide Init; hide Next;
    InvOnEveryRun(run, k);
    var s := run[k];
    assert SlotCovered(s.watermark, s.slots[i]) && Newer(s.slots[i], s.queue);
    var n := Reclaimable(s.queue, Safe(s));
    assert j >= n;
    assert s.queue[n..][j - n] == s.queue[j];
  }

  /**
   On every run the retire queue is sorted by stamp, so a Reclaim with any boundary frees exactly the
   entries stamped below it, once each and in the order they were retired.
   */
  lemma ExactOnEveryRun(run: seq<State>, k: nat, b: Bound)
    requires IsRun(Init, Next, run) && k < |run|
    ensures Sorted(run[k].queue)
    ensures var t := ReclaimBelow(run[k], b);
            && t.freed == run[k].freed + Stamped(run[k].queue, b, true)
            && t.queue == Stamped(run[k].queue, b, false)
  {
    hide IsRun; hide Init; hide Next;
    InvOnEveryRun(run, k);
    ReclaimIsExact(run[k].queue, b);
  }

  // ---------------------------------------------------------------------------------------
  // The manager in memory
  // ---------------------------------------------------------------------------------------

  class RetireEntry {
    var next: RetireEntry?
    var retiredAt: nat
  }

  /** The manager's counter, its contexts' pins, and the retire queue as a linked list. */
  class Manager {
    var current: nat
    var slots: seq<Slot>
    var watermark: Bound
    var others: seq<Bound>
    var head: RetireEntry?
    var tail: RetireEntry?
    var count: nat
    ghost var entries: seq<RetireEntry>
    ghost var queue: seq<Entry>
    ghost var freed: seq<Entry>
    var clock: nat

    ghost function View(): State
      reads this
    {
      State(current, slots, watermark, others, queue, freed, clock)
    }

    /** The links spell the queue: head, tail, count, order and stamps agree. */
    ghost predicate Linked()
      reads `head, `tail, `count, `entries, `queue, entries
    {
      && count == |entries| == |queue|
      && (entries == [] ==> head == null && tail == null)
      && (entries != [] ==> head == entries[0] && tail == entries[|entries| - 1] && tail.next == null)
      && (forall i, j :: 0 <= i < j < |entries| ==> entries[i] != entries[j])
      && (forall i, j :: 0 <= i && j == i + 1 && j < |entries| ==> entries[i].next == entries[j])
      && (forall i :: 0 <= i < |entries| ==> entries[i].retiredAt == queue[i].stamp)
    }

    constructor (others: seq<Bound>)
      ensures Linked() && entries == [] && Init(View()) && this.others == others
    {
      current, slots, watermark := 1, [], None;
      this.others := others;
      head, tail, count, entries, queue, freed, clock := null, null, 0, [], [], [], 0;
    }

    /** The scan over all contexts. */
    method PublishWatermark()
      modifies `watermark
      ensures watermark == Lowest(slots)
      ensures forall i :: 0 <= i < |slots| ==> SlotCovered(watermark, slots[i])
    {
      var safe := None;
      for i := 0 to |slots|
        invariant safe == Lowest(slots[..i])
      {
        assert slots[..i + 1][..i] == slots[..i];
        if slots[i].traversal != 0 && Below(slots[i].traversal, safe) { safe := At(slots[i].traversal); }
        if slots[i].application != 0 && Below(slots[i].application, safe) { safe := At(slots[i].application); }
      }
      assert slots[..|slots|] == slots;
      watermark := safe;
      LowestCovers(slots);
    }

    method EnterTraversal(i: nat)
      requires i < |slots| && slots[i].traversal == 0
      modifies `slots, `watermark, `clock
      ensures View() == Tick(Enter(old(View()), i))
    {
      hide Lowest; hide SlotCovered;
      slots := slots[i := slots[i].(traversal := current, since := clock)];
      PublishWatermark();
      clock := clock + 1;
    }

    method ExitTraversal(i: nat)
      requires i < |slots| && slots[i].traversal > 0
      modifies `slots, `watermark, `clock
      ensures View() == Tick(Exit(old(View()), i))
    {
      hide Lowest; hide SlotCovered;
      slots := slots[i := slots[i].(traversal := 0)];
      PublishWatermark();
      clock := clock + 1;
    }

    /** Pin at an epoch not in the future, or with 0 unpin. */
    method PinApplication(i: nat, e: nat)
      requires i < |slots| && (if e == 0 then slots[i].application > 0 else slots[i].application == 0 && e <= current)
      modifies `slots, `watermark, `clock
      ensures View() == Tick(Pin(old(View()), i, e))
    {
      hide Lowest; hide SlotCovered;
      slots := slots[i := slots[i].(application := e)];
      PublishWatermark();
      clock := clock + 1;
    }

    method RetireOne(entry: RetireEntry, ghost id: nat)
      requires Linked() && entry !in entries
      modifies this, entry, tail
      ensures Linked() && entries == old(entries) + [entry] && View() == Tick(Retire(old(View()), id))
    {
      entry.retiredAt := current;
      entry.next := null;
      if tail != null {
        tail.next := entry;
      } else {
        head := entry;
      }
      tail := entry;
      count := count + 1;
      entries := entries + [entry];
      queue := queue + [Entry(id, current, clock)];
      clock := clock + 1;
    }

    /** The minimum over the registry's watermarks, its own among them. */
    method SafeEpoch() returns (safe: Bound)
      ensures safe == Safe(View())
    {
      safe := None;
      for i := 0 to |others|
        invariant safe == Least(others[..i])
      {
        assert others[..i + 1][..i] == others[..i];
        safe := Min(safe, others[i]);
      }
      assert others[..|others|] == others;
      safe := Min(watermark, safe);
    }

    /** Takes the first entry off the linked list; its callback retires nothing. */
    method FreeFirst()
      requires Linked() && head != null
      modifies `head, `tail, `count, `entries, `queue, `freed
      ensures Linked() && old(queue) != [] && entries == old(entries)[1..]
      ensures queue == old(queue)[1..] && freed == old(freed) + [old(queue)[0]]
    {
      assert head == entries[0] && (|entries| > 1 ==> entries[0].next == entries[1]);
      head := head.next;
      if head == null { tail := null; }
      count := count - 1;
      freed := freed + [queue[0]];
      entries, queue := entries[1..], queue[1..];
    }

    lemma HeadStamp()
      requires Linked()
      ensures (head == null <==> queue == []) && (head != null ==> head.retiredAt == queue[0].stamp)
    {
    }

    /** Frees from the front while the stamp is below the boundary. */
    method FreeFront(boundary: Bound) returns (n: nat)
      requires Linked()
      modifies `head, `tail, `count, `entries, `queue, `freed
      ensures Linked() && n == Reclaimable(old(queue), boundary)
      ensures queue == old(queue)[n..] && freed == old(freed) + old(queue)[..n]
    {
      hide Reclaimable; hide Manager.Linked;
      n := 0;
      HeadStamp();
      while head != null && Below(head.retiredAt, boundary)
        invariant Linked() && n <= |old(queue)|
        invariant (head == null <==> queue == []) && (head != null ==> head.retiredAt == queue[0].stamp)
        invariant queue == old(queue)[n..] && freed == old(freed) + old(queue)[..n]
        invariant Reclaimable(old(queue), boundary) == n + Reclaimable(queue, boundary)
        decreases |queue|
      {
        ReclaimStep(queue, boundary);
        Advance(old(freed), old(queue), n);
        FreeFirst();
        HeadStamp();
        n := n + 1;
      }
      ReclaimStop(queue, boundary);
    }

    method ReclaimTo(boundary: Bound) returns (n: nat)
      requires Linked()
      modifies `head, `tail, `count, `entries, `queue, `freed, `clock
      ensures Linked() && View() == Tick(ReclaimBelow(old(View()), boundary)) && n == Reclaimable(old(queue), boundary)
    {
      hide Reclaimable; hide Manager.Linked;
      n := FreeFront(boundary);
      clock := clock + 1;
    }

    method ReclaimSafe() returns (n: nat)
      requires Linked()
      modifies `head, `tail, `count, `entries, `queue, `freed, `clock
      ensures Linked() && View() == Tick(Reclaim(old(View())))
    {
      hide ReclaimBelow; hide Reclaimable; hide Safe; hide Manager.Linked;
      var safe := SafeEpoch();
      n := ReclaimTo(safe);
    }
  }

  lemma Advance(freed: seq<Entry>, queue: seq<Entry>, n: nat)
    requires n < |queue|
    ensures queue[n..][1..] == queue[n + 1..] && (freed + queue[..n]) + [queue[n..][0]] == freed + queue[..n + 1]
  {
    assert queue[..n + 1] == queue[..n] + [queue[n]];
  }

  lemma ReclaimStep(queue: seq<Entry>, b: Bound)
    requires queue != [] && Below(queue[0].stamp, b)
    ensures Reclaimable(queue, b) == 1 + Reclaimable(queue[1..], b)
  {
  }

  lemma ReclaimStop(queue: seq<Entry>, b: Bound)
    requires queue == [] || !Below(queue[0].stamp, b)
    ensures Reclaimable(queue, b) == 0
  {
  }
}
