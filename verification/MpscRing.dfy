/**
 The bounded multi-producer ring behind Passage, as a transition system whose steps are the single
 atomic accesses of `Push` and `Pop`. Any number of producers may be anywhere inside `Push`, and the
 one consumer anywhere inside `Pop`, when another thread takes its step.
 */
module MpscRing {
  import opened Runs

  type Producer = nat

  /** `mark` is the slot's atomic sequence word. */
  datatype Slot<V> = Slot(mark: nat, value: V)

  /** Where a producer stands inside `Push(value)`. */
  datatype PushPc<V> =
    | Idle
    | LoadMark(value: V, pos: nat)   // has a tail position, about to read the slot's mark
    | Claim(value: V, pos: nat)      // read mark == pos, about to compare-exchange the tail
    | Reload(value: V)               // read mark > pos, about to read the tail again
    | Write(value: V, pos: nat)      // owns ticket pos, about to store the value
    | Commit(value: V, pos: nat)     // value stored, about to store mark pos + 1

  /** Where the consumer stands inside `Pop`. */
  datatype PopPc<V> =
    | Ready
    | Take               // read mark == head + 1, about to read the value
    | Free(value: V)     // value read, about to store mark head + n
    | Advance            // slot handed back, about to increment head

  /**
   `tickets`, `done` and `popped` are history: the owner and value of every claimed ticket, the
   tickets of the pushes that returned true, and the values popped, each in order of occurrence.
   */
  datatype State<V> = State(
    n: nat,
    tail: nat,
    head: nat,
    slots: seq<Slot<V>>,
    pushers: map<Producer, PushPc<V>>,
    popper: PopPc<V>,
    tickets: seq<(Producer, V)>,
    done: seq<nat>,
    popped: seq<V>)

  ghost predicate Init<V(!new)>(s: State<V>) {
    && s.n >= 1
    && s.tail == s.head == 0
    && |s.slots| == s.n
    && (forall i :: 0 <= i < s.n ==> s.slots[i].mark == i)
    && (forall p :: p in s.pushers ==> s.pushers[p] == Idle)
    && s.popper == Ready
    && s.tickets == [] && s.done == [] && s.popped == []
  }

  ghost predicate Shaped<V>(s: State<V>) {
    s.n >= 1 && |s.slots| == s.n
  }

  ghost function MarkAt<V>(s: State<V>, t: nat): nat
    requires Shaped(s)
  {
    s.slots[t % s.n].mark
  }

  ghost function SetPc<V>(s: State<V>, p: Producer, pc: PushPc<V>): State<V> {
    s.(pushers := s.pushers[p := pc])
  }

  ghost predicate LoadTailStep<V>(s: State<V>, t: State<V>, p: Producer, v: V) {
    p in s.pushers && s.pushers[p] == Idle && t == SetPc(s, p, LoadMark(v, s.tail))
  }

  /** Reads the slot's mark: claim it, give up because the ring is full, or read the tail again. */
  ghost predicate LoadMarkStep<V>(s: State<V>, t: State<V>, p: Producer) {
    && Shaped(s) && p in s.pushers && s.pushers[p].LoadMark?
    && var pc := s.pushers[p];
       var mark := MarkAt(s, pc.pos);
       t == SetPc(s, p, if mark == pc.pos then Claim(pc.value, pc.pos)
                        else if mark < pc.pos then Idle
                        else Reload(pc.value))
  }

  ghost predicate ClaimStep<V>(s: State<V>, t: State<V>, p: Producer) {
    && p in s.pushers && s.pushers[p].Claim? && s.pushers[p].pos == s.tail
    && var pc := s.pushers[p];
       t == SetPc(s, p, Write(pc.value, pc.pos)).(
              tail := s.tail + 1, tickets := s.tickets + [(p, pc.value)])
  }

  /** The weak compare-exchange fails, possibly spuriously, and hands back the tail it saw. */
  ghost predicate ClaimFailStep<V>(s: State<V>, t: State<V>, p: Producer) {
    && p in s.pushers && s.pushers[p].Claim?
    && t == SetPc(s, p, LoadMark(s.pushers[p].value, s.tail))
  }

  ghost predicate ReloadStep<V>(s: State<V>, t: State<V>, p: Producer) {
    && p in s.pushers && s.pushers[p].Reload?
    && t == SetPc(s, p, LoadMark(s.pushers[p].value, s.tail))
  }

  ghost predicate WriteStep<V>(s: State<V>, t: State<V>, p: Producer) {
    && Shaped(s) && p in s.pushers && s.pushers[p].Write?
    && var pc := s.pushers[p];
       var i := pc.pos % s.n;
       t == SetPc(s, p, Commit(pc.value, pc.pos)).(
              slots := s.slots[i := s.slots[i].(value := pc.value)])
  }

  ghost predicate CommitStep<V>(s: State<V>, t: State<V>, p: Producer) {
    && Shaped(s) && p in s.pushers && s.pushers[p].Commit?
    && var pc := s.pushers[p];
       var i := pc.pos % s.n;
       t == SetPc(s, p, Idle).(
              slots := s.slots[i := s.slots[i].(mark := pc.pos + 1)],
              done := s.done + [pc.pos])
  }

  ghost predicate PushStep<V(!new)>(s: State<V>, t: State<V>, p: Producer) {
    || (exists v :: LoadTailStep(s, t, p, v))
    || LoadMarkStep(s, t, p)
    || ClaimStep(s, t, p)
    || ClaimFailStep(s, t, p)
    || ReloadStep(s, t, p)
    || WriteStep(s, t, p)
    || CommitStep(s, t, p)
  }

  /** The consumer's next access. A `Pop` that finds the head ticket uncommitted stays Ready. */
  ghost predicate PopStep<V>(s: State<V>, t: State<V>) {
    && Shaped(s)
    && var i := s.head % s.n;
       match s.popper
       case Ready =>
         t == if s.slots[i].mark == s.head + 1 then s.(popper := Take) else s
       case Take =>
         t == s.(popper := Free(s.slots[i].value))
       case Free(v) =>
         t == s.(popper := Advance,
                 slots := s.slots[i := s.slots[i].(mark := s.head + s.n)],
                 popped := s.popped + [v])
       case Advance =>
         t == s.(popper := Ready, head := s.head + 1)
  }

  ghost predicate Next<V(!new)>(s: State<V>, t: State<V>) {
    (exists p :: PushStep(s, t, p)) || PopStep(s, t)
  }

  // ---------------------------------------------------------------------------------------
  // The invariant
  // ---------------------------------------------------------------------------------------

  /** Tickets whose slot has been handed back to producers. */
  ghost function Released<V>(s: State<V>): nat {
    s.head + if s.popper.Advance? then 1 else 0
  }

  ghost predicate InFlight<V>(s: State<V>, p: Producer, t: nat) {
    p in s.pushers && (s.pushers[p].Write? || s.pushers[p].Commit?) && s.pushers[p].pos == t
  }

  /** The slot of ticket `t`, for a ticket of the current window. */
  ghost predicate SlotOk<V>(s: State<V>, t: nat)
    requires Shaped(s) && |s.tickets| == s.tail
  {
    var slot := s.slots[t % s.n];
    if t < s.tail then
      || (slot.mark == t + 1 && slot.value == s.tickets[t].1)
      || (slot.mark == t && InFlight(s, s.tickets[t].0, t))
    else
      slot.mark == t
  }

  ghost predicate PusherOk<V>(s: State<V>, p: Producer)
    requires Shaped(s) && |s.tickets| == s.tail && p in s.pushers
  {
    match s.pushers[p]
    case Idle => true
    case LoadMark(_, pos) => pos <= s.tail
    case Claim(_, pos) => pos < s.tail || (pos == s.tail && s.tail < Released(s) + s.n)
    case Reload(_) => true
    case Write(v, pos) =>
      Released(s) <= pos < s.tail && s.tickets[pos] == (p, v) && MarkAt(s, pos) == pos
    case Commit(v, pos) =>
      && Released(s) <= pos < s.tail && s.tickets[pos] == (p, v) && MarkAt(s, pos) == pos
      && s.slots[pos % s.n].value == v
  }

  ghost predicate PopperOk<V>(s: State<V>)
    requires Shaped(s) && |s.tickets| == s.tail
  {
    match s.popper
    case Ready => true
    case Take => s.head < s.tail && MarkAt(s, s.head) == s.head + 1
    case Free(v) => s.head < s.tail && MarkAt(s, s.head) == s.head + 1 && v == s.tickets[s.head].1
    case Advance => s.head < s.tail
  }

  ghost predicate Counted<V>(s: State<V>) {
    && s.n >= 2 && |s.slots| == s.n
    && |s.tickets| == s.tail
    && Released(s) <= s.tail <= Released(s) + s.n
  }

  ghost predicate DoneOk<V>(s: State<V>) {
    && (forall i :: 0 <= i < |s.done| ==> s.done[i] < s.tail)
    && (forall i, p :: 0 <= i < |s.done| ==> !InFlight(s, p, s.done[i]))
    && (forall i, j :: 0 <= i < j < |s.done| ==> s.done[i] != s.done[j])
  }

  ghost predicate PoppedOk<V>(s: State<V>) {
    && |s.popped| == Released(s) <= |s.tickets|
    && forall i :: 0 <= i < |s.popped| ==> s.popped[i] == s.tickets[i].1
  }

  ghost predicate Inv<V>(s: State<V>) {
    && Counted(s)
    && (forall t: nat :: Released(s) <= t < Released(s) + s.n ==> SlotOk(s, t))
    && (forall p :: p in s.pushers ==> PusherOk(s, p))
    && PopperOk(s)
    && DoneOk(s)
    && PoppedOk(s)
  }

  // ---------------------------------------------------------------------------------------
  // Residues: two tickets of one window never share a slot
  // ---------------------------------------------------------------------------------------

  lemma Multiples(n: int, d: int)
    requires n > 0
    ensures d >= 1 ==> n * d >= n
    ensures d <= -1 ==> n * d <= -n
  {
  }

  lemma Residue(x: nat, q: nat, r: nat, n: nat)
    requires n > 0 && x == n * q + r && r < n
    ensures x % n == r
  {
    assert n * (x / n - q) == r - x % n by { assert x == n * (x / n) + x % n; }
    Multiples(n, x / n - q);
  }

  lemma NextLap(a: nat, n: nat)
    requires n > 0
    ensures (a + n) % n == a % n
  {
    assert a + n == n * (a / n + 1) + a % n;
    Residue(a + n, a / n + 1, a % n, n);
  }

  /** Two different tickets of one window of n tickets have different slots. */
  lemma Separate(lo: nat, a: nat, b: nat, n: nat)
    requires n > 0 && lo <= a < lo + n && lo <= b < lo + n && a != b
    ensures a % n != b % n
  {
    assert b - a == n * (b / n - a / n) + (b % n - a % n) by {
      assert a == n * (a / n) + a % n;
      assert b == n * (b / n) + b % n;
    }
    Multiples(n, b / n - a / n);
  }

  /** A position no later than the window shares its slot with one ticket of the window. */
  lemma {:induction false} WindowTicket(lo: nat, pos: nat, n: nat) returns (t: nat)
    requires n > 0 && pos < lo + n
    ensures lo <= t < lo + n && t % n == pos % n
    ensures if lo <= pos then t == pos else t > pos
    decreases lo + n - pos
  {
    if lo <= pos {
      t := pos;
    } else {
      NextLap(pos, n);
      t := WindowTicket(lo, pos + n, n);
    }
  }

  // ---------------------------------------------------------------------------------------
  // Every step keeps the invariant
  // ---------------------------------------------------------------------------------------

  lemma InitInv<V(!new)>(s: State<V>)
    requires Init(s) && s.n >= 2
    ensures Inv(s)
  {
    forall t: nat | t < s.n ensures SlotOk(s, t) { Residue(t, 0, t, s.n); }
  }

  /** A step that only moves one producer among the positions before it owns a ticket. */
  lemma MoveKeepsInv<V>(s: State<V>, t: State<V>, p: Producer, pc: PushPc<V>)
    requires Inv(s) && p in s.pushers && !s.pushers[p].Write? && !s.pushers[p].Commit?
    requires !pc.Write? && !pc.Commit? && t == SetPc(s, p, pc) && PusherOk(t, p)
    ensures Inv(t)
  {
    forall k: nat | Released(t) <= k < Released(t) + t.n ensures SlotOk(t, k) {
      assert SlotOk(s, k);
    }
    forall q | q in t.pushers ensures PusherOk(t, q) { assert q == p || PusherOk(s, q); }
    forall i, q | 0 <= i < |t.done| ensures !InFlight(t, q, t.done[i]) {
      assert !InFlight(s, q, s.done[i]);
    }
  }

  lemma LoadMarkKeepsInv<V>(s: State<V>, t: State<V>, p: Producer)
    requires Inv(s) && LoadMarkStep(s, t, p)
    ensures Inv(t)
  {
    var pc := s.pushers[p];
    assert PusherOk(s, p);
    if MarkAt(s, pc.pos) == pc.pos && pc.pos == s.tail {
      FullExactly(s, p);
    }
    MoveKeepsInv(s, t, p, t.pushers[p]);
  }

  /**
   A `Push` gives up exactly when the tail it looks at is current and every one of the n slots
   belongs to a claimed ticket that has not been handed back.
   */
  lemma FullExactly<V>(s: State<V>, p: Producer)
    requires Inv(s) && p in s.pushers && s.pushers[p].LoadMark?
    ensures var pos := s.pushers[p].pos;
            && (MarkAt(s, pos) < pos <==> pos == s.tail && s.tail == Released(s) + s.n)
            && (pos == s.tail && MarkAt(s, pos) == pos ==> s.tail < Released(s) + s.n)
  {
    var pos := s.pushers[p].pos;
    assert PusherOk(s, p);
    var r := Released(s);
    if pos < r + s.n {
      var t := WindowTicket(r, pos, s.n);
      assert SlotOk(s, t);
    } else {
      assert pos == s.tail == r + s.n;
      NextLap(r, s.n);
      assert SlotOk(s, r);
    }
  }

  lemma ClaimKeepsInv<V>(s: State<V>, t: State<V>, p: Producer)
    requires Inv(s) && ClaimStep(s, t, p)
    ensures Inv(t)
  {
    assert PusherOk(s, p);
    assert SlotOk(s, s.tail);
    forall k: nat | Released(t) <= k < Released(t) + t.n ensures SlotOk(t, k) {
      assert SlotOk(s, k);
    }
    forall q | q in t.pushers ensures PusherOk(t, q) { assert PusherOk(s, q); }
    forall i, q | 0 <= i < |t.done| ensures !InFlight(t, q, t.done[i]) {
      assert !InFlight(s, q, s.done[i]);
    }
  }

  /** Storing into the slot of ticket `pos` leaves the slots of all other window tickets alone. */
  lemma OtherSlots<V>(s: State<V>, pos: nat, slot: Slot<V>, k: nat)
    requires Shaped(s)
    requires Released(s) <= pos < Released(s) + s.n && Released(s) <= k < Released(s) + s.n && k != pos
    ensures s.slots[pos % s.n := slot][k % s.n] == s.slots[k % s.n]
  {
    Separate(Released(s), pos, k, s.n);
  }

  lemma StoreKeepsPushers<V>(s: State<V>, t: State<V>, p: Producer, slot: Slot<V>)
    requires Inv(s) && p in s.pushers && (s.pushers[p].Write? || s.pushers[p].Commit?)
    requires t.slots == s.slots[s.pushers[p].pos % s.n := slot] && t.tail == s.tail && t.n == s.n
    requires t.tickets == s.tickets && t.head == s.head && t.popper == s.popper
    requires t.pushers.Keys == s.pushers.Keys
    requires forall q :: q in s.pushers && q != p ==> t.pushers[q] == s.pushers[q]
    ensures forall q :: q in s.pushers && q != p ==> PusherOk(t, q)
  {
    var pos := s.pushers[p].pos;
    assert PusherOk(s, p);
    forall q | q in s.pushers && q != p ensures PusherOk(t, q) {
      assert PusherOk(s, q);
      match s.pushers[q]
      case Write(_, k) => OtherSlots(s, pos, slot, k);
      case Commit(_, k) => OtherSlots(s, pos, slot, k);
      case _ =>
    }
  }

  lemma StoreKeepsPopper<V>(s: State<V>, t: State<V>, p: Producer, slot: Slot<V>)
    requires Inv(s) && p in s.pushers && (s.pushers[p].Write? || s.pushers[p].Commit?)
    requires t.slots == s.slots[s.pushers[p].pos % s.n := slot] && t.tail == s.tail && t.n == s.n
    requires t.tickets == s.tickets && t.head == s.head && t.popper == s.popper
    ensures PopperOk(t)
  {
    assert PusherOk(s, p);
    if s.popper.Take? || s.popper.Free? {
      assert s.pushers[p].pos != s.head;
      OtherSlots(s, s.pushers[p].pos, slot, s.head);
    }
  }

  lemma StoreKeepsInv<V>(s: State<V>, t: State<V>, p: Producer)
    requires Inv(s) && (WriteStep(s, t, p) || CommitStep(s, t, p))
    ensures Inv(t)
  {
    var pos := s.pushers[p].pos;
    var slot := t.slots[pos % s.n];
    assert PusherOk(s, p);
    assert t.slots == s.slots[pos % s.n := slot];
    StoreKeepsPushers(s, t, p, slot);
    StoreKeepsPopper(s, t, p, slot);
    forall k: nat | Released(t) <= k < Released(t) + t.n ensures SlotOk(t, k) {
      assert SlotOk(s, k);
      if k != pos { OtherSlots(s, pos, slot, k); }
    }
    forall q | q in t.pushers ensures PusherOk(t, q) { assert q == p || PusherOk(t, q); }
    StoreKeepsDone(s, t, p);
  }

  lemma StoreKeepsDone<V>(s: State<V>, t: State<V>, p: Producer)
    requires Inv(s) && (WriteStep(s, t, p) || CommitStep(s, t, p))
    ensures DoneOk(t)
  {
    var pos := s.pushers[p].pos;
    assert PusherOk(s, p) && InFlight(s, p, pos);
    forall i, q | 0 <= i < |t.done| ensures !InFlight(t, q, t.done[i]) {
      if i < |s.done| {
        assert t.done[i] == s.done[i];
        assert !InFlight(s, q, s.done[i]);
        assert !InFlight(s, p, s.done[i]);
      } else if q in s.pushers {
        assert PusherOk(s, q);
      }
    }
    forall i, j | 0 <= i < j < |t.done| ensures t.done[i] != t.done[j] {
      assert !InFlight(s, p, s.done[i]);
    }
  }

  lemma PopKeepsInv<V>(s: State<V>, t: State<V>)
    requires Inv(s) && PopStep(s, t)
    ensures Inv(t)
  {
    var h := s.head;
    match s.popper {
      case Ready =>
        if t != s { assert SlotOk(s, h); PopBookkeeping(s, t); }
      case Take =>
        assert SlotOk(s, h);
        PopBookkeeping(s, t);
      case Free(_) =>
        FreeKeepsInv(s, t);
      case Advance =>
        PopBookkeeping(s, t);
    }
  }

  lemma PopBookkeeping<V>(s: State<V>, t: State<V>)
    requires Inv(s) && Shaped(t) && t == s.(popper := t.popper, head := t.head)
    requires Released(t) == Released(s) && PopperOk(t)
    ensures Inv(t)
  {
    forall k: nat | Released(t) <= k < Released(t) + t.n ensures SlotOk(t, k) { assert SlotOk(s, k); }
    forall q | q in t.pushers ensures PusherOk(t, q) { assert PusherOk(s, q); }
    forall i, q | 0 <= i < |t.done| ensures !InFlight(t, q, t.done[i]) {
      assert !InFlight(s, q, s.done[i]);
    }
  }

  lemma FreeKeepsInv<V>(s: State<V>, t: State<V>)
    requires Inv(s) && s.popper.Free? && PopStep(s, t)
    ensures Inv(t)
  {
    var h := s.head;
    var slot := t.slots[h % s.n];
    NextLap(h, s.n);
    forall k: nat | Released(t) <= k < Released(t) + t.n ensures SlotOk(t, k) {
      if k < h + s.n {
        assert SlotOk(s, k);
        OtherSlots(s, h, slot, k);
      }
    }
    forall q | q in t.pushers ensures PusherOk(t, q) {
      assert PusherOk(s, q);
      match s.pushers[q]
      case Write(_, k) => OtherSlots(s, h, slot, k);
      case Commit(_, k) => OtherSlots(s, h, slot, k);
      case _ =>
    }
    forall i, q | 0 <= i < |t.done| ensures !InFlight(t, q, t.done[i]) {
      assert !InFlight(s, q, s.done[i]);
    }
  }

  lemma StepKeepsInv<V(!new)>(s: State<V>, t: State<V>)
    requires Inv(s) && Next(s, t)
    ensures Inv(t)
  {
    if PopStep(s, t) {
      PopKeepsInv(s, t);
    } else {
      var p :| PushStep(s, t, p);
      assert PusherOk(s, p);
      if WriteStep(s, t, p) || CommitStep(s, t, p) {
        StoreKeepsInv(s, t, p);
      } else if LoadMarkStep(s, t, p) {
        LoadMarkKeepsInv(s, t, p);
      } else if ClaimStep(s, t, p) {
        ClaimKeepsInv(s, t, p);
      } else {
        MoveKeepsInv(s, t, p, t.pushers[p]);
      }
    }
  }

  // ---------------------------------------------------------------------------------------
  // What every run guarantees
  // ---------------------------------------------------------------------------------------

  /**
   Pops deliver tickets 0, 1, 2, ... each with the value its producer pushed; successful pushes
   hold distinct tickets; and the slot of a pushed, unpopped ticket still holds its value.
   */
  ghost predicate Fifo<V>(s: State<V>) {
    && Shaped(s)
    && |s.popped| <= |s.tickets|
    && (forall i :: 0 <= i < |s.popped| ==> s.popped[i] == s.tickets[i].1)
    && (forall i, j :: 0 <= i < j < |s.done| ==> s.done[i] != s.done[j])
    && (forall i :: 0 <= i < |s.done| ==> s.done[i] < |s.tickets|)
    && (forall i :: 0 <= i < |s.done| && s.done[i] >= |s.popped| ==>
          s.slots[s.done[i] % s.n] == Slot(s.done[i] + 1, s.tickets[s.done[i]].1))
  }

  lemma InvIsFifo<V>(s: State<V>)
    requires Inv(s)
    ensures Fifo(s)
  {
    forall i | 0 <= i < |s.done| && s.done[i] >= |s.popped|
      ensures s.slots[s.done[i] % s.n] == Slot(s.done[i] + 1, s.tickets[s.done[i]].1)
    {
      assert SlotOk(s, s.done[i]);
      assert !InFlight(s, s.tickets[s.done[i]].0, s.done[i]);
    }
  }

  ghost predicate InitTwo<V(!new)>(s: State<V>) {
    Init(s) && s.n >= 2
  }

  lemma InvOnRun<V(!new)>(run: seq<State<V>>, k: nat)
    requires IsRun(InitTwo, Next, run) && k < |run|
    ensures Inv(run[k])
  {
    forall s: State<V> | InitTwo(s) ensures Inv(s) { InitInv(s); }
    forall s: State<V>, t: State<V> | Inv(s) && Next(s, t) ensures Inv(t) { StepKeepsInv(s, t); }
    InvariantOnRun(InitTwo, Next, Inv, run, k);
  }

  /** Any number of producers, any capacity of at least two, every interleaving. */
  lemma FifoOnEveryRun<V(!new)>(run: seq<State<V>>, k: nat)
    requires IsRun(InitTwo, Next, run) && k < |run|
    ensures Fifo(run[k])
  {
    InvOnRun(run, k);
    InvIsFifo(run[k]);
  }

  /**
   On every such run a `Push` that reads a slot's mark gives up exactly at an instant when its tail is
   current and n tickets are claimed and not handed back.
   */
  lemma FullOnEveryRun<V(!new)>(run: seq<State<V>>, k: nat, p: Producer)
    requires IsRun(InitTwo, Next, run) && k < |run| && p in run[k].pushers && run[k].pushers[p].LoadMark?
    ensures var s, pos := run[k], run[k].pushers[p].pos;
            && Shaped(s)
            && (MarkAt(s, pos) < pos <==> pos == s.tail && s.tail == Released(s) + s.n)
            && (pos == s.tail && MarkAt(s, pos) == pos ==> s.tail < Released(s) + s.n)
  {
    hide IsRun; hide InitTwo; hide Next;
    InvOnRun(run, k);
    FullExactly(run[k], p);
  }

  ghost predicate InitOne(s: State<int>) {
    Init(s) && s.n == 1
  }

  /** One producer pushes alone into a one-slot ring whose tail is free, up to storing its value. */
  lemma OneSlotPush(run: seq<State<int>>, v: int) returns (longer: seq<State<int>>)
    requires IsRun(InitOne, Next, run)
    requires var s := run[|run| - 1];
             s.n == 1 && |s.slots| == 1 && s.slots[0].mark == s.tail && s.pushers == map[0 := Idle]
    ensures IsRun(InitOne, Next, longer)
    ensures var s := run[|run| - 1];
            longer[|longer| - 1] ==
              s.(pushers := map[0 := Commit(v, s.tail)], tail := s.tail + 1,
                 slots := [Slot(s.tail, v)], tickets := s.tickets + [(0, v)])
  {
    var s := run[|run| - 1];
    Residue(s.tail, s.tail, 0, 1);
    var s1 := SetPc(s, 0, LoadMark(v, s.tail));
    assert LoadTailStep(s, s1, 0, v) && PushStep(s, s1, 0);
    Extend(InitOne, Next, run, s1);
    var s2 := SetPc(s1, 0, Claim(v, s.tail));
    assert LoadMarkStep(s1, s2, 0) && PushStep(s1, s2, 0);
    Extend(InitOne, Next, run + [s1], s2);
    var s3 := SetPc(s2, 0, Write(v, s.tail)).(tail := s.tail + 1, tickets := s.tickets + [(0, v)]);
    assert ClaimStep(s2, s3, 0) && PushStep(s2, s3, 0);
    Extend(InitOne, Next, run + [s1] + [s2], s3);
    var s4 := SetPc(s3, 0, Commit(v, s.tail)).(slots := [Slot(s.tail, v)]);
    assert WriteStep(s3, s4, 0) && PushStep(s3, s4, 0);
    Extend(InitOne, Next, run + [s1] + [s2] + [s3], s4);
    longer := run + [s1] + [s2] + [s3] + [s4];
    assert s4.pushers == map[0 := Commit(v, s.tail)];
  }

  /**
   With one slot the committed mark of ticket 0 equals the free mark of ticket 1, so a second push
   overwrites the first one's value before it is popped.
   */
  lemma OneSlotOverwrites() returns (run: seq<State<int>>)
    ensures IsRun(InitOne, Next, run)
    ensures !Fifo(run[|run| - 1])
  {
    var s0 := State(1, 0, 0, [Slot(0, 0)], map[0 := Idle], Ready, [], [], []);
    run := OneSlotPush([s0], 5);
    var pushed := run[|run| - 1];
    var s := SetPc(pushed, 0, Idle).(slots := [Slot(1, 5)], done := [0]);
    assert CommitStep(pushed, s, 0) && PushStep(pushed, s, 0);
    Extend(InitOne, Next, run, s);
    assert s.pushers == map[0 := Idle];
    run := OneSlotPush(run + [s], 6);
    assert run[|run| - 1].done[0] == 0;
  }

  /** The ring keeps its promise for exactly the capacities above one. */
  lemma FifoIffTwoSlots(n: nat)
    requires n >= 1
    ensures n >= 2 <==>
            forall run: seq<State<int>>, k: nat ::
              IsRun(s => Init(s) && s.n == n, Next, run) && k < |run| ==> Fifo(run[k])
  {
    if n >= 2 {
      forall run: seq<State<int>>, k: nat |
        IsRun(s => Init(s) && s.n == n, Next, run) && k < |run|
        ensures Fifo(run[k])
      {
        assert IsRun(InitTwo, Next, run);
        FifoOnEveryRun(run, k);
      }
    } else {
      var run := OneSlotOverwrites();
      assert IsRun(s => Init(s) && s.n == n, Next, run);
      assert !Fifo(run[|run| - 1]);
    }
  }

  // ---------------------------------------------------------------------------------------
  // The ring in memory
  // ---------------------------------------------------------------------------------------

  /**
   The ring's memory, together with the local variables of the calls in progress. Each method below
   is one access of the running `Push` or `Pop`, so a program of them is a run of the system above.
   */
  class Ring<V(!new)> {
    const n: nat
    const slots: array<Slot<V>>
    var tail: nat
    var head: nat
    var pushers: map<Producer, PushPc<V>>
    var popper: PopPc<V>
    ghost var tickets: seq<(Producer, V)>
    ghost var done: seq<nat>
    ghost var popped: seq<V>

    ghost predicate Valid()
      reads this
    {
      n >= 1 && slots.Length == n
    }

    ghost function View(): State<V>
      reads this, slots
    {
      State(n, tail, head, slots[..], pushers, popper, tickets, done, popped)
    }

    constructor (capacity: nat, producers: set<Producer>, blank: V)
      requires capacity >= 1
      ensures Valid() && Init(View()) && n == capacity && pushers.Keys == producers && fresh(slots)
    {
      n := capacity;
      slots := new Slot<V>[capacity](i => Slot(i, blank));
      tail, head, popper := 0, 0, Ready;
      pushers := map p | p in producers :: Idle;
      tickets, done, popped := [], [], [];
    }

    /** Producer p's next access; `v` is the argument of a new call, `fails` a weak exchange failing. */
    method PushAccess(p: Producer, v: V, fails: bool)
      requires Valid() && p in pushers
      modifies this, slots
      ensures Valid() && PushStep(old(View()), View(), p)
    {
      ghost var s := View();
      match pushers[p] {
        case Idle =>
          pushers := pushers[p := LoadMark(v, tail)];
          assert LoadTailStep(s, View(), p, v);
        case LoadMark(value, pos) =>
          var mark := slots[pos % n].mark;
          pushers := pushers[p := if mark == pos then Claim(value, pos)
                                  else if mark < pos then Idle
                                  else Reload(value)];
          assert LoadMarkStep(s, View(), p);
        case Claim(value, pos) =>
          if tail == pos && !fails {
            tail := tail + 1;
            tickets := tickets + [(p, value)];
            pushers := pushers[p := Write(value, pos)];
            assert ClaimStep(s, View(), p);
          } else {
            pushers := pushers[p := LoadMark(value, tail)];
            assert ClaimFailStep(s, View(), p);
          }
        case Reload(value) =>
          pushers := pushers[p := LoadMark(value, tail)];
          assert ReloadStep(s, View(), p);
        case Write(value, pos) =>
          slots[pos % n] := slots[pos % n].(value := value);
          pushers := pushers[p := Commit(value, pos)];
          assert WriteStep(s, View(), p);
        case Commit(_, pos) =>
          slots[pos % n] := slots[pos % n].(mark := pos + 1);
          done := done + [pos];
          pushers := pushers[p := Idle];
          assert CommitStep(s, View(), p);
      }
    }

    /** The consumer's next access. */
    method PopAccess()
      requires Valid()
      modifies this, slots
      ensures Valid() && PopStep(old(View()), View())
    {
      var i := head % n;
      match popper {
        case Ready =>
          if slots[i].mark == head + 1 { popper := Take; }
        case Take =>
          popper := Free(slots[i].value);
        case Free(v) =>
          slots[i] := slots[i].(mark := head + n);
          popped := popped + [v];
          popper := Advance;
        case Advance =>
          head := head + 1;
          popper := Ready;
      }
    }
  }
}
