/**
 The wake protocol of Passage, over the ring's own steps. Producer threads interleave with
 everything. The receiver context and the wake lambda share the target thread, so a wake runs only
 while the receiver is outside its calls or suspended inside `Recv`.
 */
module Passage {
  import opened Runs
  import R = MpscRing

  /** What a thread still has to do in `SubmitWake`, after a push or a `Shutdown`. */
  datatype Caller =
    | Quiet
    | Announce(force: bool)   // about to compare-exchange wakePending
    | Submit(force: bool)     // won the exchange, about to submit the wake
    | Retract(force: bool)    // the target refused, about to clear wakePending
    | Close                   // a refused Send, about to set shutdown

  /** The wake lambda on the target thread. */
  datatype Wake =
    | NoWake
    | Clear(force: bool)      // about to clear wakePending
    | Check(force: bool)      // about to read shutdown
    | Look                    // about to read the ring
    | Release                 // decided to release recv if it is held

  /** Which call a pop belongs to: TryRecv, Recv, Drain (with or without an item yet), or Recv owning recv. */
  datatype Kind = Try | Recv | Batch(some: bool) | Owned

  /** The receiver context. */
  datatype Receiver =
    | Away
    | Pop(kind: Kind)
    | Check'(owned: bool)     // popped, about to read whether the ring is empty
    | Hold                    // saw it empty, about to take recv if it is free
    | LetGo                   // about to release recv if it is held, then return
    | Spent                   // owns recv but found no item
    | Closing                 // Recv found no item, about to read shutdown
    | Prepare                 // not shut down, about to take recv if it is free
    | Decide                  // about to yield or to wait on recv
    | Dry                     // suspended by Yield inside Recv
    | Blocked                 // waiting on recv, kill or timeout
    | Granted                 // recv was handed over while waiting

  /**
   `refused` and `abandoned` are history: the target has refused a submission, and a `Send` has found
   the target shutting down and closed the passage.
   */
  datatype State<V> = State(
    ring: R.State<V>,
    callers: map<R.Producer, Caller>,
    wakePending: bool,
    queue: seq<bool>,         // submitted wakes, each with its releaseOnEmpty flag
    shutdown: bool,
    held: bool,               // the recv coordinator
    wake: Wake,
    rx: Receiver,
    refused: bool,
    abandoned: bool)

  ghost predicate Init<V(!new)>(s: State<V>) {
    && R.InitTwo(s.ring)
    && s.callers.Keys == s.ring.pushers.Keys
    && (forall p :: p in s.callers ==> s.callers[p] == Quiet)
    && !s.wakePending && s.queue == [] && !s.shutdown && s.held
    && s.wake == NoWake && s.rx == Away && !s.refused && !s.abandoned
  }

  ghost predicate HeadReady<V>(r: R.State<V>) {
    R.Shaped(r) && R.MarkAt(r, R.Released(r)) == R.Released(r) + 1
  }

  /** The receiver is not running, so another context of the target thread may run. */
  predicate Parked(rx: Receiver) {
    rx.Away? || rx.Dry? || rx.Blocked? || rx.Granted?
  }

  function SetCaller<V>(s: State<V>, p: R.Producer, c: Caller): State<V> {
    s.(callers := s.callers[p := c])
  }

  // ---------------------------------------------------------------------------------------
  // Producer threads
  // ---------------------------------------------------------------------------------------

  /** An access of `Push`; storing the committed mark is followed by `SubmitWake(false)`. */
  ghost predicate SendStep<V(!new)>(s: State<V>, t: State<V>, p: R.Producer) {
    && p in s.callers && s.callers[p] == Quiet
    && R.PushStep(s.ring, t.ring, p)
    && t == s.(ring := t.ring,
               callers := if R.CommitStep(s.ring, t.ring, p)
                          then s.callers[p := Announce(false)] else s.callers)
  }

  /** The exchange that opens `Shutdown`; only the first caller goes on to `SubmitWake(true)`. */
  ghost predicate ShutdownStep<V>(s: State<V>, t: State<V>, p: R.Producer) {
    && p in s.callers && s.callers[p] == Quiet
    && p in s.ring.pushers && s.ring.pushers[p] == R.Idle
    && t == if s.shutdown then s else SetCaller(s, p, Announce(true)).(shutdown := true)
  }

  /** The shared state `SubmitWake` works on, and what one access makes of it. */
  datatype Shared = Shared(wakePending: bool, queue: seq<bool>, shutdown: bool, refused: bool)

  predicate SubmitMove(c: Caller, m: Shared, c': Caller, m': Shared) {
    match c
    case Quiet => false
    case Announce(force) =>
      if m.wakePending then c' == Quiet && m' == m else c' == Submit(force) && m' == m.(wakePending := true)
    case Submit(force) =>
      || (c' == Quiet && m' == m.(queue := m.queue + [force]))
      || (c' == Retract(force) && m' == m.(refused := true))
    case Retract(force) =>
      c' == (if force then Quiet else Close) && m' == m.(wakePending := false)
    case Close =>
      c' == Quiet && m' == m.(shutdown := true)
  }

  function SharedOf<V>(s: State<V>): Shared { Shared(s.wakePending, s.queue, s.shutdown, s.refused) }

  ghost predicate SubmitWakeStep<V>(s: State<V>, t: State<V>, p: R.Producer) {
    && p in s.callers && p in t.callers
    && t == SetCaller(s, p, t.callers[p]).(
              wakePending := t.wakePending, queue := t.queue, shutdown := t.shutdown, refused := t.refused)
    && SubmitMove(s.callers[p], SharedOf(s), t.callers[p], SharedOf(t))
  }

  /** A `Send` that finds the target shutting down closes the passage without waking anyone. */
  ghost predicate AbandonStep<V>(s: State<V>, t: State<V>) {
    t == s.(shutdown := true, abandoned := true)
  }

  // ---------------------------------------------------------------------------------------
  // The target thread
  // ---------------------------------------------------------------------------------------

  /** The recv coordinator and the receiver. */
  datatype Side = Side(held: bool, rx: Receiver)

  function SideOf<V>(s: State<V>): Side { Side(s.held, s.rx) }

  /** Releasing recv: a waiting receiver takes it over and it stays held. */
  function Released(x: Side): Side {
    if !x.held then x
    else if x.rx.Blocked? then x.(rx := Granted)
    else x.(held := false)
  }

  /** One access of the wake lambda; `ready` says whether the head ticket is committed. */
  predicate WakeMove(ready: bool, wake: Wake, m: Shared, x: Side, wake': Wake, m': Shared, x': Side) {
    match wake
    case NoWake => m.queue != [] && wake' == Clear(m.queue[0]) && m' == m.(queue := m.queue[1..]) && x' == x
    case Clear(force) => wake' == Check(force) && m' == m.(wakePending := false) && x' == x
    case Check(force) => wake' == (if force || m.shutdown then Release else Look) && m' == m && x' == x
    case Look => wake' == (if ready then Release else NoWake) && m' == m && x' == x
    case Release => wake' == NoWake && m' == m && x' == Released(x)
  }

  ghost predicate WakeStep<V>(s: State<V>, t: State<V>) {
    && Parked(s.rx)
    && t == s.(wake := t.wake, wakePending := t.wakePending, queue := t.queue, held := t.held, rx := t.rx)
    && WakeMove(HeadReady(s.ring), s.wake, SharedOf(s), SideOf(s), t.wake, SharedOf(t), SideOf(t))
  }

  /** `Shutdown` called on the target thread releases recv itself. */
  ghost predicate LocalShutdownStep<V>(s: State<V>, t: State<V>) {
    && Parked(s.rx) && s.wake == NoWake
    && t == s.(shutdown := true, held := t.held, rx := t.rx)
    && SideOf(t) == if s.shutdown then SideOf(s) else Released(SideOf(s))
  }

  /** An access of `Pop`, with the caller's next position when it returns. */
  ghost predicate ReceiverPop<V>(s: State<V>, t: State<V>) {
    && s.rx.Pop? && R.PopStep(s.ring, t.ring)
    && t == s.(ring := t.ring, rx := t.rx)
    && if s.ring.popper.Ready? && t.ring.popper.Ready? then
         t.rx == match s.rx.kind
                 case Try => Away
                 case Recv => Closing
                 case Batch(some) => if some then Check'(false) else Away
                 case Owned => Spent
       else if s.ring.popper.Advance? then
         match s.rx.kind
         case Try => t.rx == Check'(false)
         case Recv => t.rx == Check'(false)
         case Batch(_) => t.rx == Pop(Batch(true)) || t.rx == Check'(false)
         case Owned => t.rx == Check'(true)
       else t.rx == s.rx
  }

  /** The start of a call, and `Recv` starting over after a suspension. */
  predicate CallMove(x: Side, x': Side) {
    match x.rx
    case Away => x' == x.(rx := Pop(Try)) || x' == x.(rx := Pop(Recv)) || x' == x.(rx := Pop(Batch(false)))
    case Dry => x' == x.(rx := Pop(Recv))
    case _ => false
  }

  /** `Recv` after it found no item. */
  predicate WaitMove(shutdown: bool, x: Side, x': Side) {
    match x.rx
    case Closing => x' == x.(rx := if shutdown then LetGo else Prepare)
    case Prepare => x' == Side(true, Decide)
    case Decide => x' == x.(rx := Dry) || x' == x.(rx := Blocked)
    case Blocked => x' == x.(rx := Pop(Recv)) || x' == x.(rx := Away)      // timeout, or killed
    case _ => false
  }

  /** After a successful pop, or holding recv after a wait. */
  predicate LeaveMove(ready: bool, x: Side, x': Side) {
    match x.rx
    case Check'(owned) =>
      x' == x.(rx := if owned then (if ready then LetGo else Away) else (if ready then Away else Hold))
    case Hold => x' == Side(true, Away)
    case LetGo => x' == Side(false, Away)
    case Spent => x' == Side(false, Away)
    case Granted => x' == x.(rx := Pop(Owned)) || x' == x.(rx := LetGo)    // recv wins, or killed
    case _ => false
  }

  predicate ReceiverMove(ready: bool, shutdown: bool, x: Side, x': Side) {
    CallMove(x, x') || WaitMove(shutdown, x, x') || LeaveMove(ready, x, x')
  }

  ghost predicate ReceiverStep<V>(s: State<V>, t: State<V>) {
    s.wake == NoWake &&
    (|| ReceiverPop(s, t)
     || (t == s.(held := t.held, rx := t.rx) && ReceiverMove(HeadReady(s.ring), s.shutdown, SideOf(s), SideOf(t))))
  }

  ghost predicate Next<V(!new)>(s: State<V>, t: State<V>) {
    || (exists p :: SendStep(s, t, p))
    || (exists p :: ShutdownStep(s, t, p))
    || (exists p :: SubmitWakeStep(s, t, p))
    || AbandonStep(s, t)
    || WakeStep(s, t)
    || LocalShutdownStep(s, t)
    || ReceiverStep(s, t)
  }

  // ---------------------------------------------------------------------------------------
  // The invariant
  // ---------------------------------------------------------------------------------------

  /** A thread that will still put a wake in the target's queue, or see that one is there. */
  predicate Announcing(c: Caller) {
    c.Announce? || c.Submit?
  }

  /** A wake that has not yet read the ring is on its way. */
  ghost predicate WakeOnItsWay(callers: map<R.Producer, Caller>, queue: seq<bool>, starting: bool) {
    queue != [] || starting || exists p :: p in callers && Announcing(callers[p])
  }

  ghost predicate Coming<V>(s: State<V>) {
    WakeOnItsWay(s.callers, s.queue, s.wake.Clear?)
  }

  /** recv is held by a receiver about to give it up or to pop under it. */
  predicate Owner(rx: Receiver) {
    rx.Granted? || (rx.Pop? && rx.kind.Owned?) || (rx.Check'? && rx.owned) || rx.LetGo? || rx.Spent?
  }

  /** The last thing the receiver read was that the head ticket is not committed. */
  predicate SawEmpty(rx: Receiver) {
    rx.Hold? || rx.Closing? || rx.Prepare?
  }

  /** An item that nobody is about to pop, behind a recv that is or will be held; no wake past its clear. */
  predicate DataNeedsWake(ready: bool, held: bool, rx: Receiver, wake: Wake) {
    ready && (held || SawEmpty(rx)) && !Owner(rx) && (wake.NoWake? || wake.Clear?)
  }

  /** A shutdown the receiver did not see before it went on to wait. */
  predicate ShutdownNeedsWake(shutdown: bool, rx: Receiver, wake: Wake) {
    shutdown && (rx.Prepare? || rx.Decide? || rx.Blocked?) && !wake.Check? && !wake.Release?
  }

  /** An item that nobody is about to pop has a wake on its way, wherever the receiver is in its calls. */
  ghost predicate NoLostData<V>(s: State<V>) {
    DataNeedsWake(HeadReady(s.ring), s.held, s.rx, s.wake) ==> Coming(s)
  }

  /** So has a shutdown that a waiting receiver, or one about to wait, did not see. */
  ghost predicate NoLostShutdown<V>(s: State<V>) {
    ShutdownNeedsWake(s.shutdown, s.rx, s.wake) ==> Coming(s)
  }

  /** Only `Shutdown` asks for a release on an empty ring. */
  ghost predicate Unforced(callers: map<R.Producer, Caller>, queue: seq<bool>) {
    && (forall p :: p in callers && Announcing(callers[p]) ==> !callers[p].force)
    && (forall i :: 0 <= i < |queue| ==> !queue[i])
  }

  ghost predicate ForcedMeansShutdown(
    shutdown: bool, callers: map<R.Producer, Caller>, queue: seq<bool>, wake: Wake)
  {
    !shutdown ==> Unforced(callers, queue) && (wake.Clear? || wake.Check? ==> !wake.force)
  }

  /** recv is handed over only for an item or a shutdown. */
  predicate Justified(ready: bool, popReady: bool, shutdown: bool, rx: Receiver, wake: Wake) {
    && (wake.Release? ==> ready || shutdown)
    && (rx.Granted? ==> ready || shutdown)
    && (rx.Pop? && rx.kind.Owned? && popReady ==> ready || shutdown)
    && (rx.Spent? ==> shutdown)
  }

  ghost function Holders(callers: map<R.Producer, Caller>): set<R.Producer> {
    set p | p in callers && (callers[p].Submit? || callers[p].Retract?)
  }

  /** At most one thread, queued wake or starting wake stands behind wakePending. */
  ghost predicate OneToken(callers: map<R.Producer, Caller>, queue: seq<bool>, starting: bool, wakePending: bool) {
    |queue| + |Holders(callers)| + (if starting then 1 else 0) == if wakePending then 1 else 0
  }

  ghost predicate NoneRefused(callers: map<R.Producer, Caller>) {
    forall p :: p in callers ==> !callers[p].Retract? && !callers[p].Close?
  }

  predicate Shape(popReady: bool, held: bool, rx: Receiver, wake: Wake) {
    && (!rx.Pop? ==> popReady)
    && (wake != NoWake ==> Parked(rx))
    && (rx.Blocked? || rx.Decide? ==> held)
  }

  ghost predicate WakeInv<V>(s: State<V>) {
    && s.callers.Keys == s.ring.pushers.Keys
    && Shape(s.ring.popper.Ready?, s.held, s.rx, s.wake)
    && (!s.refused ==> NoneRefused(s.callers))
    && OneToken(s.callers, s.queue, s.wake.Clear?, s.wakePending)
    && ForcedMeansShutdown(s.shutdown, s.callers, s.queue, s.wake)
    && Justified(HeadReady(s.ring), s.ring.popper.Ready?, s.shutdown, s.rx, s.wake)
    && (!s.refused ==> NoLostData(s))
    && (!s.refused && !s.abandoned ==> NoLostShutdown(s))
  }

  ghost predicate Inv<V>(s: State<V>) {
    R.Inv(s.ring) && WakeInv(s)
  }

  // ---------------------------------------------------------------------------------------
  // Every step keeps the invariant
  // ---------------------------------------------------------------------------------------

  /** Producers never take a committed head ticket back, and only a commit makes one. */
  lemma PushAndHead<V(!new)>(r: R.State<V>, q: R.State<V>, p: R.Producer)
    requires R.Inv(r) && R.PushStep(r, q, p)
    ensures R.Released(q) == R.Released(r) && q.popper == r.popper && q.pushers.Keys == r.pushers.Keys
    ensures HeadReady(r) ==> HeadReady(q)
    ensures HeadReady(q) && !HeadReady(r) ==> R.CommitStep(r, q, p)
  {
    if R.CommitStep(r, q, p) {
      assert R.PusherOk(r, p);
      var pos := r.pushers[p].pos;
      if pos != R.Released(r) {
        R.OtherSlots(r, pos, q.slots[pos % r.n], R.Released(r));
      }
    }
  }

  /** While a pop is in progress the head ticket it works on is committed. */
  lemma PopAndHead<V>(r: R.State<V>, q: R.State<V>)
    requires R.Inv(r) && R.PopStep(r, q)
    ensures r.popper.Free? ==> HeadReady(r)
    ensures !r.popper.Free? ==> (HeadReady(q) <==> HeadReady(r))
    ensures r.popper.Ready? ==> (q.popper.Ready? <==> !HeadReady(r)) && (q.popper.Ready? ==> q == r)
    ensures r.popper.Advance? ==> q.popper.Ready?
  {
  }

  lemma InitInv<V(!new)>(s: State<V>)
    requires Init(s)
    ensures Inv(s)
  {
    R.InitInv(s.ring);
    assert Holders(s.callers) == {};
    R.Residue(0, 0, 0, s.ring.n);
  }

  lemma SendKeepsWakes<V>(s: State<V>, t: State<V>, p: R.Producer, committed: bool)
    requires WakeInv(s) && p in s.callers && s.callers[p] == Quiet
    requires t.ring.popper == s.ring.popper && t.ring.pushers.Keys == s.ring.pushers.Keys
    requires HeadReady(s.ring) ==> HeadReady(t.ring)
    requires HeadReady(t.ring) && !HeadReady(s.ring) ==> committed
    requires t == s.(ring := t.ring,
                     callers := if committed then s.callers[p := Announce(false)] else s.callers)
    ensures WakeInv(t)
  {
    hide HeadReady;
    assert Holders(t.callers) == Holders(s.callers);
    if committed { assert Announcing(t.callers[p]); }
  }

  lemma SendKeepsInv<V(!new)>(s: State<V>, t: State<V>, p: R.Producer)
    requires Inv(s) && SendStep(s, t, p)
    ensures Inv(t)
  {
    hide R.Inv; hide WakeInv; hide R.PushStep; hide R.CommitStep;
    PushAndHead(s.ring, t.ring, p);
    assert R.Next(s.ring, t.ring);
    R.StepKeepsInv(s.ring, t.ring);
    SendKeepsWakes(s, t, p, R.CommitStep(s.ring, t.ring, p));
  }

  lemma ShutdownKeepsInv<V>(s: State<V>, t: State<V>, p: R.Producer)
    requires Inv(s) && ShutdownStep(s, t, p)
    ensures Inv(t)
  {
    hide R.Inv;
    if !s.shutdown {
      assert Holders(t.callers) == Holders(s.callers);
      assert Announcing(t.callers[p]);
    }
  }

  /** A thread that finds wakePending set may stop: the token it saw is still on its way. */
  lemma AnnounceKeepsInv<V>(s: State<V>, t: State<V>, p: R.Producer)
    requires Inv(s) && SubmitWakeStep(s, t, p) && s.callers[p].Announce?
    ensures Inv(t)
  {
    hide R.Inv; hide HeadReady;
    if !s.wakePending {
      assert Holders(t.callers) == Holders(s.callers) + {p};
      assert Announcing(t.callers[p]);
    } else {
      assert Holders(t.callers) == Holders(s.callers);
      if !s.refused && s.queue == [] && !s.wake.Clear? {
        assert Holders(s.callers) != {};
        var q :| q in Holders(s.callers);
        assert Announcing(t.callers[q]);
      }
    }
  }

  lemma AcceptKeepsInv<V>(s: State<V>, t: State<V>, p: R.Producer)
    requires Inv(s) && SubmitWakeStep(s, t, p) && s.callers[p].Submit? && t.callers[p].Quiet?
    ensures Inv(t)
  {
    hide R.Inv; hide HeadReady;
    assert p in Holders(s.callers);
    assert Holders(t.callers) == Holders(s.callers) - {p};
  }

  lemma RefuseKeepsInv<V>(s: State<V>, t: State<V>, p: R.Producer)
    requires Inv(s) && SubmitWakeStep(s, t, p) && s.callers[p].Submit? && !t.callers[p].Quiet?
    ensures Inv(t)
  {
    hide R.Inv; hide HeadReady;
    assert Holders(t.callers) == Holders(s.callers);
  }

  lemma RetractKeepsInv<V>(s: State<V>, t: State<V>, p: R.Producer)
    requires Inv(s) && SubmitWakeStep(s, t, p) && (s.callers[p].Retract? || s.callers[p].Close?)
    ensures Inv(t)
  {
    hide R.Inv; hide HeadReady;
    if s.callers[p].Retract? { assert p in Holders(s.callers); }
    assert Holders(t.callers) == Holders(s.callers) - {p};
  }

  lemma StartWakeKeepsInv<V>(s: State<V>, t: State<V>)
    requires Inv(s) && WakeStep(s, t) && (s.wake.NoWake? || s.wake.Clear?)
    ensures Inv(t)
  {
    hide R.Inv; hide HeadReady;
    if s.wake.NoWake? && !s.shutdown { assert !s.queue[0]; }
  }

  lemma LateWakeKeepsInv<V>(s: State<V>, t: State<V>)
    requires Inv(s) && WakeStep(s, t) && (s.wake.Check? || s.wake.Look? || s.wake.Release?)
    ensures Inv(t)
  {
    hide R.Inv; hide HeadReady; hide WakeOnItsWay; hide Holders; hide Unforced; hide NoneRefused;
  }

  lemma CloseKeepsInv<V>(s: State<V>, t: State<V>)
    requires Inv(s) && (LocalShutdownStep(s, t) || AbandonStep(s, t))
    ensures Inv(t)
  {
    hide R.Inv; hide HeadReady; hide WakeOnItsWay; hide OneToken; hide Unforced; hide NoneRefused;
  }

  lemma ReceiverPopKeepsInv<V>(s: State<V>, t: State<V>)
    requires Inv(s) && ReceiverPop(s, t) && s.wake == NoWake
    ensures Inv(t)
  {
    PopAndHead(s.ring, t.ring);
    R.PopKeepsInv(s.ring, t.ring);
    PopKeepsWakes(s, t);
  }

  lemma PopKeepsWakes<V>(s: State<V>, t: State<V>)
    requires WakeInv(s) && s.wake == NoWake && s.rx.Pop? && t == s.(ring := t.ring, rx := t.rx)
    requires t.ring.pushers == s.ring.pushers
    requires !t.rx.Pop? ==> t.ring.popper.Ready?
    requires HeadReady(t.ring) ==> HeadReady(s.ring)
    requires SawEmpty(t.rx) ==> !HeadReady(t.ring)
    requires !Parked(t.rx) || t.rx.Away?
    requires !t.rx.Prepare? && !t.rx.Decide?
    requires Owner(t.rx) == Owner(s.rx)
    requires Justified(HeadReady(t.ring), t.ring.popper.Ready?, t.shutdown, t.rx, t.wake)
    ensures WakeInv(t)
  {
    assert Holders(t.callers) == Holders(s.callers);
  }

  /** Everything about a receiver's move that does not involve the ring or the threads. */
  lemma MoveIsSafe(ready: bool, popReady: bool, shutdown: bool, x: Side, x': Side)
    requires ReceiverMove(ready, shutdown, x, x')
    requires Shape(popReady, x.held, x.rx, NoWake) && Justified(ready, popReady, shutdown, x.rx, NoWake)
    ensures Shape(popReady, x'.held, x'.rx, NoWake) && Justified(ready, popReady, shutdown, x'.rx, NoWake)
    ensures DataNeedsWake(ready, x'.held, x'.rx, NoWake) ==> DataNeedsWake(ready, x.held, x.rx, NoWake)
    ensures ShutdownNeedsWake(shutdown, x'.rx, NoWake) ==> ShutdownNeedsWake(shutdown, x.rx, NoWake)
  {
  }

  lemma MoveKeepsInv<V>(s: State<V>, t: State<V>)
    requires Inv(s) && s.wake == NoWake && t == s.(held := t.held, rx := t.rx)
    requires ReceiverMove(HeadReady(s.ring), s.shutdown, SideOf(s), SideOf(t))
    ensures Inv(t)
  {
    hide R.Inv; hide HeadReady; hide WakeOnItsWay; hide OneToken; hide Unforced; hide NoneRefused; hide ReceiverMove;
    hide Shape; hide Justified; hide DataNeedsWake; hide ShutdownNeedsWake;
    MoveIsSafe(HeadReady(s.ring), s.ring.popper.Ready?, s.shutdown, SideOf(s), SideOf(t));
  }

  lemma ThreadKeepsInv<V(!new)>(s: State<V>, t: State<V>, p: R.Producer)
    requires Inv(s) && SubmitWakeStep(s, t, p)
    ensures Inv(t)
  {
    hide Inv;
    match s.callers[p]
    case Announce(_) => AnnounceKeepsInv(s, t, p);
    case Submit(_) => if t.callers[p].Quiet? { AcceptKeepsInv(s, t, p); } else { RefuseKeepsInv(s, t, p); }
    case _ => RetractKeepsInv(s, t, p);
  }

  lemma TargetKeepsInv<V(!new)>(s: State<V>, t: State<V>)
    requires Inv(s) && (ReceiverStep(s, t) || WakeStep(s, t))
    ensures Inv(t)
  {
    hide Inv; hide WakeStep; hide ReceiverPop; hide ReceiverMove;
    if WakeStep(s, t) {
      match s.wake {
        case NoWake => StartWakeKeepsInv(s, t);
        case Clear(_) => StartWakeKeepsInv(s, t);
        case _ => LateWakeKeepsInv(s, t);
      }
    } else if ReceiverPop(s, t) {
      ReceiverPopKeepsInv(s, t);
    } else {
      MoveKeepsInv(s, t);
    }
  }

  lemma StepKeepsInv<V(!new)>(s: State<V>, t: State<V>)
    requires Inv(s) && Next(s, t)
    ensures Inv(t)
  {
    hide Inv; hide SendStep; hide ShutdownStep; hide SubmitWakeStep; hide ReceiverStep; hide WakeStep;
    hide LocalShutdownStep; hide AbandonStep;
    if p :| SendStep(s, t, p) {
      SendKeepsInv(s, t, p);
    } else if p :| ShutdownStep(s, t, p) {
      ShutdownKeepsInv(s, t, p);
    } else if p :| SubmitWakeStep(s, t, p) {
      ThreadKeepsInv(s, t, p);
    } else if ReceiverStep(s, t) || WakeStep(s, t) {
      TargetKeepsInv(s, t);
    } else {
      CloseKeepsInv(s, t);
    }
  }

  // ---------------------------------------------------------------------------------------
  // What every run guarantees
  // ---------------------------------------------------------------------------------------

  /**
   On every run, with the receiver anywhere in its calls and no wake past its clear: until a submission
   is refused, a committed head ticket behind a recv that is held (or about to be) and that the receiver
   does not own has a wake on its way; until, besides, a `Send` finds the target shutting down, so has a
   shutdown a waiting receiver did not see. On all runs at most one wake is queued, and a receiver that
   was handed recv without an item finds the passage shut down.
   */
  lemma NoLostWakeOnEveryRun<V(!new)>(run: seq<State<V>>, k: nat)
    requires IsRun(Init, Next, run) && k < |run|
    ensures !run[k].refused ==> NoLostData(run[k])
    ensures !run[k].refused && !run[k].abandoned ==> NoLostShutdown(run[k])
    ensures |run[k].queue| <= 1 && (run[k].rx.Spent? ==> run[k].shutdown)
  {
    hide NoLostData; hide NoLostShutdown;
    forall s: State<V> | Init(s) ensures Inv(s) { InitInv(s); }
    forall s: State<V>, t: State<V> | Inv(s) && Next(s, t) ensures Inv(t) { StepKeepsInv(s, t); }
    InvariantOnRun(Init, Next, Inv, run, k);
  }

  // ---------------------------------------------------------------------------------------
  // When a wake is lost
  // ---------------------------------------------------------------------------------------

  /** The ring after producer p alone pushed v. */
  ghost function Pushed(r: R.State<int>, p: R.Producer, v: int): R.State<int>
    requires R.Shaped(r)
  {
    r.(tail := r.tail + 1, tickets := r.tickets + [(p, v)], done := r.done + [r.tail],
       slots := r.slots[r.tail % r.n := R.Slot(r.tail + 1, v)])
  }

  /** The steps when the target may refuse submissions or not, and when a `Send` may find it shutting down or not. */
  ghost predicate NextWith<V(!new)>(mayRefuse: bool, mayAbandon: bool, s: State<V>, t: State<V>) {
    Next(s, t) && (t.refused ==> mayRefuse) && (t.abandoned ==> mayAbandon)
  }

  ghost predicate RunWith(mayRefuse: bool, mayAbandon: bool, run: seq<State<int>>) {
    IsRun(Init, (s, t) => NextWith(mayRefuse, mayAbandon, s, t), run)
  }

  lemma RestrictedRun(mayRefuse: bool, mayAbandon: bool, run: seq<State<int>>, k: nat)
    requires RunWith(mayRefuse, mayAbandon, run) && k < |run|
    ensures IsRun(Init, Next, run) && (run[k].refused ==> mayRefuse) && (run[k].abandoned ==> mayAbandon)
  {
    hide Next; hide Init;
    assert k > 0 ==> NextWith(mayRefuse, mayAbandon, run[k - 1], run[k]);
    InitIsClean(run[0]);
    forall i | 0 < i < |run| ensures Next(run[i - 1], run[i]) {
      assert NextWith(mayRefuse, mayAbandon, run[i - 1], run[i]);
    }
  }

  lemma InitIsClean(s: State<int>)
    requires Init(s)
    ensures !s.refused && !s.abandoned
  {
  }

  /** A run under construction, its last state at hand. */
  ghost predicate Reaches(mayRefuse: bool, mayAbandon: bool, run: seq<State<int>>, s: State<int>) {
    RunWith(mayRefuse, mayAbandon, run) && run[|run| - 1] == s
  }

  lemma Go(mr: bool, ma: bool, run: seq<State<int>>, s: State<int>, t: State<int>) returns (longer: seq<State<int>>)
    requires Reaches(mr, ma, run, s) && Next(s, t) && (t.refused ==> mr) && (t.abandoned ==> ma)
    ensures Reaches(mr, ma, longer, t)
  {
    hide Next; hide Init;
    Extend(Init, (s, t) => NextWith(mr, ma, s, t), run, t);
    longer := run + [t];
  }

  lemma GoSend(mr: bool, ma: bool, run: seq<State<int>>, s: State<int>, p: R.Producer, t: State<int>)
    returns (longer: seq<State<int>>)
    requires Reaches(mr, ma, run, s) && SendStep(s, t, p) && (s.refused ==> mr) && (s.abandoned ==> ma)
    ensures Reaches(mr, ma, longer, t)
  {
    hide Reaches; hide R.PushStep; hide R.CommitStep;
    longer := Go(mr, ma, run, s, t);
  }

  lemma GoSubmit(mr: bool, ma: bool, run: seq<State<int>>, s: State<int>, p: R.Producer, t: State<int>)
    returns (longer: seq<State<int>>)
    requires Reaches(mr, ma, run, s) && SubmitWakeStep(s, t, p) && (t.refused ==> mr) && (t.abandoned ==> ma)
    ensures Reaches(mr, ma, longer, t)
  {
    hide Reaches; hide SubmitMove;
    longer := Go(mr, ma, run, s, t);
  }

  /** Producer p can push into a free slot. */
  ghost predicate Pushable(s: State<int>, p: R.Producer) {
    && R.Shaped(s.ring) && R.MarkAt(s.ring, s.ring.tail) == s.ring.tail && !s.refused && !s.abandoned
    && p in s.callers && s.callers[p] == Quiet && p in s.ring.pushers && s.ring.pushers[p] == R.Idle
  }

  /** It claims the next ticket without interruption. */
  lemma ClaimAlone(mr: bool, ma: bool, run: seq<State<int>>, s: State<int>, p: R.Producer, v: int)
    returns (longer: seq<State<int>>)
    requires Reaches(mr, ma, run, s) && Pushable(s, p)
    ensures Reaches(mr, ma, longer,
                    s.(ring := s.ring.(pushers := s.ring.pushers[p := R.Write(v, s.ring.tail)], tail := s.ring.tail + 1,
                                       tickets := s.ring.tickets + [(p, v)])))
  {
    hide Reaches;
    var r := s.ring;
    var r1 := R.SetPc(r, p, R.LoadMark(v, r.tail));
    assert R.LoadTailStep(r, r1, p, v);
    longer := GoSend(mr, ma, run, s, p, s.(ring := r1));
    var r2 := R.SetPc(r1, p, R.Claim(v, r.tail));
    assert R.LoadMarkStep(r1, r2, p);
    longer := GoSend(mr, ma, longer, s.(ring := r1), p, s.(ring := r2));
    var r3 := R.SetPc(r2, p, R.Write(v, r.tail)).(tail := r.tail + 1, tickets := r.tickets + [(p, v)]);
    assert R.ClaimStep(r2, r3, p);
    longer := GoSend(mr, ma, longer, s.(ring := r2), p, s.(ring := r3));
    assert r3.pushers == r.pushers[p := R.Write(v, r.tail)];
  }

  /** And then writes and commits. */
  lemma PushAlone(mr: bool, ma: bool, run: seq<State<int>>, s: State<int>, p: R.Producer, v: int)
    returns (longer: seq<State<int>>)
    requires Reaches(mr, ma, run, s) && Pushable(s, p)
    ensures Reaches(mr, ma, longer, SetCaller(s, p, Announce(false)).(ring := Pushed(s.ring, p, v)))
  {
    hide Reaches;
    var r := s.ring;
    var i := r.tail % r.n;
    longer := ClaimAlone(mr, ma, run, s, p, v);
    var r3 := r.(pushers := r.pushers[p := R.Write(v, r.tail)], tail := r.tail + 1, tickets := r.tickets + [(p, v)]);
    var r4 := R.SetPc(r3, p, R.Commit(v, r.tail)).(slots := r.slots[i := r.slots[i].(value := v)]);
    assert R.WriteStep(r3, r4, p);
    longer := GoSend(mr, ma, longer, s.(ring := r3), p, s.(ring := r4));
    assert r4.pushers == r.pushers[p := R.Commit(v, r.tail)];
    var last := SetCaller(s, p, Announce(false)).(ring := Pushed(r, p, v));
    CommitAlone(s, s.(ring := r4), last, p, v);
    longer := GoSend(mr, ma, longer, s.(ring := r4), p, last);
  }

  lemma CommitAlone(s: State<int>, s4: State<int>, last: State<int>, p: R.Producer, v: int)
    requires Pushable(s, p)
    requires var i := s.ring.tail % s.ring.n;
             s4 == s.(ring := R.SetPc(s.ring, p, R.Commit(v, s.ring.tail)).(
               tail := s.ring.tail + 1, tickets := s.ring.tickets + [(p, v)],
               slots := s.ring.slots[i := s.ring.slots[i].(value := v)]))
    requires last == SetCaller(s, p, Announce(false)).(ring := Pushed(s.ring, p, v))
    ensures SendStep(s4, last, p)
  {
    assert last.ring.pushers == s4.ring.pushers[p := R.Idle];
    assert R.CommitStep(s4.ring, last.ring, p);
  }

  function EmptyRing(): R.State<int> {
    R.State(2, 0, 0, [R.Slot(0, 0), R.Slot(1, 0)], map[0 := R.Idle, 1 := R.Idle], R.Ready, [], [], [])
  }

  /** Two idle producers and a receiver at `rx` of an empty passage. */
  function Waiting(rx: Receiver): State<int> {
    State(EmptyRing(), map[0 := Quiet, 1 := Quiet], false, [], false, true, NoWake, rx, false, false)
  }

  lemma EmptyRingIsNotReady()
    ensures EmptyRing().popper == R.Ready && !HeadReady(EmptyRing()) && R.PopStep(EmptyRing(), EmptyRing())
  {
  }

  lemma StartRun(mr: bool, ma: bool) returns (run: seq<State<int>>)
    ensures Reaches(mr, ma, run, Waiting(Away))
  {
    run := [Waiting(Away)];
    assert Init(Waiting(Away));
  }

  lemma GoReceive(mr: bool, ma: bool, run: seq<State<int>>, from: Receiver, to: Receiver)
    returns (longer: seq<State<int>>)
    requires Reaches(mr, ma, run, Waiting(from))
    requires ReceiverMove(false, false, Side(true, from), Side(true, to)) || (from == Pop(Recv) && to == Closing)
    ensures Reaches(mr, ma, longer, Waiting(to))
  {
    hide Reaches; hide ReceiverMove; hide R.PopStep; hide HeadReady; hide EmptyRing;
    EmptyRingIsNotReady();
    assert ReceiverStep(Waiting(from), Waiting(to));
    longer := Go(mr, ma, run, Waiting(from), Waiting(to));
  }

  /** `Recv` on the empty passage goes on to wait. */
  lemma ReceiverBlocks(mr: bool, ma: bool) returns (run: seq<State<int>>)
    ensures Reaches(mr, ma, run, Waiting(Blocked))
  {
    hide Reaches;
    run := StartRun(mr, ma);
    run := GoReceive(mr, ma, run, Away, Pop(Recv));
    run := GoReceive(mr, ma, run, Pop(Recv), Closing);
    run := GoReceive(mr, ma, run, Closing, Prepare);
    run := GoReceive(mr, ma, run, Prepare, Decide);
    run := GoReceive(mr, ma, run, Decide, Blocked);
  }

  function OneItem(): R.State<int> {
    R.State(2, 1, 0, [R.Slot(1, 7), R.Slot(1, 0)], map[0 := R.Idle, 1 := R.Idle], R.Ready, [(0, 7)], [0], [])
  }

  function TwoItems(): R.State<int> {
    R.State(2, 2, 0, [R.Slot(1, 7), R.Slot(2, 8)], map[0 := R.Idle, 1 := R.Idle], R.Ready, [(0, 7), (1, 8)], [0, 1], [])
  }

  /** Behind the waiting receiver producer 0 pushes an item and wins the right to submit the wake. */
  lemma OneSend(mr: bool, ma: bool) returns (run: seq<State<int>>)
    ensures Reaches(mr, ma, run,
                    Waiting(Blocked).(ring := OneItem(), callers := map[0 := Submit(false), 1 := Quiet], wakePending := true))
  {
    hide Reaches;
    run := ReceiverBlocks(mr, ma);
    run := PushAlone(mr, ma, run, Waiting(Blocked), 0, 7);
    assert Pushed(EmptyRing(), 0, 7) == OneItem();
    var s1 := SetCaller(Waiting(Blocked), 0, Announce(false)).(ring := OneItem());
    var s2 := Waiting(Blocked).(ring := OneItem(), callers := map[0 := Submit(false), 1 := Quiet], wakePending := true);
    assert s2.callers == s1.callers[0 := Submit(false)];
    run := GoSubmit(mr, ma, run, s1, 0, s2);
  }

  /** Producer 1 finds that a wake is pending and its `Send` returns true. */
  lemma TwoSends(mr: bool, ma: bool) returns (run: seq<State<int>>)
    ensures Reaches(mr, ma, run,
                    Waiting(Blocked).(ring := TwoItems(), callers := map[0 := Submit(false), 1 := Quiet], wakePending := true))
  {
    hide Reaches;
    run := OneSend(mr, ma);
    var s2 := Waiting(Blocked).(ring := OneItem(), callers := map[0 := Submit(false), 1 := Quiet], wakePending := true);
    run := PushAlone(mr, ma, run, s2, 1, 8);
    assert Pushed(OneItem(), 1, 8) == TwoItems();
    var s3 := SetCaller(s2, 1, Announce(false)).(ring := TwoItems());
    var s4 := s2.(ring := TwoItems());
    assert s4.callers == s3.callers[1 := Quiet];
    run := GoSubmit(mr, ma, run, s3, 1, s4);
  }

  /** Nobody is in the middle of a call but the receiver, which waits on recv, and no wake is coming. */
  ghost predicate Stranded(s: State<int>) {
    && s.callers == map[0 := Quiet, 1 := Quiet] && s.rx == Blocked && s.held
    && s.wake == NoWake && s.queue == [] && !Coming(s)
  }

  /**
   The target refuses the wake both items relied on and producer 0 gives up. Both `Send` calls are over,
   one of them with success, and the receiver waits in front of two committed items.
   */
  lemma RefusedSubmitLosesWake(mayAbandon: bool) returns (run: seq<State<int>>, s: State<int>)
    ensures Reaches(true, mayAbandon, run, s)
    ensures Stranded(s) && s.refused && !s.abandoned && s.ring.done == [0, 1] && HeadReady(s.ring) && !NoLostData(s)
  {
    hide Reaches;
    run := TwoSends(true, mayAbandon);
    var s4 := Waiting(Blocked).(ring := TwoItems(), callers := map[0 := Submit(false), 1 := Quiet], wakePending := true);
    var s5 := SetCaller(s4, 0, Retract(false)).(refused := true);
    run := GoSubmit(true, mayAbandon, run, s4, 0, s5);
    var s6 := SetCaller(s5, 0, Close).(wakePending := false);
    run := GoSubmit(true, mayAbandon, run, s5, 0, s6);
    s := SetCaller(s6, 0, Quiet).(shutdown := true);
    run := GoSubmit(true, mayAbandon, run, s6, 0, s);
    assert s.callers == map[0 := Quiet, 1 := Quiet];
  }

  /** The target refuses the wake of a `Shutdown`: the receiver waits on a passage that is shut down. */
  lemma RefusedShutdownLosesWake(mayAbandon: bool) returns (run: seq<State<int>>, s: State<int>)
    ensures Reaches(true, mayAbandon, run, s)
    ensures Stranded(s) && s.refused && !s.abandoned && s.shutdown && !NoLostShutdown(s)
  {
    hide Reaches;
    run := ReceiverBlocks(true, mayAbandon);
    var s0 := Waiting(Blocked);
    var s1 := SetCaller(s0, 0, Announce(true)).(shutdown := true);
    assert ShutdownStep(s0, s1, 0);
    run := Go(true, mayAbandon, run, s0, s1);
    var s2 := SetCaller(s1, 0, Submit(true)).(wakePending := true);
    run := GoSubmit(true, mayAbandon, run, s1, 0, s2);
    var s3 := SetCaller(s2, 0, Retract(true)).(refused := true);
    run := GoSubmit(true, mayAbandon, run, s2, 0, s3);
    s := SetCaller(s3, 0, Quiet).(wakePending := false);
    run := GoSubmit(true, mayAbandon, run, s3, 0, s);
    assert s.callers == map[0 := Quiet, 1 := Quiet];
  }

  /**
   A `Send` that finds the target shutting down closes the passage and wakes nobody. No submission is
   made, let alone refused, and the receiver waits on a passage that is shut down.
   */
  lemma AbandonedSendLosesWake(mayRefuse: bool) returns (run: seq<State<int>>, s: State<int>)
    ensures Reaches(mayRefuse, true, run, s)
    ensures Stranded(s) && !s.refused && s.abandoned && s.shutdown && !NoLostShutdown(s)
  {
    hide Reaches;
    run := ReceiverBlocks(mayRefuse, true);
    s := Waiting(Blocked).(shutdown := true, abandoned := true);
    assert AbandonStep(Waiting(Blocked), s);
    run := Go(mayRefuse, true, run, Waiting(Blocked), s);
  }

  /**
   No run leaves an item without a wake if and only if the target may not refuse a submission; whether a
   `Send` may find it shutting down makes no difference.
   */
  lemma DataWakesIffAccepted(mayRefuse: bool, mayAbandon: bool)
    ensures !mayRefuse <==>
            forall run: seq<State<int>>, k: nat ::
              RunWith(mayRefuse, mayAbandon, run) && k < |run| ==> NoLostData(run[k])
  {
    hide NoLostData; hide NoLostShutdown; hide Next; hide Init; hide RunWith; hide Stranded;
    if mayRefuse {
      var run, s := RefusedSubmitLosesWake(mayAbandon);
      NotEmpty(mayRefuse, mayAbandon, run);
      assert !NoLostData(run[|run| - 1]);
    } else {
      forall run: seq<State<int>>, k: nat | RunWith(mayRefuse, mayAbandon, run) && k < |run| ensures NoLostData(run[k]) {
        RestrictedRun(mayRefuse, mayAbandon, run, k);
        NoLostWakeOnEveryRun(run, k);
      }
    }
  }

  lemma NotEmpty(mayRefuse: bool, mayAbandon: bool, run: seq<State<int>>)
    requires RunWith(mayRefuse, mayAbandon, run)
    ensures |run| > 0
  {
  }

  /** No run leaves a waiting receiver behind a shutdown without a wake if and only if neither may happen. */
  lemma ShutdownWakesIffNeither(mayRefuse: bool, mayAbandon: bool)
    ensures !mayRefuse && !mayAbandon <==>
            forall run: seq<State<int>>, k: nat ::
              RunWith(mayRefuse, mayAbandon, run) && k < |run| ==> NoLostShutdown(run[k])
  {
    hide NoLostData; hide NoLostShutdown; hide Next; hide Init; hide RunWith; hide Stranded;
    if mayRefuse || mayAbandon {
      var run, s;
      if mayRefuse {
        run, s := RefusedShutdownLosesWake(mayAbandon);
      } else {
        run, s := AbandonedSendLosesWake(mayRefuse);
      }
      NotEmpty(mayRefuse, mayAbandon, run);
      assert !NoLostShutdown(run[|run| - 1]);
    } else {
      forall run: seq<State<int>>, k: nat | RunWith(mayRefuse, mayAbandon, run) && k < |run| ensures NoLostShutdown(run[k]) {
        RestrictedRun(mayRefuse, mayAbandon, run, k);
        NoLostWakeOnEveryRun(run, k);
      }
    }
  }

  // ---------------------------------------------------------------------------------------
  // The passage in memory
  // ---------------------------------------------------------------------------------------

  /** The passage's memory and the calls in progress; each method is one access of one of them. */
  class Bridge<V(!new)> {
    const ring: R.Ring<V>
    var callers: map<R.Producer, Caller>
    var wakePending: bool
    var queue: seq<bool>
    var shutdown: bool
    var held: bool
    var wake: Wake
    var rx: Receiver
    ghost var refused: bool
    ghost var abandoned: bool

    ghost predicate Valid()
      reads this, ring
    {
      ring.Valid() && callers.Keys == ring.pushers.Keys
    }

    ghost function View(): State<V>
      reads this, ring, ring.slots
    {
      State(ring.View(), callers, wakePending, queue, shutdown, held, wake, rx, refused, abandoned)
    }

    constructor (capacity: nat, producers: set<R.Producer>, blank: V)
      requires capacity >= 2
      ensures Valid() && Init(View()) && fresh(ring) && fresh(ring.slots)
    {
      ring := new R.Ring(capacity, producers, blank);
      callers := map p | p in producers :: Quiet;
      wakePending, queue, shutdown, held, wake, rx := false, [], false, true, NoWake, Away;
      refused, abandoned := false, false;
    }

    /** The reads at the start of `Send`: whether to go on, closing the passage if the target is shutting down. */
    method SendStart(targetClosing: bool) returns (go: bool)
      requires Valid()
      modifies `shutdown, `abandoned
      ensures Valid() && go == (!old(shutdown) && !targetClosing)
      ensures if !old(shutdown) && targetClosing then AbandonStep(old(View()), View()) else View() == old(View())
    {
      if shutdown {
        return false;
      }
      if targetClosing {
        shutdown := true;
        abandoned := true;
        return false;
      }
      return true;
    }

    /** The read at the end of a successful `Send`. */
    method SendEnd(targetClosing: bool)
      requires Valid()
      modifies `shutdown, `abandoned
      ensures Valid() && if targetClosing then AbandonStep(old(View()), View()) else View() == old(View())
    {
      if targetClosing {
        shutdown := true;
        abandoned := true;
      }
    }

    method SendAccess(p: R.Producer, v: V, fails: bool)
      requires Valid() && p in callers && callers[p] == Quiet
      modifies this, ring, ring.slots
      ensures Valid() && SendStep(old(View()), View(), p)
    {
      var committing := ring.pushers[p].Commit?;
      ring.PushAccess(p, v, fails);
      if committing { callers := callers[p := Announce(false)]; }
    }

    /** The next access of `SubmitWake` and of the refused `Send` after it. */
    method SubmitWakeAccess(p: R.Producer, refuse: bool)
      requires Valid() && p in callers && callers[p] != Quiet
      modifies `callers, `wakePending, `queue, `shutdown, `refused
      ensures Valid() && SubmitWakeStep(old(View()), View(), p)
    {
      hide SubmitMove;
      SubmitMoves(p, refuse);
    }

    method SubmitMoves(p: R.Producer, refuse: bool)
      requires p in callers && callers[p] != Quiet
      modifies `callers, `wakePending, `queue, `shutdown, `refused
      ensures callers.Keys == old(callers).Keys && callers == old(callers)[p := callers[p]]
      ensures SubmitMove(old(callers[p]), old(Shared(wakePending, queue, shutdown, refused)),
                         callers[p], Shared(wakePending, queue, shutdown, refused))
    {
      match callers[p] {
        case Announce(force) =>
          if wakePending {
            callers := callers[p := Quiet];
          } else {
            wakePending := true;
            callers := callers[p := Submit(force)];
          }
        case Submit(force) =>
          if refuse {
            refused := true;
            callers := callers[p := Retract(force)];
          } else {
            queue := queue + [force];
            callers := callers[p := Quiet];
          }
        case Retract(force) =>
          wakePending := false;
          callers := callers[p := if force then Quiet else Close];
        case Close =>
          shutdown := true;
          callers := callers[p := Quiet];
      }
    }

    method Shutdown(p: R.Producer)
      requires Valid() && p in callers && callers[p] == Quiet && ring.pushers[p] == R.Idle
      modifies this
      ensures Valid() && ShutdownStep(old(View()), View(), p)
    {
      if !shutdown {
        shutdown := true;
        callers := callers[p := Announce(true)];
      }
    }

    /** `Shutdown` on the target thread. */
    method ShutdownLocal()
      requires Valid() && Parked(rx) && wake == NoWake
      modifies `shutdown, `held, `rx
      ensures Valid() && LocalShutdownStep(old(View()), View())
    {
      if !shutdown {
        shutdown := true;
        ReleaseRecv();
      }
    }

    method RingEmpty() returns (empty: bool)
      requires Valid() && ring.popper.Ready?
      ensures empty <==> !HeadReady(ring.View())
    {
      empty := ring.slots[ring.head % ring.n].mark != ring.head + 1;
    }

    method ReleaseRecv()
      modifies this`held, this`rx
      ensures Side(held, rx) == Released(old(Side(held, rx)))
    {
      if held {
        if rx.Blocked? { rx := Granted; } else { held := false; }
      }
    }

    /** The next access of the wake lambda. */
    method WakeAccess()
      requires Valid() && Parked(rx) && ring.popper.Ready? && (wake.NoWake? ==> queue != [])
      modifies `wake, `wakePending, `queue, `held, `rx
      ensures Valid() && WakeStep(old(View()), View())
    {
      hide HeadReady; hide WakeMove;
      WakeMoves();
    }

    method WakeMoves()
      requires Valid() && ring.popper.Ready? && (wake.NoWake? ==> queue != [])
      modifies `wake, `wakePending, `queue, `held, `rx
      ensures WakeMove(HeadReady(ring.View()), old(wake), old(Shared(wakePending, queue, shutdown, refused)), old(Side(held, rx)),
                       wake, Shared(wakePending, queue, shutdown, refused), Side(held, rx))
    {
      hide HeadReady;
      match wake {
        case NoWake =>
          wake, queue := Clear(queue[0]), queue[1..];
        case Clear(force) =>
          wakePending := false;
          wake := Check(force);
        case Check(force) =>
          wake := if force || shutdown then Release else Look;
        case Look =>
          var empty := RingEmpty();
          wake := if empty then NoWake else Release;
        case Release =>
          ReleaseRecv();
          wake := NoWake;
      }
    }

    /** The receiver's next access; `choice` resolves which call it makes and how a wait ends. */
    method ReceiverAccess(choice: nat)
      requires Valid() && wake == NoWake && (!rx.Pop? ==> ring.popper.Ready?)
      modifies `held, `rx, ring, ring.slots
      ensures Valid() && ReceiverStep(old(View()), View())
    {
      hide ReceiverPop; hide ReceiverMove; hide HeadReady;
      if rx.Pop? {
        PopAccess(rx.kind, choice);
      } else {
        MoveAccess(choice);
      }
    }

    method MoveAccess(choice: nat)
      requires Valid() && !rx.Pop? && ring.popper.Ready?
      modifies `held, `rx
      ensures ReceiverMove(HeadReady(ring.View()), shutdown, old(Side(held, rx)), Side(held, rx))
    {
      hide HeadReady;
      match rx {
        case Away => rx := if choice == 0 then Pop(Try) else if choice == 1 then Pop(Recv) else Pop(Batch(false));
        case Check'(owned) =>
          var empty := RingEmpty();
          rx := if owned then (if empty then Away else LetGo) else (if empty then Hold else Away);
        case Hold => held, rx := true, Away;
        case LetGo => held, rx := false, Away;
        case Spent => held, rx := false, Away;
        case Closing => rx := if shutdown then LetGo else Prepare;
        case Prepare => held, rx := true, Decide;
        case Decide => rx := if choice == 0 then Dry else Blocked;
        case Dry => rx := Pop(Recv);
        case Blocked => rx := if choice == 0 then Pop(Recv) else Away;
        case Granted => rx := if choice == 0 then Pop(Owned) else LetGo;
      }
    }

    method PopAccess(kind: Kind, choice: nat)
      requires Valid() && rx == Pop(kind)
      modifies this`rx, ring, ring.slots
      ensures Valid() && ReceiverPop(old(View()), View())
    {
      hide R.PopStep;
      var before := ring.popper;
      ring.PopAccess();
      if before.Ready? && ring.popper.Ready? {
        rx := match kind
              case Try => Away
              case Recv => Closing
              case Batch(some) => if some then Check'(false) else Away
              case Owned => Spent;
      } else if before.Advance? {
        rx := match kind
              case Batch(_) => if choice == 0 then Pop(Batch(true)) else Check'(false)
              case Owned => Check'(true)
              case _ => Check'(false);
      }
    }
  }
}
