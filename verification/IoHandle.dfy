/**
 The life of a one-shot io handle. Its operation has one completion event (CQE), or two with a linked
 timeout, and each cancel adds one more; the kernel delivers them in any order. The handle's own
 coordinator is held while any is outstanding.
 */
module IoHandle {
  /** What the owning context may be blocked in: Wait, WaitKill, or the destructor's Flash. */
  datatype Call = InWait | InWaitKill | InFlash

  datatype Owner = Running | Blocked(call: Call) | Woken(call: Call) | Gone

  /** A completion event: the operation's own, its linked timeout's, or a cancel's. */
  datatype Cqe = Primary(res: int) | Linked(timedOut: bool) | CancelAck

  /**
   `primary`, `linked` and `cancels` are what the kernel still owes. `unawaited` says that an operation was
   submitted and its result not yet waited for; `ops` and `releases` are history.
   */
  datatype Handle = Handle(
    pendingCqes: nat,
    result: int,
    timedOut: bool,
    held: bool,
    listed: bool,
    owner: Owner,
    unawaited: bool,
    primary: bool,
    linked: bool,
    cancels: nat,
    ops: nat,
    releases: nat)

  function Initial(): Handle {
    Handle(0, 0, false, false, false, Running, false, false, false, 0, 0, 0)
  }

  /** How much the handle counts in the ring's number of pending operations. */
  function InFlight(h: Handle): nat { if h.pendingCqes > 0 then 1 else 0 }

  function Undelivered(h: Handle): nat {
    (if h.primary then 1 else 0) + (if h.linked then 1 else 0) + h.cancels
  }

  // ---------------------------------------------------------------------------------------
  // Operations
  // ---------------------------------------------------------------------------------------

  function Submit(h: Handle, linked: bool): Handle {
    h.(timedOut := false, pendingCqes := if linked then 2 else 1, held := true, listed := true,
       primary := true, linked := linked, unawaited := true, ops := h.ops + 1)
  }

  function Cancel(h: Handle): Handle {
    if h.pendingCqes == 0 then h else h.(pendingCqes := h.pendingCqes + 1, cancels := h.cancels + 1)
  }

  /** Releasing the coordinator wakes the owner if it is waiting, which then holds it. */
  function Release(h: Handle): Handle {
    if !h.held then h
    else if h.owner.Blocked? then h.(owner := Woken(h.owner.call))
    else h.(held := false)
  }

  function Finalize(h: Handle): Handle
    requires h.pendingCqes > 0
  {
    var h1 := h.(pendingCqes := h.pendingCqes - 1);
    if h1.pendingCqes > 0 then h1 else Release(h1.(listed := false, releases := h1.releases + 1))
  }

  /** The kernel owes this event. */
  predicate Owed(h: Handle, e: Cqe) {
    match e
    case Primary(_) => h.primary
    case Linked(_) => h.linked
    case CancelAck => h.cancels > 0
  }

  function Deliver(h: Handle, e: Cqe): Handle
    requires Owed(h, e) && h.pendingCqes > 0
  {
    match e
    case Primary(res) => Finalize(h.(primary := false, result := res))
    case Linked(timedOut) => Finalize(h.(linked := false, timedOut := h.timedOut || timedOut))
    case CancelAck => Finalize(h.(cancels := h.cancels - 1))
  }

  /** Wait and WaitKill past their poll: take the coordinator, or block on it. */
  function Await(h: Handle, kill: bool): Handle {
    var call := if kill then InWaitKill else InWait;
    if h.held then h.(owner := Blocked(call)) else Resume(h.(held := true, owner := Woken(call)))
  }

  /** The owner runs on with the coordinator: Wait keeps it, the others let it go. */
  function Resume(h: Handle): Handle
    requires h.owner.Woken?
  {
    match h.owner.call
    case InWait => h.(owner := Running, unawaited := false)
    case InWaitKill => Release(h.(owner := Running, unawaited := false))
    case InFlash => Release(h.(owner := Running)).(owner := Gone)
  }

  /** A kill reaches the owner in WaitKill first; a coordinator it was also given is passed on. */
  function Killed(h: Handle): Handle
    requires (h.owner.Blocked? || h.owner.Woken?) && h.owner.call == InWaitKill
  {
    if h.owner.Blocked? then h.(owner := Running) else Release(h.(owner := Running))
  }

  function Destroy(h: Handle): Handle {
    if h.pendingCqes == 0 then h.(owner := Gone)
    else
      var h1 := Cancel(h);
      if h1.held then h1.(owner := Blocked(InFlash)) else h1.(owner := Gone)
  }

  /** One step; `d` is what it adds to the ring's count of pending operations. */
  ghost predicate Step(h: Handle, t: Handle, d: int) {
    || (h.owner.Running? && h.pendingCqes == 0 && d == 1 && exists linked :: t == Submit(h, linked))
    || (h.owner.Running? && t == Cancel(h) && d == 0)
    || (h.owner.Running? && h.unawaited && d == 0 && exists kill :: t == Await(h, kill))
    || (h.owner.Woken? && t == Resume(h) && d == 0)
    || ((h.owner.Blocked? || h.owner.Woken?) && h.owner.call == InWaitKill && t == Killed(h) && d == 0)
    || (h.owner.Running? && t == Destroy(h) && d == 0)
    || (exists e :: Owed(h, e) && h.pendingCqes > 0 && t == Deliver(h, e) && d == if t.pendingCqes == 0 then -1 else 0)
  }

  // ---------------------------------------------------------------------------------------
  // The invariant
  // ---------------------------------------------------------------------------------------

  /**
   The counter is what the kernel owes; the coordinator is held and the handle listed while it owes
   anything; an owner is blocked only then; an operation's end releases the coordinator once.
   */
  ghost predicate Valid(h: Handle) {
    && h.pendingCqes == Undelivered(h)
    && (h.listed <==> h.pendingCqes > 0)
    && (h.pendingCqes > 0 ==> h.held)
    && (h.owner.Blocked? ==> h.pendingCqes > 0)
    && (h.owner.Woken? ==> h.held && h.pendingCqes == 0)
    && (h.owner.Gone? ==> h.pendingCqes == 0)
    && (h.pendingCqes > 0 ==> h.unawaited)
    && (h.unawaited && h.pendingCqes == 0 && h.owner.Running? ==> !h.held)
    && h.ops == h.releases + InFlight(h)
  }

  lemma DeliverKeeps(h: Handle, e: Cqe)
    requires Valid(h) && Owed(h, e)
    ensures h.pendingCqes > 0 && Valid(Deliver(h, e))
    ensures var t := Deliver(h, e);
            && t.pendingCqes == h.pendingCqes - 1
            && (t.pendingCqes == 0 ==> t.releases == h.releases + 1)
            && (t.pendingCqes > 0 ==> t.held && t.owner == h.owner && t.releases == h.releases)
            && t.result == (if e.Primary? then e.res else h.result)
  {
  }

  lemma StepKeeps(h: Handle, t: Handle, d: int)
    requires Valid(h) && Step(h, t, d)
    ensures Valid(t) && InFlight(t) == InFlight(h) + d
  {
    hide Deliver; hide Owed;
    if e :| Owed(h, e) && h.pendingCqes > 0 && t == Deliver(h, e) {
      DeliverKeeps(h, e);
    }
  }

  /** While an operation is in flight its coordinator is not given away: the release belongs to the last event. */
  lemma HeldUntilLast(h: Handle, t: Handle, d: int)
    requires Valid(h) && Step(h, t, d) && h.pendingCqes > 0
    ensures t.pendingCqes > 0 ==> t.held && t.releases == h.releases && t.ops == h.ops
    ensures t.pendingCqes == 0 ==> t.releases == h.releases + 1 && Undelivered(h) == 1
    ensures !t.owner.Gone?
  {
    hide Deliver; hide Owed;
    if e :| Owed(h, e) && h.pendingCqes > 0 && t == Deliver(h, e) {
      DeliverKeeps(h, e);
      GoneIsFinal(h, e);
    }
  }

  lemma GoneIsFinal(h: Handle, e: Cqe)
    requires Valid(h) && Owed(h, e)
    ensures !Deliver(h, e).owner.Gone?
  {
  }

  // ---------------------------------------------------------------------------------------
  // The handle in memory
  // ---------------------------------------------------------------------------------------

  class Ring {
    var pendingOps: int

    constructor ()
      ensures pendingOps == 0
    {
      pendingOps := 0;
    }
  }

  class OneShot {
    const ring: Ring
    var pendingCqes: nat
    var result: int
    var timedOut: bool
    var held: bool
    var listed: bool
    var owner: Owner
    ghost var unawaited: bool
    ghost var primary: bool
    ghost var linked: bool
    ghost var cancels: nat
    ghost var ops: nat
    ghost var releases: nat

    ghost function View(): Handle
      reads this
    {
      Handle(pendingCqes, result, timedOut, held, listed, owner, unawaited, primary, linked, cancels, ops, releases)
    }

    constructor (ring: Ring)
      ensures this.ring == ring && View() == Initial()
    {
      this.ring := ring;
      pendingCqes, result, timedOut, held, listed, owner := 0, 0, false, false, false, Running;
      unawaited, primary, linked, cancels, ops, releases := false, false, false, 0, 0, 0;
    }

    method SubmitOp(withTimeout: bool)
      requires pendingCqes == 0
      modifies this, ring
      ensures View() == Submit(old(View()), withTimeout)
      ensures ring.pendingOps - old(ring.pendingOps) == InFlight(View()) - old(InFlight(View()))
    {
      timedOut := false;
      pendingCqes := if withTimeout then 2 else 1;
      ring.pendingOps := ring.pendingOps + 1;
      held := true;
      listed := true;
      primary, linked, unawaited, ops := true, withTimeout, true, ops + 1;
    }

    method CancelOp()
      modifies this
      ensures View() == Cancel(old(View())) && InFlight(View()) == old(InFlight(View()))
    {
      if pendingCqes == 0 {
        return;
      }
      pendingCqes := pendingCqes + 1;
      cancels := cancels + 1;
    }

    method ReleaseCoord()
      modifies this
      ensures View() == Release(old(View())) && pendingCqes == old(pendingCqes)
    {
      if held {
        match owner {
          case Blocked(call) => owner := Woken(call);
          case _ => held := false;
        }
      }
    }

    method FinalizeOp()
      requires pendingCqes > 0
      modifies this, ring
      ensures View() == Finalize(old(View())) && pendingCqes == old(pendingCqes) - 1
      ensures ring.pendingOps == old(ring.pendingOps) - if pendingCqes == 0 then 1 else 0
    {
      hide Release;
      pendingCqes := pendingCqes - 1;
      if pendingCqes > 0 {
        return;
      }
      ring.pendingOps := ring.pendingOps - 1;
      listed := false;
      releases := releases + 1;
      ReleaseCoord();
    }

    method Callback(e: Cqe)
      requires Owed(View(), e) && pendingCqes > 0
      modifies this, ring
      ensures View() == Deliver(old(View()), e)
      ensures ring.pendingOps - old(ring.pendingOps) == InFlight(View()) - old(InFlight(View()))
    {
      match e {
        case Primary(res) =>
          result := res;
          primary := false;
        case Linked(late) =>
          if late { timedOut := true; }
          linked := false;
        case CancelAck =>
          cancels := cancels - 1;
      }
      FinalizeOp();
    }

    /** The destructor returns at once, or cancels and blocks until the last event. */
    method Destruct()
      requires Valid(View()) && owner.Running?
      modifies this
      ensures View() == Destroy(old(View())) && Valid(View())
      ensures owner.Gone? <==> old(pendingCqes) == 0
    {
      if pendingCqes > 0 {
        CancelOp();
        if held {
          owner := Blocked(InFlash);
          return;
        }
      }
      owner := Gone;
    }
  }
}
