/**
 Coordinators, signals and waiting for any of several of them, on top of the scheduler. The system
 is the set of contexts of one cooperator; a step is what one context (or the loop) does between two
 points where another context can run.
 */
module Coordination {
  import opened Basics
  import opened Runs
  import S = Scheduler

  type Ctx = S.Ctx

  /**
   A coordinator, or the coordinator inside a signal. `owner` is history: the context that acquired
   it, or None while it is free or held as a mark that any context may release.
   */
  datatype Co = Co(signal: bool, signaled: bool, held: bool, waiters: seq<Ctx>, owner: Option<Ctx>)

  /**
   A context inside an Acquire, single or multiple. `order` lists its coordinators as the caller gave
   them, `on` those it still has a node for, `sat` those whose node was satisfied; `since` is when the
   nodes were linked.
   */
  datatype Wait = Wait(order: seq<nat>, on: set<nat>, sat: set<nat>, since: nat)

  /** The waiters a switching Notify has taken off signal `sig` and not yet woken. */
  datatype Notice = Notice(sig: nat, rest: seq<Ctx>)

  datatype Kernel = Kernel(
    sched: S.Sched,
    coords: seq<Co>,
    waits: map<Ctx, Wait>,
    notices: map<Ctx, Notice>,
    clock: nat)

  // ---------------------------------------------------------------------------------------
  // Operations
  // ---------------------------------------------------------------------------------------

  /** The running context is not in the middle of a wait or of a Notify. */
  predicate Free(k: Kernel, x: Ctx) {
    k.sched.scheduled == Some(x) && x !in k.waits && x !in k.notices
  }

  function SetCo(k: Kernel, c: nat, co: Co): Kernel
    requires c < |k.coords|
  {
    k.(coords := k.coords[c := co])
  }

  /** Marks x's node on c satisfied and makes x runnable. */
  function WakeWaiter(k: Kernel, x: Ctx, c: nat, schedule: bool): Kernel {
    if x in k.waits && x in k.sched.state && (schedule ==> k.sched.scheduled.Some?) then
      var w := k.waits[x];
      k.(waits := k.waits[x := w.(sat := w.sat + {c})], sched := S.Unblock(k.sched, x, schedule))
    else k
  }

  /** Hands c to its longest waiter, or frees it. */
  function Release(k: Kernel, c: nat, schedule: bool): Kernel
    requires c < |k.coords|
  {
    var co := k.coords[c];
    if !co.held then k
    else if co.waiters == [] then SetCo(k, c, co.(held := false, owner := None))
    else
      var x := co.waiters[0];
      WakeWaiter(SetCo(k, c, co.(waiters := co.waiters[1..], owner := Some(x))), x, c, schedule)
  }

  /** Acquiring a free coordinator; a signal that was notified is reset to stay open. */
  function Take(k: Kernel, x: Ctx, c: nat): Kernel
    requires c < |k.coords|
  {
    var co := k.coords[c];
    if co.signal then SetCo(k, c, co.(held := false)) else SetCo(k, c, co.(held := true, owner := Some(x)))
  }

  /** The first of the coordinators that is not held, if any. */
  function FirstFree(coords: seq<Co>, cs: seq<nat>, i: nat): (r: nat)
    requires i <= |cs| && forall j :: 0 <= j < |cs| ==> cs[j] < |coords|
    ensures i <= r <= |cs| && (r < |cs| ==> !coords[cs[r]].held)
    ensures forall j :: i <= j < r ==> coords[cs[j]].held
    decreases |cs| - i
  {
    if i == |cs| || !coords[cs[i]].held then i else FirstFree(coords, cs, i + 1)
  }

  function Hook(k: Kernel, x: Ctx, c: nat): Kernel
    requires c < |k.coords|
  {
    SetCo(k, c, k.coords[c].(waiters := k.coords[c].waiters + [x]))
  }

  function HookAll(k: Kernel, x: Ctx, cs: seq<nat>, i: nat): (r: Kernel)
    requires i <= |cs| && forall j :: 0 <= j < |cs| ==> cs[j] < |k.coords|
    ensures r == k.(coords := r.coords) && |r.coords| == |k.coords|
    decreases |cs| - i
  {
    if i == |cs| then k else HookAll(Hook(k, x, cs[i]), x, cs, i + 1)
  }

  /** Acquire of one coordinator, or of any of several: take the first free one or wait for all. */
  function AcquireAny(k: Kernel, x: Ctx, cs: seq<nat>): Kernel
    requires k.sched.scheduled == Some(x) && forall j :: 0 <= j < |cs| ==> cs[j] < |k.coords|
  {
    var i := FirstFree(k.coords, cs, 0);
    if i < |cs| then Take(k, x, cs[i])
    else
      var k1 := HookAll(k, x, cs, 0);
      k1.(waits := k.waits[x := Wait(cs, S.Members(cs), {}, k.clock)],
          clock := k.clock + 1,
          sched := S.BlockSelf(k.sched))
  }

  /** Unlinks x's node on c from the list that holds it, the coordinator's or a notifier's. */
  function Unlink(k: Kernel, x: Ctx, c: nat): Kernel
    requires c < |k.coords| && x in k.waits
  {
    var co := k.coords[c];
    var w := k.waits[x];
    SetCo(k, c, co.(waiters := S.Without(co.waiters, x))).(
      notices := map y | y in k.notices ::
                   if k.notices[y].sig == c then Notice(c, S.Without(k.notices[y].rest, x)) else k.notices[y],
      waits := k.waits[x := w.(on := w.on - {c})])
  }

  /** Gives up c, which was also satisfied, without switching. */
  function PassOn(k: Kernel, x: Ctx, c: nat): Kernel
    requires c < |k.coords| && x in k.waits
  {
    var w := k.waits[x];
    Release(k.(waits := k.waits[x := w.(on := w.on - {c}, sat := w.sat - {c})]), c, false)
  }

  /** The clean-up after the winning index: coordinators from i on are unlinked or passed on. */
  function CleanRest(k: Kernel, x: Ctx, cs: seq<nat>, i: nat): (r: Kernel)
    requires i <= |cs| && x in k.waits && forall j :: 0 <= j < |cs| ==> cs[j] < |k.coords|
    ensures |r.coords| == |k.coords| && x in r.waits
    decreases |cs| - i
  {
    if i == |cs| then k
    else if cs[i] in k.waits[x].sat then CleanRest(PassOn(k, x, cs[i]), x, cs, i + 1)
    else CleanRest(Unlink(k, x, cs[i]), x, cs, i + 1)
  }

  /** The whole clean-up: unlink up to the first satisfied coordinator, then clean the rest. */
  function Clean(k: Kernel, x: Ctx, cs: seq<nat>, i: nat): (r: Kernel)
    requires i <= |cs| && x in k.waits && forall j :: 0 <= j < |cs| ==> cs[j] < |k.coords|
    ensures |r.coords| == |k.coords| && x in r.waits
    decreases |cs| - i
  {
    if i == |cs| then k
    else if cs[i] in k.waits[x].sat then CleanRest(k, x, cs, i + 1)
    else Clean(Unlink(k, x, cs[i]), x, cs, i + 1)
  }

  function FirstSatisfied(w: Wait, i: nat): (r: nat)
    requires i <= |w.order|
    ensures i <= r <= |w.order| && (r < |w.order| ==> w.order[r] in w.sat)
    ensures forall j :: i <= j < r ==> w.order[j] !in w.sat
    decreases |w.order| - i
  {
    if i == |w.order| || w.order[i] in w.sat then i else FirstSatisfied(w, i + 1)
  }

  /** The woken context returns from its wait; a winning signal is reset. */
  function FinishWait(k: Kernel, x: Ctx): Kernel
    requires x in k.waits && forall j :: 0 <= j < |k.waits[x].order| ==> k.waits[x].order[j] < |k.coords|
  {
    var w := k.waits[x];
    var k1 := Clean(k, x, w.order, 0);
    var i := FirstSatisfied(w, 0);
    var k2 := k1.(waits := k1.waits - {x});
    if i < |w.order| && k2.coords[w.order[i]].signal
    then SetCo(k2, w.order[i], k2.coords[w.order[i]].(held := false))
    else k2
  }

  /** The first half of Notify: the signal is open and its waiters are the notifier's. */
  function OpenSignal(k: Kernel, c: nat): Kernel
    requires c < |k.coords|
  {
    SetCo(k, c, k.coords[c].(signaled := true, held := false, waiters := []))
  }

  function WakeAll(k: Kernel, xs: seq<Ctx>, c: nat): (r: Kernel)
    ensures |r.coords| == |k.coords|
    decreases |xs|
  {
    if xs == [] then k else WakeAll(WakeWaiter(k, xs[0], c, false), xs[1..], c)
  }

  function Notify(k: Kernel, c: nat): Kernel
    requires c < |k.coords|
  {
    WakeAll(OpenSignal(k, c), k.coords[c].waiters, c)
  }

  function NotifyStart(k: Kernel, y: Ctx, c: nat): Kernel
    requires c < |k.coords|
  {
    OpenSignal(k, c).(notices := k.notices[y := Notice(c, k.coords[c].waiters)])
  }

  /** The second half, once per waiter: switch to it, or return when none is left. */
  function NotifyNext(k: Kernel, y: Ctx): Kernel
    requires y in k.notices
  {
    var n := k.notices[y];
    if n.rest == [] then k.(notices := k.notices - {y})
    else WakeWaiter(k.(notices := k.notices[y := n.(rest := n.rest[1..])]), n.rest[0], n.sig, true)
  }

  // ---------------------------------------------------------------------------------------
  // Steps
  // ---------------------------------------------------------------------------------------

  ghost predicate Init(k: Kernel) {
    && (exists config :: k.sched == S.Init(config))
    && k.waits == map[] && k.notices == map[]
    && forall c :: 0 <= c < |k.coords| ==>
         && k.coords[c].waiters == [] && k.coords[c].owner == None && !k.coords[c].signaled
         && (k.coords[c].signal ==> k.coords[c].held)
  }

  /** Spawning, resuming, yielding and exiting do not touch coordinators. */
  ghost predicate ScheduleStep(k: Kernel, l: Kernel) {
    && l == k.(sched := l.sched)
    && (|| (exists c :: c !in k.sched.state && l.sched == S.Enter(k.sched, c))
        || (k.sched.scheduled.None? && k.sched.yielded != [] && l.sched == S.Resume(k.sched))
        || (exists x, a, b :: Free(k, x) && l.sched == S.Yield(k.sched, a, b, []))
        || (exists x :: Free(k, x) && OwnsNothing(k.coords, x) && l.sched == S.Exit(k.sched)))
  }

  predicate OwnsNothing(coords: seq<Co>, x: Ctx) {
    forall c :: 0 <= c < |coords| ==> coords[c].owner != Some(x)
  }

  /** Waiting on distinct coordinators none of which the caller already owns. */
  ghost predicate AcquireStep(k: Kernel, l: Kernel) {
    exists x: Ctx, cs: seq<nat> ::
      && Free(k, x) && cs != [] && Once(cs)
      && (forall j :: 0 <= j < |cs| ==> cs[j] < |k.coords| && k.coords[cs[j]].owner != Some(x))
      && l == AcquireAny(k, x, cs)
  }

  ghost predicate FinishStep(k: Kernel, l: Kernel) {
    exists x ::
      && k.sched.scheduled == Some(x) && x in k.waits
      && (forall j :: 0 <= j < |k.waits[x].order| ==> k.waits[x].order[j] < |k.coords|)
      && l == FinishWait(k, x)
  }

  /** A coordinator is released by its owner, or by anyone while it is held as a mark. */
  ghost predicate ReleaseStep(k: Kernel, l: Kernel) {
    exists c, schedule ::
      && 0 <= c < |k.coords| && !k.coords[c].signal
      && (k.coords[c].owner == None || exists x: Ctx :: Free(k, x) && k.coords[c].owner == Some(x))
      && (schedule ==> exists x :: Free(k, x))
      && l == Release(k, c, schedule)
  }

  /** An owner leaves its coordinator held as a mark. */
  ghost predicate DisownStep(k: Kernel, l: Kernel) {
    exists x: Ctx, c ::
      && Free(k, x) && 0 <= c < |k.coords| && k.coords[c].owner == Some(x)
      && l == SetCo(k, c, k.coords[c].(owner := None))
  }

  ghost predicate NotifyStep(k: Kernel, l: Kernel) {
    || (exists c :: 0 <= c < |k.coords| && k.coords[c].signal && l == Notify(k, c))
    || (exists x, c :: Free(k, x) && 0 <= c < |k.coords| && k.coords[c].signal && l == NotifyStart(k, x, c))
    || (exists x :: k.sched.scheduled == Some(x) && x in k.notices && l == NotifyNext(k, x))
  }

  ghost predicate Next(k: Kernel, l: Kernel) {
    || ScheduleStep(k, l)
    || AcquireStep(k, l)
    || FinishStep(k, l)
    || ReleaseStep(k, l)
    || DisownStep(k, l)
    || NotifyStep(k, l)
  }

  // ---------------------------------------------------------------------------------------
  // The invariant
  // ---------------------------------------------------------------------------------------

  /** An unheld coordinator has nobody waiting; a signal is held until it is notified and never after. */
  predicate CoOk(co: Co) {
    && (!co.signal ==> !co.signaled && (!co.held ==> co.waiters == [] && co.owner == None))
    && (co.signal ==> co.owner == None && (co.signaled <==> !co.held) && (co.signaled ==> co.waiters == []))
  }

  /** Everyone in the list waits for c and has not been given it. */
  ghost predicate Waiting(list: seq<Ctx>, c: nat, waits: map<Ctx, Wait>) {
    Once(list) && forall x :: x in list ==> x in waits && c in waits[x].on && c !in waits[x].sat
  }

  /** The list is in order of arrival. */
  ghost predicate ByArrival(list: seq<Ctx>, waits: map<Ctx, Wait>) {
    forall i, j :: 0 <= i < j < |list| && list[i] in waits && list[j] in waits ==>
      waits[list[i]].since < waits[list[j]].since
  }

  /** x's node on c is linked: in c's wait list, or among the waiters taken off the signal c. */
  ghost predicate LinkedAt(coords: seq<Co>, notices: map<Ctx, Notice>, x: Ctx, c: nat)
    requires c < |coords|
  {
    x in coords[c].waiters || exists y :: y in notices && notices[y].sig == c && x in notices[y].rest
  }

  /** Waiters taken off coordinator `c` whose wake has not happened yet. */
  datatype Popped = Popped(c: nat, xs: seq<Ctx>)

  ghost predicate WaitOk(w: Wait, x: Ctx, coords: seq<Co>, notices: map<Ctx, Notice>, p: Popped) {
    && w.sat <= w.on && Once(w.order)
    && (forall c :: c in w.on ==> c < |coords| && c in w.order)
    && (forall c :: c in w.order ==> c < |coords|)
    && (forall c :: c in w.sat ==>
          if coords[c].signal then coords[c].signaled else coords[c].held && coords[c].owner == Some(x))
    && (forall c :: c in w.on && c !in w.sat ==>
          (LinkedAt(coords, notices, x, c) && coords[c].owner != Some(x)) || (c == p.c && x in p.xs))
  }

  ghost predicate NoticesOk(coords: seq<Co>, waits: map<Ctx, Wait>, notices: map<Ctx, Notice>) {
    && (forall y :: y in notices ==>
          && notices[y].sig < |coords| && coords[notices[y].sig].signal && coords[notices[y].sig].signaled
          && Waiting(notices[y].rest, notices[y].sig, waits))
    && (forall y, z, x :: y in notices && z in notices && y != z && notices[y].sig == notices[z].sig ==>
          !(x in notices[y].rest && x in notices[z].rest))
  }

  /** A context is blocked exactly while it waits and nothing has satisfied it. */
  ghost predicate StatusOk(state: map<Ctx, S.Status>, waits: map<Ctx, Wait>, notices: map<Ctx, Notice>) {
    && (forall x :: x in state ==> (state[x] == S.Blocked <==> x in waits && waits[x].sat == {}))
    && (forall x :: x in waits ==> x in state && x !in notices)
    && (forall y :: y in notices ==> y in state)
  }

  ghost predicate CoordsOk(coords: seq<Co>, waits: map<Ctx, Wait>, live: set<Ctx>) {
    forall c :: 0 <= c < |coords| ==>
      && CoOk(coords[c])
      && Waiting(coords[c].waiters, c, waits) && ByArrival(coords[c].waiters, waits)
      && (coords[c].owner.Some? ==> coords[c].owner.value in live)
  }

  ghost predicate WaitsOk(waits: map<Ctx, Wait>, coords: seq<Co>, notices: map<Ctx, Notice>, p: Popped, clock: nat) {
    forall x :: x in waits ==> WaitOk(waits[x], x, coords, notices, p) && waits[x].since < clock
  }

  /** Popped waiters are on no list, and may be woken: c is theirs, or is an open signal. */
  ghost predicate PoppedOk(p: Popped, coords: seq<Co>, waits: map<Ctx, Wait>, notices: map<Ctx, Notice>) {
    && Waiting(p.xs, p.c, waits)
    && (p.xs != [] ==>
          && p.c < |coords|
          && (if coords[p.c].signal then coords[p.c].signaled
              else coords[p.c].held && |p.xs| == 1 && coords[p.c].owner == Some(p.xs[0]))
          && forall x :: x in p.xs ==> !LinkedAt(coords, notices, x, p.c))
  }

  /** The invariant in the middle of a Release or Notify, with some popped waiters still to wake. */
  ghost predicate InvBut(k: Kernel, p: Popped) {
    && S.Partition(k.sched)
    && StatusOk(k.sched.state, k.waits, k.notices)
    && CoordsOk(k.coords, k.waits, k.sched.state.Keys)
    && NoticesOk(k.coords, k.waits, k.notices)
    && WaitsOk(k.waits, k.coords, k.notices, p, k.clock)
    && PoppedOk(p, k.coords, k.waits, k.notices)
  }

  ghost predicate Inv(k: Kernel) {
    InvBut(k, Popped(0, []))
  }

  // ---------------------------------------------------------------------------------------
  // The pieces of a step keep it
  // ---------------------------------------------------------------------------------------

  lemma UnblockStatus(s: S.Sched, x: Ctx, schedule: bool)
    requires S.Partition(s) && x in s.state && (schedule ==> s.scheduled.Some?)
    ensures var t := S.Unblock(s, x, schedule);
            && S.Partition(t) && t.state.Keys == s.state.Keys
            && forall z :: z in s.state ==> (t.state[z] == S.Blocked <==> s.state[z] == S.Blocked && z != x)
  {
    S.UnblockKeeps(s, x, schedule);
    assert s.scheduled.Some? ==> s.state[s.scheduled.value] == S.Running;
  }

  /** Marking x satisfied by c, when x is on no list of c, disturbs no list. */
  lemma SatisfyKeepsLists(coords: seq<Co>, waits: map<Ctx, Wait>, notices: map<Ctx, Notice>, live: set<Ctx>, x: Ctx, c: nat)
    requires CoordsOk(coords, waits, live) && NoticesOk(coords, waits, notices)
    requires x in waits && c < |coords| && !LinkedAt(coords, notices, x, c)
    ensures var waits' := waits[x := waits[x].(sat := waits[x].sat + {c})];
            CoordsOk(coords, waits', live) && NoticesOk(coords, waits', notices)
  {
    var waits' := waits[x := waits[x].(sat := waits[x].sat + {c})];
    forall d | 0 <= d < |coords|
      ensures Waiting(coords[d].waiters, d, waits') && ByArrival(coords[d].waiters, waits')
    {
      assert Waiting(coords[d].waiters, d, waits) && ByArrival(coords[d].waiters, waits);
    }
    forall y | y in notices ensures Waiting(notices[y].rest, notices[y].sig, waits') {
      assert Waiting(notices[y].rest, notices[y].sig, waits);
    }
  }

  lemma SatisfyKeepsWaits(coords: seq<Co>, waits: map<Ctx, Wait>, notices: map<Ctx, Notice>, clock: nat, p: Popped)
    requires WaitsOk(waits, coords, notices, p, clock) && PoppedOk(p, coords, waits, notices) && p.xs != []
    ensures p.xs[0] in waits
    ensures var x := p.xs[0];
            var waits' := waits[x := waits[x].(sat := waits[x].sat + {p.c})];
            var p' := Popped(p.c, p.xs[1..]);
            WaitsOk(waits', coords, notices, p', clock) && PoppedOk(p', coords, waits', notices)
  {
    hide LinkedAt;
    var x, p' := p.xs[0], Popped(p.c, p.xs[1..]);
    assert x in p.xs && p.xs == [x] + p'.xs && x !in p'.xs;
    var waits' := waits[x := waits[x].(sat := waits[x].sat + {p.c})];
    forall z | z in waits' ensures WaitOk(waits'[z], z, coords, notices, p') {
      assert WaitOk(waits[z], z, coords, notices, p);
    }
  }

  /** Waking the first popped waiter. */
  lemma WakeKeeps(k: Kernel, p: Popped, schedule: bool)
    requires InvBut(k, p) && p.xs != [] && (schedule ==> k.sched.scheduled.Some?)
    ensures var l := WakeWaiter(k, p.xs[0], p.c, schedule);
            && InvBut(l, Popped(p.c, p.xs[1..])) && l.coords == k.coords
            && l == k.(waits := l.waits, sched := l.sched) && p.xs[0] in k.waits && p.xs[0] in k.sched.state
            && l.waits == k.waits[p.xs[0] := k.waits[p.xs[0]].(sat := k.waits[p.xs[0]].sat + {p.c})]
            && (!schedule ==> l.sched.scheduled == k.sched.scheduled)
            && (forall z :: z in k.sched.state ==>
                  z in l.sched.state && (l.sched.state[z] == S.Blocked ==> k.sched.state[z] == S.Blocked && z != p.xs[0]))
  {
    hide S.Partition; hide CoordsOk; hide NoticesOk; hide WaitsOk; hide S.Unblock;
    var x := p.xs[0];
    assert x in p.xs;
    UnblockStatus(k.sched, x, schedule);
    UnblockStays(k.sched, x, schedule);
    SatisfyKeepsLists(k.coords, k.waits, k.notices, k.sched.state.Keys, x, p.c);
    SatisfyKeepsWaits(k.coords, k.waits, k.notices, k.clock, p);
  }

  lemma UnblockStays(s: S.Sched, x: Ctx, schedule: bool)
    requires x in s.state && (schedule ==> s.scheduled.Some?)
    ensures !schedule ==> S.Unblock(s, x, schedule).scheduled == s.scheduled
  {
  }

  /** Nobody was given c and has not yet returned with it. */
  ghost predicate Unclaimed(waits: map<Ctx, Wait>, c: nat) {
    forall x :: x in waits ==> c !in waits[x].sat
  }

  lemma ReleaseKeeps(k: Kernel, c: nat, schedule: bool)
    requires Inv(k) && c < |k.coords| && !k.coords[c].signal && Unclaimed(k.waits, c)
    requires schedule ==> k.sched.scheduled.Some?
    ensures Inv(Release(k, c, schedule))
  {
    hide InvBut; hide Unclaimed; hide WakeWaiter;
    var co := k.coords[c];
    if co.held && co.waiters == [] {
      FreeKeeps(k, c);
    } else if co.held {
      var x := co.waiters[0];
      var k1 := SetCo(k, c, co.(waiters := co.waiters[1..], owner := Some(x)));
      PopKeeps(k, c);
      WakeKeeps(k1, Popped(c, [x]), schedule);
      assert [x][1..] == [];
      ForgetPopped(Release(k, c, schedule), c);
    }
  }

  lemma ForgetPopped(k: Kernel, c: nat)
    requires InvBut(k, Popped(c, []))
    ensures Inv(k)
  {
    hide LinkedAt; hide CoordsOk; hide NoticesOk; hide S.Partition;
    forall x | x in k.waits ensures WaitOk(k.waits[x], x, k.coords, k.notices, Popped(0, [])) {
      assert WaitOk(k.waits[x], x, k.coords, k.notices, Popped(c, []));
    }
  }

  /**
   Replacing coordinator c by `co`: the other contexts' waits still hold if c is unclaimed and every
   waiter of c is still in the list or popped.
   */
  lemma SetKeepsWaits(coords: seq<Co>, waits: map<Ctx, Wait>, notices: map<Ctx, Notice>, clock: nat, c: nat, co: Co, p: Popped)
    requires WaitsOk(waits, coords, notices, Popped(0, []), clock) && c < |coords|
    requires co.signal == coords[c].signal && (coords[c].signaled ==> co.signaled)
    requires co.signal || Unclaimed(waits, c)
    requires forall x :: x in coords[c].waiters ==> x in co.waiters || (p.c == c && x in p.xs)
    requires forall x :: x in waits && co.owner == Some(x) ==> p.c == c && x in p.xs
    ensures WaitsOk(waits, coords[c := co], notices, p, clock)
  {
    var coords' := coords[c := co];
    forall z | z in waits ensures WaitOk(waits[z], z, coords', notices, p) {
      assert WaitOk(waits[z], z, coords, notices, Popped(0, []));
      forall d | d in waits[z].on && d !in waits[z].sat
        ensures (LinkedAt(coords', notices, z, d) && coords'[d].owner != Some(z)) || (d == p.c && z in p.xs)
      {
        assert LinkedAt(coords, notices, z, d);
      }
    }
  }

  lemma SetKeepsLists(coords: seq<Co>, waits: map<Ctx, Wait>, notices: map<Ctx, Notice>, live: set<Ctx>, c: nat, co: Co)
    requires CoordsOk(coords, waits, live) && NoticesOk(coords, waits, notices) && c < |coords|
    requires CoOk(co) && Waiting(co.waiters, c, waits) && ByArrival(co.waiters, waits)
    requires co.owner.Some? ==> co.owner.value in live
    requires co.signal == coords[c].signal && (coords[c].signaled ==> co.signaled)
    ensures CoordsOk(coords[c := co], waits, live) && NoticesOk(coords[c := co], waits, notices)
  {
    hide Waiting; hide ByArrival; hide CoOk;
  }

  lemma FreeKeeps(k: Kernel, c: nat)
    requires Inv(k) && c < |k.coords| && !k.coords[c].signal && Unclaimed(k.waits, c)
    requires k.coords[c].held && k.coords[c].waiters == []
    ensures Inv(SetCo(k, c, k.coords[c].(held := false, owner := None)))
  {
    hide S.Partition; hide StatusOk; hide NoticesOk; hide WaitsOk; hide LinkedAt;
    var co := k.coords[c].(held := false, owner := None);
    SetKeepsWaits(k.coords, k.waits, k.notices, k.clock, c, co, Popped(0, []));
    SetKeepsLists(k.coords, k.waits, k.notices, k.sched.state.Keys, c, co);
  }

  lemma TailOk(list: seq<Ctx>, c: nat, waits: map<Ctx, Wait>)
    requires list != [] && Waiting(list, c, waits) && ByArrival(list, waits)
    ensures Waiting(list[1..], c, waits) && ByArrival(list[1..], waits)
    ensures Waiting([list[0]], c, waits) && list[0] !in list[1..]
    ensures forall x :: x in list ==> x == list[0] || x in list[1..]
  {
  }

  /** Popping the first waiter of c and making it the owner. */
  lemma PopKeeps(k: Kernel, c: nat)
    requires Inv(k) && c < |k.coords| && !k.coords[c].signal && Unclaimed(k.waits, c)
    requires k.coords[c].held && k.coords[c].waiters != []
    ensures var co := k.coords[c];
            InvBut(SetCo(k, c, co.(waiters := co.waiters[1..], owner := Some(co.waiters[0]))),
                   Popped(c, [co.waiters[0]]))
  {
    hide S.Partition; hide WaitsOk;
    var old' := k.coords[c];
    var x := old'.waiters[0];
    var p := Popped(c, [x]);
    var co := old'.(waiters := old'.waiters[1..], owner := Some(x));
    TailOk(old'.waiters, c, k.waits);
    assert x in old'.waiters;
    SetKeepsWaits(k.coords, k.waits, k.notices, k.clock, c, co, p);
    SetKeepsLists(k.coords, k.waits, k.notices, k.sched.state.Keys, c, co);
    PlainHasNoNotice(k.coords, k.waits, k.notices, c);
  }

  lemma PlainHasNoNotice(coords: seq<Co>, waits: map<Ctx, Wait>, notices: map<Ctx, Notice>, c: nat)
    requires NoticesOk(coords, waits, notices) && c < |coords| && !coords[c].signal
    ensures forall y :: y in notices ==> notices[y].sig != c
  {
  }

  /** A free plain coordinator is nobody's and nobody waits for it. */
  lemma UnheldUnclaimed(k: Kernel, c: nat)
    requires Inv(k) && c < |k.coords| && !k.coords[c].signal
    requires k.coords[c].owner.None? || k.coords[c].owner.value !in k.waits || c !in k.waits[k.coords[c].owner.value].sat
    ensures Unclaimed(k.waits, c)
  {
    hide S.Partition; hide StatusOk; hide NoticesOk; hide LinkedAt; hide CoordsOk;
    forall x | x in k.waits ensures c !in k.waits[x].sat {
      assert WaitOk(k.waits[x], x, k.coords, k.notices, Popped(0, []));
    }
  }

  lemma TakeKeeps(k: Kernel, x: Ctx, c: nat)
    requires Inv(k) && c < |k.coords| && !k.coords[c].held && x in k.sched.state && x !in k.waits
    ensures Inv(Take(k, x, c))
  {
    if k.coords[c].signal {
      assert k.coords[c := k.coords[c].(held := false)] == k.coords;
      assert Take(k, x, c) == k;
    } else {
      var co := k.coords[c].(held := true, owner := Some(x));
      assert k.coords[c].owner == None && k.coords[c].waiters == [];
      UnheldUnclaimed(k, c);
      hide S.Partition; hide StatusOk; hide NoticesOk; hide WaitsOk; hide LinkedAt;
      SetKeepsWaits(k.coords, k.waits, k.notices, k.clock, c, co, Popped(0, []));
      SetKeepsLists(k.coords, k.waits, k.notices, k.sched.state.Keys, c, co);
    }
  }

  // ---------------------------------------------------------------------------------------
  // Starting to wait
  // ---------------------------------------------------------------------------------------

  /** Hooking x on cs[i..] appends it to exactly those wait lists. */
  lemma {:induction false} HookAllEffect(k: Kernel, x: Ctx, cs: seq<nat>, i: nat)
    requires i <= |cs| && Once(cs) && forall j :: 0 <= j < |cs| ==> cs[j] < |k.coords|
    ensures var r := HookAll(k, x, cs, i);
            forall c :: 0 <= c < |k.coords| ==>
              r.coords[c] == if c in cs[i..] then k.coords[c].(waiters := k.coords[c].waiters + [x]) else k.coords[c]
    decreases |cs| - i
  {
    if i < |cs| {
      HookAllEffect(Hook(k, x, cs[i]), x, cs, i + 1);
      assert cs[i..] == [cs[i]] + cs[i + 1..];
      assert cs[i] !in cs[i + 1..];
    }
  }

  lemma AppendOk(list: seq<Ctx>, c: nat, waits: map<Ctx, Wait>, x: Ctx, w: Wait)
    requires Waiting(list, c, waits) && ByArrival(list, waits) && x !in waits
    requires c in w.on && c !in w.sat && forall z :: z in waits ==> waits[z].since < w.since
    ensures Waiting(list + [x], c, waits[x := w]) && ByArrival(list + [x], waits[x := w])
  {
  }

  lemma StillWaiting(list: seq<Ctx>, c: nat, waits: map<Ctx, Wait>, x: Ctx, w: Wait)
    requires Waiting(list, c, waits) && ByArrival(list, waits) && x !in waits
    ensures Waiting(list, c, waits[x := w]) && ByArrival(list, waits[x := w])
  {
  }

  /** The coordinators after x started to wait for those in cs, all of them held. */
  ghost predicate Hooked(coords: seq<Co>, coords': seq<Co>, x: Ctx, cs: seq<nat>) {
    && |coords'| == |coords|
    && (forall c :: c in cs ==> c < |coords|)
    && (forall c :: 0 <= c < |coords| ==>
          coords'[c] == if c in cs then coords[c].(waiters := coords[c].waiters + [x]) else coords[c])
    && (forall c :: c in cs ==> coords[c].held)
  }

  lemma HookKeepsLists(coords: seq<Co>, coords': seq<Co>, waits: map<Ctx, Wait>, notices: map<Ctx, Notice>,
                       live: set<Ctx>, x: Ctx, w: Wait)
    requires CoordsOk(coords, waits, live) && NoticesOk(coords, waits, notices)
    requires Hooked(coords, coords', x, w.order) && x !in waits && w.sat == {}
    requires forall c :: c in w.order ==> c in w.on
    requires forall z :: z in waits ==> waits[z].since < w.since
    ensures CoordsOk(coords', waits[x := w], live) && NoticesOk(coords', waits[x := w], notices)
  {
    hide Waiting; hide ByArrival;
    forall c | 0 <= c < |coords'|
      ensures CoOk(coords'[c]) && Waiting(coords'[c].waiters, c, waits[x := w]) && ByArrival(coords'[c].waiters, waits[x := w])
    {
      if c in w.order {
        AppendOk(coords[c].waiters, c, waits, x, w);
      } else {
        StillWaiting(coords[c].waiters, c, waits, x, w);
      }
    }
    forall y | y in notices ensures Waiting(notices[y].rest, notices[y].sig, waits[x := w]) {
      NoticeStillWaiting(notices[y], waits, x, w);
    }
  }

  lemma NoticeStillWaiting(n: Notice, waits: map<Ctx, Wait>, x: Ctx, w: Wait)
    requires Waiting(n.rest, n.sig, waits) && x !in waits
    ensures Waiting(n.rest, n.sig, waits[x := w])
  {
  }

  lemma HookKeepsWaits(coords: seq<Co>, coords': seq<Co>, waits: map<Ctx, Wait>, notices: map<Ctx, Notice>,
                       clock: nat, x: Ctx, cs: seq<nat>)
    requires WaitsOk(waits, coords, notices, Popped(0, []), clock) && Once(cs)
    requires Hooked(coords, coords', x, cs) && x !in waits && forall c :: c in cs ==> coords[c].owner != Some(x)
    ensures WaitsOk(waits[x := Wait(cs, S.Members(cs), {}, clock)], coords', notices, Popped(0, []), clock + 1)
  {
    var waits' := waits[x := Wait(cs, S.Members(cs), {}, clock)];
    forall z | z in waits' ensures WaitOk(waits'[z], z, coords', notices, Popped(0, [])) {
      if z != x {
        assert WaitOk(waits[z], z, coords, notices, Popped(0, []));
        forall d | d in waits[z].on && d !in waits[z].sat
          ensures LinkedAt(coords', notices, z, d) && coords'[d].owner != Some(z)
        {
          assert LinkedAt(coords, notices, z, d);
        }
      }
    }
  }

  lemma BlockStatus(s: S.Sched, x: Ctx)
    requires S.Partition(s) && s.scheduled == Some(x)
    ensures var t := S.BlockSelf(s);
            && S.Partition(t) && t.state.Keys == s.state.Keys && x in s.state
            && forall z :: z in s.state ==> (t.state[z] == S.Blocked <==> s.state[z] == S.Blocked || z == x)
  {
    S.BlockSelfKeeps(s);
    if S.DirectSwitch(s) { assert s.yielded[0] in s.yielded; }
  }

  lemma AcquireKeeps(k: Kernel, x: Ctx, cs: seq<nat>)
    requires Inv(k) && Free(k, x) && cs != [] && Once(cs)
    requires forall j :: 0 <= j < |cs| ==> cs[j] < |k.coords| && k.coords[cs[j]].owner != Some(x)
    ensures Inv(AcquireAny(k, x, cs))
  {
    var i := FirstFree(k.coords, cs, 0);
    if i < |cs| {
      RunningIsLive(k, x);
      TakeKeeps(k, x, cs[i]);
    } else {
      WaitKeeps(k, x, cs);
    }
  }

  lemma RunningIsLive(k: Kernel, x: Ctx)
    requires Inv(k) && k.sched.scheduled == Some(x)
    ensures x in k.sched.state && k.sched.state[x] == S.Running
  {
    hide CoordsOk; hide NoticesOk; hide WaitsOk; hide StatusOk; hide S.Lists;
  }

  lemma AllHooked(k: Kernel, x: Ctx, cs: seq<nat>)
    requires Once(cs) && forall j :: 0 <= j < |cs| ==> cs[j] < |k.coords|
    requires FirstFree(k.coords, cs, 0) == |cs|
    ensures Hooked(k.coords, HookAll(k, x, cs, 0).coords, x, cs)
  {
    HookAllEffect(k, x, cs, 0);
    assert cs[0..] == cs;
  }

  lemma BlockedStatus(state: map<Ctx, S.Status>, state': map<Ctx, S.Status>, waits: map<Ctx, Wait>,
                      notices: map<Ctx, Notice>, x: Ctx, w: Wait)
    requires StatusOk(state, waits, notices) && x !in waits && x !in notices && x in state && w.sat == {}
    requires state'.Keys == state.Keys
    requires forall z :: z in state ==> (state'[z] == S.Blocked <==> state[z] == S.Blocked || z == x)
    ensures StatusOk(state', waits[x := w], notices)
  {
  }

  lemma NothingPopped(coords: seq<Co>, waits: map<Ctx, Wait>, notices: map<Ctx, Notice>)
    ensures PoppedOk(Popped(0, []), coords, waits, notices)
  {
  }

  lemma AllEarlier(waits: map<Ctx, Wait>, coords: seq<Co>, notices: map<Ctx, Notice>, clock: nat)
    requires WaitsOk(waits, coords, notices, Popped(0, []), clock)
    ensures forall z :: z in waits ==> waits[z].since < clock
  {
  }

  lemma ByMember(coords: seq<Co>, x: Ctx, cs: seq<nat>)
    requires forall j :: 0 <= j < |cs| ==> cs[j] < |coords| && coords[cs[j]].owner != Some(x)
    ensures forall c :: c in cs ==> c < |coords| && coords[c].owner != Some(x) && c in S.Members(cs)
  {
  }

  lemma WaitKeeps(k: Kernel, x: Ctx, cs: seq<nat>)
    requires Inv(k) && Free(k, x) && cs != [] && Once(cs)
    requires forall j :: 0 <= j < |cs| ==> cs[j] < |k.coords| && k.coords[cs[j]].owner != Some(x)
    requires FirstFree(k.coords, cs, 0) == |cs|
    ensures Inv(AcquireAny(k, x, cs))
  {
    hide S.Partition; hide CoordsOk; hide NoticesOk; hide LinkedAt; hide S.BlockSelf; hide Hooked; hide HookAll;
    hide WaitsOk; hide StatusOk; hide FirstFree; hide PoppedOk; hide Once; hide S.Members; hide AcquireAny;
    var k1 := HookAll(k, x, cs, 0);
    ByMember(k.coords, x, cs);
    var w := Wait(cs, S.Members(cs), {}, k.clock);
    AllHooked(k, x, cs);
    BlockStatus(k.sched, x);
    BlockedStatus(k.sched.state, S.BlockSelf(k.sched).state, k.waits, k.notices, x, w);
    AllEarlier(k.waits, k.coords, k.notices, k.clock);
    NothingPopped(k1.coords, k.waits[x := w], k.notices);
    HookKeepsLists(k.coords, k1.coords, k.waits, k.notices, k.sched.state.Keys, x, w);
    HookKeepsWaits(k.coords, k1.coords, k.waits, k.notices, k.clock, x, cs);
    WaitIsAcquire(k, x, cs);
  }

  lemma WaitIsAcquire(k: Kernel, x: Ctx, cs: seq<nat>)
    requires k.sched.scheduled == Some(x) && (forall j :: 0 <= j < |cs| ==> cs[j] < |k.coords|) && FirstFree(k.coords, cs, 0) == |cs|
    ensures AcquireAny(k, x, cs) == Kernel(S.BlockSelf(k.sched), HookAll(k, x, cs, 0).coords,
                                           k.waits[x := Wait(cs, S.Members(cs), {}, k.clock)], k.notices, k.clock + 1)
  {
    hide FirstFree; hide HookAll; hide S.BlockSelf; hide S.Members;
  }

  // ---------------------------------------------------------------------------------------
  // Returning from a wait
  // ---------------------------------------------------------------------------------------

  lemma {:induction false} WithoutByArrival(list: seq<Ctx>, waits: map<Ctx, Wait>, x: Ctx)
    requires ByArrival(list, waits)
    ensures ByArrival(S.Without(list, x), waits)
  {
    if list != [] {
      var rest := S.Without(list[1..], x);
      WithoutByArrival(list[1..], waits, x);
      if list[0] != x {
        var r := S.Without(list, x);
        assert r == [list[0]] + rest;
        forall i, j | 0 <= i < j < |r| && r[i] in waits && r[j] in waits ensures waits[r[i]].since < waits[r[j]].since {
          if i == 0 {
            assert r[j] in rest;
          } else {
            assert r[i] == rest[i - 1] && r[j] == rest[j - 1];
          }
        }
      }
    }
  }

  lemma WithoutOk(list: seq<Ctx>, c: nat, waits: map<Ctx, Wait>, x: Ctx, w: Wait)
    requires Waiting(list, c, waits) && x in waits && w.since == waits[x].since
    ensures Waiting(S.Without(list, x), c, waits[x := w])
    ensures ByArrival(list, waits) ==> ByArrival(S.Without(list, x), waits[x := w])
  {
    S.WithoutOnce(list, x);
    if ByArrival(list, waits) {
      WithoutByArrival(list, waits, x);
      assert forall z :: z in S.Without(list, x) ==> z != x;
    }
  }

  /** x no longer waits for c; it was on no other list of c than those it leaves. */
  lemma ShrinkOk(list: seq<Ctx>, d: nat, c: nat, waits: map<Ctx, Wait>, x: Ctx, w: Wait)
    requires Waiting(list, d, waits) && d != c && x in waits
    requires w.since == waits[x].since && w.on == waits[x].on - {c} && w.sat == waits[x].sat - {c}
    ensures Waiting(list, d, waits[x := w])
    ensures ByArrival(list, waits) ==> ByArrival(list, waits[x := w])
  {
  }

  ghost function NoticesWithout(notices: map<Ctx, Notice>, c: nat, x: Ctx): map<Ctx, Notice> {
    map y | y in notices :: if notices[y].sig == c then Notice(c, S.Without(notices[y].rest, x)) else notices[y]
  }

  lemma UnlinkKeepsLists(coords: seq<Co>, waits: map<Ctx, Wait>, notices: map<Ctx, Notice>, live: set<Ctx>, x: Ctx, c: nat)
    requires CoordsOk(coords, waits, live) && NoticesOk(coords, waits, notices)
    requires x in waits && c < |coords| && c !in waits[x].sat
    ensures var w := waits[x].(on := waits[x].on - {c});
            var coords' := coords[c := coords[c].(waiters := S.Without(coords[c].waiters, x))];
            CoordsOk(coords', waits[x := w], live) && NoticesOk(coords', waits[x := w], NoticesWithout(notices, c, x))
  {
    hide Waiting; hide ByArrival;
    var w := waits[x].(on := waits[x].on - {c});
    var coords' := coords[c := coords[c].(waiters := S.Without(coords[c].waiters, x))];
    forall d | 0 <= d < |coords|
      ensures CoOk(coords'[d]) && Waiting(coords'[d].waiters, d, waits[x := w]) && ByArrival(coords'[d].waiters, waits[x := w])
    {
      if d == c { WithoutOk(coords[c].waiters, c, waits, x, w); } else { ShrinkOk(coords[d].waiters, d, c, waits, x, w); }
    }
    forall y | y in notices ensures Waiting(NoticesWithout(notices, c, x)[y].rest, notices[y].sig, waits[x := w]) {
      if notices[y].sig == c {
        WithoutOk(notices[y].rest, c, waits, x, w);
      } else {
        ShrinkOk(notices[y].rest, notices[y].sig, c, waits, x, w);
      }
    }
  }

  lemma UnlinkKeepsWaits(coords: seq<Co>, waits: map<Ctx, Wait>, notices: map<Ctx, Notice>, clock: nat, x: Ctx, c: nat)
    requires WaitsOk(waits, coords, notices, Popped(0, []), clock) && x in waits && c < |coords| && c !in waits[x].sat
    ensures var w := waits[x].(on := waits[x].on - {c});
            var coords' := coords[c := coords[c].(waiters := S.Without(coords[c].waiters, x))];
            WaitsOk(waits[x := w], coords', NoticesWithout(notices, c, x), Popped(0, []), clock)
  {
    var w := waits[x].(on := waits[x].on - {c});
    var coords' := coords[c := coords[c].(waiters := S.Without(coords[c].waiters, x))];
    var waits', notices' := waits[x := w], NoticesWithout(notices, c, x);
    forall z | z in waits' ensures WaitOk(waits'[z], z, coords', notices', Popped(0, [])) {
      assert WaitOk(waits[z], z, coords, notices, Popped(0, []));
      forall d | d in waits'[z].on && d !in waits'[z].sat
        ensures LinkedAt(coords', notices', z, d) && coords'[d].owner != Some(z)
      {
        assert LinkedAt(coords, notices, z, d);
        if z !in coords[d].waiters {
          var y :| y in notices && notices[y].sig == d && z in notices[y].rest;
          assert y in notices' && notices'[y].sig == d && z in notices'[y].rest;
        }
      }
    }
  }

  lemma UnlinkKeeps(k: Kernel, x: Ctx, c: nat)
    requires Inv(k) && x in k.waits && c < |k.coords| && c !in k.waits[x].sat
    ensures Inv(Unlink(k, x, c))
  {
    hide S.Partition; hide CoordsOk; hide NoticesOk; hide WaitsOk; hide LinkedAt;
    UnlinkKeepsLists(k.coords, k.waits, k.notices, k.sched.state.Keys, x, c);
    UnlinkKeepsWaits(k.coords, k.waits, k.notices, k.clock, x, c);
    assert Unlink(k, x, c).notices == NoticesWithout(k.notices, c, x);
  }

  /** What a release leaves of the coordinator itself. */
  function Passed(co: Co): Co {
    if !co.held then co
    else if co.waiters == [] then co.(held := false, owner := None)
    else co.(waiters := co.waiters[1..], owner := Some(co.waiters[0]))
  }

  /** Other contexts only gain satisfied nodes and only become runnable. */
  ghost predicate Grows(k: Kernel, l: Kernel, x: Ctx) {
    && (forall y :: y in k.waits && y != x ==>
          && y in l.waits && k.waits[y].sat <= l.waits[y].sat
          && l.waits[y] == k.waits[y].(sat := l.waits[y].sat))
    && (forall z :: z in k.sched.state ==>
          z in l.sched.state && (l.sched.state[z] == S.Blocked ==> k.sched.state[z] == S.Blocked))
    && l.sched.scheduled == k.sched.scheduled
    && l.waits.Keys == k.waits.Keys
  }

  /** The coordinator went to its longest waiter, which can now run. */
  ghost predicate HandedOver(k: Kernel, l: Kernel, c: nat)
    requires c < |k.coords|
  {
    k.coords[c].held && k.coords[c].waiters != [] ==>
      var y := k.coords[c].waiters[0];
      && y in l.waits && c in l.waits[y].sat
      && y in l.sched.state && l.sched.state[y] != S.Blocked
  }

  lemma ReleaseEffect(k: Kernel, x: Ctx, c: nat)
    requires Inv(k) && c < |k.coords| && !k.coords[c].signal && Unclaimed(k.waits, c)
    requires x in k.waits ==> x !in k.coords[c].waiters
    ensures var l := Release(k, c, false);
            && l.coords == k.coords[c := Passed(k.coords[c])] && Grows(k, l, x) && HandedOver(k, l, c)
            && (x in k.waits ==> l.waits[x] == k.waits[x])
  {
    hide InvBut; hide WakeWaiter; hide Unclaimed;
    var co := k.coords[c];
    if co.held && co.waiters != [] {
      var y := co.waiters[0];
      var k1 := SetCo(k, c, co.(waiters := co.waiters[1..], owner := Some(y)));
      PopKeeps(k, c);
      WakeKeeps(k1, Popped(c, [y]), false);
    } else if co.held {
      assert Release(k, c, false).coords == k.coords[c := Passed(co)];
    } else {
      assert k.coords == k.coords[c := Passed(co)];
    }
  }

  /** x stops counting a coordinator it was given; another one keeps it awake. */
  function Forgo(k: Kernel, x: Ctx, c: nat): Kernel
    requires x in k.waits
  {
    k.(waits := k.waits[x := k.waits[x].(on := k.waits[x].on - {c}, sat := k.waits[x].sat - {c})])
  }

  lemma ForgoKeepsLists(coords: seq<Co>, waits: map<Ctx, Wait>, notices: map<Ctx, Notice>, live: set<Ctx>, x: Ctx, c: nat)
    requires CoordsOk(coords, waits, live) && NoticesOk(coords, waits, notices)
    requires x in waits && c in waits[x].sat
    ensures var w := waits[x].(on := waits[x].on - {c}, sat := waits[x].sat - {c});
            CoordsOk(coords, waits[x := w], live) && NoticesOk(coords, waits[x := w], notices)
  {
    var w := waits[x].(on := waits[x].on - {c}, sat := waits[x].sat - {c});
    forall d | 0 <= d < |coords|
      ensures Waiting(coords[d].waiters, d, waits[x := w]) && ByArrival(coords[d].waiters, waits[x := w])
    {
      assert Waiting(coords[d].waiters, d, waits) && ByArrival(coords[d].waiters, waits);
    }
    forall y | y in notices ensures Waiting(notices[y].rest, notices[y].sig, waits[x := w]) {
      assert Waiting(notices[y].rest, notices[y].sig, waits);
    }
  }

  lemma ForgoKeepsWaits(coords: seq<Co>, waits: map<Ctx, Wait>, notices: map<Ctx, Notice>, clock: nat, x: Ctx, c: nat)
    requires WaitsOk(waits, coords, notices, Popped(0, []), clock) && x in waits && c in waits[x].sat
    ensures var w := waits[x].(on := waits[x].on - {c}, sat := waits[x].sat - {c});
            && WaitsOk(waits[x := w], coords, notices, Popped(0, []), clock)
            && c < |coords|
            && if coords[c].signal then coords[c].signaled else Unclaimed(waits[x := w], c)
  {
    hide LinkedAt;
    var waits' := waits[x := waits[x].(on := waits[x].on - {c}, sat := waits[x].sat - {c})];
    assert WaitOk(waits[x], x, coords, notices, Popped(0, []));
    forall z | z in waits'
      ensures WaitOk(waits'[z], z, coords, notices, Popped(0, []))
      ensures !coords[c].signal ==> c !in waits'[z].sat
    {
      assert WaitOk(waits[z], z, coords, notices, Popped(0, []));
    }
  }

  lemma GivenIsUnlinked(k: Kernel, x: Ctx, c: nat)
    requires Inv(k) && x in k.waits && c in k.waits[x].sat && c < |k.coords|
    ensures x !in k.coords[c].waiters
    ensures k.coords[c].signaled ==> !k.coords[c].held
  {
    hide S.Partition; hide LinkedAt; hide NoticesOk; hide WaitsOk; hide StatusOk;
    assert Waiting(k.coords[c].waiters, c, k.waits);
  }

  lemma ForgoKeeps(k: Kernel, x: Ctx, c: nat)
    requires Inv(k) && x in k.waits && c in k.waits[x].sat && k.waits[x].sat != {c}
    ensures Inv(Forgo(k, x, c)) && c < |k.coords| && x !in k.coords[c].waiters
    ensures if k.coords[c].signal then !k.coords[c].held else Unclaimed(Forgo(k, x, c).waits, c)
  {
    hide S.Partition; hide LinkedAt; hide NoticesOk; hide CoordsOk; hide WaitsOk; hide Unclaimed;
    assert Forgo(k, x, c).waits[x].sat != {};
    ForgoKeepsWaits(k.coords, k.waits, k.notices, k.clock, x, c);
    ForgoKeepsLists(k.coords, k.waits, k.notices, k.sched.state.Keys, x, c);
    GivenIsUnlinked(k, x, c);
  }

  /** What the clean-up leaves of a coordinator that did not win. */
  ghost function Left(co: Co, satisfied: bool, x: Ctx): Co {
    if satisfied then Passed(co) else co.(waiters := S.Without(co.waiters, x))
  }

  lemma PassOnContract(k: Kernel, x: Ctx, c: nat)
    requires Inv(k) && x in k.waits && c in k.waits[x].sat && k.waits[x].sat != {c}
    ensures c < |k.coords|
    ensures var l := PassOn(k, x, c);
            && Inv(l) && Grows(k, l, x) && x in l.waits
            && l.waits[x] == k.waits[x].(on := k.waits[x].on - {c}, sat := k.waits[x].sat - {c})
            && l.coords == k.coords[c := Passed(k.coords[c])]
            && (!k.coords[c].signal ==> HandedOver(k, l, c))
  {
    hide InvBut; hide Release; hide Unclaimed;
    ForgoKeeps(k, x, c);
    var k1 := Forgo(k, x, c);
    if k.coords[c].signal {
      ReleaseOpenSignal(k1, c);
      assert k.coords == k.coords[c := Passed(k.coords[c])];
    } else {
      ReleaseKeeps(k1, c, false);
      ReleaseEffect(k1, x, c);
    }
  }

  lemma ReleaseOpenSignal(k: Kernel, c: nat)
    requires c < |k.coords| && !k.coords[c].held
    ensures Release(k, c, false) == k
  {
  }

  lemma UnlinkContract(k: Kernel, x: Ctx, c: nat)
    requires Inv(k) && x in k.waits && c < |k.coords| && c !in k.waits[x].sat
    ensures var l := Unlink(k, x, c);
            && Inv(l) && Grows(k, l, x) && l.sched == k.sched
            && l.waits == k.waits[x := k.waits[x].(on := k.waits[x].on - {c})]
            && l.coords == k.coords[c := Left(k.coords[c], false, x)]
  {
    hide InvBut;
    UnlinkKeeps(k, x, c);
  }

  /** The coordinators of cs[i..] other than the winner have each been unlinked or passed on. */
  ghost predicate Cleaned(k: Kernel, r: Kernel, x: Ctx, cs: seq<nat>, i: nat, win: nat)
    requires i <= |cs| && x in k.waits
  {
    && |r.coords| == |k.coords|
    && (forall c :: 0 <= c < |k.coords| ==>
          r.coords[c] == if c in cs[i..] && c != win then Left(k.coords[c], c in k.waits[x].sat, x) else k.coords[c])
    && (forall c :: 0 <= c < |k.coords| && c in cs[i..] && c != win && c in k.waits[x].sat && !k.coords[c].signal ==>
          HandedOver(k, r, c))
    && Grows(k, r, x)
  }

  lemma CleanedStep(k: Kernel, l: Kernel, r: Kernel, x: Ctx, cs: seq<nat>, i: nat, win: nat)
    requires i < |cs| && Once(cs) && cs[i] < |k.coords| && cs[i] != win && x in k.waits && x in l.waits
    requires l.coords == k.coords[cs[i] := Left(k.coords[cs[i]], cs[i] in k.waits[x].sat, x)]
    requires Grows(k, l, x) && l.waits[x].sat == k.waits[x].sat - {cs[i]}
    requires cs[i] in k.waits[x].sat && !k.coords[cs[i]].signal ==> HandedOver(k, l, cs[i])
    requires cs[i] in k.waits[x].sat ==> x !in k.coords[cs[i]].waiters
    requires Cleaned(l, r, x, cs, i + 1, win)
    ensures Cleaned(k, r, x, cs, i, win)
  {
    assert cs[i..] == [cs[i]] + cs[i + 1..];
    assert cs[i] !in cs[i + 1..];
    forall c | 0 <= c < |k.coords| && c in cs[i..] && c != win && c in k.waits[x].sat && !k.coords[c].signal
      ensures HandedOver(k, r, c)
    {
      if c != cs[i] { assert HandedOver(l, r, c); }
    }
  }

  /** Nothing is left to clean after position i, at most the winner stands there. */
  lemma CleanedFrom(k: Kernel, r: Kernel, x: Ctx, cs: seq<nat>, i: nat, win: nat)
    requires x in k.waits && i <= |cs|
    requires (i == |cs| && r == k) || (i < |cs| && cs[i] == win && Cleaned(k, r, x, cs, i + 1, win))
    ensures Cleaned(k, r, x, cs, i, win)
  {
    if i < |cs| { assert cs[i..] == [cs[i]] + cs[i + 1..]; }
  }

  lemma {:induction false} CleanRestContract(k: Kernel, x: Ctx, cs: seq<nat>, i: nat, win: nat)
    requires Inv(k) && x in k.waits && i <= |cs| && Once(cs)
    requires forall j :: 0 <= j < |cs| ==> cs[j] < |k.coords|
    requires win in k.waits[x].sat && win !in cs[i..] && k.waits[x].on == {win} + S.Members(cs[i..])
    ensures var r := CleanRest(k, x, cs, i);
            Inv(r) && Cleaned(k, r, x, cs, i, win) && r.waits[x].on == {win} && r.waits[x].sat == {win}
    decreases |cs| - i
  {
    hide InvBut; hide Cleaned;
    OnSat(k, x);
    if i == |cs| {
      CleanedFrom(k, k, x, cs, i, win);
    } else {
      var c := cs[i];
      assert cs[i..] == [c] + cs[i + 1..] && c !in cs[i + 1..];
      var l := if c in k.waits[x].sat then PassOn(k, x, c) else Unlink(k, x, c);
      if c in k.waits[x].sat {
        PassOnContract(k, x, c);
        ForgoKeeps(k, x, c);
      } else {
        UnlinkContract(k, x, c);
      }
      CleanRestContract(l, x, cs, i + 1, win);
      CleanedStep(k, l, CleanRest(l, x, cs, i + 1), x, cs, i, win);
    }
  }

  /** The clean-up from position i ends with the first satisfied coordinator as x's only one. */
  ghost predicate CleanedUp(k: Kernel, x: Ctx, i: nat)
    requires x in k.waits && i <= |k.waits[x].order|
    requires forall j :: 0 <= j < |k.waits[x].order| ==> k.waits[x].order[j] < |k.coords|
  {
    var w := k.waits[x];
    var f := FirstSatisfied(w, i);
    f < |w.order| &&
    var r := Clean(k, x, w.order, i);
    && Inv(r) && Cleaned(k, r, x, w.order, i, w.order[f])
    && r.waits[x].on == {w.order[f]} && r.waits[x].sat == {w.order[f]}
  }

  lemma SkipContract(k: Kernel, x: Ctx, i: nat)
    requires Inv(k) && x in k.waits && i < |k.waits[x].order| && Once(k.waits[x].order)
    requires forall j :: 0 <= j < |k.waits[x].order| ==> k.waits[x].order[j] < |k.coords|
    requires k.waits[x].order[i] !in k.waits[x].sat
    requires var l := Unlink(k, x, k.waits[x].order[i]);
             && x in l.waits && l.waits[x].order == k.waits[x].order && |l.coords| == |k.coords|
             && CleanedUp(l, x, i + 1)
    ensures CleanedUp(k, x, i)
  {
    hide InvBut; hide Cleaned; hide Unlink; hide CleanRest; hide Grows;
    var cs := k.waits[x].order;
    var l := Unlink(k, x, cs[i]);
    UnlinkContract(k, x, cs[i]);
    SameFirst(k.waits[x], l.waits[x], i + 1);
    CleanedStep(k, l, Clean(l, x, cs, i + 1), x, cs, i, cs[FirstSatisfied(k.waits[x], i)]);
  }

  lemma {:induction false} CleanContract(k: Kernel, x: Ctx, i: nat)
    requires Inv(k) && x in k.waits && i <= |k.waits[x].order| && Once(k.waits[x].order)
    requires forall j :: 0 <= j < |k.waits[x].order| ==> k.waits[x].order[j] < |k.coords|
    requires k.waits[x].on == S.Members(k.waits[x].order[i..]) && k.waits[x].sat != {}
    ensures CleanedUp(k, x, i)
    decreases |k.waits[x].order| - i
  {
    hide InvBut; hide Cleaned; hide CleanRest; hide Grows; hide Unlink;
    OnSat(k, x);
    var cs := k.waits[x].order;
    if i < |cs| {
      var c := cs[i];
      assert cs[i..] == [c] + cs[i + 1..] && c !in cs[i + 1..];
      if c in k.waits[x].sat {
        assert k.waits[x].on == {c} + S.Members(cs[i + 1..]);
        CleanRestContract(k, x, cs, i + 1, c);
        CleanedFrom(k, Clean(k, x, cs, i), x, cs, i, c);
      } else {
        hide CleanedUp;
        var l := Unlink(k, x, c);
        UnlinkContract(k, x, c);
        assert l.waits[x].on == S.Members(cs[i + 1..]);
        CleanContract(l, x, i + 1);
        SkipContract(k, x, i);
      }
    }
  }

  lemma {:induction false} SameFirst(w: Wait, v: Wait, i: nat)
    requires i <= |w.order| && v.order == w.order && v.sat == w.sat
    ensures FirstSatisfied(v, i) == FirstSatisfied(w, i)
    decreases |w.order| - i
  {
    if i < |w.order| && w.order[i] !in w.sat { SameFirst(w, v, i + 1); }
  }

  lemma OnSat(k: Kernel, x: Ctx)
    requires Inv(k) && x in k.waits
    ensures k.waits[x].sat <= k.waits[x].on
  {
    hide S.Partition; hide LinkedAt; hide NoticesOk; hide CoordsOk; hide StatusOk;
    assert WaitOk(k.waits[x], x, k.coords, k.notices, Popped(0, []));
  }

  /** x's wait record is dropped once only its own coordinator is left on it. */
  lemma DropWaitLists(coords: seq<Co>, waits: map<Ctx, Wait>, notices: map<Ctx, Notice>, live: set<Ctx>, x: Ctx)
    requires CoordsOk(coords, waits, live) && NoticesOk(coords, waits, notices)
    requires x in waits && waits[x].on <= waits[x].sat
    ensures CoordsOk(coords, waits - {x}, live) && NoticesOk(coords, waits - {x}, notices)
    ensures forall c :: 0 <= c < |coords| ==> x !in coords[c].waiters
    ensures forall y :: y in notices ==> x !in notices[y].rest
  {
    forall c | 0 <= c < |coords|
      ensures x !in coords[c].waiters
      ensures Waiting(coords[c].waiters, c, waits - {x}) && ByArrival(coords[c].waiters, waits - {x})
    {
      assert Waiting(coords[c].waiters, c, waits) && ByArrival(coords[c].waiters, waits);
    }
    forall y | y in notices
      ensures x !in notices[y].rest && Waiting(notices[y].rest, notices[y].sig, waits - {x})
    {
      assert Waiting(notices[y].rest, notices[y].sig, waits);
    }
  }

  lemma DropWaitWaits(coords: seq<Co>, waits: map<Ctx, Wait>, notices: map<Ctx, Notice>, clock: nat, x: Ctx)
    requires WaitsOk(waits, coords, notices, Popped(0, []), clock)
    ensures WaitsOk(waits - {x}, coords, notices, Popped(0, []), clock)
  {
    hide WaitOk;
  }

  lemma DropWaitKeeps(k: Kernel, x: Ctx)
    requires Inv(k) && x in k.waits && k.waits[x].on <= k.waits[x].sat && k.waits[x].sat != {}
    ensures var l := k.(waits := k.waits - {x});
            && Inv(l)
            && (forall c :: 0 <= c < |l.coords| ==> x !in l.coords[c].waiters)
            && (forall y :: y in l.notices ==> x !in l.notices[y].rest)
  {
    hide S.Partition; hide CoordsOk; hide NoticesOk; hide WaitsOk; hide PoppedOk;
    DropWaitLists(k.coords, k.waits, k.notices, k.sched.state.Keys, x);
    DropWaitWaits(k.coords, k.waits, k.notices, k.clock, x);
    NothingPopped(k.coords, k.waits - {x}, k.notices);
  }

  /** Every wait still has all its nodes: clean-up happens in one go. */
  ghost predicate Whole(waits: map<Ctx, Wait>) {
    forall x :: x in waits ==> waits[x].order != [] && waits[x].on == S.Members(waits[x].order)
  }

  /** x is back with the coordinator `order[i]` and with no other. */
  ghost predicate OwnsExactly(l: Kernel, x: Ctx, order: seq<nat>, i: nat) {
    && i < |order| && (forall j :: 0 <= j < |order| ==> order[j] < |l.coords|)
    && (if l.coords[order[i]].signal then l.coords[order[i]].signaled && !l.coords[order[i]].held
        else l.coords[order[i]].held && l.coords[order[i]].owner == Some(x))
    && (forall j :: 0 <= j < |order| && j != i ==> l.coords[order[j]].owner != Some(x))
  }

  /** x has no node left on any wait list or in any notifier's hands. */
  ghost predicate OffEveryList(l: Kernel, x: Ctx) {
    && x !in l.waits
    && (forall c :: 0 <= c < |l.coords| ==> x !in l.coords[c].waiters)
    && (forall y :: y in l.notices ==> x !in l.notices[y].rest)
  }

  lemma WinnerFacts(k: Kernel, x: Ctx)
    requires Inv(k) && x in k.waits
    ensures Once(k.waits[x].order)
    ensures forall j :: 0 <= j < |k.waits[x].order| ==> k.waits[x].order[j] < |k.coords|
    ensures forall c :: c in k.waits[x].on ==> c < |k.coords| && Stake(k.coords[c], c in k.waits[x].sat, x)
  {
    hide S.Partition; hide LinkedAt; hide NoticesOk; hide StatusOk;
    assert WaitOk(k.waits[x], x, k.coords, k.notices, Popped(0, []));
    forall j | 0 <= j < |k.waits[x].order| ensures k.waits[x].order[j] < |k.coords| {
      assert k.waits[x].order[j] in k.waits[x].order;
    }
    forall c | c in k.waits[x].sat ensures x !in k.coords[c].waiters { assert Waiting(k.coords[c].waiters, c, k.waits); }
  }

  /** What a waiter has in a coordinator it waits for: it was given it, or it does not own it. */
  ghost predicate Stake(co: Co, satisfied: bool, x: Ctx) {
    if !satisfied then co.owner != Some(x)
    else if co.signal then co.signaled && !co.held && co.owner == None
    else co.held && co.owner == Some(x) && x !in co.waiters
  }

  lemma LeftIsForeign(co: Co, satisfied: bool, x: Ctx)
    requires Stake(co, satisfied, x)
    ensures Left(co, satisfied, x).owner != Some(x)
  {
  }

  lemma FinishIsClean(k: Kernel, x: Ctx)
    requires Inv(k) && x in k.waits && Whole(k.waits) && k.sched.scheduled == Some(x)
    ensures forall j :: 0 <= j < |k.waits[x].order| ==> k.waits[x].order[j] < |k.coords|
    ensures CleanedUp(k, x, 0) && FinishWait(k, x) == (var k1 := Clean(k, x, k.waits[x].order, 0); k1.(waits := k1.waits - {x}))
  {
    hide InvBut; hide Cleaned; hide Clean;
    WinnerFacts(k, x);
    RunningIsLive(k, x);
    RunningIsSatisfied(k, x);
    var w := k.waits[x];
    assert w.order[0..] == w.order;
    CleanContract(k, x, 0);
    var i := FirstSatisfied(w, 0);
    var k1 := Clean(k, x, w.order, 0);
    CleanedWinner(k, k1, x, w.order, w.order[i]);
    if k1.coords[w.order[i]].signal {
      assert k1.coords[w.order[i]] == k1.coords[w.order[i]].(held := false);
      assert k1.coords == k1.coords[w.order[i] := k1.coords[w.order[i]].(held := false)];
    }
  }

  lemma CleanedWinner(k: Kernel, r: Kernel, x: Ctx, cs: seq<nat>, win: nat)
    requires x in k.waits && Cleaned(k, r, x, cs, 0, win) && win < |k.coords|
    ensures |r.coords| == |k.coords| && r.coords[win] == k.coords[win]
  {
  }

  lemma RunningIsSatisfied(k: Kernel, x: Ctx)
    requires Inv(k) && x in k.waits && x in k.sched.state && k.sched.state[x] == S.Running
    ensures k.waits[x].sat != {}
  {
    hide S.Partition; hide CoordsOk; hide NoticesOk; hide WaitsOk; hide PoppedOk;
  }

  /**
   Waiting for any of several coordinators: the context returns owning exactly the leftmost one that
   was satisfied, it is on no list, every other one that was satisfied went to its next waiter (or is
   free), those not satisfied are as if it had never waited, and all others are untouched.
   */
  lemma WaitForAny(k: Kernel, x: Ctx)
    requires Inv(k) && Whole(k.waits) && k.sched.scheduled == Some(x) && x in k.waits
    ensures forall j :: 0 <= j < |k.waits[x].order| ==> k.waits[x].order[j] < |k.coords|
    ensures var w := k.waits[x];
            var i := FirstSatisfied(w, 0);
            var l := FinishWait(k, x);
            && Inv(l) && OwnsExactly(l, x, w.order, i) && OffEveryList(l, x)
            && Cleaned(k, l.(waits := l.waits[x := w]), x, w.order, 0, w.order[i])
  {
    hide InvBut; hide Left; hide Stake; hide Grows; hide HandedOver; hide FinishWait; hide Clean;
    FinishIsClean(k, x);
    WinnerFacts(k, x);
    OnSat(k, x);
    var w := k.waits[x];
    var k1 := Clean(k, x, w.order, 0);
    DropWaitKeeps(k1, x);
    var i := FirstSatisfied(w, 0);
    var l := FinishWait(k, x);
    CleanedOwner(k, l, x, w.order, i);
    StakeIsUnlinked(k, x);
    DropKeepsCleaned(k, k1, x, w.order, w.order[i]);
  }

  lemma StakeIsUnlinked(k: Kernel, x: Ctx)
    requires x in k.waits
    requires forall c :: c in k.waits[x].on ==> c < |k.coords| && Stake(k.coords[c], c in k.waits[x].sat, x)
    ensures forall c :: c in k.waits[x].on && c in k.waits[x].sat ==> k.coords[c].signal || x !in k.coords[c].waiters
  {
  }

  lemma CleanedOwner(k: Kernel, l: Kernel, x: Ctx, cs: seq<nat>, i: nat)
    requires x in k.waits && i < |cs| && Once(cs) && cs[i] in k.waits[x].sat
    requires forall j :: 0 <= j < |cs| ==> cs[j] < |k.coords| && Stake(k.coords[cs[j]], cs[j] in k.waits[x].sat, x)
    requires |l.coords| == |k.coords|
    requires forall c :: 0 <= c < |k.coords| ==>
               l.coords[c] == if c in cs[0..] && c != cs[i] then Left(k.coords[c], c in k.waits[x].sat, x) else k.coords[c]
    ensures OwnsExactly(l, x, cs, i)
  {
    hide Left;
    assert cs[0..] == cs;
    forall j | 0 <= j < |cs| && j != i ensures l.coords[cs[j]].owner != Some(x) {
      LeftIsForeign(k.coords[cs[j]], cs[j] in k.waits[x].sat, x);
    }
  }

  /** The drop of x's own record does not show in what the clean-up did to everyone else. */
  lemma DropKeepsCleaned(k: Kernel, k1: Kernel, x: Ctx, cs: seq<nat>, win: nat)
    requires x in k.waits && x in k1.waits && Cleaned(k, k1, x, cs, 0, win)
    requires forall c :: c in cs && c in k.waits[x].sat ==> c < |k.coords| && (k.coords[c].signal || x !in k.coords[c].waiters)
    ensures Cleaned(k, k1.(waits := (k1.waits - {x})[x := k.waits[x]]), x, cs, 0, win)
  {
    hide Left;
    assert cs[0..] == cs;
  }

  // ---------------------------------------------------------------------------------------
  // Notify
  // ---------------------------------------------------------------------------------------

  lemma OpenKeeps(k: Kernel, c: nat)
    requires Inv(k) && c < |k.coords| && k.coords[c].signal
    ensures InvBut(OpenSignal(k, c), Popped(c, k.coords[c].waiters))
  {
    hide S.Partition; hide StatusOk; hide WaitsOk;
    var co := k.coords[c];
    var co' := co.(signaled := true, held := false, waiters := []);
    assert CoOk(co) && Waiting(co.waiters, c, k.waits);
    SetKeepsLists(k.coords, k.waits, k.notices, k.sched.state.Keys, c, co');
    SetKeepsWaits(k.coords, k.waits, k.notices, k.clock, c, co', Popped(c, co.waiters));
  }

  /** Waking the popped waiters one by one satisfies each of them and touches nothing else. */
  lemma {:induction false} WakeAllContract(k: Kernel, p: Popped)
    requires InvBut(k, p)
    ensures var l := WakeAll(k, p.xs, p.c);
            && Inv(l) && l == k.(waits := l.waits, sched := l.sched) && SameNodes(k.waits, l.waits)
            && (forall x :: x in p.xs ==> Woken(l, x, p.c))
    decreases |p.xs|
  {
    hide InvBut; hide WakeWaiter;
    if p.xs == [] {
      ForgetPopped(k, p.c);
    } else {
      var x := p.xs[0];
      var k1 := WakeWaiter(k, x, p.c, false);
      var p' := Popped(p.c, p.xs[1..]);
      WakeKeeps(k, p, false);
      WakeAllContract(k1, p');
      var l := WakeAll(k1, p'.xs, p.c);
      assert l == WakeAll(k, p.xs, p.c);
      WakeAllMonotone(k1, p'.xs, p.c, x);
      forall y | y in p.xs ensures Woken(l, y, p.c) {
        assert p.xs == [x] + p'.xs;
      }
    }
  }

  /** The waits are the same but for what has been satisfied. */
  ghost predicate SameNodes(waits: map<Ctx, Wait>, waits': map<Ctx, Wait>) {
    && waits'.Keys == waits.Keys
    && forall x :: x in waits ==> waits[x].sat <= waits'[x].sat && waits'[x] == waits[x].(sat := waits'[x].sat)
  }

  ghost predicate Woken(k: Kernel, x: Ctx, c: nat) {
    x in k.waits && c in k.waits[x].sat && x in k.sched.state && k.sched.state[x] != S.Blocked
  }

  lemma {:induction false} WakeAllMonotone(k: Kernel, xs: seq<Ctx>, c: nat, x: Ctx)
    requires Woken(k, x, c)
    ensures Woken(WakeAll(k, xs, c), x, c)
    decreases |xs|
  {
    if xs != [] {
      WakeAllMonotone(WakeWaiter(k, xs[0], c, false), xs[1..], c, x);
    }
  }

  /**
   Notify opens the signal for good and makes every context that waited on it runnable, satisfied by
   it; no other coordinator changes.
   */
  lemma NotifyContract(k: Kernel, c: nat)
    requires Inv(k) && c < |k.coords| && k.coords[c].signal
    ensures var l := Notify(k, c);
            && Inv(l) && SameNodes(k.waits, l.waits)
            && l.coords == k.coords[c := k.coords[c].(signaled := true, held := false, waiters := [])]
            && (forall x :: x in k.coords[c].waiters ==> Woken(l, x, c))
  {
    hide InvBut; hide Woken;
    OpenKeeps(k, c);
    WakeAllContract(OpenSignal(k, c), Popped(c, k.coords[c].waiters));
  }

  lemma StartKeepsWaits(coords: seq<Co>, waits: map<Ctx, Wait>, notices: map<Ctx, Notice>, clock: nat, p: Popped, y: Ctx)
    requires WaitsOk(waits, coords, notices, p, clock) && PoppedOk(p, coords, waits, notices) && y !in notices
    requires p.c < |coords| && coords[p.c].signal && coords[p.c].owner == None
    ensures WaitsOk(waits, coords, notices[y := Notice(p.c, p.xs)], Popped(0, []), clock)
  {
    var notices' := notices[y := Notice(p.c, p.xs)];
    forall x | x in waits ensures WaitOk(waits[x], x, coords, notices', Popped(0, [])) {
      assert WaitOk(waits[x], x, coords, notices, p);
      forall c | c in waits[x].on && c !in waits[x].sat
        ensures LinkedAt(coords, notices', x, c) && coords[c].owner != Some(x)
      {
        if c == p.c && x in p.xs {
          assert y in notices' && notices'[y].sig == c && x in notices'[y].rest;
        } else if x !in coords[c].waiters {
          var z :| z in notices && notices[z].sig == c && x in notices[z].rest;
          assert z in notices' && notices'[z] == notices[z];
        }
      }
    }
  }

  lemma StartKeepsNotices(coords: seq<Co>, waits: map<Ctx, Wait>, notices: map<Ctx, Notice>, p: Popped, y: Ctx)
    requires NoticesOk(coords, waits, notices) && PoppedOk(p, coords, waits, notices) && y !in notices
    requires p.c < |coords| && coords[p.c].signal && coords[p.c].signaled
    ensures NoticesOk(coords, waits, notices[y := Notice(p.c, p.xs)])
  {
    hide Waiting;
    forall z, x | z in notices && notices[z].sig == p.c && x in notices[z].rest ensures x !in p.xs {
      assert LinkedAt(coords, notices, x, p.c);
    }
  }

  lemma NotifyStartKeeps(k: Kernel, y: Ctx, c: nat)
    requires Inv(k) && c < |k.coords| && k.coords[c].signal && Free(k, y)
    ensures Inv(NotifyStart(k, y, c))
  {
    hide S.Partition; hide WaitsOk; hide NoticesOk; hide PoppedOk; hide Waiting; hide ByArrival;
    RunningIsLive(k, y);
    OpenKeeps(k, c);
    var k1, p := OpenSignal(k, c), Popped(c, k.coords[c].waiters);
    StartKeepsWaits(k1.coords, k.waits, k.notices, k.clock, p, y);
    StartKeepsNotices(k1.coords, k.waits, k.notices, p, y);
    NothingPopped(k1.coords, k.waits, k.notices[y := Notice(c, p.xs)]);
  }

  /** Taking the next waiter out of a notifier's hands, or dropping an empty record. */
  lemma NextKeepsWaits(coords: seq<Co>, waits: map<Ctx, Wait>, notices: map<Ctx, Notice>, clock: nat, y: Ctx)
    requires WaitsOk(waits, coords, notices, Popped(0, []), clock) && y in notices && notices[y].rest != []
    ensures var n := notices[y];
            WaitsOk(waits, coords, notices[y := n.(rest := n.rest[1..])], Popped(n.sig, [n.rest[0]]), clock)
  {
    var n := notices[y];
    var notices' := notices[y := n.(rest := n.rest[1..])];
    var p := Popped(n.sig, [n.rest[0]]);
    assert n.rest == [n.rest[0]] + n.rest[1..];
    forall x | x in waits ensures WaitOk(waits[x], x, coords, notices', p) {
      assert WaitOk(waits[x], x, coords, notices, Popped(0, []));
      forall c | c in waits[x].on && c !in waits[x].sat && !(c == p.c && x in p.xs) ensures LinkedAt(coords, notices', x, c) {
        if x !in coords[c].waiters {
          var z :| z in notices && notices[z].sig == c && x in notices[z].rest;
          assert z in notices' && notices'[z].sig == c && x in notices'[z].rest;
        }
      }
    }
  }

  lemma NextKeepsNotices(coords: seq<Co>, waits: map<Ctx, Wait>, notices: map<Ctx, Notice>, live: set<Ctx>, y: Ctx)
    requires CoordsOk(coords, waits, live) && NoticesOk(coords, waits, notices) && y in notices && notices[y].rest != []
    ensures var n := notices[y];
            var notices' := notices[y := n.(rest := n.rest[1..])];
            NoticesOk(coords, waits, notices') && PoppedOk(Popped(n.sig, [n.rest[0]]), coords, waits, notices')
  {
    var n := notices[y];
    var notices' := notices[y := n.(rest := n.rest[1..])];
    assert n.rest == [n.rest[0]] + n.rest[1..];
    assert Waiting(n.rest, n.sig, waits) && n.rest[0] in n.rest;
    assert CoOk(coords[n.sig]);
    assert Waiting(n.rest[1..], n.sig, waits);
  }

  lemma NotifyNextKeeps(k: Kernel, y: Ctx)
    requires Inv(k) && k.sched.scheduled == Some(y) && y in k.notices
    ensures var l := NotifyNext(k, y); Inv(l) && l.coords == k.coords && SameNodes(k.waits, l.waits)
    ensures k.notices[y].rest != [] ==> Woken(NotifyNext(k, y), k.notices[y].rest[0], k.notices[y].sig)
  {
    hide S.Partition; hide CoordsOk; hide WaitsOk; hide NoticesOk; hide PoppedOk; hide WakeWaiter;
    var n := k.notices[y];
    if n.rest == [] {
      DropNoticeKeeps(k, y);
    } else {
      var k1 := k.(notices := k.notices[y := n.(rest := n.rest[1..])]);
      var p := Popped(n.sig, [n.rest[0]]);
      NextKeepsWaits(k.coords, k.waits, k.notices, k.clock, y);
      NextKeepsNotices(k.coords, k.waits, k.notices, k.sched.state.Keys, y);
      assert InvBut(k1, p);
      WakeKeeps(k1, p, true);
      assert p.xs[1..] == [];
      ForgetPopped(WakeWaiter(k1, n.rest[0], n.sig, true), n.sig);
    }
  }

  lemma DropNoticeKeeps(k: Kernel, y: Ctx)
    requires Inv(k) && y in k.notices && k.notices[y].rest == []
    ensures Inv(k.(notices := k.notices - {y}))
  {
    hide S.Partition; hide CoordsOk; hide Waiting;
    var notices' := k.notices - {y};
    forall x | x in k.waits ensures WaitOk(k.waits[x], x, k.coords, notices', Popped(0, [])) {
      assert WaitOk(k.waits[x], x, k.coords, k.notices, Popped(0, []));
      forall c | c in k.waits[x].on && c !in k.waits[x].sat ensures LinkedAt(k.coords, notices', x, c) {
        if x !in k.coords[c].waiters {
          var z :| z in k.notices && k.notices[z].sig == c && x in k.notices[z].rest;
          assert z in notices' && notices'[z] == k.notices[z];
        }
      }
    }
    NothingPopped(k.coords, k.waits, notices');
  }

  // ---------------------------------------------------------------------------------------
  // Every step keeps the invariant
  // ---------------------------------------------------------------------------------------

  lemma DisownKeeps(k: Kernel, x: Ctx, c: nat)
    requires Inv(k) && Free(k, x) && c < |k.coords| && k.coords[c].owner == Some(x)
    ensures Inv(SetCo(k, c, k.coords[c].(owner := None)))
  {
    hide S.Partition; hide StatusOk; hide WaitsOk; hide NoticesOk;
    var co := k.coords[c];
    assert CoOk(co) && Waiting(co.waiters, c, k.waits) && ByArrival(co.waiters, k.waits);
    UnheldUnclaimed(k, c);
    SetKeepsLists(k.coords, k.waits, k.notices, k.sched.state.Keys, c, co.(owner := None));
    SetKeepsWaits(k.coords, k.waits, k.notices, k.clock, c, co.(owner := None), Popped(0, []));
    NothingPopped(k.coords[c := co.(owner := None)], k.waits, k.notices);
  }

  /** The set of live contexts may grow, or lose one that owns and awaits nothing; nobody's blockedness changes. */
  lemma RescheduleKeeps(k: Kernel, t: S.Sched, gone: set<Ctx>)
    requires Inv(k) && S.Partition(t)
    requires forall z :: z in k.sched.state ==> z in gone || z in t.state
    requires forall z :: z in gone ==> z !in k.waits && z !in k.notices && OwnsNothing(k.coords, z)
    requires forall z :: z in t.state ==>
               (t.state[z] == S.Blocked <==> z in k.sched.state && k.sched.state[z] == S.Blocked)
    ensures Inv(k.(sched := t))
  {
    hide S.Partition; hide WaitsOk; hide NoticesOk; hide PoppedOk; hide Waiting; hide ByArrival; hide CoOk;
  }

  lemma YieldBlocks(s: S.Sched, a: bool, b: bool)
    requires S.Partition(s) && s.scheduled.Some?
    ensures var t := S.Yield(s, a, b, []);
            && S.Partition(t) && t.state.Keys == s.state.Keys
            && forall z :: z in s.state ==> (t.state[z] == S.Blocked <==> s.state[z] == S.Blocked)
  {
    S.YieldKeeps(s, a, b, []);
    assert S.UnblockAll(s, []) == s;
    assert s.yielded != [] ==> s.yielded[0] in s.yielded;
    assert s.state[s.scheduled.value] == S.Running;
  }

  lemma EnterBlocks(s: S.Sched, c: Ctx)
    requires S.Partition(s) && c !in s.state
    ensures var t := S.Enter(s, c);
            && S.Partition(t) && t.state.Keys == s.state.Keys + {c}
            && forall z :: z in t.state ==> (t.state[z] == S.Blocked <==> z in s.state && s.state[z] == S.Blocked)
  {
    S.EnterKeeps(s, c);
    assert s.scheduled.Some? ==> s.state[s.scheduled.value] == S.Running;
  }

  lemma ScheduleKeeps(k: Kernel, l: Kernel)
    requires Inv(k) && ScheduleStep(k, l)
    ensures Inv(l)
  {
    hide CoordsOk; hide WaitsOk; hide NoticesOk; hide PoppedOk; hide StatusOk; hide OwnsNothing; hide S.Enter; hide S.Yield; hide S.Lists;
    if c :| c !in k.sched.state && l.sched == S.Enter(k.sched, c) {
      EnterBlocks(k.sched, c);
      RescheduleKeeps(k, l.sched, {});
    } else if k.sched.scheduled.None? && k.sched.yielded != [] && l.sched == S.Resume(k.sched) {
      ResumeBlocks(k.sched);
      RescheduleKeeps(k, l.sched, {});
    } else if x, a, b :| Free(k, x) && l.sched == S.Yield(k.sched, a, b, []) {
      YieldBlocks(k.sched, a, b);
      RescheduleKeeps(k, l.sched, {});
    } else {
      var x :| Free(k, x) && OwnsNothing(k.coords, x) && l.sched == S.Exit(k.sched);
      S.ExitKeeps(k.sched);
      RescheduleKeeps(k, l.sched, {x});
    }
  }

  lemma ResumeBlocks(s: S.Sched)
    requires S.Partition(s) && s.scheduled.None? && s.yielded != []
    ensures var t := S.Resume(s);
            && S.Partition(t) && t.state.Keys == s.state.Keys
            && forall z :: z in s.state ==> (t.state[z] == S.Blocked <==> s.state[z] == S.Blocked)
  {
    S.ResumeKeeps(s);
    assert s.yielded[0] in s.yielded;
  }

  ghost predicate Good(k: Kernel) {
    Inv(k) && Whole(k.waits)
  }

  lemma ReleaseStepKeeps(k: Kernel, c: nat, schedule: bool)
    requires Good(k) && c < |k.coords| && !k.coords[c].signal && (schedule ==> k.sched.scheduled.Some?)
    requires k.coords[c].owner.None? || k.coords[c].owner.value !in k.waits
    ensures Good(Release(k, c, schedule))
  {
    hide InvBut;
    UnheldUnclaimed(k, c);
    ReleaseKeeps(k, c, schedule);
    hide S.Unblock;
  }

  lemma FinishStepKeeps(k: Kernel, x: Ctx)
    requires Good(k) && k.sched.scheduled == Some(x) && x in k.waits
    ensures forall j :: 0 <= j < |k.waits[x].order| ==> k.waits[x].order[j] < |k.coords|
    ensures Good(FinishWait(k, x))
  {
    hide InvBut; hide FinishWait; hide OwnsExactly; hide Left; hide HandedOver;
    WaitForAny(k, x);
    var l := FinishWait(k, x);
    assert Grows(k, l.(waits := l.waits[x := k.waits[x]]), x);
    assert forall y :: y in l.waits ==> y in l.waits[x := k.waits[x]];
  }

  lemma AcquireStepKeeps(k: Kernel, x: Ctx, cs: seq<nat>)
    requires Good(k) && Free(k, x) && cs != [] && Once(cs)
    requires forall j :: 0 <= j < |cs| ==> cs[j] < |k.coords| && k.coords[cs[j]].owner != Some(x)
    ensures Good(AcquireAny(k, x, cs))
  {
    hide InvBut;
    AcquireKeeps(k, x, cs);
  }

  lemma NotifyStepKeeps(k: Kernel, l: Kernel)
    requires Good(k) && NotifyStep(k, l)
    ensures Good(l)
  {
    hide InvBut; hide Notify; hide NotifyNext; hide Woken;
    if c :| 0 <= c < |k.coords| && k.coords[c].signal && l == Notify(k, c) {
      NotifyContract(k, c);
    } else if x, c :| Free(k, x) && 0 <= c < |k.coords| && k.coords[c].signal && l == NotifyStart(k, x, c) {
      NotifyStartKeeps(k, x, c);
    } else {
      var x :| k.sched.scheduled == Some(x) && x in k.notices && l == NotifyNext(k, x);
      NotifyNextKeeps(k, x);
    }
  }

  lemma StepKeeps(k: Kernel, l: Kernel)
    requires Good(k) && Next(k, l)
    ensures Good(l)
  {
    hide InvBut; hide AcquireAny; hide FinishWait; hide Release; hide NotifyStep; hide Once;
    if ScheduleStep(k, l) {
      ScheduleKeeps(k, l);
    } else if AcquireStep(k, l) {
      var x: Ctx, cs: seq<nat> :|
        && Free(k, x) && cs != [] && Once(cs)
        && (forall j :: 0 <= j < |cs| ==> cs[j] < |k.coords| && k.coords[cs[j]].owner != Some(x))
        && l == AcquireAny(k, x, cs);
      AcquireStepKeeps(k, x, cs);
    } else if FinishStep(k, l) {
      var x :|
        && k.sched.scheduled == Some(x) && x in k.waits
        && (forall j :: 0 <= j < |k.waits[x].order| ==> k.waits[x].order[j] < |k.coords|)
        && l == FinishWait(k, x);
      FinishStepKeeps(k, x);
    } else if ReleaseStep(k, l) {
      var c, schedule :|
        && 0 <= c < |k.coords| && !k.coords[c].signal
        && (k.coords[c].owner == None || exists x: Ctx :: Free(k, x) && k.coords[c].owner == Some(x))
        && (schedule ==> exists x :: Free(k, x))
        && l == Release(k, c, schedule);
      ReleaseStepKeeps(k, c, schedule);
    } else if DisownStep(k, l) {
      var x: Ctx, c :|
        && Free(k, x) && 0 <= c < |k.coords| && k.coords[c].owner == Some(x)
        && l == SetCo(k, c, k.coords[c].(owner := None));
      DisownKeeps(k, x, c);
    } else {
      NotifyStepKeeps(k, l);
    }
  }

  lemma InitGood(k: Kernel)
    requires Init(k)
    ensures Good(k)
  {
  }

  lemma GoodOnEveryRun(run: seq<Kernel>, i: nat)
    requires IsRun(Init, Next, run) && i < |run|
    ensures Good(run[i])
  {
    hide Good; hide Init; hide Next;
    forall k | Init(k) ensures Good(k) { InitGood(k); }
    forall k, l | Good(k) && Next(k, l) ensures Good(l) { StepKeeps(k, l); }
    InvariantOnRun(Init, Next, Good, run, i);
  }

  // ---------------------------------------------------------------------------------------
  // What the invariant says
  // ---------------------------------------------------------------------------------------

  /**
   A blocked context is not forgotten: each coordinator it waits for is held and lists it, or is a
   signal whose notifier has it in hand.
   */
  ghost predicate Remembered(k: Kernel, x: Ctx) {
    && x in k.waits && k.waits[x].order != []
    && forall c :: c in k.waits[x].order ==>
         && c < |k.coords| && k.coords[c].owner != Some(x)
         && (|| (k.coords[c].held && x in k.coords[c].waiters)
             || (k.coords[c].signaled && exists y :: y in k.notices && k.notices[y].sig == c && x in k.notices[y].rest))
  }

  /** At most one context at a time has been given a plain coordinator; a free one has nobody waiting. */
  ghost predicate Exclusive(k: Kernel, c: nat)
    requires c < |k.coords|
  {
    && (!k.coords[c].held ==> k.coords[c].waiters == [] && forall x :: x in k.waits ==> k.coords[c].signal || c !in k.waits[x].on)
    && (!k.coords[c].signal ==> forall x, y :: x in k.waits && y in k.waits && c in k.waits[x].sat && c in k.waits[y].sat ==> x == y)
  }

  lemma BlockedIsRemembered(k: Kernel, x: Ctx)
    requires Good(k) && x in k.sched.state && k.sched.state[x] == S.Blocked
    ensures Remembered(k, x)
  {
    hide S.Partition; hide NoticesOk;
    assert WaitOk(k.waits[x], x, k.coords, k.notices, Popped(0, []));
    forall c | c in k.waits[x].order
      ensures (k.coords[c].held && x in k.coords[c].waiters)
           || (k.coords[c].signaled && exists y :: y in k.notices && k.notices[y].sig == c && x in k.notices[y].rest)
    {
      assert CoOk(k.coords[c]) && LinkedAt(k.coords, k.notices, x, c);
      PendingIsOpen(k, x, c);
    }
  }

  lemma PendingIsOpen(k: Kernel, x: Ctx, c: nat)
    requires Inv(k) && c < |k.coords|
    ensures (exists y :: y in k.notices && k.notices[y].sig == c && x in k.notices[y].rest) ==> k.coords[c].signaled
  {
    hide S.Partition; hide WaitsOk; hide CoordsOk; hide StatusOk; hide Waiting;
  }

  lemma AlwaysExclusive(k: Kernel, c: nat)
    requires Inv(k) && c < |k.coords|
    ensures Exclusive(k, c)
  {
    hide S.Partition; hide StatusOk;
    assert CoOk(k.coords[c]);
    if !k.coords[c].signal { PlainHasNoNotice(k.coords, k.waits, k.notices, c); }
    forall x | x in k.waits && c in k.waits[x].on
      ensures !k.coords[c].signal ==> k.coords[c].held && (c in k.waits[x].sat ==> k.coords[c].owner == Some(x))
    {
      assert WaitOk(k.waits[x], x, k.coords, k.notices, Popped(0, []));
    }
  }

  /**
   On every run: nobody sleeps through a wake, a coordinator has one owner at a time, a free one has
   nobody waiting for it, and a context that runs again inside a wait has been satisfied.
   */
  lemma SafeOnEveryRun(run: seq<Kernel>, i: nat)
    requires IsRun(Init, Next, run) && i < |run|
    ensures forall x :: x in run[i].sched.state && run[i].sched.state[x] == S.Blocked ==> Remembered(run[i], x)
    ensures forall x :: x in run[i].sched.state && run[i].sched.state[x] != S.Blocked && x in run[i].waits ==>
              run[i].waits[x].sat != {}
    ensures forall c :: 0 <= c < |run[i].coords| ==> Exclusive(run[i], c)
  {
    hide InvBut; hide Remembered; hide Exclusive; hide Init; hide Next; hide IsRun;
    GoodOnEveryRun(run, i);
    var k := run[i];
    forall x | x in k.sched.state && k.sched.state[x] == S.Blocked ensures Remembered(k, x) { BlockedIsRemembered(k, x); }
    forall c | 0 <= c < |k.coords| ensures Exclusive(k, c) { AlwaysExclusive(k, c); }
    forall x | x in k.sched.state && k.sched.state[x] != S.Blocked && x in k.waits ensures k.waits[x].sat != {} {
      UnblockedIsSatisfied(k, x);
    }
  }

  lemma UnblockedIsSatisfied(k: Kernel, x: Ctx)
    requires Inv(k) && x in k.waits && x in k.sched.state && k.sched.state[x] != S.Blocked
    ensures k.waits[x].sat != {}
  {
    hide S.Partition; hide CoordsOk; hide NoticesOk; hide WaitsOk; hide PoppedOk;
  }

  /** Release gives a plain coordinator to the context that has waited for it longest, and to nobody else. */
  lemma ReleaseIsFair(k: Kernel, c: nat, schedule: bool, z: Ctx)
    requires Inv(k) && c < |k.coords| && !k.coords[c].signal && k.coords[c].held && Unclaimed(k.waits, c)
    requires schedule ==> k.sched.scheduled.Some?
    requires z in k.waits && c in k.waits[z].on
    ensures var l := Release(k, c, schedule);
            && l.coords[c].held && l.coords[c].owner.Some?
            && var x := l.coords[c].owner.value;
               && Woken(l, x, c) && x in k.waits && c in k.waits[x].on
               && k.waits[x].since <= k.waits[z].since
               && (k.waits[z].since == k.waits[x].since ==> z == x)
  {
    hide S.Partition; hide StatusOk;
    PlainHasNoNotice(k.coords, k.waits, k.notices, c);
    assert WaitOk(k.waits[z], z, k.coords, k.notices, Popped(0, []));
    assert z in k.coords[c].waiters;
    assert Waiting(k.coords[c].waiters, c, k.waits) && ByArrival(k.coords[c].waiters, k.waits);
    assert k.coords[c].waiters[0] in k.coords[c].waiters;
    ReleaseWakes(k, c, schedule);
  }

  lemma ReleaseWakes(k: Kernel, c: nat, schedule: bool)
    requires Inv(k) && c < |k.coords| && !k.coords[c].signal && k.coords[c].held && Unclaimed(k.waits, c)
    requires (schedule ==> k.sched.scheduled.Some?) && k.coords[c].waiters != []
    ensures var l := Release(k, c, schedule); l.coords == k.coords[c := Passed(k.coords[c])] && Woken(l, k.coords[c].waiters[0], c)
  {
    hide InvBut; hide WakeWaiter;
    var co := k.coords[c];
    PopKeeps(k, c);
    WakeKeeps(SetCo(k, c, co.(waiters := co.waiters[1..], owner := Some(co.waiters[0]))), Popped(c, [co.waiters[0]]), schedule);
  }

  /**
   A wait that finds a free coordinator: the context owns exactly the leftmost free one, is on no list,
   and every other coordinator is untouched.
   */
  lemma TakeAtOnce(k: Kernel, x: Ctx, cs: seq<nat>)
    requires Inv(k) && Free(k, x) && Once(cs)
    requires forall j :: 0 <= j < |cs| ==> cs[j] < |k.coords| && k.coords[cs[j]].owner != Some(x)
    requires FirstFree(k.coords, cs, 0) < |cs|
    ensures var i := FirstFree(k.coords, cs, 0);
            var l := AcquireAny(k, x, cs);
            && OwnsExactly(l, x, cs, i) && OffEveryList(l, x)
            && (forall c :: 0 <= c < |k.coords| && c != cs[i] ==> l.coords[c] == k.coords[c])
            && l == k.(coords := l.coords)
  {
    hide S.Partition; hide WaitsOk; hide StatusOk; hide ByArrival; hide CoOk; hide OwnsExactly; hide OffEveryList; hide Take;
    var i := FirstFree(k.coords, cs, 0);
    assert CoOk(k.coords[cs[i]]);
    FreeIsUnlisted(k, x);
    TakeOwns(k, x, cs, i);
  }

  lemma TakeOwns(k: Kernel, x: Ctx, cs: seq<nat>, i: nat)
    requires i < |cs| && Once(cs) && OffEveryList(k, x)
    requires forall j :: 0 <= j < |cs| ==> cs[j] < |k.coords| && k.coords[cs[j]].owner != Some(x)
    requires !k.coords[cs[i]].held && CoOk(k.coords[cs[i]])
    ensures var l := Take(k, x, cs[i]);
            && OwnsExactly(l, x, cs, i) && OffEveryList(l, x)
            && (forall c :: 0 <= c < |k.coords| && c != cs[i] ==> l.coords[c] == k.coords[c])
            && l == k.(coords := l.coords)
  {
  }

  lemma FreeIsUnlisted(k: Kernel, x: Ctx)
    requires Inv(k) && Free(k, x)
    ensures OffEveryList(k, x)
  {
    hide S.Partition; hide WaitsOk; hide StatusOk; hide ByArrival; hide CoOk;
    forall c | 0 <= c < |k.coords| ensures x !in k.coords[c].waiters { assert Waiting(k.coords[c].waiters, c, k.waits); }
    forall y | y in k.notices ensures x !in k.notices[y].rest { assert Waiting(k.notices[y].rest, k.notices[y].sig, k.waits); }
  }

  /** On every run a wait for any of several, taken at once or after blocking, ends as `WaitForAny` and `TakeAtOnce` say. */
  lemma WaitForAnyOnEveryRun(run: seq<Kernel>, n: nat, x: Ctx)
    requires IsRun(Init, Next, run) && n < |run| && run[n].sched.scheduled == Some(x) && x in run[n].waits
    ensures forall j :: 0 <= j < |run[n].waits[x].order| ==> run[n].waits[x].order[j] < |run[n].coords|
    ensures var k, w := run[n], run[n].waits[x];
            var i := FirstSatisfied(w, 0);
            var l := FinishWait(k, x);
            && OwnsExactly(l, x, w.order, i) && OffEveryList(l, x)
            && Cleaned(k, l.(waits := l.waits[x := w]), x, w.order, 0, w.order[i])
  {
    hide IsRun; hide Init; hide Next; hide InvBut; hide OwnsExactly; hide OffEveryList; hide Cleaned; hide FinishWait;
    GoodOnEveryRun(run, n);
    WaitForAny(run[n], x);
  }

  lemma TakeAtOnceOnEveryRun(run: seq<Kernel>, n: nat, x: Ctx, cs: seq<nat>)
    requires IsRun(Init, Next, run) && n < |run| && Free(run[n], x) && Once(cs)
    requires forall j :: 0 <= j < |cs| ==> cs[j] < |run[n].coords| && run[n].coords[cs[j]].owner != Some(x)
    requires FirstFree(run[n].coords, cs, 0) < |cs|
    ensures var i := FirstFree(run[n].coords, cs, 0);
            var l := AcquireAny(run[n], x, cs);
            && OwnsExactly(l, x, cs, i) && OffEveryList(l, x)
            && (forall c :: 0 <= c < |run[n].coords| && c != cs[i] ==> l.coords[c] == run[n].coords[c])
  {
    hide IsRun; hide Init; hide Next; hide InvBut; hide OwnsExactly; hide OffEveryList; hide AcquireAny;
    GoodOnEveryRun(run, n);
    TakeAtOnce(run[n], x, cs);
  }

  /** On every run a permitted release of a plain coordinator goes to the context that has waited for it longest. */
  lemma ReleaseIsFairOnEveryRun(run: seq<Kernel>, n: nat, c: nat, schedule: bool, z: Ctx)
    requires IsRun(Init, Next, run) && n < |run|
    requires var k := run[n];
             && c < |k.coords| && !k.coords[c].signal && k.coords[c].held
             && (k.coords[c].owner.None? || Free(k, k.coords[c].owner.value))
             && (schedule ==> k.sched.scheduled.Some?) && z in k.waits && c in k.waits[z].on
    ensures var k := run[n];
            var l := Release(k, c, schedule);
            && l.coords[c].held && l.coords[c].owner.Some?
            && var x := l.coords[c].owner.value;
               && Woken(l, x, c) && x in k.waits && c in k.waits[x].on
               && k.waits[x].since <= k.waits[z].since
               && (k.waits[z].since == k.waits[x].since ==> z == x)
  {
    hide IsRun; hide Init; hide Next; hide InvBut; hide Woken; hide Release;
    GoodOnEveryRun(run, n);
    UnheldUnclaimed(run[n], c);
    ReleaseIsFair(run[n], c, schedule, z);
  }

  // ---------------------------------------------------------------------------------------
  // Waiting with the kill signal
  // ---------------------------------------------------------------------------------------

  datatype Outcome = Killed | Got(index: nat)

  /** The translation of a result that had the kill signal prepended. */
  function AfterKill(index: nat): Outcome {
    if index == 0 then Killed else Got(index - 1)
  }

  /** The shortcut for one coordinator: it applies to a killed context and to a free coordinator. */
  predicate KillShortcut(k: Kernel, kill: nat, c: nat)
    requires kill < |k.coords| && c < |k.coords|
  {
    k.coords[kill].signaled || !k.coords[c].held
  }

  /** The shortcut returns what the general wait would, and leaves the system in the same state. */
  lemma KillShortcutAgrees(k: Kernel, x: Ctx, kill: nat, c: nat)
    requires Inv(k) && k.sched.scheduled == Some(x)
    requires kill < |k.coords| && k.coords[kill].signal && c < |k.coords| && !k.coords[c].signal
    ensures forall j :: 0 <= j < 2 ==> [kill, c][j] < |k.coords|
    ensures var i := FirstFree(k.coords, [kill, c], 0);
            && (KillShortcut(k, kill, c) <==> i < 2)
            && (k.coords[kill].signaled ==> AfterKill(i) == Killed && AcquireAny(k, x, [kill, c]) == k)
            && (!k.coords[kill].signaled && !k.coords[c].held ==>
                  AfterKill(i) == Got(0) && AcquireAny(k, x, [kill, c]) == Take(k, x, c))
  {
    hide S.Partition; hide StatusOk; hide WaitsOk; hide NoticesOk;
    assert CoOk(k.coords[kill]) && CoOk(k.coords[c]);
    assert k.coords[kill].signaled ==> k.coords[kill := k.coords[kill].(held := false)] == k.coords;
  }

  lemma WinnerExists(k: Kernel, x: Ctx)
    requires Good(k) && k.sched.scheduled == Some(x) && x in k.waits
    ensures FirstSatisfied(k.waits[x], 0) < |k.waits[x].order|
  {
    hide InvBut; hide Clean; hide Cleaned;
    FinishIsClean(k, x);
  }

  // ---------------------------------------------------------------------------------------
  // Coordinators in memory
  // ---------------------------------------------------------------------------------------

  class Coordinators {
    const coop: S.Cooperator
    var coords: seq<Co>
    var waits: map<Ctx, Wait>
    var notices: map<Ctx, Notice>
    var clock: nat

    ghost function View(): Kernel
      reads this, coop
    {
      Kernel(coop.View(), coords, waits, notices, clock)
    }

    constructor (coop: S.Cooperator, coords: seq<Co>)
      ensures View() == Kernel(coop.View(), coords, map[], map[], 0)
      ensures this.coop == coop
    {
      this.coop := coop;
      this.coords := coords;
      waits, notices, clock := map[], map[], 0;
    }

    method WakeNode(x: Ctx, c: nat, schedule: bool)
      requires schedule ==> coop.scheduled.Some?
      modifies this, coop
      ensures View() == WakeWaiter(old(View()), x, c, schedule)
    {
      if x in waits && x in coop.state {
        waits := waits[x := waits[x].(sat := waits[x].sat + {c})];
        coop.UnblockContext(x, schedule);
      }
    }

    method TryAcquire(x: Ctx, c: nat) returns (ok: bool)
      requires c < |coords| && !coords[c].signal
      modifies this
      ensures ok == !old(coords[c].held) && View() == if ok then Take(old(View()), x, c) else old(View())
    {
      ok := !coords[c].held;
      if ok {
        coords := coords[c := coords[c].(held := true, owner := Some(x))];
      }
    }

    method ReleaseOne(c: nat, schedule: bool)
      requires c < |coords| && (schedule ==> coop.scheduled.Some?)
      modifies this, coop
      ensures View() == Release(old(View()), c, schedule)
    {
      if !coords[c].held {
        return;
      }
      var co := coords[c];
      if co.waiters == [] {
        coords := coords[c := co.(held := false, owner := None)];
        return;
      }
      coords := coords[c := co.(waiters := co.waiters[1..], owner := Some(co.waiters[0]))];
      WakeNode(co.waiters[0], c, schedule);
    }

    /** The first half of a wait: take the first free coordinator, or link a node on each and block. */
    method AcquireStart(x: Ctx, cs: seq<nat>) returns (taken: nat)
      requires coop.scheduled == Some(x) && x in coop.state
      requires forall j :: 0 <= j < |cs| ==> cs[j] < |coords|
      modifies this, coop
      ensures View() == AcquireAny(old(View()), x, cs)
      ensures taken == FirstFree(old(coords), cs, 0)
    {
      ghost var start := View();
      taken := 0;
      while taken < |cs|
        invariant taken <= |cs| && View() == start
        invariant FirstFree(coords, cs, taken) == FirstFree(coords, cs, 0)
      {
        var c := cs[taken];
        if !coords[c].held {
          coords := coords[c := if coords[c].signal then coords[c].(held := false)
                                else coords[c].(held := true, owner := Some(x))];
          return;
        }
        taken := taken + 1;
      }
      var i := 0;
      while i < |cs|
        invariant i <= |cs| && |coords| == |start.coords|
        invariant View() == start.(coords := coords)
        invariant HookAll(View(), x, cs, i) == HookAll(start, x, cs, 0)
      {
        coords := coords[cs[i] := coords[cs[i]].(waiters := coords[cs[i]].waiters + [x])];
        i := i + 1;
      }
      waits := waits[x := Wait(cs, set c | c in cs, {}, clock)];
      clock := clock + 1;
      coop.Block(x);
    }

    method RemoveAsBlocked(x: Ctx, c: nat)
      requires c < |coords| && x in waits
      modifies this, coop
      ensures View() == Unlink(old(View()), x, c)
      ensures |coords| == |old(coords)| && x in waits && waits[x] == old(waits[x]).(on := old(waits[x].on) - {c})
    {
      var rest := coop.RemoveFrom(coords[c].waiters, x);
      coords := coords[c := coords[c].(waiters := rest)];
      notices := map y | y in notices ::
                   if notices[y].sig == c then Notice(c, S.Without(notices[y].rest, x)) else notices[y];
      waits := waits[x := waits[x].(on := waits[x].on - {c})];
    }

    method GiveBack(x: Ctx, c: nat)
      requires c < |coords| && x in waits
      modifies this, coop
      ensures View() == PassOn(old(View()), x, c)
    {
      waits := waits[x := waits[x].(on := waits[x].on - {c}, sat := waits[x].sat - {c})];
      ReleaseOne(c, false);
    }

    method CleanFrom(x: Ctx, cs: seq<nat>, from: nat)
      requires from <= |cs| && x in waits && forall j :: 0 <= j < |cs| ==> cs[j] < |coords|
      modifies this, coop
      ensures View() == CleanRest(old(View()), x, cs, from)
    {
      ghost var start := View();
      var i := from;
      while i < |cs|
        invariant i <= |cs| && x in waits && |coords| == |start.coords|
        invariant CleanRest(View(), x, cs, i) == CleanRest(start, x, cs, from)
      {
        if cs[i] in waits[x].sat {
          GiveBack(x, cs[i]);
        } else {
          RemoveAsBlocked(x, cs[i]);
        }
        i := i + 1;
      }
    }

    /** Unlinks nodes up to the first satisfied one, then cleans the rest. */
    method CleanUp(x: Ctx) returns (won: nat)
      requires x in waits && forall j :: 0 <= j < |waits[x].order| ==> waits[x].order[j] < |coords|
      requires FirstSatisfied(waits[x], 0) < |waits[x].order|
      modifies this, coop
      ensures View() == FinishWait(old(View()), x) && won == FirstSatisfied(old(waits[x]), 0)
    {
      hide Unlink; hide CleanRest;
      ghost var start := View();
      var w := waits[x];
      won := 0;
      while won < |w.order| && w.order[won] !in w.sat
        invariant won <= |w.order| && x in waits && waits[x].sat == w.sat && |coords| == |start.coords|
        invariant FirstSatisfied(w, won) == FirstSatisfied(w, 0)
        invariant Clean(View(), x, w.order, won) == Clean(start, x, w.order, 0)
      {
        RemoveAsBlocked(x, w.order[won]);
        won := won + 1;
      }
      CleanFrom(x, w.order, won + 1);
      waits := waits - {x};
      if coords[w.order[won]].signal {
        coords := coords[w.order[won] := coords[w.order[won]].(held := false)];
      }
    }

    /** The second half of a wait, when the context runs again: it owns exactly the coordinator reported. */
    method AcquireEnd(x: Ctx) returns (won: nat)
      requires Good(View()) && coop.scheduled == Some(x) && x in waits
      modifies this, coop
      ensures Good(View()) && x !in waits
      ensures won == FirstSatisfied(old(waits[x]), 0) && won < |old(waits[x].order)|
      ensures OwnsExactly(View(), x, old(waits[x].order), won)
    {
      hide InvBut; hide OwnsExactly; hide FinishWait; hide Cleaned;
      FinishStepKeeps(View(), x);
      WaitForAny(View(), x);
      WinnerExists(View(), x);
      won := CleanUp(x);
    }

    method NotifyAll(c: nat)
      requires c < |coords|
      modifies this, coop
      ensures View() == Notify(old(View()), c)
    {
      var local := coords[c].waiters;
      coords := coords[c := coords[c].(signaled := true, held := false, waiters := [])];
      ghost var start := View();
      var i := 0;
      while i < |local|
        invariant i <= |local| && |coords| == |start.coords|
        invariant WakeAll(View(), local[i..], c) == WakeAll(start, local, c)
      {
        assert local[i..][1..] == local[i + 1..];
        WakeNode(local[i], c, false);
        i := i + 1;
      }
    }
  }
}
