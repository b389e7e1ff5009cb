/**
 One ring with any number of one-shot handles and multishot receives, the latter sharing one buffer
 pool. Steps of different handles interleave freely.
 */
module Uring {
  import opened Runs
  import H = IoHandle
  import A = ArmedHandle

  datatype State = State(pendingOps: int, entries: nat, handles: seq<H.Handle>, armed: seq<A.Armed>, pool: multiset<nat>)

  ghost predicate Init(s: State) {
    && s.pendingOps == 0 && s.pool == A.All(s.entries)
    && (forall i :: 0 <= i < |s.handles| ==> s.handles[i] == H.Initial())
    && (forall i :: 0 <= i < |s.armed| ==> s.armed[i] == A.Initial())
  }

  ghost predicate HandleStep(s: State, t: State, i: nat) {
    && i < |s.handles| && i < |t.handles| && H.Step(s.handles[i], t.handles[i], t.pendingOps - s.pendingOps)
    && t == s.(handles := s.handles[i := t.handles[i]], pendingOps := t.pendingOps)
  }

  ghost predicate ArmedStep(s: State, t: State, i: nat) {
    && i < |s.armed| && i < |t.armed|
    && A.Step(A.Stream(s.armed[i], s.pool), A.Stream(t.armed[i], t.pool), t.pendingOps - s.pendingOps)
    && t == s.(armed := s.armed[i := t.armed[i]], pool := t.pool, pendingOps := t.pendingOps)
  }

  ghost predicate Next(s: State, t: State) {
    exists i :: HandleStep(s, t, i) || ArmedStep(s, t, i)
  }

  /** The number of handles with an operation in flight. */
  function InFlight(hs: seq<H.Handle>): nat {
    if hs == [] then 0 else H.InFlight(hs[0]) + InFlight(hs[1..])
  }

  /** The number of live multishots and of unanswered cancels. */
  function Armed(ms: seq<A.Armed>): nat {
    if ms == [] then 0 else A.Ops(ms[0]) + Armed(ms[1..])
  }

  /** All buffers out of the pool, each as often as it is somewhere. */
  function Out(ms: seq<A.Armed>): multiset<nat> {
    if ms == [] then multiset{} else A.Buffers(ms[0]) + Out(ms[1..])
  }

  lemma {:induction false} InFlightUpdate(hs: seq<H.Handle>, i: nat, h: H.Handle)
    requires i < |hs|
    ensures InFlight(hs[i := h]) == InFlight(hs) - H.InFlight(hs[i]) + H.InFlight(h)
  {
    if i == 0 {
      assert hs[i := h][1..] == hs[1..];
    } else {
      InFlightUpdate(hs[1..], i - 1, h);
      assert hs[i := h][1..] == hs[1..][i - 1 := h];
    }
  }

  lemma {:induction false} ArmedUpdate(ms: seq<A.Armed>, i: nat, a: A.Armed)
    requires i < |ms|
    ensures Armed(ms[i := a]) == Armed(ms) - A.Ops(ms[i]) + A.Ops(a)
  {
    if i == 0 {
      assert ms[i := a][1..] == ms[1..];
    } else {
      ArmedUpdate(ms[1..], i - 1, a);
      assert ms[i := a][1..] == ms[1..][i - 1 := a];
    }
  }

  /** Taking one handle's buffers aside. */
  function Others(ms: seq<A.Armed>, i: nat): multiset<nat>
    requires i < |ms|
  {
    Out(ms[..i]) + Out(ms[i + 1..])
  }

  lemma {:induction false} OutSplit(ms: seq<A.Armed>, i: nat)
    requires i < |ms|
    ensures Out(ms) == Others(ms, i) + A.Buffers(ms[i])
  {
    hide A.Buffers;
    if i == 0 {
      assert ms[..0] == [];
    } else {
      OutSplit(ms[1..], i - 1);
      assert ms[1..][..i - 1] == ms[..i][1..];
      assert ms[1..][i..] == ms[i + 1..];
    }
  }

  lemma OthersUpdate(ms: seq<A.Armed>, i: nat, a: A.Armed)
    requires i < |ms|
    ensures Others(ms[i := a], i) == Others(ms, i)
  {
    assert ms[i := a][..i] == ms[..i];
    assert ms[i := a][i + 1..] == ms[i + 1..];
  }

  ghost predicate HandlesOk(hs: seq<H.Handle>) {
    forall i :: 0 <= i < |hs| ==> H.Valid(hs[i])
  }

  ghost predicate ArmedOk(ms: seq<A.Armed>) {
    forall i :: 0 <= i < |ms| ==> A.Valid(ms[i])
  }

  ghost predicate Inv(s: State) {
    && HandlesOk(s.handles) && ArmedOk(s.armed)
    && s.pendingOps == InFlight(s.handles) + Armed(s.armed)
    && s.pool + Out(s.armed) == A.All(s.entries)
  }

  lemma HandleKeeps(s: State, t: State, i: nat)
    requires Inv(s) && HandleStep(s, t, i)
    ensures Inv(t)
  {
    hide H.Valid; hide H.Step; hide H.InFlight; hide A.Valid; hide Out;
    H.StepKeeps(s.handles[i], t.handles[i], t.pendingOps - s.pendingOps);
    InFlightUpdate(s.handles, i, t.handles[i]);
  }

  lemma ArmedKeeps(s: State, t: State, i: nat)
    requires Inv(s) && ArmedStep(s, t, i)
    ensures Inv(t)
  {
    hide H.Valid; hide A.Valid; hide A.Step; hide A.Buffers; hide A.Ops; hide A.All; hide Out; hide InFlight; hide Others;
    A.StepKeeps(A.Stream(s.armed[i], s.pool), A.Stream(t.armed[i], t.pool), t.pendingOps - s.pendingOps);
    ArmedUpdate(s.armed, i, t.armed[i]);
    OutSplit(s.armed, i);
    OutSplit(t.armed, i);
    OthersUpdate(s.armed, i, t.armed[i]);
    assert t.pool + Out(t.armed) == Others(s.armed, i) + (t.pool + A.Buffers(t.armed[i]));
    assert s.pool + Out(s.armed) == Others(s.armed, i) + (s.pool + A.Buffers(s.armed[i]));
  }

  lemma {:induction false} NothingYet(hs: seq<H.Handle>, ms: seq<A.Armed>)
    requires forall i :: 0 <= i < |hs| ==> hs[i] == H.Initial()
    requires forall i :: 0 <= i < |ms| ==> ms[i] == A.Initial()
    ensures InFlight(hs) == 0 && Armed(ms) == 0 && Out(ms) == multiset{}
    decreases |hs| + |ms|
  {
    if hs != [] {
      NothingYet(hs[1..], ms);
    } else if ms != [] {
      NothingYet(hs, ms[1..]);
    }
  }

  lemma InitGood(s: State)
    requires Init(s)
    ensures Inv(s)
  {
    hide A.All; hide InFlight; hide Armed; hide Out;
    NothingYet(s.handles, s.armed);
    assert s.pool + multiset{} == s.pool;
  }

  lemma StepKeeps(s: State, t: State)
    requires Inv(s) && Next(s, t)
    ensures Inv(t)
  {
    hide Inv; hide HandleStep; hide ArmedStep;
    var i :| HandleStep(s, t, i) || ArmedStep(s, t, i);
    if HandleStep(s, t, i) { HandleKeeps(s, t, i); } else { ArmedKeeps(s, t, i); }
  }

  lemma InvOnEveryRun(run: seq<State>, k: nat)
    requires IsRun(Init, Next, run) && k < |run|
    ensures Inv(run[k])
  {
    hide Init; hide Next; hide Inv;
    forall s | Init(s) ensures Inv(s) { InitGood(s); }
    forall s, t | Inv(s) && Next(s, t) ensures Inv(t) { StepKeeps(s, t); }
    InvariantOnRun(Init, Next, Inv, run, k);
  }

  // ---------------------------------------------------------------------------------------
  // What holds on every run
  // ---------------------------------------------------------------------------------------

  /** The ring's counter is the number of one-shot operations in flight, live multishots and unanswered cancels. */
  lemma PendingOpsOnEveryRun(run: seq<State>, k: nat)
    requires IsRun(Init, Next, run) && k < |run|
    ensures run[k].pendingOps == InFlight(run[k].handles) + Armed(run[k].armed)
  {
    hide IsRun; hide Init; hide Next;
    InvOnEveryRun(run, k);
  }

  /**
   For every one-shot handle, on every run: its counter is what the kernel still owes it, its
   coordinator is held until then and released once per operation, and a destroyed handle is owed
   nothing.
   */
  lemma HandleOnEveryRun(run: seq<State>, k: nat, i: nat)
    requires IsRun(Init, Next, run) && k < |run| && i < |run[k].handles|
    ensures var h := run[k].handles[i];
            && h.pendingCqes == H.Undelivered(h) && (h.pendingCqes > 0 ==> h.held)
            && h.releases == h.ops - H.InFlight(h)
            && (h.owner.Blocked? ==> h.pendingCqes > 0) && (h.owner.Gone? ==> H.Undelivered(h) == 0)
  {
    hide IsRun; hide Init; hide Next;
    InvOnEveryRun(run, k);
  }

  /** The places a buffer can be. */
  datatype Place = Pool | InEvent(i: nat) | InQueue(i: nat) | Lent(i: nat)

  function At(s: State, p: Place, b: nat): nat {
    match p
    case Pool => s.pool[b]
    case InEvent(i) => if i < |s.armed| then A.CqeBids(s.armed[i].cqes)[b] else 0
    case InQueue(i) => if i < |s.armed| then A.QueueBids(s.armed[i].queue)[b] else 0
    case Lent(i) => if i < |s.armed| then A.One(s.armed[i].returnBid)[b] else 0
  }

  lemma OutAtLeast(ms: seq<A.Armed>, j: nat, b: nat)
    requires j < |ms|
    ensures A.Buffers(ms[j])[b] <= Out(ms)[b]
  {
    hide A.Buffers;
    OutSplit(ms, j);
  }

  lemma OthersAtLeast(ms: seq<A.Armed>, i: nat, j: nat, b: nat)
    requires i < |ms| && j < |ms| && i != j
    ensures A.Buffers(ms[j])[b] <= Others(ms, i)[b]
  {
    hide A.Buffers;
    if j < i {
      assert ms[..i][j] == ms[j];
      OutAtLeast(ms[..i], j, b);
    } else {
      assert ms[i + 1..][j - i - 1] == ms[j];
      OutAtLeast(ms[i + 1..], j - i - 1, b);
    }
  }

  lemma {:induction false} SomewhereOut(ms: seq<A.Armed>, b: nat) returns (i: nat)
    requires Out(ms)[b] > 0
    ensures i < |ms| && A.Buffers(ms[i])[b] > 0
  {
    hide A.Buffers;
    if A.Buffers(ms[0])[b] > 0 {
      i := 0;
    } else {
      var j := SomewhereOut(ms[1..], b);
      i := j + 1;
    }
  }

  lemma OneIn(m: multiset<nat>, n: multiset<nat>, b: nat, total: multiset<nat>)
    requires m + n == total && total[b] == 1
    ensures m[b] + n[b] == 1
  {
  }

  /** On every run each buffer of the pool is in exactly one place. */
  lemma BufferOnEveryRun(run: seq<State>, k: nat, b: nat) returns (p: Place)
    requires IsRun(Init, Next, run) && k < |run| && b < run[k].entries
    ensures At(run[k], p, b) == 1 && forall q :: q != p ==> At(run[k], q, b) == 0
  {
    hide IsRun; hide Init; hide Next; hide HandlesOk; hide ArmedOk; hide Out; hide A.All; hide InFlight; hide Armed; hide Others;
    hide A.CqeBids; hide A.QueueBids; hide A.One;
    InvOnEveryRun(run, k);
    var s := run[k];
    assert A.All(s.entries)[b] == 1;
    OneIn(s.pool, Out(s.armed), b, A.All(s.entries));
    if s.pool[b] == 1 {
      p := Pool;
      forall i | 0 <= i < |s.armed| ensures A.Buffers(s.armed[i])[b] == 0 { OutAtLeast(s.armed, i, b); }
    } else {
      var i := SomewhereOut(s.armed, b);
      OutSplit(s.armed, i);
      forall j | 0 <= j < |s.armed| && j != i ensures A.Buffers(s.armed[j])[b] == 0 { OthersAtLeast(s.armed, i, j, b); }
      p := if A.CqeBids(s.armed[i].cqes)[b] > 0 then InEvent(i)
           else if A.QueueBids(s.armed[i].queue)[b] > 0 then InQueue(i) else Lent(i);
    }
  }

  /**
   For every multishot receive, on every run: its queue stays within the room it is given; a consumer
   blocked in Next has an empty queue, a live multishot and the park flag set; and once destroyed the
   kernel owes it neither an event nor an answer to the cancel.
   */
  lemma MultishotOnEveryRun(run: seq<State>, k: nat, i: nat)
    requires IsRun(Init, Next, run) && k < |run| && i < |run[k].armed|
    ensures var a := run[k].armed[i];
            && |a.queue| <= run[k].entries + 1
            && (a.owner == A.BlockedNext ==> a.queue == [] && a.armed && a.parked && (a.live || a.cqes != []))
            && (a.owner == A.Gone ==> !a.live && a.cqes == [] && !a.cancelOwed)
  {
    hide IsRun; hide Init; hide Next; hide Out; hide A.All; hide InFlight; hide Armed; hide A.Posted; hide A.Surfaced;
    InvOnEveryRun(run, k);
    var s := run[k];
    assert A.Valid(s.armed[i]);
    OutSplit(s.armed, i);
    assert (s.pool + Others(s.armed, i)) + A.Buffers(s.armed[i]) == A.All(s.entries);
    A.QueueBound(s.armed[i], s.pool + Others(s.armed, i), s.entries);
  }
}
