/**
 A subscription: one continuation per channel drains it to empty on every fire and hands the values to
 a handler. Each channel has one producer and the arm as its only receiver. Firing runs from the
 cooperator's queue of pending continuations, never by a context switch.
 */
module Subscription {
  import opened Basics
  import opened Runs

  const BATCH := 16

  /** Where the arm's node is linked. */
  datatype Place = Nowhere | WaitList | Queue

  /** The producer is elsewhere, in the send coordinator's wait list, or runnable and given the coordinator. */
  datatype Producer<V> = Away | Blocked(value: V) | Woken(value: V)

  /**
   A channel together with its arm. `sent` and `seen` are history: the values put in, starting with
   those buffered when the subscription was made, and the values the handler was called with. `fault`
   records an acquire that would have suspended, or a value with no room.
   */
  datatype Arm<V> = Arm(
    cap: nat,
    buf: seq<V>,
    recvHeld: bool,
    sendHeld: bool,
    producer: Producer<V>,
    shut: bool,
    place: Place,
    listed: bool,
    retired: bool,
    sent: seq<V>,
    seen: seq<V>,
    fault: bool)

  /** `completions` (history) counts the releases of the completion coordinator. */
  datatype State<V> = State(arms: seq<Arm<V>>, started: nat, pending: seq<nat>, liveArms: int, completions: nat)

  // ---------------------------------------------------------------------------------------
  // One channel
  // ---------------------------------------------------------------------------------------

  predicate Full<V>(a: Arm<V>) { |a.buf| == a.cap }

  function Put<V>(a: Arm<V>, v: V): Arm<V> {
    if Full(a) then a.(fault := true) else a.(buf := a.buf + [v], sent := a.sent + [v])
  }

  /** Releasing recv to the arm's node queues the arm and leaves the coordinator free. */
  function ReleaseRecv<V>(a: Arm<V>): Arm<V> {
    if !a.recvHeld then a
    else a.(recvHeld := false, place := if a.place == WaitList then Queue else a.place)
  }

  function AcquireRecv<V>(a: Arm<V>): Arm<V> {
    a.(recvHeld := true, fault := a.fault || a.recvHeld)
  }

  /** Releasing send wakes a blocked producer, which then holds it, without switching to it. */
  function ReleaseSend<V>(a: Arm<V>): Arm<V> {
    if !a.sendHeld then a
    else if a.producer.Blocked? then a.(producer := Woken(a.producer.value))
    else a.(sendHeld := false)
  }

  /** The part of a blocking send after its acquire. */
  function SendAcquired<V>(a: Arm<V>, v: V): Arm<V> {
    if a.shut then ReleaseSend(a)
    else
      var a1 := Put(a, v);
      var a2 := if !Full(a1) then ReleaseSend(a1) else a1;
      if a2.recvHeld && a2.buf != [] then ReleaseRecv(a2) else a2
  }

  function Send<V>(a: Arm<V>, v: V): Arm<V> {
    if !a.shut && !Full(a) then
      var a1 := Put(a, v);
      var a2 := if Full(a1) then a1.(fault := a1.fault || a1.sendHeld, sendHeld := true) else a1;
      ReleaseRecv(a2)
    else if a.sendHeld then a.(producer := Blocked(v))
    else SendAcquired(a.(sendHeld := true), v)
  }

  function ResumeProducer<V>(a: Arm<V>): Arm<V>
    requires a.producer.Woken?
  {
    SendAcquired(a.(producer := Away), a.producer.value)
  }

  /** Releasing send here does switch: a blocked producer sees the close and gives up at once. */
  function Shutdown<V>(a: Arm<V>): Arm<V> {
    if a.shut then a
    else
      var a1 := ReleaseSend(ReleaseRecv(a.(shut := true)));
      if a.producer.Blocked? && a1.producer.Woken? then ResumeProducer(a1) else a1
  }

  /** Takes one value out; a producer waiting for room is woken. */
  function TakeOne<V>(a: Arm<V>): Arm<V>
    requires a.buf != []
  {
    var a1 := a.(buf := a.buf[1..]);
    if Full(a) then ReleaseSend(a1) else a1
  }

  function Take<V>(a: Arm<V>, n: nat): Arm<V>
    requires n <= |a.buf|
    decreases n
  {
    if n == 0 then a else Take(TakeOne(a), n - 1)
  }

  lemma {:induction false} TakeLeaves<V>(a: Arm<V>, n: nat)
    requires n <= |a.buf|
    ensures Take(a, n).buf == a.buf[n..]
    decreases n
  {
    if n > 0 {
      TakeLeaves(TakeOne(a), n - 1);
      assert a.buf[1..][n - 1..] == a.buf[n..];
    }
  }

  /** One call of the channel's Drain, with the handler called on what it returned. */
  function DrainBatch<V>(a: Arm<V>): (r: Arm<V>)
    requires a.buf != []
    ensures |r.buf| < |a.buf|
  {
    var n := if |a.buf| < BATCH then |a.buf| else BATCH;
    TakeLeaves(a, n);
    var a1 := Take(a, n);
    var a2 := if a1.buf == [] && !a1.shut then AcquireRecv(a1) else a1;
    a2.(seen := a2.seen + a.buf[..n])
  }

  function DrainAll<V>(a: Arm<V>): Arm<V>
    decreases |a.buf|
  {
    if a.buf == [] then a else DrainAll(DrainBatch(a))
  }

  function Register<V>(a: Arm<V>): Arm<V> {
    a.(place := WaitList, listed := true)
  }

  /** The arm is counted out once; a linked node is unlinked. */
  function Retire<V>(a: Arm<V>): Arm<V> {
    if a.listed then a.(retired := true, place := Nowhere, listed := false) else a.(retired := true)
  }

  function Fire<V>(a: Arm<V>): Arm<V> {
    var a1 := DrainAll(a);
    if a1.shut then Retire(a1) else Register(a1)
  }

  function ArmInitial<V>(a: Arm<V>): Arm<V> {
    if a.retired then a
    else if a.buf != [] then Fire(a)
    else if a.shut then Retire(a)
    else Register(a)
  }

  // ---------------------------------------------------------------------------------------
  // The whole subscription
  // ---------------------------------------------------------------------------------------

  /** Puts the new arm in place, queues it if its node was just released, and counts it out if it retired. */
  function Update<V>(s: State<V>, i: nat, a: Arm<V>): State<V>
    requires i < |s.arms|
  {
    var was := s.arms[i];
    var retires := a.retired && !was.retired;
    s.(arms := s.arms[i := a],
       pending := if a.place == Queue && was.place != Queue then s.pending + [i] else s.pending,
       liveArms := if retires then s.liveArms - 1 else s.liveArms,
       completions := if retires && s.liveArms - 1 == 0 then s.completions + 1 else s.completions)
  }

  /** The drain pops the next continuation and runs it. */
  function RunNext<V>(s: State<V>): State<V>
    requires s.pending != [] && s.pending[0] < |s.arms|
  {
    var i := s.pending[0];
    var a := s.arms[i].(place := Nowhere, listed := false);
    var s1 := s.(pending := s.pending[1..], arms := s.arms[i := a]);
    if a.retired then s1 else Update(s1, i, Fire(a))
  }

  /** A channel at subscribe time: nothing linked, nothing delivered, and its coordinators as the producer left them. */
  ghost predicate Fresh<V>(a: Arm<V>) {
    && a.cap >= 1 && |a.buf| <= a.cap && !a.fault
    && a.place == Nowhere && !a.listed && !a.retired && a.sent == a.buf && a.seen == []
    && (a.recvHeld <==> a.buf == [] && !a.shut)
    && SendOk(a)
  }

  ghost predicate Init<V>(s: State<V>) {
    && s == State(s.arms, 0, [], |s.arms|, 0) && s.arms != []
    && forall i :: 0 <= i < |s.arms| ==> Fresh(s.arms[i])
  }

  ghost predicate ChannelStep<V(!new)>(a: Arm<V>, b: Arm<V>) {
    || (a.producer.Away? && exists v :: b == Send(a, v))
    || (a.producer.Woken? && b == ResumeProducer(a))
    || b == Shutdown(a)
  }

  ghost predicate Next<V(!new)>(s: State<V>, t: State<V>) {
    || (exists i, b :: 0 <= i < |s.arms| && ChannelStep(s.arms[i], b) && t == Update(s, i, b))
    || (s.started < |s.arms| && t == Update(s, s.started, ArmInitial(s.arms[s.started])).(started := s.started + 1))
    || (s.pending != [] && s.pending[0] < |s.arms| && t == RunNext(s))
  }

  // ---------------------------------------------------------------------------------------
  // The invariant of one channel
  // ---------------------------------------------------------------------------------------

  ghost predicate SendOk<V>(a: Arm<V>) {
    if a.shut then !a.sendHeld && !a.producer.Blocked?
    else match a.producer
         case Away => a.sendHeld <==> Full(a)
         case Blocked(_) => a.sendHeld && Full(a)
         case Woken(_) => a.sendHeld && !Full(a)
  }

  /** An armed channel with data, or closed, has its arm queued. */
  ghost predicate ArmOk<V>(a: Arm<V>, started: bool) {
    && a.cap >= 1 && |a.buf| <= a.cap && !a.fault
    && a.sent == a.seen + a.buf
    && SendOk(a)
    && (a.listed <==> a.place != Nowhere)
    && (a.recvHeld <==> a.buf == [] && !a.shut)
    && (a.retired ==> a.place == Nowhere && a.shut && a.buf == [] && started)
    && (a.place == WaitList ==> a.buf == [] && !a.shut)
    && (a.place == Queue ==> a.buf != [] || a.shut)
    && (a.place == Nowhere ==> a.retired || !started)
    && (!started ==> a.place == Nowhere && !a.retired)
  }

  lemma SendKeeps<V>(a: Arm<V>, v: V, started: bool)
    requires ArmOk(a, started) && a.producer.Away?
    ensures ArmOk(Send(a, v), started)
    ensures var b := Send(a, v); b.retired == a.retired && (a.place == Queue ==> b.place == Queue)
  {
  }

  lemma ResumeProducerKeeps<V>(a: Arm<V>, started: bool)
    requires ArmOk(a, started) && a.producer.Woken?
    ensures ArmOk(ResumeProducer(a), started)
    ensures var b := ResumeProducer(a); b.retired == a.retired && (a.place == Queue ==> b.place == Queue)
  {
  }

  lemma ShutdownKeeps<V>(a: Arm<V>, started: bool)
    requires ArmOk(a, started)
    ensures ArmOk(Shutdown(a), started)
    ensures var b := Shutdown(a); b.retired == a.retired && (a.place == Queue ==> b.place == Queue)
  {
  }

  lemma {:induction false} TakeKeeps<V>(a: Arm<V>, n: nat)
    requires n <= |a.buf| <= a.cap && SendOk(a)
    ensures var r := Take(a, n);
            SendOk(r) && r == a.(buf := a.buf[n..], sendHeld := r.sendHeld, producer := r.producer)
    decreases n
  {
    if n > 0 {
      TakeOneKeeps(a);
      hide SendOk; hide TakeOne;
      TakeKeeps(TakeOne(a), n - 1);
      assert a.buf[1..][n - 1..] == a.buf[n..];
    }
  }

  lemma TakeOneKeeps<V>(a: Arm<V>)
    requires 0 < |a.buf| <= a.cap && SendOk(a)
    ensures var r := TakeOne(a);
            SendOk(r) && r == a.(buf := a.buf[1..], sendHeld := r.sendHeld, producer := r.producer)
  {
  }

  /** What draining needs and keeps, whatever the arm's bookkeeping. */
  ghost predicate FlowOk<V>(a: Arm<V>) {
    && a.cap >= 1 && |a.buf| <= a.cap && !a.fault && a.sent == a.seen + a.buf && SendOk(a)
    && (a.recvHeld <==> a.buf == [] && !a.shut)
  }

  lemma BatchKeeps<V>(a: Arm<V>)
    requires FlowOk(a) && a.buf != []
    ensures var r := DrainBatch(a);
            FlowOk(r) && r == a.(buf := r.buf, sendHeld := r.sendHeld, producer := r.producer, recvHeld := r.recvHeld, seen := r.seen)
  {
    hide SendOk; hide Take;
    var n := if |a.buf| < BATCH then |a.buf| else BATCH;
    TakeKeeps(a, n);
    var r := DrainBatch(a);
    SendOkIsLocal(Take(a, n), r);
    assert a.buf[..n] + a.buf[n..] == a.buf;
    assert r.seen + r.buf == a.seen + (a.buf[..n] + a.buf[n..]);
  }

  lemma SendOkIsLocal<V>(a: Arm<V>, b: Arm<V>)
    requires SendOk(a) && b.buf == a.buf && b.cap == a.cap && b.sendHeld == a.sendHeld && b.producer == a.producer && b.shut == a.shut
    ensures SendOk(b)
  {
  }

  /** Draining delivers exactly what is buffered, in order, and leaves the channel ready for the next edge. */
  lemma {:induction false} DrainContract<V>(a: Arm<V>)
    requires FlowOk(a)
    ensures var r := DrainAll(a);
            && FlowOk(r) && r.buf == [] && r.seen == a.seen + a.buf
            && r == a.(buf := r.buf, sendHeld := r.sendHeld, producer := r.producer, recvHeld := r.recvHeld, seen := r.seen)
    decreases |a.buf|
  {
    if a.buf != [] {
      BatchKeeps(a);
      hide DrainBatch; hide SendOk;
      DrainContract(DrainBatch(a));
    }
  }

  lemma FireKeeps<V>(a: Arm<V>)
    requires FlowOk(a) && !a.retired && a.place == Nowhere && !a.listed
    ensures ArmOk(Fire(a), true) && Fire(a).seen == a.sent && Fire(a).place != Queue
  {
    hide SendOk; hide DrainAll;
    DrainContract(a);
    SendOkIsLocal(DrainAll(a), Fire(a));
  }

  lemma ArmInitialKeeps<V>(a: Arm<V>)
    requires ArmOk(a, false)
    ensures ArmOk(ArmInitial(a), true) && ArmInitial(a).place != Queue
  {
    hide Fire;
    if a.buf != [] { FireKeeps(a); }
  }

  // ---------------------------------------------------------------------------------------
  // The invariant of the subscription
  // ---------------------------------------------------------------------------------------

  function Live<V>(arms: seq<Arm<V>>): nat {
    if arms == [] then 0
    else Live(arms[..|arms| - 1]) + if arms[|arms| - 1].retired then 0 else 1
  }

  lemma {:induction false} LiveUpdate<V>(arms: seq<Arm<V>>, i: nat, a: Arm<V>)
    requires i < |arms|
    ensures Live(arms[i := a]) + (if arms[i].retired then 0 else 1) == Live(arms) + (if a.retired then 0 else 1)
  {
    var n := |arms| - 1;
    if i < n {
      LiveUpdate(arms[..n], i, a);
      assert arms[i := a][..n] == arms[..n][i := a];
    } else {
      assert arms[i := a][..n] == arms[..n];
    }
  }

  lemma {:induction false} LiveZero<V>(arms: seq<Arm<V>>)
    ensures Live(arms) == 0 <==> forall i :: 0 <= i < |arms| ==> arms[i].retired
  {
    if arms != [] {
      var n := |arms| - 1;
      LiveZero(arms[..n]);
      assert forall i :: 0 <= i < n ==> arms[..n][i] == arms[i];
    }
  }

  ghost predicate ArmsOk<V>(arms: seq<Arm<V>>, started: nat) {
    forall i :: 0 <= i < |arms| ==> ArmOk(arms[i], i < started)
  }

  ghost predicate Queued<V>(pending: seq<nat>, arms: seq<Arm<V>>) {
    Once(pending) && forall i: nat :: i in pending <==> i < |arms| && arms[i].place == Queue
  }

  ghost predicate Counted<V>(s: State<V>) {
    s.liveArms == Live(s.arms) && s.completions == (if s.liveArms == 0 then 1 else 0) && s.arms != []
  }

  ghost predicate Inv<V>(s: State<V>) {
    ArmsOk(s.arms, s.started) && s.started <= |s.arms| && Queued(s.pending, s.arms) && Counted(s)
  }

  lemma UpdateKeepsQueue<V>(s: State<V>, i: nat, a: Arm<V>)
    requires i < |s.arms| && Queued(s.pending, s.arms) && (s.arms[i].place == Queue ==> a.place == Queue)
    ensures Queued(Update(s, i, a).pending, Update(s, i, a).arms)
  {
  }

  lemma UpdateKeepsCount<V>(s: State<V>, i: nat, a: Arm<V>)
    requires i < |s.arms| && Counted(s) && (s.arms[i].retired ==> a.retired)
    ensures Counted(Update(s, i, a))
  {
    LiveUpdate(s.arms, i, a);
    LiveZero(s.arms);
  }

  lemma ChannelStepKeeps<V(!new)>(s: State<V>, i: nat, b: Arm<V>)
    requires Inv(s) && i < |s.arms| && ChannelStep(s.arms[i], b)
    ensures Inv(Update(s, i, b))
  {
    hide ArmOk; hide Queued; hide Counted; hide Send; hide ResumeProducer; hide Shutdown;
    var a := s.arms[i];
    assert ArmOk(a, i < s.started);
    if a.producer.Away? && exists v :: b == Send(a, v) {
      var v :| b == Send(a, v);
      SendKeeps(a, v, i < s.started);
    } else if a.producer.Woken? && b == ResumeProducer(a) {
      ResumeProducerKeeps(a, i < s.started);
    } else {
      ShutdownKeeps(a, i < s.started);
    }
    UpdateKeepsQueue(s, i, b);
    UpdateKeepsCount(s, i, b);
  }

  lemma ArmInitialStepKeeps<V>(s: State<V>)
    requires Inv(s) && s.started < |s.arms|
    ensures Inv(Update(s, s.started, ArmInitial(s.arms[s.started])).(started := s.started + 1))
  {
    hide Queued; hide ArmInitial; hide SendOk;
    var i := s.started;
    assert ArmOk(s.arms[i], false);
    ArmInitialKeeps(s.arms[i]);
    UpdateKeepsQueue(s, i, ArmInitial(s.arms[i]));
    UpdateKeepsCount(s, i, ArmInitial(s.arms[i]));
    hide Counted; hide ArmOk;
  }

  lemma PopKeepsQueue<V>(pending: seq<nat>, arms: seq<Arm<V>>, a: Arm<V>)
    requires Queued(pending, arms) && pending != [] && a.place != Queue
    ensures pending[0] < |arms| && Queued(pending[1..], arms[pending[0] := a])
  {
    assert pending[0] in pending && pending == [pending[0]] + pending[1..];
    assert pending[0] !in pending[1..];
    var arms' := arms[pending[0] := a];
    forall i: nat ensures i in pending[1..] <==> i < |arms'| && arms'[i].place == Queue {
      assert i in pending <==> i == pending[0] || i in pending[1..];
    }
  }

  lemma RunNextKeeps<V>(s: State<V>)
    requires Inv(s) && s.pending != []
    ensures s.pending[0] < |s.arms| && Inv(RunNext(s))
  {
    hide SendOk; hide Queued; hide Fire; hide Counted;
    var i := s.pending[0];
    assert Queued(s.pending, s.arms) ==> i in s.pending && i < |s.arms| && s.arms[i].place == Queue by { QueueHead(s.pending, s.arms); }
    var a := s.arms[i].(place := Nowhere, listed := false);
    PopKeepsQueue(s.pending, s.arms, a);
    var s1 := s.(pending := s.pending[1..], arms := s.arms[i := a]);
    assert ArmOk(s.arms[i], i < s.started);
    SendOkIsLocal(s.arms[i], a);
    FireKeeps(a);
    SameCount(s, i, a);
    UpdateKeepsQueue(s1, i, Fire(a));
    UpdateKeepsCount(s1, i, Fire(a));
    hide ArmOk;
  }

  lemma QueueHead<V>(pending: seq<nat>, arms: seq<Arm<V>>)
    ensures Queued(pending, arms) && pending != [] ==> pending[0] in pending && pending[0] < |arms| && arms[pending[0]].place == Queue
  {
  }

  lemma SameCount<V>(s: State<V>, i: nat, a: Arm<V>)
    requires i < |s.arms| && Counted(s) && a.retired == s.arms[i].retired
    requires s.pending != []
    ensures Counted(s.(pending := s.pending[1..], arms := s.arms[i := a]))
  {
    LiveUpdate(s.arms, i, a);
  }

  lemma StepKeeps<V(!new)>(s: State<V>, t: State<V>)
    requires Inv(s) && Next(s, t)
    ensures Inv(t)
  {
    hide Inv; hide ChannelStep; hide Update; hide RunNext;
    if i, b :| 0 <= i < |s.arms| && ChannelStep(s.arms[i], b) && t == Update(s, i, b) {
      ChannelStepKeeps(s, i, b);
    } else if s.started < |s.arms| && t == Update(s, s.started, ArmInitial(s.arms[s.started])).(started := s.started + 1) {
      ArmInitialStepKeeps(s);
    } else {
      RunNextKeeps(s);
    }
  }

  lemma {:induction false} AllLive<V>(arms: seq<Arm<V>>)
    requires forall i :: 0 <= i < |arms| ==> !arms[i].retired
    ensures Live(arms) == |arms|
  {
    if arms != [] { AllLive(arms[..|arms| - 1]); }
  }

  lemma InvOnEveryRun<V(!new)>(run: seq<State<V>>, k: nat)
    requires IsRun(Init<V>, Next<V>, run) && k < |run|
    ensures Inv(run[k])
  {
    hide Next;
    forall s: State<V> | Init(s) ensures Inv(s) { AllLive(s.arms); }
    forall s: State<V>, t: State<V> | Inv(s) && Next(s, t) ensures Inv(t) { StepKeeps(s, t); }
    InvariantOnRun(Init<V>, Next<V>, Inv<V>, run, k);
  }

  /**
   On every run, for every arm: the handler has seen, in order, exactly a prefix of what was sent, the
   rest being buffered; the node is marked listed exactly when it is linked; once armed, an arm with
   anything left to see is queued to run; and an arm retires only after the close, having seen it all.
   */
  lemma FanInOnEveryRun<V(!new)>(run: seq<State<V>>, k: nat, i: nat)
    requires IsRun(Init<V>, Next<V>, run) && k < |run| && i < |run[k].arms|
    ensures var s, a := run[k], run[k].arms[i];
            && a.sent == a.seen + a.buf && !a.fault
            && (a.listed <==> a.place != Nowhere) && (a.place == Queue <==> i in s.pending)
            && (i < s.started && !a.retired && (a.buf != [] || a.shut) ==> i in s.pending)
            && (a.place == WaitList ==> a.recvHeld && a.seen == a.sent)
            && (a.retired ==> a.shut && a.seen == a.sent && !a.listed)
  {
    hide IsRun; hide Init; hide Next; hide SendOk; hide Counted;
    InvOnEveryRun(run, k);
    assert ArmOk(run[k].arms[i], i < run[k].started);
  }

  /** The live count is the number of arms not retired, and completion is released once, when the last one retires. */
  lemma CompletionOnEveryRun<V(!new)>(run: seq<State<V>>, k: nat)
    requires IsRun(Init<V>, Next<V>, run) && k < |run|
    ensures var s := run[k];
            && s.liveArms == Live(s.arms) && s.completions <= 1
            && (s.completions == 1 <==> forall i :: 0 <= i < |s.arms| ==> s.arms[i].retired)
  {
    hide IsRun; hide Init; hide Next;
    InvOnEveryRun(run, k);
    LiveZero(run[k].arms);
  }

  lemma TakeStep<V>(a: Arm<V>, n: nat)
    requires 0 < n <= |a.buf|
    ensures TakeOne(a).buf == a.buf[1..] && Take(a, n) == Take(TakeOne(a), n - 1)
  {
  }

  lemma NextOf<V>(s: seq<V>, k: nat)
    requires k < |s|
    ensures s[k..][0] == s[k] && s[k..][1..] == s[k + 1..] && s[..k] + [s[k]] == s[..k + 1]
  {
  }

  lemma TakeNone<V>(a: Arm<V>)
    ensures Take(a, 0) == a
  {
  }

  // ---------------------------------------------------------------------------------------
  // A channel and its arm in memory
  // ---------------------------------------------------------------------------------------

  class ArmCell<V(!new)> {
    var arm: Arm<V>

    constructor (arm: Arm<V>)
      ensures this.arm == arm
    {
      this.arm := arm;
    }

    /** Up to `maxCount` values, waking a blocked producer when the first one makes room. */
    method Drain(maxCount: nat) returns (batch: seq<V>)
      modifies this
      ensures |batch| == (if |old(arm.buf)| < maxCount then |old(arm.buf)| else maxCount)
      ensures batch == old(arm.buf)[..|batch|] && arm.buf == old(arm.buf)[|batch|..]
      ensures arm == if old(arm.buf) == [] then old(arm)
                     else var a1 := Take(old(arm), |batch|);
                          if a1.buf == [] && !a1.shut then AcquireRecv(a1) else a1
    {
      hide Take;
      if arm.buf == [] {
        return [];
      }
      batch := TakeSome(maxCount);
      if arm.buf == [] && !arm.shut {
        arm := AcquireRecv(arm);
      }
    }

    method TakeSome(maxCount: nat) returns (batch: seq<V>)
      modifies this
      ensures |batch| == (if |old(arm.buf)| < maxCount then |old(arm.buf)| else maxCount)
      ensures batch == old(arm.buf)[..|batch|] && arm.buf == old(arm.buf)[|batch|..]
      ensures arm == Take(old(arm), |batch|)
    {
      hide TakeOne; hide Take;
      batch := [];
      ghost var start := arm;
      ghost var n := if |arm.buf| < maxCount then |arm.buf| else maxCount;
      while |batch| < maxCount && arm.buf != []
        invariant |batch| <= n && batch == start.buf[..|batch|] && arm.buf == start.buf[|batch|..]
        invariant Take(arm, n - |batch|) == Take(start, n)
        decreases n - |batch|
      {
        TakeStep(arm, n - |batch|);
        NextOf(start.buf, |batch|);
        var v := TakeFirst();
        batch := batch + [v];
      }
      TakeNone(arm);
    }

    method TakeFirst() returns (v: V)
      requires arm.buf != []
      modifies this
      ensures v == old(arm.buf)[0] && arm == TakeOne(old(arm)) && arm.buf == old(arm.buf)[1..]
    {
      var wasFull := |arm.buf| == arm.cap;
      v := arm.buf[0];
      arm := arm.(buf := arm.buf[1..]);
      if wasFull && arm.sendHeld {
        arm := if arm.producer.Blocked? then arm.(producer := Woken(arm.producer.value)) else arm.(sendHeld := false);
      }
    }

    /** Batches until the channel is empty; the handler sees exactly what was buffered. */
    method FireOnce()
      requires FlowOk(arm) && !arm.retired && arm.place == Nowhere && !arm.listed
      modifies this
      ensures arm == Fire(old(arm)) && arm.seen == old(arm.seen) + old(arm.buf)
    {
      hide Take; hide SendOk;
      ghost var start := arm;
      DrainContract(arm);
      var batch := Drain(BATCH);
      while batch != []
        invariant batch == [] ==> arm.buf == []
        invariant DrainAll(arm.(seen := arm.seen + batch)) == DrainAll(start)
        decreases |arm.buf| + |batch|
      {
        arm := arm.(seen := arm.seen + batch);
        ghost var before := arm;
        batch := Drain(BATCH);
        if batch != [] {
          assert before.buf[..|batch|] == batch;
        }
      }
      assert arm.(seen := arm.seen + []) == arm;
      if arm.shut {
        arm := arm.(retired := true);
      } else {
        arm := arm.(place := WaitList, listed := true);
      }
    }
  }
}
