/**
 A bounded channel between the contexts of one cooperator. Emptiness and fullness are mirrored by two
 coordinators; releasing one switches to its longest waiter at once, and what the releasing operation
 still has to do runs when its context is resumed.
 */
module Channel {
  import opened RingBuffer
  import opened Runs

  type Ctx = nat

  datatype Sender<V> = Sender(tx: Ctx, value: V)

  /** Which woken context runs next, if the last operation ended in a switch. */
  datatype Pc<V> = Idle | RecvWoken(rx: Ctx) | SendWoken(sender: Sender<V>)

  /** The rest of an operation whose first release switched away. */
  datatype Tail = RecvTail | SendTail | ShutdownTail

  /** What the operations did, in order: values put in and taken out, blocking calls that returned false. */
  datatype Event<V> = Sent(tx: Ctx, value: V) | Refused(tx: Ctx, value: V) | Received(rx: Ctx, value: V) | Ended(rx: Ctx) | Closed

  /** `fault` (history) records a failed assertion or an acquire of an already held coordinator that expected it free. */
  datatype State<V> = State(
    cap: nat,
    buf: seq<V>,
    recvHeld: bool,
    sendHeld: bool,
    receivers: seq<Ctx>,
    senders: seq<Sender<V>>,
    shut: bool,
    pc: Pc<V>,
    tails: seq<Tail>,
    log: seq<Event<V>>,
    fault: bool)

  predicate Empty<V>(s: State<V>) { s.buf == [] }

  predicate Full<V>(s: State<V>) { |s.buf| == s.cap }

  // ---------------------------------------------------------------------------------------
  // Operations
  // ---------------------------------------------------------------------------------------

  function Waiting<V>(s: State<V>): nat { |s.receivers| + |s.senders| }

  function Put<V>(s: State<V>, tx: Ctx, v: V): State<V> {
    if Full(s) then s.(fault := true) else s.(buf := s.buf + [v], log := s.log + [Sent(tx, v)])
  }

  function Get<V>(s: State<V>, rx: Ctx): State<V>
    requires !Empty(s)
  {
    s.(buf := s.buf[1..], log := s.log + [Received(rx, s.buf[0])])
  }

  /** A release with a waiter hands the coordinator over and switches. */
  function ReleaseRecv<V>(s: State<V>): State<V> {
    if !s.recvHeld then s
    else if s.receivers == [] then s.(recvHeld := false)
    else s.(receivers := s.receivers[1..], pc := RecvWoken(s.receivers[0]))
  }

  function ReleaseSend<V>(s: State<V>): State<V> {
    if !s.sendHeld then s
    else if s.senders == [] then s.(sendHeld := false)
    else s.(senders := s.senders[1..], pc := SendWoken(s.senders[0]))
  }

  function MarkEmpty<V>(s: State<V>): State<V> {
    if Empty(s) then s.(fault := s.fault || s.recvHeld, recvHeld := true) else s
  }

  function MarkFull<V>(s: State<V>): State<V> {
    if Full(s) then s.(fault := s.fault || s.sendHeld, sendHeld := true) else s
  }

  function TryRecv<V>(s: State<V>, rx: Ctx): State<V> {
    if Empty(s) then s else ReleaseSend(MarkEmpty(Get(s, rx)))
  }

  function TrySend<V>(s: State<V>, tx: Ctx, v: V): State<V> {
    if s.shut || Full(s) then s else ReleaseRecv(MarkFull(Put(s, tx, v)))
  }

  function RunTail<V>(s: State<V>, tail: Tail): State<V> {
    match tail
    case RecvTail => if s.sendHeld && !Full(s) then ReleaseSend(s) else s
    case SendTail => if s.recvHeld && !Empty(s) then ReleaseRecv(s) else s
    case ShutdownTail => ReleaseSend(s)
  }

  /** The second half of an operation: at once, or later if the first half switched. */
  function Then<V>(s: State<V>, tail: Tail): State<V> {
    if s.pc.Idle? then RunTail(s, tail) else s.(tails := s.tails + [tail])
  }

  /** A receiver that has acquired the recv coordinator. */
  function RecvLoop<V>(s: State<V>, rx: Ctx): State<V> {
    if !Empty(s) then
      var s1 := Get(s, rx);
      Then(if (s1.shut && Empty(s1)) || !Empty(s1) then ReleaseRecv(s1) else s1, RecvTail)
    else if s.shut then ReleaseRecv(s.(log := s.log + [Ended(rx)]))
    else s.(receivers := s.receivers + [rx])
  }

  function Recv<V>(s: State<V>, rx: Ctx): State<V> {
    if !Empty(s) then TryRecv(s, rx)
    else if s.shut then ReleaseRecv(s.(log := s.log + [Ended(rx)]))
    else if s.recvHeld then s.(receivers := s.receivers + [rx])
    else RecvLoop(s.(recvHeld := true), rx)
  }

  /** A sender that has acquired the send coordinator. */
  function SendLoop<V>(s: State<V>, tx: Ctx, v: V): State<V> {
    if s.shut then ReleaseSend(s.(log := s.log + [Refused(tx, v)]))
    else
      var s1 := Put(s, tx, v);
      Then(if !Full(s1) then ReleaseSend(s1) else s1, SendTail)
  }

  function Send<V>(s: State<V>, tx: Ctx, v: V): State<V> {
    if !s.shut && !Full(s) then TrySend(s, tx, v)
    else if s.sendHeld then s.(senders := s.senders + [Sender(tx, v)])
    else SendLoop(s.(sendHeld := true), tx, v)
  }

  function Shutdown<V>(s: State<V>): State<V> {
    if s.shut then s
    else Then(ReleaseRecv(s.(shut := true, log := s.log + [Closed])), ShutdownTail)
  }

  /** The woken context runs on from its acquire. */
  function Continue<V>(s: State<V>): (t: State<V>)
    ensures !t.pc.Idle? ==> Waiting(t) < Waiting(s)
  {
    match s.pc
    case Idle => s
    case RecvWoken(rx) => RecvLoop(s.(pc := Idle), rx)
    case SendWoken(w) => SendLoop(s.(pc := Idle), w.tx, w.value)
  }

  function Resume<V>(s: State<V>, i: nat): State<V>
    requires i < |s.tails|
  {
    RunTail(s.(tails := s.tails[..i] + s.tails[i + 1..]), s.tails[i])
  }

  ghost predicate Init<V>(s: State<V>) {
    s.cap >= 1 && s == State(s.cap, [], true, false, [], [], false, Idle, [], [], false)
  }

  /** A woken context runs at once; otherwise any context may start an operation or finish one. */
  ghost predicate Next<V(!new)>(s: State<V>, t: State<V>) {
    if !s.pc.Idle? then t == Continue(s)
    else
      || (exists tx, v :: t == Send(s, tx, v))
      || (exists tx, v :: t == TrySend(s, tx, v))
      || (exists rx :: t == Recv(s, rx))
      || (exists rx :: t == TryRecv(s, rx))
      || t == Shutdown(s)
      || (exists i :: 0 <= i < |s.tails| && t == Resume(s, i))
  }

  // ---------------------------------------------------------------------------------------
  // The invariant
  // ---------------------------------------------------------------------------------------

  function SentIn<V>(log: seq<Event<V>>): seq<V> {
    if log == [] then []
    else
      var e := log[|log| - 1];
      SentIn(log[..|log| - 1]) + if e.Sent? then [e.value] else []
  }

  function ReceivedIn<V>(log: seq<Event<V>>): seq<V> {
    if log == [] then []
    else
      var e := log[|log| - 1];
      ReceivedIn(log[..|log| - 1]) + if e.Received? then [e.value] else []
  }

  /** Nothing is sent after the close; a blocking call fails only after it, a receiver's only once all is received. */
  ghost predicate Orderly<V>(log: seq<Event<V>>, j: nat)
    requires j < |log|
  {
    && (log[j].Sent? || log[j].Closed? ==> Closed !in log[..j])
    && (log[j].Refused? || log[j].Ended? ==> Closed in log[..j])
    && (log[j].Ended? ==> SentIn(log[..j]) == ReceivedIn(log[..j]))
  }

  ghost predicate LogOk<V>(log: seq<Event<V>>, buf: seq<V>, shut: bool) {
    && SentIn(log) == ReceivedIn(log) + buf
    && (shut <==> Closed in log)
    && forall j :: 0 <= j < |log| ==> Orderly(log, j)
  }

  /** The send coordinator mirrors fullness. */
  ghost predicate SendMirrors<V>(s: State<V>) {
    (s.sendHeld <==> Full(s)) && (s.senders != [] ==> s.sendHeld)
  }

  ghost predicate OpenOk<V>(s: State<V>) {
    && s.tails == []
    && match s.pc
       case Idle => (s.recvHeld <==> Empty(s)) && (s.receivers != [] ==> s.recvHeld) && SendMirrors(s)
       case RecvWoken(_) => |s.buf| == 1 && s.recvHeld && SendMirrors(s)
       case SendWoken(_) => |s.buf| == s.cap - 1 && s.sendHeld && (s.recvHeld <==> Empty(s)) && (s.receivers != [] ==> s.recvHeld)
  }

  /** After the close: only its own second half can be pending, and without it no sender is left waiting. */
  ghost predicate ShutOk<V>(s: State<V>) {
    && (s.tails == [] || s.tails == [ShutdownTail])
    && (s.recvHeld ==> Empty(s))
    && match s.pc
       case Idle => s.receivers == [] && (if s.tails == [] then !s.sendHeld && s.senders == [] else SendMirrors(s))
       case RecvWoken(_) => Empty(s) && s.recvHeld && s.tails != [] && SendMirrors(s)
       case SendWoken(_) => s.receivers == [] && s.sendHeld && (s.tails != [] ==> !Full(s))
  }

  ghost predicate Inv<V>(s: State<V>) {
    && s.cap >= 1 && |s.buf| <= s.cap && !s.fault
    && LogOk(s.log, s.buf, s.shut)
    && (if s.shut then ShutOk(s) else OpenOk(s))
  }

  /** One more event keeps the log in order if it is in order itself. */
  lemma Append<V>(log: seq<Event<V>>, buf: seq<V>, shut: bool, e: Event<V>, buf': seq<V>)
    requires LogOk(log, buf, shut)
    requires match e
             case Sent(_, v) => !shut && buf' == buf + [v]
             case Received(_, v) => buf == [v] + buf'
             case Refused(_, _) => shut && buf' == buf
             case Ended(_) => shut && buf' == buf && buf == []
             case Closed => !shut && buf' == buf
    ensures LogOk(log + [e], buf', shut || e.Closed?)
  {
    var log' := log + [e];
    assert log'[..|log|] == log;
    forall j | 0 <= j < |log'| ensures Orderly(log', j) {
      if j < |log| {
        assert Orderly(log, j);
        assert log'[..j] == log[..j];
      }
    }
  }

  // ---------------------------------------------------------------------------------------
  // Every step keeps the invariant
  // ---------------------------------------------------------------------------------------

  lemma PutKeepsLog<V>(s: State<V>, tx: Ctx, v: V)
    requires LogOk(s.log, s.buf, s.shut) && !s.shut && !Full(s)
    ensures var t := Put(s, tx, v); LogOk(t.log, t.buf, t.shut)
  {
    Append(s.log, s.buf, s.shut, Sent(tx, v), s.buf + [v]);
  }

  lemma GetKeepsLog<V>(s: State<V>, rx: Ctx)
    requires LogOk(s.log, s.buf, s.shut) && !Empty(s)
    ensures var t := Get(s, rx); LogOk(t.log, t.buf, t.shut)
  {
    Append(s.log, s.buf, s.shut, Received(rx, s.buf[0]), s.buf[1..]);
  }

  lemma TryRecvKeeps<V>(s: State<V>, rx: Ctx)
    requires Inv(s) && s.pc.Idle?
    ensures Inv(TryRecv(s, rx))
  {
    hide LogOk;
    if !Empty(s) { GetKeepsLog(s, rx); }
  }

  lemma TrySendKeeps<V>(s: State<V>, tx: Ctx, v: V)
    requires Inv(s) && s.pc.Idle?
    ensures Inv(TrySend(s, tx, v))
  {
    hide LogOk;
    if !s.shut && !Full(s) { PutKeepsLog(s, tx, v); }
  }

  lemma RecvKeeps<V>(s: State<V>, rx: Ctx)
    requires Inv(s) && s.pc.Idle?
    ensures Inv(Recv(s, rx))
  {
    hide LogOk;
    if !Empty(s) {
      TryRecvKeeps(s, rx);
    } else if s.shut {
      Append(s.log, s.buf, s.shut, Ended(rx), s.buf);
    }
  }

  lemma SendKeeps<V>(s: State<V>, tx: Ctx, v: V)
    requires Inv(s) && s.pc.Idle?
    ensures Inv(Send(s, tx, v))
  {
    hide LogOk;
    if !s.shut && !Full(s) {
      TrySendKeeps(s, tx, v);
    } else if !s.sendHeld {
      Append(s.log, s.buf, s.shut, Refused(tx, v), s.buf);
    }
  }

  lemma ShutdownKeeps<V>(s: State<V>)
    requires Inv(s) && s.pc.Idle?
    ensures Inv(Shutdown(s))
  {
    hide LogOk;
    if !s.shut { Append(s.log, s.buf, s.shut, Closed, s.buf); }
  }

  lemma ResumeKeeps<V>(s: State<V>, i: nat)
    requires Inv(s) && s.pc.Idle? && i < |s.tails|
    ensures Inv(Resume(s, i))
  {
    hide LogOk;
    assert s.tails[..i] + s.tails[i + 1..] == [];
  }

  lemma ContinueKeeps<V>(s: State<V>)
    requires Inv(s)
    ensures Inv(Continue(s))
  {
    hide LogOk;
    match s.pc {
      case Idle =>
      case RecvWoken(rx) =>
        if s.shut { Append(s.log, s.buf, s.shut, Ended(rx), s.buf); } else { GetKeepsLog(s, rx); }
      case SendWoken(w) =>
        if s.shut { Append(s.log, s.buf, s.shut, Refused(w.tx, w.value), s.buf); } else { PutKeepsLog(s, w.tx, w.value); }
    }
  }

  lemma StepKeeps<V(!new)>(s: State<V>, t: State<V>)
    requires Inv(s) && Next(s, t)
    ensures Inv(t)
  {
    hide Inv; hide Send; hide TrySend; hide Recv; hide TryRecv; hide Shutdown; hide Resume; hide Continue;
    if !s.pc.Idle? {
      ContinueKeeps(s);
    } else if tx, v :| t == Send(s, tx, v) {
      SendKeeps(s, tx, v);
    } else if tx, v :| t == TrySend(s, tx, v) {
      TrySendKeeps(s, tx, v);
    } else if rx :| t == Recv(s, rx) {
      RecvKeeps(s, rx);
    } else if rx :| t == TryRecv(s, rx) {
      TryRecvKeeps(s, rx);
    } else if t == Shutdown(s) {
      ShutdownKeeps(s);
    } else {
      var i :| 0 <= i < |s.tails| && t == Resume(s, i);
      ResumeKeeps(s, i);
    }
  }

  lemma InvOnEveryRun<V(!new)>(run: seq<State<V>>, k: nat)
    requires IsRun(Init<V>, Next<V>, run) && k < |run|
    ensures Inv(run[k])
  {
    hide Next;
    forall s: State<V>, t: State<V> | Inv(s) && Next(s, t) ensures Inv(t) { StepKeeps(s, t); }
    InvariantOnRun(Init<V>, Next<V>, Inv<V>, run, k);
  }

  // ---------------------------------------------------------------------------------------
  // What the invariant says
  // ---------------------------------------------------------------------------------------

  /**
   On every run of the open channel, whenever no woken context is about to run: the recv coordinator
   is held exactly when the channel is empty and the send coordinator exactly when it is full, so no
   receiver waits while there is data and no sender while there is room.
   */
  lemma MirrorsOnEveryRun<V(!new)>(run: seq<State<V>>, k: nat)
    requires IsRun(Init<V>, Next<V>, run) && k < |run| && run[k].pc.Idle? && !run[k].shut
    ensures var s := run[k];
            && (s.recvHeld <==> Empty(s)) && (s.sendHeld <==> Full(s))
            && (s.receivers != [] ==> Empty(s)) && (s.senders != [] ==> Full(s))
  {
    hide Init; hide Next; hide IsRun;
    InvOnEveryRun(run, k);
  }

  /**
   On every run, with or without a close: what was received is a prefix of what was sent and the
   buffer holds the rest; nothing is sent after the close; a blocking receiver returns empty-handed
   only after the close and with everything sent received; and no internal assertion fails.
   */
  lemma DeliveryOnEveryRun<V(!new)>(run: seq<State<V>>, k: nat)
    requires IsRun(Init<V>, Next<V>, run) && k < |run|
    ensures var s := run[k];
            && SentIn(s.log) == ReceivedIn(s.log) + s.buf && |s.buf| <= s.cap && !s.fault
            && (forall j :: 0 <= j < |s.log| ==> Orderly(s.log, j))
  {
    hide Init; hide Next; hide IsRun; hide ShutOk; hide OpenOk;
    InvOnEveryRun(run, k);
  }

  /** Once the channel is closed nobody is left waiting, except senders while the close's second half is pending. */
  lemma ClosedOnEveryRun<V(!new)>(run: seq<State<V>>, k: nat)
    requires IsRun(Init<V>, Next<V>, run) && k < |run| && run[k].pc.Idle? && run[k].shut
    ensures run[k].receivers == []
    ensures run[k].senders != [] ==> run[k].tails == [ShutdownTail]
    ensures run[k].tails == [] ==> !run[k].sendHeld
  {
    hide Init; hide Next; hide IsRun; hide LogOk;
    InvOnEveryRun(run, k);
  }

  /** Lets woken contexts run until none is left to switch to. */
  function Settle<V>(s: State<V>): State<V>
    decreases Waiting(s)
  {
    var t := Continue(s);
    if t.pc.Idle? then t else Settle(t)
  }

  function Ends<V>(rs: seq<Ctx>): seq<Event<V>> {
    if rs == [] then [] else [Ended(rs[0])] + Ends(rs[1..])
  }

  function Refusals<V>(ws: seq<Sender<V>>): seq<Event<V>> {
    if ws == [] then [] else [Refused(ws[0].tx, ws[0].value)] + Refusals(ws[1..])
  }

  lemma {:induction false} ReceiversEnd<V>(s: State<V>)
    requires Inv(s) && s.shut && s.pc.RecvWoken?
    ensures var t := Settle(s);
            && Inv(t) && t.pc.Idle? && t.receivers == [] && t.senders == s.senders
            && t.log == s.log + Ends([s.pc.rx] + s.receivers)
            && t.buf == s.buf && t.shut && t.tails == s.tails
    decreases |s.receivers|
  {
    hide LogOk;
    ContinueKeeps(s);
    var t := Continue(s);
    assert ([s.pc.rx] + s.receivers)[1..] == s.receivers;
    if !t.pc.Idle? {
      ReceiversEnd(t);
      assert [t.pc.rx] + t.receivers == s.receivers;
    }
  }

  lemma {:induction false} SendersEnd<V>(s: State<V>)
    requires Inv(s) && s.shut && s.pc.SendWoken?
    ensures var t := Settle(s);
            && Inv(t) && t.pc.Idle? && t.senders == []
            && t.log == s.log + Refusals([s.pc.sender] + s.senders)
            && t.buf == s.buf && t.shut && t.tails == s.tails
    decreases |s.senders|
  {
    hide LogOk;
    ContinueKeeps(s);
    var t := Continue(s);
    assert ([s.pc.sender] + s.senders)[1..] == s.senders;
    if !t.pc.Idle? {
      SendersEnd(t);
      assert [t.pc.sender] + t.senders == s.senders;
    }
  }

  /** Closing, then its second half, each followed by whoever they wake. */
  function CloseThrough<V>(s: State<V>): State<V> {
    var t := Settle(Shutdown(s));
    if t.tails == [] then t else Settle(Resume(t, 0))
  }

  /**
   Closing an open channel ends every waiting receiver, or refuses every waiting sender, each exactly
   once and in order of arrival, and leaves the buffered values for later receivers.
   */
  lemma ShutdownWakesAll<V>(s: State<V>)
    requires Inv(s) && s.pc.Idle? && !s.shut
    ensures ClosedFor(s, CloseThrough(s))
  {
    hide CloseThrough; hide Inv;
    if s.receivers != [] {
      CloseWithReceivers(s);
    } else {
      CloseWithSenders(s);
    }
  }

  ghost predicate ClosedFor<V>(s: State<V>, t: State<V>) {
    && t.receivers == [] && t.senders == [] && t.pc.Idle? && t.tails == [] && t.buf == s.buf
    && t.log == s.log + [Closed] + Ends(s.receivers) + Refusals(s.senders)
  }

  lemma CloseWithReceivers<V>(s: State<V>)
    requires Inv(s) && s.pc.Idle? && !s.shut && s.receivers != []
    ensures ClosedFor(s, CloseThrough(s))
  {
    hide LogOk;
    ShutdownKeeps(s);
    var s1 := Shutdown(s);
    assert s1.pc.RecvWoken? && s1.senders == [] && s.senders == [];
    ReceiversEnd(s1);
    assert [s1.pc.rx] + s1.receivers == s.receivers;
    assert Settle(s1).tails == [ShutdownTail];
    assert Resume(Settle(s1), 0).pc.Idle?;
  }

  lemma CloseWithSenders<V>(s: State<V>)
    requires Inv(s) && s.pc.Idle? && !s.shut && s.receivers == []
    ensures ClosedFor(s, CloseThrough(s))
  {
    hide LogOk;
    ShutdownKeeps(s);
    var s1 := Shutdown(s);
    if s1.pc.SendWoken? {
      SendersEnd(s1);
      assert [s1.pc.sender] + s1.senders == s.senders;
    }
  }

  // ---------------------------------------------------------------------------------------
  // The channel in memory
  // ---------------------------------------------------------------------------------------

  class Bounded<V(!new)> {
    const buffer: array<V>
    var head: nat
    var tail: nat
    var size: nat
    var recvHeld: bool
    var sendHeld: bool
    var receivers: seq<Ctx>
    var senders: seq<Sender<V>>
    var shut: bool
    var pc: Pc<V>
    var tails: seq<Tail>
    ghost var log: seq<Event<V>>
    ghost var fault: bool

    ghost predicate Valid()
      reads this
    {
      && head < buffer.Length && size <= buffer.Length
      && tail == Wrap(head + size, buffer.Length)
    }

    ghost function View(): State<V>
      requires Valid()
      reads this, buffer
    {
      State(buffer.Length, Unwrapped(buffer[..], head, size), recvHeld, sendHeld, receivers, senders, shut, pc, tails, log, fault)
    }

    constructor (buffer: array<V>)
      requires buffer.Length >= 1
      ensures this.buffer == buffer && Valid() && Init(View())
    {
      this.buffer := buffer;
      head, tail, size := 0, 0, 0;
      recvHeld, sendHeld, receivers, senders := true, false, [], [];
      shut, pc, tails, log, fault := false, Idle, [], [], false;
    }

    method PutValue(tx: Ctx, v: V) returns (ok: bool)
      requires Valid()
      modifies this, buffer
      ensures Valid() && View() == Put(old(View()), tx, v) && ok == !old(Full(View()))
    {
      hide Unwrapped;
      if size == buffer.Length {
        fault := true;
        return false;
      }
      RingPut(buffer[..], head, size, v);
      buffer[tail] := v;
      tail := tail + 1;
      if tail == buffer.Length { tail := 0; }
      size := size + 1;
      log := log + [Sent(tx, v)];
      return true;
    }

    method GetValue(rx: Ctx) returns (v: V)
      requires Valid() && size > 0
      modifies this
      ensures Valid() && View() == Get(old(View()), rx) && v == old(View()).buf[0]
    {
      hide Unwrapped;
      RingGet(buffer[..], head, size);
      v := buffer[head];
      head := head + 1;
      if head == buffer.Length { head := 0; }
      size := size - 1;
      log := log + [Received(rx, v)];
    }

    method LetReceiverIn()
      requires Valid()
      modifies this
      ensures Valid() && View() == ReleaseRecv(old(View()))
    {
      hide Unwrapped;
      if recvHeld {
        if receivers == [] {
          recvHeld := false;
        } else {
          pc := RecvWoken(receivers[0]);
          receivers := receivers[1..];
        }
      }
    }

    method LetSenderIn()
      requires Valid()
      modifies this
      ensures Valid() && View() == ReleaseSend(old(View()))
    {
      hide Unwrapped;
      if sendHeld {
        if senders == [] {
          sendHeld := false;
        } else {
          pc := SendWoken(senders[0]);
          senders := senders[1..];
        }
      }
    }

    /** The value reported is the channel's first; nothing happens to an empty channel. */
    method TakeNow(rx: Ctx) returns (v: seq<V>)
      requires Valid()
      modifies this
      ensures Valid() && View() == TryRecv(old(View()), rx)
      ensures v == if old(Empty(View())) then [] else [old(View()).buf[0]]
    {
      hide Unwrapped;
      if size == 0 {
        return [];
      }
      var first := GetValue(rx);
      if size == 0 {
        fault := fault || recvHeld;
        recvHeld := true;
      }
      LetSenderIn();
      v := [first];
    }

    method OfferNow(tx: Ctx, v: V) returns (ok: bool)
      requires Valid()
      modifies this, buffer
      ensures Valid() && View() == TrySend(old(View()), tx, v)
      ensures ok == (!old(shut) && !old(Full(View())))
    {
      hide Unwrapped;
      if shut || size == buffer.Length {
        return false;
      }
      ok := PutValue(tx, v);
      if size == buffer.Length {
        fault := fault || sendHeld;
        sendHeld := true;
      }
      LetReceiverIn();
    }

    method Finish(rest: Tail)
      requires Valid()
      modifies this
      ensures Valid() && View() == Then(old(View()), rest)
    {
      hide Unwrapped;
      if !pc.Idle? {
        tails := tails + [rest];
        return;
      }
      FinishNow(rest);
    }

    method FinishNow(rest: Tail)
      requires Valid()
      modifies this
      ensures Valid() && View() == RunTail(old(View()), rest)
    {
      hide Unwrapped;
      match rest {
        case RecvTail => if sendHeld && size < buffer.Length { LetSenderIn(); }
        case SendTail => if recvHeld && size > 0 { LetReceiverIn(); }
        case ShutdownTail => LetSenderIn();
      }
    }

    method RecvAcquired(rx: Ctx)
      requires Valid()
      modifies this
      ensures Valid() && View() == RecvLoop(old(View()), rx)
    {
      hide Unwrapped;
      if size == 0 {
        if shut {
          log := log + [Ended(rx)];
          LetReceiverIn();
        } else {
          receivers := receivers + [rx];
        }
        return;
      }
      var _ := GetValue(rx);
      if (shut && size == 0) || size > 0 {
        LetReceiverIn();
      }
      Finish(RecvTail);
    }

    method Receive(rx: Ctx)
      requires Valid()
      modifies this
      ensures Valid() && View() == Recv(old(View()), rx)
    {
      hide Unwrapped;
      if size > 0 {
        var _ := TakeNow(rx);
      } else if shut {
        log := log + [Ended(rx)];
        LetReceiverIn();
      } else if recvHeld {
        receivers := receivers + [rx];
      } else {
        recvHeld := true;
        RecvAcquired(rx);
      }
    }

    method SendAcquired(tx: Ctx, v: V)
      requires Valid()
      modifies this, buffer
      ensures Valid() && View() == SendLoop(old(View()), tx, v)
    {
      hide Unwrapped;
      if shut {
        log := log + [Refused(tx, v)];
        LetSenderIn();
        return;
      }
      var _ := PutValue(tx, v);
      if size < buffer.Length {
        LetSenderIn();
      }
      Finish(SendTail);
    }

    method Offer(tx: Ctx, v: V)
      requires Valid()
      modifies this, buffer
      ensures Valid() && View() == Send(old(View()), tx, v)
    {
      hide Unwrapped;
      if !shut && size < buffer.Length {
        var _ := OfferNow(tx, v);
      } else if sendHeld {
        senders := senders + [Sender(tx, v)];
      } else {
        sendHeld := true;
        SendAcquired(tx, v);
      }
    }

    method Close() returns (first: bool)
      requires Valid()
      modifies this
      ensures Valid() && View() == Shutdown(old(View())) && first == !old(shut)
    {
      hide Unwrapped;
      if shut {
        return false;
      }
      shut := true;
      log := log + [Closed];
      LetReceiverIn();
      Finish(ShutdownTail);
      return true;
    }

    method RunWoken()
      requires Valid()
      modifies this, buffer
      ensures Valid() && View() == Continue(old(View()))
    {
      hide Unwrapped;
      match pc {
        case Idle =>
        case RecvWoken(rx) =>
          pc := Idle;
          RecvAcquired(rx);
        case SendWoken(w) =>
          pc := Idle;
          SendAcquired(w.tx, w.value);
      }
    }
  
    method ResumeTail(i: nat)
      requires Valid() && i < |tails|
      modifies this
      ensures Valid() && View() == Resume(old(View()), i)
    {
      hide Unwrapped;
      var rest := tails[i];
      tails := tails[..i] + tails[i + 1..];
      FinishNow(rest);
    }
  }
}
