/**
 One cooperator's bookkeeping: which context runs, which are ready, which are blocked. A context
 switch is a change of `scheduled`; with nothing scheduled, control is in the cooperator's loop.
 */
module Scheduler {
  import opened Basics
  import opened Runs

  type Ctx = nat

  datatype Status = Running | Yielded | Blocked

  datatype Config = Config(directYield: bool, directYieldBudget: nat, ioPresentLimit: nat)

  /**
   `state` holds exactly the live contexts. `left` is the number of direct switches the fast paths
   may still make, `used` (history) how many they made since the loop last resumed a context.
   */
  datatype Sched = Sched(
    config: Config,
    state: map<Ctx, Status>,
    yielded: seq<Ctx>,
    blocked: seq<Ctx>,
    scheduled: Option<Ctx>,
    left: nat,
    used: nat)

  function Init(config: Config): Sched {
    Sched(config, map[], [], [], None, 0, 0)
  }

  function Without(s: seq<Ctx>, c: Ctx): (r: seq<Ctx>)
    ensures forall x :: x in r <==> x in s && x != c
    ensures |r| <= |s|
  {
    if s == [] then [] else (if s[0] == c then [] else [s[0]]) + Without(s[1..], c)
  }

  // ---------------------------------------------------------------------------------------
  // The operations
  // ---------------------------------------------------------------------------------------

  /** The running context goes to the back of the ready list. */
  function Preempt(s: Sched): Sched
    requires s.scheduled.Some?
  {
    var c := s.scheduled.value;
    s.(state := s.state[c := Yielded], yielded := s.yielded + [c], scheduled := None)
  }

  function Dispatch(s: Sched, c: Ctx): Sched {
    s.(state := s.state[c := Running], scheduled := Some(c))
  }

  /** A freshly spawned context is entered at once, over the spawning context or over the loop. */
  function Enter(s: Sched, c: Ctx): Sched {
    Dispatch(if s.scheduled.Some? then Preempt(s) else s, c)
  }

  /** The loop resumes the first ready context and refills the direct-switch budget. */
  function Resume(s: Sched): Sched
    requires s.scheduled.None? && s.yielded != []
  {
    Dispatch(s.(yielded := s.yielded[1..], left := s.config.directYieldBudget, used := 0), s.yielded[0])
  }

  /** The running context parks itself in the blocked list. */
  function Park(s: Sched): Sched
    requires s.scheduled.Some?
  {
    var c := s.scheduled.value;
    s.(state := s.state[c := Blocked], blocked := s.blocked + [c], scheduled := None)
  }

  predicate DirectSwitch(s: Sched) {
    s.config.directYield && s.left > 0 && s.yielded != []
  }

  /** Unblocking a context that something else already woke does nothing. */
  function Unblock(s: Sched, c: Ctx, schedule: bool): Sched
    requires c in s.state && (schedule ==> s.scheduled.Some?)
  {
    if s.state[c] != Blocked then s
    else
      var s1 := s.(blocked := Without(s.blocked, c));
      if schedule then Dispatch(Preempt(s1), c)
      else s1.(state := s1.state[c := Yielded], yielded := s1.yielded + [c])
  }

  function UnblockAll(s: Sched, cs: seq<Ctx>): (t: Sched)
    requires forall c :: c in cs ==> c in s.state
    ensures t.state.Keys == s.state.Keys && t.scheduled == s.scheduled && t.config == s.config
    ensures |t.yielded| >= |s.yielded| && t.left == s.left && t.used == s.used
    decreases |cs|
  {
    if cs == [] then s else UnblockAll(Unblock(s, cs[0], false), cs[1..])
  }

  /** The inline poll of a direct yield: wakes what completed and clamps the budget. */
  function Poll(s: Sched, woken: seq<Ctx>): Sched
    requires forall c :: c in woken ==> c in s.state
  {
    var s1 := UnblockAll(s, woken);
    if s1.left > s1.config.ioPresentLimit then s1.(left := s1.config.ioPresentLimit) else s1
  }

  /** Whether a direct yield enters the kernel first: submissions always, completions every fourth time. */
  predicate Polls(s: Sched, submissions: bool, completions: bool) {
    s.config.ioPresentLimit > 0 && (submissions || (s.left % 4 == 0 && completions))
  }

  /** A budget the poll left empty would end the direct path, but the poll clamps to a positive limit. */
  function Yield(s: Sched, submissions: bool, completions: bool, woken: seq<Ctx>): Sched
    requires s.scheduled.Some? && forall c :: c in woken ==> c in s.state
  {
    if !DirectSwitch(s) then Preempt(s)
    else
      var s1 := if Polls(s, submissions, completions) then Poll(s, woken) else s;
      var next := s1.yielded[0];
      Dispatch(Preempt(s1.(yielded := s1.yielded[1..], left := s1.left - 1, used := s1.used + 1)), next)
  }

  function BlockSelf(s: Sched): Sched
    requires s.scheduled.Some?
  {
    if DirectSwitch(s) then
      var next := s.yielded[0];
      Dispatch(Park(s.(yielded := s.yielded[1..], left := s.left - 1, used := s.used + 1)), next)
    else Park(s)
  }

  function BlockOther(s: Sched, c: Ctx): Sched
    requires c in s.state && s.state[c] == Yielded
  {
    s.(state := s.state[c := Blocked], yielded := Without(s.yielded, c), blocked := s.blocked + [c])
  }

  function Exit(s: Sched): Sched
    requires s.scheduled.Some?
  {
    s.(state := s.state - {s.scheduled.value}, scheduled := None)
  }

  ghost predicate Next(s: Sched, t: Sched) {
    || (exists c :: c !in s.state && t == Enter(s, c))
    || (s.scheduled.None? && s.yielded != [] && t == Resume(s))
    || (s.scheduled.Some? && exists submissions, completions, woken ::
          (forall c :: c in woken ==> c in s.state) && t == Yield(s, submissions, completions, woken))
    || (s.scheduled.Some? && t == BlockSelf(s))
    || (exists c :: c in s.state && s.state[c] == Yielded && t == BlockOther(s, c))
    || (exists c, schedule :: c in s.state && (schedule ==> s.scheduled.Some?) && t == Unblock(s, c, schedule))
    || (s.scheduled.Some? && t == Exit(s))
  }

  // ---------------------------------------------------------------------------------------
  // Every context in exactly one place
  // ---------------------------------------------------------------------------------------

  /** The list holds, once each, exactly the live contexts with this status. */
  ghost predicate Lists(list: seq<Ctx>, state: map<Ctx, Status>, status: Status) {
    Once(list) && forall c :: c in list <==> c in state && state[c] == status
  }

  ghost predicate Partition(s: Sched) {
    && Lists(s.yielded, s.state, Yielded)
    && Lists(s.blocked, s.state, Blocked)
    && (forall c :: c in s.state && s.state[c] == Running <==> s.scheduled == Some(c))
    && s.used + s.left <= s.config.directYieldBudget
  }

  lemma {:induction false} WithoutOnce(s: seq<Ctx>, c: Ctx)
    requires Once(s)
    ensures Once(Without(s, c))
  {
    if s != [] {
      WithoutOnce(s[1..], c);
      assert forall x :: x in Without(s[1..], c) ==> x in s[1..];
      assert s[0] !in s[1..];
    }
  }

  lemma PreemptKeeps(s: Sched)
    requires Partition(s) && s.scheduled.Some?
    ensures Partition(Preempt(s))
    ensures Preempt(s).state == s.state[s.scheduled.value := Yielded]
  {
  }

  lemma DispatchKeeps(s: Sched, c: Ctx)
    requires Partition(s) && s.scheduled.None? && c !in s.state
    ensures Partition(Dispatch(s, c))
  {
  }

  /** Taking the first ready context off the list and running it. */
  lemma PopReadyKeeps(s: Sched)
    requires Partition(s) && s.scheduled.None? && s.yielded != []
    ensures Partition(Dispatch(s.(yielded := s.yielded[1..]), s.yielded[0]))
  {
    assert s.yielded[0] in s.yielded;
    assert s.yielded == [s.yielded[0]] + s.yielded[1..];
  }

  lemma ParkKeeps(s: Sched)
    requires Partition(s) && s.scheduled.Some?
    ensures Partition(Park(s))
  {
  }

  lemma UnblockKeeps(s: Sched, c: Ctx, schedule: bool)
    requires Partition(s) && c in s.state && (schedule ==> s.scheduled.Some?)
    ensures Partition(Unblock(s, c, schedule))
    ensures Unblock(s, c, schedule).state.Keys == s.state.Keys
  {
    WithoutOnce(s.blocked, c);
  }

  lemma {:induction false} UnblockAllKeeps(s: Sched, cs: seq<Ctx>)
    requires Partition(s) && forall c :: c in cs ==> c in s.state
    ensures Partition(UnblockAll(s, cs))
    decreases |cs|
  {
    if cs != [] {
      UnblockKeeps(s, cs[0], false);
      UnblockAllKeeps(Unblock(s, cs[0], false), cs[1..]);
    }
  }

  lemma DirectYieldKeeps(s: Sched)
    requires Partition(s) && s.scheduled.Some? && s.left > 0 && s.yielded != []
    ensures Partition(Dispatch(Preempt(s.(yielded := s.yielded[1..], left := s.left - 1, used := s.used + 1)), s.yielded[0]))
  {
    assert s.yielded[0] in s.yielded && s.yielded == [s.yielded[0]] + s.yielded[1..];
  }

  lemma YieldKeeps(s: Sched, submissions: bool, completions: bool, woken: seq<Ctx>)
    requires Partition(s) && s.scheduled.Some? && forall c :: c in woken ==> c in s.state
    ensures Partition(Yield(s, submissions, completions, woken))
  {
    if !DirectSwitch(s) {
      PreemptKeeps(s);
    } else {
      UnblockAllKeeps(s, woken);
      var s1 := if Polls(s, submissions, completions) then Poll(s, woken) else s;
      DirectYieldKeeps(s1);
    }
  }

  lemma BlockSelfKeeps(s: Sched)
    requires Partition(s) && s.scheduled.Some?
    ensures Partition(BlockSelf(s))
  {
    ParkKeeps(s);
    if DirectSwitch(s) {
      assert s.yielded[0] in s.yielded && s.yielded == [s.yielded[0]] + s.yielded[1..];
    }
  }

  lemma BlockOtherKeeps(s: Sched, c: Ctx)
    requires Partition(s) && c in s.state && s.state[c] == Yielded
    ensures Partition(BlockOther(s, c))
  {
    WithoutOnce(s.yielded, c);
  }

  lemma EnterKeeps(s: Sched, c: Ctx)
    requires Partition(s) && c !in s.state
    ensures Partition(Enter(s, c))
  {
    if s.scheduled.Some? {
      PreemptKeeps(s);
      DispatchKeeps(Preempt(s), c);
    } else {
      DispatchKeeps(s, c);
    }
  }

  lemma StepKeeps(s: Sched, t: Sched)
    requires Partition(s) && Next(s, t)
    ensures Partition(t)
  {
    hide Partition; hide Enter; hide Resume; hide Yield; hide BlockSelf; hide BlockOther; hide Unblock; hide Exit;
    if c :| c !in s.state && t == Enter(s, c) {
      EnterKeeps(s, c);
    } else if s.scheduled.None? && s.yielded != [] && t == Resume(s) {
      ResumeKeeps(s);
    } else if s.scheduled.Some? && exists submissions, completions, woken ::
        (forall c :: c in woken ==> c in s.state) && t == Yield(s, submissions, completions, woken)
    {
      var submissions, completions, woken :|
        (forall c :: c in woken ==> c in s.state) && t == Yield(s, submissions, completions, woken);
      YieldKeeps(s, submissions, completions, woken);
    } else if s.scheduled.Some? && t == BlockSelf(s) {
      BlockSelfKeeps(s);
    } else if c :| c in s.state && s.state[c] == Yielded && t == BlockOther(s, c) {
      BlockOtherKeeps(s, c);
    } else if s.scheduled.Some? && t == Exit(s) {
      ExitKeeps(s);
    } else {
      var c, schedule :| c in s.state && (schedule ==> s.scheduled.Some?) && t == Unblock(s, c, schedule);
      UnblockKeeps(s, c, schedule);
    }
  }

  lemma ConfigKept(s: Sched, t: Sched)
    requires Next(s, t)
    ensures t.config == s.config
  {
    hide UnblockAll; hide Without;
  }

  lemma ResumeKeeps(s: Sched)
    requires Partition(s) && s.scheduled.None? && s.yielded != []
    ensures Partition(Resume(s))
  {
    PopReadyKeeps(s.(left := s.config.directYieldBudget, used := 0));
  }

  lemma ExitKeeps(s: Sched)
    requires Partition(s) && s.scheduled.Some?
    ensures Partition(Exit(s))
  {
  }

  /**
   Over every run of spawns, resumes, yields, blocks, wakes and exits, direct switches included, each
   live context is running, in the ready list once, or in the blocked list once, as its state says,
   and at most the configured number of direct switches separates two resumes from the loop.
   */
  lemma PartitionOnEveryRun(config: Config, run: seq<Sched>, k: nat)
    requires IsRun(s => s == Init(config), Next, run) && k < |run|
    ensures Partition(run[k]) && run[k].used <= config.directYieldBudget
  {
    var inv := (s: Sched) => Partition(s) && s.config == config;
    forall s, t | inv(s) && Next(s, t) ensures inv(t) { StepKeeps(s, t); ConfigKept(s, t); }
    InvariantOnRun(s => s == Init(config), Next, inv, run, k);
  }

  // ---------------------------------------------------------------------------------------
  // The cooperator in memory
  // ---------------------------------------------------------------------------------------

  class Cooperator {
    const config: Config
    var state: map<Ctx, Status>
    var yielded: seq<Ctx>
    var blocked: seq<Ctx>
    var scheduled: Option<Ctx>
    var directYieldsRemaining: nat
    ghost var used: nat

    ghost function View(): Sched
      reads this
    {
      Sched(config, state, yielded, blocked, scheduled, directYieldsRemaining, used)
    }

    constructor (config: Config)
      ensures View() == Init(config)
    {
      this.config := config;
      state, yielded, blocked, scheduled, directYieldsRemaining, used := map[], [], [], None, 0, 0;
    }

    method RemoveFrom(list: seq<Ctx>, c: Ctx) returns (rest: seq<Ctx>)
      ensures rest == Without(list, c)
    {
      hide Without;
      rest := [];
      var i := 0;
      assert list[0..] == list && [] + Without(list, c) == Without(list, c);
      while i < |list|
        invariant i <= |list| && rest + Without(list[i..], c) == Without(list, c)
      {
        WithoutHead(list, i, c, rest);
        if list[i] != c { rest := rest + [list[i]]; }
        i := i + 1;
      }
      WithoutEnd(list, c, rest);
    }

    method EnterContext(c: Ctx)
      requires c !in state
      modifies this
      ensures View() == Enter(old(View()), c)
    {
      if scheduled.Some? {
        state := state[scheduled.value := Yielded];
        yielded := yielded + [scheduled.value];
        scheduled := None;
      }
      state := state[c := Running];
      scheduled := Some(c);
    }

    method ResumeNext()
      requires scheduled.None? && yielded != []
      modifies this
      ensures View() == Resume(old(View()))
    {
      var c := yielded[0];
      yielded := yielded[1..];
      state := state[c := Running];
      scheduled := Some(c);
      directYieldsRemaining := config.directYieldBudget;
      used := 0;
    }

    /** Back in the loop: the context that ran yielded, blocked or, with no status left, exited. */
    method HandleCooperatorResumption(status: Option<Status>)
      requires scheduled.Some? && status != Some(Running)
      modifies `state, `yielded, `blocked, `scheduled
      ensures View() == match status
                        case None => Exit(old(View()))
                        case Some(Yielded) => Preempt(old(View()))
                        case Some(Blocked) => Park(old(View()))
    {
      match status {
        case None => state := state - {scheduled.value};
        case Some(Yielded) =>
          state := state[scheduled.value := Yielded];
          yielded := yielded + [scheduled.value];
        case Some(Blocked) =>
          state := state[scheduled.value := Blocked];
          blocked := blocked + [scheduled.value];
      }
      scheduled := None;
    }

    method PollInline(woken: seq<Ctx>)
      requires forall c :: c in woken ==> c in state
      modifies this
      ensures View() == Poll(old(View()), woken)
    {
      ghost var start := View();
      var i := 0;
      while i < |woken|
        invariant 0 <= i <= |woken|
        invariant state.Keys == start.state.Keys
        invariant UnblockAll(View(), woken[i..]) == UnblockAll(start, woken)
      {
        assert woken[i..][1..] == woken[i + 1..] && woken[i] in woken;
        UnblockContext(woken[i], false);
        i := i + 1;
      }
      if directYieldsRemaining > config.ioPresentLimit {
        directYieldsRemaining := config.ioPresentLimit;
      }
    }

    method YieldFrom(submissions: bool, completions: bool, woken: seq<Ctx>)
      requires scheduled.Some? && forall c :: c in woken ==> c in state
      modifies this
      ensures View() == Yield(old(View()), submissions, completions, woken)
    {
      if config.directYield && directYieldsRemaining > 0 && yielded != [] {
        if config.ioPresentLimit > 0 && (submissions || (directYieldsRemaining % 4 == 0 && completions)) {
          PollInline(woken);
        }
        directYieldsRemaining := directYieldsRemaining - 1;
        used := used + 1;
        var c, next := scheduled.value, yielded[0];
        yielded := yielded[1..];
        state := state[c := Yielded];
        yielded := yielded + [c];
        state := state[next := Running];
        scheduled := Some(next);
        return;
      }
      HandleCooperatorResumption(Some(Yielded));
    }

    method Block(c: Ctx)
      requires c in state && (scheduled != Some(c) ==> state[c] == Yielded)
      modifies this
      ensures View() == if old(scheduled) == Some(c) then BlockSelf(old(View())) else BlockOther(old(View()), c)
    {
      if scheduled != Some(c) {
        state := state[c := Blocked];
        yielded := RemoveFrom(yielded, c);
        blocked := blocked + [c];
        return;
      }
      if config.directYield && directYieldsRemaining > 0 && yielded != [] {
        directYieldsRemaining := directYieldsRemaining - 1;
        used := used + 1;
        state := state[c := Blocked];
        blocked := blocked + [c];
        var next := yielded[0];
        yielded := yielded[1..];
        state := state[next := Running];
        scheduled := Some(next);
        return;
      }
      HandleCooperatorResumption(Some(Blocked));
    }

    method UnblockContext(c: Ctx, schedule: bool)
      requires c in state && (schedule ==> scheduled.Some?)
      modifies this
      ensures View() == Unblock(old(View()), c, schedule)
    {
      if state[c] != Blocked {
        return;
      }
      blocked := RemoveFrom(blocked, c);
      if !schedule {
        state := state[c := Yielded];
        yielded := yielded + [c];
        return;
      }
      var prev := scheduled.value;
      state := state[prev := Yielded];
      yielded := yielded + [prev];
      state := state[c := Running];
      scheduled := Some(c);
    }

    /**
     The debug build's walks over all contexts and over both lists: counts and states agree. On a
     partitioned state every one of their assertions holds.
     */
    method SanityCheck(contexts: seq<Ctx>) returns (ok: bool)
      requires Partition(View()) && Once(contexts) && Members(contexts) == state.Keys
      ensures ok
    {
      hide Lists;
      var ready, asleep := 0, 0;
      ok := true;
      for i := 0 to |contexts|
        invariant ok && ready == CountOf(contexts[..i], state, Yielded) && asleep == CountOf(contexts[..i], state, Blocked)
      {
        assert contexts[..i + 1][..i] == contexts[..i] && contexts[i] in Members(contexts);
        match state[contexts[i]] {
          case Yielded => ready := ready + 1;
          case Blocked => asleep := asleep + 1;
          case Running => ok := ok && scheduled == Some(contexts[i]);
        }
      }
      assert contexts[..|contexts|] == contexts;
      CountIsLength(contexts, yielded, state, Yielded);
      CountIsLength(contexts, blocked, state, Blocked);
      ok := ok && ready == |yielded| && asleep == |blocked|;
      var good := WalkList(yielded, Yielded, ready);
      ok := ok && good;
      good := WalkList(blocked, Blocked, asleep);
      ok := ok && good;
    }

    /** Counts down over a list and looks at every state. */
    method WalkList(list: seq<Ctx>, status: Status, count: nat) returns (ok: bool)
      requires Lists(list, state, status)
      ensures ok <==> count == |list|
    {
      ok := true;
      var left: int := count;
      for i := 0 to |list|
        invariant ok && left == count - i
      {
        left := left - 1;
        assert list[i] in list;
        ok := ok && state[list[i]] == status;
      }
      ok := ok && left == 0;
    }
  }

  lemma WithoutHead(list: seq<Ctx>, i: nat, c: Ctx, rest: seq<Ctx>)
    requires i < |list|
    ensures rest + Without(list[i..], c) == (if list[i] == c then rest else rest + [list[i]]) + Without(list[i + 1..], c)
  {
    assert list[i..][1..] == list[i + 1..];
  }

  lemma WithoutEnd(list: seq<Ctx>, c: Ctx, rest: seq<Ctx>)
    ensures rest + Without(list[|list|..], c) == rest
  {
  }

  /** How many of the contexts have the status. */
  function CountOf(cs: seq<Ctx>, state: map<Ctx, Status>, status: Status): nat {
    if cs == [] then 0
    else
      var c := cs[|cs| - 1];
      CountOf(cs[..|cs| - 1], state, status) + if c in state && state[c] == status then 1 else 0
  }

  function With(cs: seq<Ctx>, state: map<Ctx, Status>, status: Status): set<Ctx> {
    set c | c in cs && c in state && state[c] == status
  }

  lemma WithSnoc(cs: seq<Ctx>, c: Ctx, state: map<Ctx, Status>, status: Status)
    requires c !in cs
    ensures With(cs + [c], state, status) == With(cs, state, status) + if c in state && state[c] == status then {c} else {}
    ensures c !in With(cs, state, status)
  {
  }

  lemma OnceInit(cs: seq<Ctx>)
    requires Once(cs) && cs != []
    ensures var n := |cs| - 1; cs == cs[..n] + [cs[n]] && cs[n] !in cs[..n] && Once(cs[..n])
  {
  }

  lemma {:induction false} CountIsSize(cs: seq<Ctx>, state: map<Ctx, Status>, status: Status)
    requires Once(cs)
    ensures CountOf(cs, state, status) == |With(cs, state, status)|
  {
    hide With; hide Once;
    if cs == [] {
      WithNone(state, status);
    } else {
      var n := |cs| - 1;
      OnceInit(cs);
      CountIsSize(cs[..n], state, status);
      WithSnoc(cs[..n], cs[n], state, status);
    }
  }

  lemma WithNone(state: map<Ctx, Status>, status: Status)
    ensures With([], state, status) == {}
  {
  }

  lemma CountIsLength(cs: seq<Ctx>, list: seq<Ctx>, state: map<Ctx, Status>, status: Status)
    requires Once(cs) && Members(cs) == state.Keys && Lists(list, state, status)
    ensures CountOf(cs, state, status) == |list|
  {
    CountIsSize(cs, state, status);
    OnceCount(list);
    assert forall c :: c in state ==> c in Members(cs);
    assert With(cs, state, status) == Members(list);
  }

  function Members(list: seq<Ctx>): set<Ctx> {
    set c | c in list
  }

  lemma {:induction false} OnceCount(list: seq<Ctx>)
    requires Once(list)
    ensures |Members(list)| == |list|
  {
    if list == [] {
      assert Members(list) == {};
    } else {
      OnceCount(list[1..]);
      assert list[0] !in Members(list[1..]);
      assert Members(list) == Members(list[1..]) + {list[0]};
    }
  }
}
