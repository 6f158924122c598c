/** What holds in every run of the test-interrupt handshake, for any number of tasks. */
module EduTheorems {
  import opened Common
  import opened EduDevice
  import opened EduProtocol

  // ----- The invariant -----

  /** The lock is owned by exactly the task that is inside a locked section. */
  ghost predicate LockHeld(s: State) {
    && (forall i :: 0 <= i < |s.tasks| && s.tasks[i].Critical() ==> s.lock == Some(i))
    && (s.lock.Some? ==> s.lock.value < |s.tasks| && s.tasks[s.lock.value].Critical())
  }

  /** The owner of the lock still has to wake the queue. */
  ghost predicate WakeOwed(s: State) {
    s.lock.Some? && s.lock.value < |s.tasks| && s.tasks[s.lock.value].OwesWake()
  }

  /** What a task knows about the device from its own steps. */
  ghost predicate Knows(e: Edu, pc: Pc) {
    match pc
    case Idle => true
    case Session(p) =>
      && (pc.Waits() ==> e.waiting)
      && (p.SRaise? || p.SSet? || p.SClearOk? || p.SClearTimedOut? ==> !e.waiting)
      && (p.SSet? ==> TEST_BIT in e.intr)
      && (p.SReport? || p.SClearWait? ==> e.Done())
    case Irq(p) => p.HAck? || p.HWake? ==> e.ok
    case Timer(p) => p.TRegs? || p.TSet? || p.TWake? ==> !e.Owed()
  }

  /** A time-out that a session sees without an interrupt was there before it. */
  ghost predicate NoFreshTimeout(e: Edu, pc: Pc) {
    pc.Waits() && !pc.sp.SClearWait? && e.timedOut && !e.ok ==> pc.sp.stale
  }

  /** A queued session that missed a bit is about to be woken. */
  ghost predicate Attended(s: State, t: nat, pc: Pc) {
    t in s.queue ==>
      && pc.MayQueue()
      && (pc.SawNotOk() && s.dev.ok ==> WakeOwed(s))
      && (pc.SawNotTimedOut() && s.dev.timedOut ==> WakeOwed(s))
  }

  ghost predicate OneSession(s: State) {
    forall i, j :: 0 <= i < |s.tasks| && 0 <= j < |s.tasks| && s.tasks[i].Waits() && s.tasks[j].Waits() ==> i == j
  }

  ghost predicate Inv(s: State) {
    && LockHeld(s)
    && OneSession(s)
    && (s.dev.Owed() ==> TEST_BIT in s.dev.intr)
    && (forall i :: 0 <= i < |s.tasks| ==> Knows(s.dev, s.tasks[i]))
    && (forall i :: 0 <= i < |s.tasks| ==> NoFreshTimeout(s.dev, s.tasks[i]))
    && (forall i :: 0 <= i < |s.tasks| ==> Attended(s, i, s.tasks[i]))
    && (forall i :: i in s.queue ==> i < |s.tasks|)
  }

  // ----- What a step of one task means for the others -----

  /** Locking: nothing changes hands, `t` takes the free lock, or `t` drops it. */
  ghost predicate LockMove(s: State, t: nat, pc: Pc, pc': Pc, s': State) {
    || (s'.lock == s.lock && pc'.Critical() == pc.Critical())
    || (s.lock == None && s'.lock == Some(t) && pc'.Critical())
    || (s'.lock == None && pc.Critical() && !pc'.Critical())
  }

  /** Without the lock a task changes nothing that others rely on. */
  ghost predicate DevMove(e: Edu, pc: Pc, e': Edu) {
    && (!pc.Critical() ==>
          e'.waiting == e.waiting && e'.ok == e.ok && e'.timedOut == e.timedOut && e.shutdown == e'.shutdown
          && e.intr <= e'.intr)
    && (e.waiting && !e'.waiting ==> pc.Waits())
    && (e'.timedOut && !e'.ok && e'.waiting ==> e.timedOut && !e.ok)
    && (e'.timedOut && e.Owed() ==> e.timedOut)
    && (e'.Owed() ==> TEST_BIT in e'.intr)
  }

  /** A bit that ends a wait comes with a wake-up, and the wake-up empties the queue. */
  ghost predicate WakeMove(s: State, t: nat, pc: Pc, pc': Pc, s': State) {
    && s'.queue <= s.queue + {t}
    && (s'.queue != {} ==>
          && (s'.dev.ok ==> s.dev.ok || pc'.OwesWake())
          && (s'.dev.timedOut ==> s.dev.timedOut || pc'.OwesWake())
          && (pc.OwesWake() ==> pc'.OwesWake()))
  }

  /**
   A session starts to wait with the waiting bit, recording the time-out bit as
   it is then, and stops by clearing the bit or on a signal. If a bit that ends
   the wait is up it keeps the lock, and the bits, until it has reported.
   */
  ghost predicate SessionMove(e: Edu, pc: Pc, pc': Pc, e': Edu) {
    && (pc'.Waits() ==> pc.Waits() || (pc == Session(SSet) && pc' == Session(SArm(e.timedOut))))
    && (pc'.Waits() && pc.Waits() && !pc'.sp.SClearWait? ==> !pc.sp.SClearWait? && pc.sp.stale == pc'.sp.stale)
    && (e'.waiting && !e.waiting ==> pc'.Waits())
    && (pc.Waits() && !pc'.Waits() && e'.waiting ==> pc.sp.SSignal? && pc' == Idle)
    && (pc.Session? && pc.Critical() && e.Done() && pc'.Waits() ==>
          pc'.Critical() && e'.ok == e.ok && e'.timedOut == e.timedOut)
  }

  /** Task `t` moves to `pc'`, knowing what it has to know there. */
  ghost predicate Moves(s: State, t: nat, pc: Pc, pc': Pc, s': State) {
    && LockMove(s, t, pc, pc', s')
    && DevMove(s.dev, pc, s'.dev)
    && WakeMove(s, t, pc, pc', s')
    && SessionMove(s.dev, pc, pc', s'.dev)
    && Knows(s'.dev, pc')
    && NoFreshTimeout(s'.dev, pc')
    && Attended(s', t, pc')
  }

  lemma LockStays(s: State, t: nat, pc': Pc, s': State)
    requires LockHeld(s) && t < |s.tasks| && s'.tasks == s.tasks[t := pc'] && LockMove(s, t, s.tasks[t], pc', s')
    ensures LockHeld(s')
  {
  }

  lemma OneSessionStays(s: State, t: nat, pc': Pc, s': State)
    requires Inv(s) && t < |s.tasks| && s'.tasks == s.tasks[t := pc']
    requires pc'.Waits() ==> s.tasks[t].Waits() || !s.dev.waiting
    ensures OneSession(s')
  {
    forall i | 0 <= i < |s.tasks|
      ensures s.tasks[i].Waits() ==> s.dev.waiting
    {
      assert Knows(s.dev, s.tasks[i]);
    }
  }

  /** What another task knows stays true. */
  lemma OtherKnows(s: State, t: nat, pc': Pc, s': State, i: nat)
    requires Inv(s) && t < |s.tasks| && i < |s.tasks| && i != t
    requires DevMove(s.dev, s.tasks[t], s'.dev)
    ensures Knows(s'.dev, s.tasks[i]) && NoFreshTimeout(s'.dev, s.tasks[i])
  {
    var pc := s.tasks[i];
    assert Knows(s.dev, pc) && NoFreshTimeout(s.dev, pc);
    assert s.tasks[t].Critical() ==> !pc.Critical();
    assert s.tasks[t].Waits() ==> !pc.Waits();
  }

  lemma OtherAttended(s: State, t: nat, pc': Pc, s': State, i: nat)
    requires Inv(s) && t < |s.tasks| && i < |s.tasks| && i != t
    requires s'.tasks == s.tasks[t := pc'] && LockMove(s, t, s.tasks[t], pc', s') && LockHeld(s')
    requires WakeMove(s, t, s.tasks[t], pc', s')
    ensures Attended(s', i, s.tasks[i])
  {
    assert Attended(s, i, s.tasks[i]);
    assert pc'.OwesWake() ==> WakeOwed(s');
    assert WakeOwed(s) && s.lock != Some(t) ==> s'.lock == s.lock && WakeOwed(s');
  }

  lemma MoveKeepsInv(s: State, t: nat, pc': Pc, s': State)
    requires Inv(s) && t < |s.tasks| && s'.tasks == s.tasks[t := pc'] && Moves(s, t, s.tasks[t], pc', s')
    ensures Inv(s')
  {
    LockStays(s, t, pc', s');
    OneSessionStays(s, t, pc', s');
    forall i | 0 <= i < |s'.tasks|
      ensures Knows(s'.dev, s'.tasks[i]) && NoFreshTimeout(s'.dev, s'.tasks[i]) && Attended(s', i, s'.tasks[i])
    {
      if i != t {
        OtherKnows(s, t, pc', s', i);
        OtherAttended(s, t, pc', s', i);
      }
    }
  }

  // ----- Every step is such a move -----

  /** What the mover itself brings from the invariant. */
  ghost predicate Fit(s: State, t: nat) {
    && t < |s.tasks|
    && (s.tasks[t].Critical() <==> s.lock == Some(t))
    && (s.dev.Owed() ==> TEST_BIT in s.dev.intr)
    && Knows(s.dev, s.tasks[t]) && NoFreshTimeout(s.dev, s.tasks[t]) && Attended(s, t, s.tasks[t])
  }

  ghost predicate GoodMove(s: State, t: nat, s': State) {
    && t < |s.tasks|
    && (|| s' == s
        || (t < |s'.tasks| && s'.tasks == s.tasks[t := s'.tasks[t]] && Moves(s, t, s.tasks[t], s'.tasks[t], s')))
  }

  lemma BeginMoves(s: State, t: nat, a: Input)
    requires Fit(s, t) && s.tasks[t] == Idle
    ensures GoodMove(s, t, Begin(s, t, a))
  {
  }

  lemma EnterMoves(s: State, t: nat, p: SessionPc)
    requires Fit(s, t) && s.tasks[t] == Session(p)
    ensures GoodMove(s, t, EnterStep(s, t, p))
  {
  }

  lemma WaitMoves(s: State, t: nat, p: SessionPc, a: Input)
    requires Fit(s, t) && s.tasks[t] == Session(p)
    ensures GoodMove(s, t, WaitStep(s, t, p, a))
  {
  }

  lemma FinishMoves(s: State, t: nat, p: SessionPc)
    requires Fit(s, t) && s.tasks[t] == Session(p)
    ensures GoodMove(s, t, FinishStep(s, t, p))
  {
  }

  lemma IrqMoves(s: State, t: nat, p: IrqPc)
    requires Fit(s, t) && s.tasks[t] == Irq(p)
    ensures GoodMove(s, t, IrqStep(s, t, p))
  {
  }

  lemma TimerMoves(s: State, t: nat, p: TimerPc, a: Input)
    requires Fit(s, t) && s.tasks[t] == Timer(p)
    ensures GoodMove(s, t, TimerStep(s, t, p, a))
  {
  }

  lemma InvFits(s: State, t: nat)
    requires Inv(s) && t < |s.tasks|
    ensures Fit(s, t)
  {
  }

  lemma TaskMoves(s: State, t: nat, a: Input)
    requires Fit(s, t)
    ensures GoodMove(s, t, TaskStep(s, t, a))
  {
    match s.tasks[t]
    case Idle => BeginMoves(s, t, a);
    case Session(p) =>
      EnterMoves(s, t, p);
      WaitMoves(s, t, p, a);
      FinishMoves(s, t, p);
    case Irq(p) => IrqMoves(s, t, p);
    case Timer(p) => TimerMoves(s, t, p, a);
  }

  lemma EnvKeepsInv(s: State, s': State)
    requires Inv(s) && EnvStep(s, s')
    ensures Inv(s')
  {
    forall i | 0 <= i < |s.tasks|
      ensures Knows(s'.dev, s.tasks[i]) && NoFreshTimeout(s'.dev, s.tasks[i]) && Attended(s', i, s.tasks[i])
    {
      assert Knows(s.dev, s.tasks[i]) && NoFreshTimeout(s.dev, s.tasks[i]) && Attended(s, i, s.tasks[i]);
    }
  }

  lemma TaskKeepsInv(s: State, t: nat, a: Input)
    requires Inv(s) && t < |s.tasks|
    ensures Inv(TaskStep(s, t, a))
  {
    var s' := TaskStep(s, t, a);
    InvFits(s, t);
    TaskMoves(s, t, a);
    if s' != s {
      MoveKeepsInv(s, t, s'.tasks[t], s');
    }
  }

  lemma NextKeepsInv(s: State, s': State)
    requires Inv(s) && Next(s, s')
    ensures Inv(s')
  {
    if EnvStep(s, s') {
      EnvKeepsInv(s, s');
    } else {
      var t: nat, a :| t < |s.tasks| && s' == TaskStep(s, t, a);
      TaskKeepsInv(s, t, a);
    }
  }

  lemma InitInv(s: State)
    requires Init(s)
    ensures Inv(s)
  {
  }

  /** The invariant holds in every state of every run. */
  lemma {:induction false} RunInv(run: seq<State>, k: nat)
    requires Run(run) && k < |run|
    ensures Inv(run[k])
  {
    if k == 0 {
      InitInv(run[0]);
    } else {
      RunInv(run, k - 1);
      assert StepAt(run, k - 1);
      NextKeepsInv(run[k - 1], run[k]);
    }
  }

  // ----- Safety of the handshake -----

  ghost predicate Asleep(s: State, t: nat) {
    t < |s.tasks| && s.tasks[t].Session? && s.tasks[t].sp.SSleep? && t in s.queue
  }

  /** Whoever waits and has not been served still has its interrupt pending in the device. */
  lemma WaitingIsPending(run: seq<State>, k: nat)
    requires Run(run) && k < |run| && run[k].dev.waiting && !run[k].dev.ok
    ensures TEST_BIT in run[k].dev.intr
  {
    RunInv(run, k);
  }

  /** At most one session is between set-waiting and clear-waiting. */
  lemma OneSessionAtATime(run: seq<State>, k: nat, i: nat, j: nat)
    requires Run(run) && k < |run| && i < |run[k].tasks| && j < |run[k].tasks|
    requires run[k].tasks[i].Waits() && run[k].tasks[j].Waits()
    ensures i == j
  {
    RunInv(run, k);
  }

  /** A session asleep over a bit that ends its wait is about to be woken by the task that owns the lock. */
  lemma NoLostWakeup(run: seq<State>, k: nat, t: nat)
    requires Run(run) && k < |run| && Asleep(run[k], t) && (run[k].dev.ok || run[k].dev.timedOut)
    ensures WakeOwed(run[k])
  {
    RunInv(run, k);
    assert Attended(run[k], t, run[k].tasks[t]);
  }

  /** So a session that nobody is about to wake has no bit to see, and its interrupt is still to come. */
  lemma SleeperIsServed(run: seq<State>, k: nat, t: nat)
    requires Run(run) && k < |run| && Asleep(run[k], t) && !WakeOwed(run[k])
    ensures !run[k].dev.ok && !run[k].dev.timedOut && TEST_BIT in run[k].dev.intr
  {
    RunInv(run, k);
    assert Attended(run[k], t, run[k].tasks[t]) && Knows(run[k].dev, run[k].tasks[t]);
  }

  // ----- Time-outs -----

  ghost predicate SomeMove(s: State, s': State) {
    EnvStep(s, s') || exists t :: GoodMove(s, t, s')
  }

  /** Every step of a run is one of the environment, or a move of one task. */
  lemma StepMoves(run: seq<State>, k: nat)
    requires Run(run) && k + 1 < |run|
    ensures Inv(run[k]) && |run[k + 1].tasks| == |run[k].tasks| && SomeMove(run[k], run[k + 1])
  {
    RunInv(run, k);
    var s, s' := run[k], run[k + 1];
    assert StepAt(run, k);
    if !EnvStep(s, s') {
      var t: nat, a :| t < |s.tasks| && s' == TaskStep(s, t, a);
      InvFits(s, t);
      TaskMoves(s, t, a);
    }
  }

  /** The timer never gives up on a session that is owed an interrupt. */
  lemma NoTimeoutWhileOwed(run: seq<State>, k: nat)
    requires Run(run) && k + 1 < |run| && run[k].dev.Owed() && run[k + 1].dev.timedOut
    ensures run[k].dev.timedOut
  {
    StepMoves(run, k);
  }

  /** Task `t` started to wait at step `j` and has been waiting since. */
  ghost predicate WaitingSince(run: seq<State>, k: nat, t: nat, j: nat) {
    && j < k < |run| && t < |run[j].tasks| && run[j].tasks[t] == Session(SSet)
    && forall i :: j < i <= k ==> t < |run[i].tasks| && run[i].tasks[t].Waits()
  }

  /** A session's record of an old time-out is made when it starts to wait and then stays. */
  lemma {:induction false} StaleIsOld(run: seq<State>, k: nat, t: nat)
    requires Run(run) && k < |run| && t < |run[k].tasks|
    requires run[k].tasks[t].Waits() && !run[k].tasks[t].sp.SClearWait?
    ensures exists j: nat :: WaitingSince(run, k, t, j) && run[j].dev.timedOut == run[k].tasks[t].sp.stale
  {
    if k > 0 {
      var s, s' := run[k - 1], run[k];
      StepMoves(run, k - 1);
      if s.tasks[t] == Session(SSet) {
        assert WaitingSince(run, k, t, k - 1);
      } else {
        StaleIsOld(run, k - 1, t);
        var j: nat :| WaitingSince(run, k - 1, t, j) && run[j].dev.timedOut == s.tasks[t].sp.stale;
        assert WaitingSince(run, k, t, j);
      }
    }
  }

  /** Task `t` is in a session with the lock, and the two bits are as given. */
  ghost predicate Keeps(s: State, t: nat, ok: bool, timedOut: bool) {
    && t < |s.tasks| && s.tasks[t].Session? && s.tasks[t].Critical()
    && s.dev.ok == ok && s.dev.timedOut == timedOut
  }

  /** A session that holds the lock with a bit up goes on holding it with the bits as they are. */
  lemma BitsKept(s: State, s': State, t: nat, ok: bool, timedOut: bool)
    requires Inv(s) && SomeMove(s, s') && Keeps(s, t, ok, timedOut) && (ok || timedOut)
    requires t < |s'.tasks| && s'.tasks[t].Waits()
    ensures Keeps(s', t, ok, timedOut)
  {
    if !EnvStep(s, s') {
      var u: nat :| GoodMove(s, u, s');
      assert u != t && s.tasks[u].Critical() ==> s.lock == Some(u);
    }
  }

  lemma {:induction false} BitsSinceStart(run: seq<State>, k: nat, t: nat, j: nat)
    requires Run(run) && WaitingSince(run, k, t, j) && (run[j].dev.ok || run[j].dev.timedOut)
    ensures Keeps(run[k], t, run[j].dev.ok, run[j].dev.timedOut)
  {
    StepMoves(run, k - 1);
    if j + 1 < k {
      assert WaitingSince(run, k - 1, t, j);
      BitsSinceStart(run, k - 1, t, j);
    }
    BitsKept(run[k - 1], run[k], t, run[j].dev.ok, run[j].dev.timedOut);
  }

  /** A session that reports a failure without a shutdown has started with the time-out bit up. */
  lemma FailureWasTimedOut(run: seq<State>, k: nat, t: nat) returns (j: nat)
    requires Run(run) && k < |run| && t < |run[k].tasks|
    requires run[k].tasks[t].Session? && run[k].tasks[t].sp.SReport? && !run[k].dev.ok && !run[k].dev.shutdown
    ensures WaitingSince(run, k, t, j) && run[j].dev.timedOut
  {
    RunInv(run, k);
    assert Knows(run[k].dev, run[k].tasks[t]) && NoFreshTimeout(run[k].dev, run[k].tasks[t]);
    StaleIsOld(run, k, t);
    j :| WaitingSince(run, k, t, j) && run[j].dev.timedOut == run[k].tasks[t].sp.stale;
  }

  /**
   Exactly when a session reports a failure without a shutdown: when it started
   to wait, the time-out bit was up and the OK bit was not. Its own interrupt has
   no part in it.
   */
  lemma FailureIffOldTimeout(run: seq<State>, k: nat, t: nat)
    requires Run(run) && k < |run| && t < |run[k].tasks|
    requires run[k].tasks[t].Session? && run[k].tasks[t].sp.SReport? && !run[k].dev.shutdown
    ensures !run[k].dev.ok <==>
              exists j: nat :: WaitingSince(run, k, t, j) && run[j].dev.timedOut && !run[j].dev.ok
  {
    if !run[k].dev.ok {
      var j := FailureWasTimedOut(run, k, t);
      BitsSinceStart(run, k, t, j);
    }
    if j: nat :| WaitingSince(run, k, t, j) && run[j].dev.timedOut && !run[j].dev.ok {
      BitsSinceStart(run, k, t, j);
    }
  }

  // ----- The locked sections as a whole -----

  /** Task `t` takes one step, whatever the input. */
  ghost predicate Steps(s: State, t: nat, s': State) {
    t < |s.tasks| && exists a :: s' == TaskStep(s, t, a)
  }

  /** Step by step, a handler does to the device what `__qedu_handle_irq` does as a whole. */
  lemma HandlerSection(s: State, t: nat, status: set<nat>, s1: State, s2: State, s3: State, s4: State)
    requires t < |s.tasks| && s.tasks[t] == Irq(HDelTimer(status))
    requires Steps(s, t, s1) && Steps(s1, t, s2) && Steps(s2, t, s3) && Steps(s3, t, s4)
    ensures s4.dev == Handled(s.dev, status) && s4.queue == {} && s4.tasks[t] == Irq(HUnlock)
  {
    assert s1.tasks[t] == Irq(HSetOk(status));
    assert s2.tasks[t] == Irq(HAck(status));
    assert s3.tasks[t] == Irq(HWake);
  }

  /** A session starts to wait as `qedu_set_waiting_irq` says, after raising its bit. */
  lemma StartSection(s: State, t: nat, s1: State, s2: State, s3: State)
    requires t < |s.tasks| && s.tasks[t] == Session(SRaise)
    requires Steps(s, t, s1) && Steps(s1, t, s2) && Steps(s2, t, s3)
    ensures s3.dev == Started(s.dev) && s3.tasks[t] == Session(SLoop(s.dev.timedOut))
  {
    assert s1.tasks[t] == Session(SSet);
    assert s2.tasks[t] == Session(SArm(s.dev.timedOut));
  }

  /** A session ends its wait as `qedu_clear_waiting_irq` says. */
  lemma ClearSection(s: State, t: nat, s1: State, s2: State, s3: State)
    requires t < |s.tasks| && s.tasks[t] == Session(SClearWait)
    requires Steps(s, t, s1) && Steps(s1, t, s2) && Steps(s2, t, s3)
    ensures s3.dev == Cleared(s.dev) && s3.tasks[t] == Session(SUnlock)
  {
    assert s1.tasks[t] == Session(SClearOk);
    assert s2.tasks[t] == Session(SClearTimedOut);
  }

  /** An interrupt has one of the low three bits up: then a handler starts with the status, and otherwise none does. */
  lemma InterruptStarts(s: State, t: nat)
    requires t < |s.tasks| && s.tasks[t] == Idle
    ensures (exists b :: b in s.dev.intr && b < 3) ==>
              TaskStep(s, t, BeginIrq) == s.(tasks := s.tasks[t := Irq(HTryLock(s.dev.intr))])
    ensures (forall b :: b in s.dev.intr ==> 3 <= b) ==> TaskStep(s, t, BeginIrq) == s
  {
  }

  /** A hard handler that does not get the lock leaves the interrupt to the thread, which reads the status itself. */
  lemma InterruptNotDropped(s: State, t: nat, status: set<nat>, a: Input)
    requires t < |s.tasks| && s.tasks[t] == Irq(HTryLock(status))
    ensures var s' := TaskStep(s, t, a);
            if s.lock.None? then s'.lock == Some(t) && s'.tasks[t] == Irq(HDelTimer(status)) && s'.thread == s.thread
            else s'.thread && s'.lock == s.lock && s'.tasks[t] == Idle
  {
  }

  lemma ThreadServes(s: State, t: nat, s1: State, s2: State)
    requires t < |s.tasks| && s.tasks[t] == Idle && s.thread && s1 == TaskStep(s, t, BeginThread)
    requires t < |s1.tasks| && s2 == TaskStep(s1, t, NoInput)
    ensures !s1.thread && s2.tasks[t] == Irq(HLock(s.dev.intr)) && s2.dev == s.dev
  {
  }

  /** Only its own thread takes up an interrupt that was left to it. */
  lemma ThreadStaysWoken(s: State, t: nat, a: Input)
    requires t < |s.tasks| && s.thread && !(s.tasks[t] == Idle && a == BeginThread)
    ensures TaskStep(s, t, a).thread
  {
  }

  /** Who gets in, and when a session goes to wait, is decided by the bits alone. */
  lemma SessionDecides(s: State, t: nat, a: Input)
    requires t < |s.tasks| && s.tasks[t].Session?
    ensures var s', p := TaskStep(s, t, a), s.tasks[t].sp;
            && (p.SEnter? ==> s'.tasks[t] == Session(if s.dev.shutdown || s.dev.waiting then SUnlock else SRaise))
            && (p.SLoop? && (s.dev.ok || s.dev.timedOut || s.dev.shutdown) ==>
                  s'.tasks[t] == Session(SReport(p.stale)) && s'.lock == s.lock)
            && (p.SLoop? && !s.dev.ok && !s.dev.timedOut && !s.dev.shutdown ==>
                  s'.tasks[t] == Session(SPrepare(p.stale)) && s'.lock == None)
            && (p.SSleep? && (t !in s.queue || a == Signal) ==> s'.tasks[t] == Session(SFinishWait(p.stale)))
            && (p.SSignal? ==> s'.tasks[t] == if a == Signal then Idle else Session(SRelock(p.stale)))
            && (p.SRelock? && s.lock.None? ==> s'.tasks[t] == Session(SLoop(p.stale)) && s'.lock == Some(t))
  {
  }

  /** The unlocked check of a session puts it to sleep exactly if none of the three bits is up. */
  lemma CheckSection(s: State, t: nat, z: bool, s1: State, s2: State, s3: State)
    requires t < |s.tasks| && s.tasks[t] == Session(SCheckOk(z))
    requires Steps(s, t, s1)
    requires !s.dev.ok ==> Steps(s1, t, s2)
    requires !s.dev.ok && !s.dev.timedOut ==> Steps(s2, t, s3)
    ensures s.dev.ok ==> s1.tasks[t] == Session(SFinishWait(z))
    ensures !s.dev.ok && s.dev.timedOut ==> s2.tasks[t] == Session(SFinishWait(z))
    ensures !s.dev.ok && !s.dev.timedOut ==>
              s3.tasks[t] == Session(if s.dev.shutdown then SFinishWait(z) else SSleep(z))
  {
  }

  /** The timer callback does to the device what `qedu_timeout` does as a whole. */
  lemma TimerSection(s: State, t: nat, regs: Regs, s1: State, s2: State, s3: State)
    requires t < |s.tasks| && s.tasks[t] == Timer(TRead) && s1 == TaskStep(s, t, NoInput)
    requires t < |s1.tasks| && s2 == TaskStep(s1, t, ReadRegs(regs))
    requires t < |s2.tasks| && s3 == TaskStep(s2, t, NoInput)
    ensures (exists b :: b in s.dev.intr && b < 3) ==>
              s1.dev == s.dev == Expired(s.dev, regs) && s1.tasks[t] == Timer(TUnlock)
    ensures (forall b :: b in s.dev.intr ==> 3 <= b) && (regs.statusIrq || regs.dmaIrq)
            && (regs.statusBusy || regs.dmaBusy) ==>
              s2.dev == s.dev.(timer := true) == Expired(s.dev, regs) && s2.tasks[t] == Timer(TUnlock)
    ensures (forall b :: b in s.dev.intr ==> 3 <= b) && !((regs.statusIrq || regs.dmaIrq)
            && (regs.statusBusy || regs.dmaBusy)) ==>
              s3.dev == s.dev.(timedOut := true) == Expired(s.dev, regs) && s3.tasks[t] == Timer(TWake)
  {
    assert s1.tasks[t] == Timer(if Raised(s.dev.intr) then TUnlock else TRegs);
  }

  // ----- What starts a callback or the interrupt thread -----

  /** A callback of the timer starts in step `k`. */
  ghost predicate TimerFires(run: seq<State>, k: nat) {
    && k + 1 < |run| && |run[k].tasks| == |run[k + 1].tasks|
    && exists t: nat :: t < |run[k].tasks| && run[k].tasks[t] == Idle && run[k + 1].tasks[t].Timer?
  }

  /** A session, or a callback that found the device busy, arms the timer in step `k`. */
  ghost predicate TimerArmed(run: seq<State>, k: nat) {
    && k + 1 < |run| && !run[k].dev.timer && run[k + 1].dev.timer
    && exists t: nat :: t < |run[k].tasks| &&
                        ((run[k].tasks[t].Session? && run[k].tasks[t].sp.SArm?) || run[k].tasks[t] == Timer(TRegs))
  }

  /** The interrupt thread starts in step `k`. */
  ghost predicate ThreadStarts(run: seq<State>, k: nat) {
    && k + 1 < |run| && |run[k].tasks| == |run[k + 1].tasks|
    && exists t: nat :: t < |run[k].tasks| && run[k].tasks[t] == Idle && run[k + 1].tasks[t] == Irq(HRead)
  }

  /** A hard handler that did not get the lock wakes the interrupt thread in step `k`. */
  ghost predicate ThreadWoken(run: seq<State>, k: nat) {
    && k + 1 < |run| && !run[k].thread && run[k + 1].thread && run[k].lock.Some?
    && exists t: nat :: t < |run[k].tasks| && run[k].tasks[t].Irq? && run[k].tasks[t].hp.HTryLock?
  }

  /** What takes task `i` out of idleness is its own first step. */
  lemma BeginsItself(run: seq<State>, k: nat, i: nat) returns (a: Input)
    requires Run(run) && k + 1 < |run| && i < |run[k].tasks| == |run[k + 1].tasks|
    requires run[k].tasks[i] == Idle && run[k + 1].tasks[i] != Idle
    ensures run[k + 1] == Begin(run[k], i, a)
  {
    RunInv(run, k);
    assert StepAt(run, k);
    var t: nat;
    t, a :| t < |run[k].tasks| && run[k + 1] == TaskStep(run[k], t, a);
    InvFits(run[k], t);
    TaskMoves(run[k], t, a);
    assert i == t;
  }

  lemma FiringDisarms(run: seq<State>, k: nat)
    requires Run(run) && TimerFires(run, k)
    ensures run[k].dev.timer && !run[k + 1].dev.timer
  {
    var i: nat :| i < |run[k].tasks| && run[k].tasks[i] == Idle && run[k + 1].tasks[i].Timer?;
    var a := BeginsItself(run, k, i);
  }

  lemma StartingIsOnce(run: seq<State>, k: nat)
    requires Run(run) && ThreadStarts(run, k)
    ensures run[k].thread && !run[k + 1].thread
  {
    var i: nat :| i < |run[k].tasks| && run[k].tasks[i] == Idle && run[k + 1].tasks[i] == Irq(HRead);
    var a := BeginsItself(run, k, i);
  }

  lemma SessionArmsNothing(s: State, t: nat, p: SessionPc, a: Input)
    requires t < |s.tasks| && !s.dev.timer && !p.SArm?
    ensures !SessionStep(s, t, p, a).dev.timer
  {
    assert !EnterStep(s, t, p).dev.timer && !WaitStep(s, t, p, a).dev.timer && !FinishStep(s, t, p).dev.timer;
  }

  lemma ArmsNothing(s: State, t: nat, a: Input)
    requires t < |s.tasks| && !s.dev.timer && s.tasks[t] != Timer(TRegs)
    requires !(s.tasks[t].Session? && s.tasks[t].sp.SArm?)
    ensures !TaskStep(s, t, a).dev.timer
  {
    match s.tasks[t]
    case Idle => assert !Begin(s, t, a).dev.timer;
    case Session(p) => SessionArmsNothing(s, t, p, a);
    case Irq(p) => assert !IrqStep(s, t, p).dev.timer;
    case Timer(p) => assert !TimerStep(s, t, p, a).dev.timer;
  }

  lemma WakesThread(s: State, t: nat, a: Input)
    requires t < |s.tasks| && !s.thread && TaskStep(s, t, a).thread
    ensures s.lock.Some? && s.tasks[t].Irq? && s.tasks[t].hp.HTryLock?
  {
  }

  lemma {:induction false} ArmedBetween(run: seq<State>, i: nat, j: nat)
    requires Run(run) && i <= j < |run| && !run[i].dev.timer && run[j].dev.timer
    ensures exists k :: i <= k < j && TimerArmed(run, k)
    decreases j
  {
    if run[j - 1].dev.timer {
      ArmedBetween(run, i, j - 1);
    } else {
      assert StepAt(run, j - 1);
      var t: nat, a :| t < |run[j - 1].tasks| && run[j] == TaskStep(run[j - 1], t, a);
      if !TimerArmed(run, j - 1) {
        ArmsNothing(run[j - 1], t, a);
      }
    }
  }

  lemma {:induction false} WokenBetween(run: seq<State>, i: nat, j: nat)
    requires Run(run) && i <= j < |run| && !run[i].thread && run[j].thread
    ensures exists k :: i <= k < j && ThreadWoken(run, k)
    decreases j
  {
    if run[j - 1].thread {
      WokenBetween(run, i, j - 1);
    } else {
      assert StepAt(run, j - 1);
      var t: nat, a :| t < |run[j - 1].tasks| && run[j] == TaskStep(run[j - 1], t, a);
      WakesThread(run[j - 1], t, a);
      assert ThreadWoken(run, j - 1);
    }
  }

  /** No callback without an arming of its own: one before the first, one between any two. */
  lemma OneCallbackPerArming(run: seq<State>, i: nat, j: nat)
    requires Run(run) && TimerFires(run, j) && (i < j ==> TimerFires(run, i))
    ensures exists k: nat :: k < j && TimerArmed(run, k)
    ensures i < j ==> exists k :: i < k < j && TimerArmed(run, k)
  {
    FiringDisarms(run, j);
    ArmedBetween(run, 0, j);
    if i < j {
      FiringDisarms(run, i);
      ArmedBetween(run, i + 1, j);
    }
  }

  /** The thread runs once for each time a hard handler left it an interrupt, and never unasked. */
  lemma OneThreadPerWake(run: seq<State>, i: nat, j: nat)
    requires Run(run) && ThreadStarts(run, j) && (i < j ==> ThreadStarts(run, i))
    ensures exists k: nat :: k < j && ThreadWoken(run, k)
    ensures i < j ==> exists k :: i < k < j && ThreadWoken(run, k)
  {
    StartingIsOnce(run, j);
    WokenBetween(run, 0, j);
    if i < j {
      StartingIsOnce(run, i);
      WokenBetween(run, i + 1, j);
    }
  }

  // ----- Nobody is stuck -----

  /** What a task may have to wait for: the lock, or a wake-up. */
  ghost predicate Unhindered(s: State, t: nat) {
    && t < |s.tasks| && !s.tasks[t].Idle?
    && (s.tasks[t].Session? && (s.tasks[t].sp.SLock? || s.tasks[t].sp.SRelock?) ==> s.lock.None?)
    && (s.tasks[t].Irq? && s.tasks[t].hp.HLock? ==> s.lock.None?)
    && (s.tasks[t].Timer? && s.tasks[t].tp.TLock? ==> s.lock.None?)
    && (s.tasks[t].Session? && s.tasks[t].sp.SSleep? ==> t !in s.queue)
  }

  /** Where a session, a handler or a callback comes to its end, without a signal. */
  predicate MayEnd(s: State, pc: Pc) {
    || (pc.Session? && pc.sp.SUnlock?) || (pc.Timer? && pc.tp.TUnlock?)
    || (pc.Irq? && (pc.hp.HUnlock? || (pc.hp.HTryLock? && s.lock.Some?)))
  }

  /** Every task but an idle one can go on, unless it waits for the lock or sleeps in the queue. */
  lemma NobodyStuck(s: State, t: nat)
    requires Unhindered(s, t)
    ensures var s' := TaskStep(s, t, ReadRegs(Regs(false, false, false, false)));
            |s'.tasks| == |s.tasks| && s'.tasks[t] != s.tasks[t] && (s'.tasks[t] == Idle ==> MayEnd(s, s.tasks[t]))
  {
  }

  // ----- A session that a signal ends -----

  /** The waiting bit is up and nobody is waiting: no session can ever clear it. */
  ghost predicate Abandoned(s: State) {
    s.dev.waiting && forall i :: 0 <= i < |s.tasks| ==> !s.tasks[i].Waits()
  }

  lemma AbandonedMove(s: State, t: nat, s': State)
    requires Inv(s) && GoodMove(s, t, s')
    ensures Abandoned(s) ==> Abandoned(s')
    ensures !Abandoned(s) && Abandoned(s') ==>
              s.tasks[t].Session? && s.tasks[t].sp.SSignal? && s'.tasks == s.tasks[t := Idle]
  {
    assert Knows(s.dev, s.tasks[t]);
    assert forall i :: 0 <= i < |s.tasks| && i != t ==> s'.tasks[i] == s.tasks[i];
    if s' != s && !Abandoned(s) && Abandoned(s') && s.dev.waiting {
      assert s.tasks[t].Waits();
    }
  }

  /** A step abandons the device if and only if it is a session returning on a signal. */
  lemma AbandonedBySignal(s: State, t: nat, a: Input)
    requires Inv(s) && t < |s.tasks| && !Abandoned(s)
    ensures Abandoned(TaskStep(s, t, a)) <==> s.tasks[t].Session? && s.tasks[t].sp.SSignal? && a == Signal
  {
    InvFits(s, t);
    TaskMoves(s, t, a);
    AbandonedMove(s, t, TaskStep(s, t, a));
    if s.tasks[t].Session? && s.tasks[t].sp.SSignal? {
      assert s.tasks[t].Waits();
      assert TaskStep(s, t, a) == WaitStep(s, t, s.tasks[t].sp, a);
    }
  }

  /** Once abandoned, always abandoned, and every later session is turned away at once. */
  lemma {:induction false} AbandonedForever(run: seq<State>, i: nat, k: nat, t: nat)
    requires Run(run) && i <= k < |run| && Abandoned(run[i]) && t < |run[k].tasks|
    ensures Abandoned(run[k])
    ensures run[k].tasks[t] == Session(SEnter) ==> TaskStep(run[k], t, NoInput).tasks[t] == Session(SUnlock)
  {
    if i < k {
      StepMoves(run, k - 1);
      AbandonedForever(run, i, k - 1, t);
      var s, s' := run[k - 1], run[k];
      if !EnvStep(s, s') {
        var u :| GoodMove(s, u, s');
        AbandonedMove(s, u, s');
      }
    }
  }
}
