/**
 The test-interrupt handshake of the edu driver, step by step and interleaved:
 any number of `test_irq_show` sessions, hard and threaded interrupt handlers
 and timer callbacks share one lock, the state bits, the device and the wait
 queue `irq_q`.
 */
module EduProtocol {
  import opened Common
  import opened EduDevice

  /**
   Where a session is. `stale` says that the time-out bit was already up when
   the session started to wait.
   */
  datatype SessionPc =
    | SLock
    | SEnter
    | SRaise
    | SSet
    | SArm(stale: bool)
    | SLoop(stale: bool)
    | SPrepare(stale: bool)
    | SCheckOk(stale: bool)
    | SCheckTimedOut(stale: bool)
    | SCheckShutdown(stale: bool)
    | SSleep(stale: bool)
    | SFinishWait(stale: bool)
    | SSignal(stale: bool)
    | SRelock(stale: bool)
    | SReport(stale: bool)
    | SClearWait
    | SClearOk
    | SClearTimedOut
    | SUnlock

  /** Where an interrupt handler is; `status` is what it has read. */
  datatype IrqPc =
    | HTryLock(status: set<nat>)
    | HRead
    | HLock(status: set<nat>)
    | HDelTimer(status: set<nat>)
    | HSetOk(status: set<nat>)
    | HAck(status: set<nat>)
    | HWake
    | HUnlock

  datatype TimerPc = TLock | TRead | TRegs | TSet | TWake | TUnlock

  datatype Pc = Idle | Session(sp: SessionPc) | Irq(hp: IrqPc) | Timer(tp: TimerPc) {
    /** The task owns the lock. */
    predicate Critical() {
      match this
      case Idle => false
      case Session(p) =>
        p.SEnter? || p.SRaise? || p.SSet? || p.SArm? || p.SLoop? || p.SReport? || p.SClearWait? || p.SClearOk?
        || p.SClearTimedOut? || p.SUnlock?
      case Irq(p) => p.HDelTimer? || p.HSetOk? || p.HAck? || p.HWake? || p.HUnlock?
      case Timer(p) => !p.TLock?
    }

    /** Between set-waiting and clear-waiting. */
    predicate Waits() {
      Session? &&
      (sp.SArm? || sp.SLoop? || sp.SPrepare? || sp.SCheckOk? || sp.SCheckTimedOut? || sp.SCheckShutdown?
       || sp.SSleep? || sp.SFinishWait? || sp.SSignal? || sp.SRelock? || sp.SReport? || sp.SClearWait?)
    }

    /** Between setting a bit that ends a wait and the wake-up. */
    predicate OwesWake() {
      (Irq? && (hp.HAck? || hp.HWake?)) || (Timer? && tp.TWake?)
    }

    predicate MayQueue() {
      Session? && (sp.SCheckOk? || sp.SCheckTimedOut? || sp.SCheckShutdown? || sp.SSleep? || sp.SFinishWait?)
    }

    /** The session has looked at the OK bit since it queued and found it clear. */
    predicate SawNotOk() {
      Session? && (sp.SCheckTimedOut? || sp.SCheckShutdown? || sp.SSleep?)
    }

    predicate SawNotTimedOut() {
      Session? && (sp.SCheckShutdown? || sp.SSleep?)
    }
  }

  /** `thread` says that the interrupt thread has been woken and not yet run. */
  datatype State = State(dev: Edu, lock: Option<nat>, thread: bool, queue: set<nat>, tasks: seq<Pc>)

  datatype Input = NoInput | BeginSession | BeginIrq | BeginThread | BeginTimer | Signal | ReadRegs(regs: Regs)

  ghost predicate Init(s: State) {
    && s.dev == Edu(false, false, false, false, {}, false)
    && s.lock == None && !s.thread && s.queue == {}
    && forall i :: 0 <= i < |s.tasks| ==> s.tasks[i] == Idle
  }

  function Move(s: State, t: nat, pc: Pc): State
    requires t < |s.tasks|
  {
    s.(tasks := s.tasks[t := pc])
  }

  /** Starts something on an idle task; an interrupt handler reads the status register at once. */
  function Begin(s: State, t: nat, a: Input): State
    requires t < |s.tasks|
  {
    match a
    case BeginSession => Move(s, t, Session(SLock))
    case BeginIrq => if Raised(s.dev.intr) then Move(s, t, Irq(HTryLock(s.dev.intr))) else s
    case BeginThread => if s.thread then Move(s, t, Irq(HRead)).(thread := false) else s
    case BeginTimer => if s.dev.timer then Move(s, t, Timer(TLock)).(dev := s.dev.(timer := false)) else s
    case _ => s
  }

  /** Takes the lock, or stays where it is while the lock is taken. */
  function Acquire(s: State, t: nat, pc: Pc): State
    requires t < |s.tasks|
  {
    if s.lock == None then Move(s, t, pc).(lock := Some(t)) else s
  }

  function Release(s: State, t: nat, pc: Pc): State
    requires t < |s.tasks|
  {
    Move(s, t, pc).(lock := None)
  }

  /** The steps of a session from the lock to the wait. */
  function EnterStep(s: State, t: nat, p: SessionPc): State
    requires t < |s.tasks|
  {
    match p
    case SLock => Acquire(s, t, Session(SEnter))
    case SEnter => Move(s, t, Session(if s.dev.shutdown || s.dev.waiting then SUnlock else SRaise))
    case SRaise => Move(s, t, Session(SSet)).(dev := s.dev.(intr := s.dev.intr + {TEST_BIT}))
    case SSet => Move(s, t, Session(SArm(s.dev.timedOut))).(dev := s.dev.(waiting := true))
    case SArm(z) => Move(s, t, Session(SLoop(z))).(dev := s.dev.(timer := true))
    case SLoop(z) =>
      if s.dev.Done() then Move(s, t, Session(SReport(z))) else Release(s, t, Session(SPrepare(z)))
    case _ => s
  }

  /** The steps of a session between dropping the lock and taking it again. */
  function WaitStep(s: State, t: nat, p: SessionPc, a: Input): State
    requires t < |s.tasks|
  {
    match p
    case SPrepare(z) => Move(s, t, Session(SCheckOk(z))).(queue := s.queue + {t})
    case SCheckOk(z) => Move(s, t, Session(if s.dev.ok then SFinishWait(z) else SCheckTimedOut(z)))
    case SCheckTimedOut(z) => Move(s, t, Session(if s.dev.timedOut then SFinishWait(z) else SCheckShutdown(z)))
    case SCheckShutdown(z) => Move(s, t, Session(if s.dev.shutdown then SFinishWait(z) else SSleep(z)))
    case SSleep(z) => if t !in s.queue || a == Signal then Move(s, t, Session(SFinishWait(z))) else s
    case SFinishWait(z) => Move(s, t, Session(SSignal(z))).(queue := s.queue - {t})
    case SSignal(z) => Move(s, t, if a == Signal then Idle else Session(SRelock(z)))
    case SRelock(z) => Acquire(s, t, Session(SLoop(z)))
    case _ => s
  }

  /** The steps of a session from its verdict on. */
  function FinishStep(s: State, t: nat, p: SessionPc): State
    requires t < |s.tasks|
  {
    match p
    case SReport(_) => Move(s, t, Session(SClearWait))
    case SClearWait => Move(s, t, Session(SClearOk)).(dev := s.dev.(waiting := false))
    case SClearOk => Move(s, t, Session(SClearTimedOut)).(dev := s.dev.(ok := false))
    case SClearTimedOut => Move(s, t, Session(SUnlock)).(dev := s.dev.(timedOut := false))
    case SUnlock => Release(s, t, Idle)
    case _ => s
  }

  function SessionStep(s: State, t: nat, p: SessionPc, a: Input): State
    requires t < |s.tasks|
  {
    if p.SLock? || p.SEnter? || p.SRaise? || p.SSet? || p.SArm? || p.SLoop? then EnterStep(s, t, p)
    else if p.SReport? || p.SClearWait? || p.SClearOk? || p.SClearTimedOut? || p.SUnlock? then FinishStep(s, t, p)
    else WaitStep(s, t, p, a)
  }

  function IrqStep(s: State, t: nat, p: IrqPc): State
    requires t < |s.tasks|
  {
    match p
    case HTryLock(r) =>
      if s.lock == None then Acquire(s, t, Irq(HDelTimer(r))) else Move(s, t, Idle).(thread := true)
    case HRead => Move(s, t, Irq(HLock(s.dev.intr)))
    case HLock(r) => Acquire(s, t, Irq(HDelTimer(r)))
    case HDelTimer(r) => Move(s, t, Irq(HSetOk(r))).(dev := s.dev.(timer := false))
    case HSetOk(r) => Move(s, t, Irq(HAck(r))).(dev := s.dev.(ok := true))
    case HAck(r) => Move(s, t, Irq(HWake)).(dev := s.dev.(intr := s.dev.intr - r))
    case HWake => Move(s, t, Irq(HUnlock)).(queue := {})
    case HUnlock => Release(s, t, Idle)
  }

  function TimerStep(s: State, t: nat, p: TimerPc, a: Input): State
    requires t < |s.tasks|
  {
    match p
    case TLock => Acquire(s, t, Timer(TRead))
    case TRead => Move(s, t, Timer(if Raised(s.dev.intr) then TUnlock else TRegs))
    case TRegs =>
      if !a.ReadRegs? then s
      else if a.regs.IrqSet() && a.regs.Busy() then Move(s, t, Timer(TUnlock)).(dev := s.dev.(timer := true))
      else Move(s, t, Timer(TSet))
    case TSet => Move(s, t, Timer(TWake)).(dev := s.dev.(timedOut := true))
    case TWake => Move(s, t, Timer(TUnlock)).(queue := {})
    case TUnlock => Release(s, t, Idle)
  }

  /** The next step of task `t`. */
  function TaskStep(s: State, t: nat, a: Input): State
    requires t < |s.tasks|
  {
    match s.tasks[t]
    case Idle => Begin(s, t, a)
    case Session(p) => SessionStep(s, t, p, a)
    case Irq(p) => IrqStep(s, t, p)
    case Timer(p) => TimerStep(s, t, p, a)
  }

  /** The device raises bits of its own, or the driver is being removed. */
  ghost predicate EnvStep(s: State, s': State) {
    || (exists bits :: s' == s.(dev := s.dev.(intr := s.dev.intr + bits)))
    || s' == s.(dev := s.dev.(shutdown := true))
  }

  ghost predicate Next(s: State, s': State) {
    EnvStep(s, s') || exists t: nat, a :: t < |s.tasks| && s' == TaskStep(s, t, a)
  }

  ghost predicate StepAt(run: seq<State>, k: nat) {
    k + 1 < |run| && Next(run[k], run[k + 1])
  }

  ghost predicate Run(run: seq<State>) {
    && 0 < |run| && Init(run[0])
    && forall k {:trigger StepAt(run, k)} :: 0 <= k < |run| - 1 ==> StepAt(run, k)
  }
}
