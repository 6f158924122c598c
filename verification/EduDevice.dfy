/**
 The state of the edu driver for one device: the state bits, the timer and the
 interrupt status register, and what each locked section does to them. The
 register is the set of its raised bits: a write to the RAISE register adds
 bits and a write to the ACK register clears the bits given.
 */
module EduDevice {
  import opened Common

  /** The bit of the interrupt status register that the driver raises itself. */
  const TEST_BIT: nat := 1

  datatype Edu = Edu(waiting: bool, ok: bool, timedOut: bool, shutdown: bool, intr: set<nat>, timer: bool) {
    predicate Done() {
      ok || timedOut || shutdown
    }

    /** Somebody waits whose interrupt has not been handled. */
    predicate Owed() {
      waiting && !ok
    }
  }

  /** `__qedu_is_irq_raised`: one of the low three bits is up. */
  predicate Raised(status: set<nat>) {
    0 in status || 1 in status || 2 in status
  }

  /** What `qedu_timeout` reads from the status and the DMA command registers. */
  datatype Regs = Regs(statusIrq: bool, dmaIrq: bool, statusBusy: bool, dmaBusy: bool) {
    predicate IrqSet() {
      statusIrq || dmaIrq
    }

    predicate Busy() {
      statusBusy || dmaBusy
    }
  }

  /** A session that may start raises its bit and starts to wait. */
  function Started(e: Edu): Edu {
    e.(intr := e.intr + {TEST_BIT}, waiting := true, timer := true)
  }

  function Handled(e: Edu, status: set<nat>): Edu {
    e.(timer := false, ok := true, intr := e.intr - status)
  }

  function Expired(e: Edu, regs: Regs): Edu {
    if Raised(e.intr) then e
    else if regs.IrqSet() && regs.Busy() then e.(timer := true)
    else e.(timedOut := true)
  }

  function Cleared(e: Edu): Edu {
    e.(waiting := false, ok := false, timedOut := false)
  }

  datatype Verdict = IrqOk | IrqFail | Cancelled | Busy

  /**
   The driver's object. What it promises is that nobody waits for an interrupt
   that the device no longer has: a session is owed its interrupt only while the
   bit it raised is still pending. Handlers keep that with any status they have
   read before they got the lock, and the timer never ends a wait that is owed
   its interrupt.
   */
  class QeduDevice {
    var waiting: bool
    var ok: bool
    var timedOut: bool
    var shutdown: bool
    var intr: set<nat>
    var timer: bool

    function Value(): Edu
      reads this
    {
      Edu(waiting, ok, timedOut, shutdown, intr, timer)
    }

    ghost predicate Valid()
      reads this
    {
      Value().Owed() ==> TEST_BIT in intr
    }

    constructor ()
      ensures Valid() && Value() == Edu(false, false, false, false, {}, false)
    {
      waiting, ok, timedOut, shutdown, intr, timer := false, false, false, false, {}, false;
    }

    /** `qedu_set_waiting_irq`: keeps the promise exactly for a caller that has raised its bit, or finds OK set. */
    method SetWaiting()
      modifies `waiting, `timer
      ensures Valid() <==> TEST_BIT in intr || ok
      ensures Value() == old(Value()).(waiting := true, timer := true)
    {
      waiting := true;
      timer := true;
    }

    /** `qedu_clear_waiting_irq`: nobody waits, and the next session finds no old result. */
    method ClearWaiting()
      modifies `waiting, `ok, `timedOut
      ensures Valid() && !waiting && (Value().Done() <==> shutdown)
      ensures Value() == Cleared(old(Value()))
    {
      waiting := false;
      ok := false;
      timedOut := false;
    }

    /**
     `__qedu_handle_irq`, with the status its caller has read. Whoever waits is
     served; of the pending bits exactly those in `status` are gone, so a bit
     raised after the status was read is still to come.
     */
    method HandleIrq(status: set<nat>)
      modifies `timer, `ok, `intr
      ensures Valid() && !Value().Owed() && Value().Done() && !timer
      ensures forall b :: b in intr <==> b in old(intr) && b !in status
      ensures Value() == Handled(old(Value()), status)
    {
      timer := false;
      ok := true;
      intr := intr - status;
    }

    /**
     `qedu_timeout` with the lock held; `wakes` is whether it wakes the waiters.
     It gives up only on a session that is owed nothing, it leaves one that is
     owed an interrupt as it is, and it rearms the timer only for a busy device.
     */
    method Timeout(regs: Regs) returns (wakes: bool)
      requires Valid()
      modifies `timer, `timedOut
      ensures Valid()
      ensures wakes ==> !Value().Owed() && timedOut
      ensures !wakes ==> timedOut == old(timedOut)
      ensures Value().Owed() ==> !wakes && timer == old(timer)
      ensures timer != old(timer) ==>
        timer && !wakes && (regs.statusIrq || regs.dmaIrq) && (regs.statusBusy || regs.dmaBusy)
      ensures !wakes && (forall b :: b in intr ==> 3 <= b) ==> timer
      ensures (exists b :: b in intr && b < 3) ==> !wakes && Value() == old(Value())
      ensures wakes <==>
        && (forall b :: b in intr ==> 3 <= b)
        && !((regs.statusIrq || regs.dmaIrq) && (regs.statusBusy || regs.dmaBusy))
      ensures Value() == Expired(old(Value()), regs)
    {
      wakes := false;
      if !Raised(intr) {
        if regs.IrqSet() && regs.Busy() {
          timer := true;
        } else {
          timedOut := true;
          wakes := true;
        }
      }
    }

    /**
     The first section of `test_irq_show`: one session at a time gets in, and it
     leaves its bit pending and the timer armed; all others change nothing.
     */
    method Enter() returns (v: Option<Verdict>)
      requires Valid()
      modifies `waiting, `timer, `intr
      ensures Valid() && old(intr) <= intr
      ensures v.None? ==> !old(waiting) && !shutdown && waiting && timer && intr == old(intr) + {1}
      ensures v.Some? ==> Value() == old(Value()) && (v.value == Cancelled <==> shutdown)
      ensures v == Some(Busy) ==> waiting
      ensures v != Some(IrqOk) && v != Some(IrqFail)
      ensures v.None? ==> Value() == Started(old(Value()))
    {
      if shutdown {
        return Some(Cancelled);
      }
      if waiting {
        return Some(Busy);
      }
      intr := intr + {TEST_BIT};
      SetWaiting();
      v := None;
    }

    /**
     The last section of `test_irq_show`, once the wait is over: a failure means
     a time-out or a shutdown, and the next session can get in.
     */
    method Finish() returns (v: Verdict)
      requires Valid() && Value().Done()
      modifies `waiting, `ok, `timedOut
      ensures Valid() && !waiting && (Value().Done() <==> shutdown)
      ensures v == IrqOk <==> old(ok)
      ensures v != IrqOk ==> v == IrqFail && (old(timedOut) || shutdown)
      ensures Value() == Cleared(old(Value()))
    {
      v := if ok then IrqOk else IrqFail;
      ClearWaiting();
    }

    /**
     A session whose interrupt comes while it waits: it gets in, the handler
     reads the status and serves it, and the device is left as it was found, with
     nothing pending and nobody waiting.
     */
    method Undisturbed() returns (v: Verdict)
      requires Valid() && !waiting && !Value().Done() && intr == {} && !timer
      modifies this
      ensures v == IrqOk && Value() == old(Value())
    {
      var refused := Enter();
      var status := intr;
      HandleIrq(status);
      assert intr == {};
      v := Finish();
    }
  }
}
