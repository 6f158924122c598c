/**
 Where the bytes are and who has to be woken: the part of the pipe's invariant
 that reads and writes keep.
 */
module PipeFlow {
  import opened PipeRing
  import opened PipeDevice
  import opened PipeProtocol
  import opened PipeBook

  predicate Empty(c: Config, d: Pipe) {
    Wrap(c.len, d.rp) == Wrap(c.len, d.wp)
  }

  predicate Full(c: Config, d: Pipe) {
    SpaceFree(c.len, Wrap(c.len, d.rp), Wrap(c.len, d.wp)) == 0
  }

  /** Some reader has moved `rp` and not yet woken the writers. */
  ghost predicate ReadOut(s: State) {
    exists i :: 0 <= i < |s.tasks| && s.tasks[i].pc.ReadPublished()
  }

  /** Some writer has moved `wp` and not yet woken the readers. */
  ghost predicate WriteOut(s: State) {
    exists i :: 0 <= i < |s.tasks| && s.tasks[i].pc.WritePublished()
  }

  /** Both pointers are inside the buffer, but for the instant before they wrap. */
  ghost predicate Pointers(c: Config, s: State) {
    && s.dev.rp <= c.len && s.dev.wp <= c.len
    && (s.dev.rp == c.len ==> HolderAt(s, Read(RdWrap)))
    && (s.dev.wp == c.len ==> HolderAt(s, Write(WrWrap)))
    && (s.dev.live.Some? ==> |s.dev.cells| == c.len)
  }

  predicate BeforeCopy(pc: Pc) {
    pc.Write? && !(pc.wp.WrAdvance? || pc.wp.WrWrap? || pc.wp.WrUnlock? || pc.wp.WrWake?)
  }

  /** What a task that holds the lock knows about the ring and about its own bytes. */
  ghost predicate TaskLocal(c: Config, d: Pipe, th: Task) {
    && (BeforeCopy(th.pc) ==> th.count == |th.data|)
    && (th.pc == Read(RdCopy) ==> d.rp != d.wp)
    && (th.pc == Read(RdAdvance) ==> d.rp != d.wp && Loaded(c, d, th.count, th.data))
    && (th.pc == Write(WrCopy) ==> SpaceFree(c.len, d.rp, d.wp) > 0)
    && (th.pc == Write(WrAdvance) ==>
          && Ready(c, d) && d.AsRing().Free() > 0
          && |th.data| <= d.AsRing().WriteCount(th.count)
          && d.wp + |th.data| <= c.len && th.data == d.cells[d.wp..d.wp + |th.data|])
  }

  /**
   A reader that has queued and not been woken, with no wake-up on its way: it
   sleeps only on an empty ring, and on its way to sleep either the ring is
   empty or what it has loaded so far will stop it.
   */
  ghost predicate WaitRead(c: Config, d: Pipe, out: bool, th: Task) {
    !th.runnable && !out ==>
      && (th.pc == Read(RdSleep) ==> Empty(c, d))
      && (th.pc == Read(RdCheck) ==>
            || Empty(c, d)
            || ((th.seenWp.Some? ==> th.seenWp.value == d.wp)
                && (th.seenRp.Some? ==> th.seenRp.value != d.wp)))
  }

  /** The same for a writer and a full ring, as long as no open has reset the ring. */
  ghost predicate WaitWrite(c: Config, d: Pipe, flushes: nat, out: bool, th: Task) {
    !th.runnable && th.since == flushes && !out ==>
      && (th.pc == Write(WrSleep) ==> Full(c, d))
      && (th.pc == Write(WrCheck) ==>
            || Full(c, d)
            || ((th.seenRp.Some? ==> th.seenRp.value == d.rp)
                && (th.seenWp.Some? ==> SpaceFree(c.len, d.rp, th.seenWp.value) != 0)))
  }

  ghost predicate TaskFlow(c: Config, s: State, th: Task) {
    && TaskLocal(c, s.dev, th)
    && WaitRead(c, s.dev, WriteOut(s), th)
    && WaitWrite(c, s.dev, s.flushes, ReadOut(s), th)
    && (OnQueue(th.pc, OutQ) ==> th.since <= s.flushes)
  }

  ghost predicate Flow(c: Config, s: State) {
    && Pointers(c, s)
    && forall i :: 0 <= i < |s.tasks| ==> TaskFlow(c, s, s.tasks[i])
  }

  lemma InitFlow(c: Config, s: State)
    requires Init(c, s)
    ensures Flow(c, s)
  {
  }

  // ----- The task that moves -----

  /** A pointer seen at `end` leaves no more space than the wrapped one. */
  lemma SpaceFreeAtEnd(len: nat, rp: nat, wp: nat)
    requires 2 <= len && rp < len && wp <= len
    requires SpaceFree(len, rp, wp) == 0
    ensures SpaceFree(len, rp, Wrap(len, wp)) == 0
  {
    if wp == len {
      ModOneLap(rp, len);
    }
  }

  lemma ReadControlWaits(c: Config, s: State, out: bool, th: Task, next: Task)
    requires ReadControl(c, s, th, next) && WaitRead(c, s.dev, out, th)
    ensures WaitRead(c, s.dev, out, next)
    ensures next.pc.Read? || next.pc.Idle?
    ensures next.pc.ReadPublished() <==> th.pc.ReadPublished()
  {
  }

  lemma ReadControlLocal(c: Config, s: State, th: Task, next: Task)
    requires ReadControl(c, s, th, next) && TaskLocal(c, s.dev, th)
    ensures TaskLocal(c, s.dev, next)
  {
    assert next.pc == Read(RdAdvance) ==> th.pc == Read(RdCopy);
    assert next.pc == Read(RdCopy) ==> s.dev.rp != s.dev.wp;
  }

  lemma WriteControlFlow(c: Config, s: State, out: bool, th: Task, next: Task)
    requires WriteControl(c, s, th, next) && TaskLocal(c, s.dev, th) && WaitWrite(c, s.dev, s.flushes, out, th)
    requires s.dev.rp <= c.len && s.dev.wp <= c.len
    requires !out ==> s.dev.rp < c.len
    ensures TaskLocal(c, s.dev, next) && WaitWrite(c, s.dev, s.flushes, out, next)
    ensures next.pc.Write? || next.pc.Idle?
    ensures next.pc.WritePublished() <==> th.pc.WritePublished()
    ensures OnQueue(next.pc, OutQ) ==> next.since == th.since || next.since == s.flushes
    ensures OnQueue(next.pc, OutQ) ==> OnQueue(th.pc, OutQ) || next.since == s.flushes
  {
    if th.pc == Write(WrCheck) && next.pc == Write(WrCheck) && next.seenWp != th.seenWp && !out {
      if SpaceFree(c.len, s.dev.rp, s.dev.wp) == 0 {
        SpaceFreeAtEnd(c.len, s.dev.rp, s.dev.wp);
      }
    }
  }
}
