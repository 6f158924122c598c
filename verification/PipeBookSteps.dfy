/** Every step of the pipe keeps the books. */
module PipeBookSteps {
  import opened Common
  import opened PipeProtocol
  import opened PipeBook

  // ----- Steps that leave the books alone -----

  /** The counts, the buffer and the files are the same. */
  ghost predicate SameBooks(s: State, u: State) {
    && u.dev.live == s.dev.live && u.dev.allocations == s.dev.allocations
    && u.dev.readers == s.dev.readers && u.dev.writers == s.dev.writers
    && u.files == s.files && u.nextFid == s.nextFid && u.nomem == s.nomem
    && u.readTokens == s.readTokens && u.writeTokens == s.writeTokens
  }

  lemma TaskBookKept(c: Config, s: State, u: State, th: Task, next: Task)
    requires TaskBook(c, s, th) && SameBooks(s, u) && SameButWoken(th, next)
    ensures TaskBook(c, u, next)
  {
  }

  lemma TaskBookMilder(c: Config, s: State, u: State, th: Task, next: Task)
    requires TaskBook(c, s, th) && SameBooks(s, u) && Milder(c, s, th, next)
    requires next.pc.Opened? && s.dev.live.None? ==> s.nomem
    ensures TaskBook(c, u, next)
  {
  }

  lemma MilderKeepsTasks(c: Config, s: State, t: nat, next: Task, s': State)
    requires Book(c, s) && OneMoves(s, t, next, s') && SameBooks(s, s') && Milder(c, s, s.tasks[t], next)
    ensures forall i :: 0 <= i < |s'.tasks| ==> TaskBook(c, s', s'.tasks[i])
  {
    forall i | 0 <= i < |s.tasks|
      ensures TaskBook(c, s', s'.tasks[i])
    {
      assert TaskBook(c, s, s.tasks[i]);
      if i == t {
        TaskBookMilder(c, s, s', s.tasks[t], next);
      } else {
        TaskBookKept(c, s, s', s.tasks[i], s'.tasks[i]);
      }
    }
  }

  /** One task makes a mild move and others may be woken; the ring may change. */
  lemma MilderKeepsBook(c: Config, s: State, t: nat, next: Task, s': State)
    requires Book(c, s) && OneMoves(s, t, next, s') && SameBooks(s, s') && Milder(c, s, s.tasks[t], next)
    ensures Book(c, s')
  {
    LockKept(s, t, next, s');
    OwnersKept(s, t, next, s');
    MilderKeepsTasks(c, s, t, next, s');
    if HolderAt(s, Fifo(FifoAlloc)) {
      HolderKept(s, t, next, s', Fifo(FifoAlloc));
    }
    if HolderAt(s, Fifo(FifoWake)) {
      HolderKept(s, t, next, s', Fifo(FifoWake));
    }
  }

  lemma ControlKeepsBook(c: Config, s: State, t: nat, next: Task, s': State)
    requires Book(c, s) && t < |s.tasks| && ControlStep(c, s, t, next, s')
    ensures Book(c, s')
  {
    if OpenControl(c, s, s.tasks[t], next) {
      OpenControlIsMilder(c, s, s.tasks[t], next);
    } else if ReadControl(c, s, s.tasks[t], next) {
      ReadControlIsMilder(c, s, s.tasks[t], next);
    } else {
      WriteControlIsMilder(c, s, s.tasks[t], next);
    }
    MilderKeepsBook(c, s, t, next, s');
  }

  lemma ReadingIsMild(c: Config, s: State, t: nat, a: Action, s': State)
    requires Step(c, s, t, a, s') && (a.ReadAdvance? || a.ReadWrap? || a.WakeWriters?)
    ensures OneMoves(s, t, s'.tasks[t], s') && SameBooks(s, s') && Milder(c, s, s.tasks[t], s'.tasks[t])
  {
  }

  lemma WritingIsMild(c: Config, s: State, t: nat, a: Action, s': State)
    requires Step(c, s, t, a, s')
    requires a.CopyIn? || a.CopyFault? || a.WriteAdvance? || a.WriteWrap? || a.WakeReaders?
    ensures OneMoves(s, t, s'.tasks[t], s') && SameBooks(s, s') && Milder(c, s, s.tasks[t], s'.tasks[t])
  {
  }

  // ----- Steps that change the books -----

  /** `th` finds in `s'` what it relied on in `s`. */
  ghost predicate Undisturbed(s: State, s': State, th: Task) {
    && s.nextFid <= s'.nextFid
    && (Owning(th) ==>
          && (th.fid in s'.files <==> th.fid in s.files)
          && (th.fid in s'.readTokens <==> th.fid in s.readTokens)
          && (th.fid in s'.writeTokens <==> th.fid in s.writeTokens))
    && (Using(th) && th.fid in s.files ==> th.fid in s'.files && s'.files[th.fid] == s.files[th.fid])
    && (th.pc.Critical() ==> s'.dev == s.dev && s'.nomem == s.nomem)
  }

  lemma TaskBookUndisturbed(c: Config, s: State, s': State, th: Task, next: Task)
    requires TaskBook(c, s, th) && Undisturbed(s, s', th) && SameButWoken(th, next)
    ensures TaskBook(c, s', next)
  {
  }

  /** Puts the parts of the books together for a step by task `t`. */
  lemma BookFromParts(c: Config, s: State, t: nat, next: Task, s': State)
    requires Book(c, s) && OneMoves(s, t, next, s')
    requires forall i :: 0 <= i < |s.tasks| && i != t ==> Undisturbed(s, s', s.tasks[i])
    requires TaskBook(c, s', next)
    requires DistinctOwners(s')
    requires forall f :: f in s'.files ==> FileBook(c, s', f, s'.files[f])
    requires DeviceBook(c, s') && OpenersWoken(s')
    ensures Book(c, s')
  {
    LockKept(s, t, next, s');
    forall i | 0 <= i < |s.tasks| && i != t
      ensures TaskBook(c, s', s'.tasks[i])
    {
      assert TaskBook(c, s, s.tasks[i]) && SameButWoken(s.tasks[i], s'.tasks[i]);
      TaskBookUndisturbed(c, s, s', s.tasks[i], s'.tasks[i]);
    }
  }

  lemma HoldersKept(s: State, t: nat, next: Task, s': State)
    requires LockHeld(s) && OneMoves(s, t, next, s') && !FifoWriter(s.tasks[t].pc)
    ensures HolderAt(s, Fifo(FifoAlloc)) ==> HolderAt(s', Fifo(FifoAlloc))
    ensures HolderAt(s, Fifo(FifoWake)) ==> HolderAt(s', Fifo(FifoWake))
  {
    if HolderAt(s, Fifo(FifoAlloc)) {
      HolderKept(s, t, next, s', Fifo(FifoAlloc));
    } else if HolderAt(s, Fifo(FifoWake)) {
      HolderKept(s, t, next, s', Fifo(FifoWake));
    }
  }

  /** A read or write starts on an open file and changes nothing else. */
  lemma BeginIoStarts(c: Config, s: State, t: nat, a: Action, s': State)
    requires Book(c, s) && Step(c, s, t, a, s') && (a.BeginRead? || a.BeginWrite?)
    ensures OneMoves(s, t, s'.tasks[t], s') && SameBooks(s, s') && TaskBook(c, s', s'.tasks[t])
    ensures Using(s'.tasks[t]) && s.tasks[t].pc == Idle
  {
    var f := s'.tasks[t].fid;
    assert FileBook(c, s, f, s.files[f]);
  }

  lemma BeginIoKeepsBook(c: Config, s: State, t: nat, a: Action, s': State)
    requires Book(c, s) && Step(c, s, t, a, s') && (a.BeginRead? || a.BeginWrite?)
    ensures Book(c, s')
  {
    var next := s'.tasks[t];
    BeginIoStarts(c, s, t, a, s');
    HoldersKept(s, t, next, s');
    OwnersKept(s, t, next, s');
    forall i | 0 <= i < |s.tasks| && i != t
      ensures TaskBook(c, s', s'.tasks[i])
    {
      assert TaskBook(c, s, s.tasks[i]);
      TaskBookKept(c, s, s', s.tasks[i], s'.tasks[i]);
    }
    LockKept(s, t, next, s');
  }

  lemma BeginOpenKeepsBook(c: Config, s: State, t: nat, file: File, s': State)
    requires Book(c, s) && t < |s.tasks| && BeginOpenStep(c, s, t, file, s')
    ensures Book(c, s')
  {
    var next := s'.tasks[t];
    assert OneMoves(s, t, next, s');
    HoldersKept(s, t, next, s');
    forall i | 0 <= i < |s.tasks| && Owning(s.tasks[i])
      ensures s.tasks[i].fid != next.fid
    {
      assert TaskBook(c, s, s.tasks[i]);
    }
    OwnersKept(s, t, next, s');
    forall f | f in s'.files
      ensures FileBook(c, s', f, s'.files[f]) && f != next.fid
    {
      assert FileBook(c, s, f, s.files[f]);
    }
    assert TaskBook(c, s', next);
    BookFromParts(c, s, t, next, s');
  }

  lemma BeginReleaseKeepsBook(c: Config, s: State, t: nat, f: nat, s': State)
    requires Book(c, s) && t < |s.tasks| && BeginReleaseStep(c, s, t, f, s')
    ensures Book(c, s')
  {
    var next := s'.tasks[t];
    assert OneMoves(s, t, next, s');
    HoldersKept(s, t, next, s');
    assert FileBook(c, s, f, s.files[f]);
    forall i | 0 <= i < |s.tasks|
      ensures Owning(s.tasks[i]) ==> s.tasks[i].fid != next.fid
      ensures i != t ==> Undisturbed(s, s', s.tasks[i])
    {
      assert TaskBook(c, s, s.tasks[i]);
    }
    OwnersKept(s, t, next, s');
    forall g | g in s'.files
      ensures FileBook(c, s', g, s'.files[g])
    {
      assert FileBook(c, s, g, s.files[g]);
    }
    assert TaskBook(c, s', next);
    BookFromParts(c, s, t, next, s');
  }

  lemma FileOpenedKeepsBook(c: Config, s: State, t: nat, s': State)
    requires Book(c, s) && t < |s.tasks| && FileOpenedStep(c, s, t, s')
    ensures Book(c, s')
  {
    var th, next := s.tasks[t], s'.tasks[t];
    assert OneMoves(s, t, next, s');
    HoldersKept(s, t, next, s');
    assert TaskBook(c, s, th);
    forall i | 0 <= i < |s.tasks| && i != t
      ensures Undisturbed(s, s', s.tasks[i])
    {
      assert TaskBook(c, s, s.tasks[i]);
      assert Owning(s.tasks[i]) ==> s.tasks[i].fid != th.fid;
    }
    OwnersKept(s, t, next, s');
    forall f | f in s'.files
      ensures FileBook(c, s', f, s'.files[f])
    {
      if f != th.fid {
        assert FileBook(c, s, f, s.files[f]);
      }
    }
    BookFromParts(c, s, t, next, s');
  }

  /** While `t` owns the lock nobody else is at a critical point or owns its identity. */
  lemma Alone(c: Config, s: State, t: nat, i: nat)
    requires Book(c, s) && t < |s.tasks| && i < |s.tasks| && i != t && s.tasks[t].pc.Critical()
    ensures !s.tasks[i].pc.Critical()
    ensures Owning(s.tasks[t]) && Owning(s.tasks[i]) ==> s.tasks[i].fid != s.tasks[t].fid
    ensures TaskBook(c, s, s.tasks[i])
  {
  }

  /** Adding or removing one identity changes a count by one. */
  lemma TokenCount(tokens: set<nat>, f: nat, flag: bool)
    ensures f !in tokens ==> |Add(tokens, f, flag)| == |tokens| + (if flag then 1 else 0)
    ensures (flag ==> f in tokens) ==> |Remove(tokens, f, flag)| == |tokens| - (if flag then 1 else 0)
  {
  }

  lemma PlainOpenCounts(c: Config, s: State, t: nat, raw: seq<Byte>, s': State)
    requires DeviceBook(c, s) && t < |s.tasks| && PlainOpenStep(c, s, t, raw, s')
    requires TaskBook(c, s, s.tasks[t])
    ensures DeviceBook(c, s')
  {
    TokenCount(s.readTokens, s.tasks[t].fid, s.tasks[t].file.mode.read);
    TokenCount(s.writeTokens, s.tasks[t].fid, s.tasks[t].file.mode.write);
  }

  lemma FifoCountCounts(c: Config, s: State, t: nat, s': State)
    requires DeviceBook(c, s) && t < |s.tasks| && FifoCountStep(c, s, t, s')
    requires TaskBook(c, s, s.tasks[t]) && s.lock == Some(t)
    ensures DeviceBook(c, s')
  {
    TokenCount(s.readTokens, s.tasks[t].fid, s.tasks[t].file.mode.read);
    TokenCount(s.writeTokens, s.tasks[t].fid, !s.tasks[t].file.mode.read);
  }

  lemma ReleaseCounts(c: Config, s: State, t: nat, s': State)
    requires DeviceBook(c, s) && t < |s.tasks| && ReleaseStep(c, s, t, s')
    requires TaskBook(c, s, s.tasks[t]) && s.lock == Some(t)
    ensures DeviceBook(c, s')
    ensures s.dev.live.Some? && s'.dev.live.None? ==> s'.readTokens == {} && s'.writeTokens == {}
    ensures s'.dev.live.Some? ==> s'.dev.live == s.dev.live
  {
    TokenCount(s.readTokens, s.tasks[t].fid, s.tasks[t].file.mode.read);
    TokenCount(s.writeTokens, s.tasks[t].fid, s.tasks[t].file.mode.write);
  }

  lemma PlainOpenKeepsBook(c: Config, s: State, t: nat, raw: seq<Byte>, s': State)
    requires Book(c, s) && t < |s.tasks| && PlainOpenStep(c, s, t, raw, s')
    ensures Book(c, s')
  {
    var th, next := s.tasks[t], s'.tasks[t];
    assert OneMoves(s, t, next, s');
    assert TaskBook(c, s, th);
    PlainOpenCounts(c, s, t, raw, s');
    forall i | 0 <= i < |s.tasks| && i != t
      ensures Undisturbed(s, s', s.tasks[i]) && !s.tasks[i].pc.Fifo?
    {
      Alone(c, s, t, i);
    }
    OwnersKept(s, t, next, s');
    forall f | f in s'.files
      ensures FileBook(c, s', f, s'.files[f])
    {
      assert FileBook(c, s, f, s.files[f]);
    }
    BookFromParts(c, s, t, next, s');
  }

  lemma FifoCountKeepsBook(c: Config, s: State, t: nat, s': State)
    requires Book(c, s) && t < |s.tasks| && FifoCountStep(c, s, t, s')
    ensures Book(c, s')
  {
    var th, next := s.tasks[t], s'.tasks[t];
    assert OneMoves(s, t, next, s');
    assert TaskBook(c, s, th);
    FifoCountCounts(c, s, t, s');
    forall i | 0 <= i < |s.tasks| && i != t
      ensures Undisturbed(s, s', s.tasks[i])
    {
      Alone(c, s, t, i);
    }
    OwnersKept(s, t, next, s');
    forall f | f in s'.files
      ensures FileBook(c, s', f, s'.files[f])
    {
      assert FileBook(c, s, f, s.files[f]);
    }
    BookFromParts(c, s, t, next, s');
  }

  lemma FifoAllocateKeepsBook(c: Config, s: State, t: nat, raw: seq<Byte>, s': State)
    requires Book(c, s) && t < |s.tasks| && FifoAllocateStep(c, s, t, raw, s')
    ensures Book(c, s')
  {
    var th, next := s.tasks[t], s'.tasks[t];
    assert OneMoves(s, t, next, s');
    assert TaskBook(c, s, th);
    forall i | 0 <= i < |s.tasks| && i != t
      ensures Undisturbed(s, s', s.tasks[i])
    {
      Alone(c, s, t, i);
    }
    OwnersKept(s, t, next, s');
    forall f | f in s'.files
      ensures FileBook(c, s', f, s'.files[f])
    {
      assert FileBook(c, s, f, s.files[f]);
    }
    assert HolderAt(s', Fifo(FifoWake));
    BookFromParts(c, s, t, next, s');
  }

  lemma FifoNoMemoryKeepsBook(c: Config, s: State, t: nat, s': State)
    requires Book(c, s) && t < |s.tasks| && FifoNoMemoryStep(c, s, t, s')
    ensures Book(c, s')
  {
    var th, next := s.tasks[t], s'.tasks[t];
    assert OneMoves(s, t, next, s');
    forall i | 0 <= i < |s.tasks| && i != t
      ensures Undisturbed(s, s', s.tasks[i])
    {
      Alone(c, s, t, i);
    }
    OwnersKept(s, t, next, s');
    forall f | f in s'.files
      ensures FileBook(c, s', f, s'.files[f])
    {
      assert FileBook(c, s, f, s.files[f]);
    }
    BookFromParts(c, s, t, next, s');
  }

  /** A sleeping opener is counted as a reader, so the writer does wake it. */
  lemma FifoWakeupWakes(c: Config, s: State, t: nat, s': State, i: nat)
    requires Book(c, s) && t < |s.tasks| && FifoWakeupStep(c, s, t, s') && i < |s.tasks|
    ensures !AsleepIn(s'.tasks[i], Fifo(FifoSleep))
  {
    assert TaskBook(c, s, s.tasks[i]);
    if AsleepIn(s.tasks[i], Fifo(FifoSleep)) {
      assert s.tasks[i].fid in s.readTokens;
      assert s.readTokens != {};
    }
  }

  lemma FifoWakeupKeepsBook(c: Config, s: State, t: nat, s': State)
    requires Book(c, s) && t < |s.tasks| && FifoWakeupStep(c, s, t, s')
    ensures Book(c, s')
  {
    var th, next := s.tasks[t], s'.tasks[t];
    assert OneMoves(s, t, next, s');
    assert TaskBook(c, s, th);
    forall i | 0 <= i < |s.tasks|
      ensures !AsleepIn(s'.tasks[i], Fifo(FifoSleep)) && Undisturbed(s, s', s.tasks[i])
    {
      FifoWakeupWakes(c, s, t, s', i);
    }
    OwnersKept(s, t, next, s');
    forall f | f in s'.files
      ensures FileBook(c, s', f, s'.files[f])
    {
      assert FileBook(c, s, f, s.files[f]);
    }
    BookFromParts(c, s, t, next, s');
  }

  /** Release frees the buffer only when no protected file can still refer to it. */
  lemma ReleaseKeepsFiles(c: Config, s: State, t: nat, s': State, f: nat)
    requires Book(c, s) && t < |s.tasks| && ReleaseStep(c, s, t, s') && f in s'.files
    ensures FileBook(c, s', f, s'.files[f])
  {
    assert FileBook(c, s, f, s.files[f]) && TaskBook(c, s, s.tasks[t]);
    ReleaseCounts(c, s, t, s');
  }

  lemma ReleaseKeepsBook(c: Config, s: State, t: nat, s': State)
    requires Book(c, s) && t < |s.tasks| && ReleaseStep(c, s, t, s')
    ensures Book(c, s')
  {
    var th, next := s.tasks[t], s'.tasks[t];
    assert OneMoves(s, t, next, s');
    assert TaskBook(c, s, th);
    ReleaseCounts(c, s, t, s');
    forall i | 0 <= i < |s.tasks| && i != t
      ensures Undisturbed(s, s', s.tasks[i])
    {
      Alone(c, s, t, i);
    }
    OwnersKept(s, t, next, s');
    forall f | f in s'.files
      ensures FileBook(c, s', f, s'.files[f])
    {
      ReleaseKeepsFiles(c, s, t, s', f);
    }
    BookFromParts(c, s, t, next, s');
  }

  lemma ReadingKeepsBook(c: Config, s: State, t: nat, a: Action, s': State)
    requires Book(c, s) && Step(c, s, t, a, s') && (a.ReadAdvance? || a.ReadWrap? || a.WakeWriters?)
    ensures Book(c, s')
  {
    ReadingIsMild(c, s, t, a, s');
    MilderKeepsBook(c, s, t, s'.tasks[t], s');
  }

  lemma WritingKeepsBook(c: Config, s: State, t: nat, a: Action, s': State)
    requires Book(c, s) && Step(c, s, t, a, s')
    requires a.CopyIn? || a.CopyFault? || a.WriteAdvance? || a.WriteWrap? || a.WakeReaders?
    ensures Book(c, s')
  {
    WritingIsMild(c, s, t, a, s');
    MilderKeepsBook(c, s, t, s'.tasks[t], s');
  }

  /** Every step keeps the books. */
  lemma StepKeepsBook(c: Config, s: State, t: nat, a: Action, s': State)
    requires Book(c, s) && Step(c, s, t, a, s')
    ensures Book(c, s')
  {
    match a
    case Control(next) => ControlKeepsBook(c, s, t, next, s');
    case BeginOpen(file) => BeginOpenKeepsBook(c, s, t, file, s');
    case BeginRead(_, _) => BeginIoKeepsBook(c, s, t, a, s');
    case BeginWrite(_, _) => BeginIoKeepsBook(c, s, t, a, s');
    case BeginRelease(f) => BeginReleaseKeepsBook(c, s, t, f, s');
    case PlainOpen(raw) => PlainOpenKeepsBook(c, s, t, raw, s');
    case FifoCount => FifoCountKeepsBook(c, s, t, s');
    case FifoAllocate(raw) => FifoAllocateKeepsBook(c, s, t, raw, s');
    case FifoNoMemory => FifoNoMemoryKeepsBook(c, s, t, s');
    case FifoWakeup => FifoWakeupKeepsBook(c, s, t, s');
    case FileOpened => FileOpenedKeepsBook(c, s, t, s');
    case ReleaseBody => ReleaseKeepsBook(c, s, t, s');
    case ReadAdvance => ReadingKeepsBook(c, s, t, a, s');
    case ReadWrap => ReadingKeepsBook(c, s, t, a, s');
    case WakeWriters => ReadingKeepsBook(c, s, t, a, s');
    case _ => WritingKeepsBook(c, s, t, a, s');
  }
}
