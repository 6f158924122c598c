# Verified models of the workshop drivers

Dafny models, with proofs, of the parts of the driver workshop that share state
between tasks or build linked memory:

- **the scull pipe** (`scull/pipe.c`): a circular byte buffer behind one mutex,
  three wait queues, reader and writer counts that decide when the buffer is
  freed, and pipe 3, whose read open waits for a writer;
- **the scull store** (`scull/main.c`): a linked list of arrays of fixed-size
  quanta, filled in on first write, that stands for a flat byte store;
- **the edu test interrupt** (`edu/sysfs.c`, `edu/irq.c`, `edu/state.h`): a
  session that raises an interrupt and sleeps, a hard handler that tries the
  lock and falls back on a threaded one, and a timer callback;
- **the jiq loop** (`jiq/jiq.c`): a work item that prints a line and reschedules
  itself until the page is full.

`dafny verify dfyconfig.toml` checks everything.

## How the models are built

**Pipe.** `PipeRing` is the ring as a value and its arithmetic. `PipeDevice` is
the value the lock protects and the class `ScullPipe`, whose methods are the
critical sections, proved against the ring functions. `PipeProtocol` is the
machine: any number of tasks, each in an open, a release, a read or a write,
with a step for every lock, unlock, pointer store, queue insertion, unlocked
load, sleep and wake-up. `PipeBook` and `PipeFlow` are the two halves of its
invariant (counts, files and buffer; bytes and wake-ups), `PipeBookSteps` and
`PipeFlowSteps` show that every step keeps them, and `PipeTheorems` says what
follows for whole runs. `PipeLost` says exactly which steps lose a wake-up,
`PipeChoices` what each call decides, where it may return and that it is never
stuck, and `PipeWitness` builds the runs that show the exceptions to be real.

**Store.** `ScullAddress` is the division of a position. `ScullFlat` is the flat
store and what a history of calls means.
`ScullMemory` has explicit pointers: nodes, pointer arrays and quanta are maps
from addresses, and every allocated object has exactly one place that points to
it. `ScullLayout`, `ScullTrim` and `ScullStore` show what each step of a call
does to the memory and to the flat store it stands for. `ScullDevice` has the
loops and the class `ScullDev`, whose ghost `history` records what every call
did; its invariant is that the memory stands for the flat store of that
history. `ScullTransfer` is about callers that need several of its calls.

**Edu and jiq.** `EduDevice` is the driver's state and the class `QeduDevice`
with its locked sections; `EduProtocol` and `EduTheorems` are the machine and
its theorems, and `EduWitness` builds runs that show two exceptions. `Jiq` has
the print step, the loop and their bounds.

Assumptions:

- Steps are sequentially consistent, and a user copy is one step.
- Pipe: `scull_p_len` is fixed and at least 2; the pointer reset of an open is
  one step; in the machine the opens counted at a time stay below 2^64, while the
  class wraps its counts around; files of pipe 3 are opened for reading or for
  writing in the machine, and in any mode in the class. An open resets the ring,
  so claims about the byte stream run from one reset to the next. An open wakes
  no writer and a release wakes nobody, and nothing here says otherwise.
- Store: the two lengths are positive, their product does not overflow, and a
  quantum is not longer than an object of the quantum cache. New quanta are not
  zeroed, so a position has a defined value only once it is written. A user
  copy that fails may leave anything in its target span.
- Edu: a write to the RAISE register sets bits of the interrupt status and a
  write to the ACK register clears the bits given; the register is the set of
  its raised bits. The device may raise other bits at any time and an interrupt
  handler may run at any time.
- Addresses returned by allocators, failing copies, signals, register contents,
  times and printed lines are inputs.

Six promises a reader might expect do not hold of the code. For each the models
give the exact condition and a run or a call sequence where it fails:

- A sleeping writer next to free space is about to be woken: lost exactly by a
  step that resets the ring, a plain open or a write open of pipe 3, while the
  writer is asleep, or by the writer's own step to sleep when a reset has come
  after its last look at the pointers; both while no reader is on its way
  (`WriterStrandedIff`, `StrandedWriterReachable`, `LateSleeperReachable`).
- An opener of pipe 3 asleep next to a counted writer is about to be woken: lost
  exactly by a write open that runs out of memory, which stays counted
  (`OpenerForgottenIff`, `ForgottenOpenerReachable`).
- Reads deliver what writes accepted, from a live buffer: the bytes are conserved
  if and only if no read delivers any from where a freed buffer was, and an open
  file has no buffer to read from if and only if its open left none behind and
  none has been allocated since. That takes a read file of pipe 3 after a write
  open there that ran out of memory (`Conservation`, `BufferMissingIff`,
  `NoUseAfterFree`, `FreedReadReachable`).
- Release takes back what open counted: on pipe 3 exactly for files opened in a
  single mode (`ProperReleaseUndoesOpenIff`, `ReadWriteOpenLosesAWriter`,
  `ReadWriteFileTakesBuffer`).
- A test-interrupt session leaves the device ready for the next one: exactly the
  sessions that return on a signal leave the waiting bit up, and from then on
  every session is refused (`AbandonedBySignal`, `AbandonedForever`,
  `AbandonedIsReachable`).
- A session fails only if its own interrupt did not come: without a shutdown it
  fails exactly if the time-out bit was up and the OK bit was not when it started
  to wait (`FailureIffOldTimeout`, `OldTimeoutFailsSession`).

## Model

| member | source | states |
|---|---|---|
| PipeRing.SpaceComplementsStored | scull/pipe.c:127-135 | `spacefree` and the number of stored bytes add up to the buffer length less one; the pointers are equal exactly when nothing is stored |
| PipeRing.ReadDelivers | scull/pipe.c:173-185 | a read of a non-empty ring returns a prefix of the stored bytes and leaves the rest, across the wrap; at least one byte when asked for one and never more than asked for |
| PipeRing.ReadSpanStops | scull/pipe.c:174-178 | a read moves at most what was asked for, and less only if it has emptied the ring or come to the end of the buffer |
| PipeRing.WriteFits | scull/pipe.c:244-248 | the target of a write lies in the free cells, never reaches `rp`, and is not empty for a positive count; a write moves less than was asked for only if it fills the ring or comes to the end of the buffer |
| PipeRing.SpanFits | scull/pipe.c:244-248 | the same as arithmetic on the two pointers |
| PipeRing.FirstWriteFits | scull/pipe.c:244-248 | into a ring just reset goes whatever is asked for, up to the buffer length less one |
| PipeRing.PokeInvisible | scull/pipe.c:249-252 | whatever a failing copy leaves in the target range, the stored bytes are the same |
| PipeRing.WriteAppends | scull/pipe.c:244-255 | a published write appends exactly its bytes, and a non-empty write never makes `wp` meet `rp` |
| PipeRing.TwoReadsDrain | scull/pipe.c:173-185 | two large enough reads empty any ring, in order |
| PipeRing.TwoWritesFill | scull/pipe.c:244-255 | two large enough writes fill any free space, in order |
| PipeDevice.PlainReleaseUndoesOpen | scull/pipe.c:97-122 | on a plain pipe release takes back exactly what open counted, for every mode and with counts that wrap around |
| PipeDevice.ProperReleaseUndoesOpenIff | scull/pipe.c:33-50 | on pipe 3 that holds if and only if the file is opened for reading or for writing, not both |
| PipeDevice.ReadWriteOpenLosesAWriter | scull/pipe.c:115-122 | on every pipe with a writer, a read-write file of pipe 3 that comes and goes takes away one writer's count, and the buffer if and only if the counts were one in all, or two more than the largest `size_t` |
| PipeDevice.ReadWriteFileTakesBuffer | scull/pipe.c:106-125 | the same by calls on a pipe: a writer opens, a read-write file opens and is released, the writer's byte is lost and its release wraps the count around |
| PipeDevice.ScullPipe.constructor | scull/pipe.c:335-344 | a new pipe has no buffer and counts nobody |
| PipeDevice.ScullPipe.Allocate | scull/pipe.c:85-91 | a buffer that is there stays; a missing one is allocated or nothing changes |
| PipeDevice.ScullPipe.Open | scull/pipe.c:82-103 | allocates if needed, puts both pointers at the start, so that the ring is empty, and counts each mode; without memory nothing changes |
| PipeDevice.ScullPipe.ProperOpen | scull/pipe.c:30-66 | the first section of a pipe 3 open: EAGAIN, a wait, or a counted open; a write open without memory stays counted |
| PipeDevice.ScullPipe.Release | scull/pipe.c:112-124 | uncounts, wrapping around at zero, and frees the buffer exactly when the counts add up to zero |
| PipeDevice.ScullPipe.SpaceFree | scull/pipe.c:127-135 | the pointer formula, which is what the stored bytes leave of the buffer less one |
| PipeDevice.ScullPipe.TakeOut | scull/pipe.c:172-185 | returns at least one cell at `rp` for a positive count and moves `rp` past them, wrapping at the end; never more than was asked for, and less only if that empties the ring or comes to the end of the buffer |
| PipeDevice.ScullPipe.ReadStored | scull/pipe.c:172-185 | the bytes returned are the front of the stored bytes, and the rest stays stored; fewer than asked for only at the end of the ring or of the buffer |
| PipeDevice.ScullPipe.ReadFreed | scull/pipe.c:172-185 | without a buffer a read hands out what is at the old address, as many bytes as with one |
| PipeDevice.ScullPipe.Read | scull/pipe.c:155-186 | when a read ends the file, finds nothing, faults or delivers; what it delivers is the front of the stored bytes if and only if there is a buffer or nothing was moved; never more than was asked for, and less only if that empties the ring or comes to the end of the buffer; it returns no byte of a positive count only on pipe 3, empty and without writers |
| PipeDevice.ScullPipe.CopyIn | scull/pipe.c:249-252 | the cells at `wp` are the data and all others are as before |
| PipeDevice.ScullPipe.Publish | scull/pipe.c:253-255 | moves `wp`, wrapping at the end |
| PipeDevice.ScullPipe.WriteRoom | scull/pipe.c:244-248 | how much of a write fits behind `wp`: all, or all that the stored bytes leave, or up to the end of the buffer; zero exactly for a full ring or an empty request |
| PipeDevice.ScullPipe.PutIn | scull/pipe.c:249-255 | a copy that fits and its publication append exactly the bytes |
| PipeDevice.ScullPipe.PutPart | scull/pipe.c:249-252 | a copy that fails half way leaves the stored bytes as they are |
| PipeDevice.ScullPipe.WriteStored | scull/pipe.c:244-257 | with a buffer a write appends a prefix of its data, shorter only if it fills the ring or comes to the end of the buffer, or leaves the stored bytes alone when the copy fails |
| PipeDevice.ScullPipe.WriteFreed | scull/pipe.c:244-257 | without a buffer it reports the same number of bytes, and they are lost |
| PipeDevice.ScullPipe.Write | scull/pipe.c:244-257 | what a write reports is appended if and only if there is a buffer or nothing was moved; it is all of the data unless the ring is then full or `wp` has wrapped; a full ring and a failing copy leave the stored bytes as they are |
| PipeDevice.ScullPipe.Poll | scull/pipe.c:271-290 | readable means bytes are stored and writable means there is room, except for pipe 3 without writers; without a buffer both only say how the pointers are |
| PipeBookSteps.StepKeepsBook | scull/pipe.c:26-125 | every step of every task keeps counts, files, lock and buffer consistent |
| PipeFlowSteps.StepKeepsFlow | scull/pipe.c:144-264 | every step keeps the pointers in range, each task's view of its bytes, and a wake-up on the way for whoever needs one |
| PipeTheorems.RunInv | scull/pipe.c:26-264 | the invariant holds in every state of every run of any number of tasks |
| PipeTheorems.ReadSection | scull/pipe.c:183-185 | the steps of a read add up to the ring's read |
| PipeTheorems.WriteSection | scull/pipe.c:249-255 | the steps of a write add up to the ring's write |
| PipeTheorems.StepStream | scull/pipe.c:144-264 | each step appends accepted bytes, removes delivered bytes from the front, resets, or leaves the stored bytes alone, also when a read delivers stray bytes |
| PipeTheorems.Conservation | scull/pipe.c:144-264 | between resets, stored plus accepted bytes are delivered plus still stored bytes, in order, over any interleaving, if and only if no read has delivered bytes from a freed buffer |
| PipeTheorems.ConservationUntilFailedOpen | scull/pipe.c:144-264 | so the bytes are conserved on plain pipes, and on pipe 3 until an open there runs out of memory |
| PipeTheorems.StrayNeedsFailedOpen | scull/pipe.c:50-56 | bytes come from a freed buffer only on pipe 3, after an open there has run out of memory |
| PipeTheorems.DeliveredIsAcceptedPrefix | scull/pipe.c:144-264 | since the last open, reads have delivered a prefix of what writes accepted and the rest is stored, under the same if-and-only-if |
| PipeTheorems.RingAlwaysConsistent | scull/pipe.c:127-135 | in every reachable state the pointers are in the buffer and free and stored cells add up |
| PipeTheorems.NoLostReaderWakeup | scull/pipe.c:161-171 | a reader asleep next to stored bytes has a writer between its store to `wp` and its wake-up |
| PipeTheorems.NoLostWriterWakeup | scull/pipe.c:195-225 | a writer asleep next to free space has a reader on its way to wake it, unless an open has reset the ring since it queued |
| PipeLost.WriterStrandedIff | scull/pipe.c:204-222 | a step strands a writer if and only if it resets the ring while the writer sleeps, or is the writer's own step to sleep next to room, which takes a reset since it queued; both with no reader on the way |
| PipeLost.OpenStrandsSleepingWriter | scull/pipe.c:60-94 | every reset, plain or on pipe 3, strands every sleeping writer that no reader is about to wake |
| PipeTheorems.NeverBothAsleep | scull/pipe.c:183-188 | a reader and a writer are never both asleep with no wake-up outstanding |
| PipeTheorems.WriteSpaceMeansLock | scull/pipe.c:195-225 | a write that goes on to copy has space, under the lock; one that waits or has returned does not hold it |
| PipeTheorems.CountsCoverFiles | scull/pipe.c:26-125 | the counts never fall below the number of open files of each mode, with failed and interrupted calls |
| PipeTheorems.RunFileRecord | scull/pipe.c:70-125 | what is recorded of an open file never changes while it stays open |
| PipeTheorems.BufferOutlivesFile | scull/pipe.c:106-125 | while a file is open, a buffer its open left behind is the one live allocation, and the open of a protected file has left one |
| PipeTheorems.BufferMissingIff | scull/pipe.c:26-125 | an open file is without a buffer if and only if its open left none behind and none has been allocated since |
| PipeTheorems.NoUseAfterFree | scull/pipe.c:144-264 | a read or write in progress lacks a live buffer only if it is a read of a read-only file on pipe 3 after a failed open; a buffer its file was opened on is never freed or replaced; a write's copy always has one |
| PipeTheorems.ReadOpenNeedsWriter | scull/pipe.c:33-48 | a pipe 3 read open succeeds only under the lock with a writer counted |
| PipeTheorems.NoLostOpenerWakeup | scull/pipe.c:40-63 | as long as no open of pipe 3 has run out of memory, nobody sleeps there next to a writer unless that writer is about to wake it |
| PipeLost.OpenerForgottenIff | scull/pipe.c:40-63 | a step leaves a sleeping opener next to a writer with nobody to wake it if and only if it is a write open running out of memory |
| PipeChoices.ReadDecides | scull/pipe.c:155-171 | under the lock a read ends the file exactly on pipe 3 without stored bytes and writers, copies exactly if bytes are stored, and otherwise returns or waits as its file says |
| PipeChoices.WriteDecides | scull/pipe.c:204-210 | a write copies exactly if the stored bytes leave room, and otherwise returns or waits as its file says |
| PipeChoices.OpenDecides | scull/pipe.c:33-56 | a pipe 3 open is refused exactly for a non-blocking reader without writers, a counted reader waits exactly without one, and memory runs out only where there is no buffer |
| PipeChoices.NonblockNeverWaits | scull/pipe.c:34-37 | in no state of any run does a call on a non-blocking file wait, be it an open, a read or a write |
| PipeChoices.NobodyStuck | scull/pipe.c:26-264 | in every state of every run a task inside a call can go on without signal, fault or lack of memory, unless it wants a taken lock or sleeps unwoken, and so returns only where the code says |
| PipeChoices.OwnerGoesOn | scull/pipe.c:26-264 | so the owner of the lock can always go on: no run ends with the lock taken |
| PipeChoices.CallBreaksOff | scull/pipe.c:26-264 | wherever the code lets a signal, a fault or a lack of memory end a call, it can return with the pipe unchanged and without the lock |
| PipeChoices.CallEndsOnlyThere | scull/pipe.c:26-264 | and a call returns at no other point, and at the points of an ordinary return only under their conditions |
| PipeChoices.SignalWakes | scull/pipe.c:214-216 | a signal makes a task that sleeps on any of the three queues runnable |
| PipeWitness.StrandedWriterReachable | scull/pipe.c:82-103 | a run from the initial state reaches a writer asleep next to an empty ring with nobody about to wake it |
| PipeWitness.LateSleeperReachable | scull/pipe.c:214-216 | a run in which the writer's own step to sleep strands it, after an open between its check and its sleep |
| PipeWitness.ForgottenOpenerReachable | scull/pipe.c:50-56 | a run that leaves an opener of pipe 3 asleep next to a counted writer |
| PipeWitness.FreedReadReachable | scull/pipe.c:50-56 | a run from the initial state reaches a read on pipe 3 that delivers any byte whatever from a freed buffer |
| ScullAddress.PositionOfLocate | scull/main.c:98-109 | no two positions share a place |
| ScullAddress.LocateOfPosition | scull/main.c:98-109 | every in-range place belongs to a position, so the division is a bijection |
| ScullAddress.LocateFlat | scull/main.c:98-109 | quanta are numbered consecutively across quantum sets |
| ScullFlat.LastWriteWins | scull/main.c:191-237 | after any history, a position holds a byte if and only if the last call that touched it wrote that byte |
| ScullFlat.LengthIsLargestEnd | scull/main.c:229-231 | the length is the largest end of any write since the last trim |
| ScullFlat.BytesBelowLength | scull/main.c:229-231 | every byte with a value lies below the length |
| ScullFlat.CallsSpanQuanta | scull/main.c:217-219 | `n > 0` bytes from `p` take `(p+n-1)/Q - p/Q + 1` calls |
| ScullFlat.ReadStaysBelow | scull/main.c:165-176 | a read returns no more than was asked for, and nothing beyond the end of the furthest write since the last trim |
| ScullFlat.ReadStops | scull/main.c:165-176 | a read that returns less than was asked for has come to the length, to the end of a quantum, or found nothing written in the rest of its quantum |
| ScullTransfer.WriteInFull | scull/main.c:217-231 | the successful writes that move `data` leave the history of one flat write and are one for every quantum touched |
| ScullTransfer.ReadMovesChunk | scull/main.c:165-184 | over written positions every answer that `ScullDev.Read` may give is a whole chunk of the stored bytes |
| ScullTransfer.ReadsAreOneRead | scull/main.c:165-184 | repeated reads of a written span return its bytes, one call for every quantum |
| ScullTransfer.WriteThenRead | scull/main.c:154-237 | what several writes put in, several reads get back |
| ScullMemory.NextOf | scull/main.c:119-126 | following a link leads to the next node of the list, and only the last node has none |
| ScullMemory.HopsLayout | scull/main.c:111-127 | after any number of hops the list is still one acyclic chain through all nodes and the walk is at the node with that index, or at none if memory ran out |
| ScullLayout.FollowKeepsLayout | scull/main.c:111-127 | following keeps the layout, ends at the node asked for, and changes nothing when that node exists |
| ScullLayout.ArrayKeepsLayout | scull/main.c:205-210 | a new pointer array belongs to one node and disturbs nothing |
| ScullLayout.QuantumKeepsLayout | scull/main.c:211-215 | a new quantum belongs to one array entry and disturbs no byte |
| ScullLayout.LookUp | scull/main.c:171-173 | what the code finds at a place is what the layout says, never another place's quantum |
| ScullLayout.CopyKeepsLayout | scull/main.c:217-225 | a copy changes the bytes of its own span and no others |
| ScullLayout.SpoilKeepsLayout | scull/main.c:221-225 | a failing copy unsettles its own span and no others |
| ScullTrim.FreeBulkEffect | scull/main.c:58-58 | distinct allocated quanta are each freed once |
| ScullTrim.TrimFromEffect | scull/main.c:56-64 | from any node on, the loop frees only allocated addresses and ends with the list |
| ScullTrim.TrimEffect | scull/main.c:49-69 | a trim of any list ends, frees every node and array and every quantum but those in the last array entries, which stay allocated and unreachable |
| ScullTrim.TrimHandsBack | scull/main.c:49-69 | said with the pointers alone: after a trim a quantum is allocated if and only if it was and no array entry but a last one pointed to it, and it holds what it held |
| ScullStore.CoupledWrite | scull/main.c:202-227 | writing a span of places is writing the span of positions |
| ScullStore.CopyStands | scull/main.c:217-231 | after the copy the memory stands for the flat store with the data laid over it |
| ScullStore.SpoilStands | scull/main.c:221-225 | after a failing copy it stands for the store without the span |
| ScullStore.TrimStands | scull/main.c:49-69 | after a trim it stands for the empty store, at any new lengths |
| ScullStore.ReadFindsNode | scull/main.c:165-172 | a position below the length is in an existing node |
| ScullStore.ListReachesLength | scull/main.c:229-231 | with length above zero the list has at least `(len-1)/(quantum_len*qset_len) + 1` nodes |
| ScullStore.ReadStands | scull/main.c:175-184 | what a read copies agrees with every byte that has a value, and a missing quantum has none |
| ScullDevice.Divide | scull/main.c:98-109 | the place of a position, in range |
| ScullDevice.FollowList | scull/main.c:111-127 | the loop computes the walk, whatever the allocator does |
| ScullDevice.TrimList | scull/main.c:56-64 | the loop frees what the recursive trim frees, with no address freed that is not allocated |
| ScullDevice.ArrayOf | scull/main.c:205-210 | the array of a node, allocated only if there is none |
| ScullDevice.QuantumOf | scull/main.c:211-215 | the quantum of an entry, allocated only if there is none |
| ScullDevice.Prepare | scull/main.c:202-215 | finds or allocates all that leads to a byte, and fails exactly when memory runs out |
| ScullDevice.CopyIn | scull/main.c:221-227 | the memory stands for the store with the data laid over it |
| ScullDevice.CopyPart | scull/main.c:221-225 | the store without the span of a failing copy |
| ScullDevice.Find | scull/main.c:170-173 | the quantum at a place the list reaches, with the memory unchanged |
| ScullDevice.CopyAndCount | scull/main.c:217-231 | a copy that succeeds or fails, with the length that goes with it |
| ScullDevice.WriteMemory | scull/main.c:202-231 | a locked write does to the store what its outcome says, with the outcome fixed by memory and the copy |
| ScullDevice.ReadMemory | scull/main.c:170-184 | a locked read returns bytes that agree with the store and allocates nothing |
| ScullDevice.WriteLocked | scull/main.c:202-231 | a write moves a prefix up to the end of one quantum, finds no memory exactly when an allocation it needs fails, and extends the history by what it did |
| ScullDevice.WriteCall | scull/main.c:191-237 | the same with the lock, which a signal may keep it from taking |
| ScullDevice.ReadLocked | scull/main.c:165-184 | a read stops at the length and at the end of its quantum; a hole reads as nothing; it faults only below the length, and delivers only if the copy does not fail; the memory is the same |
| ScullDevice.TrimLocked | scull/main.c:49-69 | the memory stands for an empty store, and every quantum is handed back if and only if an array entry below the last one pointed to it |
| ScullDevice.ScullDev.constructor | scull/main.c:316-322 | a new device has the module's lengths and an empty history |
| ScullDevice.EnoughMemory | scull/main.c:202-215 | what the layout says about memory is what the pointers of the list, the array and the quantum say |
| ScullDevice.RewriteNeedsNoMemory | scull/main.c:202-215 | a position that holds a byte can be written again though every allocation fails |
| ScullDevice.ScullDev.Write | scull/main.c:191-237 | a write moves a prefix up to the end of its quantum; it finds no memory exactly when an allocation it needs fails, a failing copy unsettles its span, an interrupted one does nothing, and the device stands for the flat store of its history |
| ScullDevice.ScullDev.Read | scull/main.c:154-189 | every byte returned for a written position is the byte last written there; never more than was asked for, nothing beyond the length, nothing when the copy fails; and the device does not change |
| ScullDevice.ScullDev.Trim | scull/main.c:49-69 | nothing old can be reached, the new lengths apply, and every quantum is handed back but those in last array entries |
| ScullDevice.ScullDev.Open | scull/main.c:71-86 | only a write-only open trims, unless it is interrupted, and what it trims is handed back as by a trim |
| EduDevice.QeduDevice.SetWaiting | edu/state.h:36-41 | afterwards the promise to waiters holds exactly if the caller's bit was raised or the OK bit was up |
| EduDevice.QeduDevice.ClearWaiting | edu/state.h:43-48 | nobody waits, and only a shutdown is left for the next session to see |
| EduDevice.QeduDevice.HandleIrq | edu/irq.c:12-19 | with any status, however old, whoever waits is served, and exactly the acknowledged bits are gone |
| EduDevice.QeduDevice.Timeout | edu/irq.c:71-91 | with one of the low three bits raised it does nothing; otherwise it rearms exactly if a unit asks for an interrupt and a unit is busy, and else times out and wakes, so that it never times out a session that is owed an interrupt |
| EduDevice.QeduDevice.Enter | edu/sysfs.c:64-78 | one session at a time gets in, and leaves bit 1 pending and the timer armed; a refused one changes nothing |
| EduDevice.QeduDevice.Finish | edu/sysfs.c:92-97 | OK exactly for the OK bit, a failure only for a time-out or a shutdown, and the next session can get in |
| EduDevice.QeduDevice.Undisturbed | edu/sysfs.c:58-101 | a session whose interrupt is handled while it waits reports OK and leaves the device as it found it |
| EduTheorems.TaskMoves | edu/irq.c:12-94 | every step of every task is a move that the others survive |
| EduTheorems.RunInv | edu/sysfs.c:58-101 | the invariant holds in every state of every run of any number of sessions and handlers |
| EduTheorems.WaitingIsPending | edu/irq.c:12-48 | waiting with the OK bit clear means the raised bit is still pending, whatever stale status a handler has read |
| EduTheorems.OneSessionAtATime | edu/sysfs.c:65-97 | at most one session is between set-waiting and clear-waiting |
| EduTheorems.NoLostWakeup | edu/sysfs.c:79-90 | a session asleep while the OK or the time-out bit is up means the owner of the lock has set it and not yet woken the queue |
| EduTheorems.SleeperIsServed | edu/sysfs.c:79-90 | a session that nobody is about to wake has its interrupt still to come |
| EduTheorems.NoTimeoutWhileOwed | edu/irq.c:62-94 | the timer never times out a session that is owed an interrupt |
| EduTheorems.StaleIsOld | edu/sysfs.c:78-90 | the recorded time-out bit is the one at the moment the session started to wait, and it has waited ever since |
| EduTheorems.FailureIffOldTimeout | edu/sysfs.c:92-95 | without a shutdown a session reports a failure if and only if the time-out bit was up and the OK bit was not when it started to wait |
| EduTheorems.BitsSinceStart | edu/sysfs.c:77-95 | a session that starts to wait with a bit up keeps the lock and both bits until it has reported |
| EduTheorems.HandlerSection | edu/irq.c:12-19 | the steps of a handler add up to the driver function |
| EduTheorems.StartSection | edu/sysfs.c:77-78 | the steps that start a wait add up to the driver function |
| EduTheorems.ClearSection | edu/state.h:43-48 | the steps that end a wait add up to the driver function |
| EduTheorems.TimerSection | edu/irq.c:70-94 | the steps of the timer callback add up to the driver function, whose three outcomes are told by the bits of the registers |
| EduTheorems.InterruptStarts | edu/irq.c:25-28 | with one of the low three bits raised a hard handler starts with the status it read, and with none of them nothing happens |
| EduTheorems.InterruptNotDropped | edu/irq.c:30-35 | a hard handler takes a free lock, and otherwise leaves the interrupt to the thread |
| EduTheorems.ThreadServes | edu/irq.c:38-45 | the thread reads the status itself and goes for the lock |
| EduTheorems.ThreadStaysWoken | edu/irq.c:30-48 | only the thread itself takes up an interrupt that was left to it |
| EduTheorems.OneCallbackPerArming | edu/irq.c:62-94 | in every run a callback of the timer has an arming before it, by a session or by a callback that found the device busy, and between two callbacks there is another arming |
| EduTheorems.OneThreadPerWake | edu/irq.c:30-48 | in every run the thread starts only after a hard handler found the lock taken, and once for each such time |
| EduTheorems.SessionDecides | edu/sysfs.c:65-90 | a session gets in exactly without a shutdown and another session; it waits exactly while none of OK, time-out and shutdown is up; it gives up exactly on a signal |
| EduTheorems.CheckSection | edu/sysfs.c:84-85 | the unlocked check puts a session to sleep exactly if none of the three bits is up |
| EduTheorems.NobodyStuck | edu/sysfs.c:58-101 | every session, handler and callback can go on and reach its end, unless it wants a taken lock or sleeps unwoken |
| EduTheorems.AbandonedBySignal | edu/sysfs.c:87-88 | a step leaves the waiting bit up with nobody waiting if and only if it is a session returning on a signal |
| EduTheorems.AbandonedForever | edu/sysfs.c:69-72 | that state lasts forever and turns every later session away |
| EduWitness.AbandonedIsReachable | edu/sysfs.c:87-88 | a run from the initial state reaches it |
| EduWitness.OldTimeoutFailsSession | edu/irq.c:70-94 | a run in which the callback of one session's timer comes late and the next session fails with its interrupt still pending |
| Jiq.CountBelowLen | jiq/jiq.c:87-99 | the count of the page never exceeds `len`, and every run adds at least the header's length to `len` |
| Jiq.PageHoldsLines | jiq/jiq.c:80-97 | with lines under 128 characters the page holds the header and every line, and never overflows |
| Jiq.PageShows | jiq/jiq.c:87-97 | the page is full if and only if the header and the lines do not fit, whatever their length, and otherwise it holds exactly them, in order |
| Jiq.LenIsSum | jiq/jiq.c:93-99 | `len` is the length of the header and the count of the page after every run, added up; the time kept is that of the last run |
| Jiq.LenGrowsQuadratically | jiq/jiq.c:93-99 | `len` grows at least quadratically in the number of runs while the page is not full |
| Jiq.FewRuns | jiq/jiq.c:74-102 | `k >= 2` printing runs with header `h` and lines of at least `L` characters, however long, satisfy `k*h + L*k*(k-1)/2 <= LIMIT` |
| Jiq.ClientData.JiqPrint | jiq/jiq.c:74-102 | a run prints exactly while `len` is within the limit; it adds the header once and its line, or fills the page, and adds the page's count to `len`; nothing printed is taken back; past the limit it only tells the reader |
| Jiq.ClientData.Reschedule | jiq/jiq.c:107-127 | rescheduling always stops, past the limit, with every run but the last having printed |

## Left out

- Module start and exit, device and sysfs registration, load scripts: no deep property.
- `scull/ioctl.c` and `scull/proc.c`: parameters are inputs here, and the rest is debug output.
- fasync and SIGIO delivery, `poll_wait`, and log output.
- Polls are not part of the pipe's machine; `ScullPipe.Poll` is one locked section.
- Reads that race with the pointer reset of an open see it as one step.
- PipeDevice.ScullPipe.ReadFreed: at the end of a freed buffer the code sets `rp` to the null `buf`; the model puts it back to the old start, here and in the machine's wrap step.
- PipeDevice.ScullPipe.WriteFreed: the same for `wp`, and what the bytes overwrite is not modelled.
- PipeDevice.ScullPipe.Poll: before the first buffer `buf_len` is 0 and `spacefree` wraps to the largest `size_t`; the model's length is the fixed one, and both are non-zero.
- `edu/init.c`: probe and remove, except that a shutdown may be announced at any time.
- The registers of `inverse` and `version` in `edu/sysfs.c`: pass-through.
- The text and the formatting of the lines that jiq prints, and its wait queue.
- Fairness: the wake-up theorems say that a wake-up is on its way, not when it comes.
- PipeDevice.ScullPipe.Read: the wait between two critical sections is in `PipeProtocol`, not in the class.
- PipeDevice.ScullPipe.Write: the wait between two critical sections is in `PipeProtocol`, not in the class.
- ScullDev: the memory behind the device is one field that calls replace; nodes, arrays and quanta are maps from addresses in it, not objects.
- EduTheorems: nothing says that a reported "IRQ OK" belongs to the caller's own interrupt, or that the timer is idle when it is armed.
