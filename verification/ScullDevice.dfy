/**
 The scull device and its calls. What the allocator returns, how far a user copy
 gets and whether taking the lock is interrupted are given with each call.
 */
module ScullDevice {
  import opened Common
  import opened ScullAddress
  import opened ScullFlat
  import opened ScullMemory
  import opened ScullLayout
  import opened ScullTrim
  import opened ScullStore

  /** The division at the start of `__scull_follow`. */
  method Divide(z: Sizes, pos: nat) returns (at: Place)
    requires 0 < z.quantumLen && 0 < z.qsetLen
    ensures Locates(z, pos, at) && at.quantum < z.qsetLen && at.offset == pos % z.quantumLen
  {
    at := Locate(z.quantumLen, z.qsetLen, pos);
    LocateInRange(z.quantumLen, z.qsetLen, pos);
    LocateFlat(z.quantumLen, z.qsetLen, pos);
  }

  // ----- The two loops -----

  /** The walk of `__scull_follow`, which extends the list on its way. */
  method FollowList(m: Memory, addrs: seq<Ptr>, target: nat, ghost spine: seq<Ptr>, ghost rank: map<Ptr, nat>)
    returns (m': Memory, node: Ptr)
    requires Chain(m.nodes, m.head, spine, rank) && Usable(m.nodes, addrs)
    ensures m' == Followed(m, addrs, target) && node == Walk(m, addrs, target).node
  {
    var nodes, left := m.nodes, addrs;
    ghost var spine1, rank1 := spine, rank;
    node := m.head;
    if node == NULL {
      if left == [] {
        NoMoreHops(Started(m, addrs), 0, target);
        return m, NULL;
      }
      node := left[0];
      ChainAppend(m.nodes, m.head, spine, rank, node);
      spine1, rank1 := spine + [node], rank[node := |spine|];
      nodes, left := Linked(nodes, NULL, node), left[1..];
    }
    var head := node;
    ghost var start := Walked(nodes, node, left);
    var i := 0;
    while i < target
      invariant 0 <= i <= target && node != NULL && Walked(nodes, node, left) == Hops(start, i)
    {
      HopsAllocated(start, head, spine1, rank1, i);
      var next := nodes[node].next;
      if next == NULL {
        if left == [] {
          assert Hops(start, i + 1) == Walked(nodes, NULL, left);
          NoMoreHops(start, i + 1, target);
          return m.(head := head, nodes := nodes), NULL;
        }
        next := left[0];
        nodes, left := Linked(nodes, node, next), left[1..];
      }
      node, i := next, i + 1;
      assert Walked(nodes, node, left) == Hops(start, i);
    }
    m' := m.(head := head, nodes := nodes);
  }

  /** The loop of `__scull_trim`; nothing is freed that is not allocated. */
  method TrimList(m: Memory, qsetLen: nat) returns (m': Memory)
    requires 0 < qsetLen && TrimFrom(m, m.head, qsetLen).Some?
    ensures m' == TrimFrom(m, m.head, qsetLen).value
  {
    var qset := m.head;
    m' := m;
    while qset != NULL
      invariant TrimFrom(m', qset, qsetLen) == TrimFrom(m, m.head, qsetLen)
      decreases |m'.nodes|
    {
      var d, next := m'.nodes[qset].data, m'.nodes[qset].next;
      if d != NULL {
        var freed := FreeBulk(m'.quanta, m'.arrays[d][..qsetLen - 1]);
        m' := m'.(quanta := freed.value, arrays := m'.arrays - {d});
      }
      ghost var before := m'.nodes.Keys;
      m' := m'.(nodes := m'.nodes - {qset});
      assert m'.nodes.Keys == before - {qset};
      assert |m'.nodes.Keys| < |before|;
      qset := next;
    }
  }

  // ----- The calls -----

  /**
   The environment of one call: the addresses `kcalloc` returns for list nodes
   before it fails, the address of a pointer array and of a quantum (null if
   the allocation fails), what a new quantum happens to hold, how many bytes a
   failing user copy moves, and whether taking the lock is interrupted.
   */
  datatype Env = Env(nodes: seq<Ptr>, table: Ptr, quantum: Ptr, raw: seq<Byte>, fault: Option<nat>, interrupted: bool)

  datatype WriteOutcome = Written(n: nat) | WriteFault | NoMemory | WriteInterrupted

  datatype ReadOutcome = ReadOut(data: seq<Byte>) | ReadFault | ReadInterrupted

  datatype OpenOutcome = Opened | OpenInterrupted

  /** What a write of `data`, cut at the end of its quantum, has done to the store. */
  function WriteOp(pos: nat, data: seq<Byte>, r: WriteOutcome): Op {
    match r
    case Written(_) => Wrote(pos, data)
    case WriteFault => Spoiled(pos, |data|)
    case NoMemory => Unchanged
    case WriteInterrupted => Unchanged
  }

  lemma UnchangedIsSame(f: Flat)
    ensures Apply(f, Unchanged) == f
  {
  }

  /** The allocator hands out addresses that are not in use. */
  ghost predicate Allocates(m: Memory, cacheLen: nat, env: Env) {
    && Usable(m.nodes, env.nodes)
    && env.table !in m.arrays
    && env.quantum !in m.quanta
    && |env.raw| == cacheLen
  }

  /** Node `i`, at `node`, gets a pointer array if it has none. */
  method ArrayOf(m: Memory, z: Sizes, ghost y: Layout, ghost f: Flat, node: Ptr, ghost i: nat, addr: Ptr)
    returns (m': Memory, d: Ptr, ghost y': Layout)
    requires Stands(m, z, y, f) && i < |y.spine| && node == y.spine[i] && addr !in m.arrays
    ensures Stands(m', z, y', f) && y'.spine == y.spine && y'.slots == y.slots && m'.quanta == m.quanta
    ensures d == y'.datas[i] && (d == NULL <==> y.datas[i] == NULL && addr == NULL)
  {
    m', y' := m, y;
    d := m.nodes[node].data;
    if d == NULL && addr != NULL {
      ArrayStands(m, z, y, f, i, addr);
      m' := WithArray(m, node, addr, z.qsetLen);
      d, y' := addr, y.(datas := y.datas[i := addr], owner := y.owner[addr := i]);
    }
  }

  /** Entry `k` of the array at `d` gets a quantum if it has none. */
  method QuantumOf(m: Memory, z: Sizes, ghost y: Layout, ghost f: Flat, d: Ptr, k: nat, ghost u: Slot, addr: Ptr,
                   raw: seq<Byte>)
    returns (m': Memory, q: Ptr, ghost y': Layout)
    requires Stands(m, z, y, f) && u.qset < |y.spine| && d == y.datas[u.qset] && d != NULL
    requires k == u.quantum && k < z.qsetLen && addr !in m.quanta && |raw| == z.cacheLen
    ensures Stands(m', z, y', f) && y'.spine == y.spine
    ensures q == SlotPtr(y'.slots, u) && (q == NULL <==> u !in y.slots && addr == NULL)
  {
    m', y' := m, y;
    LookUp(m, z, y, u);
    q := m.arrays[d][k];
    if q == NULL && addr != NULL {
      QuantumStands(m, z, y, f, u, addr, raw);
      m' := WithQuantum(m, d, k, addr, raw);
      q, y' := addr, y.(slots := y.slots[u := addr], home := y.home[addr := u]);
    }
  }

  /** There is memory for all that a write at `at` has to allocate. */
  ghost predicate Enough(y: Layout, at: Place, env: Env) {
    && at.qset < |y.spine| + |env.nodes|
    && ((at.qset < |y.datas| && y.datas[at.qset] != NULL) || env.table != NULL)
    && (Slot(at.qset, at.quantum) in y.slots || env.quantum != NULL)
  }

  /** The first half of `scull_write`: the quantum at `at`, with all that leads to it. */
  method Prepare(m: Memory, z: Sizes, ghost y: Layout, ghost f: Flat, at: Place, env: Env)
    returns (m': Memory, q: Ptr, ghost y': Layout)
    requires Stands(m, z, y, f) && at.quantum < z.qsetLen && Allocates(m, z.cacheLen, env)
    ensures Stands(m', z, y', f)
    ensures q == NULL <==> !Enough(y, at, env)
    ensures q != NULL ==> at.qset < |y'.spine| && q == SlotPtr(y'.slots, Slot(at.qset, at.quantum))
  {
    ghost var u := Slot(at.qset, at.quantum);
    y' := FollowStands(m, z, y, f, env.nodes, at.qset);
    var node, d;
    m', node := FollowList(m, env.nodes, at.qset, y.spine, y.rank);
    if node == NULL {
      return m', NULL, y';
    }
    m', d, y' := ArrayOf(m', z, y', f, node, at.qset, env.table);
    if d == NULL {
      LookUp(m', z, y', u);
      return m', NULL, y';
    }
    m', q, y' := QuantumOf(m', z, y', f, d, at.quantum, u, env.quantum, env.raw);
  }

  /** The user copy of `scull_write` into the quantum at `q`. */
  method CopyIn(m: Memory, z: Sizes, ghost y: Layout, ghost f: Flat, pos: nat, at: Place, q: Ptr, data: seq<Byte>)
    returns (m': Memory, ghost y': Layout)
    requires Stands(m, z, y, f) && Locates(z, pos, at)
    requires at.offset + |data| <= z.quantumLen && at.qset < |y.spine|
    requires q != NULL && q == SlotPtr(y.slots, Slot(at.qset, at.quantum))
    ensures Stands(m', z, y', Apply(f, Wrote(pos, data)))
  {
    CopyStands(m, z, y, f, pos, at, data);
    m' := Copied(m, q, at.offset, data);
    y' := y.(cells := CellsOverlay(y.cells, Slot(at.qset, at.quantum), at.offset, data));
  }

  /** The user copy of `scull_write` when it fails after `moved` bytes. */
  method CopyPart(m: Memory, z: Sizes, ghost y: Layout, ghost f: Flat, pos: nat, at: Place, q: Ptr, data: seq<Byte>,
                  moved: nat)
    returns (m': Memory, ghost y': Layout)
    requires Stands(m, z, y, f) && Locates(z, pos, at)
    requires at.offset + |data| <= z.quantumLen && at.qset < |y.spine|
    requires q != NULL && q == SlotPtr(y.slots, Slot(at.qset, at.quantum))
    ensures Stands(m', z, y', Apply(f, Spoiled(pos, |data|)))
  {
    var part := data[..Min(moved, |data|)];
    SpoilStands(m, z, y, f, pos, at, part, |data|);
    m' := Copied(m, q, at.offset, part);
    y' := y.(cells := y.cells - Places(Slot(at.qset, at.quantum), at.offset, |data|));
  }

  /** The user copy and what follows it, once the quantum is there. */
  method CopyAndCount(m: Memory, z: Sizes, len: nat, ghost y: Layout, ghost f: Flat, pos: nat, at: Place, q: Ptr,
                      data: seq<Byte>, fault: Option<nat>)
    returns (m': Memory, len': nat, r: WriteOutcome, ghost y': Layout, ghost op: Op)
    requires Stands(m, z, y, f) && len == f.len && Locates(z, pos, at)
    requires at.offset + |data| <= z.quantumLen && at.qset < |y.spine|
    requires q != NULL && q == SlotPtr(y.slots, Slot(at.qset, at.quantum))
    ensures Stands(m', z, y', Apply(f, op)) && len' == Apply(f, op).len && op == WriteOp(pos, data, r)
    ensures r == if fault.Some? then WriteFault else Written(|data|)
  {
    LengthAfterCopy(f, pos, data);
    len' := len;
    if fault.Some? {
      r, op := WriteFault, Spoiled(pos, |data|);
      m', y' := CopyPart(m, z, y, f, pos, at, q, data, fault.value);
    } else {
      r, op := Written(|data|), Wrote(pos, data);
      m', y' := CopyIn(m, z, y, f, pos, at, q, data);
      if len < pos + |data| {
        len' := pos + |data|;
      }
    }
  }

  /** `scull_write` with the lock held, of data that ends with the quantum at the latest. */
  method WriteMemory(m: Memory, z: Sizes, len: nat, ghost y: Layout, ghost f: Flat, pos: nat, at: Place,
                     data: seq<Byte>, env: Env)
    returns (m': Memory, len': nat, r: WriteOutcome, ghost y': Layout, ghost op: Op)
    requires Stands(m, z, y, f) && len == f.len && Locates(z, pos, at) && Allocates(m, z.cacheLen, env)
    requires at.quantum < z.qsetLen && at.offset + |data| <= z.quantumLen
    ensures Stands(m', z, y', Apply(f, op)) && len' == Apply(f, op).len && op == WriteOp(pos, data, r)
    ensures r == if !Enough(y, at, env) then NoMemory else if env.fault.Some? then WriteFault else Written(|data|)
  {
    var q;
    m', q, y' := Prepare(m, z, y, f, at, env);
    if q == NULL {
      UnchangedIsSame(f);
      len', r, op := len, NoMemory, Unchanged;
    } else {
      m', len', r, y', op := CopyAndCount(m', z, len, y', f, pos, at, q, data, env.fault);
    }
  }

  /** The quantum at a place that the list reaches; looking for it changes nothing. */
  method Find(m: Memory, z: Sizes, ghost y: Layout, ghost f: Flat, at: Place, addrs: seq<Ptr>)
    returns (m': Memory, q: Ptr)
    requires Stands(m, z, y, f) && Usable(m.nodes, addrs) && at.qset < |y.spine| && at.quantum < z.qsetLen
    ensures m' == m && q == SlotPtr(y.slots, Slot(at.qset, at.quantum))
  {
    ghost var _ := FollowStands(m, z, y, f, addrs, at.qset);
    LookUp(m, z, y, Slot(at.qset, at.quantum));
    var node;
    m', node := FollowList(m, addrs, at.qset, y.spine, y.rank);
    var d := m'.nodes[node].data;
    q := if d == NULL then NULL else m'.arrays[d][at.quantum];
  }

  /** `scull_read` with the lock held, of `n` bytes below the length that lie in one quantum. */
  method ReadMemory(m: Memory, z: Sizes, ghost y: Layout, ghost f: Flat, pos: nat, at: Place, n: nat, env: Env)
    returns (m': Memory, r: ReadOutcome)
    requires Stands(m, z, y, f) && Locates(z, pos, at) && Usable(m.nodes, env.nodes)
    requires pos < f.len && at.quantum < z.qsetLen && at.offset + n <= z.quantumLen
    ensures m' == m
    ensures r.ReadOut? ==> Agrees(f, pos, r.data)
    ensures r.ReadOut? ==> |r.data| == if Slot(at.qset, at.quantum) in y.slots then n else 0
    ensures Slot(at.qset, at.quantum) !in y.slots ==> Hole(f.bytes, pos, n)
    ensures r.ReadOut? && r.data != [] ==> env.fault.None?
    ensures !r.ReadOut? ==> r == ReadFault && env.fault.Some?
  {
    ReadFindsNode(m, z, y, f, pos, at);
    ReadStands(m, z, y, f, pos, at, n);
    var q;
    m', q := Find(m, z, y, f, at, env.nodes);
    if q == NULL {
      r := ReadOut([]);
    } else if env.fault.Some? {
      r := ReadFault;
    } else {
      r := ReadOut(m'.quanta[q][at.offset..at.offset + n]);
    }
  }

  /**
   The allocations that a write at `at` makes all succeed: the walk reaches its
   node, and the pointer array and the quantum are there or can be had.
   */
  ghost predicate HasMemory(m: Memory, at: Place, env: Env) {
    var w := Walk(m, env.nodes, at.qset);
    && w.node != NULL && w.node in w.nodes
    && var d := w.nodes[w.node].data;
    && (d != NULL || env.table != NULL)
    && ((d in m.arrays && at.quantum < |m.arrays[d]| && m.arrays[d][at.quantum] != NULL) || env.quantum != NULL)
  }

  /** What the layout says about memory is what the pointers say. */
  lemma EnoughMemory(m: Memory, z: Sizes, y: Layout, at: Place, env: Env)
    requires Laid(m, z, y) && at.quantum < z.qsetLen && Allocates(m, z.cacheLen, env)
    ensures Enough(y, at, env) <==> HasMemory(m, at, env)
  {
    var y' := FollowKeepsLayout(m, z, y, env.nodes, at.qset);
    var w := Walk(m, env.nodes, at.qset);
    if w.node != NULL {
      assert w.nodes[w.node].data == y'.datas[at.qset];
      if at.qset < |y.spine| {
        LookUp(m, z, y, Slot(at.qset, at.quantum));
      } else {
        assert Slot(at.qset, at.quantum) !in y.slots;
      }
    }
  }

  /** A position that holds a byte can be written again without any allocation. */
  lemma RewriteNeedsNoMemory(m: Memory, z: Sizes, f: Flat, pos: nat, at: Place, env: Env)
    requires z.Valid() && Sound(m, z, f) && Locates(z, pos, at) && pos in f.bytes && Allocates(m, z.cacheLen, env)
    ensures HasMemory(m, at, env)
  {
    var y :| Stands(m, z, y, f);
    assert at == Locate(z.quantumLen, z.qsetLen, pos);
    LocateInRange(z.quantumLen, z.qsetLen, pos);
    ReadFindsNode(m, z, y, f, pos, at);
    assert Slot(at.qset, at.quantum) in y.slots;
    EnoughMemory(m, z, y, at, env);
  }

  /** The answer of a write about memory, at the one place of `pos`. */
  ghost predicate MemoryAnswer(m: Memory, z: Sizes, pos: nat, env: Env, noMemory: bool) {
    forall at :: Locates(z, pos, at) ==> (noMemory <==> !HasMemory(m, at, env))
  }

  lemma AnswersMemory(m: Memory, z: Sizes, pos: nat, at: Place, env: Env, noMemory: bool)
    requires Locates(z, pos, at) && (noMemory <==> !HasMemory(m, at, env))
    ensures MemoryAnswer(m, z, pos, env, noMemory)
  {
    assert at == Locate(z.quantumLen, z.qsetLen, pos);
  }

  /** The fields of a device whose calls so far are `ops`. */
  ghost predicate Consistent(m: Memory, z: Sizes, len: nat, ops: seq<Op>) {
    z.Valid() && Sound(m, z, After(ops)) && len == After(ops).len
  }

  /** What a write tells its caller, and what it has done to the history. */
  ghost predicate WriteAnswer(m: Memory, z: Sizes, ops: seq<Op>, pos: nat, data: seq<Byte>, env: Env, r: WriteOutcome,
                              ops': seq<Op>)
  {
    && z.Valid()
    && var n := Chunk(z.quantumLen, pos, |data|);
    && ops' == ops + [WriteOp(pos, data[..n], r)]
    && (r.Written? ==> r.n == n && env.fault.None?)
    && (r.WriteFault? ==> env.fault.Some?)
    && (r.WriteInterrupted? <==> env.interrupted)
    && (!env.interrupted ==> MemoryAnswer(m, z, pos, env, r.NoMemory?))
  }

  /** `scull_write` with the lock held, on a device whose calls so far are `ops`. */
  method WriteLocked(m: Memory, z: Sizes, len: nat, ghost ops: seq<Op>, pos: nat, data: seq<Byte>, env: Env)
    returns (m': Memory, len': nat, r: WriteOutcome, ghost ops': seq<Op>)
    requires Consistent(m, z, len, ops) && Allocates(m, z.cacheLen, env) && !env.interrupted
    ensures Consistent(m', z, len', ops') && WriteAnswer(m, z, ops, pos, data, env, r, ops')
  {
    var at := Divide(z, pos);
    var n := Min(|data|, z.quantumLen - at.offset);
    assert n == Chunk(z.quantumLen, pos, |data|);
    var cut := data[..n];
    ghost var y :| Stands(m, z, y, After(ops));
    EnoughMemory(m, z, y, at, env);
    ghost var op;
    m', len', r, y, op := WriteMemory(m, z, len, y, After(ops), pos, at, cut, env);
    AnswersMemory(m, z, pos, at, env, r.NoMemory?);
    AfterCall(ops, op);
    ops' := ops + [op];
  }

  /** `scull_write`. */
  method WriteCall(m: Memory, z: Sizes, len: nat, ghost ops: seq<Op>, pos: nat, data: seq<Byte>, env: Env)
    returns (m': Memory, len': nat, r: WriteOutcome, ghost ops': seq<Op>)
    requires Consistent(m, z, len, ops) && Allocates(m, z.cacheLen, env)
    ensures Consistent(m', z, len', ops') && WriteAnswer(m, z, ops, pos, data, env, r, ops')
  {
    if env.interrupted {
      AfterCall(ops, Unchanged);
      UnchangedIsSame(After(ops));
      m', len', r, ops' := m, len, WriteInterrupted, ops + [Unchanged];
    } else {
      m', len', r, ops' := WriteLocked(m, z, len, ops, pos, data, env);
    }
  }

  /** `scull_read` with the lock held. */
  method ReadLocked(m: Memory, z: Sizes, len: nat, ghost f: Flat, pos: nat, count: nat, env: Env)
    returns (m': Memory, r: ReadOutcome)
    requires z.Valid() && Sound(m, z, f) && len == f.len && Usable(m.nodes, env.nodes)
    ensures m' == m
    ensures r.ReadOut? ==> Agrees(f, pos, r.data)
    ensures var n := ReadCount(z.quantumLen, f.len, pos, count);
            r.ReadOut? ==> |r.data| == n || (|r.data| == 0 && Hole(f.bytes, pos, n))
    ensures !r.ReadOut? ==> r == ReadFault && env.fault.Some? && pos < f.len
    ensures r.ReadOut? && r.data != [] ==> env.fault.None?
  {
    if pos < len {
      var at := Divide(z, pos);
      var n := Min(Min(count, len - pos), z.quantumLen - at.offset);
      assert n == ReadCount(z.quantumLen, f.len, pos, count);
      ghost var y :| Stands(m, z, y, f);
      m', r := ReadMemory(m, z, y, f, pos, at, n, env);
    } else {
      m', r := m, ReadOut([]);
    }
  }

  /** `__scull_trim` with the lengths that the next writes are to use. */
  method TrimLocked(m: Memory, z: Sizes, len: nat, ghost ops: seq<Op>, z': Sizes) returns (m': Memory)
    requires Consistent(m, z, len, ops) && z'.Valid()
    ensures Consistent(m', z', 0, ops + [Trimmed]) && Trims(m, z.qsetLen, m')
  {
    ghost var y :| Stands(m, z, y, After(ops));
    TrimStands(m, z, y, After(ops), z');
    TrimHandsBack(m, z, y);
    AfterCall(ops, Trimmed);
    m' := TrimList(m, z.qsetLen);
    m' := m'.(head := NULL);
  }

  /** Bytes that agree with the store are those of the last calls that wrote them. */
  lemma AgreesWithLastWriters(ops: seq<Op>, pos: nat, data: seq<Byte>)
    requires Agrees(After(ops), pos, data)
    ensures forall p, b, j :: pos <= p < pos + |data| && LastWriter(ops, p, b, j) ==> data[p - pos] == b
  {
    forall p, b, j | pos <= p < pos + |data| && LastWriter(ops, p, b, j)
      ensures data[p - pos] == b
    {
      LastWriteWins(ops, p, b);
    }
  }

  class ScullDev {
    var mem: Memory
    var lengths: Sizes
    var len: nat
    ghost var history: seq<Op>

    ghost predicate Valid()
      reads this
    {
      Consistent(mem, lengths, len, history)
    }

    constructor (lengths: Sizes)
      requires lengths.Valid()
      ensures Valid() && history == [] && this.lengths == lengths
    {
      this.lengths, mem, len, history := lengths, Memory(NULL, map[], map[], map[]), 0, [];
      EmptyIsLaid(map[], lengths);
      assert Stands(Memory(NULL, map[], map[], map[]), lengths, Empty({}), After([]));
    }

    /** `scull_write`: lays a prefix of `data` over the store, up to the end of one quantum. */
    method Write(pos: nat, data: seq<Byte>, env: Env) returns (r: WriteOutcome)
      requires Valid() && Allocates(mem, lengths.cacheLen, env)
      modifies `mem, `len, `history
      ensures Valid()
      ensures WriteAnswer(old(mem), lengths, old(history), pos, data, env, r, history)
    {
      mem, len, r, history := WriteCall(mem, lengths, len, history, pos, data, env);
    }

    /** `scull_read`: each byte is the one last written there; the device stays as it is. */
    method Read(pos: nat, count: nat, env: Env) returns (r: ReadOutcome)
      requires Valid() && Usable(mem.nodes, env.nodes)
      modifies `mem
      ensures Valid() && mem == old(mem)
      ensures 0 < lengths.quantumLen
      ensures r.ReadOut? ==> ReadAnswer(lengths.quantumLen, history, pos, count, r.data)
      ensures r.ReadOut? ==> |r.data| <= count && (r.data != [] ==> pos + |r.data| <= len && env.fault.None?)
      ensures r.ReadInterrupted? <==> env.interrupted
      ensures r.ReadFault? ==> env.fault.Some? && pos < len
    {
      if env.interrupted {
        return ReadInterrupted;
      }
      mem, r := ReadLocked(mem, lengths, len, After(history), pos, count, env);
      if r.ReadOut? {
        AgreesWithLastWriters(history, pos, r.data);
        ReadStaysBelow(lengths.quantumLen, history, pos, count, r.data);
      }
    }

    /** `__scull_trim`: nothing is left to reach, and the module's current lengths take effect. */
    method Trim(quantum: nat, qset: nat)
      requires Valid() && 0 < quantum <= lengths.cacheLen && 0 < qset
      modifies this
      ensures Valid() && history == old(history) + [Trimmed]
      ensures Trims(old(mem), old(lengths).qsetLen, mem) && len == 0
      ensures lengths == Sizes(quantum, qset, old(lengths).cacheLen)
    {
      var z := Sizes(quantum, qset, lengths.cacheLen);
      mem := TrimLocked(mem, lengths, len, history, z);
      len, lengths, history := 0, z, history + [Trimmed];
    }

    /** `scull_open`: a write-only open trims the device. */
    method Open(writeOnly: bool, quantum: nat, qset: nat, interrupted: bool) returns (r: OpenOutcome)
      requires Valid() && 0 < quantum <= lengths.cacheLen && 0 < qset
      modifies this
      ensures Valid()
      ensures r == if writeOnly && interrupted then OpenInterrupted else Opened
      ensures history == if writeOnly && !interrupted then old(history) + [Trimmed] else old(history)
      ensures lengths == if writeOnly && !interrupted then Sizes(quantum, qset, lengths.cacheLen) else old(lengths)
      ensures if writeOnly && !interrupted then Trims(old(mem), old(lengths).qsetLen, mem) else mem == old(mem)
    {
      r := Opened;
      if writeOnly {
        if interrupted {
          r := OpenInterrupted;
        } else {
          Trim(quantum, qset);
        }
      }
    }
  }
}
