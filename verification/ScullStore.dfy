/**
 The scull device: reads and writes go through a linked list of quantum sets
 whose arrays and quanta are allocated on first write, and behave as calls on a
 flat byte store.
 */
module ScullStore {
  import opened Common
  import opened ScullAddress
  import opened ScullFlat
  import opened ScullMemory
  import opened ScullLayout
  import opened ScullTrim

  /** Bytes by position and bytes by place say the same. */
  ghost predicate Coupled(quantumLen: nat, qsetLen: nat, bytes: map<nat, Byte>, cells: map<Place, Byte>)
    requires 0 < quantumLen && 0 < qsetLen
  {
    && (forall p :: p in bytes ==>
          Locate(quantumLen, qsetLen, p) in cells && bytes[p] == cells[Locate(quantumLen, qsetLen, p)])
    && (forall p :: Locate(quantumLen, qsetLen, p) in cells ==> p in bytes)
  }

  /** All bytes lie below the length, and the list has a node for every position below it. */
  ghost predicate Covered(quantumLen: nat, qsetLen: nat, bytes: map<nat, Byte>, len: nat, count: nat)
    requires 0 < quantumLen && 0 < qsetLen
  {
    && (forall p :: p in bytes ==> p < len)
    && (forall p: nat {:trigger Locate(quantumLen, qsetLen, p)} ::
          p < len ==> Locate(quantumLen, qsetLen, p).qset < count)
  }

  // ----- From places to positions -----

  /** Inside one quantum, spans of positions are spans of offsets. */
  lemma SpanIsPlaces(quantumLen: nat, qsetLen: nat, pos: nat, n: nat, p: nat)
    requires 0 < quantumLen && 0 < qsetLen
    requires Locate(quantumLen, qsetLen, pos).offset + n <= quantumLen
    ensures var at, place := Locate(quantumLen, qsetLen, pos), Locate(quantumLen, qsetLen, p);
            && (pos <= p < pos + n <==>
                  place.qset == at.qset && place.quantum == at.quantum && at.offset <= place.offset < at.offset + n)
            && (pos <= p < pos + n ==> place.offset - at.offset == p - pos)
  {
    PositionOfLocate(quantumLen, qsetLen, pos);
    PositionOfLocate(quantumLen, qsetLen, p);
    if pos <= p < pos + n {
      LocateNext(quantumLen, qsetLen, pos, p - pos);
    }
  }

  lemma CoupledWrite(quantumLen: nat, qsetLen: nat, bytes: map<nat, Byte>, cells: map<Place, Byte>,
                     pos: nat, data: seq<Byte>)
    requires 0 < quantumLen && 0 < qsetLen && Coupled(quantumLen, qsetLen, bytes, cells)
    requires Locate(quantumLen, qsetLen, pos).offset + |data| <= quantumLen
    ensures var at := Locate(quantumLen, qsetLen, pos);
            Coupled(quantumLen, qsetLen, Overlay(bytes, pos, data),
                    CellsOverlay(cells, Slot(at.qset, at.quantum), at.offset, data))
  {
    forall p: nat {
      SpanIsPlaces(quantumLen, qsetLen, pos, |data|, p);
    }
  }

  lemma CoupledSpoil(quantumLen: nat, qsetLen: nat, bytes: map<nat, Byte>, cells: map<Place, Byte>, pos: nat, n: nat)
    requires 0 < quantumLen && 0 < qsetLen && Coupled(quantumLen, qsetLen, bytes, cells)
    requires Locate(quantumLen, qsetLen, pos).offset + n <= quantumLen
    ensures var at := Locate(quantumLen, qsetLen, pos);
            Coupled(quantumLen, qsetLen, bytes - Span(pos, n),
                    cells - Places(Slot(at.qset, at.quantum), at.offset, n))
  {
    forall p: nat {
      SpanIsPlaces(quantumLen, qsetLen, pos, n, p);
    }
  }

  lemma CoveredWrite(quantumLen: nat, qsetLen: nat, bytes: map<nat, Byte>, len: nat, count: nat,
                     pos: nat, data: seq<Byte>)
    requires 0 < quantumLen && 0 < qsetLen && Covered(quantumLen, qsetLen, bytes, len, count)
    requires Locate(quantumLen, qsetLen, pos).offset + |data| <= quantumLen
    requires Locate(quantumLen, qsetLen, pos).qset < count
    ensures Covered(quantumLen, qsetLen, Overlay(bytes, pos, data), Max(len, pos + |data|), count)
  {
    forall p: nat | len <= p < pos + |data|
      ensures Locate(quantumLen, qsetLen, p).qset < count
    {
      if pos <= p {
        LocateNext(quantumLen, qsetLen, pos, p - pos);
      } else {
        QsetMonotone(quantumLen, qsetLen, p, pos);
      }
    }
  }

  // ----- The memory stands for a flat store -----

  /** The memory `m`, laid out as `y`, holds the bytes of `f`. */
  ghost predicate Stands(m: Memory, z: Sizes, y: Layout, f: Flat) {
    && z.Valid()
    && Laid(m, z, y)
    && Coupled(z.quantumLen, z.qsetLen, f.bytes, y.cells)
    && Covered(z.quantumLen, z.qsetLen, f.bytes, f.len, |y.spine|)
  }

  /** The memory is laid out somehow and holds the bytes of `f`. */
  ghost predicate Sound(m: Memory, z: Sizes, f: Flat) {
    exists y :: Stands(m, z, y, f)
  }

  /** The place of `pos` is `at`, as a fact to hand around without its division and remainder. */
  ghost predicate Locates(z: Sizes, pos: nat, at: Place) {
    0 < z.quantumLen && 0 < z.qsetLen &&
    forall p {:trigger Locate(z.quantumLen, z.qsetLen, p)} :: p == pos ==> Locate(z.quantumLen, z.qsetLen, p) == at
  }

  lemma FollowStands(m: Memory, z: Sizes, y: Layout, f: Flat, addrs: seq<Ptr>, target: nat) returns (y': Layout)
    requires Stands(m, z, y, f) && Usable(m.nodes, addrs)
    ensures Stands(Followed(m, addrs, target), z, y', f) && SameQuanta(y, y')
    ensures FollowEnds(y, addrs, target, Walk(m, addrs, target).node, y')
    ensures target < |y.spine| ==> Followed(m, addrs, target) == m && y' == y
  {
    y' := FollowKeepsLayout(m, z, y, addrs, target);
  }

  lemma ArrayStands(m: Memory, z: Sizes, y: Layout, f: Flat, i: nat, d: Ptr)
    requires Stands(m, z, y, f) && i < |y.spine| && y.datas[i] == NULL && d != NULL && d !in m.arrays
    ensures y.spine[i] in m.nodes
    ensures Stands(WithArray(m, y.spine[i], d, z.qsetLen), z,
                   y.(datas := y.datas[i := d], owner := y.owner[d := i]), f)
  {
    ArrayKeepsLayout(m, z, y, i, d);
  }

  lemma QuantumStands(m: Memory, z: Sizes, y: Layout, f: Flat, u: Slot, q: Ptr, raw: seq<Byte>)
    requires Stands(m, z, y, f) && u.qset < |y.datas| && y.datas[u.qset] != NULL && u.quantum < z.qsetLen
    requires u !in y.slots && q != NULL && q !in m.quanta && |raw| == z.cacheLen
    ensures y.datas[u.qset] in m.arrays && |m.arrays[y.datas[u.qset]]| == z.qsetLen
    ensures Stands(WithQuantum(m, y.datas[u.qset], u.quantum, q, raw), z,
                   y.(slots := y.slots[u := q], home := y.home[q := u]), f)
  {
    QuantumKeepsLayout(m, z, y, u, q, raw);
  }

  lemma CopyStands(m: Memory, z: Sizes, y: Layout, f: Flat, pos: nat, at: Place, data: seq<Byte>)
    requires Stands(m, z, y, f) && Locates(z, pos, at) && at.offset + |data| <= z.quantumLen && at.qset < |y.spine|
    requires Slot(at.qset, at.quantum) in y.slots
    ensures var u := Slot(at.qset, at.quantum);
            && y.slots[u] in m.quanta && |m.quanta[y.slots[u]]| == z.cacheLen
            && Stands(Copied(m, y.slots[u], at.offset, data), z,
                      y.(cells := CellsOverlay(y.cells, u, at.offset, data)), Apply(f, Wrote(pos, data)))
  {
    assert at == Locate(z.quantumLen, z.qsetLen, pos);
    CopyKeepsLayout(m, z, y, Slot(at.qset, at.quantum), at.offset, data);
    CoupledWrite(z.quantumLen, z.qsetLen, f.bytes, y.cells, pos, data);
    CoveredWrite(z.quantumLen, z.qsetLen, f.bytes, f.len, |y.spine|, pos, data);
  }

  lemma SpoilStands(m: Memory, z: Sizes, y: Layout, f: Flat, pos: nat, at: Place, part: seq<Byte>, n: nat)
    requires Stands(m, z, y, f) && Locates(z, pos, at) && at.offset + n <= z.quantumLen && |part| <= n
    requires Slot(at.qset, at.quantum) in y.slots
    ensures var u := Slot(at.qset, at.quantum);
            && y.slots[u] in m.quanta && |m.quanta[y.slots[u]]| == z.cacheLen
            && Stands(Copied(m, y.slots[u], at.offset, part), z,
                      y.(cells := y.cells - Places(u, at.offset, n)), Apply(f, Spoiled(pos, n)))
  {
    assert at == Locate(z.quantumLen, z.qsetLen, pos);
    SpoilKeepsLayout(m, z, y, Slot(at.qset, at.quantum), at.offset, part, n);
    CoupledSpoil(z.quantumLen, z.qsetLen, f.bytes, y.cells, pos, n);
  }

  lemma TrimStands(m: Memory, z: Sizes, y: Layout, f: Flat, z': Sizes)
    requires Stands(m, z, y, f) && z'.Valid()
    ensures TrimFrom(m, m.head, z.qsetLen).Some?
    ensures var m' := TrimFrom(m, m.head, z.qsetLen).value.(head := NULL);
            && m'.nodes == map[] && m'.arrays == map[] && m'.quanta.Keys == y.lost + InLastEntry(y.home, z.qsetLen)
            && Stands(m', z', Empty(m'.quanta.Keys), Flat(map[], 0))
  {
    TrimEffect(m, z, y, z');
  }

  /** A position below the length is in a node of the list, so a read finds it and allocates nothing. */
  lemma ReadFindsNode(m: Memory, z: Sizes, y: Layout, f: Flat, pos: nat, at: Place)
    requires Stands(m, z, y, f) && Locates(z, pos, at) && pos < f.len
    ensures at.qset < |y.spine|
  {
    assert at == Locate(z.quantumLen, z.qsetLen, pos);
  }

  /** The list has at least as many nodes as the length calls for. */
  lemma ListReachesLength(m: Memory, z: Sizes, y: Layout, f: Flat)
    requires Stands(m, z, y, f) && 0 < f.len
    ensures 0 < z.quantumLen * z.qsetLen && (f.len - 1) / (z.quantumLen * z.qsetLen) + 1 <= |y.spine|
  {
    var last := Locate(z.quantumLen, z.qsetLen, f.len - 1);
  }

  /** The bytes `r`, read at `pos`, agree with every byte that has a value. */
  ghost predicate Agrees(f: Flat, pos: nat, r: seq<Byte>) {
    forall p :: p in f.bytes && pos <= p < pos + |r| ==> f.bytes[p] == r[p - pos]
  }

  /** `q` holds the bytes of `f` that lie in the `n` positions from `pos` on, starting at `offset`. */
  ghost predicate Holds(quantum: seq<Byte>, offset: nat, bytes: map<nat, Byte>, pos: nat, n: nat) {
    forall p :: p in bytes && pos <= p < pos + n ==>
      offset + (p - pos) < |quantum| && bytes[p] == quantum[offset + (p - pos)]
  }

  /** Bytes with a value are in the quantum where a read at `pos` looks for them. */
  lemma BytesInQuantum(quantumLen: nat, qsetLen: nat, bytes: map<nat, Byte>, cells: map<Place, Byte>,
                       quanta: map<Ptr, seq<Byte>>, slots: map<Slot, Ptr>, pos: nat, n: nat)
    requires 0 < quantumLen && 0 < qsetLen && Coupled(quantumLen, qsetLen, bytes, cells)
    requires CellsIn(cells, quanta, slots, quantumLen)
    requires Locate(quantumLen, qsetLen, pos).offset + n <= quantumLen
    ensures var at := Locate(quantumLen, qsetLen, pos);
            var u := Slot(at.qset, at.quantum);
            && (u !in slots ==> Hole(bytes, pos, n))
            && (u in slots && slots[u] in quanta ==> Holds(quanta[slots[u]], at.offset, bytes, pos, n))
  {
    var at := Locate(quantumLen, qsetLen, pos);
    forall p | p in bytes && pos <= p < pos + n
      ensures at.(offset := at.offset + (p - pos)) in cells && bytes[p] == cells[at.(offset := at.offset + (p - pos))]
    {
      LocateNext(quantumLen, qsetLen, pos, p - pos);
    }
  }

  lemma HoldsAgrees(quantum: seq<Byte>, offset: nat, f: Flat, pos: nat, n: nat)
    requires Holds(quantum, offset, f.bytes, pos, n) && offset + n <= |quantum|
    ensures Agrees(f, pos, quantum[offset..offset + n])
  {
  }

  /** What a read copies out of a quantum agrees with the store; a missing quantum has no bytes. */
  lemma ReadStands(m: Memory, z: Sizes, y: Layout, f: Flat, pos: nat, at: Place, n: nat)
    requires Stands(m, z, y, f) && Locates(z, pos, at) && at.offset + n <= z.quantumLen
    ensures var u := Slot(at.qset, at.quantum);
            && (u !in y.slots ==> Hole(f.bytes, pos, n))
            && (u in y.slots ==>
                  && y.slots[u] in m.quanta && |m.quanta[y.slots[u]]| == z.cacheLen
                  && Agrees(f, pos, m.quanta[y.slots[u]][at.offset..at.offset + n]))
  {
    var u := Slot(at.qset, at.quantum);
    assert at == Locate(z.quantumLen, z.qsetLen, pos);
    BytesInQuantum(z.quantumLen, z.qsetLen, f.bytes, y.cells, m.quanta, y.slots, pos, n);
    if u in y.slots {
      HoldsAgrees(m.quanta[y.slots[u]], at.offset, f, pos, n);
    }
  }
}
