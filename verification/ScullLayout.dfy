/**
 The whole memory of a scull device and how it is laid out: what each step of
 `__scull_follow` and `scull_write` does to it, and that every step keeps the
 layout.
 */
module ScullLayout {
  import opened Common
  import opened ScullAddress
  import opened ScullMemory

  datatype Memory = Memory(head: Ptr, nodes: map<Ptr, Node>, arrays: map<Ptr, seq<Ptr>>, quanta: map<Ptr, seq<Byte>>)

  /**
   The list, its array pointers, the quantum at every place, the quanta that
   trims have lost, and the bytes with a defined value.
   */
  datatype Layout = Layout(
    spine: seq<Ptr>, rank: map<Ptr, nat>,
    datas: seq<Ptr>, owner: map<Ptr, nat>,
    slots: map<Slot, Ptr>, home: map<Ptr, Slot>, lost: set<Ptr>,
    cells: map<Place, Byte>)

  /** Quantum and quantum set lengths, and the size of an object of the quantum cache. */
  datatype Sizes = Sizes(quantumLen: nat, qsetLen: nat, cacheLen: nat) {
    predicate Valid() {
      0 < quantumLen <= cacheLen && 0 < qsetLen
    }
  }

  ghost predicate Laid(m: Memory, z: Sizes, y: Layout) {
    && Chain(m.nodes, m.head, y.spine, y.rank)
    && Datas(m.nodes, y.spine, y.datas)
    && Table(y.datas, m.arrays, y.owner, z.qsetLen, y.slots)
    && Quanta(m.quanta, y.slots, y.home, y.lost, z.cacheLen)
    && CellsIn(y.cells, m.quanta, y.slots, z.quantumLen)
  }

  // ----- Following the list -----

  /** The head of the list, allocated if there is none. */
  function Started(m: Memory, addrs: seq<Ptr>): Walked {
    if m.head != NULL then Walked(m.nodes, m.head, addrs)
    else if addrs == [] then Walked(m.nodes, NULL, addrs)
    else Walked(Linked(m.nodes, NULL, addrs[0]), addrs[0], addrs[1..])
  }

  function Walk(m: Memory, addrs: seq<Ptr>, target: nat): Walked {
    Hops(Started(m, addrs), target)
  }

  /** The memory after `__scull_follow`, when the allocator hands out `addrs` and then fails. */
  function Followed(m: Memory, addrs: seq<Ptr>, target: nat): Memory {
    m.(head := Started(m, addrs).node, nodes := Walk(m, addrs, target).nodes)
  }

  /** The quanta and their bytes are where they were. */
  ghost predicate SameQuanta(y: Layout, y': Layout) {
    y'.owner == y.owner && y'.slots == y.slots && y'.home == y.home && y'.lost == y.lost && y'.cells == y.cells
  }

  /** The list reaches node `target`, which is where the walk ends, unless memory ran out. */
  ghost predicate FollowEnds(y: Layout, addrs: seq<Ptr>, target: nat, node: Ptr, y': Layout) {
    && y.spine <= y'.spine && y.datas <= y'.datas
    && (forall i :: |y.datas| <= i < |y'.datas| ==> y'.datas[i] == NULL)
    && (node == NULL <==> |y.spine| + |addrs| < target + 1)
    && (node != NULL ==> target < |y'.spine| && node == y'.spine[target])
    && |y'.spine| <= Max(|y.spine|, target + 1)
  }

  lemma WalkLayout(m: Memory, spine: seq<Ptr>, rank: map<Ptr, nat>, addrs: seq<Ptr>, target: nat)
    returns (spine': seq<Ptr>, rank': map<Ptr, nat>)
    requires Chain(m.nodes, m.head, spine, rank) && Usable(m.nodes, addrs)
    ensures Chain(Walk(m, addrs, target).nodes, Started(m, addrs).node, spine', rank')
    ensures WalkEnds(Walked(m.nodes, m.head, addrs), spine, target, Walk(m, addrs, target), spine')
  {
    var w := Started(m, addrs);
    spine', rank' := spine, rank;
    if m.head == NULL && addrs == [] {
      NoMoreHops(w, 0, target);
    } else {
      if m.head == NULL {
        ChainAppend(m.nodes, m.head, spine, rank, addrs[0]);
        spine', rank' := spine + [addrs[0]], rank[addrs[0] := |spine|];
      }
      ghost var spine1 := spine';
      spine', rank' := HopsLayout(w, w.node, spine1, rank', target);
      GrownTransitive(m.nodes, spine, w.nodes, spine1, Hops(w, target).nodes, spine');
    }
  }

  /** Following keeps the layout, ends at the right node and changes nothing if that node was there. */
  lemma FollowKeepsLayout(m: Memory, z: Sizes, y: Layout, addrs: seq<Ptr>, target: nat) returns (y': Layout)
    requires Laid(m, z, y) && Usable(m.nodes, addrs)
    ensures Laid(Followed(m, addrs, target), z, y') && SameQuanta(y, y')
    ensures FollowEnds(y, addrs, target, Walk(m, addrs, target).node, y')
    ensures target < |y.spine| ==> Followed(m, addrs, target) == m && y' == y
  {
    var spine', rank' := WalkLayout(m, y.spine, y.rank, addrs, target);
    if target < |y.spine| {
      y' := y;
    } else {
      var datas' := DatasGrown(m.nodes, y.spine, y.datas, Walk(m, addrs, target).nodes, spine');
      TableGrown(y.datas, m.arrays, y.owner, z.qsetLen, y.slots, datas');
      y' := y.(spine := spine', rank := rank', datas := datas');
    }
  }

  // ----- Filling in the arrays and the quanta -----

  /** The node at `node` gets a zeroed pointer array at `d`. */
  function WithArray(m: Memory, node: Ptr, d: Ptr, qsetLen: nat): Memory
    requires node in m.nodes
  {
    m.(nodes := m.nodes[node := m.nodes[node].(data := d)], arrays := m.arrays[d := seq(qsetLen, _ => NULL)])
  }

  lemma ArrayKeepsLayout(m: Memory, z: Sizes, y: Layout, i: nat, d: Ptr)
    requires Laid(m, z, y) && i < |y.spine| && y.datas[i] == NULL && d != NULL && d !in m.arrays
    ensures Laid(WithArray(m, y.spine[i], d, z.qsetLen), z, y.(datas := y.datas[i := d], owner := y.owner[d := i]))
  {
    ChainSetData(m.nodes, m.head, y.spine, y.rank, y.datas, i, d);
    TableNewArray(y.datas, m.arrays, y.owner, z.qsetLen, y.slots, i, d, seq(z.qsetLen, _ => NULL));
  }

  /** Entry `k` of the array at `d` gets a quantum at `q`, which holds whatever it held before. */
  function WithQuantum(m: Memory, d: Ptr, k: nat, q: Ptr, raw: seq<Byte>): Memory
    requires d in m.arrays && k < |m.arrays[d]|
  {
    m.(arrays := m.arrays[d := m.arrays[d][k := q]], quanta := m.quanta[q := raw])
  }

  lemma QuantumKeepsLayout(m: Memory, z: Sizes, y: Layout, u: Slot, q: Ptr, raw: seq<Byte>)
    requires Laid(m, z, y) && u.qset < |y.datas| && y.datas[u.qset] != NULL && u.quantum < z.qsetLen && u !in y.slots
    requires q != NULL && q !in m.quanta && |raw| == z.cacheLen
    ensures y.datas[u.qset] in m.arrays && |m.arrays[y.datas[u.qset]]| == z.qsetLen
    ensures Laid(WithQuantum(m, y.datas[u.qset], u.quantum, q, raw), z,
                 y.(slots := y.slots[u := q], home := y.home[q := u]))
  {
    TableNewQuantum(y.datas, m.arrays, y.owner, z.qsetLen, y.slots, u, q);
    QuantaNew(m.quanta, y.slots, y.home, y.lost, z.cacheLen, u, q, raw);
    CellsNew(y.cells, m.quanta, y.slots, z.quantumLen, u, q, raw);
  }

  /** What the code finds when it looks up a quantum is what the layout says. */
  lemma LookUp(m: Memory, z: Sizes, y: Layout, u: Slot)
    requires Laid(m, z, y) && u.qset < |y.spine| && u.quantum < z.qsetLen
    ensures y.spine[u.qset] in m.nodes && m.nodes[y.spine[u.qset]].data == y.datas[u.qset]
    ensures var d := y.datas[u.qset];
            && (d == NULL ==> u !in y.slots)
            && (d != NULL ==>
                  d in m.arrays && |m.arrays[d]| == z.qsetLen && m.arrays[d][u.quantum] == SlotPtr(y.slots, u))
    ensures u in y.slots ==> y.slots[u] != NULL && y.slots[u] in m.quanta && |m.quanta[y.slots[u]]| == z.cacheLen
  {
    var d := y.datas[u.qset];
    if d != NULL {
      assert Row(m.arrays[d], y.owner[d], z.qsetLen, y.slots);
    }
  }

  /** `data` copied into the quantum at `q`. */
  function Copied(m: Memory, q: Ptr, offset: nat, data: seq<Byte>): Memory
    requires q in m.quanta && offset + |data| <= |m.quanta[q]|
  {
    m.(quanta := m.quanta[q := Poke(m.quanta[q], offset, data)])
  }

  lemma CopyKeepsLayout(m: Memory, z: Sizes, y: Layout, u: Slot, offset: nat, data: seq<Byte>)
    requires Laid(m, z, y) && u in y.slots && offset + |data| <= z.quantumLen <= z.cacheLen
    ensures y.slots[u] in m.quanta && |m.quanta[y.slots[u]]| == z.cacheLen
    ensures Laid(Copied(m, y.slots[u], offset, data), z, y.(cells := CellsOverlay(y.cells, u, offset, data)))
  {
    CellsWrite(y.cells, m.quanta, y.slots, y.home, y.lost, z.quantumLen, z.cacheLen, u, offset, data);
    QuantaPoke(m.quanta, y.slots, y.home, y.lost, z.cacheLen, u, Poke(m.quanta[y.slots[u]], offset, data));
  }

  /** A copy that fails after any part of its `n` bytes only unsettles those. */
  lemma SpoilKeepsLayout(m: Memory, z: Sizes, y: Layout, u: Slot, offset: nat, part: seq<Byte>, n: nat)
    requires Laid(m, z, y) && u in y.slots && |part| <= n && offset + n <= z.quantumLen <= z.cacheLen
    ensures y.slots[u] in m.quanta && |m.quanta[y.slots[u]]| == z.cacheLen
    ensures Laid(Copied(m, y.slots[u], offset, part), z, y.(cells := y.cells - Places(u, offset, n)))
  {
    CellsSpoil(y.cells, m.quanta, y.slots, y.home, y.lost, z.quantumLen, z.cacheLen, u, offset, part, n);
    QuantaPoke(m.quanta, y.slots, y.home, y.lost, z.cacheLen, u, Poke(m.quanta[y.slots[u]], offset, part));
  }
}
