/**
 The memory behind one scull device, with its pointers: the nodes of the list
 of quantum sets, the arrays of quantum pointers and the quanta. An address is
 allocated while it is a key; freeing removes it.

 Every predicate names, for each kind of object, the one place that points to
 it, so that no two places can share an object.
 */
module ScullMemory {
  import opened Common
  import opened ScullAddress

  newtype Ptr = p: int | 0 <= p

  const NULL: Ptr := 0

  datatype Node = Node(data: Ptr, next: Ptr)

  datatype Slot = Slot(qset: nat, quantum: nat)

  function PtrAt(spine: seq<Ptr>, i: nat): Ptr {
    if i < |spine| then spine[i] else NULL
  }

  function SlotPtr(slots: map<Slot, Ptr>, u: Slot): Ptr {
    if u in slots then slots[u] else NULL
  }

  // ----- The list -----

  /** Node `i` of the list leads to node `i + 1`, or ends the list. */
  ghost predicate LinkAt(nodes: map<Ptr, Node>, spine: seq<Ptr>, i: nat) {
    i < |spine| && spine[i] in nodes && nodes[spine[i]].next == PtrAt(spine, i + 1)
  }

  /**
   The list from `head` goes through exactly the addresses in `spine`, all of
   them different, so it ends; nothing else is allocated. `rank` is the index of
   each node in the list.
   */
  ghost predicate Chain(nodes: map<Ptr, Node>, head: Ptr, spine: seq<Ptr>, rank: map<Ptr, nat>) {
    && head == PtrAt(spine, 0)
    && nodes.Keys == rank.Keys
    && (forall i :: 0 <= i < |spine| ==> spine[i] != NULL && spine[i] in rank && rank[spine[i]] == i)
    && (forall p :: p in rank ==> rank[p] < |spine| && spine[rank[p]] == p)
    && (forall i {:trigger LinkAt(nodes, spine, i)} :: 0 <= i < |spine| ==> LinkAt(nodes, spine, i))
  }

  function Last(spine: seq<Ptr>): Ptr {
    if spine == [] then NULL else spine[|spine| - 1]
  }

  /** Following a link leads to the next node; only the last node has none. */
  lemma NextOf(nodes: map<Ptr, Node>, head: Ptr, spine: seq<Ptr>, rank: map<Ptr, nat>, i: nat)
    requires Chain(nodes, head, spine, rank) && i < |spine|
    ensures spine[i] in nodes && nodes[spine[i]].next == PtrAt(spine, i + 1)
    ensures nodes[spine[i]].next == NULL <==> i + 1 == |spine|
    ensures nodes[spine[i]].next == NULL <==> spine[i] == Last(spine)
  {
    assert LinkAt(nodes, spine, i);
    assert rank[Last(spine)] == |spine| - 1;
  }

  /** The nodes with a new one at `p` hung behind `last`. */
  function Linked(nodes: map<Ptr, Node>, last: Ptr, p: Ptr): map<Ptr, Node>
    requires last != NULL ==> last in nodes
  {
    (if last == NULL then nodes else nodes[last := nodes[last].(next := p)])[p := Node(NULL, NULL)]
  }

  lemma ChainAppend(nodes: map<Ptr, Node>, head: Ptr, spine: seq<Ptr>, rank: map<Ptr, nat>, p: Ptr)
    requires Chain(nodes, head, spine, rank) && p != NULL && p !in nodes
    ensures Chain(Linked(nodes, Last(spine), p), if head == NULL then p else head, spine + [p], rank[p := |spine|])
  {
    var nodes', spine' := Linked(nodes, Last(spine), p), spine + [p];
    forall i | 0 <= i < |spine'|
      ensures LinkAt(nodes', spine', i)
    {
      assert i < |spine| ==> LinkAt(nodes, spine, i);
    }
  }

  /** The list has grown from `spine` to `spine'` by nodes that have no array. */
  ghost predicate Grown(nodes: map<Ptr, Node>, spine: seq<Ptr>, nodes': map<Ptr, Node>, spine': seq<Ptr>) {
    && spine <= spine'
    && (forall p :: p in nodes ==> p in nodes' && nodes'[p].data == nodes[p].data)
    && (forall i :: |spine| <= i < |spine'| ==> spine'[i] in nodes' && nodes'[spine'[i]].data == NULL)
  }

  lemma GrownTransitive(nodes: map<Ptr, Node>, spine: seq<Ptr>, nodes': map<Ptr, Node>, spine': seq<Ptr>,
                        nodes'': map<Ptr, Node>, spine'': seq<Ptr>)
    requires Grown(nodes, spine, nodes', spine') && Grown(nodes', spine', nodes'', spine'')
    ensures Grown(nodes, spine, nodes'', spine'')
  {
  }

  // ----- The walk -----

  /** Addresses an allocator may return, one after the other: none is in use. */
  ghost predicate Usable(nodes: map<Ptr, Node>, addrs: seq<Ptr>) {
    && (forall i :: 0 <= i < |addrs| ==> addrs[i] != NULL && addrs[i] !in nodes)
    && (forall i, j :: 0 <= i < j < |addrs| ==> addrs[i] != addrs[j])
  }

  datatype Walked = Walked(nodes: map<Ptr, Node>, node: Ptr, addrs: seq<Ptr>)

  /** One round of the loop: to the next node, allocated if there is none; `NULL` if there is no memory. */
  function Hop(w: Walked): Walked
    requires w.node != NULL && w.node in w.nodes
  {
    var next := w.nodes[w.node].next;
    if next != NULL then w.(node := next)
    else if w.addrs == [] then w.(node := NULL)
    else Walked(Linked(w.nodes, w.node, w.addrs[0]), w.addrs[0], w.addrs[1..])
  }

  /** `n` rounds of the loop in `__scull_follow`, which returns early without memory. */
  function Hops(w: Walked, n: nat): Walked {
    if n == 0 then w
    else
      var v := Hops(w, n - 1);
      if v.node in v.nodes && v.node != NULL then Hop(v) else v
  }

  /**
   The list has grown as far as needed to reach index `end`; the walk is at that
   node, or at none if memory ran out; nothing changed if the node was there.
   */
  ghost predicate WalkEnds(w: Walked, spine: seq<Ptr>, end: nat, w': Walked, spine': seq<Ptr>) {
    && Grown(w.nodes, spine, w'.nodes, spine')
    && |spine'| + |w'.addrs| == |spine| + |w.addrs|
    && (w'.node == NULL <==> |spine| + |w.addrs| < end + 1)
    && (w'.node != NULL ==> end < |spine'| && w'.node == spine'[end])
    && |spine'| <= Max(|spine|, end + 1)
    && (end < |spine| ==> w'.nodes == w.nodes && spine' == spine)
  }

  lemma HopStep(w: Walked, head: Ptr, spine: seq<Ptr>, rank: map<Ptr, nat>, i: nat)
    returns (spine': seq<Ptr>, rank': map<Ptr, nat>)
    requires Chain(w.nodes, head, spine, rank) && i < |spine| && w.node == spine[i] && Usable(w.nodes, w.addrs)
    ensures var w' := Hop(w);
            && Chain(w'.nodes, head, spine', rank') && Usable(w'.nodes, w'.addrs)
            && WalkEnds(w, spine, i + 1, w', spine')
  {
    NextOf(w.nodes, head, spine, rank, i);
    spine', rank' := spine, rank;
    if i + 1 == |spine| && w.addrs != [] {
      var p := w.addrs[0];
      ChainAppend(w.nodes, head, spine, rank, p);
      spine', rank' := spine + [p], rank[p := |spine|];
    }
  }

  /** `w'` is where the walk from the head has got after `n` rounds. */
  ghost predicate Reached(w: Walked, head: Ptr, spine: seq<Ptr>, n: nat, w': Walked, spine': seq<Ptr>,
                          rank': map<Ptr, nat>)
  {
    Chain(w'.nodes, head, spine', rank') && Usable(w'.nodes, w'.addrs) && WalkEnds(w, spine, n, w', spine')
  }

  lemma WalkEndsStep(w: Walked, spine: seq<Ptr>, end: nat, v: Walked, spine1: seq<Ptr>, w': Walked, spine': seq<Ptr>)
    requires WalkEnds(w, spine, end, v, spine1) && v.node != NULL
    requires WalkEnds(v, spine1, end + 1, w', spine')
    ensures WalkEnds(w, spine, end + 1, w', spine')
  {
    GrownTransitive(w.nodes, spine, v.nodes, spine1, w'.nodes, spine');
  }

  lemma ReachedNext(w: Walked, head: Ptr, spine: seq<Ptr>, n: nat, v: Walked, spine1: seq<Ptr>, rank1: map<Ptr, nat>)
    returns (spine': seq<Ptr>, rank': map<Ptr, nat>)
    requires Reached(w, head, spine, n, v, spine1, rank1)
    ensures v.node != NULL ==> v.node in v.nodes && Reached(w, head, spine, n + 1, Hop(v), spine', rank')
    ensures v.node == NULL ==> Reached(w, head, spine, n + 1, v, spine', rank')
  {
    spine', rank' := spine1, rank1;
    if v.node != NULL {
      spine', rank' := HopStep(v, head, spine1, rank1, n);
      WalkEndsStep(w, spine, n, v, spine1, Hop(v), spine');
    }
  }

  /** The walk from the head ends at the node with exactly the index asked for. */
  lemma {:induction false} HopsLayout(w: Walked, head: Ptr, spine: seq<Ptr>, rank: map<Ptr, nat>, n: nat)
    returns (spine': seq<Ptr>, rank': map<Ptr, nat>)
    requires Chain(w.nodes, head, spine, rank) && 0 < |spine| && w.node == head && Usable(w.nodes, w.addrs)
    ensures Reached(w, head, spine, n, Hops(w, n), spine', rank')
  {
    spine', rank' := spine, rank;
    if n > 0 {
      spine', rank' := HopsLayout(w, head, spine, rank, n - 1);
      spine', rank' := ReachedNext(w, head, spine, n - 1, Hops(w, n - 1), spine', rank');
    }
  }

  /** Every address the walk stops at is allocated. */
  lemma HopsAllocated(w: Walked, head: Ptr, spine: seq<Ptr>, rank: map<Ptr, nat>, n: nat)
    requires Chain(w.nodes, head, spine, rank) && 0 < |spine| && w.node == head && Usable(w.nodes, w.addrs)
    ensures Hops(w, n).node != NULL ==> Hops(w, n).node in Hops(w, n).nodes
    ensures Usable(Hops(w, n).nodes, Hops(w, n).addrs)
  {
    var _, _ := HopsLayout(w, head, spine, rank, n);
  }

  /** A walk that has run out of memory stays there. */
  lemma {:induction false} NoMoreHops(w: Walked, i: nat, n: nat)
    requires i <= n && Hops(w, i).node == NULL
    ensures Hops(w, n) == Hops(w, i)
  {
    if i < n {
      NoMoreHops(w, i, n - 1);
    }
  }

  // ----- The pointer arrays -----

  /** `datas` are the array pointers of the nodes, in list order. */
  ghost predicate Datas(nodes: map<Ptr, Node>, spine: seq<Ptr>, datas: seq<Ptr>) {
    && |datas| == |spine|
    && forall i :: 0 <= i < |spine| ==> spine[i] in nodes && nodes[spine[i]].data == datas[i]
  }

  lemma DatasGrown(nodes: map<Ptr, Node>, spine: seq<Ptr>, datas: seq<Ptr>, nodes': map<Ptr, Node>, spine': seq<Ptr>)
    returns (datas': seq<Ptr>)
    requires Datas(nodes, spine, datas) && Grown(nodes, spine, nodes', spine')
    ensures Datas(nodes', spine', datas') && datas <= datas'
    ensures forall i :: |datas| <= i < |datas'| ==> datas'[i] == NULL
  {
    datas' := datas + seq(|spine'| - |spine|, _ => NULL);
  }

  /** Only the node `i` of the list has another array pointer. */
  lemma ChainSetData(nodes: map<Ptr, Node>, head: Ptr, spine: seq<Ptr>, rank: map<Ptr, nat>, datas: seq<Ptr>, i: nat,
                     d: Ptr)
    requires Chain(nodes, head, spine, rank) && Datas(nodes, spine, datas) && i < |spine|
    ensures var nodes' := nodes[spine[i] := nodes[spine[i]].(data := d)];
            Chain(nodes', head, spine, rank) && Datas(nodes', spine, datas[i := d])
  {
    var nodes' := nodes[spine[i] := nodes[spine[i]].(data := d)];
    forall j | 0 <= j < |spine|
      ensures LinkAt(nodes', spine, j)
    {
      assert LinkAt(nodes, spine, j);
    }
  }

  /** The array at `d` holds what `slots` says about node `i`. */
  ghost predicate Row(array': seq<Ptr>, i: nat, qsetLen: nat, slots: map<Slot, Ptr>) {
    |array'| == qsetLen && forall k :: 0 <= k < qsetLen ==> array'[k] == SlotPtr(slots, Slot(i, k))
  }

  /** `owner` is the index of the node that points to each allocated array. */
  ghost predicate Table(datas: seq<Ptr>, arrays: map<Ptr, seq<Ptr>>, owner: map<Ptr, nat>, qsetLen: nat,
                        slots: map<Slot, Ptr>)
  {
    && arrays.Keys == owner.Keys
    && (forall i :: 0 <= i < |datas| && datas[i] != NULL ==>
          datas[i] in owner && owner[datas[i]] == i)
    && (forall d :: d in owner ==>
          d != NULL && owner[d] < |datas| && datas[owner[d]] == d && Row(arrays[d], owner[d], qsetLen, slots))
    && (forall u {:trigger u in slots} :: u in slots ==>
          u.qset < |datas| && u.quantum < qsetLen && datas[u.qset] != NULL)
  }

  lemma TableGrown(datas: seq<Ptr>, arrays: map<Ptr, seq<Ptr>>, owner: map<Ptr, nat>, qsetLen: nat,
                   slots: map<Slot, Ptr>, datas': seq<Ptr>)
    requires Table(datas, arrays, owner, qsetLen, slots) && datas <= datas'
    requires forall i :: |datas| <= i < |datas'| ==> datas'[i] == NULL
    ensures Table(datas', arrays, owner, qsetLen, slots)
  {
  }

  /** Node `i` gets a fresh array of null pointers. */
  lemma TableNewArray(datas: seq<Ptr>, arrays: map<Ptr, seq<Ptr>>, owner: map<Ptr, nat>, qsetLen: nat,
                      slots: map<Slot, Ptr>, i: nat, d: Ptr, empty: seq<Ptr>)
    requires Table(datas, arrays, owner, qsetLen, slots)
    requires i < |datas| && datas[i] == NULL && d != NULL && d !in arrays
    requires |empty| == qsetLen && forall k :: 0 <= k < qsetLen ==> empty[k] == NULL
    ensures Table(datas[i := d], arrays[d := empty], owner[d := i], qsetLen, slots)
  {
  }

  /** Slot `u` gets the quantum at `q`. */
  lemma TableNewQuantum(datas: seq<Ptr>, arrays: map<Ptr, seq<Ptr>>, owner: map<Ptr, nat>, qsetLen: nat,
                        slots: map<Slot, Ptr>, u: Slot, q: Ptr)
    requires Table(datas, arrays, owner, qsetLen, slots)
    requires u.qset < |datas| && u.quantum < qsetLen && datas[u.qset] != NULL
    ensures var d := datas[u.qset];
            && d in arrays && |arrays[d]| == qsetLen
            && Table(datas, arrays[d := arrays[d][u.quantum := q]], owner, qsetLen, slots[u := q])
  {
    var d := datas[u.qset];
    var arrays' := arrays[d := arrays[d][u.quantum := q]];
    forall e | e in owner
      ensures Row(arrays'[e], owner[e], qsetLen, slots[u := q])
    {
      assert Row(arrays[e], owner[e], qsetLen, slots);
    }
  }

  // ----- The quanta -----

  /**
   The quanta in use have the size of a cache object; `home` is the slot that
   points to each. What trims have lost is still allocated.
   */
  ghost predicate Quanta(quanta: map<Ptr, seq<Byte>>, slots: map<Slot, Ptr>, home: map<Ptr, Slot>, lost: set<Ptr>,
                         cacheLen: nat)
  {
    && quanta.Keys == home.Keys + lost
    && home.Keys !! lost
    && (forall u :: u in slots ==> slots[u] != NULL && slots[u] in home && home[slots[u]] == u)
    && (forall q :: q in home ==> home[q] in slots && slots[home[q]] == q && |quanta[q]| == cacheLen)
  }

  /** Bytes with a defined value are in their quantum, at their offset. */
  ghost predicate CellsIn(cells: map<Place, Byte>, quanta: map<Ptr, seq<Byte>>, slots: map<Slot, Ptr>, quantumLen: nat)
  {
    forall c {:trigger c in cells} {:trigger cells[c]} :: c in cells ==>
      && c.offset < quantumLen
      && Slot(c.qset, c.quantum) in slots
      && slots[Slot(c.qset, c.quantum)] in quanta
      && c.offset < |quanta[slots[Slot(c.qset, c.quantum)]]|
      && quanta[slots[Slot(c.qset, c.quantum)]][c.offset] == cells[c]
  }

  lemma QuantaNew(quanta: map<Ptr, seq<Byte>>, slots: map<Slot, Ptr>, home: map<Ptr, Slot>, lost: set<Ptr>,
                  cacheLen: nat, u: Slot, q: Ptr, raw: seq<Byte>)
    requires Quanta(quanta, slots, home, lost, cacheLen) && u !in slots && q != NULL && q !in quanta
    requires |raw| == cacheLen
    ensures Quanta(quanta[q := raw], slots[u := q], home[q := u], lost, cacheLen)
  {
  }

  /** A new quantum does not disturb the bytes of the others. */
  lemma CellsNew(cells: map<Place, Byte>, quanta: map<Ptr, seq<Byte>>, slots: map<Slot, Ptr>, quantumLen: nat,
                 u: Slot, q: Ptr, raw: seq<Byte>)
    requires CellsIn(cells, quanta, slots, quantumLen) && u !in slots && q !in quanta
    ensures CellsIn(cells, quanta[q := raw], slots[u := q], quantumLen)
  {
  }

  lemma QuantaPoke(quanta: map<Ptr, seq<Byte>>, slots: map<Slot, Ptr>, home: map<Ptr, Slot>, lost: set<Ptr>,
                   cacheLen: nat, u: Slot, bytes: seq<Byte>)
    requires Quanta(quanta, slots, home, lost, cacheLen) && u in slots && |bytes| == cacheLen
    ensures Quanta(quanta[slots[u] := bytes], slots, home, lost, cacheLen)
  {
  }

  // ----- The bytes -----

  /** The `n` places from `offset` on in the quantum of `u`. */
  function Places(u: Slot, offset: nat, n: nat): (r: set<Place>)
    ensures forall c {:trigger c in r} :: c in r <==> Slot(c.qset, c.quantum) == u && offset <= c.offset < offset + n
  {
    if n == 0 then {} else Places(u, offset, n - 1) + {Place(u.qset, u.quantum, offset + n - 1)}
  }

  function CellsOverlay(cells: map<Place, Byte>, u: Slot, offset: nat, data: seq<Byte>): map<Place, Byte> {
    map c | c in cells.Keys + Places(u, offset, |data|) ::
      if Slot(c.qset, c.quantum) == u && offset <= c.offset < offset + |data| then data[c.offset - offset] else cells[c]
  }

  /** A copy into one quantum changes the cells of that quantum, and only in its span. */
  lemma CellsWrite(cells: map<Place, Byte>, quanta: map<Ptr, seq<Byte>>, slots: map<Slot, Ptr>, home: map<Ptr, Slot>,
                   lost: set<Ptr>, quantumLen: nat, cacheLen: nat, u: Slot, offset: nat, data: seq<Byte>)
    requires CellsIn(cells, quanta, slots, quantumLen) && Quanta(quanta, slots, home, lost, cacheLen)
    requires u in slots && offset + |data| <= quantumLen <= cacheLen
    ensures var q := slots[u];
            CellsIn(CellsOverlay(cells, u, offset, data), quanta[q := Poke(quanta[q], offset, data)], slots, quantumLen)
  {
    var q := slots[u];
    var poked := Poke(quanta[q], offset, data);
    forall i | 0 <= i < |data|
      ensures poked[offset + i] == data[i]
    {
      assert poked[offset..offset + |data|][i] == data[i];
    }
  }

  /** A copy that fails half way only unsettles its span. */
  lemma CellsSpoil(cells: map<Place, Byte>, quanta: map<Ptr, seq<Byte>>, slots: map<Slot, Ptr>, home: map<Ptr, Slot>,
                   lost: set<Ptr>, quantumLen: nat, cacheLen: nat, u: Slot, offset: nat, junk: seq<Byte>, n: nat)
    requires CellsIn(cells, quanta, slots, quantumLen) && Quanta(quanta, slots, home, lost, cacheLen)
    requires u in slots && |junk| <= n && offset + n <= quantumLen <= cacheLen
    ensures var q := slots[u];
            CellsIn(cells - Places(u, offset, n), quanta[q := Poke(quanta[q], offset, junk)], slots, quantumLen)
  {
  }
}
