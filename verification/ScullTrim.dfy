/**
 `__scull_trim`: walks the list and frees every node, its pointer array and the
 quanta of the array except the one in the last entry. Freeing an address that
 is not allocated, or freeing one twice, is the outcome `None`.
 */
module ScullTrim {
  import opened Common
  import opened ScullMemory
  import opened ScullLayout

  /** `kmem_cache_free_bulk`: frees the objects at `ptrs`, skipping null pointers. */
  function FreeBulk(quanta: map<Ptr, seq<Byte>>, ptrs: seq<Ptr>): Option<map<Ptr, seq<Byte>>> {
    if ptrs == [] then Some(quanta)
    else
      var p := ptrs[|ptrs| - 1];
      if p == NULL then FreeBulk(quanta, ptrs[..|ptrs| - 1])
      else if p !in quanta then None
      else FreeBulk(quanta - {p}, ptrs[..|ptrs| - 1])
  }

  function Pointers(ptrs: seq<Ptr>): set<Ptr> {
    set p | p in ptrs && p != NULL
  }

  lemma {:induction false} FreeBulkEffect(quanta: map<Ptr, seq<Byte>>, ptrs: seq<Ptr>)
    requires Pointers(ptrs) <= quanta.Keys
    requires forall i, j :: 0 <= i < j < |ptrs| && ptrs[i] != NULL ==> ptrs[i] != ptrs[j]
    ensures FreeBulk(quanta, ptrs) == Some(quanta - Pointers(ptrs))
  {
    if ptrs == [] {
      assert quanta - Pointers(ptrs) == quanta;
    } else {
      var p, rest := ptrs[|ptrs| - 1], ptrs[..|ptrs| - 1];
      assert ptrs == rest + [p];
      if p == NULL {
        assert Pointers(rest) == Pointers(ptrs);
        FreeBulkEffect(quanta, rest);
      } else {
        assert p in Pointers(ptrs);
        assert p !in Pointers(rest);
        assert Pointers(ptrs) == Pointers(rest) + {p};
        FreeBulkEffect(quanta - {p}, rest);
        assert quanta - {p} - Pointers(rest) == quanta - Pointers(ptrs);
      }
    }
  }

  /** One round of the loop: the node at `cur` and what hangs on it. */
  function FreeNode(m: Memory, cur: Ptr, qsetLen: nat): Option<Memory>
    requires 0 < qsetLen
  {
    if cur !in m.nodes then None
    else
      var d := m.nodes[cur].data;
      if d == NULL then Some(m.(nodes := m.nodes - {cur}))
      else if d !in m.arrays || |m.arrays[d]| < qsetLen - 1 then None
      else
        match FreeBulk(m.quanta, m.arrays[d][..qsetLen - 1])
        case None => None
        case Some(quanta) => Some(Memory(m.head, m.nodes - {cur}, m.arrays - {d}, quanta))
  }

  /** The loop of `__scull_trim` from `cur` on. */
  function TrimFrom(m: Memory, cur: Ptr, qsetLen: nat): Option<Memory>
    requires 0 < qsetLen
    decreases |m.nodes|
  {
    if cur == NULL then Some(m)
    else
      match FreeNode(m, cur, qsetLen)
      case None => None
      case Some(m') =>
        assert m'.nodes.Keys == m.nodes.Keys - {cur};
        assert |m'.nodes.Keys| == |m.nodes.Keys| - 1;
        TrimFrom(m', m.nodes[cur].next, qsetLen)
  }

  // ----- What is left once the first `i` nodes are gone -----

  ghost function NodesFrom(nodes: map<Ptr, Node>, rank: map<Ptr, nat>, i: nat): map<Ptr, Node> {
    map p | p in nodes && p in rank && i <= rank[p] :: nodes[p]
  }

  ghost function ArraysFrom(arrays: map<Ptr, seq<Ptr>>, owner: map<Ptr, nat>, i: nat): map<Ptr, seq<Ptr>> {
    map d | d in arrays && d in owner && i <= owner[d] :: arrays[d]
  }

  /** A quantum that a trim has not freed after `i` nodes. */
  ghost predicate Kept(home: map<Ptr, Slot>, lost: set<Ptr>, qsetLen: nat, i: nat, q: Ptr) {
    q in lost || (q in home && (i <= home[q].qset || home[q].quantum == qsetLen - 1))
  }

  ghost function QuantaFrom(quanta: map<Ptr, seq<Byte>>, home: map<Ptr, Slot>, lost: set<Ptr>, qsetLen: nat, i: nat)
    : map<Ptr, seq<Byte>>
  {
    map q | q in quanta && Kept(home, lost, qsetLen, i, q) :: quanta[q]
  }

  ghost function Remaining(m: Memory, y: Layout, qsetLen: nat, i: nat): Memory {
    Memory(m.head, NodesFrom(m.nodes, y.rank, i), ArraysFrom(m.arrays, y.owner, i),
           QuantaFrom(m.quanta, y.home, y.lost, qsetLen, i))
  }

  lemma NodesGone(nodes: map<Ptr, Node>, head: Ptr, spine: seq<Ptr>, rank: map<Ptr, nat>)
    requires Chain(nodes, head, spine, rank)
    ensures NodesFrom(nodes, rank, 0) == nodes && NodesFrom(nodes, rank, |spine|) == map[]
  {
  }

  lemma NodeGone(nodes: map<Ptr, Node>, head: Ptr, spine: seq<Ptr>, rank: map<Ptr, nat>, i: nat)
    requires Chain(nodes, head, spine, rank) && i < |spine|
    ensures spine[i] in nodes && spine[i] in NodesFrom(nodes, rank, i)
    ensures NodesFrom(nodes, rank, i)[spine[i]] == nodes[spine[i]]
    ensures NodesFrom(nodes, rank, i) - {spine[i]} == NodesFrom(nodes, rank, i + 1)
  {
  }

  lemma ArraysGone(datas: seq<Ptr>, arrays: map<Ptr, seq<Ptr>>, owner: map<Ptr, nat>, qsetLen: nat,
                   slots: map<Slot, Ptr>)
    requires Table(datas, arrays, owner, qsetLen, slots)
    ensures ArraysFrom(arrays, owner, 0) == arrays && ArraysFrom(arrays, owner, |datas|) == map[]
  {
  }

  lemma ArrayGone(datas: seq<Ptr>, arrays: map<Ptr, seq<Ptr>>, owner: map<Ptr, nat>, qsetLen: nat,
                  slots: map<Slot, Ptr>, i: nat)
    requires Table(datas, arrays, owner, qsetLen, slots) && i < |datas|
    ensures datas[i] == NULL ==> ArraysFrom(arrays, owner, i + 1) == ArraysFrom(arrays, owner, i)
    ensures datas[i] != NULL ==>
              && datas[i] in arrays && Row(arrays[datas[i]], i, qsetLen, slots)
              && datas[i] in ArraysFrom(arrays, owner, i)
              && ArraysFrom(arrays, owner, i)[datas[i]] == arrays[datas[i]]
              && ArraysFrom(arrays, owner, i) - {datas[i]} == ArraysFrom(arrays, owner, i + 1)
  {
  }

  /** The quanta that only the last entries of the arrays point to. */
  ghost function InLastEntry(home: map<Ptr, Slot>, qsetLen: nat): set<Ptr> {
    set q | q in home && home[q].quantum == qsetLen - 1
  }

  lemma QuantaGone(quanta: map<Ptr, seq<Byte>>, slots: map<Slot, Ptr>, home: map<Ptr, Slot>, lost: set<Ptr>,
                   cacheLen: nat, qsetLen: nat, count: nat)
    requires Quanta(quanta, slots, home, lost, cacheLen) && forall u :: u in slots ==> u.qset < count
    ensures QuantaFrom(quanta, home, lost, qsetLen, 0) == quanta
    ensures QuantaFrom(quanta, home, lost, qsetLen, count).Keys == lost + InLastEntry(home, qsetLen)
  {
  }

  /** Node `i` has no array, so it has no quanta. */
  lemma NoQuantaGone(quanta: map<Ptr, seq<Byte>>, slots: map<Slot, Ptr>, home: map<Ptr, Slot>, lost: set<Ptr>,
                     cacheLen: nat, qsetLen: nat, i: nat)
    requires Quanta(quanta, slots, home, lost, cacheLen) && forall u :: u in slots ==> u.qset != i
    ensures QuantaFrom(quanta, home, lost, qsetLen, i + 1) == QuantaFrom(quanta, home, lost, qsetLen, i)
  {
  }

  /** The quanta of node `i` that its round frees. */
  lemma FreeRow(quanta: map<Ptr, seq<Byte>>, slots: map<Slot, Ptr>, home: map<Ptr, Slot>, lost: set<Ptr>,
                cacheLen: nat, qsetLen: nat, i: nat, row: seq<Ptr>)
    requires Quanta(quanta, slots, home, lost, cacheLen) && 0 < qsetLen && Row(row, i, qsetLen, slots)
    requires forall u :: u in slots ==> u.quantum < qsetLen
    ensures FreeBulk(QuantaFrom(quanta, home, lost, qsetLen, i), row[..qsetLen - 1])
         == Some(QuantaFrom(quanta, home, lost, qsetLen, i + 1))
  {
    var ptrs := row[..qsetLen - 1];
    var before, after := QuantaFrom(quanta, home, lost, qsetLen, i), QuantaFrom(quanta, home, lost, qsetLen, i + 1);
    forall k | 0 <= k < |ptrs| && ptrs[k] != NULL
      ensures ptrs[k] in home && home[ptrs[k]] == Slot(i, k) && ptrs[k] in before
    {
      assert ptrs[k] == SlotPtr(slots, Slot(i, k));
    }
    FreeBulkEffect(before, ptrs);
    forall q | q in before
      ensures q in after <==> q !in Pointers(ptrs)
    {
      if q !in after {
        var u := home[q];
        assert u == Slot(i, u.quantum) && ptrs[u.quantum] == q;
      }
    }
    assert before - Pointers(ptrs) == after;
  }

  // ----- The loop -----

  lemma FreeNodeStep(m: Memory, z: Sizes, y: Layout, i: nat)
    requires Laid(m, z, y) && 0 < z.qsetLen && i < |y.spine|
    ensures var cur, r := PtrAt(y.spine, i), Remaining(m, y, z.qsetLen, i);
            && cur != NULL && cur in r.nodes && r.nodes[cur].next == PtrAt(y.spine, i + 1)
            && FreeNode(r, cur, z.qsetLen) == Some(Remaining(m, y, z.qsetLen, i + 1))
  {
    NextOf(m.nodes, m.head, y.spine, y.rank, i);
    NodeGone(m.nodes, m.head, y.spine, y.rank, i);
    ArrayGone(y.datas, m.arrays, y.owner, z.qsetLen, y.slots, i);
    var d := y.datas[i];
    if d == NULL {
      NoQuantaGone(m.quanta, y.slots, y.home, y.lost, z.cacheLen, z.qsetLen, i);
    } else {
      FreeRow(m.quanta, y.slots, y.home, y.lost, z.cacheLen, z.qsetLen, i, m.arrays[d]);
    }
  }

  /** Every round frees addresses that are allocated, and the loop ends at the end of the list. */
  lemma {:induction false} TrimFromEffect(m: Memory, z: Sizes, y: Layout, i: nat)
    requires Laid(m, z, y) && 0 < z.qsetLen && i <= |y.spine|
    ensures TrimFrom(Remaining(m, y, z.qsetLen, i), PtrAt(y.spine, i), z.qsetLen)
         == Some(Remaining(m, y, z.qsetLen, |y.spine|))
    decreases |y.spine| - i
  {
    if i < |y.spine| {
      FreeNodeStep(m, z, y, i);
      TrimFromEffect(m, z, y, i + 1);
    }
  }

  /** The layout of a device without a list, when the quanta `lost` are still allocated. */
  ghost function Empty(lost: set<Ptr>): Layout {
    Layout([], map[], [], map[], map[], map[], lost, map[])
  }

  lemma EmptyIsLaid(quanta: map<Ptr, seq<Byte>>, z: Sizes)
    ensures Laid(Memory(NULL, map[], map[], quanta), z, Empty(quanta.Keys))
  {
  }

  /**
   Trimming a device of any length ends and frees every node, every array and
   every quantum exactly once, except that the quanta in the last entry of each
   array stay allocated and can never be reached again.
   */
  lemma TrimEffect(m: Memory, z: Sizes, y: Layout, z': Sizes)
    requires Laid(m, z, y) && 0 < z.qsetLen
    ensures TrimFrom(m, m.head, z.qsetLen).Some?
    ensures var m' := TrimFrom(m, m.head, z.qsetLen).value;
            && m'.nodes == map[] && m'.arrays == map[]
            && m'.quanta.Keys == y.lost + InLastEntry(y.home, z.qsetLen)
            && Laid(m'.(head := NULL), z', Empty(m'.quanta.Keys))
  {
    NodesGone(m.nodes, m.head, y.spine, y.rank);
    ArraysGone(y.datas, m.arrays, y.owner, z.qsetLen, y.slots);
    QuantaGone(m.quanta, y.slots, y.home, y.lost, z.cacheLen, z.qsetLen, |y.spine|);
    TrimFromEffect(m, z, y, 0);
    EmptyIsLaid(QuantaFrom(m.quanta, y.home, y.lost, z.qsetLen, |y.spine|), z');
  }

  /** Some pointer array has `q` in an entry that a trim hands back. */
  ghost predicate HandedBack(arrays: map<Ptr, seq<Ptr>>, qsetLen: nat, q: Ptr) {
    exists d, k: nat :: d in arrays && k + 1 < qsetLen && k < |arrays[d]| && arrays[d][k] == q
  }

  /** What the arrays say about a quantum is what the layout says. */
  lemma HandedBackIff(m: Memory, z: Sizes, y: Layout, q: Ptr)
    requires Laid(m, z, y) && q != NULL
    ensures HandedBack(m.arrays, z.qsetLen, q) <==> q in y.home && y.home[q].quantum + 1 < z.qsetLen
  {
    if q in y.home {
      var u := y.home[q];
      var d := y.datas[u.qset];
      assert Row(m.arrays[d], y.owner[d], z.qsetLen, y.slots);
      assert m.arrays[d][u.quantum] == q;
    }
    if d, k: nat :| d in m.arrays && k + 1 < z.qsetLen && k < |m.arrays[d]| && m.arrays[d][k] == q {
      assert Row(m.arrays[d], y.owner[d], z.qsetLen, y.slots);
      assert SlotPtr(y.slots, Slot(y.owner[d], k)) == q;
    }
  }

  /** The quanta a trim leaves are those that no array entry but a last one points to, with what they hold. */
  ghost predicate Trims(m: Memory, qsetLen: nat, m': Memory) {
    && m' == Memory(NULL, map[], map[], m'.quanta)
    && (forall q :: q != NULL ==> (q in m'.quanta <==> q in m.quanta && !HandedBack(m.arrays, qsetLen, q)))
    && (forall q :: q in m'.quanta ==> q in m.quanta && m'.quanta[q] == m.quanta[q])
  }

  lemma TrimHandsBack(m: Memory, z: Sizes, y: Layout)
    requires Laid(m, z, y) && 0 < z.qsetLen
    ensures TrimFrom(m, m.head, z.qsetLen).Some?
    ensures Trims(m, z.qsetLen, TrimFrom(m, m.head, z.qsetLen).value.(head := NULL))
  {
    NodesGone(m.nodes, m.head, y.spine, y.rank);
    ArraysGone(y.datas, m.arrays, y.owner, z.qsetLen, y.slots);
    QuantaGone(m.quanta, y.slots, y.home, y.lost, z.cacheLen, z.qsetLen, |y.spine|);
    TrimFromEffect(m, z, y, 0);
    forall q | q != NULL
      ensures HandedBack(m.arrays, z.qsetLen, q) <==> q in y.home && y.home[q].quantum + 1 < z.qsetLen
    {
      HandedBackIff(m, z, y, q);
    }
  }
}
