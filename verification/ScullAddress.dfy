/**
 Where a byte of a scull device lives: a position is split into the index of a
 quantum set in the list, the index of a quantum in the set and the offset in
 the quantum.
 */
module ScullAddress {

  datatype Place = Place(qset: nat, quantum: nat, offset: nat)

  /** The first lines of `__scull_follow`. */
  function Locate(quantumLen: nat, qsetLen: nat, pos: nat): Place
    requires 0 < quantumLen && 0 < qsetLen
  {
    var total := quantumLen * qsetLen;
    assert 0 < total;
    var rest := pos % total;
    Place(pos / total, rest / quantumLen, rest % quantumLen)
  }

  function Position(quantumLen: nat, qsetLen: nat, p: Place): nat {
    p.qset * (quantumLen * qsetLen) + p.quantum * quantumLen + p.offset
  }

  lemma MulMonotone(x: nat, y: nat, b: nat)
    requires x < y
    ensures x * b + b <= y * b
  {
    assert x * b + b == (x + 1) * b;
  }

  lemma DivModUnique(a: nat, b: nat, q: nat, r: nat)
    requires a == q * b + r && r < b
    ensures a / b == q && a % b == r
  {
    var q', r' := a / b, a % b;
    assert a == b * q' + r';
    if q < q' {
      MulMonotone(q, q', b);
    } else if q' < q {
      MulMonotone(q', q, b);
    }
  }

  lemma LocateInRange(quantumLen: nat, qsetLen: nat, pos: nat)
    requires 0 < quantumLen && 0 < qsetLen
    ensures var p := Locate(quantumLen, qsetLen, pos); p.quantum < qsetLen && p.offset < quantumLen
  {
    var rest := pos % (quantumLen * qsetLen);
    var k := rest / quantumLen;
    assert rest == k * quantumLen + rest % quantumLen;
    if k >= qsetLen {
      MulMonotone(qsetLen, k + 1, quantumLen);
    }
  }

  /** No two positions share a place. */
  lemma PositionOfLocate(quantumLen: nat, qsetLen: nat, pos: nat)
    requires 0 < quantumLen && 0 < qsetLen
    ensures Position(quantumLen, qsetLen, Locate(quantumLen, qsetLen, pos)) == pos
  {
  }

  /** Every in-range place is the place of some position. */
  lemma LocateOfPosition(quantumLen: nat, qsetLen: nat, p: Place)
    requires p.quantum < qsetLen && p.offset < quantumLen
    ensures Locate(quantumLen, qsetLen, Position(quantumLen, qsetLen, p)) == p
  {
    var total := quantumLen * qsetLen;
    var rest := p.quantum * quantumLen + p.offset;
    MulMonotone(p.quantum, qsetLen, quantumLen);
    DivModUnique(p.qset * total + rest, total, p.qset, rest);
    DivModUnique(rest, quantumLen, p.quantum, p.offset);
  }

  /** Positions that follow in the same quantum only differ in the offset. */
  lemma LocateNext(quantumLen: nat, qsetLen: nat, pos: nat, k: nat)
    requires 0 < quantumLen && 0 < qsetLen
    requires Locate(quantumLen, qsetLen, pos).offset + k < quantumLen
    ensures var p := Locate(quantumLen, qsetLen, pos);
            Locate(quantumLen, qsetLen, pos + k) == p.(offset := p.offset + k)
  {
    var p := Locate(quantumLen, qsetLen, pos);
    LocateInRange(quantumLen, qsetLen, pos);
    PositionOfLocate(quantumLen, qsetLen, pos);
    LocateOfPosition(quantumLen, qsetLen, p.(offset := p.offset + k));
  }

  /** Quanta are numbered consecutively across quantum sets. */
  lemma LocateFlat(quantumLen: nat, qsetLen: nat, pos: nat)
    requires 0 < quantumLen && 0 < qsetLen
    ensures var p := Locate(quantumLen, qsetLen, pos);
            pos / quantumLen == p.qset * qsetLen + p.quantum && pos % quantumLen == p.offset
  {
    var p := Locate(quantumLen, qsetLen, pos);
    LocateInRange(quantumLen, qsetLen, pos);
    PositionOfLocate(quantumLen, qsetLen, pos);
    assert p.qset * (quantumLen * qsetLen) == p.qset * qsetLen * quantumLen;
    DivModUnique(pos, quantumLen, p.qset * qsetLen + p.quantum, p.offset);
  }

  /** Later positions never live earlier in the list. */
  lemma QsetMonotone(quantumLen: nat, qsetLen: nat, a: nat, b: nat)
    requires 0 < quantumLen && 0 < qsetLen && a <= b
    ensures Locate(quantumLen, qsetLen, a).qset <= Locate(quantumLen, qsetLen, b).qset
  {
    var total := quantumLen * qsetLen;
    var qa, qb := a / total, b / total;
    if qb < qa {
      MulMonotone(qb, qa, total);
    }
  }
}
