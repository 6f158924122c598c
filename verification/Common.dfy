/** Types shared by the driver models. */
module Common {

  datatype Option<+T> = None | Some(value: T)

  /** One byte of driver data. */
  newtype Byte = b: int | 0 <= b < 256

  function Min(a: nat, b: nat): nat {
    if a <= b then a else b
  }

  function Max(a: nat, b: nat): nat {
    if a <= b then b else a
  }

  /** `cells` with `data` copied over the positions that start at `at`. */
  function Poke(cells: seq<Byte>, at: nat, data: seq<Byte>): (r: seq<Byte>)
    requires at + |data| <= |cells|
    ensures |r| == |cells|
    ensures r[at..at + |data|] == data
    ensures forall i :: 0 <= i < |cells| && !(at <= i < at + |data|) ==> r[i] == cells[i]
  {
    cells[..at] + data + cells[at + |data|..]
  }
}
