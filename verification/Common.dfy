/** Small datatypes and sequence facts shared by the modules of the model. */
module Common {

  /** An unsigned 8-bit value; the source works on Go `[]byte`. */
  newtype byte = x: int | 0 <= x < 256

  type Bytes = seq<byte>

  datatype Option<+T> = None | Some(value: T)

  /** Go's `uint64` counters wrap around at this value. */
  const TWO_TO_THE_64: nat := 0x1_0000_0000_0000_0000

  type u64 = x: int | 0 <= x < TWO_TO_THE_64

  function AddU64(a: u64, b: u64): u64 {
    (a + b) % TWO_TO_THE_64
  }

  lemma AddModulo(a: nat, m: nat, n: nat)
    ensures ((a + m) % TWO_TO_THE_64 + n) % TWO_TO_THE_64 == (a + (m + n)) % TWO_TO_THE_64
  {
  }

  /** The concatenation of a list of sequences, in order. */
  function Concat<T>(xss: seq<seq<T>>): seq<T> {
    if xss == [] then [] else xss[0] + Concat(xss[1..])
  }

  lemma {:induction false} ConcatAppend<T>(xss: seq<seq<T>>, yss: seq<seq<T>>)
    ensures Concat(xss + yss) == Concat(xss) + Concat(yss)
  {
    if xss == [] {
      assert xss + yss == yss;
    } else {
      assert (xss + yss)[1..] == xss[1..] + yss;
      ConcatAppend(xss[1..], yss);
    }
  }

  lemma ConcatSnoc<T>(xss: seq<seq<T>>, xs: seq<T>)
    ensures Concat(xss + [xs]) == Concat(xss) + xs
  {
    ConcatAppend(xss, [xs]);
    assert Concat([xs]) == xs + [];
  }

  lemma AppendAssociates<T>(a: seq<T>, b: seq<T>, c: seq<T>)
    ensures (a + b) + c == a + (b + c)
  {
  }

  lemma ConsAppend<T>(x: T, a: seq<T>, b: seq<T>)
    ensures [x] + (a + b) == ([x] + a) + b
  {
  }

  lemma TakeDropCons<T>(xs: seq<T>, n: nat)
    requires 1 <= n <= |xs|
    ensures xs[..n] == [xs[0]] + xs[1..][..n - 1] && xs[n..] == xs[1..][n - 1..]
  {
  }

  lemma Regroup<T>(p: seq<T>, r: seq<T>, r': seq<T>, a: seq<T>, q: seq<T>, b: seq<T>, z: seq<T>)
    requires p + r == a + q && q + r' == b + z
    ensures p + (r + r') == (a + b) + z
  {
    assert p + (r + r') == (p + r) + r' == a + (q + r') == (a + b) + z;
  }

  function Elements<T(==)>(xs: seq<T>): set<T> {
    set x | x in xs
  }

  predicate NoDuplicates<T(==)>(xs: seq<T>) {
    forall i, j :: 0 <= i < j < |xs| ==> xs[i] != xs[j]
  }
}
