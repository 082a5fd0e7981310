/** Tensors saved for the backward pass, and the copies an offload makes of them. */
module Tensors {

  /** What the handlers take as the identity of a tensor: where it starts in device memory and
      its element type, not its shape or strides. */
  datatype Key = Key(ptr: int, dtype: int)

  /** `data` lists the elements in row order, whatever the strides. */
  datatype Tensor = Tensor(ptr: int, dtype: int, shape: seq<nat>, data: seq<int>) {

    function KeyOf(): Key {
      Key(ptr, dtype)
    }

    predicate WellFormed() {
      Numel(shape) == |data|
    }

    /** Equal as far as a computation can tell: the address is not part of the value. */
    predicate SameValue(other: Tensor) {
      dtype == other.dtype && shape == other.shape && data == other.data
    }
  }

  /** A contiguous copy in CPU memory. */
  datatype CpuCopy = CpuCopy(dtype: int, shape: seq<nat>, data: seq<int>)

  /** Stands for the address of a tensor that a reload allocates. */
  const FRESH := -1

  function Numel(shape: seq<nat>): nat {
    if shape == [] then 1 else shape[0] * Numel(shape[1..])
  }

  /** The number of elements is the product of the sides, and the number of a scalar is one. */
  lemma {:induction false} NumelProduct(a: seq<nat>, b: seq<nat>, n: nat)
    ensures Numel(a + b) == Numel(a) * Numel(b) && Numel([n]) == n
  {
    assert [n][1..] == [];
    if a == [] {
      assert a + b == b;
    } else {
      assert (a + b)[1..] == a[1..] + b;
      NumelProduct(a[1..], b, n);
      assert a[0] * (Numel(a[1..]) * Numel(b)) == a[0] * Numel(a[1..]) * Numel(b);
    }
  }

  function Offload(t: Tensor): CpuCopy {
    CpuCopy(t.dtype, t.shape, t.data)
  }

  function Reload(c: CpuCopy): Tensor {
    Tensor(FRESH, c.dtype, c.shape, c.data)
  }

  /** One tensor handed to the saved-tensor hook; the other two fields are the verdicts of the
      fake-tensor test and of the handler's checker at that moment. */
  datatype Saved = Saved(tensor: Tensor, stray: bool, wanted: bool) {

    predicate Kept() {
      !stray && wanted
    }
  }
}
