/**
 * Dense tensors as a shape plus a flat row-major buffer, the errors that
 * abort graph construction, and `tf.reshape` with its element-count check.
 */
module Tensors {

  /** Failures that abort building the graph. */
  datatype Error =
    | ShapeMismatch(elements: nat, shape: seq<nat>)  // a reshape to a shape of a different element count
    | UnknownChangeLoss(name: string)               // the assertion on an unrecognised `rezoom_change_loss`

  datatype Result<T> = Ok(value: T) | Err(error: Error)
  {
    predicate IsFailure()
    {
      Err?
    }

    function PropagateFailure<U>(): Result<U>
      requires Err?
    {
      Err(error)
    }

    function Extract(): T
      requires Ok?
    {
      value
    }
  }

  datatype Option<T> = None | Some(value: T)

  /** Number of elements of a tensor of the given shape (1 for a scalar). */
  function Size(shape: seq<nat>): nat
  {
    if |shape| == 0 then 1 else Size(shape[..|shape| - 1]) * shape[|shape| - 1]
  }

  lemma Size1(a: nat)
    ensures Size([a]) == a
  {
    assert [a][..0] == [];
  }

  lemma Size2(a: nat, b: nat)
    ensures Size([a, b]) == a * b
  {
    assert [a, b][..1] == [a];
    assert [a][..0] == [];
    assert Size([]) == 1;
    assert Size([a]) == a;
  }

  lemma Size3(a: nat, b: nat, c: nat)
    ensures Size([a, b, c]) == a * b * c
  {
    assert [a, b, c][..2] == [a, b];
    Size2(a, b);
  }

  lemma Size4(a: nat, b: nat, c: nat, d: nat)
    ensures Size([a, b, c, d]) == a * b * c * d
  {
    assert [a, b, c, d][..3] == [a, b, c];
    Size3(a, b, c);
  }

  datatype Tensor<T> = Tensor(shape: seq<nat>, data: seq<T>)
  {
    ghost predicate WellFormed()
    {
      |data| == Size(shape)
    }
  }

  /**
   * `tf.reshape(data, shape)`: the same buffer under a new shape, or a
   * shape error when the element counts differ.
   */
  function Reshape<T>(data: seq<T>, shape: seq<nat>): (r: Result<Tensor<T>>)
    ensures r.Ok? <==> |data| == Size(shape)
    ensures r.Ok? ==> r.value.WellFormed() && r.value.data == data && r.value.shape == shape
    ensures r.Err? ==> r.error == ShapeMismatch(|data|, shape)
  {
    if |data| == Size(shape) then Ok(Tensor(shape, data)) else Err(ShapeMismatch(|data|, shape))
  }
}
