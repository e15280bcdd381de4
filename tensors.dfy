/**
  The tensor capabilities the dispatcher consumes: dtype, shape, native accessibility, the header
  (a flat buffer), the iterator a dense tensor or a flat sparse iterator yields, and cloning.
 */
module Tensors {
  import opened Wrappers

  /** The coarse element family of a dtype (Go's reflect.Kind). */
  datatype Kind =
    | Bool | Int | Int8 | Int16 | Int32 | Int64
    | Uint | Uint8 | Uint16 | Uint32 | Uint64 | Uintptr
    | Float32 | Float64 | Complex64 | Complex128
    | String | UnsafePointer | Composite

  /**
    An element type. `number` says whether the dtype belongs to the number type class; two dtypes
    with different names may share a kind.
   */
  datatype Dtype = Dtype(name: string, kind: Kind, number: bool)

  /** An ordered sequence of dimension sizes. */
  type Shape = seq<nat>

  /** The number of elements a shape holds: the product of its dimensions (1 for a scalar). */
  function TotalSize(s: Shape): nat
  {
    if s == [] then 1 else s[0] * TotalSize(s[1..])
  }

  /**
    A tensor. Every representation exposes its buffer (`data`, the header the engine reads and
    writes). `iter` is the sequence of offsets the dense iterator visits, `flatIter` the offsets a
    flat sparse iterator visits, and `needsIter` whether a dense tensor requires iterator traversal
    (it is a view, strided or masked).
   */
  datatype Tensor =
    | Dense(accessible: bool, dtype: Dtype, shape: Shape, needsIter: bool, iter: seq<nat>, data: array<int>)
    | CS(accessible: bool, dtype: Dtype, shape: Shape, flatIter: seq<nat>, data: array<int>)
    | Other(accessible: bool, dtype: Dtype, shape: Shape, data: array<int>)

  /**
    The parsed function options: a reuse or increment target, whether the target is incremented,
    and whether the caller asked for an unsafe (in-place) operation.
   */
  datatype FuncOpts = FuncOpts(reuse: Option<Tensor>, incr: bool, unsafe: bool)
  {
    function Safe(): bool { !unsafe }

    function IncrReuse(): (Option<Tensor>, bool) { (reuse, incr) }
  }

  /** A copy of `t` with a new buffer holding the same values. */
  method Clone(t: Tensor) returns (c: Tensor)
    ensures fresh(c.data)
    ensures c == t.(data := c.data)
    ensures c.data[..] == t.data[..]
  {
    var d := new int[t.data.Length](i reads t.data requires 0 <= i < t.data.Length => t.data[i]);
    c := t.(data := d);
  }
}
