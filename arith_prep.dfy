/**
  The validation and memory-mode resolution that every elementwise arithmetic operation runs before
  dispatching: `prepBinaryTensor`, `prepUnaryTensor` and `denseFromFuncOpts`. Each returns the
  tuple (reuse, safe, toReuse, incr, err) and stops at the first failed check.
 */
module ArithPrep {
  import opened Wrappers
  import opened Errors
  import opened Tensors

  /** The result tuple: reuse target (a dense tensor), safe, toReuse, incr, and the error. */
  datatype Prep = Prep(reuse: Option<Tensor>, safe: bool, toReuse: bool, incr: bool, err: Option<Error>)

  /** An early return: every other component of the tuple keeps its zero value. */
  function Abort(e: Error): Prep
  {
    Prep(None, false, false, false, Some(e))
  }

  /** A reuse target can be used for a result of shape `expShape` and dtype `expType`. */
  predicate ReuseFits(t: Tensor, expShape: Shape, expType: Dtype)
  {
    t.Dense? && t.dtype.kind == expType.kind && t.data.Length == TotalSize(expShape)
  }

  /**
    Resolves the options into (reuse, safe, toReuse, incr) and validates a supplied reuse target:
    it must be dense, of the expected kind, and hold exactly as many elements as the expected shape.
   */
  function DenseFromFuncOpts(expShape: Shape, expType: Dtype, opts: FuncOpts): (r: Prep)
    ensures r.safe == !opts.unsafe && r.incr == opts.incr
    ensures r.toReuse <==> opts.reuse.Some?
    ensures opts.reuse.None? ==> r.reuse.None? && r.err.None?
    ensures r.err.None? <==> opts.reuse.None? || ReuseFits(opts.reuse.value, expShape, expType)
    ensures r.reuse.Some? ==> r.reuse == opts.reuse && r.reuse.value.Dense?
    ensures r.err.None? ==> r.reuse == opts.reuse
    ensures opts.reuse.Some? && opts.reuse.value.Dense? ==> r.reuse == opts.reuse
    ensures opts.reuse.Some? && !opts.reuse.value.Dense? ==>
              r.err == Some(Error(TypeMismatch, NoSubject, ReuseNotDense))
    ensures opts.reuse.Some? && opts.reuse.value.Dense? && opts.reuse.value.dtype.kind != expType.kind ==>
              r.err == Some(Error(TypeMismatch, NoSubject, CannotUseReuse))
    ensures opts.reuse.Some? && opts.reuse.value.Dense? && opts.reuse.value.dtype.kind == expType.kind
              && opts.reuse.value.data.Length != TotalSize(expShape) ==>
              r.err == Some(Error(ShapeMismatch, NoSubject, CannotUseReuseShape))
  {
    var (reuseT, incr) := opts.IncrReuse();
    var safe := opts.Safe();
    var toReuse := reuseT.Some?;
    if !toReuse then
      Prep(None, safe, toReuse, incr, None)
    else if !reuseT.value.Dense? then
      Prep(None, safe, toReuse, incr, Some(Error(TypeMismatch, NoSubject, ReuseNotDense)))
    else if reuseT.value.dtype.kind != expType.kind then
      Prep(reuseT, safe, toReuse, incr, Some(Error(TypeMismatch, NoSubject, CannotUseReuse)))
    else if reuseT.value.data.Length != TotalSize(expShape) then
      Prep(reuseT, safe, toReuse, incr, Some(Error(ShapeMismatch, NoSubject, CannotUseReuseShape)))
    else
      Prep(reuseT, safe, toReuse, incr, None)
  }

  /**
    Validates two operands: both accessible, at least one numeric (otherwise the no-op sentinel),
    equal kinds and equal shapes; then resolves the options against a's shape and dtype.
   */
  function PrepBinaryTensor(a: Tensor, b: Tensor, opts: FuncOpts): (r: Prep)
    ensures r.err.None? ==> && a.accessible && b.accessible && (a.dtype.number || b.dtype.number)
                            && a.dtype.kind == b.dtype.kind && a.shape == b.shape
    ensures r.err.None? ==> r.reuse == opts.reuse && r.toReuse == opts.reuse.Some?
                            && r.safe == !opts.unsafe && r.incr == opts.incr
    ensures r.reuse.Some? ==> r.reuse == opts.reuse && r.reuse.value.Dense?
    ensures r.err.Some? && r.err.value.kind == InaccessibleData ==> r.err.value.subject in {OperandA, OperandB}
  {
    if !a.accessible then Abort(Error(InaccessibleData, OperandA, Bare))
    else if !b.accessible then Abort(Error(InaccessibleData, OperandB, Bare))
    else if !a.dtype.number && !b.dtype.number then Abort(NoOpError)
    else if a.dtype.kind != b.dtype.kind then Abort(Error(TypeMismatch, NoSubject, Bare))
    else if a.shape != b.shape then Abort(Error(ShapeMismatch, NoSubject, Bare))
    else DenseFromFuncOpts(a.shape, a.dtype, opts)
  }

  /**
    Validates one operand: a non-numeric dtype gives the no-op sentinel; otherwise the options are
    resolved against its shape and dtype. Accessibility is not checked.
   */
  function PrepUnaryTensor(a: Tensor, opts: FuncOpts): (r: Prep)
    ensures r.err == Some(NoOpError) <==> !a.dtype.number
    ensures r.err.Some? ==> r.err.value.kind != InaccessibleData
    ensures a.dtype.number ==> r == DenseFromFuncOpts(a.shape, a.dtype, opts)
  {
    if !a.dtype.number then Abort(NoOpError)
    else DenseFromFuncOpts(a.shape, a.dtype, opts)
  }

  /** One validation step: whether it passes and what it reports when it does not. */
  datatype Check = Check(passes: bool, failure: Error)

  /** The operand checks of the binary prep, in the order they run. */
  function BinaryChecks(a: Tensor, b: Tensor): seq<Check>
  {
    [ Check(a.accessible, Error(InaccessibleData, OperandA, Bare)),
      Check(b.accessible, Error(InaccessibleData, OperandB, Bare)),
      Check(a.dtype.number || b.dtype.number, NoOpError),
      Check(a.dtype.kind == b.dtype.kind, Error(TypeMismatch, NoSubject, Bare)),
      Check(a.shape == b.shape, Error(ShapeMismatch, NoSubject, Bare)) ]
  }

  /** The index of the first check that fails, or |checks| when all pass. */
  function FirstFailing(checks: seq<Check>): (i: nat)
    ensures i <= |checks|
    ensures forall j :: 0 <= j < i ==> checks[j].passes
    ensures i < |checks| ==> !checks[i].passes
  {
    if checks == [] then 0
    else if !checks[0].passes then 0
    else 1 + FirstFailing(checks[1..])
  }

  /**
    The binary prep reports exactly the first failing operand check, and only when every operand
    check passes does it go on to resolve the options.
   */
  lemma PrepBinaryReportsFirstFailure(a: Tensor, b: Tensor, opts: FuncOpts)
    ensures var cs := BinaryChecks(a, b); var i := FirstFailing(cs);
            && (i < |cs| ==> PrepBinaryTensor(a, b, opts) == Abort(cs[i].failure))
            && (i == |cs| ==> PrepBinaryTensor(a, b, opts) == DenseFromFuncOpts(a.shape, a.dtype, opts))
  {
    var cs := BinaryChecks(a, b);
    if a.accessible {
      assert FirstFailing(cs) == 1 + FirstFailing(cs[1..]);
      if b.accessible {
        assert FirstFailing(cs[1..]) == 1 + FirstFailing(cs[2..]);
        if a.dtype.number || b.dtype.number {
          assert FirstFailing(cs[2..]) == 1 + FirstFailing(cs[3..]);
          if a.dtype.kind == b.dtype.kind {
            assert FirstFailing(cs[3..]) == 1 + FirstFailing(cs[4..]);
          }
        }
      }
    }
  }

  /**
    Once a check fails no later check runs: the result is determined by the checks up to and
    including the failing one, whatever the other operand's later properties and the options are.
   */
  lemma PrepBinaryStopsAtFirstFailure(a: Tensor, b: Tensor, opts: FuncOpts, a': Tensor, b': Tensor, opts': FuncOpts)
    requires FirstFailing(BinaryChecks(a, b)) < |BinaryChecks(a, b)|
    requires BinaryChecks(a', b')[..FirstFailing(BinaryChecks(a, b)) + 1]
             == BinaryChecks(a, b)[..FirstFailing(BinaryChecks(a, b)) + 1]
    ensures PrepBinaryTensor(a', b', opts') == PrepBinaryTensor(a, b, opts)
  {
    var cs, cs' := BinaryChecks(a, b), BinaryChecks(a', b');
    var i := FirstFailing(cs);
    forall j | 0 <= j <= i
      ensures cs'[j] == cs[j]
    {
      assert cs'[..i + 1][j] == cs[..i + 1][j];
    }
    var i' := FirstFailing(cs');
    assert i' == i;
    PrepBinaryReportsFirstFailure(a, b, opts);
    PrepBinaryReportsFirstFailure(a', b', opts');
  }

  /** The no-op sentinel comes only from accessible operands of which neither is numeric. */
  lemma NoOpOnlyWhenNeitherNumeric(a: Tensor, b: Tensor, opts: FuncOpts)
    ensures (PrepBinaryTensor(a, b, opts).err == Some(NoOpError))
        <==> (a.accessible && b.accessible && !a.dtype.number && !b.dtype.number)
  {
  }

  /** With exactly one numeric operand the kind check still runs and can fail. */
  lemma OneNumericOperandIsKindChecked(a: Tensor, b: Tensor, opts: FuncOpts)
    requires a.accessible && b.accessible && a.dtype.number != b.dtype.number
    requires a.dtype.kind != b.dtype.kind
    ensures PrepBinaryTensor(a, b, opts).err == Some(Error(TypeMismatch, NoSubject, Bare))
  {
  }

  /**
    For an accessible tensor, the unary prep agrees with the binary prep of the tensor paired with
    itself; for an inaccessible one only the binary prep objects.
   */
  lemma UnaryPrepIsBinaryPrepWithItself(a: Tensor, opts: FuncOpts)
    ensures a.accessible ==> PrepUnaryTensor(a, opts) == PrepBinaryTensor(a, a, opts)
    ensures !a.accessible ==> PrepBinaryTensor(a, a, opts).err == Some(Error(InaccessibleData, OperandA, Bare))
                              && PrepUnaryTensor(a, opts) == PrepUnaryTensor(a.(accessible := true), opts)
  {
  }
}
