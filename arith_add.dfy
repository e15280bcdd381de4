/**
  `StdEng.Add`: elementwise a + b. After the prep checks it classifies the operand pair, decides
  between the flat and the iterator kernels, and lets the memory mode choose the kernel, the
  destination buffer and the returned tensor.
 */
module ArithAdd {
  import opened Wrappers
  import opened Errors
  import opened Tensors
  import opened Execution
  import opened ArithPrep

  /** The buffers a call may touch: both operands' and the reuse target's. */
  function Buffers(a: Tensor, b: Tensor, opts: FuncOpts): set<array<int>>
  {
    {a.data, b.data} + Frame(ReuseHeader(opts.reuse))
  }

  /** The operand pairs the type switch of Add tells apart. */
  datatype Pairing = DenseDense | DenseSparse | SparseDense | SparseSparse | UnknownB | UnknownA

  function Classify(a: Tensor, b: Tensor): Pairing
  {
    if a.Dense? then (if b.Dense? then DenseDense else if b.CS? then DenseSparse else UnknownB)
    else if a.CS? then (if b.Dense? then SparseDense else if b.CS? then SparseSparse else UnknownB)
    else UnknownA
  }

  /**
    The locals the type switch leaves behind: the headers handed to the kernels (`dataA`, `dataB`,
    `dataReuse`), the iterators (`ait`, `bit`, `iit`) and whether the iterator kernels are used.
   */
  datatype Headers = Headers(dataA: Option<array<int>>, dataB: Option<array<int>>, dataReuse: Option<array<int>>,
                             ait: Option<seq<nat>>, bit: Option<seq<nat>>, iit: Option<seq<nat>>, useIter: bool)

  /** The reuse target's iterator offsets, if there is a dense reuse target. */
  function ReuseIter(reuse: Option<Tensor>): Option<seq<nat>>
  {
    if reuse.Some? && reuse.value.Dense? then Some(reuse.value.iter) else None
  }

  /** The reuse target's header, nil when there is no target. */
  function ReuseHeader(reuse: Option<Tensor>): Option<array<int>>
  {
    if reuse.Some? then Some(reuse.value.data) else None
  }

  /**
    What the type switch of Add computes for an operand pair and a reuse target: headers only for
    the pairs it recognises, iterators for the mixed pairs and for dense pairs that need them, and
    the iterator path only for the latter.
   */
  function SwitchHeaders(a: Tensor, b: Tensor, reuse: Option<Tensor>): (h: Headers)
    ensures h.useIter <==> Classify(a, b) == DenseDense && (a.needsIter || b.needsIter)
    ensures Classify(a, b) in {DenseDense, DenseSparse} ==> h.dataA == Some(a.data) && h.dataB == Some(b.data)
    ensures Classify(a, b) == SparseDense ==> h.dataA == Some(b.data) && h.dataB == Some(a.data)
    ensures Classify(a, b) in {DenseDense, DenseSparse, SparseDense} ==> h.dataReuse == ReuseHeader(reuse)
    ensures Classify(a, b) !in {DenseDense, DenseSparse, SparseDense} ==>
              h.dataA.None? && h.dataB.None? && h.dataReuse.None?
    ensures h.ait.Some? && h.bit.Some? <==> h.useIter || Classify(a, b) in {DenseSparse, SparseDense}
    ensures h.iit.Some? <==> (h.ait.Some? && reuse.Some? && reuse.value.Dense?)
  {
    match Classify(a, b)
    case DenseDense =>
      if a.needsIter || b.needsIter then
        Headers(Some(a.data), Some(b.data), ReuseHeader(reuse), Some(a.iter), Some(b.iter), ReuseIter(reuse), true)
      else
        Headers(Some(a.data), Some(b.data), ReuseHeader(reuse), None, None, None, false)
    case DenseSparse =>
      Headers(Some(a.data), Some(b.data), ReuseHeader(reuse), Some(a.iter), Some(b.flatIter), ReuseIter(reuse), false)
    case SparseDense =>
      Headers(Some(b.data), Some(a.data), ReuseHeader(reuse), Some(b.iter), Some(a.flatIter), ReuseIter(reuse), false)
    case _ =>
      Headers(None, None, None, None, None, None, false)
  }

  /** The memory modes, in the priority order the switch tests them. */
  datatype Mode = Increment | Overwrite | InPlace | Fresh

  /**
    The memory-mode switch's choice: a set flag overrides every flag after it in the order incr,
    toReuse, unsafe.
   */
  function ModeFlags(incr: bool, toReuse: bool, safe: bool): (m: Mode)
    ensures m == Increment <==> incr
    ensures m == Overwrite <==> !incr && toReuse
    ensures m == InPlace <==> !incr && !toReuse && !safe
    ensures m == Fresh <==> !incr && !toReuse && safe
  {
    if incr then Increment else if toReuse then Overwrite else if !safe then InPlace else Fresh
  }

  /** The existing buffer the kernel writes; in the fresh mode it writes a clone of a instead. */
  function Dest(m: Mode, h: Headers): Option<array<int>>
  {
    match m
    case InPlace => h.dataA
    case Fresh => None
    case _ => h.dataReuse
  }

  /** What the kernel chosen by the mode and the headers reports; `aLen` is the length of a's clone. */
  function KernelError(m: Mode, h: Headers, aLen: nat): Option<Error>
  {
    var dA, dB, dR := Len(h.dataA), Len(h.dataB), Len(h.dataReuse);
    var dest := match m
                case InPlace => dA
                case Fresh => Some(aLen)
                case _ => dR;
    if h.useIter then
      if m == Increment then AddIterIncrErr(dA, dB, dR, h.ait, h.bit, h.iit)
      else AddIterErr(dest, dB, h.ait, h.bit)
    else if m == Increment then AddIncrErr(dA, dB, dR)
    else AddErr(dest, dB)
  }

  /** What the non-incrementing kernel leaves in a destination holding `d`, given a source holding `s`. */
  function Combined(h: Headers, d: seq<int>, s: seq<int>): seq<int>
  {
    if h.useIter && h.ait.Some? && h.bit.Some? then IterSum(d, s, h.ait.value, h.bit.value) else Sum(d, s)
  }

  /** What the incrementing kernel leaves in a reuse buffer holding `inc`, given operands `x` and `y`. */
  function Accumulated(h: Headers, inc: seq<int>, x: seq<int>, y: seq<int>): seq<int>
  {
    if h.useIter && h.ait.Some? && h.bit.Some? && h.iit.Some? then
      IterIncrSum(inc, x, y, h.ait.value, h.bit.value, h.iit.value)
    else Sum(inc, Sum(x, y))
  }

  /**
    ModeFlags and SwitchHeaders read as Add's contract sees them: stated on the caller's options
    rather than on the flags and reuse target the checks hand on (which equal them once the checks
    pass). Add's contract and the lemmas about it use these; Dispatch and Run use the flag forms.
   */
  function ModeFor(opts: FuncOpts): Mode
  {
    ModeFlags(opts.incr, opts.reuse.Some?, opts.Safe())
  }

  /** The headers the type switch builds for the options' reuse target (see ModeFor). */
  function HeadersFor(a: Tensor, b: Tensor, opts: FuncOpts): Headers
  {
    SwitchHeaders(a, b, opts.reuse)
  }

  /** The checks pass and a kernel is called. */
  predicate Dispatched(a: Tensor, b: Tensor, opts: FuncOpts)
  {
    var p := PrepBinaryTensor(a, b, opts);
    p.err.None? && (p.reuse.None? || p.reuse.value.accessible)
  }

  /** The error Add returns. */
  function AddError(a: Tensor, b: Tensor, opts: FuncOpts): Option<Error>
  {
    var p := PrepBinaryTensor(a, b, opts);
    if p.err.Some? then p.err
    else if p.reuse.Some? && !p.reuse.value.accessible then Some(Error(InaccessibleData, ReuseTarget, Bare))
    else KernelError(ModeFor(opts), HeadersFor(a, b, opts), a.data.Length)
  }

  /** The errors the type switch assigns for pairs it has no kernel for. */
  function SwitchError(a: Tensor, b: Tensor): Option<Error>
  {
    match Classify(a, b)
    case SparseSparse => Some(Error(MethodNYI, NoSubject, Bare))
    case UnknownB => Some(Error(TypeNYI, OperandB, Bare))
    case UnknownA => Some(Error(TypeNYI, OperandA, Bare))
    case _ => None
  }

  /**
    What the memory-mode switch leaves behind. Increment and overwrite modes return the reuse
    target, the unsafe mode returns a, the default mode a fresh clone of a. The written buffer holds
    the kernel's result when the kernel accepts its arguments: the reuse buffer accumulates a + b;
    in overwrite mode it first receives a copy of `dataA`; the unsafe mode adds into `dataA`; the
    default mode adds into the clone. The error is the kernel's.
   */
  twostate predicate KernelEffect(a: Tensor, reuse: Option<Tensor>, m: Mode, h: Headers,
                                  new retVal: Option<Tensor>, new err: Option<Error>)
    reads Frame(h.dataA), Frame(h.dataB), Frame(h.dataReuse), a.data
    reads if retVal.Some? then {retVal.value.data} else {}
  {
    && err == KernelError(m, h, a.data.Length)
    && (m == Increment || m == Overwrite ==> retVal == reuse)
    && (m == InPlace ==> retVal == Some(a))
    && (m == Fresh ==>
          && retVal.Some? && fresh(retVal.value.data) && retVal.value == a.(data := retVal.value.data)
          && retVal.value.data[..] == if err.None? then Combined(h, old(a.data[..]), old(Vals(h.dataB)))
                                      else old(a.data[..]))
    && (m == Increment ==>
          Vals(h.dataReuse) == if err.None? then Accumulated(h, old(Vals(h.dataReuse)), old(Vals(h.dataA)), old(Vals(h.dataB)))
                               else old(Vals(h.dataReuse)))
    && (m == Overwrite ==>
          var copied := CopyPrefix(old(Vals(h.dataReuse)), old(Vals(h.dataA)));
          Vals(h.dataReuse) == if err.None? then Combined(h, copied, if h.dataB == h.dataReuse then copied else old(Vals(h.dataB)))
                               else copied)
    && (m == InPlace ==>
          Vals(h.dataA) == if err.None? then Combined(h, old(Vals(h.dataA)), old(Vals(h.dataB)))
                           else old(Vals(h.dataA)))
  }

  /**
    The memory-mode switch: increment, then reuse, then unsafe, then the default. Picks the kernel
    (flat or iterator as the headers say), the buffer it writes and the tensor returned.
   */
  method Run(a: Tensor, reuse: Option<Tensor>, safe: bool, toReuse: bool, incr: bool, h: Headers)
    returns (retVal: Option<Tensor>, err: Option<Error>)
    modifies Frame(h.dataA), Frame(h.dataReuse)
    ensures KernelEffect(a, reuse, ModeFlags(incr, toReuse, safe), h, retVal, err)
    ensures var dest := Dest(ModeFlags(incr, toReuse, safe), h);
            forall x | x in Frame(h.dataA) + Frame(h.dataReuse) && Some(x) != dest :: unchanged(x)
  {
    if h.useIter {
      retVal, err := RunIter(a, reuse, safe, toReuse, incr, h);
      return;
    }
    retVal, err := RunFlat(a, reuse, safe, toReuse, incr, h);
  }

  /** The iterator branch of the memory-mode switch. */
  method RunIter(a: Tensor, reuse: Option<Tensor>, safe: bool, toReuse: bool, incr: bool, h: Headers)
    returns (retVal: Option<Tensor>, err: Option<Error>)
    requires h.useIter
    modifies Frame(h.dataA), Frame(h.dataReuse)
    ensures KernelEffect(a, reuse, ModeFlags(incr, toReuse, safe), h, retVal, err)
    ensures var dest := Dest(ModeFlags(incr, toReuse, safe), h);
            forall x | x in Frame(h.dataA) + Frame(h.dataReuse) && Some(x) != dest :: unchanged(x)
  {
    var dataA, dataB, dataReuse, ait, bit, iit := h.dataA, h.dataB, h.dataReuse, h.ait, h.bit, h.iit;
    if incr {
      err := Execution.AddIterIncr(dataA, dataB, dataReuse, ait, bit, iit);
      retVal := reuse;
    } else if toReuse {
      CopyHeader(dataReuse, dataA);
      err := Execution.AddIter(dataReuse, dataB, ait, bit);
      retVal := reuse;
    } else if !safe {
      err := Execution.AddIter(dataA, dataB, ait, bit);
      retVal := Some(a);
    } else {
      var ret := Clone(a);
      err := Execution.AddIter(Some(ret.data), dataB, ait, bit);
      retVal := Some(ret);
    }
  }

  /** The flat branch of the memory-mode switch. */
  method RunFlat(a: Tensor, reuse: Option<Tensor>, safe: bool, toReuse: bool, incr: bool, h: Headers)
    returns (retVal: Option<Tensor>, err: Option<Error>)
    requires !h.useIter
    modifies Frame(h.dataA), Frame(h.dataReuse)
    ensures KernelEffect(a, reuse, ModeFlags(incr, toReuse, safe), h, retVal, err)
    ensures var dest := Dest(ModeFlags(incr, toReuse, safe), h);
            forall x | x in Frame(h.dataA) + Frame(h.dataReuse) && Some(x) != dest :: unchanged(x)
  {
    var dataA, dataB, dataReuse := h.dataA, h.dataB, h.dataReuse;
    if incr {
      err := Execution.AddIncr(dataA, dataB, dataReuse);
      retVal := reuse;
    } else if toReuse {
      CopyHeader(dataReuse, dataA);
      err := Execution.Add(dataReuse, dataB);
      retVal := reuse;
    } else if !safe {
      err := Execution.Add(dataA, dataB);
      retVal := Some(a);
    } else {
      var ret := Clone(a);
      err := Execution.Add(Some(ret.data), dataB);
      retVal := Some(ret);
    }
  }

  /**
    a + b under the options. Increment and overwrite modes write and return the reuse target
    (overwrite first copies a's header into it); the unsafe mode writes a's header (b's buffer when
    a is sparse and b dense) and returns a; the default mode writes and returns a fresh clone of a.
   */
  method Add(a: Tensor, b: Tensor, opts: FuncOpts) returns (retVal: Option<Tensor>, err: Option<Error>)
    modifies Buffers(a, b, opts)
    ensures err == AddError(a, b, opts)
    ensures !Dispatched(a, b, opts) ==> retVal.None? && unchanged(Buffers(a, b, opts))
    ensures Dispatched(a, b, opts) ==> KernelEffect(a, opts.reuse, ModeFor(opts), HeadersFor(a, b, opts), retVal, err)
    ensures Dispatched(a, b, opts) ==>
              var dest := Dest(ModeFor(opts), HeadersFor(a, b, opts));
              forall x | x in Buffers(a, b, opts) && Some(x) != dest :: unchanged(x)
    ensures Dispatched(a, b, opts) && ModeFor(opts) == Fresh ==> unchanged(Buffers(a, b, opts))
  {
    var reuse: Option<Tensor>, safe: bool, toReuse: bool, incr: bool;
    var prep := PrepBinaryTensor(a, b, opts);
    if prep.err.Some? {
      return None, prep.err;
    }
    reuse, safe, toReuse, incr := prep.reuse, prep.safe, prep.toReuse, prep.incr;

    if reuse.Some? && !reuse.value.accessible {
      return None, Some(Error(InaccessibleData, ReuseTarget, Bare));
    }
    assert ModeFlags(incr, toReuse, safe) == ModeFor(opts);
    retVal, err := Dispatch(a, b, reuse, safe, toReuse, incr);
  }

  /**
    The rest of Add once the checks pass: the type switch builds the headers and iterators, and the
    memory-mode switch runs the kernel.
   */
  method Dispatch(a: Tensor, b: Tensor, reuse: Option<Tensor>, safe: bool, toReuse: bool, incr: bool)
    returns (retVal: Option<Tensor>, err: Option<Error>)
    requires reuse.Some? ==> reuse.value.Dense?
    modifies {a.data, b.data} + Frame(ReuseHeader(reuse))
    ensures var m, h := ModeFlags(incr, toReuse, safe), SwitchHeaders(a, b, reuse);
            && KernelEffect(a, reuse, m, h, retVal, err)
            && forall x | x in {a.data, b.data} + Frame(ReuseHeader(reuse)) && Some(x) != Dest(m, h) :: unchanged(x)
  {
    var dataA: Option<array<int>>, dataB: Option<array<int>>, dataReuse: Option<array<int>> := None, None, None;
    var ait: Option<seq<nat>>, bit: Option<seq<nat>>, iit: Option<seq<nat>> := None, None, None;
    var useIter := false;
    err := None;

    match a {
      case Dense(_, _, _, aNeedsIter, aIter, aData) =>
        match b {
          case Dense(_, _, _, bNeedsIter, bIter, bData) =>
            if aNeedsIter || bNeedsIter {
              dataA, dataB := Some(aData), Some(bData);
              ait, bit := Some(aIter), Some(bIter);
              if reuse.Some? {
                iit := Some(reuse.value.iter);
                dataReuse := Some(reuse.value.data);
              }
              useIter := true;
            } else {
              dataA, dataB := Some(aData), Some(bData);
              if reuse.Some? {
                dataReuse := Some(reuse.value.data);
              }
            }
          case CS(_, _, _, bFlatIter, bData) =>
            dataA, dataB := Some(aData), Some(bData);
            ait, bit := Some(aIter), Some(bFlatIter);
            if reuse.Some? {
              dataReuse := Some(reuse.value.data);
              iit := Some(reuse.value.iter);
            }
          case Other(_, _, _, _) =>
            err := Some(Error(TypeNYI, OperandB, Bare));
        }
      case CS(_, _, _, aFlatIter, aData) =>
        match b {
          case Dense(_, _, _, _, bIter, bData) =>
            dataB, dataA := Some(aData), Some(bData);
            bit, ait := Some(aFlatIter), Some(bIter);
            if reuse.Some? {
              dataReuse := Some(reuse.value.data);
              iit := Some(reuse.value.iter);
            }
          case CS(_, _, _, _, _) =>
            err := Some(Error(MethodNYI, NoSubject, Bare));
          case Other(_, _, _, _) =>
            err := Some(Error(TypeNYI, OperandB, Bare));
        }
      case Other(_, _, _, _) =>
        err := Some(Error(TypeNYI, OperandA, Bare));
    }


    var h := Headers(dataA, dataB, dataReuse, ait, bit, iit, useIter);
    assert h == SwitchHeaders(a, b, reuse);
    assert err == SwitchError(a, b);
    // The not-implemented error the switch may leave in err is not returned: Run replaces it.
    retVal, err := Run(a, reuse, safe, toReuse, incr, h);
  }

  /**
    The not-implemented errors the type switch assigns are never reported: the kernel call that
    follows replaces them, and with no headers built the kernel refuses.
   */
  lemma NotImplementedErrorsAreReplaced(a: Tensor, b: Tensor, opts: FuncOpts)
    ensures AddError(a, b, opts).Some? ==> AddError(a, b, opts).value.kind !in {MethodNYI, TypeNYI}
    ensures Dispatched(a, b, opts) && SwitchError(a, b).Some? ==> AddError(a, b, opts) == Some(EngineFailure)
  {
  }

  /**
    The iterator kernels are chosen only for two dense operands one of which requires an iterator;
    the reuse target's layout plays no part. A dense and a sparse operand get iterators but stay on
    the flat kernels.
   */
  lemma IteratorPathOnlyForDenseDense(a: Tensor, b: Tensor, opts: FuncOpts, opts': FuncOpts)
    ensures HeadersFor(a, b, opts).useIter <==> a.Dense? && b.Dense? && (a.needsIter || b.needsIter)
    ensures HeadersFor(a, b, opts).useIter == HeadersFor(a, b, opts').useIter
    ensures Classify(a, b) in {DenseSparse, SparseDense} ==>
              var h := HeadersFor(a, b, opts);
              h.ait.Some? && h.bit.Some? && !h.useIter
  {
  }

  /**
    For a sparse a and a dense b the header roles are swapped: `dataA` is b's buffer, so the unsafe
    mode overwrites b (while returning a), and `dataB` is a's buffer.
   */
  lemma SparseDenseSwapsRoles(a: Tensor, b: Tensor, opts: FuncOpts)
    requires a.CS? && b.Dense?
    ensures HeadersFor(a, b, opts).dataA == Some(b.data) && HeadersFor(a, b, opts).dataB == Some(a.data)
    ensures Dest(InPlace, HeadersFor(a, b, opts)) == Some(b.data)
  {
  }

  /**
    For a sparse a and a dense b in the default mode the kernel accepts, and since `dataB` is a's own
    header the clone of a receives a + a: b's values take no part. With Add's contract, the result is
    the sparse clone `a.(data := ...)` holding these values.
   */
  lemma SparseDenseDefaultIgnoresB(a: Tensor, b: Tensor, opts: FuncOpts)
    requires a.CS? && b.Dense? && Dispatched(a, b, opts) && ModeFor(opts) == Fresh
    ensures AddError(a, b, opts).None?
    ensures var h := HeadersFor(a, b, opts);
            Combined(h, a.data[..], Vals(h.dataB)) == Sum(a.data[..], a.data[..])
  {
  }

  /**
    A reuse target that is not natively accessible is rejected once the operand checks pass,
    whatever the operands' representations, so no header is built and no buffer is written.
   */
  lemma InaccessibleReuseRejected(a: Tensor, b: Tensor, opts: FuncOpts)
    requires PrepBinaryTensor(a, b, opts).err.None?
    requires opts.reuse.Some? && !opts.reuse.value.accessible
    ensures !Dispatched(a, b, opts)
    ensures AddError(a, b, opts) == Some(Error(InaccessibleData, ReuseTarget, Bare))
  {
  }

  /**
    Two accessible, numeric dense operands of equal kind, shape and length, with no option set:
    the default mode is chosen, the flat kernel accepts, and the clone receives a + b elementwise.
   */
  lemma DefaultDenseAddSucceeds(a: Tensor, b: Tensor, x: seq<int>, y: seq<int>)
    requires a.Dense? && b.Dense? && a.accessible && b.accessible && a.dtype.number
    requires a.dtype.kind == b.dtype.kind && a.shape == b.shape
    requires !a.needsIter && !b.needsIter && a.data.Length == b.data.Length
    ensures var opts := FuncOpts(None, false, false);
            && Dispatched(a, b, opts) && ModeFor(opts) == Fresh && AddError(a, b, opts).None?
            && Combined(HeadersFor(a, b, opts), x, y) == Sum(x, y)
  {
  }

  /**
    When both operand iterators visit their buffers contiguously, the iterator kernel leaves the same
    values as the flat one: the choice of path at the type switch does not change the result.
   */
  lemma ContiguousIteratorPathMatchesFlat(a: Tensor, b: Tensor, opts: FuncOpts, d: seq<int>, s: seq<int>)
    requires a.Dense? && b.Dense? && |d| == |s|
    requires a.iter == Range(0, |d|) && b.iter == Range(0, |d|)
    ensures Combined(HeadersFor(a, b, opts), d, s) == Sum(d, s)
  {
    if HeadersFor(a, b, opts).useIter {
      ContiguousIterSumIsFlat(d, s);
    }
  }

  /** The same for the incrementing kernels, when the reuse target's iterator is contiguous too. */
  lemma ContiguousIncrementPathMatchesFlat(a: Tensor, b: Tensor, opts: FuncOpts, inc: seq<int>, x: seq<int>, y: seq<int>)
    requires a.Dense? && b.Dense? && |inc| == |x| == |y|
    requires opts.reuse.Some? && opts.reuse.value.Dense?
    requires a.iter == Range(0, |inc|) && b.iter == Range(0, |inc|) && opts.reuse.value.iter == Range(0, |inc|)
    ensures Accumulated(HeadersFor(a, b, opts), inc, x, y) == Sum(inc, Sum(x, y))
  {
    if HeadersFor(a, b, opts).useIter {
      ContiguousIterIncrSumIsFlat(inc, x, y);
    }
  }

  /**
    In overwrite mode the result does not depend on what the reuse buffer held before: the copy of
    `dataA` replaces it entirely when the two have the same length.
   */
  lemma OverwriteForgetsReuseContents(h: Headers, r1: seq<int>, r2: seq<int>, x: seq<int>, y: seq<int>)
    requires |r1| == |r2| == |x|
    ensures Combined(h, CopyPrefix(r1, x), y) == Combined(h, CopyPrefix(r2, x), y) == Combined(h, x, y)
  {
    CopyPrefixForgetsPrior(r1, x);
    CopyPrefixForgetsPrior(r2, x);
  }

  /**
    A worked example with default options: a = [1 2 3; 4 5 6] and b = [10 20 30; 40 50 60] give
    [11 22 33; 44 55 66], and neither operand changes.
   */
  method DefaultAddExample() returns (sum: seq<int>, aAfter: seq<int>, bAfter: seq<int>, err: Option<Error>)
    ensures err.None?
    ensures sum == [11, 22, 33, 44, 55, 66]
    ensures aAfter == [1, 2, 3, 4, 5, 6] && bAfter == [10, 20, 30, 40, 50, 60]
  {
    var intType := Dtype("int", Int, true);
    var da := new int[6](i => i + 1);
    var db := new int[6](i => 10 * (i + 1));
    var a := Dense(true, intType, [2, 3], false, Range(0, 6), da);
    var b := Dense(true, intType, [2, 3], false, Range(0, 6), db);
    var opts := FuncOpts(None, false, false);
    assert da[..] == [1, 2, 3, 4, 5, 6] && db[..] == [10, 20, 30, 40, 50, 60];
    DefaultDenseAddSucceeds(a, b, da[..], db[..]);
    var r;
    r, err := Add(a, b, opts);
    sum, aAfter, bAfter := r.value.data[..], da[..], db[..];
  }
}
