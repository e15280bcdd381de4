# Elementwise addition dispatch of gorgonia's tensor engine

This project models the validation, memory-mode and dispatch logic behind `StdEng.Add` in
`tensor/defaultengine_arith.go`, and proves properties of it.

- `ArithPrep` covers `prepBinaryTensor`, `prepUnaryTensor` and `denseFromFuncOpts` as pure
  functions. Each returns the Go result tuple (reuse, safe, toReuse, incr, err). The operand checks
  run in a fixed order: a accessible, b accessible, not both non-numeric (the no-op sentinel), equal
  dtype kinds, equal shapes. A supplied reuse target must be dense, of the expected kind, and of
  the expected element count.
- `ArithAdd` covers `StdEng.Add` as an imperative method.
  - It runs the prep and rejects an inaccessible reuse target.
  - A nested type switch over the operand pair assigns the headers `dataA`, `dataB` and
    `dataReuse`, the iterators `ait`, `bit` and `iit`, and `useIter`.
  - `Dispatch` holds the type switch and hands the headers to `Run`.
  - `Run` is the memory-mode switch. The priority is increment, then overwrite (a reuse target),
    then unsafe in-place, then the safe default. It picks a flat or iterator kernel, the buffer
    written and the tensor returned.
  - The method's postcondition ties its error, its returned tensor and every buffer's new contents
    to specification functions: `AddError`, `SwitchHeaders`, `ModeFlags`, `KernelEffect`,
    `Combined` and `Accumulated`.
- `Execution` holds stand-ins for the external compute kernels (`E.Add`, `E.AddIncr`, `E.AddIter`,
  `E.AddIterIncr`) and for `copyHeader`, over integer buffers.
  - Each kernel reads its operands as they were at the call and writes only its destination.
  - Every kernel refuses a nil header (and an iterator kernel a missing iterator). A flat kernel
    also refuses headers of unequal length; an iterator kernel accepts unequal lengths but refuses
    an iterator offset outside its header. A refusing kernel reports an engine error and writes
    nothing.
  - The iterator kernels walk the offset sequences in step.
- `Tensors` is the data model. A tensor is `Dense`, `CS` (compressed sparse) or `Other`. Each
  carries accessibility, a dtype (name, kind, numeric class), a shape and its buffer (the header).
  A dense tensor also carries whether it requires an iterator and the offsets its iterator
  visits; a CS tensor carries the offsets its flat sparse iterator visits.
- `Errors` keeps an error's kind, the tensor it names and the context it is wrapped with.

### Behaviour of the code that the model reproduces

- The dense/sparse mixed pairs build iterators but never set `useIter`, so they take the flat
  kernels (lines 123-145, 174-189).
- The not-implemented errors for CS×CS and for unrecognised operands are assigned but not
  returned (lines 133, 147, 149, 152). The kernel call that follows overwrites `err`. With nil
  headers the kernel refuses, so such a pair reports an engine error, never `MethodNYI` or
  `TypeNYI` (`NotImplementedErrorsAreReplaced`). Add's doc comment (lines 81-82) lists CS×CS as
  giving a sparse tensor with unsafe mode unsupported; the code builds no headers for it.
- The iterator decision for two dense operands ignores the reuse target's layout (line 105).
- For a sparse a and a dense b the header roles are swapped (lines 138-141).
  - The unsafe mode writes b's buffer but returns a. Add's doc comment (lines 77-78) says the
    unsafe mode overwrites b, and the model agrees.
  - The default mode clones a and adds a's own buffer into the clone, since `dataB` is a's
    header, so b's values are not used. The result is the sparse clone, not the dense tensor the
    doc comment (line 77) names as the result.

## Model

| member | source | states |
|---|---|---|
| ArithPrep.DenseFromFuncOpts | tensor/defaultengine_arith.go:46-71 | safe, incr and toReuse come from the options; no target gives no reuse and no error; a target is accepted exactly when it is dense, of the expected kind and of the expected total size; otherwise the error is ReuseNotDense, CannotUseReuse (kind) or CannotUseReuseShape (size), in that order; an accepted or kind/size-rejected target is returned as given |
| ArithPrep.PrepBinaryTensor | tensor/defaultengine_arith.go:5-34 | success implies both operands accessible, at least one numeric, equal kinds and equal shapes, and the tuple comes from the options; a returned reuse is the dense target supplied; an InaccessibleData error names operand a or b |
| ArithPrep.PrepUnaryTensor | tensor/defaultengine_arith.go:36-44 | the no-op sentinel is returned exactly when the dtype is not numeric; accessibility is never checked; a numeric operand is resolved against its own shape and dtype |
| ArithPrep.FirstFailing | tensor/defaultengine_arith.go:7-32 | the index of the first failing check: every earlier check passes and the one at the index fails |
| ArithPrep.PrepBinaryReportsFirstFailure | tensor/defaultengine_arith.go:7-33 | the binary prep returns exactly the first failing check's error with a zero tuple, and resolves the options only when all five checks pass |
| ArithPrep.PrepBinaryStopsAtFirstFailure | tensor/defaultengine_arith.go:7-32 | once a check fails no later check and no option matters: operands agreeing on the checks up to the failing one get the same result under any options |
| ArithPrep.NoOpOnlyWhenNeitherNumeric | tensor/defaultengine_arith.go:19-22 | the no-op sentinel is returned if and only if both operands are accessible and neither is numeric |
| ArithPrep.OneNumericOperandIsKindChecked | tensor/defaultengine_arith.go:19-27 | with exactly one numeric operand the kind check still runs and reports a type mismatch |
| ArithPrep.UnaryPrepIsBinaryPrepWithItself | tensor/defaultengine_arith.go:36-44 | for an accessible tensor the unary prep equals the binary prep of the tensor with itself; an inaccessible one fails only the binary prep, and the unary prep ignores accessibility |
| Execution.IterSum | tensor/defaultengine_arith.go:162 | the iterator kernel's effect keeps the destination's length; what each position receives under any walk is given by IterSumPointwise |
| Execution.IterIncrSum | tensor/defaultengine_arith.go:158 | the incrementing iterator kernel's effect keeps the increment buffer's length; what each position receives under any walk is given by IterIncrSumPointwise |
| Execution.IterSumPointwise | tensor/defaultengine_arith.go:162-169 | for any walk (strided, transposed, broadcast or sparse), each destination position holds its old value plus the source values of every in-range step that targets it |
| Execution.IterIncrSumPointwise | tensor/defaultengine_arith.go:158 | for any walk, each increment position holds its old value plus x + y over every in-range step that targets it |
| Execution.Add | tensor/defaultengine_arith.go:180-187 | the flat kernel adds the source into the destination elementwise when both headers exist with equal lengths, and otherwise reports an engine error and changes nothing |
| Execution.AddIncr | tensor/defaultengine_arith.go:176 | the incrementing flat kernel adds a + b into the increment buffer when all three headers exist with equal lengths, and otherwise reports an engine error and changes nothing |
| Execution.AddIter | tensor/defaultengine_arith.go:162-169 | the iterator kernel adds source offsets into destination offsets pairwise (IterSum) when headers and iterators exist and every visited offset is in range, and otherwise reports an engine error and changes nothing |
| Execution.AddIterIncr | tensor/defaultengine_arith.go:158 | the incrementing iterator kernel adds a + b into the increment buffer at the offsets of three iterators walked in step, with the same refusal rule |
| Execution.CopyHeader | tensor/defaultengine_arith.go:161 | the reuse header receives a's values over the common length and is unchanged when either header is nil |
| Execution.IterSumOverRange | tensor/defaultengine_arith.go:162 | over a contiguous offset range the iterator kernel adds exactly the positions in the range and leaves the others |
| Execution.ContiguousIterSumIsFlat | tensor/defaultengine_arith.go:162-187 | with contiguous iterators over equal-length buffers the iterator kernel and the flat kernel give the same values |
| Execution.IterIncrSumOverRange | tensor/defaultengine_arith.go:158 | over a contiguous offset range the incrementing iterator kernel accumulates exactly the positions in the range |
| Execution.ContiguousIterIncrSumIsFlat | tensor/defaultengine_arith.go:158-176 | with contiguous iterators the incrementing iterator kernel and the incrementing flat kernel give the same values |
| Execution.IterSumLeavesUnvisited | tensor/defaultengine_arith.go:162 | the iterator kernel never changes a destination position its destination iterator does not visit |
| Execution.CopyPrefixForgetsPrior | tensor/defaultengine_arith.go:179 | copying a's header into an equal-length reuse buffer replaces all of its prior contents |
| Tensors.Clone | tensor/defaultengine_arith.go:168 | a clone is the same tensor over a fresh buffer holding the same values |
| ArithAdd.SwitchHeaders | tensor/defaultengine_arith.go:101-153 | only the dense/dense, dense/sparse and sparse/dense pairs get headers. For dense/dense and dense/sparse, dataA is a's buffer and dataB is b's (so the unsafe mode overwrites a); for sparse/dense they are swapped. In all three, dataReuse is the reuse target's. Unrecognised pairs get none. Iterators are built for the mixed pairs and for dense pairs needing them, with a reuse iterator only when there is a target. The iterator path is taken exactly for dense pairs where one operand needs it. |
| ArithAdd.ModeFlags | tensor/defaultengine_arith.go:155-189 | the memory-mode priority: increment exactly when incr is set; overwrite exactly when toReuse is set without incr; in-place exactly when only unsafe is set; the fresh clone otherwise |
| ArithAdd.Run | tensor/defaultengine_arith.go:155-189 | the memory-mode switch in priority order incr, toReuse, !safe, default. The returned tensor is reuse, reuse, a, or a fresh clone of a. Overwrite copies dataA into the reuse header before the kernel. The default mode writes only the clone. The buffer written holds the chosen kernel's result. The error is the kernel's. No other header changes. |
| ArithAdd.RunIter | tensor/defaultengine_arith.go:155-172 | the iterator branch of the memory-mode switch, with the same contract as Run. Increment calls the incrementing iterator kernel on the reuse header; overwrite copies then iterates into the reuse header; unsafe iterates into dataA; the default iterates into a clone. |
| ArithAdd.RunFlat | tensor/defaultengine_arith.go:174-189 | the flat branch of the memory-mode switch, with the same contract as Run and the flat kernels in the same four roles |
| ArithAdd.Add | tensor/defaultengine_arith.go:83-191 | the error is the first prep error, else an inaccessible reuse, else the kernel's. On an early return nothing is written and nothing is returned. After dispatch the headers are those of the type switch, the effect is that of the mode the options select, and only that mode's destination buffer changes. The safe default leaves a, b and the reuse target unchanged. |
| ArithAdd.Dispatch | tensor/defaultengine_arith.go:95-191 | once the checks pass, the headers and iterators are those the type switch builds for the operand pair (SwitchHeaders). The effect is that of the memory mode the flags select. Only that mode's destination buffer changes. |
| ArithAdd.NotImplementedErrorsAreReplaced | tensor/defaultengine_arith.go:132-189 | Add never reports MethodNYI or TypeNYI; a dispatched pair the switch has no kernel for reports the engine's refusal |
| ArithAdd.IteratorPathOnlyForDenseDense | tensor/defaultengine_arith.go:101-153 | the iterator path is taken if and only if both operands are dense and one requires an iterator; the reuse target does not affect it; mixed pairs build both iterators but stay flat |
| ArithAdd.SparseDenseSwapsRoles | tensor/defaultengine_arith.go:135-145 | for a sparse a and a dense b, dataA is b's buffer and dataB is a's, so the unsafe mode writes b's buffer |
| ArithAdd.SparseDenseDefaultIgnoresB | tensor/defaultengine_arith.go:135-188 | for a sparse a and a dense b in the default mode, the kernel accepts and the clone of a receives a + a: dataB is a's own header, so b's values take no part |
| ArithAdd.InaccessibleReuseRejected | tensor/defaultengine_arith.go:90-93 | once the prep passes, an inaccessible reuse target is rejected with InaccessibleData before any header is built, whatever the operand representations |
| ArithAdd.DefaultDenseAddSucceeds | tensor/defaultengine_arith.go:104-122 | two compatible contiguous dense operands with no options dispatch in the safe default mode, the flat kernel accepts, and the clone receives a + b elementwise |
| ArithAdd.ContiguousIteratorPathMatchesFlat | tensor/defaultengine_arith.go:155-189 | when both operand iterators are contiguous, the path chosen by the switch does not change the values written |
| ArithAdd.ContiguousIncrementPathMatchesFlat | tensor/defaultengine_arith.go:157-176 | the same for the increment mode, when the reuse iterator is contiguous too |
| ArithAdd.OverwriteForgetsReuseContents | tensor/defaultengine_arith.go:160-181 | in the overwrite mode the result does not depend on the reuse buffer's prior contents: it is a's header combined with b |
| ArithAdd.DefaultAddExample | tensor/defaultengine_arith.go:83-191 | with default options, [1 2 3; 4 5 6] + [10 20 30; 40 50 60] succeeds with [11 22 33; 44 55 66], and both operands keep their values |

## Left out

- The compute kernels are external and not part of this model. They are modelled as integer
  stand-ins; element types, per-dtype arithmetic and overflow are not modelled.
- The Go kernels may panic on nil headers or mismatched lengths. The model reports an engine
  error and writes nothing instead.
- Execution.CopyHeader: `copyHeader` is not part of this model, and its behaviour on a nil header
  is assumed, namely that it writes nothing. For CS×CS and unrecognised pairs with a reuse target,
  `dataA` and `dataReuse` stay nil (lines 147-152) and reach it at lines 161/179.
- Shape equality (`Shape.Eq`) is modelled as sequence equality. Its scalar and vector
  equivalences are not modelled.
- `TotalSize` is modelled as the product of the dimensions.
- `ParseFuncOpts`, `IteratorFromDense`, `NewFlatSparseIterator`, `requiresIterator` and
  `isNumber` are not part of this model. Their results are stored in the tensor and option values:
  - options become a reuse-or-increment target plus the incr and unsafe flags;
  - iterators become offset sequences;
  - "requires an iterator" and "numeric" become booleans.
- `getDense` (line 53) is not part of this model. `ArithPrep.DenseFromFuncOpts` takes only a
  `Dense` target as convertible, and the converted tensor is the target itself. A `CS` or `Other`
  reuse target is therefore always rejected with the not-dense error, whatever conversion Go's
  `getDense` might perform.
- Execution.AddIter: the stand-in reads its source as it was at the call. When the source shares
  the destination's buffer (a and b the same tensor with different iterators in the unsafe mode,
  line 165, or b the reuse target in the overwrite mode, lines 161-162), a step-by-step Go loop
  would read positions it has already updated; the model does not capture that in-place order.
- Execution.AddIterIncr: likewise reads a and b as they were at the call, even when one of them
  shares the increment buffer.
- Iterator traversal order, broadcasting, and sparse index metadata beyond the flat iterator's
  offsets are not modelled.
- Error message text and `errors.Wrapf` strings are reduced to a kind, a subject and a context tag.
- `Other` tensors carry a buffer. The Go clone-and-assert `.(headerer)` in the default mode would
  panic for a non-header tensor; the model does not.
- ArithAdd.Run: when the increment flag is set without a target, Go returns a typed nil inside
  the interface. The model returns no tensor.
- The commented-out `Trans` method (lines 193-262) is dead code and is not modelled.
- Concurrency: the file has none.
