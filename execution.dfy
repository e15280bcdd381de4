/**
  Stand-ins for the compute engine the dispatcher calls (`e.E.Add`, `AddIncr`, `AddIter`,
  `AddIterIncr`) and for `copyHeader`. Elements are integers. A kernel reads its operands as they
  were when it was called, even one that shares the destination's buffer, and writes only its
  destination header. It refuses (with an engine error, writing nothing) a missing header or
  iterator; a flat kernel also refuses headers of different lengths, an iterator kernel an
  iterator offset outside its header (it accepts headers of different lengths).
 */
module Execution {
  import opened Wrappers
  import opened Errors

  /** The objects a possibly-nil header lets a kernel touch. */
  function Frame(h: Option<array<int>>): set<array<int>>
  {
    if h.Some? then {h.value} else {}
  }

  function Len(h: Option<array<int>>): Option<nat>
  {
    if h.Some? then Some(h.value.Length) else None
  }

  /** The values a header holds (none for a nil header). */
  function Vals(h: Option<array<int>>): seq<int>
    reads Frame(h)
  {
    if h.Some? then h.value[..] else []
  }

  function Min(x: nat, y: nat): nat
  {
    if x <= y then x else y
  }

  /** Elementwise sum over the common length of `d` and `s`. */
  function Sum(d: seq<int>, s: seq<int>): seq<int>
  {
    seq(Min(|d|, |s|), i requires 0 <= i < Min(|d|, |s|) => d[i] + s[i])
  }

  /** `d` with its leading elements overwritten by those of `s`, as many as both have. */
  function CopyPrefix(d: seq<int>, s: seq<int>): seq<int>
  {
    seq(|d|, i requires 0 <= i < |d| => if i < |s| then s[i] else d[i])
  }

  /** The offsets `lo`, `lo + 1`, ..., `hi - 1`: what an iterator over a contiguous buffer visits. */
  function Range(lo: nat, hi: nat): seq<nat>
  {
    seq(if lo <= hi then hi - lo else 0, k requires 0 <= k => lo + k)
  }

  /** Every one of the first `n` offsets lies inside a buffer of length `len`. */
  predicate Fits(offsets: seq<nat>, n: nat, len: nat)
  {
    forall k :: 0 <= k < n && k < |offsets| ==> offsets[k] < len
  }

  /**
    The iterator kernel's effect: walking both iterators in step, `d[i] += s[j]` for each pair of
    offsets (i, j), until either iterator is exhausted.
   */
  function IterSum(d: seq<int>, s: seq<int>, ai: seq<nat>, bi: seq<nat>): (r: seq<int>)
    ensures |r| == |d|
    decreases |ai|
  {
    if ai == [] || bi == [] then d
    else
      var i, j := ai[0], bi[0];
      IterSum(if i < |d| && j < |s| then d[i := d[i] + s[j]] else d, s, ai[1..], bi[1..])
  }

  /**
    The incrementing iterator kernel's effect: walking three iterators in step,
    `inc[k] += x[i] + y[j]` for each triple of offsets (i, j, k).
   */
  function IterIncrSum(inc: seq<int>, x: seq<int>, y: seq<int>, ai: seq<nat>, bi: seq<nat>, ii: seq<nat>): (r: seq<int>)
    ensures |r| == |inc|
    decreases |ai|
  {
    if ai == [] || bi == [] || ii == [] then inc
    else
      var i, j, k := ai[0], bi[0], ii[0];
      var next := if i < |x| && j < |y| && k < |inc| then inc[k := inc[k] + (x[i] + y[j])] else inc;
      IterIncrSum(next, x, y, ai[1..], bi[1..], ii[1..])
  }

  function Steps(ai: seq<nat>, bi: seq<nat>): nat
  {
    Min(|ai|, |bi|)
  }

  function Steps3(ai: seq<nat>, bi: seq<nat>, ii: seq<nat>): nat
  {
    Min(Min(|ai|, |bi|), |ii|)
  }

  /** When the flat kernel refuses: a missing header or headers of different lengths. */
  function AddErr(dest: Option<nat>, src: Option<nat>): Option<Error>
  {
    if dest.Some? && src.Some? && dest.value == src.value then None else Some(EngineFailure)
  }

  function AddIncrErr(a: Option<nat>, b: Option<nat>, incr: Option<nat>): Option<Error>
  {
    if a.Some? && b.Some? && incr.Some? && a.value == b.value == incr.value then None
    else Some(EngineFailure)
  }

  /** When the iterator kernel refuses: a missing header or iterator, or an offset out of range. */
  function AddIterErr(dest: Option<nat>, src: Option<nat>, ait: Option<seq<nat>>, bit: Option<seq<nat>>): Option<Error>
  {
    if && dest.Some? && src.Some? && ait.Some? && bit.Some?
       && Fits(ait.value, Steps(ait.value, bit.value), dest.value)
       && Fits(bit.value, Steps(ait.value, bit.value), src.value)
    then None
    else Some(EngineFailure)
  }

  function AddIterIncrErr(a: Option<nat>, b: Option<nat>, incr: Option<nat>,
                          ait: Option<seq<nat>>, bit: Option<seq<nat>>, iit: Option<seq<nat>>): Option<Error>
  {
    if && a.Some? && b.Some? && incr.Some? && ait.Some? && bit.Some? && iit.Some?
       && Fits(ait.value, Steps3(ait.value, bit.value, iit.value), a.value)
       && Fits(bit.value, Steps3(ait.value, bit.value, iit.value), b.value)
       && Fits(iit.value, Steps3(ait.value, bit.value, iit.value), incr.value)
    then None
    else Some(EngineFailure)
  }

  /** `E.Add(t, dest, src)`: dest[i] += src[i]. */
  method Add(dest: Option<array<int>>, src: Option<array<int>>) returns (err: Option<Error>)
    modifies Frame(dest)
    ensures err == AddErr(Len(dest), Len(src))
    ensures Vals(dest) == if err.None? then Sum(old(Vals(dest)), old(Vals(src))) else old(Vals(dest))
  {
    err := AddErr(Len(dest), Len(src));
    if err.None? {
      var d, s := dest.value, src.value;
      forall i | 0 <= i < d.Length {
        d[i] := d[i] + s[i];
      }
    }
  }

  /** `E.AddIncr(t, a, b, incr)`: incr[i] += a[i] + b[i]. */
  method AddIncr(a: Option<array<int>>, b: Option<array<int>>, incr: Option<array<int>>) returns (err: Option<Error>)
    modifies Frame(incr)
    ensures err == AddIncrErr(Len(a), Len(b), Len(incr))
    ensures Vals(incr) == if err.None? then Sum(old(Vals(incr)), Sum(old(Vals(a)), old(Vals(b)))) else old(Vals(incr))
  {
    err := AddIncrErr(Len(a), Len(b), Len(incr));
    if err.None? {
      var x, y, d := a.value, b.value, incr.value;
      forall i | 0 <= i < d.Length {
        d[i] := d[i] + (x[i] + y[i]);
      }
    }
  }

  /** `E.AddIter(t, dest, src, ait, bit)`: dest[i] += src[j] for the offsets i, j the iterators yield. */
  method AddIter(dest: Option<array<int>>, src: Option<array<int>>, ait: Option<seq<nat>>, bit: Option<seq<nat>>)
    returns (err: Option<Error>)
    modifies Frame(dest)
    ensures err == AddIterErr(Len(dest), Len(src), ait, bit)
    ensures Vals(dest) == if err.None? then IterSum(old(Vals(dest)), old(Vals(src)), ait.value, bit.value)
                          else old(Vals(dest))
  {
    err := AddIterErr(Len(dest), Len(src), ait, bit);
    if err.None? {
      var d := dest.value;
      var r := IterSum(d[..], src.value[..], ait.value, bit.value);
      forall i | 0 <= i < d.Length {
        d[i] := r[i];
      }
    }
  }

  /** `E.AddIterIncr(t, a, b, incr, ait, bit, iit)`: incr[k] += a[i] + b[j] for the offsets i, j, k. */
  method AddIterIncr(a: Option<array<int>>, b: Option<array<int>>, incr: Option<array<int>>,
                     ait: Option<seq<nat>>, bit: Option<seq<nat>>, iit: Option<seq<nat>>)
    returns (err: Option<Error>)
    modifies Frame(incr)
    ensures err == AddIterIncrErr(Len(a), Len(b), Len(incr), ait, bit, iit)
    ensures Vals(incr) == if err.None? then IterIncrSum(old(Vals(incr)), old(Vals(a)), old(Vals(b)), ait.value, bit.value, iit.value)
                          else old(Vals(incr))
  {
    err := AddIterIncrErr(Len(a), Len(b), Len(incr), ait, bit, iit);
    if err.None? {
      var d := incr.value;
      var r := IterIncrSum(d[..], a.value[..], b.value[..], ait.value, bit.value, iit.value);
      forall i | 0 <= i < d.Length {
        d[i] := r[i];
      }
    }
  }

  /**
    `copyHeader(dst, src, t)`: copies as many leading elements as both headers hold (nothing when a
    header is nil).
   */
  method CopyHeader(dst: Option<array<int>>, src: Option<array<int>>)
    modifies Frame(dst)
    ensures Vals(dst) == CopyPrefix(old(Vals(dst)), old(Vals(src)))
  {
    if dst.Some? {
      var d, s := dst.value, Vals(src);
      forall i | 0 <= i < d.Length && i < |s| {
        d[i] := s[i];
      }
    }
  }

  /**
    Over a contiguous buffer the iterator kernel adds exactly the positions `lo` to `hi - 1`: this
    is why the dispatcher may take the flat path when no operand requires an iterator.
   */
  lemma {:induction false} IterSumOverRange(d: seq<int>, s: seq<int>, lo: nat, hi: nat)
    requires lo <= hi <= |d| && hi <= |s|
    ensures forall i :: 0 <= i < |d| ==>
              IterSum(d, s, Range(lo, hi), Range(lo, hi))[i] == if lo <= i < hi then d[i] + s[i] else d[i]
    decreases hi - lo
  {
    if lo < hi {
      var d' := d[lo := d[lo] + s[lo]];
      assert Range(lo, hi)[1..] == Range(lo + 1, hi);
      IterSumOverRange(d', s, lo + 1, hi);
    }
  }

  /** With contiguous iterators over equal-length buffers, the iterator and flat kernels agree. */
  lemma ContiguousIterSumIsFlat(d: seq<int>, s: seq<int>)
    requires |d| == |s|
    ensures IterSum(d, s, Range(0, |d|), Range(0, |d|)) == Sum(d, s)
  {
    IterSumOverRange(d, s, 0, |d|);
  }

  lemma {:induction false} IterIncrSumOverRange(inc: seq<int>, x: seq<int>, y: seq<int>, lo: nat, hi: nat)
    requires lo <= hi <= |inc| && hi <= |x| && hi <= |y|
    ensures forall i :: 0 <= i < |inc| ==>
              IterIncrSum(inc, x, y, Range(lo, hi), Range(lo, hi), Range(lo, hi))[i]
                == if lo <= i < hi then inc[i] + (x[i] + y[i]) else inc[i]
    decreases hi - lo
  {
    if lo < hi {
      var inc' := inc[lo := inc[lo] + (x[lo] + y[lo])];
      assert Range(lo, hi)[1..] == Range(lo + 1, hi);
      IterIncrSumOverRange(inc', x, y, lo + 1, hi);
    }
  }

  /** With contiguous iterators, the incrementing iterator and flat kernels agree. */
  lemma ContiguousIterIncrSumIsFlat(inc: seq<int>, x: seq<int>, y: seq<int>)
    requires |inc| == |x| == |y|
    ensures IterIncrSum(inc, x, y, Range(0, |inc|), Range(0, |inc|), Range(0, |inc|)) == Sum(inc, Sum(x, y))
  {
    IterIncrSumOverRange(inc, x, y, 0, |inc|);
  }

  /** The iterator kernel never writes a destination position its destination iterator skips. */
  lemma {:induction false} IterSumLeavesUnvisited(d: seq<int>, s: seq<int>, ai: seq<nat>, bi: seq<nat>, p: nat)
    requires p < |d|
    requires forall k :: 0 <= k < |ai| ==> ai[k] != p
    ensures IterSum(d, s, ai, bi)[p] == d[p]
    decreases |ai|
  {
    if ai != [] && bi != [] {
      var i, j := ai[0], bi[0];
      var d' := if i < |d| && j < |s| then d[i := d[i] + s[j]] else d;
      assert forall k :: 0 <= k < |ai| - 1 ==> ai[1..][k] == ai[k + 1];
      IterSumLeavesUnvisited(d', s, ai[1..], bi[1..], p);
    }
  }

  /**
    What the iterator kernel adds at destination position `p` of a buffer of length `n`: `s[j]` for
    every step (i, j) of the walk with `i == p` and both offsets in range.
   */
  function Contribution(n: nat, s: seq<int>, ai: seq<nat>, bi: seq<nat>, p: nat): int
    decreases |ai|
  {
    if ai == [] || bi == [] then 0
    else
      (if ai[0] == p && ai[0] < n && bi[0] < |s| then s[bi[0]] else 0)
      + Contribution(n, s, ai[1..], bi[1..], p)
  }

  /**
    For any walk (strided, transposed, broadcast or sparse), each destination position ends up with
    its old value plus everything the walk adds at it.
   */
  lemma {:induction false} IterSumPointwise(d: seq<int>, s: seq<int>, ai: seq<nat>, bi: seq<nat>, p: nat)
    requires p < |d|
    ensures IterSum(d, s, ai, bi)[p] == d[p] + Contribution(|d|, s, ai, bi, p)
    decreases |ai|
  {
    if ai != [] && bi != [] {
      var i, j := ai[0], bi[0];
      var d' := if i < |d| && j < |s| then d[i := d[i] + s[j]] else d;
      IterSumPointwise(d', s, ai[1..], bi[1..], p);
    }
  }

  /**
    What the incrementing iterator kernel adds at position `p` of an increment buffer of length `n`:
    `x[i] + y[j]` for every step (i, j, k) of the walk with `k == p` and all three offsets in range.
   */
  function IncrContribution(n: nat, x: seq<int>, y: seq<int>, ai: seq<nat>, bi: seq<nat>, ii: seq<nat>, p: nat): int
    decreases |ai|
  {
    if ai == [] || bi == [] || ii == [] then 0
    else
      (if ii[0] == p && ai[0] < |x| && bi[0] < |y| && ii[0] < n then x[ai[0]] + y[bi[0]] else 0)
      + IncrContribution(n, x, y, ai[1..], bi[1..], ii[1..], p)
  }

  /** For any walk, each increment position ends up with its old value plus what the walk adds at it. */
  lemma {:induction false} IterIncrSumPointwise(inc: seq<int>, x: seq<int>, y: seq<int>,
                                                ai: seq<nat>, bi: seq<nat>, ii: seq<nat>, p: nat)
    requires p < |inc|
    ensures IterIncrSum(inc, x, y, ai, bi, ii)[p] == inc[p] + IncrContribution(|inc|, x, y, ai, bi, ii, p)
    decreases |ai|
  {
    if ai != [] && bi != [] && ii != [] {
      var i, j, k := ai[0], bi[0], ii[0];
      var next := if i < |x| && j < |y| && k < |inc| then inc[k := inc[k] + (x[i] + y[j])] else inc;
      IterIncrSumPointwise(next, x, y, ai[1..], bi[1..], ii[1..], p);
    }
  }

  /** Overwriting the reuse buffer with an operand of the same length forgets its prior contents. */
  lemma CopyPrefixForgetsPrior(r: seq<int>, x: seq<int>)
    requires |r| == |x|
    ensures CopyPrefix(r, x) == x
  {
  }
}
