/** Spectrum binning (dash_spectra/util.py `bin_spectra`, copied verbatim in
    custom_code/templatetags/custom_code_tags.py): the loop walks the flux
    positions in steps of `b`, averages each complete block of `b`
    wavelengths and fluxes, and emits the pair of means when the mean
    wavelength is positive. A trailing incomplete block is not averaged: the
    means of the previous block are still in `sumx`/`sumy` and are checked and
    emitted again. Values are reals; Python's float rounding is not modelled. */
module Binning {
  import opened Wrappers
  import Permissions

  /** The exceptions `bin_spectra` can raise. */
  datatype BinError =
    | ZeroStep            // `range()` with a step of 0
    | UnboundSum          // `sumx` read before any block was complete
    | WaveIndex(i: int)   // `waves[i]` out of range

  function Sum(s: seq<real>): real {
    if s == [] then 0.0 else Sum(s[..|s| - 1]) + s[|s| - 1]
  }

  function Min(a: int, b: int): int {
    if a < b then a else b
  }

  /** `k * b`, the start of block `k`, written as repeated addition. */
  function Offset(k: nat, b: nat): nat {
    if k == 0 then 0 else Offset(k - 1, b) + b
  }

  /** `n // b`: the number of complete blocks of `b` in `n` positions. */
  function FullBlocks(n: int, b: nat): nat
    requires b > 0
    decreases if n < 0 then 0 else n
  {
    if n < b then 0 else 1 + FullBlocks(n - b, b)
  }

  /** The number of loop steps, `len(range(0, n, b))`: the complete blocks
      and a last incomplete one. */
  function Steps(n: int, b: nat): nat
    requires b > 0
    decreases if n < 0 then 0 else n
  {
    if n <= 0 then 0 else 1 + Steps(n - b, b)
  }

  /** The mean of block `j`: the `b` values from position `Offset(j, b)`. */
  function Mean(s: seq<real>, b: nat, j: nat): real
    requires b > 0 && Offset(j, b) + b <= |s|
  {
    Sum(s[Offset(j, b)..Offset(j, b) + b]) / (b as real)
  }

  lemma {:induction false} OffsetMono(j: nat, k: nat, b: nat)
    requires j <= k
    ensures Offset(j, b) <= Offset(k, b)
    decreases k
  {
    if j < k {
      OffsetMono(j, k - 1, b);
    }
  }

  /** Block `k` is complete in `n` positions exactly when `k < n // b`. */
  lemma {:induction false} FullBlocksIff(n: int, b: nat, k: nat)
    requires b > 0
    ensures Offset(k, b) + b <= n <==> k < FullBlocks(n, b)
    decreases k
  {
    if k > 0 && n >= b {
      FullBlocksIff(n - b, b, k - 1);
      OffsetShift(k, b);
    }
  }

  /** Step `k` of the loop runs exactly when its start is below `n`. */
  lemma {:induction false} StepsIff(n: int, b: nat, k: nat)
    requires b > 0
    ensures Offset(k, b) < n <==> k < Steps(n, b)
    decreases k
  {
    if k > 0 && n > 0 {
      StepsIff(n - b, b, k - 1);
      OffsetShift(k, b);
    }
  }

  lemma {:induction false} OffsetShift(k: nat, b: nat)
    requires k > 0
    ensures Offset(k, b) == b + Offset(k - 1, b)
  {
  }

  /** The steps are the complete blocks plus at most one more. */
  lemma {:induction false} StepsBlocks(n: int, b: nat)
    requires b > 0
    ensures FullBlocks(n, b) <= Steps(n, b) <= FullBlocks(n, b) + 1
    ensures Steps(n, b) == FullBlocks(n, b) <==> Offset(FullBlocks(n, b), b) >= n
    decreases if n < 0 then 0 else n
  {
    if n >= b {
      StepsBlocks(n - b, b);
      OffsetShift(FullBlocks(n, b), b);
    }
  }

  /** Step `k` works on block `k` while that block is complete; past the last
      complete block it repeats the last one. */
  function BlockOf(n: int, b: nat, k: nat): nat
    requires b > 0 && n >= b
  {
    Min(k, FullBlocks(n, b) - 1)
  }

  /** The outputs after the first `k` loop steps; the blocks they read must be
      present in `waves`. */
  function Binned(waves: seq<real>, fluxes: seq<real>, b: nat, k: nat): (seq<real>, seq<real>)
    requires 0 < b <= |fluxes| && Offset(Min(k, FullBlocks(|fluxes|, b)), b) <= |waves|
  {
    if k == 0 then ([], [])
    else
      BinnedFrame(|fluxes|, b, k);
      var prev := Binned(waves, fluxes, b, k - 1);
      var j := BlockOf(|fluxes|, b, k - 1);
      if Mean(waves, b, j) > 0.0 then (prev.0 + [Mean(waves, b, j)], prev.1 + [Mean(fluxes, b, j)])
      else prev
  }

  /** Step `k - 1` works on the block that ends where the first `k` steps'
      complete blocks end, inside the fluxes. */
  lemma BinnedFrame(n: int, b: nat, k: nat)
    requires 0 < b <= n && k > 0
    ensures Offset(Min(k - 1, FullBlocks(n, b)), b) <= Offset(Min(k, FullBlocks(n, b)), b)
    ensures Offset(BlockOf(n, b, k - 1), b) + b == Offset(Min(k, FullBlocks(n, b)), b)
    ensures Offset(BlockOf(n, b, k - 1), b) + b <= n
  {
    var j := BlockOf(n, b, k - 1);
    FullBlocksIff(n, b, 0);
    FullBlocksIff(n, b, j);
    OffsetMono(Min(k - 1, FullBlocks(n, b)), Min(k, FullBlocks(n, b)), b);
    assert j + 1 == Min(k, FullBlocks(n, b));
  }

  /** One more loop step: the means of the block it works on are appended
      when the mean wavelength is positive. */
  lemma BinnedStep(waves: seq<real>, fluxes: seq<real>, b: nat, k: nat)
    requires 0 < b <= |fluxes| && Offset(BlockOf(|fluxes|, b, k), b) + b <= |waves|
    ensures Offset(Min(k, FullBlocks(|fluxes|, b)), b) <= |waves|
    ensures Offset(Min(k + 1, FullBlocks(|fluxes|, b)), b) <= |waves|
    ensures Offset(BlockOf(|fluxes|, b, k), b) + b <= |fluxes|
    ensures Binned(waves, fluxes, b, k + 1) ==
      (var m := Mean(waves, b, BlockOf(|fluxes|, b, k));
       if m > 0.0 then (Binned(waves, fluxes, b, k).0 + [m], Binned(waves, fluxes, b, k).1 + [Mean(fluxes, b, BlockOf(|fluxes|, b, k))])
       else Binned(waves, fluxes, b, k))
  {
    var j := BlockOf(|fluxes|, b, k);
    FullBlocksIff(|fluxes|, b, 0);
    FullBlocksIff(|fluxes|, b, j);
    assert Min(k + 1, FullBlocks(|fluxes|, b)) == j + 1;
    OffsetMono(Min(k, FullBlocks(|fluxes|, b)), j + 1, b);
  }

  /** What `bin_spectra(waves, fluxes, b)` returns or raises. A negative step
      makes the range empty; so does an empty flux list. */
  function BinSpectraSpec(waves: seq<real>, fluxes: seq<real>, b: int): Result<(seq<real>, seq<real>), BinError> {
    if b == 0 then Err(ZeroStep)
    else if b < 0 || |fluxes| == 0 then Ok(([], []))
    else if |fluxes| < b then Err(UnboundSum)
    else if |waves| < Offset(FullBlocks(|fluxes|, b), b) then Err(WaveIndex(|waves|))
    else
      StepsBlocks(|fluxes|, b);
      Ok(Binned(waves, fluxes, b, Steps(|fluxes|, b)))
  }

  /** The inner loop: the sums of one complete block. */
  method SumBlock(waves: seq<real>, fluxes: seq<real>, index: nat, b: nat) returns (r: Result<(real, real), BinError>)
    requires b > 0 && index <= |waves| && index + b <= |fluxes|
    ensures index + b <= |waves| ==> r == Ok((Sum(waves[index..index + b]), Sum(fluxes[index..index + b])))
    ensures index + b > |waves| ==> r == Err(WaveIndex(|waves|))
  {
    var sumx, sumy := 0.0, 0.0;
    var binindex := index;
    while binindex < index + b
      invariant index <= binindex <= index + b && binindex <= |waves|
      invariant sumx == Sum(waves[index..binindex]) && sumy == Sum(fluxes[index..binindex])
    {
      if binindex < |fluxes| {
        if binindex >= |waves| {
          return Err(WaveIndex(binindex));
        }
        assert waves[index..binindex + 1][..binindex - index] == waves[index..binindex];
        assert fluxes[index..binindex + 1][..binindex - index] == fluxes[index..binindex];
        sumx := sumx + waves[binindex];
        sumy := sumy + fluxes[binindex];
      }
      binindex := binindex + 1;
    }
    r := Ok((sumx, sumy));
  }

  /** One step's `sumx`/`sumy`: fresh means over a complete block, the
      previous step's means otherwise, or the error the step raises. */
  method StepSums(waves: seq<real>, fluxes: seq<real>, b: nat, index: nat, ghost k: nat, sumx: Option<real>, sumy: real)
    returns (r: Result<(real, real), BinError>)
    requires b > 0 && index == Offset(k, b) && index < |fluxes|
    requires k == 0 ==> sumx.None?
    requires k > 0 ==> |fluxes| >= b && FullBlocks(|fluxes|, b) >= 1
    requires k > 0 ==> Offset(BlockOf(|fluxes|, b, k - 1), b) + b <= |waves| && Offset(BlockOf(|fluxes|, b, k - 1), b) + b <= |fluxes|
    requires k > 0 ==> sumx == Some(Mean(waves, b, BlockOf(|fluxes|, b, k - 1))) && sumy == Mean(fluxes, b, BlockOf(|fluxes|, b, k - 1))
    ensures r.Ok? ==>
      (|fluxes| >= b && FullBlocks(|fluxes|, b) >= 1
       && Offset(BlockOf(|fluxes|, b, k), b) + b <= |waves| && Offset(BlockOf(|fluxes|, b, k), b) + b <= |fluxes|
       && r.value == (Mean(waves, b, BlockOf(|fluxes|, b, k)), Mean(fluxes, b, BlockOf(|fluxes|, b, k))))
    ensures r.Err? ==> r == (if |fluxes| < b then Err(UnboundSum) else Err(WaveIndex(|waves|)))
    ensures r.Err? && |fluxes| >= b ==> |waves| < Offset(FullBlocks(|fluxes|, b), b)
  {
    var n := |fluxes|;
    FullBlocksIff(n, b, k);
    FullBlocksIff(n, b, 0);
    if index + b - 1 <= n - 1 {
      // a complete block
      if k > 0 {
        OffsetMono(BlockOf(n, b, k - 1) + 1, k, b);
      }
      var sums := SumBlock(waves, fluxes, index, b);
      if sums.Err? {
        OffsetMono(k + 1, FullBlocks(n, b), b);
        return Err(sums.error);
      }
      assert BlockOf(n, b, k) == k;
      r := Ok((sums.value.0 / (b as real), sums.value.1 / (b as real)));
    } else if sumx.Some? {
      // the previous block's means are still bound
      assert BlockOf(n, b, k) == BlockOf(n, b, k - 1);
      r := Ok((sumx.value, sumy));
    } else {
      r := Err(UnboundSum);
    }
  }

  /** The loop's state after `k` steps: nothing bound and nothing emitted
      before the first step; afterwards the outputs of the first `k` steps,
      with `sumx`/`sumy` the means of the block step `k - 1` worked on. */
  predicate LoopState(waves: seq<real>, fluxes: seq<real>, b: nat, k: nat,
                      sumx: Option<real>, sumy: real, binnedWaves: seq<real>, binnedFlux: seq<real>)
    requires b > 0
  {
    if k == 0 then sumx.None? && binnedWaves == [] && binnedFlux == []
    else
      |fluxes| >= b && FullBlocks(|fluxes|, b) >= 1
      && Offset(BlockOf(|fluxes|, b, k - 1), b) + b <= |waves| && Offset(BlockOf(|fluxes|, b, k - 1), b) + b <= |fluxes|
      && Offset(Min(k, FullBlocks(|fluxes|, b)), b) <= |waves|
      && (binnedWaves, binnedFlux) == Binned(waves, fluxes, b, k)
      && sumx == Some(Mean(waves, b, BlockOf(|fluxes|, b, k - 1))) && sumy == Mean(fluxes, b, BlockOf(|fluxes|, b, k - 1))
  }

  /** A step that yields block `k`'s means appends them when the mean
      wavelength is positive and binds them for the next step. */
  lemma LoopStep(waves: seq<real>, fluxes: seq<real>, b: nat, k: nat,
                 sumx: Option<real>, sumy: real, binnedWaves: seq<real>, binnedFlux: seq<real>, x: real, y: real)
    requires b > 0 && LoopState(waves, fluxes, b, k, sumx, sumy, binnedWaves, binnedFlux)
    requires |fluxes| >= b && FullBlocks(|fluxes|, b) >= 1
    requires Offset(BlockOf(|fluxes|, b, k), b) + b <= |waves| && Offset(BlockOf(|fluxes|, b, k), b) + b <= |fluxes|
    requires x == Mean(waves, b, BlockOf(|fluxes|, b, k)) && y == Mean(fluxes, b, BlockOf(|fluxes|, b, k))
    ensures LoopState(waves, fluxes, b, k + 1, Some(x), y,
      if x > 0.0 then binnedWaves + [x] else binnedWaves, if x > 0.0 then binnedFlux + [y] else binnedFlux)
  {
    BinnedStep(waves, fluxes, b, k);
  }

  /** `bin_spectra(waves, fluxes, b)`. */
  method BinSpectra(waves: seq<real>, fluxes: seq<real>, b: int) returns (r: Result<(seq<real>, seq<real>), BinError>)
    ensures r == BinSpectraSpec(waves, fluxes, b)
  {
    if b == 0 {
      return Err(ZeroStep);
    }
    var binnedWaves: seq<real> := [];
    var binnedFlux: seq<real> := [];
    if b < 0 {
      return Ok((binnedWaves, binnedFlux));
    }
    var n := |fluxes|;
    var sumx: Option<real> := None;
    var sumy := 0.0;
    var index := 0;
    ghost var k := 0;
    while index < n
      invariant index == Offset(k, b) && k <= Steps(n, b)
      invariant LoopState(waves, fluxes, b, k, sumx, sumy, binnedWaves, binnedFlux)
    {
      StepsIff(n, b, k);
      var sums := StepSums(waves, fluxes, b, index, k, sumx, sumy);
      if sums.Err? {
        return Err(sums.error);
      }
      LoopStep(waves, fluxes, b, k, sumx, sumy, binnedWaves, binnedFlux, sums.value.0, sums.value.1);
      sumx := Some(sums.value.0);
      sumy := sums.value.1;
      if sums.value.0 > 0.0 {
        binnedWaves := binnedWaves + [sums.value.0];
        binnedFlux := binnedFlux + [sumy];
      }
      index := index + b;
      k := k + 1;
    }
    StepsIff(n, b, k);
    StepsBlocks(n, b);
    if k > 0 {
      assert k == Steps(n, b) && BlockOf(n, b, k - 1) == FullBlocks(n, b) - 1;
      assert Offset(FullBlocks(n, b), b) <= |waves|;
    }
    r := Ok((binnedWaves, binnedFlux));
  }

  // ---------------------------------------------------------------------------
  // Properties

  lemma DivShift(m: nat, b: nat)
    requires b > 0
    ensures (m + b) / b == m / b + 1
  {
    var q, r := m / b, m % b;
    assert m == q * b + r;
    assert m + b == (q + 1) * b + r;
    Permissions.DivModUnique(m + b, b, q + 1, r);
  }

  /** The repeated additions are Python's `k * b`, `n // b` and the length of
      `range(0, n, b)`. */
  lemma {:induction false} OffsetIsProduct(k: nat, b: nat)
    ensures Offset(k, b) == k * b
  {
    if k > 0 {
      OffsetIsProduct(k - 1, b);
      assert k * b == (k - 1) * b + b;
    }
  }

  lemma {:induction false} FullBlocksIsDiv(n: nat, b: nat)
    requires b > 0
    ensures FullBlocks(n, b) == n / b
    decreases n
  {
    if n >= b {
      FullBlocksIsDiv(n - b, b);
      DivShift(n - b, b);
    } else {
      Permissions.DivModUnique(n, b, 0, n);
    }
  }

  lemma {:induction false} StepsIsCeil(n: nat, b: nat)
    requires b > 0
    ensures Steps(n, b) == (n + b - 1) / b
    decreases n
  {
    if n == 0 {
      Permissions.DivModUnique(b - 1, b, 0, b - 1);
    } else if n <= b {
      Permissions.DivModUnique(n + b - 1, b, 1, n - 1);
    } else {
      StepsIsCeil(n - b, b);
      DivShift(n - 1, b);
    }
  }

  /** The two outputs have equal length, at most one entry per step, and every
      wavelength kept is positive. */
  lemma {:induction false} BinnedShape(waves: seq<real>, fluxes: seq<real>, b: nat, k: nat)
    requires 0 < b <= |fluxes| && Offset(Min(k, FullBlocks(|fluxes|, b)), b) <= |waves|
    ensures |Binned(waves, fluxes, b, k).0| == |Binned(waves, fluxes, b, k).1| <= k
    ensures forall i :: 0 <= i < |Binned(waves, fluxes, b, k).0| ==> Binned(waves, fluxes, b, k).0[i] > 0.0
  {
    if k > 0 {
      OffsetMono(Min(k - 1, FullBlocks(|fluxes|, b)), Min(k, FullBlocks(|fluxes|, b)), b);
      BinnedShape(waves, fluxes, b, k - 1);
    }
  }

  /** `(w, f)` is the pair of means of one complete block. */
  predicate IsBlockMeans(waves: seq<real>, fluxes: seq<real>, b: nat, w: real, f: real)
    requires b > 0
  {
    exists j :: 0 <= j < FullBlocks(|fluxes|, b) && Offset(j, b) + b <= |waves| && Offset(j, b) + b <= |fluxes|
      && w == Mean(waves, b, j) && f == Mean(fluxes, b, j)
  }

  /** Every pair in `out` is the pair of means of one complete block. */
  predicate AllBlockMeans(waves: seq<real>, fluxes: seq<real>, b: nat, out: (seq<real>, seq<real>))
    requires b > 0
  {
    |out.0| == |out.1| && forall i :: 0 <= i < |out.0| ==> IsBlockMeans(waves, fluxes, b, out.0[i], out.1[i])
  }

  /** Appending the means of a complete block keeps every pair a block's means. */
  lemma AllBlockMeansSnoc(waves: seq<real>, fluxes: seq<real>, b: nat, out: (seq<real>, seq<real>), w: real, f: real)
    requires b > 0 && AllBlockMeans(waves, fluxes, b, out) && IsBlockMeans(waves, fluxes, b, w, f)
    ensures AllBlockMeans(waves, fluxes, b, (out.0 + [w], out.1 + [f]))
  {
    var next := (out.0 + [w], out.1 + [f]);
    forall i | 0 <= i < |next.0|
      ensures IsBlockMeans(waves, fluxes, b, next.0[i], next.1[i])
    {
      if i < |out.0| {
        assert next.0[i] == out.0[i] && next.1[i] == out.1[i];
      }
    }
  }

  /** Every output pair is the pair of means of one complete block. */
  lemma {:induction false} BinnedMeans(waves: seq<real>, fluxes: seq<real>, b: nat, k: nat)
    requires 0 < b <= |fluxes| && Offset(Min(k, FullBlocks(|fluxes|, b)), b) <= |waves|
    ensures AllBlockMeans(waves, fluxes, b, Binned(waves, fluxes, b, k))
  {
    BinnedShape(waves, fluxes, b, k);
    if k > 0 {
      var fb := FullBlocks(|fluxes|, b);
      FullBlocksIff(|fluxes|, b, 0);
      var j := BlockOf(|fluxes|, b, k - 1);
      assert j + 1 == Min(k, fb) && Offset(j + 1, b) == Offset(j, b) + b;
      BinnedStep(waves, fluxes, b, k - 1);
      BinnedMeans(waves, fluxes, b, k - 1);
      if Mean(waves, b, j) > 0.0 {
        assert IsBlockMeans(waves, fluxes, b, Mean(waves, b, j), Mean(fluxes, b, j));
        AllBlockMeansSnoc(waves, fluxes, b, Binned(waves, fluxes, b, k - 1), Mean(waves, b, j), Mean(fluxes, b, j));
      }
    }
  }

  /** The block step `i` works on lies inside the fluxes and inside the
      wavelengths of the complete blocks. */
  lemma BlockFits(n: int, b: nat, i: nat)
    requires 0 < b <= n
    ensures Offset(BlockOf(n, b, i), b) + b <= n
    ensures Offset(BlockOf(n, b, i), b) + b <= Offset(FullBlocks(n, b), b)
  {
    var j := BlockOf(n, b, i);
    FullBlocksIff(n, b, 0);
    FullBlocksIff(n, b, j);
    OffsetMono(j + 1, FullBlocks(n, b), b);
  }

  /** `out` holds, at each position `i < k`, the means of the block step `i`
      works on. */
  predicate EmitsEveryStep(waves: seq<real>, fluxes: seq<real>, b: nat, out: (seq<real>, seq<real>), k: nat)
    requires 0 < b <= |fluxes|
  {
    |out.0| == k && |out.1| == k
    && forall i :: 0 <= i < k ==>
      Offset(BlockOf(|fluxes|, b, i), b) + b <= |waves| && Offset(BlockOf(|fluxes|, b, i), b) + b <= |fluxes|
      && out.0[i] == Mean(waves, b, BlockOf(|fluxes|, b, i))
      && out.1[i] == Mean(fluxes, b, BlockOf(|fluxes|, b, i))
  }

  /** Appending step `k`'s means extends the property to `k + 1` steps. */
  lemma EmitsNext(waves: seq<real>, fluxes: seq<real>, b: nat, out: (seq<real>, seq<real>), k: nat)
    requires 0 < b <= |fluxes| && Offset(FullBlocks(|fluxes|, b), b) <= |waves|
    requires EmitsEveryStep(waves, fluxes, b, out, k)
    ensures Offset(BlockOf(|fluxes|, b, k), b) + b <= |waves| && Offset(BlockOf(|fluxes|, b, k), b) + b <= |fluxes|
    ensures EmitsEveryStep(waves, fluxes, b,
      (out.0 + [Mean(waves, b, BlockOf(|fluxes|, b, k))], out.1 + [Mean(fluxes, b, BlockOf(|fluxes|, b, k))]), k + 1)
  {
    BlockFits(|fluxes|, b, k);
    var next := (out.0 + [Mean(waves, b, BlockOf(|fluxes|, b, k))], out.1 + [Mean(fluxes, b, BlockOf(|fluxes|, b, k))]);
    forall i | 0 <= i < k + 1
      ensures Offset(BlockOf(|fluxes|, b, i), b) + b <= |waves| && Offset(BlockOf(|fluxes|, b, i), b) + b <= |fluxes|
      ensures next.0[i] == Mean(waves, b, BlockOf(|fluxes|, b, i)) && next.1[i] == Mean(fluxes, b, BlockOf(|fluxes|, b, i))
    {
      BlockFits(|fluxes|, b, i);
      if i < k {
        assert next.0[i] == out.0[i] && next.1[i] == out.1[i];
      }
    }
  }

  /** When every complete block has a positive mean wavelength, step `i` emits
      the means of block `i`, and every step past the last complete block
      emits the last one again. */
  lemma {:induction false} BinnedAllPositive(waves: seq<real>, fluxes: seq<real>, b: nat, k: nat)
    requires 0 < b <= |fluxes| && Offset(FullBlocks(|fluxes|, b), b) <= |waves|
    requires forall j {:trigger Mean(waves, b, j)} :: 0 <= j < FullBlocks(|fluxes|, b) && Offset(j, b) + b <= |waves| ==> Mean(waves, b, j) > 0.0
    ensures Offset(Min(k, FullBlocks(|fluxes|, b)), b) <= |waves|
    ensures EmitsEveryStep(waves, fluxes, b, Binned(waves, fluxes, b, k), k)
  {
    var fb := FullBlocks(|fluxes|, b);
    OffsetMono(Min(k, fb), fb, b);
    if k > 0 {
      BinnedAllPositive(waves, fluxes, b, k - 1);
      var j := BlockOf(|fluxes|, b, k - 1);
      EmitsNext(waves, fluxes, b, Binned(waves, fluxes, b, k - 1), k - 1);
      FullBlocksIff(|fluxes|, b, 0);
      assert Mean(waves, b, j) > 0.0;
      BinnedStep(waves, fluxes, b, k - 1);
    }
  }

  /** `bin_spectra` on a successful call: equal lengths, at most one pair per
      step of `range(0, len(fluxes), b)`, positive wavelengths only, and each
      pair the means of a complete block. */
  lemma BinSpectraResult(waves: seq<real>, fluxes: seq<real>, b: int)
    requires BinSpectraSpec(waves, fluxes, b).Ok?
    ensures var (ws, fs) := BinSpectraSpec(waves, fluxes, b).value;
      |ws| == |fs| && (b > 0 ==> |ws| <= Steps(|fluxes|, b))
      && (forall i :: 0 <= i < |ws| ==> ws[i] > 0.0)
      && (forall i :: 0 <= i < |ws| ==>
            (b > 0 &&
             exists j :: 0 <= j < FullBlocks(|fluxes|, b) && Offset(j, b) + b <= |waves| && Offset(j, b) + b <= |fluxes|
               && ws[i] == Mean(waves, b, j) && fs[i] == Mean(fluxes, b, j)))
  {
    if b > 0 && |fluxes| > 0 {
      var n := |fluxes|;
      StepsBlocks(n, b);
      BinnedShape(waves, fluxes, b, Steps(n, b));
      BinnedMeans(waves, fluxes, b, Steps(n, b));
    }
  }

  /** A trailing incomplete block repeats the last complete block's pair,
      when that pair is emitted at all. */
  lemma TrailingBlockRepeats(waves: seq<real>, fluxes: seq<real>, b: int)
    requires b > 0 && |fluxes| >= b && Offset(FullBlocks(|fluxes|, b), b) < |fluxes|
    requires Offset(FullBlocks(|fluxes|, b), b) <= |waves|
    requires FullBlocks(|fluxes|, b) >= 1 && Offset(FullBlocks(|fluxes|, b) - 1, b) + b <= |waves|
    requires Mean(waves, b, FullBlocks(|fluxes|, b) - 1) > 0.0
    ensures BinSpectraSpec(waves, fluxes, b).Ok?
    ensures var (ws, fs) := BinSpectraSpec(waves, fluxes, b).value;
      |ws| >= 2 && |fs| == |ws| && ws[|ws| - 1] == ws[|ws| - 2] && fs[|fs| - 1] == fs[|fs| - 2]
  {
    var n, fb := |fluxes|, FullBlocks(|fluxes|, b);
    StepsBlocks(n, b);
    assert Steps(n, b) == fb + 1;
    BinnedShape(waves, fluxes, b, fb - 1);
    FullBlocksIff(n, b, 0);
    FullBlocksIff(n, b, fb - 1);
    BinnedStep(waves, fluxes, b, fb - 1);
    BinnedStep(waves, fluxes, b, fb);
  }

  lemma {:induction false} BlocksOfOne(n: nat, j: nat)
    ensures Offset(j, 1) == j && FullBlocks(n, 1) == n && Steps(n, 1) == n
    decreases n + j
  {
    if j > 0 {
      BlocksOfOne(n, j - 1);
    } else if n > 0 {
      BlocksOfOne(n - 1, 0);
    }
  }

  lemma MeanOfOne(s: seq<real>, j: nat)
    requires j < |s|
    ensures Offset(j, 1) + 1 <= |s| && Mean(s, 1, j) == s[j]
  {
    BlocksOfOne(0, j);
    assert s[j..j + 1] == [s[j]];
    assert Sum([s[j]]) == s[j] by { assert [s[j]][..0] == []; }
  }

  /** With `b = 1` and positive wavelengths the outputs are the inputs. */
  lemma BinByOne(waves: seq<real>, fluxes: seq<real>)
    requires |fluxes| <= |waves|
    requires forall i :: 0 <= i < |fluxes| ==> waves[i] > 0.0
    ensures BinSpectraSpec(waves, fluxes, 1) == Ok((waves[..|fluxes|], fluxes))
  {
    var n := |fluxes|;
    if n > 0 {
      BlocksOfOne(n, n);
      forall j | 0 <= j < FullBlocks(n, 1) && Offset(j, 1) + 1 <= |waves| ensures Mean(waves, 1, j) > 0.0 {
        MeanOfOne(waves, j);
      }
      BinnedAllPositive(waves, fluxes, 1, n);
      var out := Binned(waves, fluxes, 1, n);
      forall i | 0 <= i < n ensures out.0[i] == waves[i] && out.1[i] == fluxes[i] {
        assert BlockOf(n, 1, i) == i;
        MeanOfOne(waves, i);
        MeanOfOne(fluxes, i);
      }
      assert out.0 == waves[..n] && out.1 == fluxes;
    }
  }
}
