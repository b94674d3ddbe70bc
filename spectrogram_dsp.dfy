// Spectrogram processor bookkeeping (src/dsp/spectrogram.rs): the bounded
// column history, the reassignment grid (3x3 kernel deposits and the
// column shift), finite-difference window derivatives, the energy
// normalisation table and window coefficients. The FFT itself, the
// reassignment estimates and frequency-scale parameters are not modelled;
// cosine is a parameter.
module SpectrogramDsp {
  import opened Base
  import AudioUtil

  // ---------------------------------------------------------------------
  // Configuration

  datatype WindowKind =
    | Rectangular
    | Hann
    | Hamming
    | Blackman
    | BlackmanHarris
    | PlanckBessel(epsilon: real, beta: real)

  datatype FrequencyScale = Linear | Logarithmic | Mel

  datatype SpectrogramConfig = SpectrogramConfig(
    sampleRate: real,
    fftSize: nat,
    hopSize: nat,
    window: WindowKind,
    frequencyScale: FrequencyScale,
    historyLength: nat,
    useReassignment: bool,
    reassignmentPowerFloorDb: real,
    reassignmentLowBinLimit: nat,
    zeroPaddingFactor: nat,
    displayBinCount: nat,
    displayMinHz: real,
    reassignmentMaxCorrectionHz: real,
    reassignmentMaxTimeHops: real)

  const DEFAULT_CONFIG: SpectrogramConfig := SpectrogramConfig(
    AudioUtil.DEFAULT_SAMPLE_RATE, 4096, 256, Blackman, Logarithmic, 240,
    true, -80.0, 0, 4, 1024, 20.0, 0.0, 2.0)

  /** update_config rebuilds the FFT when its size, padding, window or sample rate changes. */
  predicate FftChanged(prev: SpectrogramConfig, next: SpectrogramConfig)
  {
    || prev.fftSize != next.fftSize
    || prev.zeroPaddingFactor != next.zeroPaddingFactor
    || prev.window != next.window
    || AbsR(prev.sampleRate - next.sampleRate) > F32_EPSILON
  }

  /** update_config reconfigures the reassignment grid when any of its inputs changes. */
  predicate GridChanged(prev: SpectrogramConfig, next: SpectrogramConfig)
  {
    || prev.useReassignment != next.useReassignment
    || prev.displayBinCount != next.displayBinCount
    || AbsR(prev.displayMinHz - next.displayMinHz) > F32_EPSILON
    || prev.frequencyScale != next.frequencyScale
    || AbsR(prev.reassignmentMaxTimeHops - next.reassignmentMaxTimeHops) > F32_EPSILON
  }

  /** `x.ceil() as usize`: saturates at zero. */
  function CeilToNat(x: real): (r: nat)
    ensures x <= 0.0 ==> r == 0
    ensures x > 0.0 ==> x <= r as real < x + 1.0
  {
    var c := -((-x).Floor);
    if c <= 0 then 0 else c
  }

  // ---------------------------------------------------------------------
  // Window coefficients

  const TAU: real := 6.2831855

  /** The cosine series `sum c[k] * cos(phi * k)`, folded from the first term. */
  function CosineSum(c: seq<real>, phi: real, cos: real -> real): real
  {
    if c == [] then 0.0 else CosineSum(c[..|c| - 1], phi, cos) + c[|c| - 1] * cos(phi * (|c| - 1) as real)
  }

  /** cosine_window: one cosine series per sample, the phase stepping by TAU / (len - 1). */
  function CosineWindow(len: nat, c: seq<real>, cos: real -> real): (r: seq<real>)
    ensures |r| == len
  {
    var step := TAU / Max(len - 1, 1) as real;
    seq(len, n requires 0 <= n < len => CosineSum(c, n as real * step, cos))
  }

  /**
   * WindowKind::coefficients. The Planck-Bessel taper is computed by
   * `planck`, which stands for code outside this model.
   */
  function Coefficients(kind: WindowKind, len: nat, cos: real -> real, planck: (nat, real, real) -> seq<real>)
    : (r: seq<real>)
    ensures len <= 1 ==> r == seq(len, _ => 1.0)
    ensures kind == Rectangular ==> r == seq(len, _ => 1.0)
    ensures !kind.PlanckBessel? || len <= 1 ==> |r| == len
  {
    if len <= 1 then seq(len, _ => 1.0)
    else match kind
      case Rectangular => seq(len, _ => 1.0)
      case Hann => CosineWindow(len, [0.5, -0.5], cos)
      case Hamming => CosineWindow(len, [0.54, -0.46], cos)
      case Blackman => CosineWindow(len, [0.42, -0.5, 0.08], cos)
      case BlackmanHarris => CosineWindow(len, [0.35875, -0.48829, 0.14128, -0.01168], cos)
      case PlanckBessel(epsilon, beta) => planck(len, epsilon, beta)
  }

  /** With cos(0) = 1 the Hann and Blackman windows start at (almost) zero, the Hamming window at 0.08. */
  lemma WindowStartValues(len: nat, cos: real -> real, planck: (nat, real, real) -> seq<real>)
    requires len >= 2 && cos(0.0) == 1.0
    ensures Coefficients(Hann, len, cos, planck)[0] == 0.0
    ensures Coefficients(Hamming, len, cos, planck)[0] == 0.08
    ensures Coefficients(Blackman, len, cos, planck)[0] == 0.0
  {
    var c2 := [0.5, -0.5];
    assert CosineSum(c2, 0.0, cos) == 0.0 by {
      assert c2[..1] == [0.5] && [0.5][..0] == [];
    }
    var h2 := [0.54, -0.46];
    assert CosineSum(h2, 0.0, cos) == 0.08 by {
      assert h2[..1] == [0.54] && [0.54][..0] == [];
    }
    var c3 := [0.42, -0.5, 0.08];
    assert CosineSum(c3, 0.0, cos) == 0.0 by {
      assert c3[..2] == [0.42, -0.5] && [0.42, -0.5][..1] == [0.42] && [0.42][..0] == [];
    }
  }

  // ---------------------------------------------------------------------
  // Finite differences of a window

  /** One output of finite_diff: five-point stencils inside, short stencils at the edges. */
  function DiffAt(d: seq<real>, second: bool, i: nat): real
    requires i < |d| && (second ==> |d| >= 2)
  {
    var len := |d|;
    var p := if i == 0 then d[0] else d[i - 1];
    var c := d[i];
    var n := if i + 1 < len then d[i + 1] else d[len - 1];
    if second then
      if len <= 4 || i < 2 || i >= len - 2 then
        if i == 0 then (if 2 < len then d[2] else d[1]) - 2.0 * d[1] + d[0]
        else if i == len - 1 then d[len - 1] - 2.0 * d[len - 2] + d[SaturatingSub(len, 3)]
        else n - 2.0 * c + p
      else (-d[i - 2] + 16.0 * d[i - 1] - 30.0 * d[i] + 16.0 * d[i + 1] - d[i + 2]) / 12.0
    else if len <= 4 || i < 2 || i >= len - 2 then 0.5 * (n - p)
    else (d[i - 2] - 8.0 * d[i - 1] + 8.0 * d[i + 1] - d[i + 2]) / 12.0
  }

  /**
   * finite_diff: first or second derivative, one output per input. A
   * second derivative of a single sample reads past the end in the source,
   * so it is excluded.
   */
  function FiniteDiff(d: seq<real>, second: bool): (r: seq<real>)
    requires second ==> |d| != 1
    ensures |r| == |d|
    ensures |d| == 0 ==> r == []
  {
    if |d| == 0 then [] else seq(|d|, i requires 0 <= i < |d| => DiffAt(d, second, i))
  }

  /** Both derivatives of a constant window vanish everywhere. */
  lemma FiniteDiffConstant(d: seq<real>, second: bool, v: real)
    requires second ==> |d| != 1
    requires forall i :: 0 <= i < |d| ==> d[i] == v
    ensures forall i :: 0 <= i < |d| ==> FiniteDiff(d, second)[i] == 0.0
  {
  }

  /** The interior first derivative of a straight line is its slope. */
  lemma FiniteDiffLinear(d: seq<real>, a: real, b: real, i: nat)
    requires forall j :: 0 <= j < |d| ==> d[j] == a * j as real + b
    requires |d| > 4 && 2 <= i < |d| - 2
    ensures FiniteDiff(d, false)[i] == a
  {
    var x := i as real;
    assert d[i - 2] == a * x - 2.0 * a + b;
    assert d[i - 1] == a * x - a + b;
    assert d[i + 1] == a * x + a + b;
    assert d[i + 2] == a * x + 2.0 * a + b;
  }

  // ---------------------------------------------------------------------
  // Energy normalisation

  function SquareSum(win: seq<real>): real
  {
    if win == [] then 0.0 else SquareSum(win[..|win| - 1]) + win[|win| - 1] * win[|win| - 1]
  }

  /**
   * compute_energy_norm: `size/2 + 1` bins, the DC and Nyquist bins at
   * `1/e` and every other bin at `2/e`, `e` being the window energy.
   */
  function EnergyNorm(win: seq<real>, size: nat): (r: seq<real>)
    requires SquareSum(win) != 0.0
    ensures |r| == size / 2 + 1
    ensures r[0] == 1.0 / SquareSum(win) && r[|r| - 1] == 1.0 / SquareSum(win)
    ensures forall i :: 0 < i < |r| - 1 ==> r[i] == 2.0 * r[0]
  {
    var e := SquareSum(win);
    var dc := 1.0 / e;
    var ac := 2.0 / e;
    var len := size / 2 + 1;
    seq(len, i requires 0 <= i < len => if i == 0 || i == len - 1 then dc else ac)
  }

  // ---------------------------------------------------------------------
  // Reassignment grid

  /**
   * GAUSSIAN_KERNEL_3X3[kx][ky]: centre 1.0, edges 0.3246525, corners
   * 0.1053992, each divided by their total 1.0 + 4 * 0.3246525 + 4 * 0.1053992
   * = 2.7202068.
   */
  function KernelWeight(kx: nat, ky: nat): (r: real)
    requires kx < 3 && ky < 3
    ensures r > 0.0
  {
    (if kx == 1 && ky == 1 then 1.0 else if kx == 1 || ky == 1 then 0.3246525 else 0.1053992) / 2.7202068
  }

  /** Tap `p` of the kernel loops (0 to 8) is kernel column `p / 3`. */
  function TapColumn(p: nat): (r: nat)
    requires p < 9
    ensures r < 3
  {
    if p < 3 then 0 else if p < 6 then 1 else 2
  }

  /** Tap `p` of the kernel loops is kernel row `p % 3`. */
  function TapRow(p: nat): (r: nat)
    requires p < 9
    ensures r < 3 && p == 3 * TapColumn(p) + r
  {
    p - 3 * TapColumn(p)
  }

  /** Add `v` to cell (t, f) of a `h` x `w` grid stored row by row; cells outside are left alone. */
  function AddCell(g: seq<real>, w: nat, h: nat, t: int, f: int, v: real): (r: seq<real>)
    requires |g| == w * h
    ensures |r| == |g|
  {
    if 0 <= t < h && 0 <= f < w then
      SlotInBounds(t, h, w);
      g[t * w + f := g[t * w + f] + v]
    else g
  }

  /** A cell on the grid has slot `t * w + f`. */
  lemma AddCellOnGrid(g: seq<real>, w: nat, h: nat, t: int, f: int, v: real)
    requires |g| == w * h && 0 <= t < h && 0 <= f < w
    ensures 0 <= t * w + f < |g|
    ensures AddCell(g, w, h, t, f, v) == g[t * w + f := g[t * w + f] + v]
  {
    SlotInBounds(t, h, w);
  }

  /** The first `n` kernel taps deposited around (tc, fc). */
  function Deposit(g: seq<real>, w: nat, h: nat, fc: int, tc: int, val: real, n: nat): (r: seq<real>)
    requires |g| == w * h && n <= 9
    ensures |r| == |g|
  {
    if n == 0 then g
    else
      var p := n - 1;
      AddCell(Deposit(g, w, h, fc, tc, val, p), w, h, tc + TapRow(p) - 1, fc + TapColumn(p) - 1, val * KernelWeight(TapColumn(p), TapRow(p)))
  }

  /** Loop step (kx, ky) of apply_kernel deposits tap `3 * kx + ky`. */
  lemma DepositStep(g: seq<real>, w: nat, h: nat, fc: int, tc: int, val: real, kx: nat, ky: nat)
    requires |g| == w * h && kx < 3 && ky < 3
    ensures Deposit(g, w, h, fc, tc, val, 3 * kx + ky + 1)
      == AddCell(Deposit(g, w, h, fc, tc, val, 3 * kx + ky), w, h, tc + ky - 1, fc + kx - 1, val * KernelWeight(kx, ky))
  {
    assert TapColumn(3 * kx + ky) == kx && TapRow(3 * kx + ky) == ky;
  }

  /** Away from the border, the offset the fast path adds to `tc * w + fc` is the tap's cell. */
  lemma InteriorSlot(w: nat, h: nat, fc: int, tc: int, kx: nat, ky: nat)
    requires 1 <= fc < w - 1 && 1 <= tc < h - 1 && kx < 3 && ky < 3
    ensures 0 <= tc + ky - 1 < h && 0 <= fc + kx - 1 < w
    ensures (tc + ky - 1) * w + (fc + kx - 1) == tc * w + fc + ky * w + kx - w - 1
    ensures 0 <= tc * w + fc + ky * w + kx - w - 1 < w * h
  {
    var t := tc + ky - 1;
    assert t * w == tc * w + ky * w - w;
    SlotInBounds(t, h, w);
  }

  /** apply_kernel: nothing happens unless the centre lies on the grid. */
  function KernelApplied(g: seq<real>, w: nat, h: nat, fc: int, tc: int, val: real): (r: seq<real>)
    requires |g| == w * h
    ensures |r| == |g|
  {
    if 0 <= fc < w && 0 <= tc < h then Deposit(g, w, h, fc, tc, val, 9) else g
  }

  /** A cell index lies in row `i / w`, column `i % w`. */
  predicate NearCentre(i: nat, w: nat, fc: int, tc: int)
    requires w > 0
  {
    tc - 1 <= i / w <= tc + 1 && fc - 1 <= i % w <= fc + 1
  }

  /** Cells farther than one row or column from the centre are never touched. */
  lemma {:induction false} DepositOutside(g: seq<real>, w: nat, h: nat, fc: int, tc: int, val: real, n: nat, i: nat)
    requires |g| == w * h && n <= 9 && w > 0 && i < |g|
    requires !NearCentre(i, w, fc, tc)
    ensures Deposit(g, w, h, fc, tc, val, n)[i] == g[i]
  {
    if n > 0 {
      var p := n - 1;
      DepositOutside(g, w, h, fc, tc, val, p, i);
      var t, f := tc + TapRow(p) - 1, fc + TapColumn(p) - 1;
      if 0 <= t < h && 0 <= f < w && i == t * w + f {
        DivModUnique(i, t, w, f);
        assert false;
      }
    }
  }

  /** What tap `p` adds to the grid: its share of `val` if it lands on the grid, else nothing. */
  function TapGain(w: nat, h: nat, fc: int, tc: int, val: real, p: nat): real
    requires p < 9
  {
    var t, f := tc + TapRow(p) - 1, fc + TapColumn(p) - 1;
    if 0 <= t < h && 0 <= f < w then val * KernelWeight(TapColumn(p), TapRow(p)) else 0.0
  }

  /** What the first `n` taps add to the grid. */
  function Gain(w: nat, h: nat, fc: int, tc: int, val: real, n: nat): real
    requires n <= 9
  {
    if n == 0 then 0.0 else Gain(w, h, fc, tc, val, n - 1) + TapGain(w, h, fc, tc, val, n - 1)
  }

  /** What the first `n` taps would add if all of them landed on the grid. */
  function FullGain(val: real, n: nat): real
    requires n <= 9
  {
    if n == 0 then 0.0 else FullGain(val, n - 1) + val * KernelWeight(TapColumn(n - 1), TapRow(n - 1))
  }

  lemma {:induction false} SumUpdate(s: seq<real>, j: nat, v: real)
    requires j < |s|
    ensures Sum(s[j := s[j] + v]) == Sum(s) + v
  {
    var s' := s[j := s[j] + v];
    if j < |s| - 1 {
      SumUpdate(s[..|s| - 1], j, v);
      assert s'[..|s| - 1] == s[..|s| - 1][j := s[j] + v];
    } else {
      assert s'[..|s| - 1] == s[..|s| - 1];
    }
  }

  /** Adding to a cell on the grid raises the total by the amount added; a cell off the grid changes nothing. */
  lemma AddCellSum(g: seq<real>, w: nat, h: nat, t: int, f: int, v: real)
    requires |g| == w * h
    ensures Sum(AddCell(g, w, h, t, f, v)) == Sum(g) + (if 0 <= t < h && 0 <= f < w then v else 0.0)
  {
    if 0 <= t < h && 0 <= f < w {
      SlotInBounds(t, h, w);
      SumUpdate(g, t * w + f, v);
    }
  }

  /** Tap `p` raises the total by exactly its gain. */
  lemma DepositStepSum(g: seq<real>, w: nat, h: nat, fc: int, tc: int, val: real, p: nat)
    requires |g| == w * h && p < 9
    ensures Sum(Deposit(g, w, h, fc, tc, val, p + 1)) == Sum(Deposit(g, w, h, fc, tc, val, p)) + TapGain(w, h, fc, tc, val, p)
  {
    var t, f := tc + TapRow(p) - 1, fc + TapColumn(p) - 1;
    AddCellSum(Deposit(g, w, h, fc, tc, val, p), w, h, t, f, val * KernelWeight(TapColumn(p), TapRow(p)));
  }

  /** Depositing adds exactly the gain of the taps that land on the grid. */
  lemma {:induction false} DepositMass(g: seq<real>, w: nat, h: nat, fc: int, tc: int, val: real, n: nat)
    requires |g| == w * h && n <= 9
    ensures Sum(Deposit(g, w, h, fc, tc, val, n)) == Sum(g) + Gain(w, h, fc, tc, val, n)
  {
    if n > 0 {
      DepositMass(g, w, h, fc, tc, val, n - 1);
      DepositStepSum(g, w, h, fc, tc, val, n - 1);
    }
  }

  /** One tap of a non-negative value adds between nothing and its full share, and all of it away from the border. */
  lemma TapGainBounds(w: nat, h: nat, fc: int, tc: int, val: real, p: nat)
    requires p < 9 && val >= 0.0
    ensures 0.0 <= TapGain(w, h, fc, tc, val, p) <= val * KernelWeight(TapColumn(p), TapRow(p))
    ensures (1 <= fc < w - 1 && 1 <= tc < h - 1) ==> TapGain(w, h, fc, tc, val, p) == val * KernelWeight(TapColumn(p), TapRow(p))
  {
    var k := KernelWeight(TapColumn(p), TapRow(p));
    assert val * k >= 0.0;
  }

  /** For a non-negative value the gain lies between zero and the full gain, and equals it away from the border. */
  lemma {:induction false} GainBounds(w: nat, h: nat, fc: int, tc: int, val: real, n: nat)
    requires n <= 9 && val >= 0.0
    ensures 0.0 <= Gain(w, h, fc, tc, val, n) <= FullGain(val, n)
    ensures (1 <= fc < w - 1 && 1 <= tc < h - 1) ==> Gain(w, h, fc, tc, val, n) == FullGain(val, n)
  {
    if n > 0 {
      GainBounds(w, h, fc, tc, val, n - 1);
      TapGainBounds(w, h, fc, tc, val, n - 1);
    }
  }

  /** The kernel weights add up to one. */
  lemma FullGainIsValue(val: real)
    ensures FullGain(val, 9) == val
  {
    var k, e, c := 0.1053992 / 2.7202068, 0.3246525 / 2.7202068, 1.0 / 2.7202068;
    assert FullGain(val, 1) == val * k;
    assert FullGain(val, 2) == FullGain(val, 1) + val * e;
    assert FullGain(val, 3) == FullGain(val, 2) + val * k;
    assert FullGain(val, 4) == FullGain(val, 3) + val * e;
    assert FullGain(val, 5) == FullGain(val, 4) + val * c;
    assert FullGain(val, 6) == FullGain(val, 5) + val * e;
    assert FullGain(val, 7) == FullGain(val, 6) + val * k;
    assert FullGain(val, 8) == FullGain(val, 7) + val * e;
    assert FullGain(val, 9) == FullGain(val, 8) + val * k;
    assert 4.0 * k + 4.0 * e + c == 1.0;
  }

  /**
   * A deposit away from the border adds exactly `val` to the grid; near the
   * border the taps that fall off are lost, so at most `val` is added.
   */
  lemma KernelMass(g: seq<real>, w: nat, h: nat, fc: int, tc: int, val: real)
    requires |g| == w * h && val >= 0.0
    ensures Sum(g) <= Sum(KernelApplied(g, w, h, fc, tc, val)) <= Sum(g) + val
    ensures (1 <= fc < w - 1 && 1 <= tc < h - 1) ==> Sum(KernelApplied(g, w, h, fc, tc, val)) == Sum(g) + val
  {
    if 0 <= fc < w && 0 <= tc < h {
      DepositMass(g, w, h, fc, tc, val, 9);
      GainBounds(w, h, fc, tc, val, 9);
      FullGainIsValue(val);
    }
  }

  /** Grid rows after one advance: every row moves up one place and the last row is cleared. */
  function Shifted(g: seq<real>, w: nat): (r: seq<real>)
    requires w <= |g|
    ensures |r| == |g|
  {
    g[w..] + seq(w, _ => 0.0)
  }

  /** Row r + 1 becomes row r. */
  lemma ShiftedRow(g: seq<real>, w: nat, h: nat, r: nat, f: nat)
    requires |g| == w * h && r + 1 < h && f < w
    ensures (r + 1) * w + f < |g| && r * w + f < |g|
    ensures Shifted(g, w)[r * w + f] == g[(r + 1) * w + f]
  {
    SlotInBounds(r + 1, h, w);
    assert (r + 1) * w == r * w + w;
  }

  /** The new last row is all zero. */
  lemma ShiftedLastRow(g: seq<real>, w: nat, h: nat, f: nat)
    requires |g| == w * h && h >= 1 && f < w
    ensures (h - 1) * w + f < |g| && Shifted(g, w)[(h - 1) * w + f] == 0.0
  {
    assert (h - 1) * w + w == h * w;
  }

  /** `table.get(i).or(table.get(1)).unwrap_or(1.0)`. */
  function TableValue(table: seq<real>, i: nat): real
  {
    if i < |table| then table[i] else if 1 < |table| then table[1] else 1.0
  }

  /** The power fed to the decibel conversion for output bin `i` in advance. */
  function BinPower(out: seq<real>, eScale: seq<real>, bNorm: seq<real>, i: nat): (r: real)
    requires i < |out|
    ensures TableValue(eScale, i) <= F32_EPSILON ==> r == 0.0
  {
    var es := TableValue(eScale, i);
    var bn := TableValue(bNorm, i);
    if es > F32_EPSILON then out[i] * bn / es else 0.0
  }

  /** Without scale tables the accumulated power passes through unchanged. */
  lemma BinPowerUnscaled(out: seq<real>, i: nat)
    requires i < |out|
    ensures BinPower(out, [], [], i) == out[i]
  {
  }

  /** The fast path of apply_kernel: every tap of a centre away from the border is written directly. */
  method KernelInterior(g0: seq<real>, w: nat, h: nat, fc: int, tc: int, val: real) returns (g: seq<real>)
    requires |g0| == w * h && 1 <= fc < w - 1 && 1 <= tc < h - 1
    ensures g == Deposit(g0, w, h, fc, tc, val, 9)
  {
    g := g0;
    var base := tc * w + fc;
    for kx := 0 to 3
      invariant g == Deposit(g0, w, h, fc, tc, val, 3 * kx)
    {
      for ky := 0 to 3
        invariant g == Deposit(g0, w, h, fc, tc, val, 3 * kx + ky)
      {
        InteriorSlot(w, h, fc, tc, kx, ky);
        DepositStep(g0, w, h, fc, tc, val, kx, ky);
        var idx := base + ky * w + kx - w - 1;
        g := g[idx := g[idx] + val * KernelWeight(kx, ky)];
      }
    }
  }

  /** The border path of apply_kernel: each tap is checked against the grid bounds. */
  method KernelClipped(g0: seq<real>, w: nat, h: nat, fc: int, tc: int, val: real) returns (g: seq<real>)
    requires |g0| == w * h
    ensures g == Deposit(g0, w, h, fc, tc, val, 9)
  {
    g := g0;
    for kx := 0 to 3
      invariant g == Deposit(g0, w, h, fc, tc, val, 3 * kx)
    {
      for ky := 0 to 3
        invariant g == Deposit(g0, w, h, fc, tc, val, 3 * kx + ky)
      {
        var t, f := tc + ky - 1, fc + kx - 1;
        DepositStep(g0, w, h, fc, tc, val, kx, ky);
        if t >= 0 && t < h && f >= 0 && f < w {
          AddCellOnGrid(g, w, h, t, f, val * KernelWeight(kx, ky));
          g := g[t * w + f := g[t * w + f] + val * KernelWeight(kx, ky)];
        }
      }
    }
  }

  /** Reassignment2DGrid: a `cols` x `displayBins` grid of power, one row per time hop. */
  class ReassignmentGrid {
    var displayBins: nat
    var maxHops: nat
    var hop: nat
    var cols: nat
    var center: nat
    var grid: seq<real>
    var out: seq<real>
    var mags: seq<real>
    var enabled: bool

    ghost predicate Valid()
      reads this
    {
      && (enabled ==>
           && displayBins >= 2 && maxHops >= 1 && cols == 2 * maxHops + 1 && center == maxHops
           && |grid| == displayBins * cols && |out| == displayBins && |mags| == displayBins)
      && (!enabled ==> grid == [])
    }

    /** new: an empty grid, then reconfigured for `cfg`. */
    constructor (cfg: SpectrogramConfig)
      ensures Valid()
      ensures enabled == (cfg.useReassignment && cfg.displayBinCount > 0 && cfg.sampleRate > 0.0)
    {
      displayBins := 0;
      maxHops := 1;
      hop := cfg.hopSize;
      cols := 3;
      center := 1;
      grid := [];
      out := [];
      mags := [];
      enabled := false;
      new;
      Reconfigure(cfg);
    }

    /**
     * reconfigure (buffer shapes only): disabled clears the grid; enabled
     * uses at least two bins and `2 * hops + 1` rows, reallocating the
     * buffers only when their shape changes.
     */
    method Reconfigure(cfg: SpectrogramConfig)
      requires Valid()
      modifies this
      ensures Valid()
      ensures enabled == (cfg.useReassignment && cfg.displayBinCount > 0 && cfg.sampleRate > 0.0)
      ensures enabled ==>
        && displayBins == Max(cfg.displayBinCount, 2)
        && maxHops == Max(CeilToNat(cfg.reassignmentMaxTimeHops), 1)
        && hop == Max(cfg.hopSize, 1)
      ensures enabled && old(enabled) && old(displayBins) == displayBins && old(cols) == cols ==>
        grid == old(grid) && out == old(out) && mags == old(mags)
      ensures enabled && !(old(enabled) && old(displayBins) == displayBins && old(cols) == cols) ==>
        && grid == seq(displayBins * cols, _ => 0.0)
        && out == seq(displayBins, _ => 0.0)
        && mags == seq(displayBins, _ => AudioUtil.DB_FLOOR)
    {
      var en := cfg.useReassignment && cfg.displayBinCount > 0 && cfg.sampleRate > 0.0;
      if !en {
        enabled := false;
        grid := [];
        return;
      }
      var bins := Max(cfg.displayBinCount, 2);
      var hops := Max(CeilToNat(cfg.reassignmentMaxTimeHops), 1);
      var newCols := 2 * hops + 1;
      MulAtLeast(bins, newCols);
      if displayBins != bins || cols != newCols || |grid| != bins * newCols {
        grid := seq(bins * newCols, _ => 0.0);
        out := seq(bins, _ => 0.0);
        mags := seq(bins, _ => AudioUtil.DB_FLOOR);
      }
      displayBins := bins;
      maxHops := hops;
      hop := Max(cfg.hopSize, 1);
      cols := newCols;
      center := hops;
      enabled := true;
    }

    /**
     * apply_kernel: spread `val` over the 3x3 neighbourhood of (tc, fc).
     * Away from the border every tap is written directly; near it each tap
     * is checked against the grid bounds.
     */
    method ApplyKernel(fc: int, tc: int, val: real)
      requires Valid() && enabled
      modifies this`grid
      ensures Valid()
      ensures grid == KernelApplied(old(grid), displayBins, cols, fc, tc, val)
    {
      var w := displayBins;
      var h := cols;
      if fc >= 1 && fc < w - 1 && tc >= 1 && tc < h - 1 {
        grid := KernelInterior(grid, w, h, fc, tc, val);
      } else if fc >= 0 && fc < w && tc >= 0 && tc < h {
        grid := KernelClipped(grid, w, h, fc, tc, val);
      }
    }

    /**
     * advance: emit row 0, move every row up one place, clear the last row
     * and convert the emitted powers to decibels (`db` stands for
     * power_to_db).
     */
    method Advance(eScale: seq<real>, bNorm: seq<real>, db: real -> real)
      requires Valid() && enabled
      modifies this`grid, this`out, this`mags
      ensures Valid()
      ensures out == old(grid)[..displayBins]
      ensures grid == Shifted(old(grid), displayBins)
      ensures |mags| == displayBins
      ensures forall i :: 0 <= i < displayBins ==> mags[i] == db(BinPower(out, eScale, bNorm, i))
    {
      MulAtLeast(cols, displayBins);
      var o := grid[..displayBins];
      var g := grid[displayBins..] + seq(displayBins, _ => 0.0);
      var m := mags;
      for i := 0 to Min(|m|, |o|)
        invariant |m| == displayBins
        invariant forall j :: 0 <= j < i ==> m[j] == db(BinPower(o, eScale, bNorm, j))
      {
        m := m[i := db(BinPower(o, eScale, bNorm, i))];
      }
      out := o;
      grid := g;
      mags := m;
    }

    /** The grid part of the processor's reset: zero power, floor magnitudes. */
    method ClearValues()
      requires Valid()
      modifies this`grid, this`mags
      ensures Valid()
      ensures grid == seq(|old(grid)|, _ => 0.0) && mags == seq(|old(mags)|, _ => AudioUtil.DB_FLOOR)
    {
      grid := seq(|grid|, _ => 0.0);
      mags := seq(|mags|, _ => AudioUtil.DB_FLOOR);
    }
  }

  // ---------------------------------------------------------------------
  // Processor history

  /**
   * As written, update_config returns right after rebuilding the FFT, so a
   * new history length given together with a new FFT size never reaches
   * `hist_cap`.
   */
  function HistCapAsWritten(prev: SpectrogramConfig, next: SpectrogramConfig, histCap: nat): nat
  {
    if FftChanged(prev, next) then histCap
    else if prev.historyLength != next.historyLength then next.historyLength
    else histCap
  }

  /** Doubling both the FFT size and the history length leaves the capacity at 240. */
  lemma StaleHistoryCap()
    ensures HistCapAsWritten(DEFAULT_CONFIG, DEFAULT_CONFIG.(fftSize := 8192, historyLength := 480), 240) == 240
  {
  }

  /** SpectrogramProcessor, reduced to its configuration, column history, sample queue and grid. */
  class SpectrogramProcessor {
    var config: SpectrogramConfig
    var hist: seq<seq<real>>
    var histCap: nat
    var pcm: seq<real>
    var reset: bool
    var grid: ReassignmentGrid

    ghost predicate Valid()
      reads this, grid
    {
      |hist| <= histCap && histCap == config.historyLength && grid.Valid()
    }

    /** new: empty history at the configured length, reset flagged for the first update. */
    constructor (cfg: SpectrogramConfig)
      ensures Valid() && config == cfg && hist == [] && pcm == [] && reset
    {
      config := cfg;
      hist := [];
      histCap := cfg.historyLength;
      pcm := [];
      reset := true;
      grid := new ReassignmentGrid(cfg);
    }

    /** hist_push: the history keeps the latest `hist_cap` columns; capacity zero keeps none. */
    method HistPush(col: seq<real>)
      requires Valid()
      modifies this`hist
      ensures Valid()
      ensures hist == LastN(old(hist) + [col], histCap)
    {
      if histCap == 0 {
        return;
      }
      var h := hist;
      if |h| == histCap {
        h := h[1..];
      }
      hist := h + [col];
    }

    /** clear_history: drop every column and flag a reset for the next update. */
    method ClearHistory()
      requires histCap == config.historyLength && grid.Valid()
      modifies this`hist, this`reset
      ensures Valid() && hist == [] && reset
    {
      hist := [];
      reset := true;
    }

    /** The history trim of update_config: drop from the front until the new capacity holds. */
    method TrimHistory()
      requires histCap == config.historyLength && grid.Valid()
      modifies this`hist
      ensures Valid()
      ensures hist == LastN(old(hist), histCap)
    {
      while |hist| > histCap
        invariant |hist| <= |old(hist)|
        invariant hist == old(hist)[|old(hist)| - |hist|..]
        invariant |hist| >= Min(|old(hist)|, histCap)
      {
        hist := hist[1..];
      }
    }

    /** rebuild_fft (bookkeeping only): reconfigure the grid, keep at most two windows of samples, clear history. */
    method RebuildFft()
      requires histCap == config.historyLength && grid.Valid()
      modifies this`pcm, this`hist, this`reset, grid
      ensures Valid() && hist == [] && reset
      ensures pcm == old(pcm)[..Min(|old(pcm)|, 2 * config.fftSize)]
      ensures grid.enabled == (config.useReassignment && config.displayBinCount > 0 && config.sampleRate > 0.0)
    {
      grid.Reconfigure(config);
      pcm := pcm[..Min(|pcm|, 2 * config.fftSize)];
      ClearHistory();
    }

    /**
     * update_config: an FFT change rebuilds everything; otherwise a new
     * history length trims the history from the front and a grid change
     * clears it. The capacity follows the configured history length in
     * every case (see HistCapAsWritten for the source's FFT branch).
     */
    method UpdateConfig(cfg: SpectrogramConfig)
      requires Valid()
      modifies this, grid
      ensures Valid() && config == cfg && histCap == cfg.historyLength
      ensures FftChanged(old(config), cfg) ==>
        hist == [] && reset && pcm == old(pcm)[..Min(|old(pcm)|, 2 * cfg.fftSize)]
      ensures !FftChanged(old(config), cfg) && GridChanged(old(config), cfg) ==> hist == [] && reset
      ensures !FftChanged(old(config), cfg) && !GridChanged(old(config), cfg) ==>
        hist == LastN(old(hist), cfg.historyLength) && reset == old(reset)
      ensures !FftChanged(old(config), cfg) ==> pcm == old(pcm)
    {
      var prev := config;
      config := cfg;
      histCap := cfg.historyLength;
      if FftChanged(prev, cfg) {
        RebuildFft();
        return;
      }
      if prev.historyLength != cfg.historyLength {
        TrimHistory();
      } else {
        assert hist == LastN(hist, histCap);
      }
      if GridChanged(prev, cfg) {
        grid.Reconfigure(config);
        ClearHistory();
      }
    }

    /** reset: empty history and sample queue, zeroed grid. */
    method Reset()
      requires Valid()
      modifies this`hist, this`reset, this`pcm, grid
      ensures Valid() && hist == [] && reset && pcm == []
    {
      ClearHistory();
      pcm := [];
      grid.ClearValues();
    }
  }
}
