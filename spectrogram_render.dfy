// The spectrogram's GPU-side bookkeeping (src/ui/render/spectrogram.rs): the
// uniform block derived from the view's parameters, the 256-entry palette
// lookup table, the pool that recycles column buffers and the magnitude
// texture's capacity and column uploads. The texture is modelled as a map
// from column index to the values last written there.
module SpectrogramRender {
  import opened Base
  import Theme
  import AudioUtil

  const SPECTROGRAM_PALETTE_SIZE: nat := 5
  const PALETTE_LUT_SIZE: nat := 256
  const FLAG_POW2: nat := 1
  const MAX_TEXTURE_DIM: nat := 8192
  /** Buffers with a larger capacity are not kept by the pool. */
  const POOL_MAX_CAPACITY: nat := 16384
  /** The pool keeps at most this many buffers. */
  const POOL_MAX_BUFFERS: nat := 64

  /** One ring column to upload: its slot and its normalised values. */
  datatype ColumnUpdate = ColumnUpdate(columnIndex: nat, values: seq<real>)

  /** SpectrogramParams, without the bounds and instance key. */
  datatype Params = Params(
    textureWidth: nat,
    textureHeight: nat,
    columnCount: nat,
    latestColumn: nat,
    baseData: Option<seq<real>>,
    columnUpdates: seq<ColumnUpdate>,
    palette: seq<Color>,
    background: Color,
    contrast: real,
    uvYRange: (real, real),
    screenHeight: real)

  /**
   * The uniform block. `wrapMask` and `flags` are the integers whose bit
   * patterns the source stores in the float slots.
   */
  datatype Uniforms = Uniforms(
    width: real,
    height: real,
    wrapMask: nat,
    flags: nat,
    latestColumn: nat,
    columnCount: nat,
    contrast: real,
    uvMin: real,
    uvMax: real,
    screenHeight: real,
    background: Color)

  /** The cached block a fresh texture starts with (all zero). */
  const ZERO_UNIFORMS: Uniforms :=
    Uniforms(0.0, 0.0, 0, 0, 0, 0, 0.0, 0.0, 0.0, 0.0, Color(0.0, 0.0, 0.0, 0.0))

  /**
   * Uniforms::from_params: the power-of-two flag is set exactly for a
   * non-zero power-of-two capacity, and then the wrap mask is capacity - 1
   * (else 0); contrast is floored at 0.01 and the screen height at 1.
   */
  function FromParams(p: Params): (u: Uniforms)
    ensures u.flags == FLAG_POW2 <==> p.textureWidth > 0 && IsPowerOfTwo(p.textureWidth)
    ensures u.flags != FLAG_POW2 ==> u.flags == 0 && u.wrapMask == 0
    ensures u.flags == FLAG_POW2 ==> u.wrapMask + 1 == p.textureWidth
    ensures u.width == p.textureWidth as real && u.height == p.textureHeight as real
    ensures u.latestColumn == p.latestColumn && u.columnCount == p.columnCount
    ensures u.contrast >= 0.01 && (p.contrast >= 0.01 ==> u.contrast == p.contrast)
    ensures u.screenHeight >= 1.0 && (p.screenHeight >= 1.0 ==> u.screenHeight == p.screenHeight)
    ensures u.uvMin == p.uvYRange.0 && u.uvMax == p.uvYRange.1
  {
    var cap := p.textureWidth;
    var pow2 := cap > 0 && IsPowerOfTwo(cap);
    Uniforms(
      cap as real, p.textureHeight as real,
      if pow2 then cap - 1 else 0,
      if pow2 then FLAG_POW2 else 0,
      p.latestColumn, p.columnCount,
      MaxR(p.contrast, 0.01), p.uvYRange.0, p.uvYRange.1, MaxR(p.screenHeight, 1.0),
      p.background)
  }

  // -------------------------------------------------------------------
  // Palette lookup table

  /** The palette position of LUT entry `i`: `i / 255 * 4`, in [0, 4]. */
  function LutPosition(i: nat): (t: real)
    requires i < PALETTE_LUT_SIZE
    ensures 0.0 <= t <= 4.0
  {
    i as real / 255.0 * (SPECTROGRAM_PALETTE_SIZE - 1) as real
  }

  /** The lower stop of LUT entry `i`. */
  function LutLower(i: nat): (lo: nat)
    requires i < PALETTE_LUT_SIZE
    ensures lo < SPECTROGRAM_PALETTE_SIZE
    ensures lo as real <= LutPosition(i) < lo as real + 1.0
  {
    LutPosition(i).Floor
  }

  /** The byte for channel `c` of LUT entry `i`: a linear blend of the two stops around it. */
  function LutByte(palette: seq<Color>, i: nat, c: nat): (b: nat)
    requires |palette| == SPECTROGRAM_PALETTE_SIZE && i < PALETTE_LUT_SIZE && c < 4
    ensures b <= 255
  {
    var t := LutPosition(i);
    var lo := LutLower(i);
    var hi := Min(lo + 1, SPECTROGRAM_PALETTE_SIZE - 1);
    var f := t - lo as real;
    Theme.F32ToU8(AudioUtil.Lerp(palette[lo].Channel(c), palette[hi].Channel(c), f))
  }

  /**
   * build_palette_lut: 256 RGBA byte quadruples, the first equal to the
   * first stop and the last to the last stop (both quantised).
   */
  function BuildPaletteLut(palette: seq<Color>): (lut: seq<nat>)
    requires |palette| == SPECTROGRAM_PALETTE_SIZE
    ensures |lut| == PALETTE_LUT_SIZE * 4
    ensures forall j :: 0 <= j < |lut| ==> lut[j] <= 255
    ensures forall c :: 0 <= c < 4 ==> lut[c] == Theme.F32ToU8(palette[0].Channel(c))
    ensures forall j :: 4 * (PALETTE_LUT_SIZE - 1) <= j < |lut| ==>
      lut[j] == Theme.F32ToU8(palette[SPECTROGRAM_PALETTE_SIZE - 1].Channel(j - 4 * (PALETTE_LUT_SIZE - 1)))
  {
    assert LutLower(PALETTE_LUT_SIZE - 1) == 4;
    seq(PALETTE_LUT_SIZE * 4, j requires 0 <= j < PALETTE_LUT_SIZE * 4 => LutByte(palette, j / 4, j % 4))
  }

  /** A palette whose stops are all the same colour yields that colour in every entry. */
  lemma UniformPaletteLut(palette: seq<Color>, k: Color)
    requires |palette| == SPECTROGRAM_PALETTE_SIZE
    requires forall s :: 0 <= s < |palette| ==> palette[s] == k
    ensures var lut := BuildPaletteLut(palette);
      forall j :: 0 <= j < |lut| ==> lut[j] == Theme.F32ToU8(k.Channel(j % 4))
  {
    var lut := BuildPaletteLut(palette);
    forall j | 0 <= j < |lut| ensures lut[j] == Theme.F32ToU8(k.Channel(j % 4)) {
      var i, c := j / 4, j % 4;
      var lo := LutLower(i);
      var hi := Min(lo + 1, SPECTROGRAM_PALETTE_SIZE - 1);
      assert palette[lo] == k && palette[hi] == k;
    }
  }

  // -------------------------------------------------------------------
  // Column buffer pool

  /** The last index whose buffer can hold `len` values (`rposition`). */
  function LastFitting(capacities: seq<nat>, len: nat): (r: Option<nat>)
    ensures r.Some? ==>
      (r.value < |capacities| && capacities[r.value] >= len
       && forall k :: r.value < k < |capacities| ==> capacities[k] < len)
    ensures r.None? ==> forall k :: 0 <= k < |capacities| ==> capacities[k] < len
  {
    if capacities == [] then None
    else if capacities[|capacities| - 1] >= len then Some(|capacities| - 1)
    else LastFitting(capacities[..|capacities| - 1], len)
  }

  /** Vec::swap_remove: the last element takes the place of the removed one. */
  function SwapRemove<T>(s: seq<T>, i: nat): (r: seq<T>)
    requires i < |s|
    ensures |r| == |s| - 1
    ensures multiset(r) == multiset(s) - multiset{s[i]}
    ensures forall k :: 0 <= k < |r| && k != i ==> r[k] == s[k]
    ensures i < |r| ==> r[i] == s[|s| - 1]
  {
    if i == |s| - 1 then
      assert s == s[..i] + [s[i]];
      s[..i]
    else
      SwapRemoveMultiset(s, i);
      s[..i] + [s[|s| - 1]] + s[i + 1..|s| - 1]
  }

  lemma SwapRemoveMultiset<T>(s: seq<T>, i: nat)
    requires i < |s| - 1
    ensures multiset(s[..i] + [s[|s| - 1]] + s[i + 1..|s| - 1]) == multiset(s) - multiset{s[i]}
  {
    var a, b, c, d := s[..i], [s[i]], s[i + 1..|s| - 1], [s[|s| - 1]];
    assert s == a + b + c + d;
    assert multiset(s) == multiset(a) + multiset(b) + multiset(c) + multiset(d);
    assert multiset(a + d + c) == multiset(a) + multiset(d) + multiset(c);
  }

  /**
   * ColumnBufferPool: parked buffers, each known by its capacity (a parked
   * buffer is always cleared, so its contents do not matter).
   */
  class ColumnBufferPool {
    var parked: seq<nat>

    ghost predicate Valid()
      reads this
    {
      |parked| <= POOL_MAX_BUFFERS
      && forall k :: 0 <= k < |parked| ==> parked[k] <= POOL_MAX_CAPACITY
    }

    constructor ()
      ensures Valid() && parked == []
    {
      parked := [];
    }

    /**
     * acquire: a zeroed buffer of exactly `len` values, reusing the last
     * parked buffer that is large enough, else a fresh one.
     */
    method Acquire(len: nat) returns (buf: seq<real>, capacity: nat)
      requires Valid()
      modifies this
      ensures Valid()
      ensures |buf| == len && forall k :: 0 <= k < len ==> buf[k] == 0.0
      ensures capacity >= len
      ensures LastFitting(old(parked), len).Some? ==>
        var i := LastFitting(old(parked), len).value;
        capacity == old(parked)[i] && parked == SwapRemove(old(parked), i)
      ensures LastFitting(old(parked), len).None? ==> capacity == len && parked == old(parked)
    {
      buf := seq(len, _ => 0.0);
      var found := LastFitting(parked, len);
      if found.Some? {
        var i := found.value;
        capacity := parked[i];
        parked := SwapRemove(parked, i);
        forall k | 0 <= k < |parked| ensures parked[k] <= POOL_MAX_CAPACITY {
          if k == i {
            assert parked[k] == old(parked)[|old(parked)| - 1];
          } else {
            assert parked[k] == old(parked)[k];
          }
        }
      } else {
        capacity := len;
      }
    }

    /** release: keeps a buffer of capacity at most 16384 while fewer than 64 are parked. */
    method Release(capacity: nat)
      requires Valid()
      modifies this
      ensures Valid()
      ensures parked == if capacity <= POOL_MAX_CAPACITY && |old(parked)| < POOL_MAX_BUFFERS
        then old(parked) + [capacity] else old(parked)
    {
      if capacity <= POOL_MAX_CAPACITY {
        if |parked| < POOL_MAX_BUFFERS {
          parked := parked + [capacity];
        }
      }
    }
  }

  // -------------------------------------------------------------------
  // Magnitude texture

  /**
   * grow_magnitude: the requested size clamped into [1, 8192] per axis; the
   * capacity only grows, and stays unchanged when the request already fits.
   */
  function GrownCapacity(cap: (nat, nat), w: nat, h: nat): (r: (nat, nat))
    ensures r.0 >= cap.0 && r.1 >= cap.1
    ensures r.0 >= Clamp(w, 1, MAX_TEXTURE_DIM) && r.1 >= Clamp(h, 1, MAX_TEXTURE_DIM)
    ensures Clamp(w, 1, MAX_TEXTURE_DIM) <= cap.0 && Clamp(h, 1, MAX_TEXTURE_DIM) <= cap.1 ==> r == cap
    ensures cap.0 <= MAX_TEXTURE_DIM && cap.1 <= MAX_TEXTURE_DIM ==>
      r.0 <= MAX_TEXTURE_DIM && r.1 <= MAX_TEXTURE_DIM
  {
    var tw, th := Clamp(w, 1, MAX_TEXTURE_DIM), Clamp(h, 1, MAX_TEXTURE_DIM);
    if tw <= cap.0 && th <= cap.1 then cap
    else (Max(tw, cap.0), Max(th, cap.1))
  }

  lemma ChunkStartInBounds(j: nat, h: nat, n: nat)
    requires h > 0 && j < (n + h - 1) / h
    ensures j * h < n
  {
    var q, r := (n + h - 1) / h, (n + h - 1) % h;
    assert q * h + r == n + h - 1;
    assert (j + 1) * h <= q * h by {
      assert j + 1 <= q;
    }
  }

  /** `chunks(h)`: the `j`-th piece of `base`, never empty, at most `h` long. */
  function Chunk(base: seq<real>, h: nat, j: nat): (c: seq<real>)
    requires h > 0 && j < (|base| + h - 1) / h
    ensures 0 < |c| <= h && j * h + |c| <= |base|
    ensures c == base[j * h..j * h + |c|]
  {
    ChunkStartInBounds(j, h, |base|);
    base[j * h..Min(j * h + h, |base|)]
  }

  /** The chunks of the base image, one per column, at most `w` of them. */
  function BaseWrites(base: seq<real>, w: nat, h: nat): (r: seq<ColumnUpdate>)
    requires h > 0
    ensures |r| == Min(w, (|base| + h - 1) / h)
    ensures forall j :: 0 <= j < |r| ==> r[j] == ColumnUpdate(j, Chunk(base, h, j))
  {
    var n := Min(w, (|base| + h - 1) / h);
    seq(n, j requires 0 <= j < n => ColumnUpdate(j, Chunk(base, h, j)))
  }

  /** The non-empty updates, their slot clamped to the last column. */
  function UpdateWrites(updates: seq<ColumnUpdate>, w: nat): (r: seq<ColumnUpdate>)
    requires w > 0
    ensures |r| <= |updates|
    ensures forall k :: 0 <= k < |r| ==> r[k].columnIndex < w && r[k].values != []
    ensures (forall k :: 0 <= k < |updates| ==> updates[k].values != [] && updates[k].columnIndex < w)
      ==> r == updates
  {
    if updates == [] then []
    else
      var last := updates[|updates| - 1];
      var front := UpdateWrites(updates[..|updates| - 1], w);
      if last.values == [] then front
      else front + [ColumnUpdate(Min(last.columnIndex, w - 1), last.values)]
  }

  /** Every texture write of one frame, in order: the base image, then the updates. */
  function ColumnWrites(p: Params, w: nat, h: nat): (r: seq<ColumnUpdate>)
    ensures w == 0 || h == 0 ==> r == []
    ensures forall k :: 0 <= k < |r| ==> r[k].columnIndex < w
  {
    if w == 0 || h == 0 then []
    else
      var base := if p.baseData.Some? then BaseWrites(p.baseData.value, w, h) else [];
      base + UpdateWrites(p.columnUpdates, w)
  }

  /** The texture after a sequence of column writes; a later write to a column wins. */
  function ApplyWrites(texture: map<nat, seq<real>>, writes: seq<ColumnUpdate>): map<nat, seq<real>>
  {
    if writes == [] then texture
    else
      var last := writes[|writes| - 1];
      ApplyWrites(texture, writes[..|writes| - 1])[last.columnIndex := last.values]
  }

  /** Each write in turn replaces the contents of its column. */
  method WriteEach(texture: map<nat, seq<real>>, writes: seq<ColumnUpdate>) returns (tex: map<nat, seq<real>>)
    ensures tex == ApplyWrites(texture, writes)
  {
    tex := texture;
    var i := 0;
    while i < |writes|
      invariant 0 <= i <= |writes|
      invariant tex == ApplyWrites(texture, writes[..i])
    {
      assert writes[..i + 1][..i] == writes[..i];
      tex := tex[writes[i].columnIndex := writes[i].values];
      i := i + 1;
    }
    assert writes[..i] == writes;
  }

  /** A column that no write touches keeps its old contents. */
  lemma {:induction false} ApplyWritesUntouched(texture: map<nat, seq<real>>, writes: seq<ColumnUpdate>, col: nat)
    requires forall k :: 0 <= k < |writes| ==> writes[k].columnIndex != col
    ensures col in texture <==> col in ApplyWrites(texture, writes)
    ensures col in texture ==> ApplyWrites(texture, writes)[col] == texture[col]
  {
    if writes != [] {
      ApplyWritesUntouched(texture, writes[..|writes| - 1], col);
    }
  }

  /** Every column that some write touches ends up holding the values of the last such write. */
  lemma {:induction false} ApplyWritesLast(texture: map<nat, seq<real>>, writes: seq<ColumnUpdate>, k: nat)
    requires k < |writes|
    requires forall j :: k < j < |writes| ==> writes[j].columnIndex != writes[k].columnIndex
    ensures writes[k].columnIndex in ApplyWrites(texture, writes)
    ensures ApplyWrites(texture, writes)[writes[k].columnIndex] == writes[k].values
  {
    if k < |writes| - 1 {
      ApplyWritesLast(texture, writes[..|writes| - 1], k);
    }
  }

  /** The per-instance GPU resources of one spectrogram. */
  class Resources {
    var magnitudeCap: (nat, nat)
    var texture: map<nat, seq<real>>
    var uniformCache: Uniforms
    var paletteCache: seq<Color>
    var lut: seq<nat>

    /** Resources::new: the texture is created at the requested size (at least 1×1). */
    constructor (w: nat, h: nat)
      ensures magnitudeCap == (Max(w, 1), Max(h, 1))
      ensures texture == map[] && uniformCache == ZERO_UNIFORMS
      ensures paletteCache == seq(SPECTROGRAM_PALETTE_SIZE, _ => Color(0.0, 0.0, 0.0, 0.0))
      ensures lut == []
    {
      magnitudeCap := (Max(w, 1), Max(h, 1));
      texture := map[];
      uniformCache := ZERO_UNIFORMS;
      paletteCache := seq(SPECTROGRAM_PALETTE_SIZE, _ => Color(0.0, 0.0, 0.0, 0.0));
      lut := [];
    }

    method GrowMagnitude(w: nat, h: nat)
      modifies this`magnitudeCap
      ensures magnitudeCap == GrownCapacity(old(magnitudeCap), w, h)
    {
      var tw, th := Clamp(w, 1, MAX_TEXTURE_DIM), Clamp(h, 1, MAX_TEXTURE_DIM);
      if tw <= magnitudeCap.0 && th <= magnitudeCap.1 {
        return;
      }
      magnitudeCap := (Max(tw, magnitudeCap.0), Max(th, magnitudeCap.1));
    }

    /** write_columns: the base image (if any), then each non-empty update. */
    method WriteColumns(p: Params)
      modifies this`texture
      ensures texture == ApplyWrites(old(texture),
        ColumnWrites(p, Min(p.textureWidth, magnitudeCap.0), Min(p.textureHeight, magnitudeCap.1)))
    {
      var writes := ColumnWrites(p, Min(p.textureWidth, magnitudeCap.0), Min(p.textureHeight, magnitudeCap.1));
      texture := WriteEach(texture, writes);
    }

    /** write_uniforms: uploads only when the block differs from the cached one. */
    method WriteUniforms(p: Params) returns (uploaded: bool)
      modifies this`uniformCache
      ensures uploaded <==> FromParams(p) != old(uniformCache)
      ensures uniformCache == FromParams(p)
    {
      var u := FromParams(p);
      uploaded := u != uniformCache;
      if uploaded {
        uniformCache := u;
      }
    }

    /** write_palette: rebuilds and uploads the table only for a changed palette. */
    method WritePalette(p: Params) returns (uploaded: bool)
      requires |p.palette| == SPECTROGRAM_PALETTE_SIZE
      modifies this`paletteCache, this`lut
      ensures uploaded <==> p.palette != old(paletteCache)
      ensures paletteCache == p.palette
      ensures uploaded ==> lut == BuildPaletteLut(p.palette)
      ensures !uploaded ==> lut == old(lut)
    {
      uploaded := p.palette != paletteCache;
      if uploaded {
        lut := BuildPaletteLut(p.palette);
        paletteCache := p.palette;
      }
    }

    /** Resources::sync: grow, then columns, uniforms and palette. */
    method Sync(p: Params)
      requires |p.palette| == SPECTROGRAM_PALETTE_SIZE
      modifies this
      ensures magnitudeCap == GrownCapacity(old(magnitudeCap), p.textureWidth, p.textureHeight)
      ensures texture == ApplyWrites(old(texture),
        ColumnWrites(p, Min(p.textureWidth, magnitudeCap.0), Min(p.textureHeight, magnitudeCap.1)))
      ensures uniformCache == FromParams(p) && paletteCache == p.palette
    {
      GrowMagnitude(p.textureWidth, p.textureHeight);
      WriteColumns(p);
      var _ := WriteUniforms(p);
      var _ := WritePalette(p);
    }
  }
}
