// Shared vocabulary for the model: optional values, clamping, the integer
// widths of the source (u32/u64/usize), float-to-integer casts and the ASCII
// string helpers that Rust's `str` methods provide.
module Base {

  datatype Option<T> = None | Some(value: T)

  function OptionOr<T>(o: Option<T>, other: Option<T>): Option<T>
  {
    if o.Some? then o else other
  }

  // ---------------------------------------------------------------------
  // Integers

  const U32_LIMIT: nat := 0x1_0000_0000
  const U64_LIMIT: nat := 0x1_0000_0000_0000_0000
  const U32_MAX: nat := U32_LIMIT - 1
  const U64_MAX: nat := U64_LIMIT - 1

  function Min(a: int, b: int): int { if a <= b then a else b }
  function Max(a: int, b: int): int { if a >= b then a else b }

  /** Ord::clamp: the source never calls it with lo > hi (it would panic). */
  function Clamp(x: int, lo: int, hi: int): (r: int)
    requires lo <= hi
    ensures lo <= r <= hi
    ensures lo <= x <= hi ==> r == x
  {
    if x < lo then lo else if x > hi then hi else x
  }

  /** `a.saturating_sub(b)` on unsigned integers. */
  function SaturatingSub(a: nat, b: nat): nat { if a >= b then a - b else 0 }

  /** `a.saturating_add(b)` at the integer width whose largest value is `max`. */
  function SaturatingAdd(a: nat, b: nat, max: nat): nat
  {
    if a + b > max then max else a + b
  }

  /** `a.wrapping_add(b)` on u64. */
  function WrappingAdd64(a: nat, b: nat): nat
  {
    (a + b) % U64_LIMIT
  }

  predicate IsPowerOfTwo(n: nat)
  {
    n == 1 || (n > 1 && n % 2 == 0 && IsPowerOfTwo(n / 2))
  }

  lemma MulAtLeast(m: nat, b: nat)
    requires m >= 1
    ensures m * b >= b
  {
    if m > 1 {
      MulAtLeast(m - 1, b);
      assert m * b == (m - 1) * b + b;
    }
  }

  lemma {:induction false} MulMonotone(a: nat, b: nat, h: nat)
    requires a <= b
    ensures a * h <= b * h
  {
    if h > 0 {
      MulMonotone(a, b, h - 1);
      assert a * h == a * (h - 1) + a && b * h == b * (h - 1) + b;
    }
  }

  /** Row `c` of a row-major block of `n` rows of width `h` lies inside the block. */
  lemma SlotInBounds(c: nat, n: nat, h: nat)
    requires c < n
    ensures c * h + h <= n * h
  {
    MulMonotone(c + 1, n, h);
  }

  /** Quotient and remainder are determined by `x == q * c + r` with `0 <= r < c`. */
  lemma DivModUnique(x: int, q: int, c: nat, r: int)
    requires c > 0 && 0 <= r < c && x == q * c + r
    ensures x / c == q && x % c == r
  {
    var q', r' := x / c, x % c;
    assert x == q' * c + r';
    assert (q - q') * c == r' - r;
    if q > q' {
      MulAtLeast(q - q', c);
      assert false;
    } else if q < q' {
      MulAtLeast(q' - q, c);
      assert false;
    }
  }

  /** Reducing before adding does not change the residue. */
  lemma ModAddLeft(a: nat, k: nat, c: nat)
    requires c > 0
    ensures ((a % c) + k) % c == (a + k) % c
  {
    var q, s := a / c, a % c;
    var q2, t := (s + k) / c, (s + k) % c;
    assert a + k == (q + q2) * c + t;
    DivModUnique(a + k, q + q2, c, t);
  }

  /** An index below `n * k` lies in one of the `k` blocks of width `n`. */
  lemma DivBelow(d: nat, n: nat, k: nat)
    requires d < n * k
    ensures n > 0 && d / n < k
  {
    if n == 0 {
      assert false;
    } else {
      var q := d / n;
      if q >= k {
        assert false;
      }
    }
  }

  lemma ModSmall(a: nat, c: nat)
    requires a < c
    ensures a % c == a
  {
    DivModUnique(a, 0, c, a);
  }

  // ---------------------------------------------------------------------
  // Reals standing for f32

  /** An sRGB colour with alpha, each channel a float (iced `Color`). */
  datatype Color = Color(r: real, g: real, b: real, a: real)
  {
    /** The channel at position `k` of `[r, g, b, a]`. */
    function Channel(k: nat): real
      requires k < 4
    {
      if k == 0 then r else if k == 1 then g else if k == 2 then b else a
    }
  }

  /** f32::EPSILON */
  const F32_EPSILON: real := 0.00000011920929

  function MinR(a: real, b: real): real { if a <= b then a else b }
  function MaxR(a: real, b: real): real { if a >= b then a else b }
  function AbsR(a: real): real { if a < 0.0 then -a else a }

  /** The last `n` elements of `s` (all of them when there are fewer). */
  function LastN<T>(s: seq<T>, n: nat): (r: seq<T>)
    ensures |r| == Min(|s|, n)
    ensures forall i :: 0 <= i < |r| ==> r[i] == s[|s| - |r| + i]
  {
    s[|s| - Min(|s|, n)..]
  }

  /** Keeping the last `n` before appending keeps the same last `n` after it. */
  lemma LastNAppend<T>(s: seq<T>, x: T, n: nat)
    ensures LastN(LastN(s, n) + [x], n) == LastN(s + [x], n)
  {
    var a := LastN(LastN(s, n) + [x], n);
    var b := LastN(s + [x], n);
    assert |a| == |b|;
    forall i | 0 <= i < |a|
      ensures a[i] == b[i]
    {
      if i < |a| - 1 {
        assert a[i] == s[|s| - |a| + 1 + i];
      }
    }
  }

  // ---------------------------------------------------------------------
  // Sequences: no repetition, removal and insertion at an index

  /** Every element occurs at most once. */
  ghost predicate NoDup<T(!new)>(s: seq<T>)
  {
    forall x :: multiset(s)[x] <= 1
  }

  lemma NoDupIndices<T(!new)>(s: seq<T>, i: nat, j: nat)
    requires NoDup(s) && i < j < |s|
    ensures s[i] != s[j]
  {
    assert s == s[..j] + [s[j]] + s[j + 1..];
    assert s[i] in multiset(s[..j]) by {
      assert s[..j][i] == s[i];
    }
    assert multiset(s) == multiset(s[..j]) + multiset{s[j]} + multiset(s[j + 1..]);
    assert multiset(s)[s[j]] <= 1;
    assert multiset(s[..j])[s[i]] >= 1;
  }

  /** A sequence without repetition has as many distinct elements as entries. */
  lemma {:induction false} NoDupCard<T(!new)>(s: seq<T>)
    requires NoDup(s)
    ensures |set x | x in s| == |s|
  {
    if s != [] {
      var front := s[..|s| - 1];
      var last := s[|s| - 1];
      assert s == front + [last];
      assert multiset(s) == multiset(front) + multiset{last};
      assert NoDup(front) by {
        forall x ensures multiset(front)[x] <= 1 {
          assert multiset(front)[x] <= multiset(s)[x];
        }
      }
      NoDupCard(front);
      assert multiset(s)[last] <= 1;
      assert last !in multiset(front);
      assert (set x | x in s) == (set x | x in front) + {last};
    }
  }

  /** Sequences with the same elements, counted with repetition, contain the same elements and repeat alike. */
  lemma SameElements<T(!new)>(a: seq<T>, b: seq<T>)
    requires multiset(a) == multiset(b)
    ensures forall x :: x in a <==> x in b
    ensures NoDup(a) ==> NoDup(b)
  {
    forall x ensures x in a <==> x in b {
      assert x in a <==> x in multiset(a);
      assert x in b <==> x in multiset(b);
    }
  }

  /** Vec::remove: the element at `i` taken out. */
  function RemoveAt<T>(s: seq<T>, i: nat): (r: seq<T>)
    requires i < |s|
    ensures |r| == |s| - 1
    ensures multiset(r) == multiset(s) - multiset{s[i]}
    ensures forall k | 0 <= k < i :: r[k] == s[k]
    ensures forall k | i <= k < |r| :: r[k] == s[k + 1]
  {
    assert s == s[..i] + [s[i]] + s[i + 1..];
    s[..i] + s[i + 1..]
  }

  /** Vec::insert: `x` placed at index `i`, the rest shifted right. */
  function InsertAt<T>(s: seq<T>, i: nat, x: T): (r: seq<T>)
    requires i <= |s|
    ensures |r| == |s| + 1 && r[i] == x
    ensures multiset(r) == multiset(s) + multiset{x}
    ensures forall k | 0 <= k < i :: r[k] == s[k]
    ensures forall k | i < k < |r| :: r[k] == s[k - 1]
  {
    assert s == s[..i] + s[i..];
    s[..i] + [x] + s[i..]
  }

  /** f32::clamp; the source never calls it with lo > hi (it would panic). */
  function ClampR(x: real, lo: real, hi: real): (r: real)
    requires lo <= hi
    ensures lo <= r <= hi
    ensures lo <= x <= hi ==> r == x
  {
    if x < lo then lo else if x > hi then hi else x
  }

  /** f32::round: halfway cases away from zero. */
  function Round(x: real): int
  {
    if x >= 0.0 then (x + 0.5).Floor else -((-x + 0.5).Floor)
  }

  /** `x as usize` for a float: saturates at zero (the upper saturation is not reached here). */
  function ToNat(x: real): nat
  {
    if x <= 0.0 then 0 else x.Floor
  }

  /** `iter().sum()` over samples. */
  function Sum(s: seq<real>): real
  {
    if s == [] then 0.0 else Sum(s[..|s| - 1]) + s[|s| - 1]
  }

  /** f32::fract for a non-negative value. */
  function Fract(x: real): real { x - x.Floor as real }

  // ---------------------------------------------------------------------
  // Strings (Rust `str` helpers)

  /** char::is_whitespace: the Unicode White_Space characters that `str::trim` removes. */
  predicate IsWhitespace(c: char)
  {
    ('\t' <= c <= '\r') || c == ' ' || c == '\U{0085}' || c == '\U{00A0}' || c == '\U{1680}'
    || ('\U{2000}' <= c <= '\U{200A}') || c == '\U{2028}' || c == '\U{2029}' || c == '\U{202F}'
    || c == '\U{205F}' || c == '\U{3000}'
  }

  function TrimStart(s: string): string
  {
    if |s| > 0 && IsWhitespace(s[0]) then TrimStart(s[1..]) else s
  }

  function TrimEnd(s: string): string
  {
    if |s| > 0 && IsWhitespace(s[|s| - 1]) then TrimEnd(s[..|s| - 1]) else s
  }

  function Trim(s: string): string { TrimEnd(TrimStart(s)) }

  predicate IsTrimmed(s: string)
  {
    |s| == 0 || (!IsWhitespace(s[0]) && !IsWhitespace(s[|s| - 1]))
  }

  function UpperChar(c: char): char
  {
    if 'a' <= c <= 'z' then (c as int - 32) as char else c
  }

  function LowerChar(c: char): char
  {
    if 'A' <= c <= 'Z' then (c as int + 32) as char else c
  }

  /** str::to_ascii_uppercase */
  function ToUpper(s: string): (r: string)
    ensures |r| == |s|
  {
    if |s| == 0 then [] else [UpperChar(s[0])] + ToUpper(s[1..])
  }

  /** str::to_ascii_lowercase */
  function ToLower(s: string): (r: string)
    ensures |r| == |s|
  {
    if |s| == 0 then [] else [LowerChar(s[0])] + ToLower(s[1..])
  }

  /** str::eq_ignore_ascii_case */
  predicate EqIgnoreCase(a: string, b: string)
  {
    ToLower(a) == ToLower(b)
  }

  /** Upper-casing is idempotent and does not change what lower-casing gives. */
  lemma {:induction false} CaseFolding(s: string)
    ensures ToUpper(ToUpper(s)) == ToUpper(s)
    ensures ToLower(ToUpper(s)) == ToLower(s)
  {
    if |s| > 0 {
      CaseFolding(s[1..]);
      assert ToUpper(s)[1..] == ToUpper(s[1..]);
    }
  }

  /** Trimming leaves no whitespace at either end. */
  lemma {:induction false} TrimStartFirst(s: string)
    ensures |TrimStart(s)| > 0 ==> !IsWhitespace(TrimStart(s)[0])
    ensures |TrimStart(s)| <= |s| && TrimStart(s) == s[|s| - |TrimStart(s)|..]
  {
    if |s| > 0 && IsWhitespace(s[0]) {
      TrimStartFirst(s[1..]);
    }
  }

  lemma {:induction false} TrimEndLast(s: string)
    ensures |TrimEnd(s)| > 0 ==> !IsWhitespace(TrimEnd(s)[|TrimEnd(s)| - 1])
    ensures |TrimEnd(s)| <= |s| && TrimEnd(s) == s[..|TrimEnd(s)|]
  {
    if |s| > 0 && IsWhitespace(s[|s| - 1]) {
      TrimEndLast(s[..|s| - 1]);
    }
  }

  lemma TrimIsTrimmed(s: string)
    ensures IsTrimmed(Trim(s))
  {
    TrimStartFirst(s);
    TrimEndLast(TrimStart(s));
  }

  /** A trimmed string is its own trim. */
  lemma TrimTrimmed(s: string)
    requires IsTrimmed(s)
    ensures Trim(s) == s
  {
    assert TrimStart(s) == s;
  }

  /** Upper-casing keeps a trimmed string trimmed. */
  lemma UpperTrimmed(s: string)
    requires IsTrimmed(s)
    ensures IsTrimmed(ToUpper(s))
  {
    if |s| > 0 {
      UpperAt(s, |s| - 1);
    }
  }

  lemma {:induction false} UpperAt(s: string, i: nat)
    requires i < |s|
    ensures ToUpper(s)[i] == UpperChar(s[i])
  {
    if i > 0 {
      UpperAt(s[1..], i - 1);
    }
  }

  predicate StartsWith(s: string, prefix: string)
  {
    |prefix| <= |s| && s[..|prefix|] == prefix
  }

  predicate OccursAt(s: string, pattern: string, i: int)
  {
    0 <= i <= |s| - |pattern| && s[i..i + |pattern|] == pattern
  }

  /** str::contains */
  predicate Contains(s: string, pattern: string)
  {
    exists i :: 0 <= i <= |s| - |pattern| && OccursAt(s, pattern, i)
  }

  function DigitChar(d: nat): char
    requires d < 10
  {
    ('0' as int + d) as char
  }

  /** Decimal rendering of an unsigned integer (`to_string`, `{}`). */
  function NatToString(n: nat): (r: string)
    ensures |r| > 0
    decreases n
  {
    if n < 10 then [DigitChar(n)] else NatToString(n / 10) + [DigitChar(n % 10)]
  }

  /** Decimal rendering of a signed integer. */
  function IntToString(n: int): (r: string)
    ensures |r| > 0
  {
    if n < 0 then "-" + NatToString(-n) else NatToString(n)
  }
}
