/**
 * String helpers shared by the ticket renderers and the filters: Python's
 * `str(int)`, the `{:,}` thousands grouping, zero padding (`{:06d}`),
 * `str.center`, the `{:>w}` / `{:<w}` alignments, slicing and `"\n".join`.
 * Strings are sequences of characters; no encoding is involved.
 */
module Text {

  function Max(a: int, b: int): int { if a < b then b else a }

  predicate IsDigit(c: char) { '0' <= c <= '9' }

  predicate AllDigits(s: string) {
    forall i :: 0 <= i < |s| ==> IsDigit(s[i])
  }

  /** The decimal digit character for `d`. */
  function Digit(d: nat): (c: char)
    requires d < 10
    ensures IsDigit(c) && c as int - '0' as int == d
  {
    ('0' as int + d) as char
  }

  /** Python's `str(n)` for a non-negative integer. */
  function NatToString(n: nat): (s: string)
    ensures 1 <= |s| && AllDigits(s)
    ensures s[0] == '0' ==> n == 0
    ensures n < 10 <==> |s| == 1
    decreases n
  {
    if n < 10 then [Digit(n)] else NatToString(n / 10) + [Digit(n % 10)]
  }

  /** The number a string of decimal digits denotes. */
  function DigitsValue(s: string): nat
    requires AllDigits(s)
  {
    if s == [] then 0
    else 10 * DigitsValue(s[..|s| - 1]) + (s[|s| - 1] as int - '0' as int)
  }

  /** `str(n)` can be read back: the digits denote `n`. */
  lemma {:induction false} NatToStringRoundTrip(n: nat)
    ensures DigitsValue(NatToString(n)) == n
  {
    if n >= 10 {
      NatToStringRoundTrip(n / 10);
      var s := NatToString(n);
      assert s[..|s| - 1] == NatToString(n / 10);
    }
  }

  /** Python's `str(n)` for any integer. */
  function IntToString(n: int): (s: string)
    ensures n < 0 ==> s == "-" + NatToString(-n)
    ensures n >= 0 ==> s == NatToString(n)
  {
    if n < 0 then "-" + NatToString(-n) else NatToString(n)
  }

  /** Python's `c * n`: `n` copies of `c`, empty when `n <= 0`. */
  function Repeat(c: char, n: int): (s: string)
    ensures |s| == Max(n, 0)
    ensures forall i :: 0 <= i < |s| ==> s[i] == c
  {
    seq(Max(n, 0), _ => c)
  }

  function Spaces(n: int): string { Repeat(' ', n) }

  /** Leading zeros do not change the value of a digit string. */
  lemma {:induction false} LeadingZerosValue(k: int, s: string)
    requires AllDigits(s)
    ensures AllDigits(Repeat('0', k) + s)
    ensures DigitsValue(Repeat('0', k) + s) == DigitsValue(s)
    decreases |s|
  {
    var z := Repeat('0', k);
    if s == [] {
      assert z + s == z;
      ZerosValue(k);
    } else {
      var t := z + s;
      LeadingZerosValue(k, s[..|s| - 1]);
      assert t[..|t| - 1] == z + s[..|s| - 1];
    }
  }

  lemma {:induction false} ZerosValue(k: int)
    ensures AllDigits(Repeat('0', k))
    ensures DigitsValue(Repeat('0', k)) == 0
    decreases k
  {
    if k > 0 {
      ZerosValue(k - 1);
      var z := Repeat('0', k);
      var a, b := z[..|z| - 1], Repeat('0', k - 1);
      assert |a| == |b|;
      assert forall i :: 0 <= i < |a| ==> a[i] == b[i];
      assert a == b;
    }
  }

  /** Python's `f"{n:0{w}d}"` for a non-negative `n`. */
  function ZeroPad(n: nat, w: int): (s: string)
    ensures |s| == Max(w, |NatToString(n)|)
    ensures AllDigits(s)
  {
    Repeat('0', w - |NatToString(n)|) + NatToString(n)
  }

  /** A zero-padded number still denotes the number. */
  lemma ZeroPadValue(n: nat, w: int)
    ensures DigitsValue(ZeroPad(n, w)) == n
  {
    LeadingZerosValue(w - |NatToString(n)|, NatToString(n));
    NatToStringRoundTrip(n);
  }

  /**
   * Python's `f"{n:,}"` with the comma replaced by `sep`, for `n >= 0`:
   * the digits of `n` with `sep` before every group of three counted
   * from the right.
   */
  function Group(n: nat, sep: char): string
    decreases n
  {
    if n < 1000 then NatToString(n)
    else Group(n / 1000, sep) + [sep] + ZeroPad(n % 1000, 3)
  }

  /** Python's `f"{n:,}"` (sign included) with `sep` for the comma. */
  function GroupInt(n: int, sep: char): string {
    if n < 0 then "-" + Group(-n, sep) else Group(n, sep)
  }

  /** `s` with every `c` removed. */
  function Without(s: string, c: char): string {
    if s == [] then [] else (if s[0] == c then [] else [s[0]]) + Without(s[1..], c)
  }

  lemma {:induction false} WithoutAppend(a: string, b: string, c: char)
    ensures Without(a + b, c) == Without(a, c) + Without(b, c)
    decreases |a|
  {
    if a == [] {
      assert a + b == b;
    } else {
      var x := if a[0] == c then [] else [a[0]];
      calc {
        Without(a + b, c);
        { assert (a + b)[0] == a[0] && (a + b)[1..] == a[1..] + b; }
        x + Without(a[1..] + b, c);
        { WithoutAppend(a[1..], b, c); }
        x + (Without(a[1..], c) + Without(b, c));
        (x + Without(a[1..], c)) + Without(b, c);
        Without(a, c) + Without(b, c);
      }
    }
  }

  lemma {:induction false} WithoutNoOccurrence(s: string, c: char)
    requires forall i :: 0 <= i < |s| ==> s[i] != c
    ensures Without(s, c) == s
    decreases |s|
  {
    if s != [] {
      WithoutNoOccurrence(s[1..], c);
    }
  }

  /** `str(10 * q + d)` is `str(q)` followed by the digit `d`, for `q >= 1`. */
  lemma ShiftDigit(q: nat, d: nat)
    requires 1 <= q && d < 10
    ensures NatToString(10 * q + d) == NatToString(q) + [Digit(d)]
  {
    assert (10 * q + d) / 10 == q;
    assert (10 * q + d) % 10 == d;
  }

  /** A number below 1000 has at most three digits. */
  lemma ShortDigits(r: nat)
    requires r < 1000
    ensures |NatToString(r)| <= 3
  {
    if r >= 10 {
      assert NatToString(r) == NatToString(r / 10) + [Digit(r % 10)];
      if r / 10 >= 10 {
        assert NatToString(r / 10) == NatToString(r / 10 / 10) + [Digit(r / 10 % 10)];
      }
    }
  }

  /** `r < 1000` padded to three digits, digit by digit. */
  lemma {:induction false} PadThree(r: nat)
    requires r < 1000
    ensures ZeroPad(r, 3) == [Digit(r / 100), Digit((r / 10) % 10), Digit(r % 10)]
  {
    if r < 10 {
      PadOneDigit(r);
    } else if r < 100 {
      PadTwoDigits(r);
    } else {
      PadNoZeros(r);
    }
  }

  lemma PadOneDigit(r: nat)
    requires r < 10
    ensures ZeroPad(r, 3) == ['0', '0', Digit(r)]
  {
    assert NatToString(r) == [Digit(r)];
  }

  lemma PadTwoDigits(r: nat)
    requires 10 <= r < 100
    ensures ZeroPad(r, 3) == ['0', Digit(r / 10), Digit(r % 10)]
  {
    ShiftDigit(r / 10, r % 10);
    assert NatToString(r / 10) == [Digit(r / 10)];
  }

  lemma PadNoZeros(r: nat)
    requires 100 <= r < 1000
    ensures ZeroPad(r, 3) == [Digit(r / 100), Digit((r / 10) % 10), Digit(r % 10)]
  {
    var t := r / 10;
    assert r / 100 == t / 10;
    ShiftDigit(t, r % 10);
    ShiftDigit(t / 10, t % 10);
    assert NatToString(t / 10) == [Digit(t / 10)];
  }

  /** `str(1000 * q + r)` is `str(q)` followed by `r` padded to three digits. */
  lemma {:induction false} ShiftThousand(q: nat, r: nat)
    requires 1 <= q && r < 1000
    ensures NatToString(1000 * q + r) == NatToString(q) + ZeroPad(r, 3)
  {
    var d2, d1, d0 := r / 100, (r / 10) % 10, r % 10;
    assert r / 10 == 10 * d2 + d1;
    var a := 10 * q + d2;
    var b := 10 * a + d1;
    assert 1000 * q + r == 10 * b + d0;
    calc {
      NatToString(1000 * q + r);
      { ShiftDigit(b, d0); }
      NatToString(b) + [Digit(d0)];
      { ShiftDigit(a, d1); }
      NatToString(a) + [Digit(d1)] + [Digit(d0)];
      { ShiftDigit(q, d2); }
      NatToString(q) + [Digit(d2)] + [Digit(d1)] + [Digit(d0)];
      NatToString(q) + [Digit(d2), Digit(d1), Digit(d0)];
      { PadThree(r); }
      NatToString(q) + ZeroPad(r, 3);
    }
  }

  /** Dropping `sep` from `h`, one `sep` and a text without it. */
  lemma WithoutSeparated(h: string, p: string, sep: char)
    requires forall i :: 0 <= i < |p| ==> p[i] != sep
    ensures Without(h + [sep] + p, sep) == Without(h, sep) + p
  {
    calc {
      Without(h + [sep] + p, sep);
      { WithoutAppend(h + [sep], p, sep); }
      Without(h + [sep], sep) + Without(p, sep);
      { WithoutAppend(h, [sep], sep); WithoutNoOccurrence(p, sep); }
      Without(h, sep) + Without([sep], sep) + p;
      { assert Without([sep], sep) == []; }
      Without(h, sep) + p;
    }
  }

  /** Dropping the separators from `Group(n, sep)` gives back `str(n)`. */
  lemma {:induction false} GroupDigits(n: nat, sep: char)
    requires !IsDigit(sep)
    ensures Without(Group(n, sep), sep) == NatToString(n)
    decreases n
  {
    if n < 1000 {
      WithoutNoOccurrence(NatToString(n), sep);
    } else {
      var q, r := n / 1000, n % 1000;
      assert n == 1000 * q + r && 1 <= q;
      assert Group(n, sep) == Group(q, sep) + [sep] + ZeroPad(r, 3);
      WithoutSeparated(Group(q, sep), ZeroPad(r, 3), sep);
      GroupDigits(q, sep);
      ShiftThousand(q, r);
    }
  }

  /**
   * In `Group(n, sep)` the separator stands exactly at the positions whose
   * distance from the end is a multiple of four: one before every group of
   * three digits counted from the right, and nowhere else.
   */
  lemma {:induction false} GroupSeparators(n: nat, sep: char)
    requires !IsDigit(sep)
    ensures forall i :: 0 <= i < |Group(n, sep)| ==>
      (Group(n, sep)[i] == sep <==> (|Group(n, sep)| - i) % 4 == 0)
    decreases n
  {
    var g := Group(n, sep);
    if n < 1000 {
      ShortDigits(n);
      forall i | 0 <= i < |g|
        ensures g[i] != sep && (|g| - i) % 4 != 0
      {
        assert IsDigit(g[i]);
      }
    } else {
      GroupSeparators(n / 1000, sep);
      var h, p := Group(n / 1000, sep), ZeroPad(n % 1000, 3);
      ShortDigits(n % 1000);
      assert g == h + [sep] + p;
      SeparatorsAppend(h, p, sep);
    }
  }

  /** Three more digits after one more separator keep a separator at exactly every fourth place from the right. */
  lemma SeparatorsAppend(h: string, p: string, sep: char)
    requires !IsDigit(sep) && |p| == 3 && forall i :: 0 <= i < |p| ==> IsDigit(p[i])
    requires forall i :: 0 <= i < |h| ==> (h[i] == sep <==> (|h| - i) % 4 == 0)
    ensures var g := h + [sep] + p;
      forall i :: 0 <= i < |g| ==> (g[i] == sep <==> (|g| - i) % 4 == 0)
  {
    var g := h + [sep] + p;
    forall i | 0 <= i < |g|
      ensures g[i] == sep <==> (|g| - i) % 4 == 0
    {
      if i < |h| {
        assert g[i] == h[i];
        assert |g| - i == (|h| - i) + 4;
      } else if i > |h| {
        assert g[i] == p[i - |h| - 1];
      }
    }
  }


  /** Concatenation is associative. */
  lemma AppendAssoc<T>(a: seq<T>, b: seq<T>, c: seq<T>)
    ensures a + b + c == a + (b + c)
  {
  }

  /** Position `k` of the third part of a three-way concatenation. */
  lemma IndexThird<T>(h: seq<T>, b: seq<T>, f: seq<T>, k: nat)
    requires k < |f|
    ensures |h + b + f| == |h| + |b| + |f|
    ensures (h + b + f)[|h| + |b| + k] == f[k]
  {
  }

  /** The first part and position `k` of the middle part of a three-way concatenation. */
  lemma IndexMiddle<T>(h: seq<T>, b: seq<T>, f: seq<T>, k: nat)
    requires k < |b|
    ensures |h + b + f| == |h| + |b| + |f|
    ensures (h + b + f)[..|h|] == h
    ensures (h + b + f)[|h| + k] == b[k]
  {
    assert (h + b + f)[..|h|] == h;
  }

  /** Python's `s.ljust(w)` / `f"{s:<{w}}"`. */
  function LJust(s: string, w: int): (r: string)
    ensures |r| == Max(w, |s|)
  {
    s + Spaces(w - |s|)
  }

  /** Python's `s.rjust(w)` / `f"{s:>{w}}"`. */
  function RJust(s: string, w: int): (r: string)
    ensures |r| == Max(w, |s|)
  {
    Spaces(w - |s|) + s
  }

  /** Python's `s[:n]` for `n >= 0`. */
  function Take(s: string, n: nat): (r: string)
    ensures |r| == if |s| <= n then |s| else n
    ensures r == s[..|r|]
  {
    if |s| <= n then s else s[..n]
  }

  /** Python's `s[a:b]` for `0 <= a <= b`. */
  function Slice(s: string, a: nat, b: nat): (r: string)
    requires a <= b
    ensures |r| <= b - a
  {
    if |s| <= a then [] else Take(s[a..], b - a)
  }

  /** Python's `str.upper()` restricted to ASCII letters. */
  function UpperChar(c: char): char {
    if 'a' <= c <= 'z' then (c as int - 32) as char else c
  }

  function Upper(s: string): (r: string)
    ensures |r| == |s|
    ensures forall i :: 0 <= i < |s| ==> r[i] == UpperChar(s[i])
  {
    seq(|s|, i requires 0 <= i < |s| => UpperChar(s[i]))
  }

  /** Python's `sep.join(parts)`. */
  function Join(parts: seq<string>, sep: string): string
    decreases |parts|
  {
    if |parts| == 0 then "" else if |parts| == 1 then parts[0]
    else parts[0] + sep + Join(parts[1..], sep)
  }

  /** Python's `text.center(width)`: the extra odd space goes left only when `width` is odd. */
  function Center(text: string, width: int): string {
    if |text| >= width then text
    else
      var marg := width - |text|;
      var left := marg / 2 + (if marg % 2 == 1 && width % 2 == 1 then 1 else 0);
      Spaces(left) + text + Spaces(marg - left)
  }

  /**
   * Python's `s.rstrip(c)`: the longest prefix of `s` that does not end
   * in `c`; everything cut off is `c`.
   */
  function RStrip(s: string, c: char): (r: string)
    ensures |r| <= |s| && r == s[..|r|]
    ensures r == [] || r[|r| - 1] != c
    ensures forall i :: |r| <= i < |s| ==> s[i] == c
    decreases |s|
  {
    if s != [] && s[|s| - 1] == c then RStrip(s[..|s| - 1], c) else s
  }

  /** Python's `s.startswith(p)`. */
  predicate StartsWith(s: string, p: string) {
    |p| <= |s| && s[..|p|] == p
  }

  /** `f` applied to each element of `xs`, in order. */
  function Map<A, B>(f: A -> B, xs: seq<A>): (ys: seq<B>)
    ensures |ys| == |xs| && forall k :: 0 <= k < |xs| ==> ys[k] == f(xs[k])
  {
    seq(|xs|, k requires 0 <= k < |xs| => f(xs[k]))
  }

  /** One more element appends its image. */
  lemma MapSnoc<A, B>(f: A -> B, xs: seq<A>, i: nat)
    requires i < |xs|
    ensures Map(f, xs[..i + 1]) == Map(f, xs[..i]) + [f(xs[i])]
  {
    var a, b := Map(f, xs[..i + 1]), Map(f, xs[..i]) + [f(xs[i])];
    forall k | 0 <= k < |a|
      ensures a[k] == b[k]
    {
      assert xs[..i + 1][k] == xs[k];
    }
  }

  /** The blocks `f` gives the elements of `xs`, concatenated in order (the lines a loop appends, block by block). */
  function FlatMap<A, T>(f: A -> seq<T>, xs: seq<A>): seq<T>
    decreases |xs|
  {
    if xs == [] then [] else FlatMap(f, xs[..|xs| - 1]) + f(xs[|xs| - 1])
  }

  /** One more element appends its block. */
  lemma FlatMapSnoc<A, T>(f: A -> seq<T>, xs: seq<A>, i: nat)
    requires i < |xs|
    ensures FlatMap(f, xs[..i + 1]) == FlatMap(f, xs[..i]) + f(xs[i])
  {
    assert xs[..i + 1][..i] == xs[..i];
  }

  lemma {:induction false} FlatMapUniformLength<A, T>(f: A -> seq<T>, xs: seq<A>, n: nat)
    requires forall k :: 0 <= k < |xs| ==> |f(xs[k])| == n
    ensures |FlatMap(f, xs)| == n * |xs|
    decreases |xs|
  {
    if xs != [] {
      var init := xs[..|xs| - 1];
      FlatMapUniformLength(f, init, n);
      assert |FlatMap(f, xs)| == |FlatMap(f, init)| + n;
      MulSucc(n, |init|);
    }
  }

  lemma MulSucc(n: nat, m: nat)
    ensures n * (m + 1) == n * m + n
  {
  }

  /** With blocks of `n` elements each, the block of element `k` sits at positions n·k .. n·k + n - 1. */
  lemma {:induction false} FlatMapUniformAt<A, T>(f: A -> seq<T>, xs: seq<A>, n: nat, k: nat)
    requires forall j :: 0 <= j < |xs| ==> |f(xs[j])| == n
    requires k < |xs|
    ensures |FlatMap(f, xs)| == n * |xs|
    ensures n * k + n <= n * |xs|
    ensures FlatMap(f, xs)[n * k..n * k + n] == f(xs[k])
    decreases |xs|
  {
    var init, last := xs[..|xs| - 1], f(xs[|xs| - 1]);
    var whole, front := FlatMap(f, xs), FlatMap(f, init);
    FlatMapUniformLength(f, init, n);
    assert whole == front + last;
    MulSucc(n, |init|);
    if k < |init| {
      FlatMapUniformAt(f, init, n, k);
      MulSucc(n, k);
      MulMono(n, k + 1, |init|);
      assert whole[n * k..n * k + n] == front[n * k..n * k + n];
    } else {
      assert k == |init|;
      assert whole[n * k..n * k + n] == last;
    }
  }

  lemma MulMono(n: nat, a: nat, b: nat)
    requires a <= b
    ensures n * a <= n * b
  {
  }
}
