/** The small pure helpers of main.go: retry delays, log truncation and the rate-limit pair. */
module Helpers {
  import opened Wrappers

  /** time.Second: a time.Duration counts nanoseconds. */
  const Second: int := 1_000_000_000
  const MaxBackoff: int := 30 * Second

  const TwoTo63: int := 0x8000_0000_0000_0000
  const TwoTo64: int := 0x1_0000_0000_0000_0000

  function Pow2(n: nat): (p: nat)
    ensures p >= 1
  {
    if n == 0 then 1 else 2 * Pow2(n - 1)
  }

  lemma {:induction false} Pow2Monotone(i: nat, j: nat)
    requires i <= j
    ensures Pow2(i) <= Pow2(j)
  {
    if i < j {
      Pow2Monotone(i, j - 1);
    }
  }

  lemma {:induction false} Pow2Add(i: nat, j: nat)
    ensures Pow2(i + j) == Pow2(i) * Pow2(j)
  {
    if j > 0 {
      Pow2Add(i, j - 1);
    }
  }

  /** The powers of two the delay arithmetic reaches. */
  lemma Pow2Of32()
    ensures Pow2(32) == 0x1_0000_0000
  {
    assert Pow2(4) == 16;
    Pow2Add(4, 4);
    assert Pow2(8) == 0x100;
    Pow2Add(8, 8);
    assert Pow2(16) == 0x1_0000;
    Pow2Add(16, 16);
  }

  lemma Pow2Table()
    ensures Pow2(33) == 0x2_0000_0000
    ensures Pow2(34) == 0x4_0000_0000
    ensures Pow2(62) == 0x4000_0000_0000_0000
  {
    Pow2Of32();
    assert Pow2(33) == 2 * Pow2(32);
    assert Pow2(32) == 4 * Pow2(30);
    assert Pow2(30) == 0x4000_0000;
    Pow2Add(32, 30);
  }

  /** Go's int64 arithmetic: x reduced to the two's-complement range, as a wrapping operation leaves it. */
  function Int64(x: int): (r: int)
    ensures -TwoTo63 <= r < TwoTo63
    ensures (x - r) % TwoTo64 == 0
    ensures -TwoTo63 <= x < TwoTo63 ==> r == x
  {
    var m := x % TwoTo64;
    if m >= TwoTo63 then m - TwoTo64 else m
  }

  lemma Pow2Below63(s: nat)
    ensures s < 63 ==> Pow2(s) < TwoTo63
  {
    if s < 63 {
      Pow2Table();
      Pow2Monotone(s, 62);
    }
  }

  /** time.Duration(1 << s): a left shift of 64 places or more leaves nothing of the 1. */
  function ShiftOne(s: nat): (d: int)
    ensures s < 63 ==> d == Pow2(s)
  {
    if s >= 64 then 0
    else
      Pow2Below63(s);
      Int64(Pow2(s))
  }

  /**
   * backoff: the delay before retry number `attempt` (1-based, anything below 1
   * counts as 1): one second doubled per earlier attempt, capped at 30 seconds,
   * computed in int64 nanoseconds.
   */
  function Backoff(attempt: int): (d: int)
    ensures d <= MaxBackoff
  {
    var a := if attempt < 1 then 1 else attempt;
    var d := Int64(ShiftOne(a - 1) * Second);
    if d > MaxBackoff then MaxBackoff else d
  }

  function Min(x: int, y: int): int { if x <= y then x else y }

  /** Within the range where int64 does not wrap, Backoff is the capped doubling. */
  lemma BackoffCappedDoubling(attempt: int)
    requires attempt <= 34
    ensures var a := if attempt < 1 then 1 else attempt;
            Backoff(attempt) == Min(Pow2(a - 1), 30) * Second
    ensures Second <= Backoff(attempt) <= MaxBackoff
  {
    var a := if attempt < 1 then 1 else attempt;
    Pow2Monotone(a - 1, 33);
    Pow2Table();
    assert ShiftOne(a - 1) == Pow2(a - 1);
  }

  lemma BackoffValues()
    ensures Backoff(0) == Backoff(1) == Second
    ensures Backoff(2) == 2 * Second
    ensures Backoff(3) == 4 * Second
    ensures Backoff(10) == MaxBackoff
  {
    BackoffCappedDoubling(0);
    BackoffCappedDoubling(1);
    BackoffCappedDoubling(2);
    BackoffCappedDoubling(3);
    BackoffCappedDoubling(10);
    Pow2Monotone(5, 9);
    assert Pow2(5) == 32;
  }

  /** Longer waits for later attempts, as long as int64 does not wrap. */
  lemma BackoffMonotone(a: int, b: int)
    requires a <= b <= 34
    ensures Backoff(a) <= Backoff(b)
  {
    BackoffCappedDoubling(a);
    BackoffCappedDoubling(b);
    var a' := if a < 1 then 1 else a;
    var b' := if b < 1 then 1 else b;
    Pow2Monotone(a' - 1, b' - 1);
  }

  /** Beyond 34 attempts the nanosecond product wraps, and attempt 35 yields a negative delay. */
  lemma BackoffWrapsAt35()
    ensures Backoff(35) < 0
  {
    Pow2Table();
    assert ShiftOne(34) == 0x4_0000_0000;
  }

  /** A byte of a Go string. */
  type Byte = b: int | 0 <= b < 256

  /** "…" (U+2026) in UTF-8. */
  const Ellipsis: seq<Byte> := [0xE2, 0x80, 0xA6]

  /**
   * truncate: s when it has at most n bytes, otherwise its first n bytes and an
   * ellipsis. The cut is by byte, so it may split a multi-byte rune. A negative n
   * always reaches the slice s[:n], which panics in Go.
   */
  function Truncate(s: seq<Byte>, n: int): (r: seq<Byte>)
    requires n >= 0
    ensures |r| <= n + |Ellipsis|
    ensures |s| <= n ==> r == s
    ensures |s| > n ==> |r| == n + |Ellipsis| && r[..n] == s[..n] && r[n..] == Ellipsis
  {
    if |s| <= n then s else s[..n] + Ellipsis
  }

  /** Truncating twice to the same length changes nothing more. */
  lemma TruncateIdempotent(s: seq<Byte>, n: nat)
    ensures Truncate(Truncate(s, n), n) == Truncate(s, n)
  {
    var r := Truncate(s, n);
    if |s| > n {
      assert r[..n] + Ellipsis == r;
    }
  }

  /** The X-RateLimit-Usage and X-RateLimit-Limit headers of one response. */
  datatype RateLimit = RateLimit(usage: string, limit: string)

  const NoRateLimit := RateLimit("", "")

  /** rateLimitUsage.String. */
  function RateLimitString(r: RateLimit): (t: string)
    ensures t == [] <==> r == NoRateLimit
  {
    if r.usage == "" && r.limit == "" then "" else "usage=" + r.usage + " limit=" + r.limit
  }

  /** Index of the first space in s, or |s| when there is none. */
  function IndexOfSpace(s: string): (k: nat)
    ensures k <= |s|
    ensures forall j :: 0 <= j < k ==> s[j] != ' '
    ensures k < |s| ==> s[k] == ' '
  {
    if s == [] || s[0] == ' ' then 0 else 1 + IndexOfSpace(s[1..])
  }

  /** Reads back what RateLimitString writes. */
  function ParseRateLimit(t: string): Option<RateLimit> {
    if t == "" then Some(NoRateLimit)
    else if |t| < 6 || t[..6] != "usage=" then None
    else
      var rest := t[6..];
      var k := IndexOfSpace(rest);
      if |rest| - k < 7 || rest[k..k + 7] != " limit=" then None
      else Some(RateLimit(rest[..k], rest[k + 7..]))
  }

  /** The rendering is lossless as long as the usage header holds no space (the API sends "15,300"). */
  lemma RateLimitRoundTrip(r: RateLimit)
    requires forall i :: 0 <= i < |r.usage| ==> r.usage[i] != ' '
    ensures ParseRateLimit(RateLimitString(r)) == Some(r)
  {
    var t := RateLimitString(r);
    if t != "" {
      var rest := r.usage + " limit=" + r.limit;
      assert t == "usage=" + rest;
      assert t[6..] == rest;
      assert rest[|r.usage|] == ' ';
      var k := IndexOfSpace(rest);
      assert k == |r.usage|;
      assert rest[k..k + 7] == " limit=";
      assert rest[..k] == r.usage;
      assert rest[k + 7..] == r.limit;
    }
  }
}
