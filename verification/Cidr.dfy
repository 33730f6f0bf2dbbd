/** CIDR membership by bit mask (section 3.1 of RFC 4632). */
module Cidr {
  datatype Ip = V4(bits: nat) | V6(bits: nat)

  type Positive = n: int | 0 < n witness 1

  function Pow2(n: nat): Positive {
    if n == 0 then 1 else 2 * Pow2(n - 1)
  }

  /** Bitwise and of two unsigned words, bit by bit. */
  function BitAnd(a: nat, b: nat): nat {
    if a == 0 || b == 0 then 0
    else 2 * BitAnd(a / 2, b / 2) + (if a % 2 == 1 && b % 2 == 1 then 1 else 0)
  }

  /** `x << n` in a word of `width` bits: what is shifted out is lost. */
  function ShiftLeft(x: nat, n: nat, width: nat): nat {
    x * Pow2(n) % Pow2(width)
  }

  /** `!0` in a word of `width` bits. */
  function AllOnes(width: nat): nat {
    Pow2(width) - 1
  }

  function Width(ip: Ip): nat {
    if ip.V4? then 32 else 128
  }

  predicate IsAddress(ip: Ip) {
    ip.bits < Pow2(Width(ip))
  }

  function Mask(prefixLen: nat, width: nat): nat
    requires prefixLen <= width
  {
    if prefixLen == 0 then 0 else ShiftLeft(AllOnes(width), width - prefixLen, width)
  }

  /** The membership test on a parsed block; a family mismatch or an overlong prefix is a refusal. */
  predicate Contains(net: Ip, prefixLen: nat, addr: Ip) {
    match (net, addr)
    case (V4(n), V4(a)) => prefixLen <= 32 && BitAnd(n, Mask(prefixLen, 32)) == BitAnd(a, Mask(prefixLen, 32))
    case (V6(n), V6(a)) => prefixLen <= 128 && BitAnd(n, Mask(prefixLen, 128)) == BitAnd(a, Mask(prefixLen, 128))
    case _ => false
  }

  // --------------------------------------------------------- arithmetic

  lemma {:induction false} Pow2Sum(m: nat, n: nat)
    ensures Pow2(m + n) == Pow2(m) * Pow2(n)
  {
    if m > 0 {
      Pow2Sum(m - 1, n);
      assert Pow2(m + n) == 2 * Pow2(m - 1 + n);
    }
  }

  lemma MulMonotonic(x: int, y: int, d: Positive)
    ensures x <= y ==> x * d <= y * d
  {
  }

  /** Quotient and remainder are unique. */
  lemma DivisionIs(a: nat, d: Positive, q: nat, r: nat)
    requires a == q * d + r && r < d
    ensures a / d == q && a % d == r
  {
    MulMonotonic(a / d + 1, q, d);
    MulMonotonic(q + 1, a / d, d);
    assert a == a / d * d + a % d;
    assert (a / d + 1) * d == a / d * d + d && (q + 1) * d == q * d + d;
  }

  lemma Twice(q: nat, d: nat)
    ensures 2 * (q * d) == q * (2 * d)
  {
  }

  lemma HalfOfQuotient(a: nat, d: Positive)
    ensures a / 2 / d == a / (2 * d)
  {
    var q := a / 2 / d;
    var r := a / 2 % d;
    assert a / 2 == q * d + r;
    Twice(q, d);
    DivisionIs(a, 2 * d, q, 2 * r + a % 2);
  }

  /** Anding with ones in the low `p` bits keeps a value of `p` bits. */
  lemma {:induction false} AndLowOnes(a: nat, p: nat)
    requires a < Pow2(p)
    ensures BitAnd(a, Pow2(p) - 1) == a
  {
    if p > 0 && a > 0 {
      AndLowOnes(a / 2, p - 1);
      assert (Pow2(p) - 1) / 2 == Pow2(p - 1) - 1;
    }
  }

  lemma AndEven(a: nat, b: nat)
    ensures BitAnd(a, 2 * b) == 2 * BitAnd(a / 2, b)
  {
    if a > 0 && b > 0 { assert 2 * b / 2 == b && 2 * b % 2 == 0; }
  }

  /** Multiplying both by the same power of two: `x` is `q` shifted by the bits of `d`. */
  ghost predicate Shifted(x: nat, q: nat, d: Positive) {
    x == q * d
  }

  ghost predicate IsQuotient(q: nat, a: nat, d: Positive) {
    q == a / d
  }

  /** Anding with a shifted mask `b = m << s` clears the low bits and ands the rest. */
  lemma {:induction false} AndShifted(a: nat, q: nat, b: nat, m: nat, s: nat, d: Positive)
    requires d == Pow2(s) && Shifted(b, m, d) && IsQuotient(q, a, d)
    ensures Shifted(BitAnd(a, b), BitAnd(q, m), d)
    decreases s
  {
    if s == 0 {
      assert b == m && a / 1 == a;
    } else {
      var h := Pow2(s - 1);
      AndShiftedStep(a, q, b, m, d, h);
      AndShifted(a / 2, q, b / 2, m, s - 1, h);
      AndDouble(a, b, BitAnd(q, m), d, h);
    }
  }

  lemma AndShiftedStep(a: nat, q: nat, b: nat, m: nat, d: Positive, h: Positive)
    requires d == 2 * h && Shifted(b, m, d) && IsQuotient(q, a, d)
    ensures b % 2 == 0 && Shifted(b / 2, m, h) && IsQuotient(q, a / 2, h)
  {
    HalfOfQuotient(a, h);
    Twice(m, h);
  }

  lemma AndDouble(a: nat, b: nat, high: nat, d: Positive, h: Positive)
    requires d == 2 * h && b % 2 == 0 && Shifted(BitAnd(a / 2, b / 2), high, h)
    ensures Shifted(BitAnd(a, b), high, d)
  {
    AndEven(a, b / 2);
    Twice(high, h);
  }

  /** What is left of `ones * s` in a word of `p * s`: the top `p` part, less one unit of `s`. */
  lemma ShiftedOnes(p: Positive, s: Positive)
    ensures (p * s - 1) * s % (p * s) == (p - 1) * s
  {
    var w := p * s;
    assert (p - 1) * s == w - s;
    assert (w - 1) * s == w * s - s;
    assert (s - 1) * w == s * w - w;
    DivisionIs((w - 1) * s, w, s - 1, w - s);
  }

  /** The shifted word of ones is `p` ones above `width - p` zeros. */
  lemma MaskIs(p: nat, width: nat)
    requires p <= width
    ensures Mask(p, width) == (Pow2(p) - 1) * Pow2(width - p)
  {
    if p > 0 {
      Pow2Sum(p, width - p);
      ShiftedOnes(Pow2(p), Pow2(width - p));
    }
  }

  lemma QuotientBelow(a: nat, p: Positive, s: Positive)
    requires a < p * s
    ensures 0 <= a / s < p
  {
    MulMonotonic(p, a / s, s);
    assert a == a / s * s + a % s;
  }

  /** Masking a word drops its low bits: it is the quotient by the block size, put back in place. */
  lemma Masked(a: nat, q: nat, mask: nat, ones: nat, p: nat, s: nat, d: Positive)
    requires d == Pow2(s) && ones == Pow2(p) - 1 && Shifted(mask, ones, d) && IsQuotient(q, a, d) && q <= ones
    ensures Shifted(BitAnd(a, mask), q, d)
  {
    AndLowOnes(q, p);
    AndShifted(a, q, mask, ones, s, d);
  }

  lemma SameMultiple(x: nat, y: nat, d: Positive)
    ensures x * d == y * d <==> x == y
  {
    MulMonotonic(x + 1, y, d);
    MulMonotonic(y + 1, x, d);
    assert (x + 1) * d == x * d + d && (y + 1) * d == y * d + d;
  }

  lemma MaskedEqual(n: nat, a: nat, x: nat, y: nat, mask: nat, ones: nat, p: nat, s: nat, d: Positive)
    requires d == Pow2(s) && ones == Pow2(p) - 1 && Shifted(mask, ones, d)
    requires IsQuotient(x, n, d) && x <= ones && IsQuotient(y, a, d) && y <= ones
    ensures BitAnd(n, mask) == BitAnd(a, mask) <==> x == y
  {
    Masked(n, x, mask, ones, p, s, d);
    Masked(a, y, mask, ones, p, s, d);
    SameMultiple(x, y, d);
  }

  lemma MaskedWords(n: nat, a: nat, p: nat, s: nat, top: Positive, d: Positive, mask: nat)
    requires top == Pow2(p) && d == Pow2(s) && Shifted(mask, top - 1, d) && n < top * d && a < top * d
    ensures BitAnd(n, mask) == BitAnd(a, mask) <==> n / d == a / d
  {
    var x, y := n / d, a / d;
    assert 0 <= x < top by { QuotientBelow(n, top, d); }
    assert 0 <= y < top by { QuotientBelow(a, top, d); }
    MaskedEqual(n, a, x, y, mask, top - 1, p, s, d);
  }

  // ------------------------------------------------------------ theorems

  /** The masked test holds exactly when both addresses are of one family, the prefix is legal, and they have the same
      quotient by the block size. */
  lemma MaskTestIsArithmetic(net: Ip, p: nat, addr: Ip)
    requires IsAddress(net) && IsAddress(addr)
    ensures Contains(net, p, addr)
       <==> net.V4? == addr.V4? && p <= Width(net)
            && net.bits / Pow2(Width(net) - p) == addr.bits / Pow2(Width(net) - p)
  {
    if net.V4? == addr.V4? && p <= Width(net) {
      var w := Width(net);
      MaskIs(p, w);
      Pow2Sum(p, w - p);
      MaskedWords(net.bits, addr.bits, p, w - p, Pow2(p), Pow2(w - p), Mask(p, w));
    }
  }

  lemma QuotientOfQuotient(a: nat, s: Positive, t: Positive)
    ensures a / s / t == a / (s * t)
  {
    var q1, r1 := a / s, a % s;
    var q2, r2 := q1 / t, q1 % t;
    Recombine(a, s, t, q1, r1, q2, r2);
    DivisionIs(a, s * t, q2, r2 * s + r1);
  }

  lemma Recombine(a: nat, s: Positive, t: Positive, q1: nat, r1: nat, q2: nat, r2: nat)
    requires a == q1 * s + r1 && r1 < s && q1 == q2 * t + r2 && r2 < t
    ensures a == q2 * (s * t) + (r2 * s + r1) && r2 * s + r1 < s * t
  {
    Regroup(q2, t, r2, s);
    MulMonotonic(r2 + 1, t, s);
    assert (r2 + 1) * s == r2 * s + s;
  }

  lemma Regroup(q: nat, d: nat, r: nat, s: nat)
    ensures (q * d + r) * s == q * (s * d) + r * s
  {
    var qd := q * d;
    assert (qd + r) * s == qd * s + r * s;
    assert qd * s == q * (d * s);
  }

  /** Numbers that agree above `w - q` bits agree above `w - p`. */
  lemma CoarserAgrees(m: nat, n: nat, w: nat, p: nat, q: nat)
    requires p <= q <= w && m / Pow2(w - q) == n / Pow2(w - q)
    ensures m / Pow2(w - p) == n / Pow2(w - p)
  {
    QuotientOfQuotient(m, Pow2(w - q), Pow2(q - p));
    QuotientOfQuotient(n, Pow2(w - q), Pow2(q - p));
    Pow2Sum(w - q, q - p);
    assert w - q + (q - p) == w - p;
  }

  /** Two blocks that share an address are nested: the one with the longer prefix lies inside the other. */
  lemma BlocksNestedOrDisjoint(a: Ip, p: nat, b: Ip, q: nat, shared: Ip, x: Ip)
    requires IsAddress(a) && IsAddress(b) && IsAddress(shared) && IsAddress(x)
    requires p <= q
    requires Contains(a, p, shared) && Contains(b, q, shared)
    ensures Contains(b, q, x) ==> Contains(a, p, x)
  {
    MaskTestIsArithmetic(a, p, shared);
    MaskTestIsArithmetic(b, q, shared);
    MaskTestIsArithmetic(b, q, x);
    MaskTestIsArithmetic(a, p, x);
    if Contains(b, q, x) {
      CoarserAgrees(shared.bits, x.bits, Width(a), p, q);
    }
  }

  /** A `/0` block holds its whole family, a full-length block only its own address. */
  lemma ExtremePrefixes(net: Ip, addr: Ip)
    requires IsAddress(net) && IsAddress(addr) && net.V4? == addr.V4?
    ensures Contains(net, 0, addr)
    ensures Contains(net, Width(net), addr) <==> net == addr
  {
    var w := Width(net);
    MaskTestIsArithmetic(net, 0, addr);
    MaskTestIsArithmetic(net, w, addr);
    DivisionIs(net.bits, Pow2(w), 0, net.bits);
    DivisionIs(addr.bits, Pow2(w), 0, addr.bits);
    assert Pow2(0) == 1;
  }
}
