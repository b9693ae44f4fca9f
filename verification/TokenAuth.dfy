// The accumulating token comparison of the development transport.
module TokenAuth {
  import opened Bytes

  type Token = Octets

  // ---- bit operations on unsigned numbers ---------------------------------------------------

  function Xor(x: nat, y: nat): nat {
    if x == 0 && y == 0 then 0 else 2 * Xor(x / 2, y / 2) + (if x % 2 == y % 2 then 0 else 1)
  }

  function Or(x: nat, y: nat): nat {
    if x == 0 && y == 0 then 0 else 2 * Or(x / 2, y / 2) + (if x % 2 == 0 && y % 2 == 0 then 0 else 1)
  }

  lemma {:induction false} XorIsZero(x: nat, y: nat)
    ensures Xor(x, y) == 0 <==> x == y
  {
    if x != 0 || y != 0 {
      XorIsZero(x / 2, y / 2);
    }
  }

  lemma {:induction false} OrIsZero(x: nat, y: nat)
    ensures Or(x, y) == 0 <==> x == 0 && y == 0
  {
    if x != 0 || y != 0 {
      OrIsZero(x / 2, y / 2);
    }
  }

  // The lowest bits of a number, and the rest of it.
  function Low(n: nat, bits: nat): nat {
    if bits == 0 then 0 else n % 2 + 2 * Low(n / 2, bits - 1)
  }

  function High(n: nat, bits: nat): nat {
    if bits == 0 then n else High(n / 2, bits - 1)
  }

  function Pow2(bits: nat): nat {
    if bits == 0 then 1 else 2 * Pow2(bits - 1)
  }

  lemma {:induction false} SplitAt(n: nat, bits: nat)
    ensures n == Pow2(bits) * High(n, bits) + Low(n, bits) && Low(n, bits) < Pow2(bits)
  {
    if bits > 0 {
      SplitAt(n / 2, bits - 1);
      Doubled(n, Pow2(bits - 1), High(n / 2, bits - 1), Low(n / 2, bits - 1));
    }
  }

  lemma Doubled(n: nat, p: nat, h: nat, low: nat)
    requires n / 2 == p * h + low && low < p
    ensures n == 2 * p * h + (n % 2 + 2 * low) && n % 2 + 2 * low < 2 * p
  {
    assert 2 * (p * h) == 2 * p * h;
  }

  lemma LowByteIsRemainder(n: nat)
    ensures Low(n, 8) == n % 256
  {
    SplitAt(n, 8);
    assert Pow2(8) == 2 * Pow2(7) && Pow2(7) == 2 * Pow2(6) && Pow2(6) == 2 * Pow2(5) && Pow2(5) == 2 * Pow2(4);
    assert Pow2(4) == 2 * Pow2(3) && Pow2(3) == 2 * Pow2(2) && Pow2(2) == 2 * Pow2(1) && Pow2(1) == 2 * Pow2(0);
    RemainderIsUnique(n, High(n, 8), Low(n, 8));
  }

  // The low bits of an exclusive or vanish exactly when the low bits agree.
  lemma {:induction false} XorLowBits(x: nat, y: nat, bits: nat)
    ensures Low(Xor(x, y), bits) == 0 <==> Low(x, bits) == Low(y, bits)
    decreases bits
  {
    if bits > 0 {
      var z := Xor(x, y);
      assert z / 2 == Xor(x / 2, y / 2) && (z % 2 == 0 <==> x % 2 == y % 2);
      XorLowBits(x / 2, y / 2, bits - 1);
    }
  }

  // ---- the comparison -------------------------------------------------------------------------

  // Past its end a token reads as NUL bytes.
  function ByteAt(t: Token, i: nat): nat {
    if i < |t| then t[i] as nat else 0
  }

  ghost predicate Agree(a: Token, b: Token) {
    && |a| % 256 == |b| % 256
    && forall i :: 0 <= i < |a| || 0 <= i < |b| ==> ByteAt(a, i) == ByteAt(b, i)
  }

  method TokensMatch(a: Token, b: Token) returns (r: bool)
    ensures r <==> Agree(a, b)
  {
    var diff: nat := Xor(|a|, |b|) % 256;  // the lengths' difference, cut to a byte
    XorLowBits(|a|, |b|, 8);
    LowByteIsRemainder(Xor(|a|, |b|));
    LowByteIsRemainder(|a|);
    LowByteIsRemainder(|b|);
    var n := if |a| >= |b| then |a| else |b|;
    for i := 0 to n
      invariant diff == 0 <==> |a| % 256 == |b| % 256 && forall j :: 0 <= j < i ==> ByteAt(a, j) == ByteAt(b, j)
    {
      XorIsZero(ByteAt(a, i), ByteAt(b, i));
      OrIsZero(diff, Xor(ByteAt(a, i), ByteAt(b, i)));
      diff := Or(diff, Xor(ByteAt(a, i), ByteAt(b, i)));
    }
    r := diff == 0;
  }

  // Two different tokens are taken for one exactly when the longer is the shorter
  // followed by a multiple of 256 NUL bytes.
  lemma AgreeIff(a: Token, b: Token)
    requires |a| <= |b|
    ensures Agree(a, b) <==> b[..|a|] == a && (|b| - |a|) % 256 == 0 && forall i :: |a| <= i < |b| ==> b[i] == 0
  {
    SameRemainder(|a|, |b|);
    if Agree(a, b) {
      forall i | 0 <= i < |b|
        ensures b[i] as nat == ByteAt(a, i)
      {
        assert ByteAt(a, i) == ByteAt(b, i);
      }
    }
    if b[..|a|] == a && forall i :: |a| <= i < |b| ==> b[i] == 0 {
      forall i | 0 <= i < |b|
        ensures ByteAt(a, i) == ByteAt(b, i)
      {
        if i < |a| {
          assert b[..|a|][i] == b[i];
        }
      }
    }
  }

  lemma SameRemainder(m: nat, n: nat)
    requires m <= n
    ensures m % 256 == n % 256 <==> (n - m) % 256 == 0
  {
    var d, r := n / 256 - m / 256, n % 256 - m % 256;
    assert n - m == 256 * d + r && -256 < r < 256;
    if r >= 0 {
      RemainderIsUnique(n - m, d, r);
    } else {
      RemainderIsUnique(n - m, d - 1, r + 256);
    }
  }

  lemma RemainderIsUnique(x: int, q: int, r: int)
    requires x == 256 * q + r && 0 <= r < 256
    ensures x % 256 == r
  {}

  // Without NUL bytes the comparison is equality.
  lemma AgreeIsEquality(a: Token, b: Token)
    requires 0 !in a && 0 !in b
    ensures Agree(a, b) <==> a == b
  {
    if |a| <= |b| {
      AgreeIff(a, b);
      assert |a| < |b| ==> b[|a|] in b;
    } else {
      AgreeIff(b, a);
      assert a[|b|] in a;
      AgreeIsSymmetric(a, b);
    }
  }

  lemma AgreeIsSymmetric(a: Token, b: Token)
    ensures Agree(a, b) <==> Agree(b, a)
  {}
}
