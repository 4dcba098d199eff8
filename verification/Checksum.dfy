/** 16-bit ones' complement arithmetic of the Internet checksum (RFC 1071, RFC 1624).

    Checksums are specified modulo 65535.  Zero has two representations there, 0 and
    65535, so every definition below says which one it yields.  The methods at the end
    are the folding loops of the program; they are proved equal to the modular forms.
 */
module Checksum {

  type Byte = b: int | 0 <= b < 0x100

  type Word = w: int | 0 <= w < 0x1_0000

  const UINT32: int := 0x1_0000_0000

  function U16(s: seq<Byte>, i: nat): (w: Word)
    requires i + 2 <= |s|
  {
    s[i] as int * 0x100 + s[i + 1] as int
  }

  function Put16(s: seq<Byte>, i: nat, w: Word): (r: seq<Byte>)
    requires i + 2 <= |s|
    ensures |r| == |s|
    ensures U16(r, i) == w
    ensures forall k | 0 <= k < |s| && k != i && k != i + 1 :: r[k] == s[k]
  {
    s[i := w / 0x100][i + 1 := w % 0x100]
  }

  /** The sum of the big-endian 16-bit words of s, an odd last byte padded with zero. */
  function WordSum(s: seq<Byte>): nat {
    if |s| == 0 then 0
    else if |s| == 1 then s[0] as int * 0x100
    else U16(s, 0) + WordSum(s[2..])
  }

  /** The complement of the ones' complement sum n. */
  function Complement(n: nat): Word {
    if n == 0 then 0xFFFF else (-(n as int)) % 0xFFFF
  }

  /** A receiver accepts a message whose words, checksum included, add up to minus zero:
      a nonzero multiple of 65535. */
  predicate Verifies(total: nat) {
    total != 0 && total % 0xFFFF == 0
  }

  /** The checksum of a message in which one word changed from `before` to `after`. */
  function Updated(checksum: Word, before: Word, after: Word): Word {
    if checksum == 0xFFFF && before == 0xFFFF && after == 0 then 0xFFFF
    else (checksum + before - after) % 0xFFFF
  }

  // ---- Word sums under in-place updates

  lemma {:induction false} WordSumPut(s: seq<Byte>, i: nat, w: Word)
    requires i % 2 == 0 && i + 2 <= |s|
    ensures WordSum(Put16(s, i, w)) == WordSum(s) - U16(s, i) + w
    decreases i
  {
    var r := Put16(s, i, w);
    if i == 0 {
      assert r[2..] == s[2..];
    } else {
      assert r[2..] == Put16(s[2..], i - 2, w);
      WordSumPut(s[2..], i - 2, w);
    }
  }

  lemma {:induction false} WordSumAtLeast(s: seq<Byte>, i: nat)
    requires i % 2 == 0 && i + 2 <= |s|
    ensures U16(s, i) <= WordSum(s)
    decreases i
  {
    if i != 0 {
      WordSumAtLeast(s[2..], i - 2);
    }
  }

  lemma {:induction false} WordSumConcat(a: seq<Byte>, b: seq<Byte>)
    requires |a| % 2 == 0
    ensures WordSum(a + b) == WordSum(a) + WordSum(b)
    decreases |a|
  {
    if a == [] {
      assert a + b == b;
    } else {
      assert (a + b)[2..] == a[2..] + b;
      WordSumConcat(a[2..], b);
    }
  }

  lemma {:induction false} WordSumBound(s: seq<Byte>)
    ensures WordSum(s) <= 0xFFFF * ((|s| + 1) / 2)
    decreases |s|
  {
    if |s| >= 2 {
      WordSumBound(s[2..]);
    }
  }

  // ---- Congruence modulo 65535

  ghost predicate Congruent(a: int, b: int) {
    a % 0xFFFF == b % 0xFFFF
  }

  lemma CongruentShift(a: int, b: int, k: int)
    requires Congruent(a, b)
    ensures Congruent(a + k, b + k)
  {
  }

  lemma CongruentTrans(a: int, b: int, c: int)
    requires Congruent(a, b) && Congruent(b, c)
    ensures Congruent(a, c)
  {
  }

  /** Two exchanges of words against the same running checksum compose. */
  lemma CongruentChain(c: int, b0: int, a0: int, c1: int, b1: int, a1: int, c2: int)
    requires Congruent(c1 + a0, c + b0) && Congruent(c2 + a1, c1 + b1)
    ensures Congruent(c2 + (a0 + a1), c + (b0 + b1))
  {
    CongruentShift(c1 + a0, c + b0, b1);
    CongruentShift(c2 + a1, c1 + b1, a0);
    assert c2 + a1 + a0 == c2 + (a0 + a1) && c1 + b1 + a0 == c1 + a0 + b1;
  }

  /** RFC 1624: replacing a word and its checksum together leaves the sum unchanged. */
  lemma UpdatedBalances(checksum: Word, before: Word, after: Word)
    ensures Congruent(Updated(checksum, before, after) + after, checksum + before)
    ensures checksum != 0xFFFF ==> Updated(checksum, before, after) != 0xFFFF
  {
  }

  lemma ComplementBalances(n: nat)
    ensures Congruent(n + Complement(n), 0)
    ensures n != 0 ==> Complement(n) != 0xFFFF
    ensures n + Complement(n) != 0
  {
  }

  /** A value below 65535 that balances a nonzero sum is the recomputed checksum. */
  lemma ComplementUnique(n: nat, c: Word)
    requires n != 0 && c != 0xFFFF && Congruent(n + c, 0)
    ensures c == Complement(n)
  {
  }

  // ---- The program's loops

  lemma FoldStep(sum: nat)
    requires sum >= 0x1_0000
    ensures Congruent(sum % 0x1_0000 + sum / 0x1_0000, sum)
    ensures 0 < sum % 0x1_0000 + sum / 0x1_0000 < sum
  {
    var q, r := sum / 0x1_0000, sum % 0x1_0000;
    assert sum == q * 0xFFFF + (q + r);
  }

  /** The end-around-carry loop followed by the bitwise complement. */
  method FoldComplement(start: nat) returns (r: Word)
    ensures r == Complement(start)
  {
    var sum := start;
    while sum / 0x1_0000 != 0
      invariant Congruent(sum, start) && (sum == 0 <==> start == 0) && 0 <= sum
      decreases sum
    {
      FoldStep(sum);
      sum := sum % 0x1_0000 + sum / 0x1_0000;
    }
    r := 0xFFFF - sum;
  }

  /** The uint32 accumulator: adding after wrapping is wrapping after adding. */
  lemma WrapAdd(total: nat, w: nat)
    ensures (total % UINT32 + w) % UINT32 == (total + w) % UINT32
  {
    var q := total / UINT32;
    assert total + w == q * UINT32 + (total % UINT32 + w);
  }

  /** checksum16: the accumulator is a uint32, so the sum is taken modulo 2^32. */
  method Checksum16(b: seq<Byte>) returns (r: Word)
    ensures r == Complement(WordSum(b) % UINT32)
  {
    var sum: nat := 0;
    ghost var total: nat := 0;
    var i := 0;
    while i + 1 < |b|
      invariant 0 <= i <= |b| && i % 2 == 0
      invariant sum == total % UINT32 && total + WordSum(b[i..]) == WordSum(b)
    {
      assert b[i..][2..] == b[i + 2..];
      WrapAdd(total, U16(b, i));
      sum := (sum + U16(b, i)) % UINT32;
      total := total + U16(b, i);
      i := i + 2;
    }
    if |b| % 2 == 1 {
      assert b[i..] == [b[|b| - 1]];
      WrapAdd(total, b[|b| - 1] as int * 0x100);
      sum := (sum + b[|b| - 1] as int * 0x100) % UINT32;
    } else {
      assert b[i..] == [];
    }
    r := FoldComplement(sum);
  }

  method UpdateChecksum(checksum: Word, before: Word, after: Word) returns (r: Word)
    ensures r == Updated(checksum, before, after)
  {
    r := FoldComplement((0xFFFF - checksum) + (0xFFFF - before) + after);
  }
}
