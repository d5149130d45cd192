/** The hashcash challenge: leading zero bits of a hash, and the search for a nonce. */
module Hashcash {
  import opened Ids
  import opened Wrappers

  // ---------- Numbers ----------

  function Pow2(n: nat): (p: nat)
    ensures p > 0
  {
    if n == 0 then 1 else 2 * Pow2(n - 1)
  }

  lemma Regroup(x: nat, y: nat)
    ensures 2 * (x * y) == (2 * x) * y
  {
  }

  lemma {:induction false} Pow2Sum(a: nat, b: nat)
    ensures Pow2(a + b) == Pow2(a) * Pow2(b)
    decreases a
  {
    if a > 0 {
      Pow2Sum(a - 1, b);
      assert a + b - 1 == a - 1 + b;
      Regroup(Pow2(a - 1), Pow2(b));
    }
  }

  lemma {:induction false} Pow2Monotone(a: nat, b: nat)
    requires a <= b
    ensures Pow2(a) <= Pow2(b)
  {
    if a < b { Pow2Monotone(a, b - 1); }
  }

  function Clamp(n: int, lo: int, hi: int): (c: int)
    requires lo <= hi
    ensures lo <= c <= hi
  {
    if n < lo then lo else if n > hi then hi else n
  }

  /** The program's division and remainder, which round towards zero. */
  function Quotient(n: int, d: nat): int
    requires d > 0
  {
    if n >= 0 then n / d else -(-n / d)
  }

  function Remainder(n: int, d: nat): int
    requires d > 0
  {
    n - d * Quotient(n, d)
  }

  /** The hash as a big-endian number. */
  function Value(hash: seq<bv8>): (v: nat)
    ensures v < Pow2(8 * |hash|)
  {
    if hash == [] then 0
    else
      var rest := Value(hash[1..]);
      BytePower(|hash|);
      Bound(hash[0] as nat, rest, Pow2(8 * (|hash| - 1)));
      (hash[0] as nat) * Pow2(8 * (|hash| - 1)) + rest
  }

  lemma BytePower(length: nat)
    requires length > 0
    ensures Pow2(8 * length) == 256 * Pow2(8 * (length - 1))
  {
    Pow2Sum(8, 8 * (length - 1));
    assert Pow2(8) == 256;
  }

  lemma Bound(high: nat, low: nat, unit: nat)
    requires high < 256 && low < unit
    ensures high * unit + low < 256 * unit
  {
    assert high * unit <= 255 * unit;
  }

  /** The number starts with `n` zero bits, all of its bits if it has fewer. */
  ghost predicate LeadingZeros(hash: seq<bv8>, n: int) {
    Value(hash) < Pow2(8 * |hash| - Clamp(n, 0, 8 * |hash|))
  }

  // ---------- One byte at a time ----------

  lemma ZeroByte(hash: seq<bv8>, n: nat)
    requires 8 <= n && hash != []
    ensures LeadingZeros(hash, n) <==> hash[0] == 0 && LeadingZeros(hash[1..], n - 8)
  {
    hide Pow2;
    var m := Clamp(n, 0, 8 * |hash|);
    Pow2Monotone(8 * |hash| - m, 8 * (|hash| - 1));
    assert 8 * |hash| - m == 8 * (|hash| - 1) - Clamp(n - 8, 0, 8 * (|hash| - 1));
    HighByte(hash[0] as nat, Value(hash[1..]), Pow2(8 * (|hash| - 1)));
  }

  lemma HighByte(high: nat, low: nat, unit: nat)
    requires low < unit
    ensures high * unit + low < unit <==> high == 0
  {
    if high > 0 { assert high * unit >= unit; }
  }

  lemma PartByte(hash: seq<bv8>, n: nat)
    requires 0 < n < 8 && hash != []
    ensures LeadingZeros(hash, n) <==> hash[0] as nat < Pow2(8 - n)
  {
    var unit := Pow2(8 * (|hash| - 1));
    Pow2Sum(8 - n, 8 * (|hash| - 1));
    assert 8 - n + 8 * (|hash| - 1) == 8 * |hash| - n;
    Compare(hash[0] as nat, Value(hash[1..]), unit, Pow2(8 - n));
  }

  lemma Compare(high: nat, low: nat, unit: nat, limit: nat)
    requires low < unit
    ensures high * unit + low < limit * unit <==> high < limit
  {
    if high < limit {
      assert (high + 1) * unit <= limit * unit;
    } else {
      assert high * unit >= limit * unit;
    }
  }

  /** Masking off the high `n` bits of a byte gives zero exactly below `2^(8-n)`. */
  lemma Masked(b: bv8, n: nat)
    requires 0 < n < 8
    ensures (b & (0xFF << (8 - n))) == 0 <==> b as nat < Pow2(8 - n)
  {
    assert Pow2(1) == 2 && Pow2(2) == 4 && Pow2(3) == 8 && Pow2(4) == 16;
    assert Pow2(5) == 32 && Pow2(6) == 64 && Pow2(7) == 128;
    if n == 1 { assert (b & 0x80) == 0 <==> b < 0x80; }
    else if n == 2 { assert (b & 0xC0) == 0 <==> b < 0x40; }
    else if n == 3 { assert (b & 0xE0) == 0 <==> b < 0x20; }
    else if n == 4 { assert (b & 0xF0) == 0 <==> b < 0x10; }
    else if n == 5 { assert (b & 0xF8) == 0 <==> b < 0x08; }
    else if n == 6 { assert (b & 0xFC) == 0 <==> b < 0x04; }
    else { assert (b & 0xFE) == 0 <==> b < 0x02; }
  }

  lemma NothingLeft(hash: seq<bv8>, n: int)
    requires hash == [] || n <= 0
    ensures LeadingZeros(hash, n)
  {
  }

  lemma RoundsTowardsZero(n: int)
    ensures n == 8 * Quotient(n, 8) + Remainder(n, 8)
    ensures if n >= 0 then Quotient(n, 8) >= 0 && 0 <= Remainder(n, 8) < 8
            else Quotient(n, 8) <= 0 && -8 < Remainder(n, 8) <= 0
  {
  }

  method HasLeadingZeroBits(hash: seq<bv8>, n: int) returns (ok: bool)
    ensures ok <==> LeadingZeros(hash, n)
  {
    hide LeadingZeros, Pow2, Value, Quotient, Remainder;
    RoundsTowardsZero(n);
    var fullBytes := Quotient(n, 8);
    var remainingBits := Remainder(n, 8);
    var i := 0;
    while i < fullBytes && i < |hash|
      invariant 0 <= i <= |hash| && (i <= fullBytes || i == 0)
      invariant LeadingZeros(hash, n) <==> LeadingZeros(hash[i..], n - 8 * i)
    {
      ZeroByte(hash[i..], n - 8 * i);
      assert hash[i..][1..] == hash[i + 1..];
      if hash[i] != 0 {
        return false;
      }
      i := i + 1;
    }
    if remainingBits > 0 && fullBytes < |hash| {
      PartByte(hash[i..], remainingBits);
      Masked(hash[fullBytes], remainingBits);
      var mask: bv8 := 0xFF << (8 - remainingBits);
      return hash[fullBytes] & mask == 0;
    }
    NothingLeft(hash[i..], n - 8 * i);
    return true;
  }

  /** Asking for more zero bits is never easier, and asking for none is always met. */
  lemma Antitone(hash: seq<bv8>, n: int, m: int)
    requires n <= m && LeadingZeros(hash, m)
    ensures LeadingZeros(hash, n)
  {
    var size := 8 * |hash|;
    Pow2Monotone(size - Clamp(m, 0, size), size - Clamp(n, 0, size));
  }

  // ---------- Bit by bit ----------

  /** Bit `k` of a byte, the most significant first. */
  predicate BitSet(b: bv8, k: nat)
    requires k < 8
  {
    b & (0x80 >> k) != 0
  }

  ghost predicate ZeroBits(hash: seq<bv8>, n: int) {
    forall i: nat :: i < n && i < 8 * |hash| ==> !BitSet(hash[i / 8], i % 8)
  }

  lemma BitsOfByte(b: bv8, n: nat)
    requires 0 < n <= 8
    ensures (forall k: nat :: k < n ==> !BitSet(b, k)) <==> b as nat < Pow2(8 - n)
  {
    assert Pow2(0) == 1 && Pow2(1) == 2 && Pow2(2) == 4 && Pow2(3) == 8 && Pow2(4) == 16;
    assert Pow2(5) == 32 && Pow2(6) == 64 && Pow2(7) == 128;
    SingleBits(b);
    if n == 1 { assert !BitSet(b, 0) <==> b < 0x80; }
    else if n == 2 { assert !BitSet(b, 0) && !BitSet(b, 1) <==> b < 0x40; }
    else if n == 3 { assert !BitSet(b, 0) && !BitSet(b, 1) && !BitSet(b, 2) <==> b < 0x20; }
    else if n == 4 { assert !BitSet(b, 0) && !BitSet(b, 1) && !BitSet(b, 2) && !BitSet(b, 3) <==> b < 0x10; }
    else { LowBits(b, n); }
  }

  lemma LowBits(b: bv8, n: nat)
    requires 4 < n <= 8
    ensures (forall k: nat :: k < n ==> !BitSet(b, k)) <==> b as nat < Pow2(8 - n)
  {
    assert Pow2(0) == 1 && Pow2(1) == 2 && Pow2(2) == 4 && Pow2(3) == 8;
    SingleBits(b);
    assert !BitSet(b, 0) && !BitSet(b, 1) && !BitSet(b, 2) && !BitSet(b, 3) <==> b < 0x10;
    if n == 5 { assert b < 0x10 && !BitSet(b, 4) <==> b < 0x08; }
    else if n == 6 { assert b < 0x10 && !BitSet(b, 4) && !BitSet(b, 5) <==> b < 0x04; }
    else if n == 7 { assert b < 0x10 && !BitSet(b, 4) && !BitSet(b, 5) && !BitSet(b, 6) <==> b < 0x02; }
    else { assert b < 0x10 && !BitSet(b, 4) && !BitSet(b, 5) && !BitSet(b, 6) && !BitSet(b, 7) <==> b == 0; }
  }

  lemma SingleBits(b: bv8)
    ensures BitSet(b, 0) == (b & 0x80 != 0) && BitSet(b, 1) == (b & 0x40 != 0)
    ensures BitSet(b, 2) == (b & 0x20 != 0) && BitSet(b, 3) == (b & 0x10 != 0)
    ensures BitSet(b, 4) == (b & 0x08 != 0) && BitSet(b, 5) == (b & 0x04 != 0)
    ensures BitSet(b, 6) == (b & 0x02 != 0) && BitSet(b, 7) == (b & 0x01 != 0)
  {
  }

  /** The bound on the number says the same as looking at the bits one by one. */
  lemma {:induction false} LeadingZerosAreBits(hash: seq<bv8>, n: int)
    ensures LeadingZeros(hash, n) <==> ZeroBits(hash, n)
    decreases |hash|
  {
    hide LeadingZeros, BitSet, Pow2;
    if hash == [] || n <= 0 {
      NothingLeft(hash, n);
    } else if n < 8 {
      PartByte(hash, n);
      BitsOfByte(hash[0], n);
      FirstBits(hash, n);
    } else {
      ZeroByte(hash, n);
      LeadingZerosAreBits(hash[1..], n - 8);
      BitsOfByte(hash[0], 8);
      assert Pow2(0) == 1 by { PowZero(); }
      MoreBits(hash, n);
    }
  }

  lemma PowZero()
    ensures Pow2(0) == 1
  {
  }

  lemma FirstBits(hash: seq<bv8>, n: nat)
    requires 0 < n < 8 && hash != []
    ensures ZeroBits(hash, n) <==> forall k: nat :: k < n ==> !BitSet(hash[0], k)
  {
    hide BitSet;
    if ZeroBits(hash, n) {
      forall k: nat | k < n ensures !BitSet(hash[0], k) {
        assert !BitSet(hash[k / 8], k % 8);
      }
    }
    if forall k: nat :: k < n ==> !BitSet(hash[0], k) {
      forall i: nat | i < n && i < 8 * |hash| ensures !BitSet(hash[i / 8], i % 8) {
        assert !BitSet(hash[0], i);
      }
    }
  }

  lemma MoreBits(hash: seq<bv8>, n: nat)
    requires 8 <= n && hash != []
    ensures ZeroBits(hash, n) <==> (forall k: nat :: k < 8 ==> !BitSet(hash[0], k)) && ZeroBits(hash[1..], n - 8)
  {
    hide BitSet;
    if ZeroBits(hash, n) {
      forall k: nat | k < 8 ensures !BitSet(hash[0], k) {
        assert !BitSet(hash[k / 8], k % 8);
      }
      forall i: nat | i < n - 8 && i < 8 * |hash[1..]| ensures !BitSet(hash[1..][i / 8], i % 8) {
        assert !BitSet(hash[(i + 8) / 8], (i + 8) % 8);
      }
    }
    if (forall k: nat :: k < 8 ==> !BitSet(hash[0], k)) && ZeroBits(hash[1..], n - 8) {
      forall i: nat | i < n && i < 8 * |hash| ensures !BitSet(hash[i / 8], i % 8) {
        if i < 8 {
          assert !BitSet(hash[0], i);
        } else {
          assert !BitSet(hash[1..][(i - 8) / 8], (i - 8) % 8);
        }
      }
    }
  }

  // ---------- The search ----------

  /** Splits at the first colon. */
  function Split(param: string): (parts: Option<(string, string)>)
    ensures parts == None <==> ':' !in param
    ensures parts.Some? ==> param == parts.value.0 + ":" + parts.value.1 && ':' !in parts.value.0
  {
    if param == "" then None
    else if param[0] == ':' then Some(("", param[1..]))
    else match Split(param[1..])
      case None => None
      case Some((a, b)) => Some(([param[0]] + a, b))
  }

  predicate Digits(s: string) { s != "" && forall i :: 0 <= i < |s| ==> '0' <= s[i] <= '9' }

  /** `strconv.Atoi` on a 64-bit platform; an error is `None`. */
  function Atoi(s: string): Option<int> {
    var signed := s != "" && (s[0] == '-' || s[0] == '+');
    var digits := if signed then s[1..] else s;
    if !Digits(digits) then None
    else
      var v: int := DecimalValue(digits);
      var n := if s[0] == '-' then -v else v;
      if -0x8000_0000_0000_0000 <= n < 0x8000_0000_0000_0000 then Some(n) else None
  }

  function Difficulty(s: string): int { match Atoi(s) case Some(n) => n case None => 1 }

  ghost predicate Solves(hash: string -> seq<bv8>, prefix: string, difficulty: int, nonce: nat) {
    LeadingZeros(hash(prefix + Decimal(nonce)), difficulty)
  }

  ghost predicate Least(hash: string -> seq<bv8>, prefix: string, difficulty: int, nonce: nat) {
    && Solves(hash, prefix, difficulty, nonce)
    && forall smaller: nat :: smaller < nonce ==> !Solves(hash, prefix, difficulty, smaller)
  }

  /** Some nonce answers the challenge, or there is nothing to search for. */
  ghost predicate Solvable(hash: string -> seq<bv8>, param: string) {
    match Split(param)
    case None => true
    case Some((prefix, d)) => exists nonce: nat :: Solves(hash, prefix, Difficulty(d), nonce)
  }

  /** The answer is the least nonce that meets the difficulty; a parameter without a colon gets no answer. */
  ghost predicate Answers(hash: string -> seq<bv8>, param: string, answer: string) {
    match Split(param)
    case None => answer == ""
    case Some((prefix, d)) => exists nonce: nat :: Least(hash, prefix, Difficulty(d), nonce) && answer == Decimal(nonce)
  }

  method SolveHashcash(hash: string -> seq<bv8>, param: string) returns (answer: string)
    requires Solvable(hash, param)
    ensures Answers(hash, param, answer)
  {
    hide LeadingZeros, Decimal, DecimalValue, Atoi;
    var parts := Split(param);
    if parts == None {
      return "";
    }
    var prefix := parts.value.0;
    var difficulty := Difficulty(parts.value.1);
    ghost var solution: nat :| Solves(hash, prefix, difficulty, solution);
    var nonce := 0;
    while true
      invariant 0 <= nonce <= solution
      invariant forall smaller: nat :: smaller < nonce ==> !Solves(hash, prefix, difficulty, smaller)
      decreases solution - nonce
    {
      var ok := HasLeadingZeroBits(hash(prefix + Decimal(nonce)), difficulty);
      if ok {
        return Decimal(nonce);
      }
      nonce := nonce + 1;
    }
  }

  /** There is one right answer only. */
  lemma AnswerIsUnique(hash: string -> seq<bv8>, param: string, a: string, b: string)
    requires Answers(hash, param, a) && Answers(hash, param, b)
    ensures a == b
  {
    if Split(param).Some? {
      var (prefix, d) := Split(param).value;
      var m: nat :| Least(hash, prefix, Difficulty(d), m) && a == Decimal(m);
      var n: nat :| Least(hash, prefix, Difficulty(d), n) && b == Decimal(n);
    }
  }

  /** A difficulty is read as a decimal number with an optional sign; what is none, or is too large, counts as 1. */
  lemma ReadsDifficulty(s: string)
    requires s != "" && forall i :: 0 <= i < |s| ==> '0' <= s[i] <= '9'
    ensures var n: int := DecimalValue(s);
      && Difficulty(s) == Difficulty("+" + s) == (if n < 0x8000_0000_0000_0000 then n else 1)
      && Difficulty("-" + s) == (if n <= 0x8000_0000_0000_0000 then -n else 1)
  {
    hide DecimalValue, Difficulty;
    Unsigned(s);
    Signed('+', s);
    Signed('-', s);
    assert "+" + s == ['+'] + s && "-" + s == ['-'] + s;
  }

  lemma Unsigned(s: string)
    requires Digits(s)
    ensures Difficulty(s) == if DecimalValue(s) < 0x8000_0000_0000_0000 then DecimalValue(s) else 1
  {
    hide DecimalValue;
  }

  lemma Signed(sign: char, s: string)
    requires (sign == '+' || sign == '-') && Digits(s)
    ensures var n := if sign == '-' then -(DecimalValue(s) as int) else DecimalValue(s);
      Difficulty([sign] + s) == if -0x8000_0000_0000_0000 <= n < 0x8000_0000_0000_0000 then n else 1
  {
    hide DecimalValue;
    assert ([sign] + s)[1..] == s;
  }

  lemma NoNumber(s: string)
    requires s == "" || exists i :: (if s[0] in {'+', '-'} then 1 else 0) <= i < |s| && !('0' <= s[i] <= '9')
    ensures Difficulty(s) == 1 && Difficulty("+") == Difficulty("-") == 1
  {
    if s != "" {
      var i :| (if s[0] in {'+', '-'} then 1 else 0) <= i < |s| && !('0' <= s[i] <= '9');
      if s[0] in {'+', '-'} { assert s[1..][i - 1] == s[i]; }
    }
  }

  lemma SplitAt(prefix: string, rest: string)
    requires ':' !in prefix
    ensures Split(prefix + ":" + rest) == Some((prefix, rest))
  {
    var param := prefix + ":" + rest;
    assert param[|prefix|] == ':';
    var (a, b) := Split(param).value;
    assert param == a + ":" + b && param[|a|] == ':';
    assert |a| == |prefix|;
    assert a == param[..|a|] == prefix && b == param[|a| + 1..] == rest;
  }

  /** No smaller nonce has a hash that begins with so many zero bits. */
  ghost predicate FirstWithBits(hash: string -> seq<bv8>, prefix: string, d: nat, nonce: nat) {
    && ZeroBits(hash(prefix + Decimal(nonce)), d)
    && forall smaller: nat :: smaller < nonce ==> !ZeroBits(hash(prefix + Decimal(smaller)), d)
  }

  lemma LeastByBits(hash: string -> seq<bv8>, prefix: string, d: nat, nonce: nat)
    ensures Least(hash, prefix, d, nonce) <==> FirstWithBits(hash, prefix, d, nonce)
  {
    hide LeadingZeros, ZeroBits, Decimal;
    forall n: nat ensures Solves(hash, prefix, d, n) <==> ZeroBits(hash(prefix + Decimal(n)), d) {
      LeadingZerosAreBits(hash(prefix + Decimal(n)), d);
    }
  }

  /** A challenge for `d` zero bits is answered by the first nonce whose hash has them. */
  lemma ChallengeByBits(hash: string -> seq<bv8>, prefix: string, d: nat, answer: string)
    requires ':' !in prefix && d < 0x8000_0000_0000_0000
    ensures Answers(hash, prefix + ":" + Decimal(d), answer) <==>
      exists nonce: nat :: FirstWithBits(hash, prefix, d, nonce) && answer == Decimal(nonce)
  {
    hide Split, Difficulty, Least, FirstWithBits;
    SplitAt(prefix, Decimal(d));
    ReadsDifficulty(Decimal(d));
    forall nonce: nat ensures Least(hash, prefix, d, nonce) <==> FirstWithBits(hash, prefix, d, nonce) {
      LeastByBits(hash, prefix, d, nonce);
    }
  }

  /** A difficulty of zero or less is met by the first nonce tried. */
  lemma NoDifficulty(hash: string -> seq<bv8>, prefix: string, difficulty: int)
    requires difficulty <= 0
    ensures Solves(hash, prefix, difficulty, 0)
  {
  }
}
