/**
 * The string hash shared by the user-colour and cursor-colour pickers: a
 * left fold over the id's character codes, starting from 0, with
 * acc |-> code + ((acc << 5) - acc). JavaScript's `<<` converts its left
 * operand to a 32-bit signed integer and wraps the shifted result to 32
 * bits, while the subtraction and addition are on unbounded (here: exact)
 * numbers, so the accumulator itself is not confined to 32 bits.
 */
module StringHash {
  /** ECMAScript ToInt32 on an integer: the representative of x modulo 2^32 in [-2^31, 2^31). */
  function ToInt32(x: int): (r: int)
    ensures -0x8000_0000 <= r < 0x8000_0000
    ensures (x - r) % 0x1_0000_0000 == 0
    ensures -0x8000_0000 <= x < 0x8000_0000 ==> r == x
  {
    var m := x % 0x1_0000_0000;
    if m >= 0x8000_0000 then m - 0x1_0000_0000 else m
  }

  /** `acc << 5` on a number that holds an integer. */
  function ShiftLeft5(acc: int): (r: int)
    ensures -0x8000_0000 <= r < 0x8000_0000
    ensures (r - ToInt32(acc) * 32) % 0x1_0000_0000 == 0
  {
    ToInt32(ToInt32(acc) * 32)
  }

  /** The first code point outside the Basic Multilingual Plane: from here on a character takes two UTF-16 code units. */
  const FirstAstral: int := 0x1_0000

  /** The high (leading) surrogate of a character outside the Basic Multilingual Plane. */
  function HighSurrogate(c: char): (u: int)
    requires c as int >= FirstAstral
    ensures 0xD800 <= u < 0xDC00
  {
    0xD800 + (c as int - FirstAstral) / 0x400
  }

  /** The low (trailing) surrogate of a character outside the Basic Multilingual Plane. */
  function LowSurrogate(c: char): (u: int)
    requires c as int >= FirstAstral
    ensures 0xDC00 <= u < 0xE000
  {
    0xDC00 + (c as int - FirstAstral) % 0x400
  }

  /** A UTF-16 code unit: what `charCodeAt` returns. */
  predicate IsCodeUnit(u: int) {
    0 <= u < FirstAstral
  }

  /**
   * The UTF-16 code units of one character: the character itself inside the
   * Basic Multilingual Plane, its surrogate pair outside it.
   */
  function CharUnits(c: char): (us: seq<int>)
    ensures |us| == (if c as int < FirstAstral then 1 else 2)
    ensures forall i :: 0 <= i < |us| ==> IsCodeUnit(us[i])
  {
    if c as int < FirstAstral then [c as int] else [HighSurrogate(c), LowSurrogate(c)]
  }

  /** The surrogate pair determines the character: the encoding loses nothing. */
  lemma SurrogatePairDecodes(c: char)
    requires c as int >= FirstAstral
    ensures FirstAstral + (HighSurrogate(c) - 0xD800) * 0x400 + (LowSurrogate(c) - 0xDC00) == c as int
  {
  }

  /**
   * The id as JavaScript strings hold it: its UTF-16 code units, which is
   * what `split('')` separates and `charCodeAt(0)` reads.
   */
  function CodeUnits(s: string): (us: seq<int>)
    ensures |s| <= |us| <= 2 * |s|
    ensures forall i :: 0 <= i < |us| ==> IsCodeUnit(us[i])
    decreases |s|
  {
    if |s| == 0 then [] else CodeUnits(s[..|s| - 1]) + CharUnits(s[|s| - 1])
  }

  /** Encoding distributes over appending a character. */
  lemma CodeUnitsAppend(s: string, c: char)
    ensures CodeUnits(s + [c]) == CodeUnits(s) + CharUnits(c)
  {
    assert (s + [c])[..|s + [c]| - 1] == s;
  }

  /** Two integers that agree modulo 2^32. */
  predicate Congruent32(a: int, b: int) {
    (a - b) % 0x1_0000_0000 == 0
  }

  /** Agreement modulo 2^32 is kept by sums and by multiples. */
  lemma CongruentSum(a: int, b: int, c: int, d: int)
    requires Congruent32(a, b) && Congruent32(c, d)
    ensures Congruent32(a + c, b + d)
  {
    var p, q := (a - b) / 0x1_0000_0000, (c - d) / 0x1_0000_0000;
    assert (a + c) - (b + d) == 0x1_0000_0000 * (p + q);
  }

  lemma CongruentScale(a: int, b: int, k: int)
    requires Congruent32(a, b)
    ensures Congruent32(k * a, k * b)
  {
    var p := (a - b) / 0x1_0000_0000;
    assert a - b == 0x1_0000_0000 * p;
    assert k * a - k * b == k * (a - b);
    assert k * (a - b) == 0x1_0000_0000 * (k * p);
  }

  /**
   * One step of the fold: `char.charCodeAt(0) + ((acc << 5) - acc)`. Up to
   * multiples of 2^32 it is the polynomial step acc * 31 + unit.
   */
  function Step(acc: int, unit: int): (r: int)
    ensures Congruent32(r, acc * 31 + unit)
  {
    var t := ToInt32(acc);
    CongruentScale(t, acc, 32);
    CongruentSum(ShiftLeft5(acc) - t * 32, 0, t * 32 - acc * 32, 0);
    unit + (ShiftLeft5(acc) - acc)
  }

  /** The textbook polynomial hash, without wrap-around: the sum of unit i times 31 to the power of the units after it. */
  function Poly(us: seq<int>): int
    decreases |us|
  {
    if |us| == 0 then 0 else Poly(us[..|us| - 1]) * 31 + us[|us| - 1]
  }

  /** The fold over a sequence of code units, from 0. */
  function Fold(us: seq<int>): int
    decreases |us|
  {
    if |us| == 0 then 0 else Step(Fold(us[..|us| - 1]), us[|us| - 1])
  }

  /** The fold is the polynomial hash up to multiples of 2^32: the wrap-around of `<<` loses nothing else. */
  lemma {:induction false} FoldIsPoly(us: seq<int>)
    ensures Congruent32(Fold(us), Poly(us))
    decreases |us|
  {
    if |us| > 0 {
      var front, u := us[..|us| - 1], us[|us| - 1];
      FoldIsPoly(front);
      CongruentScale(Fold(front), Poly(front), 31);
      CongruentSum(Step(Fold(front), u), Fold(front) * 31 + u, 31 * Fold(front) + u, 31 * Poly(front) + u);
    }
  }

  /** The fold over the id's code units: the polynomial hash of the code units up to multiples of 2^32. */
  function Hash(s: string): (h: int)
    ensures Congruent32(h, Poly(CodeUnits(s)))
  {
    FoldIsPoly(CodeUnits(s));
    Fold(CodeUnits(s))
  }

  /** While the shift does not overflow, a step is the classic acc * 31 + code. */
  lemma StepIsTimes31(acc: int, unit: int)
    requires -0x8000_0000 <= acc * 32 < 0x8000_0000
    ensures Step(acc, unit) == acc * 31 + unit
  {
    assert -0x8000_0000 <= acc < 0x8000_0000;
  }

  /** The hash of the empty id is 0. */
  lemma HashOfEmpty()
    ensures Hash("") == 0
  {
  }

  /**
   * Appending one character: one more step with its code inside the Basic
   * Multilingual Plane, two more steps, high surrogate first, outside it.
   */
  lemma HashAppend(s: string, c: char)
    ensures c as int < FirstAstral ==> Hash(s + [c]) == Step(Hash(s), c as int)
    ensures c as int >= FirstAstral ==> Hash(s + [c]) == Step(Step(Hash(s), HighSurrogate(c)), LowSurrogate(c))
  {
    CodeUnitsAppend(s, c);
    var us := CodeUnits(s);
    if c as int < FirstAstral {
      assert (us + [c as int])[..|us|] == us;
    } else {
      var hi, lo := HighSurrogate(c), LowSurrogate(c);
      assert (us + [hi, lo])[..|us| + 1] == us + [hi];
      assert (us + [hi])[..|us|] == us;
      assert Fold(us + [hi]) == Step(Fold(us), hi);
      assert Fold(us + [hi, lo]) == Step(Fold(us + [hi]), lo);
    }
  }

  /**
   * The last code unit enters the hash linearly: two ids with a common
   * prefix whose last characters encode to the same leading units have
   * hashes that differ by exactly the difference of their last code units
   * (the characters' codes inside the Basic Multilingual Plane, the low
   * surrogates for characters sharing a high surrogate outside it).
   */
  lemma LastCharacterShiftsHash(p: string, c: char, d: char)
    ensures c as int < FirstAstral && d as int < FirstAstral ==>
              Hash(p + [c]) - Hash(p + [d]) == c as int - d as int
    ensures c as int >= FirstAstral && d as int >= FirstAstral && HighSurrogate(c) == HighSurrogate(d) ==>
              Hash(p + [c]) - Hash(p + [d]) == LowSurrogate(c) - LowSurrogate(d)
  {
    HashAppend(p, c);
    HashAppend(p, d);
  }

  /** A character outside the Basic Multilingual Plane is hashed as its two surrogates: U+1F600 as 0xD83D, then 0xDE00. */
  lemma SurrogatePairHash()
    ensures Hash("\U{1F600}") == Step(Step(0, 0xD83D), 0xDE00) == 1772899
  {
    var e := "\U{1F600}";
    assert e[..0] == [];
    assert HighSurrogate(e[0]) == 0xD83D && LowSurrogate(e[0]) == 0xDE00;
    assert CodeUnits(e) == [0xD83D, 0xDE00];
    assert [0xD83D, 0xDE00][..1] == [0xD83D];
    assert [0xD83D][..0] == [];
    StepIsTimes31(0, 0xD83D);
    StepIsTimes31(0xD83D, 0xDE00);
  }

  /** The accumulator grows by less than 2^31 + 2^16 (0x8001_0000) per code unit. */
  lemma {:induction false} FoldMagnitude(us: seq<int>)
    requires forall i :: 0 <= i < |us| ==> IsCodeUnit(us[i])
    ensures -|us| * 0x8001_0000 <= Fold(us) <= |us| * 0x8001_0000
  {
    if |us| > 0 {
      var p := us[..|us| - 1];
      FoldMagnitude(p);
      assert |p| == |us| - 1;
      assert -|p| * 0x8001_0000 <= Fold(p) <= |p| * 0x8001_0000;
      assert |us| * 0x8001_0000 == |p| * 0x8001_0000 + 0x8001_0000;
    }
  }

  /**
   * The accumulator grows by less than 2^31 + 2^16 per code unit, and an id
   * has at most two code units per character, so for ids shorter than 2^20
   * characters it stays below 2^53 and the source's double-precision
   * arithmetic computes it exactly.
   */
  lemma HashMagnitude(s: string)
    ensures |s| <= |CodeUnits(s)| <= 2 * |s|
    ensures -|CodeUnits(s)| * 0x8001_0000 <= Hash(s) <= |CodeUnits(s)| * 0x8001_0000
  {
    var us := CodeUnits(s);
    FoldMagnitude(us);
    assert Hash(s) == Fold(us);
  }

  /** Math.abs(hash) % n: the palette index an id selects among n colours. */
  function HashIndex(s: string, n: nat): (i: nat)
    requires n > 0
    ensures i < n
  {
    var h := Hash(s);
    (if h < 0 then -h else h) % n
  }

  /** The empty id selects index 0 in any palette. */
  lemma EmptyIdIndex(n: nat)
    requires n > 0
    ensures HashIndex("", n) == 0
  {
    assert Hash("") == 0;
    assert 0 % n == 0;
  }

  /** The code units of "user-" fold to 111578562, one unit at a time; no step overflows the shift. */
  lemma UserPrefixFold()
    ensures Fold([117, 115, 101, 114, 45]) == 111578562
  {
    assert [117][..0] == [];
    assert [117, 115][..1] == [117];
    assert Fold([117, 115]) == 3742;
    assert [117, 115, 101][..2] == [117, 115];
    assert Fold([117, 115, 101]) == 116103;
    assert [117, 115, 101, 114][..3] == [117, 115, 101];
    assert Fold([117, 115, 101, 114]) == 3599307;
    assert [117, 115, 101, 114, 45][..4] == [117, 115, 101, 114];
  }

  /** Each character of "user-" is its own code unit. */
  lemma UserPrefixUnits()
    ensures CodeUnits("user-") == [117, 115, 101, 114, 45]
  {
    assert "u"[..0] == [] && "us"[..1] == "u" && "use"[..2] == "us";
    assert "user"[..3] == "use" && "user-"[..4] == "user";
    assert CodeUnits("us") == [117] + [115];
    assert CodeUnits("use") == [117, 115] + [101];
    assert CodeUnits("user") == [117, 115, 101] + [114];
    assert CodeUnits("user-") == [117, 115, 101, 114] + [45];
  }

  /** The code units of "user-0" and "user-1": the prefix's, then the digit's. */
  lemma UserIdUnits()
    ensures CodeUnits("user-0") == [117, 115, 101, 114, 45, 48]
    ensures CodeUnits("user-1") == [117, 115, 101, 114, 45, 49]
  {
    UserPrefixUnits();
    assert "user-0"[..5] == "user-" && "user-1"[..5] == "user-";
    assert CodeUnits("user-0") == [117, 115, 101, 114, 45] + [48];
    assert CodeUnits("user-1") == [117, 115, 101, 114, 45] + [49];
  }

  /** The hashes of "user-0" and "user-1": the last shift wraps past 2^31. */
  lemma UserIdHashes()
    ensures Hash("user-0") == -836031826
    ensures Hash("user-1") == -836031825
  {
    UserIdUnits();
    UserPrefixFold();
    assert [117, 115, 101, 114, 45, 48][..5] == [117, 115, 101, 114, 45];
    assert [117, 115, 101, 114, 45, 49][..5] == [117, 115, 101, 114, 45];
    assert ShiftLeft5(111578562) == -724453312;
  }

  /** The palette indices of "user-0" and "user-1": the magnitudes of their hashes, reduced. */
  lemma UserIdIndexes(n: nat)
    requires n > 0
    ensures HashIndex("user-0", n) == 836031826 % n
    ensures HashIndex("user-1", n) == 836031825 % n
  {
    UserIdHashes();
  }
}
