/** calls/ids.py: sortable identifiers. */
module Ulid {
  import opened Base

  const CROCKFORD := "0123456789ABCDEFGHJKMNPQRSTVWXYZ"

  /** A digit of base 32, 0 to 31. */
  type Five = n: nat | n < 32

  function Symbol(d: Five): char {
    CROCKFORD[d]
  }

  function Pow(base: nat, n: nat): (p: nat)
    ensures base >= 1 ==> p >= 1
  {
    if n == 0 then 1 else base * Pow(base, n - 1)
  }

  /** The last n digits of a value, most significant first. */
  function Digits(value: nat, n: nat): (s: string)
    ensures |s| == n
  {
    if n == 0 then "" else Digits(value / 32, n - 1) + [Symbol(value % 32)]
  }

  function Encode(value: nat): string {
    Digits(value, 26)
  }

  /** `_encode_ulid`: fills the array from the right while shifting the value; `& 0x1F` is the
      remainder by 32 and `>> 5` the quotient. */
  method EncodeUlid(value: nat) returns (text: string)
    ensures text == Encode(value)
  {
    var encoded := new char[26](_ => '0');
    var rest := value;
    for index := 26 downto 0
      invariant Digits(value, 26) == Digits(rest, index) + encoded[index..]
    {
      encoded[index] := CROCKFORD[rest % 32];
      ghost var before := Digits(rest, index + 1);
      assert before == Digits(rest / 32, index) + [Symbol(rest % 32)];
      assert encoded[index..] == [Symbol(rest % 32)] + encoded[index + 1..];
      rest := rest / 32;
    }
    return encoded[..];
  }

  /** The k-th character from the left is the k-th digit to the base 32 in the alphabet without I, L,
      O and U. */
  lemma EncodeDigits(value: nat, k: nat)
    requires k < 26
    ensures Encode(value)[k] == "0123456789ABCDEFGHJKMNPQRSTVWXYZ"[value / Pow(32, 25 - k) % 32]
  {
    DigitAt(value, 26, k);
  }

  lemma {:induction false} DigitAt(value: nat, n: nat, k: nat)
    requires k < n
    ensures Digits(value, n)[k] == "0123456789ABCDEFGHJKMNPQRSTVWXYZ"[value / Pow(32, n - 1 - k) % 32]
    decreases n
  {
    if k < n - 1 {
      DigitAt(value / 32, n - 1, k);
      DivSplit(value, Pow(32, n - 2 - k));
    }
  }

  lemma DivSplit(value: nat, p: nat)
    requires p > 0
    ensures value / 32 / p == value / (32 * p)
  {
    var q, r := value / 32, value % 32;
    var k, m := q / p, q % p;
    assert value == (32 * p) * k + (32 * m + r) by {
      assert 32 * (p * k) == (32 * p) * k;
    }
    QuotientUnique(value, 32 * p, k, 32 * m + r);
  }

  lemma QuotientUnique(value: nat, d: nat, k: nat, r: nat)
    requires d > 0 && value == d * k + r && r < d
    ensures value / d == k
  {
    var l, m := value / d, value % d;
    assert value == d * l + m;
    if k < l {
      MulStep(d, k, l);
    } else if l < k {
      MulStep(d, l, k);
    }
  }

  // ---- Order and decoding ----

  /** The alphabet is in code-point order. */
  lemma SymbolsAscend(a: Five, b: Five)
    requires a < b
    ensures Symbol(a) < Symbol(b)
  {
    var i := a;
    while i + 1 < b
      invariant a <= i < b
      invariant i > a ==> Symbol(a) < Symbol(i)
    {
      NextSymbol(i);
      i := i + 1;
    }
    NextSymbol(i);
  }

  lemma NextSymbol(d: nat)
    requires d < 31
    ensures Symbol(d) < Symbol(d + 1)
  {
  }

  function ValueOf(c: char): nat {
    if c in CROCKFORD then FirstIndex(CROCKFORD, c) else 0
  }

  function FirstIndex(alphabet: string, c: char): (i: nat)
    requires c in alphabet
    ensures i < |alphabet| && alphabet[i] == c
  {
    if alphabet[0] == c then 0 else 1 + FirstIndex(alphabet[1..], c)
  }

  function Decode(s: string): nat {
    if s == "" then 0 else Decode(s[..|s| - 1]) * 32 + ValueOf(s[|s| - 1])
  }

  lemma ValueOfSymbol(d: Five)
    ensures ValueOf(Symbol(d)) == d
  {
    var c := Symbol(d);
    assert c in CROCKFORD && CROCKFORD[0..] == CROCKFORD;
    var i := FirstIndex(CROCKFORD, c);
    if i < d {
      SymbolsAscend(i, d);
    } else if d < i {
      SymbolsAscend(d, i);
    }
  }

  lemma {:induction false} DecodeDigits(value: nat, n: nat)
    ensures Decode(Digits(value, n)) == value % Pow(32, n)
    decreases n
  {
    if n > 0 {
      DecodeDigits(value / 32, n - 1);
      ValueOfSymbol(value % 32);
      var s := Digits(value, n);
      assert s[..n - 1] == Digits(value / 32, n - 1);
      ModSplit(value, Pow(32, n - 1));
    }
  }

  lemma ModSplit(value: nat, p: nat)
    requires p > 0
    ensures value / 32 % p * 32 + value % 32 == value % (32 * p)
  {
    var q, r := value / 32, value % 32;
    var k, m := q / p, q % p;
    assert q == p * k + m;
    assert value == 32 * (p * k + m) + r;
    assert value == (32 * p) * k + (32 * m + r) by {
      assert 32 * (p * k) == (32 * p) * k;
    }
    assert 32 * m + r < 32 * p by {
      assert m <= p - 1;
    }
    RemainderUnique(value, 32 * p, k, 32 * m + r);
  }

  lemma {:induction false} MulStep(d: nat, k: nat, l: nat)
    requires k < l
    ensures d * k + d <= d * l
  {
    if k + 1 < l {
      MulStep(d, k, l - 1);
      assert d * l == d * (l - 1) + d;
    } else {
      assert d * l == d * k + d;
    }
  }

  lemma RemainderUnique(value: nat, d: nat, k: nat, r: nat)
    requires d > 0 && value == d * k + r && r < d
    ensures value % d == r
  {
    var l, m := value / d, value % d;
    assert value == d * l + m;
    if k < l {
      MulStep(d, k, l);
    } else if l < k {
      MulStep(d, l, k);
    }
  }

  /** 26 characters hold 130 bits. */
  lemma {:induction false} PowOfTwo(n: nat)
    ensures Pow(2, 5 * n) == Pow(32, n)
  {
    if n > 0 {
      PowOfTwo(n - 1);
      var m := 5 * (n - 1);
      assert Pow(2, m + 5) == 2 * Pow(2, m + 4) == 4 * Pow(2, m + 3) == 8 * Pow(2, m + 2);
      assert Pow(2, m + 2) == 2 * Pow(2, m + 1) == 4 * Pow(2, m);
    }
  }

  /** Decoding inverts encoding on the low 130 bits, so two values share a text exactly when they
      agree on those; below 2^130 the encoding is injective. */
  lemma EncodeInjective(a: nat, b: nat)
    ensures Decode(Encode(a)) == a % Pow(2, 130)
    ensures Encode(a) == Encode(b) <==> a % Pow(2, 130) == b % Pow(2, 130)
  {
    PowOfTwo(26);
    DecodeDigits(a, 26);
    DecodeDigits(b, 26);
    if a % Pow(32, 26) == b % Pow(32, 26) {
      SameDigits(a, b, 26);
    }
  }

  lemma {:induction false} SameDigits(a: nat, b: nat, n: nat)
    requires a % Pow(32, n) == b % Pow(32, n)
    ensures Digits(a, n) == Digits(b, n)
    decreases n
  {
    if n > 0 {
      var p := Pow(32, n - 1);
      ModSplit(a, p);
      ModSplit(b, p);
      SameDigits(a / 32, b / 32, n - 1);
    }
  }

  // ---- Numeric order is lexicographic order ----

  lemma {:induction false} LexAppend(a: string, b: string, x: char, y: char)
    requires |a| == |b| && LexLess(a, b)
    ensures LexLess(a + [x], b + [y])
    decreases |a|
  {
    assert (a + [x])[1..] == a[1..] + [x] && (b + [y])[1..] == b[1..] + [y];
    if a[0] == b[0] {
      LexAppend(a[1..], b[1..], x, y);
    }
  }

  lemma {:induction false} LexLast(a: string, x: char, y: char)
    requires x < y
    ensures LexLess(a + [x], a + [y])
    decreases |a|
  {
    if a != "" {
      assert (a + [x])[1..] == a[1..] + [x] && (a + [y])[1..] == a[1..] + [y];
      LexLast(a[1..], x, y);
    }
  }

  lemma {:induction false} DigitsOrdered(a: nat, b: nat, n: nat)
    requires a < b < Pow(32, n)
    ensures LexLess(Digits(a, n), Digits(b, n))
    decreases n
  {
    var p := Pow(32, n - 1);
    assert a / 32 <= b / 32 < p;
    if a / 32 < b / 32 {
      DigitsOrdered(a / 32, b / 32, n - 1);
      LexAppend(Digits(a / 32, n - 1), Digits(b / 32, n - 1), Symbol(a % 32), Symbol(b % 32));
    } else {
      SymbolsAscend(a % 32, b % 32);
      LexLast(Digits(a / 32, n - 1), Symbol(a % 32), Symbol(b % 32));
    }
  }

  /** Below 2^130 the numeric order is exactly the order of the texts. */
  lemma EncodeOrdered(a: nat, b: nat)
    requires a < Pow(2, 130) && b < Pow(2, 130)
    ensures a < b <==> LexLess(Encode(a), Encode(b))
  {
    PowOfTwo(26);
    if a < b {
      DigitsOrdered(a, b, 26);
    } else if b < a {
      DigitsOrdered(b, a, 26);
      LexTotal(Encode(a), Encode(b));
    } else {
      LexTotal(Encode(a), Encode(b));
    }
  }

  // ---- Identifiers ----

  /** `new_id`: 48 bits of milliseconds, 80 random bits. */
  function NewId(prefix: string, millis: nat, random: nat): string {
    prefix + "_" + Encode(millis % Pow(2, 48) * Pow(2, 80) + random)
  }

  /** An identifier is its prefix, an underscore and 26 characters. */
  lemma IdShape(prefix: string, millis: nat, random: nat)
    ensures var id := NewId(prefix, millis, random);
            && |id| == |prefix| + 27 && id[..|prefix| + 1] == prefix + ['_']
            && id[|prefix| + 1..] == Encode(millis % 281_474_976_710_656 * 1_208_925_819_614_629_174_706_176 + random)
  {
    PowSmall();
    hide Pow;
    assert prefix + "_" == prefix + ['_'];
  }

  lemma PowSmall()
    ensures Pow(2, 48) == 281_474_976_710_656 && Pow(2, 80) == 1_208_925_819_614_629_174_706_176
  {
    PowOfTwo(4);
    PowOfTwo(9);
    PowOfTwo(16);
    assert Pow(32, 4) == 1_048_576;
    PowSum(32, 4, 4);
    PowSum(32, 4, 5);
    PowSum(32, 8, 8);
    assert Pow(32, 5) == 33_554_432;
    assert Pow(2, 48) == 8 * Pow(2, 45) by {
      assert Pow(2, 46) == 2 * Pow(2, 45) && Pow(2, 47) == 2 * Pow(2, 46);
    }
  }

  lemma {:induction false} PowSum(base: nat, a: nat, b: nat)
    ensures Pow(base, a + b) == Pow(base, a) * Pow(base, b)
  {
    if a > 0 {
      PowSum(base, a - 1, b);
      Regroup(base, Pow(base, a - 1), Pow(base, b));
    }
  }

  lemma Regroup(x: nat, y: nat, z: nat)
    ensures x * (y * z) == x * y * z
  {
  }

  lemma {:induction false} LexPrefix(p: string, a: string, b: string)
    ensures LexLess(p + a, p + b) <==> LexLess(a, b)
    decreases |p|
  {
    if p == "" {
      assert p + a == a && p + b == b;
    } else {
      assert (p + a)[1..] == p[1..] + a && (p + b)[1..] == p[1..] + b;
      LexPrefix(p[1..], a, b);
    }
  }

  /** An earlier timestamp sorts first whatever the random bits, until the 48 bits wrap. */
  lemma EarlierSortsFirst(prefix: string, t: nat, u: nat, r: nat, q: nat)
    requires t < u < Pow(2, 48) && r < Pow(2, 80) && q < Pow(2, 80)
    ensures LexLess(NewId(prefix, t, r), NewId(prefix, u, q))
  {
    hide Pow, Encode;
    var h, m := Pow(2, 80), Pow(2, 48);
    SmallMod(t, m);
    SmallMod(u, m);
    HighPartDecides(t, u, m, r, q, h);
    Room();
    EncodeOrdered(t * h + r, u * h + q);
    LexPrefix(prefix + "_", Encode(t * h + r), Encode(u * h + q));
  }

  /** 48 bits of time and 80 random bits fit into 130. */
  lemma Room()
    ensures Pow(2, 48) * Pow(2, 80) <= Pow(2, 130)
  {
    PowSum(2, 48, 80);
    assert Pow(2, 130) == 2 * Pow(2, 129) && Pow(2, 129) == 2 * Pow(2, 128);
  }

  lemma HighPartDecides(t: nat, u: nat, m: nat, r: nat, q: nat, h: nat)
    requires t < u < m && r < h && q < h
    ensures t * h + r < u * h + q < m * h
  {
    MulStep(h, t, u);
    MulStep(h, u, m);
  }

  lemma SmallMod(a: nat, b: nat)
    requires a < b
    ensures a % b == a
  {
  }
}
