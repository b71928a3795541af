/** Sixty-four bits in a machine word: setting, clearing, testing and counting them. */
module Words {
  type word = bv64

  // ---------- shift amounts ----------

  function Digit(n: nat): (d: word)
    ensures d < 2
  {
    if n == 0 then 0 else 1
  }

  function Pack(f: word, e: word, d: word, c: word, b: word, a: word): word {
    (f << 5) | (e << 4) | (d << 3) | (c << 2) | (b << 1) | a
  }

  lemma PackSmall(f: word, e: word, d: word, c: word, b: word, a: word)
    requires f < 2 && e < 2 && d < 2 && c < 2 && b < 2 && a < 2
    ensures Pack(f, e, d, c, b, a) < 64
  {
  }

  lemma PackInjective(f: word, e: word, d: word, c: word, b: word, a: word,
                      f': word, e': word, d': word, c': word, b': word, a': word)
    requires f < 2 && e < 2 && d < 2 && c < 2 && b < 2 && a < 2
    requires f' < 2 && e' < 2 && d' < 2 && c' < 2 && b' < 2 && a' < 2
    requires Pack(f, e, d, c, b, a) == Pack(f', e', d', c', b', a')
    ensures f == f' && e == e' && d == d' && c == c' && b == b' && a == a'
  {
  }

  /** A bit position as the word it shifts by, digit by digit. */
  function Shift(n: nat): (p: word)
    requires n < 64
    ensures p < 64
  {
    var n1 := n / 2; var n2 := n1 / 2; var n3 := n2 / 2; var n4 := n3 / 2; var n5 := n4 / 2;
    PackSmall(Digit(n5), Digit(n4 % 2), Digit(n3 % 2), Digit(n2 % 2), Digit(n1 % 2), Digit(n % 2));
    Pack(Digit(n5), Digit(n4 % 2), Digit(n3 % 2), Digit(n2 % 2), Digit(n1 % 2), Digit(n % 2))
  }

  lemma SameDigit(n: nat, m: nat)
    requires n < 2 && m < 2 && Digit(n) == Digit(m)
    ensures n == m
  {
  }

  lemma ShiftDigits(n: nat)
    requires n < 64
    ensures Shift(n) == Pack(Digit(n / 2 / 2 / 2 / 2 / 2), Digit(n / 2 / 2 / 2 / 2 % 2), Digit(n / 2 / 2 / 2 % 2),
                             Digit(n / 2 / 2 % 2), Digit(n / 2 % 2), Digit(n % 2))
  {
    hide Pack, Digit;
  }

  lemma ShiftInjective(n: nat, m: nat)
    requires n < 64 && m < 64 && Shift(n) == Shift(m)
    ensures n == m
  {
    ShiftDigits(n);
    ShiftDigits(m);
    hide *;
    var n1, m1 := n / 2, m / 2;
    var n2, m2 := n1 / 2, m1 / 2;
    var n3, m3 := n2 / 2, m2 / 2;
    var n4, m4 := n3 / 2, m3 / 2;
    var n5, m5 := n4 / 2, m4 / 2;
    PackInjective(Digit(n5), Digit(n4 % 2), Digit(n3 % 2), Digit(n2 % 2), Digit(n1 % 2), Digit(n % 2),
                  Digit(m5), Digit(m4 % 2), Digit(m3 % 2), Digit(m2 % 2), Digit(m1 % 2), Digit(m % 2));
    SameDigit(n5, m5);
    SameDigit(n4 % 2, m4 % 2);
    SameDigit(n3 % 2, m3 % 2);
    SameDigit(n2 % 2, m2 % 2);
    SameDigit(n1 % 2, m1 % 2);
    SameDigit(n % 2, m % 2);
  }

  // ---------- bits ----------

  predicate BitAt(w: word, p: word)
    requires p < 64
  {
    (w >> p) & 1 != 0
  }

  predicate Bit(w: word, n: nat)
    requires n < 64
  {
    BitAt(w, Shift(n))
  }

  function OrMask(w: word, p: word): word
    requires p < 64
  {
    w | (1 << p)
  }

  function AndNotMask(w: word, p: word): word
    requires p < 64
  {
    w & !(1 << p)
  }

  function Or(w: word, v: word): word { w | v }

  predicate MeetsMask(w: word, p: word)
    requires p < 64
  {
    w & (1 << p) != 0
  }

  lemma RawSet(w: word, p: word, k: word)
    requires p < 64 && k < 64
    ensures BitAt(w | (1 << p), k) <==> k == p || BitAt(w, k)
  {
  }

  lemma RawClear(w: word, p: word, k: word)
    requires p < 64 && k < 64
    ensures BitAt(w & !(1 << p), k) <==> k != p && BitAt(w, k)
  {
  }

  lemma RawOr(w: word, v: word, k: word)
    requires k < 64
    ensures BitAt(w | v, k) <==> BitAt(w, k) || BitAt(v, k)
  {
  }

  lemma SetAt(w: word, p: word, k: word)
    requires p < 64 && k < 64
    ensures BitAt(OrMask(w, p), k) <==> k == p || BitAt(w, k)
  {
    hide BitAt;
    RawSet(w, p, k);
  }

  lemma ClearAt(w: word, p: word, k: word)
    requires p < 64 && k < 64
    ensures BitAt(AndNotMask(w, p), k) <==> k != p && BitAt(w, k)
  {
    hide BitAt;
    RawClear(w, p, k);
  }

  lemma TestAt(w: word, p: word)
    requires p < 64
    ensures BitAt(w, p) <==> MeetsMask(w, p)
  {
  }

  lemma OrAt(w: word, v: word, k: word)
    requires k < 64
    ensures BitAt(Or(w, v), k) <==> BitAt(w, k) || BitAt(v, k)
  {
    hide BitAt;
    RawOr(w, v, k);
  }

  lemma ZeroAt(k: word)
    requires k < 64
    ensures !BitAt(0, k)
  {
  }

  /** `w |= 1 << n` */
  function SetBit(w: word, n: nat): word
    requires n < 64
  {
    OrMask(w, Shift(n))
  }

  /** `w &= !(1 << n)` */
  function ClearBit(w: word, n: nat): word
    requires n < 64
  {
    AndNotMask(w, Shift(n))
  }

  /** `w & (1 << n) != 0` */
  predicate TestBit(w: word, n: nat)
    requires n < 64
  {
    MeetsMask(w, Shift(n))
  }

  /** Or-ing in a mask sets that bit, and-ing its complement clears it, and no other bit moves. */
  lemma MaskBit(w: word, n: nat, k: nat)
    requires n < 64 && k < 64
    ensures Bit(SetBit(w, n), k) <==> k == n || Bit(w, k)
    ensures Bit(ClearBit(w, n), k) <==> k != n && Bit(w, k)
    ensures Bit(w, n) <==> TestBit(w, n)
  {
    hide Shift, BitAt, OrMask, AndNotMask, MeetsMask;
    if Shift(n) == Shift(k) {
      ShiftInjective(n, k);
    }
    SetAt(w, Shift(n), Shift(k));
    ClearAt(w, Shift(n), Shift(k));
    TestAt(w, Shift(n));
  }

  lemma OrBit(w: word, v: word, n: nat)
    requires n < 64
    ensures Bit(Or(w, v), n) <==> Bit(w, n) || Bit(v, n)
    ensures !Bit(0, n)
  {
    hide Shift, BitAt, Or;
    OrAt(w, v, Shift(n));
    ZeroAt(Shift(n));
  }

  /** How many of the low `n` bits are set; `count_ones` is this at 64. */
  function Ones(w: word, n: nat): nat
    requires n <= 64
  {
    if n == 0 then 0 else Ones(w, n - 1) + if Bit(w, n - 1) then 1 else 0
  }
}
