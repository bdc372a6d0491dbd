/** Powers, and fixed-width numerals, decimal and hexadecimal, with their order. */
module Numerals {
  import opened Lexicographic

  predicate Base(base: nat) {
    base == 10 || base == 16
  }

  function Digit(d: nat): char
    requires d < 16
  {
    "0123456789abcdef"[d]
  }

  lemma DigitOrder(c: nat, d: nat)
    requires c < 16 && d < 16
    ensures Digit(c) < Digit(d) <==> c < d
    ensures Digit(c) == Digit(d) <==> c == d
  {
  }

  function Pow(base: nat, w: nat): nat
    requires Base(base)
  {
    if w == 0 then 1 else base * Pow(base, w - 1)
  }

  function Pow2(n: nat): nat {
    if n == 0 then 1 else 2 * Pow2(n - 1)
  }

  /** The low `w` digits of `n`, zero-padded. A negative `n` comes out in
      base-complement, as a two's complement shift and mask would give it. */
  function Numeral(base: nat, w: nat, n: int): (s: string)
    requires Base(base)
    ensures |s| == w
    ensures base == 10 ==> forall c :: c in s ==> '0' <= c <= '9'
  {
    if w == 0 then "" else Numeral(base, w - 1, n / base) + [Digit(n % base)]
  }

  /** A fixed-width field orders like its number; on a tie what follows decides. */
  lemma {:induction false} FieldDecides(base: nat, w: nat, a: nat, b: nat, u: string, v: string)
    requires Base(base) && a < Pow(base, w) && b < Pow(base, w)
    ensures Less(Numeral(base, w, a) + u, Numeral(base, w, b) + v) <==> (a < b || (a == b && Less(u, v)))
  {
    if w == 0 {
      assert Numeral(base, w, a) + u == u && Numeral(base, w, b) + v == v;
    } else {
      var qa, ra := LastDigit(base, w, a, u);
      var qb, rb := LastDigit(base, w, b, v);
      FieldDecides(base, w - 1, qa, qb, [Digit(ra)] + u, [Digit(rb)] + v);
      DigitDecides(ra, rb, u, v);
      assert Less(Numeral(base, w, a) + u, Numeral(base, w, b) + v) <==>
             qa < qb || (qa == qb && (ra < rb || (ra == rb && Less(u, v))));
      QuotientFirst(base, a, b);
    }
  }

  lemma DigitDecides(c: nat, d: nat, u: string, v: string)
    requires c < 16 && d < 16
    ensures Less([Digit(c)] + u, [Digit(d)] + v) <==> c < d || (c == d && Less(u, v))
  {
    DigitOrder(c, d);
    assert ([Digit(c)] + u)[1..] == u && ([Digit(d)] + v)[1..] == v;
  }

  lemma LastDigit(base: nat, w: nat, a: nat, u: string) returns (q: nat, r: nat)
    requires Base(base) && w > 0 && a < Pow(base, w)
    ensures q == a / base && r == a % base < 16 && q < Pow(base, w - 1)
    ensures Numeral(base, w, a) + u == Numeral(base, w - 1, q) + ([Digit(r)] + u)
  {
    Division(base, a, Pow(base, w - 1));
    q, r := a / base, a % base;
  }

  /** The digit's value, and the number a string of digits denotes. */
  ghost function DigitValue(c: char): int {
    if c <= '9' then c as int - '0' as int else c as int - 'a' as int + 10
  }

  ghost function Denoted(base: nat, s: string): int
    requires Base(base)
  {
    if s == "" then 0 else base * Denoted(base, s[..|s| - 1]) + DigitValue(s[|s| - 1])
  }

  lemma DenotedStep(base: nat, s: string, d: nat)
    requires Base(base) && d < base
    ensures Denoted(base, s + [Digit(d)]) == base * Denoted(base, s) + d
  {
    assert (s + [Digit(d)])[..|s|] == s;
  }

  /** A numeral wide enough denotes its number. */
  lemma {:induction false} NumeralDenotes(base: nat, w: nat, n: nat)
    requires Base(base) && n < Pow(base, w)
    ensures Denoted(base, Numeral(base, w, n)) == n
  {
    if w > 0 {
      Division(base, n, Pow(base, w - 1));
      NumeralDenotes(base, w - 1, n / base);
      DenotedStep(base, Numeral(base, w - 1, n / base), n % base);
    }
  }

  lemma QuotientFirst(base: nat, a: nat, b: nat)
    requires Base(base)
    ensures a < b <==> a / base < b / base || (a / base == b / base && a % base < b % base)
    ensures a == b <==> a / base == b / base && a % base == b % base
  {
  }

  lemma NumeralsDiffer(base: nat, w: nat, a: nat, b: nat)
    requires Base(base) && a < b < Pow(base, w)
    ensures Numeral(base, w, a) != Numeral(base, w, b)
    ensures Less(Numeral(base, w, a), Numeral(base, w, b))
  {
    var s, t := Numeral(base, w, a), Numeral(base, w, b);
    FieldDecides(base, w, a, b, "", "");
    assert s + "" == s && t + "" == t;
    Irreflexive(s);
  }

  lemma Division(base: nat, a: nat, p: nat)
    requires Base(base) && a < base * p
    ensures a / base < p && a == base * (a / base) + a % base
  {
    if base == 10 {
      assert a / 10 < p;
    } else {
      assert a / 16 < p;
    }
  }

  /** Only the value modulo base^w shows. */
  lemma {:induction false} WrapsAround(base: nat, w: nat, n: int)
    requires Base(base)
    ensures Numeral(base, w, n + Pow(base, w)) == Numeral(base, w, n)
  {
    if w != 0 {
      ShiftDivides(base, n, Pow(base, w - 1));
      WrapsAround(base, w - 1, n / base);
    }
  }

  lemma ShiftDivides(base: nat, n: int, p: nat)
    requires Base(base)
    ensures (n + base * p) / base == n / base + p && (n + base * p) % base == n % base
  {
    if base == 10 {
      assert (n + 10 * p) / 10 == n / 10 + p;
    } else {
      assert (n + 16 * p) / 16 == n / 16 + p;
    }
  }
}
