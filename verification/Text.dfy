/** Strings the way the controllers use them: decimal printing and parsing
    (strconv.FormatInt, strconv.ParseInt with base 10 and 64 bits), splitting
    and joining on one separator, and cutting at the first separator. */
module Text {
  import opened Wrappers

  predicate IsDigit(c: char) { '0' <= c <= '9' }

  /** The decimal digits of n, most significant first, without leading zeros. */
  function Digits(n: nat): (s: string)
    ensures |s| > 0 && forall c <- s :: IsDigit(c)
  {
    if n < 10 then [('0' as int + n) as char]
    else Digits(n / 10) + [('0' as int + n % 10) as char]
  }

  /** strconv.FormatInt(i, 10). */
  function Decimal(i: int): string {
    if i < 0 then "-" + Digits(-i) else Digits(i)
  }

  /** The number a digit string denotes; leading zeros allowed. */
  function Number(s: string): nat
    requires forall c <- s :: IsDigit(c)
  {
    if s == [] then 0
    else
      var last := s[|s| - 1];
      assert IsDigit(last) by { assert last in s; }
      10 * Number(s[..|s| - 1]) + (last as int - '0' as int)
  }

  const MIN_INT64: int := -0x8000_0000_0000_0000
  const MAX_INT64: int := 0x7FFF_FFFF_FFFF_FFFF

  /** strconv.ParseInt(s, 10, 64): an optional sign, then digits only, in range. */
  function ParseInt(s: string): Option<int> {
    var negative := s != [] && s[0] == '-';
    var digits := if s != [] && (s[0] == '-' || s[0] == '+') then s[1..] else s;
    if digits == [] || exists c <- digits :: !IsDigit(c) then None
    else
      var i: int := if negative then 0 - Number(digits) else Number(digits);
      if MIN_INT64 <= i <= MAX_INT64 then Some(i) else None
  }

  // What the strings denote, read from the front: each digit weighs a power of ten.

  function Power(k: nat): nat {
    if k == 0 then 1 else 10 * Power(k - 1)
  }

  function Digit(c: char): nat
    requires '0' <= c <= '9'
  {
    c as int - '0' as int
  }

  function Value(digits: string): nat
    requires forall c <- digits :: '0' <= c <= '9'
  {
    if digits == [] then 0
    else
      assert digits[0] in digits && forall c <- digits[1..] :: c in digits;
      Digit(digits[0]) * Power(|digits| - 1) + Value(digits[1..])
  }

  /** s writes the integer i: a sign or none, then digits and nothing else. */
  ghost predicate Denotes(s: string, i: int) {
    exists sign: string, digits: string :: Writes(s, sign, digits, i)
  }

  ghost predicate Writes(s: string, sign: string, digits: string, i: int) {
    && s == sign + digits && (sign == "" || sign == "+" || sign == "-")
    && digits != "" && (forall c <- digits :: '0' <= c <= '9')
    && i == if sign == "-" then 0 - Value(digits) else Value(digits)
  }

  lemma {:induction false} ValueAppends(digits: string, c: char)
    requires (forall d <- digits :: '0' <= d <= '9') && '0' <= c <= '9'
    ensures Value(digits + [c]) == 10 * Value(digits) + Digit(c)
  {
    if digits == [] {
      assert digits + [c] == [c] && [c][1..] == [];
    } else {
      var rest := digits[1..];
      assert digits[0] in digits && forall d <- rest :: d in digits;
      assert (digits + [c])[1..] == rest + [c];
      ValueAppends(rest, c);
      Distributes(Digit(digits[0]), Power(|rest|), Value(rest));
    }
  }

  lemma Distributes(a: int, p: int, v: int)
    ensures a * (10 * p) + 10 * v == 10 * (a * p + v)
  {
  }

  lemma {:induction false} NumberIsValue(s: string)
    requires forall c <- s :: IsDigit(c)
    ensures Number(s) == Value(s)
  {
    if s != [] {
      var init, last := s[..|s| - 1], s[|s| - 1];
      assert s == init + [last] && last in s && forall c <- init :: c in s;
      NumberIsValue(init);
      ValueAppends(init, last);
    }
  }

  /** The sign and the digits of a string are determined. */
  lemma WritesOnce(s: string, sign: string, digits: string, i: int)
    requires Writes(s, sign, digits, i)
    ensures digits == if s[0] == '-' || s[0] == '+' then s[1..] else s
    ensures sign == "-" <==> s[0] == '-'
  {
    assert digits[0] in digits;
    if sign == "" { assert s == digits; } else { assert s[0] == sign[0]; }
  }

  /** Parsing succeeds exactly on what denotes an integer of 64 bits, and gives that one. */
  lemma ParseIntIff(s: string, i: int)
    ensures ParseInt(s) == Some(i) <==> Denotes(s, i) && -9223372036854775808 <= i <= 9223372036854775807
    ensures ParseInt(s).Some? ==> Denotes(s, ParseInt(s).value)
  {
    if sign, digits :| Writes(s, sign, digits, i) {
      WritesOnce(s, sign, digits, i);
      NumberIsValue(digits);
    }
    if ParseInt(s).Some? {
      var signed := s[0] == '-' || s[0] == '+';
      var sign, digits := if signed then s[..1] else "", if signed then s[1..] else s;
      NumberIsValue(digits);
      assert Writes(s, sign, digits, ParseInt(s).value);
    }
  }

  /** s writes an integer of 64 bits. */
  ghost predicate IsInt64(s: string) {
    exists i: int :: Denotes(s, i) && -9223372036854775808 <= i <= 9223372036854775807
  }

  lemma ParsesInt64(s: string)
    ensures ParseInt(s).Some? <==> IsInt64(s)
  {
    if i: int :| Denotes(s, i) && -9223372036854775808 <= i <= 9223372036854775807 { ParseIntIff(s, i); }
    if ParseInt(s).Some? { ParseIntIff(s, ParseInt(s).value); }
  }

  lemma DenotesOne(s: string, i: int, j: int)
    requires Denotes(s, i) && Denotes(s, j)
    ensures i == j
  {
    var sign, digits :| Writes(s, sign, digits, i);
    var sign', digits' :| Writes(s, sign', digits', j);
    WritesOnce(s, sign, digits, i);
    WritesOnce(s, sign', digits', j);
  }

  /** A printed integer denotes that integer. */
  lemma DecimalDenotes(i: int)
    ensures Denotes(Decimal(i), i)
  {
    var digits := Digits(if i < 0 then -i else i);
    NumberOfDigits(if i < 0 then -i else i);
    NumberIsValue(digits);
    assert Writes(Decimal(i), if i < 0 then "-" else "", digits, i);
  }

  lemma {:induction false} NumberOfDigits(n: nat)
    ensures Number(Digits(n)) == n
  {
    if n >= 10 {
      NumberOfDigits(n / 10);
      var s := Digits(n);
      assert s[..|s| - 1] == Digits(n / 10);
    }
  }

  lemma DigitsInjective(m: nat, n: nat)
    requires Digits(m) == Digits(n)
    ensures m == n
  {
    NumberOfDigits(m);
    NumberOfDigits(n);
  }

  /** Printing then parsing gives the number back exactly for 64-bit integers. */
  lemma ParsePrinted(i: int)
    ensures ParseInt(Decimal(i)) == if MIN_INT64 <= i <= MAX_INT64 then Some(i) else None
  {
    var s := Decimal(i);
    if i < 0 {
      NumberOfDigits(-i);
      assert s[1..] == Digits(-i);
    } else {
      NumberOfDigits(i);
      assert IsDigit(s[0]);
    }
  }

  /** strconv.ParseBool */
  function ParseBool(s: string): Option<bool> {
    if s in ["1", "t", "T", "TRUE", "true", "True"] then Some(true)
    else if s in ["0", "f", "F", "FALSE", "false", "False"] then Some(false)
    else None
  }

  function Capital(c: char): char {
    if 'a' <= c <= 'z' then (c as int - 'a' as int + 'A' as int) as char else c
  }

  function Capitals(s: string): string {
    if s == [] then [] else [Capital(s[0])] + Capitals(s[1..])
  }

  /** The word in small letters, in capitals, or with the first letter capital. */
  predicate Spells(s: string, word: string) {
    || s == word || s == Capitals(word)
    || (word != "" && s == [Capital(word[0])] + word[1..])
  }

  lemma SpellsTrue(s: string)
    ensures Spells(s, "true") <==> s in ["true", "TRUE", "True"]
  {
    assert Capitals("") == "";
    assert "e"[1..] == "" && Capitals("e") == "E";
    assert "ue"[1..] == "e" && Capitals("ue") == "UE";
    assert "rue"[1..] == "ue" && Capitals("rue") == "RUE";
    assert "true"[1..] == "rue" && Capitals("true") == "TRUE";
    assert [Capital('t')] + "rue" == "True";
  }

  lemma SpellsFalse(s: string)
    ensures Spells(s, "false") <==> s in ["false", "FALSE", "False"]
  {
    assert Capitals("") == "";
    assert "e"[1..] == "" && Capitals("e") == "E";
    assert "se"[1..] == "e" && Capitals("se") == "SE";
    assert "lse"[1..] == "se" && Capitals("lse") == "LSE";
    assert "alse"[1..] == "lse" && Capitals("alse") == "ALSE";
    assert "false"[1..] == "alse" && Capitals("false") == "FALSE";
    assert [Capital('f')] + "alse" == "False";
  }

  lemma SpellsT(s: string)
    ensures Spells(s, "t") <==> s in ["t", "T", "T"]
  {
    assert Capitals("") == "";
    assert "t"[1..] == "" && Capitals("t") == "T";
    assert [Capital('t')] + "" == "T";
  }

  lemma SpellsF(s: string)
    ensures Spells(s, "f") <==> s in ["f", "F", "F"]
  {
    assert Capitals("") == "";
    assert "f"[1..] == "" && Capitals("f") == "F";
    assert [Capital('f')] + "" == "F";
  }

  predicate IsTrue(s: string) {
    s == "1" || Spells(s, "t") || Spells(s, "true")
  }

  predicate IsFalse(s: string) {
    s == "0" || Spells(s, "f") || Spells(s, "false")
  }

  /** A flag is 1 or 0, or one of the words true and false or its first letter, in any
      of three spellings. */
  lemma ParseBoolIff(s: string)
    ensures ParseBool(s) == Some(true) <==> IsTrue(s)
    ensures ParseBool(s) == Some(false) <==> IsFalse(s)
    ensures ParseBool(s).Some? <==> IsTrue(s) || IsFalse(s)
  {
    hide Spells;
    SpellsTrue(s);
    SpellsFalse(s);
    SpellsT(s);
    SpellsF(s);
  }

  /** strings.Split(s, sep) for a one-character separator. */
  function Split(s: string, sep: char): (parts: seq<string>)
    ensures |parts| > 0
  {
    if s == [] then [[]]
    else
      var rest := Split(s[1..], sep);
      if s[0] == sep then [[]] + rest else [[s[0]] + rest[0]] + rest[1..]
  }

  /** strings.Join(parts, sep). */
  function Join(parts: seq<string>, sep: char): string {
    if parts == [] then []
    else if |parts| == 1 then parts[0]
    else parts[0] + [sep] + Join(parts[1..], sep)
  }

  lemma {:induction false} JoinSplit(s: string, sep: char)
    ensures Join(Split(s, sep), sep) == s
  {
    if s != [] {
      JoinSplit(s[1..], sep);
      var rest := Split(s[1..], sep);
      if s[0] == sep {
        assert ([[]] + rest)[1..] == rest;
      } else {
        assert ([[s[0]] + rest[0]] + rest[1..])[1..] == rest[1..];
      }
    }
  }

  /** No part of a split contains the separator: together with JoinSplit this
      makes Split the only way to cut s at every separator. */
  lemma {:induction false} SplitHasNoSeparator(s: string, sep: char)
    ensures forall p <- Split(s, sep) :: sep !in p
  {
    if s != [] {
      SplitHasNoSeparator(s[1..], sep);
      var rest := Split(s[1..], sep);
      forall p <- Split(s, sep) ensures sep !in p {
        if s[0] == sep {
          assert p == [] || p in rest;
        } else {
          assert rest[0] in rest;
          assert p == [s[0]] + rest[0] || p in rest;
        }
      }
    }
  }

  /** strings.SplitN(s, sep, 2): everything before the first separator, and
      everything after it when there is one. */
  function Cut(s: string, sep: char): (string, Option<string>) {
    if s == [] then ([], None)
    else if s[0] == sep then ([], Some(s[1..]))
    else var (before, after) := Cut(s[1..], sep); ([s[0]] + before, after)
  }

  lemma {:induction false} CutAtFirst(before: string, sep: char, after: string)
    requires sep !in before
    ensures Cut(before + [sep] + after, sep) == (before, Some(after))
  {
    var s := before + [sep] + after;
    if before == [] {
      assert s[1..] == after;
    } else {
      assert s[1..] == before[1..] + [sep] + after;
      CutAtFirst(before[1..], sep, after);
      assert before == [before[0]] + before[1..];
    }
  }

  lemma {:induction false} CutNowhere(s: string, sep: char)
    requires sep !in s
    ensures Cut(s, sep) == (s, None)
  {
    if s != [] {
      assert s[0] in s && forall c <- s[1..] :: c in s;
      CutNowhere(s[1..], sep);
      assert s == [s[0]] + s[1..];
    }
  }

  lemma {:induction false} CutHasNoSeparator(s: string, sep: char)
    ensures sep !in Cut(s, sep).0
  {
    if s != [] && s[0] != sep {
      CutHasNoSeparator(s[1..], sep);
    }
  }

  lemma {:induction false} CutRejoins(s: string, sep: char)
    requires sep in s
    ensures Cut(s, sep).1.Some? && s == Cut(s, sep).0 + [sep] + Cut(s, sep).1.value
  {
    if s[0] != sep {
      CutRejoins(s[1..], sep);
      assert s == [s[0]] + s[1..];
    }
  }

  lemma SuffixInjective(a: string, b: string, suffix: string)
    requires a + suffix == b + suffix
    ensures a == b
  {
    assert |a + suffix| == |a| + |suffix|;
    assert |b + suffix| == |b| + |suffix|;
    assert a == (a + suffix)[..|a|];
    assert b == (b + suffix)[..|b|];
  }
}
