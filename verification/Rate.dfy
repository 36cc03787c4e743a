/** Command-line rates such as "100G" or "10k" (`kmg_to_bits` and `getrate_in_bits` in src/params.rs).
    Arithmetic is that of a release build: a `u64` product wraps. */
module Rate {
  import opened Stats
  import opened Wire

  /** `Panic` stands for every `unwrap` of a `None` or an `Err`. */
  datatype Parsed = Value(bits: nat) | Panic

  predicate IsDigit(c: char)
  {
    '0' <= c <= '9'
  }

  function DigitValue(c: char): (d: nat)
    requires IsDigit(c)
  {
    (c as int) - ('0' as int)
  }

  /** The left-to-right accumulation of `str::parse::<u64>`, failing on a non-digit or on overflow. */
  function Accumulate(s: string, acc: nat): (r: Option<nat>)
    decreases |s|
  {
    if s == "" then Some(acc)
    else if !IsDigit(s[0]) then None
    else
      var next := acc * 10 + DigitValue(s[0]);
      if next >= U64 then None else Accumulate(s[1..], next)
  }

  /** `str::parse::<u64>`: one leading '+' is allowed, the empty string is not. */
  function ParseU64(s: string): Option<nat>
  {
    if s == "" || s == "+" then None
    else if s[0] == '+' then Accumulate(s[1..], 0)
    else Accumulate(s, 0)
  }

  function KmgToBits(rate: nat, kmg: char): nat
  {
    if kmg == 'k' || kmg == 'K' then (rate * 1024) % U64
    else if kmg == 'm' || kmg == 'M' then (rate * 1024 * 1024) % U64
    else if kmg == 'g' || kmg == 'G' then (rate * 1024 * 1024 * 1024) % U64
    else rate
  }

  predicate IsKmg(c: char)
  {
    c == 'k' || c == 'K' || c == 'm' || c == 'M' || c == 'g' || c == 'G'
  }

  predicate IsAsciiLetter(c: char)
  {
    'a' <= c <= 'z' || 'A' <= c <= 'Z'
  }

  /** `unicode` says which characters outside ASCII are alphabetic. */
  function GetRateInBits(rate: string, unicode: char -> bool): Parsed
  {
    if rate == "abcdef" then Value(0)
    else if rate == "" then Panic
    else
      var kmg := rate[|rate| - 1];
      if IsKmg(kmg) then
        match ParseU64(rate[..|rate| - 1])
        case Some(n) => Value(KmgToBits(n, kmg))
        case None => Panic
      else if IsAsciiLetter(kmg) || (kmg as int >= 128 && unicode(kmg)) then Value(0)
      else
        match ParseU64(rate)
        case Some(n) => Value(n)
        case None => Panic
  }

  /** Reference meaning of a digit string: its positional value. */
  function Numeral(s: string): nat
    requires forall k :: 0 <= k < |s| ==> IsDigit(s[k])
  {
    if s == "" then 0 else Numeral(s[..|s| - 1]) * 10 + DigitValue(s[|s| - 1])
  }

  function Digits(n: nat): (s: string)
    ensures s != "" && forall k :: 0 <= k < |s| ==> IsDigit(s[k])
    ensures Numeral(s) == n
  {
    var c := ('0' as int + n % 10) as char;
    if n < 10 then [c]
    else
      var s := Digits(n / 10) + [c];
      assert s[..|s| - 1] == Digits(n / 10);
      s
  }

  function Pow10(k: nat): nat
  {
    if k == 0 then 1 else 10 * Pow10(k - 1)
  }

  lemma {:induction false} Pow10Positive(k: nat)
    ensures Pow10(k) >= 1
  {
    if k > 0 {
      Pow10Positive(k - 1);
    }
  }

  lemma TenTimes(d: nat, p: nat, x: nat)
    ensures (d * p + x) * 10 == d * (10 * p) + x * 10
  {
  }

  lemma {:induction false} NumeralSplit(s: string)
    requires s != "" && forall k :: 0 <= k < |s| ==> IsDigit(s[k])
    ensures Numeral(s) == DigitValue(s[0]) * Pow10(|s| - 1) + Numeral(s[1..])
    decreases |s|
  {
    if |s| > 1 {
      var init := s[..|s| - 1];
      NumeralSplit(init);
      assert init[1..] == s[1..][..|s| - 2];
      assert s[1..][|s| - 2] == s[|s| - 1];
      TenTimes(DigitValue(s[0]), Pow10(|s| - 2), Numeral(init[1..]));
    }
  }

  lemma ShiftDigit(acc: nat, d: nat, p: nat)
    requires p >= 1
    ensures (acc * 10 + d) * p == acc * (10 * p) + d * p
    ensures (acc * 10 + d) * p >= acc * 10 + d
  {
  }

  /** The accumulating parser accepts a digit string exactly when its value fits in a `u64`. */
  lemma {:induction false} AccumulateIsNumeral(s: string, acc: nat)
    requires acc < U64 && forall k :: 0 <= k < |s| ==> IsDigit(s[k])
    ensures Accumulate(s, acc) ==
            if acc * Pow10(|s|) + Numeral(s) < U64 then Some(acc * Pow10(|s|) + Numeral(s)) else None
    decreases |s|
  {
    if s == "" {
      assert acc * Pow10(0) == acc;
    } else {
      NumeralSplit(s);
      Pow10Positive(|s| - 1);
      ShiftDigit(acc, DigitValue(s[0]), Pow10(|s| - 1));
      var next := acc * 10 + DigitValue(s[0]);
      assert acc * Pow10(|s|) + Numeral(s) == next * Pow10(|s| - 1) + Numeral(s[1..]);
      if next < U64 {
        AccumulateIsNumeral(s[1..], next);
      }
    }
  }

  function Unit(c: char): (u: nat)
    requires IsKmg(c)
  {
    if c == 'k' || c == 'K' then 1024
    else if c == 'm' || c == 'M' then 1048576
    else 1073741824
  }

  function Multiplier(suffix: string): nat
    requires suffix == "" || (|suffix| == 1 && IsKmg(suffix[0]))
  {
    if suffix == "" then 1 else Unit(suffix[0])
  }

  lemma KmgWrapsIff(n: nat, c: char)
    requires IsKmg(c)
    ensures KmgToBits(n, c) == n * Unit(c) <==> n * Unit(c) < U64
    ensures n <= n * Unit(c)
  {
    assert KmgToBits(n, c) == (n * Unit(c)) % U64;
  }

  lemma ParseDigits(n: nat)
    ensures ParseU64(Digits(n)) == if n < U64 then Some(n) else None
  {
    var s := Digits(n);
    assert IsDigit(s[0]);
    AccumulateIsNumeral(s, 0);
    assert 0 * Pow10(|s|) == 0;
  }

  /** A number followed by a unit parses to the unit's wrapped product, or panics. */
  lemma SuffixedRate(n: nat, c: char, unicode: char -> bool)
    requires IsKmg(c)
    ensures GetRateInBits(Digits(n) + [c], unicode) == if n < U64 then Value(KmgToBits(n, c)) else Panic
  {
    var rate := Digits(n) + [c];
    assert IsDigit(rate[0]) && !IsDigit("abcdef"[0]);
    ParseDigits(n);
    assert rate[..|rate| - 1] == Digits(n) && rate[|rate| - 1] == c;
  }

  lemma PlainRate(n: nat, unicode: char -> bool)
    ensures GetRateInBits(Digits(n), unicode) == if n < U64 then Value(n) else Panic
  {
    var rate := Digits(n);
    assert IsDigit(rate[0]) && !IsDigit("abcdef"[0]);
    assert IsDigit(rate[|rate| - 1]);
    ParseDigits(n);
  }

  /** Printing a number with a suffix and reading it back gives the number of bits it denotes
      exactly when that number fits in a `u64`; otherwise the read wraps or panics. */
  lemma RateRoundTrip(n: nat, suffix: string, unicode: char -> bool)
    requires suffix == "" || (|suffix| == 1 && IsKmg(suffix[0]))
    ensures GetRateInBits(Digits(n) + suffix, unicode) == Value(n * Multiplier(suffix))
      <==> n * Multiplier(suffix) < U64
  {
    if suffix == "" {
      assert Digits(n) + suffix == Digits(n);
      PlainRate(n, unicode);
    } else {
      assert suffix == [suffix[0]];
      SuffixedRate(n, suffix[0], unicode);
      KmgWrapsIff(n, suffix[0]);
    }
  }

  // ----- what is not a number

  /** The default, and anything that ends in a letter other than a unit, is no rate at all. */
  lemma NoRate(rate: string, unicode: char -> bool)
    requires rate == "abcdef" || (rate != "" && IsAsciiLetter(rate[|rate| - 1]) && !IsKmg(rate[|rate| - 1]))
             || (rate != "" && rate[|rate| - 1] as int >= 128 && unicode(rate[|rate| - 1]))
    ensures GetRateInBits(rate, unicode) == Value(0)
  {
  }

  lemma {:induction false} NonDigitFails(s: string, acc: nat, k: nat)
    requires k < |s| && !IsDigit(s[k])
    ensures Accumulate(s, acc) == None
    decreases |s|
  {
    if k > 0 && IsDigit(s[0]) {
      NonDigitFails(s[1..], acc * 10 + DigitValue(s[0]), k - 1);
    }
  }

  /** Before a unit, or without one, nothing but digits parses, except for one leading plus sign. */
  lemma GarbagePanics(s: string, c: char, k: nat, unicode: char -> bool)
    requires k < |s| && !IsDigit(s[k]) && (k == 0 ==> s[0] != '+') && IsKmg(c) && s + [c] != "abcdef"
    ensures GetRateInBits(s + [c], unicode) == Panic
  {
    assert (s + [c])[..|s|] == s && (s + [c])[|s|] == c;
    if s[0] == '+' {
      if s != "+" {
        NonDigitFails(s[1..], 0, k - 1);
      }
    } else {
      NonDigitFails(s, 0, k);
    }
  }

  lemma PlusIsIgnored(n: nat, c: char, unicode: char -> bool)
    requires IsKmg(c)
    ensures GetRateInBits("+" + Digits(n) + [c], unicode) == GetRateInBits(Digits(n) + [c], unicode)
  {
    var s := "+" + Digits(n);
    ParseDigits(n);
    SuffixedRate(n, c, unicode);
    assert IsDigit(Digits(n)[0]);
    assert (s + [c])[..|s|] == s && (s + [c])[|s|] == c && s[1..] == Digits(n);
  }

  /** Nothing at all, and a unit alone, panic. */
  lemma EmptyPanics(c: char, unicode: char -> bool)
    requires IsKmg(c)
    ensures GetRateInBits("", unicode) == GetRateInBits([c], unicode) == Panic
  {
    assert [c][..0] == "";
  }
}
