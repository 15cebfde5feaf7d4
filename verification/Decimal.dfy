/** Decimal texts: printing and parsing of integers, and the numerals of provider prices. */
module Decimal {
  import opened Base

  predicate IsDigit(c: char) {
    '0' <= c <= '9'
  }

  predicate AllDigits(s: string) {
    forall i :: 0 <= i < |s| ==> IsDigit(s[i])
  }

  /** The number a string of decimal digits denotes. */
  function Value(s: string): nat
    requires AllDigits(s)
  {
    if s == "" then 0 else 10 * Value(s[..|s| - 1]) + (s[|s| - 1] as int - '0' as int)
  }

  /** `to_string` of an unsigned integer. */
  function Print(n: nat): (s: string)
    ensures s != "" && AllDigits(s)
    decreases n
  {
    var digit := ['0' + (n % 10) as char];
    if n < 10 then digit else Print(n / 10) + digit
  }

  lemma {:induction false} PrintDenotes(n: nat)
    ensures Value(Print(n)) == n
    ensures n > 0 ==> Print(n)[0] != '0'
    decreases n
  {
    var digit := ['0' + (n % 10) as char];
    if n < 10 {
      assert digit[..0] == "";
    } else {
      PrintDenotes(n / 10);
      assert (Print(n / 10) + digit)[..|Print(n)| - 1] == Print(n / 10);
    }
  }

  function Pow10(k: nat): (p: nat)
    ensures p >= 1
  {
    if k == 0 then 1 else 10 * Pow10(k - 1)
  }

  lemma {:induction false} Pow10Add(a: nat, b: nat)
    ensures Pow10(a + b) == Pow10(a) * Pow10(b)
  {
    if b > 0 {
      Pow10Add(a, b - 1);
      assert Pow10(a + b) == 10 * Pow10(a + b - 1);
      assert Pow10(a) * (10 * Pow10(b - 1)) == 10 * (Pow10(a) * Pow10(b - 1));
    }
  }

  lemma {:induction false} ValueConcat(a: string, b: string)
    requires AllDigits(a) && AllDigits(b)
    ensures AllDigits(a + b)
    ensures Value(a + b) == Value(a) * Pow10(|b|) + Value(b)
    decreases |b|
  {
    if b == "" {
      assert a + b == a;
    } else {
      var init := b[..|b| - 1];
      ValueConcat(a, init);
      assert (a + b)[..|a + b| - 1] == a + init;
      assert Value(a) * (10 * Pow10(|init|)) == 10 * (Value(a) * Pow10(|init|));
    }
  }

  /** `str::parse::<u64>`: an optional plus sign, then digits, within range. */
  function ParseU64(text: string): Option<u64> {
    var digits := if text != "" && text[0] == '+' then text[1..] else text;
    if digits == "" || !AllDigits(digits) || Value(digits) > U64_MAX then None else Some(Value(digits))
  }

  /** Printing then parsing is the identity, and parsing back is how a reader checks it. */
  lemma PrintParses(n: u64)
    ensures ParseU64(Print(n)) == Some(n)
  {
    PrintDenotes(n);
    assert IsDigit(Print(n)[0]);
  }

  /** `str::split` on a set of separators: always at least one part. */
  function Split(s: string, separators: set<char>): (parts: seq<string>)
    ensures |parts| >= 1
  {
    if s == "" then [""]
    else
      var rest := Split(s[1..], separators);
      if s[0] in separators then [""] + rest else [[s[0]] + rest[0]] + rest[1..]
  }

  predicate Free(s: string, separators: set<char>) {
    forall i :: 0 <= i < |s| ==> s[i] !in separators
  }

  lemma {:induction false} SplitFree(a: string, b: string, separators: set<char>)
    requires Free(a, separators)
    ensures Split(a + b, separators) == [a + Split(b, separators)[0]] + Split(b, separators)[1..]
  {
    var rest := Split(b, separators);
    if a == "" {
      assert a + b == b && a + rest[0] == rest[0];
      assert rest == [rest[0]] + rest[1..];
    } else {
      assert (a + b)[1..] == a[1..] + b;
      SplitFree(a[1..], b, separators);
      assert [a[0]] + (a[1..] + Split(b, separators)[0]) == a + Split(b, separators)[0];
    }
  }

  /** A separator-free text is its own only part; one separator cuts a text in two. */
  lemma SplitOnce(a: string, mark: char, b: string, separators: set<char>)
    requires Free(a, separators) && Free(b, separators) && mark in separators
    ensures Split(a, separators) == [a]
    ensures Split(a + [mark] + b, separators) == [a, b]
  {
    SplitFree(a, "", separators);
    SplitFree(b, "", separators);
    assert a + "" == a && b + "" == b;
    assert ([mark] + b)[1..] == b;
    assert Split([mark] + b, separators) == [""] + Split(b, separators);
    SplitFree(a, [mark] + b, separators);
    assert a + ([mark] + b) == a + [mark] + b;
  }

  lemma {:induction false} SplitInverse(s: string, separators: set<char>)
    ensures |Split(s, separators)| == 1 ==> Split(s, separators) == [s] && Free(s, separators)
    ensures |Split(s, separators)| == 2 ==>
              var parts := Split(s, separators);
              && Free(parts[0], separators) && Free(parts[1], separators)
              && |parts[0]| < |s| && s[|parts[0]|] in separators
              && s == parts[0] + [s[|parts[0]|]] + parts[1]
  {
    if s != "" {
      SplitInverse(s[1..], separators);
      assert s == [s[0]] + s[1..];
    }
  }
}
