/** Decimal numbers as the C library reads and prints them. */
module Numbers {
  import opened Basics

  predicate IsDigit(c: char) {
    '0' <= c <= '9'
  }

  /** White space in the "C" locale. */
  predicate IsSpace(c: char) {
    c == ' ' || '\t' <= c <= '\r'
  }

  lemma CharForms(c: char)
    ensures IsSpace(c) <==> c in {' ', '\t', '\n', '\U{000B}', '\U{000C}', '\r'}
    ensures IsDigit(c) <==> c in {'0', '1', '2', '3', '4', '5', '6', '7', '8', '9'}
  {
  }

  predicate AllDigits(t: string) {
    forall i :: 0 <= i < |t| ==> IsDigit(t[i])
  }

  function Natural(t: string): nat
    requires AllDigits(t)
    decreases |t|
  {
    if t == "" then 0 else 10 * Natural(t[..|t| - 1]) + (t[|t| - 1] as int - '0' as int)
  }

  function Decimal(n: nat): string
    decreases n
  {
    var digit := [(n % 10 + '0' as int) as char];
    if n < 10 then digit else Decimal(n / 10) + digit
  }

  /** The first position at or after `p` that is not white space. */
  function SpacesEnd(s: string, p: nat): (e: nat)
    requires p <= |s|
    ensures p <= e <= |s| && (forall i :: p <= i < e ==> IsSpace(s[i])) && (e < |s| ==> !IsSpace(s[e]))
    decreases |s| - p
  {
    if p < |s| && IsSpace(s[p]) then SpacesEnd(s, p + 1) else p
  }

  /** The first position at or after `p` that is not a digit. */
  function DigitsEnd(s: string, p: nat): (e: nat)
    requires p <= |s|
    ensures p <= e <= |s| && (forall i :: p <= i < e ==> IsDigit(s[i])) && (e < |s| ==> !IsDigit(s[e]))
    decreases |s| - p
  {
    if p < |s| && IsDigit(s[p]) then DigitsEnd(s, p + 1) else p
  }

  /** A number in the text, and where it ends. */
  datatype Number = Number(negative: bool, magnitude: nat, end: nat)

  /** What `strtol` and `strtoull` have in common: white space, a sign, and as many digits as there are. */
  function Scan(s: string): (r: Option<Number>)
    ensures r.Some? ==> 0 < r.value.end <= |s| && (r.value.end < |s| ==> !IsDigit(s[r.value.end]))
  {
    var a := SpacesEnd(s, 0);
    var b := if a < |s| && (s[a] == '+' || s[a] == '-') then a + 1 else a;
    var e := DigitsEnd(s, b);
    if e == b then None else Some(Number(s[a] == '-', Natural(s[b..e]), e))
  }

  lemma {:induction false} DecimalReads(n: nat)
    ensures Decimal(n) != "" && AllDigits(Decimal(n)) && Natural(Decimal(n)) == n
    decreases n
  {
    var d := Decimal(n);
    if n >= 10 {
      DecimalReads(n / 10);
      assert d[..|d| - 1] == Decimal(n / 10);
    } else {
      assert d[..|d| - 1] == "";
    }
  }

  /** No leading zeros: zero is one digit, and every other number starts with another one. */
  lemma {:induction false} DecimalCanonical(n: nat)
    ensures n == 0 ==> Decimal(n) == "0"
    ensures n > 0 ==> Decimal(n) != "" && Decimal(n)[0] != '0'
    decreases n
  {
    if n >= 10 {
      DecimalCanonical(n / 10);
    }
  }

  /** There is no other text of digits like this: printing is all that is left to reading. */
  lemma {:induction false} DecimalUnique(t: string, n: nat)
    requires t != "" && AllDigits(t) && Natural(t) == n && (t == "0" || t[0] != '0')
    ensures t == Decimal(n)
    decreases |t|
  {
    hide Natural, Decimal;
    var front, last := t[..|t| - 1], t[|t| - 1];
    NaturalLast(t);
    if front != "" {
      assert front[0] == t[0] != '0';
      NaturalPositive(front);
      DecimalUnique(front, Natural(front));
    }
    DecimalLast(Natural(front), last);
  }

  lemma NaturalLast(t: string)
    requires t != "" && AllDigits(t)
    ensures var front, last := t[..|t| - 1], t[|t| - 1];
            && t == front + [last] && AllDigits(front) && IsDigit(last) && (front == "" ==> Natural(front) == 0)
            && Natural(t) == 10 * Natural(front) + (last as int - '0' as int)
  {
  }

  lemma DecimalLast(a: nat, c: char)
    requires IsDigit(c)
    ensures var n := 10 * a + (c as int - '0' as int); Decimal(n) == (if a == 0 then "" else Decimal(a)) + [c]
  {
  }

  lemma {:induction false} NaturalPositive(t: string)
    requires t != "" && AllDigits(t) && t[0] != '0'
    ensures Natural(t) > 0
    decreases |t|
  {
    if |t| > 1 {
      NaturalPositive(t[..|t| - 1]);
    }
  }

  function Power(n: nat): nat {
    if n == 0 then 1 else 10 * Power(n - 1)
  }

  /** Place value: a digit in front counts as much as there are digits behind it. */
  lemma {:induction false} PlaceValue(c: char, t: string)
    requires IsDigit(c) && AllDigits(t)
    ensures AllDigits([c] + t) && Natural([c] + t) == (c as int - '0' as int) * Power(|t|) + Natural(t)
    decreases |t|
  {
    var all := [c] + t;
    if t == "" {
      assert all[..0] == "";
    } else {
      var front := t[..|t| - 1];
      assert all[..|all| - 1] == [c] + front;
      PlaceValue(c, front);
      var d, p := c as int - '0' as int, Power(|front|);
      assert 10 * (d * p) == d * (10 * p);
    }
  }

  lemma {:induction false} DigitsEndAt(s: string, p: nat, e: nat)
    requires p <= e <= |s| && (forall i :: p <= i < e ==> IsDigit(s[i])) && (e < |s| ==> !IsDigit(s[e]))
    ensures DigitsEnd(s, p) == e
    decreases e - p
  {
    if p < e {
      DigitsEndAt(s, p + 1, e);
    }
  }

  /** A printed number is read back, and reading stops right behind it. */
  lemma ScanPrinted(n: nat, rest: string)
    requires rest != "" ==> !IsDigit(rest[0])
    ensures Scan(Decimal(n) + rest) == Some(Number(false, n, |Decimal(n)|))
  {
    hide Natural;
    var d := Decimal(n);
    var s := d + rest;
    DecimalReads(n);
    DigitsEndAt(s, 0, |d|);
    assert s[0..|d|] == d;
  }

  /** Exactly which texts are scanned to which number: white space, a sign, digits, and no digit after. */
  predicate Scanned(s: string, a: nat, b: nat, m: Number) {
    && a <= b < m.end <= |s| && b <= a + 1
    && (forall i :: 0 <= i < a ==> IsSpace(s[i]))
    && (b == a + 1 ==> s[a] == '+' || s[a] == '-')
    && AllDigits(s[b..m.end]) && (m.end < |s| ==> !IsDigit(s[m.end]))
    && m.magnitude == Natural(s[b..m.end]) && m.negative == (s[a] == '-')
  }

  lemma ScanExact(s: string, m: Number)
    ensures Scan(s) == Some(m) <==> exists a: nat, b: nat :: Scanned(s, a, b, m)
  {
    hide Natural, Scanned, Scan;
    if a: nat, b: nat :| Scanned(s, a, b, m) {
      ScannedScans(s, a, b, m);
    }
    if Scan(s) == Some(m) {
      ScanScanned(s, m);
    }
  }

  lemma ScannedScans(s: string, a: nat, b: nat, m: Number)
    requires Scanned(s, a, b, m)
    ensures Scan(s) == Some(m)
  {
    hide Natural;
    assert s[b..m.end][0] == s[b];
    SpacesEndAt(s, 0, a);
    forall i | b <= i < m.end ensures IsDigit(s[i]) {
      assert s[i] == s[b..m.end][i - b];
    }
    DigitsEndAt(s, b, m.end);
  }

  lemma ScanScanned(s: string, m: Number)
    requires Scan(s) == Some(m)
    ensures exists a: nat, b: nat :: Scanned(s, a, b, m)
  {
    hide Natural;
    var a := SpacesEnd(s, 0);
    var b := if a < |s| && (s[a] == '+' || s[a] == '-') then a + 1 else a;
    assert b < m.end && forall i :: b <= i < m.end ==> IsDigit(s[i]);
    forall i | 0 <= i < m.end - b ensures IsDigit(s[b..m.end][i]) {
      assert s[b..m.end][i] == s[b + i];
    }
    assert Scanned(s, a, b, m);
  }

  lemma {:induction false} SpacesEndAt(s: string, p: nat, e: nat)
    requires p <= e <= |s| && (forall i :: p <= i < e ==> IsSpace(s[i])) && (e < |s| ==> !IsSpace(s[e]))
    ensures SpacesEnd(s, p) == e
    decreases e - p
  {
    if p < e {
      SpacesEndAt(s, p + 1, e);
    }
  }
}
