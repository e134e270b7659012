/**
 * The web app's `commas` helper: a thousands separator inserted by one
 * global regular-expression replace, `\B(?=(\d{3})+(?!\d))`, guarded by a
 * falsy check. A comma goes before position `i` of the input's string form
 * exactly when `i` is not a word boundary and the digits starting at `i`
 * form a non-empty run whose length is a multiple of three.
 */
module Commas {

  /** The helper's argument: a number (integers only here) or a string. */
  datatype Input = Number(n: int) | Text(s: string)

  predicate IsDigit(c: char)
  {
    '0' <= c <= '9'
  }

  /** A regular-expression word character: ASCII letter, digit or underscore. */
  predicate IsWordChar(c: char)
  {
    'a' <= c <= 'z' || 'A' <= c <= 'Z' || IsDigit(c) || c == '_'
  }

  predicate AllDigits(s: string)
  {
    forall k :: 0 <= k < |s| ==> IsDigit(s[k])
  }

  function DigitChar(d: nat): char
    requires d < 10
  {
    "0123456789"[d]
  }

  /** The decimal digits of a natural number, most significant first. */
  function Digits(n: nat): (r: string)
    ensures |r| >= 1 && AllDigits(r)
    ensures r[0] == '0' ==> n == 0
  {
    if n < 10 then [DigitChar(n)] else Digits(n / 10) + [DigitChar(n % 10)]
  }

  /** `toString` of an integer: its digits, after a minus sign when negative. */
  function DecimalString(n: int): string
  {
    if n < 0 then "-" + Digits(-n) else Digits(n)
  }

  function ToString(x: Input): string
  {
    match x
    case Number(n) => DecimalString(n)
    case Text(s) => s
  }

  /** The falsy inputs the helper can receive: the number 0 and the empty string. */
  predicate Falsy(x: Input)
  {
    x == Number(0) || x == Text("")
  }

  /** The number of consecutive digits at the start of `s`. */
  function DigitRun(s: string): (k: nat)
    ensures k <= |s|
  {
    if s == [] || !IsDigit(s[0]) then 0 else 1 + DigitRun(s[1..])
  }

  /** The replace matches at position `i`: not a word boundary, and a multiple of three digits follows. */
  predicate Mark(s: string, i: nat)
    requires i < |s|
  {
    0 < i && IsWordChar(s[i - 1]) && DigitRun(s[i..]) >= 3 && DigitRun(s[i..]) % 3 == 0
  }

  function RemoveCommas(s: string): string
  {
    if s == [] then [] else (if s[0] == ',' then [] else [s[0]]) + RemoveCommas(s[1..])
  }

  lemma {:induction false} RemoveCommasAppend(a: string, b: string)
    ensures RemoveCommas(a + b) == RemoveCommas(a) + RemoveCommas(b)
    decreases |a|
  {
    if a != [] {
      var h: string := if a[0] == ',' then [] else [a[0]];
      assert (a + b)[0] == a[0];
      assert (a + b)[1..] == a[1..] + b;
      assert RemoveCommas(a + b) == h + RemoveCommas(a[1..] + b);
      assert RemoveCommas(a) == h + RemoveCommas(a[1..]);
      RemoveCommasAppend(a[1..], b);
    } else {
      assert a + b == b;
    }
  }

  /** A string without commas is left as it is. */
  lemma {:induction false} RemoveCommasNone(s: string)
    requires forall k :: 0 <= k < |s| ==> s[k] != ','
    ensures RemoveCommas(s) == s
    decreases |s|
  {
    if s != [] {
      RemoveCommasNone(s[1..]);
    }
  }

  /** The global replace applied to `s` from position `i` on. */
  function SepFrom(s: string, i: nat): string
    requires i <= |s|
    decreases |s| - i
  {
    if i == |s| then [] else (if Mark(s, i) then [','] else []) + [s[i]] + SepFrom(s, i + 1)
  }

  /** The replace only ever inserts commas. */
  lemma {:induction false} SepFromInsertsOnlyCommas(s: string, i: nat)
    requires i <= |s|
    ensures RemoveCommas(SepFrom(s, i)) == RemoveCommas(s[i..])
    decreases |s| - i
  {
    if i < |s| {
      var head := (if Mark(s, i) then [','] else []) + [s[i]];
      SepFromInsertsOnlyCommas(s, i + 1);
      assert SepFrom(s, i) == head + SepFrom(s, i + 1);
      RemoveCommasAppend(head, SepFrom(s, i + 1));
      assert RemoveCommas(head) == RemoveCommas([s[i]]) by {
        if Mark(s, i) {
          RemoveCommasAppend([','], [s[i]]);
        }
      }
      assert s[i..] == [s[i]] + s[i + 1..];
      RemoveCommasAppend([s[i]], s[i + 1..]);
    }
  }

  /** `commas`: a falsy input comes back as its string form; anything else gets its separators. */
  function Commas(x: Input): (r: string)
    ensures Falsy(x) ==> r == ToString(x)
    ensures RemoveCommas(r) == RemoveCommas(ToString(x))
  {
    SepFromInsertsOnlyCommas(ToString(x), 0);
    assert ToString(x)[0..] == ToString(x);
    if Falsy(x) then ToString(x) else SepFrom(ToString(x), 0)
  }

  /** Deleting the commas from the result of a number gives back its decimal string. */
  lemma NumberRoundTrip(n: int)
    ensures RemoveCommas(Commas(Number(n))) == DecimalString(n)
  {
    var s := DecimalString(n);
    assert forall k :: 0 <= k < |s| ==> s[k] != ',' by {
      if n < 0 {
        assert s == "-" + Digits(-n);
        assert forall k :: 1 <= k < |s| ==> s[k] == Digits(-n)[k - 1];
      }
    }
    RemoveCommasNone(s);
  }

  /** A text with no digits from position i on comes back unchanged from there. */
  lemma {:induction false} NoDigitsUnchanged(s: string, i: nat)
    requires i <= |s|
    requires forall k :: i <= k < |s| ==> !IsDigit(s[k])
    ensures SepFrom(s, i) == s[i..]
    decreases |s| - i
  {
    if i < |s| {
      NoDigitsUnchanged(s, i + 1);
      assert s[i..] == [s[i]] + s[i + 1..];
    }
  }

  /** The digits after position `i` of an all-digit string run to its end. */
  lemma {:induction false} AllDigitsRun(s: string)
    requires AllDigits(s)
    ensures DigitRun(s) == |s|
    decreases |s|
  {
    if s != [] {
      AllDigitsRun(s[1..]);
    }
  }

  /** On a string of at most three digits the replace inserts nothing. */
  lemma {:induction false} ShortDigitsUnchanged(d: string, i: nat)
    requires AllDigits(d) && |d| <= 3 && i <= |d|
    ensures SepFrom(d, i) == d[i..]
    decreases |d| - i
  {
    if i < |d| {
      AllDigitsRun(d[i..]);
      assert !Mark(d, i);
      ShortDigitsUnchanged(d, i + 1);
      assert d[i..] == [d[i]] + d[i + 1..];
    }
  }

  /** Numbers above -1000 and below 1000 come back with no comma. */
  lemma SmallNumbersUnchanged(n: int)
    requires -1000 < n < 1000
    ensures Commas(Number(n)) == DecimalString(n)
    ensures ',' !in Commas(Number(n))
  {
    var m: nat := if n < 0 then -n else n;
    DigitsLength(m);
    ShortDigitsUnchanged(Digits(m), 0);
    if n < 0 && !Falsy(Number(n)) {
      SignShift(Digits(m), 0);
      ShortDigitsUnchanged(Digits(m), 0);
      assert SepFrom(DecimalString(n), 0) == "-" + Digits(m);
    }
    NumberRoundTrip(n);
  }

  /** A number below 1000 has at most three digits. */
  lemma {:induction false} DigitsLength(n: nat)
    ensures n < 1000 ==> |Digits(n)| <= 3
    ensures n >= 1000 ==> |Digits(n)| > 3
  {
    if n >= 10 {
      DigitsLength(n / 10);
    }
  }

  /**
   * The reference grouping: the last three digits after a comma, the rest
   * grouped the same way, and a group of one to three digits at the front.
   */
  function Group(d: string): (r: string)
    decreases |d|
  {
    if |d| <= 3 then d else Group(d[..|d| - 3]) + "," + d[|d| - 3..]
  }

  /** The length of the leading group of `len` digits: one to three. */
  function LeadLength(len: nat): (k: nat)
    requires len >= 1
    ensures 1 <= k <= 3 && k <= len && (len - k) % 3 == 0
  {
    (len - 1) % 3 + 1
  }

  /** Only digits and commas. */
  predicate DigitsOrCommas(r: string)
  {
    forall j :: 0 <= j < |r| ==> r[j] == ',' || IsDigit(r[j])
  }

  /** Every comma is followed by exactly three digits and then a comma or the end. */
  predicate CommasSpaced(r: string)
  {
    forall j :: 0 <= j < |r| && r[j] == ',' ==>
      j + 3 < |r| && IsDigit(r[j + 1]) && IsDigit(r[j + 2]) && IsDigit(r[j + 3]) && (j + 4 == |r| || r[j + 4] == ',')
  }

  /** A leading group of `k` digits, then a comma or the end. */
  predicate LeadGroup(r: string, k: nat)
  {
    k <= |r| && AllDigits(r[..k]) && (k == |r| || r[k] == ',')
  }

  /** Appending a comma and three digits keeps the spacing. */
  lemma AppendGroup(g: string, tail: string)
    requires DigitsOrCommas(g) && CommasSpaced(g) && |tail| == 3 && AllDigits(tail)
    ensures DigitsOrCommas(g + [','] + tail) && CommasSpaced(g + [','] + tail)
  {
    var r := g + [','] + tail;
    forall j | 0 <= j < |r| && r[j] == ','
      ensures j + 3 < |r| && IsDigit(r[j + 1]) && IsDigit(r[j + 2]) && IsDigit(r[j + 3]) && (j + 4 == |r| || r[j + 4] == ',')
    {
      if j < |g| {
        assert g[j] == ',';
      } else {
        assert j == |g|;
      }
    }
  }

  /**
   * The shape of a grouped number: a leading group of one to three digits,
   * then commas each followed by exactly three digits.
   */
  lemma {:induction false} GroupLayout(d: string)
    requires |d| >= 1 && AllDigits(d)
    ensures LeadGroup(Group(d), LeadLength(|d|))
    ensures DigitsOrCommas(Group(d)) && CommasSpaced(Group(d))
    decreases |d|
  {
    if |d| > 3 {
      var p := d[..|d| - 3];
      var tail := d[|d| - 3..];
      assert AllDigits(p);
      GroupLayout(p);
      var g := Group(p);
      assert Group(d) == g + [','] + tail;
      assert LeadLength(|d|) == LeadLength(|p|);
      AppendGroup(g, tail);
      assert (g + [','] + tail)[..LeadLength(|p|)] == g[..LeadLength(|p|)];
    } else {
      assert Group(d)[..LeadLength(|d|)] == d;
    }
  }

  /** Deleting the commas of a grouped number gives back its digits. */
  lemma {:induction false} GroupRoundTrip(d: string)
    requires AllDigits(d)
    ensures RemoveCommas(Group(d)) == d
    decreases |d|
  {
    if |d| > 3 {
      var p := d[..|d| - 3];
      var tail := d[|d| - 3..];
      assert AllDigits(p);
      GroupRoundTrip(p);
      var g := Group(p);
      RemoveCommasAppend(g + [','], tail);
      RemoveCommasAppend(g, [',']);
      RemoveCommasNone(tail);
      assert p + tail == d;
    } else {
      RemoveCommasNone(d);
    }
  }

  lemma AppendAssoc(a: string, b: string, c: string)
    ensures a + (b + c) == (a + b) + c
  {
  }

  /**
   * In an all-digit string, cutting off a multiple of three digits at the
   * end does not change whether the replace matches before the cut.
   */
  lemma MarkPrefix(d: string, m: nat, i: nat)
    requires AllDigits(d) && i < m <= |d| && (|d| - m) % 3 == 0
    ensures Mark(d, i) == Mark(d[..m], i)
  {
    var p := d[..m];
    AllDigitsRun(d[i..]);
    assert AllDigits(p[i..]);
    AllDigitsRun(p[i..]);
    var q := (|d| - m) / 3;
    assert |d| - i == (m - i) + 3 * q;
    if i > 0 {
      assert p[i - 1] == d[i - 1];
    }
  }

  /**
   * Splitting an all-digit string three, six, ... digits before its end:
   * the marks before the split are those of the prefix alone.
   */
  lemma {:induction false} SplitAt(d: string, m: nat, i: nat)
    requires AllDigits(d) && i <= m <= |d| && (|d| - m) % 3 == 0
    ensures SepFrom(d, i) == SepFrom(d[..m], i) + SepFrom(d, m)
    decreases m - i
  {
    if i < m {
      var p := d[..m];
      var head := (if Mark(d, i) then [','] else []) + [d[i]];
      var restD := SepFrom(d, i + 1);
      var restP := SepFrom(p, i + 1);
      var tail := SepFrom(d, m);
      assert restD == restP + tail by {
        SplitAt(d, m, i + 1);
      }
      assert SepFrom(d, i) == head + restD;
      assert SepFrom(p, i) == head + restP by {
        MarkPrefix(d, m, i);
        assert p[i] == d[i];
      }
      AppendAssoc(head, restP, tail);
    } else {
      assert SepFrom(d[..m], i) == [];
    }
  }

  /** The last three digits of a longer all-digit string get one comma in front. */
  lemma LastGroup(d: string)
    requires AllDigits(d) && |d| > 3
    ensures SepFrom(d, |d| - 3) == "," + d[|d| - 3..]
  {
    var L := |d|;
    AllDigitsRun(d[L - 3..]);
    AllDigitsRun(d[L - 2..]);
    AllDigitsRun(d[L - 1..]);
    assert Mark(d, L - 3) && !Mark(d, L - 2) && !Mark(d, L - 1);
    assert SepFrom(d, L - 1) == [d[L - 1]];
    assert SepFrom(d, L - 2) == [d[L - 2], d[L - 1]];
    assert d[L - 3..] == [d[L - 3], d[L - 2], d[L - 1]];
  }

  /** On an all-digit string the replace agrees with the reference grouping. */
  lemma {:induction false} SeparateDigits(d: string)
    requires AllDigits(d)
    ensures SepFrom(d, 0) == Group(d)
    decreases |d|
  {
    if |d| <= 3 {
      ShortDigitsUnchanged(d, 0);
    } else {
      var p := d[..|d| - 3];
      var tail := d[|d| - 3..];
      assert SepFrom(d, 0) == SepFrom(p, 0) + SepFrom(d, |d| - 3) by {
        SplitAt(d, |d| - 3, 0);
      }
      assert SepFrom(p, 0) == Group(p) by {
        assert AllDigits(p);
        SeparateDigits(p);
      }
      assert SepFrom(d, |d| - 3) == "," + tail by {
        LastGroup(d);
      }
      assert Group(d) == Group(p) + "," + tail;
      AppendAssoc(Group(p), ",", tail);
    }
  }

  /** A leading minus sign is never followed by a comma, and the digits after it group as before. */
  lemma {:induction false} SignShift(d: string, i: nat)
    requires AllDigits(d) && i <= |d|
    ensures SepFrom("-" + d, i + 1) == SepFrom(d, i)
    decreases |d| - i
  {
    var s := "-" + d;
    if i < |d| {
      assert s[i + 1] == d[i];
      assert s[i + 1..] == d[i..];
      if i == 0 {
        assert !Mark(s, 1) && !Mark(d, 0);
      } else {
        assert s[i] == d[i - 1];
        assert Mark(s, i + 1) == Mark(d, i);
      }
      SignShift(d, i + 1);
      assert SepFrom(s, i + 1) == (if Mark(s, i + 1) then [','] else []) + [s[i + 1]] + SepFrom(s, i + 2);
    }
  }

  /**
   * Every integer comes back as its sign followed by its digits in groups
   * of three, with a leading group of one to three digits.
   */
  lemma NumberGrouping(n: int)
    ensures n >= 0 ==> Commas(Number(n)) == Group(Digits(n))
    ensures n < 0 ==> Commas(Number(n)) == "-" + Group(Digits(-n))
  {
    if n < 0 {
      var d := Digits(-n);
      var s := "-" + d;
      assert Commas(Number(n)) == SepFrom(s, 0);
      assert SepFrom(s, 0) == "-" + SepFrom(s, 1) by {
        assert !Mark(s, 0) && s[0] == '-';
      }
      assert SepFrom(s, 1) == Group(d) by {
        SignShift(d, 0);
        SeparateDigits(d);
      }
    } else if n > 0 {
      assert Commas(Number(n)) == SepFrom(Digits(n), 0);
      SeparateDigits(Digits(n));
    }
  }

  /** The digits of the documented example. */
  lemma ExampleDigits(n: nat)
    requires n == 123456
    ensures Digits(n) == "123456"
  {
    var n5 := n / 10;
    var n4 := n5 / 10;
    var n3 := n4 / 10;
    var n2 := n3 / 10;
    var n1 := n2 / 10;
    assert n1 == 1 && n2 == 12 && n3 == 123 && n4 == 1234 && n5 == 12345;
    assert Digits(n1) == "1";
    assert Digits(n2) == "12";
    assert Digits(n3) == "123";
    assert Digits(n4) == "1234";
    assert Digits(n5) == "12345";
  }

  /** The example's digits with the one comma in place, character by character. */
  lemma ExampleLayout(d: string)
    requires d == "123456"
    ensures d[..3] + "," + d[3..] == "123,456"
  {
    var r := d[..3] + "," + d[3..];
    assert |r| == 7;
    assert r[0] == '1' && r[1] == '2' && r[2] == '3' && r[3] == ',' && r[4] == '4' && r[5] == '5' && r[6] == '6';
  }

  /** The documented example: 123456 comes back as "123,456". */
  lemma Example(n: int)
    requires n == 123456
    ensures Commas(Number(n)) == "123,456"
  {
    var d := Digits(n);
    assert Commas(Number(n)) == Group(d) by {
      NumberGrouping(n);
    }
    assert d == "123456" by {
      ExampleDigits(n);
    }
    assert Group(d) == "123,456" by {
      assert Group(d) == d[..3] + "," + d[3..];
      ExampleLayout(d);
    }
  }
}
