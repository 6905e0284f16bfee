/** The JavaScript string operations the screens use, on strings as `seq<char>`:
    `toLowerCase`, `includes`, `String(n)` of a non-negative integer, the `<=`
    comparison of strings, and the thousands-separator rewrite of a digit string. */
module Text {

  predicate IsUpper(c: char) { 'A' <= c <= 'Z' }

  predicate IsDigit(c: char) { '0' <= c <= '9' }

  /** Lower-cases the ASCII letters and leaves every other character alone. */
  function LowerChar(c: char): (r: char)
    ensures !IsUpper(r)
    ensures IsUpper(c) || r == c
  {
    if IsUpper(c) then (c as int - 'A' as int + 'a' as int) as char else c
  }

  /** `s.toLowerCase()`, character by character. */
  function Lower(s: string): (r: string)
    ensures |r| == |s|
    ensures forall i :: 0 <= i < |s| ==> r[i] == LowerChar(s[i])
  {
    if s == [] then [] else [LowerChar(s[0])] + Lower(s[1..])
  }

  lemma LowerIdempotent(s: string)
    ensures Lower(Lower(s)) == Lower(s)
  {
  }

  lemma LowerConcat(a: string, b: string)
    ensures Lower(a + b) == Lower(a) + Lower(b)
  {
  }

  /** A string without upper-case letters is its own lower-case form. */
  lemma LowerKeepsNonUpper(s: string)
    requires forall i :: 0 <= i < |s| ==> !IsUpper(s[i])
    ensures Lower(s) == s
  {
  }

  predicate StartsWith(s: string, prefix: string)
  {
    |prefix| <= |s| && s[..|prefix|] == prefix
  }

  /** `hay.includes(needle)`: `needle` starts at some position of `hay`. */
  function Includes(hay: string, needle: string): bool
    decreases |hay|
  {
    StartsWith(hay, needle) || (hay != [] && Includes(hay[1..], needle))
  }

  ghost predicate OccursAt(hay: string, needle: string, i: int)
  {
    0 <= i && i + |needle| <= |hay| && hay[i..i + |needle|] == needle
  }

  /** `Includes` is exactly "occurs as a contiguous block at some index". */
  lemma {:induction false} IncludesIff(hay: string, needle: string)
    ensures Includes(hay, needle) <==> exists i :: OccursAt(hay, needle, i)
    decreases |hay|
  {
    if hay != [] {
      IncludesIff(hay[1..], needle);
    }
    if Includes(hay, needle) {
      if StartsWith(hay, needle) {
        assert OccursAt(hay, needle, 0);
      } else {
        var j :| OccursAt(hay[1..], needle, j);
        assert hay[j + 1..j + 1 + |needle|] == hay[1..][j..j + |needle|];
        assert OccursAt(hay, needle, j + 1);
      }
    }
    if exists i :: OccursAt(hay, needle, i) {
      var i :| OccursAt(hay, needle, i);
      if i == 0 {
        assert hay[..|needle|] == hay[0..|needle|];
      } else {
        assert hay[1..][i - 1..i - 1 + |needle|] == hay[i..i + |needle|];
        assert OccursAt(hay[1..], needle, i - 1);
      }
    }
  }

  /** A string includes whatever it ends with. */
  lemma IncludesSuffix(front: string, back: string)
    ensures Includes(front + back, back)
  {
    IncludesIff(front + back, back);
    assert (front + back)[|front|..|front| + |back|] == back;
    assert OccursAt(front + back, back, |front|);
  }

  // ---------------------------------------------------------------------------
  // Decimal text of a non-negative integer

  function DigitChar(d: nat): (c: char)
    requires d < 10
    ensures IsDigit(c)
  {
    ('0' as int + d) as char
  }

  function DigitValue(c: char): (d: nat)
    requires IsDigit(c)
    ensures d < 10 && DigitChar(d) == c
  {
    c as int - '0' as int
  }

  predicate AllDigits(s: string)
  {
    forall i :: 0 <= i < |s| ==> IsDigit(s[i])
  }

  /** `String(n)` for a non-negative integer below 10^21: its decimal digits,
      with no leading zero. */
  function Decimal(n: nat): (s: string)
    ensures |s| >= 1 && AllDigits(s)
    ensures s[0] == '0' ==> n == 0
    decreases n
  {
    if n < 10 then [DigitChar(n)] else Decimal(n / 10) + [DigitChar(n % 10)]
  }

  /** The number a digit string denotes. */
  function DecimalValue(s: string): nat
    requires AllDigits(s)
    decreases |s|
  {
    if s == [] then 0 else DecimalValue(s[..|s| - 1]) * 10 + DigitValue(s[|s| - 1])
  }

  /** Reading back the decimal text of `n` gives `n`. */
  lemma {:induction false} DecimalRoundTrip(n: nat)
    ensures DecimalValue(Decimal(n)) == n
    decreases n
  {
    var s := Decimal(n);
    if n >= 10 {
      DecimalRoundTrip(n / 10);
      assert s[..|s| - 1] == Decimal(n / 10);
    }
  }

  /** `DecimalRoundTrip` for every number below `n`. */
  lemma DecimalsReadBack(n: nat)
    ensures forall i: nat :: i < n ==> DecimalValue(Decimal(i)) == i
  {
    forall i: nat | i < n
      ensures DecimalValue(Decimal(i)) == i
    {
      DecimalRoundTrip(i);
    }
  }

  function Pow10(k: nat): (p: nat)
    ensures p >= 1
  {
    if k == 0 then 1 else 10 * Pow10(k - 1)
  }

  /** `n` has at most `k` decimal digits exactly when it is below 10^k. */
  lemma {:induction false} DecimalLength(n: nat, k: nat)
    requires k >= 1
    ensures |Decimal(n)| <= k <==> n < Pow10(k)
    decreases n
  {
    if n >= 10 {
      if k == 1 {
        assert Pow10(1) == 10;
      } else {
        DecimalLength(n / 10, k - 1);
        assert n / 10 < Pow10(k - 1) <==> n < Pow10(k);
      }
    } else {
      if k > 1 {
        Pow10Grows(1, k);
      }
      assert Pow10(1) == 10;
    }
  }

  lemma {:induction false} Pow10Grows(j: nat, k: nat)
    requires j <= k
    ensures Pow10(j) <= Pow10(k)
    decreases k
  {
    if j < k {
      Pow10Grows(j, k - 1);
    }
  }

  // ---------------------------------------------------------------------------
  // String comparison

  /** JavaScript's `a <= b` on two strings: lexicographic by character, a
      proper prefix coming first. */
  predicate LexLeq(a: string, b: string)
    decreases |a|
  {
    a == [] || (b != [] && (a[0] < b[0] || (a[0] == b[0] && LexLeq(a[1..], b[1..]))))
  }

  lemma {:induction false} LexLeqRefl(a: string)
    ensures LexLeq(a, a)
    decreases |a|
  {
    if a != [] {
      LexLeqRefl(a[1..]);
    }
  }

  lemma {:induction false} LexLeqTotal(a: string, b: string)
    ensures LexLeq(a, b) || LexLeq(b, a)
    decreases |a|
  {
    if a != [] && b != [] && a[0] == b[0] {
      LexLeqTotal(a[1..], b[1..]);
    }
  }

  lemma {:induction false} LexLeqAntisym(a: string, b: string)
    requires LexLeq(a, b) && LexLeq(b, a)
    ensures a == b
    decreases |a|
  {
    if a != [] {
      LexLeqAntisym(a[1..], b[1..]);
      assert a == [a[0]] + a[1..];
      assert b == [b[0]] + b[1..];
    }
  }

  lemma {:induction false} LexLeqTrans(a: string, b: string, c: string)
    requires LexLeq(a, b) && LexLeq(b, c)
    ensures LexLeq(a, c)
    decreases |a|
  {
    if a != [] && a[0] == b[0] && b[0] == c[0] {
      LexLeqTrans(a[1..], b[1..], c[1..]);
    }
  }

  // ---------------------------------------------------------------------------
  // Thousands separators

  /** The separator owed after a digit that has `rest` digits after it. */
  function SeparatorBefore(rest: nat): (r: string)
    ensures r == "," || r == ""
  {
    if rest > 0 && rest % 3 == 0 then "," else ""
  }

  lemma SeparatorShift(n: nat, m: nat)
    requires n > 0 && m % 3 == 0
    ensures SeparatorBefore(n + m) == SeparatorBefore(n)
  {
  }

  /** `s.replace(/\B(?=(\d{3})+(?!\d))/g, ",")` on a digit string `s`, read
      left to right: a comma goes after a character when the digits still to
      come are a positive multiple of three. */
  function ThousandsSeparated(s: string): (r: string)
    decreases |s|
  {
    if s == [] then [] else [s[0]] + SeparatorBefore(|s| - 1) + ThousandsSeparated(s[1..])
  }

  /** The same text built the other way: split off three digits at a time
      from the right. */
  function GroupThousands(s: string): (r: string)
    decreases |s|
  {
    if |s| <= 3 then s else GroupThousands(s[..|s| - 3]) + "," + s[|s| - 3..]
  }

  /** Deletes every comma. */
  function RemoveCommas(s: string): (r: string)
    ensures ',' !in r
    ensures |r| <= |s|
  {
    if s == [] then [] else (if s[0] == ',' then "" else [s[0]]) + RemoveCommas(s[1..])
  }

  lemma {:induction false} RemoveCommasAppend(a: string, b: string)
    ensures RemoveCommas(a + b) == RemoveCommas(a) + RemoveCommas(b)
    decreases |a|
  {
    if a == [] {
      assert a + b == b;
    } else {
      assert (a + b)[1..] == a[1..] + b;
      RemoveCommasAppend(a[1..], b);
    }
  }

  lemma {:induction false} RemoveCommasNone(s: string)
    requires ',' !in s
    ensures RemoveCommas(s) == s
    decreases |s|
  {
    if s != [] {
      RemoveCommasNone(s[1..]);
    }
  }

  lemma {:induction false} ThousandsSeparatedShort(s: string)
    requires |s| <= 3
    ensures ThousandsSeparated(s) == s
    decreases |s|
  {
    if s != [] {
      ThousandsSeparatedShort(s[1..]);
    }
  }

  /** A comma falls between two blocks when the right block's length is a
      positive multiple of three. */
  lemma ThousandsSeparatedCons(s: string)
    requires s != []
    ensures ThousandsSeparated(s) == [s[0]] + SeparatorBefore(|s| - 1) + ThousandsSeparated(s[1..])
  {
  }

  lemma {:induction false} ThousandsSeparatedSplit(a: string, b: string)
    requires a != [] && |b| > 0 && |b| % 3 == 0
    ensures ThousandsSeparated(a + b) == ThousandsSeparated(a) + "," + ThousandsSeparated(b)
    decreases |a|
  {
    var s := a + b;
    assert s[0] == a[0] && s[1..] == a[1..] + b;
    assert |s| - 1 == (|a| - 1) + |b|;
    ThousandsSeparatedCons(s);
    ThousandsSeparatedCons(a);
    if |a| == 1 {
      assert a[1..] == [] && s[1..] == b;
      assert SeparatorBefore(|b|) == ",";
      assert SeparatorBefore(0) == "";
    } else {
      var sep, ta, tb := SeparatorBefore(|a| - 1), ThousandsSeparated(a[1..]), ThousandsSeparated(b);
      ThousandsSeparatedSplit(a[1..], b);
      SeparatorShift(|a| - 1, |b|);
      assert ThousandsSeparated(s) == [a[0]] + sep + (ta + "," + tb);
      assert ThousandsSeparated(a) == [a[0]] + sep + ta;
    }
  }

  /** The left-to-right reading of the regular expression and the
      group-of-three reading agree. */
  lemma {:induction false} SeparatorsAgree(s: string)
    ensures ThousandsSeparated(s) == GroupThousands(s)
    decreases |s|
  {
    if |s| <= 3 {
      ThousandsSeparatedShort(s);
    } else {
      var front, back := s[..|s| - 3], s[|s| - 3..];
      assert s == front + back;
      ThousandsSeparatedSplit(front, back);
      ThousandsSeparatedShort(back);
      SeparatorsAgree(front);
    }
  }

  /** Deleting the separators gives back the digits. */
  lemma RemoveCommasCons(c: char, t: string)
    requires c != ','
    ensures RemoveCommas([c] + t) == [c] + RemoveCommas(t)
  {
    assert ([c] + t)[1..] == t;
  }

  lemma RemoveCommasSeparator(rest: nat, t: string)
    ensures RemoveCommas(SeparatorBefore(rest) + t) == RemoveCommas(t)
  {
    if SeparatorBefore(rest) == "," {
      assert (SeparatorBefore(rest) + t)[1..] == t;
    } else {
      assert SeparatorBefore(rest) + t == t;
    }
  }

  lemma {:induction false} SeparatorsRoundTrip(s: string)
    requires ',' !in s
    ensures RemoveCommas(ThousandsSeparated(s)) == s
    decreases |s|
  {
    if s != [] {
      var sep := SeparatorBefore(|s| - 1);
      var tail := ThousandsSeparated(s[1..]);
      assert ThousandsSeparated(s) == [s[0]] + (sep + tail);
      RemoveCommasCons(s[0], sep + tail);
      RemoveCommasSeparator(|s| - 1, tail);
      SeparatorsRoundTrip(s[1..]);
      assert s == [s[0]] + s[1..];
    }
  }

  lemma {:induction false} DigitsHaveNoComma(s: string)
    requires AllDigits(s)
    ensures ',' !in s
    decreases |s|
  {
    if s != [] {
      assert IsDigit(s[0]);
      DigitsHaveNoComma(s[1..]);
      assert s == [s[0]] + s[1..];
    }
  }

  /** One comma per full group of three beyond the first group. */
  lemma {:induction false} SeparatedLength(s: string)
    requires s != []
    ensures |ThousandsSeparated(s)| == |s| + (|s| - 1) / 3
    decreases |s|
  {
    if |s| > 1 {
      SeparatedLength(s[1..]);
    }
  }
}
