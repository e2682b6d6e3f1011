/** Decimal digit strings: `text.replace(/[^\d]/g, '')`, the value that
    `parseInt` / `parseFloat` read from a string of digits, and the id-ID
    integer format of `Intl.NumberFormat` (groups of three digits separated
    by "."). */
module Numerals {

  predicate IsDigit(c: char)
  {
    '0' <= c <= '9'
  }

  predicate AllDigits(s: string)
  {
    forall i :: 0 <= i < |s| ==> IsDigit(s[i])
  }

  function DigitValue(c: char): nat
    requires IsDigit(c)
  {
    c as int - '0' as int
  }

  function DigitChar(d: nat): char
    requires d < 10
  {
    ('0' as int + d) as char
  }

  /** `s.replace(/[^\d]/g, '')`: the digits of `s`, in order. */
  function DigitsOf(s: string): (r: string)
    ensures AllDigits(r)
    ensures |r| <= |s|
  {
    if s == [] then []
    else (if IsDigit(s[0]) then [s[0]] else []) + DigitsOf(s[1..])
  }

  /** Nothing is left exactly when the text holds no digit. */
  lemma {:induction false} DigitsOfEmpty(s: string)
    ensures DigitsOf(s) == [] <==> forall i :: 0 <= i < |s| ==> !IsDigit(s[i])
    decreases |s|
  {
    if s != [] {
      DigitsOfEmpty(s[1..]);
      assert forall i :: 1 <= i < |s| ==> s[i] == s[1..][i - 1];
    }
  }

  /** Extracting digits is additive over concatenation. */
  lemma {:induction false} DigitsOfAppend(a: string, b: string)
    ensures DigitsOf(a + b) == DigitsOf(a) + DigitsOf(b)
    decreases |a|
  {
    if a == [] {
      assert a + b == b;
    } else {
      var head := if IsDigit(a[0]) then [a[0]] else [];
      assert (a + b)[0] == a[0] && (a + b)[1..] == a[1..] + b;
      assert DigitsOf(a + b) == head + DigitsOf(a[1..] + b);
      DigitsOfAppend(a[1..], b);
      assert DigitsOf(a) == head + DigitsOf(a[1..]);
    }
  }

  /** A string made only of digits is left as it is. */
  lemma {:induction false} DigitsOfDigits(s: string)
    requires AllDigits(s)
    ensures DigitsOf(s) == s
    decreases |s|
  {
    if s != [] {
      DigitsOfDigits(s[1..]);
    }
  }

  /** The number a string of decimal digits denotes (the empty string
      denotes 0 here; callers decide what an empty string means). */
  function Value(ds: string): (v: nat)
    requires AllDigits(ds)
    ensures v == 0 <==> forall i :: 0 <= i < |ds| ==> ds[i] == '0'
    decreases |ds|
  {
    if ds == [] then 0
    else
      var pre := ds[..|ds| - 1];
      assert forall i :: 0 <= i < |pre| ==> pre[i] == ds[i];
      Value(pre) * 10 + DigitValue(ds[|ds| - 1])
  }

  /** The decimal representation of `n`, without leading zeros. */
  function Show(n: nat): (r: string)
    ensures AllDigits(r) && r != []
    ensures n == 0 ==> r == "0"
    ensures n > 0 ==> r[0] != '0'
    decreases n
  {
    if n < 10 then [DigitChar(n)] else Show(n / 10) + [DigitChar(n % 10)]
  }

  /** What `Number(...).toString()` gives back for a digit string: leading
      zeros dropped, but at least one digit kept. */
  function Canonical(ds: string): (r: string)
    ensures |r| <= |ds|
  {
    if |ds| > 1 && ds[0] == '0' then Canonical(ds[1..]) else ds
  }

  /** Reading back what is shown yields the number. */
  lemma {:induction false} ValueOfShow(n: nat)
    ensures Value(Show(n)) == n
    decreases n
  {
    if n >= 10 {
      var s := Show(n);
      assert s[..|s| - 1] == Show(n / 10);
      ValueOfShow(n / 10);
    }
  }

  lemma {:induction false} LeadingDigitPositive(ds: string)
    requires AllDigits(ds) && ds != [] && ds[0] != '0'
    ensures Value(ds) >= 1
    decreases |ds|
  {
    if |ds| > 1 {
      LeadingDigitPositive(ds[..|ds| - 1]);
    }
  }

  /** A leading zero does not change the value. */
  lemma {:induction false} ValueLeadingZero(ds: string)
    requires AllDigits(ds)
    ensures AllDigits(['0'] + ds) && Value(['0'] + ds) == Value(ds)
    decreases |ds|
  {
    var z := ['0'] + ds;
    assert AllDigits(z) by {
      forall i | 0 <= i < |z| ensures IsDigit(z[i]) {
        if i > 0 { assert z[i] == ds[i - 1]; }
      }
    }
    if ds != [] {
      assert z[..|z| - 1] == ['0'] + ds[..|ds| - 1];
      ValueLeadingZero(ds[..|ds| - 1]);
    }
  }

  /** Showing the value of a digit string without leading zeros gives the
      string back. */
  lemma {:induction false} ShowOfValueNoLeadingZero(ds: string)
    requires AllDigits(ds) && ds != [] && ds[0] != '0'
    ensures Show(Value(ds)) == ds
    decreases |ds|
  {
    if |ds| > 1 {
      var pre := ds[..|ds| - 1];
      LeadingDigitPositive(pre);
      ShowOfValueNoLeadingZero(pre);
      var v := Value(ds);
      assert v / 10 == Value(pre) && v % 10 == DigitValue(ds[|ds| - 1]);
      assert ds == pre + [ds[|ds| - 1]];
    }
  }

  /** Showing the value of any non-empty digit string gives the string
      with its leading zeros dropped. */
  lemma {:induction false} ShowOfValue(ds: string)
    requires AllDigits(ds) && ds != []
    ensures Show(Value(ds)) == Canonical(ds)
    decreases |ds|
  {
    if |ds| > 1 && ds[0] == '0' {
      assert ds == ['0'] + ds[1..];
      ValueLeadingZero(ds[1..]);
      ShowOfValue(ds[1..]);
    } else if ds[0] != '0' {
      ShowOfValueNoLeadingZero(ds);
    }
  }

  /** Insert a "." before every group of three digits counted from the
      right, as the id-ID locale groups integers. */
  function Group(ds: string): (r: string)
    ensures |ds| <= 3 ==> r == ds
    ensures |ds| > 3 ==> |r| > 4 && r[|r| - 4] == '.' && r[|r| - 3..] == ds[|ds| - 3..]
    decreases |ds|
  {
    if |ds| <= 3 then ds else Group(ds[..|ds| - 3]) + "." + ds[|ds| - 3..]
  }

  /** Removing the separators from a grouped digit string gives the digits
      back. */
  lemma {:induction false} DigitsOfGroup(ds: string)
    requires AllDigits(ds)
    ensures DigitsOf(Group(ds)) == ds
    decreases |ds|
  {
    if |ds| <= 3 {
      DigitsOfDigits(ds);
    } else {
      var hi, lo := ds[..|ds| - 3], ds[|ds| - 3..];
      var g := Group(hi);
      calc {
        DigitsOf(Group(ds));
        DigitsOf(g + "." + lo);
        { DigitsOfAppend(g + ".", lo); }
        DigitsOf(g + ".") + DigitsOf(lo);
        { DigitsOfAppend(g, "."); assert DigitsOf(".") == ""; }
        DigitsOf(g) + DigitsOf(lo);
        { DigitsOfGroup(hi); DigitsOfDigits(lo); }
        hi + lo;
        { assert ds == hi + lo; }
        ds;
      }
    }
  }

  /** A grouped string has one separator for every three digits after the
      first group, and is empty only when there are no digits. */
  lemma {:induction false} GroupLength(ds: string)
    ensures ds != [] ==> |Group(ds)| == |ds| + (|ds| - 1) / 3
    ensures Group(ds) == [] <==> ds == []
    decreases |ds|
  {
    if |ds| > 3 {
      GroupLength(ds[..|ds| - 3]);
    }
  }

  /** A grouped digit string holds only digits and separators. */
  lemma {:induction false} GroupChars(ds: string)
    requires AllDigits(ds)
    ensures forall i :: 0 <= i < |Group(ds)| ==> IsDigit(Group(ds)[i]) || Group(ds)[i] == '.'
    decreases |ds|
  {
    if |ds| > 3 {
      var hi, lo := ds[..|ds| - 3], ds[|ds| - 3..];
      GroupChars(hi);
      var g := Group(hi);
      assert Group(ds) == g + "." + lo;
      forall i | 0 <= i < |Group(ds)| ensures IsDigit(Group(ds)[i]) || Group(ds)[i] == '.' {
        if i < |g| {
          assert Group(ds)[i] == g[i];
        } else if i > |g| {
          assert Group(ds)[i] == lo[i - |g| - 1] == ds[|ds| - 3 + (i - |g| - 1)];
        }
      }
    }
  }

  /** The separators of a grouped digit string stand exactly at every
      fourth position counted from the right end: groups of three digits
      are counted from the right. */
  lemma {:induction false} GroupSeparators(ds: string)
    requires AllDigits(ds)
    ensures forall i :: 0 <= i < |Group(ds)| ==> (Group(ds)[i] == '.' <==> (|Group(ds)| - i) % 4 == 0)
    decreases |ds|
  {
    var r := Group(ds);
    if |ds| <= 3 {
      forall i | 0 <= i < |r| ensures r[i] == '.' <==> (|r| - i) % 4 == 0 {
        assert IsDigit(ds[i]);
      }
    } else {
      var hi, lo := ds[..|ds| - 3], ds[|ds| - 3..];
      GroupSeparators(hi);
      var g := Group(hi);
      assert r == g + "." + lo;
      forall i | 0 <= i < |r| ensures r[i] == '.' <==> (|r| - i) % 4 == 0 {
        if i < |g| {
          assert r[i] == g[i];
          assert |r| - i == (|g| - i) + 4;
        } else if i > |g| {
          assert r[i] == ds[|ds| - 3 + (i - |g| - 1)];
          assert IsDigit(r[i]);
          assert 0 < |r| - i < 4;
        }
      }
    }
  }

  /** `new Intl.NumberFormat('id-ID').format(n)` for a non-negative integer:
      only digits and separators, one separator for every three digits after
      the first group. */
  function FormatNumber(n: nat): (r: string)
    ensures |r| == |Show(n)| + (|Show(n)| - 1) / 3
    ensures forall i :: 0 <= i < |r| ==> IsDigit(r[i]) || r[i] == '.'
    ensures forall i :: 0 <= i < |r| ==> (r[i] == '.' <==> (|r| - i) % 4 == 0)
  {
    GroupLength(Show(n));
    GroupChars(Show(n));
    GroupSeparators(Show(n));
    Group(Show(n))
  }

  /** The formatted number reads back as the same number, once the
      separators are dropped. */
  lemma FormatNumberReadsBack(n: nat)
    ensures DigitsOf(FormatNumber(n)) == Show(n)
    ensures Value(DigitsOf(FormatNumber(n))) == n
    ensures FormatNumber(n) != []
  {
    DigitsOfGroup(Show(n));
    ValueOfShow(n);
    GroupLength(Show(n));
  }

  /** The format of the salary in the sample data: "8.500.000". */
  lemma SampleFormat()
    ensures FormatNumber(8500000) == "8.500.000"
  {
    SampleShow();
    var ds := "8500000";
    assert ds[..4] == "8500" && ds[4..] == "000";
    var hi := ds[..4];
    assert hi[..1] == "8" && hi[1..] == "500";
    assert Group(hi) == "8.500";
  }

  lemma SampleShow()
    ensures Show(8500000) == "8500000"
  {
    assert Show(85) == "85";
    assert Show(8500) == Show(850) + "0" == "8500";
    assert Show(850000) == Show(85000) + "0" == "850000";
  }
}
