/**
 * The handful of Python string and sequence operations the bridge relies on:
 * clamped slicing, str.strip(), str.split(sep), int() of decimal text and
 * "%u"/"%0Nu" rendering of integers.
 */
module PyText {
  import opened Wrappers

  /** s[i:j] for i <= j: Python clamps both bounds to the length instead of failing. */
  function Slice<T>(s: seq<T>, i: nat, j: nat): (r: seq<T>)
    requires i <= j
    ensures |r| == (if j <= |s| then j - i else if i <= |s| then |s| - i else 0)
    ensures forall k :: 0 <= k < |r| ==> r[k] == s[i + k]
  {
    if |s| <= i then [] else if |s| <= j then s[i..] else s[i..j]
  }

  /** s[i:]: empty once i passes the end. */
  function From<T>(s: seq<T>, i: nat): (r: seq<T>)
    ensures i <= |s| ==> r == s[i..]
    ensures i > |s| ==> r == []
  {
    if |s| <= i then [] else s[i..]
  }

  /** The characters below 128 that str.isspace() accepts. */
  predicate IsSpace(c: char)
  {
    c == ' ' || (9 <= c as int <= 13) || (28 <= c as int <= 31)
  }

  /** str.strip() with no argument: whitespace is dropped from both ends. */
  function Strip(s: string): (r: string)
    decreases |s|
  {
    if s != [] && IsSpace(s[0]) then Strip(s[1..])
    else if s != [] && IsSpace(s[|s| - 1]) then Strip(s[..|s| - 1])
    else s
  }

  /** A string without outer whitespace strips to itself. */
  lemma StripKeepsTrimmed(s: string)
    requires s == "" || (!IsSpace(s[0]) && !IsSpace(s[|s| - 1]))
    ensures Strip(s) == s
  {
  }

  /** The stripped text has no outer whitespace, and it is empty exactly when the text was all whitespace. */
  lemma {:induction false} StripTrimmed(s: string)
    ensures |Strip(s)| <= |s|
    ensures Strip(s) == "" || (!IsSpace(Strip(s)[0]) && !IsSpace(Strip(s)[|Strip(s)| - 1]))
    ensures Strip(s) == "" <==> forall k :: 0 <= k < |s| ==> IsSpace(s[k])
    decreases |s|
  {
    if s != [] && IsSpace(s[0]) {
      StripTrimmed(s[1..]);
    } else if s != [] && IsSpace(s[|s| - 1]) {
      StripTrimmed(s[..|s| - 1]);
    }
  }

  lemma StripIdempotent(s: string)
    ensures Strip(Strip(s)) == Strip(s)
  {
    StripTrimmed(s);
    StripKeepsTrimmed(Strip(s));
  }

  /** str.split(sep): always at least one part; an empty string gives [""]. */
  function Split(s: string, sep: char): (parts: seq<string>)
    ensures |parts| >= 1
    decreases |s|
  {
    if |s| == 0 then [""]
    else
      var rest := Split(s[1..], sep);
      if s[0] == sep then [""] + rest
      else [[s[0]] + rest[0]] + rest[1..]
  }

  /** sep.join(parts). */
  function Join(parts: seq<string>, sep: char): (s: string)
    requires |parts| >= 1
    decreases |parts|
  {
    if |parts| == 1 then parts[0] else parts[0] + [sep] + Join(parts[1..], sep)
  }

  /** No part that split returns holds the separator. */
  lemma {:induction false} SplitPartsFree(s: string, sep: char)
    ensures forall i :: 0 <= i < |Split(s, sep)| ==> sep !in Split(s, sep)[i]
    decreases |s|
  {
    if |s| > 0 {
      SplitPartsFree(s[1..], sep);
    }
  }

  /** Joining the parts back with the separator restores the original text. */
  lemma {:induction false} JoinSplit(s: string, sep: char)
    ensures Join(Split(s, sep), sep) == s
    decreases |s|
  {
    if |s| > 0 {
      JoinSplit(s[1..], sep);
      var rest := Split(s[1..], sep);
      if s[0] != sep {
        if |rest| == 1 {
        } else {
          assert ([s[0]] + rest[0]) + [sep] + Join(rest[1..], sep)
              == [s[0]] + (rest[0] + [sep] + Join(rest[1..], sep));
        }
      }
    }
  }

  /** Splitting text with no separator gives it back as the only part. */
  lemma {:induction false} SplitWithoutSep(s: string, sep: char)
    requires sep !in s
    ensures Split(s, sep) == [s]
    decreases |s|
  {
    if |s| > 0 {
      SplitWithoutSep(s[1..], sep);
      assert [s[0]] + s[1..] == s;
    }
  }

  /** A separator after a separator-free head starts a new part: split(a + sep + b) == [a] + split(b). */
  lemma {:induction false} SplitAfter(a: string, b: string, sep: char)
    requires sep !in a
    ensures Split(a + [sep] + b, sep) == [a] + Split(b, sep)
    decreases |a|
  {
    if |a| == 0 {
      assert a + [sep] + b == [sep] + b;
      assert ([sep] + b)[1..] == b;
    } else {
      SplitAfter(a[1..], b, sep);
      assert (a + [sep] + b)[1..] == a[1..] + [sep] + b;
      assert [a[0]] + a[1..] == a;
    }
  }

  /** Splitting a join of separator-free parts gives the parts back. */
  lemma {:induction false} SplitJoin(parts: seq<string>, sep: char)
    requires |parts| >= 1
    requires forall i :: 0 <= i < |parts| ==> sep !in parts[i]
    ensures Split(Join(parts, sep), sep) == parts
    decreases |parts|
  {
    if |parts| == 1 {
      SplitWithoutSep(parts[0], sep);
    } else {
      SplitJoin(parts[1..], sep);
      SplitAfter(parts[0], Join(parts[1..], sep), sep);
    }
  }

  /** A join ends with the last character of its last part. */
  lemma {:induction false} JoinLast(parts: seq<string>, sep: char)
    requires |parts| >= 1 && parts[|parts| - 1] != []
    ensures var s := Join(parts, sep); |s| > 0 && s[|s| - 1] == parts[|parts| - 1][|parts[|parts| - 1]| - 1]
    decreases |parts|
  {
    if |parts| > 1 {
      JoinLast(parts[1..], sep);
    }
  }

  /** The first separator, at index k, ends the first part. */
  lemma SplitStep(s: string, k: nat, sep: char)
    requires k < |s| && s[k] == sep && sep !in s[..k]
    ensures Split(s, sep) == [s[..k]] + Split(s[k + 1..], sep)
  {
    SplitAfter(s[..k], s[k + 1..], sep);
    assert s[..k] + [sep] + s[k + 1..] == s;
  }

  /** A trailing part after the last separator becomes the last element: split(a + sep + b) == split(a) + [b]. */
  lemma {:induction false} SplitAppend(a: string, b: string, sep: char)
    requires sep !in b
    ensures Split(a + [sep] + b, sep) == Split(a, sep) + [b]
    decreases |a|
  {
    if |a| == 0 {
      assert a + [sep] + b == [sep] + b;
      assert ([sep] + b)[1..] == b;
      SplitWithoutSep(b, sep);
    } else {
      SplitAppend(a[1..], b, sep);
      assert (a + [sep] + b)[1..] == a[1..] + [sep] + b;
    }
  }

  predicate IsDigit(c: char)
  {
    '0' <= c <= '9'
  }

  function DigitValue(c: char): (d: nat)
    requires IsDigit(c)
    ensures d < 10
  {
    (c as int) - ('0' as int)
  }

  function DigitChar(d: nat): (c: char)
    requires d < 10
    ensures IsDigit(c) && DigitValue(c) == d
  {
    (('0' as int) + d) as char
  }

  /** "%u" of a non-negative integer: its decimal digits, most significant first, no leading zero. */
  function Decimal(n: nat): (s: string)
    ensures |s| >= 1
    ensures DigitsOnly(s)
    ensures |s| > 1 ==> s[0] != '0'
  {
    if n < 10 then [DigitChar(n)] else Decimal(n / 10) + [DigitChar(n % 10)]
  }

  /** "%u" / "%d" / "%s" of any integer: a minus sign for negatives. */
  function IntText(n: int): (s: string)
  {
    if n < 0 then "-" + Decimal(-n) else Decimal(n)
  }

  /** "%0<width>u": zero-padded to width characters, the sign counted in the width. */
  function PaddedInt(n: int, width: nat): (s: string)
  {
    if n < 0 then "-" + ZeroPad(Decimal(-n), if width > 0 then width - 1 else 0)
    else ZeroPad(Decimal(n), width)
  }

  function ZeroPad(s: string, width: nat): (r: string)
    ensures |r| == if |s| < width then width else |s|
    ensures r[|r| - |s|..] == s
    ensures forall k :: 0 <= k < |r| - |s| ==> r[k] == '0'
  {
    if |s| < width then seq(width - |s|, _ => '0') + s else s
  }

  /** Every character is a decimal digit. */
  predicate DigitsOnly(ds: string)
  {
    forall k :: 0 <= k < |ds| ==> IsDigit(ds[k])
  }

  /** Value of a run of decimal digits. */
  function DigitsValue(ds: string): (v: nat)
    requires DigitsOnly(ds)
    decreases |ds|
  {
    if |ds| == 0 then 0 else DigitsValue(ds[..|ds| - 1]) * 10 + DigitValue(ds[|ds| - 1])
  }

  predicate AllDigits(ds: string)
  {
    |ds| >= 1 && DigitsOnly(ds)
  }

  /**
   * int(text) for the forms the bridge meets: an optional sign followed by
   * at least one decimal digit; anything else raises ValueError (None here).
   */
  function ParseInt(s: string): (r: Option<int>)
    ensures r.Some? <==> AllDigits(s) || (|s| >= 2 && (s[0] == '-' || s[0] == '+') && AllDigits(s[1..]))
  {
    if AllDigits(s) then Some(DigitsValue(s) as int)
    else if |s| >= 2 && s[0] == '-' && AllDigits(s[1..]) then Some(-(DigitsValue(s[1..]) as int))
    else if |s| >= 2 && s[0] == '+' && AllDigits(s[1..]) then Some(DigitsValue(s[1..]) as int)
    else None
  }

  /** int() of a single character: its digit value, or ValueError. */
  lemma ParseDigit(c: char)
    ensures ParseInt([c]) == if IsDigit(c) then Some(DigitValue(c)) else None
  {
    if IsDigit(c) {
      assert AllDigits([c]);
      assert [c][..0] == [];
      assert DigitsValue([c]) == DigitValue(c);
    }
  }

  lemma {:induction false} DecimalValue(n: nat)
    ensures DigitsValue(Decimal(n)) == n
    decreases n
  {
    if n >= 10 {
      DecimalValue(n / 10);
      var s := Decimal(n);
      assert s[..|s| - 1] == Decimal(n / 10);
    }
  }

  lemma {:induction false} LeadingZerosValue(z: nat, ds: string)
    requires DigitsOnly(ds)
    ensures DigitsOnly(seq(z, _ => '0') + ds)
    ensures DigitsValue(seq(z, _ => '0') + ds) == DigitsValue(ds)
    decreases |ds|
  {
    var zs: string := seq(z, _ => '0');
    if |ds| == 0 {
      assert zs + ds == zs;
      ZerosValue(z);
    } else {
      LeadingZerosValue(z, ds[..|ds| - 1]);
      assert (zs + ds)[..|zs + ds| - 1] == zs + ds[..|ds| - 1];
    }
  }

  lemma {:induction false} ZerosValue(z: nat)
    ensures DigitsValue(seq(z, _ => '0')) == 0
    decreases z
  {
    if z > 0 {
      ZerosValue(z - 1);
      assert seq(z, _ => '0')[..z - 1] == seq(z - 1, _ => '0');
    }
  }

  /** A minus sign before a run of digits reads back as the negated value. */
  lemma NegativeText(ds: string)
    requires AllDigits(ds)
    ensures ParseInt("-" + ds) == Some(-(DigitsValue(ds) as int))
  {
    var t := "-" + ds;
    assert !IsDigit(t[0]);
    assert t[1..] == ds;
  }

  /** int("%u" % n) == n: rendering an integer and parsing it back is the identity. */
  lemma IntTextRoundTrip(n: int)
    ensures ParseInt(IntText(n)) == Some(n)
  {
    var ds := Decimal(if n < 0 then -n else n);
    DecimalValue(if n < 0 then -n else n);
    assert AllDigits(ds);
    if n < 0 {
      assert IntText(n) == "-" + ds;
      NegativeText(ds);
    } else {
      assert IntText(n) == ds;
      assert ParseInt(ds) == Some(DigitsValue(ds) as int);
    }
  }

  /** Zero padding a run of digits keeps it a run of digits with the same value. */
  lemma ZeroPadValue(ds: string, width: nat)
    requires AllDigits(ds)
    ensures AllDigits(ZeroPad(ds, width)) && DigitsValue(ZeroPad(ds, width)) == DigitsValue(ds)
  {
    if |ds| < width {
      LeadingZerosValue(width - |ds|, ds);
    }
  }

  /** int("%0Nu" % n) == n: zero padding never changes the value read back. */
  lemma PaddedIntRoundTrip(n: int, width: nat)
    ensures ParseInt(PaddedInt(n, width)) == Some(n)
  {
    var w: nat := if n < 0 && width > 0 then width - 1 else width;
    var ds := Decimal(if n < 0 then -n else n);
    DecimalValue(if n < 0 then -n else n);
    ZeroPadValue(ds, w);
    if n < 0 {
      NegativeText(ZeroPad(ds, w));
    }
  }
}
