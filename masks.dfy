/**
 * The input masks of the client forms: `formatCpf` (`ddd.ddd.ddd-dd`) and
 * `formatPhone` (`(dd) ddddd-dddd`). The person lookup, the settings page
 * and the registration page each carry an identical copy of both.
 */
module Masks {
  import opened Text

  /** The digits a mask keeps: `value.replace(/\D/g, "").slice(0, 11)`. */
  function KeptDigits(value: string): (d: string)
    ensures AllDigits(d) && |d| <= 11 && d <= Digits(value)
  {
    Take(Digits(value), 11)
  }

  /** The CPF layout of a digit string of at most eleven digits. */
  function CpfLayout(d: string): string
    requires |d| <= 11
  {
    if |d| <= 3 then d
    else if |d| <= 6 then d[..3] + "." + d[3..]
    else if |d| <= 9 then d[..3] + "." + d[3..6] + "." + d[6..]
    else d[..3] + "." + d[3..6] + "." + d[6..9] + "-" + d[9..]
  }

  /** `formatCpf(value)`. */
  function FormatCpf(value: string): string {
    CpfLayout(KeptDigits(value))
  }

  /** The phone layout of a digit string of at most eleven digits. */
  function PhoneLayout(d: string): string
    requires |d| <= 11
  {
    if |d| <= 2 then "(" + d
    else if |d| <= 7 then "(" + d[..2] + ") " + d[2..]
    else "(" + d[..2] + ") " + d[2..7] + "-" + d[7..]
  }

  /** `formatPhone(value)`. */
  function FormatPhone(value: string): string {
    PhoneLayout(KeptDigits(value))
  }

  // ---- digits survive the separators ----

  predicate NoDigits(s: string) {
    forall i :: 0 <= i < |s| ==> !IsDigit(s[i])
  }

  lemma {:induction false} DigitsOfSeparator(s: string)
    requires NoDigits(s)
    ensures Digits(s) == []
  {
    if s != [] {
      assert !IsDigit(s[0]);
      DigitsOfSeparator(s[1..]);
    }
  }

  /** Removing the non-digits after a separator and a run of digits appends that run. */
  lemma Joined(a: string, sep: string, b: string)
    requires NoDigits(sep) && AllDigits(b)
    ensures Digits(a + sep + b) == Digits(a) + b
  {
    DigitsAppend(a + sep, b);
    DigitsAppend(a, sep);
    DigitsOfSeparator(sep);
    DigitsOfDigitString(b);
  }

  lemma DigitSlices(d: string)
    requires AllDigits(d)
    ensures forall i, j :: 0 <= i <= j <= |d| ==> AllDigits(d[i..j])
  {
  }

  // ---- the CPF mask ----

  /** The mask keeps exactly the first eleven digits of the input, and drops every other character. */
  lemma FormatCpfKeepsDigits(value: string)
    ensures Digits(FormatCpf(value)) == KeptDigits(value)
  {
    var d := KeptDigits(value);
    DigitSlices(d);
    if |d| <= 3 {
      DigitsOfDigitString(d);
    } else if |d| <= 6 {
      DigitsOfDigitString(d[..3]);
      Joined(d[..3], ".", d[3..]);
      assert d[..3] + d[3..] == d;
    } else if |d| <= 9 {
      DigitsOfDigitString(d[..3]);
      Joined(d[..3], ".", d[3..6]);
      Joined(d[..3] + "." + d[3..6], ".", d[6..]);
      assert d[..3] + d[3..6] + d[6..] == d;
    } else {
      DigitsOfDigitString(d[..3]);
      Joined(d[..3], ".", d[3..6]);
      Joined(d[..3] + "." + d[3..6], ".", d[6..9]);
      Joined(d[..3] + "." + d[3..6] + "." + d[6..9], "-", d[9..]);
      assert d[..3] + d[3..6] + d[6..9] + d[9..] == d;
    }
  }

  /**
   * The separators: a `.` after the third and the sixth digit and a `-`
   * after the ninth, each only once there is a digit after it; so the mask
   * is never longer than fourteen characters.
   */
  lemma CpfSeparators(value: string)
    ensures var d := KeptDigits(value); var r := FormatCpf(value);
      |r| == |d| + (if |d| > 3 then 1 else 0) + (if |d| > 6 then 1 else 0) + (if |d| > 9 then 1 else 0)
      && (|d| > 3 ==> r[3] == '.') && (|d| > 6 ==> r[7] == '.') && (|d| > 9 ==> r[11] == '-')
      && |r| <= 14
  {
  }

  /** A mask of a mask is the same mask. */
  lemma FormatCpfIdempotent(value: string)
    ensures FormatCpf(FormatCpf(value)) == FormatCpf(value)
  {
    FormatCpfKeepsDigits(value);
    assert KeptDigits(FormatCpf(value)) == KeptDigits(value);
  }

  // ---- the phone mask ----

  /** Up to two digits: the opening parenthesis, then the digits. */
  lemma PhoneAreaDigits(d: string)
    requires AllDigits(d)
    ensures Digits("(" + d) == d
  {
    DigitsOfSeparator("(");
    Joined([], "(", d);
    assert [] + "(" + d == "(" + d;
  }

  /** Up to seven digits: the area code in parentheses, then the rest. */
  lemma PhoneLocalDigits(d: string)
    requires AllDigits(d) && 2 <= |d|
    ensures Digits("(" + d[..2] + ") " + d[2..]) == d
  {
    DigitSlices(d);
    PhoneAreaDigits(d[..2]);
    DigitsOfSeparator(") ");
    Joined("(" + d[..2], ") ", d[2..]);
    assert d[..2] + d[2..] == d;
  }

  /** Eight digits or more: the area code, five digits, a dash, the rest. */
  lemma PhoneFullDigits(d: string)
    requires AllDigits(d) && 7 <= |d|
    ensures Digits("(" + d[..2] + ") " + d[2..7] + "-" + d[7..]) == d
  {
    DigitSlices(d);
    PhoneLocalDigits(d[..7]);
    assert d[..7][..2] == d[..2] && d[..7][2..] == d[2..7];
    DigitsOfSeparator("-");
    Joined("(" + d[..2] + ") " + d[2..7], "-", d[7..]);
    assert d[..7] + d[7..] == d;
  }

  /** The phone mask keeps exactly the first eleven digits of the input as well. */
  lemma FormatPhoneKeepsDigits(value: string)
    ensures Digits(FormatPhone(value)) == KeptDigits(value)
  {
    var d := KeptDigits(value);
    if |d| <= 2 {
      PhoneAreaDigits(d);
    } else if |d| <= 7 {
      PhoneLocalDigits(d);
    } else {
      PhoneFullDigits(d);
    }
  }

  /**
   * The phone layout: always an opening parenthesis; `) ` after the second
   * digit once there is a third; `-` after the seventh once there is an
   * eighth; so never longer than fifteen characters.
   */
  lemma PhoneSeparators(value: string)
    ensures var d := KeptDigits(value); var r := FormatPhone(value);
      |r| == |d| + 1 + (if |d| > 2 then 2 else 0) + (if |d| > 7 then 1 else 0)
      && r[0] == '(' && (|d| > 2 ==> r[3..5] == ") ") && (|d| > 7 ==> r[10] == '-')
      && |r| <= 15
  {
  }

  lemma FormatPhoneIdempotent(value: string)
    ensures FormatPhone(FormatPhone(value)) == FormatPhone(value)
  {
    FormatPhoneKeepsDigits(value);
    assert KeptDigits(FormatPhone(value)) == KeptDigits(value);
  }
}
