/** `formatPhoneNumber` of the formatting utilities: Brazilian phone-number layout. */
module Formatters {
  import opened Text

  /**
   * Keeps only the digits; eleven digits become `(DD) DDDDD-DDDD`, ten become
   * `(DD) DDDD-DDDD`, and any other count returns the input exactly as given.
   */
  function FormatPhoneNumber(phoneNumber: string): (r: string)
    ensures var d := Digits(phoneNumber);
      && (|d| == 11 ==>
            && |r| == 15 && r[0] == '(' && r[3] == ')' && r[4] == ' ' && r[10] == '-'
            && r[1..3] == d[..2] && r[5..10] == d[2..7] && r[11..] == d[7..])
      && (|d| == 10 ==>
            && |r| == 14 && r[0] == '(' && r[3] == ')' && r[4] == ' ' && r[9] == '-'
            && r[1..3] == d[..2] && r[5..9] == d[2..6] && r[10..] == d[6..])
      && (|d| != 10 && |d| != 11 ==> r == phoneNumber)
  {
    var cleaned := Digits(phoneNumber);
    if |cleaned| == 11 then
      "(" + cleaned[..2] + ") " + cleaned[2..7] + "-" + cleaned[7..]
    else if |cleaned| == 10 then
      "(" + cleaned[..2] + ") " + cleaned[2..6] + "-" + cleaned[6..]
    else
      phoneNumber
  }

  /** The digits of `(a) b-c` are `a`, `b` and `c`, when those are all digits. */
  lemma DigitsOfLayout(a: string, b: string, c: string)
    requires AllDigits(a) && AllDigits(b) && AllDigits(c)
    ensures Digits("(" + a + ") " + b + "-" + c) == a + b + c
  {
    var s1 := "(" + a;
    var s2 := s1 + ") ";
    var s3 := s2 + b;
    var s4 := s3 + "-";
    DigitsOfNonDigits("(");
    DigitsOfNonDigits(") ");
    DigitsOfNonDigits("-");
    DigitsOfDigits(a);
    DigitsOfDigits(b);
    DigitsOfDigits(c);
    DigitsConcat("(", a);
    DigitsConcat(s1, ") ");
    DigitsConcat(s2, b);
    DigitsConcat(s3, "-");
    DigitsConcat(s4, c);
  }

  /** Formatting never adds, drops or reorders digits. */
  lemma FormatKeepsDigits(s: string)
    ensures Digits(FormatPhoneNumber(s)) == Digits(s)
  {
    var d := Digits(s);
    if |d| == 11 {
      DigitsOfLayout(d[..2], d[2..7], d[7..]);
      assert d == d[..2] + d[2..7] + d[7..];
    } else if |d| == 10 {
      DigitsOfLayout(d[..2], d[2..6], d[6..]);
      assert d == d[..2] + d[2..6] + d[6..];
    }
  }

  /** Formatting an already formatted number changes nothing. */
  lemma FormatIdempotent(s: string)
    ensures FormatPhoneNumber(FormatPhoneNumber(s)) == FormatPhoneNumber(s)
  {
    FormatKeepsDigits(s);
  }

  /** Only the digits matter: punctuation and spacing of a ten- or eleven-digit input are ignored. */
  lemma FormatIgnoresPunctuation(s: string, t: string)
    requires Digits(s) == Digits(t)
    requires |Digits(s)| == 10 || |Digits(s)| == 11
    ensures FormatPhoneNumber(s) == FormatPhoneNumber(t)
  {
  }
}
