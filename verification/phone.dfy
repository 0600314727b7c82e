/**
 The phone field of the contact form: the mask applied on every keystroke
 (`formatarTelefone`), the two-stage check run on submit (digit count, then
 the mobile-number shape), and the inline "type 11 digits" warning.
 */
module Phone {

  /** The class `\d` of a JavaScript regular expression without the `u` flag. */
  predicate IsDigit(c: char)
  {
    '0' <= c <= '9'
  }

  predicate AllDigits(s: string)
  {
    forall i :: 0 <= i < |s| ==> IsDigit(s[i])
  }

  /** `s.replace(/\D/g, "")`: the digits of `s`, in order. */
  function Digits(s: string): (d: string)
    ensures |d| <= |s|
    ensures AllDigits(d)
  {
    if s == [] then []
    else (if IsDigit(s[0]) then [s[0]] else []) + Digits(s[1..])
  }

  /** Area code (2) plus mobile number (9). */
  const MaxDigits := 11

  /**
   `formatarTelefone`: strip the non-digits, then punctuate by digit count as
   `(DD) REST` or `(DD) NNNNN-NNNN`. More than 11 digits are cut to the first
   11, which are returned WITHOUT punctuation.
   */
  function FormatPhone(valor: string): (r: string)
    ensures |r| <= 15
  {
    var n := Digits(valor);
    if |n| > MaxDigits then n[..MaxDigits]
    else if |n| <= 2 then n
    else if |n| <= 7 then "(" + n[..2] + ") " + n[2..]
    else "(" + n[..2] + ") " + n[2..7] + "-" + n[7..]
  }

  /** `/^\d{2}9\d{8}$/.test(s)`: two digits, a literal 9, eight digits, nothing more. */
  predicate MobilePattern(s: string)
    ensures MobilePattern(s) <==> |s| == 11 && AllDigits(s) && s[2] == '9'
  {
    && |s| == 11
    && IsDigit(s[0]) && IsDigit(s[1])
    && s[2] == '9'
    && forall i :: 3 <= i < 11 ==> IsDigit(s[i])
  }

  /** Result of the submit-time phone check. */
  datatype PhoneCheck = WrongLength | WrongShape | Accepted(digits: string)

  /**
   The first two steps of `handleSubmit`: the length check runs first and
   takes precedence; the shape check only sees 11-digit strings, where it
   reduces to "the third digit is 9".
   */
  function CheckPhone(telefone: string): (r: PhoneCheck)
    ensures r.WrongLength? <==> |Digits(telefone)| != MaxDigits
    ensures r.WrongShape? <==> |Digits(telefone)| == MaxDigits && Digits(telefone)[2] != '9'
    ensures r.Accepted? ==> r.digits == Digits(telefone) && MobilePattern(r.digits)
  {
    var d := Digits(telefone);
    if |d| != MaxDigits then WrongLength
    else if !MobilePattern(d) then WrongShape
    else Accepted(d)
  }

  /**
   The inline warning under the field: non-empty and fewer than 11 digits.
   It is never shown for a value that passes the length check, and never for
   an empty field.
   */
  predicate ShowsDigitWarning(telefone: string)
    ensures ShowsDigitWarning(telefone) ==> CheckPhone(telefone).WrongLength?
    ensures telefone == "" ==> !ShowsDigitWarning(telefone)
  {
    telefone != "" && |Digits(telefone)| < MaxDigits
  }

  // ---------------------------------------------------------------------------
  // Lemmas about the digit strip

  lemma {:induction false} DigitsAppend(a: string, b: string)
    ensures Digits(a + b) == Digits(a) + Digits(b)
  {
    if a == [] {
      assert a + b == b;
    } else {
      assert (a + b)[0] == a[0];
      assert (a + b)[1..] == a[1..] + b;
      DigitsAppend(a[1..], b);
    }
  }

  /** A string of digits is its own digit-only form. */
  lemma {:induction false} DigitsOfDigitString(s: string)
    requires AllDigits(s)
    ensures Digits(s) == s
  {
    if s != [] {
      DigitsOfDigitString(s[1..]);
    }
  }

  /** Stripping twice is stripping once. */
  lemma {:induction false} DigitsIdempotent(s: string)
    ensures Digits(Digits(s)) == Digits(s)
  {
    DigitsOfDigitString(Digits(s));
  }

  // ---------------------------------------------------------------------------
  // Lemmas about the mask

  /** A string without digits has an empty digit-only form. */
  lemma {:induction false} DigitsOfPunctuation(s: string)
    requires forall i :: 0 <= i < |s| ==> !IsDigit(s[i])
    ensures Digits(s) == []
  {
    if s != [] {
      DigitsOfPunctuation(s[1..]);
    }
  }

  /** Punctuation between two pieces contributes no digits. */
  lemma {:induction false} DigitsAcrossPunctuation(p: string, sep: string, c: string)
    requires forall i :: 0 <= i < |sep| ==> !IsDigit(sep[i])
    requires AllDigits(c)
    ensures Digits(p + sep + c) == Digits(p) + c
  {
    DigitsAppend(p, sep);
    DigitsAppend(p + sep, c);
    DigitsOfPunctuation(sep);
    DigitsOfDigitString(c);
  }

  lemma {:induction false} DigitsAfterOpenParen(a: string)
    requires AllDigits(a)
    ensures Digits("(" + a) == a
  {
    DigitsAppend("(", a);
    DigitsOfPunctuation("(");
    DigitsOfDigitString(a);
  }

  /** The digits of `(AA) BBB` are `AABBB`. */
  lemma {:induction false} DigitsOfShortMask(a: string, b: string)
    requires AllDigits(a) && AllDigits(b)
    ensures Digits("(" + a + ") " + b) == a + b
  {
    DigitsAfterOpenParen(a);
    DigitsAcrossPunctuation("(" + a, ") ", b);
  }

  /** The digits of `(AA) BBBBB-CCCC` are `AABBBBBCCCC`. */
  lemma {:induction false} DigitsOfLongMask(a: string, b: string, c: string)
    requires AllDigits(a) && AllDigits(b) && AllDigits(c)
    ensures Digits("(" + a + ") " + b + "-" + c) == a + b + c
  {
    DigitsOfShortMask(a, b);
    DigitsAcrossPunctuation("(" + a + ") " + b, "-", c);
  }

  /**
   The digit-only form of the mask is the first min(11, n) digits of the
   input, in order.
   */
  lemma {:induction false} FormatPhoneDigits(valor: string)
    ensures var n := Digits(valor);
      Digits(FormatPhone(valor)) == if |n| > MaxDigits then n[..MaxDigits] else n
  {
    var n := Digits(valor);
    if |n| > MaxDigits {
      DigitsOfDigitString(n[..MaxDigits]);
    } else if |n| <= 2 {
      DigitsOfDigitString(n);
    } else if |n| <= 7 {
      DigitsOfShortMask(n[..2], n[2..]);
      assert n[..2] + n[2..] == n;
    } else {
      DigitsOfLongMask(n[..2], n[2..7], n[7..]);
      assert n[..2] + n[2..7] + n[7..] == n;
    }
  }

  /**
   Where the punctuation sits, by digit count n: no punctuation for n <= 2 or
   n > 11; `(` at 0, `)` at 3 and a space at 4 for 3 <= n <= 11; and a hyphen
   at 10 for n >= 8. Every other character is a digit, and the output never
   exceeds the field's 15 characters.
   */
  lemma {:induction false} FormatPhoneLayout(valor: string)
    ensures var n := |Digits(valor)|; var r := FormatPhone(valor);
      && (n <= 2 ==> |r| == n && AllDigits(r))
      && (n > MaxDigits ==> |r| == MaxDigits && AllDigits(r))
      && (3 <= n <= MaxDigits ==> |r| >= 5 && r[0] == '(' && r[3] == ')' && r[4] == ' ' && AllDigits(r[1..3]))
      && (3 <= n <= 7 ==> |r| == n + 3 && AllDigits(r[5..]))
      && (8 <= n <= MaxDigits ==> |r| == n + 4 && AllDigits(r[5..10]) && r[10] == '-' && AllDigits(r[11..]))
  {
    var d := Digits(valor);
    var r := FormatPhone(valor);
    if 3 <= |d| <= 7 {
      assert r[1..3] == d[..2] && r[5..] == d[2..];
    } else if 8 <= |d| <= MaxDigits {
      assert r[1..3] == d[..2] && r[5..10] == d[2..7] && r[11..] == d[7..];
    }
  }

  /** Masking an already-masked value changes nothing, for inputs of at most 11 digits. */
  lemma {:induction false} FormatPhoneIdempotent(valor: string)
    requires |Digits(valor)| <= MaxDigits
    ensures FormatPhone(FormatPhone(valor)) == FormatPhone(valor)
  {
    FormatPhoneDigits(valor);
  }

  /**
   With more than 11 digits the mask is NOT idempotent: the first call returns
   11 bare digits, which the second call punctuates.
   */
  lemma {:induction false} FormatPhoneNotIdempotentBeyond11(valor: string)
    requires |Digits(valor)| > MaxDigits
    ensures FormatPhone(FormatPhone(valor)) != FormatPhone(valor)
  {
    var r := FormatPhone(valor);
    DigitsOfDigitString(r);
    assert FormatPhone(r)[0] == '(';
    assert IsDigit(r[0]);
  }

  /**
   On a value the mask has written, the warning is shown exactly when the
   value is non-empty and would fail the length check on submit.
   */
  lemma {:induction false} WarningMatchesLengthCheck(valor: string)
    ensures var t := FormatPhone(valor);
      ShowsDigitWarning(t) <==> t != "" && CheckPhone(t).WrongLength?
  {
    FormatPhoneDigits(valor);
  }

  // ---------------------------------------------------------------------------
  // The validator's documented examples

  lemma {:induction false} DigitsOfAcceptedExample()
    ensures Digits("11987654321") == "11987654321"
  {
    DigitsOfDigitString("11987654321");
  }

  /** An 11-digit string of bare digits is masked as `(DD) NNNNN-NNNN`. */
  lemma {:induction false} FormatPhoneOfDigitString(n: string)
    requires |n| == MaxDigits && AllDigits(n)
    ensures FormatPhone(n) == "(" + n[..2] + ") " + n[2..7] + "-" + n[7..]
  {
    DigitsOfDigitString(n);
  }

  /** "11987654321" passes: area code 11, the literal 9, eight more digits. */
  lemma {:induction false} CheckPhoneAccepts()
    ensures CheckPhone("11987654321") == Accepted("11987654321")
  {
    DigitsOfAcceptedExample();
  }

  /**
   The same number, typed in, is shown as "(11) 98765-4321". The number is
   bound through a parameter so that the verifier does not evaluate the mask
   on the literal character by character, which is costly; the requires pins
   the one input.
   */
  lemma {:induction false} FormatPhoneExample(typed: string)
    requires typed == "11987654321"
    ensures FormatPhone(typed) == "(11) 98765-4321"
  {
    FormatPhoneOfDigitString(typed);
    assert typed[..2] == "11" && typed[2..7] == "98765" && typed[7..] == "4321";
  }

  /** "1187654321" has ten digits: the length error. */
  lemma {:induction false} CheckPhoneRejectsTenDigits()
    ensures CheckPhone("1187654321") == WrongLength
  {
  }

  /** "11887654321" has eleven digits but no 9 after the area code: the shape error. */
  lemma {:induction false} CheckPhoneRejectsLandlineShape()
    ensures CheckPhone("11887654321") == WrongShape
  {
  }
}
