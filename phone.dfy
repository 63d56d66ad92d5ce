/**
 * Phone-number helpers of the store (config.js, `Utils.validatePhone` and
 * `Utils.cleanPhone`): a validator for Indonesian mobile numbers and a cleaner
 * that reduces any input to digits in the international `62…` form.
 */
module PhoneUtils {

  /** A decimal digit, as matched by the regular-expression class `\d` / `[0-9]`. */
  predicate IsDigit(c: char)
  {
    '0' <= c <= '9'
  }

  predicate AllDigits(s: string)
  {
    forall i :: 0 <= i < |s| ==> IsDigit(s[i])
  }

  predicate StartsWith(s: string, prefix: string)
  {
    |prefix| <= |s| && s[..|prefix|] == prefix
  }

  /**
   * The input with every non-digit removed (`replace(/\D/g, '')`): the digits,
   * in their original order.
   */
  function Digits(s: string): (r: string)
    ensures AllDigits(r)
    ensures |r| <= |s|
    ensures AllDigits(s) ==> r == s
  {
    if s == [] then []
    else if IsDigit(s[0]) then [s[0]] + Digits(s[1..])
    else Digits(s[1..])
  }

  /** Removing non-digits works piecewise: the digits of a concatenation are the concatenated digits. */
  lemma {:induction false} DigitsAppend(a: string, b: string)
    ensures Digits(a + b) == Digits(a) + Digits(b)
  {
    if a == [] {
      assert a + b == b;
    } else {
      assert (a + b)[1..] == a[1..] + b;
      DigitsAppend(a[1..], b);
    }
  }

  /** A string made only of non-digits contributes nothing. */
  lemma {:induction false} DigitsOfNonDigits(s: string)
    requires forall i :: 0 <= i < |s| ==> !IsDigit(s[i])
    ensures Digits(s) == []
  {
    if s != [] {
      DigitsOfNonDigits(s[1..]);
    }
  }

  /** Removing non-digits twice is the same as removing them once. */
  lemma DigitsIdempotent(s: string)
    ensures Digits(Digits(s)) == Digits(s)
  {
  }

  /**
   * `Utils.cleanPhone`: strip the non-digits, then rewrite a local prefix to the
   * international one: `08…` loses its `0` and gains `62`, `8…` gains `62`,
   * anything else is returned as it is.
   */
  function CleanPhone(phone: string): (r: string)
    ensures AllDigits(r)
    ensures |Digits(phone)| <= |r| <= |Digits(phone)| + 2
    ensures !StartsWith(Digits(phone), "8") && !StartsWith(Digits(phone), "08") ==> r == Digits(phone)
    ensures StartsWith(Digits(phone), "8") || StartsWith(Digits(phone), "08") ==> StartsWith(r, "628")
  {
    var cleaned := Digits(phone);
    if StartsWith(cleaned, "08") then "62" + cleaned[1..]
    else if StartsWith(cleaned, "8") then "62" + cleaned
    else cleaned
  }

  /** The three rewriting cases of `cleanPhone`, stated on the digit string. */
  lemma CleanPhoneCases(phone: string)
    ensures var d := Digits(phone);
      && (StartsWith(d, "08") ==> CleanPhone(phone) == "62" + d[1..])
      && (!StartsWith(d, "08") && StartsWith(d, "8") ==> CleanPhone(phone) == "62" + d)
      && (!StartsWith(d, "08") && !StartsWith(d, "8") ==> CleanPhone(phone) == d)
  {
  }

  /** Separators and other non-digits in the input do not change the cleaned number. */
  lemma CleanPhoneIgnoresFormatting(phone: string)
    ensures CleanPhone(phone) == CleanPhone(Digits(phone))
  {
  }

  /**
   * `cleanPhone` is idempotent: a cleaned number is digits only, and when a
   * rewrite happened it starts with `62`, which neither rewrite matches.
   */
  lemma CleanPhoneIdempotent(phone: string)
    ensures CleanPhone(CleanPhone(phone)) == CleanPhone(phone)
  {
    var r := CleanPhone(phone);
    assert Digits(r) == r;
    if StartsWith(Digits(phone), "8") || StartsWith(Digits(phone), "08") {
      assert r[0] == '6';
    }
  }

  /** A digit string starting with `8` cleans to the same number whether or not a `0` is put in front. */
  lemma CleanPhoneLocalForms(s: string)
    requires AllDigits(s) && StartsWith(s, "8")
    ensures CleanPhone(s) == "62" + s
    ensures CleanPhone("0" + s) == "62" + s
  {
    var local := "0" + s;
    assert AllDigits(local) by {
      forall i | 0 <= i < |local| ensures IsDigit(local[i]) {
        if i > 0 { assert local[i] == s[i - 1]; }
      }
    }
    assert local[..2] == "08" && local[1..] == s;
    assert !StartsWith(s, "08") by {
      if |s| >= 2 { assert s[..2][0] == s[..1][0]; }
    }
  }

  /** The two local spellings of the same number clean to one international number. */
  lemma CleanPhoneExamples(local: string, bare: string)
    requires local == "081234567890" && bare == "81234567890"
    ensures CleanPhone(local) == "6281234567890"
    ensures CleanPhone(bare) == "6281234567890"
  {
    var tail := "1234567890";
    ExampleSpellings(tail);
    assert AllDigits("8") && AllDigits(tail);
    AllDigitsAppend("8", tail);
    CleanPhoneLocalForms("8" + tail);
  }

  /** How the sample numbers are spelled out of a common tail. */
  lemma ExampleSpellings(tail: string)
    requires tail == "1234567890"
    ensures "81234567890" == "8" + tail
    ensures "081234567890" == "0" + ("8" + tail)
    ensures "6281234567890" == "62" + ("8" + tail)
  {
  }

  /** Two digit strings concatenate to a digit string. */
  lemma AllDigitsAppend(a: string, b: string)
    requires AllDigits(a) && AllDigits(b)
    ensures AllDigits(a + b) && StartsWith(a + b, a)
  {
    assert forall i :: 0 <= i < |b| ==> (a + b)[|a| + i] == b[i];
    assert (a + b)[..|a|] == a;
  }

  /** Separators (any run of non-digits) inserted anywhere in the input do not change the cleaned number. */
  lemma {:induction false} CleanPhoneSeparatorInsensitive(a: string, sep: string, b: string)
    requires forall i :: 0 <= i < |sep| ==> !IsDigit(sep[i])
    ensures CleanPhone(a + sep + b) == CleanPhone(a + b)
  {
    DigitsOfNonDigits(sep);
    DigitsAppend(a, sep);
    DigitsAppend(a + sep, b);
    DigitsAppend(a, b);
    assert Digits(a + sep + b) == Digits(a + b);
    CleanPhoneOfSameDigits(a + sep + b, a + b);
  }

  /** The cleaned number depends only on the digits of the input. */
  lemma CleanPhoneOfSameDigits(p: string, q: string)
    requires Digits(p) == Digits(q)
    ensures CleanPhone(p) == CleanPhone(q)
  {
  }

  /**
   * What follows the prefix in `^(\+62|62|0)8[1-9][0-9]{6,9}$`: an `8`, a digit
   * other than `0`, then six to nine digits.
   */
  predicate Subscriber(s: string)
  {
    && 8 <= |s| <= 11
    && s[0] == '8'
    && '1' <= s[1] <= '9'
    && AllDigits(s[2..])
  }

  /** `phone` is `prefix` followed by a subscriber part. */
  predicate MatchesAfter(phone: string, prefix: string)
  {
    StartsWith(phone, prefix) && Subscriber(phone[|prefix|..])
  }

  /** `Utils.validatePhone`: the regular expression `^(\+62|62|0)8[1-9][0-9]{6,9}$`, one alternative per prefix. */
  predicate ValidatePhone(phone: string): (ok: bool)
    ensures ok ==> 9 <= |phone| <= 14
    ensures ok ==> phone[0] in {'+', '6', '0'}
  {
    MatchesAfter(phone, "+62") || MatchesAfter(phone, "62") || MatchesAfter(phone, "0")
  }

  /** The three accepted prefixes. */
  predicate LocalOrInternational(prefix: string)
  {
    prefix == "+62" || prefix == "62" || prefix == "0"
  }

  /** Every string built as the regular expression describes is accepted. */
  lemma ValidatePhoneAccepts(prefix: string, s: string)
    requires LocalOrInternational(prefix) && Subscriber(s)
    ensures ValidatePhone(prefix + s)
  {
    assert (prefix + s)[..|prefix|] == prefix;
    assert (prefix + s)[|prefix|..] == s;
  }

  /** Every accepted string is one of the three prefixes followed by a subscriber part. */
  lemma ValidatePhoneParts(phone: string) returns (prefix: string, s: string)
    requires ValidatePhone(phone)
    ensures LocalOrInternational(prefix) && Subscriber(s) && phone == prefix + s
  {
    if MatchesAfter(phone, "+62") {
      prefix := "+62";
    } else if MatchesAfter(phone, "62") {
      prefix := "62";
    } else {
      prefix := "0";
    }
    s := phone[|prefix|..];
    assert phone == phone[..|prefix|] + s;
  }

  /** A subscriber part is made of digits only. */
  lemma SubscriberDigits(s: string)
    requires Subscriber(s)
    ensures AllDigits(s)
  {
    assert s == s[..2] + s[2..];
    forall i | 0 <= i < |s|
      ensures IsDigit(s[i])
    {
      if i >= 2 {
        assert s[i] == s[2..][i - 2];
      }
    }
  }

  /**
   * Every number the validator accepts cleans to `62` followed by its subscriber
   * part; in particular the result starts with `628` and is itself accepted.
   */
  lemma {:induction false} ValidPhoneCleansToInternational(phone: string)
    requires ValidatePhone(phone)
    ensures StartsWith(CleanPhone(phone), "628")
    ensures ValidatePhone(CleanPhone(phone))
    ensures exists prefix :: (LocalOrInternational(prefix) && StartsWith(phone, prefix)
                              && CleanPhone(phone) == "62" + phone[|prefix|..])
  {
    var prefix, s := ValidatePhoneParts(phone);
    SubscriberDigits(s);
    DigitsAppend(prefix, s);
    assert Digits(s) == s;
    var clean := "62" + s;
    if prefix == "+62" {
      assert prefix == "+" + "62";
      DigitsAppend("+", "62");
      DigitsOfNonDigits("+");
      assert AllDigits("62");
      assert Digits(phone) == clean;
    } else if prefix == "62" {
      assert AllDigits("62");
      assert Digits(phone) == clean;
    } else {
      assert AllDigits("0");
      assert Digits(phone) == "0" + s;
      assert ("0" + s)[1..] == s;
    }
    assert clean[..3] == "628";
    assert CleanPhone(phone) == clean;
    ValidatePhoneAccepts("62", s);
    assert phone[..|prefix|] == prefix && phone[|prefix|..] == s;
  }
}
