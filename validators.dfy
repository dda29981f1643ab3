/**
 * Form validators. Each one is a rule a form field runs on its value: it
 * returns `true`, or the message to show. The string rules let the empty
 * string through (a separate `required` rule rejects it); the number rules
 * let only null and undefined through. `combine` runs rules in order and
 * reports the first message.
 */
module Validators {
  import opened Wrappers
  import opened Text
  import opened JsValues

  /** What a rule returns: `true`, or a message. */
  datatype Verdict = Pass | Fail(message: string)

  /** `ok || message` */
  function Check(ok: bool, message: string): (v: Verdict)
    ensures v.Pass? <==> ok
    ensures !ok ==> v == Fail(message)
  {
    if ok then Pass else Fail(message)
  }

  /** `message || fallback` for an optional message argument. */
  function MessageOr(message: Option<string>, fallback: string): string {
    if message.Some? && message.value != "" then message.value else fallback
  }

  const RequiredMessage: string := "필수 입력 항목입니다."
  const NumericMessage: string := "숫자만 입력 가능합니다."
  const AlphanumericMessage: string := "영문자와 숫자만 입력 가능합니다."
  const PhoneMessage: string := "올바른 전화번호 형식이 아닙니다."
  const PasswordMessage: string := "비밀번호는 최소 8자 이상이며, 대문자, 소문자, 숫자를 포함해야 합니다."
  const PasswordConfirmMessage: string := "비밀번호가 일치하지 않습니다."
  const IpMessage: string := "올바른 IP 주소 형식이 아닙니다."
  const PortMessage: string := "올바른 포트 번호가 아닙니다 (1-65535)."

  // ---------------------------------------------------------------------
  // required

  /** `required(message)(val)`: rejects null, undefined, blank strings and empty arrays. */
  function Required(message: string, val: Value): (v: Verdict)
    ensures v.Pass? <==> !IsNullish(val) && !(val.Str? && AllWhitespace(val.s)) && !(val.Arr? && |val.elems| == 0)
    ensures v.Fail? ==> v.message == message
  {
    if val.Null? || val.Undefined? then Fail(message)
    else if val.Str? then
      TrimEmptyIffWhitespace(val.s);
      if |Trim(val.s)| == 0 then Fail(message) else Pass
    else if val.Arr? && |val.elems| == 0 then Fail(message)
    else Pass
  }

  /** Falsy values that are not empty, such as `0` and `false`, pass `required`. */
  lemma RequiredKeepsFalsyValues(message: string)
    ensures Required(message, Num(0)) == Pass
    ensures Required(message, Bool(false)) == Pass
    ensures Required(message, Str(" \t ")).Fail?
  {
    assert AllWhitespace(" \t ") by {
      assert forall i :: 0 <= i < 3 ==> IsJsWhitespace(" \t "[i]);
    }
  }

  // ---------------------------------------------------------------------
  // lengths and ranges

  /** `minLength(min, message)(val)` */
  function MinLength(min: int, message: Option<string>, val: string): (v: Verdict)
    ensures val == "" ==> v == Pass
    ensures val != "" ==> (v.Pass? <==> |val| >= min)
    ensures v.Fail? ==> v.message == MessageOr(message, "최소 " + IntToString(min) + "자 이상 입력해주세요.")
  {
    if val == "" then Pass
    else Check(|val| >= min, MessageOr(message, "최소 " + IntToString(min) + "자 이상 입력해주세요."))
  }

  /** `maxLength(max, message)(val)` */
  function MaxLength(max: int, message: Option<string>, val: string): (v: Verdict)
    ensures val == "" ==> v == Pass
    ensures val != "" ==> (v.Pass? <==> |val| <= max)
    ensures v.Fail? ==> v.message == MessageOr(message, "최대 " + IntToString(max) + "자까지 입력 가능합니다.")
  {
    if val == "" then Pass
    else Check(|val| <= max, MessageOr(message, "최대 " + IntToString(max) + "자까지 입력 가능합니다."))
  }

  /** `exactLength(length, message)(val)` */
  function ExactLength(length: int, message: Option<string>, val: string): (v: Verdict)
    ensures val == "" ==> v == Pass
    ensures val != "" ==> (v.Pass? <==> |val| == length)
    ensures v.Fail? ==> v.message == MessageOr(message, "정확히 " + IntToString(length) + "자를 입력해주세요.")
  {
    if val == "" then Pass
    else Check(|val| == length, MessageOr(message, "정확히 " + IntToString(length) + "자를 입력해주세요."))
  }

  /** A non-empty value passes the exact-length rule exactly when it passes the minimum and maximum rules for that length. */
  lemma ExactIsMinAndMax(length: int, message: Option<string>, val: string)
    ensures ExactLength(length, message, val).Pass? <==>
      MinLength(length, message, val).Pass? && MaxLength(length, message, val).Pass?
  {
  }

  /** `minValue(min, message)(val)`: null and undefined pass; `0` is checked. */
  function MinValue(min: int, message: Option<string>, val: Option<int>): (v: Verdict)
    ensures val.None? ==> v == Pass
    ensures val.Some? ==> (v.Pass? <==> val.value >= min)
    ensures v.Fail? ==> v.message == MessageOr(message, "최소값은 " + IntToString(min) + "입니다.")
  {
    if val.None? then Pass
    else Check(val.value >= min, MessageOr(message, "최소값은 " + IntToString(min) + "입니다."))
  }

  /** `maxValue(max, message)(val)`: null and undefined pass; `0` is checked. */
  function MaxValue(max: int, message: Option<string>, val: Option<int>): (v: Verdict)
    ensures val.None? ==> v == Pass
    ensures val.Some? ==> (v.Pass? <==> val.value <= max)
    ensures v.Fail? ==> v.message == MessageOr(message, "최대값은 " + IntToString(max) + "입니다.")
  {
    if val.None? then Pass
    else Check(val.value <= max, MessageOr(message, "최대값은 " + IntToString(max) + "입니다."))
  }

  /** `portNumber(message)(val)`: 1 to 65535; null and undefined pass. */
  function PortNumber(message: string, val: Option<int>): (v: Verdict)
    ensures val.None? ==> v == Pass
    ensures val.Some? ==> (v.Pass? <==> 1 <= val.value <= 65535)
    ensures v.Fail? ==> v.message == message
  {
    if val.None? then Pass
    else Check(val.value >= 1 && val.value <= 65535, message)
  }

  /** The port rule is the minimum-1 rule and the maximum-65535 rule together. */
  lemma PortIsRange(message: string, val: Option<int>)
    ensures PortNumber(message, val).Pass? <==>
      MinValue(1, Some(message), val).Pass? && MaxValue(65535, Some(message), val).Pass?
  {
  }

  // ---------------------------------------------------------------------
  // character classes

  predicate IsAsciiAlnum(c: char) { IsDigit(c) || IsLowerAscii(c) || IsUpperAscii(c) }

  /** `numeric(message)(val)`: `/^\d+$/`, with '' allowed. */
  function Numeric(message: string, val: string): (v: Verdict)
    ensures v.Pass? <==> AllDigits(val)
    ensures v.Fail? ==> v == Fail(message) && val != ""
  {
    if val == "" then Pass else Check(AllDigits(val), message)
  }

  /** `alphanumeric(message)(val)`: `/^[a-zA-Z0-9]+$/`, with '' allowed. */
  function Alphanumeric(message: string, val: string): (v: Verdict)
    ensures v.Pass? <==> forall i :: 0 <= i < |val| ==> IsAsciiAlnum(val[i])
    ensures v.Fail? ==> v == Fail(message) && val != ""
  {
    if val == "" then Pass else Check(forall i :: 0 <= i < |val| ==> IsAsciiAlnum(val[i]), message)
  }

  /** Every numeric value is alphanumeric. */
  lemma NumericIsAlphanumeric(message: string, val: string)
    requires Numeric(message, val).Pass?
    ensures Alphanumeric(message, val).Pass?
  {
  }

  // ---------------------------------------------------------------------
  // phone numbers

  /** `/^(\d{2,3})-(\d{3,4})-(\d{4})$/`: digits cannot hold '-', so the three groups are the parts between the dashes. */
  predicate PhonePattern(s: string) {
    var parts := Split(s, '-');
    && |parts| == 3
    && 2 <= |parts[0]| <= 3 && AllDigits(parts[0])
    && 3 <= |parts[1]| <= 4 && AllDigits(parts[1])
    && |parts[2]| == 4 && AllDigits(parts[2])
  }

  /** `phoneNumber(message)(val)` */
  function PhoneNumber(message: string, val: string): (v: Verdict)
    ensures val == "" ==> v == Pass
    ensures val != "" ==> (v.Pass? <==> PhonePattern(val))
    ensures v.Fail? ==> v.message == message
  {
    if val == "" then Pass else Check(PhonePattern(val), message)
  }

  lemma DigitsFree(s: string, sep: char)
    requires AllDigits(s) && !IsDigit(sep)
    ensures Free(s, sep)
  {
  }

  lemma JoinThree(a: string, b: string, c: string, sep: char)
    ensures Join([a, b, c], sep) == a + [sep] + b + [sep] + c
  {
    assert [a, b, c][1..] == [b, c];
    assert [b, c][1..] == [c];
    assert Join([b, c], sep) == b + [sep] + c;
  }

  lemma JoinFour(a: string, b: string, c: string, d: string, sep: char)
    ensures Join([a, b, c, d], sep) == a + [sep] + b + [sep] + c + [sep] + d
  {
    assert [a, b, c, d][1..] == [b, c, d];
    JoinThree(b, c, d, sep);
  }

  /** Every string of the form DD[D]-DDD[D]-DDDD passes the phone rule. */
  lemma PhoneNumberAccepts(message: string, a: string, b: string, c: string)
    requires 2 <= |a| <= 3 && AllDigits(a)
    requires 3 <= |b| <= 4 && AllDigits(b)
    requires |c| == 4 && AllDigits(c)
    ensures PhoneNumber(message, a + "-" + b + "-" + c) == Pass
  {
    DigitsFree(a, '-');
    DigitsFree(b, '-');
    DigitsFree(c, '-');
    JoinThree(a, b, c, '-');
    SplitJoin([a, b, c], '-');
  }

  /** Every non-empty string that passes the phone rule has that form. */
  lemma PhoneNumberShape(message: string, s: string)
    requires s != "" && PhoneNumber(message, s) == Pass
    ensures exists a, b, c ::
      (s == a + "-" + b + "-" + c && 2 <= |a| <= 3 && AllDigits(a) && 3 <= |b| <= 4 && AllDigits(b) && |c| == 4 && AllDigits(c))
  {
    var parts := Split(s, '-');
    JoinSplit(s, '-');
    assert parts == [parts[0], parts[1], parts[2]];
    JoinThree(parts[0], parts[1], parts[2], '-');
    assert s == parts[0] + "-" + parts[1] + "-" + parts[2];
  }

  // ---------------------------------------------------------------------
  // passwords

  predicate HasLower(s: string) { exists i :: 0 <= i < |s| && IsLowerAscii(s[i]) }
  predicate HasUpper(s: string) { exists i :: 0 <= i < |s| && IsUpperAscii(s[i]) }
  predicate HasDigit(s: string) { exists i :: 0 <= i < |s| && IsDigit(s[i]) }

  /** `password(message)(val)`: at least 8 characters with a lowercase letter, an uppercase letter and a digit. */
  function Password(message: string, val: string): (v: Verdict)
    ensures v.Pass? <==> val == "" || (|val| >= 8 && HasLower(val) && HasUpper(val) && HasDigit(val))
    ensures v.Fail? ==> v == Fail(message)
  {
    if val == "" then Pass
    else if |val| < 8 then Fail(message)
    else if !HasLower(val) then Fail(message)
    else if !HasUpper(val) then Fail(message)
    else if !HasDigit(val) then Fail(message)
    else Pass
  }

  /** A value with all three kinds of character passes, and a long value missing uppercase fails. */
  lemma PasswordExamples(message: string)
    ensures Password(message, "Passw0rd") == Pass
    ensures Password(message, "password1") == Fail(message)
  {
    assert IsLowerAscii("Passw0rd"[1]) && IsUpperAscii("Passw0rd"[0]) && IsDigit("Passw0rd"[5]);
    assert forall i :: 0 <= i < 9 ==> !IsUpperAscii("password1"[i]);
  }

  /** `passwordConfirm(passwordValue, message)(val)`: strict equality, with no exemption for ''. */
  function PasswordConfirm(passwordValue: string, message: string, val: string): (v: Verdict)
    ensures v.Pass? <==> val == passwordValue
    ensures v.Fail? ==> v.message == message
  {
    Check(val == passwordValue, message)
  }

  // ---------------------------------------------------------------------
  // IPv4 addresses

  /** One octet of the address regex: `25[0-5]|2[0-4][0-9]|[01]?[0-9][0-9]?`. */
  predicate OctetPattern(s: string) {
    || (|s| == 3 && s[0] == '2' && s[1] == '5' && '0' <= s[2] <= '5')
    || (|s| == 3 && s[0] == '2' && '0' <= s[1] <= '4' && IsDigit(s[2]))
    || (1 <= |s| <= 2 && AllDigits(s))
    || (|s| == 3 && (s[0] == '0' || s[0] == '1') && IsDigit(s[1]) && IsDigit(s[2]))
  }

  lemma DigitsValueOfThree(s: string)
    requires |s| == 3 && AllDigits(s)
    ensures DigitsValue(s) == DigitValue(s[0]) * 100 + DigitValue(s[1]) * 10 + DigitValue(s[2])
  {
    var p := s[..2];
    assert AllDigits(p) && p[0] == s[0] && p[1] == s[1];
    DigitsValueOfTwo(p);
    assert DigitsValue(s) == DigitsValue(p) * 10 + DigitValue(s[2]);
  }

  lemma DigitsValueOfTwo(s: string)
    requires |s| == 2 && AllDigits(s)
    ensures DigitsValue(s) == DigitValue(s[0]) * 10 + DigitValue(s[1])
  {
    var p := s[..1];
    assert p[..0] == "" && p[0] == s[0];
    assert DigitsValue(p) == DigitValue(s[0]);
    assert DigitsValue(s) == DigitsValue(p) * 10 + DigitValue(s[1]);
  }

  /** An octet is one to three digits (leading zeros allowed) whose value is at most 255. */
  lemma OctetIsSmallNumber(s: string)
    ensures OctetPattern(s) <==> 1 <= |s| <= 3 && AllDigits(s) && DigitsValue(s) <= 255
  {
    if |s| == 3 && AllDigits(s) {
      DigitsValueOfThree(s);
    } else if |s| == 2 && AllDigits(s) {
      DigitsValueOfTwo(s);
    } else if |s| == 1 && AllDigits(s) {
      assert s[..0] == "";
    }
  }

  /** The decimal form of any number up to 255 is an octet. */
  lemma NumberIsOctet(n: nat)
    requires n <= 255
    ensures OctetPattern(NatToString(n))
  {
    NatToStringValue(n);
    NatToStringShort(n);
    OctetIsSmallNumber(NatToString(n));
  }

  /** The address regex: octets cannot hold '.', so the four octets are the parts between the dots. */
  predicate Ipv4Pattern(s: string) {
    var parts := Split(s, '.');
    |parts| == 4 && forall k :: 0 <= k < 4 ==> OctetPattern(parts[k])
  }

  /** `ipAddress(message)(val)` */
  function IpAddress(message: string, val: string): (v: Verdict)
    ensures val == "" ==> v == Pass
    ensures val != "" ==> (v.Pass? <==> Ipv4Pattern(val))
    ensures v.Fail? ==> v.message == message
  {
    if val == "" then Pass else Check(Ipv4Pattern(val), message)
  }

  lemma OctetFree(s: string)
    requires OctetPattern(s)
    ensures Free(s, '.')
  {
    OctetIsSmallNumber(s);
  }

  /** Four octets joined by dots pass the address rule. */
  lemma IpAddressAccepts(message: string, a: string, b: string, c: string, d: string)
    requires OctetPattern(a) && OctetPattern(b) && OctetPattern(c) && OctetPattern(d)
    ensures IpAddress(message, a + "." + b + "." + c + "." + d) == Pass
  {
    OctetFree(a);
    OctetFree(b);
    OctetFree(c);
    OctetFree(d);
    var parts := [a, b, c, d];
    JoinFour(a, b, c, d, '.');
    SplitJoin(parts, '.');
    assert Split(a + "." + b + "." + c + "." + d, '.') == parts;
  }

  /** An address whose first part is not an octet fails the address rule. */
  lemma IpAddressRejects(message: string, a: string, rest: string)
    requires Free(a, '.') && !OctetPattern(a)
    ensures IpAddress(message, a + "." + rest) == Fail(message)
  {
    assert a + "." + rest == a + (['.'] + rest);
    SplitFreePrefix(a, ['.'] + rest, '.');
    SplitLeadingSeparator(rest, '.');
    assert a + "" == a;
    var parts := Split(a + "." + rest, '.');
    assert parts[0] == a;
    assert !Ipv4Pattern(a + "." + rest) by {
      if |parts| == 4 {
        assert !OctetPattern(parts[0]);
      }
    }
  }

  /** A private-network address passes; one whose first number is 256 does not. */
  lemma IpAddressExamples(message: string)
    ensures IpAddress(message, "192.168.0.1") == Pass
    ensures IpAddress(message, "256.0.0.1") == Fail(message)
  {
    assert "192.168.0.1" == "192" + "." + "168" + "." + "0" + "." + "1";
    IpAddressAccepts(message, "192", "168", "0", "1");
    assert "256.0.0.1" == "256" + "." + "0.0.1";
    IpAddressRejects(message, "256", "0.0.1");
  }

  // ---------------------------------------------------------------------
  // combine

  /** The first verdict that is not `true`, running the rules in order; `true` when none fails. */
  function FirstFailure<T>(rules: seq<T -> Verdict>, val: T): (v: Verdict)
    ensures v.Pass? <==> forall i :: 0 <= i < |rules| ==> rules[i](val).Pass?
    ensures v.Fail? ==> exists i :: 0 <= i < |rules| && rules[i](val) == v && forall j :: 0 <= j < i ==> rules[j](val).Pass?
  {
    if |rules| == 0 then Pass
    else if rules[0](val).Fail? then rules[0](val)
    else
      var rest := FirstFailure(rules[1..], val);
      assert forall i :: 1 <= i < |rules| ==> rules[i] == rules[1..][i - 1];
      rest
  }

  /** `combine(...rules)(val)` */
  method Combine<T>(rules: seq<T -> Verdict>, val: T) returns (result: Verdict)
    ensures result == FirstFailure(rules, val)
  {
    var k := 0;
    while k < |rules|
      invariant 0 <= k <= |rules|
      invariant FirstFailure(rules, val) == FirstFailure(rules[k..], val)
    {
      var r := rules[k](val);
      if r != Pass {
        return r;
      }
      assert rules[k..][1..] == rules[k + 1..];
      k := k + 1;
    }
    result := Pass;
  }
}
