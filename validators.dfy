/**
 * The field rules every form's `validate` applies, and the JavaScript
 * built-ins they rest on: `String.prototype.trim`, the regular expression
 * `/\S+@\S+\.\S+/` used through `test`, `parseInt` with no radix, and the
 * UTF-16 `length` of a string.
 */
module Validators {
  import opened FormCore

  /**
   * A JavaScript white-space or line-terminator character: the set that
   * `trim` strips, that `parseInt` skips and that `\s` matches (`\S` is its
   * complement). The space separators are those of Unicode category Zs.
   */
  predicate IsSpace(c: char)
  {
    || c == '\t' || c == '\n' || c == '\U{B}' || c == '\U{C}' || c == '\r' || c == ' '
    || c == '\U{A0}' || c == '\U{1680}' || ('\U{2000}' <= c <= '\U{200A}')
    || c == '\U{2028}' || c == '\U{2029}' || c == '\U{202F}' || c == '\U{205F}'
    || c == '\U{3000}' || c == '\U{FEFF}'
  }

  /** `s` with its leading white space removed. */
  function TrimStart(s: string): string
  {
    if s != [] && IsSpace(s[0]) then TrimStart(s[1..]) else s
  }

  /** `s` with its trailing white space removed. */
  function TrimEnd(s: string): string
  {
    if s != [] && IsSpace(s[|s| - 1]) then TrimEnd(s[..|s| - 1]) else s
  }

  /** `TrimStart` removes a run of white space from the front of `s`, and only that. */
  lemma {:induction false} TrimStartSpec(s: string)
    ensures var r := TrimStart(s);
      && |r| <= |s| && r == s[|s| - |r|..]
      && (forall i :: 0 <= i < |s| - |r| ==> IsSpace(s[i]))
      && (r != [] ==> !IsSpace(r[0]))
  {
    if s != [] && IsSpace(s[0]) {
      var t := s[1..];
      TrimStartSpec(t);
      var r := TrimStart(s);
      assert r == TrimStart(t);
      assert t[|t| - |r|..] == s[|s| - |r|..];
      forall i | 0 <= i < |s| - |r|
        ensures IsSpace(s[i])
      {
        if i > 0 {
          assert s[i] == t[i - 1];
        }
      }
    }
  }

  /** `TrimEnd` removes a run of white space from the back of `s`, and only that. */
  lemma {:induction false} TrimEndSpec(s: string)
    ensures var r := TrimEnd(s);
      && |r| <= |s| && r == s[..|r|]
      && (forall i :: |r| <= i < |s| ==> IsSpace(s[i]))
      && (r != [] ==> !IsSpace(r[|r| - 1]))
  {
    if s != [] && IsSpace(s[|s| - 1]) {
      var t := s[..|s| - 1];
      TrimEndSpec(t);
      var r := TrimEnd(s);
      assert r == TrimEnd(t);
      assert t[..|r|] == s[..|r|];
      forall i | |r| <= i < |s|
        ensures IsSpace(s[i])
      {
        if i < |t| {
          assert s[i] == t[i];
        }
      }
    }
  }

  /** `s.trim()`. */
  function Trim(s: string): string
  {
    TrimEnd(TrimStart(s))
  }

  /** `!s.trim()`: the trimmed string is empty. */
  predicate IsBlank(s: string)
  {
    Trim(s) == ""
  }

  /** A string is blank exactly when every one of its characters is white space. */
  lemma BlankIffAllSpace(s: string)
    ensures IsBlank(s) <==> forall i :: 0 <= i < |s| ==> IsSpace(s[i])
  {
    var t := TrimStart(s);
    TrimStartSpec(s);
    TrimEndSpec(t);
    if t != [] {
      assert !IsSpace(t[0]) && t[0] == s[|s| - |t|];
      assert TrimEnd(t) != [];
    }
  }

  /** `s[i..j]` is a non-empty run of non-space characters: a match of `\S+`. */
  predicate NonSpaceRun(s: string, i: int, j: int)
  {
    0 <= i < j <= |s| && forall k :: i <= k < j ==> !IsSpace(s[k])
  }

  /** `s[i..l]` matches `\S+@\S+\.\S+`, with the `@` at `j` and the `.` at `k`. */
  predicate EmailMatchAt(s: string, i: int, j: int, k: int, l: int)
  {
    && NonSpaceRun(s, i, j)
    && j < |s| && s[j] == '@'
    && NonSpaceRun(s, j + 1, k)
    && k < |s| && s[k] == '.'
    && NonSpaceRun(s, k + 1, l)
  }

  /** `/\S+@\S+\.\S+/.test(s)`: the pattern is not anchored, so any substring may match. */
  predicate EmailOk(s: string)
  {
    exists i, j, k, l | 0 <= i < |s| && 0 <= j < |s| && 0 <= k < |s| && 0 <= l <= |s| ::
      EmailMatchAt(s, i, j, k, l)
  }

  /**
   * The shortest match around an `@` at `j` and a `.` at `k`: one non-space
   * character before the `@`, a non-space run from after the `@` up to the
   * `.`, and one non-space character after the `.`.
   */
  predicate EmailShapeAt(s: string, j: int, k: int)
  {
    && 1 <= j < |s| && s[j] == '@' && !IsSpace(s[j - 1])
    && NonSpaceRun(s, j + 1, k) && k + 1 < |s| && s[k] == '.' && !IsSpace(s[k + 1])
  }

  lemma EmailOkHasShape(s: string)
    requires EmailOk(s)
    ensures exists j, k | 0 <= j < |s| && 0 <= k < |s| :: EmailShapeAt(s, j, k)
  {
    var i, j, k, l :| 0 <= i < |s| && 0 <= j < |s| && 0 <= k < |s| && 0 <= l <= |s| &&
      EmailMatchAt(s, i, j, k, l);
    assert EmailShapeAt(s, j, k);
  }

  lemma EmailShapeIsMatch(s: string, j: int, k: int)
    requires EmailShapeAt(s, j, k)
    ensures EmailOk(s)
  {
    assert EmailMatchAt(s, j - 1, j, k, k + 2);
  }

  /**
   * The pattern matches exactly when some `@` has a non-space character just
   * before it and is followed by a non-empty run of non-space characters
   * ending in a `.` that is itself followed by a non-space character.
   */
  lemma EmailOkIff(s: string)
    ensures EmailOk(s) <==> exists j, k | 0 <= j < |s| && 0 <= k < |s| :: EmailShapeAt(s, j, k)
  {
    if EmailOk(s) {
      EmailOkHasShape(s);
    }
    if exists j, k | 0 <= j < |s| && 0 <= k < |s| :: EmailShapeAt(s, j, k) {
      var j, k :| 0 <= j < |s| && 0 <= k < |s| && EmailShapeAt(s, j, k);
      EmailShapeIsMatch(s, j, k);
    }
  }

  /** Sample addresses: one the pattern accepts and three it rejects. */
  lemma EmailSamples()
    ensures EmailOk("a@b.co")
    ensures !EmailOk("abc") && !EmailOk("a@b") && !EmailOk("a.b@")
  {
    EmailShapeIsMatch("a@b.co", 1, 3);
    EmailOkIff("abc");
    EmailOkIff("a@b");
    EmailOkIff("a.b@");
  }

  /** The value of `c` as a digit of base 36 (`0`-`9`, then `a`-`z` in either case); 36 for any other character. */
  function DigitValue(c: char): (d: nat)
    ensures d <= 36
  {
    if '0' <= c <= '9' then c as nat - '0' as nat
    else if 'a' <= c <= 'z' then c as nat - 'a' as nat + 10
    else if 'A' <= c <= 'Z' then c as nat - 'A' as nat + 10
    else 36
  }

  /** The longest prefix of `s` made of digits of the given radix. */
  function DigitPrefix(s: string, radix: nat): string
  {
    if s != [] && DigitValue(s[0]) < radix then [s[0]] + DigitPrefix(s[1..], radix) else []
  }

  /** `DigitPrefix` is the longest prefix of digits: a prefix, all digits, and stopped by a non-digit or the end. */
  lemma {:induction false} DigitPrefixSpec(s: string, radix: nat)
    ensures var d := DigitPrefix(s, radix);
      && |d| <= |s| && d == s[..|d|]
      && (forall i :: 0 <= i < |d| ==> DigitValue(d[i]) < radix)
      && (|d| < |s| ==> DigitValue(s[|d|]) >= radix)
  {
    if s != [] && DigitValue(s[0]) < radix {
      DigitPrefixSpec(s[1..], radix);
      var d := DigitPrefix(s, radix);
      assert forall i :: 1 <= i < |d| ==> d[i] == DigitPrefix(s[1..], radix)[i - 1];
    }
  }

  /** The number the digit string `ds` denotes in the given radix (most significant digit first). */
  function DigitsValue(ds: string, radix: nat): nat
  {
    if ds == [] then 0
    else DigitsValue(ds[..|ds| - 1], radix) * radix + DigitValue(ds[|ds| - 1])
  }

  /** A digit string denotes a positive number exactly when one of its digits is not zero. */
  lemma {:induction false} DigitsValuePositive(ds: string, radix: nat)
    requires radix > 0
    ensures DigitsValue(ds, radix) > 0 <==> exists i :: 0 <= i < |ds| && DigitValue(ds[i]) != 0
  {
    if ds != [] {
      var init, last := ds[..|ds| - 1], ds[|ds| - 1];
      DigitsValuePositive(init, radix);
      var v := DigitsValue(init, radix);
      assert DigitsValue(ds, radix) == v * radix + DigitValue(last);
      ProductPositive(v, radix);
      if exists i :: 0 <= i < |ds| && DigitValue(ds[i]) != 0 {
        var i :| 0 <= i < |ds| && DigitValue(ds[i]) != 0;
        if i < |init| {
          assert init[i] == ds[i];
        }
      }
      if exists i :: 0 <= i < |init| && DigitValue(init[i]) != 0 {
        var i :| 0 <= i < |init| && DigitValue(init[i]) != 0;
        assert ds[i] == init[i];
      }
    }
  }

  lemma ProductPositive(a: nat, b: nat)
    requires b > 0
    ensures a * b > 0 <==> a > 0
  {
    if a > 0 {
      assert a * b >= b;
    }
  }

  /** The sign character `parseInt` accepts in front of the digits. */
  predicate IsSign(c: char)
  {
    c == '-' || c == '+'
  }

  /** What `parseInt` reads before it computes: the sign, the radix and the run of digits. */
  datatype Scan = Scan(negative: bool, radix: nat, digits: string)

  /**
   * The reading half of `parseInt(s)` without a radix: skip leading white
   * space, take one optional sign, then the longest run of hexadecimal
   * digits after a `0x`/`0X` prefix, of decimal digits otherwise.
   */
  function ScanInt(s: string): (sc: Scan)
    ensures sc.radix == 10 || sc.radix == 16
    ensures var t := TrimStart(s);
      var u := if t != [] && IsSign(t[0]) then t[1..] else t;
      && (sc.negative <==> t != [] && t[0] == '-')
      && (sc.radix == 16 <==> |u| >= 2 && u[0] == '0' && (u[1] == 'x' || u[1] == 'X'))
      && sc.digits == DigitPrefix(if sc.radix == 16 then u[2..] else u, sc.radix)
  {
    var t := TrimStart(s);
    var negative := t != [] && t[0] == '-';
    var u := if t != [] && IsSign(t[0]) then t[1..] else t;
    var hex := |u| >= 2 && u[0] == '0' && (u[1] == 'x' || u[1] == 'X');
    var radix := if hex then 16 else 10;
    Scan(negative, radix, DigitPrefix(if hex then u[2..] else u, radix))
  }

  /** `parseInt(s)`, None standing for `NaN` (no digit at all). `-0` is returned as 0. */
  function JsParseInt(s: string): Option<int>
  {
    var sc := ScanInt(s);
    var magnitude: int := DigitsValue(sc.digits, sc.radix);
    if sc.digits == [] then None else Some(if sc.negative then -magnitude else magnitude)
  }

  /** The numeric rule: `!s || isNaN(parseInt(s)) || parseInt(s) <= 0` is false. */
  predicate PositiveInt(s: string)
  {
    s != "" && JsParseInt(s).Some? && JsParseInt(s).value > 0
  }

  /** The numeric rule in terms of the characters: no minus sign, and a digit read that is not zero. */
  lemma PositiveIntIff(s: string)
    ensures PositiveInt(s) <==>
      !ScanInt(s).negative && exists i :: 0 <= i < |ScanInt(s).digits| && DigitValue(ScanInt(s).digits[i]) != 0
  {
    var sc := ScanInt(s);
    DigitsValuePositive(sc.digits, sc.radix);
    if sc.digits != [] {
      assert |TrimStart(s)| > 0;
    }
  }

  lemma ScanLeadingDigit(s: string)
    requires s != [] && '0' <= s[0] <= '9' && !(|s| >= 2 && s[0] == '0' && (s[1] == 'x' || s[1] == 'X'))
    ensures ScanInt(s) == Scan(false, 10, DigitPrefix(s, 10))
  {
    assert !IsSpace(s[0]) && !IsSign(s[0]);
    assert TrimStart(s) == s;
  }

  lemma ParseZero() ensures JsParseInt("0") == Some(0)
  {
    ScanLeadingDigit("0");
    assert DigitPrefix("0", 10) == "0";
    assert DigitsValue("0", 10) == 0;
  }

  lemma ParseMinusFive() ensures JsParseInt("-5") == Some(-5)
  {
    var s := "-5";
    assert !IsSpace(s[0]) && IsSign(s[0]) && s[0] == '-';
    assert TrimStart(s) == s;
    var u := s[1..];
    assert u == "5" && |u| < 2;
    assert DigitPrefix(u, 10) == "5";
    assert ScanInt(s) == Scan(true, 10, "5");
    assert DigitsValue("5", 10) == 5;
  }

  lemma ParseLetters() ensures JsParseInt("abc") == None
  {
    var s := "abc";
    assert !IsSpace(s[0]) && !IsSign(s[0]) && s[0] != '0';
    assert TrimStart(s) == s;
    assert DigitValue(s[0]) == 10;
    assert DigitPrefix(s, 10) == "";
    assert ScanInt(s).digits == "";
  }

  lemma ParseOne() ensures JsParseInt("1") == Some(1)
  {
    ScanLeadingDigit("1");
    assert DigitPrefix("1", 10) == "1";
    assert DigitsValue("1", 10) == 1;
  }

  lemma ParseNineHundredNinetyNine() ensures JsParseInt("999") == Some(999)
  {
    ScanLeadingDigit("999");
    assert DigitPrefix("999", 10) == "999";
    assert "999"[..2] == "99" && "99"[..1] == "9";
    assert DigitsValue("999", 10) == 999;
  }

  lemma ParseWithUnit() ensures JsParseInt("7m") == Some(7)
  {
    ScanLeadingDigit("7m");
    assert "7m"[1..] == "m" && DigitPrefix("m", 10) == "";
    assert DigitPrefix("7m", 10) == "7";
    assert DigitsValue("7", 10) == 7;
  }

  /** "0", "-5" and "abc" fail the numeric rule. */
  lemma NonPositiveSamples()
    ensures !PositiveInt("0") && !PositiveInt("-5") && !PositiveInt("abc")
  {
    ParseZero();
    ParseMinusFive();
    ParseLetters();
  }

  /** "1" and "999" pass the numeric rule (the threshold is zero), and so does "7m", read up to its first non-digit. */
  lemma PositiveSamples()
    ensures PositiveInt("1") && PositiveInt("999") && PositiveInt("7m")
  {
    ParseOne();
    ParseNineHundredNinetyNine();
    ParseWithUnit();
  }

  lemma ScanHex()
    ensures ScanInt("0x1A") == Scan(false, 16, "1A")
  {
    var s := "0x1A";
    assert !IsSpace(s[0]) && !IsSign(s[0]);
    assert TrimStart(s) == s;
    assert s[2..] == "1A" && "1A"[1..] == "A";
    assert DigitPrefix("1A", 16) == "1A";
  }

  /** Without a radix argument `parseInt` reads "0x1A" as hexadecimal. */
  lemma HexSample()
    ensures JsParseInt("0x1A") == Some(26)
  {
    ScanHex();
    assert "1A"[..1] == "1" && "1"[..0] == "";
    assert DigitsValue("1A", 16) == 26;
  }

  /** Decimal rendering of a number, as a template literal `${n}` writes it. */
  function DecimalString(n: nat): (r: string)
    ensures r != []
  {
    var d := ["0123456789"[n % 10]];
    if n < 10 then d else DecimalString(n / 10) + d
  }

  lemma {:induction false} DecimalStringValue(n: nat)
    ensures DigitsValue(DecimalString(n), 10) == n
  {
    var d := ["0123456789"[n % 10]];
    assert DigitValue(d[0]) == n % 10;
    if n >= 10 {
      DecimalStringValue(n / 10);
      var r := DecimalString(n / 10) + d;
      assert r[..|r| - 1] == DecimalString(n / 10);
    }
  }

  /** The rendering is all decimal digits, with no leading zero. */
  lemma {:induction false} DecimalStringDigits(n: nat)
    ensures var r := DecimalString(n);
      && (forall i :: 0 <= i < |r| ==> DigitValue(r[i]) < 10)
      && (r[0] == '0' ==> n == 0)
  {
    if n >= 10 {
      DecimalStringDigits(n / 10);
    }
  }

  /** `parseInt` reads back the number a template literal rendered. */
  lemma DecimalStringRoundTrip(n: nat)
    ensures JsParseInt(DecimalString(n)) == Some(n)
  {
    var r := DecimalString(n);
    DecimalStringDigits(n);
    ScanLeadingDigit(r);
    DigitPrefixSpec(r, 10);
    assert DigitPrefix(r, 10) == r;
    DecimalStringValue(n);
  }

  /** `s.length`: the number of UTF-16 code units, two for a character outside the Basic Multilingual Plane. */
  function Utf16Length(s: string): (n: nat)
    ensures |s| <= n <= 2 * |s|
  {
    if s == [] then 0
    else (if s[0] as int > 0xFFFF then 2 else 1) + Utf16Length(s[1..])
  }

  // Each rule below gives the message to record, or None when the value passes.

  /** Required text: `if (!value.trim())`. */
  function RequiredText(value: string, msg: string): (r: Option<string>)
    ensures r.Some? <==> IsBlank(value)
    ensures r.Some? ==> r.value == msg
  {
    if IsBlank(value) then Some(msg) else None
  }

  /** The required-text rule in terms of the characters: a message exactly when every character is white space. */
  lemma RequiredTextAllSpace(value: string, msg: string)
    ensures RequiredText(value, msg).Some? <==> forall i :: 0 <= i < |value| ==> IsSpace(value[i])
  {
    BlankIffAllSpace(value);
  }

  /** Required select, date or time, and the login password: `if (!value)`, with no trim. */
  function RequiredValue(value: string, msg: string): (r: Option<string>)
    ensures r.Some? <==> value == ""
    ensures r.Some? ==> r.value == msg
  {
    if value == "" then Some(msg) else None
  }

  /** The email rule: the required message when blank after trim, else the format message when the untrimmed value has no match. */
  function EmailRule(value: string, requiredMsg: string, formatMsg: string): (r: Option<string>)
    ensures IsBlank(value) ==> r == Some(requiredMsg)
    ensures !IsBlank(value) && !EmailOk(value) ==> r == Some(formatMsg)
    ensures !IsBlank(value) && EmailOk(value) ==> r == None
  {
    if IsBlank(value) then Some(requiredMsg)
    else if !EmailOk(value) then Some(formatMsg)
    else None
  }

  /** A blank address is never a match, so the format message is only ever given for a non-blank one. */
  lemma BlankEmailNeverMatches(s: string)
    requires IsBlank(s)
    ensures !EmailOk(s)
  {
    BlankIffAllSpace(s);
  }

  /**
   * The email rule in terms of the characters: no message exactly when the
   * shape of an address occurs somewhere in the value, and the "required"
   * message whenever the value is all white space.
   */
  lemma EmailRuleShape(value: string, requiredMsg: string, formatMsg: string)
    ensures EmailRule(value, requiredMsg, formatMsg) == None <==>
      exists j, k | 0 <= j < |value| && 0 <= k < |value| :: EmailShapeAt(value, j, k)
    ensures (forall i :: 0 <= i < |value| ==> IsSpace(value[i])) ==>
      EmailRule(value, requiredMsg, formatMsg) == Some(requiredMsg)
  {
    EmailOkIff(value);
    BlankIffAllSpace(value);
    if IsBlank(value) {
      BlankEmailNeverMatches(value);
    }
  }

  /** The numeric rule for area, rooms, price and budget. */
  function PositiveIntRule(value: string, msg: string): (r: Option<string>)
    ensures r.Some? <==> !PositiveInt(value)
    ensures r.Some? ==> r.value == msg
  {
    if PositiveInt(value) then None else Some(msg)
  }

  /** The numeric rule in terms of the characters: no message exactly when no minus sign is read and a digit read is not zero. */
  lemma PositiveIntRuleDigits(value: string, msg: string)
    ensures PositiveIntRule(value, msg) == None <==>
      !ScanInt(value).negative &&
      exists i :: 0 <= i < |ScanInt(value).digits| && DigitValue(ScanInt(value).digits[i]) != 0
  {
    PositiveIntIff(value);
  }

  /** The consent checkbox: `if (!privacyAccepted)`. */
  function ConsentRule(accepted: bool, msg: string): (r: Option<string>)
    ensures r.Some? <==> !accepted
    ensures r.Some? ==> r.value == msg
  {
    if accepted then None else Some(msg)
  }

  /** The minimum password length of registration. */
  const MinPasswordLength := 6

  /** `if (password.length < 6)`, the length counted in UTF-16 code units and not trimmed. */
  function PasswordLengthRule(password: string, msg: string): (r: Option<string>)
    ensures r.Some? <==> Utf16Length(password) < MinPasswordLength
    ensures |password| >= MinPasswordLength ==> r == None
    ensures r.Some? ==> r.value == msg
  {
    if Utf16Length(password) < MinPasswordLength then Some(msg) else None
  }

  /** `if (password !== confirmPassword)`: exact equality, no trim. */
  function ConfirmationRule(password: string, confirmation: string, msg: string): (r: Option<string>)
    ensures r.Some? <==> password != confirmation
    ensures r.Some? ==> r.value == msg
  {
    if password == confirmation then None else Some(msg)
  }
}
