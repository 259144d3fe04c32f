/** The arithmetic challenge (src/controllers/mathcaptcha.ts): two operands drawn
    from a random number, a question text, and a checker that reads the answer with
    ECMAScript `parseInt(s, 10)` (ECMA-262, section 19.2.5) and compares it with the
    sum. The random draws are parameters here. */
module MathCaptcha {

  /** The value of `parseInt`: NaN, or an integer (kept exact; see README). */
  datatype JsNumber = NaN | Int(value: int)

  /** A generated challenge: the question shown to the user and the sum the checker
      closure compares against. */
  datatype Captcha = Captcha(question: string, answer: nat)

  /** ECMAScript StrWhiteSpaceChar: WhiteSpace (TAB, VT, FF, ZWNBSP and every space
      separator of category Zs) or LineTerminator (LF, CR, LS, PS). */
  predicate IsStrWhiteSpace(ch: char) {
    || ch == '\t' || ch == '\U{000B}' || ch == '\U{000C}' || ch == '\U{FEFF}'
    || ch == ' ' || ch == '\U{00A0}' || ch == '\U{1680}'
    || ('\U{2000}' <= ch <= '\U{200A}')
    || ch == '\U{202F}' || ch == '\U{205F}' || ch == '\U{3000}'
    || ch == '\n' || ch == '\r' || ch == '\U{2028}' || ch == '\U{2029}'
  }

  /** A radix-10 digit. */
  predicate IsDigit(ch: char) {
    '0' <= ch <= '9'
  }

  predicate AllDigits(s: string) {
    forall i :: 0 <= i < |s| ==> IsDigit(s[i])
  }

  predicate AllWhiteSpace(s: string) {
    forall i :: 0 <= i < |s| ==> IsStrWhiteSpace(s[i])
  }

  function DigitValue(ch: char): (d: nat)
    requires IsDigit(ch)
    ensures d < 10
  {
    ch as int - '0' as int
  }

  function DigitChar(d: nat): (ch: char)
    requires d < 10
    ensures IsDigit(ch) && DigitValue(ch) == d
  {
    ('0' as int + d) as char
  }

  /** Step 2 of parseInt: drop the leading white space, and only that. */
  function TrimStart(s: string): (r: string)
    ensures |r| <= |s| && r == s[|s| - |r|..]
    ensures AllWhiteSpace(s[..|s| - |r|])
    ensures r == [] || !IsStrWhiteSpace(r[0])
  {
    if s != [] && IsStrWhiteSpace(s[0]) then TrimStart(s[1..]) else s
  }

  /** Steps 11-14 of parseInt, radix 10: the value of the longest digit run at the
      front of `u`, read left to right into `acc`; reading stops at the first
      non-digit. */
  function ReadDigits(acc: nat, u: string): nat
    decreases |u|
  {
    if u != [] && IsDigit(u[0]) then ReadDigits(acc * 10 + DigitValue(u[0]), u[1..]) else acc
  }

  /** The mathematical value of a digit string, most significant first. */
  function DigitsValue(ds: string): nat {
    ReadDigits(0, ds)
  }

  /** The value of a digit run read with a sign. */
  function Signed(sign: Sign, run: string): int {
    if sign == Minus then 0 - DigitsValue(run) else DigitsValue(run)
  }

  /** `parseInt(s, 10)`: leading white space is skipped, then the rest is read. */
  function ParseInt(s: string): JsNumber {
    ParseTrimmed(TrimStart(s))
  }

  /** Steps 3-5 of parseInt: the sign written at the front of `t`, if any. */
  function SignOf(t: string): (sign: Sign)
    ensures |sign.Text()| <= |t| && t[..|sign.Text()|] == sign.Text()
    ensures sign == NoSign ==> t == [] || (t[0] != '+' && t[0] != '-')
  {
    if t != [] && t[0] == '-' then Minus
    else if t != [] && t[0] == '+' then Plus
    else NoSign
  }

  /** Steps 3-16 of parseInt on text that starts after the white space: an optional
      sign, then NaN when no digit follows, otherwise the signed value of the longest
      digit run; whatever follows the run is ignored. */
  function ParseTrimmed(t: string): JsNumber {
    if t != [] && t[0] == '-' then Negate(ParseDigits(t[1..]))
    else if t != [] && t[0] == '+' then ParseDigits(t[1..])
    else ParseDigits(t)
  }

  /** The longest run of digits at the front of `u`. */
  function DigitRun(u: string): (run: string)
    ensures |run| <= |u| && run == u[..|run|] && AllDigits(run)
    ensures |run| == |u| || !IsDigit(u[|run|])
  {
    if u != [] && IsDigit(u[0]) then [u[0]] + DigitRun(u[1..]) else []
  }

  /** Steps 11-16 after the sign: NaN when no digit comes first, otherwise the value
      of the longest digit run. */
  function ParseDigits(u: string): (r: JsNumber)
    ensures r == NaN <==> u == [] || !IsDigit(u[0])
  {
    if u == [] || !IsDigit(u[0]) then NaN else Int(DigitsValue(u))
  }

  function Negate(x: JsNumber): JsNumber {
    match x
    case NaN => NaN
    case Int(v) => Int(0 - v)
  }

  /** The `check` closure: true exactly when `parseInt` yields the expected sum
      (NaN is equal to nothing under `===`). */
  function Check(answer: int, input: string): bool {
    ParseInt(input) == Int(answer)
  }

  /** The decimal text JavaScript gives a non-negative integer in a template string. */
  function DecimalString(n: nat): (s: string)
    decreases n
  {
    if n < 10 then [DigitChar(n)] else DecimalString(n / 10) + [DigitChar(n % 10)]
  }

  /** The question template "<a> plus <b> equals ??". */
  function Question(a: nat, b: nat): string {
    DecimalString(a) + (" plus " + (DecimalString(b) + " equals ??"))
  }

  /** `Math.round(Math.random() * 8) + 1` for the draw `r` in [0, 1), as the interval
      of sixteenths the draw falls in: the two end operands get half the width of
      the others. `DrawOperandRounds` shows this is JavaScript's rounding. */
  function DrawOperand(r: real): (n: nat)
    requires 0.0 <= r < 1.0
    ensures 1 <= n <= 9
  {
    if r < 1.0 / 16.0 then 1
    else if r < 3.0 / 16.0 then 2
    else if r < 5.0 / 16.0 then 3
    else if r < 7.0 / 16.0 then 4
    else if r < 9.0 / 16.0 then 5
    else if r < 11.0 / 16.0 then 6
    else if r < 13.0 / 16.0 then 7
    else if r < 15.0 / 16.0 then 8
    else 9
  }

  /** The operand is `Math.round(r * 8) + 1`, where `Math.round(x)` is the floor of
      x + 0.5 (halves round up). */
  lemma DrawOperandRounds(r: real)
    requires 0.0 <= r < 1.0
    ensures DrawOperand(r) == (r * 8.0 + 0.5).Floor + 1
  {
    var n := DrawOperand(r);
    assert (n - 1) as real <= r * 8.0 + 0.5 < n as real;
  }

  /** `generateCaptcha` with its two random draws given. */
  function GenerateCaptcha(r1: real, r2: real): (c: Captcha)
    requires 0.0 <= r1 < 1.0 && 0.0 <= r2 < 1.0
    ensures 2 <= c.answer <= 18
    ensures exists a: nat, b: nat {:trigger Question(a, b)} ::
      1 <= a <= 9 && 1 <= b <= 9 && c.question == Question(a, b) && c.answer == a + b
    ensures Check(c.answer, DecimalString(c.answer))
  {
    var a := DrawOperand(r1);
    var b := DrawOperand(r2);
    var sum := a + b;
    CheckAcceptsDecimal(sum);
    Captcha(Question(a, b), sum)
  }

  // ---------------------------------------------------------------------------
  // Properties of the parser

  lemma {:induction false} TrimStartSkipsWhiteSpace(ws: string, rest: string)
    requires AllWhiteSpace(ws)
    requires rest == [] || !IsStrWhiteSpace(rest[0])
    ensures TrimStart(ws + rest) == rest
  {
    if ws != [] {
      assert (ws + rest)[1..] == ws[1..] + rest;
      TrimStartSkipsWhiteSpace(ws[1..], rest);
    }
  }

  /** Reading stops at the end of a digit run, whatever follows it. */
  lemma {:induction false} ReadDigitsStops(acc: nat, digits: string, rest: string)
    requires AllDigits(digits)
    requires rest == [] || !IsDigit(rest[0])
    ensures ReadDigits(acc, digits + rest) == ReadDigits(acc, digits)
    decreases |digits|
  {
    if digits == [] {
      assert digits + rest == rest;
    } else {
      assert (digits + rest)[0] == digits[0];
      assert (digits + rest)[1..] == digits[1..] + rest;
      ReadDigitsStops(acc * 10 + DigitValue(digits[0]), digits[1..], rest);
    }
  }

  /** Appending a digit multiplies the value read so far by ten and adds the digit. */
  lemma {:induction false} ReadDigitsAppend(acc: nat, ds: string, c: char)
    requires AllDigits(ds) && IsDigit(c)
    ensures AllDigits(ds + [c])
    ensures ReadDigits(acc, ds + [c]) == ReadDigits(acc, ds) * 10 + DigitValue(c)
    decreases |ds|
  {
    if ds == [] {
      assert ds + [c] == [c];
    } else {
      assert (ds + [c])[0] == ds[0];
      assert (ds + [c])[1..] == ds[1..] + [c];
      ReadDigitsAppend(acc * 10 + DigitValue(ds[0]), ds[1..], c);
    }
  }

  /** The optional sign of steps 3-5, as written in the input. */
  datatype Sign = NoSign | Plus | Minus {
    function Text(): string {
      match this
      case NoSign => ""
      case Plus => "+"
      case Minus => "-"
    }
  }

  /** Text after the white space: optional sign, digits, then anything that does not
      start with a digit, reads as the signed value of the digits. */
  lemma ParseTrimmedOf(sign: Sign, digits: string, rest: string)
    requires |digits| > 0 && AllDigits(digits)
    requires rest == [] || !IsDigit(rest[0])
    ensures ParseTrimmed(sign.Text() + digits + rest)
         == Int(if sign == Minus then 0 - DigitsValue(digits) else DigitsValue(digits))
  {
    var u := digits + rest;
    ReadDigitsStops(0, digits, rest);
    assert u[0] == digits[0];
    assert ParseDigits(u) == Int(DigitsValue(digits));
    var tail := sign.Text() + digits + rest;
    if sign == NoSign {
      assert tail == u;
    } else {
      var c := if sign == Plus then '+' else '-';
      assert sign.Text() == [c];
      assert tail == [c] + u;
      assert tail[0] == c && tail[1..] == u;
    }
  }

  /** parseInt reads "white space, optional sign, digits, anything that does not start
      with a digit" as the signed value of the digits. */
  lemma ParseIntOf(ws: string, sign: Sign, digits: string, rest: string)
    requires AllWhiteSpace(ws)
    requires |digits| > 0 && AllDigits(digits)
    requires rest == [] || !IsDigit(rest[0])
    ensures ParseInt(ws + sign.Text() + digits + rest)
         == Int(if sign == Minus then 0 - DigitsValue(digits) else DigitsValue(digits))
  {
    var tail := sign.Text() + digits + rest;
    assert ws + sign.Text() + digits + rest == ws + tail;
    assert tail[0] == if sign == NoSign then digits[0] else sign.Text()[0];
    TrimStartSkipsWhiteSpace(ws, tail);
    ParseTrimmedOf(sign, digits, rest);
  }

  /** After the white space: an optional sign followed by no digit reads as NaN. */
  lemma ParseTrimmedNoDigits(sign: Sign, rest: string)
    requires rest == [] || !IsDigit(rest[0])
    requires sign == NoSign ==> rest == [] || (rest[0] != '+' && rest[0] != '-')
    ensures ParseTrimmed(sign.Text() + rest) == NaN
  {
    match sign
    case NoSign =>
      assert sign.Text() + rest == rest;
    case Plus =>
      var t := "+" + rest;
      assert sign.Text() + rest == t && t[0] == '+' && t[1..] == rest;
    case Minus =>
      var t := "-" + rest;
      assert sign.Text() + rest == t && t[0] == '-' && t[1..] == rest;
  }

  /** With nothing but white space and at most a sign before a non-digit (or the end),
      parseInt is NaN. */
  lemma ParseIntNoDigits(ws: string, sign: Sign, rest: string)
    requires AllWhiteSpace(ws)
    requires rest == [] || !IsDigit(rest[0])
    requires sign == NoSign ==> rest == [] || (!IsStrWhiteSpace(rest[0]) && rest[0] != '+' && rest[0] != '-')
    ensures ParseInt(ws + sign.Text() + rest) == NaN
  {
    var tail := sign.Text() + rest;
    assert ws + sign.Text() + rest == ws + tail;
    ParseTrimmedNoDigits(sign, rest);
    assert tail == [] || !IsStrWhiteSpace(tail[0]) by {
      if sign != NoSign {
        assert tail[0] == sign.Text()[0];
      }
    }
    TrimStartSkipsWhiteSpace(ws, tail);
  }

  /** After the sign: NaN when no digit comes first, otherwise the value of the
      longest digit run, whatever follows it. */
  lemma ParseDigitsReads(u: string)
    ensures ParseDigits(u) == if DigitRun(u) == [] then NaN else Int(DigitsValue(DigitRun(u)))
  {
    var run := DigitRun(u);
    assert u == run + u[|run|..];
    ReadDigitsStops(0, run, u[|run|..]);
  }

  /** After the white space: NaN when no digit follows the optional sign, otherwise
      the signed value of the longest digit run. */
  lemma ParseTrimmedReads(t: string)
    ensures var sign := SignOf(t); var run := DigitRun(t[|sign.Text()|..]);
      ParseTrimmed(t) == if run == [] then NaN else Int(Signed(sign, run))
  {
    var sign := SignOf(t);
    var u := t[|sign.Text()|..];
    ParseDigitsReads(u);
    match sign
    case NoSign =>
      assert u == t;
    case Plus =>
      assert ParseTrimmed(t) == ParseDigits(u);
    case Minus =>
      assert ParseTrimmed(t) == Negate(ParseDigits(u));
  }

  /** parseInt in one statement: NaN when no digit follows the white space and the
      optional sign, otherwise the signed value of the longest digit run there. */
  lemma ParseIntReads(s: string)
    ensures var t := TrimStart(s); var sign := SignOf(t); var run := DigitRun(t[|sign.Text()|..]);
      ParseInt(s) == if run == [] then NaN else Int(Signed(sign, run))
  {
    ParseTrimmedReads(TrimStart(s));
  }

  /** The checker accepts exactly when that signed digit run is the expected sum. */
  lemma CheckReads(answer: int, input: string)
    ensures var t := TrimStart(input); var sign := SignOf(t); var run := DigitRun(t[|sign.Text()|..]);
      Check(answer, input) <==> run != [] && answer == Signed(sign, run)
  {
    ParseIntReads(input);
  }

  lemma {:induction false} DecimalStringDigits(n: nat)
    ensures |DecimalString(n)| > 0 && AllDigits(DecimalString(n))
    ensures DigitsValue(DecimalString(n)) == n
    decreases n
  {
    if n < 10 {
      var c := DigitChar(n);
      assert DecimalString(n) == [c] && [c][1..] == [];
      assert ReadDigits(0, [c]) == ReadDigits(DigitValue(c), []);
    } else {
      DecimalStringDigits(n / 10);
      ReadDigitsAppend(0, DecimalString(n / 10), DigitChar(n % 10));
    }
  }

  /** Round trip: parseInt reads back the decimal text of any non-negative integer,
      whatever non-digit text follows it. */
  lemma ParseIntOfDecimal(n: nat, rest: string)
    requires rest == [] || !IsDigit(rest[0])
    ensures ParseInt(DecimalString(n) + rest) == Int(n)
  {
    var d := DecimalString(n);
    DecimalStringDigits(n);
    assert "" + NoSign.Text() + d + rest == d + rest;
    ParseIntOf("", NoSign, d, rest);
  }

  /** The question starts with the first operand as parseInt reads it, and the text
      after "<a> plus " starts with the second. */
  lemma QuestionStatesOperands(a: nat, b: nat)
    ensures ParseInt(Question(a, b)) == Int(a)
    ensures ParseInt(Question(a, b)[|DecimalString(a)| + 6..]) == Int(b)
  {
    var da, db := DecimalString(a), DecimalString(b);
    var second := db + " equals ??";
    var after := " plus " + second;
    ParseIntOfDecimal(a, after);
    assert Question(a, b)[|da|..] == after;
    assert after[6..] == second;
    ParseIntOfDecimal(b, " equals ??");
  }

  /** The sum written in decimal is accepted. */
  lemma CheckAcceptsDecimal(answer: nat)
    ensures Check(answer, DecimalString(answer))
  {
    var d := DecimalString(answer);
    assert d + "" == d;
    ParseIntOfDecimal(answer, "");
  }

  /** Prefix parsing: the sum followed by any text that does not start with a digit
      is accepted. */
  lemma CheckIgnoresTrailingText(answer: nat, words: string)
    requires words == [] || !IsDigit(words[0])
    ensures Check(answer, DecimalString(answer) + words)
  {
    ParseIntOfDecimal(answer, words);
  }

  /** A leading zero before a digit run changes nothing. */
  lemma ParseTrimmedZeroPadded(digits: string)
    requires |digits| > 0 && AllDigits(digits)
    ensures ParseTrimmed("0" + digits) == Int(DigitsValue(digits))
  {
    var zd := "0" + digits;
    assert zd[0] == '0' && zd[1..] == digits;
    assert ParseTrimmed(zd) == ParseDigits(zd);
    assert ReadDigits(0, zd) == ReadDigits(0, digits);
  }

  /** Only the space is white space in " 0" followed by anything. */
  lemma TrimStartSpaceZero(u: string)
    ensures TrimStart(" 0" + u) == "0" + u
  {
    var zu := "0" + u;
    var s := " " + zu;
    assert s == " 0" + u;
    assert s[0] == ' ' && s[1..] == zu && zu[0] == '0';
  }

  /** A space and a leading zero before a digit run change nothing. */
  lemma ParseIntZeroPadded(digits: string)
    requires |digits| > 0 && AllDigits(digits)
    ensures ParseInt(" 0" + digits) == Int(DigitsValue(digits))
  {
    TrimStartSpaceZero(digits);
    ParseTrimmedZeroPadded(digits);
  }

  /** A sign directly before a digit run gives the run's value with that sign. */
  lemma ParseIntSigned(sign: Sign, digits: string)
    requires sign != NoSign
    requires |digits| > 0 && AllDigits(digits)
    ensures ParseInt(sign.Text() + digits)
         == Int(if sign == Minus then 0 - DigitsValue(digits) else DigitsValue(digits))
  {
    assert "" + sign.Text() + digits + "" == sign.Text() + digits;
    ParseIntOf("", sign, digits, "");
  }

  /** A leading zero after white space is accepted. */
  lemma CheckAcceptsLeadingZero(answer: nat)
    ensures Check(answer, " 0" + DecimalString(answer))
  {
    DecimalStringDigits(answer);
    ParseIntZeroPadded(DecimalString(answer));
  }

  /** An explicit plus sign is accepted. */
  lemma CheckAcceptsPlusSign(answer: nat)
    ensures Check(answer, "+" + DecimalString(answer))
  {
    DecimalStringDigits(answer);
    ParseIntSigned(Plus, DecimalString(answer));
  }

  /** The negated sum is read as a negative number, so it is refused for any positive
      sum. */
  lemma CheckRefusesNegated(answer: nat)
    requires answer > 0
    ensures !Check(answer, "-" + DecimalString(answer))
  {
    DecimalStringDigits(answer);
    ParseIntSigned(Minus, DecimalString(answer));
  }

  /** Text with no digit after the white space and optional sign is refused. */
  lemma CheckRefusesNonNumeric(answer: int, ws: string, sign: Sign, rest: string)
    requires AllWhiteSpace(ws)
    requires rest == [] || !IsDigit(rest[0])
    requires sign == NoSign ==> rest == [] || (!IsStrWhiteSpace(rest[0]) && rest[0] != '+' && rest[0] != '-')
    ensures !Check(answer, ws + sign.Text() + rest)
  {
    ParseIntNoDigits(ws, sign, rest);
  }

  /** Worked answers for 3 + 4 that are accepted. */
  lemma CheckAcceptedExamples()
    ensures Check(7, "7 apples") && Check(7, " 07") && Check(7, "+7") && Check(7, "7.5")
  {
    assert DecimalString(7) == "7";
    assert "7" + " apples" == "7 apples";
    assert " 0" + "7" == " 07" && "+" + "7" == "+7" && "7" + ".5" == "7.5";
    CheckIgnoresTrailingText(7, " apples");
    CheckIgnoresTrailingText(7, ".5");
    CheckAcceptsLeadingZero(7);
    CheckAcceptsPlusSign(7);
  }

  /** Worked answers for 3 + 4 that are refused: the wrong sign and the wrong number. */
  lemma CheckRefusedNumbers()
    ensures !Check(7, "-7") && !Check(7, "77")
  {
    assert DecimalString(7) == "7" && "-" + "7" == "-7";
    assert DecimalString(77) == "77" && "77" + "" == "77";
    CheckRefusesNegated(7);
    ParseIntOfDecimal(77, "");
  }

  /** Worked answers for 3 + 4 that are refused: no number at all. */
  lemma CheckRefusedWords()
    ensures !Check(7, "seven") && !Check(7, "")
  {
    assert "" + NoSign.Text() + "seven" == "seven";
    assert "" + NoSign.Text() + "" == "";
    CheckRefusesNonNumeric(7, "", NoSign, "seven");
    CheckRefusesNonNumeric(7, "", NoSign, "");
  }
}
