// The JavaScript number conversions the pages apply to text: Number(s),
// parseInt(s, 10), String(n), truthiness, and the "min-max" age ranges the
// filter selects offer, split on '-' and converted piece by piece.

module JsNumbers {
  import opened Common

  /** A number as far as the pages use them: an integer, or NaN. */
  datatype JsNumber = Num(value: int) | NaN

  /** A number is truthy unless it is 0 or NaN. */
  predicate Truthy(x: JsNumber) {
    x.Num? && x.value != 0
  }

  predicate AllDigits(s: string) {
    forall i :: 0 <= i < |s| ==> IsDigit(s[i])
  }

  function DigitValue(c: char): int {
    c as int - '0' as int
  }

  /** The value of a string of decimal digits. */
  function DecimalValue(s: string): (n: nat)
    requires AllDigits(s)
  {
    if s == [] then 0 else DecimalValue(s[..|s| - 1]) * 10 + DigitValue(s[|s| - 1])
  }

  lemma DigitCharValue(d: nat)
    requires d < 10
    ensures DigitValue(DigitChar(d)) == d
  {
    assert "0123456789"[0] == '0' && "0123456789"[1] == '1' && "0123456789"[2] == '2';
    assert "0123456789"[3] == '3' && "0123456789"[4] == '4' && "0123456789"[5] == '5';
    assert "0123456789"[6] == '6' && "0123456789"[7] == '7' && "0123456789"[8] == '8';
    assert "0123456789"[9] == '9';
  }

  /** Reading back the decimal text of n gives n. */
  lemma {:induction false} DecimalOfNatToString(n: nat)
    ensures AllDigits(NatToString(n))
    ensures DecimalValue(NatToString(n)) == n
  {
    DigitCharValue(n % 10);
    if n >= 10 {
      var s := NatToString(n);
      DecimalOfNatToString(n / 10);
      assert s[..|s| - 1] == NatToString(n / 10);
    }
  }

  /** Number(s): surrounding white space is ignored, blank text is 0, a
      string of decimal digits is its value, and anything else is NaN. */
  function ToNumber(s: string): (r: JsNumber)
    ensures AllSpace(s) ==> r == Num(0)
    ensures r.Num? ==> r.value >= 0
  {
    var t := Trim(s);
    TrimEmptyIffAllSpace(s);
    if t == "" then Num(0)
    else if AllDigits(t) then Num(DecimalValue(t))
    else NaN
  }

  /** Number(String(n)) == n */
  lemma ToNumberOfNatString(n: nat)
    ensures ToNumber(NatToString(n)) == Num(n)
  {
    var s := NatToString(n);
    TrimNoSpaceEnds(s);
    DecimalOfNatToString(n);
  }

  /** The longest prefix of decimal digits. */
  function DigitPrefix(s: string): (r: string)
    ensures AllDigits(r) && |r| <= |s| && r == s[..|r|]
    ensures |r| < |s| ==> !IsDigit(s[|r|])
  {
    if s == [] || !IsDigit(s[0]) then "" else [s[0]] + DigitPrefix(s[1..])
  }

  lemma {:induction false} DigitPrefixOfDigits(s: string)
    requires AllDigits(s)
    ensures DigitPrefix(s) == s
  {
    if s != [] {
      DigitPrefixOfDigits(s[1..]);
    }
  }

  /** parseInt(s, 10): leading white space, then an optional sign, then the
      longest run of digits; NaN when there is no digit. */
  function ParseInt(s: string): JsNumber {
    var t := TrimStart(s);
    var negative := t != "" && t[0] == '-';
    var u := if t != "" && (t[0] == '-' || t[0] == '+') then t[1..] else t;
    var d := DigitPrefix(u);
    var m: int := DecimalValue(d);
    if d == "" then NaN else Num(if negative then -m else m)
  }

  /** String(x) */
  function NumberToString(x: JsNumber): string {
    match x
    case NaN => "NaN"
    case Num(v) => if v < 0 then "-" + NatToString(-v) else NatToString(v)
  }

  lemma ParseIntOfNatString(n: nat)
    ensures ParseInt(NatToString(n)) == Num(n)
  {
    var s := NatToString(n);
    DecimalOfNatToString(n);
    DigitPrefixOfDigits(s);
    assert TrimStart(s) == s;
  }

  lemma ParseIntOfNegative(n: nat)
    ensures ParseInt("-" + NatToString(n)) == Num(-(n as int))
  {
    var s := NatToString(n);
    DecimalOfNatToString(n);
    ParseIntOfMinusDigits(s);
  }

  /** A minus sign followed by digits reads as the negated digits. */
  lemma ParseIntOfMinusDigits(s: string)
    requires AllDigits(s) && s != ""
    ensures ParseInt("-" + s) == Num(-(DecimalValue(s) as int))
  {
    var text := "-" + s;
    assert TrimStart(text) == text by {
      assert text[0] == '-';
      TrimStartUnchanged(text);
    }
    assert text[1..] == s;
    assert DigitPrefix(s) == s by {
      DigitPrefixOfDigits(s);
    }
  }

  lemma TrimStartUnchanged(s: string)
    requires s != [] && !IsSpace(s[0])
    ensures TrimStart(s) == s
  {
  }

  /** parseInt(String(x), 10) == x, NaN included. */
  lemma ParseIntOfString(x: JsNumber)
    ensures ParseInt(NumberToString(x)) == x
  {
    match x
    case NaN =>
      assert TrimStart("NaN") == "NaN";
    case Num(v) =>
      if v < 0 {
        ParseIntOfNegative(-v);
      } else {
        ParseIntOfNatString(v);
      }
  }

  /** The bounds of an age range: const [min, max] = range.split('-').map(Number).
      A missing second piece is undefined, which compares like NaN and is
      falsy. */
  function RangeBounds(range: string): (JsNumber, JsNumber) {
    var parts := Split(range, '-');
    (ToNumber(parts[0]), if |parts| >= 2 then ToNumber(parts[1]) else NaN)
  }

  lemma NoDashInDigits(n: nat)
    ensures '-' !in NatToString(n)
  {
    var s := NatToString(n);
    assert forall i | 0 <= i < |s| :: s[i] != '-';
  }

  /** "a-b" has the bounds a and b. */
  lemma RangeOfTwoNumbers(a: nat, b: nat)
    ensures RangeBounds(NatToString(a) + "-" + NatToString(b)) == (Num(a), Num(b))
  {
    NoDashInDigits(a);
    NoDashInDigits(b);
    assert Join([NatToString(a), NatToString(b)], "-") == NatToString(a) + "-" + NatToString(b);
    SplitJoin([NatToString(a), NatToString(b)], '-');
    ToNumberOfNatString(a);
    ToNumberOfNatString(b);
  }

  /** "a-" has the bounds a and 0: the empty second piece is Number("") == 0. */
  lemma RangeOpenEnded(a: nat)
    ensures RangeBounds(NatToString(a) + "-") == (Num(a), Num(0))
  {
    NoDashInDigits(a);
    assert Join([NatToString(a), ""], "-") == NatToString(a) + "-";
    SplitJoin([NatToString(a), ""], '-');
    ToNumberOfNatString(a);
  }
}
