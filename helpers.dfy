// The client's formatting helpers: status badges, phone numbers, the colour
// derived from a string for charts, word capitalisation, truncation with an
// ellipsis, and the age computed from a date of birth.

module Helpers {
  import opened Common

  // ---------------------------------------------------------------------
  // Status badges

  /** getAppointmentStatusClass: the badge of an appointment status, read
      without regard to case; a missing or unknown status gets the primary
      badge. */
  function AppointmentStatusClass(status: Option<string>): (c: string)
    ensures c == "badge-success" <==> status.Some? && Lower(status.value) == "completed"
    ensures c == "badge-danger" <==> status.Some? && Lower(status.value) == "cancelled"
    ensures c == "badge-warning" <==> status.Some? && Lower(status.value) == "rescheduled"
    ensures c == "badge-primary" <==>
              status.None? || Lower(status.value) !in {"completed", "cancelled", "rescheduled"}
  {
    if status.None? then "badge-primary"
    else
      var s := Lower(status.value);
      if s == "scheduled" then "badge-primary"
      else if s == "completed" then "badge-success"
      else if s == "cancelled" then "badge-danger"
      else if s == "rescheduled" then "badge-warning"
      else "badge-primary"
  }

  /** getEmergencyStatusClass: the badge of an emergency status; a missing or
      unknown status gets the warning badge, as a pending one does. */
  function EmergencyStatusClass(status: Option<string>): (c: string)
    ensures c == "badge-primary" <==> status.Some? && Lower(status.value) == "dispatched"
    ensures c == "badge-success" <==> status.Some? && Lower(status.value) == "completed"
    ensures c == "badge-danger" <==> status.Some? && Lower(status.value) == "cancelled"
    ensures c == "badge-warning" <==>
              status.None? || Lower(status.value) !in {"dispatched", "completed", "cancelled"}
  {
    if status.None? then "badge-warning"
    else
      var s := Lower(status.value);
      if s == "pending" then "badge-warning"
      else if s == "dispatched" then "badge-primary"
      else if s == "completed" then "badge-success"
      else if s == "cancelled" then "badge-danger"
      else "badge-warning"
  }

  /** Both badges depend on the status only up to case: an upper-cased or a
      lower-cased status gets the badge of the status as written. */
  lemma StatusClassesIgnoreCase(s: string)
    ensures AppointmentStatusClass(Some(Upper(s))) == AppointmentStatusClass(Some(s))
    ensures AppointmentStatusClass(Some(Lower(s))) == AppointmentStatusClass(Some(s))
    ensures EmergencyStatusClass(Some(Upper(s))) == EmergencyStatusClass(Some(s))
    ensures EmergencyStatusClass(Some(Lower(s))) == EmergencyStatusClass(Some(s))
  {
    LowerUpper(s);
    LowerIdempotent(s);
    BadgesFollowLower(Upper(s), s);
    BadgesFollowLower(Lower(s), s);
  }

  /** Statuses equal up to case get the same badges. */
  lemma BadgesFollowLower(a: string, b: string)
    requires Lower(a) == Lower(b)
    ensures AppointmentStatusClass(Some(a)) == AppointmentStatusClass(Some(b))
    ensures EmergencyStatusClass(Some(a)) == EmergencyStatusClass(Some(b))
  {
  }

  // ---------------------------------------------------------------------
  // Phone numbers

  /** formatPhoneNumber: an empty number is shown as "N/A"; a number with
      exactly ten digits is shown as "(ddd) ddd-dddd"; anything else is
      shown as written. */
  function FormatPhoneNumber(phone: string): (r: string)
    ensures phone == "" ==> r == "N/A"
    ensures phone != "" && |Digits(phone)| != 10 ==> r == phone
    ensures phone != "" && |Digits(phone)| == 10 ==>
              |r| == 14 && r[0] == '(' && r[4] == ')' && r[5] == ' ' && r[9] == '-' &&
              Digits(r) == Digits(phone)
  {
    if phone == "" then "N/A"
    else
      var cleaned := Digits(phone);
      if |cleaned| == 10 then
        LayoutOfTenDigits(cleaned);
        Layout(cleaned[..3], cleaned[3..6], cleaned[6..])
      else phone
  }

  /** The phone layout around three groups of digits. */
  function Layout(a: string, b: string, c: string): string {
    ['('] + (a + ([')'] + ([' '] + (b + (['-'] + c)))))
  }

  /** Ten digits laid out as (ddd) ddd-dddd. */
  lemma LayoutOfTenDigits(d: string)
    requires |d| == 10 && forall i :: 0 <= i < |d| ==> IsDigit(d[i])
    ensures var r := Layout(d[..3], d[3..6], d[6..]);
            |r| == 14 && r[0] == '(' && r[4] == ')' && r[5] == ' ' && r[9] == '-' && Digits(r) == d
  {
    DigitsOfLayout(d[..3], d[3..6], d[6..]);
    assert d[..3] + (d[3..6] + d[6..]) == d;
  }

  lemma KeepDigits(x: string, y: string)
    requires forall i :: 0 <= i < |x| ==> IsDigit(x[i])
    ensures Filter(x + y, IsDigit) == x + Filter(y, IsDigit)
  {
    FilterConcat(x, y, IsDigit);
    FilterAll(x, IsDigit);
  }

  /** The digits of the layout are the three groups, in order. */
  lemma DigitsOfLayout(a: string, b: string, c: string)
    requires forall i :: 0 <= i < |a| ==> IsDigit(a[i])
    requires forall i :: 0 <= i < |b| ==> IsDigit(b[i])
    requires forall i :: 0 <= i < |c| ==> IsDigit(c[i])
    ensures Filter(Layout(a, b, c), IsDigit) == a + (b + c)
  {
    DigitsAfterParen(a, b, c);
    SkipChar('(', a + ([')'] + ([' '] + (b + (['-'] + c)))));
  }

  lemma DigitsAfterParen(a: string, b: string, c: string)
    requires forall i :: 0 <= i < |a| ==> IsDigit(a[i])
    requires forall i :: 0 <= i < |b| ==> IsDigit(b[i])
    requires forall i :: 0 <= i < |c| ==> IsDigit(c[i])
    ensures Filter(a + ([')'] + ([' '] + (b + (['-'] + c)))), IsDigit) == a + (b + c)
  {
    DigitsAfterSpace(b, c);
    KeepDigits(a, [')'] + ([' '] + (b + (['-'] + c))));
  }

  lemma DigitsAfterSpace(b: string, c: string)
    requires forall i :: 0 <= i < |b| ==> IsDigit(b[i])
    requires forall i :: 0 <= i < |c| ==> IsDigit(c[i])
    ensures Filter([')'] + ([' '] + (b + (['-'] + c))), IsDigit) == b + c
  {
    var t := b + (['-'] + c);
    DigitsAfterB(b, c);
    SkipChar(' ', t);
    SkipChar(')', [' '] + t);
  }

  lemma SkipChar(ch: char, y: string)
    requires !IsDigit(ch)
    ensures Filter([ch] + y, IsDigit) == Filter(y, IsDigit)
  {
    assert ([ch] + y)[1..] == y;
  }

  lemma DigitsAfterB(b: string, c: string)
    requires forall i :: 0 <= i < |b| ==> IsDigit(b[i])
    requires forall i :: 0 <= i < |c| ==> IsDigit(c[i])
    ensures Filter(b + (['-'] + c), IsDigit) == b + c
  {
    DigitsAfterDash(c);
    KeepDigits(b, ['-'] + c);
  }

  lemma DigitsAfterDash(c: string)
    requires forall i :: 0 <= i < |c| ==> IsDigit(c[i])
    ensures Filter(['-'] + c, IsDigit) == c
  {
    KeepDigits(c, []);
    assert c + [] == c;
    SkipChar('-', c);
  }

  /** Formatting a formatted number changes nothing. */
  lemma FormatPhoneNumberIdempotent(phone: string)
    ensures FormatPhoneNumber(FormatPhoneNumber(phone)) == FormatPhoneNumber(phone)
  {
    if phone == "" {
      assert Digits("N/A") == [] by {
        assert "N/A"[1..] == "/A";
        assert "/A"[1..] == "A";
      }
    }
  }

  // ---------------------------------------------------------------------
  // stringToColor

  const Two32 := 0x1_0000_0000

  /** ToInt32: the signed 32-bit integer that agrees with x modulo 2^32. */
  function ToInt32(x: int): (r: int)
    ensures -0x8000_0000 <= r < 0x8000_0000
    ensures r % Two32 == x % Two32
  {
    var m := x % Two32;
    if m >= 0x8000_0000 then m - Two32 else m
  }

  /** x << 5 on a JavaScript number: a shift of its 32-bit value. */
  function ShiftLeft5(x: int): int {
    ToInt32(ToInt32(x) * 32)
  }

  /** x >> n on a JavaScript number: an arithmetic shift of its 32-bit
      value, that is a division rounding down. */
  function ShiftRight(x: int, n: nat): int {
    ToInt32(x) / Pow2(n)
  }

  function Pow2(n: nat): (p: nat)
    ensures p >= 1
  {
    if n == 0 then 1 else 2 * Pow2(n - 1)
  }

  /** The string hash the helper computes, h := code + 31 * h over the
      characters from first to last, taken modulo 2^32. */
  function Hash32(s: string): (h: nat)
    ensures h < Two32
  {
    if s == [] then 0 else (s[|s| - 1] as int + 31 * Hash32(s[..|s| - 1])) % Two32
  }

  /** Byte i of the hash, low byte first. */
  function HashByte(s: string, i: nat): (b: nat)
    ensures b < 256
  {
    (Hash32(s) / Pow2(8 * i)) % 256
  }

  function HexDigit(d: nat): (c: char)
    requires d < 16
    ensures IsHexDigit(c)
  {
    "0123456789abcdef"[d]
  }

  predicate IsHexDigit(c: char) {
    '0' <= c <= '9' || 'a' <= c <= 'f'
  }

  function HexValue(c: char): nat {
    if '0' <= c <= '9' then c as int - '0' as int
    else if 'a' <= c <= 'f' then c as int - 'a' as int + 10
    else 0
  }

  /** The number written as two lower-case hex digits. */
  function HexByte(b: nat): (r: string)
    requires b < 256
    ensures |r| == 2 && IsHexDigit(r[0]) && IsHexDigit(r[1])
  {
    [HexDigit(b / 16), HexDigit(b % 16)]
  }

  /** value.toString(16) */
  function ToHex(v: nat): (r: string)
    ensures |r| >= 1
  {
    if v < 16 then [HexDigit(v)] else ToHex(v / 16) + [HexDigit(v % 16)]
  }

  /** ('00' + value.toString(16)).substr(-2): the last two characters. */
  function LastTwo(s: string): string
    requires |s| >= 2
  {
    s[|s| - 2..]
  }

  lemma PaddedHex(v: nat)
    requires v < 256
    ensures LastTwo("00" + ToHex(v)) == HexByte(v)
  {
    if v >= 16 {
      assert ToHex(v / 16) == [HexDigit(v / 16)];
    }
  }

  /** '#' and the first k bytes of the hash, low byte first, in hex. */
  function HexBytes(s: string, k: nat): (c: string)
    requires k <= 3
    ensures |c| == 1 + 2 * k && c[0] == '#'
    ensures forall i :: 1 <= i < |c| ==> IsHexDigit(c[i])
  {
    if k == 0 then "#" else HexBytes(s, k - 1) + HexByte(HashByte(s, k - 1))
  }

  /** The colour of a non-empty string: '#' and the three low bytes of its
      hash, low byte first, in hex. */
  function ColorOf(s: string): (c: string)
    ensures |c| == 7 && c[0] == '#'
    ensures forall i :: 1 <= i < 7 ==> IsHexDigit(c[i])
  {
    HexBytes(s, 3)
  }

  /** The colour can be read back: its three hex pairs are the hash's three
      low bytes. */
  lemma ColorOfReadsBack(s: string)
    ensures forall i :: 0 <= i < 3 ==>
              16 * HexValue(ColorOf(s)[1 + 2 * i]) + HexValue(ColorOf(s)[2 + 2 * i]) == HashByte(s, i)
  {
    var c := ColorOf(s);
    forall i | 0 <= i < 3
      ensures 16 * HexValue(c[1 + 2 * i]) + HexValue(c[2 + 2 * i]) == HashByte(s, i)
    {
      var b := HashByte(s, i);
      HexBytesAt(s, 3, i);
      HexByteValue(b);
    }
  }

  lemma {:induction false} HexBytesAt(s: string, k: nat, i: nat)
    requires i < k <= 3
    ensures HexBytes(s, k)[1 + 2 * i] == HexByte(HashByte(s, i))[0]
    ensures HexBytes(s, k)[2 + 2 * i] == HexByte(HashByte(s, i))[1]
  {
    var prev, last := HexBytes(s, k - 1), HexByte(HashByte(s, k - 1));
    assert HexBytes(s, k) == prev + last;
    if i < k - 1 {
      HexBytesAt(s, k - 1, i);
      assert 2 + 2 * i < |prev|;
    } else {
      assert 1 + 2 * i == |prev|;
    }
  }

  lemma HexByteValue(b: nat)
    requires b < 256
    ensures 16 * HexValue(HexByte(b)[0]) + HexValue(HexByte(b)[1]) == b
  {
    HexDigitValue(b / 16);
    HexDigitValue(b % 16);
  }

  lemma HexDigitValue(d: nat)
    requires d < 16
    ensures HexValue(HexDigit(d)) == d
  {
  }

  lemma AddMultiple(x: int, k: int)
    ensures (x + Two32 * k) % Two32 == x % Two32
  {
  }

  lemma DivMod(x: int)
    ensures x == Two32 * (x / Two32) + x % Two32
  {
  }

  /** Two numbers with the same remainder differ by a multiple of 2^32. */
  lemma Congruent(a: int, b: int)
    requires a % Two32 == b % Two32
    ensures a == b + Two32 * (a / Two32 - b / Two32)
  {
    DivMod(a);
    DivMod(b);
  }

  lemma ShiftLeft5Congruent(h: int)
    ensures ShiftLeft5(h) % Two32 == (32 * h) % Two32
  {
    var t := ToInt32(h);
    Congruent(t, h);
    var d := t / Two32 - h / Two32;
    assert 32 * t == 32 * h + Two32 * (32 * d);
    AddMultiple(32 * h, 32 * d);
  }

  lemma HashStep(s: string, c: char, h: int)
    requires h % Two32 == Hash32(s)
    ensures (c as int + (ShiftLeft5(h) - h)) % Two32 == Hash32(s + [c])
  {
    var t := s + [c];
    assert t[..|t| - 1] == s;
    var sh := ShiftLeft5(h);
    ShiftLeft5Congruent(h);
    Congruent(sh, 32 * h);
    var k1 := sh / Two32 - (32 * h) / Two32;
    DivMod(h);
    var q := h / Two32;
    var x := c as int + (sh - h);
    assert x == c as int + 31 * Hash32(s) + Two32 * (31 * q + k1);
    AddMultiple(c as int + 31 * Hash32(s), 31 * q + k1);
  }

  lemma WrapByte(u: int, p: int)
    requires p == 1 || p == 256 || p == 65536
    ensures ((u - Two32) / p) % 256 == (u / p) % 256
  {
    if p == 1 {
      WrapLow(u);
    } else if p == 256 {
      WrapMiddle(u);
    } else {
      WrapHigh(u);
    }
  }

  lemma WrapLow(u: int)
    ensures (u - Two32) % 256 == u % 256
  {
  }

  lemma WrapMiddle(u: int)
    ensures ((u - Two32) / 256) % 256 == (u / 256) % 256
  {
    assert (u - Two32) / 256 == u / 256 - 0x100_0000;
  }

  lemma WrapHigh(u: int)
    ensures ((u - Two32) / 65536) % 256 == (u / 65536) % 256
  {
    assert (u - Two32) / 65536 == u / 65536 - 0x1_0000;
  }

  lemma BytePowers(i: nat)
    requires i < 3
    ensures Pow2(8 * i) == 1 || Pow2(8 * i) == 256 || Pow2(8 * i) == 65536
  {
    assert Pow2(4) == 16;
    assert Pow2(8) == 256;
    assert Pow2(12) == 4096;
    assert Pow2(16) == 65536;
  }

  /** Byte i of the hash, read from any number congruent to it. */
  lemma ShiftRightByte(h: int, s: string, i: nat)
    requires h % Two32 == Hash32(s) && i < 3
    ensures ShiftRight(h, 8 * i) % 256 == HashByte(s, i)
  {
    var v := ToInt32(h);
    var u := Hash32(s);
    BytePowers(i);
    if v != u {
      assert v == u - Two32;
      WrapByte(u, Pow2(8 * i));
    }
  }

  /** stringToColor: the default blue for an empty string; otherwise the
      string's hash, computed the way the helper's loop does on 32-bit
      numbers, turned into '#' and six lower-case hex digits. */
  method StringToColor(str: string) returns (color: string)
    ensures str == "" ==> color == "#3B82F6"
    ensures str != "" ==> color == ColorOf(str)
    ensures str != "" ==> |color| == 7 && forall i :: 1 <= i < 7 ==> IsHexDigit(color[i])
  {
    if str == "" {
      return "#3B82F6";
    }
    var hash := 0;
    var i := 0;
    while i < |str|
      invariant 0 <= i <= |str|
      invariant hash % Two32 == Hash32(str[..i])
    {
      HashStep(str[..i], str[i], hash);
      assert str[..i + 1] == str[..i] + [str[i]];
      hash := str[i] as int + (ShiftLeft5(hash) - hash);
      i := i + 1;
    }
    assert str[..i] == str;
    color := "#";
    var k := 0;
    while k < 3
      invariant 0 <= k <= 3
      invariant color == HexBytes(str, k)
    {
      var value := ShiftRight(hash, k * 8) % 256;
      ShiftRightByte(hash, str, k);
      PaddedHex(value);
      color := color + LastTwo("00" + ToHex(value));
      k := k + 1;
    }
  }

  // ---------------------------------------------------------------------
  // capitalizeWords

  /** word.charAt(0).toUpperCase() + word.slice(1).toLowerCase() */
  function CapitalizeWord(w: string): (r: string)
    ensures |r| == |w|
    ensures w != "" ==> r[0] == UpperChar(w[0])
    ensures forall i :: 1 <= i < |w| ==> r[i] == LowerChar(w[i])
  {
    if w == "" then "" else [UpperChar(w[0])] + Lower(w[1..])
  }

  function CapitalizeAll(words: seq<string>): (r: seq<string>)
    ensures |r| == |words|
    ensures forall i :: 0 <= i < |r| ==> r[i] == CapitalizeWord(words[i])
  {
    seq(|words|, i requires 0 <= i < |words| => CapitalizeWord(words[i]))
  }

  /** capitalizeWords: the ' '-separated pieces of the string, each
      capitalised, joined with ' ' again; the empty string stays empty. */
  function CapitalizeWords(s: string): string {
    if s == "" then "" else Join(CapitalizeAll(Split(s, ' ')), " ")
  }

  lemma CapitalizeWordNoSpace(w: string)
    requires ' ' !in w
    ensures ' ' !in CapitalizeWord(w)
  {
  }

  lemma CapitalizeWordIdempotent(w: string)
    ensures CapitalizeWord(CapitalizeWord(w)) == CapitalizeWord(w)
  {
  }

  lemma {:induction false} JoinSameLengths(a: seq<string>, b: seq<string>, sep: string)
    requires |a| == |b|
    requires forall i :: 0 <= i < |a| ==> |a[i]| == |b[i]|
    ensures |Join(a, sep)| == |Join(b, sep)|
  {
    if |a| > 1 {
      JoinSameLengths(a[1..], b[1..], sep);
    }
  }

  /** The result splits back into the capitalised pieces of the input: the
      number of pieces is kept and each piece has its first letter upper
      case and the rest lower case. */
  lemma CapitalizeWordsPieces(s: string)
    requires s != ""
    ensures Split(CapitalizeWords(s), ' ') == CapitalizeAll(Split(s, ' '))
    ensures |Split(CapitalizeWords(s), ' ')| == |Split(s, ' ')|
  {
    var words := CapitalizeAll(Split(s, ' '));
    forall w | w in words ensures ' ' !in w {
      var i :| 0 <= i < |words| && words[i] == w;
      CapitalizeWordNoSpace(Split(s, ' ')[i]);
    }
    SplitJoin(words, ' ');
  }

  /** Capitalising keeps the length of the string. */
  lemma CapitalizeWordsLength(s: string)
    ensures |CapitalizeWords(s)| == |s|
  {
    if s != "" {
      JoinSplit(s, ' ');
      JoinSameLengths(CapitalizeAll(Split(s, ' ')), Split(s, ' '), " ");
    }
  }

  /** Capitalising a capitalised string changes nothing. */
  lemma CapitalizeWordsIdempotent(s: string)
    ensures CapitalizeWords(CapitalizeWords(s)) == CapitalizeWords(s)
  {
    if s != "" {
      var t := CapitalizeWords(s);
      CapitalizeWordsLength(s);
      CapitalizeWordsPieces(s);
      var words := CapitalizeAll(Split(s, ' '));
      forall i | 0 <= i < |words|
        ensures CapitalizeAll(words)[i] == words[i]
      {
        CapitalizeWordIdempotent(Split(s, ' ')[i]);
      }
      assert CapitalizeAll(words) == words;
    }
  }

  // ---------------------------------------------------------------------
  // truncateText

  const DefaultMaxLength := 100

  /** truncateText: an empty text, or one no longer than maxLength, is
      returned as it is; a longer one is cut to its first maxLength
      characters (none when maxLength is negative) and "..." is appended. */
  function TruncateText(text: string, maxLength: int): (r: string)
    ensures |r| <= Max(|text|, Max(0, maxLength) + 3)
  {
    if text == "" || |text| <= maxLength then text
    else text[..Max(0, maxLength)] + "..."
  }

  /** The result is the text itself, or a strict prefix of it of length
      maxLength followed by "...", maxLength + 3 characters in all. */
  lemma TruncateTextShape(text: string, maxLength: int)
    ensures |text| <= maxLength ==> TruncateText(text, maxLength) == text
    ensures |text| > maxLength && text != "" ==>
              var r := TruncateText(text, maxLength);
              |r| == Max(0, maxLength) + 3 && r[|r| - 3..] == "..." &&
              r[..|r| - 3] == text[..|r| - 3] && |r| - 3 < |text|
  {
  }

  /** Truncating a truncated text changes nothing. */
  lemma TruncateTextIdempotent(text: string, maxLength: int)
    ensures TruncateText(TruncateText(text, maxLength), maxLength) == TruncateText(text, maxLength)
  {
    var r := TruncateText(text, maxLength);
    if text != "" && |text| > maxLength {
      assert r[..Max(0, maxLength)] == text[..Max(0, maxLength)];
    }
  }

  // ---------------------------------------------------------------------
  // calculateAge

  datatype Date = Date(year: int, month: int, day: int)

  /** What calculateAge returns: 'N/A', the NaN an unparsable date gives,
      or a number of years. */
  datatype Age = NotAvailable | NotANumber | Years(years: int)

  /** d is on or before t. */
  predicate OnOrBefore(d: Date, t: Date) {
    d.year < t.year || (d.year == t.year && (d.month < t.month || (d.month == t.month && d.day <= t.day)))
  }

  /** The n-th anniversary of a date. */
  function Anniversary(b: Date, n: int): Date {
    Date(b.year + n, b.month, b.day)
  }

  /** calculateAge: 'N/A' for a missing date of birth; `parse` stands for
      new Date(dateOfBirth) and `today` for new Date(). The age is the
      number of the last anniversary of the birth date that is not after
      today. */
  method CalculateAge(dateOfBirth: string, parse: string -> Option<Date>, today: Date)
    returns (age: Age)
    ensures age == NotAvailable <==> dateOfBirth == ""
    ensures age == NotANumber <==> dateOfBirth != "" && parse(dateOfBirth).None?
    ensures age.Years? ==> parse(dateOfBirth).Some?
    ensures age.Years? ==>
              (OnOrBefore(Anniversary(parse(dateOfBirth).value, age.years), today) &&
               !OnOrBefore(Anniversary(parse(dateOfBirth).value, age.years + 1), today))
  {
    if dateOfBirth == "" {
      return NotAvailable;
    }
    var parsed := parse(dateOfBirth);
    if parsed.None? {
      return NotANumber;
    }
    var birth := parsed.value;
    var years := today.year - birth.year;
    var monthDiff := today.month - birth.month;
    if monthDiff < 0 || (monthDiff == 0 && today.day < birth.day) {
      years := years - 1;
    }
    age := Years(years);
  }
}
