/**
 * The basic validators of common/validation/basic.go. Unicode categories
 * and the regular expressions the file relies on are given as predicates:
 * RuneClasses for unicode.IsLower/IsNumber/IsUpper/IsPunct/IsSymbol and
 * Patterns for the email, IPv4 and IPv6 expressions.
 */
module ValidationBasic {
  import opened Optional
  import opened GoLib

  datatype RuneClasses = RuneClasses(
    isLower: char -> bool, isNumber: char -> bool, isUpper: char -> bool,
    isPunct: char -> bool, isSymbol: char -> bool)

  datatype Patterns = Patterns(email: string -> bool, ipv4: string -> bool, ipv6: string -> bool)

  // ---------------------------------------------------------------------
  // IsPasswordValid

  /** The category the password loop gives a rune: the first test that holds, in source order. */
  datatype RuneClass = LowerRune | NumberRune | UpperRune | SpecialRune | OtherRune

  function Classify(rc: RuneClasses, c: char): RuneClass {
    if rc.isLower(c) then LowerRune
    else if rc.isNumber(c) then NumberRune
    else if rc.isUpper(c) then UpperRune
    else if rc.isPunct(c) || rc.isSymbol(c) then SpecialRune
    else OtherRune
  }

  ghost predicate HasClass(rc: RuneClasses, s: string, k: RuneClass) {
    exists i :: 0 <= i < |s| && Classify(rc, s[i]) == k
  }

  /** The password rule: only the four categories, each at least once, 8 to 255 runes. */
  ghost predicate PasswordRule(rc: RuneClasses, s: string) {
    (forall i :: 0 <= i < |s| ==> Classify(rc, s[i]) != OtherRune)
    && HasClass(rc, s, LowerRune) && HasClass(rc, s, NumberRune)
    && HasClass(rc, s, UpperRune) && HasClass(rc, s, SpecialRune)
    && 8 <= |s| <= 255
  }

  method IsPasswordValid(rc: RuneClasses, s: string) returns (ok: bool)
    ensures ok <==> PasswordRule(rc, s)
  {
    var number, upper, lower, special := false, false, false, false;
    var letters := 0;
    var i := 0;
    while i < |s|
      invariant 0 <= i <= |s| && letters == i
      invariant forall j :: 0 <= j < i ==> Classify(rc, s[j]) != OtherRune
      invariant lower <==> HasClass(rc, s[..i], LowerRune)
      invariant number <==> HasClass(rc, s[..i], NumberRune)
      invariant upper <==> HasClass(rc, s[..i], UpperRune)
      invariant special <==> HasClass(rc, s[..i], SpecialRune)
    {
      var c := s[i];
      letters := letters + 1;
      if rc.isLower(c) {
        lower := true;
      } else if rc.isNumber(c) {
        number := true;
      } else if rc.isUpper(c) {
        upper := true;
      } else if rc.isPunct(c) || rc.isSymbol(c) {
        special := true;
      } else {
        assert Classify(rc, s[i]) == OtherRune;
        return false;
      }
      HasClassExtend(rc, s, i);
      i := i + 1;
    }
    assert s[..i] == s;
    return number && upper && lower && special && letters >= 8 && letters <= 255;
  }

  lemma HasClassExtend(rc: RuneClasses, s: string, i: int)
    requires 0 <= i < |s|
    ensures forall k :: HasClass(rc, s[..i + 1], k) <==> HasClass(rc, s[..i], k) || Classify(rc, s[i]) == k
  {
    forall k ensures HasClass(rc, s[..i + 1], k) <==> HasClass(rc, s[..i], k) || Classify(rc, s[i]) == k {
      if HasClass(rc, s[..i], k) {
        var j :| 0 <= j < i && Classify(rc, s[..i][j]) == k;
        assert s[..i + 1][j] == s[..i][j];
      }
      if Classify(rc, s[i]) == k {
        assert s[..i + 1][i] == s[i];
      }
      if HasClass(rc, s[..i + 1], k) {
        var j :| 0 <= j < i + 1 && Classify(rc, s[..i + 1][j]) == k;
        if j < i {
          assert s[..i][j] == s[..i + 1][j];
        }
      }
    }
  }

  /** Categories that agree with Unicode on ASCII runes. */
  ghost predicate AsciiAgrees(rc: RuneClasses) {
    forall c: char :: (c as int) < 0x80 ==>
      (rc.isLower(c) <==> 'a' <= c <= 'z') && (rc.isNumber(c) <==> '0' <= c <= '9')
      && (rc.isUpper(c) <==> 'A' <= c <= 'Z')
      && (rc.isPunct(c) || rc.isSymbol(c) <==>
            ('!' <= c <= '/') || (':' <= c <= '@') || ('[' <= c <= '`') || ('{' <= c <= '~'))
  }

  /** Cases of the password tests: a valid one, the empty and the blank one, one without a capital, and a short one. */
  lemma PasswordExamples(rc: RuneClasses)
    requires AsciiAgrees(rc)
    ensures PasswordRule(rc, "adgA4$qq")
    ensures !PasswordRule(rc, "") && !PasswordRule(rc, " ")
    ensures !PasswordRule(rc, "asd495$##%dksadf")
    ensures !PasswordRule(rc, "aR#5")
  {
    var good := "adgA4$qq";
    assert Classify(rc, good[0]) == LowerRune;
    assert Classify(rc, good[4]) == NumberRune;
    assert Classify(rc, good[3]) == UpperRune;
    assert Classify(rc, good[5]) == SpecialRune;
    assert forall i :: 0 <= i < |good| ==> Classify(rc, good[i]) != OtherRune;
    assert Classify(rc, " "[0]) == OtherRune;
    var noUpper := "asd495$##%dksadf";
    assert forall i :: 0 <= i < |noUpper| ==> Classify(rc, noUpper[i]) != UpperRune;
  }

  // ---------------------------------------------------------------------
  // Lengths and the format gates

  predicate IsAsciiAlnum(c: char) {
    (48 <= c as int <= 57) || (65 <= c as int <= 90) || (97 <= c as int <= 122)
  }

  /** The anti-phishing code rule: 4 to 20 bytes, every rune an ASCII letter or digit. */
  predicate AntiPhishingCodeRule(code: string) {
    4 <= Utf8Len(code) <= 20 && forall i :: 0 <= i < |code| ==> IsAsciiAlnum(code[i])
  }

  /** IsAntiPhishingCodeValid: a byte length gate, then a rune loop that stops at the first rune outside 0-9, A-Z, a-z. */
  method IsAntiPhishingCodeValid(code: string) returns (ok: bool)
    ensures ok <==> AntiPhishingCodeRule(code)
  {
    if Utf8Len(code) < 4 || Utf8Len(code) > 20 {
      return false;
    }
    var i := 0;
    while i < |code|
      invariant 0 <= i <= |code|
      invariant forall j :: 0 <= j < i ==> IsAsciiAlnum(code[j])
    {
      var c := code[i] as int;
      if c >= 48 && c <= 57 {
        i := i + 1;
        continue;
      }
      if c >= 65 && c <= 90 {
        i := i + 1;
        continue;
      }
      if c >= 97 && c <= 122 {
        i := i + 1;
        continue;
      }
      return false;
    }
    return true;
  }

  /** An accepted code is ASCII, so its byte length is its rune count: 4 to 20 letters or digits. */
  lemma AntiPhishingCodeRunes(code: string)
    requires AntiPhishingCodeRule(code)
    ensures 4 <= |code| <= 20
  {
    Utf8LenAscii(code);
  }

  /** IsNameValid: at least two BYTES. */
  function IsNameValid(name: string): (ok: bool) {
    Utf8Len(name) >= 2
  }

  /**
   * For ASCII names the rule is "at least two characters"; a single
   * two-byte rune such as 'é' also passes.
   */
  lemma NameLength(name: string)
    ensures (forall i :: 0 <= i < |name| ==> (name[i] as int) < 0x80) ==> (IsNameValid(name) <==> |name| >= 2)
    ensures IsNameValid("é") && !IsNameValid("a") && !IsNameValid("")
  {
    if forall i :: 0 <= i < |name| ==> (name[i] as int) < 0x80 {
      Utf8LenAscii(name);
    }
    assert Utf8Len("é") == Utf8Len("é"[..0]) + RuneLen('é');
  }

  /** IsEmailValid: a byte length gate in [3, 319], then the email pattern. */
  function IsEmailValid(p: Patterns, email: string): (ok: bool) {
    !(Utf8Len(email) < 3 || Utf8Len(email) > 319) && p.email(email)
  }

  /** Outside the length gate an address is rejected whatever the pattern says; inside it the pattern decides. */
  lemma EmailLengthGate(p: Patterns, email: string)
    ensures (Utf8Len(email) < 3 || Utf8Len(email) > 319) ==> !IsEmailValid(p, email)
    ensures 3 <= Utf8Len(email) <= 319 ==> (IsEmailValid(p, email) <==> p.email(email))
  {
  }

  /**
   * The gate counts bytes, so in runes: more than 319 runes are always
   * rejected, an accepted address has at least one rune, and for an ASCII
   * address the gate is 3 to 319 characters.
   */
  lemma EmailRuneBounds(p: Patterns, email: string)
    ensures |email| > 319 ==> !IsEmailValid(p, email)
    ensures IsEmailValid(p, email) ==> |email| >= 1 && p.email(email)
    ensures (forall i :: 0 <= i < |email| ==> (email[i] as int) < 0x80) ==>
      (IsEmailValid(p, email) <==> 3 <= |email| <= 319 && p.email(email))
  {
    if forall i :: 0 <= i < |email| ==> (email[i] as int) < 0x80 {
      Utf8LenAscii(email);
    }
  }

  function IsIpv4Valid(p: Patterns, ip: string): (ok: bool) {
    p.ipv4(TrimSpace(ip))
  }

  function IsIpv6Valid(p: Patterns, ip: string): (ok: bool) {
    p.ipv6(TrimSpace(ip))
  }

  /** Both IP checks see the trimmed input, so white space around an address never changes their answer. */
  lemma IpChecksIgnoreSurroundingSpace(p: Patterns, pre: string, ip: string, post: string)
    requires AllSpace(pre) && AllSpace(post)
    ensures IsIpv4Valid(p, pre + ip + post) == IsIpv4Valid(p, ip)
    ensures IsIpv6Valid(p, pre + ip + post) == IsIpv6Valid(p, ip)
  {
    TrimSpaceIgnoresSurroundingSpace(pre, ip, post);
  }

  // ---------------------------------------------------------------------
  // HasOnlyDigits and strconv.ParseUint(s, 10, 64)

  const MaxUint64: nat := 0xFFFF_FFFF_FFFF_FFFF
  /** strconv's cutoff for base 10: the smallest n for which n*10 overflows 64 bits. */
  const Cutoff: nat := MaxUint64 / 10 + 1

  datatype ParseResult = Parsed(n: nat) | SyntaxError | RangeError

  predicate IsDigit(c: char) { '0' <= c <= '9' }

  function DigitValue(c: char): nat
    requires IsDigit(c)
  {
    c as int - '0' as int
  }

  /** The digit loop of ParseUint from position i on, with value n so far. */
  function ParseDigits(s: string, i: nat, n: nat): ParseResult
    requires i <= |s| && n <= MaxUint64
    decreases |s| - i
  {
    if i == |s| then Parsed(n)
    else if !IsDigit(s[i]) then SyntaxError
    else if n >= Cutoff then RangeError
    else
      var n1 := n * 10 + DigitValue(s[i]);
      if n1 > MaxUint64 then RangeError else ParseDigits(s, i + 1, n1)
  }

  /** strconv.ParseUint(s, 10, 64): no sign, no underscores, no white space. */
  function ParseUint(s: string): ParseResult {
    if s == [] then SyntaxError else ParseDigits(s, 0, 0)
  }

  predicate AllDigits(s: string) { forall i :: 0 <= i < |s| ==> IsDigit(s[i]) }

  /** The value of a digit string, as a mathematical integer. */
  function DecimalValue(s: string): nat
    requires AllDigits(s)
  {
    if s == [] then 0 else DecimalValue(s[..|s| - 1]) * 10 + DigitValue(s[|s| - 1])
  }

  lemma {:induction false} DecimalValuePrefix(s: string, j: nat)
    requires AllDigits(s) && j <= |s|
    ensures DecimalValue(s[..j]) <= DecimalValue(s)
    decreases |s| - j
  {
    if j < |s| {
      assert s[..|s|] == s;
      DecimalValuePrefix(s[..|s| - 1], j);
      assert s[..|s| - 1][..j] == s[..j];
    } else {
      assert s[..j] == s;
    }
  }

  lemma {:induction false} ParseDigitsValue(s: string, i: nat)
    requires AllDigits(s) && i <= |s| && DecimalValue(s[..i]) <= MaxUint64
    ensures ParseDigits(s, i, DecimalValue(s[..i])) ==
      (if DecimalValue(s) <= MaxUint64 then Parsed(DecimalValue(s)) else RangeError)
    decreases |s| - i
  {
    if i == |s| {
      assert s[..i] == s;
    } else {
      var n := DecimalValue(s[..i]);
      assert s[..i + 1][..i] == s[..i];
      assert DecimalValue(s[..i + 1]) == n * 10 + DigitValue(s[i]);
      DecimalValuePrefix(s, i + 1);
      if n < Cutoff && n * 10 + DigitValue(s[i]) <= MaxUint64 {
        ParseDigitsValue(s, i + 1);
      }
    }
  }

  lemma {:induction false} ParseDigitsOnlyDigits(s: string, i: nat, n: nat)
    requires i <= |s| && n <= MaxUint64
    requires ParseDigits(s, i, n).Parsed?
    ensures forall j :: i <= j < |s| ==> IsDigit(s[j])
    decreases |s| - i
  {
    if i < |s| {
      ParseDigitsOnlyDigits(s, i + 1, n * 10 + DigitValue(s[i]));
    }
  }

  /** ParseUint accepts exactly the non-empty digit strings whose value fits in 64 bits, and returns that value. */
  lemma ParseUintAccepts(s: string)
    ensures ParseUint(s).Parsed? <==> s != [] && AllDigits(s) && DecimalValue(s) <= MaxUint64
    ensures ParseUint(s).Parsed? ==> ParseUint(s).n == DecimalValue(s)
  {
    if s != [] {
      if ParseUint(s).Parsed? {
        ParseDigitsOnlyDigits(s, 0, 0);
      }
      if AllDigits(s) {
        assert s[..0] == [];
        ParseDigitsValue(s, 0);
      }
    }
  }

  /** HasOnlyDigits: a nil pointer is rejected; otherwise ParseUint must succeed. */
  function HasOnlyDigits(s: Option<string>): (ok: bool) {
    s.Some? && ParseUint(s.value).Parsed?
  }

  lemma HasOnlyDigitsIff(s: Option<string>)
    ensures HasOnlyDigits(s) <==> s.Some? && s.value != [] && AllDigits(s.value) && DecimalValue(s.value) < 0x1_0000_0000_0000_0000
  {
    if s.Some? {
      ParseUintAccepts(s.value);
    }
  }

  /** Cases of the digit tests. */
  lemma HasOnlyDigitsExamples()
    ensures !HasOnlyDigits(None)
    ensures !HasOnlyDigits(Some("")) && !HasOnlyDigits(Some(" "))
    ensures HasOnlyDigits(Some("123123"))
    ensures !HasOnlyDigits(Some("(123)1255")) && !HasOnlyDigits(Some("123-5515")) && !HasOnlyDigits(Some("3 53158"))
  {
    assert ParseUint("123123") == Parsed(123123);
  }

  // ---------------------------------------------------------------------
  // diff

  /** A time's calendar reading in one zone: what Date() and Clock() return, and the nanoseconds. */
  datatype DateTime = DateTime(year: int, month: int, day: int, hour: int, minute: int, second: int, nanos: int)
  {
    ghost predicate Valid() {
      1 <= month <= 12 && 1 <= day <= DaysIn(year, month)
      && 0 <= hour < 24 && 0 <= minute < 60 && 0 <= second < 60 && 0 <= nanos < 1_000_000_000
    }
  }

  predicate IsLeap(y: int) { y % 4 == 0 && (y % 100 != 0 || y % 400 == 0) }

  function DaysIn(y: int, m: int): (n: int)
    ensures 28 <= n <= 31
  {
    if m == 2 then (if IsLeap(y) then 29 else 28)
    else if m == 4 || m == 6 || m == 9 || m == 11 then 30
    else 31
  }

  /**
   * Day() of time.Date(y, m, d) for a day past the end of month m that
   * still falls in the following month: the date rolls over.
   */
  function RolledDay(y: int, m: int, d: int): (r: int)
    requires 1 <= m <= 12 && DaysIn(y, m) < d <= DaysIn(y, m) + 28
    ensures 1 <= r <= 28
  {
    d - DaysIn(y, m)
  }

  /** t.After(u): later in the calendar order, nanoseconds included. */
  predicate After(t: DateTime, u: DateTime) {
    if t.year != u.year then t.year > u.year
    else if t.month != u.month then t.month > u.month
    else if t.day != u.day then t.day > u.day
    else if t.hour != u.hour then t.hour > u.hour
    else if t.minute != u.minute then t.minute > u.minute
    else if t.second != u.second then t.second > u.second
    else t.nanos > u.nanos
  }

  /** The pair diff works on: the earlier time first. */
  function Earlier(a: DateTime, b: DateTime): DateTime { if After(a, b) then b else a }
  function Later(a: DateTime, b: DateTime): DateTime { if After(a, b) then a else b }

  /** Seconds from lo's day-and-clock to hi's, taken component by component. */
  function SubMonthDelta(lo: DateTime, hi: DateTime): int {
    86400 * (hi.day - lo.day) + 3600 * (hi.hour - lo.hour) + 60 * (hi.minute - lo.minute) + (hi.second - lo.second)
  }

  /** diff borrows a month exactly when hi's day-and-clock is earlier than lo's. */
  predicate BorrowsMonth(lo: DateTime, hi: DateTime) { SubMonthDelta(lo, hi) < 0 }

  /**
   * diff: order the two times, subtract component-wise, then borrow from
   * the next larger unit wherever a difference is negative. The day borrow
   * adds the number of days of the EARLIER time's month.
   */
  method Diff(a0: DateTime, b0: DateTime) returns (year: int, month: int, day: int, hour: int, min: int, sec: int)
    requires a0.Valid() && b0.Valid()
    ensures 0 <= sec < 60 && 0 <= min < 60 && 0 <= hour < 24 && 0 <= month < 12 && day >= 0 && year >= 0
    ensures var lo, hi := Earlier(a0, b0), Later(a0, b0);
      12 * year + month == 12 * (hi.year - lo.year) + (hi.month - lo.month) - (if BorrowsMonth(lo, hi) then 1 else 0)
    ensures var lo, hi := Earlier(a0, b0), Later(a0, b0);
      86400 * day + 3600 * hour + 60 * min + sec ==
        SubMonthDelta(lo, hi) + (if BorrowsMonth(lo, hi) then 86400 * DaysIn(lo.year, lo.month) else 0)
  {
    var a, b := a0, b0;
    if After(a, b) {
      a, b := b, a;
    }
    year := b.year - a.year;
    month := b.month - a.month;
    day := b.day - a.day;
    hour := b.hour - a.hour;
    min := b.minute - a.minute;
    sec := b.second - a.second;

    if sec < 0 {
      sec := sec + 60;
      min := min - 1;
    }
    if min < 0 {
      min := min + 60;
      hour := hour - 1;
    }
    if hour < 0 {
      hour := hour + 24;
      day := day - 1;
    }
    assert day < 0 <==> BorrowsMonth(a, b);
    if day < 0 {
      var t := RolledDay(a.year, a.month, 32);
      day := day + 32 - t;
      month := month - 1;
    }
    if month < 0 {
      month := month + 12;
      year := year - 1;
    }
  }
}
