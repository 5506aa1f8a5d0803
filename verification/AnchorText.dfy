/**
 * The text of an anchor: parts joined by '>', each a tag with an optional decimal index behind ':'.
 */
module AnchorText {
  import opened Options
  import opened Text

  function Split(s: string, c: char): (parts: seq<string>)
    ensures parts != []
  {
    if s == "" then [""]
    else
      var rest := Split(s[1..], c);
      if s[0] == c then [""] + rest else [[s[0]] + rest[0]] + rest[1..]
  }

  function Join(parts: seq<string>, c: char): string {
    if parts == [] then "" else if |parts| == 1 then parts[0] else parts[0] + [c] + Join(parts[1..], c)
  }

  lemma {:induction false} SplitOne(s: string, c: char)
    requires c !in s
    ensures Split(s, c) == [s]
  {
    if s != "" {
      SplitOne(s[1..], c);
      assert [s[0]] + s[1..] == s;
    }
  }

  lemma {:induction false} SplitFirst(s: string, c: char, rest: string)
    requires c !in s
    ensures Split(s + [c] + rest, c) == [s] + Split(rest, c)
  {
    if s == "" {
      assert s + [c] + rest == [c] + rest;
    } else {
      SplitFirst(s[1..], c, rest);
      assert (s + [c] + rest)[1..] == s[1..] + [c] + rest;
      assert [s[0]] + s[1..] == s;
    }
  }

  // Splitting undoes joining.
  lemma {:induction false} SplitJoin(parts: seq<string>, c: char)
    requires parts != [] && forall p | p in parts :: c !in p
    ensures Split(Join(parts, c), c) == parts
  {
    if |parts| == 1 {
      SplitOne(parts[0], c);
    } else {
      SplitFirst(parts[0], c, Join(parts[1..], c));
      assert forall p | p in parts[1..] :: p in parts;
      SplitJoin(parts[1..], c);
    }
  }

  // What stands before the first separator never contains one.
  lemma {:induction false} HeadHasNone(s: string, c: char)
    ensures c !in Split(s, c)[0]
  {
    if s != "" { HeadHasNone(s[1..], c); }
  }

  predicate IsDigit(c: char) {
    '0' <= c <= '9'
  }

  function Digit(n: nat): char
    requires n < 10
  {
    '0' + n as char
  }

  function Decimal(n: nat): string {
    if n < 10 then [Digit(n)] else Decimal(n / 10) + [Digit(n % 10)]
  }

  function DigitsValue(s: string): nat
    requires forall c | c in s :: IsDigit(c)
  {
    if s == "" then 0
    else
      assert IsDigit(s[|s| - 1]);
      10 * DigitsValue(s[..|s| - 1]) + (s[|s| - 1] as int - '0' as int)
  }

  function LeadingDigits(s: string): (r: string)
    ensures forall c | c in r :: IsDigit(c)
  {
    if s != "" && IsDigit(s[0]) then [s[0]] + LeadingDigits(s[1..]) else ""
  }

  function SkipBlanks(s: string): string {
    if s != "" && IsBlank(s[0]) then SkipBlanks(s[1..]) else s
  }

  // `parseInt(s, 10)`; None stands for NaN.
  function ParseInt(s: string): Option<int> {
    var t := SkipBlanks(s);
    var negative := t != "" && t[0] == '-';
    var digits := LeadingDigits(if t != "" && (t[0] == '-' || t[0] == '+') then t[1..] else t);
    var value: int := DigitsValue(digits);
    if digits == "" then None else Some(if negative then -value else value)
  }

  lemma {:induction false} DecimalDigits(n: nat)
    ensures Decimal(n) != "" && (forall c | c in Decimal(n) :: IsDigit(c)) && DigitsValue(Decimal(n)) == n
  {
    if n >= 10 {
      DecimalDigits(n / 10);
      var s := Decimal(n);
      assert s[..|s| - 1] == Decimal(n / 10);
    }
  }

  // A printed number has no sign and no leading zero.
  lemma {:induction false} DecimalIsCanonical(n: nat)
    ensures Decimal(n) != "" && forall c | c in Decimal(n) :: '0' <= c <= '9'
    ensures n == 0 ==> Decimal(n) == "0"
    ensures n > 0 ==> Decimal(n)[0] != '0'
  {
    if n >= 10 { DecimalIsCanonical(n / 10); }
  }

  lemma {:induction false} SkipBlanksSkips(blanks: string, rest: string)
    requires (forall c | c in blanks :: c in WHITE_SPACE) && (rest != "" ==> rest[0] !in WHITE_SPACE)
    ensures SkipBlanks(blanks + rest) == rest
  {
    if blanks == "" {
      assert blanks + rest == rest;
      if rest != "" { BlankSpelled(rest[0]); }
    } else {
      BlankSpelled(blanks[0]);
      assert (blanks + rest)[1..] == blanks[1..] + rest && blanks[0] in blanks;
      SkipBlanksSkips(blanks[1..], rest);
    }
  }

  lemma {:induction false} LeadingStops(digits: string, junk: string)
    requires (forall c | c in digits :: '0' <= c <= '9') && (junk != "" ==> !('0' <= junk[0] <= '9'))
    ensures LeadingDigits(digits + junk) == digits
  {
    if digits == "" {
      assert digits + junk == junk;
    } else {
      assert (digits + junk)[1..] == digits[1..] + junk && digits[0] in digits;
      assert forall c | c in digits[1..] :: c in digits;
      LeadingStops(digits[1..], junk);
      assert [digits[0]] + digits[1..] == digits;
    }
  }

  // Reading a number: white space in front is skipped, then an optional sign and the digits up to the first other
  // character count.
  lemma ParseIntReads(blanks: string, sign: string, n: nat, junk: string)
    requires (forall c | c in blanks :: c in WHITE_SPACE) && (sign == "" || sign == "+" || sign == "-")
    requires junk != "" ==> !('0' <= junk[0] <= '9')
    ensures ParseInt(blanks + sign + Decimal(n) + junk) == Some(if sign == "-" then 0 - n else n as int)
  {
    DecimalDigits(n);
    DecimalIsCanonical(n);
    hide Decimal, SkipBlanks, LeadingDigits, DigitsValue;
    var digits := Decimal(n);
    var rest := sign + (digits + junk);
    assert blanks + sign + digits + junk == blanks + rest;
    assert digits[0] in digits && rest[0] == if sign == "" then digits[0] else sign[0];
    BlankSpelled(rest[0]);
    hide IsBlank;
    SkipBlanksSkips(blanks, rest);
    LeadingStops(digits, junk);
    ParseRest(blanks + rest, sign, digits, junk);
  }

  // What follows the white space decides.
  lemma ParseRest(s: string, sign: string, digits: string, junk: string)
    requires SkipBlanks(s) == sign + (digits + junk) && LeadingDigits(digits + junk) == digits != ""
    requires sign == "" || sign == "+" || sign == "-"
    ensures ParseInt(s) == Some(if sign == "-" then 0 - DigitsValue(digits) else DigitsValue(digits) as int)
  {
    hide DigitsValue, SkipBlanks;
    assert digits[0] in digits && IsDigit(digits[0]) && (digits + junk)[0] == digits[0];
    if sign == "" { assert sign + (digits + junk) == digits + junk; }
    else { assert (sign + (digits + junk))[1..] == digits + junk; }
  }

  // Without a digit there is no number.
  lemma ParseIntNone(blanks: string, sign: string, junk: string)
    requires (forall c | c in blanks :: c in WHITE_SPACE) && (sign == "" || sign == "+" || sign == "-")
    requires junk != "" ==> !('0' <= junk[0] <= '9')
    requires sign == "" && junk != "" ==> junk[0] !in WHITE_SPACE && junk[0] != '+' && junk[0] != '-'
    ensures ParseInt(blanks + sign + junk) == None
  {
    var rest := sign + junk;
    assert blanks + sign + junk == blanks + rest;
    if rest != "" { BlankSpelled(rest[0]); }
    SkipBlanksSkips(blanks, rest);
    LeadingStops("", junk);
    assert "" + junk == junk;
    if sign == "" { assert rest == junk; } else { assert rest[1..] == junk; }
    hide SkipBlanks, LeadingDigits;
  }

  // Parsing undoes printing.
  lemma ParseDecimal(n: nat)
    ensures ParseInt(Decimal(n)) == Some(n)
  {
    ParseIntReads("", "", n, "");
    assert "" + "" + Decimal(n) + "" == Decimal(n);
  }
}
