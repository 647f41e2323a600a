/**
 * Decimal numerals: how `int(input(...))` reads what is typed at a menu
 * prompt, and how `f"{i + 1}"` prints the numbers the menu shows.
 */
module Decimal {
  import opened Wrappers
  import opened Text

  predicate IsDigit(c: char) {
    '0' <= c <= '9'
  }

  function DigitChar(d: nat): (c: char)
    requires d < 10
    ensures IsDigit(c)
  {
    (48 + d) as char
  }

  /** The value of a digit character; anything else counts as 0. */
  function DigitOf(c: char): (d: nat)
    ensures d < 10
  {
    if IsDigit(c) then c as int - 48 else 0
  }

  /** The number a run of digits spells; underscores between digits are skipped. */
  function DigitsValue(s: string): nat {
    if s == [] then 0
    else if s[|s| - 1] == '_' then DigitsValue(s[..|s| - 1])
    else 10 * DigitsValue(s[..|s| - 1]) + DigitOf(s[|s| - 1])
  }

  /** Digits, with single underscores allowed between two digits, as `int()` accepts them. */
  predicate ValidNumeral(t: string) {
    t != [] && IsDigit(t[0]) && IsDigit(t[|t| - 1])
    && forall i :: 0 <= i < |t| ==> IsDigit(t[i]) || (t[i] == '_' && 0 < i < |t| - 1 && IsDigit(t[i - 1]) && IsDigit(t[i + 1]))
  }

  predicate IsSign(c: char) {
    c == '+' || c == '-'
  }

  /** `int(s)`: surrounding blanks dropped, an optional sign, then a numeral; None stands for `ValueError`. */
  function ParseInt(s: string): (r: Option<int>)
    ensures r.Some? <==> var t := Strip(s); t != [] && (if IsSign(t[0]) then ValidNumeral(t[1..]) else ValidNumeral(t))
    ensures var t := Strip(s); t == [] ==> r.None?
  {
    var t := Strip(s);
    if t == [] then None
    else if IsSign(t[0]) then
      var body := t[1..];
      var v: int := DigitsValue(body);
      if !ValidNumeral(body) then None
      else if t[0] == '-' then Some(-v)
      else Some(v)
    else if ValidNumeral(t) then Some(DigitsValue(t))
    else None
  }

  /** `str(n)` for a natural number: its digits, no leading zero. */
  function ShowNat(n: nat): (s: string)
    ensures s != []
    ensures forall i :: 0 <= i < |s| ==> IsDigit(s[i])
    ensures |s| > 1 ==> s[0] != '0'
  {
    if n < 10 then [DigitChar(n)] else ShowNat(n / 10) + [DigitChar(n % 10)]
  }

  /** `str(n)` for any integer. */
  function ShowInt(n: int): (s: string)
    ensures s != [] && IsDigit(s[|s| - 1])
  {
    if n < 0 then "-" + ShowNat(-n) else ShowNat(n)
  }

  lemma {:induction false} ShowNatValue(n: nat)
    ensures DigitsValue(ShowNat(n)) == n
    decreases n
  {
    if n >= 10 {
      var s := ShowNat(n);
      assert s[..|s| - 1] == ShowNat(n / 10);
      ShowNatValue(n / 10);
    }
  }

  /** Typing back a printed number reads as that number. */
  lemma ParseShowInt(n: int)
    ensures ParseInt(ShowInt(n)) == Some(n)
  {
    if n < 0 {
      ParseNegative(-n);
    } else {
      ParseNatural(n);
    }
  }

  /** A printed natural number is a numeral without blanks or sign. */
  lemma ShowNatNumeral(m: nat)
    ensures ValidNumeral(ShowNat(m))
    ensures !IsSpace(ShowNat(m)[0]) && !IsSign(ShowNat(m)[0])
  {
  }

  lemma ParseNatural(m: nat)
    ensures ParseInt(ShowNat(m)) == Some(m)
  {
    var s := ShowNat(m);
    ShowNatNumeral(m);
    StripOfStripped(s);
    ShowNatValue(m);
  }

  lemma ParseNegative(m: nat)
    ensures ParseInt("-" + ShowNat(m)) == Some(-(m as int))
  {
    var d := ShowNat(m);
    var s := "-" + d;
    ShowNatNumeral(m);
    assert !IsSpace(s[0]) && s[|s| - 1] == d[|d| - 1];
    StripOfStripped(s);
    assert s[1..] == d;
    ShowNatValue(m);
  }

  /** Blanks around a number are dropped. */
  lemma BlanksAroundTwo()
    ensures ParseInt(" 2\n") == Some(2)
  {
  }

  /** A `+` sign is accepted. */
  lemma PlusTwo()
    ensures ParseInt("+2") == Some(2)
  {
    StripOfStripped("+2");
  }

  /** Leading zeros and an underscore between digits are accepted. */
  lemma PaddedTwo()
    ensures ParseInt("02") == Some(2) && ParseInt("0_2") == Some(2)
  {
    StripOfStripped("02");
    StripOfStripped("0_2");
    assert "0"[..0] == [] && DigitsValue("0") == 0;
    assert "02"[..1] == "0" && DigitsValue("02") == 2;
    assert "0_"[..1] == "0" && DigitsValue("0_") == 0;
    assert "0_2"[..2] == "0_" && DigitsValue("0_2") == 2;
    assert ValidNumeral("0_2");
  }

  /** A trailing underscore or a blank between digits is a `ValueError`. */
  lemma MalformedTwo()
    ensures ParseInt("2_") == None && ParseInt("2 2") == None
  {
  }

  /** A line without a digit never reads as a number. */
  lemma NoDigitNoNumber(s: string)
    requires forall i :: 0 <= i < |s| ==> !IsDigit(s[i])
    ensures ParseInt(s).None?
  {
    var t := Strip(s);
    if t != [] {
      assert forall i :: 0 <= i < |t| ==> t[i] == s[StripStart(s) + i];
      assert !IsDigit(t[|t| - 1]);
    }
  }
}
