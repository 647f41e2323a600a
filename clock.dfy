/**
 * The timestamps the pipeline names its files by:
 * `datetime.now().strftime("%Y-%m-%d_%H-%M-%S")`.
 */
module Clock {
  import opened Decimal

  /** A reading of the wall clock, to the second. */
  datatype Moment = Moment(year: nat, month: nat, day: nat, hour: nat, minute: nat, second: nat)

  /** A moment `datetime` can hold, with a four-digit year. */
  predicate ValidMoment(m: Moment) {
    1000 <= m.year <= 9999 && 1 <= m.month <= 12 && 1 <= m.day <= 31
    && m.hour < 24 && m.minute < 60 && m.second < 60
  }

  /** What `datetime.now()` can return. */
  type Instant = m: Moment | ValidMoment(m) witness Moment(1970, 1, 1, 0, 0, 0)

  function Pow10(w: nat): (p: nat)
    ensures p >= 1
  {
    if w == 0 then 1 else 10 * Pow10(w - 1)
  }

  /** `n` in decimal, zero-padded to `w` digits, as `%m` or `%Y` print it. */
  function Padded(n: nat, w: nat): (s: string)
    requires n < Pow10(w)
    ensures |s| == w
    ensures forall i :: 0 <= i < |s| ==> IsDigit(s[i])
  {
    if w == 0 then [] else Padded(n / 10, w - 1) + [DigitChar(n % 10)]
  }

  /** Reading back a zero-padded number gives the number. */
  lemma {:induction false} PaddedValue(n: nat, w: nat)
    requires n < Pow10(w)
    ensures DigitsValue(Padded(n, w)) == n
  {
    if w > 0 {
      var s := Padded(n, w);
      assert s[..|s| - 1] == Padded(n / 10, w - 1);
      PaddedValue(n / 10, w - 1);
    }
  }

  /** The `strftime("%Y-%m-%d_%H-%M-%S")` text of a moment. */
  function Stamp(m: Instant): (s: string)
    ensures |s| == 19
    ensures forall i :: 0 <= i < 19 ==> IsDigit(s[i]) || s[i] == '-' || s[i] == '_'
  {
    Padded(m.year, 4) + "-" + Padded(m.month, 2) + "-" + Padded(m.day, 2) + "_"
      + Padded(m.hour, 2) + "-" + Padded(m.minute, 2) + "-" + Padded(m.second, 2)
  }

  /** Reading the fields back out of a 19-character stamp. */
  function ParseStamp(s: string): Moment
    requires |s| == 19
  {
    Moment(DigitsValue(s[0..4]), DigitsValue(s[5..7]), DigitsValue(s[8..10]),
           DigitsValue(s[11..13]), DigitsValue(s[14..16]), DigitsValue(s[17..19]))
  }

  /** A stamp can be read back into the moment it was made from. */
  lemma StampRoundTrip(m: Instant)
    ensures ParseStamp(Stamp(m)) == m
  {
    var s := Stamp(m);
    assert s[0..4] == Padded(m.year, 4);
    assert s[5..7] == Padded(m.month, 2);
    assert s[8..10] == Padded(m.day, 2);
    assert s[11..13] == Padded(m.hour, 2);
    assert s[14..16] == Padded(m.minute, 2);
    assert s[17..19] == Padded(m.second, 2);
    PaddedValue(m.year, 4);
    PaddedValue(m.month, 2);
    PaddedValue(m.day, 2);
    PaddedValue(m.hour, 2);
    PaddedValue(m.minute, 2);
    PaddedValue(m.second, 2);
  }

  /** Distinct moments get distinct stamps, so files saved at different seconds never share a name. */
  lemma StampInjective(m: Instant, n: Instant)
    requires Stamp(m) == Stamp(n)
    ensures m == n
  {
    StampRoundTrip(m);
    StampRoundTrip(n);
  }

  /** The file name a record is stored under is one path component. */
  lemma StampFileName(m: Instant)
    ensures var name := Stamp(m) + ".yaml";
      name != [] && forall i :: 0 <= i < |name| ==> name[i] != '/'
  {
    var name := Stamp(m) + ".yaml";
    assert forall i :: 0 <= i < 19 ==> name[i] == Stamp(m)[i];
  }
}
