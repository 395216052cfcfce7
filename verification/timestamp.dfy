/**
  The logger's custom time encoder: a wall-clock instant rendered as
  `YYYY-MM-DD-HH:MM:SS`, Go's `%04d-%02d-%02d-%02d:%02d:%02d` over the
  instant's calendar fields. The sub-second part is read from the instant but
  never printed.
*/
module Timestamp {
  import opened Wrappers
  import opened Decimal

  /** The calendar fields of a Go `time.Time` that the encoder looks at, plus its nanoseconds. */
  datatype Instant = Instant(year: int, month: int, day: int,
                             hour: int, minute: int, second: int,
                             nanosecond: int)

  /**
    The field ranges a `time.Time` guarantees, with the year restricted to
    what `%04d` prints in four digits.
  */
  predicate Renderable(t: Instant) {
    && 0 <= t.year <= 9999
    && 1 <= t.month <= 12
    && 1 <= t.day <= 31
    && 0 <= t.hour <= 23
    && 0 <= t.minute <= 59
    && 0 <= t.second <= 59
  }

  const Length := 19

  /** The positions of the separators in a rendered timestamp. */
  predicate IsSeparatorPos(i: int) {
    i == 4 || i == 7 || i == 10 || i == 13 || i == 16
  }

  function SeparatorAt(i: int): (c: char) {
    if i == 13 || i == 16 then ':' else '-'
  }

  /** The shape of a rendered timestamp: 19 characters, separators in place, digits everywhere else. */
  predicate WellFormed(s: string) {
    && |s| == Length
    && (forall i :: 0 <= i < |s| && IsSeparatorPos(i) ==> s[i] == SeparatorAt(i))
    && (forall i :: 0 <= i < |s| && !IsSeparatorPos(i) ==> IsDigit(s[i]))
  }

  /** The instant's fields as read back from a rendered timestamp's digit groups. */
  predicate FieldsAre(s: string, t: Instant)
    requires WellFormed(s)
  {
    && ReadDecimal(s[0..4]) == t.year
    && ReadDecimal(s[5..7]) == t.month
    && ReadDecimal(s[8..10]) == t.day
    && ReadDecimal(s[11..13]) == t.hour
    && ReadDecimal(s[14..16]) == t.minute
    && ReadDecimal(s[17..19]) == t.second
  }

  /** Go's `%04d-%02d-%02d-%02d:%02d:%02d` once the six numbers are rendered. */
  function Join(y: string, mo: string, d: string, h: string, mi: string, s: string): (r: string) {
    y + "-" + mo + "-" + d + "-" + h + ":" + mi + ":" + s
  }

  /** Joining six digit groups of the widths 4, 2, 2, 2, 2, 2 gives a well-formed timestamp holding them. */
  lemma JoinLayout(y: string, mo: string, d: string, h: string, mi: string, s: string)
    requires |y| == 4 && |mo| == 2 && |d| == 2 && |h| == 2 && |mi| == 2 && |s| == 2
    requires AllDigits(y) && AllDigits(mo) && AllDigits(d)
    requires AllDigits(h) && AllDigits(mi) && AllDigits(s)
    ensures WellFormed(Join(y, mo, d, h, mi, s))
    ensures Join(y, mo, d, h, mi, s)[0..4] == y
    ensures Join(y, mo, d, h, mi, s)[5..7] == mo
    ensures Join(y, mo, d, h, mi, s)[8..10] == d
    ensures Join(y, mo, d, h, mi, s)[11..13] == h
    ensures Join(y, mo, d, h, mi, s)[14..16] == mi
    ensures Join(y, mo, d, h, mi, s)[17..19] == s
  {
    assert Join(y, mo, d, h, mi, s)[8..10] == [d[0], d[1]];
  }

  /** The custom `timeEncoder`: the string it appends for instant `t`. */
  function Encode(t: Instant): (r: string)
    requires Renderable(t)
    ensures WellFormed(r)
    ensures FieldsAre(r, t)
  {
    ZeroPadFits(t.year, 4);
    ZeroPadFits(t.month, 2);
    ZeroPadFits(t.day, 2);
    ZeroPadFits(t.hour, 2);
    ZeroPadFits(t.minute, 2);
    ZeroPadFits(t.second, 2);
    JoinLayout(ZeroPad(t.year, 4), ZeroPad(t.month, 2), ZeroPad(t.day, 2),
               ZeroPad(t.hour, 2), ZeroPad(t.minute, 2), ZeroPad(t.second, 2));
    Join(ZeroPad(t.year, 4), ZeroPad(t.month, 2), ZeroPad(t.day, 2),
         ZeroPad(t.hour, 2), ZeroPad(t.minute, 2), ZeroPad(t.second, 2))
  }

  /**
    The inverse of `Encode`: the instant (at whole-second resolution) a
    well-formed timestamp denotes, or None when the string is not one.
  */
  function Parse(s: string): (r: Option<Instant>)
    ensures r.Some? ==> WellFormed(s) && Renderable(r.value) && r.value.nanosecond == 0
  {
    if !WellFormed(s) then None
    else
      assert AllDigits(s[0..4]) && AllDigits(s[5..7]) && AllDigits(s[8..10]);
      assert AllDigits(s[11..13]) && AllDigits(s[14..16]) && AllDigits(s[17..19]);
      var t := Instant(ReadDecimal(s[0..4]), ReadDecimal(s[5..7]), ReadDecimal(s[8..10]),
                       ReadDecimal(s[11..13]), ReadDecimal(s[14..16]), ReadDecimal(s[17..19]), 0);
      if Renderable(t) then Some(t) else None
  }

  /** The rendered string does not depend on the sub-second part of the instant. */
  lemma NoSubSecond(t: Instant, nanos: int)
    requires Renderable(t)
    ensures Encode(t) == Encode(t.(nanosecond := nanos))
  {
  }

  /** Parsing a rendered timestamp recovers the instant, truncated to the second. */
  lemma ParseEncode(t: Instant)
    requires Renderable(t)
    ensures Parse(Encode(t)) == Some(t.(nanosecond := 0))
  {
  }

  /** A well-formed timestamp is the join of its own digit groups. */
  lemma SplitJoin(s: string)
    requires WellFormed(s)
    ensures s == Join(s[0..4], s[5..7], s[8..10], s[11..13], s[14..16], s[17..19])
  {

  }

  /** A string that parses is well formed and its digit groups read as the parsed fields. */
  lemma ParsedFields(s: string)
    requires Parse(s).Some?
    ensures WellFormed(s) && FieldsAre(s, Parse(s).value)
  {
  }

  /** Every string that parses is exactly what the encoder renders for the parsed instant. */
  lemma EncodeParse(s: string)
    requires Parse(s).Some?
    ensures Encode(Parse(s).value) == s
  {
    var t := Parse(s).value;
    ParsedFields(s);
    SameFields(s, Encode(t), t);
  }

  /** Well-formed timestamps whose digit groups read as the same fields are the same string. */
  lemma SameFields(s: string, r: string, t: Instant)
    requires WellFormed(s) && WellFormed(r)
    requires FieldsAre(s, t) && FieldsAre(r, t)
    ensures s == r
  {
    SameGroup(s, r, 0, 4);
    SameGroup(s, r, 5, 7);
    SameGroup(s, r, 8, 10);
    SameGroup(s, r, 11, 13);
    SameGroup(s, r, 14, 16);
    SameGroup(s, r, 17, 19);
    SplitJoin(s);
    SplitJoin(r);
  }

  /** Two digit groups that read as the same value at the same width are the same characters. */
  lemma SameGroup(s: string, r: string, lo: nat, hi: nat)
    requires lo <= hi <= |s| && hi <= |r|
    requires AllDigits(s[lo..hi]) && AllDigits(r[lo..hi])
    requires ReadDecimal(s[lo..hi]) == ReadDecimal(r[lo..hi])
    ensures s[lo..hi] == r[lo..hi]
  {
    DigitsOfRead(s[lo..hi]);
    DigitsOfRead(r[lo..hi]);
  }
}
