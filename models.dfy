/**
 * The news record: a mutable object with five optional fields, a derived
 * identity `code`, the `have_image` test and the dictionary projection used
 * when the records are written out.
 */
module Models {
  import opened Wrappers

  // ----- calendar values -----

  /** A naive datetime broken into its components; `strftime("%Y%m%d%H%M%S")` prints all but the microseconds. */
  datatype DateParts = DateParts(year: int, month: int, day: int, hour: int, minute: int, second: int, microsecond: int)

  predicate IsLeapYear(year: int)
  {
    year % 4 == 0 && (year % 100 != 0 || year % 400 == 0)
  }

  function DaysInMonth(year: int, month: int): int
    requires 1 <= month <= 12
  {
    if month == 2 then (if IsLeapYear(year) then 29 else 28)
    else if month == 4 || month == 6 || month == 9 || month == 11 then 30
    else 31
  }

  /** The ranges a Python `datetime` guarantees for its components. */
  predicate IsValidDateTime(d: DateParts)
  {
    && 1 <= d.year <= 9999
    && 1 <= d.month <= 12
    && 1 <= d.day <= DaysInMonth(d.year, d.month)
    && 0 <= d.hour < 24
    && 0 <= d.minute < 60
    && 0 <= d.second < 60
    && 0 <= d.microsecond < 1000000
  }

  type DateTime = d: DateParts | IsValidDateTime(d) witness DateParts(1970, 1, 1, 0, 0, 0, 0)

  // ----- decimal fields -----

  function Pow10(n: nat): nat
  {
    if n == 0 then 1 else 10 * Pow10(n - 1)
  }

  predicate IsDigit(c: char)
  {
    '0' <= c <= '9'
  }

  predicate AllDigits(s: string)
  {
    forall i :: 0 <= i < |s| ==> IsDigit(s[i])
  }

  function DigitChar(d: nat): (c: char)
    requires d < 10
    ensures IsDigit(c) && c as int - '0' as int == d
  {
    ('0' as int + d) as char
  }

  /** The number a string of decimal digits denotes (the reading of a printed field). */
  function DigitsValue(s: string): nat
    requires AllDigits(s)
  {
    if s == [] then 0 else DigitsValue(s[..|s| - 1]) * 10 + (s[|s| - 1] as int - '0' as int)
  }

  /** A `strftime` numeric field: `n` in decimal, zero-padded on the left to `width` digits. */
  function Pad(n: nat, width: nat): (r: string)
    requires n < Pow10(width)
    ensures |r| == width
    ensures AllDigits(r)
    ensures DigitsValue(r) == n
  {
    if width == 0 then "" else
      var prefix := Pad(n / 10, width - 1);
      var r := prefix + [DigitChar(n % 10)];
      assert r[..|r| - 1] == prefix;
      r
  }

  /** The datetime with its microseconds dropped: what a printed timestamp can tell. */
  function ToSecond(dt: DateParts): DateParts
  {
    dt.(microsecond := 0)
  }

  /** `strftime("%Y%m%d%H%M%S")`: fourteen digits. */
  function Timestamp(dt: DateTime): (r: string)
    ensures |r| == 14 && AllDigits(r)
  {
    Pad(dt.year, 4) + Pad(dt.month, 2) + Pad(dt.day, 2) + Pad(dt.hour, 2) + Pad(dt.minute, 2) + Pad(dt.second, 2)
  }

  /** Reads the six printed fields back out of a 14-digit timestamp (microseconds 0). */
  function ParseTimestamp(s: string): DateParts
    requires |s| == 14 && AllDigits(s)
  {
    DateParts(DigitsValue(s[0..4]), DigitsValue(s[4..6]), DigitsValue(s[6..8]),
              DigitsValue(s[8..10]), DigitsValue(s[10..12]), DigitsValue(s[12..14]), 0)
  }

  /** The timestamp is 14 digits and zero-pads each component to its width, so it reads back as `dt` to the second. */
  lemma TimestampRoundTrip(dt: DateTime)
    ensures |Timestamp(dt)| == 14 && AllDigits(Timestamp(dt))
    ensures ParseTimestamp(Timestamp(dt)) == ToSecond(dt)
    ensures Timestamp(dt)[0..4] == Pad(dt.year, 4)
    ensures Timestamp(dt)[4..6] == Pad(dt.month, 2) && Timestamp(dt)[6..8] == Pad(dt.day, 2)
    ensures Timestamp(dt)[8..10] == Pad(dt.hour, 2) && Timestamp(dt)[10..12] == Pad(dt.minute, 2)
    ensures Timestamp(dt)[12..14] == Pad(dt.second, 2)
  {
    var y, mo, d, h, mi, s := Pad(dt.year, 4), Pad(dt.month, 2), Pad(dt.day, 2), Pad(dt.hour, 2), Pad(dt.minute, 2), Pad(dt.second, 2);
    var t := Timestamp(dt);
    assert t == y + mo + d + h + mi + s;
    assert t[0..4] == y;
    assert t[4..6] == mo;
    assert t[6..8] == d;
    assert t[8..10] == h;
    assert t[10..12] == mi;
    assert t[12..14] == s;
  }

  // ----- the identity code -----

  function Min(a: int, b: int): int
  {
    if a <= b then a else b
  }

  /** `s.replace(" ", "_")`. */
  function Underscored(s: string): (r: string)
    ensures |r| == |s|
    ensures forall i :: 0 <= i < |s| ==> r[i] != ' ' && (s[i] == ' ' ==> r[i] == '_') && (s[i] != ' ' ==> r[i] == s[i])
  {
    seq(|s|, i requires 0 <= i < |s| => if s[i] == ' ' then '_' else s[i])
  }

  /** The `code` property for a given datetime and title: timestamp, a dash, the first eleven title characters. */
  function CodeOf(dt: DateTime, title: string): (r: string)
    ensures |r| == 15 + Min(11, |title|)
    ensures r[..14] == Timestamp(dt) && r[14] == '-'
    ensures forall i :: 15 <= i < |r| ==> r[i] != ' '
  {
    Timestamp(dt) + "-" + Underscored(title[..Min(11, |title|)])
  }

  /**
   * The shape of `code`: 15 + min(11, |title|) characters; a 14-digit
   * timestamp that reads back as the datetime to the second; a dash; then the title's
   * prefix with every space turned into an underscore and no space left.
   */
  lemma CodeShape(dt: DateTime, title: string)
    ensures var r := CodeOf(dt, title);
      && |r| == 15 + Min(11, |title|)
      && AllDigits(r[..14]) && ParseTimestamp(r[..14]) == ToSecond(dt)
      && r[14] == '-'
      && (forall i :: 15 <= i < |r| ==> r[i] != ' ')
      && (forall i :: 15 <= i < |r| ==> r[i] == if title[i - 15] == ' ' then '_' else title[i - 15])
  {
    TimestampRoundTrip(dt);
    var r := CodeOf(dt, title);
    var t := Timestamp(dt);
    var u := Underscored(title[..Min(11, |title|)]);
    assert r == t + "-" + u;
    assert r[..14] == t;
    forall i | 15 <= i < |r|
      ensures r[i] == u[i - 15]
    {
    }
  }

  /** Two records with the same code carry the same datetime, up to its microseconds. */
  lemma CodeDeterminesDateTime(dt1: DateTime, title1: string, dt2: DateTime, title2: string)
    requires CodeOf(dt1, title1) == CodeOf(dt2, title2)
    ensures ToSecond(dt1) == ToSecond(dt2)
  {
    CodeShape(dt1, title1);
    CodeShape(dt2, title2);
  }

  // ----- the record -----

  /** The values of a `News` object's five fields at one moment. */
  datatype Record = Record(
    title: Option<string>,
    description: Option<string>,
    postDatetime: Option<DateTime>,
    imgFileName: Option<string>,
    imgLink: Option<string>)

  /** A value of the dictionary that `get_dict` builds. */
  datatype Cell = Null | Str(text: string) | Time(dt: DateTime)

  function TextCell(o: Option<string>): Cell
  {
    if o.Some? then Str(o.value) else Null
  }

  function TimeCell(o: Option<DateTime>): Cell
  {
    if o.Some? then Time(o.value) else Null
  }

  class News {
    var title: Option<string>
    var description: Option<string>
    var postDatetime: Option<DateTime>
    var imgFileName: Option<string>
    var imgLink: Option<string>

    /** A fresh record has every field unset. */
    constructor ()
      ensures title.None? && description.None? && postDatetime.None?
      ensures imgFileName.None? && imgLink.None?
    {
      title := None;
      description := None;
      postDatetime := None;
      imgFileName := None;
      imgLink := None;
    }

    function Snapshot(): Record
      reads this
    {
      Record(title, description, postDatetime, imgFileName, imgLink)
    }

    /** `code`: defined only when both the datetime and the title are set (otherwise Python raises). */
    function Code(): (r: Option<string>)
      reads this
      ensures r.Some? <==> postDatetime.Some? && title.Some?
      ensures r.Some? ==> r.value == CodeOf(postDatetime.value, title.value)
      ensures r.Some? ==> |r.value| == 15 + Min(11, |title.value|) && AllDigits(r.value[..14])
                          && ParseTimestamp(r.value[..14]) == ToSecond(postDatetime.value)
    {
      if postDatetime.Some? && title.Some? then
        CodeShape(postDatetime.value, title.value);
        Some(CodeOf(postDatetime.value, title.value))
      else None
    }

    /** `have_image()`: whether an image link was found. */
    predicate HaveImage()
      reads this
      ensures HaveImage() <==> imgLink.Some?
    {
      imgLink.Some?
    }

    /** `get_dict`: four keys mirroring their fields; the image link is never exported. */
    function GetDict(): (d: map<string, Cell>)
      reads this
      ensures d.Keys == {"title", "description", "post_datetime", "img_file_name"}
      ensures "img_link" !in d
      ensures d["title"] == TextCell(title) && d["description"] == TextCell(description)
      ensures d["post_datetime"] == TimeCell(postDatetime) && d["img_file_name"] == TextCell(imgFileName)
    {
      map["title" := TextCell(title), "description" := TextCell(description),
          "post_datetime" := TimeCell(postDatetime), "img_file_name" := TextCell(imgFileName)]
    }

    /** `__repr__`: fails exactly when `code` does; the text opens with the code. */
    function Repr(): (r: Option<string>)
      reads this
      ensures r.Some? <==> Code().Some?
      ensures r.Some? ==> "NewsData(code='" + Code().value + "'" <= r.value
    {
      match Code()
      case None => None
      case Some(code) =>
        var prefix := "NewsData(code='" + code + "'";
        var r := prefix + ", title='" + title.value + ")'";
        assert r[..|prefix|] == prefix;
        Some(r)
    }
  }
}
