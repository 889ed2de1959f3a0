/** `formatDateTime` of the event list view: an ISO-like
    "yyyy-mm-ddThh:mm" becomes the German "dd.mm.yyyy, hh:mm Uhr"; anything
    not of that shape is shown trimmed as it is. */
module EventsView {
  import opened Text

  /** `formatDateTime(value)`; a missing value is "". */
  function FormatDateTime(value: string): (r: string)
    ensures r == "" <==> AllWhitespace(value)
  {
    TrimBlank(value);
    var s := Trim(value);
    if |s| == 0 then ""
    else
      var parts := Split(s, 'T');
      if |parts| != 2 then s
      else
        var d := Split(parts[0], '-');
        if |d| != 3 then s
        else d[2] + "." + d[1] + "." + d[0] + ", " + parts[1] + " Uhr"
  }

  /** A blank value is shown as "". */
  lemma FormatBlank(value: string)
    requires AllWhitespace(value)
    ensures FormatDateTime(value) == ""
  {
    TrimBlank(value);
  }

  /** A value whose trimmed text does not hold exactly one "T" is shown
      trimmed and otherwise unchanged. */
  lemma FormatWithoutOneT(value: string)
    requires Count('T', Trim(value)) != 1
    ensures FormatDateTime(value) == Trim(value)
  {
    SplitShape(Trim(value), 'T');
  }

  /** A date part that does not hold exactly two "-" leaves the trimmed
      text unchanged as well. */
  lemma FormatBadDate(value: string, date: string, time: string)
    requires 'T' !in date && 'T' !in time
    requires Trim(value) == date + "T" + time
    requires Count('-', date) != 2
    ensures FormatDateTime(value) == Trim(value)
  {
    SplitAfter(date, time, 'T');
    SplitWithout(time, 'T');
    SplitShape(date, '-');
  }

  /** Splitting at the one separator of `a + [sep] + b` yields `a` and `b`. */
  lemma SplitTwo(a: string, b: string, sep: char)
    requires sep !in a && sep !in b
    ensures Split(a + [sep] + b, sep) == [a, b]
  {
    SplitAfter(a, b, sep);
    SplitWithout(b, sep);
  }

  /** A date part `y-m-d` splits into its three fields. */
  lemma SplitDate(y: string, m: string, d: string)
    requires '-' !in y && '-' !in m && '-' !in d
    ensures Split(y + "-" + m + "-" + d, '-') == [y, m, d]
  {
    assert y + "-" + m + "-" + d == y + ['-'] + (m + ['-'] + d);
    SplitAfter(y, m + ['-'] + d, '-');
    SplitTwo(m, d, '-');
  }

  /** Every well-shaped value is reformatted: day, month and year swap into
      German order and the time is followed by "Uhr". */
  lemma FormatShape(value: string, y: string, m: string, d: string, t: string)
    requires 'T' !in y && 'T' !in m && 'T' !in d && 'T' !in t
    requires '-' !in y && '-' !in m && '-' !in d
    requires Trim(value) == y + "-" + m + "-" + d + "T" + t
    ensures FormatDateTime(value) == d + "." + m + "." + y + ", " + t + " Uhr"
  {
    var date := y + "-" + m + "-" + d;
    assert 'T' !in date;
    assert Trim(value) == date + ['T'] + t;
    SplitTwo(date, t, 'T');
    SplitDate(y, m, d);
  }
}
