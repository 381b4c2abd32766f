/** The capture timestamp written into the archive name: Go's time layout
    "20060102150405", i.e. year (4 digits), month, day, hour (24-hour clock),
    minute and second (2 digits each), with no separators. */
module Timestamp {
  import opened GatherTypes
  import opened Strings

  /** A wall-clock reading in the local calendar, as `time.Now()` yields it. */
  datatype Time = Time(year: nat, month: nat, day: nat, hour: nat, minute: nat, second: nat, nanosecond: nat)

  /** The readings a clock produces in years 0 to 9999. */
  predicate Valid(t: Time) {
    t.year < 10000 && 1 <= t.month <= 12 && 1 <= t.day <= 31
    && t.hour < 24 && t.minute < 60 && t.second < 60 && t.nanosecond < 1000000000
  }

  /** The fields the layout writes, most significant first. */
  function CalendarFields(t: Time): seq<nat> {
    [t.year, t.month, t.day, t.hour, t.minute, t.second]
  }

  /** Minimum digits per field in the layout. */
  const Widths: seq<nat> := [4, 2, 2, 2, 2, 2]

  /** Total width of the layout. */
  const LayoutLength := 14

  function Sum(ws: seq<nat>): nat {
    if ws == [] then 0 else ws[0] + Sum(ws[1..])
  }

  /** Each value fits its width. */
  predicate InRange(vals: seq<nat>, widths: seq<nat>) {
    |vals| == |widths| && forall i :: 0 <= i < |vals| ==> widths[i] >= 1 && vals[i] < Pow10(widths[i])
  }

  /** The numerals of `vals`, each padded to its width, concatenated. */
  function PadAll(vals: seq<nat>, widths: seq<nat>): (s: string)
    requires |vals| == |widths|
    ensures AllDigits(s)
  {
    if vals == [] then "" else Pad(vals[0], widths[0]) + PadAll(vals[1..], widths[1..])
  }

  /** Reads consecutive fixed-width numerals. */
  function ParseAll(s: string, widths: seq<nat>): (vals: seq<nat>)
    requires AllDigits(s) && Sum(widths) <= |s|
    ensures |vals| == |widths|
  {
    if widths == [] then []
    else [DigitsValue(s[..widths[0]])] + ParseAll(s[widths[0]..], widths[1..])
  }

  lemma {:induction false} PadAllLength(vals: seq<nat>, widths: seq<nat>)
    requires InRange(vals, widths)
    ensures |PadAll(vals, widths)| == Sum(widths)
    decreases |vals|
  {
    if vals != [] {
      PadLength(vals[0], widths[0]);
      assert InRange(vals[1..], widths[1..]) by {
        forall i | 0 <= i < |vals| - 1 ensures widths[1..][i] >= 1 && vals[1..][i] < Pow10(widths[1..][i]) {
          assert widths[1..][i] == widths[i + 1] && vals[1..][i] == vals[i + 1];
        }
      }
      PadAllLength(vals[1..], widths[1..]);
    }
  }

  /** Reading the fixed-width numerals back yields the values written. */
  lemma {:induction false} ParsePadAll(vals: seq<nat>, widths: seq<nat>)
    requires InRange(vals, widths)
    ensures Sum(widths) == |PadAll(vals, widths)|
    ensures ParseAll(PadAll(vals, widths), widths) == vals
    decreases |vals|
  {
    PadAllLength(vals, widths);
    if vals != [] {
      var head := Pad(vals[0], widths[0]);
      var tail := PadAll(vals[1..], widths[1..]);
      PadLength(vals[0], widths[0]);
      PadValue(vals[0], widths[0]);
      assert InRange(vals[1..], widths[1..]) by {
        forall i | 0 <= i < |vals| - 1 ensures widths[1..][i] >= 1 && vals[1..][i] < Pow10(widths[1..][i]) {
          assert widths[1..][i] == widths[i + 1] && vals[1..][i] == vals[i + 1];
        }
      }
      ParsePadAll(vals[1..], widths[1..]);
      assert (head + tail)[..widths[0]] == head;
      assert (head + tail)[widths[0]..] == tail;
    }
  }

  /** `t.Format("20060102150405")`. */
  function Format(t: Time): string {
    PadAll(CalendarFields(t), Widths)
  }

  /** `time.Parse("20060102150405", s)` restricted to the shape the layout
      produces: 14 digits. The nanoseconds are not recorded in the text. */
  function Parse(s: string): Option<Time> {
    if |s| == LayoutLength && AllDigits(s) then
      var v := ParseAll(s, Widths);
      Some(Time(v[0], v[1], v[2], v[3], v[4], v[5], 0))
    else None
  }

  /** The reading to whole seconds, all that the layout keeps. */
  function Truncate(t: Time): Time {
    t.(nanosecond := 0)
  }

  lemma ValidInRange(t: Time)
    requires Valid(t)
    ensures InRange(CalendarFields(t), Widths) && Sum(Widths) == LayoutLength
  {
    assert Pow10(2) == 100;
    assert Pow10(4) == 10000;
  }

  /** The layout writes exactly 14 digits, and parsing them gives back the
      reading to the second. */
  lemma FormatRoundTrip(t: Time)
    requires Valid(t)
    ensures |Format(t)| == LayoutLength && AllDigits(Format(t))
    ensures Parse(Format(t)) == Some(Truncate(t))
  {
    ValidInRange(t);
    ParsePadAll(CalendarFields(t), Widths);
  }

  /** Two readings give the same text exactly when they fall in the same
      second: repeated captures collide only within one second. */
  lemma FormatCollision(t1: Time, t2: Time)
    requires Valid(t1) && Valid(t2)
    ensures Format(t1) == Format(t2) <==> Truncate(t1) == Truncate(t2)
  {
    FormatRoundTrip(t1);
    FormatRoundTrip(t2);
    if Truncate(t1) == Truncate(t2) {
      assert CalendarFields(t1) == CalendarFields(t2);
    }
  }

  /** Lexicographic order of equally long number sequences. */
  predicate SeqLess(a: seq<nat>, b: seq<nat>)
    requires |a| == |b|
  {
    a != [] && (a[0] < b[0] || (a[0] == b[0] && SeqLess(a[1..], b[1..])))
  }

  /** `t1` is an earlier second than `t2`. */
  predicate Earlier(t1: Time, t2: Time) {
    SeqLess(CalendarFields(t1), CalendarFields(t2))
  }

  lemma {:induction false} PadAllOrder(a: seq<nat>, b: seq<nat>, widths: seq<nat>)
    requires InRange(a, widths) && InRange(b, widths) && SeqLess(a, b)
    ensures LexLess(PadAll(a, widths), PadAll(b, widths))
    decreases |a|
  {
    var ha, hb := Pad(a[0], widths[0]), Pad(b[0], widths[0]);
    var ta, tb := PadAll(a[1..], widths[1..]), PadAll(b[1..], widths[1..]);
    if a[0] < b[0] {
      PadOrder(a[0], b[0], widths[0]);
      PadLength(a[0], widths[0]);
      PadLength(b[0], widths[0]);
      LexLessPrefix(ha, hb, ta, tb);
    } else {
      assert InRange(a[1..], widths[1..]) && InRange(b[1..], widths[1..]) by {
        forall i | 0 <= i < |a| - 1
          ensures widths[1..][i] >= 1 && a[1..][i] < Pow10(widths[1..][i]) && b[1..][i] < Pow10(widths[1..][i])
        {
          assert widths[1..][i] == widths[i + 1] && a[1..][i] == a[i + 1] && b[1..][i] == b[i + 1];
        }
      }
      PadAllOrder(a[1..], b[1..], widths[1..]);
      LexLessCommonPrefix(ha, ta, tb);
    }
  }

  /** The text sorts like the readings: an earlier second gives a string that
      is lexicographically smaller. */
  lemma FormatSortable(t1: Time, t2: Time)
    requires Valid(t1) && Valid(t2) && Earlier(t1, t2)
    ensures LexLess(Format(t1), Format(t2))
  {
    ValidInRange(t1);
    ValidInRange(t2);
    PadAllOrder(CalendarFields(t1), CalendarFields(t2), Widths);
  }
}
