/**
 * DrawContext.drawDateRange: one lane per day along the X axis, with a day
 * label that is dropped when it does not fit, a gridline whose weight marks
 * day, month and year boundaries, and a weekend band from each Saturday.
 * The calendar (Date.elapsed, Date.add and the Date getters) is outside the
 * model: the days the loop visits come in as records, each with the measured
 * width of its day-number label.
 */
module DateAxis {
  import opened Wrappers
  import opened Steps

  /** One visited day: getDate(), getMonth() (0 = January), getDay() (6 = Saturday), getFullYear(), and $label.width(). */
  datatype CalendarDay = CalendarDay(date: int, month: int, weekday: int, fullYear: int, labelWidth: real)

  predicate ValidDay(d: CalendarDay)
  {
    1 <= d.date <= 31 && 0 <= d.month < 12 && 0 <= d.weekday < 7
  }

  /** drawDateRange throws before drawing when CalendarTools is not loaded. */
  datatype DateRangeError = CalendarToolsMissing

  const MonthNames: seq<string> := ["Jan", "Fev", "Mar", "Avr", "Mai", "Jun", "Jui", "Aou", "Sep", "Oct", "Nov", "Dec"]

  /** Gridline tiers, the index into lineWidths and options.lineColors: 0 a day, 1 a month, 2 a year. */
  datatype Tier = DayTier | MonthTier | YearTier

  function TierIndex(t: Tier): nat
  {
    match t
    case DayTier => 0
    case MonthTier => 1
    case YearTier => 2
  }

  /** [0.1, 2, 3][type] */
  function TierLineWidth(t: Tier): real
  {
    match t
    case DayTier => 0.1
    case MonthTier => 2.0
    case YearTier => 3.0
  }

  /** A vertical stroke across the canvas at x; `color` indexes options.lineColors. */
  datatype Stroke = Stroke(x: real, lineWidth: real, color: nat)

  /** The day number, with the month abbreviation on the 1st and the year on 1 January. */
  datatype DayLabel = DayLabel(date: int, monthName: Option<string>, year: Option<int>)

  /** Everything drawn for one day: its <li> lane, its label (kept or removed), its gridline and its weekend band. */
  datatype DayMark = DayMark(left: real, width: real, text: DayLabel, shown: bool, line: Stroke, weekend: Option<Stroke>)

  /** The lane width: w / bands, the whole width when there are no bands. */
  function LaneWidth(w: real, elapsedDays: int): real
  {
    var bands := elapsedDays + 1;
    if bands == 0 then w else w / (bands as real)
  }

  /** The label is removed when it is too wide for its lane, unless it is the 1st or a multiple of 5; day 30 only when it overflows nearly two lanes. */
  predicate LabelRemoved(date: int, labelWidth: real, lane: real)
  {
    (labelWidth > lane * (if date < 10 then 0.5 else 0.9) && date % 5 != 0 && date != 1)
    || (date == 30 && labelWidth > lane * 1.9)
  }

  function DayTierOf(d: CalendarDay): Tier
  {
    if d.date == 1 then (if d.month != 0 then MonthTier else YearTier) else DayTier
  }

  /** The decisions for the i-th visited day on lanes of width `lane`. */
  function MarkDay(d: CalendarDay, i: nat, lane: real): DayMark
    requires ValidDay(d)
  {
    var tier := DayTierOf(d);
    var text := DayLabel(d.date,
      if d.date == 1 then Some(MonthNames[d.month]) else None,
      if d.date == 1 && d.month == 0 then Some(d.fullYear) else None);
    DayMark(lane * (i as real), lane, text, !LabelRemoved(d.date, d.labelWidth, lane),
      Stroke(lane * (i as real), TierLineWidth(tier), TierIndex(tier)),
      if d.weekday == 6 then Some(Stroke(lane * ((i + 1) as real), lane * 2.0, 3)) else None)
  }

  /** The marks for a whole range of visited days. */
  function DayMarks(days: seq<CalendarDay>, lane: real): seq<DayMark>
    requires forall k :: 0 <= k < |days| ==> ValidDay(days[k])
  {
    seq(|days|, i requires 0 <= i < |days| => MarkDay(days[i], i, lane))
  }

  /**
   * drawDateRange on a canvas of width w: `days` are the days from dateStart to
   * dateEnd that the loop visits, and elapsedDays is Date.elapsed("days", dateStart, dateEnd).
   */
  method DrawDateRange(calendarTools: bool, days: seq<CalendarDay>, elapsedDays: int, w: real)
    returns (r: Result<seq<DayMark>, DateRangeError>)
    requires forall k :: 0 <= k < |days| ==> ValidDay(days[k])
    ensures r.Err? <==> !calendarTools
    ensures r.Ok? ==> r.value == DayMarks(days, LaneWidth(w, elapsedDays))
  {
    if !calendarTools {
      return Err(CalendarToolsMissing);
    }
    var bands := elapsedDays + 1;
    var dayBandWidth := if bands == 0 then w else w / (bands as real);
    var marks: seq<DayMark> := [];
    var i := 0;
    while i < |days|
      invariant 0 <= i <= |days|
      invariant |marks| == i
      invariant forall k :: 0 <= k < i ==> marks[k] == MarkDay(days[k], k, dayBandWidth)
    {
      var d := days[i];
      var dayNumber := d.date;
      var shown := !LabelRemoved(dayNumber, d.labelWidth, dayBandWidth);
      var weekend: Option<Stroke> := None;
      if d.weekday == 6 {
        weekend := Some(Stroke(dayBandWidth * ((i + 1) as real), dayBandWidth * 2.0, 3));
      }
      var text := DayLabel(dayNumber, None, None);
      var tier := DayTier;
      if dayNumber == 1 {
        text := text.(monthName := Some(MonthNames[d.month]));
        if d.month != 0 {
          tier := MonthTier;
        } else {
          tier := YearTier;
          text := text.(year := Some(d.fullYear));
        }
      }
      var line := Stroke(dayBandWidth * (i as real), TierLineWidth(tier), TierIndex(tier));
      var mark := DayMark(dayBandWidth * (i as real), dayBandWidth, text, shown, line, weekend);
      var expected := MarkDay(d, i, dayBandWidth);
      assert d.weekday == 6 ==> expected.weekend.value.x == dayBandWidth * ((i + 1) as real);
      assert mark.weekend == expected.weekend;
      assert mark == expected;
      marks := marks + [mark];
      i := i + 1;
    }
    assert dayBandWidth == LaneWidth(w, elapsedDays);
    return Ok(marks);
  }

  /** When the visited days are exactly the elapsed days plus one, the lanes fill the canvas width. */
  lemma LanesFillWidth(days: seq<CalendarDay>, elapsedDays: int, w: real)
    requires forall k :: 0 <= k < |days| ==> ValidDay(days[k])
    requires |days| == elapsedDays + 1 >= 1
    ensures var marks := DayMarks(days, LaneWidth(w, elapsedDays));
      && marks[0].left == 0.0
      && (forall i :: 0 <= i < |days| - 1 ==> marks[i].left + marks[i].width == marks[i + 1].left)
      && marks[|days| - 1].left + marks[|days| - 1].width == w
  {
    var lane := LaneWidth(w, elapsedDays);
    var marks := DayMarks(days, lane);
    var n := |days|;
    LaneTimesBands(w, elapsedDays);
    LanesAdjacent(days, lane);
    assert marks[0].left == lane * (0 as real);
    forall i | 0 <= i < n - 1
      ensures marks[i].left + marks[i].width == marks[i + 1].left
    {
    }
    assert marks[n - 1].left + marks[n - 1].width == lane * (n as real);
  }

  /** Lane i starts at lane * i and ends where lane i + 1 starts. */
  lemma LanesAdjacent(days: seq<CalendarDay>, lane: real)
    requires forall k :: 0 <= k < |days| ==> ValidDay(days[k])
    ensures var marks := DayMarks(days, lane);
      forall i :: 0 <= i < |days| ==> marks[i].left == lane * (i as real) && marks[i].left + marks[i].width == lane * ((i + 1) as real)
  {
    var marks := DayMarks(days, lane);
    forall i | 0 <= i < |days|
      ensures marks[i].left == lane * (i as real)
      ensures marks[i].left + marks[i].width == lane * ((i + 1) as real)
    {
      assert marks[i] == MarkDay(days[i], i, lane);
      NextMultiple(lane, i);
    }
  }

  /** w / bands lanes of the canvas add up to its width. */
  lemma LaneTimesBands(w: real, elapsedDays: int)
    requires elapsedDays + 1 != 0
    ensures LaneWidth(w, elapsedDays) * ((elapsedDays + 1) as real) == w
  {
  }

  /** Labels of the 1st and of multiples of 5 other than 30 are always kept; day 30 goes only when wider than 1.9 lanes. */
  lemma KeptLabels(date: int, labelWidth: real, lane: real)
    ensures date == 1 || (date % 5 == 0 && date != 30) ==> !LabelRemoved(date, labelWidth, lane)
    ensures date == 30 ==> (LabelRemoved(date, labelWidth, lane) <==> labelWidth > lane * 1.9)
  {
  }

  /** A label at most half a lane wide is never removed. */
  lemma NarrowLabelKept(date: int, labelWidth: real, lane: real)
    requires lane >= 0.0 && labelWidth <= lane * 0.5
    ensures !LabelRemoved(date, labelWidth, lane)
  {
  }

  /**
   * The gridline is the heaviest tier exactly on 1 January, the middle tier on
   * the 1st of other months and the lightest otherwise; the month abbreviation
   * is appended on every 1st and the year on 1 January.
   */
  lemma DayTiers(d: CalendarDay, i: nat, lane: real)
    requires ValidDay(d)
    ensures var m := MarkDay(d, i, lane);
      && (m.line.color == 2 <==> d.date == 1 && d.month == 0)
      && (m.line.color == 1 <==> d.date == 1 && d.month != 0)
      && (m.line.color == 0 <==> d.date != 1)
      && m.line.x == m.left
      && (m.text.monthName.Some? <==> d.date == 1)
      && (m.text.monthName.Some? ==> m.text.monthName.value == MonthNames[d.month])
      && (m.text.year == if d.date == 1 && d.month == 0 then Some(d.fullYear) else None)
  {
  }

  /** The month boundary always keeps its label. */
  lemma MonthStartLabelled(d: CalendarDay, i: nat, lane: real)
    requires ValidDay(d) && d.date == 1
    ensures MarkDay(d, i, lane).shown
  {
    KeptLabels(d.date, d.labelWidth, lane);
  }

  /** A Saturday gets a band two lanes wide centred on its right edge: it covers the Saturday and the Sunday lanes. */
  lemma WeekendCoversTwoLanes(d: CalendarDay, i: nat, lane: real)
    requires ValidDay(d)
    ensures MarkDay(d, i, lane).weekend.Some? <==> d.weekday == 6
    ensures var m := MarkDay(d, i, lane);
      m.weekend.Some? ==>
        && m.weekend.value.x - m.weekend.value.lineWidth / 2.0 == m.left
        && m.weekend.value.x + m.weekend.value.lineWidth / 2.0 == lane * ((i + 2) as real)
  {
    NextMultiple(lane, i);
    NextMultiple(lane, i + 1);
  }

  /** The number of heaviest-tier (year) gridlines among some marks. */
  function CountYearLines(marks: seq<DayMark>): nat
  {
    if marks == [] then 0 else (if marks[0].line.color == 2 then 1 else 0) + CountYearLines(marks[1..])
  }

  lemma {:induction false} NoYearLines(marks: seq<DayMark>)
    requires forall k :: 0 <= k < |marks| ==> marks[k].line.color != 2
    ensures CountYearLines(marks) == 0
  {
    if marks != [] {
      NoYearLines(marks[1..]);
    }
  }

  /** A range of January days starting on the 1st draws exactly one year gridline. */
  lemma {:induction false} JanuaryHasOneYearLine(days: seq<CalendarDay>, lane: real)
    requires 1 <= |days| <= 31
    requires forall k :: 0 <= k < |days| ==> days[k].date == k + 1 && days[k].month == 0 && 0 <= days[k].weekday < 7
    ensures CountYearLines(DayMarks(days, lane)) == 1
  {
    var marks := DayMarks(days, lane);
    assert marks[0].line.color == 2;
    forall k | 0 <= k < |marks[1..]|
      ensures marks[1..][k].line.color != 2
    {
      assert marks[1..][k] == MarkDay(days[k + 1], k + 1, lane);
    }
    NoYearLines(marks[1..]);
  }
}
