/** The week strip of components/WeekCalendar.tsx. A date is a day number;
    day 0 is a Sunday, so the weekday of a day is its remainder by 7
    (Dafny's `%` never yields a negative remainder). A highlighted entry is
    the day its text parses to, or None when it does not parse. */
module WeekCalendar {
  import opened Wrappers

  /** 0 for Sunday up to 6 for Saturday. */
  function Weekday(day: int): (w: int)
    ensures 0 <= w < 7
  {
    day % 7
  }

  /** `startOfWeek(day, { weekStartsOn: 0 })`: the Sunday on or before `day`. */
  function StartOfWeek(day: int): (s: int)
    ensures Weekday(s) == 0
    ensures s <= day < s + 7
  {
    day - Weekday(day)
  }

  /** The seven days the effect builds from `startOfWeek` with `addDays`. */
  function WeekOf(day: int): (w: seq<int>)
    ensures |w| == 7
    ensures forall i :: 0 <= i < 7 ==> w[i] == StartOfWeek(day) + i
    ensures Weekday(w[0]) == 0
    ensures day in w
  {
    var start := StartOfWeek(day);
    var w := seq(7, i => start + i);
    assert w[day - start] == day;
    w
  }

  /** The start of the week is the only Sunday in the seven days before
      and including `day`. */
  lemma StartOfWeekUnique(day: int, s: int)
    requires Weekday(s) == 0 && s <= day < s + 7
    ensures StartOfWeek(day) == s
  {
    var t := StartOfWeek(day);
    assert (s - t) % 7 == 0 by {
      assert s % 7 == 0 && t % 7 == 0;
      assert s == 7 * (s / 7) && t == 7 * (t / 7);
      assert s - t == 7 * (s / 7 - t / 7);
    }
    assert -7 < s - t < 7;
  }

  /** Every day of a week has that week. */
  lemma WeekOfItsDays(day: int, i: int)
    requires 0 <= i < 7
    ensures WeekOf(WeekOf(day)[i]) == WeekOf(day)
  {
    StartOfWeekUnique(WeekOf(day)[i], StartOfWeek(day));
  }

  /** Moving a week forward or back moves the whole strip by seven days. */
  lemma ShiftByAWeek(day: int)
    ensures StartOfWeek(day + 7) == StartOfWeek(day) + 7
    ensures StartOfWeek(day - 7) == StartOfWeek(day) - 7
    ensures forall i :: 0 <= i < 7 ==> WeekOf(day + 7)[i] == WeekOf(day)[i] + 7
    ensures forall i :: 0 <= i < 7 ==> WeekOf(day - 7)[i] == WeekOf(day)[i] - 7
  {
    var s := StartOfWeek(day);
    assert Weekday(s + 7) == 0 by { assert (s + 7) % 7 == s % 7; }
    assert Weekday(s - 7) == 0 by { assert (s - 7) % 7 == s % 7; }
    StartOfWeekUnique(day + 7, s + 7);
    StartOfWeekUnique(day - 7, s - 7);
  }

  /** `highlightedDates.some(d => isSameDay(date, parseISO(d)))`. */
  function IsHighlighted(day: int, highlighted: seq<Option<int>>): (r: bool)
    ensures r <==> exists k :: 0 <= k < |highlighted| && highlighted[k] == Some(day)
  {
    if highlighted == [] then false
    else if highlighted[0] == Some(day) then true
    else
      var r := IsHighlighted(day, highlighted[1..]);
      assert r ==> exists k :: 0 <= k < |highlighted| && highlighted[k] == Some(day) by {
        if r {
          var k :| 0 <= k < |highlighted[1..]| && highlighted[1..][k] == Some(day);
          assert highlighted[k + 1] == Some(day);
        }
      }
      r
  }

  /** The selected day appears in the strip exactly when it falls in the
      same week as the day the strip was built from. */
  lemma SelectedInWeekIff(day: int, selected: int)
    ensures selected in WeekOf(day) <==> StartOfWeek(selected) == StartOfWeek(day)
  {
    var w := WeekOf(day);
    if selected in w {
      var i :| 0 <= i < 7 && w[i] == selected;
      WeekOfItsDays(day, i);
      assert StartOfWeek(selected) == WeekOf(selected)[0];
    }
    if StartOfWeek(selected) == StartOfWeek(day) {
      assert w[selected - StartOfWeek(day)] == selected;
    }
  }

  /** At most one day of a week is the selected one. */
  lemma AtMostOneActive(day: int, selected: int, i: int, j: int)
    requires 0 <= i < 7 && 0 <= j < 7
    requires WeekOf(day)[i] == selected && WeekOf(day)[j] == selected
    ensures i == j
  {
  }

  class CalendarState {
    var currentDate: int
    var selectedDate: int
    var weekDates: seq<int>
    const highlightedDates: seq<Option<int>>

    /** Both dates start at the initial date; the week is built by the
        effect after the first render. */
    constructor (initialDate: int, highlighted: seq<Option<int>>)
      ensures currentDate == initialDate && selectedDate == initialDate
      ensures weekDates == [] && highlightedDates == highlighted
    {
      currentDate, selectedDate := initialDate, initialDate;
      weekDates := [];
      highlightedDates := highlighted;
    }

    /** The effect run when `currentDate` changes. */
    method RebuildWeek()
      modifies this`weekDates
      ensures weekDates == WeekOf(currentDate)
      ensures currentDate in weekDates && ShowsRange()
    {
      weekDates := WeekOf(currentDate);
    }

    method GoToPreviousWeek()
      modifies this`currentDate
      ensures currentDate == old(currentDate) - 7
    {
      currentDate := currentDate - 7;
    }

    method GoToNextWeek()
      modifies this`currentDate
      ensures currentDate == old(currentDate) + 7
    {
      currentDate := currentDate + 7;
    }

    /** `handleSelectDate`: the selection changes and the same date is
        reported to `onDateSelect` (returned here). */
    method HandleSelectDate(date: int) returns (reported: int)
      modifies this`selectedDate
      ensures selectedDate == date && reported == date
    {
      selectedDate := date;
      reported := date;
    }

    /** The range header is shown only once the seven days are there. */
    predicate ShowsRange()
      reads this
    {
      |weekDates| == 7
    }

    predicate IsActive(day: int)
      reads this
    {
      day == selectedDate
    }

    predicate IsMarked(day: int)
      reads this
    {
      IsHighlighted(day, highlightedDates)
    }
  }

  /** Pressing next and then previous, with the effect rebuilding the strip
      after each press: the middle strip is the first one moved by seven
      days, and the strip ends as the week it started with. */
  method NextThenPrevious(c: CalendarState) returns (first: seq<int>, middle: seq<int>)
    modifies c
    ensures |first| == 7 && |middle| == 7
    ensures forall i :: 0 <= i < 7 ==> middle[i] == first[i] + 7
    ensures c.weekDates == first && first == WeekOf(old(c.currentDate))
    ensures c.currentDate == old(c.currentDate) && c.selectedDate == old(c.selectedDate)
  {
    c.RebuildWeek();
    first := c.weekDates;
    c.GoToNextWeek();
    c.RebuildWeek();
    middle := c.weekDates;
    ShiftByAWeek(c.currentDate - 7);
    c.GoToPreviousWeek();
    c.RebuildWeek();
  }
}
