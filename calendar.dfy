/** Calendar days as the runner and the script see them.

    A day is an integer: the number of days since Thursday 1970-01-01. Stepping to the
    next day is `+ 1`, and the weekday follows from the 7-day cycle. What the date
    library and the public-holiday table compute (the year of a day, its `yyyy-MM-dd`
    text, the holidays of a year) is supplied from outside as a `Calendar`. */
module Calendar {

  type Day = int

  /** The date-library and holiday-table functions the code calls. */
  datatype Calendar = Calendar(
    yearOf: Day -> int,                       // DateFNS.getYear
    dateText: Day -> string,                  // DateFNS.format(d, "yyyy") + "-" + "MM" + "-" + "dd"
    publicDays: int -> seq<(string, Day)>)    // Object.entries(getPublicDays(year))

  /** 0 is Monday, ..., 5 is Saturday, 6 is Sunday. */
  function Weekday(d: Day): (w: nat)
    ensures w < 7
  {
    (d + 3) % 7
  }

  predicate IsSaturday(d: Day) { Weekday(d) == 5 }

  predicate IsSunday(d: Day) { Weekday(d) == 6 }

  predicate IsWeekend(d: Day) { IsSaturday(d) || IsSunday(d) }

  /** `entries.some(([_name, date]) => isEqual(d, date))` */
  function SomeEntryOn(entries: seq<(string, Day)>, d: Day): (b: bool)
    ensures b <==> exists i :: 0 <= i < |entries| && entries[i].1 == d
  {
    if entries == [] then false
    else if entries[0].1 == d then true
    else
      var rest := SomeEntryOn(entries[1..], d);
      assert forall i :: 1 <= i < |entries| ==> entries[i] == entries[1..][i - 1];
      rest
  }

  /** A public holiday is a day equal to one of the holidays listed for its year. */
  function IsPublicDay(cal: Calendar, d: Day): (b: bool)
    ensures b <==> exists i :: 0 <= i < |cal.publicDays(cal.yearOf(d))| && cal.publicDays(cal.yearOf(d))[i].1 == d
  {
    SomeEntryOn(cal.publicDays(cal.yearOf(d)), d)
  }

  /** The days `first`, `first + 1`, ..., `last`, in order; empty when `first > last`. */
  function DaysFrom(first: Day, last: Day): (r: seq<Day>)
    ensures |r| == if first <= last then last - first + 1 else 0
    ensures forall i :: 0 <= i < |r| ==> r[i] == first + i
    decreases last - first + 1
  {
    if first > last then [] else [first] + DaysFrom(first + 1, last)
  }
}
