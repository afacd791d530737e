/** Exposure/EPG/Parameters/FilteredDates.swift: the date window of EPG
    requests.  A request type conforming to `FilteredDates` is a value with a
    `dateFilter` and the rest of its fields; `filter` returns a copy with a new
    window.  A `Date` is taken at millisecond granularity, and "now" (the
    default end) is a parameter. */
module FilteredDates {
  import opened Wrappers

  /** `DateFilter`: a window in milliseconds since 1970. */
  datatype DateFilter = DateFilter(startMillis: Int64, endMillis: Int64)

  /** A `Date`, by its `millisecondsSince1970`. */
  datatype Date = Date(millisecondsSince1970: Int64)

  /** A value conforming to `FilteredDates`. */
  datatype Filtered<T> = Filtered(dateFilter: DateFilter, rest: T)

  /** `DateFilter.init(start:end:)`: the window starts at 0 unless told
      otherwise and ends now unless told otherwise. */
  function NewDateFilter(now: Int64, start: Int64 := 0, end: Int64 := now): (f: DateFilter)
    ensures f.startMillis == start && f.endMillis == end
  {
    DateFilter(start, end)
  }

  /** `filter(starting:ending:)` with millisecond bounds. */
  function FilterMillis<T>(self: Filtered<T>, now: Int64, starting: Int64 := 0, ending: Int64 := now): (r: Filtered<T>)
    ensures r.dateFilter.startMillis == starting && r.dateFilter.endMillis == ending
    ensures r.rest == self.rest
  {
    self.(dateFilter := NewDateFilter(now, starting, ending))
  }

  /** `filter(starting:ending:)` with dates: a missing start is the epoch. */
  function FilterDates<T>(self: Filtered<T>, now: Date, starting: Option<Date> := None, ending: Date := now): (r: Filtered<T>)
    ensures r.rest == self.rest
    ensures starting.None? ==> r.dateFilter.startMillis == 0
  {
    var startMillis := if starting.Some? then starting.value.millisecondsSince1970 else 0;
    self.(dateFilter := NewDateFilter(now.millisecondsSince1970, startMillis, ending.millisecondsSince1970))
  }

  /** `startDate`: the window's start as a date. */
  function StartDate<T>(self: Filtered<T>): (d: Date)
    ensures d.millisecondsSince1970 == self.dateFilter.startMillis
  {
    Date(self.dateFilter.startMillis)
  }

  /** `endDate`: the window's end as a date. */
  function EndDate<T>(self: Filtered<T>): (d: Date)
    ensures d.millisecondsSince1970 == self.dateFilter.endMillis
  {
    Date(self.dateFilter.endMillis)
  }

  /** The date overload is the millisecond overload on the dates' millisecond
      values, with a missing start read as 0. */
  lemma FilterDatesIsFilterMillis<T>(self: Filtered<T>, now: Date, starting: Option<Date>, ending: Date)
    ensures FilterDates(self, now, starting, ending)
              == FilterMillis(self, now.millisecondsSince1970,
                              if starting.Some? then starting.value.millisecondsSince1970 else 0,
                              ending.millisecondsSince1970)
  {
  }

  /** The window set by `filter` is the one read back through `startDate`
      and `endDate`. */
  lemma FilterDatesReadBack<T>(self: Filtered<T>, now: Date, starting: Date, ending: Date)
    ensures StartDate(FilterDates(self, now, Some(starting), ending)) == starting
    ensures EndDate(FilterDates(self, now, Some(starting), ending)) == ending
  {
  }

  /** Filtering again replaces the window entirely: the last call wins. */
  lemma LastFilterWins<T>(self: Filtered<T>, now: Int64, a: Int64, b: Int64, c: Int64, d: Int64)
    ensures FilterMillis(FilterMillis(self, now, a, b), now, c, d) == FilterMillis(self, now, c, d)
  {
  }

  /** Without arguments the window runs from the epoch to now. */
  lemma DefaultWindow<T>(self: Filtered<T>, now: Int64)
    ensures FilterMillis(self, now).dateFilter == DateFilter(0, now)
    ensures FilterDates(self, Date(now)).dateFilter == DateFilter(0, now)
  {
  }
}
