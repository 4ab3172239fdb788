/** Values the date picker receives from its date library, reduced to what the
    widget's own logic looks at. */
module Moments {

  datatype Option<+T> = None | Some(value: T)

  /** An instant as the date library represents it: the calendar year it falls in,
      the ordinal of its calendar day, and the milliseconds elapsed since that day's
      midnight. How the year follows from the day is the library's business. */
  datatype Moment = Moment(year: int, day: int, timeOfDay: int)

  /** `a.isSameOrAfter(b, 'date')`: compared at day granularity, time of day ignored. */
  predicate SameOrAfterDay(a: Moment, b: Moment) {
    a.day >= b.day
  }

  /** `a.isSameOrBefore(b, 'date')`: compared at day granularity, time of day ignored. */
  predicate SameOrBeforeDay(a: Moment, b: Moment) {
    a.day <= b.day
  }
}
