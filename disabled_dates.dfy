/** Which calendar cells the panel refuses to select: either a predicate supplied
    from outside, or one built from optional inclusive start and end bounds. */
module DisabledDates {
  import opened Moments

  /** The panel's `disabledDate`: the widget's own (external) predicate, or the
      closure synthesized from the bounds, which reads the bounds when it is called. */
  datatype Rule = External(pred: Moment -> bool) | Range

  /** The panel's `$startDate`, `$endDate` and `disabledDate` together. */
  datatype Bounds = Bounds(start: Option<Moment>, end: Option<Moment>, rule: Rule)

  /** The widget's default `disabledDate`: nothing is disabled. */
  function NeverDisabled(current: Moment): bool {
    false
  }

  /** The synthesized closure: with no bound at all nothing is disabled; otherwise a
      day is disabled when it lies before the start day or after the end day, so both
      end points stay selectable. */
  function RangeDisabled(start: Option<Moment>, end: Option<Moment>, current: Moment): (disabled: bool)
    ensures disabled <==>
              (start.Some? && current.day < start.value.day) || (end.Some? && current.day > end.value.day)
  {
    if start.None? && end.None? then false
    else if start.None? then !SameOrBeforeDay(current, end.value)
    else if end.None? then !SameOrAfterDay(current, start.value)
    else !(SameOrAfterDay(current, start.value) && SameOrBeforeDay(current, end.value))
  }

  /** Calls the panel's `disabledDate` on a calendar cell. */
  function IsDisabled(b: Bounds, current: Moment): (disabled: bool)
    ensures b.rule.External? ==> disabled == b.rule.pred(current)
    ensures b.rule.Range? ==>
              (disabled <==> (b.start.Some? && current.day < b.start.value.day) || (b.end.Some? && current.day > b.end.value.day))
  {
    match b.rule
    case External(pred) => pred(current)
    case Range => RangeDisabled(b.start, b.end, current)
  }

  /** The bound handling of the panel's `reset`: a bound is re-parsed only when its
      string is non-empty (an earlier bound survives otherwise), and the synthesized
      closure replaces the external predicate as soon as either string is non-empty. */
  function ResetBounds(prev: Bounds, startDate: string, endDate: string, format: string,
                       parse: (string, string) -> Moment, external: Moment -> bool): Bounds
  {
    Bounds(if startDate != "" then Some(parse(startDate, format)) else prev.start,
           if endDate != "" then Some(parse(endDate, format)) else prev.end,
           if startDate != "" || endDate != "" then Range else External(external))
  }

  /** With neither bound string set, the panel asks exactly the external predicate,
      whatever bounds an earlier reset left behind. */
  lemma NoBoundStringsUsesExternal(prev: Bounds, format: string, parse: (string, string) -> Moment,
                                   external: Moment -> bool, current: Moment)
    ensures IsDisabled(ResetBounds(prev, "", "", format, parse, external), current) == external(current)
  {
  }

  /** With the default external predicate and no bound strings, every day is selectable. */
  lemma DefaultDisablesNothing(prev: Bounds, format: string, parse: (string, string) -> Moment, current: Moment)
    ensures !IsDisabled(ResetBounds(prev, "", "", format, parse, NeverDisabled), current)
  {
  }

  /** With both bounds set, a day is selectable exactly when it lies in the inclusive
      range, whatever its time of day. */
  lemma BothBoundsInclusive(startDate: string, endDate: string, prev: Bounds, format: string,
                            parse: (string, string) -> Moment, external: Moment -> bool, current: Moment)
    requires startDate != "" && endDate != ""
    ensures var b := ResetBounds(prev, startDate, endDate, format, parse, external);
            !IsDisabled(b, current) <==> parse(startDate, format).day <= current.day <= parse(endDate, format).day
  {
  }

  /** A start bound set by one reset is still in force after a later reset whose start
      string is empty but whose end string is not. */
  lemma StaleStartBoundPersists(prev: Bounds, startDate: string, endDate: string, format: string,
                                parse: (string, string) -> Moment, external: Moment -> bool, current: Moment)
    requires startDate != "" && endDate != ""
    requires current.day < parse(startDate, format).day
    ensures var first := ResetBounds(prev, startDate, "", format, parse, external);
            IsDisabled(ResetBounds(first, "", endDate, format, parse, external), current)
  {
  }
}
