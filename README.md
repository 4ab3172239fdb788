# ms-datepicker: calendar panel state and disabled dates

A Dafny model of the logic inside the `ms-datepicker` form control
(`components/ms-datepicker/ms-datepicker.ts`). The widget binds a date string to a
popup calendar. Two pieces of its behaviour are modelled and proved here:

- **The inner panel view-model.** `viewMode` says which list the panel shows: 0 is the
  day grid, 1 the year view (months), 2 the decade view (years) and 3 the century view
  (decades). `staged` is a one-shot flag. It is raised by a direct jump from the day
  grid to the decade view, so that choosing a year there skips the year view on the way
  back. The panel also holds the current year, the optional start and end bounds, and
  its `disabledDate` predicate. The outer control opens and closes the panel and
  receives the picked date.
- **The disabled-date predicate.** The panel either uses the widget's own predicate
  (by default, nothing is disabled) or one built from inclusive start and end bounds,
  compared by day.

Files:

- `moments.dfy` (module `Moments`): the `Option` type and `Moment`. A moment is an
  instant reduced to its year, its day ordinal and its time of day. It also has the
  day-granularity comparisons `isSameOrAfter`/`isSameOrBefore(…, 'date')`.
- `disabled_dates.dfy` (module `DisabledDates`): the synthesized range predicate and
  how `reset` chooses between it and the external predicate.
- `view_navigation.dfy` (module `ViewNavigation`): the view-mode transitions as values.
  It also runs traces of panel actions and states the lemmas about them.
- `datepicker.dfy` (module `DatePicker`): the classes `Panel` (the inner view-model)
  and `Picker` (the outer control). Their methods update fields in place. The
  postconditions of the `Panel` methods and of `Picker.HandleClick` tie the new state
  to the value-level transitions above. The other `Picker` members state their new
  state directly.

The date library's parsing, formatting and clock become parameters. Parsing is
`parse(text, format)`, formatting is `formatMoment(moment, format)`, and the clock is
`now`. Nothing is assumed about what they return.

Three details of the code are kept as written:

- Selecting on the day grid gives mode −1, because nothing stops the decrement
  (`ViewNavigation.NoFloor`).
- `changeView` never clears `staged`, so the flag survives a detour through other
  views (`ViewNavigation.StagedSurvivesDetour`).
- Any non-empty bound string becomes a parsed moment, never `null`. The model
  therefore stores `Some(parse(text, format))` for every non-empty string.

## Model

| member | source | states |
|---|---|---|
| `DatePicker.JsRem` | components/ms-datepicker/ms-datepicker.ts:82-87 | JavaScript's `%` for a positive divisor: `a == b * JsQuot(a, b) + r` with `JsQuot` the quotient truncated toward zero, the result has the sign of the dividend, and it is smaller than the divisor in magnitude. This differs from Dafny's Euclidean `%`. |
| `DatePicker.JsQuot` | components/ms-datepicker/ms-datepicker.ts:82-87 | No contract of its own: the quotient truncated toward zero that JavaScript's `%` leaves behind. It is pinned down through `DatePicker.JsRem`. |
| `DatePicker.Panel.StartOfDecade` | components/ms-datepicker/ms-datepicker.ts:82-84 | The result is a multiple of 10 within 10 of the current year, rounded toward zero. For a non-negative year it lies in `(year − 10, year]`. |
| `DatePicker.Panel.StartOfCentury` | components/ms-datepicker/ms-datepicker.ts:85-87 | The result is a multiple of 100 within 100 of the current year, rounded toward zero. For a non-negative year it lies in `(year − 100, year]`. |
| `DatePicker.Panel.constructor` | components/ms-datepicker/ms-datepicker.ts:69-80 | The panel starts on the day grid with `staged` 0, current year 0, no bounds and the never-disabled predicate. |
| `DatePicker.Panel.IsDisabled` | components/ms-datepicker/ms-datepicker.ts:106-123 | No contract of its own: it applies `DisabledDates.IsDisabled` to the bounds and rule the panel holds when it is called, as the closure reads `this.$startDate`/`this.$endDate` at call time. |
| `DatePicker.Panel.Reset` | components/ms-datepicker/ms-datepicker.ts:89-125 | Leaves `viewMode == 0` and `staged == 0`. The current year is that of the parsed `selected` or of the clock. A bound is replaced only when its string is non-empty, otherwise the old bound is kept. The range rule is chosen iff either bound string is non-empty, otherwise the external predicate is used. |
| `DatePicker.Panel.ChangeView` | components/ms-datepicker/ms-datepicker.ts:126-132 | Always leaves `viewMode == target`. Sets `staged` to 1 exactly on a jump from mode 0 to 2 and otherwise leaves it unchanged, so `staged` is never cleared here. |
| `DatePicker.Panel.HandleYearViewSelect` | components/ms-datepicker/ms-datepicker.ts:133-153 | In mode 2, the new mode is `1 − old staged` and `staged` becomes 0. In every other mode, including 0, the mode drops by exactly 1 and `staged` is kept. The selected value becomes the current year in modes 2 and 3 only. |
| `DatePicker.Picker.constructor` | components/ms-datepicker/ms-datepicker.ts:57-173 | On initialisation the panel is closed. The panel is reset once while `selected` is still empty, so it follows the clock's year, and then `selected` takes the bound value. |
| `DatePicker.Picker.HandleClick` | components/ms-datepicker/ms-datepicker.ts:37-44 | Flips `panelVisible`. On the closed-to-open transition it resets the panel from the widget's settings. On open-to-closed the panel is left untouched. |
| `DatePicker.Picker.HandlePanelHide` | components/ms-datepicker/ms-datepicker.ts:50-52 | Always leaves the panel closed. |
| `DatePicker.Picker.HandleCalendarChange` | components/ms-datepicker/ms-datepicker.ts:160-168 | `selected` becomes the picked moment formatted with the widget's format, and the panel is closed. The form receives a `datepicker-changed` notification carrying the new `selected`. |
| `DisabledDates.RangeDisabled` | components/ms-datepicker/ms-datepicker.ts:106-120 | A day is disabled iff it is before the start day (when a start is set) or after the end day (when an end is set). So: both bounds give `d < start ∨ d > end`; only an end gives `d > end`; only a start gives `d < start`; no bounds disable nothing. Both end points are selectable. |
| `DisabledDates.IsDisabled` | components/ms-datepicker/ms-datepicker.ts:104-124 | Under the external rule the answer is exactly the external predicate's. Under the range rule it is the inclusive day-range check on the bounds. |
| `DisabledDates.ResetBounds` | components/ms-datepicker/ms-datepicker.ts:98-124 | No contract of its own: the bound handling of `reset`. It is pinned down by `DatePicker.Panel.Reset` and by the lemmas `NoBoundStringsUsesExternal`, `DefaultDisablesNothing`, `BothBoundsInclusive` and `StaleStartBoundPersists`. |
| `Moments.SameOrAfterDay` | components/ms-datepicker/ms-datepicker.ts:111 | No contract of its own: `isSameOrAfter(…, 'date')`, a comparison of day ordinals that ignores the time of day. It is pinned down through `DisabledDates.RangeDisabled` and `DisabledDates.BothBoundsInclusive`. |
| `Moments.SameOrBeforeDay` | components/ms-datepicker/ms-datepicker.ts:112 | No contract of its own: `isSameOrBefore(…, 'date')`, a comparison of day ordinals that ignores the time of day. It is pinned down through `DisabledDates.RangeDisabled` and `DisabledDates.BothBoundsInclusive`. |
| `DisabledDates.NoBoundStringsUsesExternal` | components/ms-datepicker/ms-datepicker.ts:121-124 | When neither bound string is set, the predicate after `reset` is exactly the external one, whatever bounds an earlier reset left. |
| `DisabledDates.DefaultDisablesNothing` | components/ms-datepicker/ms-datepicker.ts:30 | The default external predicate disables no day. |
| `DisabledDates.BothBoundsInclusive` | components/ms-datepicker/ms-datepicker.ts:98-119 | With both bound strings set, a day is selectable iff `start.day <= d.day <= end.day`, whatever its time of day. |
| `DisabledDates.StaleStartBoundPersists` | components/ms-datepicker/ms-datepicker.ts:98-103 | A start bound from an earlier reset still disables earlier days after a reset whose start string is empty and whose end string is not. |
| `ViewNavigation.ChangeView` | components/ms-datepicker/ms-datepicker.ts:126-132 | No contract of its own: the view part of `changeView`. It is pinned down by `DatePicker.Panel.ChangeView` and by the round-trip, detour and trace lemmas below. |
| `ViewNavigation.YearViewSelect` | components/ms-datepicker/ms-datepicker.ts:144-152 | No contract of its own: the view part of `handleYearViewSelect`. It is pinned down by `DatePicker.Panel.HandleYearViewSelect` and by `DayDecadeRoundTrip`, `MonthDecadeRoundTrip`, `NoFloor` and the trace lemmas below. |
| `ViewNavigation.RunAppend` | components/ms-datepicker/ms-datepicker.ts:89-152 | Performing two traces of panel actions in turn equals performing their concatenation. |
| `ViewNavigation.ResetForgets` | components/ms-datepicker/ms-datepicker.ts:89-91 | After a `reset`, the view behaves as if nothing had happened before it, and the `staged` flag does not persist across it. |
| `ViewNavigation.StagedStaysFlag` | components/ms-datepicker/ms-datepicker.ts:126-152 | Under any sequence of resets, jumps and selections, `staged` stays 0 or 1. |
| `ViewNavigation.GuardedStaysInRange` | components/ms-datepicker/ms-datepicker.ts:126-152 | If jumps target modes 0–3 and selections happen only while mode > 0, the mode stays within 0–3 and `staged` within {0, 1}. |
| `ViewNavigation.DayDecadeRoundTrip` | components/ms-datepicker/ms-datepicker.ts:126-149 | From the day grid, jumping to the decade view and selecting a year returns to the day grid with `staged` cleared. |
| `ViewNavigation.MonthDecadeRoundTrip` | components/ms-datepicker/ms-datepicker.ts:126-149 | From the year view with `staged` 0, going to the decade view and selecting a year returns to the year view. |
| `ViewNavigation.ResetScenarios` | components/ms-datepicker/ms-datepicker.ts:89-149 | `reset; changeView(2); select` ends on the day grid. `reset; changeView(1); changeView(2); select` ends on the year view. |
| `ViewNavigation.StagedSurvivesDetour` | components/ms-datepicker/ms-datepicker.ts:126-132 | After `reset; changeView(2)`, the flag survives `changeView(0); changeView(1); changeView(2)`, so the next selection lands on the day grid rather than the year view. |
| `ViewNavigation.NoFloor` | components/ms-datepicker/ms-datepicker.ts:150-152 | Selecting on the day grid gives mode −1. Backing out of the century view goes 3, 2, 1, 0 and then −1. |

## Left out

- The date library itself is not modelled: parsing, formatting, the clock, `toArray` and moment arithmetic. These are parameters or abstract values. Nothing is claimed about strings that do not match the format.
- The panel's `$moment` cursor, `currentMonth` and `currentDateArray` are display fields derived from the date library. They are not modelled. This includes the month and year written into the cursor by `handleYearViewSelect` and the cursor replaced by `handleCalendarChange`.
- `mutate` calls a date-library method by name, so it has no behaviour that can be stated without that library.
- Framework plumbing is left out: component registration, the view-model registry and its deletion in `onDispose`, the `value` watcher with `mapValueToSelected`, `emitToFormItem`, `handleChange` validation and the inline templates. `handleCalendarChange`'s notification is modelled only as the returned `Change` value.
- The DOM helpers `withInBox` and `getTarget` are left out because they depend on element containment.
- `ViewNavigation.GuardedStaysInRange` assumes the panel's templates select only while a year, decade or century list is showing. The templates are not part of this model.
