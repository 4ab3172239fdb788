/** The panel's view-mode state machine, as values: which granularity is shown and
    the one-shot flag that makes a year selection in the decade list skip the year
    view after a direct jump from the day grid. */
module ViewNavigation {

  /** `viewMode`: 0 day grid, 1 year view (months), 2 decade view (years),
      3 century view (decades); `staged`: 1 after a direct day-to-decade jump. */
  datatype View = View(mode: int, staged: int)

  /** The state `reset` establishes. */
  const Initial := View(0, 0)

  /** `changeView(target)`: jump to `target`; only a jump from the day grid straight
      to the decade view raises `staged`, and nothing lowers it. */
  function ChangeView(v: View, target: int): View {
    View(target, if v.mode == 0 && target == 2 then 1 else v.staged)
  }

  /** The view part of `handleYearViewSelect`: the decade view drops one level, and
      one more when `staged` is set, then clears `staged`; every other mode, the day
      grid included, drops exactly one level. */
  function YearViewSelect(v: View): View {
    if v.mode == 2 then View(v.mode - 1 - v.staged, 0) else View(v.mode - 1, v.staged)
  }

  /** The panel operations that move the view. */
  datatype Action = Reset | Zoom(target: int) | Select

  function Apply(v: View, a: Action): View {
    match a
    case Reset => Initial
    case Zoom(target) => ChangeView(v, target)
    case Select => YearViewSelect(v)
  }

  /** The view after performing `trace` in order, starting from `v`. */
  function Run(v: View, trace: seq<Action>): View
    decreases |trace|
  {
    if trace == [] then v else Run(Apply(v, trace[0]), trace[1..])
  }

  /** Modes the panel has a list for, and a flag that is 0 or 1. */
  predicate InRange(v: View) {
    0 <= v.mode <= 3 && (v.staged == 0 || v.staged == 1)
  }

  /** A trace as the panel's lists can produce it: jumps go to one of the four modes,
      and selections happen only while a year, decade or century list is showing. */
  predicate Guarded(v: View, trace: seq<Action>)
    decreases |trace|
  {
    trace == [] ||
    ((trace[0].Zoom? ==> 0 <= trace[0].target <= 3) &&
     (trace[0].Select? ==> v.mode > 0) &&
     Guarded(Apply(v, trace[0]), trace[1..]))
  }

  /** Running two traces one after the other is running their concatenation. */
  lemma {:induction false} RunAppend(v: View, first: seq<Action>, second: seq<Action>)
    ensures Run(v, first + second) == Run(Run(v, first), second)
    decreases |first|
  {
    if first == [] {
      assert first + second == second;
    } else {
      assert (first + second)[0] == first[0];
      assert (first + second)[1..] == first[1..] + second;
      RunAppend(Apply(v, first[0]), first[1..], second);
    }
  }

  /** A reset forgets everything before it, the `staged` flag included. */
  lemma {:induction false} ResetForgets(v: View, before: seq<Action>, after: seq<Action>)
    ensures Run(v, before + [Reset] + after) == Run(Initial, after)
  {
    RunAppend(v, before + [Reset], after);
    RunAppend(v, before, [Reset]);
  }

  /** Whatever the trace, `staged` stays a 0/1 flag. */
  lemma {:induction false} StagedStaysFlag(v: View, trace: seq<Action>)
    requires v.staged == 0 || v.staged == 1
    ensures Run(v, trace).staged == 0 || Run(v, trace).staged == 1
    decreases |trace|
  {
    if trace != [] {
      StagedStaysFlag(Apply(v, trace[0]), trace[1..]);
    }
  }

  /** Under a trace the lists can produce, the mode never leaves 0..3. */
  lemma {:induction false} GuardedStaysInRange(v: View, trace: seq<Action>)
    requires InRange(v) && Guarded(v, trace)
    ensures InRange(Run(v, trace))
    decreases |trace|
  {
    if trace != [] {
      GuardedStaysInRange(Apply(v, trace[0]), trace[1..]);
    }
  }

  /** From the day grid, jumping to the decade view and selecting a year lands back
      on the day grid with the flag consumed. */
  lemma DayDecadeRoundTrip(v: View)
    requires v.mode == 0
    ensures YearViewSelect(ChangeView(v, 2)) == Initial
  {
  }

  /** From the year view with no pending skip, going up to the decade view and
      selecting a year lands back on the year view. */
  lemma MonthDecadeRoundTrip(v: View)
    requires v.mode == 1 && v.staged == 0
    ensures YearViewSelect(ChangeView(v, 2)) == View(1, 0)
  {
  }

  /** `reset; changeView(2); handleYearViewSelect` ends on the day grid, while
      `reset; changeView(1); changeView(2); handleYearViewSelect` ends on the year view. */
  lemma ResetScenarios(v: View)
    ensures Run(v, [Reset, Zoom(2), Select]) == Initial
    ensures Run(v, [Reset, Zoom(1), Zoom(2), Select]) == View(1, 0)
  {
  }

  /** `changeView` never clears `staged`: after a day-to-decade jump, a detour through
      the day grid and the year view leaves the flag set, so the next year selection
      in the decade view skips the year view it came from. */
  lemma StagedSurvivesDetour(v: View)
    ensures Run(v, [Reset, Zoom(2), Zoom(0), Zoom(1), Zoom(2), Select]) == Initial
  {
  }

  /** There is no floor: selecting on the day grid gives mode -1, so backing out of
      the century view one level at a time goes 3, 2, 1, 0 and then below 0. */
  lemma NoFloor(staged: int)
    ensures YearViewSelect(View(0, staged)) == View(-1, staged)
    ensures Run(View(3, 0), [Select, Select, Select]) == Initial
    ensures Run(View(3, 0), [Select, Select, Select, Select]) == View(-1, 0)
  {
  }
}
