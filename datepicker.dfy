/** The date-picker widget: the inner calendar panel view-model (`Panel`) and the
    outer form control that opens, closes and fills it (`Picker`). The date library's
    parsing, formatting and clock are passed in as parameters. */
module DatePicker {
  import opened Moments
  import opened DisabledDates
  import opened ViewNavigation

  /** The quotient of `a` by `b` truncated toward zero, as JavaScript's `%` uses it. */
  function JsQuot(a: int, b: int): int
    requires b > 0
  {
    if a >= 0 then a / b else -((-a) / b)
  }

  /** JavaScript's `a % b` for a positive divisor: the remainder truncates toward
      zero, so it takes the sign of `a` (Dafny's `%` never goes negative). */
  function JsRem(a: int, b: int): (r: int)
    requires b > 0
    ensures a == b * JsQuot(a, b) + r
    ensures a >= 0 ==> 0 <= r < b
    ensures a < 0 ==> -b < r <= 0
  {
    if a >= 0 then
      assert a == (a / b) * b + a % b;
      a % b
    else
      assert -a == ((-a) / b) * b + (-a) % b;
      assert a == (-((-a) / b)) * b + -((-a) % b);
      -((-a) % b)
  }

  /** The inner panel view-model. */
  class Panel {
    var viewMode: int
    var staged: int
    var currentYear: int
    var startDate: Option<Moment>   // `$startDate`
    var endDate: Option<Moment>     // `$endDate`
    var disabledDate: Rule

    /** The view-mode part of the state. */
    function ViewState(): View
      reads this
    {
      View(viewMode, staged)
    }

    /** The bound part of the state. */
    function BoundState(): Bounds
      reads this
    {
      Bounds(startDate, endDate, disabledDate)
    }

    /** The panel's initial field values. */
    constructor ()
      ensures ViewState() == Initial && currentYear == 0
      ensures BoundState() == Bounds(None, None, External(NeverDisabled))
    {
      viewMode, staged, currentYear := 0, 0, 0;
      startDate, endDate := None, None;
      disabledDate := External(NeverDisabled);
    }

    /** Computed `startOfDecade`: the current year with its last digit cleared,
        rounded toward zero as JavaScript's `%` does. */
    function StartOfDecade(): (r: int)
      reads this
      ensures r % 10 == 0
      ensures currentYear >= 0 ==> currentYear - 10 < r <= currentYear
      ensures currentYear < 0 ==> currentYear <= r < currentYear + 10
    {
      currentYear - JsRem(currentYear, 10)
    }

    /** Computed `startOfCentury`: the current year with its last two digits cleared,
        rounded toward zero as JavaScript's `%` does. */
    function StartOfCentury(): (r: int)
      reads this
      ensures r % 100 == 0
      ensures currentYear >= 0 ==> currentYear - 100 < r <= currentYear
      ensures currentYear < 0 ==> currentYear <= r < currentYear + 100
    {
      currentYear - JsRem(currentYear, 100)
    }

    /** The panel's `disabledDate` applied to a calendar cell: the synthesized closure
        reads the bounds the panel holds at the time of the call. */
    function IsDisabled(current: Moment): bool
      reads this
    {
      DisabledDates.IsDisabled(BoundState(), current)
    }

    /** `reset`, reading the outer widget's `selected`, `format`, `startDate`,
        `endDate` and `disabledDate`; `now` is the clock's reading. */
    method Reset(selected: string, format: string, startText: string, endText: string,
                 external: Moment -> bool, parse: (string, string) -> Moment, now: Moment)
      modifies this
      ensures viewMode == 0 && staged == 0
      ensures currentYear == (if selected != "" then parse(selected, format) else now).year
      ensures BoundState() == ResetBounds(old(BoundState()), startText, endText, format, parse, external)
      ensures startText == "" && endText == "" ==> disabledDate == External(external)
      ensures startText != "" || endText != "" ==> disabledDate == Range
      ensures startText == "" ==> startDate == old(startDate)
      ensures endText == "" ==> endDate == old(endDate)
    {
      viewMode := 0;
      staged := 0;
      var cursor := if selected != "" then parse(selected, format) else now;
      currentYear := cursor.year;
      if startText != "" {
        startDate := Some(parse(startText, format));
      }
      if endText != "" {
        endDate := Some(parse(endText, format));
      }
      if startText != "" || endText != "" {
        disabledDate := Range;
      } else {
        disabledDate := External(external);
      }
    }

    /** `changeView(target)`. */
    method ChangeView(target: int)
      modifies this`viewMode, this`staged
      ensures ViewState() == ViewNavigation.ChangeView(old(ViewState()), target)
      ensures viewMode == target
      ensures staged == if old(viewMode) == 0 && target == 2 then 1 else old(staged)
    {
      if viewMode == 0 && target == 2 {
        staged := 1;
      }
      viewMode := target;
    }

    /** `handleYearViewSelect` with the selected cell's value: in the decade and
        century views it becomes the current year; the month chosen in the year view
        only touches display fields outside this model. */
    method HandleYearViewSelect(value: int)
      modifies this`viewMode, this`staged, this`currentYear
      ensures ViewState() == YearViewSelect(old(ViewState()))
      ensures old(viewMode) == 2 ==> viewMode == 1 - old(staged) && staged == 0
      ensures old(viewMode) != 2 ==> viewMode == old(viewMode) - 1 && staged == old(staged)
      ensures currentYear == if old(viewMode) == 2 || old(viewMode) == 3 then value else old(currentYear)
    {
      if viewMode == 3 {
        currentYear := value;
      }
      if viewMode == 2 {
        currentYear := value;
        viewMode := viewMode - 1 - staged;
        staged := 0;
      } else {
        viewMode := viewMode - 1;
      }
    }
  }

  /** The change notification the widget sends to its form. */
  datatype Change = Change(value: string, kind: string)

  /** The outer form control. */
  class Picker {
    var selected: string
    var format: string
    var startDate: string
    var endDate: string
    var disabledDate: Moment -> bool
    var panelVisible: bool
    const panel: Panel

    /** `onInit`: the panel starts closed and is reset once while `selected` still
        holds its default, then `selected` takes the bound value. */
    constructor (value: string, format: string, startDate: string, endDate: string,
                 disabledDate: Moment -> bool, parse: (string, string) -> Moment, now: Moment)
      ensures fresh(panel)
      ensures selected == value && !panelVisible
      ensures this.format == format && this.startDate == startDate && this.endDate == endDate
      ensures this.disabledDate == disabledDate
      ensures panel.ViewState() == Initial && panel.currentYear == now.year
      ensures panel.BoundState() == ResetBounds(Bounds(None, None, External(NeverDisabled)),
                                            startDate, endDate, format, parse, disabledDate)
    {
      this.selected := "";
      this.format := format;
      this.startDate := startDate;
      this.endDate := endDate;
      this.disabledDate := disabledDate;
      this.panelVisible := false;
      var p := new Panel();
      this.panel := p;
      new;
      p.Reset("", format, startDate, endDate, disabledDate, parse, now);
      selected := value;
    }

    /** `handleClick`: toggles the panel, resetting it only when it opens. */
    method HandleClick(parse: (string, string) -> Moment, now: Moment)
      modifies this`panelVisible, panel
      ensures panelVisible == !old(panelVisible)
      ensures !old(panelVisible) ==> panel.ViewState() == Initial
      ensures !old(panelVisible) ==>
                panel.BoundState() == ResetBounds(old(panel.BoundState()), startDate, endDate, format, parse, disabledDate)
      ensures !old(panelVisible) ==>
                panel.currentYear == (if selected != "" then parse(selected, format) else now).year
      ensures old(panelVisible) ==> unchanged(panel)
    {
      if !panelVisible {
        panel.Reset(selected, format, startDate, endDate, disabledDate, parse, now);
        panelVisible := true;
      } else {
        panelVisible := false;
      }
    }

    /** `handlePanelHide`. */
    method HandlePanelHide()
      modifies this`panelVisible
      ensures !panelVisible
    {
      panelVisible := false;
    }

    /** `handleCalendarChange` with the picked moment: `selected` becomes its formatted
        text, the panel closes, and the form is told of the change. */
    method HandleCalendarChange(picked: Moment, formatMoment: (Moment, string) -> string)
      returns (change: Change)
      modifies this`selected, this`panelVisible
      ensures selected == formatMoment(picked, format) && !panelVisible
      ensures change == Change(selected, "datepicker-changed")
    {
      selected := formatMoment(picked, format);
      panelVisible := false;
      change := Change(selected, "datepicker-changed");
    }
  }
}
