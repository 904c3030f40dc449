/**
 * The status panel's loading indicators.  Each of the temperature, beacon
 * and weight rows pairs a spinner with a status label: showing the spinner
 * hides the label and hiding it shows the label again, each only from the
 * opposite resting state.  The title spinner stands alone.
 */
module Spinners {

  /** One row: whether its spinner animates and whether its label is hidden. */
  datatype Indicator = Indicator(animating: bool, labelHidden: bool)

  /** The row's resting states: spinning with the label hidden, or still with the label shown. */
  predicate Coupled(i: Indicator) {
    i.animating == i.labelHidden
  }

  /** `show*Spinner`: acts only when the spinner is still and the label visible. */
  function Show(i: Indicator): Indicator {
    if !i.animating && !i.labelHidden then Indicator(true, true) else i
  }

  /** `hide*Spinner`: acts only when the spinner animates and the label is hidden. */
  function Hide(i: Indicator): Indicator {
    if i.animating && i.labelHidden then Indicator(false, false) else i
  }

  /** Both operations keep a row in a resting state. */
  lemma ShowHidePreserveCoupled(i: Indicator)
    requires Coupled(i)
    ensures Coupled(Show(i)) && Coupled(Hide(i))
  {
  }

  /** Showing twice is showing once; hiding twice is hiding once. */
  lemma ShowHideIdempotent(i: Indicator)
    ensures Show(Show(i)) == Show(i)
    ensures Hide(Hide(i)) == Hide(i)
  {
  }

  /** From a resting state, showing always ends spinning and hiding always ends still. */
  lemma ShowHideOutcome(i: Indicator)
    requires Coupled(i)
    ensures Show(i) == Indicator(true, true)
    ensures Hide(i) == Indicator(false, false)
  {
  }

  /** A row knocked out of its resting states is stuck: neither operation changes it. */
  lemma UncoupledIsStuck(i: Indicator)
    requires !Coupled(i)
    ensures Show(i) == i && Hide(i) == i
  {
  }

  datatype Row = TempRow | BeaconRow | WeightRow

  class StatusPanel {
    var temp: Indicator
    var beacon: Indicator
    var weight: Indicator
    var titleAnimating: bool

    function Get(row: Row): Indicator
      reads this
    {
      match row
      case TempRow => temp
      case BeaconRow => beacon
      case WeightRow => weight
    }

    ghost predicate Valid()
      reads this
    {
      Coupled(temp) && Coupled(beacon) && Coupled(weight)
    }

    /** The freshly built panel: no spinner animates and every label is visible. */
    constructor ()
      ensures Valid()
      ensures temp == beacon == weight == Indicator(false, false) && !titleAnimating
    {
      temp, beacon, weight := Indicator(false, false), Indicator(false, false), Indicator(false, false);
      titleAnimating := false;
    }

    /** `showTempSpinner`, `showBeaconSpinner`, `showWeightSpinner`. */
    method ShowSpinner(row: Row)
      requires Valid()
      modifies this
      ensures Valid()
      ensures Get(row) == Show(old(Get(row)))
      ensures forall other :: other != row ==> Get(other) == old(Get(other))
      ensures titleAnimating == old(titleAnimating)
    {
      var i := Get(row);
      if !i.animating && !i.labelHidden {
        i := i.(animating := true);
        i := i.(labelHidden := true);
        match row
        case TempRow => temp := i;
        case BeaconRow => beacon := i;
        case WeightRow => weight := i;
      }
    }

    /** `hideTempSpinner`, `hideBeaconSpinner`, `hideWeightSpinner`. */
    method HideSpinner(row: Row)
      requires Valid()
      modifies this
      ensures Valid()
      ensures Get(row) == Hide(old(Get(row)))
      ensures forall other :: other != row ==> Get(other) == old(Get(other))
      ensures titleAnimating == old(titleAnimating)
    {
      var i := Get(row);
      if i.animating && i.labelHidden {
        i := i.(animating := false);
        i := i.(labelHidden := false);
        match row
        case TempRow => temp := i;
        case BeaconRow => beacon := i;
        case WeightRow => weight := i;
      }
    }

    /** `showTitleSpinner`: starts the title spinner unless it already animates. */
    method ShowTitleSpinner()
      modifies this
      ensures titleAnimating
      ensures temp == old(temp) && beacon == old(beacon) && weight == old(weight)
    {
      if !titleAnimating {
        titleAnimating := true;
      }
    }

    /** `hideTitleSpinner`: stops the title spinner if it animates. */
    method HideTitleSpinner()
      modifies this
      ensures !titleAnimating
      ensures temp == old(temp) && beacon == old(beacon) && weight == old(weight)
    {
      if titleAnimating {
        titleAnimating := false;
      }
    }
  }
}
