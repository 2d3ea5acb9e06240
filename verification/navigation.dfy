/**
 * The part of the router the wizard relies on: which screen is showing.
 * Pushing shows a named screen; going back shows the step before the current
 * one in the linear wizard.
 */
module Navigation {

  /** The profile list at `/`, then the wizard's three steps. */
  datatype Step = ProfileList | BasicInfoStep | AddressStep | SummaryStep

  /** The screen `router.back()` returns to from each screen of the wizard. */
  function Previous(s: Step): Step {
    match s
    case SummaryStep => AddressStep
    case AddressStep => BasicInfoStep
    case _ => ProfileList
  }

  class Router {
    var current: Step

    constructor (start: Step)
      ensures current == start
    {
      current := start;
    }

    /** `router.push(path)`. */
    method Push(target: Step)
      modifies this
      ensures current == target
    {
      current := target;
    }

    /** `router.back()`. */
    method Back()
      modifies this
      ensures current == Previous(old(current))
    {
      current := Previous(current);
    }
  }
}
