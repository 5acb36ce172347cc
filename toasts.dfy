/** The notices the pages raise in their toast widget. */
module Toasts {
  import opened Wrappers

  /** How long a notice stays: sticky until the page clears the widget after `clearAfterMs`,
      or for `lifeMs` as the widget's own lifetime. */
  datatype Display = StickyUntilCleared(clearAfterMs: nat) | Timed(lifeMs: nat)

  datatype Toast = Toast(severity: string, summary: Option<string>, detail: string, display: Display)
}
