/** Finite runs of a system, built one event at a time: `last` is the newest event. */
module Runs {
  datatype Run<+A> = Start | Then(before: Run<A>, last: A)
}
