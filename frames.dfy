/** Tables and the outcome of one KPI group. */
module Frames {
  /** An in-memory table: the set of columns it carries and its rows in order.
      A field of a row whose column is not in `columns` holds no meaningful
      value; the aggregators never read it. */
  datatype Frame<C, R> = Frame(columns: set<C>, rows: seq<R>)

  /** Why a KPI group was skipped by an early-return validation. */
  datatype SkipReason = EmptyInput | MissingColumn

  /** The outcome of one KPI group. `Skipped` is a validation that returned
      early, `Failed` an exception caught at the aggregator's boundary (a
      column read inside the computation that the table does not have);
      both are rendered as an empty dict. */
  datatype Kpi<T, C> = Computed(figures: T) | Skipped(reason: SkipReason) | Failed(missing: C)
  {
    predicate IsEmptyDict() {
      !Computed?
    }
  }
}
