/** The pieces of the component library whose choice the pages compute. */
module Ui {
  import opened Wrappers

  /** The `variant` of a `Badge`. */
  datatype BadgeVariant = Default | Secondary | Destructive | Outline

  /**
   * What a list card shows for a query: skeletons while loading, the rows when
   * there are some, the empty-state message otherwise (no data or no rows).
   */
  datatype Panel<T> = Skeleton | Items(items: seq<T>) | EmptyState

  function PanelOf<T>(isLoading: bool, data: Option<seq<T>>): (p: Panel<T>)
    ensures p.Skeleton? <==> isLoading
    ensures p.Items? <==> !isLoading && data.Some? && data.value != []
    ensures p.Items? ==> p.items == data.value
  {
    if isLoading then Skeleton
    else if data.Some? && |data.value| > 0 then Items(data.value)
    else EmptyState
  }
}
