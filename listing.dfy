/** Pieces shared by the three paginated list views: the pagination guards,
    the status-filter values and the status badge colours. */
module Listing {
  import opened Js
  import opened Types

  /** The value a status filter control sets: "" for all, else a status literal. */
  datatype StatusFilter = AllStatuses | OnlyStatus(status: Status)

  function FilterValue(f: StatusFilter): (v: string)
    ensures v == "" <==> f == AllStatuses
    ensures f.OnlyStatus? ==> ParseStatus(v) == Some(f.status)
  {
    ParseStatusName(if f.OnlyStatus? then f.status else PENDING);
    match f
    case AllStatuses => ""
    case OnlyStatus(s) => StatusName(s)
  }

  /** Pagination controls are rendered only for more than one page. */
  predicate ControlsShown(totalPages: int)
  {
    totalPages > 1
  }

  /** `disabled={page === 1}` on Previous. */
  predicate PreviousEnabled(page: int)
  {
    page != 1
  }

  /** `disabled={page === totalPages}` on Next: an equality test, not `>=`. */
  predicate NextEnabled(page: int, totalPages: int)
  {
    page != totalPages
  }

  const YellowBadge: string := "bg-yellow-100 text-yellow-800"
  const GreenBadge: string := "bg-green-100 text-green-800"
  const RedBadge: string := "bg-red-100 text-red-800"
  const GrayBadge: string := "bg-gray-100 text-gray-800"
}
