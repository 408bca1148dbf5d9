/**
 * The admin orders page: the status buttons, the status and search filters
 * over the loaded orders, and the status-update modal's guard.
 */
module AdminOrders {
  import opened Wrappers
  import opened Models
  import Lists
  import Text
  import AdminTable

  /** The filter button that keeps every order. */
  const AllStatuses: string := "All"

  /** `['All', 'Processing', 'Shipped', 'Delivered']`: the filter buttons. */
  const StatusButtons: seq<string> := [AllStatuses, "Processing", "Shipped", Delivered]

  /** The options of the status `select` in the edit modal. */
  const StatusOptions: seq<string> := ["Processing", "Shipped", Delivered]

  /** The toast of an update with no status selected. */
  const SelectAStatus: string := "Please select a status"

  /** The status filter keeps everything for `All`, otherwise the equal status. */
  predicate StatusMatches(o: Order, statusFilter: string) {
    statusFilter == AllStatuses || o.orderStatus == statusFilter
  }

  /**
   * `o.user?.name`: the orders the admin list loads carry the customer's id
   * (a string, which has no `name`), so there is no customer name to search.
   */
  function CustomerName(o: Order): Option<string> {
    None
  }

  /** The search: the order id, or else the customer name, contains the search text under `lower`. */
  predicate OrderMatches(o: Order, search: string, lower: string -> string) {
    Text.Includes(lower(o.id), lower(search)) ||
    (CustomerName(o).Some? && Text.Includes(lower(CustomerName(o).value), lower(search)))
  }

  /** `filtered`: the status filter, then the search, in the loaded order. */
  function FilteredOrders(orders: seq<Order>, statusFilter: string, search: string,
                          lower: string -> string): (r: seq<Order>)
    ensures |r| <= |orders|
    ensures forall o :: o in r <==>
      o in orders && StatusMatches(o, statusFilter) && Text.Includes(lower(o.id), lower(search))
  {
    var byStatus := Lists.Filter(orders, o => StatusMatches(o, statusFilter));
    Lists.Filter(byStatus, o => OrderMatches(o, search, lower))
  }

  /** `handleUpdateStatus` for the order whose edit modal is open. */
  function HandleUpdateStatus(editing: Order, newStatus: string): (r: AdminTable.Submit<(Id, string)>)
    ensures r.Refused? <==> newStatus == ""
    ensures r.Refused? ==> r.toast == SelectAStatus
    ensures r.Dispatched? ==> r.request == (editing.id, newStatus)
  {
    if newStatus == "" then AdminTable.Refused(SelectAStatus)
    else AdminTable.Dispatched((editing.id, newStatus))
  }

  /** The edit button preselects the order's current status. */
  function OpenEditStatus(o: Order): (newStatus: string)
    ensures newStatus == o.orderStatus
  {
    o.orderStatus
  }

  /* ---------------- properties ---------------- */

  /** With `All` and an empty search every loaded order is listed, in order. */
  lemma UnfilteredListsEverything(orders: seq<Order>, lower: string -> string)
    requires lower("") == ""
    ensures FilteredOrders(orders, AllStatuses, "", lower) == orders
  {
    Lists.FilterAll(orders, o => StatusMatches(o, AllStatuses));
    forall i | 0 <= i < |orders| ensures OrderMatches(orders[i], "", lower) {
      Text.IncludesEmpty(lower(orders[i].id));
    }
    Lists.FilterAll(orders, o => OrderMatches(o, "", lower));
  }

  /**
   * The status buttons split the orders: an order with one of the three
   * statuses is listed under `All` and under its own button, and under no
   * other.
   */
  lemma StatusButtonsSplit(orders: seq<Order>, o: Order, search: string, lower: string -> string)
    requires o in orders && o.orderStatus in StatusOptions
    requires Text.Includes(lower(o.id), lower(search))
    ensures o in FilteredOrders(orders, AllStatuses, search, lower)
    ensures forall s :: s in StatusButtons ==>
      (o in FilteredOrders(orders, s, search, lower) <==> s == AllStatuses || s == o.orderStatus)
  {
  }

  /**
   * An update is refused only when the selected status is empty: opening
   * the modal on an order with a status and saving dispatches that status
   * unchanged, and any option picked from the `select` is dispatched.
   */
  lemma UpdateRefusedOnlyWithoutStatus(o: Order, picked: string)
    requires picked in StatusOptions
    ensures o.orderStatus != "" ==>
      HandleUpdateStatus(o, OpenEditStatus(o)) == AdminTable.Dispatched((o.id, o.orderStatus))
    ensures HandleUpdateStatus(o, picked) == AdminTable.Dispatched((o.id, picked))
  {
  }
}
