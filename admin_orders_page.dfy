/**
 * The administrators' order list: the status filter, the summary figures and the
 * status badge.
 */
module AdminOrders {
  import opened Wrappers
  import opened Seqs
  import opened Records

  /** The message `fetchOrders` falls back to; it loads its list as `Listing.AfterFetch` does. */
  const LoadFallback := "Error al cargar órdenes"

  /** `order.status?.descripcion === f || order.status === f` */
  predicate HasStatus(o: Order, f: string) {
    (o.status.StatusRecord? && o.status.descripcion == Some(f)) || (o.status.StatusText? && o.status.text == f)
  }

  function StatusFilter(f: string): Order -> bool {
    o => HasStatus(o, f)
  }

  /** `filteredOrders` for the selected filter. */
  function FilteredOrders(orders: seq<Order>, filter: string): (r: seq<Order>)
    ensures filter == "all" ==> r == orders
    ensures filter != "all" ==> forall i :: 0 <= i < |r| ==> r[i] in orders && HasStatus(r[i], filter)
    ensures filter != "all" ==> forall i :: 0 <= i < |orders| && HasStatus(orders[i], filter) ==> orders[i] in r
  {
    if filter == "all" then orders else Filter(orders, StatusFilter(filter))
  }

  /** The filter only leaves orders out; those it keeps stay in the order they arrived. */
  lemma FilterKeepsArrivalOrder(orders: seq<Order>, filter: string)
    ensures SubsequenceOf(FilteredOrders(orders, filter), orders)
  {
    if filter == "all" {
      FilterKeepsAll(orders, _ => true);
      FilterIsSubsequence(orders, _ => true);
    } else {
      FilterIsSubsequence(orders, StatusFilter(filter));
    }
  }

  /** `o.total || 0` */
  function TotalOrZero(o: Order): real {
    if o.total.Some? then o.total.value else 0.0
  }

  datatype OrderStats = OrderStats(total: nat, pending: nat, confirmed: nat, totalRevenue: real)

  /** `stats` */
  function Stats(orders: seq<Order>): OrderStats {
    var confirmed := Filter(orders, StatusFilter("confirmed"));
    OrderStats(|orders|, |Filter(orders, StatusFilter("pending"))|, |confirmed|, SumReal(confirmed, TotalOrZero))
  }

  /**
   * The figures agree with the filter tabs: the counts are the lengths of the pending and
   * confirmed tabs, no order is counted in both, and the revenue is the confirmed tab's total
   * with a missing total counted as 0.
   */
  lemma StatsAgreeWithTabs(orders: seq<Order>)
    ensures Stats(orders).total == |FilteredOrders(orders, "all")|
    ensures Stats(orders).pending == |FilteredOrders(orders, "pending")|
    ensures Stats(orders).confirmed == |FilteredOrders(orders, "confirmed")|
    ensures Stats(orders).pending + Stats(orders).confirmed <= Stats(orders).total
    ensures Stats(orders).totalRevenue == SumReal(FilteredOrders(orders, "confirmed"), TotalOrZero)
  {
    DisjointFilterCounts(orders, StatusFilter("pending"), StatusFilter("confirmed"));
  }

  /** With no negative totals the revenue is never negative, and it is at most the sum over all orders. */
  lemma RevenueBounds(orders: seq<Order>)
    requires forall i :: 0 <= i < |orders| ==> TotalOrZero(orders[i]) >= 0.0
    ensures 0.0 <= Stats(orders).totalRevenue <= SumReal(orders, TotalOrZero)
  {
    SumRealFilterBounds(orders, StatusFilter("confirmed"), TotalOrZero);
  }

  /** The four statuses `getStatusBadge` has a label for. */
  predicate KnownStatus(status: string) {
    status in {"pending", "confirmed", "canceled", "failed"}
  }

  /** `getStatusBadge(status).label` for a status text. */
  function StatusBadge(status: string): (badge: string)
    ensures !KnownStatus(status) ==> badge == status
  {
    if status == "pending" then "Pendiente"
    else if status == "confirmed" then "Confirmada"
    else if status == "canceled" then "Cancelada"
    else if status == "failed" then "Fallida"
    else status
  }

  /**
   * Two different statuses show the same label only when one of them is an unknown status
   * spelled exactly like the other's label: the four labels are pairwise distinct.
   */
  lemma SameBadgeOnlyForLabelNames(a: string, b: string)
    requires a != b && StatusBadge(a) == StatusBadge(b)
    ensures (KnownStatus(a) && !KnownStatus(b) && b == StatusBadge(a)) ||
            (KnownStatus(b) && !KnownStatus(a) && a == StatusBadge(b))
  {
    assert "Pendiente"[0] != "Cancelada"[0] && "Confirmada"[1] != "Cancelada"[1];
  }

  /**
   * `order.status?.descripcion || order.status` when it is a text: a truthy description,
   * or the bare status text; None when the badge would be handed no text.
   */
  function BadgeArgument(status: OrderStatus): (arg: Option<string>)
    ensures status.StatusText? ==> arg == Some(status.text)
    ensures status.StatusRecord? && status.descripcion.Some? && status.descripcion.value != "" ==> arg == status.descripcion
    ensures status.NoStatus? ==> arg.None?
  {
    match status
    case StatusRecord(Some(d)) => if d != "" then Some(d) else None
    case StatusRecord(None) => None
    case StatusText(t) => Some(t)
    case NoStatus => None
  }

  /** An order kept by a status tab shows that status's badge. */
  lemma TabOrdersShowTheirBadge(o: Order, filter: string)
    requires filter != "" && HasStatus(o, filter)
    ensures BadgeArgument(o.status) == Some(filter)
  {
  }
}
