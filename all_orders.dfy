/**
 * The admin order list (`src/pages/admin/AllOrders.tsx`): the search and
 * status filter over the fetched orders, and the status change handler.
 */
module AllOrders {
  import opened Wrappers
  import opened Catalog
  import Seqs
  import Text

  /** The search: the lowercased term inside the lowercased id, or inside a non-empty shipping name. */
  predicate MatchesSearch(order: Order, term: string) {
    Text.Contains(Text.Lower(order.id), Text.Lower(term)) ||
    (order.shippingName.Some? && order.shippingName.value != "" &&
     Text.Contains(Text.Lower(order.shippingName.value), Text.Lower(term)))
  }

  /** `statusFilter === 'all' || order.status === statusFilter`. */
  predicate MatchesStatus(order: Order, status: string) {
    status == "all" || order.status == status
  }

  function Keep(term: string, status: string): Order -> bool {
    (o: Order) => MatchesSearch(o, term) && MatchesStatus(o, status)
  }

  /** `filteredOrders`. */
  function Filtered(orders: seq<Order>, term: string, status: string): seq<Order> {
    Seqs.Filter(orders, Keep(term, status))
  }

  /** An order is listed exactly when it matches both the search and the status filter. */
  lemma FilteredMembership(orders: seq<Order>, term: string, status: string, o: Order)
    ensures o in Filtered(orders, term, status) <==>
      o in orders && MatchesSearch(o, term) && MatchesStatus(o, status)
  {
    Seqs.FilterMembership(orders, Keep(term, status), o);
  }

  /** The list keeps the fetched order. */
  lemma FilteredInOrder(orders: seq<Order>, term: string, status: string)
    ensures Seqs.IsSubsequence(Filtered(orders, term, status), orders)
  {
    Seqs.FilterIsSubsequence(orders, Keep(term, status));
  }

  /** Any filter other than "all" lists only orders with exactly that status. */
  lemma FilteredStatus(orders: seq<Order>, term: string, status: string)
    requires status != "all"
    ensures forall i :: 0 <= i < |Filtered(orders, term, status)| ==>
      Filtered(orders, term, status)[i].status == status
  {
    Seqs.FilterAllKept(orders, Keep(term, status));
  }

  /** With an empty search and the "all" filter every order is listed. */
  lemma EmptySearchListsAll(orders: seq<Order>)
    ensures Filtered(orders, "", "all") == orders
  {
    forall i | 0 <= i < |orders| ensures Keep("", "all")(orders[i]) {
      Text.ContainsEmpty(Text.Lower(orders[i].id));
    }
    Seqs.FilterAll(orders, Keep("", "all"));
  }

  /** The search ignores ASCII case: only the lowercased term matters. */
  lemma SearchIgnoresCase(order: Order, term: string)
    ensures MatchesSearch(order, Text.Upper(term)) <==> MatchesSearch(order, term)
  {
    assert Text.Lower(Text.Upper(term)) == Text.Lower(term) by {
      forall i | 0 <= i < |term| ensures Text.LowerChar(Text.UpperChar(term[i])) == Text.LowerChar(term[i]) {
        LowerOfUpper(term[i]);
      }
    }
  }

  lemma LowerOfUpper(c: char)
    ensures Text.LowerChar(Text.UpperChar(c)) == Text.LowerChar(c)
  {
  }

  // ---------------------------------------------------------------------
  // Changing an order's status
  // ---------------------------------------------------------------------

  /** What `updateOrderStatus` did: a reply with a success flag and maybe an error, or an exception. */
  datatype StatusReply = Replied(success: bool, error: Option<string>) | Threw

  /** What the handler does next: fetch the orders again, or show an alert. */
  datatype Follow = Refetch | Alert(message: string)

  const FailurePrefix := "Failed to update order status: "
  const ThrewMessage := "An error occurred while updating the order status"

  /**
   * The follow-up of a status change. A failed reply without an error text
   * interpolates `undefined`, as the template literal does.
   */
  function FollowUp(reply: StatusReply): (r: Follow)
    ensures r.Refetch? <==> reply.Replied? && reply.success
    ensures reply.Replied? && !reply.success && reply.error.Some? ==>
      r == Alert(FailurePrefix + reply.error.value)
    ensures reply.Replied? && !reply.success && reply.error.None? ==>
      r == Alert(FailurePrefix + "undefined")
    ensures reply.Threw? ==> r == Alert(ThrewMessage)
  {
    match reply
    case Replied(success, error) =>
      if success then Refetch
      else Alert(FailurePrefix + (if error.Some? then error.value else "undefined"))
    case Threw => Alert(ThrewMessage)
  }

  class OrdersPage {
    var searchTerm: string
    var statusFilter: string
    var updatingOrderId: Option<string>

    constructor()
      ensures searchTerm == "" && statusFilter == "all" && updatingOrderId.None?
    {
      searchTerm := "";
      statusFilter := "all";
      updatingOrderId := None;
    }

    /** The orders the table shows. */
    function Shown(orders: seq<Order>): seq<Order>
      reads this
    {
      Filtered(orders, searchTerm, statusFilter)
    }

    /**
     * `handleStatusChange`: the order is marked as updating while the request
     * runs, and unmarked whatever the reply; the follow-up is returned.
     */
    method ChangeStatus(orderId: string, newStatus: string, reply: StatusReply) returns (next: Follow)
      modifies this
      ensures next == FollowUp(reply)
      ensures updatingOrderId.None?
      ensures searchTerm == old(searchTerm) && statusFilter == old(statusFilter)
    {
      updatingOrderId := Some(orderId);
      match reply {
        case Replied(success, error) =>
          if success {
            next := Refetch;
          } else {
            next := Alert(FailurePrefix + (if error.Some? then error.value else "undefined"));
          }
        case Threw =>
          next := Alert(ThrewMessage);
      }
      updatingOrderId := None;
    }
  }
}
