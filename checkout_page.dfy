/**
 * The checkout page: it picks up the staged `checkoutData` record, drops it when the
 * reservation has run out or is cancelled, and on "proceed" creates the order and hands
 * a `paymentData` record on to the payment page.
 */
module Checkout {
  import opened Wrappers
  import opened Text
  import opened Records
  import opened Storage
  import opened ApiService
  import opened UserService
  import AppRoutes
  import Payment

  /** The staged checkout record in storage, if one can be read. */
  function StoredCheckout(items: map<string, Item>): (c: Option<StagedCheckout>)
    ensures c.Some? <==> "checkoutData" in items && items["checkoutData"].CheckoutJson?
    ensures c.Some? ==> items["checkoutData"] == CheckoutJson(c.value)
  {
    match GetItem(items, "checkoutData")
    case Some(CheckoutJson(c)) => Some(c)
    case _ => None
  }

  /** `/concerts/${concertId}` */
  function ConcertPath(concertId: nat): string {
    "/concerts/" + NatToString(concertId)
  }

  /** The concert page a checkout returns to is the concert detail route, for every signed-in user. */
  lemma ConcertPathShowsDetail(concertId: nat, admin: bool)
    ensures AppRoutes.Segments(ConcertPath(concertId)) == ["concerts", NatToString(concertId)]
    ensures AppRoutes.Resolve(AppRoutes.Segments(ConcertPath(concertId)), true, admin) == AppRoutes.Show(AppRoutes.ConcertDetailPage)
  {
    var id := NatToString(concertId);
    assert '/' !in id by {
      assert forall i :: 0 <= i < |id| ==> IsDigit(id[i]);
    }
    AppRoutes.SegmentsOfJoin(["concerts", id]);
    assert AppRoutes.Join(["concerts", id]) == ConcertPath(concertId) by {
      assert AppRoutes.Join([id]) == "/" + id + AppRoutes.Join([]);
    }
    AppRoutes.ConcertPagesForEveryUser(id, admin);
  }

  /** The order request: `reservation_id`, `ticket_type_id` and `quantity`. */
  datatype OrderPayload = OrderPayload(reservationId: int, ticketTypeId: int, quantity: int)

  /** The order endpoint's reply: `order.order?.id` and `order.id`. */
  datatype CreatedOrder = CreatedOrder(nestedId: Option<int>, id: Option<int>)

  /** `order.order?.id || order.id`: the nested id unless it is missing or 0 (falsy). */
  function OrderIdOf(order: CreatedOrder): (orderId: Option<int>)
    ensures order.nestedId.Some? && order.nestedId.value != 0 ==> orderId == order.nestedId
    ensures order.nestedId.None? || order.nestedId == Some(0) ==> orderId == order.id
  {
    if order.nestedId.Some? && order.nestedId.value != 0 then order.nestedId else order.id
  }

  /** The payload built from the first reservation and the first ticket line. */
  function FirstLinePayload(c: StagedCheckout): OrderPayload
    requires c.reservations != [] && c.tickets != []
  {
    OrderPayload(c.reservations[0].reservationId, c.tickets[0].id, c.tickets[0].quantity)
  }

  /** Lines beyond the first never reach the payload. */
  lemma PayloadIgnoresLaterLines(c: StagedCheckout, d: StagedCheckout)
    requires c.reservations != [] && c.tickets != [] && d.reservations != [] && d.tickets != []
    requires c.reservations[0] == d.reservations[0] && c.tickets[0] == d.tickets[0]
    ensures FirstLinePayload(c) == FirstLinePayload(d)
  {
  }

  /** The `payment` record written on success: the checkout record plus the order id. */
  function HandOff(items: map<string, Item>, c: StagedCheckout, order: CreatedOrder): map<string, Item> {
    items["paymentData" := PaymentJson(StagedPayment(c, OrderIdOf(order)))] - {"checkoutData"}
  }

  /** After the hand-off the payment page finds exactly this checkout and order id, and no checkout remains. */
  lemma HandOffReachesPaymentPage(items: map<string, Item>, c: StagedCheckout, order: CreatedOrder)
    ensures Payment.StoredPayment(HandOff(items, c, order)) == Some(StagedPayment(c, OrderIdOf(order)))
    ensures StoredCheckout(HandOff(items, c, order)).None?
    ensures forall k :: k != "paymentData" && k != "checkoutData" ==> GetItem(HandOff(items, c, order), k) == GetItem(items, k)
  {
  }

  /** The hand-off navigates to `/payment`, which is not a registered route: a signed-in user lands on `/concerts`. */
  lemma PaymentPathFallsBack(admin: bool)
    ensures AppRoutes.Resolve(AppRoutes.Segments("/payment"), true, admin) == AppRoutes.Redirect("/concerts")
  {
    AppRoutes.PaymentSegments();
    AppRoutes.SingleSegmentFallsBack("payment", admin);
  }

  const OrderFallback := "Error al procesar la orden. Intenta nuevamente."
  /** The TypeError messages (in V8's wording) for an empty `reservations` or `tickets` list. */
  const NoReservationMessage := "Cannot read properties of undefined (reading 'reservation')"
  const NoTicketMessage := "Cannot read properties of undefined (reading 'id')"
  const ExpiredMessage := "Tu reserva ha expirado. Por favor, vuelve a seleccionar tus tickets."

  class CheckoutPage {
    const store: LocalStorage
    var checkoutData: Option<StagedCheckout>
    var loading: bool
    var processing: bool
    var error: string
    var navigatedTo: Option<string>

    constructor (store: LocalStorage)
      ensures this.store == store
      ensures checkoutData.None? && loading && !processing && error == "" && navigatedTo.None?
    {
      this.store := store;
      checkoutData := None;
      loading := true;
      processing := false;
      error := "";
      navigatedTo := None;
    }

    /** `loadCheckoutData()` at clock reading `now`. Returns the alert shown, if any. */
    method LoadCheckoutData(now: int) returns (alert: Option<string>)
      modifies this`checkoutData, this`loading, this`navigatedTo, store
      ensures !loading
      ensures alert.Some? <==> StoredCheckout(old(store.items)).Some? && StoredCheckout(old(store.items)).value.expiresAt <= now
      ensures alert.Some? ==> alert.value == ExpiredMessage
      ensures StoredCheckout(old(store.items)).None? ==>
        navigatedTo == Some("/concerts") && checkoutData == old(checkoutData) && store.items == old(store.items)
      ensures StoredCheckout(old(store.items)).Some? && StoredCheckout(old(store.items)).value.expiresAt <= now ==>
        var c := StoredCheckout(old(store.items)).value;
        navigatedTo == Some(ConcertPath(c.concertId)) && checkoutData == old(checkoutData) &&
        store.items == old(store.items) - {"checkoutData"}
      ensures StoredCheckout(old(store.items)).Some? && StoredCheckout(old(store.items)).value.expiresAt > now ==>
        checkoutData == StoredCheckout(old(store.items)) && navigatedTo == old(navigatedTo) &&
        store.items == old(store.items)
    {
      alert := None;
      var data := GetItem(store.items, "checkoutData");
      if data.None? || data == Some(Text("")) {
        navigatedTo := Some("/concerts");
      } else if data.value.CheckoutJson? {
        var parsed := data.value.checkout;
        if parsed.expiresAt <= now {
          alert := Some(ExpiredMessage);
          store.RemoveItem("checkoutData");
          navigatedTo := Some(ConcertPath(parsed.concertId));
        } else {
          checkoutData := Some(parsed);
        }
      } else {
        // JSON.parse throws
        navigatedTo := Some("/concerts");
      }
      loading := false;
    }

    /**
     * `handleExpire`, which the countdown calls; it is mounted only once a checkout is loaded.
     * Returns the alert it shows.
     */
    method HandleExpire() returns (alert: string)
      requires checkoutData.Some?
      modifies this`navigatedTo, store
      ensures alert == ExpiredMessage
      ensures store.items == old(store.items) - {"checkoutData"}
      ensures navigatedTo == Some(ConcertPath(checkoutData.value.concertId))
    {
      alert := ExpiredMessage;
      store.RemoveItem("checkoutData");
      navigatedTo := Some(ConcertPath(checkoutData.value.concertId));
    }

    /** `handleCancelReservation`, with the answer to its confirmation dialog. */
    method HandleCancelReservation(confirmed: bool)
      requires checkoutData.Some?
      modifies this`navigatedTo, store
      ensures confirmed ==>
        store.items == old(store.items) - {"checkoutData"} &&
        navigatedTo == Some(ConcertPath(checkoutData.value.concertId))
      ensures !confirmed ==> store.items == old(store.items) && navigatedTo == old(navigatedTo)
    {
      if confirmed {
        store.RemoveItem("checkoutData");
        navigatedTo := Some(ConcertPath(checkoutData.value.concertId));
      }
    }

    /**
     * `handleProceedToPayment`, given the settled reply of the order endpoint. Returns the
     * payload sent to it, None when no order was requested.
     */
    method HandleProceedToPayment(reply: Result<CreatedOrder, ErrorBody>) returns (sent: Option<OrderPayload>)
      requires checkoutData.Some?
      modifies this`processing, this`error, this`navigatedTo, store
      ensures !processing
      ensures GetStoredUser(old(store.items)).None? ==>
        sent.None? && error == "" && navigatedTo == Some("/login") && store.items == old(store.items)
      ensures GetStoredUser(old(store.items)).Some? && checkoutData.value.reservations == [] ==>
        sent.None? && error == NoReservationMessage && navigatedTo == old(navigatedTo) && store.items == old(store.items)
      ensures GetStoredUser(old(store.items)).Some? && checkoutData.value.reservations != [] && checkoutData.value.tickets == [] ==>
        sent.None? && error == NoTicketMessage && navigatedTo == old(navigatedTo) && store.items == old(store.items)
      ensures GetStoredUser(old(store.items)).Some? && checkoutData.value.reservations != [] && checkoutData.value.tickets != [] ==>
        sent == Some(FirstLinePayload(checkoutData.value)) &&
        (reply.Success? ==>
          error == "" && navigatedTo == Some("/payment") &&
          store.items == HandOff(old(store.items), checkoutData.value, reply.value)) &&
        (reply.Failure? ==>
          error == MessageOr(reply.error, OrderFallback) && navigatedTo == old(navigatedTo) &&
          store.items == old(store.items))
    {
      processing := true;
      error := "";
      sent := None;
      var user := GetStoredUser(store.items);
      if user.None? {
        navigatedTo := Some("/login");
      } else if checkoutData.value.reservations == [] {
        error := NoReservationMessage;
      } else if checkoutData.value.tickets == [] {
        error := NoTicketMessage;
      } else {
        var c := checkoutData.value;
        sent := Some(OrderPayload(c.reservations[0].reservationId, c.tickets[0].id, c.tickets[0].quantity));
        match reply {
          case Success(order) =>
            store.SetItem("paymentData", PaymentJson(StagedPayment(c, OrderIdOf(order))));
            store.RemoveItem("checkoutData");
            navigatedTo := Some("/payment");
          case Failure(e) =>
            error := MessageOr(e, OrderFallback);
        }
      }
      processing := false;
    }
  }
}
