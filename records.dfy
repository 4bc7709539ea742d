/**
 * The records the storefront receives from its backend and hands between pages.
 * Timestamps are whole milliseconds; prices are exact numbers.
 */
module Records {
  import opened Wrappers

  /** The signed-in user kept under `user`; `roleId` is `user.role.id`, None when `role` or its `id` is missing. */
  datatype User = User(id: int, name: string, email: string, roleId: Option<int>)

  /** One element of `checkoutData.reservations`: `reservation.id` and `reservation.expires_at`. */
  datatype Reservation = Reservation(reservationId: int, expiresAt: int)

  /** One element of `checkoutData.tickets`: a ticket type and the quantity asked for. */
  datatype CheckoutTicket = CheckoutTicket(id: int, name: string, price: real, quantity: int)

  /** The staged `checkoutData` record handed from ticket selection to the checkout page. */
  datatype StagedCheckout = StagedCheckout(
    concertId: nat,
    concertTitle: string,
    concertDate: int,
    venue: string,
    tickets: seq<CheckoutTicket>,
    total: real,
    reservations: seq<Reservation>,
    expiresAt: int)

  /** The staged `paymentData` record: `{ ...checkoutData, orderId }`. */
  datatype StagedPayment = StagedPayment(checkout: StagedCheckout, orderId: Option<int>)

  /** An order's `status`: an object with a `descripcion`, a bare string, or absent. */
  datatype OrderStatus = StatusRecord(descripcion: Option<string>) | StatusText(text: string) | NoStatus

  /** An order as listed to administrators; a missing `total` is None. */
  datatype Order = Order(id: int, status: OrderStatus, total: Option<real>)

  /** A concert as listed; `statusDescription` is `concert.status?.descripcion`. */
  datatype Concert = Concert(id: int, title: string, statusDescription: Option<string>)

  /** A concert as loaded for editing; `venueIds` are the ids of `concert.venues` in order. */
  datatype ConcertDetails = ConcertDetails(title: string, description: string, date: int, statusId: int, venueIds: seq<int>)

  /** A ticket type of a concert; `sectionId` is None when `section_id` is null. */
  datatype TicketType = TicketType(id: int, name: string, price: real, available: int, sectionId: Option<int>)

  /** A section of a venue. */
  datatype Section = Section(id: int, name: string, capacity: int)

  /** A venue as loaded for editing. */
  datatype Venue = Venue(name: string, address: string, city: string, country: string)

  /**
   * A list endpoint's reply: either the array itself, or an object whose list field
   * (`orders`, `concerts`, `sections`, …) may be missing.
   */
  datatype ListResponse<T> = ArrayBody(items: seq<T>) | ObjectBody(list: Option<seq<T>>)

  /** `Array.isArray(data) ? data : data.<field> || []` */
  function Listed<T>(response: ListResponse<T>): seq<T> {
    match response
    case ArrayBody(items) => items
    case ObjectBody(Some(items)) => items
    case ObjectBody(None) => []
  }
}
