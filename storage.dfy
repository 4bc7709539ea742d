/**
 * The browser's `localStorage`, the only state the storefront's pages share.
 * Values are kept as the records they were serialised from; a `Text` under a key
 * that is read back as JSON stands for text that `JSON.parse` rejects.
 */
module Storage {
  import opened Wrappers
  import opened Records

  datatype Item =
    | Text(text: string)
    | UserJson(user: User)
    | CheckoutJson(checkout: StagedCheckout)
    | PaymentJson(payment: StagedPayment)

  /** `localStorage.getItem(key)`: the stored item, or None (`null`). */
  function GetItem(items: map<string, Item>, key: string): Option<Item> {
    if key in items then Some(items[key]) else None
  }

  class LocalStorage {
    var items: map<string, Item>

    constructor ()
      ensures items == map[]
    {
      items := map[];
    }

    method SetItem(key: string, value: Item)
      modifies this
      ensures items == old(items)[key := value]
    {
      items := items[key := value];
    }

    method RemoveItem(key: string)
      modifies this
      ensures items == old(items) - {key}
    {
      items := items - {key};
    }
  }
}
