/** The records the storefront reads (the `Product`, `Order` and `User` types). */
module Catalog {
  import opened Wrappers

  datatype Product = Product(
    id: string,
    name: string,
    category: string,
    price: real,
    originalPrice: Option<real>,
    discount: real,
    stock: int)

  /** An order as the admin pages read it; `shippingName` is `shipping_address?.name`. */
  datatype Order = Order(id: string, status: string, total: real, shippingName: Option<string>)

  datatype User = User(id: string, name: string, email: string, role: Option<string>)

  /** A slot of the browser's `localStorage` holding a JSON document. */
  datatype Slot<T> = Missing | Unparseable | Stored(value: T)
}
