/** The records the screens exchange: a dish from the catalog API and the
    parameters the order form is opened with. Prices are integer cents. */
module Catalog {
  import opened Wrappers

  /** A dish as decoded from `GET /foods`. `rating` is kept in tenths of a star
      and `time` is a display string; neither takes part in any computation. */
  datatype Dish = Dish(
    id: int,
    name: string,
    rating: int,
    description: string,
    image: string,
    price: int,
    time: string)

  /** The `type` route parameter of the order form. */
  datatype ItemKind = RestaurantKind | ProductKind

  /** The `item` route parameter of the order form: a dish, optionally extended
      with the `quantity` and `totalPrice` fields the product screen adds. */
  datatype OrderItem = OrderItem(dish: Dish, quantity: Option<int>, totalPrice: Option<int>)

  /** The route parameters `{ item, type }` of the order form. */
  datatype OrderRequest = OrderRequest(item: OrderItem, kind: ItemKind)
}
