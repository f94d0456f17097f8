/** The product detail screen: the dish lookup, the quantity selector, the
    line total and the request handed to the order form. */
module ProductDetail {
  import opened Wrappers
  import opened ArrayFind
  import opened Catalog
  import OrderForm

  /** `dishes.find(p => p.id === productId)`: the first dish with that id. */
  function LookupDish(dishes: seq<Dish>, productId: int): (r: Option<Dish>)
    ensures r.None? <==> forall i :: 0 <= i < |dishes| ==> dishes[i].id != productId
    ensures r.Some? ==> exists i :: 0 <= i < |dishes| && dishes[i] == r.value && r.value.id == productId
                                    && forall j :: 0 <= j < i ==> dishes[j].id != productId
  {
    Find(dishes, (d: Dish) => d.id == productId)
  }

  /** The two buttons of the quantity selector. */
  datatype QuantityAction = Increase | Decrease

  /** One button press: increase adds one; decrease subtracts one only above 1. */
  function Step(quantity: int, action: QuantityAction): (r: int)
    ensures quantity >= 1 ==> r >= 1
    ensures action == Increase ==> r == quantity + 1
    ensures action == Decrease && quantity > 1 ==> r == quantity - 1
    ensures action == Decrease && quantity <= 1 ==> r == quantity
  {
    match action
    case Increase => quantity + 1
    case Decrease => if quantity > 1 then quantity - 1 else quantity
  }

  /** A sequence of button presses, applied in order. */
  function Run(quantity: int, actions: seq<QuantityAction>): int
    decreases |actions|
  {
    if |actions| == 0 then quantity else Run(Step(quantity, actions[0]), actions[1..])
  }

  /** From any quantity of at least 1, in particular the initial 1, no sequence
      of presses brings the quantity below 1. */
  lemma {:induction false} RunKeepsFloor(quantity: int, actions: seq<QuantityAction>)
    requires quantity >= 1
    ensures Run(quantity, actions) >= 1
    decreases |actions|
  {
    if |actions| > 0 {
      RunKeepsFloor(Step(quantity, actions[0]), actions[1..]);
    }
  }

  /** Increase followed by decrease restores any valid quantity; decrease at 1 is a no-op. */
  lemma IncreaseThenDecrease(quantity: int)
    requires quantity >= 1
    ensures Run(quantity, [Increase, Decrease]) == quantity
    ensures Run(1, [Decrease]) == 1
  {
  }

  /** `getTotalPrice`: unit price times quantity when a product is loaded, 0 otherwise. */
  function LineTotal(product: Option<Dish>, quantity: int): (r: int)
    ensures product.None? ==> r == 0
    ensures product.Some? ==> r == product.value.price * quantity
  {
    match product
    case None => 0
    case Some(d) => d.price * quantity
  }

  /** Each increase adds exactly one unit price to the line total. */
  lemma LineTotalStep(d: Dish, quantity: int)
    ensures LineTotal(Some(d), quantity + 1) == LineTotal(Some(d), quantity) + d.price
  {
  }

  /** For a non-negative price the line total does not decrease with the quantity. */
  lemma LineTotalMonotone(d: Dish, q1: int, q2: int)
    requires d.price >= 0 && q1 <= q2
    ensures LineTotal(Some(d), q1) <= LineTotal(Some(d), q2)
  {
  }

  /** The request the "Fazer Pedido" button sends: the dish extended with
      `quantity` and `totalPrice`, typed as a product. */
  function OrderRequestFor(d: Dish, quantity: int): (r: OrderRequest)
    ensures r.kind == ProductKind && r.item.dish == d
    ensures r.item.quantity == Some(quantity)
    ensures r.item.totalPrice == Some(LineTotal(Some(d), quantity))
  {
    OrderRequest(OrderItem(d, Some(quantity), Some(LineTotal(Some(d), quantity))), ProductKind)
  }

  /** The order form prices the request at exactly the line total this screen
      shows, including the zero-price case where it falls back to `price`. */
  lemma RequestPricedAtLineTotal(d: Dish, quantity: int)
    requires quantity >= 1
    ensures OrderForm.ItemPrice(OrderRequestFor(d, quantity).item, ProductKind) == d.price * quantity
    ensures OrderForm.OrderTotal(OrderRequestFor(d, quantity).item, ProductKind)
              == d.price * quantity + OrderForm.DeliveryFee()
  {
  }

  /** What the screen renders. */
  datatype DetailView = Loading | NotFound | Detail(dish: Dish, quantity: int, total: int)

  /** The state of one product detail screen. */
  class ProductDetailScreen {
    const productId: int
    var loading: bool
    var product: Option<Dish>
    var quantity: int

    ghost predicate Valid()
      reads this
    {
      quantity >= 1
    }

    constructor (productId: int)
      ensures Valid()
      ensures this.productId == productId
      ensures loading && product == None && quantity == 1
    {
      this.productId := productId;
      loading := true;
      product := None;
      quantity := 1;
    }

    /** `loadData`: on a decoded list, the product becomes the first dish with
        the route's id (None if there is none); a failed fetch leaves it as it was.
        Either way loading ends. */
    method LoadData(fetch: FetchResult<Dish>)
      requires Valid()
      modifies this`loading, this`product
      ensures Valid()
      ensures !loading
      ensures fetch.Fetched? ==> product == LookupDish(fetch.items, productId)
      ensures fetch.FetchFailed? ==> product == old(product)
    {
      loading := true;
      if fetch.Fetched? {
        product := LookupDish(fetch.items, productId);
      }
      loading := false;
    }

    /** `increaseQuantity` */
    method IncreaseQuantity()
      requires Valid()
      modifies this`quantity
      ensures Valid()
      ensures quantity == Step(old(quantity), Increase)
    {
      quantity := quantity + 1;
    }

    /** `decreaseQuantity`: refused at 1. */
    method DecreaseQuantity()
      requires Valid()
      modifies this`quantity
      ensures Valid()
      ensures quantity == Step(old(quantity), Decrease)
    {
      if quantity > 1 {
        quantity := quantity - 1;
      }
    }

    /** The screen shows a loading text, then either "Produto não encontrado"
        or the dish with its quantity and line total. */
    function View(): (v: DetailView)
      reads this
      ensures v == Loading <==> loading
      ensures v == NotFound <==> !loading && product.None?
      ensures v.Detail? ==> product == Some(v.dish) && v.quantity == quantity
                            && v.total == v.dish.price * quantity
    {
      if loading then Loading
      else if product.None? then NotFound
      else Detail(product.value, quantity, LineTotal(product, quantity))
    }

    /** The "Fazer Pedido" button, shown only once a product is displayed. */
    method PlaceOrder() returns (request: OrderRequest)
      requires Valid() && View().Detail?
      ensures request.kind == ProductKind && request.item.dish == product.value
      ensures request.item.quantity == Some(quantity)
      ensures request.item.totalPrice == Some(View().total)
      ensures OrderForm.ItemPrice(request.item, request.kind) == View().total
    {
      request := OrderRequestFor(product.value, quantity);
      RequestPricedAtLineTotal(product.value, quantity);
    }
  }
}
