/** The order form screen: pricing of the received item, the editable form
    state and the submit handler. */
module OrderForm {
  import opened Wrappers
  import opened Catalog
  import opened JsString

  /** `getDeliveryFee`: the fixed delivery fee, 5.00, in cents. */
  function DeliveryFee(): (fee: int)
    ensures fee == 500
  {
    500
  }

  /** JavaScript truthiness of an optional number: present and non-zero. */
  predicate Truthy(n: Option<int>)
  {
    n.Some? && n.value != 0
  }

  /** `getItemPrice`: a product carrying a truthy `totalPrice` is priced at it;
      otherwise the item's `price` if truthy, otherwise 0. */
  function ItemPrice(item: OrderItem, kind: ItemKind): (r: int)
    ensures kind == ProductKind && Truthy(item.totalPrice) ==> r == item.totalPrice.value
    ensures !(kind == ProductKind && Truthy(item.totalPrice)) ==> r == item.dish.price
  {
    if kind == ProductKind && Truthy(item.totalPrice) then item.totalPrice.value
    else if item.dish.price != 0 then item.dish.price
    else 0
  }

  /** `getTotalPrice`: the item price plus the delivery fee. */
  function OrderTotal(item: OrderItem, kind: ItemKind): (r: int)
    ensures r - DeliveryFee() == ItemPrice(item, kind)
    ensures ItemPrice(item, kind) >= 0 ==> r >= DeliveryFee()
  {
    ItemPrice(item, kind) + DeliveryFee()
  }

  /** A dish sent straight from the restaurant menu (no `totalPrice`) is
      priced at its unit price, that is, as a quantity of one. */
  lemma MenuItemPricedAtUnitPrice(d: Dish)
    ensures ItemPrice(OrderItem(d, None, None), ProductKind) == d.price
    ensures OrderTotal(OrderItem(d, None, None), ProductKind) == d.price + DeliveryFee()
  {
  }

  /** The caption shown for the stored payment method: anything other than
      "credit" or "debit" reads as cash. */
  function PaymentLabel(stored: string): (r: string)
    ensures r == "Cartão de Crédito" <==> stored == "credit"
    ensures r == "Cartão de Débito" <==> stored == "debit"
    ensures r == "Dinheiro" <==> stored != "credit" && stored != "debit"
  {
    if stored == "credit" then "Cartão de Crédito"
    else if stored == "debit" then "Cartão de Débito"
    else "Dinheiro"
  }

  /** The three buttons of the payment section. */
  datatype PaymentChoice = Credit | Debit | Cash

  /** The string each payment button stores. */
  function PaymentCode(c: PaymentChoice): (r: string)
    ensures r in {"credit", "debit", "cash"}
  {
    match c
    case Credit => "credit"
    case Debit => "debit"
    case Cash => "cash"
  }

  /** The caption of each button, as shown in the confirmation, is the button's own caption. */
  lemma PaymentChoiceLabels()
    ensures PaymentLabel(PaymentCode(Credit)) == "Cartão de Crédito"
    ensures PaymentLabel(PaymentCode(Debit)) == "Cartão de Débito"
    ensures PaymentLabel(PaymentCode(Cash)) == "Dinheiro"
  {
  }

  /** A blocking alert: title and message. */
  datatype Alert = Alert(title: string, message: string)

  /** Outcome of `handleSubmitOrder`: an error alert and no navigation, or the
      confirmation alert whose OK action navigates to the home screen. */
  datatype SubmitResult = Rejected(alert: Alert) | Confirmed(alert: Alert)

  const MissingAddressAlert: Alert := Alert("Erro", "Por favor, informe o endereço de entrega.")

  const ConfirmationTitle: string := "Pedido Realizado!"

  const ConfirmationHead: string := "Seu pedido foi enviado com sucesso!\n\nItem: "
  const AddressCaption: string := "\nEndereço: "
  const PaymentCaption: string := "\nPagamento: "

  /** The body of the confirmation alert. */
  function ConfirmationText(name: string, address: string, caption: string): string
  {
    ConfirmationHead + name + AddressCaption + address + PaymentCaption + caption
  }

  /** The confirmation names the item, the address exactly as typed (untrimmed)
      and the payment caption, each at its own fixed position. */
  lemma ConfirmationMentions(name: string, address: string, caption: string)
    ensures OccursAt(ConfirmationText(name, address, caption), name, |ConfirmationHead|)
    ensures OccursAt(ConfirmationText(name, address, caption), address,
                     |ConfirmationHead| + |name| + |AddressCaption|)
    ensures Contains(ConfirmationText(name, address, caption), caption)
  {
    var text := ConfirmationText(name, address, caption);
    var a := |ConfirmationHead|;
    var b := a + |name| + |AddressCaption|;
    var c := b + |address| + |PaymentCaption|;
    assert text[a..a + |name|] == name;
    assert text[b..b + |address|] == address;
    assert text[c..c + |caption|] == caption;
    assert OccursAt(text, caption, c);
  }

  /** The form state of one order form screen. */
  class OrderFormScreen {
    const item: OrderItem
    const kind: ItemKind
    var deliveryAddress: string
    var paymentMethod: string
    var observations: string

    /** Only the three button values are ever stored as payment method. */
    ghost predicate Valid()
      reads this
    {
      paymentMethod in {"credit", "debit", "cash"}
    }

    constructor (item: OrderItem, kind: ItemKind)
      ensures Valid()
      ensures this.item == item && this.kind == kind
      ensures deliveryAddress == "" && paymentMethod == "credit" && observations == ""
    {
      this.item := item;
      this.kind := kind;
      deliveryAddress := "";
      paymentMethod := "credit";
      observations := "";
    }

    /** The address text field's `onChangeText`. */
    method SetDeliveryAddress(text: string)
      requires Valid()
      modifies this`deliveryAddress
      ensures Valid()
      ensures deliveryAddress == text
    {
      deliveryAddress := text;
    }

    /** A resolved location seeds the address with its street, or with a
        placeholder when the geocoder returned no street. */
    method ApplyResolvedStreet(street: Option<string>)
      requires Valid()
      modifies this`deliveryAddress
      ensures Valid()
      ensures street.Some? && street.value != "" ==> deliveryAddress == street.value
      ensures !(street.Some? && street.value != "") ==> deliveryAddress == "Endereço não encontrado"
    {
      if street.Some? && street.value != "" {
        deliveryAddress := street.value;
      } else {
        deliveryAddress := "Endereço não encontrado";
      }
    }

    /** One of the payment buttons. */
    method SelectPayment(choice: PaymentChoice)
      requires Valid()
      modifies this`paymentMethod
      ensures Valid()
      ensures paymentMethod == PaymentCode(choice)
    {
      paymentMethod := PaymentCode(choice);
    }

    /** The notes text field's `onChangeText`; the fields the submit handler
        and the pricing read are left as they were. */
    method SetObservations(text: string)
      requires Valid()
      modifies this`observations
      ensures Valid()
      ensures observations == text
      ensures deliveryAddress == old(deliveryAddress) && paymentMethod == old(paymentMethod)
    {
      observations := text;
    }

    /** `handleSubmitOrder`: rejects a blank address (after trim) with an error
        alert; otherwise confirms with the item name, the address as typed and
        the payment caption. Reads neither the notes nor the loaded user. */
    method HandleSubmitOrder() returns (r: SubmitResult)
      ensures r.Rejected? <==> AllWhitespace(deliveryAddress)
      ensures r.Rejected? ==> r.alert == MissingAddressAlert
      ensures r.Confirmed? ==>
        r.alert == Alert(ConfirmationTitle,
                         ConfirmationText(item.dish.name, deliveryAddress, PaymentLabel(paymentMethod)))
    {
      if Trim(deliveryAddress) == "" {
        return Rejected(MissingAddressAlert);
      }
      var caption := PaymentLabel(paymentMethod);
      r := Confirmed(Alert(ConfirmationTitle, ConfirmationText(item.dish.name, deliveryAddress, caption)));
    }
  }
}
