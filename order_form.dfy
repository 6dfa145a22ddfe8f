/** The order form: quantity parsing, the running total, product selection
    from the loaded list, the required-field gate and the reset after a
    placed order. */
module OrderForm {
  import opened Js
  import opened Text
  import opened Catalog

  const LoadFailedMessage := "Failed to load products"
  const RequiredMessage := "Please fill in all required fields"
  const PlacedMessage := "Order placed successfully!"
  const PlaceFailedMessage := "Failed to place order"

  /** `quantity`: the number a quantity edit stores, or the raw text of an
      edit made while no product is selected. */
  datatype Quantity = Count(n: int) | Raw(text: string)
  {
    predicate Truthy()
    {
      match this
      case Count(n) => n != 0
      case Raw(text) => text != ""
    }

    /** The number JavaScript makes of the field in `price * quantity`. */
    function Value(): Option<int>
    {
      match this
      case Count(n) => Some(n)
      case Raw(text) => ToNumber(text)
    }
  }

  /** `total_price`: empty, or the formatted product of price and quantity,
      which is "NaN" when the quantity is not a number. Amounts are cents. */
  datatype Total = NoTotal | Amount(cents: int) | NotANumber
  {
    /** A formatted number is a non-empty string, so only the empty total is falsy. */
    predicate Truthy()
    {
      !NoTotal?
    }
  }

  /** `formData`. `productId` is `''` (None) or the selected product's id. */
  datatype OrderFormData = OrderFormData(
    productId: Option<int>,
    customerName: string,
    phone: string,
    email: string,
    quantity: Quantity,
    totalPrice: Total,
    selected: Option<Product>)

  const EmptyForm := OrderFormData(None, "", "", "", Count(1), NoTotal, None)

  /** The inputs wired to `handleChange`. */
  datatype Field = QuantityField | CustomerName | PhoneField | EmailField

  /** `parseInt(value) || 1`: the parsed number, or 1 when parsing gives
      NaN or 0. */
  function ParseQuantity(value: string): (n: int)
    ensures n != 0
    ensures ParseInt(value) == Some(n) || (n == 1 && (ParseInt(value).None? || ParseInt(value) == Some(0)))
  {
    match ParseInt(value)
    case Some(v) => if v != 0 then v else 1
    case None => 1
  }

  /** A typed positive count is taken as it is. */
  lemma QuantityOfNumeral(k: nat)
    requires k > 0
    ensures ParseQuantity(Decimal(k)) == k
  {
    ParseIntReadsNumeral(k, "");
    assert Decimal(k) + "" == Decimal(k);
  }

  /** A typed zero falls back to one. */
  lemma ZeroFallsBackToOne()
    ensures ParseQuantity("0") == 1
  {
    ParseIntReadsNumeral(0, "");
    assert Decimal(0) + "" == "0";
  }

  /** Text that is not a number falls back to one. */
  lemma WordFallsBackToOne()
    ensures ParseQuantity("two") == 1
  {
    ParseIntNoDigit("two");
  }

  /** The total for a price and a quantity: the product when the quantity
      is a number, "NaN" otherwise. */
  function TotalFor(price: int, quantity: Quantity): (t: Total)
    ensures t != NoTotal
    ensures quantity.Value().Some? <==> t.Amount?
    ensures t.Amount? ==> t.cents == price * quantity.Value().value
  {
    match quantity.Value()
    case Some(n) => Amount(price * n)
    case None => NotANumber
  }

  /** What the form keeps true: the selection and `product_id` agree, and
      a selected product's total is its price times the current quantity. */
  predicate Consistent(f: OrderFormData)
  {
    && (f.selected.Some? ==> f.productId == Some(f.selected.value.id))
    && (f.selected.None? ==> f.productId.None? && f.totalPrice == NoTotal)
    && (f.selected.Some? ==> f.totalPrice == TotalFor(f.selected.value.price, f.quantity))
  }

  /** `handleChange`: with a product selected, a quantity edit stores the
      parsed count and the new total; any other edit stores the raw value
      in its own field and nothing else. */
  function EditField(f: OrderFormData, field: Field, value: string): (g: OrderFormData)
    ensures field == QuantityField && f.selected.Some? ==>
              g == f.(quantity := Count(ParseQuantity(value)), totalPrice := Amount(f.selected.value.price * ParseQuantity(value)))
    ensures field == QuantityField && f.selected.None? ==> g == f.(quantity := Raw(value))
    ensures field == CustomerName ==> g == f.(customerName := value)
    ensures field == PhoneField ==> g == f.(phone := value)
    ensures field == EmailField ==> g == f.(email := value)
    ensures Consistent(f) ==> Consistent(g)
  {
    match field
    case QuantityField =>
      if f.selected.Some? then
        var n := ParseQuantity(value);
        f.(quantity := Count(n), totalPrice := Amount(f.selected.value.price * n))
      else
        f.(quantity := Raw(value))
    case CustomerName => f.(customerName := value)
    case PhoneField => f.(phone := value)
    case EmailField => f.(email := value)
  }

  /** `p.id == productId` with the select's string value: the loose
      comparison turns the string into a number. */
  predicate IdMatches(p: Product, value: string)
  {
    ToNumber(value) == Some(p.id)
  }

  /** `products.find(...)`: the first product whose id matches. */
  function FindProduct(products: seq<Product>, value: string): (r: Option<Product>)
    ensures r.Some? ==> r.value in products && IdMatches(r.value, value)
    ensures r.None? <==> forall p :: p in products ==> !IdMatches(p, value)
    ensures r.Some? ==> exists i :: 0 <= i < |products| && products[i] == r.value &&
                          forall j :: 0 <= j < i ==> !IdMatches(products[j], value)
  {
    if products == [] then None
    else if IdMatches(products[0], value) then Some(products[0])
    else
      var r := FindProduct(products[1..], value);
      assert products == [products[0]] + products[1..];
      if r.Some? then
        var i :| 0 <= i < |products[1..]| && products[1..][i] == r.value &&
                 forall j :: 0 <= j < i ==> !IdMatches(products[1..][j], value);
        assert products[i + 1] == r.value;
        assert forall j :: 0 <= j < i + 1 ==> !IdMatches(products[j], value) by {
          forall j | 0 <= j < i + 1
            ensures !IdMatches(products[j], value)
          {
            if j > 0 {
              assert products[j] == products[1..][j - 1];
            }
          }
        }
        r
      else
        r
  }

  /** `handleProductChange`: a matching product becomes the selection with
      its id and the total for the current quantity; no match clears all
      three. */
  function SelectProduct(products: seq<Product>, f: OrderFormData, value: string): (g: OrderFormData)
    ensures g.customerName == f.customerName && g.phone == f.phone && g.email == f.email
    ensures g.quantity == f.quantity
    ensures FindProduct(products, value).Some? ==>
              g.selected == FindProduct(products, value) && g.productId == Some(g.selected.value.id)
    ensures FindProduct(products, value).None? ==>
              g.selected.None? && g.productId.None? && g.totalPrice == NoTotal
    ensures Consistent(g)
  {
    match FindProduct(products, value)
    case Some(p) => f.(productId := Some(p.id), selected := Some(p), totalPrice := TotalFor(p.price, f.quantity))
    case None => f.(productId := None, selected := None, totalPrice := NoTotal)
  }

  /** The required-field test of `handleSubmit`: product, name, phone,
      quantity and total must be truthy; the email may be empty. */
  predicate Complete(f: OrderFormData)
  {
    && f.productId.Some? && f.productId.value != 0
    && f.customerName != ""
    && f.phone != ""
    && f.quantity.Truthy()
    && f.totalPrice.Truthy()
  }

  /** The email is never required. */
  lemma EmailOptional(f: OrderFormData, email: string)
    ensures Complete(f) <==> Complete(f.(email := email))
  {
  }

  /** The body posted to the orders endpoint. */
  datatype OrderRequest = OrderRequest(
    productId: int, customerName: string, phone: string, email: string, quantity: Quantity, totalPrice: Total)

  function RequestFor(f: OrderFormData): OrderRequest
    requires f.productId.Some?
  {
    OrderRequest(f.productId.value, f.customerName, f.phone, f.email, f.quantity, f.totalPrice)
  }

  /** How the post ended: a 2xx status, or a rejection carrying the
      `error` of the error reply's body when there is one. */
  datatype OrderReply = Answered(status: int) | Rejected(error: Option<string>)

  /** The product list load on mount. */
  datatype LoadResult = Loaded(items: seq<Product>) | LoadFailed

  datatype OrderState = OrderState(
    products: seq<Product>,
    form: OrderFormData,
    error: string,
    success: string,
    loading: bool,
    sent: seq<OrderRequest>)

  const Initial := OrderState([], EmptyForm, "", "", true, [])

  function AfterLoad(s: OrderState, result: LoadResult): (t: OrderState)
    ensures !t.loading && t.form == s.form && t.success == s.success && t.sent == s.sent
    ensures result.Loaded? ==> t.products == result.items && t.error == s.error
    ensures result.LoadFailed? ==> t.products == s.products && t.error == LoadFailedMessage
  {
    match result
    case Loaded(items) => s.(products := items, loading := false)
    case LoadFailed => s.(error := LoadFailedMessage, loading := false)
  }

  /** `handleSubmit` with the reply as input. An incomplete form is refused
      before anything is sent; a 201 shows the success message and resets
      the form but keeps the product list; a failure shows the server's
      `error` or the default. */
  function SubmitOrder(s: OrderState, reply: OrderReply): (t: OrderState)
    ensures t.products == s.products && t.loading == s.loading
    ensures t.error == "" || t.success == ""
    ensures !Complete(s.form) ==> t == s.(error := RequiredMessage, success := "")
    ensures Complete(s.form) ==> t.sent == s.sent + [RequestFor(s.form)]
    ensures Complete(s.form) && reply == Answered(201) ==>
              t.form == EmptyForm && t.success == PlacedMessage && t.error == ""
    ensures Complete(s.form) && reply.Answered? && reply.status != 201 ==>
              t.form == s.form && t.success == "" && t.error == ""
    ensures Complete(s.form) && reply.Rejected? ==>
              t.form == s.form && t.success == "" && t.error == Or(reply.error, PlaceFailedMessage)
    ensures Consistent(s.form) ==> Consistent(t.form)
  {
    var cleared := s.(error := "", success := "");
    if !Complete(s.form) then cleared.(error := RequiredMessage)
    else
      var posted := cleared.(sent := s.sent + [RequestFor(s.form)]);
      match reply
      case Answered(status) =>
        if status == 201 then posted.(success := PlacedMessage, form := EmptyForm) else posted
      case Rejected(error) => posted.(error := Or(error, PlaceFailedMessage))
  }

  /** Nothing is sent unless the form was complete, and what is sent is the
      form as it stood. */
  lemma SentOnlyWhenComplete(s: OrderState, reply: OrderReply)
    ensures |SubmitOrder(s, reply).sent| == |s.sent| + (if Complete(s.form) then 1 else 0)
    ensures Complete(s.form) ==> SubmitOrder(s, reply).sent[|s.sent|].totalPrice == s.form.totalPrice
  {
  }

  /** The total posted with an order is the selected product's price times
      the quantity posted with it. */
  lemma PostedTotalIsPriceTimesQuantity(s: OrderState, reply: OrderReply)
    requires Consistent(s.form) && Complete(s.form)
    ensures s.form.selected.Some?
    ensures SubmitOrder(s, reply).sent[|s.sent|].totalPrice ==
              TotalFor(s.form.selected.value.price, SubmitOrder(s, reply).sent[|s.sent|].quantity)
  {
  }

  class OrderScreen {
    var products: seq<Product>
    var form: OrderFormData
    var error: string
    var success: string
    var loading: bool
    var sent: seq<OrderRequest>

    function State(): OrderState
      reads this
    {
      OrderState(products, form, error, success, loading, sent)
    }

    constructor ()
      ensures State() == Initial
    {
      products, form, error, success, loading, sent := [], EmptyForm, "", "", true, [];
    }

    method Load(result: LoadResult)
      modifies this
      ensures State() == AfterLoad(old(State()), result)
    {
      if result.Loaded? {
        products := result.items;
        loading := false;
      } else {
        error := LoadFailedMessage;
        loading := false;
      }
    }

    method Change(field: Field, value: string)
      modifies this
      ensures State() == old(State()).(form := EditField(old(form), field, value))
    {
      if field == QuantityField && form.selected.Some? {
        var newQuantity := ParseQuantity(value);
        var newTotal := Amount(form.selected.value.price * newQuantity);
        form := form.(quantity := Count(newQuantity), totalPrice := newTotal);
        return;
      }
      match field {
        case QuantityField => form := form.(quantity := Raw(value));
        case CustomerName => form := form.(customerName := value);
        case PhoneField => form := form.(phone := value);
        case EmailField => form := form.(email := value);
      }
    }

    method ChangeProduct(value: string)
      modifies this
      ensures State() == old(State()).(form := SelectProduct(old(products), old(form), value))
    {
      var selectedProduct := FindProduct(products, value);
      if selectedProduct.Some? {
        var totalPrice := TotalFor(selectedProduct.value.price, form.quantity);
        form := form.(productId := Some(selectedProduct.value.id), selected := selectedProduct, totalPrice := totalPrice);
      } else {
        form := form.(productId := None, selected := None, totalPrice := NoTotal);
      }
    }

    method Submit(reply: OrderReply)
      modifies this
      ensures State() == SubmitOrder(old(State()), reply)
    {
      error := "";
      success := "";
      if !Complete(form) {
        error := RequiredMessage;
        return;
      }
      sent := sent + [RequestFor(form)];
      match reply {
        case Answered(status) =>
          if status == 201 {
            success := PlacedMessage;
            form := EmptyForm;
          }
        case Rejected(message) =>
          error := Or(message, PlaceFailedMessage);
      }
    }
  }
}
