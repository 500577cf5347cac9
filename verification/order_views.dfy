/** The order request handlers of ordersapp/views.py as transitions on the
    order book: creating an order with an opening payment, entering a payment,
    editing an order through its form, and listing orders. */
module OrderViews {

  import opened Wrappers
  import opened Money
  import opened Text
  import opened Sorting
  import opened OrderModels

  /** The posted `delivery_date` after the date field's conversion. */
  datatype DateInput = Blank | Valid(date: Date) | Malformed

  /** The posted fields of the create-order form; `None` is a missing field. */
  datatype CreateRequest = CreateRequest(
    orderName: Option<string>,
    customerName: Option<string>,
    address: Option<string>,
    phoneNumber: Option<string>,
    location: Option<string>,
    deliveryDate: DateInput,
    totalAmount: Option<string>,
    receivedAmount: Option<string>)

  datatype ViewError =
    | OrderNotFound           // get_object_or_404 answers 404
    | DeliveryDateMissing     // a NULL for the NOT NULL delivery_date column
    | DeliveryDateMalformed   // the date field rejects the posted text

  /** A posted text field: missing reads as empty, then it is stripped. */
  function FieldText(raw: Option<string>): string
  {
    Strip(raw.GetOr(""))
  }

  /** `Decimal(raw.strip() or '0')`, falling back to 0 when the text does not
      parse. `parse` is the decimal constructor: `None` where it raises. */
  function AmountOrZero(raw: Option<string>, parse: string -> Option<Money>): (amount: Money)
    ensures FieldText(raw) == "" ==> amount == 0.0
    ensures FieldText(raw) != "" && parse(FieldText(raw)) == None ==> amount == 0.0
    ensures FieldText(raw) != "" && parse(FieldText(raw)).Some? ==> amount == parse(FieldText(raw)).value
  {
    var text := FieldText(raw);
    if text == "" then 0.0
    else match parse(text)
      case None => 0.0
      case Some(v) => v
  }

  /** The rows `create_order` writes: the new order under the next primary
      key, and a cash payment of the opening amount only when it is positive. */
  function OpenOrder(b: OrderBook, details: OrderDetails, total: Money, received: Money, today: Date): (r: OrderBook)
    ensures r.orders == b.orders + [Order(b.nextId, details, total, received)]
    ensures received > 0.0 ==> r.payments == b.payments + [NewPayment(b.nextId, received, today)]
    ensures received <= 0.0 ==> r.payments == b.payments
    ensures r.nextId == b.nextId + 1
  {
    var payments := if received > 0.0 then b.payments + [NewPayment(b.nextId, received, today)] else b.payments;
    OrderBook(b.orders + [Order(b.nextId, details, total, received)], payments, b.nextId + 1)
  }

  /** The stripped text fields of the create form, with the delivery date. */
  function DetailsOf(req: CreateRequest, d: Date): OrderDetails
  {
    OrderDetails(FieldText(req.orderName), FieldText(req.customerName),
      FieldText(req.address), FieldText(req.phoneNumber), FieldText(req.location), d)
  }

  /** `create_order`: stores the order with `received_amount` set to the amount
      received now (logging a payment only when it is positive); a blank or
      malformed delivery date writes nothing. */
  function CreateOrder(b: OrderBook, req: CreateRequest, parse: string -> Option<Money>, today: Date): (r: Result<OrderBook, ViewError>)
    ensures req.deliveryDate.Blank? ==> r == Err(DeliveryDateMissing)
    ensures req.deliveryDate.Malformed? ==> r == Err(DeliveryDateMalformed)
    ensures req.deliveryDate.Valid? ==>
      r == Ok(OpenOrder(b, DetailsOf(req, req.deliveryDate.date),
                AmountOrZero(req.totalAmount, parse), AmountOrZero(req.receivedAmount, parse), today))
  {
    match req.deliveryDate
    case Blank => Err(DeliveryDateMissing)
    case Malformed => Err(DeliveryDateMalformed)
    case Valid(d) =>
      Ok(OpenOrder(b, DetailsOf(req, d), AmountOrZero(req.totalAmount, parse),
        AmountOrZero(req.receivedAmount, parse), today))
  }

  predicate HasOrder(os: seq<Order>, id: nat)
  {
    exists i :: 0 <= i < |os| && os[i].id == id
  }

  /** Raises the received amount of order `id` by `amount`
      (`F('received_amount') + amount`). */
  function Credit(os: seq<Order>, id: nat, amount: Money): (r: seq<Order>)
    ensures |r| == |os|
    ensures forall i :: 0 <= i < |os| ==>
      r[i] == if os[i].id == id then os[i].(receivedAmount := os[i].receivedAmount + amount) else os[i]
  {
    seq(|os|, i requires 0 <= i < |os| =>
      if os[i].id == id then os[i].(receivedAmount := os[i].receivedAmount + amount) else os[i])
  }

  /** `payment_entry`: a positive amount appends exactly one payment and raises
      the order's received amount by exactly that amount; anything else
      (zero, negative, blank, unparseable) changes nothing. */
  function PaymentEntry(b: OrderBook, id: nat, raw: Option<string>, parse: string -> Option<Money>, today: Date): (r: Result<OrderBook, ViewError>)
    ensures r.Err? <==> !HasOrder(b.orders, id)
    ensures r.Err? ==> r.error == OrderNotFound
    ensures r.Ok? && AmountOrZero(raw, parse) <= 0.0 ==> r.value == b
    ensures r.Ok? && AmountOrZero(raw, parse) > 0.0 ==>
      var amount := AmountOrZero(raw, parse);
      && r.value.payments == b.payments + [NewPayment(id, amount, today)]
      && r.value.nextId == b.nextId
      && |r.value.orders| == |b.orders|
      && forall i :: 0 <= i < |b.orders| ==>
           && r.value.orders[i].id == b.orders[i].id
           && r.value.orders[i].details == b.orders[i].details
           && r.value.orders[i].totalAmount == b.orders[i].totalAmount
           && r.value.orders[i].receivedAmount
                == b.orders[i].receivedAmount + (if b.orders[i].id == id then amount else 0.0)
  {
    if !HasOrder(b.orders, id) then Err(OrderNotFound)
    else
      var amount := AmountOrZero(raw, parse);
      if amount > 0.0 then
        Ok(OrderBook(Credit(b.orders, id, amount), b.payments + [NewPayment(id, amount, today)], b.nextId))
      else Ok(b)
  }

  /** The fields of `OrderForm`: the order's details and its total. The
      received amount is not among them. */
  datatype OrderForm = OrderForm(details: OrderDetails, totalAmount: Money)

  /** `edit_order` on a POST: a form that failed validation (`None`) changes
      nothing; a valid one overwrites exactly the form's fields. */
  function EditOrder(b: OrderBook, id: nat, form: Option<OrderForm>): (r: Result<OrderBook, ViewError>)
    ensures r.Err? <==> !HasOrder(b.orders, id)
    ensures r.Ok? ==>
      && r.value.payments == b.payments
      && r.value.nextId == b.nextId
      && |r.value.orders| == |b.orders|
      && forall i :: 0 <= i < |b.orders| ==>
           && r.value.orders[i].id == b.orders[i].id
           && r.value.orders[i].receivedAmount == b.orders[i].receivedAmount
           && (b.orders[i].id == id && form.Some? ==>
                 r.value.orders[i].details == form.value.details
                 && r.value.orders[i].totalAmount == form.value.totalAmount)
           && (b.orders[i].id != id || form.None? ==> r.value.orders[i] == b.orders[i])
  {
    if !HasOrder(b.orders, id) then Err(OrderNotFound)
    else match form
      case None => Ok(b)
      case Some(f) =>
        var os := seq(|b.orders|, i requires 0 <= i < |b.orders| =>
          if b.orders[i].id == id then b.orders[i].(details := f.details, totalAmount := f.totalAmount)
          else b.orders[i]);
        Ok(b.(orders := os))
  }

  function OrderKey(o: Order): SortKey
  {
    SortKey(o.id, 0)
  }

  /** `list_orders`: every order, highest id first. */
  function ListOrders(b: OrderBook): (r: seq<Order>)
    ensures multiset(r) == multiset(b.orders)
    ensures forall i, j :: 0 <= i < j < |r| ==> r[i].id >= r[j].id
  {
    var r := SortDesc(b.orders, OrderKey);
    assert forall i, j :: 0 <= i < j < |r| ==> AtLeast(OrderKey(r[i]), OrderKey(r[j]));
    r
  }

  /** In a well-formed book no payment belongs to the next primary key. */
  lemma NoPaymentsForNextId(b: OrderBook)
    requires WellFormed(b)
    ensures forall i :: 0 <= i < |b.payments| ==> b.payments[i].orderId != b.nextId
  {
    forall i | 0 <= i < |b.payments|
      ensures b.payments[i].orderId != b.nextId
    {
      assert b.payments[i].orderId in IdsOf(b.orders);
      var q :| q in b.orders && q.id == b.payments[i].orderId;
      var k :| 0 <= k < |b.orders| && b.orders[k] == q;
    }
  }

  /** Opening an order with a non-negative amount keeps the ledger invariant. */
  lemma OpenOrderKeepsSynced(b: OrderBook, details: OrderDetails, total: Money, received: Money, today: Date)
    requires WellFormed(b) && Synced(b)
    requires received >= 0.0
    ensures Synced(OpenOrder(b, details, total, received, today))
  {
    var r := OpenOrder(b, details, total, received, today);
    NoPaymentsForNextId(b);
    PaidForNone(b.payments, b.nextId);
    forall i | 0 <= i < |r.orders|
      ensures r.orders[i].receivedAmount == PaidFor(r.payments, r.orders[i].id)
    {
      OpenOrderPaidFor(b, details, total, received, today, r.orders[i].id);
      if i < |b.orders| {
        assert r.orders[i] == b.orders[i];
      }
    }
  }

  /** After opening an order, the new order is paid its opening amount (when
      positive) and every other order is paid what it was paid before. */
  lemma OpenOrderPaidFor(b: OrderBook, details: OrderDetails, total: Money, received: Money, today: Date, id: nat)
    ensures PaidFor(OpenOrder(b, details, total, received, today).payments, id)
         == PaidFor(b.payments, id) + (if id == b.nextId && received > 0.0 then received else 0.0)
  {
    if received > 0.0 {
      PaidForAppend(b.payments, NewPayment(b.nextId, received, today), id);
    }
  }

  /** Opening an order keeps primary keys unique and payments attached to orders. */
  lemma OpenOrderKeepsWellFormed(b: OrderBook, details: OrderDetails, total: Money, received: Money, today: Date)
    requires WellFormed(b)
    ensures WellFormed(OpenOrder(b, details, total, received, today))
  {
    var r := OpenOrder(b, details, total, received, today);
    var o := Order(b.nextId, details, total, received);
    assert IdsOf(r.orders) == IdsOf(b.orders) + {b.nextId} by {
      assert r.orders == b.orders + [o];
    }
    forall i | 0 <= i < |r.payments|
      ensures r.payments[i].orderId in IdsOf(r.orders)
    {
      if i < |b.payments| {
        assert r.payments[i] == b.payments[i];
      }
    }
  }

  /** Creating an order with a non-negative opening payment keeps the book
      well formed and every order's received amount equal to its payments. */
  lemma CreateOrderKeepsSynced(b: OrderBook, req: CreateRequest, parse: string -> Option<Money>, today: Date)
    requires WellFormed(b) && Synced(b)
    requires AmountOrZero(req.receivedAmount, parse) >= 0.0
    requires req.deliveryDate.Valid?
    ensures WellFormed(CreateOrder(b, req, parse, today).value)
    ensures Synced(CreateOrder(b, req, parse, today).value)
  {
    var d := req.deliveryDate.date;
    var details := DetailsOf(req, d);
    var total := AmountOrZero(req.totalAmount, parse);
    var received := AmountOrZero(req.receivedAmount, parse);
    OpenOrderKeepsSynced(b, details, total, received, today);
    OpenOrderKeepsWellFormed(b, details, total, received, today);
  }

  /** A negative opening amount breaks the ledger: the new order records it
      as received, but no payment row is written for it. */
  lemma NegativeOpeningAmountBreaksSync(b: OrderBook, req: CreateRequest, parse: string -> Option<Money>, today: Date)
    requires WellFormed(b)
    requires req.deliveryDate.Valid?
    requires AmountOrZero(req.receivedAmount, parse) < 0.0
    ensures !Synced(CreateOrder(b, req, parse, today).value)
  {
    var received := AmountOrZero(req.receivedAmount, parse);
    var r := OpenOrder(b, DetailsOf(req, req.deliveryDate.date), AmountOrZero(req.totalAmount, parse), received, today);
    NoPaymentsForNextId(b);
    PaidForNone(b.payments, b.nextId);
    var k := |b.orders|;
    assert r.orders[k].receivedAmount == received && r.orders[k].id == b.nextId;
    assert r.payments == b.payments;
  }

  /** Crediting an order changes no primary key. */
  lemma CreditKeepsIds(os: seq<Order>, id: nat, amount: Money)
    ensures IdsOf(Credit(os, id, amount)) == IdsOf(os)
    ensures UniqueIds(os) ==> UniqueIds(Credit(os, id, amount))
  {
    var r := Credit(os, id, amount);
    forall x | x in IdsOf(os)
      ensures x in IdsOf(r)
    {
      var q :| q in os && q.id == x;
      var k :| 0 <= k < |os| && os[k] == q;
      assert r[k] in r;
    }
    forall x | x in IdsOf(r)
      ensures x in IdsOf(os)
    {
      var q :| q in r && q.id == x;
      var k :| 0 <= k < |r| && r[k] == q;
      assert os[k] in os;
    }
  }

  /** Crediting an existing order and recording its payment keeps the book
      well formed. */
  lemma CreditAndRecordKeepsWellFormed(b: OrderBook, id: nat, amount: Money, today: Date)
    requires WellFormed(b) && HasOrder(b.orders, id)
    ensures WellFormed(OrderBook(Credit(b.orders, id, amount), b.payments + [NewPayment(id, amount, today)], b.nextId))
  {
    var os := Credit(b.orders, id, amount);
    var ps := b.payments + [NewPayment(id, amount, today)];
    CreditKeepsIds(b.orders, id, amount);
    var k :| 0 <= k < |b.orders| && b.orders[k].id == id;
    assert b.orders[k] in b.orders;
    assert id in IdsOf(os);
    forall i | 0 <= i < |ps|
      ensures ps[i].orderId in IdsOf(os)
    {
      if i < |b.payments| {
        assert ps[i] == b.payments[i];
      }
    }
  }

  /** A payment entry keeps the book well formed. */
  lemma PaymentEntryKeepsWellFormed(b: OrderBook, id: nat, raw: Option<string>, parse: string -> Option<Money>, today: Date)
    requires WellFormed(b)
    requires HasOrder(b.orders, id)
    ensures WellFormed(PaymentEntry(b, id, raw, parse, today).value)
  {
    var amount := AmountOrZero(raw, parse);
    if amount > 0.0 {
      CreditAndRecordKeepsWellFormed(b, id, amount, today);
    }
  }

  /** A payment entry keeps every order's received amount equal to its payments. */
  lemma PaymentEntryKeepsSynced(b: OrderBook, id: nat, raw: Option<string>, parse: string -> Option<Money>, today: Date)
    requires Synced(b)
    requires HasOrder(b.orders, id)
    ensures Synced(PaymentEntry(b, id, raw, parse, today).value)
  {
    var amount := AmountOrZero(raw, parse);
    if amount > 0.0 {
      var r := PaymentEntry(b, id, raw, parse, today).value;
      var p := NewPayment(id, amount, today);
      forall i | 0 <= i < |r.orders|
        ensures r.orders[i].receivedAmount == PaidFor(r.payments, r.orders[i].id)
      {
        PaidForAppend(b.payments, p, b.orders[i].id);
      }
    }
  }

  /** One payment form submission: the order it targets and the posted amount. */
  datatype PaymentPost = PaymentPost(orderId: nat, amount: Option<string>)

  /** A session of payment submissions; one for a missing order is a 404 and
      changes nothing. */
  function ReplayPayments(b: OrderBook, posts: seq<PaymentPost>, parse: string -> Option<Money>, today: Date): OrderBook
    decreases |posts|
  {
    if posts == [] then b
    else
      var next := match PaymentEntry(b, posts[0].orderId, posts[0].amount, parse, today)
        case Ok(b') => b'
        case Err(_) => b;
      ReplayPayments(next, posts[1..], parse, today)
  }

  /** Any sequence of payment entries keeps `received_amount` equal to the
      sum of the order's payments. */
  lemma {:induction false} ReplayKeepsSynced(b: OrderBook, posts: seq<PaymentPost>, parse: string -> Option<Money>, today: Date)
    requires WellFormed(b) && Synced(b)
    ensures WellFormed(ReplayPayments(b, posts, parse, today))
    ensures Synced(ReplayPayments(b, posts, parse, today))
    decreases |posts|
  {
    if posts != [] {
      var res := PaymentEntry(b, posts[0].orderId, posts[0].amount, parse, today);
      if res.Ok? {
        PaymentEntryKeepsSynced(b, posts[0].orderId, posts[0].amount, parse, today);
        PaymentEntryKeepsWellFormed(b, posts[0].orderId, posts[0].amount, parse, today);
        ReplayKeepsSynced(res.value, posts[1..], parse, today);
      } else {
        ReplayKeepsSynced(b, posts[1..], parse, today);
      }
    }
  }

  /** The ledger invariant of the order views: starting from a consistent
      book, `create_order` with a non-negative opening amount followed by any
      sequence of `payment_entry` calls leaves every order's received amount
      equal to the sum of its payments. */
  lemma CreateThenPaymentsSynced(b: OrderBook, req: CreateRequest, posts: seq<PaymentPost>, parse: string -> Option<Money>, today: Date)
    requires WellFormed(b) && Synced(b)
    requires req.deliveryDate.Valid?
    requires AmountOrZero(req.receivedAmount, parse) >= 0.0
    ensures Synced(ReplayPayments(CreateOrder(b, req, parse, today).value, posts, parse, today))
  {
    CreateOrderKeepsSynced(b, req, parse, today);
    ReplayKeepsSynced(CreateOrder(b, req, parse, today).value, posts, parse, today);
  }

  /** Editing an order through its form cannot disturb the ledger invariant. */
  lemma EditOrderKeepsSynced(b: OrderBook, id: nat, form: Option<OrderForm>)
    requires Synced(b)
    requires EditOrder(b, id, form).Ok?
    ensures Synced(EditOrder(b, id, form).value)
  {
  }
}
