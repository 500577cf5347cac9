/** Catering orders and the payments received against them (ordersapp/models.py).

    An order carries a denormalised `receivedAmount`; the payment rows are the
    ledger it must agree with. Deleting an order deletes its payments. */
module OrderModels {

  import opened Money

  /** A calendar day, as its proleptic ordinal (`date.toordinal()`). */
  type Date = int

  datatype PaymentMethod = Cash | Bank | Card

  /** The descriptive fields of an order, all of them editable. */
  datatype OrderDetails = OrderDetails(
    orderName: string,
    customerName: string,
    address: string,
    phoneNumber: string,
    location: string,
    deliveryDate: Date)

  datatype Order = Order(id: nat, details: OrderDetails, totalAmount: Money, receivedAmount: Money)

  datatype Payment = Payment(orderId: nat, amount: Money, paymentDate: Date, paymentMethod: PaymentMethod)

  /** The order table and the payment table. `nextId` is the next primary key
      the database will hand out; keys are never reused. */
  datatype OrderBook = OrderBook(orders: seq<Order>, payments: seq<Payment>, nextId: nat)

  /** `Order.due_amount`: what is still owed. It is not clamped at zero. */
  function DueAmount(o: Order): (due: Money)
    ensures due + o.receivedAmount == o.totalAmount
    ensures due < 0.0 <==> o.receivedAmount > o.totalAmount
  {
    o.totalAmount - o.receivedAmount
  }

  /** An order created without a received amount: the column default is 0. */
  function NewOrder(id: nat, details: OrderDetails, totalAmount: Money): (o: Order)
    ensures DueAmount(o) == totalAmount
    ensures o.id == id && o.details == details
  {
    Order(id, details, totalAmount, 0.0)
  }

  /** A payment row created with only its order and amount: the method
      defaults to cash and the date to the current day. */
  function NewPayment(orderId: nat, amount: Money, today: Date): (p: Payment)
    ensures p.paymentMethod == Cash && p.paymentDate == today
    ensures p.orderId == orderId && p.amount == amount
  {
    Payment(orderId, amount, today, Cash)
  }

  function AmountOf(p: Payment): Money
  {
    p.amount
  }

  /** The payments recorded against order `id` (`order.payments.all()`). */
  function PaymentsOf(ps: seq<Payment>, id: nat): (r: seq<Payment>)
    ensures forall p :: p in r <==> p in ps && p.orderId == id
    ensures forall p :: multiset(r)[p] == if p.orderId == id then multiset(ps)[p] else 0
    ensures |r| <= |ps|
  {
    if ps == [] then []
    else
      assert ps == [ps[0]] + ps[1..];
      if ps[0].orderId == id then [ps[0]] + PaymentsOf(ps[1..], id)
      else PaymentsOf(ps[1..], id)
  }

  /** Total of the payments recorded against order `id`. */
  function PaidFor(ps: seq<Payment>, id: nat): Money
  {
    SumOf(PaymentsOf(ps, id), AmountOf)
  }

  lemma {:induction false} PaymentsOfAppend(ps: seq<Payment>, qs: seq<Payment>, id: nat)
    ensures PaymentsOf(ps + qs, id) == PaymentsOf(ps, id) + PaymentsOf(qs, id)
    decreases |ps|
  {
    if ps == [] {
      assert ps + qs == qs;
    } else {
      assert (ps + qs)[1..] == ps[1..] + qs;
      PaymentsOfAppend(ps[1..], qs, id);
    }
  }

  /** Appending one payment raises the paid total of its own order by its
      amount and leaves every other order's paid total alone. */
  lemma PaidForAppend(ps: seq<Payment>, p: Payment, id: nat)
    ensures PaidFor(ps + [p], id) == PaidFor(ps, id) + (if p.orderId == id then p.amount else 0.0)
  {
    PaymentsOfAppend(ps, [p], id);
    SumOfAppend(PaymentsOf(ps, id), PaymentsOf([p], id), AmountOf);
  }

  /** An order nobody has paid against has a paid total of zero. */
  lemma {:induction false} PaidForNone(ps: seq<Payment>, id: nat)
    requires forall i :: 0 <= i < |ps| ==> ps[i].orderId != id
    ensures PaidFor(ps, id) == 0.0
  {
    if ps != [] {
      PaidForNone(ps[1..], id);
    }
  }

  function IdsOf(os: seq<Order>): set<nat>
  {
    set o | o in os :: o.id
  }

  predicate UniqueIds(os: seq<Order>)
  {
    forall i, j :: 0 <= i < j < |os| ==> os[i].id != os[j].id
  }

  /** Primary keys are unique and below `nextId`, and every payment belongs to
      an existing order (the foreign key). */
  predicate WellFormed(b: OrderBook)
  {
    && UniqueIds(b.orders)
    && (forall i :: 0 <= i < |b.orders| ==> b.orders[i].id < b.nextId)
    && (forall i :: 0 <= i < |b.payments| ==> b.payments[i].orderId in IdsOf(b.orders))
  }

  /** The ledger invariant: every order's `receivedAmount` is the sum of its payments. */
  predicate Synced(b: OrderBook)
  {
    forall i :: 0 <= i < |b.orders| ==> b.orders[i].receivedAmount == PaidFor(b.payments, b.orders[i].id)
  }

  function WithoutOrder(os: seq<Order>, id: nat): (r: seq<Order>)
    ensures forall o :: o in r <==> o in os && o.id != id
    ensures forall o :: multiset(r)[o] == if o.id != id then multiset(os)[o] else 0
    ensures |r| <= |os|
  {
    if os == [] then []
    else
      assert os == [os[0]] + os[1..];
      if os[0].id == id then WithoutOrder(os[1..], id)
      else [os[0]] + WithoutOrder(os[1..], id)
  }

  function WithoutPaymentsOf(ps: seq<Payment>, id: nat): (r: seq<Payment>)
    ensures forall p :: p in r <==> p in ps && p.orderId != id
    ensures forall p :: multiset(r)[p] == if p.orderId != id then multiset(ps)[p] else 0
  {
    if ps == [] then []
    else
      assert ps == [ps[0]] + ps[1..];
      if ps[0].orderId == id then WithoutPaymentsOf(ps[1..], id)
      else [ps[0]] + WithoutPaymentsOf(ps[1..], id)
  }

  lemma {:induction false} WithoutPaymentsOfKeepsOthers(ps: seq<Payment>, id: nat, other: nat)
    requires other != id
    ensures PaymentsOf(WithoutPaymentsOf(ps, id), other) == PaymentsOf(ps, other)
  {
    if ps != [] {
      WithoutPaymentsOfKeepsOthers(ps[1..], id, other);
    }
  }

  /** `order.delete()`: the order goes, and with it (cascade) every payment
      recorded against it; nothing else changes. */
  function DeleteOrder(b: OrderBook, id: nat): (r: OrderBook)
    ensures forall p :: p in r.payments <==> p in b.payments && p.orderId != id
    ensures forall p :: multiset(r.payments)[p] == if p.orderId != id then multiset(b.payments)[p] else 0
    ensures forall o :: o in r.orders <==> o in b.orders && o.id != id
    ensures forall o :: multiset(r.orders)[o] == if o.id != id then multiset(b.orders)[o] else 0
    ensures r.nextId == b.nextId
  {
    OrderBook(WithoutOrder(b.orders, id), WithoutPaymentsOf(b.payments, id), b.nextId)
  }

  /** Deleting an order keeps the ledger invariant for the orders that remain. */
  lemma DeleteOrderKeepsSynced(b: OrderBook, id: nat)
    requires Synced(b)
    ensures Synced(DeleteOrder(b, id))
  {
    var r := DeleteOrder(b, id);
    forall i | 0 <= i < |r.orders|
      ensures r.orders[i].receivedAmount == PaidFor(r.payments, r.orders[i].id)
    {
      var o := r.orders[i];
      assert o in b.orders;
      var k :| 0 <= k < |b.orders| && b.orders[k] == o;
      WithoutPaymentsOfKeepsOthers(b.payments, id, o.id);
    }
  }

  /** Deleting an order keeps the book well formed. */
  lemma DeleteOrderKeepsWellFormed(b: OrderBook, id: nat)
    requires WellFormed(b)
    ensures WellFormed(DeleteOrder(b, id))
  {
    WithoutOrderUnique(b.orders, id);
    RemainingPaymentsAttached(b.orders, b.payments, id);
  }

  /** Every payment kept after deleting order `id` still belongs to a kept order. */
  lemma RemainingPaymentsAttached(os: seq<Order>, ps: seq<Payment>, id: nat)
    requires forall i :: 0 <= i < |ps| ==> ps[i].orderId in IdsOf(os)
    ensures forall i :: 0 <= i < |WithoutPaymentsOf(ps, id)| ==>
      WithoutPaymentsOf(ps, id)[i].orderId in IdsOf(WithoutOrder(os, id))
  {
    var rs := WithoutPaymentsOf(ps, id);
    var ro := WithoutOrder(os, id);
    forall i | 0 <= i < |rs|
      ensures rs[i].orderId in IdsOf(ro)
    {
      var p := rs[i];
      assert p in ps && p.orderId != id;
      var k :| 0 <= k < |ps| && ps[k] == p;
      var o :| o in os && o.id == p.orderId;
      assert o in ro;
    }
  }

  lemma {:induction false} WithoutOrderUnique(os: seq<Order>, id: nat)
    requires UniqueIds(os)
    ensures UniqueIds(WithoutOrder(os, id))
  {
    if os != [] {
      var rest := WithoutOrder(os[1..], id);
      assert UniqueIds(os[1..]) by {
        forall i, j | 0 <= i < j < |os[1..]|
          ensures os[1..][i].id != os[1..][j].id
        {
          assert os[1..][i] == os[i + 1] && os[1..][j] == os[j + 1];
        }
      }
      WithoutOrderUnique(os[1..], id);
      if os[0].id != id {
        assert forall k :: 0 <= k < |os[1..]| ==> os[1..][k].id != os[0].id by {
          forall k | 0 <= k < |os[1..]|
            ensures os[1..][k].id != os[0].id
          {
            assert os[1..][k] == os[k + 1];
          }
        }
        WithoutOrderAvoidsId(os[1..], id, os[0].id);
      }
    }
  }

  /** Removing rows never brings in an id the table did not have. */
  lemma WithoutOrderAvoidsId(os: seq<Order>, id: nat, x: nat)
    requires forall k :: 0 <= k < |os| ==> os[k].id != x
    ensures forall j :: 0 <= j < |WithoutOrder(os, id)| ==> WithoutOrder(os, id)[j].id != x
  {
    var r := WithoutOrder(os, id);
    forall j | 0 <= j < |r|
      ensures r[j].id != x
    {
      assert r[j] in os;
    }
  }
}
