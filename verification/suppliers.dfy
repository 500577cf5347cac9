/** The supplier ledger of suppliers/models.py: suppliers carry two
    denormalised totals, `total_paid` and `total_purchases`, that the save and
    delete hooks of the child rows recompute from scratch as sums over the
    child tables. Purchase orders and suppliers number themselves on their
    first save.

    Suppliers are kept by primary key; payments, purchase orders and their
    items are tables of rows. Referential integrity (every foreign key names
    an existing row) is what the database guarantees, and appears here as
    preconditions. */
module SupplierLedger {

  import opened Money
  import opened Text
  import opened Rows

  datatype Supplier = Supplier(supplierId: string, name: string, totalPurchases: Money, totalPaid: Money)

  datatype SupplierPaymentMethod = Cash | Bank | Card | Check | Other

  datatype SupplierPayment = SupplierPayment(pk: nat, supplier: nat, amount: Money, paymentMethod: SupplierPaymentMethod)

  datatype PurchaseOrderStatus = Pending | Partial | Completed | Cancelled

  datatype PurchaseOrder = PurchaseOrder(pk: nat, supplier: nat, orderNumber: string, totalAmount: Money,
                                         status: PurchaseOrderStatus)

  datatype PurchaseOrderItem = PurchaseOrderItem(pk: nat, purchaseOrder: nat, quantity: real, unitPrice: real,
                                                 totalPrice: Money)

  datatype Ledger = Ledger(
    suppliers: map<nat, Supplier>,
    payments: seq<SupplierPayment>,
    orders: seq<PurchaseOrder>,
    items: seq<PurchaseOrderItem>)

  // ---------------------------------------------------------------------
  // Suppliers

  /** `balance_due`: what is still owed, negative when the supplier has been
      paid more than was bought. */
  function BalanceDue(s: Supplier): (b: Money)
    ensures b + s.totalPaid == s.totalPurchases
    ensures b < 0.0 <==> s.totalPaid > s.totalPurchases
  {
    s.totalPurchases - s.totalPaid
  }

  /** `f"SUP-{pk:04d}"`. */
  function SupplierCode(pk: nat): string
  {
    PrefixedCode("SUP-", pk, 4)
  }

  /** `f"PO-{pk:06d}"`. */
  function OrderCode(pk: nat): string
  {
    PrefixedCode("PO-", pk, 6)
  }

  /** Supplier codes are distinct for distinct keys, and read back as the key. */
  lemma SupplierCodeInjective(m: nat, n: nat)
    ensures SupplierCode(m) == SupplierCode(n) <==> m == n
    ensures DigitsValue(SupplierCode(n)[4..]) == n
  {
    PrefixedCodeInjective("SUP-", m, n, 4);
  }

  /** Order numbers are distinct for distinct keys, and read back as the key. */
  lemma OrderCodeInjective(m: nat, n: nat)
    ensures OrderCode(m) == OrderCode(n) <==> m == n
    ensures DigitsValue(OrderCode(n)[3..]) == n
  {
    PrefixedCodeInjective("PO-", m, n, 6);
  }

  /** `Supplier.save`: a supplier without an id is given one from its key; an
      id already set is never replaced. */
  function AssignSupplierId(pk: nat, s: Supplier): (r: Supplier)
    ensures s.supplierId != "" ==> r == s
    ensures s.supplierId == "" ==> r == s.(supplierId := SupplierCode(pk))
    ensures r.supplierId != ""
  {
    if s.supplierId == "" then s.(supplierId := SupplierCode(pk)) else s
  }

  /** Saving a supplier stores it under its key, numbered if it had no id. */
  function SaveSupplier(l: Ledger, pk: nat, s: Supplier): (r: Ledger)
    ensures r.suppliers.Keys == l.suppliers.Keys + {pk}
    ensures r.suppliers[pk].supplierId == (if s.supplierId == "" then SupplierCode(pk) else s.supplierId)
    ensures r.suppliers[pk].(supplierId := s.supplierId) == s
    ensures forall k :: k in l.suppliers && k != pk ==> r.suppliers[k] == l.suppliers[k]
    ensures r.payments == l.payments && r.orders == l.orders && r.items == l.items
  {
    l.(suppliers := l.suppliers[pk := AssignSupplierId(pk, s)])
  }

  /** A second save keeps the id the first one gave. */
  lemma SaveSupplierIdempotent(l: Ledger, pk: nat, s: Supplier)
    ensures SaveSupplier(SaveSupplier(l, pk, s), pk, SaveSupplier(l, pk, s).suppliers[pk])
         == SaveSupplier(l, pk, s)
  {
  }

  // ---------------------------------------------------------------------
  // Supplier payments

  /** `supplier.payments.all()`. */
  function PaymentsTo(ps: seq<SupplierPayment>, supplier: nat): (r: seq<SupplierPayment>)
    ensures forall p :: p in r <==> p in ps && p.supplier == supplier
    ensures forall p :: multiset(r)[p] == if p.supplier == supplier then multiset(ps)[p] else 0
  {
    Filter(ps, (p: SupplierPayment) => p.supplier == supplier)
  }

  function PaymentAmount(p: SupplierPayment): Money
  {
    p.amount
  }

  /** `sum(payment.amount for payment in supplier.payments.all())`. */
  function PaidTo(ps: seq<SupplierPayment>, supplier: nat): Money
  {
    SumOf(PaymentsTo(ps, supplier), PaymentAmount)
  }

  /** The payment table without the row whose key is `pk`. */
  function WithoutPayment(ps: seq<SupplierPayment>, pk: nat): (r: seq<SupplierPayment>)
    ensures forall p :: p in r <==> p in ps && p.pk != pk
    ensures forall p :: multiset(r)[p] == if p.pk != pk then multiset(ps)[p] else 0
  {
    Filter(ps, (p: SupplierPayment) => p.pk != pk)
  }

  /** The row write of `super().save()`: an insert, or an update of the row
      with the same key. */
  function StorePayment(ps: seq<SupplierPayment>, p: SupplierPayment): (r: seq<SupplierPayment>)
    ensures forall q :: q in r <==> q == p || (q in ps && q.pk != p.pk)
    ensures forall q :: multiset(r)[q] == (if q == p then 1 else 0) + (if q.pk != p.pk then multiset(ps)[q] else 0)
  {
    WithoutPayment(ps, p.pk) + [p]
  }

  /** The recompute both payment hooks end with: the supplier's `total_paid`
      becomes the sum over its payments now on file. The `Supplier.save` that
      writes it also gives a supplier without an id its code; name and
      purchases are kept. */
  function RecomputePaid(l: Ledger, supplier: nat): (r: Ledger)
    requires supplier in l.suppliers
    ensures r.suppliers.Keys == l.suppliers.Keys
    ensures r.suppliers[supplier].totalPaid == PaidTo(l.payments, supplier)
    ensures r.suppliers[supplier].totalPurchases == l.suppliers[supplier].totalPurchases
    ensures r.suppliers[supplier].name == l.suppliers[supplier].name
    ensures l.suppliers[supplier].supplierId != "" ==> r.suppliers[supplier].supplierId == l.suppliers[supplier].supplierId
    ensures l.suppliers[supplier].supplierId == "" ==> r.suppliers[supplier].supplierId == SupplierCode(supplier)
    ensures forall k :: k in l.suppliers && k != supplier ==> r.suppliers[k] == l.suppliers[k]
    ensures r.payments == l.payments && r.orders == l.orders && r.items == l.items
  {
    var s := l.suppliers[supplier];
    l.(suppliers := l.suppliers[supplier := AssignSupplierId(supplier, s.(totalPaid := PaidTo(l.payments, supplier)))])
  }

  /** `SupplierPayment.save`: stores the row, then recomputes the paying
      supplier's `total_paid` from all its payments, the new one included.
      Only that supplier changes: its `total_paid`, and its id when it had
      none (the `Supplier.save` that writes the total assigns it). */
  function SavePayment(l: Ledger, p: SupplierPayment): (r: Ledger)
    requires p.supplier in l.suppliers
    ensures forall q :: q in r.payments <==> q == p || (q in l.payments && q.pk != p.pk)
    ensures forall q :: multiset(r.payments)[q] == (if q == p then 1 else 0) + (if q.pk != p.pk then multiset(l.payments)[q] else 0)
    ensures r.suppliers.Keys == l.suppliers.Keys
    ensures r.suppliers[p.supplier].totalPaid == PaidTo(r.payments, p.supplier)
    ensures r.suppliers[p.supplier].totalPurchases == l.suppliers[p.supplier].totalPurchases
    ensures r.suppliers[p.supplier].name == l.suppliers[p.supplier].name
    ensures r.suppliers[p.supplier].supplierId ==
      if l.suppliers[p.supplier].supplierId == "" then SupplierCode(p.supplier) else l.suppliers[p.supplier].supplierId
    ensures forall k :: k in l.suppliers && k != p.supplier ==> r.suppliers[k] == l.suppliers[k]
    ensures r.orders == l.orders && r.items == l.items
  {
    RecomputePaid(l.(payments := StorePayment(l.payments, p)), p.supplier)
  }

  /** `SupplierPayment.delete`: removes the row, then recomputes its
      supplier's `total_paid` from the payments that remain; as on save, a
      supplier without an id is given its code. */
  function DeletePayment(l: Ledger, p: SupplierPayment): (r: Ledger)
    requires p.supplier in l.suppliers
    ensures forall q :: q in r.payments <==> q in l.payments && q.pk != p.pk
    ensures forall q :: multiset(r.payments)[q] == if q.pk != p.pk then multiset(l.payments)[q] else 0
    ensures r.suppliers.Keys == l.suppliers.Keys
    ensures r.suppliers[p.supplier].totalPaid == PaidTo(r.payments, p.supplier)
    ensures r.suppliers[p.supplier].totalPurchases == l.suppliers[p.supplier].totalPurchases
    ensures r.suppliers[p.supplier].name == l.suppliers[p.supplier].name
    ensures r.suppliers[p.supplier].supplierId ==
      if l.suppliers[p.supplier].supplierId == "" then SupplierCode(p.supplier) else l.suppliers[p.supplier].supplierId
    ensures forall k :: k in l.suppliers && k != p.supplier ==> r.suppliers[k] == l.suppliers[k]
    ensures r.orders == l.orders && r.items == l.items
  {
    RecomputePaid(l.(payments := WithoutPayment(l.payments, p.pk)), p.supplier)
  }

  /** Every supplier's `total_paid` is the sum of its payments. */
  predicate PaidSynced(l: Ledger)
  {
    forall k :: k in l.suppliers ==> l.suppliers[k].totalPaid == PaidTo(l.payments, k)
  }

  /** Every row with key `pk` belongs to `supplier`: a save of a payment with
      that key does not move it to another supplier. */
  predicate KeepsSupplier(ps: seq<SupplierPayment>, pk: nat, supplier: nat)
  {
    forall q :: q in ps && q.pk == pk ==> q.supplier == supplier
  }

  /** Payments to a supplier are untouched by removing a key none of them has. */
  lemma PaymentsToWithout(ps: seq<SupplierPayment>, pk: nat, supplier: nat, k: nat)
    requires KeepsSupplier(ps, pk, supplier) && k != supplier
    ensures PaymentsTo(WithoutPayment(ps, pk), k) == PaymentsTo(ps, k)
  {
    var byKey := (p: SupplierPayment) => p.pk != pk;
    var bySupplier := (p: SupplierPayment) => p.supplier == k;
    FilterCommute(ps, byKey, bySupplier);
    FilterAll(Filter(ps, bySupplier), byKey);
  }

  /** The payment just stored adds its amount to its supplier's payments. */
  lemma PaidToStore(ps: seq<SupplierPayment>, p: SupplierPayment, k: nat)
    ensures PaidTo(StorePayment(ps, p), k)
         == PaidTo(WithoutPayment(ps, p.pk), k) + (if p.supplier == k then p.amount else 0.0)
  {
    var bySupplier := (q: SupplierPayment) => q.supplier == k;
    FilterAppend(WithoutPayment(ps, p.pk), [p], bySupplier);
    SumOfAppend(PaymentsTo(WithoutPayment(ps, p.pk), k), Filter([p], bySupplier), PaymentAmount);
    assert Filter([p], bySupplier) == if p.supplier == k then [p] else [];
  }

  /** A new payment raises its supplier's `total_paid` by exactly its amount. */
  lemma SaveNewPaymentAddsAmount(l: Ledger, p: SupplierPayment)
    requires p.supplier in l.suppliers && PaidSynced(l)
    requires forall q :: q in l.payments ==> q.pk != p.pk
    ensures SavePayment(l, p).suppliers[p.supplier].totalPaid == l.suppliers[p.supplier].totalPaid + p.amount
  {
    FilterAll(l.payments, (q: SupplierPayment) => q.pk != p.pk);
    PaidToStore(l.payments, p, p.supplier);
  }

  /** Saving a payment that stays with its supplier keeps every supplier's
      `total_paid` equal to the sum of its payments. */
  lemma SavePaymentKeepsPaidSynced(l: Ledger, p: SupplierPayment)
    requires p.supplier in l.suppliers && PaidSynced(l)
    requires KeepsSupplier(l.payments, p.pk, p.supplier)
    ensures PaidSynced(SavePayment(l, p))
  {
    var r := SavePayment(l, p);
    forall k | k in r.suppliers && k != p.supplier
      ensures r.suppliers[k].totalPaid == PaidTo(r.payments, k)
    {
      PaidToStore(l.payments, p, k);
      PaymentsToWithout(l.payments, p.pk, p.supplier, k);
    }
  }

  /** Deleting a payment keeps every supplier's `total_paid` in step. */
  lemma DeletePaymentKeepsPaidSynced(l: Ledger, p: SupplierPayment)
    requires p.supplier in l.suppliers && PaidSynced(l)
    requires KeepsSupplier(l.payments, p.pk, p.supplier)
    ensures PaidSynced(DeletePayment(l, p))
  {
    var r := DeletePayment(l, p);
    forall k | k in r.suppliers && k != p.supplier
      ensures r.suppliers[k].totalPaid == PaidTo(r.payments, k)
    {
      PaymentsToWithout(l.payments, p.pk, p.supplier, k);
    }
  }

  /** The recompute ignores the total it replaces, so saving the same payment
      twice leaves the ledger as one save did. */
  lemma SavePaymentIdempotent(l: Ledger, p: SupplierPayment)
    requires p.supplier in l.suppliers
    ensures SavePayment(SavePayment(l, p), p) == SavePayment(l, p)
  {
    var l1 := l.(payments := StorePayment(l.payments, p));
    StorePaymentIdempotent(l.payments, p);
    RecomputePaidIdempotent(l1, p.supplier);
  }

  /** Storing the same row twice leaves the table as one store did. */
  lemma StorePaymentIdempotent(ps: seq<SupplierPayment>, p: SupplierPayment)
    ensures StorePayment(StorePayment(ps, p), p) == StorePayment(ps, p)
  {
    var without := WithoutPayment(ps, p.pk);
    var byKey := (q: SupplierPayment) => q.pk != p.pk;
    FilterAppend(without, [p], byKey);
    assert Filter([p], byKey) == [];
    FilterAll(without, byKey);
    assert WithoutPayment(without + [p], p.pk) == without;
  }

  /** Recomputing a supplier's `total_paid` a second time changes nothing. */
  lemma RecomputePaidIdempotent(l: Ledger, supplier: nat)
    requires supplier in l.suppliers
    ensures RecomputePaid(RecomputePaid(l, supplier), supplier) == RecomputePaid(l, supplier)
  {
    var r := RecomputePaid(l, supplier);
    assert RecomputePaid(r, supplier).suppliers == r.suppliers;
  }

  /** The payment save writes only `total_paid`: a supplier's position changes
      by exactly the change in what it has been paid. */
  lemma SavePaymentMovesBalanceOnlyByPaid(l: Ledger, p: SupplierPayment)
    requires p.supplier in l.suppliers
    ensures BalanceDue(SavePayment(l, p).suppliers[p.supplier])
         == l.suppliers[p.supplier].totalPurchases - PaidTo(SavePayment(l, p).payments, p.supplier)
  {
  }

  /** Moving a payment to another supplier recomputes only the new one: the
      old supplier keeps a `total_paid` that its payments no longer add up to. */
  lemma MovedPaymentLeavesOldTotalStale()
    ensures var l := Ledger(map[1 := Supplier("SUP-0001", "A", 0.0, 100.0), 2 := Supplier("SUP-0002", "B", 0.0, 0.0)],
                            [SupplierPayment(7, 1, 100.0, Cash)], [], []);
            PaidSynced(l) && !PaidSynced(SavePayment(l, SupplierPayment(7, 2, 100.0, Cash)))
  {
    var p := SupplierPayment(7, 1, 100.0, Cash);
    var p' := SupplierPayment(7, 2, 100.0, Cash);
    var l := Ledger(map[1 := Supplier("SUP-0001", "A", 0.0, 100.0), 2 := Supplier("SUP-0002", "B", 0.0, 0.0)],
                    [p], [], []);
    assert PaymentsTo([p], 1) == [p];
    assert PaymentsTo([p], 2) == [];
    SumOfSingleton(p, PaymentAmount);
    forall k | k in l.suppliers
      ensures l.suppliers[k].totalPaid == PaidTo(l.payments, k)
    {
    }
    var r := SavePayment(l, p');
    assert WithoutPayment([p], 7) == [];
    assert r.payments == [p'];
    assert PaymentsTo([p'], 1) == [];
    assert r.suppliers[1].totalPaid == 100.0;
  }

  // ---------------------------------------------------------------------
  // Purchase orders and their items

  predicate HasOrder(os: seq<PurchaseOrder>, pk: nat)
  {
    exists i :: 0 <= i < |os| && os[i].pk == pk
  }

  /** Position of the purchase order with key `pk`. */
  function OrderIndex(os: seq<PurchaseOrder>, pk: nat): (i: nat)
    requires HasOrder(os, pk)
    ensures i < |os| && os[i].pk == pk
    ensures forall j :: 0 <= j < i ==> os[j].pk != pk
  {
    if os[0].pk == pk then 0
    else
      assert HasOrder(os[1..], pk) by {
        var i :| 0 <= i < |os| && os[i].pk == pk;
        assert os[1..][i - 1] == os[i];
      }
      1 + OrderIndex(os[1..], pk)
  }

  /** Primary keys are unique in the order table. */
  predicate UniqueOrderKeys(os: seq<PurchaseOrder>)
  {
    forall i, j :: 0 <= i < |os| && 0 <= j < |os| && os[i].pk == os[j].pk ==> i == j
  }

  /** `PurchaseOrder.save`: an order without a number is numbered from its key;
      a number already set is kept. */
  function AssignOrderNumber(o: PurchaseOrder): (r: PurchaseOrder)
    ensures o.orderNumber != "" ==> r == o
    ensures o.orderNumber == "" ==> r == o.(orderNumber := OrderCode(o.pk))
    ensures r.orderNumber != ""
  {
    if o.orderNumber == "" then o.(orderNumber := OrderCode(o.pk)) else o
  }

  /** Saving a purchase order stores it, numbered if it had no number. The
      totals are not touched: only item saves recompute them. */
  function SavePurchaseOrder(l: Ledger, o: PurchaseOrder): (r: Ledger)
    requires o.supplier in l.suppliers
    ensures forall q :: q in r.orders <==> q == AssignOrderNumber(o) || (q in l.orders && q.pk != o.pk)
    ensures var n := AssignOrderNumber(o);
      forall q :: multiset(r.orders)[q] == (if q == n then 1 else 0) + (if q.pk != o.pk then multiset(l.orders)[q] else 0)
    ensures r.suppliers == l.suppliers && r.payments == l.payments && r.items == l.items
  {
    l.(orders := WithoutOrder(l.orders, o.pk) + [AssignOrderNumber(o)])
  }

  /** The order table without the row whose key is `pk`. */
  function WithoutOrder(os: seq<PurchaseOrder>, pk: nat): (r: seq<PurchaseOrder>)
    ensures forall q :: q in r <==> q in os && q.pk != pk
    ensures forall q :: multiset(r)[q] == if q.pk != pk then multiset(os)[q] else 0
  {
    Filter(os, (q: PurchaseOrder) => q.pk != pk)
  }

  /** `purchase_order.items.all()`. */
  function ItemsOf(items: seq<PurchaseOrderItem>, order: nat): (r: seq<PurchaseOrderItem>)
    ensures forall it :: it in r <==> it in items && it.purchaseOrder == order
    ensures forall it :: multiset(r)[it] == if it.purchaseOrder == order then multiset(items)[it] else 0
  {
    Filter(items, (it: PurchaseOrderItem) => it.purchaseOrder == order)
  }

  function ItemTotal(it: PurchaseOrderItem): Money
  {
    it.totalPrice
  }

  /** `sum(item.total_price for item in purchase_order.items.all())`. */
  function OrderTotal(items: seq<PurchaseOrderItem>, order: nat): Money
  {
    SumOf(ItemsOf(items, order), ItemTotal)
  }

  /** `supplier.purchase_orders.all()`. */
  function OrdersOf(os: seq<PurchaseOrder>, supplier: nat): (r: seq<PurchaseOrder>)
    ensures forall o :: o in r <==> o in os && o.supplier == supplier
    ensures forall o :: multiset(r)[o] == if o.supplier == supplier then multiset(os)[o] else 0
  {
    Filter(os, (o: PurchaseOrder) => o.supplier == supplier)
  }

  function OrderAmount(o: PurchaseOrder): Money
  {
    o.totalAmount
  }

  /** `sum(po.total_amount for po in supplier.purchase_orders.all())`. */
  function PurchasesFrom(os: seq<PurchaseOrder>, supplier: nat): Money
  {
    SumOf(OrdersOf(os, supplier), OrderAmount)
  }

  /** The item table without the row whose key is `pk`. */
  function WithoutItem(items: seq<PurchaseOrderItem>, pk: nat): (r: seq<PurchaseOrderItem>)
    ensures forall it :: it in r <==> it in items && it.pk != pk
    ensures forall it :: multiset(r)[it] == if it.pk != pk then multiset(items)[it] else 0
  {
    Filter(items, (it: PurchaseOrderItem) => it.pk != pk)
  }

  /** An insert, or an update of the item with the same key. */
  function StoreItem(items: seq<PurchaseOrderItem>, it: PurchaseOrderItem): (r: seq<PurchaseOrderItem>)
    ensures forall x :: x in r <==> x == it || (x in items && x.pk != it.pk)
    ensures forall x :: multiset(r)[x] == (if x == it then 1 else 0) + (if x.pk != it.pk then multiset(items)[x] else 0)
  {
    WithoutItem(items, it.pk) + [it]
  }

  /** The item's purchase order exists and belongs to a known supplier. */
  predicate ItemPlaceable(l: Ledger, order: nat)
  {
    HasOrder(l.orders, order) && l.orders[OrderIndex(l.orders, order)].supplier in l.suppliers
  }

  /** `PurchaseOrderItem.save`: the line total is quantity times unit price;
      the row is stored; the order's `total_amount` becomes the sum of its
      items' line totals (then `PurchaseOrder.save`); the supplier's
      `total_purchases` becomes the sum of its orders' totals (then
      `Supplier.save`). Payments and `total_paid` are untouched. */
  function SaveItem(l: Ledger, it: PurchaseOrderItem): (r: Ledger)
    requires ItemPlaceable(l, it.purchaseOrder)
    ensures |r.orders| == |l.orders|
    ensures var i := OrderIndex(l.orders, it.purchaseOrder);
      && r.orders[i].totalAmount == OrderTotal(r.items, it.purchaseOrder)
      && r.orders[i].orderNumber
         == (if l.orders[i].orderNumber == "" then OrderCode(l.orders[i].pk) else l.orders[i].orderNumber)
      && r.orders[i].(totalAmount := l.orders[i].totalAmount, orderNumber := l.orders[i].orderNumber) == l.orders[i]
      && (forall j :: 0 <= j < |l.orders| && j != i ==> r.orders[j] == l.orders[j])
    ensures var s := l.orders[OrderIndex(l.orders, it.purchaseOrder)].supplier;
      && r.suppliers.Keys == l.suppliers.Keys
      && r.suppliers[s].totalPurchases == PurchasesFrom(r.orders, s)
      && r.suppliers[s].totalPaid == l.suppliers[s].totalPaid
      && r.suppliers[s].name == l.suppliers[s].name
      && r.suppliers[s].supplierId
         == (if l.suppliers[s].supplierId == "" then SupplierCode(s) else l.suppliers[s].supplierId)
      && (forall k :: k in l.suppliers && k != s ==> r.suppliers[k] == l.suppliers[k])
    ensures r.payments == l.payments
    ensures var stored := it.(totalPrice := it.quantity * it.unitPrice);
      forall x :: x in r.items <==> x == stored || (x in l.items && x.pk != it.pk)
    ensures var stored := it.(totalPrice := it.quantity * it.unitPrice);
      forall x :: multiset(r.items)[x] == (if x == stored then 1 else 0) + (if x.pk != it.pk then multiset(l.items)[x] else 0)
  {
    var stored := it.(totalPrice := it.quantity * it.unitPrice);
    var items := StoreItem(l.items, stored);
    var i := OrderIndex(l.orders, it.purchaseOrder);
    var o := RecountOrder(l.orders[i], items);
    var orders := l.orders[i := o];
    assert orders[i] == o && o.pk == it.purchaseOrder;
    assert forall j :: 0 <= j < |l.orders| && j != i ==> orders[j] == l.orders[j];
    Ledger(RecountPurchases(l.suppliers, l.orders[i].supplier, orders), l.payments, orders, items)
  }

  /** The order half of an item save: `total_amount` becomes the sum of the
      order's items, and `PurchaseOrder.save` numbers it if it had no number. */
  function RecountOrder(o: PurchaseOrder, items: seq<PurchaseOrderItem>): (r: PurchaseOrder)
    ensures r.totalAmount == OrderTotal(items, o.pk)
    ensures r.orderNumber == if o.orderNumber == "" then OrderCode(o.pk) else o.orderNumber
    ensures r.(totalAmount := o.totalAmount, orderNumber := o.orderNumber) == o
  {
    AssignOrderNumber(o.(totalAmount := OrderTotal(items, o.pk)))
  }

  /** The supplier half of an item save: `total_purchases` becomes the sum of
      the supplier's orders, and `Supplier.save` gives it its code if it had
      no id. Every other supplier is left alone. */
  function RecountPurchases(suppliers: map<nat, Supplier>, k: nat, orders: seq<PurchaseOrder>): (r: map<nat, Supplier>)
    requires k in suppliers
    ensures r.Keys == suppliers.Keys
    ensures r[k].totalPurchases == PurchasesFrom(orders, k)
    ensures r[k].totalPaid == suppliers[k].totalPaid && r[k].name == suppliers[k].name
    ensures r[k].supplierId == if suppliers[k].supplierId == "" then SupplierCode(k) else suppliers[k].supplierId
    ensures forall j :: j in suppliers && j != k ==> r[j] == suppliers[j]
  {
    suppliers[k := AssignSupplierId(k, suppliers[k].(totalPurchases := PurchasesFrom(orders, k)))]
  }

  /** Deleting an item only removes its row: no hook recomputes the order's
      total or the supplier's purchases. */
  function DeleteItem(l: Ledger, it: PurchaseOrderItem): (r: Ledger)
    requires it in l.items
    ensures forall x :: x in r.items <==> x in l.items && x.pk != it.pk
    ensures forall x :: multiset(r.items)[x] == if x.pk != it.pk then multiset(l.items)[x] else 0
    ensures r.suppliers == l.suppliers && r.payments == l.payments && r.orders == l.orders
  {
    l.(items := WithoutItem(l.items, it.pk))
  }

  /** Every order's total is the sum of its items, and every supplier's
      purchases the sum of its orders. */
  predicate PurchasesSynced(l: Ledger)
  {
    && (forall i :: 0 <= i < |l.orders| ==> l.orders[i].totalAmount == OrderTotal(l.items, l.orders[i].pk))
    && (forall k :: k in l.suppliers ==> l.suppliers[k].totalPurchases == PurchasesFrom(l.orders, k))
  }

  /** Every item with key `pk` is on order `order`: a save of an item with
      that key does not move it to another order. */
  predicate KeepsOrder(items: seq<PurchaseOrderItem>, pk: nat, order: nat)
  {
    forall x :: x in items && x.pk == pk ==> x.purchaseOrder == order
  }

  /** Storing an item leaves the items of every other order as they were. */
  lemma ItemsOfStore(items: seq<PurchaseOrderItem>, it: PurchaseOrderItem, order: nat)
    requires KeepsOrder(items, it.pk, it.purchaseOrder) && order != it.purchaseOrder
    ensures ItemsOf(StoreItem(items, it), order) == ItemsOf(items, order)
  {
    var byKey := (x: PurchaseOrderItem) => x.pk != it.pk;
    var byOrder := (x: PurchaseOrderItem) => x.purchaseOrder == order;
    FilterAppend(WithoutItem(items, it.pk), [it], byOrder);
    assert Filter([it], byOrder) == [];
    FilterCommute(items, byKey, byOrder);
    FilterAll(Filter(items, byOrder), byKey);
  }

  /** Replacing an order of one supplier leaves every other supplier's orders alone. */
  lemma OrdersOfUpdate(os: seq<PurchaseOrder>, i: nat, o: PurchaseOrder, k: nat)
    requires i < |os| && os[i].supplier == o.supplier && o.supplier != k
    ensures OrdersOf(os[i := o], k) == OrdersOf(os, k)
  {
    var bySupplier := (q: PurchaseOrder) => q.supplier == k;
    assert os == os[..i] + [os[i]] + os[i + 1..];
    assert os[i := o] == os[..i] + [o] + os[i + 1..];
    FilterAppend(os[..i] + [os[i]], os[i + 1..], bySupplier);
    FilterAppend(os[..i], [os[i]], bySupplier);
    FilterAppend(os[..i] + [o], os[i + 1..], bySupplier);
    FilterAppend(os[..i], [o], bySupplier);
    assert Filter([os[i]], bySupplier) == [] == Filter([o], bySupplier);
  }

  /** The item table an item save leaves behind. */
  lemma SaveItemStores(l: Ledger, it: PurchaseOrderItem)
    requires ItemPlaceable(l, it.purchaseOrder)
    ensures SaveItem(l, it).items == StoreItem(l.items, it.(totalPrice := it.quantity * it.unitPrice))
  {
  }

  /** Saving an item that stays on its order leaves every other order, and
      the items on it, as they were. */
  lemma SaveItemKeepsOtherOrder(l: Ledger, it: PurchaseOrderItem, j: nat)
    requires ItemPlaceable(l, it.purchaseOrder) && UniqueOrderKeys(l.orders)
    requires KeepsOrder(l.items, it.pk, it.purchaseOrder)
    requires j < |l.orders| && j != OrderIndex(l.orders, it.purchaseOrder)
    ensures SaveItem(l, it).orders[j] == l.orders[j]
    ensures OrderTotal(SaveItem(l, it).items, l.orders[j].pk) == OrderTotal(l.items, l.orders[j].pk)
  {
    var stored := it.(totalPrice := it.quantity * it.unitPrice);
    var i := OrderIndex(l.orders, it.purchaseOrder);
    assert l.orders[i].pk == it.purchaseOrder;
    assert l.orders[j].pk != it.purchaseOrder;
    assert KeepsOrder(l.items, stored.pk, stored.purchaseOrder);
    ItemsOfStore(l.items, stored, l.orders[j].pk);
    SaveItemStores(l, it);
  }

  /** Saving an item that stays on its order keeps every order total equal
      to the sum of its items. */
  lemma SaveItemKeepsOrderTotals(l: Ledger, it: PurchaseOrderItem)
    requires ItemPlaceable(l, it.purchaseOrder) && PurchasesSynced(l) && UniqueOrderKeys(l.orders)
    requires KeepsOrder(l.items, it.pk, it.purchaseOrder)
    ensures var r := SaveItem(l, it);
      forall j :: 0 <= j < |r.orders| ==> r.orders[j].totalAmount == OrderTotal(r.items, r.orders[j].pk)
  {
    var r := SaveItem(l, it);
    var i := OrderIndex(l.orders, it.purchaseOrder);
    forall j | 0 <= j < |r.orders| && j != i
      ensures r.orders[j].totalAmount == OrderTotal(r.items, r.orders[j].pk)
    {
      SaveItemKeepsOtherOrder(l, it, j);
    }
  }

  /** Saving an item keeps every supplier's purchases equal to the sum of its
      orders' totals. */
  lemma SaveItemKeepsSupplierPurchases(l: Ledger, it: PurchaseOrderItem)
    requires ItemPlaceable(l, it.purchaseOrder) && PurchasesSynced(l)
    ensures var r := SaveItem(l, it);
      forall k :: k in r.suppliers ==> r.suppliers[k].totalPurchases == PurchasesFrom(r.orders, k)
  {
    var r := SaveItem(l, it);
    var i := OrderIndex(l.orders, it.purchaseOrder);
    var s := l.orders[i].supplier;
    forall k | k in r.suppliers && k != s
      ensures r.suppliers[k].totalPurchases == PurchasesFrom(r.orders, k)
    {
      OrdersOfUpdate(l.orders, i, r.orders[i], k);
    }
  }

  /** Saving an item that stays on its order keeps every order total and every
      supplier's purchases in step. */
  lemma SaveItemKeepsPurchasesSynced(l: Ledger, it: PurchaseOrderItem)
    requires ItemPlaceable(l, it.purchaseOrder) && PurchasesSynced(l) && UniqueOrderKeys(l.orders)
    requires KeepsOrder(l.items, it.pk, it.purchaseOrder)
    ensures PurchasesSynced(SaveItem(l, it))
  {
    SaveItemKeepsOrderTotals(l, it);
    SaveItemKeepsSupplierPurchases(l, it);
  }

  /** A supplier's purchases over two tables are the sums over each. */
  lemma PurchasesFromAppend(s: seq<PurchaseOrder>, t: seq<PurchaseOrder>, k: nat)
    ensures PurchasesFrom(s + t, k) == PurchasesFrom(s, k) + PurchasesFrom(t, k)
  {
    FilterAppend(s, t, (o: PurchaseOrder) => o.supplier == k);
    SumOfAppend(OrdersOf(s, k), OrdersOf(t, k), OrderAmount);
  }

  /** One order counts towards its own supplier's purchases only. */
  lemma PurchasesFromSingle(o: PurchaseOrder, k: nat)
    ensures PurchasesFrom([o], k) == if o.supplier == k then o.totalAmount else 0.0
  {
    if o.supplier == k {
      assert OrdersOf([o], k) == [o];
      SumOfSingleton(o, OrderAmount);
    } else {
      assert OrdersOf([o], k) == [];
    }
  }

  /** With unique keys, no row before or after position `i` has its key. */
  lemma KeyOnlyAt(os: seq<PurchaseOrder>, i: nat)
    requires UniqueOrderKeys(os) && i < |os|
    ensures forall x :: x in os[..i] ==> x.pk != os[i].pk
    ensures forall x :: x in os[i + 1..] ==> x.pk != os[i].pk
  {
    forall x | x in os[..i] ensures x.pk != os[i].pk {
      var j :| 0 <= j < i && os[..i][j] == x;
      assert os[j] == x;
    }
    forall x | x in os[i + 1..] ensures x.pk != os[i].pk {
      var j :| 0 <= j < |os| - i - 1 && os[i + 1..][j] == x;
      assert os[i + 1 + j] == x;
    }
  }

  /** With unique keys, dropping the key of the row at `i` drops that row only. */
  lemma WithoutOrderAt(os: seq<PurchaseOrder>, i: nat)
    requires UniqueOrderKeys(os) && i < |os|
    ensures WithoutOrder(os, os[i].pk) == os[..i] + os[i + 1..]
  {
    var a, o, b := os[..i], os[i], os[i + 1..];
    assert os == a + [o] + b;
    KeyOnlyAt(os, i);
    WithoutKeyAt(a, o, b);
  }

  /** Dropping the key of a row no other row shares leaves the rest in order. */
  lemma WithoutKeyAt(a: seq<PurchaseOrder>, o: PurchaseOrder, b: seq<PurchaseOrder>)
    requires forall x :: x in a ==> x.pk != o.pk
    requires forall x :: x in b ==> x.pk != o.pk
    ensures WithoutOrder(a + [o] + b, o.pk) == a + b
  {
    var byKey := (q: PurchaseOrder) => q.pk != o.pk;
    FilterAll(a, byKey);
    FilterAll(b, byKey);
    FilterAppend(a, [o], byKey);
    assert Filter([o], byKey) == [] by {
      assert [o][1..] == [];
    }
    assert Filter(a + [o], byKey) == a;
    FilterAppend(a + [o], b, byKey);
  }

  /** Replacing the row at `i` by a row of the same supplier and total, moved
      to the end of the table, leaves every supplier's purchases alone. */
  lemma PurchasesFromReplace(os: seq<PurchaseOrder>, i: nat, n: PurchaseOrder, k: nat)
    requires UniqueOrderKeys(os) && i < |os|
    requires n.supplier == os[i].supplier && n.totalAmount == os[i].totalAmount
    ensures PurchasesFrom(WithoutOrder(os, os[i].pk) + [n], k) == PurchasesFrom(os, k)
  {
    var a, b := os[..i], os[i + 1..];
    assert os == a + [os[i]] + b;
    WithoutOrderAt(os, i);
    PurchasesFromAppend(a + b, [n], k);
    PurchasesFromAppend(a, b, k);
    PurchasesFromAppend(a + [os[i]], b, k);
    PurchasesFromAppend(a, [os[i]], k);
    PurchasesFromSingle(n, k);
    PurchasesFromSingle(os[i], k);
  }

  /** Moving the row at `i` to another supplier, at the end of the table,
      takes its total out of its old supplier's purchases. */
  lemma PurchasesFromMoved(os: seq<PurchaseOrder>, i: nat, n: PurchaseOrder)
    requires UniqueOrderKeys(os) && i < |os| && n.supplier != os[i].supplier
    ensures PurchasesFrom(WithoutOrder(os, os[i].pk) + [n], os[i].supplier) + os[i].totalAmount
         == PurchasesFrom(os, os[i].supplier)
  {
    var q, s := os[i], os[i].supplier;
    var a, b := os[..i], os[i + 1..];
    assert os == a + [q] + b;
    WithoutOrderAt(os, i);
    PurchasesFromAppend(a + b, [n], s);
    PurchasesFromAppend(a, b, s);
    PurchasesFromAppend(a + [q], b, s);
    PurchasesFromAppend(a, [q], s);
    PurchasesFromSingle(n, s);
    PurchasesFromSingle(q, s);
  }

  /** Appending a new order of total 0 leaves every supplier's purchases alone. */
  lemma PurchasesFromInsert(os: seq<PurchaseOrder>, n: PurchaseOrder, k: nat)
    requires !HasOrder(os, n.pk) && n.totalAmount == 0.0
    ensures PurchasesFrom(WithoutOrder(os, n.pk) + [n], k) == PurchasesFrom(os, k)
  {
    var byKey := (q: PurchaseOrder) => q.pk != n.pk;
    forall x | x in os ensures byKey(x) {
      var j :| 0 <= j < |os| && os[j] == x;
    }
    FilterAll(os, byKey);
    PurchasesFromAppend(os, [n], k);
    PurchasesFromSingle(n, k);
  }

  /** A purchase-order save that cannot unbalance the sums: an edit that keeps
      the row's supplier and total, or a new order with total 0 and no items. */
  predicate KeepsOrderSums(l: Ledger, o: PurchaseOrder)
  {
    if HasOrder(l.orders, o.pk) then
      var q := l.orders[OrderIndex(l.orders, o.pk)];
      q.supplier == o.supplier && q.totalAmount == o.totalAmount
    else
      o.totalAmount == 0.0 && ItemsOf(l.items, o.pk) == []
  }

  /** `PurchaseOrder.save` recomputes nothing, yet it keeps every order total
      and every supplier's purchases in step when the row keeps its supplier
      and total, or is a new order with total 0 and no items. A row moved to
      another supplier breaks them (MovedOrderLeavesPurchasesStale). */
  lemma SavePurchaseOrderKeepsPurchasesSynced(l: Ledger, o: PurchaseOrder)
    requires o.supplier in l.suppliers && PurchasesSynced(l) && UniqueOrderKeys(l.orders)
    requires KeepsOrderSums(l, o)
    ensures PurchasesSynced(SavePurchaseOrder(l, o))
  {
    var r := SavePurchaseOrder(l, o);
    var n := AssignOrderNumber(o);
    assert r.orders == WithoutOrder(l.orders, o.pk) + [n];
    assert n.totalAmount == OrderTotal(l.items, o.pk) by {
      if HasOrder(l.orders, o.pk) {
        var i := OrderIndex(l.orders, o.pk);
        assert l.orders[i].totalAmount == OrderTotal(l.items, l.orders[i].pk);
      }
    }
    forall j | 0 <= j < |r.orders|
      ensures r.orders[j].totalAmount == OrderTotal(r.items, r.orders[j].pk)
    {
      var q := r.orders[j];
      assert q in r.orders;
      if q != n {
        var m :| 0 <= m < |l.orders| && l.orders[m] == q;
      }
    }
    forall k | k in r.suppliers
      ensures r.suppliers[k].totalPurchases == PurchasesFrom(r.orders, k)
    {
      if HasOrder(l.orders, o.pk) {
        PurchasesFromReplace(l.orders, OrderIndex(l.orders, o.pk), n, k);
      } else {
        PurchasesFromInsert(l.orders, n, k);
      }
    }
  }

  /** Moving a purchase order to another supplier recomputes no supplier: in
      a ledger in step, the old supplier's purchases stay above the sum of
      the orders it still has by exactly the moved order's total, so the
      ledger is out of step whenever that total is not 0. */
  lemma MovedOrderLeavesPurchasesStale(l: Ledger, o: PurchaseOrder)
    requires o.supplier in l.suppliers && PurchasesSynced(l) && UniqueOrderKeys(l.orders)
    requires HasOrder(l.orders, o.pk)
    requires var q := l.orders[OrderIndex(l.orders, o.pk)];
      q.supplier in l.suppliers && q.supplier != o.supplier && q.totalAmount != 0.0
    ensures var q := l.orders[OrderIndex(l.orders, o.pk)];
            var r := SavePurchaseOrder(l, o);
            && r.suppliers[q.supplier].totalPurchases == PurchasesFrom(r.orders, q.supplier) + q.totalAmount
            && !PurchasesSynced(r)
  {
    var i := OrderIndex(l.orders, o.pk);
    var q := l.orders[i];
    var r := SavePurchaseOrder(l, o);
    assert r.orders == WithoutOrder(l.orders, q.pk) + [AssignOrderNumber(o)];
    PurchasesFromMoved(l.orders, i, AssignOrderNumber(o));
    assert r.suppliers[q.supplier].totalPurchases == PurchasesFrom(l.orders, q.supplier);
  }

  /** Deleting an item leaves the totals it contributed to behind: one order
      with one item of 300, in step before the delete, still shows 300 after
      it although no items remain, and so does its supplier. */
  lemma DeleteItemLeavesTotalsStale()
    ensures var it := PurchaseOrderItem(1, 1, 50.0, 6.0, 300.0);
            var l := Ledger(map[1 := Supplier("SUP-0001", "A", 300.0, 0.0)], [],
                            [PurchaseOrder(1, 1, "PO-000001", 300.0, Pending)], [it]);
            && PurchasesSynced(l)
            && DeleteItem(l, it).orders[0].totalAmount == 300.0
            && OrderTotal(DeleteItem(l, it).items, 1) == 0.0
            && !PurchasesSynced(DeleteItem(l, it))
  {
    var it := PurchaseOrderItem(1, 1, 50.0, 6.0, 300.0);
    var o := PurchaseOrder(1, 1, "PO-000001", 300.0, Pending);
    var l := Ledger(map[1 := Supplier("SUP-0001", "A", 300.0, 0.0)], [], [o], [it]);
    assert ItemsOf([it], 1) == [it];
    SumOfSingleton(it, ItemTotal);
    assert OrdersOf([o], 1) == [o];
    SumOfSingleton(o, OrderAmount);
    assert WithoutItem([it], 1) == [];
    assert ItemsOf([], 1) == [];
  }

  /** One item of 300 on the first of two orders of one supplier, with every
      total in step. */
  const MoveStart: Ledger :=
    Ledger(map[1 := Supplier("SUP-0001", "A", 300.0, 0.0)], [],
           [PurchaseOrder(1, 1, "PO-000001", 300.0, Pending), PurchaseOrder(2, 1, "PO-000002", 0.0, Pending)],
           [PurchaseOrderItem(1, 1, 50.0, 6.0, 300.0)])

  lemma MoveStartPlaceable()
    ensures ItemPlaceable(MoveStart, 2) && OrderIndex(MoveStart.orders, 2) == 1
  {
    assert MoveStart.orders[1].pk == 2;
  }

  /** The supplier of the two orders has bought 300 in all. */
  lemma MoveStartPurchases()
    ensures PurchasesFrom(MoveStart.orders, 1) == 300.0
  {
    var o1 := PurchaseOrder(1, 1, "PO-000001", 300.0, Pending);
    var o2 := PurchaseOrder(2, 1, "PO-000002", 0.0, Pending);
    assert MoveStart.orders == [o1] + [o2];
    PurchasesFromAppend([o1], [o2], 1);
    PurchasesFromSingle(o1, 1);
    PurchasesFromSingle(o2, 1);
  }

  /** The item sums to 300 on the first order and nothing on the second. */
  lemma MoveStartOrderTotals()
    ensures OrderTotal(MoveStart.items, 1) == 300.0 && OrderTotal(MoveStart.items, 2) == 0.0
  {
    var it := PurchaseOrderItem(1, 1, 50.0, 6.0, 300.0);
    assert MoveStart.items == [it];
    assert [it][1..] == [];
    assert ItemsOf([it], 1) == [it];
    assert ItemsOf([it], 2) == [];
    SumOfSingleton(it, ItemTotal);
  }

  lemma MoveStartSynced()
    ensures PurchasesSynced(MoveStart)
  {
    MoveStartPurchases();
    MoveStartOrderTotals();
    assert |MoveStart.orders| == 2 && MoveStart.orders[0].pk == 1 && MoveStart.orders[1].pk == 2;
    forall k | k in MoveStart.suppliers
      ensures MoveStart.suppliers[k].totalPurchases == PurchasesFrom(MoveStart.orders, k)
    {
      assert k == 1;
    }
  }

  /** Moving an item to another order recounts only the new order: the old
      order keeps the 300 of the item it no longer has. */
  lemma MovedItemLeavesOldOrderStale()
    ensures ItemPlaceable(MoveStart, 2) && PurchasesSynced(MoveStart)
    ensures var r := SaveItem(MoveStart, MoveStart.items[0].(purchaseOrder := 2));
            && r.orders[0].totalAmount == 300.0
            && OrderTotal(r.items, 1) == 0.0
            && !PurchasesSynced(r)
  {
    MoveStartPlaceable();
    MoveStartSynced();
    var it := MoveStart.items[0];
    var moved := it.(purchaseOrder := 2);
    var r := SaveItem(MoveStart, moved);
    SaveItemStores(MoveStart, moved);
    assert WithoutItem([it], 1) == [];
    assert r.items == [moved.(totalPrice := 50.0 * 6.0)];
    assert r.orders[0] == MoveStart.orders[0];
    assert ItemsOf(r.items, 1) == [];
  }

  /** The first sample supplier with its completed purchase order, before any
      item: both were created, so both already carry their codes. */
  const SampleStart: Ledger :=
    Ledger(map[1 := Supplier("SUP-0001", "ABC Food Supplies", 0.0, 0.0)], [],
           [PurchaseOrder(1, 1, "PO-000001", 0.0, Completed)], [])

  /** A ledger holding the sample order (key 1, supplier 1) and no payments. */
  predicate SampleShape(l: Ledger)
  {
    1 in l.suppliers && |l.orders| == 1 && l.orders[0].pk == 1 && l.orders[0].supplier == 1 && l.payments == []
  }

  /** The first sample line: 50 units at 6. */
  lemma SampleFirstItem()
    ensures ItemPlaceable(SampleStart, 1)
    ensures var l1 := SaveItem(SampleStart, PurchaseOrderItem(1, 1, 50.0, 6.0, 0.0));
      SampleShape(l1) && l1.items == [PurchaseOrderItem(1, 1, 50.0, 6.0, 300.0)]
  {
    assert HasOrder(SampleStart.orders, 1) by { assert SampleStart.orders[0].pk == 1; }
    assert OrderIndex(SampleStart.orders, 1) == 0;
    assert WithoutItem([], 1) == [];
  }

  /** The second sample line, 20 units at 8.5, brings the purchases to 470. */
  lemma SampleSecondItem(l1: Ledger)
    requires SampleShape(l1) && l1.items == [PurchaseOrderItem(1, 1, 50.0, 6.0, 300.0)]
    ensures ItemPlaceable(l1, 1)
    ensures var l2 := SaveItem(l1, PurchaseOrderItem(2, 1, 20.0, 8.5, 0.0));
      SampleShape(l2) && l2.suppliers[1].totalPurchases == 470.0
  {
    assert HasOrder(l1.orders, 1) by { assert l1.orders[0].pk == 1; }
    assert OrderIndex(l1.orders, 1) == 0;
    var l2 := SaveItem(l1, PurchaseOrderItem(2, 1, 20.0, 8.5, 0.0));
    SaveItemStores(l1, PurchaseOrderItem(2, 1, 20.0, 8.5, 0.0));
    SampleSecondItemLines();
    assert l2.orders == [l2.orders[0]];
    FilterAll(l2.orders, (o: PurchaseOrder) => o.supplier == 1);
    SumOfSingleton(l2.orders[0], OrderAmount);
  }

  /** After the second sample line the order holds both lines, worth 470. */
  lemma SampleSecondItemLines()
    ensures OrderTotal(StoreItem([PurchaseOrderItem(1, 1, 50.0, 6.0, 300.0)], PurchaseOrderItem(2, 1, 20.0, 8.5, 170.0)), 1)
         == 470.0
  {
    var a := PurchaseOrderItem(1, 1, 50.0, 6.0, 300.0);
    var b := PurchaseOrderItem(2, 1, 20.0, 8.5, 170.0);
    FilterAll([a], (it: PurchaseOrderItem) => it.pk != 2);
    assert StoreItem([a], b) == [a, b];
    FilterAll([a, b], (it: PurchaseOrderItem) => it.purchaseOrder == 1);
    SumOfAppend([a], [b], ItemTotal);
    SumOfSingleton(a, ItemTotal);
    SumOfSingleton(b, ItemTotal);
  }

  /** The sample payments, 500 and 200, bring `total_paid` to 700 and leave
      the purchases alone. */
  lemma SamplePayments(l2: Ledger)
    requires SampleShape(l2)
    ensures var l4 := SavePayment(SavePayment(l2, SupplierPayment(1, 1, 500.0, Bank)), SupplierPayment(2, 1, 200.0, Cash));
      l4.suppliers[1].totalPaid == 700.0 && l4.suppliers[1].totalPurchases == l2.suppliers[1].totalPurchases
  {
    var p := SupplierPayment(1, 1, 500.0, Bank);
    var l3 := SavePayment(l2, p);
    SavePaymentStores(l2, p);
    SavePaymentStores(l3, SupplierPayment(2, 1, 200.0, Cash));
    SamplePaymentRows();
  }

  /** The payment table a payment save leaves behind. */
  lemma SavePaymentStores(l: Ledger, p: SupplierPayment)
    requires p.supplier in l.suppliers
    ensures SavePayment(l, p).payments == StorePayment(l.payments, p)
  {
  }

  /** The two sample payment rows add up to 700 for their supplier. */
  lemma SamplePaymentRows()
    ensures PaidTo(StorePayment(StorePayment([], SupplierPayment(1, 1, 500.0, Bank)), SupplierPayment(2, 1, 200.0, Cash)), 1)
         == 700.0
  {
    var p := SupplierPayment(1, 1, 500.0, Bank);
    var q := SupplierPayment(2, 1, 200.0, Cash);
    assert WithoutPayment([], 1) == [];
    assert StorePayment([], p) == [p];
    FilterAll([p], (r: SupplierPayment) => r.pk != 2);
    assert StorePayment([p], q) == [p, q];
    FilterAll([p, q], (r: SupplierPayment) => r.supplier == 1);
    SumOfAppend([p], [q], PaymentAmount);
    SumOfSingleton(p, PaymentAmount);
    SumOfSingleton(q, PaymentAmount);
  }

  /** The sample data: one supplier, one order with 50 units at 6 and 20 units
      at 8.5, then payments of 500 and 200. The supplier has bought 470 and
      paid 700, so it is owed 230: a negative balance. */
  lemma SampleBalance()
    ensures ItemPlaceable(SampleStart, 1) &&
            var l1 := SaveItem(SampleStart, PurchaseOrderItem(1, 1, 50.0, 6.0, 0.0));
            ItemPlaceable(l1, 1) &&
            var l2 := SaveItem(l1, PurchaseOrderItem(2, 1, 20.0, 8.5, 0.0));
            1 in l2.suppliers &&
            var l4 := SavePayment(SavePayment(l2, SupplierPayment(1, 1, 500.0, Bank)), SupplierPayment(2, 1, 200.0, Cash));
            && l4.suppliers[1].totalPurchases == 470.0
            && l4.suppliers[1].totalPaid == 700.0
            && BalanceDue(l4.suppliers[1]) == -230.0
  {
    SampleFirstItem();
    var l1 := SaveItem(SampleStart, PurchaseOrderItem(1, 1, 50.0, 6.0, 0.0));
    SampleSecondItem(l1);
    SamplePayments(SaveItem(l1, PurchaseOrderItem(2, 1, 20.0, 8.5, 0.0)));
  }
}
