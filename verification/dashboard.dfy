/** The home-page dashboard of core/views.py: money aggregates over all
    orders, the unpaid/partial/paid classification, delivery-window counts,
    the number of distinct customers and the most recent orders. */
module Dashboard {

  import opened Money
  import opened Sorting
  import opened OrderModels

  /** `received_amount <= 0`. */
  predicate IsUnpaid(o: Order)
  {
    o.receivedAmount <= 0.0
  }

  /** `received_amount > 0` and `total_amount > received_amount`. */
  predicate IsPartial(o: Order)
  {
    o.receivedAmount > 0.0 && o.totalAmount > o.receivedAmount
  }

  /** `total_amount <= received_amount`. */
  predicate IsPaid(o: Order)
  {
    o.totalAmount <= o.receivedAmount
  }

  predicate IsPending(o: Order)
  {
    IsUnpaid(o) || IsPartial(o)
  }

  predicate IsUnpaidAndPaid(o: Order)
  {
    IsUnpaid(o) && IsPaid(o)
  }

  function TotalOf(o: Order): Money
  {
    o.totalAmount
  }

  function ReceivedOf(o: Order): Money
  {
    o.receivedAmount
  }

  function DueOf(o: Order): Money
  {
    DueAmount(o)
  }

  /** The `CASE WHEN total_amount > received_amount` term: an overpaid order owes nothing. */
  function OutstandingOf(o: Order): Money
  {
    PositivePart(o.totalAmount - o.receivedAmount)
  }

  /** `delivery_date=today`. */
  predicate DeliveredOn(o: Order, day: Date)
  {
    o.details.deliveryDate == day
  }

  /** `delivery_date__gt=today, delivery_date__lte=today + 7`. */
  predicate DeliveredWithinWeek(o: Order, today: Date)
  {
    today < o.details.deliveryDate <= today + 7
  }

  /** The number of orders delivered on `day`: the count of positions whose
      order has that delivery date. */
  function CountDeliveredOn(os: seq<Order>, day: Date): (n: nat)
    ensures n == |set i | 0 <= i < |os| && DeliveredOn(os[i], day)|
    ensures n <= |os|
    decreases |os|
  {
    if os == [] then 0
    else
      var k := |os| - 1;
      var init := os[..k];
      var n := CountDeliveredOn(init, day);
      var before := set i | 0 <= i < |init| && DeliveredOn(init[i], day);
      assert (set i | 0 <= i < |os| && DeliveredOn(os[i], day))
          == before + (if DeliveredOn(os[k], day) then {k} else {});
      assert k !in before;
      n + (if DeliveredOn(os[k], day) then 1 else 0)
  }

  /** The number of orders delivered in the week after `today`: the count of
      positions whose order falls in that window. */
  function CountDeliveredWithinWeek(os: seq<Order>, today: Date): (n: nat)
    ensures n == |set i | 0 <= i < |os| && DeliveredWithinWeek(os[i], today)|
    ensures n <= |os|
    decreases |os|
  {
    if os == [] then 0
    else
      var k := |os| - 1;
      var init := os[..k];
      var n := CountDeliveredWithinWeek(init, today);
      var before := set i | 0 <= i < |init| && DeliveredWithinWeek(init[i], today);
      assert (set i | 0 <= i < |os| && DeliveredWithinWeek(os[i], today))
          == before + (if DeliveredWithinWeek(os[k], today) then {k} else {});
      assert k !in before;
      n + (if DeliveredWithinWeek(os[k], today) then 1 else 0)
  }

  /** Some order was placed by customer `name`. */
  predicate HasCustomer(os: seq<Order>, name: string)
  {
    exists i :: 0 <= i < |os| && os[i].details.customerName == name
  }

  lemma HasCustomerCons(os: seq<Order>, name: string)
    requires os != []
    ensures HasCustomer(os, name) <==> os[0].details.customerName == name || HasCustomer(os[1..], name)
  {
    if HasCustomer(os[1..], name) {
      var i :| 0 <= i < |os[1..]| && os[1..][i].details.customerName == name;
      assert os[i + 1] == os[1..][i];
    }
    if HasCustomer(os, name) && os[0].details.customerName != name {
      var i :| 0 <= i < |os| && os[i].details.customerName == name;
      assert os[1..][i - 1] == os[i];
    }
  }

  /** The distinct customer names (`values("customer_name").distinct()`). */
  function CustomerNames(os: seq<Order>): (names: set<string>)
    ensures |names| <= |os|
    ensures forall n :: n in names <==> HasCustomer(os, n)
  {
    if os == [] then {}
    else
      var rest := CustomerNames(os[1..]);
      assert forall n :: HasCustomer(os, n) <==> os[0].details.customerName == n || HasCustomer(os[1..], n) by {
        forall n
          ensures HasCustomer(os, n) <==> os[0].details.customerName == n || HasCustomer(os[1..], n)
        {
          HasCustomerCons(os, n);
        }
      }
      {os[0].details.customerName} + rest
  }

  /** The context `index` renders. */
  datatype Summary = Summary(
    totalOrders: nat,
    totalBilled: Money,
    totalReceived: Money,
    outstanding: Money,
    pendingDue: Money,
    pendingOrders: nat,
    unpaidOrders: nat,
    partialOrders: nat,
    paidOrders: nat,
    todayDeliveries: nat,
    upcomingDeliveries: nat,
    totalCustomers: nat,
    recentOrders: seq<Order>)

  /** The eight orders with the highest ids, highest first. */
  function RecentOrders(os: seq<Order>): (r: seq<Order>)
    ensures |r| == if |os| < 8 then |os| else 8
    ensures forall i, j :: 0 <= i < j < |r| ==> r[i].id >= r[j].id
    ensures forall o :: o in r ==> o in os
    ensures multiset(r) <= multiset(os)
  {
    var sorted := SortDesc(os, OrderKeyOf);
    var r := Take(sorted, 8);
    TakeKeepsSortedDesc(sorted, 8, OrderKeyOf);
    assert forall i, j :: 0 <= i < j < |r| ==> AtLeast(OrderKeyOf(r[i]), OrderKeyOf(r[j]));
    assert forall o :: o in r ==> o in multiset(os);
    r
  }

  function OrderKeyOf(o: Order): SortKey
  {
    SortKey(o.id, 0)
  }

  /** `index`: the dashboard figures, all computed from the current order table. */
  function Index(os: seq<Order>, today: Date): (s: Summary)
    ensures s.totalOrders == |os|
    ensures s.totalBilled == SumOf(os, TotalOf) && s.totalReceived == SumOf(os, ReceivedOf)
    ensures s.outstanding == SumOf(os, OutstandingOf)
    ensures s.unpaidOrders == CountIf(os, IsUnpaid) && s.partialOrders == CountIf(os, IsPartial)
    ensures s.paidOrders == CountIf(os, IsPaid)
    ensures s.todayDeliveries == CountDeliveredOn(os, today)
    ensures s.upcomingDeliveries == CountDeliveredWithinWeek(os, today)
    ensures s.totalCustomers == |CustomerNames(os)|
    ensures s.recentOrders == RecentOrders(os)
    ensures s.pendingDue == s.outstanding
    ensures s.pendingOrders == s.unpaidOrders + s.partialOrders
    ensures s.outstanding >= 0.0
    ensures s.outstanding >= s.totalBilled - s.totalReceived
    ensures s.totalBilled - s.totalReceived == SumOf(os, DueOf)
    ensures s.outstanding == s.totalBilled - s.totalReceived
        <==> forall i :: 0 <= i < |os| ==> os[i].receivedAmount <= os[i].totalAmount
    ensures s.unpaidOrders + s.partialOrders + s.paidOrders == |os| + CountIf(os, IsUnpaidAndPaid)
    ensures os == [] ==> s.totalBilled == 0.0 && s.totalReceived == 0.0 && s.outstanding == 0.0
    ensures s.todayDeliveries + s.upcomingDeliveries <= s.totalOrders == |os|
    ensures s.totalCustomers <= |os|
  {
    var unpaid := CountIf(os, IsUnpaid);
    var partial := CountIf(os, IsPartial);
    SumOfNonNegative(os, OutstandingOf);
    OutstandingVersusDue(os);
    DueSum(os);
    ClassCounts(os);
    DeliveryWindowsDisjoint(os, today);
    Summary(
      |os|,
      SumOf(os, TotalOf),
      SumOf(os, ReceivedOf),
      SumOf(os, OutstandingOf),
      SumOf(os, OutstandingOf),
      unpaid + partial,
      unpaid,
      partial,
      CountIf(os, IsPaid),
      CountDeliveredOn(os, today),
      CountDeliveredWithinWeek(os, today),
      |CustomerNames(os)|,
      RecentOrders(os))
  }

  /** Partial excludes the other two classes, every order is in some class,
      and an order is both unpaid and paid exactly when total <= received <= 0. */
  lemma Classification(o: Order)
    ensures IsPartial(o) ==> !IsUnpaid(o) && !IsPaid(o)
    ensures IsUnpaid(o) || IsPartial(o) || IsPaid(o)
    ensures IsUnpaidAndPaid(o) <==> o.totalAmount <= o.receivedAmount <= 0.0
  {
  }

  /** Counting each class separately counts every order once, plus once more
      for each order that is both unpaid and paid. */
  lemma {:induction false} ClassCounts(os: seq<Order>)
    ensures CountIf(os, IsUnpaid) + CountIf(os, IsPartial) + CountIf(os, IsPaid)
         == |os| + CountIf(os, IsUnpaidAndPaid)
  {
    if os != [] {
      ClassCounts(os[1..]);
    }
  }

  /** Pending and paid orders together count every order once, plus the
      orders that are both unpaid and paid. */
  lemma PendingPlusPaid(os: seq<Order>, today: Date)
    ensures Index(os, today).pendingOrders + Index(os, today).paidOrders == |os| + CountIf(os, IsUnpaidAndPaid)
  {
    ClassCounts(os);
  }

  /** No order is delivered both today and in the week ahead, so the two
      counts add up to the number of orders in either window. */
  lemma {:induction false} DeliveryWindowsDisjoint(os: seq<Order>, today: Date)
    ensures forall o :: !(DeliveredOn(o, today) && DeliveredWithinWeek(o, today))
    ensures CountDeliveredOn(os, today) + CountDeliveredWithinWeek(os, today)
         == |set i | 0 <= i < |os| && (DeliveredOn(os[i], today) || DeliveredWithinWeek(os[i], today))|
    ensures CountDeliveredOn(os, today) + CountDeliveredWithinWeek(os, today) <= |os|
    decreases |os|
  {
    var on := set i | 0 <= i < |os| && DeliveredOn(os[i], today);
    var week := set i | 0 <= i < |os| && DeliveredWithinWeek(os[i], today);
    var either := set i | 0 <= i < |os| && (DeliveredOn(os[i], today) || DeliveredWithinWeek(os[i], today));
    assert either == on + week;
    assert on * week == {};
    if os != [] {
      DeliveryWindowsDisjoint(os[..|os| - 1], today);
    }
  }

  /** Billed minus received is the sum of the orders' due amounts. */
  lemma {:induction false} DueSum(os: seq<Order>)
    ensures SumOf(os, DueOf) == SumOf(os, TotalOf) - SumOf(os, ReceivedOf)
  {
    if os != [] {
      DueSum(os[1..]);
    }
  }

  /** The outstanding figure never understates billed minus received, and
      equals it exactly when no order is overpaid. */
  lemma {:induction false} OutstandingVersusDue(os: seq<Order>)
    ensures SumOf(os, OutstandingOf) >= SumOf(os, TotalOf) - SumOf(os, ReceivedOf)
    ensures SumOf(os, OutstandingOf) == SumOf(os, TotalOf) - SumOf(os, ReceivedOf)
        <==> forall i :: 0 <= i < |os| ==> os[i].receivedAmount <= os[i].totalAmount
  {
    DueSum(os);
    if os != [] {
      OutstandingVersusDue(os[1..]);
      var t := os[1..];
      assert forall i :: 1 <= i < |os| ==> os[i] == t[i - 1];
      SumOfMonotone(t, DueOf, OutstandingOf);
    }
  }

  /** The recent orders are the top of the id order: every order left out has
      an id no larger than any order shown. */
  lemma RecentOrdersAreNewest(os: seq<Order>)
    ensures forall o, p :: o in RecentOrders(os) && p in os && p !in RecentOrders(os) ==> o.id >= p.id
  {
    var sorted := SortDesc(os, OrderKeyOf);
    var r := RecentOrders(os);
    forall o, p | o in r && p in os && p !in r
      ensures o.id >= p.id
    {
      assert p in multiset(sorted);
      var j :| 0 <= j < |sorted| && sorted[j] == p;
      var i :| 0 <= i < |r| && r[i] == o;
      assert r == sorted[..|r|];
      assert AtLeast(OrderKeyOf(sorted[i]), OrderKeyOf(sorted[j]));
    }
  }
}
