/**
 * The owner's dashboard (app/owner/page.tsx): today's orders and revenue, the
 * active orders with their status buttons, and the toast after a status change.
 * "Today" is an abstract day key: `dayOf` gives the day of a creation
 * timestamp (`new Date(createdAt).toDateString()`), `today` the current one.
 */
module OwnerHome {
  import opened Wrappers
  import opened Seqs
  import opened Types
  import opened Toasts
  import opened Pages
  import opened OwnerOrders

  function OnDay(dayOf: string -> int, today: int): Order -> bool {
    (o: Order) => dayOf(o.createdAt) == today
  }

  function NotCancelled(): Order -> bool {
    (o: Order) => o.status != Cancelled
  }

  /** `todayOrders`: the orders created today, in list order. */
  function TodayOrders(orders: seq<Order>, dayOf: string -> int, today: int): (r: seq<Order>)
    ensures forall o :: o in r <==> o in orders && dayOf(o.createdAt) == today
  {
    Filter(orders, OnDay(dayOf, today))
  }

  /** `reduce((sum, o) => sum + o.totalAmount, 0)`, folding from the left. */
  function SumTotals(orders: seq<Order>): int {
    if orders == [] then 0 else SumTotals(orders[..|orders| - 1]) + orders[|orders| - 1].totalAmount
  }

  /** `todayRevenue`: the totals of today's orders that were not cancelled. */
  function TodayRevenue(orders: seq<Order>, dayOf: string -> int, today: int): int {
    SumTotals(Filter(TodayOrders(orders, dayOf, today), NotCancelled()))
  }

  /** What one order adds to today's revenue. */
  function Contribution(o: Order, dayOf: string -> int, today: int): int {
    if dayOf(o.createdAt) == today && o.status != Cancelled then o.totalAmount else 0
  }

  /** The reference definition: the sum of every order's contribution. */
  function SumContributions(orders: seq<Order>, dayOf: string -> int, today: int): int {
    if orders == [] then 0
    else Contribution(orders[0], dayOf, today) + SumContributions(orders[1..], dayOf, today)
  }

  /** Summing the totals of a concatenation adds the two sums. */
  lemma {:induction false} SumTotalsAppend(a: seq<Order>, b: seq<Order>)
    ensures SumTotals(a + b) == SumTotals(a) + SumTotals(b)
    decreases |b|
  {
    if b == [] {
      assert a + b == a;
    } else {
      var b' := b[..|b| - 1];
      assert (a + b)[..|a + b| - 1] == a + b';
      assert (a + b)[|a + b| - 1] == b[|b| - 1];
      SumTotalsAppend(a, b');
    }
  }

  /** Today's revenue of a concatenation is the sum of the two parts' revenues. */
  lemma RevenueAppend(a: seq<Order>, b: seq<Order>, dayOf: string -> int, today: int)
    ensures TodayRevenue(a + b, dayOf, today) == TodayRevenue(a, dayOf, today) + TodayRevenue(b, dayOf, today)
  {
    FilterAppend(a, b, OnDay(dayOf, today));
    FilterAppend(TodayOrders(a, dayOf, today), TodayOrders(b, dayOf, today), NotCancelled());
    SumTotalsAppend(Filter(TodayOrders(a, dayOf, today), NotCancelled()),
                    Filter(TodayOrders(b, dayOf, today), NotCancelled()));
  }

  /** A single order's revenue is its contribution. */
  lemma RevenueSingle(o: Order, dayOf: string -> int, today: int)
    ensures TodayRevenue([o], dayOf, today) == Contribution(o, dayOf, today)
  {
    assert [o][1..] == [];
    if dayOf(o.createdAt) == today {
      assert TodayOrders([o], dayOf, today) == [o];
      if o.status != Cancelled {
        assert Filter([o], NotCancelled()) == [o];
        assert [o][..0] == [];
        assert SumTotals([o]) == o.totalAmount;
      } else {
        assert Filter([o], NotCancelled()) == [];
      }
    }
  }

  /** `todayRevenue` is the sum of the totals of today's non-cancelled orders. */
  lemma {:induction false} RevenueIsSumOfContributions(orders: seq<Order>, dayOf: string -> int, today: int)
    ensures TodayRevenue(orders, dayOf, today) == SumContributions(orders, dayOf, today)
    decreases |orders|
  {
    if orders != [] {
      RevenueIsSumOfContributions(orders[1..], dayOf, today);
      assert orders == [orders[0]] + orders[1..];
      RevenueAppend([orders[0]], orders[1..], dayOf, today);
      RevenueSingle(orders[0], dayOf, today);
    }
  }

  /** Without a qualifying order the revenue is 0. */
  lemma {:induction false} NoQualifyingOrderNoRevenue(orders: seq<Order>, dayOf: string -> int, today: int)
    requires forall i :: 0 <= i < |orders| ==> orders[i].status == Cancelled || dayOf(orders[i].createdAt) != today
    ensures TodayRevenue(orders, dayOf, today) == 0
    decreases |orders|
  {
    RevenueIsSumOfContributions(orders, dayOf, today);
    if orders != [] {
      NoQualifyingOrderNoRevenue(orders[1..], dayOf, today);
      RevenueIsSumOfContributions(orders[1..], dayOf, today);
    }
  }

  /** Inserting a cancelled order, or one from another day, anywhere in the list leaves the revenue unchanged. */
  lemma IgnoredOrderKeepsRevenue(a: seq<Order>, o: Order, b: seq<Order>, dayOf: string -> int, today: int)
    requires o.status == Cancelled || dayOf(o.createdAt) != today
    ensures TodayRevenue(a + [o] + b, dayOf, today) == TodayRevenue(a + b, dayOf, today)
  {
    RevenueAppend(a + [o], b, dayOf, today);
    RevenueAppend(a, [o], dayOf, today);
    RevenueAppend(a, b, dayOf, today);
    RevenueSingle(o, dayOf, today);
  }

  /** Inserting one of today's live orders adds exactly its total. */
  lemma CountedOrderAddsTotal(a: seq<Order>, o: Order, b: seq<Order>, dayOf: string -> int, today: int)
    requires o.status != Cancelled && dayOf(o.createdAt) == today
    ensures TodayRevenue(a + [o] + b, dayOf, today) == TodayRevenue(a + b, dayOf, today) + o.totalAmount
  {
    RevenueAppend(a + [o], b, dayOf, today);
    RevenueAppend(a, [o], dayOf, today);
    RevenueAppend(a, b, dayOf, today);
    RevenueSingle(o, dayOf, today);
  }

  predicate IsActive(s: OrderStatus) {
    s == Pending || s == Preparing
  }

  /** `activeOrders`: the pending and preparing orders, in list order. */
  function ActiveOrders(orders: seq<Order>): (r: seq<Order>)
    ensures forall o :: o in r <==> o in orders && IsActive(o.status)
    ensures forall o :: o in r ==> !IsTerminal(o.status) && o.status != Ready
  {
    Filter(orders, (o: Order) => IsActive(o.status))
  }

  /** The buttons of a dashboard card: accept or decline a pending order, mark a preparing one ready. */
  function DashboardActions(s: OrderStatus): seq<OrderStatus> {
    match s
    case Pending => [Cancelled, Preparing]
    case Preparing => [Ready]
    case _ => []
  }

  /** The dashboard offers the board's actions for pending and preparing orders, and nothing else: no "served" button. */
  lemma DashboardActionsAgree(s: OrderStatus)
    ensures IsActive(s) ==> DashboardActions(s) == OrderActions(s) != []
    ensures !IsActive(s) ==> DashboardActions(s) == []
    ensures Served !in DashboardActions(s)
  {
  }

  /** Every card the dashboard shows has all the board's buttons. */
  lemma ActiveCardsHaveActions(orders: seq<Order>, o: Order)
    requires o in ActiveOrders(orders)
    ensures DashboardActions(o.status) == OrderActions(o.status) != []
  {
    DashboardActionsAgree(o.status);
  }

  /** The toast after an accepted status change: "Order declined" as an error for a cancellation, otherwise a success. */
  function UpdateNotice(target: OrderStatus): (n: Notice)
    ensures n.kind == Error <==> target == Cancelled
    ensures n.kind != Info
    ensures target == Cancelled ==> n.message == "Order declined"
    ensures target != Cancelled ==> n.message == "Order marked " + StatusName(target)
  {
    if target == Cancelled then Notice("Order declined", Error)
    else Notice("Order marked " + StatusName(target), Success)
  }

  /** `updateStatus` on the dashboard. */
  function DashboardUpdateReaction(outcome: ClientOutcome, target: OrderStatus): (r: Reaction)
    ensures outcome.Answered? && outcome.ok ==> r == Reaction(Some(UpdateNotice(target)), true)
    ensures outcome.Answered? && !outcome.ok ==> r == Silent
    ensures outcome.Threw? ==> r == Reaction(Some(Notice("Failed to update order", Error)), false)
  {
    match outcome
    case Threw => Reaction(Some(Notice("Failed to update order", Error)), false)
    case Answered(ok, _) => if ok then Reaction(Some(UpdateNotice(target)), true) else Silent
  }

  /** The dashboard's order list. */
  class OwnerHomePage {
    var orders: seq<Order>

    constructor ()
      ensures orders == []
    {
      orders := [];
    }

    /** `fetchOrders`: `reply` is the response's `data` list when present. */
    method FetchOrders(reply: Option<seq<Order>>)
      modifies this
      ensures orders == reply.GetOr(old(orders))
    {
      if reply.Some? {
        orders := reply.value;
      }
    }
  }
}
