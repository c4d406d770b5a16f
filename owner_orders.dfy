/**
 * The owner's order board (app/owner/orders/page.tsx): orders split into four
 * tabs with counts, the status actions each order offers, deletion from the
 * history tab, and the "time ago" label.
 */
module OwnerOrders {
  import opened Wrappers
  import opened Seqs
  import opened Text
  import opened Types
  import opened Toasts
  import opened Pages

  /** `timeAgo`'s result: the bucket and its whole count, or the "NaN" days an unparseable date gives. */
  datatype Elapsed = JustNow | MinutesAgo(minutes: nat) | HoursAgo(hours: nat) | DaysAgo(days: nat) | NaNDaysAgo

  const MinuteMs: int := 60000
  const HourMs: int := 3600000
  const DayMs: int := 86400000

  /** Whole hours counted from whole minutes are whole hours counted from milliseconds. */
  lemma MinutesToHours(d: int)
    ensures (d / MinuteMs) / 60 == d / HourMs
  {
  }

  /** Whole days counted from whole hours are whole days counted from milliseconds. */
  lemma HoursToDays(d: int)
    ensures (d / HourMs) / 24 == d / DayMs
  {
  }

  /**
   * `timeAgo` on the elapsed milliseconds `diffMs` (None when the creation
   * date does not parse, which makes the difference NaN).
   */
  function TimeAgo(diffMs: Option<int>): (r: Elapsed)
    ensures r == NaNDaysAgo <==> diffMs.None?
    ensures r == JustNow <==> diffMs.Some? && diffMs.value < MinuteMs
    ensures r.MinutesAgo? <==> diffMs.Some? && MinuteMs <= diffMs.value < HourMs
    ensures r.HoursAgo? <==> diffMs.Some? && HourMs <= diffMs.value < DayMs
    ensures r.DaysAgo? <==> diffMs.Some? && DayMs <= diffMs.value
    ensures r.MinutesAgo? ==> 1 <= r.minutes < 60 && r.minutes * MinuteMs <= diffMs.value < (r.minutes + 1) * MinuteMs
    ensures r.HoursAgo? ==> 1 <= r.hours < 24 && r.hours * HourMs <= diffMs.value < (r.hours + 1) * HourMs
    ensures r.DaysAgo? ==> 1 <= r.days && r.days * DayMs <= diffMs.value < (r.days + 1) * DayMs
  {
    if diffMs.None? then NaNDaysAgo
    else
      var d := diffMs.value;
      var min := d / MinuteMs;
      if min < 1 then JustNow
      else if min < 60 then MinutesAgo(min)
      else
        var hr := min / 60;
        MinutesToHours(d);
        if hr < 24 then HoursAgo(hr)
        else
          HoursToDays(d);
          DaysAgo(hr / 24)
  }

  /** The label the board shows: "just now", or a label ending in " ago". */
  function ElapsedText(e: Elapsed): (r: string)
    ensures r == "just now" <==> e.JustNow?
    ensures !e.JustNow? ==> |r| > 4 && r[|r| - 4..] == " ago"
  {
    match e
    case JustNow => "just now"
    case MinutesAgo(m) => CountLabel(m, 'm')
    case HoursAgo(h) => CountLabel(h, 'h')
    case DaysAgo(d) => CountLabel(d, 'd')
    case NaNDaysAgo => "NaNd ago"
  }

  /** A count followed by its unit letter and " ago"; it starts with a digit, so it is never "just now". */
  function CountLabel(n: nat, unit: char): (r: string)
    ensures r == NatToDecimal(n) + [unit] + " ago"
    ensures |r| == |NatToDecimal(n)| + 5 && r[|r| - 5] == unit
    ensures IsDigit(r[0]) && r != "just now"
  {
    var digits := NatToDecimal(n);
    assert (digits + [unit] + " ago")[0] == digits[0];
    assert !IsDigit("just now"[0]);
    digits + [unit] + " ago"
  }

  /** Labels other than "just now" start with their count, so equal labels mean equal buckets. */
  lemma ElapsedTextInjective(e1: Elapsed, e2: Elapsed)
    requires ElapsedText(e1) == ElapsedText(e2)
    ensures e1 == e2
  {
    var t := ElapsedText(e1);
    if e1.MinutesAgo? || e1.HoursAgo? || e1.DaysAgo? {
      var p1 := NatToDecimal(Count(e1));
      assert t == p1 + t[|p1|..] && |t[|p1|..]| == 5;
      assert t[0] == p1[0] && IsDigit(t[0]);
      if e2.MinutesAgo? || e2.HoursAgo? || e2.DaysAgo? {
        var p2 := NatToDecimal(Count(e2));
        assert t == p2 + t[|p2|..] && |t[|p2|..]| == 5;
        assert p1 == t[..|t| - 5] == p2;
        assert t[|t| - 5] == ElapsedText(e2)[|t| - 5];
        NatToDecimalInjective(Count(e1), Count(e2));
      }
    }
  }

  /** The number a label starts with (0 for the labels without one). */
  function Count(e: Elapsed): nat {
    match e
    case MinutesAgo(m) => m
    case HoursAgo(h) => h
    case DaysAgo(d) => d
    case _ => 0
  }

  datatype Tab = PendingTab | PreparingTab | ReadyTab | HistoryTab

  /** Which statuses a tab lists: its own, and served or cancelled for the history tab. */
  predicate InTab(tab: Tab, s: OrderStatus) {
    match tab
    case PendingTab => s == Pending
    case PreparingTab => s == Preparing
    case ReadyTab => s == Ready
    case HistoryTab => s == Served || s == Cancelled
  }

  /** Every status belongs to exactly one tab. */
  function TabOf(s: OrderStatus): (t: Tab)
    ensures InTab(t, s)
    ensures forall u :: InTab(u, s) ==> u == t
  {
    match s
    case Pending => PendingTab
    case Preparing => PreparingTab
    case Ready => ReadyTab
    case _ => HistoryTab
  }

  function ListedIn(tab: Tab): Order -> bool {
    (o: Order) => InTab(tab, o.status)
  }

  /** The orders a tab shows (`filtered`), in the order they were fetched. */
  function Filtered(orders: seq<Order>, tab: Tab): (r: seq<Order>)
    ensures forall o :: o in r <==> o in orders && InTab(tab, o.status)
  {
    Filter(orders, ListedIn(tab))
  }

  /** Each copy of an order is listed on exactly one tab. */
  lemma TabCopies(orders: seq<Order>, o: Order)
    ensures multiset(Filtered(orders, PendingTab))[o] + multiset(Filtered(orders, PreparingTab))[o]
            + multiset(Filtered(orders, ReadyTab))[o] + multiset(Filtered(orders, HistoryTab))[o] == multiset(orders)[o]
  {
    var n := multiset(orders)[o];
    FilterMultiplicity(orders, ListedIn(PendingTab), o);
    FilterMultiplicity(orders, ListedIn(PreparingTab), o);
    FilterMultiplicity(orders, ListedIn(ReadyTab), o);
    FilterMultiplicity(orders, ListedIn(HistoryTab), o);
    assert multiset(Filtered(orders, PendingTab))[o] == if o.status == Pending then n else 0;
    assert multiset(Filtered(orders, PreparingTab))[o] == if o.status == Preparing then n else 0;
    assert multiset(Filtered(orders, ReadyTab))[o] == if o.status == Ready then n else 0;
    assert multiset(Filtered(orders, HistoryTab))[o] == if o.status == Served || o.status == Cancelled then n else 0;
  }

  /** The four tabs partition the list: their sizes add up and together they hold each order as often as the list does. */
  lemma TabsPartition(orders: seq<Order>)
    ensures |Filtered(orders, PendingTab)| + |Filtered(orders, PreparingTab)|
            + |Filtered(orders, ReadyTab)| + |Filtered(orders, HistoryTab)| == |orders|
    ensures multiset(Filtered(orders, PendingTab)) + multiset(Filtered(orders, PreparingTab))
            + multiset(Filtered(orders, ReadyTab)) + multiset(Filtered(orders, HistoryTab)) == multiset(orders)
  {
    var pending, preparing := Filtered(orders, PendingTab), Filtered(orders, PreparingTab);
    var ready, history := Filtered(orders, ReadyTab), Filtered(orders, HistoryTab);
    forall o: Order
      ensures (multiset(pending) + multiset(preparing) + multiset(ready) + multiset(history))[o] == multiset(orders)[o]
    {
      TabCopies(orders, o);
    }
    assert multiset(pending) + multiset(preparing) + multiset(ready) + multiset(history) == multiset(orders);
    calc {
      |orders|;
      |multiset(orders)|;
      |multiset(pending)| + |multiset(preparing)| + |multiset(ready)| + |multiset(history)|;
      |pending| + |preparing| + |ready| + |history|;
    }
  }

  datatype TabCounts = TabCounts(pending: nat, preparing: nat, ready: nat, history: nat) {
    function Of(t: Tab): nat {
      match t
      case PendingTab => pending
      case PreparingTab => preparing
      case ReadyTab => ready
      case HistoryTab => history
    }
  }

  /** `counts`: the badge of each tab is the size of that tab's list, and the badges add up to the number of orders. */
  function Counts(orders: seq<Order>): (c: TabCounts)
    ensures forall t :: c.Of(t) == |Filtered(orders, t)|
    ensures c.pending + c.preparing + c.ready + c.history == |orders|
  {
    TabsPartition(orders);
    TabCounts(|Filtered(orders, PendingTab)|, |Filtered(orders, PreparingTab)|,
              |Filtered(orders, ReadyTab)|, |Filtered(orders, HistoryTab)|)
  }

  /** The status buttons an order card offers, in the order they are shown. */
  function OrderActions(s: OrderStatus): (r: seq<OrderStatus>)
    ensures forall t :: t in r ==> CanTransition(s, t)
    ensures r == [] <==> IsTerminal(s)
  {
    match s
    case Pending => [Cancelled, Preparing]
    case Preparing => [Ready]
    case Ready => [Served]
    case Served => []
    case Cancelled => []
  }

  /**
   * The board offers exactly the reference lifecycle's transitions, except
   * cancelling an order that is already being prepared.
   */
  lemma ActionsFollowLifecycle(s: OrderStatus, t: OrderStatus)
    ensures t in OrderActions(s) <==> CanTransition(s, t) && !(s == Preparing && t == Cancelled)
  {
  }

  /** Served and cancelled orders get no status button, and every other order gets at least one. */
  lemma TerminalOffersNothing(s: OrderStatus)
    ensures OrderActions(s) == [] <==> IsTerminal(s)
  {
  }

  /** The delete button appears only on the history tab. */
  predicate DeleteOffered(tab: Tab) {
    tab == HistoryTab
  }

  /** So only served or cancelled orders can be deleted. */
  lemma DeleteOnlyTerminal(orders: seq<Order>, tab: Tab, o: Order)
    requires DeleteOffered(tab) && o in Filtered(orders, tab)
    ensures IsTerminal(o.status) && OrderActions(o.status) == []
  {
  }

  /** `updateStatus`: a toast and a refetch on success, nothing on a refused request, an error toast when the call throws. */
  function UpdateStatusReaction(outcome: ClientOutcome, target: OrderStatus): (r: Reaction)
    ensures outcome.Answered? && !outcome.ok ==> r == Silent
    ensures outcome.Threw? ==> r == Reaction(Some(Notice("Failed to update", Error)), false)
    ensures outcome.Answered? && outcome.ok ==>
              r.refetch && r.notice == Some(Notice("Order marked " + StatusName(target), Success))
  {
    match outcome
    case Threw => Reaction(Some(Notice("Failed to update", Error)), false)
    case Answered(ok, _) =>
      if ok then Reaction(Some(Notice("Order marked " + StatusName(target), Success)), true) else Silent
  }

  /** The board's state. */
  class OwnerOrdersPage {
    var orders: seq<Order>
    var tab: Tab
    var confirmDelete: Option<string>

    constructor ()
      ensures orders == [] && tab == PendingTab && confirmDelete == None
    {
      orders, tab, confirmDelete := [], PendingTab, None;
    }

    /** What the board lists now. */
    function Shown(): (r: seq<Order>)
      reads this
      ensures forall o :: o in r <==> o in orders && InTab(tab, o.status)
      ensures r == Filtered(orders, tab)
    {
      Filtered(orders, tab)
    }

    /** `fetchOrders`: `reply` is the response's `data` list when it is present, None otherwise (or when the call threw). */
    method FetchOrders(reply: Option<seq<Order>>)
      modifies this`orders
      ensures orders == reply.GetOr(old(orders))
    {
      if reply.Some? {
        orders := reply.value;
      }
    }

    method SelectTab(t: Tab)
      modifies this`tab
      ensures tab == t
    {
      tab := t;
    }

    /** The "Delete" button of a shown history card asks for confirmation. */
    method AskDelete(o: Order)
      requires DeleteOffered(tab) && o in Shown()
      modifies this`confirmDelete
      ensures confirmDelete == Some(o.id)
      ensures IsTerminal(o.status)
    {
      confirmDelete := Some(o.id);
    }

    /** The "Cancel" button of the confirmation. */
    method CancelDelete()
      modifies this`confirmDelete
      ensures confirmDelete == None
    {
      confirmDelete := None;
    }

    /**
     * `deleteOrder` after "Confirm Delete": only an accepted request clears the
     * confirmation; a refused one changes nothing and a thrown one only toasts.
     */
    method DeleteOrder(outcome: ClientOutcome) returns (r: Reaction)
      requires confirmDelete.Some?
      modifies this`confirmDelete
      ensures outcome.Answered? && outcome.ok ==>
                confirmDelete == None && r == Reaction(Some(Notice("Order deleted", Success)), true)
      ensures outcome.Answered? && !outcome.ok ==> confirmDelete == old(confirmDelete) && r == Silent
      ensures outcome.Threw? ==>
                confirmDelete == old(confirmDelete) && r == Reaction(Some(Notice("Delete failed", Error)), false)
    {
      match outcome
      case Threw =>
        r := Reaction(Some(Notice("Delete failed", Error)), false);
      case Answered(ok, _) =>
        if ok {
          confirmDelete := None;
          r := Reaction(Some(Notice("Order deleted", Success)), true);
        } else {
          r := Silent;
        }
    }
  }
}
