/**
 * The customer's home page (app/customer/page.tsx): the table number kept in
 * `localStorage`, the link to the order still in progress, and the menu
 * section that only opens once a table is set.
 */
module CustomerHome {
  import opened Wrappers
  import opened Text
  import opened Types
  import opened Session

  /** An order the customer can still follow: pending, preparing or ready. */
  predicate InProgress(o: Order) {
    o.status == Pending || o.status == Preparing || o.status == Ready
  }

  /** `data.data.find(...)`: the first order still in progress. */
  function FindActive(orders: seq<Order>): (r: Option<Order>)
    ensures r.Some? ==> r.value in orders && InProgress(r.value)
    ensures r.None? <==> forall i :: 0 <= i < |orders| ==> !InProgress(orders[i])
  {
    if orders == [] then None
    else if InProgress(orders[0]) then Some(orders[0])
    else FindActive(orders[1..])
  }

  /** The order found is the first one in progress: none before it qualifies. */
  lemma {:induction false} FindActiveIsFirst(orders: seq<Order>, i: int)
    requires 0 <= i < |orders| && InProgress(orders[i])
    requires forall j :: 0 <= j < i ==> !InProgress(orders[j])
    ensures FindActive(orders) == Some(orders[i])
    decreases i
  {
    if i > 0 {
      FindActiveIsFirst(orders[1..], i - 1);
    }
  }

  /** Served and cancelled orders are never offered for tracking. */
  lemma FinishedNeverActive(orders: seq<Order>)
    ensures FindActive(orders).Some? ==> !IsTerminal(FindActive(orders).value.status)
  {
  }

  datatype Section = BrowseMenu | EnterTablePrompt

  class CustomerHomePage {
    const storage: LocalStorage
    var user: Option<User>
    var tableId: string
    var tableInput: string
    var showTableInput: bool
    var activeOrder: Option<Order>

    /** The mount effect: the stored user, and the stored table number when it is not empty. */
    constructor (storage: LocalStorage)
      ensures this.storage == storage
      ensures var raw := TruthyItem(storage.GetItem("auth_user"));
              user == (if raw.Some? then ParseUser(raw.value) else None)
      ensures tableId == TruthyItem(storage.GetItem("tableId")).GetOr("")
      ensures tableInput == "" && !showTableInput && activeOrder == None
    {
      this.storage := storage;
      var raw := TruthyItem(storage.GetItem("auth_user"));
      user := if raw.Some? then ParseUser(raw.value) else None;
      tableId := "";
      var stored := TruthyItem(storage.GetItem("tableId"));
      if stored.Some? {
        tableId := stored.value;
      }
      tableInput, showTableInput, activeOrder := "", false, None;
    }

    /** `checkOrder`: `reply` is the fetched order list, if any; finding nothing keeps the current order. */
    method CheckOrder(reply: Option<seq<Order>>)
      modifies this`activeOrder
      ensures reply.Some? && FindActive(reply.value).Some? ==> activeOrder == FindActive(reply.value)
      ensures reply.None? || FindActive(reply.value).None? ==> activeOrder == old(activeOrder)
    {
      if reply.Some? {
        var active := FindActive(reply.value);
        if active.Some? {
          activeOrder := active;
        }
      }
    }

    method OpenTableInput()
      modifies this`showTableInput
      ensures showTableInput
    {
      showTableInput := true;
    }

    method CancelTableInput()
      modifies this`showTableInput
      ensures !showTableInput
    {
      showTableInput := false;
    }

    method TypeTable(text: string)
      modifies this`tableInput
      ensures tableInput == text
    {
      tableInput := text;
    }

    /** Which of the two sections the page shows below the quick actions. */
    function Shown(): (s: Section)
      reads this
      ensures s == BrowseMenu <==> tableId != ""
      ensures s == EnterTablePrompt <==> tableId == ""
    {
      if tableId != "" then BrowseMenu else EnterTablePrompt
    }

    /**
     * `handleSetTable`: blank input changes nothing; otherwise the trimmed
     * input is stored and becomes the table, the input is cleared and the
     * panel closes, which opens the menu section.
     */
    method HandleSetTable()
      modifies this`tableId, this`tableInput, this`showTableInput, storage
      ensures AllWhitespace(old(tableInput)) ==>
                tableId == old(tableId) && tableInput == old(tableInput)
                && showTableInput == old(showTableInput) && storage.items == old(storage.items)
      ensures !AllWhitespace(old(tableInput)) ==>
                tableId == Trim(old(tableInput)) && tableInput == "" && !showTableInput
                && storage.items == old(storage.items)["tableId" := Trim(old(tableInput))]
      ensures !AllWhitespace(old(tableInput)) ==> Shown() == BrowseMenu
    {
      TrimEmptyIff(tableInput);
      var trimmed := Trim(tableInput);
      if trimmed != "" {
        storage.SetItem("tableId", trimmed);
        tableId := trimmed;
        showTableInput := false;
        tableInput := "";
      }
    }
  }
}
