/**
 * The owner's menu management page (app/owner/menu/page.tsx): items grouped
 * by category with collapsible sections, the add/edit form and its
 * submission, and deletion.
 */
module OwnerMenu {
  import opened Wrappers
  import opened Seqs
  import opened Text
  import opened Types
  import opened Http
  import opened Constants
  import opened Toasts
  import opened Pages

  function InCategory(c: MenuCategory): MenuItem -> bool {
    (i: MenuItem) => i.category == c
  }

  /** The `reduce` over the categories: each step writes `acc[cat]`. */
  function GroupInto(cats: seq<MenuCategory>, items: seq<MenuItem>, acc: map<MenuCategory, seq<MenuItem>>)
    : map<MenuCategory, seq<MenuItem>>
    decreases |cats|
  {
    if cats == [] then acc
    else GroupInto(cats[1..], items, acc[cats[0] := Filter(items, InCategory(cats[0]))])
  }

  /** After the reduce, every visited category holds its items and the other entries are as they were. */
  lemma {:induction false} GroupIntoEntries(cats: seq<MenuCategory>, items: seq<MenuItem>, acc: map<MenuCategory, seq<MenuItem>>)
    ensures forall c :: c in GroupInto(cats, items, acc) <==> c in cats || c in acc
    ensures forall c :: c in cats ==> GroupInto(cats, items, acc)[c] == Filter(items, InCategory(c))
    ensures forall c :: c !in cats && c in acc ==> GroupInto(cats, items, acc)[c] == acc[c]
    decreases |cats|
  {
    if cats != [] {
      GroupIntoEntries(cats[1..], items, acc[cats[0] := Filter(items, InCategory(cats[0]))]);
      assert cats == [cats[0]] + cats[1..];
    }
  }

  /** `grouped`: one entry per category, holding that category's items in list order. */
  function Grouped(items: seq<MenuItem>): (g: map<MenuCategory, seq<MenuItem>>)
    ensures forall c :: c in g && g[c] == Filter(items, InCategory(c))
  {
    GroupIntoEntries(Categories, items, map[]);
    forall c ensures c in Categories { CategoriesComplete(c); }
    GroupInto(Categories, items, map[])
  }

  /** Each copy of an item lands in exactly one category filter. */
  lemma CategoryCopies(items: seq<MenuItem>, y: MenuItem)
    ensures multiset(Filter(items, InCategory(Tea)))[y] + multiset(Filter(items, InCategory(Coffee)))[y]
            + multiset(Filter(items, InCategory(Cigarette)))[y] + multiset(Filter(items, InCategory(Snacks)))[y]
            == multiset(items)[y]
  {
    var n := multiset(items)[y];
    FilterMultiplicity(items, InCategory(Tea), y);
    FilterMultiplicity(items, InCategory(Coffee), y);
    FilterMultiplicity(items, InCategory(Cigarette), y);
    FilterMultiplicity(items, InCategory(Snacks), y);
    assert multiset(Filter(items, InCategory(Tea)))[y] == if y.category == Tea then n else 0;
    assert multiset(Filter(items, InCategory(Coffee)))[y] == if y.category == Coffee then n else 0;
    assert multiset(Filter(items, InCategory(Cigarette)))[y] == if y.category == Cigarette then n else 0;
    assert multiset(Filter(items, InCategory(Snacks)))[y] == if y.category == Snacks then n else 0;
  }

  /** The four category filters together hold every item exactly as often as the list does. */
  lemma CategoryFiltersPartition(items: seq<MenuItem>)
    ensures multiset(Filter(items, InCategory(Tea))) + multiset(Filter(items, InCategory(Coffee)))
            + multiset(Filter(items, InCategory(Cigarette))) + multiset(Filter(items, InCategory(Snacks)))
            == multiset(items)
  {
    forall y: MenuItem
      ensures (multiset(Filter(items, InCategory(Tea))) + multiset(Filter(items, InCategory(Coffee)))
               + multiset(Filter(items, InCategory(Cigarette))) + multiset(Filter(items, InCategory(Snacks))))[y]
              == multiset(items)[y]
    {
      CategoryCopies(items, y);
    }
  }

  /** Each item sits in exactly one group: the group sizes add up to the number of items. */
  lemma GroupsPartition(items: seq<MenuItem>)
    ensures |Grouped(items)[Tea]| + |Grouped(items)[Coffee]| + |Grouped(items)[Cigarette]| + |Grouped(items)[Snacks]| == |items|
    ensures multiset(Grouped(items)[Tea]) + multiset(Grouped(items)[Coffee])
            + multiset(Grouped(items)[Cigarette]) + multiset(Grouped(items)[Snacks]) == multiset(items)
  {
    var g := Grouped(items);
    var tea, coffee, cigarette, snacks := g[Tea], g[Coffee], g[Cigarette], g[Snacks];
    CategoryFiltersPartition(items);
    assert multiset(tea) + multiset(coffee) + multiset(cigarette) + multiset(snacks) == multiset(items);
    calc {
      |items|;
      |multiset(items)|;
      |multiset(tea) + multiset(coffee) + multiset(cigarette) + multiset(snacks)|;
      |multiset(tea)| + |multiset(coffee)| + |multiset(cigarette)| + |multiset(snacks)|;
      |tea| + |coffee| + |cigarette| + |snacks|;
    }
  }

  /** `collapsed[cat]`, with a missing entry read as false. */
  predicate IsCollapsed(collapsed: map<string, bool>, cat: string) {
    cat in collapsed && collapsed[cat]
  }

  /** `toggleCollapse(cat)`: flips one category's flag and leaves the others' entries alone. */
  function ToggleCollapse(collapsed: map<string, bool>, cat: string): (r: map<string, bool>)
    ensures IsCollapsed(r, cat) == !IsCollapsed(collapsed, cat)
    ensures r.Keys == collapsed.Keys + {cat}
    ensures forall k :: k in collapsed && k != cat ==> r[k] == collapsed[k]
  {
    collapsed[cat := !IsCollapsed(collapsed, cat)]
  }

  /** Toggling a category twice shows every section as before. */
  lemma ToggleTwice(collapsed: map<string, bool>, cat: string, k: string)
    ensures IsCollapsed(ToggleCollapse(ToggleCollapse(collapsed, cat), cat), k) == IsCollapsed(collapsed, k)
  {
  }

  /** The form fields; `image` is the chosen file's name. */
  datatype MenuForm = MenuForm(name: string, price: string, category: MenuCategory, image: Option<string>, preview: Option<string>)

  const EmptyForm: MenuForm := MenuForm("", "", Tea, None, None)

  datatype ModalState = ModalState(open: bool, editing: Option<MenuItem>)

  /** A request from the page to its own API routes. */
  datatype ClientRequest = ClientRequest(verb: Method, url: string, entries: seq<FormEntry>)

  datatype SubmitPlan = Rejected | Send(request: ClientRequest)

  /** The form data `handleSubmit` builds: the trimmed name, the raw price, the category, and the image if one was chosen. */
  function FormEntries(form: MenuForm): (e: seq<FormEntry>)
    ensures |e| == if form.image.Some? then 4 else 3
    ensures e[0] == FormEntry("name", TextValue(Trim(form.name)))
    ensures e[1] == FormEntry("price", TextValue(form.price))
    ensures e[2] == FormEntry("category", TextValue(CategoryName(form.category)))
    ensures form.image.Some? ==> e[3] == FormEntry("image", FileValue(form.image.value))
  {
    [FormEntry("name", TextValue(Trim(form.name))),
     FormEntry("price", TextValue(form.price)),
     FormEntry("category", TextValue(CategoryName(form.category)))]
    + (if form.image.Some? then [FormEntry("image", FileValue(form.image.value))] else [])
  }

  /**
   * What `handleSubmit` does with the form: refuse a name or price that is empty
   * after trimming, otherwise PUT to the item's URL when editing and POST to the
   * collection when adding.
   */
  function PlanSubmit(form: MenuForm, editing: Option<MenuItem>): (p: SubmitPlan)
    ensures p.Rejected? <==> Trim(form.name) == "" || Trim(form.price) == ""
    ensures p.Send? ==> p.request.entries == FormEntries(form)
    ensures p.Send? && editing.Some? ==> p.request.verb == PUT && p.request.url == "/api/menu/" + editing.value.id
    ensures p.Send? && editing.None? ==> p.request.verb == POST && p.request.url == "/api/menu"
  {
    if Trim(form.name) == "" || Trim(form.price) == "" then Rejected
    else if editing.Some? then Send(ClientRequest(PUT, "/api/menu/" + editing.value.id, FormEntries(form)))
    else Send(ClientRequest(POST, "/api/menu", FormEntries(form)))
  }

  /** A name or a price made only of whitespace is refused. */
  lemma BlankFieldRejected(form: MenuForm, editing: Option<MenuItem>)
    requires AllWhitespace(form.name) || AllWhitespace(form.price)
    ensures PlanSubmit(form, editing).Rejected?
  {
    TrimEmptyIff(form.name);
    TrimEmptyIff(form.price);
  }

  /** A sent name has no surrounding whitespace, and trimming it again would not change it. */
  lemma SentNameIsTrimmed(form: MenuForm, editing: Option<MenuItem>)
    requires PlanSubmit(form, editing).Send?
    ensures var name := Trim(form.name);
            name != "" && !IsWhitespace(name[0]) && !IsWhitespace(name[|name| - 1]) && Trim(name) == name
  {
    TrimIdempotent(form.name);
  }

  /** The request a plan puts on the wire, if any. */
  function Sent(plan: SubmitPlan): (sent: Option<ClientRequest>)
    ensures sent.None? <==> plan.Rejected?
  {
    if plan.Send? then Some(plan.request) else None
  }

  /** The page's state. */
  class MenuPage {
    var items: seq<MenuItem>
    var loading: bool
    var modal: ModalState
    var collapsed: map<string, bool>
    var confirmDelete: Option<string>
    var form: MenuForm
    var saving: bool

    constructor ()
      ensures items == [] && loading && modal == ModalState(false, None) && collapsed == map[]
      ensures confirmDelete == None && form == EmptyForm && !saving
    {
      items, loading, modal, collapsed := [], true, ModalState(false, None), map[];
      confirmDelete, form, saving := None, EmptyForm, false;
    }

    /** `fetchMenu`: `reply` is the response's `data` list when present; loading ends either way. */
    method FetchMenu(reply: Option<seq<MenuItem>>)
      modifies this`items, this`loading
      ensures items == reply.GetOr(old(items)) && !loading
    {
      if reply.Some? {
        items := reply.value;
      }
      loading := false;
    }

    /** `openAdd`: an empty form for the Tea category. */
    method OpenAdd()
      modifies this`form, this`modal
      ensures form == EmptyForm && modal == ModalState(true, None)
    {
      form := EmptyForm;
      modal := ModalState(true, None);
    }

    /** `openEdit`: the item's name, printed price, category and current image as the preview. */
    method OpenEdit(item: MenuItem)
      modifies this`form, this`modal
      ensures form == MenuForm(item.name, IntToDecimal(item.price), item.category, None, ImageUrl(BackendOrigin, item.image))
      ensures modal == ModalState(true, Some(item))
    {
      form := MenuForm(item.name, IntToDecimal(item.price), item.category, None, ImageUrl(BackendOrigin, item.image));
      modal := ModalState(true, Some(item));
    }

    method CloseModal()
      modifies this`modal
      ensures modal == ModalState(false, None)
    {
      modal := ModalState(false, None);
    }

    /** The name, price and category inputs. */
    method TypeName(text: string)
      modifies this`form
      ensures form == old(form).(name := text)
    {
      form := form.(name := text);
    }

    method TypePrice(text: string)
      modifies this`form
      ensures form == old(form).(price := text)
    {
      form := form.(price := text);
    }

    method PickCategory(c: MenuCategory)
      modifies this`form
      ensures form == old(form).(category := c)
    {
      form := form.(category := c);
    }

    /** `handleImageChange`: a chosen file becomes the image, shown through its object URL. */
    method ChooseImage(file: Option<string>, objectUrl: string)
      modifies this`form
      ensures file.Some? ==> form == old(form).(image := file, preview := Some(objectUrl))
      ensures file.None? ==> form == old(form)
    {
      if file.Some? {
        form := form.(image := file, preview := Some(objectUrl));
      }
    }

    /**
     * `handleSubmit`, whose button is disabled while saving. A refused form sends
     * nothing and only toasts; otherwise the request goes out, the modal closes
     * and the menu is refetched only on success, and saving ends in every case.
     */
    method HandleSubmit(outcome: ClientOutcome) returns (sent: Option<ClientRequest>, r: Reaction)
      requires !saving
      modifies this`modal, this`saving
      ensures !saving
      ensures sent == Sent(PlanSubmit(form, old(modal).editing))
      ensures sent.None? ==>
                modal == old(modal) && r == Reaction(Some(Notice("Name and price required", Error)), false)
      ensures sent.Some? && outcome.Answered? && outcome.ok ==>
                modal == ModalState(false, None) && r.refetch
                && r.notice == Some(Notice(if old(modal).editing.Some? then "Item updated!" else "Item added!", Success))
      ensures sent.Some? && outcome.Answered? && !outcome.ok ==>
                modal == old(modal) && r == Reaction(Some(Notice(NoticeText(outcome.body, "Failed"), Error)), false)
      ensures sent.Some? && outcome.Threw? ==>
                modal == old(modal) && r == Reaction(Some(Notice("Failed to save", Error)), false)
    {
      var plan := PlanSubmit(form, modal.editing);
      sent := Sent(plan);
      if plan.Rejected? {
        r := Reaction(Some(Notice("Name and price required", Error)), false);
        return;
      }
      r := Save(outcome);
    }

    /**
     * The part of `handleSubmit` after the form passed: the request went out and
     * `outcome` came back. Only success closes the modal; saving ends either way.
     */
    method Save(outcome: ClientOutcome) returns (r: Reaction)
      requires !saving
      modifies this`modal, this`saving
      ensures !saving
      ensures outcome.Answered? && outcome.ok ==>
                modal == ModalState(false, None) && r.refetch
                && r.notice == Some(Notice(if old(modal).editing.Some? then "Item updated!" else "Item added!", Success))
      ensures outcome.Answered? && !outcome.ok ==>
                modal == old(modal) && r == Reaction(Some(Notice(NoticeText(outcome.body, "Failed"), Error)), false)
      ensures outcome.Threw? ==>
                modal == old(modal) && r == Reaction(Some(Notice("Failed to save", Error)), false)
    {
      saving := true;
      if outcome.Threw? {
        r := Reaction(Some(Notice("Failed to save", Error)), false);
      } else if outcome.ok {
        var message := if modal.editing.Some? then "Item updated!" else "Item added!";
        CloseModal();
        r := Reaction(Some(Notice(message, Success)), true);
      } else {
        r := Reaction(Some(Notice(NoticeText(outcome.body, "Failed"), Error)), false);
      }
      saving := false;
    }

    method AskDelete(id: string)
      modifies this`confirmDelete
      ensures confirmDelete == Some(id)
    {
      confirmDelete := Some(id);
    }

    method CancelDelete()
      modifies this`confirmDelete
      ensures confirmDelete == None
    {
      confirmDelete := None;
    }

    /** `handleDelete` after "Confirm Delete": a refused request changes nothing, a thrown one only toasts. */
    method HandleDelete(outcome: ClientOutcome) returns (r: Reaction)
      requires confirmDelete.Some?
      modifies this`confirmDelete
      ensures outcome.Answered? && outcome.ok ==>
                confirmDelete == None && r == Reaction(Some(Notice("Item deleted", Success)), true)
      ensures outcome.Answered? && !outcome.ok ==> confirmDelete == old(confirmDelete) && r == Silent
      ensures outcome.Threw? ==>
                confirmDelete == old(confirmDelete) && r == Reaction(Some(Notice("Delete failed", Error)), false)
    {
      match outcome
      case Threw =>
        r := Reaction(Some(Notice("Delete failed", Error)), false);
      case Answered(ok, _) =>
        if ok {
          confirmDelete := None;
          r := Reaction(Some(Notice("Item deleted", Success)), true);
        } else {
          r := Silent;
        }
    }

    method Toggle(cat: string)
      modifies this`collapsed
      ensures collapsed == ToggleCollapse(old(collapsed), cat)
    {
      collapsed := ToggleCollapse(collapsed, cat);
    }
  }
}
