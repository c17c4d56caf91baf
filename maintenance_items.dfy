/** The maintenance-item catalogue (pages/settings/MaintenanceItems.tsx):
    activation toggles, the edit form merged over one item, the items grouped
    by category, and the category and duration labels. */
module MaintenanceItems {
  import opened Seqs
  import opened Text
  import opened Types
  import opened Records
  import opened Grouping
  import BusinessHours

  function ItemId(item: MaintenanceItem): int { item.id }

  function ItemCategory(item: MaintenanceItem): MaintenanceCategory { item.category }

  /** `getCategoryLabel`, defined for all six categories. */
  function CategoryLabel(c: MaintenanceCategory): string
  {
    match c
    case Engine => "엔진"
    case Brake => "브레이크"
    case Suspension => "타이어/서스펜션"
    case Electrical => "전기/전자"
    case Body => "차체"
    case Other => "기타"
  }

  /** Every category has a label of its own. */
  lemma CategoryLabelInjective(c: MaintenanceCategory, d: MaintenanceCategory)
    ensures CategoryLabel(c) != ""
    ensures CategoryLabel(c) == CategoryLabel(d) <==> c == d
  {
  }

  function HoursText(h: nat): string
  {
    NatToString(h) + "시간"
  }

  /** `formatDuration`: under an hour `{m}분`, otherwise `{h}시간` followed by
      ` {m}분` when minutes remain. */
  function FormatDuration(minutes: int): string
  {
    if minutes < 60 then IntToString(minutes) + "분"
    else HoursText(minutes / 60) + (if minutes % 60 > 0 then " " + NatToString(minutes % 60) + "분" else "")
  }

  /** `formatDuration` shows every duration exactly as `getIntervalDisplay`
      on the booking settings page shows an interval. */
  lemma FormatDurationIsIntervalDisplay(minutes: int)
    ensures FormatDuration(minutes) == BusinessHours.IntervalDisplay(minutes)
  {
    if minutes >= 60 {
      var h := NatToString(minutes / 60);
      if minutes % 60 > 0 {
        assert HoursText(minutes / 60) + (" " + NatToString(minutes % 60) + "분")
          == h + "시간 " + NatToString(minutes % 60) + "분";
      } else {
        assert HoursText(minutes / 60) + "" == h + "시간";
      }
    }
  }

  function FlipActive(): MaintenanceItem -> MaintenanceItem
  {
    (item: MaintenanceItem) => item.(isActive := !item.isActive)
  }

  /** `handleToggleActive`: the item with the id changes activation. */
  function ToggleActive(items: seq<MaintenanceItem>, itemId: int): seq<MaintenanceItem>
  {
    UpdateWhere(items, ItemId, itemId, FlipActive())
  }

  /** A toggle flips `is_active` of the item with the id and changes nothing
      else; toggling the same item twice gives back the list. */
  lemma ToggleActiveSpec(items: seq<MaintenanceItem>, itemId: int)
    ensures var r := ToggleActive(items, itemId);
      |r| == |items|
      && (forall i :: 0 <= i < |items| && items[i].id == itemId ==>
            r[i].isActive == !items[i].isActive && r[i].(isActive := items[i].isActive) == items[i])
      && (forall i :: 0 <= i < |items| && items[i].id != itemId ==> r[i] == items[i])
    ensures ToggleActive(ToggleActive(items, itemId), itemId) == items
  {
  }

  /** One `handleFormChange` call. */
  datatype ItemEdit =
    | EditName(name: string)
    | EditCategory(category: MaintenanceCategory)
    | EditPrice(price: int)
    | EditDuration(duration: int)
    | EditDescription(description: string)

  function ApplyEdit(form: MaintenanceItem, e: ItemEdit): MaintenanceItem
  {
    match e
    case EditName(v) => form.(name := v)
    case EditCategory(v) => form.(category := v)
    case EditPrice(v) => form.(defaultPrice := v)
    case EditDuration(v) => form.(defaultDuration := v)
    case EditDescription(v) => form.(description := Some(v))
  }

  /** `{ ...item, ...formData }`: `formData` starts as a full copy of the item
      (`{}` when nothing is edited), so it overrides every field. */
  function Merge(formData: Option<MaintenanceItem>): MaintenanceItem -> MaintenanceItem
  {
    (item: MaintenanceItem) => if formData.Some? then formData.value else item
  }

  /** The save branch of `handleSaveEdit`. */
  function SaveEdit(items: seq<MaintenanceItem>, editingId: int, formData: Option<MaintenanceItem>): seq<MaintenanceItem>
  {
    UpdateWhere(items, ItemId, editingId, Merge(formData))
  }

  /** Saving puts the form in place of the edited item and leaves the others;
      since the form keeps the item's id, every id stays where it was. */
  lemma SaveEditSpec(items: seq<MaintenanceItem>, form: MaintenanceItem)
    ensures var r := SaveEdit(items, form.id, Some(form));
      |r| == |items|
      && (forall i :: 0 <= i < |items| && items[i].id == form.id ==> r[i] == form)
      && (forall i :: 0 <= i < |items| && items[i].id != form.id ==> r[i] == items[i])
      && Keys(r, ItemId) == Keys(items, ItemId)
  {
  }

  /** Edits never change the id the form copied from the item. */
  lemma EditsKeepId(form: MaintenanceItem, e: ItemEdit)
    ensures ApplyEdit(form, e).id == form.id
    ensures ApplyEdit(form, e).isActive == form.isActive
  {
  }

  /** `groupedItems`: walks the items once, opening a group the first time a
      category is met and pushing each item onto its category's group. */
  method GroupByCategory(items: seq<MaintenanceItem>)
    returns (categories: seq<MaintenanceCategory>, groups: map<MaintenanceCategory, seq<MaintenanceItem>>)
    ensures categories == KeysInOrder(items, ItemCategory)
    ensures forall c :: c in groups <==> c in categories
    ensures forall c :: c in groups ==> groups[c] == Group(items, ItemCategory, c)
  {
    categories := [];
    groups := map[];
    var i := 0;
    while i < |items|
      invariant 0 <= i <= |items|
      invariant categories == KeysInOrder(items[..i], ItemCategory)
      invariant forall c :: c in groups <==> c in categories
      invariant forall c :: c in groups ==> groups[c] == Group(items[..i], ItemCategory, c)
    {
      var item := items[i];
      WalkStep(items, i, ItemCategory, One);
      if item.category !in groups {
        groups := groups[item.category := []];
        categories := categories + [item.category];
      }
      groups := groups[item.category := groups[item.category] + [item]];
      i := i + 1;
    }
    assert items[..i] == items;
  }

  /** Each item lies in the group of its own category and in no other, every
      group keeps list order, the group sizes add up to the number of items,
      and groups appear in the order their category first occurs. */
  lemma GroupedItemsSpec(items: seq<MaintenanceItem>, item: MaintenanceItem, c: MaintenanceCategory)
    ensures item in items ==>
      item.category in KeysInOrder(items, ItemCategory)
      && (item in Group(items, ItemCategory, c) <==> item.category == c)
    ensures IsSubsequence(Group(items, ItemCategory, c), items)
    ensures SumOverKeys(KeysInOrder(items, ItemCategory), items, ItemCategory, One) == |items|
  {
    if item in items {
      InGroupIff(items, ItemCategory, c, item);
    }
    FilterIsSubsequence(HasKey(ItemCategory, c), items);
    GroupSizesPartition(items, ItemCategory);
  }

  class MaintenanceItemsPage {
    var items: seq<MaintenanceItem>
    var loading: bool
    var editing: Option<MaintenanceItem>
    var formData: Option<MaintenanceItem>

    /** The form is open exactly while an item is edited, and carries its id. */
    predicate Valid()
      reads this
    {
      (editing.Some? <==> formData.Some?)
      && (editing.Some? ==> formData.value.id == editing.value.id)
    }

    constructor ()
      ensures Valid() && items == [] && loading && editing == None && formData == None
    {
      items := [];
      loading := true;
      editing := None;
      formData := None;
    }

    method LoadItems(fetched: seq<MaintenanceItem>)
      modifies this`items, this`loading
      ensures items == fetched && !loading
    {
      items := fetched;
      loading := false;
    }

    method HandleToggleActive(itemId: int)
      modifies this`items
      ensures items == ToggleActive(old(items), itemId)
    {
      items := ToggleActive(items, itemId);
    }

    method HandleEditClick(item: MaintenanceItem)
      modifies this`editing, this`formData
      ensures Valid() && editing == Some(item) && formData == Some(item)
    {
      editing := Some(item);
      formData := Some(item);
    }

    method HandleCloseEdit()
      modifies this`editing, this`formData
      ensures Valid() && editing == None && formData == None
    {
      editing := None;
      formData := None;
    }

    method HandleFormChange(e: ItemEdit)
      requires Valid()
      modifies this`formData
      ensures Valid()
      ensures formData == if old(formData).Some? then Some(ApplyEdit(old(formData).value, e)) else None
    {
      if formData.Some? {
        formData := Some(ApplyEdit(formData.value, e));
      }
    }

    /** `handleSaveEdit`: nothing at all happens with no item being edited. */
    method HandleSaveEdit()
      requires Valid()
      modifies this`items, this`editing, this`formData
      ensures Valid()
      ensures old(editing).None? ==> items == old(items) && editing == None && formData == None
      ensures old(editing).Some? ==>
        items == SaveEdit(old(items), old(editing).value.id, old(formData))
        && old(formData).value.id == old(editing).value.id
        && editing == None && formData == None
    {
      if editing.None? {
        return;
      }
      items := SaveEdit(items, editing.value.id, formData);
      HandleCloseEdit();
    }
  }
}
