/** Inventory items (inventory/models.py and inventory/views.py): the save
    hook that assigns stock codes and mirrors the description, the add-stock
    form handler and the mark-returned action for rented assets.

    The record holds the columns the modelled operations read or write. The
    views write `name`, `uom`, `quantity`, `qty_on_hand`, `qty_available` and
    `cost_per_uom`, which the model class does not declare; the record holds
    all of them except `uom`, whose value is always the unit "Pieces". The
    customer and rent columns of the model class are not part of the record:
    no modelled operation touches them. */
module Inventory {

  import opened Wrappers
  import opened Money
  import opened Text

  /** RAW ("Buy"), ASSET ("Rent") and ORDER ("Order"). */
  datatype ItemType = Raw | Asset | OrderItem

  datatype InventoryItem = InventoryItem(
    stockCode: string,
    name: Option<string>,
    description: string,
    itemsTaken: string,
    itemType: ItemType,
    price: Money,
    costPerUom: Money,
    quantity: Money,
    qtyOnHand: Money,
    qtyAvailable: Money)

  /** `f"STK-{n:04d}"`. */
  function StockCode(n: nat): string
  {
    PrefixedCode("STK-", n, 4)
  }

  /** `InventoryItem.save`: an item without a stock code gets one numbered one
      past the current row count; a non-empty description is copied into an
      empty `items_taken`. Nothing else is touched. */
  function Save(item: InventoryItem, count: nat): (r: InventoryItem)
    ensures item.stockCode != "" ==> r.stockCode == item.stockCode
    ensures item.stockCode == "" ==> r.stockCode == StockCode(count + 1)
    ensures item.itemsTaken != "" ==> r.itemsTaken == item.itemsTaken
    ensures item.itemsTaken == "" ==> r.itemsTaken == item.description
    ensures r.(stockCode := item.stockCode, itemsTaken := item.itemsTaken) == item
  {
    var code := if item.stockCode == "" then StockCode(count + 1) else item.stockCode;
    var taken := if item.description != "" && item.itemsTaken == "" then item.description else item.itemsTaken;
    item.(stockCode := code, itemsTaken := taken)
  }

  /** `__str__`: the stock code. */
  function Str(item: InventoryItem): string
  {
    item.stockCode
  }

  /** A saved item's label is its stock code, never empty, and for a new item
      the code numbered one past the row count. */
  lemma SavedItemLabel(item: InventoryItem, count: nat)
    ensures Str(Save(item, count)) != ""
    ensures item.stockCode == "" ==> Str(Save(item, count)) == StockCode(count + 1)
    ensures item.stockCode != "" ==> Str(Save(item, count)) == item.stockCode
  {
  }

  /** Saving a saved item again changes nothing, whatever the row count is then. */
  lemma SaveIdempotent(item: InventoryItem, count: nat, count': nat)
    ensures Save(Save(item, count), count') == Save(item, count)
  {
  }

  /** Codes made from different counts differ, and a code reads back as its count. */
  lemma StockCodeInjective(m: nat, n: nat)
    ensures StockCode(m) == StockCode(n) <==> m == n
    ensures DigitsValue(StockCode(n)[4..]) == n
  {
    PrefixedCodeInjective("STK-", m, n, 4);
  }

  /** The code depends only on the row count, so after a deletion a new item
      can be given a code that an existing item already has: with STK-0001 and
      STK-0002 on file and the first deleted, the next item is STK-0002 again. */
  lemma CodeRepeatsAfterDeletion(survivor: InventoryItem, newItem: InventoryItem)
    requires survivor.stockCode == StockCode(2)
    requires newItem.stockCode == ""
    ensures Str(Save(newItem, 1)) == Str(survivor)
  {
  }

  /** The fields posted by the add-stock form; `None` is a missing field. */
  datatype StockForm = StockForm(
    stockName: Option<string>,
    category: Option<string>,
    quantity: Option<string>,
    pricePerUnit: Option<string>)

  /** The decimal column rejects text that is not a number. */
  datatype StockError = NotANumber

  /** `value or 0` stored in a decimal column: missing or empty is 0, other
      text goes through the column's decimal conversion (`parse`). */
  function NumberOrZero(raw: Option<string>, parse: string -> Option<Money>): (r: Result<Money, StockError>)
    ensures raw == None || raw == Some("") ==> r == Ok(0.0)
    ensures raw.Some? && raw.value != "" ==> (r.Ok? <==> parse(raw.value).Some?)
    ensures r.Ok? && raw.Some? && raw.value != "" ==> r.value == parse(raw.value).value
  {
    if raw == None || raw == Some("") then Ok(0.0)
    else match parse(raw.value)
      case Some(v) => Ok(v)
      case None => Err(NotANumber)
  }

  /** `f"{category} item"`; a missing category prints as "None". */
  function DescriptionFor(category: Option<string>): string
  {
    category.GetOr("None") + " item"
  }

  /** `add_stock`: creates the item. The category "rent" makes it an asset and
      anything else raw stock; all three quantities start at the posted
      quantity and price and cost at the posted price. `count` is the number
      of rows before the insert. */
  function AddStock(form: StockForm, count: nat, parse: string -> Option<Money>): (r: Result<InventoryItem, StockError>)
    ensures r.Ok? <==> NumberOrZero(form.quantity, parse).Ok? && NumberOrZero(form.pricePerUnit, parse).Ok?
    ensures r.Ok? ==>
      var qty := NumberOrZero(form.quantity, parse).value;
      var price := NumberOrZero(form.pricePerUnit, parse).value;
      && (r.value.itemType == Asset <==> form.category == Some("rent"))
      && (r.value.itemType == Raw <==> form.category != Some("rent"))
      && r.value.quantity == qty && r.value.qtyOnHand == qty && r.value.qtyAvailable == qty
      && r.value.price == price && r.value.costPerUom == price
      && r.value.name == form.stockName
      && r.value.stockCode == StockCode(count + 1)
      && r.value.itemsTaken == r.value.description == DescriptionFor(form.category)
  {
    var qty :- NumberOrZero(form.quantity, parse);
    var price :- NumberOrZero(form.pricePerUnit, parse);
    var item := InventoryItem(
      "", form.stockName, DescriptionFor(form.category), "",
      if form.category == Some("rent") then Asset else Raw,
      price, price, qty, qty, qty);
    Ok(Save(item, count))
  }

  /** A freshly added item is already what the save hook makes of it, and a
      freshly added asset is already fully available, so marking it returned
      changes nothing. */
  lemma AddedItemIsSaved(form: StockForm, count: nat, parse: string -> Option<Money>, count': nat)
    requires AddStock(form, count, parse).Ok?
    ensures Save(AddStock(form, count, parse).value, count') == AddStock(form, count, parse).value
    ensures MarkReturned(AddStock(form, count, parse).value, count') == AddStock(form, count, parse).value
  {
  }

  /** `mark_returned`: a rented asset becomes fully available again (and is
      saved); any other item is left as it is. */
  function MarkReturned(item: InventoryItem, count: nat): (r: InventoryItem)
    ensures item.itemType != Asset ==> r == item
    ensures item.itemType == Asset ==>
      && r.qtyAvailable == item.qtyOnHand
      && r.qtyOnHand == item.qtyOnHand
      && r.quantity == item.quantity
      && r.itemType == Asset
    ensures item.itemType == Asset ==>
      r.(stockCode := item.stockCode, itemsTaken := item.itemsTaken) == item.(qtyAvailable := item.qtyOnHand)
    ensures item.itemType == Asset ==>
      && r.stockCode == (if item.stockCode == "" then StockCode(count + 1) else item.stockCode)
      && r.itemsTaken == (if item.itemsTaken == "" then item.description else item.itemsTaken)
  {
    if item.itemType == Asset then Save(item.(qtyAvailable := item.qtyOnHand), count) else item
  }

  /** Marking an item returned twice is the same as marking it once. */
  lemma MarkReturnedIdempotent(item: InventoryItem, count: nat, count': nat)
    ensures MarkReturned(MarkReturned(item, count), count') == MarkReturned(item, count)
  {
  }
}
