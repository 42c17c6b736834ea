/** The saved-items route: each stored declaration row is flattened into an
    item, and the items are rendered as one multi-line text. */
module SavedItems {
  import opened Wrappers
  import opened Text

  /** A stored row. Money and quantity columns are whole numbers here. */
  datatype SavedRow = SavedRow(
    item: string, category: string, hsCode: string, quantity: int,
    amount: int, valueOfFund: Option<int>, currency: string)

  /** The flattened item the route returns. */
  datatype Item = Item(itemType: string, hscode: string, description: string, quantity: int, value: int, currency: string)

  const CurrencyItem: string := "Currency over $10,000"
  const ReimportItem: string := "Good for Re-importation"

  /** The value of a row: the fund value for the currency item unless it is
      null (`??`, so a fund value of 0 is kept), otherwise the amount. */
  function RowValue(row: SavedRow): (v: int)
    ensures row.item != CurrencyItem ==> v == row.amount
    ensures row.item == CurrencyItem && row.valueOfFund.Some? ==> v == row.valueOfFund.value
    ensures row.item == CurrencyItem && row.valueOfFund.None? ==> v == row.amount
  {
    if row.item == CurrencyItem then row.valueOfFund.GetOr(row.amount) else row.amount
  }

  /** One row flattened: the classification fields are copied, the
      description is the row's item name (the two special names are set to
      themselves), the value is `RowValue`. */
  function ToItem(row: SavedRow): (it: Item)
    ensures it.itemType == row.category && it.hscode == row.hsCode
    ensures it.quantity == row.quantity && it.currency == row.currency
    ensures it.description == row.item
    ensures it.value == RowValue(row)
  {
    var description := if row.item == CurrencyItem then CurrencyItem
                       else if row.item == ReimportItem then ReimportItem
                       else row.item;
    Item(row.category, row.hsCode, description, row.quantity, RowValue(row), row.currency)
  }

  /** `savedItems.map(...)`: one item per row, in the same order. */
  function ToItems(rows: seq<SavedRow>): (items: seq<Item>)
    ensures |items| == |rows|
    ensures forall i :: 0 <= i < |rows| ==> items[i] == ToItem(rows[i])
  {
    seq(|rows|, i requires 0 <= i < |rows| => ToItem(rows[i]))
  }

  /** The re-importation item is not special at all: it is flattened like
      any ordinary row, and a zero fund value on the currency item is not
      replaced by the amount. */
  lemma SpecialCasesAreNarrow(row: SavedRow)
    ensures row.item == ReimportItem ==> ToItem(row).value == row.amount
    ensures row.item == CurrencyItem && row.valueOfFund == Some(0) ==> ToItem(row).value == 0
  {
  }

  /** The header line of item number `k` (counted from 1). */
  function Header(k: nat): string {
    "Item " + NatToString(k) + ":\n"
  }

  /** The field lines of an item, each ending in a newline. */
  function Fields(it: Item): string {
    "Type: " + it.itemType + "\nHS Code: " + it.hscode
    + "\nDescription: " + it.description + "\nQuantity: " + IntToString(it.quantity)
    + "\nValue: " + IntToString(it.value) + " " + it.currency + "\n"
  }

  /** The text block of item number `k`. */
  function Block(k: nat, it: Item): string {
    Header(k) + Fields(it)
  }

  /** The blocks of a list of items, numbered from 1. */
  function Blocks(items: seq<Item>): (bs: seq<string>)
    ensures |bs| == |items|
    ensures forall i :: 0 <= i < |items| ==> bs[i] == Block(i + 1, items[i])
  {
    seq(|items|, i requires 0 <= i < |items| => Block(i + 1, items[i]))
  }

  /** `parts.join(sep)`. */
  function Join(parts: seq<string>, sep: string): string {
    if |parts| == 0 then ""
    else if |parts| == 1 then parts[0]
    else Join(parts[..|parts| - 1], sep) + sep + parts[|parts| - 1]
  }

  /** `itemsString`: the numbered blocks joined by blank-line separators. */
  function ItemsString(items: seq<Item>): (text: string)
    ensures items == [] ==> text == ""
    ensures |items| > 0 ==> |text| >= |Block(1, items[0])| && text[..|Block(1, items[0])|] == Block(1, items[0])
  {
    if |items| > 0 then
      JoinStartsWithFirst(Blocks(items), "\n");
      Join(Blocks(items), "\n")
    else ""
  }

  lemma BlocksSnoc(items: seq<Item>, it: Item)
    ensures Blocks(items + [it]) == Blocks(items) + [Block(|items| + 1, it)]
  {
  }

  /** Rendering one more item appends its block after a separator (or is
      the block alone for the first item). */
  lemma ItemsStringSnoc(items: seq<Item>, it: Item)
    ensures |items| == 0 ==> ItemsString(items + [it]) == Block(1, it)
    ensures |items| > 0 ==> ItemsString(items + [it]) == ItemsString(items) + "\n" + Block(|items| + 1, it)
  {
    BlocksSnoc(items, it);
    var bs := Blocks(items + [it]);
    assert bs[..|bs| - 1] == Blocks(items);
  }

  /** The text is empty exactly when there are no rows; otherwise it opens
      with the header of item 1. */
  lemma ItemsStringEmptyIffNoItems(items: seq<Item>)
    ensures ItemsString(items) == "" <==> |items| == 0
    ensures |items| > 0 ==> StartsWith(ItemsString(items), "Item 1:\n")
  {
    if |items| > 0 {
      JoinStartsWithFirst(Blocks(items), "\n");
      assert NatToString(1) == "1";
      assert Header(1) == "Item 1:\n";
      assert Block(1, items[0])[..8] == Header(1);
    }
  }

  lemma {:induction false} JoinStartsWithFirst(parts: seq<string>, sep: string)
    requires |parts| > 0
    ensures |Join(parts, sep)| >= |parts[0]|
    ensures Join(parts, sep)[..|parts[0]|] == parts[0]
    decreases |parts|
  {
    if |parts| > 1 {
      JoinStartsWithFirst(parts[..|parts| - 1], sep);
      var j := Join(parts[..|parts| - 1], sep);
      assert (j + sep + parts[|parts| - 1])[..|parts[0]|] == j[..|parts[0]|];
    }
  }

  lemma JoinSnoc(parts: seq<string>, x: string, sep: string)
    ensures Join(parts + [x], sep) == if |parts| == 0 then x else Join(parts, sep) + sep + x
  {
    assert (parts + [x])[..|parts|] == parts;
  }

  /** Joins the parts one at a time, the way `join` builds its result. */
  method JoinParts(parts: seq<string>, sep: string) returns (text: string)
    ensures text == Join(parts, sep)
  {
    text := "";
    var i := 0;
    while i < |parts|
      invariant 0 <= i <= |parts|
      invariant text == Join(parts[..i], sep)
    {
      var done := parts[..i];
      JoinSnoc(done, parts[i], sep);
      assert parts[..i + 1] == done + [parts[i]];
      text := if i == 0 then parts[i] else text + sep + parts[i];
      i := i + 1;
    }
    assert parts[..i] == parts;
  }

  /** The route's reply: the items and their text on success, status 500
      when the read-and-delete transaction fails. */
  datatype RouteReply = Ok(message: string, itemsString: string, items: seq<Item>) | ServerError

  function Respond(rows: Option<seq<SavedRow>>): (r: RouteReply)
    ensures rows.None? <==> r.ServerError?
    ensures rows.Some? ==>
      r.message == "Success" && r.items == ToItems(rows.value) && r.itemsString == ItemsString(r.items)
  {
    match rows
    case Some(rs) => Ok("Success", ItemsString(ToItems(rs)), ToItems(rs))
    case None => ServerError
  }
}
