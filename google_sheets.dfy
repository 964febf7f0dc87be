/**
 * Turning the spreadsheet export into menu entries and toppings
 * (src/services/googleSheets.ts). The export is modelled from the point
 * where its rows have been parsed: a row is its list of cells, and a cell is
 * `None` when it is missing, `null` or has no value. The HTTP request and
 * `JSON.parse` are not modelled.
 */
module GoogleSheets {
  import opened Types
  import opened Text
  import opened Lists

  type Row = seq<Option<Value>>

  /** The length of the wrapper text before the JSON and after it. */
  const WrapperPrefixLength := 47
  const WrapperSuffixLength := 2

  /** `text.substring(47).slice(0, -2)`. */
  function StripWrapper(text: string): (json: string)
    ensures |text| >= WrapperPrefixLength + WrapperSuffixLength ==>
      text == text[..WrapperPrefixLength] + json + text[|text| - WrapperSuffixLength..]
    ensures |text| < WrapperPrefixLength + WrapperSuffixLength ==> json == ""
  {
    var afterPrefix := if |text| >= WrapperPrefixLength then text[WrapperPrefixLength..] else "";
    var end := if |afterPrefix| >= WrapperSuffixLength then |afterPrefix| - WrapperSuffixLength else 0;
    afterPrefix[..end]
  }

  /** `row.c[i]?.v`. */
  function Cell(row: Row, i: nat): Option<Value> {
    if i < |row| then row[i] else None
  }

  /** `v.toString()`. */
  function ValueText(v: Value): string {
    match v
    case Text(s) => s
    case Number(n) => IntToString(n)
  }

  /** JavaScript truthiness of a cell value: the empty string and 0 are false. */
  predicate Truthy(v: Value) {
    match v
    case Text(s) => s != ""
    case Number(n) => n != 0
  }

  /** `row.c[i]?.v?.toString() || ''`. */
  function TextCell(row: Row, i: nat): (r: string)
    ensures Cell(row, i).None? ==> r == ""
    ensures Cell(row, i).Some? ==> r == ValueText(Cell(row, i).value)
  {
    match Cell(row, i)
    case Some(v) => ValueText(v)
    case None => ""
  }

  /** `row.c[i]?.v || ''`, shown as text. */
  function ValueOrEmpty(row: Row, i: nat): (r: string)
    ensures r != "" <==> Cell(row, i).Some? && Truthy(Cell(row, i).value)
    ensures Cell(row, i).Some? && Truthy(Cell(row, i).value) ==> r == ValueText(Cell(row, i).value)
  {
    match Cell(row, i)
    case Some(v) => if Truthy(v) then ValueText(v) else ""
    case None => ""
  }

  const DefaultTemperature := "warm"

  /** `row.c[4]?.v?.toString().toLowerCase() || 'warm'`. */
  function TemperatureCell(row: Row): (t: string)
    ensures t != ""
    ensures forall i :: 0 <= i < |t| ==> !IsUpper(t[i])
    ensures ToLower(TextCell(row, 4)) == "" ==> t == DefaultTemperature
    ensures ToLower(TextCell(row, 4)) != "" ==> t == ToLower(TextCell(row, 4))
  {
    var t := ToLower(TextCell(row, 4));
    if t == "" then DefaultTemperature else t
  }

  /**
   * One menu row: the id is the first cell's text, a number 0 included; the
   * name and description stay empty unless their cell is truthy; the price
   * cell is kept as it is; the temperature is never empty.
   */
  function RowToDrink(row: Row): (d: DrinkItem)
    ensures d.id != "" <==> Cell(row, 0).Some? && ValueText(Cell(row, 0).value) != ""
    ensures d.name != "" <==> Cell(row, 1).Some? && Truthy(Cell(row, 1).value)
    ensures d.price == Cell(row, 2)
    ensures d.description != "" <==> Cell(row, 3).Some? && Truthy(Cell(row, 3).value)
    ensures d.temperature != ""
    ensures d.id == TextCell(row, 0) && d.name == ValueOrEmpty(row, 1)
    ensures d.description == ValueOrEmpty(row, 3) && d.temperature == TemperatureCell(row)
  {
    DrinkItem(TextCell(row, 0), ValueOrEmpty(row, 1), Cell(row, 2), ValueOrEmpty(row, 3), TemperatureCell(row))
  }

  /** One toppings row, read like the first three cells of a menu row. */
  function RowToTopping(row: Row): (t: Topping)
    ensures t.id != "" <==> Cell(row, 0).Some? && ValueText(Cell(row, 0).value) != ""
    ensures t.name != "" <==> Cell(row, 1).Some? && Truthy(Cell(row, 1).value)
    ensures t.price == Cell(row, 2)
    ensures t.id == TextCell(row, 0) && t.name == ValueOrEmpty(row, 1)
  {
    Topping(TextCell(row, 0), ValueOrEmpty(row, 1), Cell(row, 2))
  }

  predicate ListedDrink(d: DrinkItem) {
    d.id != "" && d.name != ""
  }

  predicate ListedTopping(t: Topping) {
    t.id != "" && t.name != ""
  }

  /** `rows.map(...)`, for the menu sheet. */
  function DrinkRows(rows: seq<Row>): (r: seq<DrinkItem>)
    ensures |r| == |rows| && forall i :: 0 <= i < |rows| ==> r[i] == RowToDrink(rows[i])
  {
    seq(|rows|, i requires 0 <= i < |rows| => RowToDrink(rows[i]))
  }

  /** `rows.map(...)`, for the toppings sheet. */
  function ToppingRows(rows: seq<Row>): (r: seq<Topping>)
    ensures |r| == |rows| && forall i :: 0 <= i < |rows| ==> r[i] == RowToTopping(rows[i])
  {
    seq(|rows|, i requires 0 <= i < |rows| => RowToTopping(rows[i]))
  }

  /** The menu `fetchDrinkMenu` returns for the parsed rows. */
  function DrinkMenu(rows: seq<Row>): (menu: seq<DrinkItem>)
    ensures |menu| <= |rows|
    ensures forall d :: d in menu ==> d.id != "" && d.name != ""
    ensures forall d :: d in menu <==> d in DrinkRows(rows) && ListedDrink(d)
    ensures SubsequenceOf(menu, DrinkRows(rows))
    ensures forall d :: multiset(menu)[d] == if ListedDrink(d) then multiset(DrinkRows(rows))[d] else 0
  {
    FilterCounts(ListedDrink, DrinkRows(rows));
    FilterIsSubsequence(ListedDrink, DrinkRows(rows));
    Filter(ListedDrink, DrinkRows(rows))
  }

  /** The toppings `fetchToppings` returns for the parsed rows. */
  function Toppings(rows: seq<Row>): (toppings: seq<Topping>)
    ensures |toppings| <= |rows|
    ensures forall t :: t in toppings ==> t.id != "" && t.name != ""
    ensures forall t :: t in toppings <==> t in ToppingRows(rows) && ListedTopping(t)
    ensures SubsequenceOf(toppings, ToppingRows(rows))
    ensures forall t :: multiset(toppings)[t] == if ListedTopping(t) then multiset(ToppingRows(rows))[t] else 0
  {
    FilterCounts(ListedTopping, ToppingRows(rows));
    FilterIsSubsequence(ListedTopping, ToppingRows(rows));
    Filter(ListedTopping, ToppingRows(rows))
  }

  /** `fetchDrinkMenu`: the menu of the parsed rows, or `[]` when the request or parsing fails. */
  function FetchDrinkMenu(reply: Reply<seq<Row>>): (menu: seq<DrinkItem>)
    ensures reply.Failed? ==> menu == []
    ensures reply.Received? ==> menu == DrinkMenu(reply.data)
  {
    match reply
    case Received(rows) => DrinkMenu(rows)
    case Failed(_) => []
  }

  /** `fetchToppings`: the toppings of the parsed rows, or `[]` when the request or parsing fails. */
  function FetchToppings(reply: Reply<seq<Row>>): (toppings: seq<Topping>)
    ensures reply.Failed? ==> toppings == []
    ensures reply.Received? ==> toppings == Toppings(reply.data)
  {
    match reply
    case Received(rows) => Toppings(rows)
    case Failed(_) => []
  }

  /**
   * A row is listed exactly when its id cell holds a value (a number 0
   * included) whose text is not empty and its name cell holds a truthy value.
   */
  lemma RowListedWhen(row: Row)
    ensures ListedDrink(RowToDrink(row)) <==>
      && Cell(row, 0).Some? && ValueText(Cell(row, 0).value) != ""
      && Cell(row, 1).Some? && Truthy(Cell(row, 1).value)
    ensures ListedTopping(RowToTopping(row)) <==> ListedDrink(RowToDrink(row))
  {
  }

  /** A numeric id cell becomes its decimal text, so even 0 gives a usable id. */
  lemma NumericIdIsDecimal(row: Row, n: int)
    requires Cell(row, 0) == Some(Number(n))
    ensures RowToDrink(row).id == IntToString(n) && RowToDrink(row).id != ""
  {
  }
}
