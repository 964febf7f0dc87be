/**
 * The two columns of the menu (src/components/DrinkMenu.tsx): hot drinks
 * are those whose temperature is exactly "warm", cold drinks those whose
 * temperature is exactly "iced", each in menu order.
 */
module DrinkMenu {
  import opened Types
  import opened Lists
  import opened Text
  import GoogleSheets

  predicate IsHot(d: DrinkItem) {
    d.temperature == "warm"
  }

  predicate IsCold(d: DrinkItem) {
    d.temperature == "iced"
  }

  /** `drinks.filter(drink => drink.temperature === 'warm')`. */
  function HotDrinks(drinks: seq<DrinkItem>): (hot: seq<DrinkItem>)
    ensures forall d :: d in hot <==> d in drinks && d.temperature == "warm"
    ensures SubsequenceOf(hot, drinks)
    ensures forall d :: multiset(hot)[d] == if d.temperature == "warm" then multiset(drinks)[d] else 0
  {
    FilterCounts(IsHot, drinks);
    FilterIsSubsequence(IsHot, drinks);
    Filter(IsHot, drinks)
  }

  /** `drinks.filter(drink => drink.temperature === 'iced')`. */
  function ColdDrinks(drinks: seq<DrinkItem>): (cold: seq<DrinkItem>)
    ensures forall d :: d in cold <==> d in drinks && d.temperature == "iced"
    ensures SubsequenceOf(cold, drinks)
    ensures forall d :: multiset(cold)[d] == if d.temperature == "iced" then multiset(drinks)[d] else 0
  {
    FilterCounts(IsCold, drinks);
    FilterIsSubsequence(IsCold, drinks);
    Filter(IsCold, drinks)
  }

  /**
   * No drink is in both columns, the columns together hold at most the
   * menu, and a drink whose temperature is neither "warm" nor "iced" is in
   * neither column.
   */
  lemma ColumnsPartitionMenu(drinks: seq<DrinkItem>)
    ensures forall d :: !(d in HotDrinks(drinks) && d in ColdDrinks(drinks))
    ensures |HotDrinks(drinks)| + |ColdDrinks(drinks)| <= |drinks|
    ensures forall d :: d in drinks && d.temperature != "warm" && d.temperature != "iced" ==>
      d !in HotDrinks(drinks) && d !in ColdDrinks(drinks)
  {
    DisjointFiltersFit(IsHot, IsCold, drinks);
  }

  /** One listed drink: its label and what its Order button hands to `onOrderClick`. */
  datatype MenuEntry = MenuEntry(caption: string, orderTarget: DrinkItem)

  /** `column.map(drink => ... onOrderClick(drink) ...)`. */
  function Entries(column: seq<DrinkItem>): (entries: seq<MenuEntry>)
    ensures |entries| == |column|
  {
    seq(|column|, i requires 0 <= i < |column| => MenuEntry(column[i].name, column[i]))
  }

  /** Every Order button of the hot column orders the very drink it is listed with, a warm one. */
  lemma HotOrderButtonsOrderListedDrink(drinks: seq<DrinkItem>, i: nat)
    requires i < |HotDrinks(drinks)|
    ensures var e := Entries(HotDrinks(drinks))[i];
      e.orderTarget == HotDrinks(drinks)[i] && e.caption == e.orderTarget.name
      && e.orderTarget in drinks && e.orderTarget.temperature == "warm"
  {
    assert HotDrinks(drinks)[i] in HotDrinks(drinks);
  }

  /** Every Order button of the cold column orders the very drink it is listed with, an iced one. */
  lemma ColdOrderButtonsOrderListedDrink(drinks: seq<DrinkItem>, i: nat)
    requires i < |ColdDrinks(drinks)|
    ensures var e := Entries(ColdDrinks(drinks))[i];
      e.orderTarget == ColdDrinks(drinks)[i] && e.caption == e.orderTarget.name
      && e.orderTarget in drinks && e.orderTarget.temperature == "iced"
  {
    assert ColdDrinks(drinks)[i] in ColdDrinks(drinks);
  }

  /**
   * A menu row without a temperature lands in the hot column, and one whose
   * temperature reads "ICED" in any letter case lands in the cold column.
   */
  lemma SheetTemperatureDecidesColumn(row: GoogleSheets.Row)
    requires GoogleSheets.ListedDrink(GoogleSheets.RowToDrink(row))
    ensures GoogleSheets.Cell(row, 4).None? ==>
      GoogleSheets.RowToDrink(row) in HotDrinks(GoogleSheets.DrinkMenu([row]))
    ensures GoogleSheets.Cell(row, 4).Some? && ToLower(GoogleSheets.ValueText(GoogleSheets.Cell(row, 4).value)) == "iced" ==>
      GoogleSheets.RowToDrink(row) in ColdDrinks(GoogleSheets.DrinkMenu([row]))
  {
    var d := GoogleSheets.RowToDrink(row);
    assert [row][0] == row;
    assert GoogleSheets.DrinkRows([row])[0] == d;
    assert d in GoogleSheets.DrinkRows([row]);
  }
}
