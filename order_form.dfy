/**
 * The order dialog (src/components/OrderForm.tsx): the name it starts with,
 * the topping selection its checkboxes edit, and the draft it hands to
 * `onSubmit`. The form's state is a value; each checkbox change replaces the
 * selection with a new list.
 */
module OrderForm {
  import opened Types
  import opened Lists
  import OrdersService

  const CustomerNameKey := "customerName"

  /** `localStorage.getItem('customerName') || ''`. */
  function InitialCustomerName(items: map<string, string>): (name: string)
    ensures CustomerNameKey in items ==> name == items[CustomerNameKey]
    ensures CustomerNameKey !in items ==> name == ""
  {
    if CustomerNameKey in items then items[CustomerNameKey] else ""
  }

  /** The checkbox change with `checked` true: `[...selectedToppings, topping.name]`. */
  function CheckTopping(selected: seq<string>, name: string): (r: seq<string>)
    ensures |r| == |selected| + 1 && r[..|selected|] == selected && r[|selected|] == name
  {
    selected + [name]
  }

  /** The checkbox change with `checked` false: `selectedToppings.filter(t => t !== topping.name)`. */
  function UncheckTopping(selected: seq<string>, name: string): (r: seq<string>)
    ensures name !in r
    ensures forall t :: t in r <==> t in selected && t != name
    ensures SubsequenceOf(r, selected)
    ensures forall t :: multiset(r)[t] == if t != name then multiset(selected)[t] else 0
  {
    FilterCounts((t: string) => t != name, selected);
    FilterIsSubsequence((t: string) => t != name, selected);
    Filter((t: string) => t != name, selected)
  }

  /** `checked={selectedToppings.includes(topping.name)}`. */
  predicate IsChecked(selected: seq<string>, name: string) {
    name in selected
  }

  /** The checkbox's `onChange`, with `checked` the box's new state. */
  function ToggleTopping(selected: seq<string>, name: string, checked: bool): (r: seq<string>)
    ensures IsChecked(r, name) == checked
    ensures forall t :: t != name ==> (IsChecked(r, t) <==> IsChecked(selected, t))
  {
    if checked then
      var r := CheckTopping(selected, name);
      assert r[|selected|] == name;
      assert forall t :: t in r <==> t in selected || t == name by {
        assert r == selected + [name];
      }
      r
    else UncheckTopping(selected, name)
  }

  /** After a change the box shows exactly the state it was set to. */
  lemma ToggleShowsNewState(selected: seq<string>, name: string, checked: bool)
    ensures IsChecked(ToggleTopping(selected, name, checked), name) == checked
  {
    if checked {
      assert CheckTopping(selected, name)[|selected|] == name;
    }
  }

  /**
   * Unchecking removes every copy of the name and leaves every other name
   * as often as before.
   */
  lemma UncheckRemovesEveryCopy(selected: seq<string>, name: string, other: string)
    requires other != name
    ensures multiset(UncheckTopping(selected, name))[name] == 0
    ensures multiset(UncheckTopping(selected, name))[other] == multiset(selected)[other]
  {
    FilterCount((t: string) => t != name, selected, name);
    FilterCount((t: string) => t != name, selected, other);
  }

  /** Checking a name not yet selected and unchecking it again restores the selection. */
  lemma CheckThenUncheck(selected: seq<string>, name: string)
    requires name !in selected
    ensures UncheckTopping(CheckTopping(selected, name), name) == selected
  {
    var keep := (t: string) => t != name;
    FilterConcat(keep, selected, [name]);
    FilterKeepsAll(keep, selected);
    assert Filter(keep, [name]) == Filter(keep, []) ;
  }

  /** The object literal of `handleSubmit`; `now` is `new Date().toISOString()`. */
  function BuildDraft(drink: DrinkItem, customerName: string, seatingLocation: string,
                      specialInstructions: string, selected: seq<string>, now: Timestamp): (draft: OrderDraft)
    ensures draft.orderStatus == New
    ensures draft.drinkName == drink.name && draft.temperature == drink.temperature
    ensures draft.toppings == selected && draft.timestamp == now
    ensures draft.customerName == customerName && draft.seatingLocation == seatingLocation
    ensures draft.specialInstructions == specialInstructions
    ensures draft.customerId.None?
  {
    OrderDraft(None, drink.name, drink.temperature, customerName, seatingLocation,
               specialInstructions, selected, New, now)
  }

  /**
   * What reaches the server for a submitted form: a New order for the chosen
   * drink with the selected toppings, under this browser's id whatever the
   * draft carried.
   */
  lemma SubmittedDraftIsSavedAsNew(drink: DrinkItem, customerName: string, seatingLocation: string,
                                   specialInstructions: string, selected: seq<string>, now: Timestamp,
                                   customerId: string)
    ensures var body := OrdersService.SavePayload(
              BuildDraft(drink, customerName, seatingLocation, specialInstructions, selected, now), customerId);
      && body.orderStatus == New && body.drinkName == drink.name
      && body.toppings == Some(selected) && body.customerId == customerId
      && body.customerName == customerName && body.seatingLocation == seatingLocation
  {
  }
}
