/**
 * The records the application passes around (src/types/types.ts), the
 * request and response shapes of the orders API, and the outcome of a call
 * across the network as the client sees it.
 */
module Types {

  datatype Option<T> = None | Some(value: T) {
    function GetOr(default: T): T {
      match this
      case Some(v) => v
      case None => default
    }
  }

  /** The five order states; `OnHold` is spelled "On Hold" on the wire. */
  datatype OrderStatus = New | Brewing | OnHold | Delivered | Cancelled {
    function Name(): string {
      match this
      case New => "New"
      case Brewing => "Brewing"
      case OnHold => "On Hold"
      case Delivered => "Delivered"
      case Cancelled => "Cancelled"
    }
  }

  /** The five wire spellings are distinct, so the spelling names the status. */
  lemma StatusNamesDistinct(s: OrderStatus, t: OrderStatus)
    ensures s.Name() == t.Name() <==> s == t
  {
  }

  /** Timestamps are instants as integers (milliseconds); the ISO text form is not modelled. */
  type Timestamp = int

  datatype Order = Order(
    id: string,
    customerId: string,
    customerName: string,
    drinkName: string,
    seatingLocation: string,
    toppings: Option<seq<string>>,
    specialInstructions: Option<string>,
    orderStatus: OrderStatus,
    timestamp: Timestamp,
    rating: Option<int>,
    feedbackComment: Option<string>,
    feedbackTimestamp: Option<Timestamp>,
    current: Option<string>)

  /**
   * The body POSTed to create an order: an order without its `id` or
   * `timestamp` as the server declares it, though a client may send either
   * (the order form sends a timestamp) and the server overrides both.
   */
  datatype OrderBody = OrderBody(
    id: Option<string>,
    customerId: string,
    customerName: string,
    drinkName: string,
    seatingLocation: string,
    toppings: Option<seq<string>>,
    specialInstructions: Option<string>,
    orderStatus: OrderStatus,
    timestamp: Option<Timestamp>)

  /**
   * The order a client asks to save: what the order form builds, plus the
   * `customerId` an `Omit<Order, 'id'>` value may already carry (the form
   * leaves it absent). `temperature` is not an `Order` field.
   */
  datatype OrderDraft = OrderDraft(
    customerId: Option<string>,
    drinkName: string,
    temperature: string,
    customerName: string,
    seatingLocation: string,
    specialInstructions: string,
    toppings: seq<string>,
    orderStatus: OrderStatus,
    timestamp: Timestamp)

  /** A PATCH body: the order fields it carries, each `None` when absent. */
  datatype OrderPatch = OrderPatch(
    id: Option<string>,
    customerId: Option<string>,
    customerName: Option<string>,
    drinkName: Option<string>,
    seatingLocation: Option<string>,
    toppings: Option<seq<string>>,
    specialInstructions: Option<string>,
    orderStatus: Option<OrderStatus>,
    timestamp: Option<Timestamp>,
    rating: Option<int>,
    feedbackComment: Option<string>,
    feedbackTimestamp: Option<Timestamp>,
    current: Option<string>)

  /** `{ orderStatus: s }`, the only PATCH body the client sends. */
  function StatusPatch(s: OrderStatus): OrderPatch {
    OrderPatch(None, None, None, None, None, None, None, Some(s), None, None, None, None, None)
  }

  /** The `/api/stats` answer (its key `new` is the field `newOrders` here). */
  datatype Stats = Stats(total: nat, newOrders: nat, brewing: nat, completed: nat, cancelled: nat)

  const ZeroStats := Stats(0, 0, 0, 0, 0)

  /**
   * A spreadsheet cell value, restricted to text and whole numbers: the
   * export's fractional numbers and booleans have no form here.
   */
  datatype Value = Text(s: string) | Number(n: int)

  /**
   * A menu entry. `price` is kept as the raw price cell: its conversion
   * through `Number(...)` is floating point and is not modelled.
   */
  datatype DrinkItem = DrinkItem(
    id: string,
    name: string,
    price: Option<Value>,
    description: string,
    temperature: string)

  datatype Topping = Topping(id: string, name: string, price: Option<Value>)

  /** The outcome of one HTTP call as the client sees it: a 2xx answer, or a rejection. */
  datatype Reply<T> = Received(data: T) | Failed(reason: string)

  /** What an async client function does once awaited: return a value, or throw. */
  datatype Outcome<T> = Returned(value: T) | Threw(error: string)
}
