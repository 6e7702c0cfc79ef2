/**
 * ConsoleApp6: a store manager that hands every item to a caller-supplied
 * processor delegate, catching what a processor throws so that the remaining
 * items are still processed; and the three processors of the program.
 */
module ItemProcessing {
  import opened StoreItems

  /** What one processor produces for one item (the line it prints). */
  datatype Output =
    | Info(item: CheckedItem)
    | PriceVerdict(name: string, expensive: bool)
    | DiscountOf(name: string, discount: real)

  /** One call of the processor: it returns, or it throws with a message. */
  datatype Invocation = Returned(output: Output) | Threw(message: string)

  /** What `ProcessItems` records for one item: the processor's output, or the caught error. */
  datatype Entry = Handled(output: Output) | DelegateError(message: string)

  /** The `try`/`catch` around one processor call. */
  function Caught(inv: Invocation): (e: Entry)
    ensures inv.Returned? <==> e.Handled?
    ensures inv.Returned? ==> e.output == inv.output
    ensures inv.Threw? ==> e.message == inv.message
  {
    match inv
    case Returned(o) => Handled(o)
    case Threw(m) => DelegateError(m)
  }

  class StoreManager {
    var items: seq<CheckedItem>

    constructor ()
      ensures items == []
    {
      items := [];
    }

    method AddItem(item: CheckedItem)
      modifies this
      ensures items == old(items) + [item]
    {
      items := items + [item];
    }

    /** The stored list itself, in the order the items were added; no stored price is negative. */
    function GetAll(): (r: seq<CheckedItem>)
      reads this
      ensures r == items
      ensures forall i :: 0 <= i < |r| ==> r[i].price >= 0.0
    {
      items
    }

    /**
     * Calls the processor once per item, in list order; an exception from one
     * call is recorded and the loop goes on with the next item.  The list
     * itself is left as it was.
     */
    method ProcessItems(processor: CheckedItem -> Invocation) returns (log: seq<Entry>)
      ensures |log| == |items|
      ensures forall i :: 0 <= i < |items| ==> log[i] == Caught(processor(items[i]))
    {
      log := [];
      var i := 0;
      while i < |items|
        invariant 0 <= i <= |items|
        invariant |log| == i
        invariant forall k :: 0 <= k < i ==> log[k] == Caught(processor(items[k]))
      {
        log := log + [Caught(processor(items[i]))];
        i := i + 1;
      }
    }
  }

  /** The `checkPrice` processor's test: strictly above 1000 is expensive. */
  predicate IsExpensive(item: CheckedItem)
  {
    item.price > 1000.0
  }

  /** The `discountCalculator` processor's figure: a tenth of the price, exactly. */
  function Discount(item: CheckedItem): (d: real)
    ensures 0.0 <= d <= item.price
    ensures 10.0 * d == item.price
  {
    item.price * 0.1
  }

  /** The `printInfo` processor: shows the item, and never reaches the `catch`. */
  function PrintInfo(item: CheckedItem): (r: Invocation)
    ensures Caught(r) == Handled(Info(item))
  {
    Returned(Info(item))
  }

  /**
   * The `checkPrice` processor: names the item and calls it expensive exactly
   * when its price is above 1000, so 1000 itself is inexpensive; it never throws.
   */
  function CheckPrice(item: CheckedItem): (r: Invocation)
    ensures Caught(r).Handled? && r.output.PriceVerdict? && r.output.name == item.name
    ensures r.output.expensive <==> 1000.0 < item.price
    ensures item.price == 1000.0 ==> !r.output.expensive
  {
    Returned(PriceVerdict(item.name, IsExpensive(item)))
  }

  /**
   * The `discountCalculator` processor: names the item with a discount that is
   * a tenth of its price, between 0 and the price; it never throws.
   */
  function DiscountCalculator(item: CheckedItem): (r: Invocation)
    ensures Caught(r).Handled? && r.output.DiscountOf? && r.output.name == item.name
    ensures 10.0 * r.output.discount == item.price && 0.0 <= r.output.discount <= item.price
  {
    Returned(DiscountOf(item.name, Discount(item)))
  }

  /**
   * `ProcessItems(checkPrice)` over any store: no entry is an error, and the
   * item at each position is flagged expensive exactly when it costs over 1000.
   */
  method PriceCheckPass(manager: StoreManager) returns (log: seq<Entry>)
    ensures |log| == |manager.items|
    ensures forall i :: 0 <= i < |log| ==>
              log[i] == Handled(PriceVerdict(manager.items[i].name, 1000.0 < manager.items[i].price))
  {
    log := manager.ProcessItems(CheckPrice);
    forall i | 0 <= i < |log|
      ensures log[i] == Handled(PriceVerdict(manager.items[i].name, 1000.0 < manager.items[i].price))
    {
      var r := CheckPrice(manager.items[i]);
      assert log[i] == Caught(r);
    }
  }

  /** The program's driver, with `checkPrice`: only the laptop is expensive. */
  method Demo(now: int) returns (verdicts: seq<Entry>)
    ensures verdicts == [Handled(PriceVerdict("Milk", false)), Handled(PriceVerdict("Laptop", true)),
                         Handled(PriceVerdict("Cheese", false))]
  {
    var manager := new StoreManager();
    manager.AddItem(Food("Milk", 29.5, now + 3 * TicksPerDay));
    manager.AddItem(Electronic("Laptop", 39999.0, 24));
    manager.AddItem(Food("Cheese", 155.0, now + 10 * TicksPerDay));
    verdicts := manager.ProcessItems(CheckPrice);
  }
}
