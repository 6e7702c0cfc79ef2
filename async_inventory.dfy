/**
 * ConsoleApp10: a store manager whose three asynchronous queries load the
 * list, search it by a price threshold and sum its prices.  The simulated
 * delays and cancellation tokens are not modelled; each query is the value it
 * returns once its delay has elapsed.  Items are built without a price check.
 */
module AsyncInventory {
  import opened StoreItems

  class StoreManager {
    var items: seq<StoreItem>

    constructor ()
      ensures items == [] && CalculateTotal() == 0.0
    {
      items := [];
    }

    /** Appends the item; the store's total grows by exactly its price. */
    method AddItem(item: StoreItem)
      modifies this
      ensures items == old(items) + [item]
      ensures CalculateTotal() == old(CalculateTotal()) + item.price
    {
      TotalAppend(items, item);
      items := items + [item];
    }

    /** The stored list itself, in the order the items were added. */
    function GetAll(): (r: seq<StoreItem>)
      reads this
      ensures r == items
    {
      items
    }

    /** `LoadItemsAsync` hands back the store's own list, as it stands. */
    function LoadItems(): (r: seq<StoreItem>)
      reads this
      ensures r == items
    {
      items
    }

    /** `FindExpensiveAsync`: the items priced at `minPrice` or more, in list order, every copy kept. */
    function FindExpensive(minPrice: real): (r: seq<StoreItem>)
      reads this
      ensures forall x :: x in r <==> x in items && x.price >= minPrice
      ensures forall x :: multiset(r)[x] == if x.price >= minPrice then multiset(items)[x] else 0
      ensures SubsequenceOf(r, items)
    {
      FilterCounts(items, PricedAtLeast(minPrice));
      Filter(items, PricedAtLeast(minPrice))
    }

    /** `CalculateTotalAsync`: the sum of all prices; 0 for an empty store. */
    function CalculateTotal(): (r: real)
      reads this
      ensures items == [] ==> r == 0.0
    {
      Total(items)
    }
  }

  /** With two cheap items listed before two dear ones, the price search keeps the dear pair, in order. */
  lemma DearPairAfterCheapPair(a: StoreItem, b: StoreItem, c: StoreItem, d: StoreItem, minPrice: real)
    requires a.price < minPrice && b.price < minPrice
    requires c.price >= minPrice && d.price >= minPrice
    ensures Filter([a, b, c, d], PricedAtLeast(minPrice)) == [c, d]
  {
    var keep := PricedAtLeast(minPrice);
    assert Filter([d], keep) == [d];
    assert Filter([c, d], keep) == [c, d] by {
      assert [c, d][1..] == [d];
    }
    assert Filter([b, c, d], keep) == [c, d] by {
      assert [b, c, d][1..] == [c, d];
    }
    assert [a, b, c, d][1..] == [b, c, d];
  }

  /** The driver's stock: milk, cheese, the laptop and the headphones, in that order. */
  method Stocked(now: int) returns (m: StoreManager)
    ensures fresh(m)
    ensures m.items == [Food("Milk", 29.5, now + 2 * TicksPerDay), Food("Cheese", 150.0, now + 10 * TicksPerDay),
                        Electronic("Laptop", 40000.0, 24), Electronic("Headphones", 1999.0, 12)]
    ensures m.CalculateTotal() == 42178.5
  {
    m := new StoreManager();
    m.AddItem(Food("Milk", 29.5, now + 2 * TicksPerDay));
    m.AddItem(Food("Cheese", 150.0, now + 10 * TicksPerDay));
    m.AddItem(Electronic("Laptop", 40000.0, 24));
    m.AddItem(Electronic("Headphones", 1999.0, 12));
  }

  /** The program's driver: four items, the expensive ones are the laptop and the headphones, totalling 42178.5. */
  method Demo(now: int) returns (loaded: seq<StoreItem>, expensive: seq<StoreItem>, total: real)
    ensures |loaded| == 4
    ensures expensive == [Electronic("Laptop", 40000.0, 24), Electronic("Headphones", 1999.0, 12)]
    ensures total == 42178.5
  {
    var manager := Stocked(now);
    DearPairAfterCheapPair(manager.items[0], manager.items[1], manager.items[2], manager.items[3], 1000.0);
    loaded := manager.LoadItems();
    expensive := manager.FindExpensive(1000.0);
    total := manager.CalculateTotal();
  }
}
