/**
 * ConsoleApp7: store items as objects that compare by price and clone into
 * fresh objects, and a manager whose list is copied and sorted.
 */
module Cloning {
  import opened StoreItems

  /** `decimal.CompareTo`: -1, 0 or 1 as `a` is below, equal to or above `b`. */
  function ComparePrices(a: real, b: real): (r: int)
    ensures r == -1 || r == 0 || r == 1
    ensures r < 0 <==> a < b
    ensures r == 0 <==> a == b
    ensures r > 0 <==> a > b
  {
    if a < b then -1 else if a == b then 0 else 1
  }

  /** A store item object: an identity plus the fields of a `StoreItem`. */
  class ItemObject {
    const data: CheckedItem

    constructor (data: CheckedItem)
      ensures this.data == data
    {
      this.data := data;
    }

    /**
     * Runs a subclass constructor: a negative price throws (`null` here);
     * otherwise a new object with exactly those fields.
     */
    static method Create(item: StoreItem) returns (r: ItemObject?)
      ensures r == null <==> item.price < 0.0
      ensures r != null ==> fresh(r) && r.data == item
    {
      var checked := Checked(item);
      if checked.None? {
        return null;
      }
      r := new ItemObject(checked.value);
    }

    /** `CompareTo`: a missing item sorts first; otherwise the prices decide. */
    function CompareTo(other: ItemObject?): (r: int)
      ensures other == null ==> r == 1
      ensures other != null ==> (r < 0 <==> data.price < other.data.price)
      ensures other != null ==> (r == 0 <==> data.price == other.data.price)
      ensures other != null ==> (r > 0 <==> data.price > other.data.price)
    {
      if other == null then 1 else ComparePrices(data.price, other.data.price)
    }

    /**
     * `Clone`: the food and electronic overrides call their constructors again
     * with the same fields; the result is a new object, equal in every field.
     */
    method Clone() returns (c: ItemObject)
      ensures fresh(c) && c != this
      ensures c.data == data && c.data.price >= 0.0
    {
      var r := Create(data);
      c := r;
    }
  }

  /** Comparison is antisymmetric on items that are present. */
  lemma CompareToAntisymmetric(a: ItemObject, b: ItemObject)
    ensures a.CompareTo(b) == -b.CompareTo(a)
  {
  }

  /** Prices never decrease along `s`, by the items' own comparison. */
  ghost predicate SortedByCompare(s: seq<ItemObject>)
  {
    forall i, j :: 0 <= i < j < |s| ==> s[i].CompareTo(s[j]) <= 0
  }

  class StoreManager {
    var items: seq<ItemObject>

    constructor ()
      ensures items == []
    {
      items := [];
    }

    method AddItem(item: ItemObject)
      modifies this
      ensures items == old(items) + [item]
    {
      items := items + [item];
    }

    /** The stored list itself, in the order the items were added; no stored price is negative. */
    function GetAll(): (r: seq<ItemObject>)
      reads this
      ensures r == items
      ensures forall i :: 0 <= i < |r| ==> r[i].data.price >= 0.0
    {
      items
    }
  }

  /** Swaps two cells of an array; everything else stays. */
  method Swap(a: array<ItemObject>, i: int, j: int)
    requires 0 <= i < a.Length && 0 <= j < a.Length
    modifies a
    ensures a[i] == old(a[j]) && a[j] == old(a[i])
    ensures forall k :: 0 <= k < a.Length && k != i && k != j ==> a[k] == old(a[k])
    ensures multiset(a[..]) == old(multiset(a[..]))
  {
    a[i], a[j] := a[j], a[i];
  }

  /** The first `n` cells of `a` are in nondecreasing price order. */
  ghost predicate SortedUpTo(a: array<ItemObject>, n: int)
    reads a
  {
    forall p, q :: 0 <= p < q < n && q < a.Length ==> a[p].data.price <= a[q].data.price
  }

  /** One insertion step: sinks `a[i]` into the sorted prefix before it. */
  method InsertAt(a: array<ItemObject>, i: int)
    requires 0 <= i < a.Length && SortedUpTo(a, i)
    modifies a
    ensures SortedUpTo(a, i + 1)
    ensures multiset(a[..]) == old(multiset(a[..]))
  {
    var j := i;
    while j > 0 && a[j - 1].data.price > a[j].data.price
      invariant 0 <= j <= i
      invariant forall p, q :: 0 <= p < q <= i && p != j && q != j ==> a[p].data.price <= a[q].data.price
      invariant forall q :: j < q <= i ==> a[j].data.price <= a[q].data.price
      invariant multiset(a[..]) == old(multiset(a[..]))
    {
      Swap(a, j - 1, j);
      j := j - 1;
    }
  }

  /**
   * `new List<StoreItem>(manager.GetAll())` followed by `Sort()`: a copy is
   * sorted in place by `CompareTo`, so the list it was copied from keeps its
   * order.  The framework's sort is not stable, so only the order of prices
   * and the permutation are promised.
   */
  method SortedCopy(items: seq<ItemObject>) returns (sorted: seq<ItemObject>)
    ensures multiset(sorted) == multiset(items)
    ensures SortedByCompare(sorted)
  {
    var a := new ItemObject[|items|](k requires 0 <= k < |items| => items[k]);
    assert a[..] == items;
    var i := 0;
    while i < a.Length
      invariant 0 <= i <= a.Length
      invariant SortedUpTo(a, i)
      invariant multiset(a[..]) == multiset(items)
    {
      InsertAt(a, i);
      i := i + 1;
    }
    sorted := a[..];
  }

  /** The program's driver: sorting a copy puts the cheapest item first and leaves the store's order as it was. */
  method Demo(now: int) returns (original: seq<ItemObject>, sorted: seq<ItemObject>, clone: ItemObject)
    ensures |original| == 4 && original[0].data.name == "Milk"
    ensures multiset(sorted) == multiset(original) && SortedByCompare(sorted)
    ensures clone != original[0] && clone.data == original[0].data
  {
    var manager := new StoreManager();
    var milk := new ItemObject(Food("Milk", 29.5, now + 3 * TicksPerDay));
    var laptop := new ItemObject(Electronic("Laptop", 39999.0, 24));
    var cheese := new ItemObject(Food("Cheese", 155.0, now + 10 * TicksPerDay));
    var phone := new ItemObject(Electronic("Smartphone", 19999.0, 12));
    manager.AddItem(milk);
    manager.AddItem(laptop);
    manager.AddItem(cheese);
    manager.AddItem(phone);
    original := manager.GetAll();
    sorted := SortedCopy(original);
    clone := original[0].Clone();
    original := manager.GetAll();
  }
}
