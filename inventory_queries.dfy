/**
 * ConsoleApp8: a store manager with two lazy filters (`GetExpensiveItems`,
 * `GetExpiringSoon`) and the LINQ queries the program runs over its list
 * (`Where`, `OrderBy`).  Items are built without a price check here.
 */
module InventoryQueries {
  import opened StoreItems

  /** A food item counts as expiring when it expires within `days` days of `now` (or already has). */
  predicate ExpiresWithin(x: StoreItem, now: int, days: int)
  {
    x.Food? && x.expiration - now <= days * TicksPerDay
  }

  class StoreManager {
    var items: seq<StoreItem>

    constructor ()
      ensures items == []
    {
      items := [];
    }

    method AddItem(item: StoreItem)
      modifies this
      ensures items == old(items) + [item]
    {
      items := items + [item];
    }

    /** The stored list itself, in the order the items were added. */
    function GetAll(): (r: seq<StoreItem>)
      reads this
      ensures r == items
    {
      items
    }

    /** The items priced at `minPrice` or more (boundary included), in list order, every copy kept. */
    function GetExpensiveItems(minPrice: real): (r: seq<StoreItem>)
      reads this
      ensures forall x :: x in r <==> x in items && x.price >= minPrice
      ensures forall x :: multiset(r)[x] == if x.price >= minPrice then multiset(items)[x] else 0
      ensures SubsequenceOf(r, items)
    {
      FilterCounts(items, PricedAtLeast(minPrice));
      Filter(items, PricedAtLeast(minPrice))
    }

    /**
     * The food items whose expiration is at most `days` days after `now`,
     * expired ones included, in list order; never an item of another kind.
     */
    function GetExpiringSoon(days: int, now: int): (r: seq<StoreItem>)
      reads this
      ensures forall x :: x in r <==> x in items && x.Food? && x.expiration - now <= days * TicksPerDay
      ensures forall x :: multiset(r)[x] == if ExpiresWithin(x, now, days) then multiset(items)[x] else 0
      ensures SubsequenceOf(r, items)
    {
      FilterCounts(items, (x: StoreItem) => ExpiresWithin(x, now, days));
      Filter(items, (x: StoreItem) => ExpiresWithin(x, now, days))
    }
  }

  /** `Where(i => i.Price < 100)`: the cheap items, bound excluded, in list order, every copy kept. */
  function Cheap(s: seq<StoreItem>): (r: seq<StoreItem>)
    ensures forall x :: x in r <==> x in s && x.price < 100.0
    ensures forall x :: multiset(r)[x] == if x.price < 100.0 then multiset(s)[x] else 0
    ensures SubsequenceOf(r, s)
  {
    FilterCounts(s, (x: StoreItem) => x.price < 100.0);
    Filter(s, (x: StoreItem) => x.price < 100.0)
  }

  /** Prices never decrease along `s`. */
  ghost predicate SortedByPrice(s: seq<StoreItem>)
  {
    forall i, j :: 0 <= i < j < |s| ==> s[i].price <= s[j].price
  }

  /** The items of `s` that cost exactly `p`, in order. */
  function PricedAt(s: seq<StoreItem>, p: real): seq<StoreItem>
  {
    if s == [] then [] else (if s[0].price == p then [s[0]] else []) + PricedAt(s[1..], p)
  }

  lemma {:induction false} PricedAtAppend(a: seq<StoreItem>, b: seq<StoreItem>, p: real)
    ensures PricedAt(a + b, p) == PricedAt(a, p) + PricedAt(b, p)
  {
    if a == [] {
      assert a + b == b;
    } else {
      var head := if a[0].price == p then [a[0]] else [];
      assert (a + b)[0] == a[0] && (a + b)[1..] == a[1..] + b;
      assert PricedAt(a + b, p) == head + PricedAt(a[1..] + b, p);
      PricedAtAppend(a[1..], b, p);
      assert PricedAt(a, p) == head + PricedAt(a[1..], p);
    }
  }

  /** Places `x` after every element of `t` that is not dearer than it. */
  function InsertByPrice(t: seq<StoreItem>, x: StoreItem): (r: seq<StoreItem>)
    ensures multiset(r) == multiset(t) + multiset{x}
  {
    if t == [] || t[|t| - 1].price <= x.price then
      t + [x]
    else
      assert t == t[..|t| - 1] + [t[|t| - 1]];
      InsertByPrice(t[..|t| - 1], x) + [t[|t| - 1]]
  }

  /** Inserting into a list sorted by price keeps it sorted. */
  lemma {:induction false} InsertByPriceSorted(t: seq<StoreItem>, x: StoreItem)
    requires SortedByPrice(t)
    ensures SortedByPrice(InsertByPrice(t, x))
  {
    if !(t == [] || t[|t| - 1].price <= x.price) {
      var init, last := t[..|t| - 1], t[|t| - 1];
      var r' := InsertByPrice(init, x);
      InsertByPriceSorted(init, x);
      forall y | y in r' ensures y.price <= last.price {
        assert y in multiset(r');
        assert y in init || y == x;
      }
      var r := r' + [last];
      forall i, j | 0 <= i < j < |r| ensures r[i].price <= r[j].price {
        if j == |r'| {
          assert r[i] in r';
        } else {
          assert r[i] == r'[i] && r[j] == r'[j];
        }
      }
    }
  }

  /** LINQ `OrderBy(i => i.Price)`, a stable sort: items are taken in list order and each is inserted after its equals. */
  function SortByPrice(s: seq<StoreItem>): (r: seq<StoreItem>)
    ensures multiset(r) == multiset(s)
    ensures SortedByPrice(r)
  {
    if s == [] then []
    else
      var init, last := s[..|s| - 1], s[|s| - 1];
      assert s == init + [last];
      var sorted := SortByPrice(init);
      InsertByPriceSorted(sorted, last);
      InsertByPrice(sorted, last)
  }

  /** A single item is kept exactly when it has the price. */
  lemma PricedAtSingle(y: StoreItem, p: real)
    ensures PricedAt([y], p) == if y.price == p then [y] else []
  {
    assert [y][1..] == [];
  }

  /** Two items of different prices can be listed in either order as far as one price is concerned. */
  lemma PricedAtSwap(a: seq<StoreItem>, x: StoreItem, y: StoreItem, p: real)
    requires x.price != y.price
    ensures a + PricedAt([x], p) + PricedAt([y], p) == a + PricedAt([y], p) + PricedAt([x], p)
  {
    PricedAtSingle(x, p);
    PricedAtSingle(y, p);
    if x.price == p {
      assert PricedAt([y], p) == [];
    } else {
      assert PricedAt([x], p) == [];
    }
  }

  /** Inserting `x` leaves the items of every price in their relative order, `x` last among its equals. */
  lemma {:induction false} InsertByPriceStable(t: seq<StoreItem>, x: StoreItem, p: real)
    ensures PricedAt(InsertByPrice(t, x), p) == PricedAt(t, p) + PricedAt([x], p)
  {
    if t == [] || t[|t| - 1].price <= x.price {
      assert InsertByPrice(t, x) == t + [x];
      PricedAtAppend(t, [x], p);
    } else {
      var init, last := t[..|t| - 1], t[|t| - 1];
      var r' := InsertByPrice(init, x);
      assert t == init + [last];
      assert InsertByPrice(t, x) == r' + [last];
      InsertByPriceStable(init, x, p);
      PricedAtAppend(r', [last], p);
      PricedAtAppend(init, [last], p);
      // last is dearer than x, so at most one of them costs p
      PricedAtSwap(PricedAt(init, p), x, last, p);
    }
  }

  /**
   * `OrderBy` is stable: for every price, the items at that price appear in
   * the sorted list in the same order as in the input.
   */
  lemma {:induction false} SortByPriceStable(s: seq<StoreItem>, p: real)
    ensures PricedAt(SortByPrice(s), p) == PricedAt(s, p)
  {
    if s != [] {
      var init, last := s[..|s| - 1], s[|s| - 1];
      assert s == init + [last];
      SortByPriceStable(init, p);
      InsertByPriceStable(SortByPrice(init), last, p);
      PricedAtAppend(init, [last], p);
    }
  }

  /** Adding an item extends the expensive-items query by that item exactly when it qualifies. */
  lemma AddExtendsExpensive(s: seq<StoreItem>, x: StoreItem, minPrice: real)
    ensures Filter(s + [x], PricedAtLeast(minPrice))
         == Filter(s, PricedAtLeast(minPrice)) + (if x.price >= minPrice then [x] else [])
  {
    FilterAppend(s, [x], PricedAtLeast(minPrice));
  }
}
