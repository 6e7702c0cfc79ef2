/**
 * The store item hierarchy shared by the inventory programs
 * (`StoreItem` with its `FoodItem`, `ElectronicItem` and `LuxuryItem` subclasses),
 * written as one tagged variant, together with the list queries they use.
 *
 * Prices are C# `decimal`, modelled exactly as `real`.  A `DateTime` is a count of
 * ticks (100 ns each), modelled as `int`.
 */
module StoreItems {
  import opened Options

  /** Ticks in one day: a `TimeSpan` of `TotalDays` d spans d * TicksPerDay ticks. */
  const TicksPerDay: int := 864_000_000_000

  datatype StoreItem =
    | Food(name: string, price: real, expiration: int)
    | Electronic(name: string, price: real, warrantyMonths: int)
    | Luxury(name: string, price: real, requiresPassport: bool)

  /** An item built by a constructor that refuses a negative price. */
  type CheckedItem = i: StoreItem | i.price >= 0.0 witness Food("", 0.0, 0)

  /**
   * The base constructor's guard: an item with a negative price cannot be
   * constructed (an `ArgumentException` is thrown); a price of zero is accepted.
   */
  function Checked(item: StoreItem): (r: Option<CheckedItem>)
    ensures r.Some? <==> item.price >= 0.0
    ensures r.Some? ==> r.value == item
  {
    if item.price < 0.0 then None else Some(item)
  }

  /**
   * `r` keeps the elements of `s` in their order, possibly dropping some.
   * Matching greedily from the front decides it.
   */
  ghost predicate SubsequenceOf<T>(r: seq<T>, s: seq<T>)
    decreases |s|
  {
    if r == [] then true
    else if s == [] then false
    else if r[0] == s[0] then SubsequenceOf(r[1..], s[1..])
    else SubsequenceOf(r, s[1..])
  }

  /** A `foreach`/`yield` filter, or LINQ `Where`: the elements that pass `keep`, in list order. */
  function Filter<T(==,!new)>(s: seq<T>, keep: T -> bool): (r: seq<T>)
    ensures forall x :: x in r <==> x in s && keep(x)
    ensures SubsequenceOf(r, s)
  {
    if s == [] then []
    else
      var rest := Filter(s[1..], keep);
      if keep(s[0]) then
        [s[0]] + rest
      else
        assert rest != [] ==> rest[0] in rest && rest[0] != s[0];
        rest
  }

  /** The filter keeps every copy of an element that passes: each occurs as often as in `s`. */
  lemma {:induction false} FilterCounts<T(!new)>(s: seq<T>, keep: T -> bool)
    ensures forall x :: multiset(Filter(s, keep))[x] == if keep(x) then multiset(s)[x] else 0
  {
    if s != [] {
      FilterCounts(s[1..], keep);
      assert s == [s[0]] + s[1..];
    }
  }

  /** The threshold test of the expensive-item queries: the boundary price itself passes. */
  function PricedAtLeast(min: real): StoreItem -> bool
  {
    (x: StoreItem) => x.price >= min
  }

  /** Filtering distributes over concatenation: appending an item can only append to a query. */
  lemma {:induction false} FilterAppend<T(!new)>(a: seq<T>, b: seq<T>, keep: T -> bool)
    ensures Filter(a + b, keep) == Filter(a, keep) + Filter(b, keep)
  {
    if a != [] {
      assert (a + b)[1..] == a[1..] + b;
      FilterAppend(a[1..], b, keep);
    } else {
      assert a + b == b;
    }
  }

  /** LINQ `Sum(i => i.Price)`. */
  function Total(s: seq<StoreItem>): (r: real)
  {
    if s == [] then 0.0 else s[0].price + Total(s[1..])
  }

  /** The sum of a list grows by exactly the price of an appended item. */
  lemma {:induction false} TotalAppend(s: seq<StoreItem>, x: StoreItem)
    ensures Total(s + [x]) == Total(s) + x.price
  {
    if s != [] {
      assert (s + [x])[1..] == s[1..] + [x];
      TotalAppend(s[1..], x);
    }
  }
}
