/**
 * ConsoleApp4: purchase and availability rules of the four item kinds.
 *
 * The base `StoreItem.Buy` throws on a nonpositive quantity; each subclass
 * override adds its own check, calls the base, and catches every exception,
 * reporting it on the console.  A call therefore never fails to its caller: it
 * produces the sequence of lines it prints, abstracted to `Line`.
 */
module Purchases {
  import opened Options
  import opened StoreItems

  datatype Reason = NonPositiveQuantity | ExpiredFood | TooManyElectronics | PassportNotRequired

  datatype Line =
    | Purchased(quantity: int, name: string, cost: real)
    | StoreProperly
    | WarrantyIssued
    | VipConfirmed(name: string, quantity: int)
    /** The `catch` block's report of the exception. */
    | Failed(reason: Reason)

  datatype Availability = FreshAvailable | ExpiredUnavailable | CheckWarehouse | OnRequest

  /** Food is expired strictly after its expiration instant. */
  predicate Expired(now: int, expiration: int)
  {
    now > expiration
  }

  /** The base `Buy`: any quantity of at least one is bought at `Price * quantity`. */
  function BaseBuy(item: CheckedItem, quantity: int): (r: Result<Line, Reason>)
    ensures r.Ok? <==> quantity >= 1
    ensures r.Ok? ==> r.value == Purchased(quantity, item.name, item.price * quantity as real)
    ensures r.Ok? ==> r.value.cost >= 0.0
  {
    if quantity <= 0 then Err(NonPositiveQuantity)
    else Ok(Purchased(quantity, item.name, item.price * quantity as real))
  }

  /** The purchase rule of each kind, stated on its own. */
  predicate Accepts(item: CheckedItem, quantity: int, now: int)
  {
    match item
    case Food(_, _, expiration) => !Expired(now, expiration) && 1 <= quantity
    case Electronic(_, _, _) => 1 <= quantity <= 5
    case Luxury(_, _, passport) => passport && 1 <= quantity
  }

  /**
   * The base `Buy` called inside an override's `try`: its purchase line and
   * then the override's own closing lines `after`, or the `catch` report.
   */
  function TryBase(item: CheckedItem, quantity: int, after: seq<Line>): (r: seq<Line>)
    ensures quantity >= 1 ==> r == [Purchased(quantity, item.name, item.price * quantity as real)] + after
    ensures quantity <= 0 ==> r == [Failed(NonPositiveQuantity)]
  {
    match BaseBuy(item, quantity)
    case Err(e) => [Failed(e)]
    case Ok(line) => [line] + after
  }

  /** The lines a subclass's `Buy` override prints; no exception escapes it. */
  function Buy(item: CheckedItem, quantity: int, now: int): (r: seq<Line>)
    ensures |r| >= 1
    ensures item.Food? && Expired(now, item.expiration) ==> r == [Failed(ExpiredFood)]
    ensures item.Electronic? && quantity > 5 ==> r == [Failed(TooManyElectronics)]
    ensures item.Luxury? && !item.requiresPassport ==> r == [Failed(PassportNotRequired)]
    ensures item.Luxury? && item.requiresPassport ==> r[0] == VipConfirmed(item.name, quantity)
  {
    match item
    case Food(_, _, expiration) =>
      if Expired(now, expiration) then [Failed(ExpiredFood)]
      else TryBase(item, quantity, [StoreProperly])
    case Electronic(_, _, _) =>
      if quantity > 5 then [Failed(TooManyElectronics)]
      else TryBase(item, quantity, [WarrantyIssued])
    case Luxury(name, _, passport) =>
      if !passport then [Failed(PassportNotRequired)]
      else [VipConfirmed(name, quantity)] + TryBase(item, quantity, [])
  }

  /** When the item's kind accepts the purchase, its line with cost `Price * quantity` is printed. */
  lemma BuyAccepted(item: CheckedItem, quantity: int, now: int)
    requires Accepts(item, quantity, now)
    ensures Purchased(quantity, item.name, item.price * quantity as real) in Buy(item, quantity, now)
  {
    var line := Purchased(quantity, item.name, item.price * quantity as real);
    var r := Buy(item, quantity, now);
    match item
    case Food(_, _, _) =>
      assert r == TryBase(item, quantity, [StoreProperly]);
      assert r[0] == line;
    case Electronic(_, _, _) =>
      assert r == TryBase(item, quantity, [WarrantyIssued]);
      assert r[0] == line;
    case Luxury(name, _, _) =>
      assert r == [VipConfirmed(name, quantity)] + TryBase(item, quantity, []);
      assert r[1] == line;
  }

  /** When the item's kind refuses the purchase, nothing is bought and the last line reports the error. */
  lemma BuyRefused(item: CheckedItem, quantity: int, now: int)
    requires !Accepts(item, quantity, now)
    ensures var r := Buy(item, quantity, now);
            r[|r| - 1].Failed? && forall l :: l in r ==> !l.Purchased?
  {
    var r := Buy(item, quantity, now);
    if item.Luxury? && item.requiresPassport {
      assert r == [VipConfirmed(item.name, quantity)] + TryBase(item, quantity, []);
      assert r == [VipConfirmed(item.name, quantity), Failed(NonPositiveQuantity)];
    } else {
      assert |r| == 1 && r[0].Failed?;
    }
  }

  /** A purchase goes through exactly when the item's kind accepts it. */
  lemma BuySucceedsIffAccepted(item: CheckedItem, quantity: int, now: int)
    ensures Accepts(item, quantity, now) <==>
              Purchased(quantity, item.name, item.price * quantity as real) in Buy(item, quantity, now)
  {
    if Accepts(item, quantity, now) {
      BuyAccepted(item, quantity, now);
    } else {
      BuyRefused(item, quantity, now);
    }
  }

  /** What `CheckAvailability` reports for each kind. */
  function CheckAvailability(item: CheckedItem, now: int): (r: Availability)
    ensures item.Food? ==> (r == ExpiredUnavailable <==> Expired(now, item.expiration))
    ensures item.Food? ==> (r == FreshAvailable <==> !Expired(now, item.expiration))
    ensures item.Electronic? ==> r == CheckWarehouse
    ensures item.Luxury? ==> r == OnRequest
  {
    match item
    case Food(_, _, expiration) => if Expired(now, expiration) then ExpiredUnavailable else FreshAvailable
    case Electronic(_, _, _) => CheckWarehouse
    case Luxury(_, _, _) => OnRequest
  }

  /**
   * Availability and purchase of food rest on the same test: food reported
   * unavailable cannot be bought in any quantity, food reported available can
   * be bought in any positive quantity.
   */
  lemma AvailabilityAgreesWithBuy(item: CheckedItem, quantity: int, now: int)
    requires item.Food?
    ensures CheckAvailability(item, now) == ExpiredUnavailable ==> Buy(item, quantity, now) == [Failed(ExpiredFood)]
    ensures CheckAvailability(item, now) == FreshAvailable && quantity >= 1 ==>
              Buy(item, quantity, now) == [Purchased(quantity, item.name, item.price * quantity as real), StoreProperly]
  {
  }

  /** A luxury item with a passport flag confirms first, then reports a bad quantity. */
  lemma LuxuryConfirmsBeforeQuantityCheck(item: CheckedItem, quantity: int, now: int)
    requires item.Luxury? && item.requiresPassport && quantity <= 0
    ensures Buy(item, quantity, now) == [VipConfirmed(item.name, quantity), Failed(NonPositiveQuantity)]
  {
  }

  /** The program's driver: each of the three items is bought twice over. */
  lemma DemoPurchases(now: int)
    ensures Buy(Food("Milk", 29.5, now + 3 * TicksPerDay), 2, now) == [Purchased(2, "Milk", 59.0), StoreProperly]
    ensures Buy(Electronic("Laptop", 39999.0, 24), 2, now) == [Purchased(2, "Laptop", 79998.0), WarrantyIssued]
    ensures Buy(Luxury("Golden Watch", 150000.0, true), 2, now)
         == [VipConfirmed("Golden Watch", 2), Purchased(2, "Golden Watch", 300000.0)]
  {
  }
}
