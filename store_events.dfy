/**
 * ConsoleApp5: a store whose `AddItem` and `RemoveItem` raise the `ItemAdded`
 * and `ItemRemoved` events.
 *
 * An event's subscribers are an ordered list; raising it delivers the event
 * to each subscriber in subscription order, and each delivery is appended to a
 * log.  The two subscribers of the program (`StoreLogger` and
 * `NotificationService`) only write to the console, so a delivery stands for
 * the line each would print.
 */
module StoreEvents {
  import opened StoreItems

  /** The handlers the program subscribes: the logger's and the notifier's. */
  datatype Subscriber = Logger | Notifier

  datatype Event = ItemAdded(item: CheckedItem) | ItemRemoved(item: CheckedItem)

  /** One handler invocation. */
  datatype Delivery = Delivery(to: Subscriber, event: Event)

  /** Raising an event: one delivery per subscriber, in subscription order. */
  function Raise(subscribers: seq<Subscriber>, e: Event): (r: seq<Delivery>)
    ensures |r| == |subscribers|
    ensures forall i :: 0 <= i < |r| ==> r[i] == Delivery(subscribers[i], e)
  {
    if subscribers == [] then []
    else [Delivery(subscribers[0], e)] + Raise(subscribers[1..], e)
  }

  /** Position of the first occurrence of `x` in `s`. */
  function FirstIndex<T(==)>(s: seq<T>, x: T): (k: nat)
    requires x in s
    ensures k < |s| && s[k] == x
    ensures forall j :: 0 <= j < k ==> s[j] != x
  {
    if s[0] == x then 0 else FirstIndex(s[1..], x) + 1
  }

  /**
   * `List.Remove`: the first occurrence of `x` is cut out; the elements before
   * it stay in place and those after it move up by one.
   */
  function RemoveFirst<T(==)>(s: seq<T>, x: T): (r: seq<T>)
    requires x in s
    ensures |r| == |s| - 1
    ensures forall j :: 0 <= j < FirstIndex(s, x) ==> r[j] == s[j]
    ensures forall j :: FirstIndex(s, x) <= j < |r| ==> r[j] == s[j + 1]
  {
    var k := FirstIndex(s, x);
    s[..k] + s[k + 1..]
  }

  /** Removal takes away exactly one copy of the item and keeps every other element. */
  lemma RemoveFirstTakesOneCopy<T>(s: seq<T>, x: T)
    requires x in s
    ensures multiset(RemoveFirst(s, x)) == multiset(s) - multiset{x}
  {
    var k := FirstIndex(s, x);
    assert s == s[..k] + [x] + s[k + 1..];
    assert RemoveFirst(s, x) == s[..k] + s[k + 1..];
  }

  class StoreManager {
    var items: seq<CheckedItem>
    var addedSubscribers: seq<Subscriber>
    var removedSubscribers: seq<Subscriber>
    /** Every handler invocation so far, in order. */
    var deliveries: seq<Delivery>

    constructor ()
      ensures items == [] && deliveries == []
      ensures addedSubscribers == [] && removedSubscribers == []
    {
      items, deliveries := [], [];
      addedSubscribers, removedSubscribers := [], [];
    }

    /** `ItemAdded += handler`. */
    method SubscribeAdded(s: Subscriber)
      modifies this
      ensures addedSubscribers == old(addedSubscribers) + [s]
      ensures items == old(items) && removedSubscribers == old(removedSubscribers)
      ensures deliveries == old(deliveries)
    {
      addedSubscribers := addedSubscribers + [s];
    }

    /** `ItemRemoved += handler`. */
    method SubscribeRemoved(s: Subscriber)
      modifies this
      ensures removedSubscribers == old(removedSubscribers) + [s]
      ensures items == old(items) && addedSubscribers == old(addedSubscribers)
      ensures deliveries == old(deliveries)
    {
      removedSubscribers := removedSubscribers + [s];
    }

    /** Appends the item, then raises `ItemAdded` once with it. */
    method AddItem(item: CheckedItem)
      modifies this
      ensures items == old(items) + [item]
      ensures deliveries == old(deliveries) + Raise(addedSubscribers, ItemAdded(item))
      ensures addedSubscribers == old(addedSubscribers)
      ensures removedSubscribers == old(removedSubscribers)
    {
      items := items + [item];
      deliveries := deliveries + Raise(addedSubscribers, ItemAdded(item));
    }

    /**
     * Removes the first occurrence of the item and then raises `ItemRemoved`
     * once with it; an absent item is reported as an error and changes
     * nothing, raising no event.
     */
    method RemoveItem(item: CheckedItem) returns (removed: bool)
      modifies this
      ensures removed <==> item in old(items)
      ensures removed ==> items == RemoveFirst(old(items), item)
      ensures removed ==> deliveries == old(deliveries) + Raise(removedSubscribers, ItemRemoved(item))
      ensures !removed ==> items == old(items) && deliveries == old(deliveries)
      ensures addedSubscribers == old(addedSubscribers)
      ensures removedSubscribers == old(removedSubscribers)
    {
      if item !in items {
        return false;
      }
      items := RemoveFirst(items, item);
      deliveries := deliveries + Raise(removedSubscribers, ItemRemoved(item));
      return true;
    }

    /** The stored list itself, in the order the items were added; no stored price is negative. */
    function GetAll(): (r: seq<CheckedItem>)
      reads this
      ensures r == items
      ensures forall i :: 0 <= i < |r| ==> r[i].price >= 0.0
    {
      items
    }
  }

  /** Raising an event with the logger and then the notifier subscribed. */
  lemma RaiseToLoggerThenNotifier(e: Event)
    ensures Raise([Logger, Notifier], e) == [Delivery(Logger, e), Delivery(Notifier, e)]
  {
  }

  /** Three logged pairs read as one log of six. */
  lemma JoinPairs<T>(a: T, b: T, c: T, d: T, e: T, f: T)
    ensures [a, b] + [c, d] + [e, f] == [a, b, c, d, e, f]
  {
  }

  /** Removing the head of a two-element stock leaves the other element. */
  lemma RemoveFirstOfPair<T>(a: T, b: T)
    ensures RemoveFirst([a, b], a) == [b]
  {
    assert FirstIndex([a, b], a) == 0;
  }

  /** The driver's setup: an empty store with the logger, then the notifier, on both events. */
  method Subscribed() returns (m: StoreManager)
    ensures fresh(m)
    ensures m.items == [] && m.deliveries == []
    ensures m.addedSubscribers == [Logger, Notifier] && m.removedSubscribers == [Logger, Notifier]
  {
    m := new StoreManager();
    m.SubscribeAdded(Logger);
    m.SubscribeAdded(Notifier);
    m.SubscribeRemoved(Logger);
    m.SubscribeRemoved(Notifier);
  }

  /**
   * The program's driver: logger then notifier on both events; add milk, add
   * the laptop, remove milk.  Only the laptop is left, and each event reaches
   * the logger before the notifier.
   */
  method Demo(now: int) returns (stock: seq<CheckedItem>, log: seq<Delivery>)
    ensures stock == [Electronic("Laptop", 39999.0, 24)]
    ensures log == [Delivery(Logger, ItemAdded(Food("Milk", 29.5, now + 3 * TicksPerDay))),
                    Delivery(Notifier, ItemAdded(Food("Milk", 29.5, now + 3 * TicksPerDay))),
                    Delivery(Logger, ItemAdded(Electronic("Laptop", 39999.0, 24))),
                    Delivery(Notifier, ItemAdded(Electronic("Laptop", 39999.0, 24))),
                    Delivery(Logger, ItemRemoved(Food("Milk", 29.5, now + 3 * TicksPerDay))),
                    Delivery(Notifier, ItemRemoved(Food("Milk", 29.5, now + 3 * TicksPerDay)))]
  {
    var manager := Subscribed();

    var milk := Food("Milk", 29.5, now + 3 * TicksPerDay);
    var laptop := Electronic("Laptop", 39999.0, 24);
    var e1, e2, e3 := ItemAdded(milk), ItemAdded(laptop), ItemRemoved(milk);
    RaiseToLoggerThenNotifier(e1);
    RaiseToLoggerThenNotifier(e2);
    RaiseToLoggerThenNotifier(e3);
    RemoveFirstOfPair(milk, laptop);

    manager.AddItem(milk);
    assert manager.deliveries == [Delivery(Logger, e1), Delivery(Notifier, e1)];
    manager.AddItem(laptop);
    assert manager.items == [milk, laptop];
    ghost var before := manager.deliveries;
    assert before == [Delivery(Logger, e1), Delivery(Notifier, e1)] + [Delivery(Logger, e2), Delivery(Notifier, e2)];
    var removed := manager.RemoveItem(milk);
    assert removed;
    assert manager.items == [laptop];
    assert manager.deliveries == before + [Delivery(Logger, e3), Delivery(Notifier, e3)];
    JoinPairs(Delivery(Logger, e1), Delivery(Notifier, e1), Delivery(Logger, e2),
              Delivery(Notifier, e2), Delivery(Logger, e3), Delivery(Notifier, e3));

    stock := manager.GetAll();
    log := manager.deliveries;
  }
}
