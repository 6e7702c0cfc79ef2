# Store console programs, modelled in Dafny

The repository is a set of small C# console programs around a toy store: item
classes (`FoodItem`, `ElectronicItem`, `LuxuryItem`) with a price check in
their constructor, store managers that keep a list of items and answer
queries over it, an order that moves through a fixed lifecycle, and two
registries that number their entries with a counter.  This project models
the logic of nine of them, one Dafny module each:

| module | program | what it models |
|---|---|---|
| `OrderLifecycle` | ConsoleApp11 | `Order` and its five guarded transitions, the store manager, the driver's transition sequence |
| `StoreEvents` | ConsoleApp5 | adding and removing items with `ItemAdded` / `ItemRemoved` events raised to subscribers in order |
| `Notes` | ConsoleApp1 | `NoteService`: notes numbered by a counter, lookup by id |
| `ItemRegistry` | ConsoleApp2 | `ItemService`: notes, tasks and reminders stamped with ids in place |
| `InventoryQueries` | ConsoleApp8 | the expensive-item and expiring-food filters, `Where` and the stable `OrderBy` by price |
| `AsyncInventory` | ConsoleApp10 | load, threshold search and total of the asynchronous store manager |
| `Purchases` | ConsoleApp4 | `Buy` and `CheckAvailability` of the three item kinds |
| `Cloning` | ConsoleApp7 | price comparison, cloning into fresh objects, sorting a copy of the list |
| `ItemProcessing` | ConsoleApp6 | applying a processor delegate to every item with per-item error catching, and the price rules of the program's processors |

Two shared modules hold what the programs have in common: `Options` (an
`Option` and a `Result` type) and `StoreItems` (the item hierarchy as one
datatype, the constructor's price check, a generic order-keeping filter and
the price sum).

Conventions:

- Prices are C# `decimal` and are modelled exactly as `real`.
- A `DateTime` is a count of 100 ns ticks (`int`), and `DateTime.Now` is a
  parameter `now`.
- `(exp - now).TotalDays <= days` becomes `exp - now <= days * TicksPerDay`.
- A thrown exception is a value: `None`, `null`, `Rejected(message)`,
  `Failed(reason)` or `DelegateError(message)`, depending on the program.
- Programs whose objects change in place keep a class:
  - the `Order` state and every store manager's list;
  - ConsoleApp2's items, whose id `AddItem` overwrites;
  - ConsoleApp7's items, which are cloned and compared by identity.
- ConsoleApp7's sort works on an array copy.
- ConsoleApp6's processor loop is a `while` loop.

## Model

| member | source | states |
|---|---|---|
| StoreItems.Checked | ConsoleApp5/Program.cs:9-16 | an item can be built exactly when its price is not negative (zero is accepted), and the built item has the given fields |
| StoreItems.Filter | ConsoleApp8/Program.cs:65-72 | a `foreach`/`yield` filter yields exactly the elements that pass the test, in list order (a subsequence) |
| StoreItems.FilterCounts | ConsoleApp8/Program.cs:67-70 | the filter keeps every copy: an element that passes occurs as often as in the list, one that fails not at all |
| StoreItems.FilterAppend | ConsoleApp10/Program.cs:80 | filtering a concatenation is the concatenation of the two filtered parts |
| StoreItems.TotalAppend | ConsoleApp10/Program.cs:89 | the sum of prices grows by exactly the price of an appended item |
| OrderLifecycle.Step | ConsoleApp11/Program.cs:87-140 | the transition table of the five guards: a cancel succeeds exactly off `Completed` and leads to `Cancelled`; a successful forward call moves exactly one stage along the progression |
| OrderLifecycle.Run | ConsoleApp11/Program.cs:159-172 | the driver's calls in one `try` block: a successful run without cancels advances one stage per call, and a successful run whose last call is a cancel ends `Cancelled` |
| OrderLifecycle.ForwardStepOnlyFromPredecessor | ConsoleApp11/Program.cs:87-129 | each forward operation succeeds exactly from its predecessor state and then leads to its successor (Created→Processing→Packed→Shipped→Completed) |
| OrderLifecycle.CancelFromAllButCompleted | ConsoleApp11/Program.cs:131-140 | cancelling fails only on a completed order and otherwise yields `Cancelled`, from `Cancelled` too |
| OrderLifecycle.CompletedIsAbsorbing | ConsoleApp11/Program.cs:87-140 | every one of the five operations is refused on a completed order |
| OrderLifecycle.CancelledRefusesForward | ConsoleApp11/Program.cs:87-140 | on a cancelled order the four forward operations are refused and a cancel leaves it cancelled |
| OrderLifecycle.RunFromCancelled | ConsoleApp11/Program.cs:87-140 | any sequence of calls on a cancelled order either fails or ends cancelled |
| OrderLifecycle.RunFollowsProgression | ConsoleApp11/Program.cs:87-140 | a sequence of calls that succeeds between two non-cancelled states is exactly the forward operations between them, in order |
| OrderLifecycle.ReachableOnlyAlongPath | ConsoleApp11/Program.cs:87-129 | from a new order, every successful sequence that does not cancel is a prefix of start, pack, ship, complete |
| OrderLifecycle.HappyPathThenCancel | ConsoleApp11/Program.cs:157-167 | start, pack, ship, complete brings a new order to `Completed`; a cancel after that fails |
| OrderLifecycle.Order.constructor | ConsoleApp11/Program.cs:76-80 | a new order has the given id and is `Created`; the id is a constant |
| OrderLifecycle.Order.StartProcessing | ConsoleApp11/Program.cs:87-96 | the call succeeds as the transition table allows, with the new state; a refused call keeps the state and carries the source's message |
| OrderLifecycle.Order.Pack | ConsoleApp11/Program.cs:98-107 | as for `StartProcessing`, for packing |
| OrderLifecycle.Order.Ship | ConsoleApp11/Program.cs:109-118 | as for `StartProcessing`, for shipping |
| OrderLifecycle.Order.Complete | ConsoleApp11/Program.cs:120-129 | as for `StartProcessing`, for completing |
| OrderLifecycle.Order.Cancel | ConsoleApp11/Program.cs:131-140 | as for `StartProcessing`, for cancelling |
| OrderLifecycle.StoreManager.constructor | ConsoleApp11/Program.cs:55 | a new store is empty |
| OrderLifecycle.StoreManager.AddItem | ConsoleApp11/Program.cs:57 | the item is appended at the end of the list |
| OrderLifecycle.StoreManager.GetAll | ConsoleApp11/Program.cs:58 | the stored list itself, in the order the items were added |
| OrderLifecycle.Demo | ConsoleApp11/Program.cs:145-175 | the stock is milk then laptop, the order ends `Completed`, and the final cancel is refused with "Cannot cancel completed order." |
| StoreEvents.Raise | ConsoleApp5/Program.cs:75 | raising an event delivers it once to each subscriber, in subscription order |
| StoreEvents.FirstIndex | ConsoleApp5/Program.cs:87-90 | the position of the first occurrence: it holds the item and no earlier position does |
| StoreEvents.RemoveFirst | ConsoleApp5/Program.cs:90 | `List.Remove` cuts out the first occurrence: one shorter, elements before it in place, those after it moved up by one |
| StoreEvents.RemoveFirstTakesOneCopy | ConsoleApp5/Program.cs:90 | removal takes away exactly one copy of the item and keeps every other element |
| StoreEvents.StoreManager.constructor | ConsoleApp5/Program.cs:65-68 | a new store is empty, with no subscribers and no deliveries |
| StoreEvents.StoreManager.SubscribeAdded | ConsoleApp5/Program.cs:153-154 | the handler is appended to the `ItemAdded` subscribers; nothing else changes |
| StoreEvents.StoreManager.SubscribeRemoved | ConsoleApp5/Program.cs:156-157 | the handler is appended to the `ItemRemoved` subscribers; nothing else changes |
| StoreEvents.StoreManager.AddItem | ConsoleApp5/Program.cs:70-81 | the item is appended, then `ItemAdded` is raised once with it to every subscriber in order |
| StoreEvents.StoreManager.RemoveItem | ConsoleApp5/Program.cs:83-97 | succeeds exactly when the item is stored; then its first occurrence is removed and `ItemRemoved` is raised once with it; otherwise nothing changes and no event is raised |
| StoreEvents.StoreManager.GetAll | ConsoleApp5/Program.cs:99-102 | the stored list itself, in insertion order less removals; no stored price is negative, since only checked items can be built |
| StoreEvents.RaiseToLoggerThenNotifier | ConsoleApp5/Program.cs:153-157 | with the program's subscriptions the logger hears each event before the notifier |
| StoreEvents.Subscribed | ConsoleApp5/Program.cs:149-157 | the driver's setup: an empty store with logger then notifier on both events |
| StoreEvents.Demo | ConsoleApp5/Program.cs:147-171 | add milk, add laptop, remove milk leaves exactly the laptop, with six deliveries, logger before notifier each time |
| Notes.FirstWithId | ConsoleApp1/Program.cs:41 | `FirstOrDefault`: nothing exactly when no note has the id, otherwise the first note that has it |
| Notes.NoteService.constructor | ConsoleApp1/Program.cs:24-25 | an empty service whose counter starts at 1 |
| Notes.NoteService.AddNote | ConsoleApp1/Program.cs:27-37 | the new note, numbered with the counter, is appended after the untouched earlier notes; the counter goes up by one; the numbering invariant is kept |
| Notes.NoteService.GetNote | ConsoleApp1/Program.cs:39-42 | the first note with the id, or nothing when none has it; under the invariant, exactly the note at position id |
| Notes.NoteService.GetAll | ConsoleApp1/Program.cs:44-47 | the stored list itself; under the invariant the note at position k (from 1) has id k |
| Notes.IdsIncrease | ConsoleApp1/Program.cs:27-37 | under the invariant ids strictly increase along the list, hence are distinct |
| Notes.Demo | ConsoleApp1/Program.cs:52-63 | the two notes are numbered 1 and 2 in the order they were added |
| ItemRegistry.BaseItem.constructor | ConsoleApp2/Program.cs:10-13 | a new item has id 0 and records the clock reading |
| ItemRegistry.FirstWithId | ConsoleApp2/Program.cs:67 | `FirstOrDefault`: `null` exactly when no item has the id, otherwise the first item that has it |
| ItemRegistry.ItemService.constructor | ConsoleApp2/Program.cs:56-57 | an empty service whose counter starts at 1 |
| ItemRegistry.ItemService.AddItem | ConsoleApp2/Program.cs:59-63 | the passed object's id is overwritten with the counter, the counter goes up by one, the object is appended; numbering by position survives adding a new object and breaks when an already stored object is added again |
| ItemRegistry.ItemService.GetItem | ConsoleApp2/Program.cs:65-68 | a stored item with the id, `null` exactly when none has it; under the numbering, the item at position id |
| ItemRegistry.ItemService.GetAll | ConsoleApp2/Program.cs:70-73 | the stored list itself; under the numbering the item at position k (from 1) has id k |
| ItemRegistry.Demo | ConsoleApp2/Program.cs:78-90 | a note, a task and a reminder get ids 1, 2, 3 whatever their kind, and lookup of 2 finds the task |
| InventoryQueries.StoreManager.constructor | ConsoleApp8/Program.cs:53 | a new store is empty |
| InventoryQueries.StoreManager.AddItem | ConsoleApp8/Program.cs:55-58 | the item is appended at the end |
| InventoryQueries.StoreManager.GetAll | ConsoleApp8/Program.cs:60-63 | the stored list itself, in the order the items were added |
| InventoryQueries.StoreManager.GetExpensiveItems | ConsoleApp8/Program.cs:65-72 | exactly the items priced at the threshold or more, in list order, each as many times as it is stored |
| InventoryQueries.StoreManager.GetExpiringSoon | ConsoleApp8/Program.cs:74-84 | only food, and exactly the food expiring no later than `days` days from now (expired food included), in list order, each as many times as it is stored |
| InventoryQueries.Cheap | ConsoleApp8/Program.cs:122 | exactly the items priced below 100, in list order, each as many times as it occurs |
| InventoryQueries.InsertByPrice | ConsoleApp8/Program.cs:128 | insertion adds exactly one copy of the item |
| InventoryQueries.InsertByPriceSorted | ConsoleApp8/Program.cs:128 | inserting into a price-sorted list keeps it sorted |
| InventoryQueries.SortByPrice | ConsoleApp8/Program.cs:128 | `OrderBy(i => i.Price)` is a permutation with nondecreasing prices |
| InventoryQueries.InsertByPriceStable | ConsoleApp8/Program.cs:128 | insertion keeps the relative order of the items of every price and places the new item last among its equals |
| InventoryQueries.SortByPriceStable | ConsoleApp8/Program.cs:128 | `OrderBy` is stable: for every price, the items of that price keep their input order |
| InventoryQueries.AddExtendsExpensive | ConsoleApp8/Program.cs:55-72 | after adding an item, the expensive-item query is the old answer plus that item exactly when it reaches the threshold |
| AsyncInventory.StoreManager.constructor | ConsoleApp10/Program.cs:55 | an empty store, whose total is 0 |
| AsyncInventory.StoreManager.AddItem | ConsoleApp10/Program.cs:57-60 | the item is appended and the total grows by exactly its price |
| AsyncInventory.StoreManager.GetAll | ConsoleApp10/Program.cs:62 | the stored list itself, in the order the items were added |
| AsyncInventory.StoreManager.LoadItems | ConsoleApp10/Program.cs:64-72 | the store's own list is handed back unchanged |
| AsyncInventory.StoreManager.FindExpensive | ConsoleApp10/Program.cs:74-81 | exactly the items priced at the threshold or more, in list order, each as many times as it is stored |
| AsyncInventory.StoreManager.CalculateTotal | ConsoleApp10/Program.cs:83-91 | the sum of the prices; an empty store totals 0 |
| AsyncInventory.Stocked | ConsoleApp10/Program.cs:98-103 | the driver's four items in order, totalling 42178.5 |
| AsyncInventory.Demo | ConsoleApp10/Program.cs:96-130 | four items are loaded, the expensive ones are exactly the laptop then the headphones, and the total is 42178.5 |
| Purchases.BaseBuy | ConsoleApp4/Program.cs:20-26 | the base purchase succeeds exactly for a quantity of at least 1, at cost price times quantity, never negative |
| Purchases.TryBase | ConsoleApp4/Program.cs:51-62 | the base purchase inside an override's `try`: its line then the override's own lines, or the caught quantity error alone |
| Purchases.Buy | ConsoleApp4/Program.cs:49-143 | every override prints something and lets nothing escape; expired food, more than 5 electronics and a luxury item without passport fail with their reason; a luxury item with passport confirms first |
| Purchases.BuyAccepted | ConsoleApp4/Program.cs:49-143 | when the kind's rule accepts the purchase, its line with cost price times quantity is printed |
| Purchases.BuyRefused | ConsoleApp4/Program.cs:49-143 | when the kind's rule refuses it, nothing is bought and the last line is the caught error |
| Purchases.BuySucceedsIffAccepted | ConsoleApp4/Program.cs:49-143 | a purchase goes through exactly when food is not expired and quantity ≥ 1, electronics number 1 to 5, or a luxury item requires a passport and quantity ≥ 1 |
| Purchases.CheckAvailability | ConsoleApp4/Program.cs:65-148 | food is unavailable exactly when expired and available otherwise; electronics need a warehouse check; luxury items are on request |
| Purchases.AvailabilityAgreesWithBuy | ConsoleApp4/Program.cs:53-74 | food reported unavailable cannot be bought; food reported available is bought in any positive quantity, with the storage reminder |
| Purchases.LuxuryConfirmsBeforeQuantityCheck | ConsoleApp4/Program.cs:129-143 | a luxury item with passport and a nonpositive quantity prints the confirmation, then the quantity error |
| Purchases.DemoPurchases | ConsoleApp4/Program.cs:153-168 | the driver's three purchases of two each: milk at 59, the laptop at 79998, the watch confirmed then bought at 300000 |
| Cloning.ComparePrices | ConsoleApp7/Program.cs:28 | `decimal.CompareTo` is -1, 0 or 1 and its sign is the comparison of the prices |
| Cloning.ItemObject.constructor | ConsoleApp7/Program.cs:9-16 | the object holds the given fields |
| Cloning.ItemObject.Create | ConsoleApp7/Program.cs:9-16 | construction fails exactly on a negative price, otherwise yields a new object with the given fields |
| Cloning.ItemObject.CompareTo | ConsoleApp7/Program.cs:25-29 | a missing other item compares as 1; otherwise the sign follows the prices |
| Cloning.ItemObject.Clone | ConsoleApp7/Program.cs:47-50 | a clone is a new object, not the original, equal in every field, and passes the price check again |
| Cloning.CompareToAntisymmetric | ConsoleApp7/Program.cs:25-29 | `a.CompareTo(b) == -b.CompareTo(a)` for present items |
| Cloning.StoreManager.constructor | ConsoleApp7/Program.cs:76 | a new store is empty |
| Cloning.StoreManager.AddItem | ConsoleApp7/Program.cs:78-81 | the item is appended at the end |
| Cloning.StoreManager.GetAll | ConsoleApp7/Program.cs:83-86 | the stored list itself, in the order the items were added; no stored price is negative |
| Cloning.InsertAt | ConsoleApp7/Program.cs:105-106 | one insertion step of the in-place sort extends the sorted prefix by one cell and permutes the array |
| Cloning.SortedCopy | ConsoleApp7/Program.cs:105-106 | sorting a copy yields a permutation of the list in nondecreasing `CompareTo` order |
| Cloning.Demo | ConsoleApp7/Program.cs:91-123 | the store keeps milk first after the copy is sorted, the sorted copy is a sorted permutation, the clone is a different object with milk's fields |
| ItemProcessing.Caught | ConsoleApp6/Program.cs:66-73 | the `try`/`catch` keeps a returned output and turns a thrown exception into the error entry with its message |
| ItemProcessing.StoreManager.constructor | ConsoleApp6/Program.cs:53 | a new store is empty |
| ItemProcessing.StoreManager.AddItem | ConsoleApp6/Program.cs:57-60 | the item is appended at the end |
| ItemProcessing.StoreManager.GetAll | ConsoleApp6/Program.cs:77 | the stored list itself, in the order the items were added; no stored price is negative |
| ItemProcessing.StoreManager.ProcessItems | ConsoleApp6/Program.cs:62-75 | the processor runs once per item in list order; a throw on one item is recorded and the rest are still processed; the list is not changed |
| ItemProcessing.Discount | ConsoleApp6/Program.cs:111 | the discount is exactly a tenth of the price, between 0 and the price |
| ItemProcessing.PrintInfo | ConsoleApp6/Program.cs:90-93 | the `printInfo` processor shows the item and never reaches the `catch` |
| ItemProcessing.CheckPrice | ConsoleApp6/Program.cs:98-104 | the `checkPrice` processor names the item and calls it expensive exactly when its price is strictly above 1000 (1000 itself is not); it never throws |
| ItemProcessing.DiscountCalculator | ConsoleApp6/Program.cs:109-113 | the `discountCalculator` processor names the item with a discount of exactly a tenth of its price; it never throws |
| ItemProcessing.PriceCheckPass | ConsoleApp6/Program.cs:107 | `ProcessItems(checkPrice)` over any store records no error and flags the item at each position exactly when it costs over 1000 |
| ItemProcessing.Demo | ConsoleApp6/Program.cs:84-107 | with the price check, milk and cheese are inexpensive and the laptop expensive, in list order |

## Left out

- ConsoleApp9 is not part of this model. Its point is threads, a mutex and parallel loops, and its parallel total reinterprets the bits of a `decimal`, which has no numeric meaning to state.
- ConsoleApp3 is not part of this model: its overrides only print fixed messages.
- Console output is left out: `DisplayInfo`, `Display` and the culture-dependent date formats. The messages that matter are kept as values (exception texts, verdicts, purchase lines).
- `Task.Delay` and `CancellationToken` are left out (ConsoleApp10, ConsoleApp11): each asynchronous method is the state change or value it produces once its delay has passed. Cancellation and the interleaving of the three concurrent queries of ConsoleApp10 are not modelled.
- `TimeSpan.TotalDays` is a `double`; the model compares the exact tick difference with `days` whole days, so rounding near the boundary is not modelled.
- `decimal` is modelled as an unbounded exact `real`: its 28-digit precision, rounding and overflow are not modelled.
- ConsoleApp8's `Average` and `GroupBy(i => i.GetType().Name)` and the `Select` of names in `Main` are left out: they only feed the console. `Average` depends on decimal division rounding, and `GroupBy` on runtime type names.
- `StoreItem.Clone` with `MemberwiseClone` (ConsoleApp7) is reached only by subclasses without their own override, and none exists in the program. The model clones every item the way the two overrides do.
- Public setters on `Name`, `Price` and the subclass fields are not modelled. Items are values fixed at construction, so a price set negative after construction is outside the model.
- StoreEvents.StoreManager.RemoveItem: `List.Contains` and `List.Remove` compare items by reference in the source; the model compares them by value, so two equal items built separately are not told apart.
- Exceptions thrown by event handlers (ConsoleApp5) are not modelled: the program's two handlers only print. The `catch` in `AddItem` and `RemoveItem` is modelled only for the missing item.
- ItemProcessing.StoreManager.ProcessItems: a processor is a pure function from item to "returned or threw". A delegate that changes the items or the list it is iterating over is not modelled.
- `GetAll` of every store manager returns the live list, so a caller can change it; the model returns the list's value.
- Notes.NoteService.GetAll and ItemRegistry.ItemService.GetAll return the live `List<T>` in the source, and `Note`'s `Id`, `Title` and `Text` have public setters, so a caller can reorder or renumber entries behind the service's back and break the numbering (`nextId == |list| + 1`, id k at position k) under which the id clauses of `AddNote`, `AddItem`, `GetNote` and `GetItem` are stated. The model returns the list's value and makes `Note` an immutable value, so only ConsoleApp2's items, whose `id` stays a mutable field, can be renumbered from outside; `Numbered` then no longer holds and those clauses say nothing.
- The counters of ConsoleApp1 and ConsoleApp2 are unbounded integers; the 32-bit overflow of `nextId++` after 2^31 additions is not modelled.
- Cloning.SortedCopy: `List.Sort` is an introspective sort; the model sorts by insertion. Both give a permutation in nondecreasing price order, and neither is promised stable; which of several equal-priced items comes first may differ.
- Purchases.Buy: the caught error is reported by its reason; the kind-specific prefix of the console message (`Error buying food:` and so on) follows from the item's kind and is not repeated in the line.
