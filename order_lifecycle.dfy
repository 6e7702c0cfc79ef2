/**
 * ConsoleApp11: an order that moves through a fixed lifecycle, and the small
 * store manager of the same program.
 *
 * Each transition method of `Order` checks a guard on the current state, throws
 * `InvalidOperationException` when it fails and otherwise overwrites the state.
 * The simulated delays and the console output are not modelled; a thrown
 * exception is the `Rejected` outcome carrying its message.
 */
module OrderLifecycle {
  import opened Options
  import StoreItems

  datatype OrderState = Created | Processing | Packed | Shipped | Completed | Cancelled

  /** The five transition methods of `Order`. */
  datatype Operation = StartProcessing | Pack | Ship | Complete | Cancel

  /** What a transition call does: finishes, or throws with this message. */
  datatype Outcome = Done | Rejected(message: string)

  /** The message of the exception each operation throws when its guard fails. */
  function Refusal(op: Operation): string
  {
    match op
    case StartProcessing => "Cannot process from current state."
    case Pack => "Cannot pack before processing."
    case Ship => "Cannot ship before packing."
    case Complete => "Cannot complete before shipping."
    case Cancel => "Cannot cancel completed order."
  }

  /** The states of the normal progression, in order. */
  const Stages: seq<OrderState> := [Created, Processing, Packed, Shipped, Completed]

  /** The forward operations, in order: `Forward[k]` leads from `Stages[k]` to `Stages[k + 1]`. */
  const Forward: seq<Operation> := [StartProcessing, Pack, Ship, Complete]

  /** Position of a state on the normal progression (`Cancelled` is off it). */
  function Rank(s: OrderState): nat
  {
    match s
    case Created => 0
    case Processing => 1
    case Packed => 2
    case Shipped => 3
    case Completed => 4
    case Cancelled => 5
  }

  /**
   * The transition table: the state that `op` leads to from `s`, or `None`
   * when the call throws.  A forward step is allowed only from its
   * predecessor on `Stages`; a cancel is refused only on `Completed`.
   */
  function Step(s: OrderState, op: Operation): (r: Option<OrderState>)
    ensures op == Cancel ==> (r.Some? <==> s != Completed) && (r.Some? ==> r.value == Cancelled)
    ensures op != Cancel && r.Some? ==> r.value != Cancelled && Rank(r.value) == Rank(s) + 1
  {
    if op == Cancel then
      if s == Completed then None else Some(Cancelled)
    else
      var k := Rank(s);
      if k < |Forward| && Forward[k] == op then Some(Stages[k + 1]) else None
  }

  /** A forward operation succeeds exactly from its predecessor and leads to its successor. */
  lemma ForwardStepOnlyFromPredecessor(s: OrderState, k: nat)
    requires k < |Forward|
    ensures Step(s, Forward[k]).Some? <==> s == Stages[k]
    ensures Step(s, Forward[k]).Some? ==> Step(s, Forward[k]).value == Stages[k + 1]
  {
  }

  /** Cancelling succeeds from every state but `Completed`, `Cancelled` included. */
  lemma CancelFromAllButCompleted(s: OrderState)
    ensures Step(s, Cancel) == if s == Completed then None else Some(Cancelled)
  {
  }

  /** `Completed` is absorbing: every operation is refused there. */
  lemma CompletedIsAbsorbing(op: Operation)
    ensures Step(Completed, op) == None
  {
  }

  /** From `Cancelled` every forward operation is refused, and cancelling again keeps it. */
  lemma CancelledRefusesForward(op: Operation)
    ensures op != Cancel ==> Step(Cancelled, op) == None
    ensures op == Cancel ==> Step(Cancelled, op) == Some(Cancelled)
  {
  }

  /**
   * The calls `ops`, made one after another inside one `try` block as the
   * program's driver does: the first exception abandons the rest.
   */
  function Run(s: OrderState, ops: seq<Operation>): (r: Option<OrderState>)
    ensures r.Some? && Cancel !in ops ==> Rank(r.value) == Rank(s) + |ops|
    ensures r.Some? && ops != [] && ops[|ops| - 1] == Cancel ==> r.value == Cancelled
    decreases |ops|
  {
    if ops == [] then Some(s)
    else
      match Step(s, ops[0])
      case None => None
      case Some(t) => Run(t, ops[1..])
  }

  /** Once cancelled, an order can only stay cancelled or fail. */
  lemma {:induction false} RunFromCancelled(ops: seq<Operation>)
    ensures Run(Cancelled, ops) == None || Run(Cancelled, ops) == Some(Cancelled)
  {
    if ops != [] {
      RunFromCancelled(ops[1..]);
    }
  }

  /** A nonempty slice is its first element followed by the rest. */
  lemma SliceHead<T>(q: seq<T>, i: int, j: int)
    requires 0 <= i < j <= |q|
    ensures q[i..j] == [q[i]] + q[i + 1..j]
  {
  }

  /**
   * Transitions happen only along the normal progression: any run that ends
   * in a state other than `Cancelled` made exactly the forward steps between
   * its start and its end, in order.
   */
  lemma {:induction false} RunFollowsProgression(s: OrderState, ops: seq<Operation>, t: OrderState)
    requires s != Cancelled && t != Cancelled
    requires Run(s, ops) == Some(t)
    ensures Rank(s) <= Rank(t)
    ensures ops == Forward[Rank(s)..Rank(t)]
    decreases |ops|
  {
    if ops != [] {
      var next := Step(s, ops[0]);
      assert next.Some?;
      if next.value == Cancelled {
        RunFromCancelled(ops[1..]);
        assert false;
      }
      RunFollowsProgression(next.value, ops[1..], t);
      assert Rank(next.value) == Rank(s) + 1 && ops[0] == Forward[Rank(s)];
      assert Rank(s) < Rank(t) <= |Forward|;
      SliceHead(Forward, Rank(s), Rank(t));
      assert ops == [ops[0]] + ops[1..];
    }
  }

  /** From a new order, the run ending in `t` is the prefix of the progression up to `t`. */
  lemma ReachableOnlyAlongPath(ops: seq<Operation>, t: OrderState)
    requires t != Cancelled && Run(Created, ops) == Some(t)
    ensures ops == Forward[..Rank(t)]
  {
    RunFollowsProgression(Created, ops, t);
  }

  /** The whole progression completes an order, after which a cancel is refused. */
  lemma HappyPathThenCancel()
    ensures Run(Created, Forward) == Some(Completed)
    ensures Run(Created, Forward + [Cancel]) == None
  {
    assert Run(Completed, [Cancel]) == None;
    assert Run(Shipped, [Complete, Cancel]) == None;
    assert Run(Packed, [Ship, Complete, Cancel]) == None;
    assert Run(Processing, [Pack, Ship, Complete, Cancel]) == None;
    assert Forward + [Cancel] == [StartProcessing, Pack, Ship, Complete, Cancel];
  }

  class Order {
    const id: int
    var state: OrderState

    /** A new order starts in `Created`; its id is fixed for good. */
    constructor (id: int)
      ensures this.id == id && state == Created
    {
      this.id := id;
      state := Created;
    }

    method StartProcessing() returns (r: Outcome)
      modifies this
      ensures r.Done? ==> Step(old(state), Operation.StartProcessing) == Some(state)
      ensures r.Rejected? ==> Step(old(state), Operation.StartProcessing) == None
      ensures r.Rejected? ==> state == old(state) && r.message == Refusal(Operation.StartProcessing)
    {
      if state != Created {
        return Rejected("Cannot process from current state.");
      }
      state := Processing;
      return Done;
    }

    method Pack() returns (r: Outcome)
      modifies this
      ensures r.Done? ==> Step(old(state), Operation.Pack) == Some(state)
      ensures r.Rejected? ==> Step(old(state), Operation.Pack) == None
      ensures r.Rejected? ==> state == old(state) && r.message == Refusal(Operation.Pack)
    {
      if state != Processing {
        return Rejected("Cannot pack before processing.");
      }
      state := Packed;
      return Done;
    }

    method Ship() returns (r: Outcome)
      modifies this
      ensures r.Done? ==> Step(old(state), Operation.Ship) == Some(state)
      ensures r.Rejected? ==> Step(old(state), Operation.Ship) == None
      ensures r.Rejected? ==> state == old(state) && r.message == Refusal(Operation.Ship)
    {
      if state != Packed {
        return Rejected("Cannot ship before packing.");
      }
      state := Shipped;
      return Done;
    }

    method Complete() returns (r: Outcome)
      modifies this
      ensures r.Done? ==> Step(old(state), Operation.Complete) == Some(state)
      ensures r.Rejected? ==> Step(old(state), Operation.Complete) == None
      ensures r.Rejected? ==> state == old(state) && r.message == Refusal(Operation.Complete)
    {
      if state != Shipped {
        return Rejected("Cannot complete before shipping.");
      }
      state := Completed;
      return Done;
    }

    method Cancel() returns (r: Outcome)
      modifies this
      ensures r.Done? ==> Step(old(state), Operation.Cancel) == Some(state)
      ensures r.Rejected? ==> Step(old(state), Operation.Cancel) == None
      ensures r.Rejected? ==> state == old(state) && r.message == Refusal(Operation.Cancel)
    {
      if state == Completed {
        return Rejected("Cannot cancel completed order.");
      }
      state := Cancelled;
      return Done;
    }
  }

  class StoreManager {
    var items: seq<StoreItems.StoreItem>

    constructor ()
      ensures items == []
    {
      items := [];
    }

    method AddItem(item: StoreItems.StoreItem)
      modifies this
      ensures items == old(items) + [item]
    {
      items := items + [item];
    }

    /** The items in the order they were added. */
    /** The stored list itself, in the order the items were added. */
    function GetAll(): (r: seq<StoreItems.StoreItem>)
      reads this
      ensures r == items
    {
      items
    }
  }

  /**
   * The program's driver: stock two items, then take order 1 through the whole
   * progression and try to cancel it.  The cancel throws, which the driver
   * catches and reports; the order stays `Completed`.
   */
  method Demo(now: int) returns (stock: seq<StoreItems.StoreItem>, final: OrderState, last: Outcome)
    ensures |stock| == 2 && stock[0].name == "Milk" && stock[1].name == "Laptop"
    ensures final == Completed
    ensures last == Rejected("Cannot cancel completed order.")
  {
    var manager := new StoreManager();
    manager.AddItem(StoreItems.Food("Milk", 29.5, now + 2 * StoreItems.TicksPerDay));
    manager.AddItem(StoreItems.Electronic("Laptop", 40000.0, 24));
    stock := manager.GetAll();

    // Each of the first four calls is proved to succeed, so the driver's
    // `catch` is reached only by the cancel.
    var order := new Order(1);
    last := order.StartProcessing();
    assert last.Done? && order.state == Processing;
    last := order.Pack();
    assert last.Done? && order.state == Packed;
    last := order.Ship();
    assert last.Done? && order.state == Shipped;
    last := order.Complete();
    assert last.Done? && order.state == Completed;
    last := order.Cancel();
    final := order.state;
  }
}
