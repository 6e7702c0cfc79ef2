/**
 * ConsoleApp2: `ItemService`, a registry of notes, tasks and reminders.
 *
 * The items are objects: `AddItem` overwrites the `Id` of the very object the
 * caller passes in with the counter's current value, then stores a reference
 * to it.  Adding the same object twice therefore renumbers the earlier entry.
 */
module ItemRegistry {

  /** What distinguishes the three subclasses of `BaseItem`. */
  datatype Details =
    | NoteDetails(title: string, text: string)
    | TaskDetails(description: string, isDone: bool)
    | ReminderDetails(message: string, remindAt: int)

  class BaseItem {
    var id: int
    const createdAt: int
    const details: Details

    /** A new item has id 0 until a service numbers it; `now` is the clock reading. */
    constructor (details: Details, now: int)
      ensures id == 0 && this.details == details && createdAt == now
    {
      id := 0;
      this.details := details;
      createdAt := now;
    }
  }

  /** LINQ `FirstOrDefault(i => i.Id == id)`: the first item with that id, or `null`. */
  function FirstWithId(items: seq<BaseItem>, id: int): (r: BaseItem?)
    reads items
    ensures r == null <==> forall o :: o in items ==> o.id != id
    ensures r != null ==> exists k :: 0 <= k < |items| && items[k] == r && r.id == id &&
                                      forall j :: 0 <= j < k ==> items[j].id != id
  {
    if items == [] then null
    else if items[0].id == id then items[0]
    else
      var r := FirstWithId(items[1..], id);
      assert r != null ==> exists k :: 0 <= k < |items| && items[k] == r && r.id == id &&
                                       forall j :: 0 <= j < k ==> items[j].id != id by {
        if r != null {
          var k :| 0 <= k < |items[1..]| && items[1..][k] == r && r.id == id &&
                   forall j :: 0 <= j < k ==> items[1..][j].id != id;
          assert items[k + 1] == r;
          forall j | 0 <= j < k + 1 ensures items[j].id != id {
            if j > 0 { assert items[j] == items[1..][j - 1]; }
          }
        }
      }
      r
  }

  class ItemService {
    var items: seq<BaseItem>
    var nextId: int

    /** The counter is one past the number of additions. */
    ghost predicate Valid()
      reads this
    {
      nextId == |items| + 1
    }

    /** Every stored item carries its position (from 1) as its id. */
    ghost predicate Numbered()
      reads this, items
    {
      forall i :: 0 <= i < |items| ==> items[i].id == i + 1
    }

    constructor ()
      ensures Valid() && Numbered() && items == []
    {
      items := [];
      nextId := 1;
    }

    /**
     * Stamps the passed object with the counter's value, then appends it.
     * Numbering survives adding a new object and is broken by adding one
     * that is already stored.
     */
    method AddItem(item: BaseItem)
      requires Valid()
      modifies this, item
      ensures Valid()
      ensures items == old(items) + [item]
      ensures item.id == old(nextId) && nextId == old(nextId) + 1
      ensures old(Numbered()) && item !in old(items) ==> Numbered()
      ensures item in old(items) ==> !Numbered()
    {
      item.id := nextId;
      nextId := nextId + 1;
      items := items + [item];
      if item in old(items) {
        var k :| 0 <= k < |old(items)| && old(items)[k] == item;
        assert items[k] == item && items[k].id != k + 1;
      }
    }

    /** The first stored item with the given id, or `null`. */
    function GetItem(id: int): (r: BaseItem?)
      reads this, items
      ensures r != null ==> r in items && r.id == id
      ensures r == null <==> forall o :: o in items ==> o.id != id
      ensures Numbered() ==> r == if 1 <= id <= |items| then items[id - 1] else null
    {
      FirstWithId(items, id)
    }

    /** The stored list itself; under the numbering the item at position k (from 1) has id k. */
    function GetAll(): (r: seq<BaseItem>)
      reads this, items
      ensures r == items
      ensures Numbered() ==> forall i :: 0 <= i < |r| ==> r[i].id == i + 1
    {
      items
    }
  }

  /**
   * The program's driver: a note, a task and a reminder, added in that order,
   * receive ids 1, 2 and 3 whatever their kind.
   */
  method Demo(now: int) returns (all: seq<BaseItem>, second: BaseItem?)
    ensures |all| == 3
    ensures all[0].id == 1 && all[1].id == 2 && all[2].id == 3
    ensures all[0].details.NoteDetails? && all[1].details.TaskDetails? && all[2].details.ReminderDetails?
    ensures second == all[1]
  {
    var service := new ItemService();
    var note := new BaseItem(NoteDetails("Покупки", "Купити молоко, хліб, сир"), now);
    var task := new BaseItem(TaskDetails("Зробити лабораторну", false), now);
    var reminder := new BaseItem(ReminderDetails("Подзвонити мамі", now + 2 * 36_000_000_000), now);
    service.AddItem(note);
    service.AddItem(task);
    service.AddItem(reminder);
    all := service.GetAll();
    second := service.GetItem(2);
  }
}
