/**
 * ConsoleApp1: `NoteService`, a list of notes whose ids come from a counter
 * that starts at 1 and is post-incremented by each `AddNote`.
 */
module Notes {
  import opened Options

  /** A note; `createdAt` is the clock reading taken when it was built. */
  datatype Note = Note(id: int, createdAt: int, title: string, text: string)

  /** LINQ `FirstOrDefault(n => n.Id == id)`: the first note with that id, if any. */
  function FirstWithId(notes: seq<Note>, id: int): (r: Option<Note>)
    ensures r.None? <==> forall n :: n in notes ==> n.id != id
    ensures r.Some? ==> exists k :: 0 <= k < |notes| && notes[k] == r.value && r.value.id == id &&
                                    forall j :: 0 <= j < k ==> notes[j].id != id
  {
    if notes == [] then None
    else if notes[0].id == id then Some(notes[0])
    else
      var r := FirstWithId(notes[1..], id);
      assert r.Some? ==> exists k :: 0 <= k < |notes| && notes[k] == r.value && r.value.id == id &&
                                     forall j :: 0 <= j < k ==> notes[j].id != id by {
        if r.Some? {
          var k :| 0 <= k < |notes[1..]| && notes[1..][k] == r.value && r.value.id == id &&
                   forall j :: 0 <= j < k ==> notes[1..][j].id != id;
          assert notes[k + 1] == r.value;
          assert forall j :: 0 <= j < k + 1 ==> notes[j].id != id by {
            forall j | 0 <= j < k + 1 ensures notes[j].id != id {
              if j > 0 { assert notes[j] == notes[1..][j - 1]; }
            }
          }
        }
      }
      r
  }

  class NoteService {
    var notes: seq<Note>
    var nextId: int

    /** The counter is one past the number of notes, and the k-th note (from 1) has id k. */
    ghost predicate Valid()
      reads this
    {
      && nextId == |notes| + 1
      && forall i :: 0 <= i < |notes| ==> notes[i].id == i + 1
    }

    constructor ()
      ensures Valid() && notes == []
    {
      notes := [];
      nextId := 1;
    }

    /** Builds a note with the next id and appends it; earlier notes are untouched. */
    method AddNote(title: string, text: string, now: int)
      requires Valid()
      modifies this
      ensures Valid()
      ensures notes == old(notes) + [Note(old(nextId), now, title, text)]
      ensures nextId == old(nextId) + 1
    {
      var note := Note(nextId, now, title, text);
      nextId := nextId + 1;
      notes := notes + [note];
    }

    /** The note with the given id, or `None` where the source returns `null`. */
    function GetNote(id: int): (r: Option<Note>)
      reads this
      ensures r.Some? ==> r.value in notes && r.value.id == id
      ensures r.None? <==> forall n :: n in notes ==> n.id != id
      ensures Valid() ==> r == if 1 <= id <= |notes| then Some(notes[id - 1]) else None
    {
      FirstWithId(notes, id)
    }

    /** The stored list itself; under the invariant the note at position k (from 1) has id k. */
    function GetAll(): (r: seq<Note>)
      reads this
      ensures r == notes
      ensures Valid() ==> forall i :: 0 <= i < |r| ==> r[i].id == i + 1
    {
      notes
    }
  }

  /** Under the service invariant ids strictly increase along the list, so they are distinct. */
  lemma IdsIncrease(s: NoteService, i: int, j: int)
    requires s.Valid() && 0 <= i < j < |s.notes|
    ensures s.notes[i].id < s.notes[j].id
  {
  }

  /** The program's driver: two notes, numbered 1 and 2 in the order they were added. */
  method Demo(now: int) returns (all: seq<Note>)
    ensures |all| == 2
    ensures all[0].id == 1 && all[0].title == "Покупки"
    ensures all[1].id == 2 && all[1].title == "План дня"
  {
    var service := new NoteService();
    service.AddNote("Покупки", "Купити молоко, хліб, сир", now);
    service.AddNote("План дня", "Зробити лабораторну", now);
    all := service.GetAll();
  }
}
