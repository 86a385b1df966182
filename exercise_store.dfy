/** The browser's list of saved exercises (the useExercises hook).
 *
 *  The list starts empty, is replaced wholesale by the fetched records, gets
 *  the server's record appended after a successful create, and loses the
 *  entries with an id after a successful delete.  A failed remote call leaves
 *  the list alone and is reported back to the caller.  The remote calls are
 *  not modelled: each method receives what the call produced.
 */
module ExerciseStore {
  import opened ChessRules

  /** A saved exercise as the server lists it. */
  datatype Exercise = Exercise(
    id: int,
    initialFen: string,
    moves: seq<string>,
    startingColor: string,
    motives: string,
    createdAt: string)

  /** `prev.filter(ex => ex.id !== id)`. */
  function WithoutId(list: seq<Exercise>, id: int): (r: seq<Exercise>)
    ensures |r| <= |list|
    ensures forall e :: e in r ==> e in list && e.id != id
    ensures forall e :: e in list && e.id != id ==> e in r
    decreases |list|
  {
    if list == [] then []
    else (if list[0].id != id then [list[0]] else []) + WithoutId(list[1..], id)
  }

  /** The filter keeps the surviving entries in their original order: it
   *  works piece by piece over a concatenation. */
  lemma {:induction false} WithoutIdAppend(a: seq<Exercise>, b: seq<Exercise>, id: int)
    ensures WithoutId(a + b, id) == WithoutId(a, id) + WithoutId(b, id)
    decreases |a|
  {
    if a == [] {
      assert a + b == b;
    } else {
      assert (a + b)[0] == a[0];
      assert (a + b)[1..] == a[1..] + b;
      WithoutIdAppend(a[1..], b, id);
    }
  }

  /** A list without the id is left exactly as it was. */
  lemma {:induction false} WithoutAbsentId(list: seq<Exercise>, id: int)
    requires forall e :: e in list ==> e.id != id
    ensures WithoutId(list, id) == list
    decreases |list|
  {
    if list != [] {
      assert list[0] in list;
      assert forall e :: e in list[1..] ==> e in list;
      WithoutAbsentId(list[1..], id);
    }
  }

  /** Removing after appending a record with that id undoes the append when
   *  the list did not hold the id before. */
  lemma RemoveUndoesAdd(list: seq<Exercise>, e: Exercise)
    requires forall x :: x in list ==> x.id != e.id
    ensures WithoutId(list + [e], e.id) == list
  {
    WithoutIdAppend(list, [e], e.id);
    WithoutAbsentId(list, e.id);
    assert WithoutId([e], e.id) == [];
  }

  /** The hook's state, updated in place. */
  class ExerciseList {
    var exercises: seq<Exercise>

    /** `useState([])`. */
    constructor ()
      ensures exercises == []
    {
      exercises := [];
    }

    /** The mount effect: `fetched` is the response data, `None` when the
     *  request failed (the failure is only logged). */
    method Fetched(fetched: Option<seq<Exercise>>)
      modifies this
      ensures exercises == if fetched.Some? then fetched.value else old(exercises)
    {
      if fetched.Some? {
        exercises := fetched.value;
      }
    }

    /** `addExercise`: `created` is the record the server answered with,
     *  `None` when the request failed; `ok` is false when the error is
     *  rethrown. */
    method Add(created: Option<Exercise>) returns (ok: bool)
      modifies this
      ensures ok == created.Some?
      ensures ok ==> exercises == old(exercises) + [created.value]
      ensures ok ==> |exercises| == |old(exercises)| + 1 && exercises[..|old(exercises)|] == old(exercises)
      ensures !ok ==> exercises == old(exercises)
    {
      ok := created.Some?;
      if ok {
        exercises := exercises + [created.value];
      }
    }

    /** `removeExercise(id)`: `deleted` says whether the request succeeded;
     *  `ok` is false when the error is rethrown. */
    method Remove(id: int, deleted: bool) returns (ok: bool)
      modifies this
      ensures ok == deleted
      ensures ok ==> exercises == WithoutId(old(exercises), id)
      ensures ok ==> forall e :: e in exercises ==> e.id != id
      ensures !ok ==> exercises == old(exercises)
    {
      ok := deleted;
      if ok {
        exercises := WithoutId(exercises, id);
      }
    }
  }
}
