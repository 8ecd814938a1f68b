/**
 * The selection hook: the set of selected object ids and its three
 * transitions (select with optional toggle, select many, clear).
 */
module UseSelection {
  import opened Wrappers
  import opened Values

  type Selection = set<Id>

  /** The selection the hook starts with. */
  function Initial(): (s: Selection)
    ensures |s| == 0
  {
    {}
  }

  /** An id argument is falsy when it is null, undefined or the empty string. */
  predicate FalsyId(id: Option<Id>) {
    id.None? || id.value == ""
  }

  /**
   * selectObject: a falsy id clears the selection; an additive select
   * toggles the id's membership; any other select makes the id the only one.
   */
  function SelectObject(prev: Selection, id: Option<Id>, additive: bool): (next: Selection)
    ensures FalsyId(id) ==> next == {}
    ensures !FalsyId(id) && !additive ==> next == {id.value}
    ensures !FalsyId(id) && additive ==>
              (id.value in next <==> id.value !in prev) &&
              (forall o :: o != id.value ==> (o in next <==> o in prev))
  {
    if FalsyId(id) then {}
    else if additive then
      if id.value in prev then prev - {id.value} else prev + {id.value}
    else {id.value}
  }

  /** selectMultiple: whatever was selected before, the selection becomes exactly the given ids. */
  function SelectMultiple(prev: Selection, ids: seq<Id>): (next: Selection)
    ensures forall o :: o in next <==> o in ids
  {
    set i | i in ids
  }

  /** clearSelection: the selection becomes empty from any state. */
  function ClearSelection(prev: Selection): (next: Selection)
    ensures |next| == 0
  {
    {}
  }

  /** An additive select of the same id twice restores the original selection. */
  lemma ToggleTwiceRestores(prev: Selection, id: Id)
    requires id != ""
    ensures SelectObject(SelectObject(prev, Some(id), true), Some(id), true) == prev
  {
    var once := SelectObject(prev, Some(id), true);
    var twice := SelectObject(once, Some(id), true);
    forall o ensures o in twice <==> o in prev {
      if o == id {
        assert (o in once) <==> (o !in prev);
      }
    }
  }

  /** An additive select changes the selection's size by exactly one. */
  lemma ToggleChangesSizeByOne(prev: Selection, id: Id)
    requires id != ""
    ensures id in prev ==> |SelectObject(prev, Some(id), true)| == |prev| - 1
    ensures id !in prev ==> |SelectObject(prev, Some(id), true)| == |prev| + 1
  {
  }

  /** Selecting the same ids twice leaves the selection it had after the first time. */
  lemma SelectMultipleIdempotent(prev: Selection, ids: seq<Id>)
    ensures SelectMultiple(SelectMultiple(prev, ids), ids) == SelectMultiple(prev, ids)
  {
  }
}
