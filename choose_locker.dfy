/**
 * Locker choice (src/screens/ChooseLockerScreen.js): a fixed availability
 * table and a single selection that only ever names an available locker.
 */
module ChooseLockerScreen {
  import opened Wrappers
  import opened Routes

  datatype LockerStatus = Available | Occupied

  datatype Locker = Locker(id: string, status: LockerStatus)

  /** The screen's mock table, in grid order. */
  const Lockers: seq<Locker> := [
    Locker("A1", Available), Locker("A2", Occupied), Locker("A3", Available),
    Locker("A4", Available), Locker("A5", Available), Locker("A6", Occupied),
    Locker("B1", Available), Locker("B2", Available), Locker("B3", Occupied),
    Locker("B4", Available), Locker("B5", Occupied), Locker("B6", Available)
  ]

  /** `id` names a locker of the table that is available. */
  predicate IsAvailableId(id: string)
  {
    exists i :: 0 <= i < |Lockers| && Lockers[i].id == id && Lockers[i].status == Available
  }

  /** No two lockers of the table share an id. */
  lemma LockerIdsUnique()
    ensures forall i, j :: 0 <= i < j < |Lockers| ==> Lockers[i].id != Lockers[j].id
  {
  }

  /** Exactly A2, A6, B3 and B5 are occupied; the other eight are available. */
  lemma OccupiedLockers()
    ensures forall i :: 0 <= i < |Lockers| ==>
      (Lockers[i].status == Occupied <==> Lockers[i].id in {"A2", "A6", "B3", "B5"})
    ensures forall id :: IsAvailableId(id) <==> id in {"A1", "A3", "A4", "A5", "B1", "B2", "B4", "B6"}
  {
    forall id | IsAvailableId(id) ensures id in {"A1", "A3", "A4", "A5", "B1", "B2", "B4", "B6"} {
      var i :| 0 <= i < |Lockers| && Lockers[i].id == id && Lockers[i].status == Available;
    }
    forall id | id in {"A1", "A3", "A4", "A5", "B1", "B2", "B4", "B6"} ensures IsAvailableId(id) {
      if id == "A1" { assert Lockers[0].id == id; }
      else if id == "A3" { assert Lockers[2].id == id; }
      else if id == "A4" { assert Lockers[3].id == id; }
      else if id == "A5" { assert Lockers[4].id == id; }
      else if id == "B1" { assert Lockers[6].id == id; }
      else if id == "B2" { assert Lockers[7].id == id; }
      else if id == "B4" { assert Lockers[9].id == id; }
      else { assert Lockers[11].id == id; }
    }
  }

  /** Where "Continue" leads: nowhere while nothing is selected (the button is disabled). */
  function ContinueTarget(selected: Option<string>): (r: Option<Route>)
    ensures r.None? <==> selected.None?
    ensures r.Some? ==> r.value.Payment? && r.value.lockerId == selected.value && !r.value.isExtending
  {
    match selected
    case None => None
    case Some(id) => Some(Payment(id, false))
  }

  class LockerPicker {
    var selectedLocker: Option<string>

    /** The selection is nothing or an available locker of the table. */
    ghost predicate Valid()
      reads this
    {
      selectedLocker.None? || IsAvailableId(selectedLocker.value)
    }

    constructor ()
      ensures Valid() && selectedLocker == None
    {
      selectedLocker := None;
    }

    /** `handleSelect`: an occupied locker is refused and the selection kept; otherwise it replaces the selection. */
    method HandleSelect(locker: Locker) returns (accepted: bool)
      requires Valid() && locker in Lockers
      modifies this
      ensures Valid()
      ensures accepted <==> locker.status == Available
      ensures selectedLocker == if accepted then Some(locker.id) else old(selectedLocker)
    {
      if locker.status == Occupied {
        return false;
      }
      var i :| 0 <= i < |Lockers| && Lockers[i] == locker;
      selectedLocker := Some(locker.id);
      accepted := true;
    }

    /** The "Continue" button. */
    method Continue() returns (next: Option<Route>)
      requires Valid()
      ensures next == ContinueTarget(selectedLocker)
      ensures next.Some? ==> IsAvailableId(next.value.lockerId)
    {
      next := ContinueTarget(selectedLocker);
    }
  }
}
