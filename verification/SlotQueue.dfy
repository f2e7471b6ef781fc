/**
 The cap on controller calls: six slots, handed straight to the longest waiter.  The arrivals
 and grants are kept as history, so first come first served is a plain equation.
 */
module SlotQueue {
  import opened Wrappers

  const CONTROLLER_CONCURRENCY: nat := 6

  type Id = nat

  datatype Slots = Slots(active: nat, waiting: seq<Id>, holders: set<Id>, arrived: seq<Id>, granted: seq<Id>)

  const NO_SLOTS := Slots(0, [], {}, [], [])

  function Enter(s: Slots, id: Id): Slots {
    if s.active < CONTROLLER_CONCURRENCY
    then s.(active := s.active + 1, holders := s.holders + {id}, arrived := s.arrived + [id], granted := s.granted + [id])
    else s.(waiting := s.waiting + [id], arrived := s.arrived + [id])
  }

  /** A call has ended, well or badly: its slot goes to the first waiter, or back. */
  function Leave(s: Slots, id: Id): Slots
    requires s.active > 0
  {
    if s.waiting != []
    then s.(waiting := s.waiting[1..], holders := s.holders - {id} + {s.waiting[0]}, granted := s.granted + [s.waiting[0]])
    else s.(active := s.active - 1, holders := s.holders - {id})
  }

  predicate Distinct(ids: seq<Id>) {
    forall i, j :: 0 <= i < j < |ids| ==> ids[i] != ids[j]
  }

  ghost predicate Inv(s: Slots) {
    && s.active == |s.holders| <= CONTROLLER_CONCURRENCY
    && (s.waiting != [] ==> s.active == CONTROLLER_CONCURRENCY)
    && Distinct(s.waiting)
    && (forall id :: id in s.waiting ==> id !in s.holders)
    && s.arrived == s.granted + s.waiting
  }

  lemma EnterKeepsInv(s: Slots, id: Id)
    requires Inv(s) && id !in s.holders && id !in s.waiting
    ensures Inv(Enter(s, id))
  {
  }

  lemma LeaveKeepsInv(s: Slots, id: Id)
    requires Inv(s) && id in s.holders
    ensures s.active > 0 && Inv(Leave(s, id))
  {
    assert s.holders == s.holders - {id} + {id};
    if s.waiting != [] {
      assert s.waiting == [s.waiting[0]] + s.waiting[1..];
      assert s.granted + [s.waiting[0]] + s.waiting[1..] == s.granted + s.waiting;
    }
  }

  /* ---------- Whole runs ---------- */

  /** A call asks for a slot, or a call that holds one ends. */
  datatype Move = Asks(id: Id) | Ends(id: Id)

  predicate Allowed(s: Slots, m: Move) {
    match m
    case Asks(id) => id !in s.holders && id !in s.waiting
    case Ends(id) => id in s.holders && s.active > 0
  }

  function After(s: Slots, m: Move): Slots {
    if !Allowed(s, m) then s else
    match m
    case Asks(id) => Enter(s, id)
    case Ends(id) => Leave(s, id)
  }

  function Run(s: Slots, ms: seq<Move>): Slots
    decreases |ms|
  {
    if ms == [] then s else Run(After(s, ms[0]), ms[1..])
  }

  /**
   Over every run at most six calls hold slots, a waiter means all six are taken, no slot is
   lost, and the grants are exactly the arrivals in their order, the waiters left out.
   */
  lemma {:induction false} SlotsAreSound(s: Slots, ms: seq<Move>)
    requires Inv(s)
    ensures var t := Run(s, ms);
      && |t.holders| == t.active <= 6
      && (t.waiting != [] ==> |t.holders| == 6)
      && t.granted + t.waiting == t.arrived
      && Inv(t)
    decreases |ms|
  {
    if ms != [] {
      if Allowed(s, ms[0]) {
        match ms[0]
        case Asks(id) => EnterKeepsInv(s, id);
        case Ends(id) => LeaveKeepsInv(s, id);
      }
      SlotsAreSound(After(s, ms[0]), ms[1..]);
    }
  }

  /** Nobody waits for ever: a waiter is granted its slot once the calls ahead of it and one holder more have ended. */
  lemma {:induction false} WaiterAdvances(s: Slots, id: Id, place: nat)
    requires Inv(s) && place < |s.waiting| && s.waiting[place] == id && id !in s.holders
    requires s.holders != {}
    ensures forall ended :: ended in s.holders ==>
      s.active > 0 && var t := Leave(s, ended);
      if place == 0 then id in t.holders else place - 1 < |t.waiting| && t.waiting[place - 1] == id
  {
  }

  /* ---------- The pool itself ---------- */

  class SlotPool {
    var activeCalls: nat
    var waitingForSlot: seq<Id>
    ghost var view: Slots

    ghost predicate Valid()
      reads this
    {
      Inv(view) && view.active == activeCalls && view.waiting == waitingForSlot
    }

    constructor ()
      ensures Valid() && view == NO_SLOTS
    {
      activeCalls, waitingForSlot, view := 0, [], NO_SLOTS;
    }

    /** True when the call may run at once; otherwise it is queued. */
    method Acquire(id: Id) returns (running: bool)
      requires Valid() && id !in view.holders && id !in view.waiting
      modifies this
      ensures Valid() && view == Enter(old(view), id)
      ensures running == (id in view.holders)
    {
      EnterKeepsInv(view, id);
      view := Enter(view, id);
      if activeCalls < CONTROLLER_CONCURRENCY {
        activeCalls := activeCalls + 1;
        running := true;
      } else {
        waitingForSlot := waitingForSlot + [id];
        running := false;
      }
    }

    /** The finally block: wakes the first waiter, so the count never dips, or gives the slot up. */
    method Release(ghost id: Id) returns (next: Option<Id>)
      requires Valid() && id in view.holders
      modifies this
      ensures Valid() && old(view.active) > 0 && view == Leave(old(view), id)
      ensures next == if old(waitingForSlot) != [] then Some(old(waitingForSlot)[0]) else None
      ensures next.Some? ==> activeCalls == old(activeCalls) && next.value in view.holders
    {
      LeaveKeepsInv(view, id);
      view := Leave(view, id);
      if waitingForSlot != [] {
        next := Some(waitingForSlot[0]);
        waitingForSlot := waitingForSlot[1..];
      } else {
        next := None;
        activeCalls := activeCalls - 1;
      }
    }
  }
}
