/** Slots of resource tables (tables.rs): ids are stable while they are live and
    reused afterwards. */
module ResourceTables {

  /** An empty slot has no payload. */
  datatype Slot = Slot(payload: nat, bytes: nat)

  const EMPTY := Slot(0, 0)
  const MAX_CAPACITY: nat := 0x0fff_ffff

  /** Slots that hold something, by id. */
  function Held(slots: seq<Slot>): map<nat, Slot> {
    map id: nat | id < |slots| && slots[id].payload != 0 :: slots[id]
  }

  /** Position of the first empty slot, or the end. */
  function FirstEmpty(slots: seq<Slot>): (id: nat)
    ensures id <= |slots| && (forall k :: 0 <= k < id ==> slots[k].payload != 0)
    ensures id < |slots| ==> slots[id].payload == 0
  {
    if slots == [] || slots[0].payload == 0 then 0
    else
      var rest := FirstEmpty(slots[1..]);
      assert forall k :: 1 <= k < rest + 1 ==> slots[k] == slots[1..][k - 1];
      rest + 1
  }

  predicate Increasing(ids: seq<nat>) {
    forall i, j :: 0 <= i < j < |ids| ==> ids[i] < ids[j]
  }

  class Table {
    var slots: seq<Slot>
    var capacity: nat

    ghost predicate Valid()
      reads this
    {
      |slots| <= capacity
    }

    constructor ()
      ensures Valid() && slots == []
    {
      slots, capacity := [], 0;
    }

    /** Stores a resource in the first empty slot; no held slot changes its id or
        its contents. Without room to grow the runtime stops. */
    method Push(payload: nat, bytes: nat) returns (stopped: bool, id: nat)
      requires Valid() && payload != 0
      modifies this
      ensures Valid() && (stopped ==> slots == old(slots) && old(capacity) > MAX_CAPACITY)
      ensures !stopped ==> id !in Held(old(slots)) && Held(slots) == Held(old(slots))[id := Slot(payload, bytes)]
      ensures !stopped ==> forall k :: 0 <= k < id ==> k in Held(old(slots))
    {
      id := FirstEmpty(slots);
      if id == capacity {
        if capacity > MAX_CAPACITY {
          return true, id;
        }
        capacity := if capacity == 0 then 8 else capacity * 2;
      }
      slots := if id == |slots| then slots + [Slot(payload, bytes)] else slots[id := Slot(payload, bytes)];
      assert Held(slots) == Held(old(slots))[id := Slot(payload, bytes)];
      return false, id;
    }

    /** Clears every slot that is not live, then drops empty slots at the end.
        Exactly the live slots are left, under their ids. The answer is which
        held slots were cleared, each once: what they held is given up. */
    method Sweep(live: set<nat>) returns (cleared: seq<nat>)
      requires Valid()
      modifies this`slots
      ensures Valid() && |slots| <= |old(slots)|
      ensures Held(slots) == map id | id in Held(old(slots)) && id in live :: Held(old(slots))[id]
      ensures slots != [] ==> slots[|slots| - 1].payload != 0
      ensures forall id :: id in cleared <==> id in Held(old(slots)) && id !in live
      ensures Increasing(cleared)
    {
      ghost var was := slots;
      cleared := [];
      for id := 0 to |slots|
        invariant |slots| == |was|
        invariant forall k :: 0 <= k < |slots| ==> slots[k] == if k < id && k !in live then EMPTY else was[k]
        invariant forall k :: k in cleared <==> k in Held(was) && k < id && k !in live
        invariant Increasing(cleared) && forall i :: 0 <= i < |cleared| ==> cleared[i] < id
      {
        if id !in live {
          if slots[id].payload != 0 {
            cleared := cleared + [id];
          }
          slots := slots[id := EMPTY];
        }
      }
      ghost var emptied := slots;
      while slots != [] && slots[|slots| - 1].payload == 0
        invariant slots <= emptied && forall k :: |slots| <= k < |emptied| ==> emptied[k].payload == 0
      {
        slots := slots[..|slots| - 1];
      }
      forall id: nat
        ensures id in Held(slots) <==> id in Held(was) && id in live
        ensures id in Held(slots) ==> Held(slots)[id] == Held(was)[id]
      {
        assert id < |emptied| ==> emptied[id] == if id !in live then EMPTY else was[id];
      }
    }
  }
}
