/** Explicit roots of the collector (gc_roots.rs): a stack of frames over one slot
    array, and pins that outlive frames, both named by tokens that are never
    reused. */
module GcRoots {
  import opened Wrappers

  datatype Error = Limit | Allocation | InvalidFrame | InvalidSlot | StaleHandle

  type Result<+T> = Wrappers.Result<T, Error>

  datatype Root = Root(reference: nat, kind: nat)

  datatype Frame = Frame(generation: nat, base: nat, count: nat)

  datatype Handle = Handle(generation: nat, slot: nat)

  datatype Pin = Pin(generation: nat, root: Option<Root>)

  const U64_MAX: nat := 0xffff_ffff_ffff_ffff

  datatype State = State(frames: seq<Frame>, slots: seq<Option<Root>>, pins: seq<Pin>, free: seq<nat>, generation: nat)

  /** Where the frames end. */
  function End(frames: seq<Frame>): nat {
    if frames == [] then 0 else frames[|frames| - 1].base + frames[|frames| - 1].count
  }

  /** Frames lie one behind the other and cover the slot array. */
  predicate Tiled(s: State) {
    && |s.slots| == End(s.frames)
    && (s.frames != [] ==> s.frames[0].base == 0)
    && forall i :: 0 < i < |s.frames| ==> s.frames[i].base == s.frames[i - 1].base + s.frames[i - 1].count
  }

  /** Tokens were handed out in order; no two are the same. */
  predicate Numbered(s: State) {
    && (forall i :: 0 <= i < |s.frames| ==> s.frames[i].generation <= s.generation)
    && (forall i, j :: 0 <= i < j < |s.frames| ==> s.frames[i].generation < s.frames[j].generation)
    && (forall i :: 0 <= i < |s.pins| ==> s.pins[i].generation <= s.generation)
  }

  /** The free list is exactly the empty pins, each once. */
  predicate Listed(s: State) {
    && (forall i :: 0 <= i < |s.free| ==> s.free[i] < |s.pins| && s.pins[s.free[i]].root.None?)
    && (forall i :: 0 <= i < |s.pins| && s.pins[i].root.None? ==> i in s.free)
    && (forall i, j :: 0 <= i < j < |s.free| ==> s.free[i] != s.free[j])
  }

  predicate Fits(s: State, limit: nat) {
    |s.frames| + |s.slots| + |s.pins| <= limit && s.generation <= U64_MAX
  }

  predicate Valid(s: State, limit: nat) {
    Tiled(s) && Numbered(s) && Listed(s) && Fits(s, limit)
  }

  /** A handle that still names its pin. */
  predicate Resolves(s: State, h: Handle) {
    h.slot < |s.pins| && s.pins[h.slot].generation == h.generation && s.pins[h.slot].root.Some?
  }

  /** No token that was handed out before and has lost its meaning regains it. */
  ghost predicate NoRevival(s: State, t: State) {
    && s.generation <= t.generation
    && (forall f: Frame :: f.generation <= s.generation && f !in s.frames ==> f !in t.frames)
    && (forall h: Handle :: h.generation <= s.generation && !Resolves(s, h) ==> !Resolves(t, h))
  }

  lemma NoRevivalTrans(s: State, t: State, u: State)
    requires NoRevival(s, t) && NoRevival(t, u)
    ensures NoRevival(s, u)
  {
    hide Resolves;
  }

  datatype Operation =
    | Enter(count: nat, room: bool)
    | Set(frame: Frame, slot: nat, root: Option<Root>)
    | Leave(frame: Frame)
    | Tail(frame: Frame, transfer: seq<Root>, room: bool)
    | PinRoot(pinned: Root, room: bool)
    | Unpin(handle: Handle)
    | Rewrite(relocate: Root -> Root)
    | Invalidate

  class Roots {
    const limit: nat
    var frames: seq<Frame>
    var slots: seq<Option<Root>>
    var pins: seq<Pin>
    var free: seq<nat>
    var generation: nat

    function Now(): State
      reads this
    {
      State(frames, slots, pins, free, generation)
    }

    ghost predicate Ok()
      reads this
    {
      Valid(Now(), limit)
    }

    constructor (limit: nat)
      ensures Ok() && this.limit == limit && frames == [] && slots == [] && pins == []
    {
      this.limit := limit;
      frames, slots, pins, free, generation := [], [], [], [], 0;
    }

    predicate Current(f: Frame)
      reads this
    {
      frames != [] && frames[|frames| - 1] == f
    }

    /** A new frame of empty slots. `room` is whether the allocator has space. */
    method Enter(count: nat, room: bool) returns (r: Result<Frame>)
      requires Ok()
      modifies this
      ensures Ok() && NoRevival(old(Now()), Now())
      ensures r.Err? ==> Now() == old(Now())
      ensures r.Err? && room ==>
        |old(slots)| + count + |old(pins)| + |old(frames)| + 1 > limit || old(generation) == U64_MAX
      ensures r.Ok? ==> r.value.generation > old(generation) && r.value.base == |old(slots)| && r.value.count == count
      ensures r.Ok? ==>
        frames == old(frames) + [r.value] && slots == old(slots) + seq(count, i => None) && pins == old(pins)
    {
      hide Tiled, Numbered, Listed, NoRevival;
      ghost var s := Now();
      NoRevivalRefl(s);
      if |slots| + count + |pins| + |frames| + 1 > limit {
        return Err(Limit);
      }
      if !room {
        return Err(Allocation);
      }
      if generation == U64_MAX {
        return Err(Limit);
      }
      generation := generation + 1;
      var frame := Frame(generation, |slots|, count);
      slots := slots + seq(count, i => None);
      frames := frames + [frame];
      Stacked(s, Now(), frame);
      return Result.Ok(frame);
    }

    /** Only the newest frame may be written, by its own token. */
    method Set(frame: Frame, slot: nat, root: Option<Root>) returns (r: Result<()>)
      requires Ok()
      modifies this`slots
      ensures Ok() && NoRevival(old(Now()), Now())
      ensures r.Ok? <==> Current(frame) && slot < frame.count
      ensures r.Err? ==> slots == old(slots)
      ensures r.Ok? ==> frame.base + slot < |old(slots)| && slots == old(slots)[frame.base + slot :=
        if root.Some? && root.value.reference != 0 then root else None]
    {
      if !Current(frame) {
        return Err(InvalidFrame);
      }
      if slot >= frame.count {
        return Err(InvalidSlot);
      }
      slots := slots[frame.base + slot := if root.Some? && root.value.reference != 0 then root else None];
      return Result.Ok(());
    }

    /** Drops the newest frame with its slots. */
    method Leave(frame: Frame) returns (r: Result<()>)
      requires Ok()
      modifies this`slots, this`frames
      ensures Ok() && NoRevival(old(Now()), Now())
      ensures r.Ok? <==> old(Current(frame))
      ensures r.Err? ==> Now() == old(Now())
      ensures r.Ok? ==>
        frame.base <= |old(slots)| && frames == old(frames)[..|old(frames)| - 1] && slots == old(slots)[..frame.base]
      ensures r.Ok? ==> frame !in frames
    {
      hide Tiled, Numbered, Listed, NoRevival;
      ghost var s := Now();
      NoRevivalRefl(s);
      if !Current(frame) {
        return Err(InvalidFrame);
      }
      LastTiled(s);
      slots := slots[..frame.base];
      frames := frames[..|frames| - 1];
      Unstacked(s, Now());
      return Result.Ok(());
    }

    /** Replaces the newest frame by one that holds the transferred roots, under a
        new token. */
    method Tail(frame: Frame, transfer: seq<Root>, room: bool) returns (r: Result<Frame>)
      requires Ok()
      modifies this
      ensures Ok() && NoRevival(old(Now()), Now())
      ensures r.Err? ==> Now() == old(Now())
      ensures r.Ok? ==>
        old(Current(frame)) && r.value.base == frame.base && r.value.count == |transfer|
          && r.value.generation > old(generation)
      ensures r.Ok? ==>
        frame.base <= |old(slots)| && frames == old(frames)[..|old(frames)| - 1] + [r.value] && pins == old(pins)
      ensures r.Ok? ==>
        slots == old(slots)[..frame.base] + seq(|transfer|, i requires 0 <= i < |transfer| => Some(transfer[i]))
      ensures r.Ok? ==> frame !in frames
    {
      hide Tiled, Numbered, Listed, NoRevival;
      ghost var s := Now();
      NoRevivalRefl(s);
      if !Current(frame) {
        return Err(InvalidFrame);
      }
      if frame.base + |transfer| + |pins| + |frames| > limit {
        return Err(Limit);
      }
      if !room {
        return Err(Allocation);
      }
      if generation == U64_MAX {
        return Err(Limit);
      }
      LastTiled(s);
      generation := generation + 1;
      var next := Frame(generation, frame.base, |transfer|);
      slots := slots[..frame.base] + seq(|transfer|, i requires 0 <= i < |transfer| => Some(transfer[i]));
      frames := frames[..|frames| - 1] + [next];
      Replaced(s, Now(), next);
      return Result.Ok(next);
    }

    /** Pins a root in a free slot or a new one. */
    method PinRoot(root: Root, room: bool) returns (r: Result<Handle>)
      requires Ok()
      modifies this
      ensures Ok() && NoRevival(old(Now()), Now()) && frames == old(frames) && slots == old(slots)
      ensures r.Err? ==> pins == old(pins) && free == old(free)
      ensures r.Ok? ==>
        r.value.generation > old(generation) && Resolves(Now(), r.value) && pins[r.value.slot].root == Some(root)
      ensures r.Ok? ==> forall h :: old(Resolves(Now(), h)) ==> Resolves(Now(), h) && pins[h.slot] == old(pins[h.slot])
    {
      hide Tiled, Numbered, Listed, NoRevival;
      ghost var s := Now();
      NoRevivalRefl(s);
      if generation == U64_MAX {
        return Err(Limit);
      }
      generation := generation + 1;
      if free != [] {
        var slot := free[|free| - 1];
        FreeSlot(s);
        free := free[..|free| - 1];
        pins := pins[slot := Pin(generation, Some(root))];
        Repinned(s, Now(), slot, root);
        return Result.Ok(Handle(generation, slot));
      }
      Counted(s, Now());
      if |slots| + |frames| + |pins| + 1 > limit {
        return Err(Limit);
      }
      if !room {
        return Err(Allocation);
      }
      var slot := |pins|;
      pins := pins + [Pin(generation, Some(root))];
      NewPin(s, Now(), root);
      return Result.Ok(Handle(generation, slot));
    }

    method Get(h: Handle) returns (r: Result<Root>)
      requires Ok()
      ensures r.Ok? <==> Resolves(Now(), h)
      ensures r.Ok? ==> pins[h.slot].root == Some(r.value)
    {
      if h.slot < |pins| && pins[h.slot].generation == h.generation && pins[h.slot].root.Some? {
        return Result.Ok(pins[h.slot].root.value);
      }
      return Err(StaleHandle);
    }

    /** Frees the pin; the handle is dead from now on. */
    method Unpin(h: Handle) returns (r: Result<Root>)
      requires Ok()
      modifies this`pins, this`free
      ensures Ok() && NoRevival(old(Now()), Now())
      ensures r.Ok? <==> old(Resolves(Now(), h))
      ensures r.Err? ==> Now() == old(Now())
      ensures r.Ok? ==> old(pins)[h.slot].root == Some(r.value) && !Resolves(Now(), h) && free == old(free) + [h.slot]
      ensures forall k :: k != h && old(Resolves(Now(), k)) ==> Resolves(Now(), k) && pins[k.slot] == old(pins[k.slot])
    {
      hide Tiled;
      ghost var s := Now();
      r := Get(h);
      if r.Err? {
        return;
      }
      pins := pins[h.slot := Pin(pins[h.slot].generation, None)];
      free := free + [h.slot];
      SameTiling(s, Now());
    }

    /** Relocation at a boundary: identities stay. */
    method RewritePins(relocate: Root -> Root)
      requires Ok()
      modifies this`pins
      ensures Ok() && NoRevival(old(Now()), Now()) && |pins| == |old(pins)|
      ensures forall h :: old(Resolves(Now(), h)) <==> Resolves(Now(), h)
      ensures forall h :: Resolves(Now(), h) ==> pins[h.slot].root == Some(relocate(old(pins[h.slot].root.value)))
    {
      hide Tiled;
      ghost var s := Now();
      for i := 0 to |pins|
        invariant |pins| == |s.pins| && Now() == s.(pins := pins)
        invariant forall k :: 0 <= k < |pins| ==> pins[k] == if k < i && s.pins[k].root.Some?
          then Pin(s.pins[k].generation, Some(relocate(s.pins[k].root.value))) else s.pins[k]
      {
        if pins[i].root.Some? {
          pins := pins[i := Pin(pins[i].generation, Some(relocate(pins[i].root.value)))];
        }
      }
      SameTiling(s, Now());
      forall h
        ensures Resolves(s, h) <==> Resolves(Now(), h)
        ensures Resolves(Now(), h) ==> pins[h.slot].root == Some(relocate(s.pins[h.slot].root.value))
      {
        assert h.slot < |pins| ==> pins[h.slot] == if s.pins[h.slot].root.Some?
          then Pin(s.pins[h.slot].generation, Some(relocate(s.pins[h.slot].root.value))) else s.pins[h.slot];
      }
    }

    /** Every pin is freed; no handle handed out so far resolves any more. */
    method InvalidatePins()
      requires Ok()
      modifies this`pins, this`free
      ensures Ok() && NoRevival(old(Now()), Now()) && |pins| == |old(pins)| && forall h :: !Resolves(Now(), h)
    {
      hide Tiled;
      ghost var s := Now();
      free := [];
      for i := 0 to |pins|
        invariant |pins| == |s.pins| && Now() == s.(pins := pins, free := free)
        invariant forall k :: 0 <= k < |pins| ==>
          pins[k] == if k < i then Pin(s.pins[k].generation, None) else s.pins[k]
        invariant |free| == i && forall k :: 0 <= k < i ==> free[k] == k
      {
        pins := pins[i := Pin(pins[i].generation, None)];
        free := free + [i];
      }
      SameTiling(s, Now());
      forall i | 0 <= i < |pins|
        ensures i in free
      {
        assert free[i] == i;
      }
      forall h
        ensures !Resolves(Now(), h)
      {
        assert h.slot < |pins| ==> pins[h.slot].root.None?;
      }
    }

    /** Any sequence of operations keeps the roots well formed, and whatever token
        was dead before is dead after. */
    method Perform(operations: seq<Operation>)
      requires Ok()
      modifies this
      ensures Ok() && NoRevival(old(Now()), Now())
    {
      hide Valid, NoRevival;
      ghost var s := Now();
      NoRevivalRefl(s);
      for i := 0 to |operations|
        invariant Ok() && NoRevival(s, Now())
      {
        ghost var t := Now();
        match operations[i] {
          case Enter(count, room) => var _ := Enter(count, room);
          case Set(frame, slot, root) => var _ := Set(frame, slot, root);
          case Leave(frame) => var _ := Leave(frame);
          case Tail(frame, transfer, room) => var _ := Tail(frame, transfer, room);
          case PinRoot(root, room) => var _ := PinRoot(root, room);
          case Unpin(handle) => var _ := Unpin(handle);
          case Rewrite(relocate) => RewritePins(relocate);
          case Invalidate => InvalidatePins();
        }
        NoRevivalTrans(s, t, Now());
      }
    }
  }

  lemma NoRevivalRefl(s: State)
    ensures NoRevival(s, s)
  {
    hide Resolves;
  }

  lemma SameTiling(s: State, t: State)
    requires s.frames == t.frames && s.slots == t.slots
    ensures Tiled(s) <==> Tiled(t)
  {
  }

  /** The frames of a valid state share out the slot array: no slot belongs to two
      of them. */
  lemma {:induction false} FramesApart(s: State, i: nat, j: nat)
    requires Tiled(s) && i < j < |s.frames|
    ensures s.frames[i].base + s.frames[i].count <= s.frames[j].base
    decreases j
  {
    if i < j - 1 {
      FramesApart(s, i, j - 1);
    }
  }

  // ----- steps ----------------------------------------------------------------------------

  lemma LastTiled(s: State)
    requires Tiled(s) && s.frames != []
    ensures var last := s.frames[|s.frames| - 1]; last.base + last.count == |s.slots|
  {
  }

  /** The newest frame gave way to one with a new token. */
  lemma Replaced(s: State, t: State, next: Frame)
    requires Tiled(s) && Numbered(s) && Listed(s) && s.frames != [] && next.base == s.frames[|s.frames| - 1].base
    requires t == s.(frames := s.frames[..|s.frames| - 1] + [next], slots := t.slots, generation := s.generation + 1)
    requires next.generation == s.generation + 1 && |t.slots| == next.base + next.count
    ensures Tiled(t) && Numbered(t) && Listed(t) && NoRevival(s, t)
    ensures s.frames[|s.frames| - 1] !in t.frames
  {
  }

  lemma Stacked(s: State, t: State, frame: Frame)
    requires Tiled(s) && Numbered(s) && Listed(s) && frame.base == |s.slots| && frame.generation == s.generation + 1
    requires t == s.(frames := s.frames + [frame], slots := t.slots, generation := s.generation + 1)
    requires |t.slots| == |s.slots| + frame.count
    ensures Tiled(t) && Numbered(t) && Listed(t) && NoRevival(s, t)
  {
  }

  lemma Unstacked(s: State, t: State)
    requires Tiled(s) && Numbered(s) && Listed(s) && s.frames != []
    requires t == s.(frames := s.frames[..|s.frames| - 1], slots := t.slots)
    requires |t.slots| == s.frames[|s.frames| - 1].base
    ensures Tiled(t) && Numbered(t) && Listed(t) && NoRevival(s, t)
    ensures s.frames[|s.frames| - 1] !in t.frames
  {
  }

  /** Only the counter went up. */
  lemma Counted(s: State, t: State)
    requires Tiled(s) && Numbered(s) && Listed(s) && t == s.(generation := s.generation + 1)
    ensures Tiled(t) && Numbered(t) && Listed(t) && NoRevival(s, t)
  {
  }

  lemma FreeSlot(s: State)
    requires Listed(s) && s.free != []
    ensures s.free[|s.free| - 1] < |s.pins| && s.pins[s.free[|s.free| - 1]].root.None?
  {
  }

  /** A free pin was taken under a new token. */
  lemma Repinned(s: State, t: State, slot: nat, root: Root)
    requires Tiled(s) && Numbered(s) && Listed(s) && s.free != [] && slot == s.free[|s.free| - 1] && slot < |s.pins|
    requires t ==
      s.(free := s.free[..|s.free| - 1], pins := s.pins[slot := Pin(s.generation + 1, Some(root))],
        generation := s.generation + 1)
    ensures Tiled(t) && Numbered(t) && Listed(t) && NoRevival(s, t)
    ensures forall h :: Resolves(s, h) ==> Resolves(t, h) && t.pins[h.slot] == s.pins[h.slot]
  {
    hide Tiled;
    SameTiling(s, t);
    assert s.free == t.free + [slot];
    assert s.pins[slot].root.None?;
  }

  lemma NewPin(s: State, t: State, root: Root)
    requires Tiled(s) && Numbered(s) && Listed(s)
    requires t == s.(pins := s.pins + [Pin(s.generation + 1, Some(root))], generation := s.generation + 1)
    ensures Tiled(t) && Numbered(t) && Listed(t) && NoRevival(s, t)
    ensures forall h :: Resolves(s, h) ==> Resolves(t, h) && t.pins[h.slot] == s.pins[h.slot]
  {
    hide Tiled;
    SameTiling(s, t);
  }
}
