/** Function-local scratch storage (frame_scratch.rs): a stack of 64-bit words,
    with tail packets that are moved out, survive their frame, and are adopted by
    the next one. */
module FrameScratch {
  import opened Wrappers

  const BASE: nat := 0x8000_0000
  const TRANSFER: nat := 0xc000_0000
  /** Words the namespace has room for. */
  const LIMIT: nat := 0x0800_0000
  const HALF: nat := 0x1_0000_0000

  datatype Error = InvalidAdoption | InvalidValue | Exhausted | Underflow | InvalidPacket | OutsideFrame | InvalidExtent

  type Result<+T> = Wrappers.Result<T, Error>

  /** `pending` counts the references at the start of a packet in transfer. */
  datatype State = State(words: seq<nat>, frames: seq<nat>, transfer: seq<nat>, pending: Option<nat>)

  // ----- packed references ------------------------------------------------------

  /** Reference `i` of a packet: two to a word, the low half first. */
  function Half(w: nat, k: nat): nat
    requires k < 2
  {
    if k == 0 then w % HALF else w / HALF
  }

  function WithHalf(w: nat, k: nat, x: nat): nat
    requires k < 2
  {
    if k == 0 then w / HALF * HALF + x else x * HALF + w % HALF
  }

  lemma HalfOfWith(w: nat, k: nat, x: nat)
    requires k < 2 && x < HALF
    ensures Half(WithHalf(w, k, x), k) == x && Half(WithHalf(w, k, x), 1 - k) == Half(w, 1 - k)
    ensures w < HALF * HALF ==> WithHalf(w, k, x) < HALF * HALF
  {
  }

  predicate IsWord(w: nat) { w < HALF * HALF }

  predicate AllWords(ws: seq<nat>) {
    forall i :: 0 <= i < |ws| ==> IsWord(ws[i])
  }

  function Reference(packet: seq<nat>, i: nat): nat
    requires i < 2 * |packet|
  {
    Half(packet[i / 2], i % 2)
  }

  // ----- specification ----------------------------------------------------------

  /** Where a transferred reference points once its packet lies at `base`. */
  function Moved(r: nat, base: nat): nat {
    if r >= TRANSFER then BASE + 8 * base + (r - TRANSFER) else r
  }

  /** The first `count` references of a packet are relocated to `base`. */
  function Relocated(packet: seq<nat>, base: nat, count: nat): (r: seq<nat>)
    requires count <= 2 * |packet|
    ensures |r| == |packet|
  {
    if count == 0 then packet
    else
      var before := Relocated(packet, base, count - 1);
      var i := count - 1;
      before[i / 2 := WithHalf(before[i / 2], i % 2, Moved(Reference(before, i), base))]
  }

  predicate Valid(s: State) {
    && |s.words| < LIMIT && AllWords(s.words)
    && (forall i :: 0 <= i < |s.frames| ==> s.frames[i] < |s.words|)
    && (forall i, j :: 0 <= i < j < |s.frames| ==> s.frames[i] < s.frames[j])
    && (if s.frames == [] then s.words == [] else s.frames[0] == 0)
    && |s.transfer| < LIMIT && AllWords(s.transfer)
    && (if s.pending.Some? then s.pending.value <= 2 * |s.transfer| else s.transfer == [])
  }

  /** A reference beyond the packet it travels with. */
  predicate Dangling(s: State, i: nat)
    requires i < 2 * |s.transfer|
  {
    Reference(s.transfer, i) >= TRANSFER + 8 * |s.transfer|
  }

  predicate Sound(s: State) {
    s.pending.Some? && s.pending.value <= 2 * |s.transfer| ==> forall i :: 0 <= i < s.pending.value ==> !Dangling(s, i)
  }

  function Words(bytes: nat): nat { (bytes + 7) / 8 }

  function Zeros(n: nat): seq<nat> { seq(n, i => 0) }

  /** The words a new frame consists of: an adopted packet, the argument word, and
      its locals. */
  function Frame(s: State, bytes: nat, args: nat): seq<nat>
    requires Valid(s)
  {
    var base := |s.words|;
    if s.pending.Some? then Relocated(s.transfer, base, s.pending.value) + [BASE + 8 * base] + Zeros(Words(bytes))
    else [args] + Zeros(Words(bytes))
  }

  function Entered(s: State, bytes: nat, args: nat): State
    requires Valid(s)
  {
    State(s.words + Frame(s, bytes, args), s.frames + [|s.words|], [], None)
  }

  /** First word of the locals of a frame that is entered now. */
  function Locals(s: State): nat {
    |s.words| + |s.transfer| + 1
  }

  function Enter(s: State, bytes: nat, args: nat): Result<State>
    requires Valid(s)
  {
    if (args == TRANSFER) != s.pending.Some? then Err(InvalidAdoption)
    else if !Sound(s) then Err(InvalidValue)
    else if Locals(s) + Words(bytes) >= LIMIT then Err(Exhausted)
    else Ok(Entered(s, bytes, args))
  }

  function Leave(s: State): Result<State>
    requires Valid(s)
  {
    if s.frames == [] then Err(Underflow)
    else
      var n := |s.frames| - 1;
      Ok(s.(words := s.words[..s.frames[n]], frames := s.frames[..n]))
  }

  function Tail(s: State, packet: nat, bytes: nat, count: nat): Result<State>
    requires Valid(s)
  {
    if s.pending.Some? || !(BASE <= packet < TRANSFER) || bytes % 8 != 0 then Err(InvalidPacket)
    else if s.frames == [] then Err(OutsideFrame)
    else
      var start := (packet - BASE) / 8;
      var end := start + bytes / 8;
      var n := |s.frames| - 1;
      if packet % 8 != 0 || start < s.frames[n] || end > |s.words| || count > bytes / 4 then Err(InvalidExtent)
      else Ok(State(s.words[..s.frames[n]], s.frames[..n], s.words[start..end], Some(count)))
  }

  // ----- every operation keeps the stack well formed -----------------------------------

  lemma {:induction false} RelocatedWords(packet: seq<nat>, base: nat, count: nat)
    requires count <= 2 * |packet| && base + |packet| < LIMIT
    requires AllWords(packet)
    requires forall i :: 0 <= i < count ==> Reference(packet, i) < TRANSFER + 8 * |packet|
    ensures var r := Relocated(packet, base, count);
      && AllWords(r)
      && (forall i :: 0 <= i < count ==> Reference(r, i) == Moved(Reference(packet, i), base))
      && (forall i :: count <= i < 2 * |packet| ==> Reference(r, i) == Reference(packet, i))
      && (forall i :: (count + 1) / 2 <= i < |packet| ==> r[i] == packet[i])
  {
    if count > 0 {
      RelocatedWords(packet, base, count - 1);
      RelocatedNext(packet, base, count);
    }
  }

  lemma RelocatedNext(packet: seq<nat>, base: nat, count: nat)
    requires 0 < count <= 2 * |packet| && base + |packet| < LIMIT
    requires AllWords(Relocated(packet, base, count - 1))
    requires Reference(Relocated(packet, base, count - 1), count - 1) ==
      Reference(packet, count - 1) < TRANSFER + 8 * |packet|
    ensures var before, r := Relocated(packet, base, count - 1), Relocated(packet, base, count);
      && AllWords(r)
      && (forall i :: 0 <= i < |packet| && i != (count - 1) / 2 ==> r[i] == before[i])
      && Reference(r, count - 1) == Moved(Reference(packet, count - 1), base)
      && (forall i :: 0 <= i < 2 * |packet| && i != count - 1 ==> Reference(r, i) == Reference(before, i))
  {
    hide Half, WithHalf;
    var before, r := Relocated(packet, base, count - 1), Relocated(packet, base, count);
    var i := count - 1;
    var x := Moved(Reference(before, i), base);
    MovedFits(Reference(before, i), base, |packet|);
    HalfOfWith(before[i / 2], i % 2, x);
    assert r == before[i / 2 := WithHalf(before[i / 2], i % 2, x)];
    forall k | 0 <= k < 2 * |packet| && k != i
      ensures Reference(r, k) == Reference(before, k)
    {
      if k / 2 == i / 2 {
        assert k % 2 == 1 - i % 2;
      }
    }
  }

  lemma MovedFits(r: nat, base: nat, length: nat)
    requires r < TRANSFER + 8 * length && base + length < LIMIT
    ensures Moved(r, base) < TRANSFER < HALF
  {
  }

  lemma EnterValid(s: State, bytes: nat, args: nat)
    requires Valid(s) && args < HALF && Enter(s, bytes, args).Ok?
    ensures Valid(Enter(s, bytes, args).value)
  {
    hide Sound, Relocated, Frame;
    FrameWords(s, bytes, args);
    var t := Enter(s, bytes, args).value;
    assert s.frames != [] ==> t.frames[0] == s.frames[0];
  }

  lemma FrameWords(s: State, bytes: nat, args: nat)
    requires Valid(s) && args < HALF && Enter(s, bytes, args).Ok?
    ensures AllWords(Frame(s, bytes, args)) && |s.words| + |Frame(s, bytes, args)| == Locals(s) + Words(bytes)
  {
    hide Relocated, Sound;
    if s.pending.Some? {
      NotDangling(s);
      RelocatedWords(s.transfer, |s.words|, s.pending.value);
    } else {
      PendingShape(s);
    }
  }

  lemma NotDangling(s: State)
    requires Valid(s) && s.pending.Some? && Sound(s)
    ensures forall i :: 0 <= i < s.pending.value ==> Reference(s.transfer, i) < TRANSFER + 8 * |s.transfer|
  {
    forall i | 0 <= i < s.pending.value
      ensures Reference(s.transfer, i) < TRANSFER + 8 * |s.transfer|
    {
      assert !Dangling(s, i);
    }
  }

  lemma LeaveValid(s: State)
    requires Valid(s) && Leave(s).Ok?
    ensures Valid(Leave(s).value)
  {
  }

  lemma TailValid(s: State, packet: nat, bytes: nat, count: nat)
    requires Valid(s) && Tail(s, packet, bytes, count).Ok?
    ensures Valid(Tail(s, packet, bytes, count).value)
  {
  }

  // ----- what the operations mean --------------------------------------------------------

  /** An adopted reference is the one that was handed over: unchanged if it points
      elsewhere, otherwise relocated to where the packet lies now. It never points
      into the transfer namespace, and it finds the payload it was sent with. */
  lemma AdoptedReference(s: State, bytes: nat, i: nat)
    requires Valid(s) && Enter(s, bytes, TRANSFER).Ok? && s.pending.Some? && i < s.pending.value
    ensures var t := Enter(s, bytes, TRANSFER).value;
      var base := |s.words|;
      var was, now := Reference(s.transfer, i), Reference(t.words[base..base + |s.transfer|], i);
      && base + |s.transfer| < |t.words| && now < TRANSFER
      && (was < TRANSFER ==> now == was)
      && (was >= TRANSFER ==>
            && (was - TRANSFER) / 8 < |s.transfer|
            && now == BASE + 8 * base + (was - TRANSFER)
            && ((was - TRANSFER) / 8 >= (s.pending.value + 1) / 2 ==>
                  t.words[(now - BASE) / 8] == s.transfer[(was - TRANSFER) / 8]))
  {
    hide Valid, Sound, Relocated, Half, Words, Moved, Enter;
    var base := |s.words|;
    var t := Enter(s, bytes, TRANSFER).value;
    AdoptedPacket(s, bytes);
    var packet := Relocated(s.transfer, base, s.pending.value);
    MovedExactly(Reference(s.transfer, i), base, |s.transfer|);
    var was := Reference(s.transfer, i);
    if was >= TRANSFER {
      assert packet[(was - TRANSFER) / 8] == t.words[base + (was - TRANSFER) / 8];
    }
  }

  /** Where the adopted packet lies, and what it looks like. */
  lemma AdoptedPacket(s: State, bytes: nat)
    requires Valid(s) && Enter(s, bytes, TRANSFER).Ok? && s.pending.Some?
    ensures s.pending.value <= 2 * |s.transfer|
    ensures var base, t := |s.words|, Enter(s, bytes, TRANSFER).value;
      var packet := Relocated(s.transfer, base, s.pending.value);
      && base + |s.transfer| < |t.words| < LIMIT && t.words[base..base + |s.transfer|] == packet
      && (forall i :: 0 <= i < s.pending.value ==> Reference(packet, i) == Moved(Reference(s.transfer, i), base))
      && (forall i :: 0 <= i < s.pending.value ==> Reference(s.transfer, i) < TRANSFER + 8 * |s.transfer|)
      && (forall i :: (s.pending.value + 1) / 2 <= i < |s.transfer| ==> packet[i] == s.transfer[i])
  {
    hide Half, Relocated, Moved, IsWord;
    NotDangling(s);
    RelocatedWords(s.transfer, |s.words|, s.pending.value);
    var t := Enter(s, bytes, TRANSFER).value;
    assert t.words[|s.words|..|s.words| + |s.transfer|] == Relocated(s.transfer, |s.words|, s.pending.value);
  }

  lemma MovedExactly(r: nat, base: nat, length: nat)
    requires r < TRANSFER + 8 * length && base + length < LIMIT
    ensures Moved(r, base) < TRANSFER && (r < TRANSFER ==> Moved(r, base) == r)
    ensures r >= TRANSFER ==> Moved(r, base) == BASE + 8 * base + (r - TRANSFER) && (r - TRANSFER) / 8 < length
    ensures r >= TRANSFER ==> (Moved(r, base) - BASE) / 8 == base + (r - TRANSFER) / 8
  {
  }

  /** A hand-off and its adoption: the new frame starts where the departed one
      did, below it nothing changed, and how much of the stack is in use depends
      on the last packet and its locals alone. */
  lemma TailReuse(s: State, packet: nat, bytes: nat, count: nat, locals: nat)
    requires Valid(s) && Tail(s, packet, bytes, count).Ok?
    requires Valid(Tail(s, packet, bytes, count).value)
    requires Enter(Tail(s, packet, bytes, count).value, locals, TRANSFER).Ok?
    ensures s.frames != []
    ensures var t := Enter(Tail(s, packet, bytes, count).value, locals, TRANSFER).value;
      var base := s.frames[|s.frames| - 1];
      && t.frames == s.frames && t.words[..base] == s.words[..base]
      && |t.words| == base + bytes / 8 + 1 + Words(locals)
      && t.words[base + bytes / 8] == BASE + 8 * base
  {
    var u := Tail(s, packet, bytes, count).value;
    assert u.frames + [|u.words|] == s.frames;
  }

  /** One tail call: where the packet is, how it is made up, and how much the
      callee needs. */
  datatype Call = Call(packet: nat, bytes: nat, count: nat, locals: nat)

  function Jump(s: State, c: Call): Result<State>
    requires Valid(s)
  {
    var handed := Tail(s, c.packet, c.bytes, c.count);
    if handed.Err? then handed
    else
      TailValid(s, c.packet, c.bytes, c.count);
      Enter(handed.value, c.locals, TRANSFER)
  }

  lemma LastFrame(s: State)
    requires Valid(s) && s.frames != []
    ensures s.frames[|s.frames| - 1] < |s.words|
  {
  }

  lemma JumpReuse(s: State, c: Call)
    requires Valid(s) && Jump(s, c).Ok?
    ensures s.frames != []
    ensures var t, base := Jump(s, c).value, s.frames[|s.frames| - 1];
      && base <= |t.words| && base <= |s.words| && t.frames == s.frames && t.words[..base] == s.words[..base]
      && |t.words| == base + c.bytes / 8 + 1 + Words(c.locals)
  {
    hide Enter, Tail, Words;
    TailValid(s, c.packet, c.bytes, c.count);
    TailReuse(s, c.packet, c.bytes, c.count, c.locals);
    TailFrames(s, c);
  }

  lemma TailFrames(s: State, c: Call)
    requires Valid(s) && Tail(s, c.packet, c.bytes, c.count).Ok?
    ensures s.frames != [] && s.frames[|s.frames| - 1] < |s.words|
  {
  }

  // ----- the stack in place ----------------------------------------------------------------

  class Scratch {
    var words: seq<nat>
    var frames: seq<nat>
    var transfer: seq<nat>
    var pending: Option<nat>

    function Now(): State
      reads this
    {
      State(words, frames, transfer, pending)
    }

    ghost predicate Ok()
      reads this
    {
      Valid(Now())
    }

    constructor ()
      ensures Ok() && words == [] && frames == [] && transfer == [] && pending == None
    {
      words, frames, transfer, pending := [], [], [], None;
    }

    /** Some reference of the pending packet points beyond it. */
    method CheckPacket() returns (sound: bool)
      requires Ok()
      ensures sound == Sound(Now())
    {
      if pending.Some? {
        for i := 0 to pending.value
          invariant forall k :: 0 <= k < i ==> !Dangling(Now(), k)
        {
          var reference := Half(transfer[i / 2], i % 2);
          if reference >= TRANSFER && reference - TRANSFER >= 8 * |transfer| {
            assert Dangling(Now(), i);
            return false;
          }
        }
      }
      return true;
    }

    /** Patches the references of an adopted packet where it lies. */
    method Adopt(base: nat, prefix: nat, count: nat)
      requires base + prefix <= |words| && count <= 2 * prefix && base + prefix < LIMIT
      modifies this`words
      ensures words ==
        old(words)[..base] + Relocated(old(words)[base..base + prefix], base, count) + old(words)[base + prefix..]
    {
      hide Relocated, Half, WithHalf;
      ghost var packet := words[base..base + prefix];
      ghost var above := words[base + prefix..];
      RelocatedNone(packet, base);
      for i := 0 to count
        invariant words == old(words)[..base] + Relocated(packet, base, i) + above
      {
        ghost var before := Relocated(packet, base, i);
        var at := base + i / 2;
        assert words[at] == before[i / 2];
        var reference := Half(words[at], i % 2);
        RelocatedStep(packet, base, i);
        if reference >= TRANSFER {
          words := words[at := WithHalf(words[at], i % 2, BASE + 8 * base + (reference - TRANSFER))];
        } else {
          SameHalf(words[at], i % 2);
        }
      }
    }

    /** A failed call changes nothing. `room` is whether the allocator grants the
        words and the frame. */
    method Push(bytes: nat, args: nat, room: bool) returns (r: Result<nat>)
      requires Ok() && args < HALF
      modifies this
      ensures Ok()
      ensures r.Err? ==> Now() == old(Now())
      ensures r.Ok? <==> room && Enter(old(Now()), bytes, args).Ok?
      ensures r.Ok? ==> Enter(old(Now()), bytes, args) == Result.Ok(Now()) && r.value == BASE + 8 * Locals(old(Now()))
    {
      hide Valid, Sound, Relocated, Half;
      ghost var s := Now();
      var adopted := args == TRANSFER;
      if adopted != pending.Some? {
        return Err(InvalidAdoption);
      }
      var prefix := if adopted then |transfer| else 0;
      var sound := CheckPacket();
      if !sound {
        return Err(InvalidValue);
      }
      var base := |words|;
      var locals := base + prefix + 1;
      PendingShape(s);
      if locals + Words(bytes) >= LIMIT || !room {
        return Err(Exhausted);
      }
      PushWords(bytes, args);
      EnterValid(s, bytes, args);
      return Result.Ok(BASE + 8 * locals);
    }

    /** Lays the new frame behind the words there are. */
    method PushWords(bytes: nat, args: nat)
      requires Ok() && Locals(Now()) + Words(bytes) < LIMIT
      modifies this
      ensures Now() == Entered(old(Now()), bytes, args)
    {
      hide Valid, Relocated, Half;
      ghost var s := Now();
      var base, prefix := |words|, |transfer|;
      var locals := base + prefix + 1;
      PendingShape(s);
      words := words + Zeros(prefix + 1 + Words(bytes));
      var arguments := args;
      if pending.Some? {
        words := words[..base] + transfer + words[base + prefix..];
        assert words[base..base + prefix] == transfer;
        assert words[..base] == s.words && words[base + prefix..] == Zeros(Words(bytes) + 1);
        Adopt(base, prefix, pending.value);
        pending := None;
        transfer := [];
        arguments := BASE + 8 * base;
      }
      assert words ==
        s.words + (if s.pending.Some? then Relocated(s.transfer, base, s.pending.value) else [])
        + Zeros(Words(bytes) + 1);
      words := words[locals - 1 := arguments];
      frames := frames + [base];
      assert words == s.words + Frame(s, bytes, args);
    }

    method Pop() returns (r: Result<()>)
      requires Ok()
      modifies this`words, this`frames
      ensures Ok()
      ensures r.Err? ==> Now() == old(Now()) && Leave(old(Now())) == Err(r.error)
      ensures r.Ok? ==> Leave(old(Now())) == Result.Ok(Now())
    {
      ghost var s := Now();
      if frames == [] {
        return Err(Underflow);
      }
      var base := frames[|frames| - 1];
      frames := frames[..|frames| - 1];
      words := words[..base];
      LeaveValid(s);
      return Result.Ok(());
    }

    /** Moves a packet of the current frame out and drops the frame. */
    method HandOff(packet: nat, bytes: nat, count: nat, room: bool) returns (r: Result<nat>)
      requires Ok()
      modifies this
      ensures Ok()
      ensures r.Err? ==> Now() == old(Now())
      ensures r.Ok? <==> room && Tail(old(Now()), packet, bytes, count).Ok?
      ensures r.Ok? ==> Tail(old(Now()), packet, bytes, count) == Result.Ok(Now()) && r.value == TRANSFER
    {
      hide AllWords, Relocated;
      ghost var s := Now();
      if pending.Some? || !(BASE <= packet < TRANSFER) || bytes % 8 != 0 {
        return Err(InvalidPacket);
      }
      var start := (packet - BASE) / 8;
      var length := bytes / 8;
      var end := start + length;
      if frames == [] {
        return Err(OutsideFrame);
      }
      var frame := frames[|frames| - 1];
      if packet % 8 != 0 || start < frame || end > |words| || count > bytes / 4 {
        return Err(InvalidExtent);
      }
      if !room {
        return Err(Exhausted);
      }
      transfer := words[start..end];
      frames := frames[..|frames| - 1];
      words := words[..frame];
      pending := Some(count);
      TailValid(s, packet, bytes, count);
      assert Now() == State(s.words[..frame], s.frames[..|s.frames| - 1], s.words[start..end], Some(count));
      return Result.Ok(TRANSFER);
    }

    method Reset()
      modifies this
      ensures Ok() && words == [] && frames == [] && transfer == [] && pending == None
    {
      words, frames, transfer, pending := [], [], [], None;
    }
  }

  lemma RelocatedNone(packet: seq<nat>, base: nat)
    ensures Relocated(packet, base, 0) == packet
  {
  }

  lemma RelocatedStep(packet: seq<nat>, base: nat, i: nat)
    requires i < 2 * |packet|
    ensures var before := Relocated(packet, base, i);
      Relocated(packet, base, i + 1) ==
        before[i / 2 := WithHalf(before[i / 2], i % 2, Moved(Half(before[i / 2], i % 2), base))]
  {
    hide Half, WithHalf;
  }

  lemma SameHalf(w: nat, k: nat)
    requires k < 2
    ensures WithHalf(w, k, Half(w, k)) == w
  {
  }

  lemma PendingShape(s: State)
    requires Valid(s)
    ensures s.pending.None? ==> s.transfer == []
    ensures s.pending.Some? ==> s.pending.value <= 2 * |s.transfer|
  {
  }
}
