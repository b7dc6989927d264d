/** What a new frame holds and when an operation on the scratch succeeds, said in
    words and bytes of the stack alone. */
module FrameContents {
  import opened Wrappers
  import opened FrameScratch

  /** The fewest words that hold `bytes`. */
  predicate Covering(words: nat, bytes: nat) {
    8 * words >= bytes && (words > 0 ==> 8 * (words - 1) < bytes)
  }

  /** Words `from` to `to` are zero. */
  predicate Blank(words: seq<nat>, from: nat, to: nat)
    requires to <= |words|
  {
    forall k :: from <= k < to ==> words[k] == 0
  }

  /** Reference `i` of a packet that starts at word `start`: two to a word, the low
      half first. */
  function ReferenceAt(words: seq<nat>, start: nat, i: nat): nat
    requires start + i / 2 < |words|
  {
    if i % 2 == 0 then words[start + i / 2] % 0x1_0000_0000 else words[start + i / 2] / 0x1_0000_0000
  }

  predicate SameWord(now: seq<nat>, base: nat, was: seq<nat>, from: nat, k: nat)
    requires base + k < |now| && from + k < |was|
  {
    now[base + k] == was[from + k]
  }

  /** Reference `i` of a packet that was at `from` and is at `base` now: one to the
      packet itself points at where it is now. */
  predicate SameReference(now: seq<nat>, base: nat, was: seq<nat>, from: nat, i: nat)
    requires base + i / 2 < |now| && from + i / 2 < |was|
  {
    var before := ReferenceAt(was, from, i);
    ReferenceAt(now, base, i) ==
      if before < 0xc000_0000 then before else before - 0xc000_0000 + 0x8000_0000 + 8 * base
  }

  // ----- success -------------------------------------------------------------------

  /** Entering succeeds exactly if a packet is adopted when one is pending and only
      then, none of its references points beyond it, and the new frame leaves room in
      the namespace. */
  lemma EnterExactly(s: State, bytes: nat, args: nat, size: nat)
    requires Valid(s) && Covering(size, bytes)
    ensures Enter(s, bytes, args).Ok? <==>
      && (args == 0xc000_0000 <==> s.pending.Some?)
      && (s.pending.Some? ==> forall i: nat :: i < s.pending.value ==>
            ReferenceAt(s.transfer, 0, i) < 0xc000_0000 + 8 * |s.transfer|)
      && |s.words| + |s.transfer| + 1 + size < 0x800_0000
  {
    hide Valid, Entered;
    PendingShape(s);
    assert Words(bytes) == size;
    if s.pending.Some? {
      PendingWithin(s);
      forall i: nat | i < s.pending.value
        ensures ReferenceAt(s.transfer, 0, i) == Reference(s.transfer, i)
        ensures Dangling(s, i) <==> ReferenceAt(s.transfer, 0, i) >= 0xc000_0000 + 8 * |s.transfer|
      {
      }
    }
  }

  lemma PendingWithin(s: State)
    requires Valid(s) && s.pending.Some?
    ensures s.pending.value <= 2 * |s.transfer|
  {
  }

  /** A packet is handed off exactly if none is pending, there is a frame, and it is
      whole words of the newest frame with room for its references. */
  lemma TailExactly(s: State, packet: nat, bytes: nat, count: nat)
    requires Valid(s)
    ensures Tail(s, packet, bytes, count).Ok? <==>
      && s.pending.None? && s.frames != []
      && 0x8000_0000 <= packet < 0xc000_0000 && packet % 8 == 0 && bytes % 8 == 0 && 4 * count <= bytes
      && 8 * s.frames[|s.frames| - 1] <= packet - 0x8000_0000
      && packet - 0x8000_0000 + bytes <= 8 * |s.words|
  {
    hide Valid;
    if s.frames != [] { LastFrameWithin(s); }
  }

  lemma LastFrameWithin(s: State)
    requires Valid(s) && s.frames != []
    ensures s.frames[|s.frames| - 1] < |s.words|
  {
  }

  // ----- frames ----------------------------------------------------------------------

  /** A call: the stack there was, then the argument word, then zeroed locals, in as
      few words as hold them. */
  lemma CallFrame(s: State, bytes: nat, args: nat)
    requires Valid(s) && s.pending.None? && Enter(s, bytes, args).Ok?
    ensures var t, base := Enter(s, bytes, args).value, |s.words|;
      && base < |t.words| && t.words[..base] == s.words && t.words[base] == args
      && Covering(|t.words| - base - 1, bytes) && Blank(t.words, base + 1, |t.words|)
      && t.frames == s.frames + [base] && t.pending == None && t.transfer == []
  {
    hide Valid, Sound;
  }

  /** A tail call: where the frame was stands the packet that was handed over, then a
      word that points at it, then zeroed locals. Its references to itself point at
      where it is now, all other words of it are as they were. */
  lemma TailFrame(s: State, packet: nat, bytes: nat, count: nat, locals: nat)
    requires Valid(s) && Tail(s, packet, bytes, count).Ok?
    requires Valid(Tail(s, packet, bytes, count).value)
    requires Enter(Tail(s, packet, bytes, count).value, locals, TRANSFER).Ok?
    ensures s.frames != [] && packet >= 0x8000_0000
    ensures var t := Enter(Tail(s, packet, bytes, count).value, locals, TRANSFER).value;
      var base, size, from := s.frames[|s.frames| - 1], bytes / 8, (packet - 0x8000_0000) / 8;
      && from + size <= |s.words| && base + size < |t.words| && 4 * count <= bytes
      && t.words[..base] == s.words[..base] && t.frames == s.frames && t.pending == None
      && t.words[base + size] == 0x8000_0000 + 8 * base
      && Covering(|t.words| - base - size - 1, locals) && Blank(t.words, base + size + 1, |t.words|)
      && (forall k :: (count + 1) / 2 <= k < size ==> SameWord(t.words, base, s.words, from, k))
      && (forall i: nat :: i < count ==> SameReference(t.words, base, s.words, from, i))
  {
    hide Valid, Sound, Enter, Tail;
    var u := Tail(s, packet, bytes, count).value;
    HandedOver(s, packet, bytes, count);
    AdoptedWords(u, locals);
    AdoptedPacket(u, locals);
    TailReuse(s, packet, bytes, count, locals);
    var t, base, from := Enter(u, locals, TRANSFER).value, |u.words|, (packet - 0x8000_0000) / 8;
    PacketArrived(Relocated(u.transfer, base, count), u.transfer, t.words, base, s.words, from, count);
  }

  /** Relocated references and all other words of a packet, as they lie in the stack. */
  lemma PacketArrived(adopted: seq<nat>, packet: seq<nat>, now: seq<nat>, base: nat, was: seq<nat>, from: nat,
                      count: nat)
    requires |adopted| == |packet| && base + |packet| <= |now| && from + |packet| <= |was| && count <= 2 * |packet|
    requires now[base..base + |packet|] == adopted && was[from..from + |packet|] == packet
    requires forall i :: 0 <= i < count ==> Reference(adopted, i) == Moved(Reference(packet, i), base)
    requires forall k :: (count + 1) / 2 <= k < |packet| ==> adopted[k] == packet[k]
    ensures forall k :: (count + 1) / 2 <= k < |packet| ==> SameWord(now, base, was, from, k)
    ensures forall i: nat :: i < count ==> SameReference(now, base, was, from, i)
  {
    forall k | 0 <= k < |packet|
      ensures adopted[k] == now[base + k] && packet[k] == was[from + k]
    {
    }
    forall i: nat | i < count
      ensures SameReference(now, base, was, from, i)
    {
      assert Reference(adopted, i) == Moved(Reference(packet, i), base);
    }
  }

  /** What a hand-off takes with it. */
  lemma HandedOver(s: State, packet: nat, bytes: nat, count: nat)
    requires Valid(s) && Tail(s, packet, bytes, count).Ok?
    ensures s.frames != [] && packet >= 0x8000_0000 && bytes % 8 == 0 && 4 * count <= bytes
    ensures var u, from := Tail(s, packet, bytes, count).value, (packet - 0x8000_0000) / 8;
      && from + bytes / 8 <= |s.words| && u.transfer == s.words[from..from + bytes / 8] && u.pending == Some(count)
      && s.frames[|s.frames| - 1] <= |s.words| && u.words == s.words[..s.frames[|s.frames| - 1]]
  {
    hide Valid;
    LastFrameWithin(s);
  }

  /** What lies behind an adopted packet. */
  lemma AdoptedWords(s: State, bytes: nat)
    requires Valid(s) && s.pending.Some? && Enter(s, bytes, TRANSFER).Ok?
    ensures var t, end := Enter(s, bytes, TRANSFER).value, |s.words| + |s.transfer|;
      && end < |t.words| && t.words[end] == 0x8000_0000 + 8 * |s.words|
      && Covering(|t.words| - end - 1, bytes) && Blank(t.words, end + 1, |t.words|)
      && t.pending == None
  {
    hide Valid, Sound, Relocated;
    PendingWithin(s);
  }
}
