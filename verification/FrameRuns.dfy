/** Runs of the function-local scratch: whatever is called, left, handed on or
    written, in whatever order and with whatever failures, frames further down do
    not change. */
module FrameRuns {
  import opened Wrappers
  import opened FrameScratch

  /** A reference or a size of the target. */
  type Short = n: nat | n < 0x1_0000_0000

  type Long = n: nat | n < 0x1_0000_0000_0000_0000

  /** One thing that happens to the stack. `room` is whether the allocator grants
      what is asked for. */
  datatype Operation =
    | Entering(bytes: Short, args: Short, room: bool)
    | Leaving
    | HandingOff(packet: Short, bytes: Short, count: Short, room: bool)
    | Writing(at: nat, word: Long)

  /** A write reaches the newest frame only, and nothing is written between a
      hand-off and its adoption. */
  function Written(s: State, at: nat, word: Long): FrameScratch.Result<State> {
    if s.pending.None? && s.frames != [] && s.frames[|s.frames| - 1] <= at < |s.words| then
      Ok(s.(words := s.words[at := word]))
    else Err(OutsideFrame)
  }

  function Answer(s: State, op: Operation): FrameScratch.Result<State>
    requires Valid(s)
  {
    match op
    case Entering(bytes, args, room) => if room then Enter(s, bytes, args) else Err(Exhausted)
    case Leaving => Leave(s)
    case HandingOff(packet, bytes, count, room) => if room then Tail(s, packet, bytes, count) else Err(Exhausted)
    case Writing(at, word) => Written(s, at, word)
  }

  lemma AnswerValid(s: State, op: Operation)
    requires Valid(s) && Answer(s, op).Ok?
    ensures Valid(Answer(s, op).value)
  {
    match op
    case Entering(bytes, args, _) => EnterValid(s, bytes, args);
    case Leaving => LeaveValid(s);
    case HandingOff(packet, bytes, count, _) => TailValid(s, packet, bytes, count);
    case Writing(at, word) =>
  }

  /** A failed operation changes nothing. */
  function After(s: State, op: Operation): (t: State)
    requires Valid(s)
    ensures Valid(t) && (Answer(s, op).Err? ==> t == s)
  {
    if Answer(s, op).Ok? then
      AnswerValid(s, op);
      Answer(s, op).value
    else s
  }

  function Run(s: State, ops: seq<Operation>): (t: State)
    requires Valid(s)
    ensures Valid(t)
    decreases |ops|
  {
    if ops == [] then s else After(Run(s, ops[..|ops| - 1]), ops[|ops| - 1])
  }

  /** Frames in use, counting the one that a packet in transfer will become. */
  function Height(s: State): nat {
    |s.frames| + if s.pending.Some? then 1 else 0
  }

  /** The run never goes below `d` frames. */
  ghost predicate Keeps(s: State, ops: seq<Operation>, d: nat)
    requires Valid(s)
  {
    forall k :: 0 <= k <= |ops| ==> Height(Run(s, ops[..k])) >= d
  }

  /** All but the newest of `d` frames are as they were; the newest one starts
      where it started, if only once the packet in transfer has been adopted. */
  ghost predicate Below(s: State, d: nat, t: State)
    requires 0 < d <= |s.frames|
  {
    var base := s.frames[d - 1];
    && base <= |s.words| && base <= |t.words| && t.words[..base] == s.words[..base]
    && d - 1 <= |t.frames| && t.frames[..d - 1] == s.frames[..d - 1]
    && (if |t.frames| >= d then t.frames[d - 1] == base else |t.words| == base)
  }

  lemma BelowStep(s: State, d: nat, t: State, op: Operation)
    requires 0 < d <= |s.frames| && Valid(t) && Below(s, d, t) && Height(t) >= d && Height(After(t, op)) >= d
    ensures Below(s, d, After(t, op))
  {
    match op
    case Entering(bytes, args, _) => EnterBelow(s, d, t, bytes, args);
    case Leaving => if Answer(t, op).Ok? { DropBelow(s, d, t); }
    case HandingOff(packet, bytes, count, _) => if Answer(t, op).Ok? { DropBelow(s, d, t); }
    case Writing(at, word) => WriteBelow(s, d, t, at, word);
  }

  lemma EnterBelow(s: State, d: nat, t: State, bytes: Short, args: Short)
    requires 0 < d <= |s.frames| && Valid(t) && Below(s, d, t) && Height(t) >= d
    ensures Enter(t, bytes, args).Ok? ==> Below(s, d, Enter(t, bytes, args).value)
  {
    hide Valid, Sound, Frame;
    var u := Entered(t, bytes, args);
    var base := s.frames[d - 1];
    assert u.words[..base] == t.words[..base];
    assert u.frames[..d - 1] == t.frames[..d - 1];
  }

  /** Leaving, or handing off: the newest frame goes with its words. */
  lemma DropBelow(s: State, d: nat, t: State)
    requires 0 < d <= |s.frames| && Valid(t) && Below(s, d, t) && |t.frames| >= d
    ensures t.frames[|t.frames| - 1] <= |t.words|
    ensures forall u: State ::
      u.frames == t.frames[..|t.frames| - 1] && u.words == t.words[..t.frames[|t.frames| - 1]] ==> Below(s, d, u)
  {
    var n := |t.frames| - 1;
    var base := s.frames[d - 1];
    LastFrame(t);
    assert base <= t.frames[n];
    assert t.words[..t.frames[n]][..base] == t.words[..base];
    assert t.frames[..n][..d - 1] == t.frames[..d - 1];
  }

  lemma WriteBelow(s: State, d: nat, t: State, at: nat, word: Long)
    requires 0 < d <= |s.frames| && Valid(t) && Below(s, d, t) && Height(t) >= d
    ensures Written(t, at, word).Ok? ==> Below(s, d, Written(t, at, word).value)
  {
    if Written(t, at, word).Ok? {
      var base := s.frames[d - 1];
      assert base <= t.frames[|t.frames| - 1];
      assert t.words[at := word][..base] == t.words[..base];
    }
  }

  /** Over any run that keeps `d` frames, calls, returns, tail calls, writes and
      failures in any order: the frames below the `d`th and all their words are as
      they were, and the `d`th still starts where it did. */
  lemma {:induction false} RunKeeps(s: State, ops: seq<Operation>, d: nat)
    requires Valid(s) && 0 < d <= |s.frames| && Keeps(s, ops, d)
    ensures Below(s, d, Run(s, ops))
    decreases |ops|
  {
    hide After, Below, Valid;
    if ops == [] {
      BelowSelf(s, d);
    } else {
      var n := |ops| - 1;
      var front := ops[..n];
      KeepsFront(s, ops, d);
      RunKeeps(s, front, d);
      assert ops[..n + 1] == ops;
      BelowStep(s, d, Run(s, front), ops[n]);
    }
  }

  lemma BelowSelf(s: State, d: nat)
    requires Valid(s) && 0 < d <= |s.frames|
    ensures Below(s, d, s)
  {
  }

  lemma KeepsFront(s: State, ops: seq<Operation>, d: nat)
    requires Valid(s) && ops != [] && Keeps(s, ops, d)
    ensures Keeps(s, ops[..|ops| - 1], d)
    ensures Height(Run(s, ops[..|ops| - 1])) >= d && Height(Run(s, ops)) >= d
  {
    hide Run, Valid, Height;
    var n := |ops| - 1;
    forall k | 0 <= k <= n
      ensures Height(Run(s, ops[..n][..k])) >= d
    {
      assert ops[..n][..k] == ops[..k];
    }
    assert ops[..n + 1] == ops;
  }

  /** A call, anything its callee does, and its return: the caller finds its frames
      and every one of its words as it left them. */
  lemma CallRestores(s: State, bytes: Short, args: Short, ops: seq<Operation>)
    requires Valid(s) && Enter(s, bytes, args).Ok?
    requires Keeps(After(s, Entering(bytes, args, true)), ops, |s.frames| + 1)
    requires var u := Run(After(s, Entering(bytes, args, true)), ops); |u.frames| == |s.frames| + 1 && u.pending.None?
    ensures Leave(Run(After(s, Entering(bytes, args, true)), ops)) == Ok(State(s.words, s.frames, [], None))
  {
    hide Valid, Run, Keeps;
    var t := After(s, Entering(bytes, args, true));
    var u := Run(t, ops);
    RunKeeps(t, ops, |t.frames|);
    assert t.words[..|s.words|] == s.words && t.frames[..|s.frames|] == s.frames;
    PendingShape(u);
  }

  // ----- tail calls -----------------------------------------------------------

  /** What a function does before it hands over, and the hand-over itself. */
  datatype Turn = Turn(ops: seq<Operation>, call: Call)

  /** A function that calls, returns from and tail-calls others as it likes, and in
      the end hands over to the next. */
  ghost predicate Turned(s: State, turn: Turn, t: State)
    requires Valid(s)
  {
    var w := Run(s, turn.ops);
    && s.frames != [] && Keeps(s, turn.ops, |s.frames|) && |w.frames| == |s.frames|
    && Jump(w, turn.call) == Ok(t) && Valid(t)
  }

  ghost predicate Chain(s: State, turns: seq<Turn>, t: State)
    requires Valid(s)
    decreases |turns|
  {
    if turns == [] then t == s
    else exists u :: Valid(u) && Turned(s, turns[0], u) && Chain(u, turns[1..], t)
  }

  /** However many functions hand over to one another, and whatever they call on
      the way: frames below stay as they were, and the stack is as high as the last
      hand-over makes it. */
  lemma {:induction false} ChainReuse(s: State, turns: seq<Turn>, t: State)
    requires Valid(s) && turns != [] && Chain(s, turns, t)
    ensures s.frames != []
    ensures var base, last := s.frames[|s.frames| - 1], turns[|turns| - 1].call;
      && base <= |t.words| && base <= |s.words| && t.words[..base] == s.words[..base] && t.frames == s.frames
      && |t.words| == base + last.bytes / 8 + 1 + Words(last.locals)
    decreases |turns|
  {
    hide Valid, Turned;
    var u :| Valid(u) && Turned(s, turns[0], u) && Chain(u, turns[1..], t);
    TurnReuse(s, turns[0], u);
    if |turns| > 1 {
      ChainReuse(u, turns[1..], t);
    } else {
      assert turns[1..] == [];
    }
  }

  lemma TurnReuse(s: State, turn: Turn, t: State)
    requires Valid(s) && Turned(s, turn, t)
    ensures s.frames != []
    ensures var base := s.frames[|s.frames| - 1];
      && base <= |t.words| && base <= |s.words| && t.words[..base] == s.words[..base] && t.frames == s.frames
      && |t.words| == base + turn.call.bytes / 8 + 1 + Words(turn.call.locals)
  {
    hide Valid, Jump, Run, Keeps, Words;
    var w := Run(s, turn.ops);
    RunKeeps(s, turn.ops, |s.frames|);
    var n := |s.frames| - 1;
    assert w.frames == w.frames[..n] + [w.frames[n]] && s.frames == s.frames[..n] + [s.frames[n]];
    JumpReuse(w, turn.call);
  }
}
