/** Which captures take part in every match of a regex (regex_contract.rs), and the
    check of a record's fields against them. */
module RegexContract {
  import opened Wrappers

  /** The regex tree. A leaf is a literal or a class: the words it accepts. */
  datatype Hir =
    | Empty
    | Leaf(words: set<string>)
    | Look
    | Capture(name: Option<string>, sub: Hir)
    | Concat(items: seq<Hir>)
    | Alternation(items: seq<Hir>)
    | Repetition(min: nat, max: Option<nat>, sub: Hir)

  // ----- match semantics --------------------------------------------------------------

  /** A way in which a tree matches. */
  datatype Match =
    | Nothing
    | Word(word: string)
    | Group(inner: Match)
    | All(parts: seq<Match>)
    | Branch(index: nat, chosen: Match)
    | Times(rounds: seq<Match>)

  /** `m` is a match of `h`. A look-around may hold anywhere. */
  predicate Matches(h: Hir, m: Match)
    decreases m, h
  {
    match h
    case Empty => m == Nothing
    case Look => m == Nothing
    case Leaf(words) => m.Word? && m.word in words
    case Capture(_, sub) => m.Group? && Matches(sub, m.inner)
    case Concat(items) => m.All? && |m.parts| == |items| && forall i :: 0 <= i < |items| ==>
      Matches(items[i], m.parts[i])
    case Alternation(items) => m.Branch? && m.index < |items| && Matches(items[m.index], m.chosen)
    case Repetition(min, max, sub) =>
      && m.Times? && min <= |m.rounds| && (max.Some? ==> |m.rounds| <= max.value)
      && forall i :: 0 <= i < |m.rounds| ==> Matches(sub, m.rounds[i])
  }

  /** Names of the captures that took part. A capture in a repetition keeps what an
      earlier round gave it. */
  function Captured(h: Hir, m: Match): set<string>
    requires Matches(h, m)
    decreases m, h
  {
    match h
    case Capture(name, sub) => Captured(sub, m.inner) + (if name.Some? then {name.value} else {})
    case Concat(items) => set i, n | 0 <= i < |items| && n in Captured(items[i], m.parts[i]) :: n
    case Alternation(items) => Captured(items[m.index], m.chosen)
    case Repetition(_, _, sub) => set i, n | 0 <= i < |m.rounds| && n in Captured(sub, m.rounds[i]) :: n
    case _ => {}
  }

  // ----- the analysis -------------------------------------------------------------------

  function Required(h: Hir): set<string> {
    match h
    case Capture(name, sub) => Required(sub) + (if name.Some? then {name.value} else {})
    case Concat(items) => RequiredByAll(items)
    case Alternation(items) => if items == [] then {} else RequiredByEach(items)
    case Repetition(min, _, sub) => if min != 0 then Required(sub) else {}
    case _ => {}
  }

  function RequiredByAll(items: seq<Hir>): set<string> {
    if items == [] then {} else Required(items[0]) + RequiredByAll(items[1..])
  }

  function RequiredByEach(items: seq<Hir>): set<string>
    requires items != []
  {
    var n := |items| - 1;
    if n == 0 then Required(items[0]) else RequiredByEach(items[..n]) * Required(items[n])
  }

  lemma {:induction false} RequiredByAllMeans(items: seq<Hir>, n: string)
    ensures n in RequiredByAll(items) <==> exists i :: 0 <= i < |items| && n in Required(items[i])
    decreases |items|
  {
    if items != [] {
      RequiredByAllMeans(items[1..], n);
      if i :| 0 <= i < |items| && n in Required(items[i]) {
        assert i > 0 ==> items[1..][i - 1] == items[i];
      }
      if n in RequiredByAll(items[1..]) {
        var i :| 0 <= i < |items[1..]| && n in Required(items[1..][i]);
        assert items[i + 1] == items[1..][i];
      }
    }
  }

  lemma {:induction false} RequiredByEachMeans(items: seq<Hir>, n: string)
    requires items != []
    ensures n in RequiredByEach(items) <==> forall i :: 0 <= i < |items| ==> n in Required(items[i])
    decreases |items|
  {
    var k := |items| - 1;
    if k > 0 {
      RequiredByEachMeans(items[..k], n);
      assert forall i :: 0 <= i < k ==> items[..k][i] == items[i];
      if n in RequiredByEach(items) {
        forall i | 0 <= i < |items|
          ensures n in Required(items[i])
        {
          assert i < k ==> items[..k][i] == items[i];
        }
      }
    }
  }

  /** Every match captures every required name. */
  lemma {:induction false} RequiredCaptured(h: Hir, m: Match, n: string)
    requires Matches(h, m) && n in Required(h)
    ensures n in Captured(h, m)
    decreases m, h
  {
    match h
    case Capture(name, sub) =>
      if n in Required(sub) { RequiredCaptured(sub, m.inner, n); }
    case Concat(items) =>
      RequiredByAllMeans(items, n);
      var i :| 0 <= i < |items| && n in Required(items[i]);
      RequiredCaptured(items[i], m.parts[i], n);
    case Alternation(items) =>
      RequiredByEachMeans(items, n);
      RequiredCaptured(items[m.index], m.chosen, n);
    case Repetition(_, _, sub) =>
      RequiredCaptured(sub, m.rounds[0], n);
      assert n in Captured(sub, m.rounds[0]);
    case _ =>
  }

  predicate NoLook(h: Hir) {
    match h
    case Look => false
    case Capture(_, sub) => NoLook(sub)
    case Concat(items) => forall i :: 0 <= i < |items| ==> NoLook(items[i])
    case Alternation(items) => forall i :: 0 <= i < |items| ==> NoLook(items[i])
    case Repetition(_, _, sub) => NoLook(sub)
    case _ => true
  }

  /** Something matches the tree. */
  predicate Live(h: Hir) {
    match h
    case Leaf(words) => words != {}
    case Capture(_, sub) => Live(sub)
    case Concat(items) => forall i :: 0 <= i < |items| ==> Live(items[i])
    case Alternation(items) => exists i :: 0 <= i < |items| && Live(items[i])
    case Repetition(min, max, sub) => (max.Some? ==> min <= max.value) && (min == 0 || Live(sub))
    case _ => true
  }

  /** The name is required once alternatives that nothing matches are left out. */
  predicate Certain(h: Hir, n: string) {
    match h
    case Capture(name, sub) => name == Some(n) || Certain(sub, n)
    case Concat(items) => exists i :: 0 <= i < |items| && Certain(items[i], n)
    case Alternation(items) => forall i :: 0 <= i < |items| && Live(items[i]) ==> Certain(items[i], n)
    case Repetition(min, _, sub) => min != 0 && Certain(sub, n)
    case _ => false
  }

  function Names(h: Hir): set<string> {
    match h
    case Capture(name, sub) => Names(sub) + (if name.Some? then {name.value} else {})
    case Concat(items) => set i, n | 0 <= i < |items| && n in Names(items[i]) :: n
    case Alternation(items) => set i, n | 0 <= i < |items| && n in Names(items[i]) :: n
    case Repetition(_, _, sub) => Names(sub)
    case _ => {}
  }

  /** Every leaf accepts something, there is no look-around, and bounds are in
      order. */
  predicate Matchable(h: Hir) {
    match h
    case Empty => true
    case Look => false
    case Leaf(words) => words != {}
    case Capture(_, sub) => Matchable(sub)
    case Concat(items) => forall i :: 0 <= i < |items| ==> Matchable(items[i])
    case Alternation(items) => items != [] && forall i :: 0 <= i < |items| ==> Matchable(items[i])
    case Repetition(min, max, sub) => Matchable(sub) && (max.Some? ==> min <= max.value)
  }

  ghost predicate Misses(h: Hir, n: string) {
    exists m :: Matches(h, m) && n !in Captured(h, m)
  }

  ghost function MissOf(h: Hir, n: string): (m: Match)
    requires Misses(h, n)
    ensures Matches(h, m) && n !in Captured(h, m)
  {
    var m :| Matches(h, m) && n !in Captured(h, m); m
  }

  lemma {:induction false} MatchesLive(h: Hir, m: Match)
    requires Matches(h, m)
    ensures Live(h)
    decreases m, h
  {
    match h
    case Capture(_, sub) => MatchesLive(sub, m.inner);
    case Concat(items) =>
      forall i | 0 <= i < |items|
        ensures Live(items[i])
      {
        MatchesLive(items[i], m.parts[i]);
      }
    case Alternation(items) => MatchesLive(items[m.index], m.chosen);
    case Repetition(min, _, sub) => if min != 0 { MatchesLive(sub, m.rounds[0]); }
    case _ =>
  }

  lemma {:induction false} CertainCaptured(h: Hir, m: Match, n: string)
    requires Matches(h, m) && Certain(h, n)
    ensures n in Captured(h, m)
    decreases m, h
  {
    match h
    case Capture(name, sub) =>
      if Certain(sub, n) { CertainCaptured(sub, m.inner, n); }
    case Concat(items) =>
      var i :| 0 <= i < |items| && Certain(items[i], n);
      CertainCaptured(items[i], m.parts[i], n);
    case Alternation(items) =>
      MatchesLive(items[m.index], m.chosen);
      CertainCaptured(items[m.index], m.chosen, n);
    case Repetition(_, _, sub) =>
      CertainCaptured(sub, m.rounds[0], n);
      assert n in Captured(sub, m.rounds[0]);
    case _ =>
  }

  /** Where something matches, any other name is absent from some match. */
  lemma {:induction false} UncertainMissed(h: Hir, n: string)
    requires Live(h) && !Certain(h, n)
    ensures Misses(h, n)
    decreases h
  {
    var m: Match;
    match h {
      case Empty =>
        m := Nothing;
      case Look =>
        m := Nothing;
      case Leaf(words) =>
        var w :| w in words;
        m := Word(w);
      case Capture(name, sub) =>
        UncertainMissed(sub, n);
        m := Group(MissOf(sub, n));
      case Concat(items) =>
        forall i | 0 <= i < |items|
          ensures Misses(items[i], n)
        {
          UncertainMissed(items[i], n);
        }
        m := All(seq(|items|, i requires 0 <= i < |items| => MissOf(items[i], n)));
      case Alternation(items) =>
        var i :| 0 <= i < |items| && Live(items[i]) && !Certain(items[i], n);
        UncertainMissed(items[i], n);
        m := Branch(i, MissOf(items[i], n));
      case Repetition(min, max, sub) =>
        if min == 0 {
          m := Times([]);
        } else {
          UncertainMissed(sub, n);
          m := Times(seq(min, i => MissOf(sub, n)));
        }
    }
    assert Matches(h, m);
    assert n !in Captured(h, m);
  }

  lemma {:induction false} CertainNamed(h: Hir, n: string)
    requires Live(h) && Certain(h, n)
    ensures n in Names(h)
    decreases h
  {
    match h
    case Capture(name, sub) => if name != Some(n) { CertainNamed(sub, n); }
    case Concat(items) =>
      var i :| 0 <= i < |items| && Certain(items[i], n);
      CertainNamed(items[i], n);
    case Alternation(items) =>
      var i :| 0 <= i < |items| && Live(items[i]);
      CertainNamed(items[i], n);
    case Repetition(_, _, sub) => CertainNamed(sub, n);
    case _ =>
  }

  lemma {:induction false} LongerThanAll(s: set<string>) returns (n: string)
    ensures forall x :: x in s ==> |x| < |n|
    decreases |s|
  {
    if s == {} {
      n := "";
    } else {
      var x :| x in s;
      var rest := LongerThanAll(s - {x});
      n := rest + x + " ";
      assert forall y :: y in s ==> y == x || y in s - {x};
    }
  }

  /** Every match captures the name. */
  ghost predicate Always(h: Hir, n: string) {
    forall m :: Matches(h, m) ==> n in Captured(h, m)
  }

  /** The analysis says of every name whether each match captures it. */
  ghost predicate Exact(h: Hir) {
    forall n :: n in Required(h) <==> Always(h, n)
  }

  /** Leaving out alternatives that nothing matches makes no name required that is
      not required anyway. */
  predicate NoneOverlooked(h: Hir) {
    forall n :: n in Names(h) && Certain(h, n) ==> n in Required(h)
  }

  lemma CertainExactly(h: Hir, n: string)
    requires Live(h)
    ensures Certain(h, n) <==> Always(h, n)
  {
    if Certain(h, n) {
      forall m | Matches(h, m)
        ensures n in Captured(h, m)
      {
        CertainCaptured(h, m, n);
      }
    } else {
      UncertainMissed(h, n);
      var m := MissOf(h, n);
      assert Matches(h, m) && n !in Captured(h, m);
    }
  }

  lemma RequiredCertain(h: Hir, n: string)
    requires Live(h) && n in Required(h)
    ensures Certain(h, n)
  {
    forall m | Matches(h, m)
      ensures n in Captured(h, m)
    {
      RequiredCaptured(h, m, n);
    }
    CertainExactly(h, n);
  }

  lemma NotAlwaysLive(h: Hir, n: string)
    requires !Always(h, n)
    ensures Live(h)
  {
    var m :| Matches(h, m) && n !in Captured(h, m);
    MatchesLive(h, m);
  }

  /** When the analysis is exact: exactly when something matches and it overlooks
      nothing. */
  lemma ExactWhen(h: Hir)
    requires NoLook(h)
    ensures Exact(h) <==> Live(h) && NoneOverlooked(h)
  {
    if Live(h) {
      if Exact(h) {
        forall n | n in Names(h) && Certain(h, n)
          ensures n in Required(h)
        {
          CertainExactly(h, n);
        }
      }
      if NoneOverlooked(h) {
        forall n
          ensures n in Required(h) <==> Always(h, n)
        {
          if n in Required(h) { RequiredCertain(h, n); }
          CertainExactly(h, n);
          if Certain(h, n) { CertainNamed(h, n); }
        }
      }
    } else {
      var n := LongerThanAll(Required(h));
      assert n !in Required(h);
      if !Always(h, n) { NotAlwaysLive(h, n); }
      assert !Exact(h);
    }
  }

  lemma {:induction false} MatchableCertain(h: Hir, n: string)
    requires Matchable(h)
    ensures Live(h) && (Certain(h, n) <==> n in Required(h))
    decreases h
  {
    match h
    case Capture(_, sub) => MatchableCertain(sub, n);
    case Concat(items) =>
      RequiredByAllMeans(items, n);
      forall i | 0 <= i < |items|
        ensures Live(items[i]) && (Certain(items[i], n) <==> n in Required(items[i]))
      {
        MatchableCertain(items[i], n);
      }
    case Alternation(items) =>
      RequiredByEachMeans(items, n);
      forall i | 0 <= i < |items|
        ensures Live(items[i]) && (Certain(items[i], n) <==> n in Required(items[i]))
      {
        MatchableCertain(items[i], n);
      }
      assert Live(items[0]);
    case Repetition(_, _, sub) => MatchableCertain(sub, n);
    case _ =>
  }

  /** Any other name is absent from some match. */
  lemma OthersMissed(h: Hir, n: string)
    requires Matchable(h) && n !in Required(h)
    ensures Misses(h, n)
  {
    MatchableCertain(h, n);
    UncertainMissed(h, n);
  }

  /** The analysis is exact: a name is required if and only if every match captures
      it. */
  lemma RequiredExact(h: Hir, n: string)
    requires Matchable(h)
    ensures n in Required(h) <==> Always(h, n)
  {
    if n in Required(h) {
      forall m | Matches(h, m)
        ensures n in Captured(h, m)
      {
        RequiredCaptured(h, m, n);
      }
    } else {
      OthersMissed(h, n);
      assert exists m :: Matches(h, m) && n !in Captured(h, m);
    }
  }

  /** With an alternative that nothing matches, a name can be captured by every
      match and still not be required. */
  lemma NotExactUnmatchable(n: string)
    ensures var h := Alternation([Leaf({}), Capture(Some(n), Empty)]);
      !Matchable(h) && n !in Required(h) && Always(h, n)
  {
    var never, named := Leaf({}), Capture(Some(n), Empty);
    var h := Alternation([never, named]);
    assert !Matchable([never, named][0]) && Required([never, named][0]) == {};
    RequiredByEachMeans([never, named], n);
    forall m | Matches(h, m)
      ensures n in Captured(h, m)
    {
      assert !Matches(never, m.chosen);
      assert h.items[m.index] == if m.index == 0 then never else named;
      assert n in Captured(named, m.chosen);
    }
  }

  // ----- the field check ----------------------------------------------------------------

  datatype Field = Field(name: string, optional: bool, parsable: bool)

  datatype Verdict =
    | Accepted
    | NamesDiffer(missing: set<string>, extra: set<string>)
    | NotParsable(name: string)
    | WrongPresence(name: string)

  function FieldNames(fields: seq<Field>): set<string> {
    set f | f in fields :: f.name
  }

  predicate Agrees(f: Field, required: set<string>) {
    f.parsable && (f.optional <==> f.name !in required)
  }

  /** Field `i` is the first that does not agree, and the verdict says why. */
  predicate Blamed(fields: seq<Field>, required: set<string>, v: Verdict, i: nat)
    requires v.NotParsable? || v.WrongPresence?
  {
    && i < |fields| && fields[i].name == v.name && !Agrees(fields[i], required)
    && (v.NotParsable? <==> !fields[i].parsable)
    && forall k :: 0 <= k < i ==> Agrees(fields[k], required)
  }

  /** The first field that does not agree decides. */
  method Validate(captures: set<string>, required: set<string>, fields: seq<Field>) returns (v: Verdict)
    ensures v.Accepted? <==> FieldNames(fields) == captures && forall f :: f in fields ==> Agrees(f, required)
    ensures v.NamesDiffer? <==> FieldNames(fields) != captures
    ensures v.NamesDiffer? ==> v.missing == FieldNames(fields) - captures && v.extra == captures - FieldNames(fields)
    ensures v.NotParsable? || v.WrongPresence? ==> exists i :: 0 <= i < |fields| && Blamed(fields, required, v, i)
  {
    var expected := FieldNames(fields);
    if expected != captures {
      return NamesDiffer(expected - captures, captures - expected);
    }
    for i := 0 to |fields|
      invariant forall k :: 0 <= k < i ==> Agrees(fields[k], required)
    {
      var f := fields[i];
      if !f.parsable {
        assert Blamed(fields, required, NotParsable(f.name), i);
        return NotParsable(f.name);
      }
      if f.optional == (f.name in required) {
        assert Blamed(fields, required, WrongPresence(f.name), i);
        return WrongPresence(f.name);
      }
    }
    return Accepted;
  }

  /** What an accepted record can rely on: a field that is not optional is captured
      by every match, and an optional one is missing from some. */
  lemma AcceptedFields(h: Hir, fields: seq<Field>, f: Field)
    requires Matchable(h) && f in fields && Agrees(f, Required(h))
    ensures !f.optional ==> Always(h, f.name)
    ensures f.optional ==> Misses(h, f.name)
  {
    RequiredExact(h, f.name);
  }
}
