/** Lexical paths (path.rs): in-place normalisation against a stack of components,
    joining, parents and file names. */
module PathNormal {
  import opened Wrappers

  const SLASH := '/'

  predicate NoSlash(s: string) {
    SLASH !in s
  }

  // ----- components ----------------------------------------------------------------

  /** The pieces between slashes; there is always at least one. */
  function Split(s: string): (r: seq<string>)
    ensures |r| > 0 && forall c :: c in r ==> NoSlash(c)
  {
    if s == "" then [""]
    else
      var rest := Split(s[1..]);
      if s[0] == SLASH then [""] + rest
      else
        assert forall c :: c in rest[1..] ==> c in rest;
        assert NoSlash(rest[0]);
        [[s[0]] + rest[0]] + rest[1..]
  }

  function Join(parts: seq<string>): string {
    if parts == [] then ""
    else if |parts| == 1 then parts[0]
    else Join(parts[..|parts| - 1]) + "/" + parts[|parts| - 1]
  }

  lemma {:induction false} SplitWord(c: string)
    requires NoSlash(c)
    ensures Split(c) == [c]
  {
    if c != "" {
      assert c == [c[0]] + c[1..];
      SplitWord(c[1..]);
    }
  }

  lemma {:induction false} SplitAppend(a: string, c: string)
    requires NoSlash(c)
    ensures Split(a + "/" + c) == Split(a) + [c]
  {
    var s := a + "/" + c;
    if a == "" {
      assert s[1..] == c;
      SplitWord(c);
    } else {
      assert s[1..] == a[1..] + "/" + c;
      SplitAppend(a[1..], c);
    }
  }

  lemma {:induction false} SplitJoin(parts: seq<string>)
    requires parts != [] && forall c :: c in parts ==> NoSlash(c)
    ensures Split(Join(parts)) == parts
  {
    if |parts| == 1 {
      SplitWord(parts[0]);
    } else {
      var n := |parts| - 1;
      SplitJoin(parts[..n]);
      SplitAppend(Join(parts[..n]), parts[n]);
    }
  }

  // ----- the specification -----------------------------------------------------------

  predicate IsAbsolute(s: string) {
    s != "" && s[0] == SLASH
  }

  predicate Ignored(c: string) {
    c == "" || c == "."
  }

  /** One component on the stack: `..` takes the last one away, except from
      leading `..` of a relative path; at the root it does nothing. */
  function Push(abs: bool, stack: seq<string>, c: string): seq<string> {
    if Ignored(c) then stack
    else if c == ".." && stack != [] && stack[|stack| - 1] != ".." then stack[..|stack| - 1]
    else if c == ".." && abs then stack
    else stack + [c]
  }

  function Fold(abs: bool, parts: seq<string>): seq<string> {
    if parts == [] then [] else Push(abs, Fold(abs, parts[..|parts| - 1]), parts[|parts| - 1])
  }

  /** The text of a stack while it is being built. */
  function Text(abs: bool, stack: seq<string>): string {
    (if abs then "/" else "") + Join(stack)
  }

  function Shown(abs: bool, stack: seq<string>): string {
    if Text(abs, stack) == "" then "." else Text(abs, stack)
  }

  function Normal(s: string): string {
    Shown(IsAbsolute(s), Fold(IsAbsolute(s), Split(s)))
  }

  // ----- what normal paths look like ---------------------------------------------------

  /** No empty and no `.` component; `..` only as a leading run of a relative path. */
  predicate Canonical(abs: bool, stack: seq<string>) {
    && (forall i :: 0 <= i < |stack| ==> !Ignored(stack[i]) && NoSlash(stack[i]))
    && (forall i :: 0 <= i < |stack| && stack[i] == ".." ==> !abs && forall k :: 0 <= k < i ==> stack[k] == "..")
  }

  lemma {:induction false} FoldCanonical(abs: bool, parts: seq<string>)
    requires forall c :: c in parts ==> NoSlash(c)
    ensures Canonical(abs, Fold(abs, parts))
  {
    if parts != [] {
      var n := |parts| - 1;
      FoldCanonical(abs, parts[..n]);
      PushCanonical(abs, Fold(abs, parts[..n]), parts[n]);
    }
  }

  lemma PushCanonical(abs: bool, stack: seq<string>, c: string)
    requires Canonical(abs, stack) && NoSlash(c)
    ensures Canonical(abs, Push(abs, stack, c))
  {
  }

  lemma {:induction false} FoldFixed(abs: bool, stack: seq<string>)
    requires Canonical(abs, stack)
    ensures Fold(abs, stack) == stack
  {
    hide Canonical, Push;
    if stack != [] {
      FrontCanonical(abs, stack);
      FoldFixed(abs, stack[..|stack| - 1]);
      PushFixed(abs, stack);
    }
  }

  lemma FrontCanonical(abs: bool, stack: seq<string>)
    requires Canonical(abs, stack) && stack != []
    ensures Canonical(abs, stack[..|stack| - 1])
  {
  }

  lemma PushFixed(abs: bool, stack: seq<string>)
    requires Canonical(abs, stack) && stack != []
    ensures Push(abs, stack[..|stack| - 1], stack[|stack| - 1]) == stack
  {
    var n := |stack| - 1;
    assert stack == stack[..n] + [stack[n]];
    assert stack[n] == ".." && n > 0 ==> stack[n - 1] == "..";
  }

  lemma {:induction false} FoldConcat(abs: bool, a: seq<string>, c: string)
    ensures Fold(abs, a + [c]) == Push(abs, Fold(abs, a), c)
  {
    assert (a + [c])[..|a + [c]| - 1] == a;
  }

  /** Leading ignored pieces make no difference. */
  lemma {:induction false} FoldSkip(abs: bool, c: string, parts: seq<string>)
    requires Ignored(c)
    ensures Fold(abs, [c] + parts) == Fold(abs, parts)
  {
    var all := [c] + parts;
    if parts == [] {
      assert all == [c] && all[..0] == [];
    } else {
      var n := |parts| - 1;
      FoldSkip(abs, c, parts[..n]);
      assert all[..|all| - 1] == [c] + parts[..n];
    }
  }

  lemma {:induction false} JoinNotEmpty(parts: seq<string>)
    requires forall i :: 0 <= i < |parts| ==> parts[i] != "" && NoSlash(parts[i])
    ensures (Join(parts) == "" <==> parts == []) && !IsAbsolute(Join(parts))
  {
    if |parts| > 1 {
      JoinNotEmpty(parts[..|parts| - 1]);
      assert Join(parts)[0] == Join(parts[..|parts| - 1])[0];
    }
  }

  lemma ShownAbsolute(abs: bool, stack: seq<string>)
    requires Canonical(abs, stack)
    ensures IsAbsolute(Shown(abs, stack)) == abs
  {
    JoinNotEmpty(stack);
  }

  /** Reading a normal path gives back the stack it shows. */
  lemma SplitShown(abs: bool, stack: seq<string>)
    requires Canonical(abs, stack)
    ensures Fold(abs, Split(Shown(abs, stack))) == stack
  {
    hide Fold, Push;
    JoinNotEmpty(stack);
    FoldFixed(abs, stack);
    if stack == [] {
      EmptyStack(abs);
    } else {
      SplitJoin(stack);
      CanonicalSlashes(abs, stack);
      if abs {
        assert Shown(abs, stack)[1..] == Join(stack);
        FoldSkip(abs, "", stack);
      } else {
        assert Shown(abs, stack) == Join(stack);
      }
    }
  }

  lemma EmptyStack(abs: bool)
    ensures Fold(abs, Split(Shown(abs, []))) == []
  {
    if abs {
      assert Shown(abs, []) == "/" && "/"[1..] == "";
      assert Split("/") == ["", ""];
      FoldSkip(abs, "", [""]);
      FoldSkip(abs, "", []);
      assert [""] + [""] == ["", ""] && [""] + [] == [""];
    } else {
      assert Shown(abs, []) == ".";
      SplitWord(".");
      FoldSkip(abs, ".", []);
      assert ["."] + [] == ["."];
    }
  }

  /** Normalising twice is normalising once; an absolute path stays absolute. */
  lemma Idempotent(s: string)
    ensures Normal(Normal(s)) == Normal(s) && IsAbsolute(Normal(s)) == IsAbsolute(s)
  {
    var abs := IsAbsolute(s);
    FoldCanonical(abs, Split(s));
    ShownAbsolute(abs, Fold(abs, Split(s)));
    SplitShown(abs, Fold(abs, Split(s)));
  }

  // ----- where a path leads --------------------------------------------------------------

  /** Walking a directory tree without links: a name goes down, `..` goes up except
      at the root, empty pieces and `.` stay. */
  function Walk(dir: seq<string>, pieces: seq<string>): seq<string> {
    if pieces == [] then dir
    else
      var there := Walk(dir, pieces[..|pieces| - 1]);
      match pieces[|pieces| - 1]
      case "" => there
      case "." => there
      case ".." => if there == [] then there else there[..|there| - 1]
      case name => there + [name]
  }

  lemma {:induction false} WalkFold(abs: bool, dir: seq<string>, parts: seq<string>)
    requires (forall c :: c in parts ==> NoSlash(c)) && (abs ==> dir == [])
    ensures Walk(dir, Fold(abs, parts)) == Walk(dir, parts)
  {
    hide Canonical, Walk;
    if parts != [] {
      var n := |parts| - 1;
      var stack := Fold(abs, parts[..n]);
      WalkFold(abs, dir, parts[..n]);
      FoldCanonical(abs, parts[..n]);
      WalkLast(dir, parts);
      WalkPush(abs, dir, stack, parts[n]);
    }
  }

  lemma WalkLast(dir: seq<string>, pieces: seq<string>)
    requires pieces != []
    ensures Walk(dir, pieces) == Walk(Walk(dir, pieces[..|pieces| - 1]), [pieces[|pieces| - 1]])
  {
    var there := Walk(dir, pieces[..|pieces| - 1]);
    assert [pieces[|pieces| - 1]][..0] == [];
    assert Walk(there, []) == there;
  }

  lemma WalkPush(abs: bool, dir: seq<string>, stack: seq<string>, c: string)
    requires Canonical(abs, stack) && (abs ==> dir == [])
    ensures Walk(dir, Push(abs, stack, c)) == Walk(Walk(dir, stack), [c])
  {
    hide Canonical;
    var there := Walk(dir, stack);
    assert [c][..0] == [] && Walk(there, []) == there;
    if stack != [] {
      TopIsPlain(abs, stack);
    }
    assert (stack + [c])[..|stack|] == stack;
  }

  /** A component on top of a stack is a name or a `..` of a relative path. */
  lemma TopIsPlain(abs: bool, stack: seq<string>)
    requires Canonical(abs, stack) && stack != []
    ensures !Ignored(stack[|stack| - 1]) && (abs ==> stack[|stack| - 1] != "..")
  {
  }

  /** A normal path leads to the same place as the path, from any directory. */
  lemma SamePlace(s: string, dir: seq<string>)
    requires IsAbsolute(s) ==> dir == []
    ensures Walk(dir, Split(Normal(s))) == Walk(dir, Split(s))
  {
    hide Walk, Canonical, Shown, Push;
    var abs := IsAbsolute(s);
    var stack := Fold(abs, Split(s));
    FoldCanonical(abs, Split(s));
    SplitShown(abs, stack);
    WalkFold(abs, dir, Split(s));
    WalkFold(abs, dir, Split(Shown(abs, stack)));
  }

  // ----- normalisation in place --------------------------------------------------------

  /** Bytes the buffer needs for some pieces, a separator after each. */
  function Needed(parts: seq<string>): nat {
    if parts == [] then 0 else Needed(parts[..|parts| - 1]) + |parts[|parts| - 1]| + 1
  }

  lemma {:induction false} NeededFront(c: string, parts: seq<string>)
    ensures Needed([c] + parts) == |c| + 1 + Needed(parts)
  {
    var all := [c] + parts;
    if parts == [] {
      assert all[..0] == [];
      assert Needed(all) == Needed(all[..0]) + |c| + 1;
    } else {
      assert all[..|all| - 1] == [c] + parts[..|parts| - 1];
      NeededFront(c, parts[..|parts| - 1]);
    }
  }

  lemma {:induction false} NeededSplit(s: string)
    ensures Needed(Split(s)) == |s| + 1
  {
    if s == "" {
      assert [""][..0] == [];
      assert Needed([""]) == Needed([""][..0]) + 1;
    } else {
      var rest := Split(s[1..]);
      NeededSplit(s[1..]);
      assert rest == [rest[0]] + rest[1..];
      NeededFront(rest[0], rest[1..]);
      NeededFront("", rest);
      NeededFront([s[0]] + rest[0], rest[1..]);
    }
  }

  lemma {:induction false} NeededPrefix(parts: seq<string>, i: nat)
    requires i <= |parts|
    ensures Needed(parts[..i]) <= Needed(parts)
    decreases |parts|
  {
    if i < |parts| {
      var front := parts[..|parts| - 1];
      NeededPrefix(front, i);
      assert front[..i] == parts[..i];
    } else {
      assert parts[..i] == parts;
    }
  }

  /** Position behind the last slash. */
  method LastComponent(buffer: array<char>, length: nat) returns (start: nat)
    requires length <= buffer.Length
    ensures start <= length && NoSlash(buffer[start..length]) && (start > 0 ==> buffer[start - 1] == SLASH)
  {
    start := length;
    while start > 0 && buffer[start - 1] != SLASH
      invariant 0 <= start <= length && NoSlash(buffer[start..length])
    {
      assert buffer[start - 1..length] == [buffer[start - 1]] + buffer[start..length];
      start := start - 1;
    }
  }

  /** In the text of a canonical stack the last component is behind the last slash. */
  lemma LastInText(abs: bool, stack: seq<string>, start: nat)
    requires Canonical(abs, stack)
    requires var t := Text(abs, stack); start <= |t| && NoSlash(t[start..]) && (start > 0 ==> t[start - 1] == SLASH)
    ensures var t := Text(abs, stack);
      if stack == [] then start == |t|
      else
        && t[start..] == stack[|stack| - 1] && start < |t|
        && t[..Larger(if start > 0 then start - 1 else 0, if abs then 1 else 0)] == Text(abs, stack[..|stack| - 1])
  {
    var t := Text(abs, stack);
    if stack == [] {
      OnlySlash(t, t, "", start);
    } else {
      var n := |stack| - 1;
      var head := Text(abs, stack[..n]) + if n > 0 then "/" else "";
      FrontCanonical(abs, stack);
      JoinNotEmpty(stack[..n]);
      assert t == head + stack[n];
      OnlySlash(t, head, stack[n], start);
      assert n == 0 ==> stack[..n] == [];
    }
  }

  /** The last slash of a text is at the end of its head. */
  lemma OnlySlash(t: string, head: string, last: string, start: nat)
    requires t == head + last && NoSlash(last) && (head != "" ==> head[|head| - 1] == SLASH)
    requires start <= |t| && NoSlash(t[start..]) && (start > 0 ==> t[start - 1] == SLASH)
    ensures start == |head|
  {
    forall k | start <= k < |t|
      ensures t[k] != SLASH
    {
      assert t[start..][k - start] == t[k];
    }
    forall k | |head| <= k < |t|
      ensures t[k] != SLASH
    {
      assert last[k - |head|] == t[k];
    }
    assert head != "" ==> t[|head| - 1] == SLASH;
  }

  function Larger(a: nat, b: nat): nat { if a < b then b else a }

  /** Normalises into a buffer one longer than the input, which is never overrun. */
  method Normalize(input: string) returns (output: string)
    ensures output == Normal(input)
  {
    hide Fold, Push, Split, Join, Canonical, Text, Needed, NoSlash;
    var buffer := new char[|input| + 1](i => '\0');
    var abs := IsAbsolute(input);
    var length := 0;
    if abs {
      buffer[0] := SLASH;
      length := 1;
    }
    var parts := Split(input);
    NeededSplit(input);
    StartText(abs, parts);
    for i := 0 to |parts|
      invariant 0 <= length <= buffer.Length && (length == 0 ==> !abs)
      invariant length <= Larger(if abs then 1 else 0, Needed(parts[..i]))
      invariant buffer[..length] == Text(abs, Fold(abs, parts[..i])) && Canonical(abs, Fold(abs, parts[..i]))
    {
      var component := parts[i];
      ghost var stack := Fold(abs, parts[..i]);
      NextPart(abs, parts, i);
      NeededPrefix(parts, i + 1);
      FirstPart(input, i);
      length := AddComponent(buffer, length, abs, component, stack);
    }
    assert parts[..|parts|] == parts;
    if length == 0 {
      buffer[0] := '.';
      length := 1;
    }
    output := buffer[..length];
  }

  lemma StartText(abs: bool, parts: seq<string>)
    ensures Fold(abs, parts[..0]) == [] && Canonical(abs, []) && Text(abs, []) == if abs then "/" else ""
    ensures Needed(parts[..0]) == 0
  {
  }

  lemma NextPart(abs: bool, parts: seq<string>, i: nat)
    requires i < |parts| && Canonical(abs, Fold(abs, parts[..i])) && NoSlash(parts[i])
    ensures Fold(abs, parts[..i + 1]) == Push(abs, Fold(abs, parts[..i]), parts[i])
    ensures Canonical(abs, Fold(abs, parts[..i + 1]))
    ensures Needed(parts[..i + 1]) == Needed(parts[..i]) + |parts[i]| + 1
  {
    assert parts[..i + 1][..i] == parts[..i];
    PushCanonical(abs, Fold(abs, parts[..i]), parts[i]);
  }

  /** The first piece of an absolute path is empty, so it needs its one byte. */
  lemma FirstPart(input: string, i: nat)
    requires i < |Split(input)|
    ensures IsAbsolute(input) && i == 0 ==> Split(input)[i] == ""
    ensures IsAbsolute(input) && i > 0 ==> Needed(Split(input)[..i]) >= 1
  {
    if i > 0 {
      var front := Split(input)[..i];
      assert Needed(front) == Needed(front[..|front| - 1]) + |front[|front| - 1]| + 1;
    }
  }

  /** Takes the last component away if `..` may do so. */
  method Pop(buffer: array<char>, length: nat, abs: bool, ghost stack: seq<string>) returns (popped: bool, end: nat)
    requires length <= buffer.Length && (length == 0 ==> !abs) && Canonical(abs, stack)
    requires buffer[..length] == Text(abs, stack)
    ensures popped <==> stack != [] && stack[|stack| - 1] != ".."
    ensures popped ==> end <= length && (end == 0 ==> !abs) && buffer[..end] == Text(abs, stack[..|stack| - 1])
  {
    hide Canonical, Join, Text;
    var start := LastComponent(buffer, length);
    assert buffer[..length][start..] == buffer[start..length];
    LastInText(abs, stack, start);
    popped := start < length && buffer[start..length] != "..";
    end := Larger(if start > 0 then start - 1 else 0, if abs then 1 else 0);
    if popped {
      assert buffer[..end] == buffer[..length][..end];
    }
  }

  /** Writes a component, behind a slash if there is none. */
  method Append(buffer: array<char>, length: nat, abs: bool, component: string, ghost stack: seq<string>)
    returns (end: nat)
    requires length <= buffer.Length && Canonical(abs, stack) && buffer[..length] == Text(abs, stack)
    requires length + (if length == 0 || buffer[length - 1] == SLASH then 0 else 1) + |component| <= buffer.Length
    modifies buffer
    ensures length + |component| <= end <= buffer.Length && end <= length + 1 + |component|
    ensures buffer[..end] == Text(abs, stack + [component])
  {
    hide Canonical, Join, Text;
    end := length;
    LastCharacter(abs, stack);
    TextEmpty(abs, stack);
    PushText(abs, stack, component);
    if end != 0 && buffer[end - 1] != SLASH {
      buffer[end] := SLASH;
      end := end + 1;
    }
    ghost var before := buffer[..end];
    for k := 0 to |component|
      invariant end + |component| <= buffer.Length && buffer[..end + k] == before + component[..k]
    {
      buffer[end + k] := component[k];
    }
    assert component[..|component|] == component;
    end := end + |component|;
  }

  /** One component in the buffer. */
  method AddComponent(buffer: array<char>, length: nat, abs: bool, component: string, ghost stack: seq<string>)
    returns (end: nat)
    requires length <= buffer.Length && (length == 0 ==> !abs)
    requires Canonical(abs, stack) && buffer[..length] == Text(abs, stack)
    requires !Ignored(component) ==>
      length + (if length == 0 || buffer[length - 1] == SLASH then 0 else 1) + |component| <= buffer.Length
    modifies buffer
    ensures end <= buffer.Length && (end == 0 ==> !abs) && buffer[..end] == Text(abs, Push(abs, stack, component))
    ensures end <= length || end <= length + 1 + |component|
    ensures Ignored(component) ==> end == length
  {
    hide Canonical, Join, Text;
    if component == "" || component == "." {
      return length;
    }
    if component == ".." {
      var popped;
      popped, end := Pop(buffer, length, abs, stack);
      if popped {
        return;
      }
      if abs {
        return length;
      }
    }
    end := Append(buffer, length, abs, component, stack);
  }

  lemma CanonicalSlashes(abs: bool, stack: seq<string>)
    requires Canonical(abs, stack)
    ensures forall c :: c in stack ==> NoSlash(c)
  {
  }

  lemma TextEmpty(abs: bool, stack: seq<string>)
    requires Canonical(abs, stack)
    ensures Text(abs, stack) == "" ==> stack == []
  {
    JoinNotEmpty(stack);
  }

  lemma LastCharacter(abs: bool, stack: seq<string>)
    requires Canonical(abs, stack)
    ensures var t := Text(abs, stack); t != "" ==> (t[|t| - 1] == SLASH <==> stack == [])
  {
    JoinNotEmpty(stack);
    if stack != [] {
      var last := stack[|stack| - 1];
      assert Join(stack)[|Join(stack)| - 1] == last[|last| - 1];
    }
  }

  lemma PushText(abs: bool, stack: seq<string>, c: string)
    ensures Text(abs, stack + [c]) == Text(abs, stack) + (if stack == [] then "" else "/") + c
  {
    assert (stack + [c])[..|stack + [c]| - 1] == stack;
  }

  // ----- parents and file names ----------------------------------------------------------

  /** Index behind the last slash of a text, or 0. */
  function Behind(s: string): (i: nat)
    ensures i <= |s| && NoSlash(s[i..]) && (i > 0 ==> s[i - 1] == SLASH)
  {
    if s == "" then 0
    else if s[|s| - 1] == SLASH then |s|
    else
      var i := Behind(s[..|s| - 1]);
      assert s[i..] == s[..|s| - 1][i..] + [s[|s| - 1]];
      i
  }

  /** Parent of a normal path. */
  function Parent(v: string): Option<string> {
    if v == "." || v == "/" then None
    else
      var i := Behind(v);
      Some(if i == 0 then "." else if i == 1 then "/" else v[..i - 1])
  }

  function FileName(v: string): Option<string> {
    if v == "." || v == "/" || v == ".." then None else Some(v[Behind(v)..])
  }

  /** Text of several parts: the last absolute one starts over, and one slash stands
      between the others. */
  function JoinFrom(parts: seq<string>): string {
    if parts == [] then ""
    else
      var before := JoinFrom(parts[..|parts| - 1]);
      var part := parts[|parts| - 1];
      if IsAbsolute(part) then part
      else if before == "" || before[|before| - 1] == SLASH then before + part
      else before + "/" + part
  }

  /** The join loops of the runtime: find the last absolute part, then write. */
  method JoinParts(parts: seq<string>) returns (output: string)
    ensures output == JoinFrom(parts)
  {
    hide JoinFrom;
    JoinNone(parts);
    var start := 0;
    for i := 0 to |parts|
      invariant start <= i && (start > 0 ==> start < i)
      invariant forall k :: start < k < i ==> !IsAbsolute(parts[k])
      invariant start == 0 || IsAbsolute(parts[start])
    {
      if IsAbsolute(parts[i]) {
        start := i;
      }
    }
    output := "";
    var empty, slash := true, false;
    for i := start to |parts|
      invariant (empty <==> output == "") && (!empty ==> (slash <==> output[|output| - 1] == SLASH))
      invariant if i == start && start > 0 then output == "" else output == JoinFrom(parts[..i])
    {
      var part := parts[i];
      JoinNext(parts, i);
      if !empty && !slash {
        output := output + "/";
        slash := true;
      }
      output := output + part;
      if part != "" {
        empty := false;
        slash := part[|part| - 1] == SLASH;
      }
    }
    assert parts[..|parts|] == parts;
  }

  lemma JoinNone(parts: seq<string>)
    ensures JoinFrom(parts[..0]) == ""
  {
  }

  lemma JoinNext(parts: seq<string>, i: nat)
    requires i < |parts|
    ensures var before, part, now := JoinFrom(parts[..i]), parts[i], JoinFrom(parts[..i + 1]);
      if IsAbsolute(part) then now == part
      else if before == "" || before[|before| - 1] == SLASH then now == before + part
      else now == before + "/" + part
  {
    assert parts[..i + 1][..i] == parts[..i];
  }

  /** Joining parent and file name of a normal path gives it back. */
  lemma ParentAndFile(s: string)
    ensures var v := Normal(s);
      Parent(v).Some? && FileName(v).Some? ==> Normal(JoinFrom([Parent(v).value, FileName(v).value])) == v
  {
    hide Fold, Push, Join, Behind, JoinFrom;
    var abs := IsAbsolute(s);
    var stack := Fold(abs, Split(s));
    FoldCanonical(abs, Split(s));
    var v := Normal(s);
    if Parent(v).Some? && FileName(v).Some? {
      StackShown(abs, stack);
      SplitAtLast(abs, stack);
      RejoinsStack(abs, stack);
    }
  }

  lemma StackShown(abs: bool, stack: seq<string>)
    requires Canonical(abs, stack) && Shown(abs, stack) != "." && Shown(abs, stack) != "/"
    ensures stack != []
  {
  }

  /** Where the last slash of a shown stack is. */
  lemma SplitAtLast(abs: bool, stack: seq<string>)
    requires Canonical(abs, stack) && stack != [] && Shown(abs, stack) != "." && Shown(abs, stack) != "/"
    ensures var v, n := Shown(abs, stack), |stack| - 1;
      && Parent(v) == Some(Shown(abs, stack[..n]))
      && (v != ".." ==> FileName(v) == Some(stack[n]))
  {
    hide Canonical, Join, Behind;
    var v, n := Shown(abs, stack), |stack| - 1;
    TextEmpty(abs, stack);
    LastInText(abs, stack, Behind(v));
    FrontCanonical(abs, stack);
    TextEmpty(abs, stack[..n]);
    FirstSlash(abs, stack);
  }

  /** The only slash at the start is that of the root. */
  lemma FirstSlash(abs: bool, stack: seq<string>)
    requires Canonical(abs, stack) && stack != []
    ensures var v := Shown(abs, stack); v == Text(abs, stack) && v != "" && (v[0] == SLASH <==> abs)
  {
    JoinNotEmpty(stack);
  }

  lemma RejoinsStack(abs: bool, stack: seq<string>)
    requires Canonical(abs, stack) && stack != []
    ensures var n := |stack| - 1; Normal(JoinFrom([Shown(abs, stack[..n]), stack[n]])) == Shown(abs, stack)
  {
    hide Fold, Push, Join, Split;
    var n := |stack| - 1;
    var front, last := stack[..n], stack[n];
    var p := Shown(abs, front);
    FrontCanonical(abs, stack);
    ShownAbsolute(abs, front);
    PairJoined(p, last);
    var j := JoinFrom([p, last]);
    SplitShown(abs, front);
    ShownEnd(abs, front);
    assert stack == front + [last];
    FoldFixed(abs, stack);
    FoldFixed(abs, front);
    FoldConcat(abs, front, last);
    if abs && front == [] {
      RootJoined(last);
    } else {
      SplitAppend(p, last);
      FoldConcat(abs, Split(p), last);
    }
  }

  lemma ShownEnd(abs: bool, stack: seq<string>)
    requires Canonical(abs, stack)
    ensures var p := Shown(abs, stack); p != "" && (p[|p| - 1] == SLASH <==> abs && stack == [])
    ensures abs && stack == [] ==> Shown(abs, stack) == "/"
  {
    hide Canonical;
    LastCharacter(abs, stack);
  }

  lemma PairJoined(p: string, c: string)
    requires p != "" && NoSlash(c)
    ensures JoinFrom([p, c]) == if p[|p| - 1] == SLASH then p + c else p + "/" + c
  {
    assert [p, c][..1] == [p] && [p][..0] == [];
    assert JoinFrom([p]) == p;
  }

  lemma RootJoined(c: string)
    requires NoSlash(c)
    ensures Split("/" + c) == ["", c] && Fold(true, ["", c]) == Fold(true, [c])
  {
    SplitWord(c);
    assert ("/" + c)[1..] == c;
    FoldSkip(true, "", [c]);
    assert [""] + [c] == ["", c];
  }
}
